/**
 A node and its upstreams: a video comes from a neighbour exactly if that neighbour is the
 one that was last asked for it and not told to stop. Stated for one arbitrary video `v`
 and one arbitrary neighbour `b`, for every step in which no neighbour is declared dead and
 no queued video moves; the other steps follow in `NodeAgreement`.
 */
module NodeUpstreams {
  import opened Common
  import opened NodeModel
  import opened NodeFailover
  import opened ControlLog

  /** The step declares no neighbour dead. */
  ghost predicate Calm(s: Node, e: Event) {
    match e
    case FloodUnacknowledged(target, _) => target in s.available ==> !s.available[target].status.Active?
    case NeighbourRound(now, _) => AllAlive(s, now)
    case _ => true
  }

  /** Every responsive neighbour has sent a flood packet within the last three seconds. */
  ghost predicate AllAlive(s: Node, now: nat) {
    forall a :: a in s.available && s.available[a].status.Active? ==>
      now <= s.available[a].nodeType.lastFlood + 3_000_000_000
  }

  /** The route says what the control messages to `b` have said. */
  predicate Agrees(s: Node, v: VideoId, b: Addr) {
    s.RoutesTo(v, b) <==> Asked(s.sent, b, v)
  }

  /** Asking `n` for a video ends agreement with the upstream that it had, unless that is `n`. */
  lemma RequestToNodeAgreesIff(s: Node, u: VideoId, n: Addr, v: VideoId, b: Addr)
    requires Agrees(s, v, b)
    ensures Agrees(RequestVideoToNode(s, u, n), v, b) <==> !(u == v && n != b && s.RoutesTo(v, b))
  {
    AskedSnoc(s.sent, n, RequestVideo(u), b, v);
  }

  lemma RequestAgrees(s: Node, u: VideoId, a: Addr, o: Orders, v: VideoId, b: Addr)
    requires Agrees(s, v, b)
    ensures Agrees(HandleRequestVideo(s, u, a, o), v, b)
  {
    var s1 := Subscribe(s, u, a);
    if u !in s1.routes {
      match BestNode(s1, u, o)
      case Some(n) => RequestToNodeAgreesIff(s1, u, n, v, b);
      case None =>
    }
  }

  lemma StopAgrees(s: Node, u: VideoId, a: Addr, v: VideoId, b: Addr)
    requires Agrees(s, v, b)
    ensures Agrees(HandleStopVideo(s, u, a), v, b)
  {
    var s1 := Unsubscribe(s, u, a);
    if s1.SubscribersOf(u) == [] && u in s1.routes {
      AskedSnoc(s1.sent, s1.routes[u], StopVideo(u), b, v);
    }
  }

  lemma {:induction false} StopAllAgrees(s: Node, us: seq<VideoId>, a: Addr, v: VideoId, b: Addr)
    requires Agrees(s, v, b)
    ensures Agrees(StopAll(s, us, a), v, b)
  {
    if us == [] {
    } else {
      StopAllAgrees(s, Front(us), a, v, b);
      StopAgrees(StopAll(s, Front(us), a), Last(us), a, v, b);
    }
  }

  lemma {:induction false} RequestUnroutedAgrees(s: Node, us: seq<VideoId>, a: Addr, o: Orders, v: VideoId, b: Addr)
    requires Agrees(s, v, b)
    ensures Agrees(RequestUnrouted(s, us, a, o), v, b)
  {
    if us == [] {
    } else {
      RequestUnroutedAgrees(s, Front(us), a, o, v, b);
      RequestAgrees(RequestUnrouted(s, Front(us), a, o), Last(us), a, o, v, b);
    }
  }

  lemma {:induction false} StopUnwantedAgrees(s: Node, order: seq<VideoId>, wanted: seq<VideoId>, a: Addr,
                                              v: VideoId, b: Addr)
    requires Agrees(s, v, b)
    ensures Agrees(StopUnwanted(s, order, wanted, a), v, b)
  {
    if order == [] {
    } else {
      StopUnwantedAgrees(s, Front(order), wanted, a, v, b);
      StopAgrees(StopUnwanted(s, Front(order), wanted, a), Last(order), a, v, b);
    }
  }

  lemma PingAgrees(s: Node, ping: nat, requested: seq<VideoId>, a: Addr, now: nat, o: Orders, v: VideoId, b: Addr)
    requires Agrees(s, v, b)
    ensures Agrees(HandleClientPing(s, ping, requested, a, now, o), v, b)
  {
    var s1 := s.(lastPings := s.lastPings[a := now]);
    RequestUnroutedAgrees(s1, requested, a, o, v, b);
    var s2 := RequestUnrouted(s1, requested, a, o);
    StopUnwantedAgrees(s2, InterestedOrder(s2, o), requested, a, v, b);
    var s3 := StopUnwanted(s2, InterestedOrder(s2, o), requested, a);
    AskedSnoc(s3.sent, a, VideoList(ping, GetVideos(s, a, o), now), b, v);
  }

  lemma {:induction false} RequestAllAsks(s: Node, us: seq<VideoId>, n: Addr, v: VideoId, b: Addr)
    ensures Asked(RequestAll(s, us, n).sent, b, v) <==> (n == b && v in us) || Asked(s.sent, b, v)
  {
    if us == [] {
    } else {
      RequestAllAsks(s, Front(us), n, v, b);
      AskedSnoc(RequestAll(s, Front(us), n).sent, n, RequestVideo(Last(us)), b, v);
    }
  }

  /** A flood packet keeps routes and control messages in step, except in exactly one case: it is accepted, it
      comes from another neighbour than the video, and it lists the video while that is queued although
      it has a route, as it may be after its upstream was declared dead with nobody else offering it.
      Then the video moves to the sender without a word to the old upstream. */
  lemma FloodKeepsAgreementIff(s: Node, from: Addr, p: FloodPacket, now: nat, o: Orders, v: VideoId, b: Addr)
    requires Agrees(s, v, b)
    ensures Agrees(HandleFloodPacket(s, from, p, now, o), v, b) <==>
      !(s.id !in p.visited && s.RoutesTo(v, b) && from != b && v in s.pending && v in Ids(p.videos))
  {
    if s.id !in p.visited {
      var s1 := RecordFlood(s, from, p, now);
      var ready := Queued(s1.pending, Ids(p.videos));
      RequestAllRoutes(s1, ready, from, v);
      RequestAllAsks(s1, ready, from, v, b);
    }
  }

  lemma {:induction false} DropSilentClientsAgrees(s: Node, order: seq<Addr>, now: nat, o: Orders, v: VideoId, b: Addr)
    requires Agrees(s, v, b) && forall a :: a in order ==> a in s.lastPings
    ensures Agrees(DropSilentClients(s, order, now, o), v, b)
  {
    if order == [] {
    } else {
      DropSilentClientsAgrees(s, Front(order), now, o, v, b);
      var s1 := DropSilentClients(s, Front(order), now, o);
      StopAllAgrees(s1, Sending(s1, Last(order), o), Last(order), v, b);
    }
  }

  lemma {:induction false} RequestAgainAgrees(s: Node, order: seq<VideoId>, now: nat, v: VideoId, b: Addr)
    requires Agrees(s, v, b) && forall u :: u in order ==> u in s.lastVideoTime
    ensures Agrees(RequestAgain(s, order, now), v, b)
  {
    if order == [] {
    } else {
      RequestAgainAgrees(s, Front(order), now, v, b);
      var s1 := RequestAgain(s, Front(order), now);
      if Last(order) in s1.routes {
        RequestToNodeAgreesIff(s1, Last(order), s1.routes[Last(order)], v, b);
      }
    }
  }

  lemma NobodyDies(s: Node, now: nat, o: Orders)
    requires AllAlive(s, now)
    ensures CheckNeighbours(s, now, o) == s
  {
    var dead := StaleParents(s, RouteTableOrder(s, o), now);
    assert dead == [] by {
      assert dead != [] ==> Last(dead) in dead;
    }
  }

  // ----- while nobody dies, queued videos have no route

  predicate QueuedUnrouted(s: Node, v: VideoId) {
    v in s.pending ==> v !in s.routes
  }

  lemma RequestKeepsUnrouted(s: Node, u: VideoId, a: Addr, o: Orders, v: VideoId)
    requires QueuedUnrouted(s, v) && Safe(s, v)
    ensures QueuedUnrouted(HandleRequestVideo(s, u, a, o), v)
  {
    var s1 := Subscribe(s, u, a);
    if u !in s1.routes {
      match BestNode(s1, u, o)
      case Some(n) =>
      case None =>
    }
  }

  lemma {:induction false} RequestUnroutedKeepsUnrouted(s: Node, us: seq<VideoId>, a: Addr, o: Orders, v: VideoId)
    requires QueuedUnrouted(s, v) && Safe(s, v)
    ensures QueuedUnrouted(RequestUnrouted(s, us, a, o), v)
  {
    if us == [] {
    } else {
      RequestUnroutedKeepsUnrouted(s, Front(us), a, o, v);
      RequestUnroutedKeeps(s, Front(us), a, o, v);
      RequestKeepsUnrouted(RequestUnrouted(s, Front(us), a, o), Last(us), a, o, v);
    }
  }

  lemma {:induction false} StopUnwantedAddsNoRoute(s: Node, order: seq<VideoId>, wanted: seq<VideoId>, a: Addr,
                                                   v: VideoId)
    ensures v in StopUnwanted(s, order, wanted, a).routes ==> v in s.routes
  {
    if order == [] {
    } else {
      StopUnwantedAddsNoRoute(s, Front(order), wanted, a, v);
    }
  }

  lemma {:induction false} StopAllAddsNoRoute(s: Node, us: seq<VideoId>, a: Addr, v: VideoId)
    ensures v in StopAll(s, us, a).routes ==> v in s.routes
  {
    if us == [] {
    } else {
      StopAllAddsNoRoute(s, Front(us), a, v);
    }
  }

  lemma {:induction false} DropSilentClientsAddsNoRoute(s: Node, order: seq<Addr>, now: nat, o: Orders, v: VideoId)
    requires forall a :: a in order ==> a in s.lastPings
    ensures v in DropSilentClients(s, order, now, o).routes ==> v in s.routes
  {
    if order == [] {
    } else {
      DropSilentClientsAddsNoRoute(s, Front(order), now, o, v);
      var s1 := DropSilentClients(s, Front(order), now, o);
      StopAllAddsNoRoute(s1, Sending(s1, Last(order), o), Last(order), v);
    }
  }

  lemma {:induction false} RequestAgainKeepsRoutes(s: Node, order: seq<VideoId>, now: nat)
    requires forall u :: u in order ==> u in s.lastVideoTime
    ensures RequestAgain(s, order, now).routes == s.routes
  {
    if order == [] {
    } else {
      RequestAgainKeepsRoutes(s, Front(order), now);
    }
  }

  lemma FloodKeepsUnrouted(s: Node, from: Addr, p: FloodPacket, now: nat, o: Orders, v: VideoId)
    requires QueuedUnrouted(s, v)
    ensures QueuedUnrouted(HandleFloodPacket(s, from, p, now, o), v)
  {
    if s.id !in p.visited {
      var s1 := RecordFlood(s, from, p, now);
      RequestAllRoutes(s1, Queued(s1.pending, Ids(p.videos)), from, v);
    }
  }

  lemma PacketKeepsUnrouted(s: Node, p: Packet, from: Addr, now: nat, o: Orders, v: VideoId)
    requires QueuedUnrouted(s, v) && Safe(s, v)
    ensures QueuedUnrouted(HandlePacket(s, p, from, now, o), v)
  {
    match p
    case ClientPing(ping, requested) =>
      var s1 := s.(lastPings := s.lastPings[from := now]);
      RequestUnroutedKeepsUnrouted(s1, requested, from, o, v);
      var s2 := RequestUnrouted(s1, requested, from, o);
      StopUnwantedAddsNoRoute(s2, InterestedOrder(s2, o), requested, from, v);
    case Flood(flood) => FloodKeepsUnrouted(s, from, flood, now, o, v);
    case RequestVideo(u) => RequestKeepsUnrouted(s, u, from, o, v);
    case _ =>
  }

  /** Every step that declares no neighbour dead keeps queued videos without a route. */
  lemma StepKeepsUnrouted(s: Node, e: Event, v: VideoId)
    requires QueuedUnrouted(s, v) && Safe(s, v) && Calm(s, e)
    ensures QueuedUnrouted(Apply(s, e), v)
  {
    match e
    case Received(p, from, now, o) => PacketKeepsUnrouted(s, p, from, now, o, v);
    case NeighbourRound(now, o) => NobodyDies(s, now, o);
    case ClientRound(now, o) => DropSilentClientsAddsNoRoute(s, PingsOrder(s, o), now, o, v);
    case VideoRound(now, o) => RequestAgainKeepsRoutes(s, TimesOrder(s, o), now);
    case _ =>
  }

  // ----- requests go to those who offer the video

  predicate Requested(s: Node, b: Addr, v: VideoId) {
    RequestVideo(v) in Channel(s.sent, b)
  }

  /** `b` has advertised the video, and is responsive if that is asked for. */
  predicate Advertises(s: Node, b: Addr, v: VideoId, alive: bool) {
    b in s.available && v in s.available[b].videos && (alive ==> s.available[b].status.Active?)
  }

  /** If `b` has been asked for `v`, then either long ago or it has advertised `v`; and a video never comes
      from a neighbour that has not been asked. */
  ghost predicate Backed(s: Node, v: VideoId, b: Addr, longAgo: bool, alive: bool) {
    && (Requested(s, b, v) ==> longAgo || Advertises(s, b, v, alive))
    && (s.RoutesTo(v, b) ==> Requested(s, b, v))
  }

  lemma RequestToNodeBacked(s: Node, u: VideoId, n: Addr, v: VideoId, b: Addr, longAgo: bool, alive: bool)
    requires Backed(s, v, b, longAgo, alive) && (u == v && n == b ==> longAgo || Advertises(s, b, v, alive))
    ensures Backed(RequestVideoToNode(s, u, n), v, b, longAgo, alive)
  {
    ChannelSnoc(s.sent, Reliable(n, RequestVideo(u)), b);
  }

  lemma RequestBacked(s: Node, u: VideoId, a: Addr, o: Orders, v: VideoId, b: Addr, longAgo: bool, alive: bool)
    requires Backed(s, v, b, longAgo, alive)
    ensures Backed(HandleRequestVideo(s, u, a, o), v, b, longAgo, alive)
  {
    var s1 := Subscribe(s, u, a);
    if u !in s1.routes {
      match BestNode(s1, u, o)
      case Some(n) => RequestToNodeBacked(s1, u, n, v, b, longAgo, alive);
      case None =>
    }
  }

  lemma StopBacked(s: Node, u: VideoId, a: Addr, v: VideoId, b: Addr, longAgo: bool, alive: bool)
    requires Backed(s, v, b, longAgo, alive)
    ensures Backed(HandleStopVideo(s, u, a), v, b, longAgo, alive)
  {
    var s1 := Unsubscribe(s, u, a);
    if s1.SubscribersOf(u) == [] && u in s1.routes {
      ChannelSnoc(s1.sent, Reliable(s1.routes[u], StopVideo(u)), b);
    }
  }

  lemma {:induction false} StopAllBacked(s: Node, us: seq<VideoId>, a: Addr, v: VideoId, b: Addr, longAgo: bool,
                                         alive: bool)
    requires Backed(s, v, b, longAgo, alive)
    ensures Backed(StopAll(s, us, a), v, b, longAgo, alive)
  {
    if us == [] {
    } else {
      StopAllBacked(s, Front(us), a, v, b, longAgo, alive);
      StopBacked(StopAll(s, Front(us), a), Last(us), a, v, b, longAgo, alive);
    }
  }

  lemma {:induction false} RequestUnroutedBacked(s: Node, us: seq<VideoId>, a: Addr, o: Orders, v: VideoId, b: Addr,
                                                 longAgo: bool, alive: bool)
    requires Backed(s, v, b, longAgo, alive)
    ensures Backed(RequestUnrouted(s, us, a, o), v, b, longAgo, alive)
  {
    if us == [] {
    } else {
      RequestUnroutedBacked(s, Front(us), a, o, v, b, longAgo, alive);
      RequestBacked(RequestUnrouted(s, Front(us), a, o), Last(us), a, o, v, b, longAgo, alive);
    }
  }

  lemma {:induction false} StopUnwantedBacked(s: Node, order: seq<VideoId>, wanted: seq<VideoId>, a: Addr,
                                              v: VideoId, b: Addr, longAgo: bool, alive: bool)
    requires Backed(s, v, b, longAgo, alive)
    ensures Backed(StopUnwanted(s, order, wanted, a), v, b, longAgo, alive)
  {
    if order == [] {
    } else {
      StopUnwantedBacked(s, Front(order), wanted, a, v, b, longAgo, alive);
      StopBacked(StopUnwanted(s, Front(order), wanted, a), Last(order), a, v, b, longAgo, alive);
    }
  }

  lemma PingBacked(s: Node, ping: nat, requested: seq<VideoId>, a: Addr, now: nat, o: Orders, v: VideoId, b: Addr,
                   longAgo: bool, alive: bool)
    requires Backed(s, v, b, longAgo, alive)
    ensures Backed(HandleClientPing(s, ping, requested, a, now, o), v, b, longAgo, alive)
  {
    var s1 := s.(lastPings := s.lastPings[a := now]);
    RequestUnroutedBacked(s1, requested, a, o, v, b, longAgo, alive);
    var s2 := RequestUnrouted(s1, requested, a, o);
    StopUnwantedBacked(s2, InterestedOrder(s2, o), requested, a, v, b, longAgo, alive);
    AnswerBacked(StopUnwanted(s2, InterestedOrder(s2, o), requested, a),
                 Reliable(a, VideoList(ping, GetVideos(s, a, o), now)), v, b, longAgo, alive);
  }

  lemma AnswerBacked(s: Node, e: Envelope, v: VideoId, b: Addr, longAgo: bool, alive: bool)
    requires Backed(s, v, b, longAgo, alive) && e.body.VideoList?
    ensures Backed(Send(s, e), v, b, longAgo, alive)
  {
    ChannelSnoc(s.sent, e, b);
  }

  lemma {:induction false} RequestAllBacked(s: Node, us: seq<VideoId>, n: Addr, v: VideoId, b: Addr, longAgo: bool,
                                            alive: bool)
    requires Backed(s, v, b, longAgo, alive) && (v in us && n == b ==> Advertises(s, b, v, alive))
    ensures Backed(RequestAll(s, us, n), v, b, longAgo, alive)
  {
    if us == [] {
    } else {
      RequestAllBacked(s, Front(us), n, v, b, longAgo, alive);
      RequestToNodeBacked(RequestAll(s, Front(us), n), Last(us), n, v, b, longAgo, alive);
    }
  }

  lemma {:induction false} DropSilentClientsBacked(s: Node, order: seq<Addr>, now: nat, o: Orders, v: VideoId,
                                                   b: Addr, longAgo: bool, alive: bool)
    requires Backed(s, v, b, longAgo, alive) && forall a :: a in order ==> a in s.lastPings
    ensures Backed(DropSilentClients(s, order, now, o), v, b, longAgo, alive)
  {
    if order == [] {
    } else {
      DropSilentClientsBacked(s, Front(order), now, o, v, b, longAgo, alive);
      var s1 := DropSilentClients(s, Front(order), now, o);
      StopAllBacked(s1, Sending(s1, Last(order), o), Last(order), v, b, longAgo, alive);
    }
  }

  lemma {:induction false} RequestAgainBacked(s: Node, order: seq<VideoId>, now: nat, v: VideoId, b: Addr,
                                              longAgo: bool, alive: bool)
    requires Backed(s, v, b, longAgo, alive)
    requires forall u :: u in order ==> u in s.lastVideoTime
    ensures Backed(RequestAgain(s, order, now), v, b, longAgo, alive)
  {
    if order == [] {
    } else {
      RequestAgainBacked(s, Front(order), now, v, b, longAgo, alive);
      var s1 := RequestAgain(s, Front(order), now);
      if Last(order) in s1.routes {
        RequestToNodeBacked(s1, Last(order), s1.routes[Last(order)], v, b, longAgo, alive);
      }
    }
  }

  lemma {:induction false} RedirectBacked(s: Node, us: seq<VideoId>, o: Orders, v: VideoId, b: Addr, longAgo: bool,
                                          alive: bool)
    requires Backed(s, v, b, longAgo, alive)
    ensures Backed(Redirect(s, us, o).0, v, b, longAgo, alive)
  {
    if us == [] {
    } else {
      RedirectBacked(s, Front(us), o, v, b, longAgo, alive);
      var s1 := Redirect(s, Front(us), o).0;
      match BestNode(s1, Last(us), o)
      case Some(n) => RequestToNodeBacked(s1, Last(us), n, v, b, longAgo, alive);
      case None =>
    }
  }

  lemma QueueRemainingBacked(s: Node, a: Addr, remaining: seq<VideoId>, v: VideoId, b: Addr, longAgo: bool, alive: bool)
    requires Backed(s, v, b, longAgo, alive)
    ensures Backed(QueueRemaining(s, a, remaining), v, b, longAgo, alive)
  {
    OtherPacketsPass(s.sent, if remaining == [] then [] else Introductions(s.addr, ParentsOf(s, a)), b);
  }

  lemma UnresponsiveBacked(s: Node, a: Addr, o: Orders, v: VideoId, b: Addr, longAgo: bool, alive: bool)
    requires Backed(s, v, b, longAgo, alive)
    ensures Backed(HandleUnresponsiveNode(s, a, o), v, b, longAgo, alive)
  {
    var sending, receiving := Sending(s, a, o), Receiving(s, a, o);
    var s1 := StopAll(s, sending, a);
    StopAllBacked(s, sending, a, v, b, longAgo, alive);
    RedirectBacked(s1, receiving, o, v, b, longAgo, alive);
    QueueRemainingBacked(Redirect(s1, receiving, o).0, a, Redirect(s1, receiving, o).1, v, b, longAgo, alive);
  }

  lemma {:induction false} BuryBacked(s: Node, dead: seq<Addr>, o: Orders, v: VideoId, b: Addr, longAgo: bool)
    requires Backed(s, v, b, longAgo, false) && forall a :: a in dead ==> a in s.available
    ensures Backed(Bury(s, dead, o), v, b, longAgo, false)
  {
    if dead == [] {
    } else {
      BuryBacked(s, Front(dead), o, v, b, longAgo);
      UnresponsiveBacked(MarkUnresponsive(Bury(s, Front(dead), o), Last(dead)), Last(dead), o, v, b, longAgo, false);
    }
  }

  lemma PacketBacked(s: Node, p: Packet, from: Addr, now: nat, o: Orders, v: VideoId, b: Addr)
    requires s.RoutesTo(v, b) ==> Requested(s, b, v)
    ensures Backed(HandlePacket(s, p, from, now, o), v, b, Requested(s, b, v), true)
  {
    var longAgo := Requested(s, b, v);
    match p
    case ClientPing(ping, requested) => PingBacked(s, ping, requested, from, now, o, v, b, longAgo, true);
    case Flood(flood) =>
      if s.id !in flood.visited {
        var s1 := RecordFlood(s, from, flood, now);
        RequestAllBacked(s1, Queued(s1.pending, Ids(flood.videos)), from, v, b, longAgo, true);
      }
    case RequestVideo(u) => RequestBacked(s, u, from, o, v, b, longAgo, true);
    case StopVideo(u) => StopBacked(s, u, from, v, b, longAgo, true);
    case _ =>
  }

  /** In any step, a neighbour that is asked for `v` for the first time has advertised it, and is responsive
      unless it is declared dead in the same round; and no video comes from a neighbour that has
      never been asked for it. */
  lemma FirstRequestIsBacked(s: Node, e: Event, v: VideoId, b: Addr)
    requires s.RoutesTo(v, b) ==> Requested(s, b, v)
    ensures Backed(Apply(s, e), v, b, Requested(s, b, v), !e.NeighbourRound?)
  {
    var longAgo := Requested(s, b, v);
    match e
    case Received(p, from, now, o) => PacketBacked(s, p, from, now, o, v, b);
    case FloodUnacknowledged(target, o) =>
      if target in s.available && s.available[target].status.Active? {
        UnresponsiveBacked(MarkUnresponsive(s, target), target, o, v, b, longAgo, true);
      }
    case ParentAcknowledged(parent) =>
    case NeighbourRound(now, o) => BuryBacked(s, StaleParents(s, RouteTableOrder(s, o), now), o, v, b, longAgo);
    case ClientRound(now, o) => DropSilentClientsBacked(s, PingsOrder(s, o), now, o, v, b, longAgo, true);
    case VideoRound(now, o) => RequestAgainBacked(s, TimesOrder(s, o), now, v, b, longAgo, true);
  }
}
