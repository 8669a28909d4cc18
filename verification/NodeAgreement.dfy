/**
 When routes and control messages stay in step: for every step of a node, including deaths of
 neighbours, exactly when `Agrees` survives it; and two runs in which it does not.
 */
module NodeAgreement {
  import opened Common
  import opened NodeModel
  import opened NodeFailover
  import opened NodeReactions
  import opened NodeUpstreams
  import opened Recovery
  import opened ControlLog

  // ----- the death of the upstream itself

  lemma {:induction false} RedirectSparesTheDead(s: Node, us: seq<VideoId>, o: Orders, a: Addr, v: VideoId)
    requires a in s.available && !s.available[a].status.Active?
    ensures Asked(Redirect(s, us, o).0.sent, a, v) <==> Asked(s.sent, a, v)
  {
    if us == [] {
    } else {
      RedirectSparesTheDead(s, Front(us), o, a, v);
      var s1 := Redirect(s, Front(us), o).0;
      match BestNode(s1, Last(us), o)
      case Some(n) => AskedSnoc(s1.sent, n, RequestVideo(Last(us)), a, v);
      case None =>
    }
  }

  lemma QueueingSparesTheDead(s: Node, a: Addr, remaining: seq<VideoId>, v: VideoId)
    ensures Asked(QueueRemaining(s, a, remaining).sent, a, v) <==> Asked(s.sent, a, v)
  {
    OtherPacketsPass(s.sent, if remaining == [] then [] else Introductions(s.addr, ParentsOf(s, a)), a);
  }

  /** Whether the video still comes from `a`, as seen after the subscriptions of `a` have ended. */
  lemma EndedAt(s: Node, a: Addr, o: Orders, v: VideoId)
    requires Agrees(s, v, a)
    ensures var s2 := StopAll(s, Sending(s, a, o), a);
      && (s2.RoutesTo(v, a) <==> s.RoutesTo(v, a) && s.SubscribersOf(v) != [a])
      && Agrees(s2, v, a)
  {
    StopAllAgrees(s, Sending(s, a, o), a, v, a);
    StopAllAt(s, Sending(s, a, o), a, v);
    if a in s.SubscribersOf(v) {
      OnlySubscriber(s.SubscribersOf(v), a);
    }
  }

  /** What the death of `a` does to a video that may come from it. */
  lemma DeathAt(s: Node, a: Addr, o: Orders, v: VideoId)
    requires Agrees(s, v, a) && a in s.available
    ensures var s1 := MarkUnresponsive(s, a);
      var s' := HandleUnresponsiveNode(s1, a, o);
      && (s'.RoutesTo(v, a) <==> s.RoutesTo(v, a) && !s1.Offered(v) && s.SubscribersOf(v) != [a])
      && (Asked(s'.sent, a, v) <==> s.RoutesTo(v, a) && s.SubscribersOf(v) != [a])
  {
    var s1 := MarkUnresponsive(s, a);
    var sending, receiving := Sending(s1, a, o), Receiving(s1, a, o);
    var s2 := StopAll(s1, sending, a);
    EndedAt(s1, a, o, v);
    RedirectSparesTheDead(s2, receiving, o, a, v);
    RedirectLeavesUnoffered(s2, receiving, o, v);
    QueueingSparesTheDead(Redirect(s2, receiving, o).0, a, Redirect(s2, receiving, o).1, v);
  }

  /** The video came from `a`, somebody else offers it, and it is not the case that `a` alone watches it. */
  ghost predicate Abandoned(s: Node, a: Addr, v: VideoId)
    requires a in s.available
  {
    s.RoutesTo(v, a) && MarkUnresponsive(s, a).Offered(v) && s.SubscribersOf(v) != [a]
  }

  /** Routes and control messages stay in step with a neighbour that is declared dead, except in exactly one
      case: the video is redirected without a word to the old upstream, which, should it be alive after
      all, goes on sending it. */
  lemma DeathKeepsAgreementIff(s: Node, a: Addr, o: Orders, v: VideoId)
    requires Agrees(s, v, a) && a in s.available
    ensures Agrees(HandleUnresponsiveNode(MarkUnresponsive(s, a), a, o), v, a) <==> !Abandoned(s, a, v)
  {
    DeathAt(s, a, o, v);
  }

  /** In particular, when somebody else watches a video that is redirected, the old upstream stays asked. */
  lemma RedirectLeavesOldUpstreamAsked(s: Node, a: Addr, o: Orders, v: VideoId, b: Addr)
    requires Agrees(s, v, a) && s.RoutesTo(v, a) && a in s.available
    requires b in s.SubscribersOf(v) && b != a && MarkUnresponsive(s, a).Offered(v)
    ensures var s' := HandleUnresponsiveNode(MarkUnresponsive(s, a), a, o);
      !s'.RoutesTo(v, a) && Asked(s'.sent, a, v)
  {
    DeathAt(s, a, o, v);
  }

  // ----- the death of somebody else

  /** Redirecting each video once keeps agreement with everybody whose videos are not among them. */
  lemma {:induction false} RedirectAgrees(s: Node, us: seq<VideoId>, o: Orders, v: VideoId, b: Addr)
    requires Agrees(s, v, b) && NoDuplicates(us) && (v in us ==> !s.RoutesTo(v, b))
    ensures Agrees(Redirect(s, us, o).0, v, b)
  {
    if us == [] {
    } else {
      RedirectAgrees(s, Front(us), o, v, b);
      RedirectLeavesUnoffered(s, Front(us), o, v);
      var s1 := Redirect(s, Front(us), o).0;
      assert v == Last(us) ==> v !in Front(us);
      match BestNode(s1, Last(us), o)
      case Some(n) => RequestToNodeAgreesIff(s1, Last(us), n, v, b);
      case None =>
    }
  }

  lemma QueueingAgrees(s: Node, a: Addr, remaining: seq<VideoId>, v: VideoId, b: Addr)
    ensures Agrees(QueueRemaining(s, a, remaining), v, b) <==> Agrees(s, v, b)
  {
    OtherPacketsPass(s.sent, if remaining == [] then [] else Introductions(s.addr, ParentsOf(s, a)), b);
  }

  lemma OtherDeathAgrees(s: Node, a: Addr, o: Orders, v: VideoId, b: Addr)
    requires Agrees(s, v, b) && a in s.available && a != b
    ensures Agrees(HandleUnresponsiveNode(MarkUnresponsive(s, a), a, o), v, b)
  {
    var s1 := MarkUnresponsive(s, a);
    var sending, receiving := Sending(s1, a, o), Receiving(s1, a, o);
    var s2 := StopAll(s1, sending, a);
    StopAllAgrees(s1, sending, a, v, b);
    StopAllAt(s1, sending, a, v);
    ReceivingOnce(s1, a, o);
    RedirectAgrees(s2, receiving, o, v, b);
    QueueingAgrees(Redirect(s2, receiving, o).0, a, Redirect(s2, receiving, o).1, v, b);
  }

  // ----- a round in which several die

  /** `b` has been asked for the video, which does not come from it, and is not considered responsive. */
  predicate Forgotten(s: Node, v: VideoId, b: Addr) {
    && !s.RoutesTo(v, b) && Asked(s.sent, b, v)
    && b in s.available && !s.available[b].status.Active?
  }

  lemma StopSparesForgotten(s: Node, u: VideoId, a: Addr, v: VideoId, b: Addr)
    requires Forgotten(s, v, b)
    ensures Forgotten(HandleStopVideo(s, u, a), v, b)
  {
    var s1 := Unsubscribe(s, u, a);
    if s1.SubscribersOf(u) == [] && u in s1.routes {
      AskedSnoc(s1.sent, s1.routes[u], StopVideo(u), b, v);
    }
  }

  lemma {:induction false} StopAllSparesForgotten(s: Node, us: seq<VideoId>, a: Addr, v: VideoId, b: Addr)
    requires Forgotten(s, v, b)
    ensures Forgotten(StopAll(s, us, a), v, b)
  {
    if us == [] {
    } else {
      StopAllSparesForgotten(s, Front(us), a, v, b);
      StopSparesForgotten(StopAll(s, Front(us), a), Last(us), a, v, b);
    }
  }

  lemma DeathSparesForgotten(s: Node, a: Addr, o: Orders, v: VideoId, b: Addr)
    requires Forgotten(s, v, b) && a in s.available
    ensures Forgotten(HandleUnresponsiveNode(MarkUnresponsive(s, a), a, o), v, b)
  {
    var s1 := MarkUnresponsive(s, a);
    var sending, receiving := Sending(s1, a, o), Receiving(s1, a, o);
    var s2 := StopAll(s1, sending, a);
    StopAllSparesForgotten(s1, sending, a, v, b);
    RedirectSparesTheDead(s2, receiving, o, b, v);
    RedirectLeavesUnoffered(s2, receiving, o, v);
    var (s3, remaining) := Redirect(s2, receiving, o);
    OtherPacketsPass(s3.sent, if remaining == [] then [] else Introductions(s.addr, ParentsOf(s3, a)), b);
  }

  /** When the turn of `b` comes, after those buried before it, the video is abandoned. */
  ghost predicate BuryAbandons(s: Node, dead: seq<Addr>, o: Orders, v: VideoId, b: Addr)
    requires forall a :: a in dead ==> a in s.available
  {
    dead != []
    && (BuryAbandons(s, Front(dead), o, v, b) || (Last(dead) == b && Abandoned(Bury(s, Front(dead), o), b, v)))
  }

  /** Whatever the order in which neighbours are buried: agreement with `b` ends if and only if it is lost at
      `b`'s own turn; an earlier redirect to `b` counts, and no later one repairs it. */
  lemma {:induction false} BuryKeepsAgreementIff(s: Node, dead: seq<Addr>, o: Orders, v: VideoId, b: Addr)
    requires Agrees(s, v, b) && forall a :: a in dead ==> a in s.available
    ensures Agrees(Bury(s, dead, o), v, b) <==> !BuryAbandons(s, dead, o, v, b)
    ensures BuryAbandons(s, dead, o, v, b) ==> Forgotten(Bury(s, dead, o), v, b)
  {
    if dead == [] {
    } else {
      var s1, a := Bury(s, Front(dead), o), Last(dead);
      BuryKeepsAgreementIff(s, Front(dead), o, v, b);
      if BuryAbandons(s, Front(dead), o, v, b) {
        DeathSparesForgotten(s1, a, o, v, b);
      } else if a == b {
        DeathAt(s1, b, o, v);
      } else {
        OtherDeathAgrees(s1, a, o, v, b);
      }
    }
  }

  // ----- every step

  /** The step takes the video from `b`, from which it came, without telling it. */
  ghost predicate Abandons(s: Node, e: Event, v: VideoId, b: Addr) {
    match e
    case Received(p, from, _, _) =>
      && p.Flood? && s.id !in p.flood.visited
      && s.RoutesTo(v, b) && from != b && v in s.pending && v in Ids(p.flood.videos)
    case FloodUnacknowledged(target, _) =>
      target == b && b in s.available && s.available[b].status.Active? && Abandoned(s, b, v)
    case NeighbourRound(now, o) => BuryAbandons(s, StaleParents(s, RouteTableOrder(s, o), now), o, v, b)
    case _ => false
  }

  lemma PacketKeepsAgreementIff(s: Node, p: Packet, from: Addr, now: nat, o: Orders, v: VideoId, b: Addr)
    requires Agrees(s, v, b)
    ensures Agrees(HandlePacket(s, p, from, now, o), v, b) <==> !Abandons(s, Received(p, from, now, o), v, b)
  {
    match p
    case ClientPing(ping, requested) => PingAgrees(s, ping, requested, from, now, o, v, b);
    case Flood(flood) => FloodKeepsAgreementIff(s, from, flood, now, o, v, b);
    case RequestVideo(u) => RequestAgrees(s, u, from, o, v, b);
    case StopVideo(u) => StopAgrees(s, u, from, v, b);
    case _ =>
  }

  /** A step of any kind keeps routes and control messages in step with `b` if and only if it does not take
      the video from `b` without telling it. */
  lemma StepKeepsAgreementIff(s: Node, e: Event, v: VideoId, b: Addr)
    requires Agrees(s, v, b)
    ensures Agrees(Apply(s, e), v, b) <==> !Abandons(s, e, v, b)
  {
    match e
    case Received(p, from, now, o) => PacketKeepsAgreementIff(s, p, from, now, o, v, b);
    case FloodUnacknowledged(target, o) =>
      if target in s.available && s.available[target].status.Active? {
        if target == b {
          DeathKeepsAgreementIff(s, b, o, v);
        } else {
          OtherDeathAgrees(s, target, o, v, b);
        }
      }
    case ParentAcknowledged(parent) =>
    case NeighbourRound(now, o) => BuryKeepsAgreementIff(s, StaleParents(s, RouteTableOrder(s, o), now), o, v, b);
    case ClientRound(now, o) => DropSilentClientsAgrees(s, PingsOrder(s, o), now, o, v, b);
    case VideoRound(now, o) => RequestAgainAgrees(s, TimesOrder(s, o), now, v, b);
  }

  /** What is abandoned no longer comes from `b`. */
  lemma AbandonedIsNotRouted(s: Node, e: Event, v: VideoId, b: Addr)
    requires Agrees(s, v, b) && Abandons(s, e, v, b)
    ensures !Apply(s, e).RoutesTo(v, b)
  {
    match e
    case Received(p, from, now, o) =>
      var s1 := RecordFlood(s, from, p.flood, now);
      RequestAllRoutes(s1, Queued(s1.pending, Ids(p.flood.videos)), from, v);
    case FloodUnacknowledged(target, o) => DeathAt(s, b, o, v);
    case NeighbourRound(now, o) => BuryKeepsAgreementIff(s, StaleParents(s, RouteTableOrder(s, o), now), o, v, b);
    case _ =>
  }

  /** While nobody dies and queued videos have no route, nothing is abandoned. */
  lemma CalmAbandonsNothing(s: Node, e: Event, v: VideoId, b: Addr)
    requires Calm(s, e) && QueuedUnrouted(s, v)
    ensures !Abandons(s, e, v, b)
  {
    if e.NeighbourRound? {
      var dead := StaleParents(s, RouteTableOrder(s, e.o), e.now);
      assert dead != [] ==> Last(dead) in dead;
    }
  }

  /** No step of the run abandons the video at `b`. */
  ghost predicate NeverAbandons(s: Node, es: seq<Event>, v: VideoId, b: Addr) {
    es == [] || (NeverAbandons(s, Front(es), v, b) && !Abandons(Run(s, Front(es)), Last(es), v, b))
  }

  /** In every run of a new node, whoever dies: as long as the video has not been abandoned at `b`, it comes from
      `b` if and only if `b` was last asked for it; and the first step that abandons it ends that. */
  lemma {:induction false} RunAgreesUntilAbandoned(id: nat, addr: Addr, neighbours: seq<Ip>, es: seq<Event>,
                                                   e: Event, v: VideoId, b: Addr)
    requires NeverAbandons(NewNode(id, addr, neighbours), es, v, b)
    ensures Agrees(Run(NewNode(id, addr, neighbours), es), v, b)
    ensures Agrees(Apply(Run(NewNode(id, addr, neighbours), es), e), v, b) <==>
      !Abandons(Run(NewNode(id, addr, neighbours), es), e, v, b)
  {
    var s := NewNode(id, addr, neighbours);
    if es == [] {
    } else {
      RunAgreesUntilAbandoned(id, addr, neighbours, Front(es), Last(es), v, b);
    }
    StepKeepsAgreementIff(Run(s, es), e, v, b);
  }

  // ----- two runs in which agreement fails

  function Listing(from: Ip): FloodPacket {
    FloodPacket(0, [(7, "film")], [from], [])
  }

  const START := NewNode(1, At(1), [2, 3])

  function Hear(from: Ip, o: Orders): Event {
    Received(Flood(Listing(from)), At(from), 0, o)
  }

  /** A new node hears of video 7 from neighbour 2. */
  function Heard(o: Orders): Node {
    HandleFloodPacket(START, At(2), Listing(2), 0, o)
  }

  /** Then a client asks for it. */
  function Serving(client: Addr, o: Orders): Node {
    HandleRequestVideo(Heard(o), 7, client, o)
  }

  lemma {:induction false} RunSnoc(s: Node, es: seq<Event>, e: Event)
    ensures Run(s, es + [e]) == Apply(Run(s, es), e)
  {
    assert Front(es + [e]) == es;
  }

  lemma {:induction false} RunLast(s: Node, es: seq<Event>)
    requires es != []
    ensures Run(s, es) == Apply(Run(s, Front(es)), Last(es))
  {
  }

  lemma RunThree(s: Node, e1: Event, e2: Event, e3: Event)
    ensures Run(s, [e1, e2, e3]) == Apply(Apply(Apply(s, e1), e2), e3)
  {
    var es1, es2, es3 := [e1], [e1, e2], [e1, e2, e3];
    assert Front(es3) == es2 && Last(es3) == e3 && Front(es2) == es1 && Last(es2) == e2 && Front(es1) == [];
    RunLast(s, es3);
    RunLast(s, es2);
    RunLast(s, es1);
  }

  lemma FloodListsSender(s: Node, from: Addr, p: FloodPacket, now: nat, o: Orders)
    requires s.id !in p.visited && s.pending == []
    ensures var s' := HandleFloodPacket(s, from, p, now, o);
      && s'.routes == s.routes && s'.interested == s.interested && s'.pending == [] && s'.self == s.self
      && s'.available.Keys == s.available.Keys + {from}
      && (forall b :: b in s.available && b != from ==> s'.available[b] == s.available[b])
      && s'.available[from].videos == Ids(p.videos) && s'.available[from].status.Active?
  {
  }

  /** A video that one neighbour alone could offer is routed to it. */
  lemma OnlyOfferIsChosen(s: Node, a: Addr, v: VideoId, client: Addr, o: Orders)
    requires s.available.Keys == {a} && s.OffersVia(a, v) && v !in s.routes
    ensures var s' := HandleRequestVideo(s, v, client, o);
      && s'.RoutesTo(v, a) && client in s'.SubscribersOf(v)
      && s'.pending == s.pending && s'.self == s.self && s'.available == s.available
  {
    var s1 := Subscribe(s, v, client);
    assert OfferedIn(s1.available, v);
    var n := BestNode(s1, v, o).value;
    assert s1.OffersVia(n, v) && n in s.available.Keys;
  }

  lemma FloodStep(s: Node, p: FloodPacket, from: Addr, o: Orders)
    ensures Apply(s, Received(Flood(p), from, 0, o)) == HandleFloodPacket(s, from, p, 0, o)
  {
  }

  lemma RequestStep(s: Node, v: VideoId, from: Addr, o: Orders)
    ensures Apply(s, Received(RequestVideo(v), from, 0, o)) == HandleRequestVideo(s, v, from, o)
  {
  }

  lemma ServingIsReached(client: Addr, o: Orders, e: Event)
    ensures Run(START, [Hear(2, o), Received(RequestVideo(7), client, 0, o), e]) == Apply(Serving(client, o), e)
  {
    FloodStep(START, Listing(2), At(2), o);
    RequestStep(Heard(o), 7, client, o);
    RunThree(START, Hear(2, o), Received(RequestVideo(7), client, 0, o), e);
  }

  lemma HeardOffers(o: Orders)
    ensures var s := Heard(o);
      && s.available.Keys == {At(2)} && s.OffersVia(At(2), 7) && s.routes == map[] && s.pending == [] && s.id == 1
  {
    FloodListsSender(START, At(2), Listing(2), 0, o);
    assert Ids(Listing(2).videos)[0] == 7;
  }

  /** The video comes from neighbour 2, which alone has listed it. */
  lemma ServingRoutes(client: Addr, o: Orders)
    ensures var s := Serving(client, o);
      && s.RoutesTo(7, At(2)) && client in s.SubscribersOf(7) && s.pending == [] && s.id == 1
      && s.available.Keys == {At(2)} && s.OffersVia(At(2), 7)
    ensures Agrees(Serving(client, o), 7, At(2))
  {
    HeardOffers(o);
    OnlyOfferIsChosen(Heard(o), At(2), 7, client, o);
    FloodKeepsAgreementIff(START, At(2), Listing(2), 0, o, 7, At(2));
    RequestAgrees(Heard(o), 7, client, o, 7, At(2));
  }

  lemma SecondListing(client: Addr, o: Orders)
    ensures var s := Apply(Serving(client, o), Hear(3, o));
      && s.RoutesTo(7, At(2)) && client in s.SubscribersOf(7)
      && s.OffersVia(At(2), 7) && s.OffersVia(At(3), 7) && Agrees(s, 7, At(2))
  {
    ServingRoutes(client, o);
    FloodStep(Serving(client, o), Listing(3), At(3), o);
    FloodListsSender(Serving(client, o), At(3), Listing(3), 0, o);
    assert Ids(Listing(3).videos)[0] == 7;
    FloodKeepsAgreementIff(Serving(client, o), At(3), Listing(3), 0, o, 7, At(2));
  }

  /** Neighbour 3 lists the video too, neighbour 2 does not acknowledge a flood packet, and the video moves: neighbour
      2 has last been asked for a video that does not come from it. */
  lemma RedirectBreaksAgreement(client: Addr, o: Orders)
    requires client != At(2)
    ensures var es := [Hear(2, o), Received(RequestVideo(7), client, 0, o), Hear(3, o)];
      var s := Run(START, es + [FloodUnacknowledged(At(2), o)]);
      !s.RoutesTo(7, At(2)) && Asked(s.sent, At(2), 7)
  {
    var es := [Hear(2, o), Received(RequestVideo(7), client, 0, o), Hear(3, o)];
    var s := Apply(Serving(client, o), Hear(3, o));
    ServingIsReached(client, o, Hear(3, o));
    SecondListing(client, o);
    assert MarkUnresponsive(s, At(2)).available[At(3)].Offers(7);
    RunSnoc(START, es, FloodUnacknowledged(At(2), o));
    DeathAt(s, At(2), o, 7);
  }

  lemma OnlyUpstreamDies(client: Addr, o: Orders)
    requires client != At(2)
    ensures var s := Apply(Serving(client, o), FloodUnacknowledged(At(2), o));
      s.RoutesTo(7, At(2)) && Agrees(s, 7, At(2)) && 7 in s.pending && s.id == 1
  {
    var s := Serving(client, o);
    ServingRoutes(client, o);
    assert !MarkUnresponsive(s, At(2)).Offered(7);
    DeathAt(s, At(2), o, 7);
    DeathMovesVideos(s, At(2), o, 7);
  }

  /** With nobody else to offer it, the video is queued and keeps its route when neighbour 2 does not acknowledge a
      flood packet; then neighbour 3 lists it, and the video moves. */
  lemma FloodBreaksAgreement(client: Addr, o: Orders)
    requires client != At(2)
    ensures var es := [Hear(2, o), Received(RequestVideo(7), client, 0, o), FloodUnacknowledged(At(2), o)];
      var s := Run(START, es + [Hear(3, o)]);
      !s.RoutesTo(7, At(2)) && Asked(s.sent, At(2), 7)
  {
    var es := [Hear(2, o), Received(RequestVideo(7), client, 0, o), FloodUnacknowledged(At(2), o)];
    var s := Apply(Serving(client, o), FloodUnacknowledged(At(2), o));
    ServingIsReached(client, o, FloodUnacknowledged(At(2), o));
    OnlyUpstreamDies(client, o);
    assert Ids(Listing(3).videos)[0] == 7;
    RunSnoc(START, es, Hear(3, o));
    FloodStep(s, Listing(3), At(3), o);
    FloodKeepsAgreementIff(s, At(3), Listing(3), 0, o, 7, At(2));
    QueuedVideoIsRequested(s, At(3), Listing(3), 0, o, 7);
  }
}
