/**
 Failover: in every state a node can reach, a subscribed video is served by a
 responsive upstream, or queued because no responsive neighbour advertises it.
 The invariant is stated for one arbitrary video `v`, so that every step is proved
 without quantifiers.
 */
module NodeFailover {
  import opened Common
  import opened NodeModel

  /** The invariant for one video, which may still be waiting for a redirect. */
  ghost predicate SafeOr(s: Node, v: VideoId, waiting: bool) {
    && (s.SubscribersOf(v) != [] ==> v in s.routes || v in s.pending || waiting)
    && (v in s.routes ==> s.LiveRoute(v) || v in s.pending || waiting)
    && (v in s.pending ==> !s.Offered(v))
  }

  ghost predicate Safe(s: Node, v: VideoId) {
    SafeOr(s, v, false)
  }

  // ----- requests and stops

  lemma SubscribeKeeps(s: Node, u: VideoId, a: Addr, v: VideoId)
    requires Safe(s, v)
    ensures SafeOr(Subscribe(s, u, a), v, v == u && u !in s.routes)
  {
  }

  lemma RequestToNodeKeeps(s: Node, u: VideoId, n: Addr, v: VideoId, waiting: bool)
    requires SafeOr(s, v, waiting) && n in s.available && s.available[n].status.Active?
    ensures SafeOr(RequestVideoToNode(s, u, n), v, waiting && v != u)
  {
  }

  lemma QueueKeeps(s: Node, us: seq<VideoId>, v: VideoId)
    requires SafeOr(s, v, v in us) && (v in us ==> !s.Offered(v))
    ensures Safe(s.WithPending(s.pending + us), v)
  {
  }

  lemma SelectKeeps(s: Node, u: VideoId, o: Orders, v: VideoId)
    requires SafeOr(s, v, v == u)
    ensures Safe(SelectUpstream(s, u, o), v)
  {
    match BestNode(s, u, o)
    case Some(n) => RequestToNodeKeeps(s, u, n, v, v == u);
    case None => QueueKeeps(s, [u], v);
  }

  lemma RequestKeeps(s: Node, u: VideoId, a: Addr, o: Orders, v: VideoId)
    requires Safe(s, v)
    ensures Safe(HandleRequestVideo(s, u, a, o), v)
  {
    SubscribeKeeps(s, u, a, v);
    var s1 := Subscribe(s, u, a);
    if u !in s1.routes {
      SelectKeeps(s1, u, o, v);
    }
  }

  lemma UnsubscribeKeeps(s: Node, u: VideoId, a: Addr, v: VideoId, waiting: bool)
    requires SafeOr(s, v, waiting)
    ensures SafeOr(Unsubscribe(s, u, a), v, waiting)
  {
  }

  lemma DropRouteKeeps(s: Node, u: VideoId, v: VideoId, waiting: bool)
    requires SafeOr(s, v, waiting) && s.SubscribersOf(u) == [] && u in s.routes
    ensures SafeOr(DropRoute(s, u), v, waiting)
  {
  }

  lemma StopKeeps(s: Node, u: VideoId, a: Addr, v: VideoId, waiting: bool)
    requires SafeOr(s, v, waiting)
    ensures SafeOr(HandleStopVideo(s, u, a), v, waiting)
  {
    UnsubscribeKeeps(s, u, a, v, waiting);
    var s1 := Unsubscribe(s, u, a);
    if s1.SubscribersOf(u) == [] && u in s1.routes {
      DropRouteKeeps(s1, u, v, waiting);
    }
  }

  lemma {:induction false} StopAllKeepsSafe(s: Node, us: seq<VideoId>, a: Addr, v: VideoId, waiting: bool)
    requires SafeOr(s, v, waiting)
    ensures SafeOr(StopAll(s, us, a), v, waiting)
  {
    if us == [] {
    } else {
      StopAllKeepsSafe(s, Front(us), a, v, waiting);
      StopKeeps(StopAll(s, Front(us), a), Last(us), a, v, waiting);
    }
  }

  lemma {:induction false} RequestUnroutedKeeps(s: Node, us: seq<VideoId>, a: Addr, o: Orders, v: VideoId)
    requires Safe(s, v)
    ensures Safe(RequestUnrouted(s, us, a, o), v)
  {
    if us == [] {
    } else {
      RequestUnroutedKeeps(s, Front(us), a, o, v);
      RequestKeeps(RequestUnrouted(s, Front(us), a, o), Last(us), a, o, v);
    }
  }

  lemma {:induction false} StopUnwantedKeeps(s: Node, order: seq<VideoId>, wanted: seq<VideoId>, a: Addr, v: VideoId)
    requires Safe(s, v)
    ensures Safe(StopUnwanted(s, order, wanted, a), v)
  {
    if order == [] {
    } else {
      StopUnwantedKeeps(s, Front(order), wanted, a, v);
      StopKeeps(StopUnwanted(s, Front(order), wanted, a), Last(order), a, v, false);
    }
  }

  lemma PingKeeps(s: Node, ping: nat, requested: seq<VideoId>, a: Addr, now: nat, o: Orders, v: VideoId)
    requires Safe(s, v)
    ensures Safe(HandleClientPing(s, ping, requested, a, now, o), v)
  {
    var s1 := s.(lastPings := s.lastPings[a := now]);
    RequestUnroutedKeeps(s1, requested, a, o, v);
    var s2 := RequestUnrouted(s1, requested, a, o);
    StopUnwantedKeeps(s2, InterestedOrder(s2, o), requested, a, v);
  }

  // ----- floods

  lemma {:induction false} RequestAllRoutes(s: Node, us: seq<VideoId>, n: Addr, v: VideoId)
    ensures var s' := RequestAll(s, us, n);
      if v in us then s'.RoutesTo(v, n)
      else if v in s.routes then s'.RoutesTo(v, s.routes[v])
      else v !in s'.routes
  {
    if us == [] {
    } else {
      RequestAllRoutes(s, Front(us), n, v);
    }
  }

  lemma FloodKeeps(s: Node, from: Addr, p: FloodPacket, now: nat, o: Orders, v: VideoId)
    requires Safe(s, v)
    ensures Safe(HandleFloodPacket(s, from, p, now, o), v)
  {
    if s.id !in p.visited {
      FloodOffers(s, from, p, now, v);
      CheckPendingKeeps(RecordFlood(s, from, p, now), from, p.videos, v);
    }
  }

  /** Asking `from` for the queued videos it advertises restores the invariant. */
  lemma CheckPendingKeeps(s: Node, from: Addr, vs: seq<Video>, v: VideoId)
    requires from in s.available && s.available[from].status.Active?
    requires v in Ids(vs) || SafeOr(s, v, false)
    requires s.SubscribersOf(v) != [] ==> v in s.routes || v in s.pending
    requires v in s.routes ==> s.LiveRoute(v) || v in s.pending
    ensures Safe(CheckPendingVideos(s, from, vs), v)
  {
    RequestAllRoutes(s, Queued(s.pending, Ids(vs)), from, v);
  }

  /** A flood packet that advertises `v` is the only way in which it can put `v` on offer. */
  lemma FloodOffers(s: Node, from: Addr, p: FloodPacket, now: nat, v: VideoId)
    ensures var s1 := RecordFlood(s, from, p, now);
      && s1.routes == s.routes && s1.pending == s.pending && s1.interested == s.interested
      && (s1.Offered(v) ==> s.Offered(v) || v in Ids(p.videos))
      && from in s1.available && s1.available[from].status.Active?
      && (s.LiveRoute(v) ==> s1.LiveRoute(v))
  {
    var s1 := RecordFlood(s, from, p, now);
    if a :| a in s1.available && s1.available[a].Offers(v) && a != from {
      assert a in s.available && s.available[a].Offers(v);
    }
  }

  // ----- failures

  /** A redirected video finds a responsive upstream or ends among the remaining ones, which nobody offers. */
  lemma {:induction false} RedirectKeepsSafe(s: Node, us: seq<VideoId>, o: Orders, v: VideoId, waiting: bool)
    requires SafeOr(s, v, waiting)
    ensures var (s', remaining) := Redirect(s, us, o);
      && SafeOr(s', v, (waiting && v !in us) || v in remaining)
      && (v in remaining ==> !s.Offered(v))
  {
    if us == [] {
    } else {
      RedirectKeepsSafe(s, Front(us), o, v, waiting);
      var (s1, remaining) := Redirect(s, Front(us), o);
      var w := (waiting && v !in Front(us)) || v in remaining;
      match BestNode(s1, Last(us), o)
      case Some(n) => RequestToNodeKeeps(s1, Last(us), n, v, w);
      case None =>
    }
  }

  lemma QueueRemainingKeeps(s: Node, a: Addr, us: seq<VideoId>, v: VideoId)
    requires SafeOr(s, v, v in us) && (v in us ==> !s.Offered(v))
    ensures Safe(QueueRemaining(s, a, us), v)
  {
  }

  lemma UnresponsiveKeeps(s: Node, a: Addr, o: Orders, v: VideoId)
    requires SafeOr(s, v, s.RoutesTo(v, a))
    ensures Safe(HandleUnresponsiveNode(s, a, o), v)
  {
    var receiving := Receiving(s, a, o);
    var sending := Sending(s, a, o);
    var s1 := StopAll(s, sending, a);
    StopAllKeepsSafe(s, sending, a, v, v in receiving);
    RedirectKeepsSafe(s1, receiving, o, v, v in receiving);
    var (s2, remaining) := Redirect(s1, receiving, o);
    QueueRemainingKeeps(s2, a, remaining, v);
  }

  /** The heart of failover: any responsive neighbour may be declared dead. */
  lemma DeathKeeps(s: Node, a: Addr, o: Orders, v: VideoId)
    requires Safe(s, v) && a in s.available
    ensures Safe(HandleUnresponsiveNode(MarkUnresponsive(s, a), a, o), v)
  {
    var s1 := MarkUnresponsive(s, a);
    if b :| b in s1.available && s1.available[b].Offers(v) {
      assert b in s.available && s.available[b].Offers(v);
    }
    UnresponsiveKeeps(s1, a, o, v);
  }

  lemma {:induction false} BuryKeeps(s: Node, dead: seq<Addr>, o: Orders, v: VideoId)
    requires Safe(s, v) && forall a :: a in dead ==> a in s.available
    ensures Safe(Bury(s, dead, o), v)
  {
    if dead == [] {
    } else {
      BuryKeeps(s, Front(dead), o, v);
      DeathKeeps(Bury(s, Front(dead), o), Last(dead), o, v);
    }
  }

  lemma {:induction false} BuryMarks(s: Node, dead: seq<Addr>, o: Orders, b: Addr)
    requires b in s.available && forall a :: a in dead ==> a in s.available
    ensures Bury(s, dead, o).available[b] ==
      if b in dead then s.available[b].(status := Unresponsive) else s.available[b]
  {
    if dead == [] {
    } else {
      BuryMarks(s, Front(dead), o, b);
    }
  }

  lemma SweepMarksEntry(r: Route, now: nat)
    ensures (if Stale(r, now) then r.(status := Unresponsive) else r) ==
      if now > r.nodeType.lastFlood + 3_000_000_000 then r.(status := Unresponsive) else r
  {
  }

  lemma SweepMarks(s: Node, now: nat, o: Orders, a: Addr)
    requires a in s.available
    ensures CheckNeighbours(s, now, o).available.Keys == s.available.Keys
    ensures CheckNeighbours(s, now, o).available[a] ==
      if now > s.available[a].nodeType.lastFlood + 3_000_000_000
      then s.available[a].(status := Unresponsive) else s.available[a]
  {
    var dead := StaleParents(s, RouteTableOrder(s, o), now);
    BuryMarks(s, dead, o, a);
    SweepMarksEntry(s.available[a], now);
  }

  /** However many neighbours die in the same round and in whatever order they are handled,
      afterwards exactly those are unresponsive that were or have sent no flood packet for more than
      three seconds, and a video depends on an unresponsive one only if it is queued. */
  lemma MultiDeathSweep(s: Node, now: nat, o: Orders, v: VideoId, a: Addr, s': Node)
    requires Safe(s, v) && s' == CheckNeighbours(s, now, o)
    ensures s'.available.Keys == s.available.Keys
    ensures a in s.available ==>
      s'.available[a] ==
        if now > s.available[a].nodeType.lastFlood + 3_000_000_000
        then s.available[a].(status := Unresponsive) else s.available[a]
    ensures v in s'.routes && v !in s'.pending ==> s'.LiveRoute(v)
    ensures Safe(s', v)
  {
    if a in s.available {
      SweepMarks(s, now, o, a);
    }
    BuryKeeps(s, StaleParents(s, RouteTableOrder(s, o), now), o, v);
  }

  lemma {:induction false} DropSilentClientsKeeps(s: Node, order: seq<Addr>, now: nat, o: Orders, v: VideoId)
    requires Safe(s, v) && forall a :: a in order ==> a in s.lastPings
    ensures Safe(DropSilentClients(s, order, now, o), v)
  {
    if order == [] {
    } else {
      DropSilentClientsKeeps(s, Front(order), now, o, v);
      var s1 := DropSilentClients(s, Front(order), now, o);
      StopAllKeepsSafe(s1, Sending(s1, Last(order), o), Last(order), v, false);
    }
  }

  lemma {:induction false} RequestAgainKeeps(s: Node, order: seq<VideoId>, now: nat, v: VideoId)
    requires Safe(s, v) && forall u :: u in order ==> u in s.lastVideoTime
    ensures Safe(RequestAgain(s, order, now), v)
  {
    if order == [] {
    } else {
      RequestAgainKeeps(s, Front(order), now, v);
    }
  }

  // ----- every run

  lemma PacketKeepsSafe(s: Node, p: Packet, from: Addr, now: nat, o: Orders, v: VideoId)
    requires Safe(s, v)
    ensures Safe(HandlePacket(s, p, from, now, o), v)
  {
    match p
    case ClientPing(ping, requested) => PingKeeps(s, ping, requested, from, now, o, v);
    case Flood(flood) => FloodKeeps(s, from, flood, now, o, v);
    case RequestVideo(u) => RequestKeeps(s, u, from, o, v);
    case StopVideo(u) => StopKeeps(s, u, from, v, false);
    case NewNeighbour =>
    case VideoData(video) =>
    case VideoList(_, _, _) =>
  }

  lemma StepKeepsSafe(s: Node, e: Event, v: VideoId)
    requires Safe(s, v)
    ensures Safe(Apply(s, e), v)
  {
    match e
    case Received(p, from, now, o) => PacketKeepsSafe(s, p, from, now, o, v);
    case FloodUnacknowledged(target, o) =>
      if target in s.available {
        DeathKeeps(s, target, o, v);
      }
    case ParentAcknowledged(parent) =>
    case NeighbourRound(now, o) => BuryKeeps(s, StaleParents(s, RouteTableOrder(s, o), now), o, v);
    case ClientRound(now, o) => DropSilentClientsKeeps(s, PingsOrder(s, o), now, o, v);
    case VideoRound(now, o) => RequestAgainKeeps(s, TimesOrder(s, o), now, v);
  }

  lemma {:induction false} ReachableSafe(id: nat, addr: Addr, neighbours: seq<Ip>, es: seq<Event>, v: VideoId)
    ensures Safe(Run(NewNode(id, addr, neighbours), es), v)
  {
    if es == [] {
    } else {
      ReachableSafe(id, addr, neighbours, Front(es), v);
      StepKeepsSafe(Run(NewNode(id, addr, neighbours), Front(es)), Last(es), v);
    }
  }

  /** In every run and for every video: if it is subscribed, it has a responsive upstream, or it
      is queued and no responsive neighbour advertises it; a route leads to a responsive
      neighbour unless the video is queued; and a queued video is never on offer. */
  lemma {:induction false} SubscribersAreServedOrNobodyOffers(id: nat, addr: Addr, neighbours: seq<Ip>,
                                                              es: seq<Event>, v: VideoId)
    ensures var s := Run(NewNode(id, addr, neighbours), es);
      && (s.SubscribersOf(v) != [] ==> s.LiveRoute(v) || (v in s.pending && !s.Offered(v)))
      && (v in s.routes ==> s.LiveRoute(v) || v in s.pending)
      && (v in s.pending ==> !s.Offered(v))
  {
    ReachableSafe(id, addr, neighbours, es, v);
  }
}
