/**
 Who subscribes and unsubscribes a given address; and that a node's log of control packets
 only grows.
 */
module NodeSubscribers {
  import opened Common
  import opened NodeModel
  import opened NodeReactions

  // ----- subscriptions of one address

  /** The last ping of `x` came more than three seconds ago. */
  predicate IsSilent(s: Node, x: Addr, now: nat) {
    x in s.lastPings && now > s.lastPings[x] + 3_000_000_000
  }

  lemma {:induction false} DropSilentClientsDrops(s: Node, order: seq<Addr>, now: nat, o: Orders, v: VideoId, x: Addr)
    requires forall a :: a in order ==> a in s.lastPings
    ensures x in DropSilentClients(s, order, now, o).SubscribersOf(v) <==>
      x in s.SubscribersOf(v) && !(x in order && IsSilent(s, x, now))
  {
    if order == [] {
    } else {
      DropSilentClientsDrops(s, Front(order), now, o, v, x);
      var s1 := DropSilentClients(s, Front(order), now, o);
      if IsSilent(s, Last(order), now) {
        StopAllUnsubscribes(s1, Sending(s1, Last(order), o), Last(order), v, x);
      }
    }
  }

  lemma {:induction false} StopAllUnsubscribes(s: Node, us: seq<VideoId>, a: Addr, v: VideoId, x: Addr)
    ensures x in StopAll(s, us, a).SubscribersOf(v) <==> x in s.SubscribersOf(v) && (v in us ==> x != a)
  {
    if us == [] {
    } else {
      StopAllUnsubscribes(s, Front(us), a, v, x);
      StopAt(StopAll(s, Front(us), a), Last(us), a, v);
    }
  }

  /** A round of the client check ends exactly the subscriptions of clients whose last ping is more than
      three seconds old. */
  lemma ClientRoundDropsExactlyTheSilent(s: Node, now: nat, o: Orders, v: VideoId, x: Addr)
    ensures x in CheckClients(s, now, o).SubscribersOf(v) <==> x in s.SubscribersOf(v) && !IsSilent(s, x, now)
  {
    DropSilentClientsDrops(s, PingsOrder(s, o), now, o, v, x);
  }

  lemma {:induction false} RequestAgainSparesSubscribers(s: Node, order: seq<VideoId>, now: nat)
    requires forall u :: u in order ==> u in s.lastVideoTime
    ensures RequestAgain(s, order, now).interested == s.interested
  {
    if order == [] {
    } else {
      RequestAgainSparesSubscribers(s, Front(order), now);
    }
  }

  /** What the step says about `x` watching `v`, if anything. */
  function Verdict(e: Event, v: VideoId, x: Addr): Option<bool> {
    if e.Received? && e.from == x && e.packet == RequestVideo(v) then Some(true)
    else if e.Received? && e.from == x && e.packet == StopVideo(v) then Some(false)
    else None
  }

  lemma PacketCounts(s: Node, p: Packet, from: Addr, now: nat, o: Orders, v: VideoId, x: Addr)
    requires !(p.ClientPing? && from == x)
    ensures x in HandlePacket(s, p, from, now, o).SubscribersOf(v) <==>
      if from == x && p == RequestVideo(v) then true
      else if from == x && p == StopVideo(v) then false
      else x in s.SubscribersOf(v)
  {
    match p
    case ClientPing(ping, requested) => PingReconciles(s, ping, requested, from, now, o, v, x);
    case RequestVideo(u) => RequestAt(s, u, from, o, v);
    case StopVideo(u) => StopAt(s, u, from, v);
    case _ =>
  }

  /** When `a` dies it loses its subscriptions, and nobody else does. */
  lemma DeathUnsubscribes(s: Node, a: Addr, o: Orders, v: VideoId, b: Addr)
    requires a in s.available
    ensures var s' := HandleUnresponsiveNode(MarkUnresponsive(s, a), a, o);
      b in s'.SubscribersOf(v) <==> b in s.SubscribersOf(v) && b != a
  {
    var s1 := MarkUnresponsive(s, a);
    StopAllUnsubscribes(s1, Sending(s1, a, o), a, v, b);
  }

  lemma {:induction false} BuryUnsubscribes(s: Node, dead: seq<Addr>, o: Orders, v: VideoId, x: Addr)
    requires forall a :: a in dead ==> a in s.available
    ensures x in Bury(s, dead, o).SubscribersOf(v) <==> x in s.SubscribersOf(v) && x !in dead
  {
    if dead == [] {
    } else {
      BuryUnsubscribes(s, Front(dead), o, v, x);
      DeathUnsubscribes(Bury(s, Front(dead), o), Last(dead), o, v, x);
    }
  }

  /** The step declares `x` dead. */
  predicate DeclaresDead(s: Node, e: Event, x: Addr) {
    match e
    case FloodUnacknowledged(target, _) => target == x && x in s.available && s.available[x].status.Active?
    case NeighbourRound(now, _) =>
      && x in s.available && s.available[x].status.Active?
      && now > s.available[x].nodeType.lastFlood + 3_000_000_000
    case _ => false
  }

  /** Unless it sends pings, an address is subscribed and unsubscribed by its own requests and stops, and by
      being declared dead, and by nothing else. */
  lemma OnlyOwnPacketsCount(s: Node, e: Event, v: VideoId, x: Addr)
    requires x !in s.lastPings && !(e.Received? && e.packet.ClientPing? && e.from == x)
    ensures x in Apply(s, e).SubscribersOf(v) <==>
      match Verdict(e, v, x)
      case Some(b) => b
      case None => x in s.SubscribersOf(v) && !DeclaresDead(s, e, x)
  {
    match e
    case Received(p, from, now, o) => PacketCounts(s, p, from, now, o, v, x);
    case FloodUnacknowledged(target, o) =>
      if target in s.available && s.available[target].status.Active? {
        DeathUnsubscribes(s, target, o, v, x);
      }
    case NeighbourRound(now, o) => BuryUnsubscribes(s, StaleParents(s, RouteTableOrder(s, o), now), o, v, x);
    case ClientRound(now, o) => ClientRoundDropsExactlyTheSilent(s, now, o, v, x);
    case VideoRound(now, o) => RequestAgainSparesSubscribers(s, TimesOrder(s, o), now);
    case ParentAcknowledged(parent) =>
  }

  /** Only those who send pings are ever recorded as clients. */
  lemma OnlyPingersAreClients(s: Node, e: Event, x: Addr)
    requires x !in s.lastPings && !(e.Received? && e.packet.ClientPing? && e.from == x)
    ensures x !in Apply(s, e).lastPings
  {
  }

  // ----- the log grows

  lemma {:induction false} StopAllSends(s: Node, us: seq<VideoId>, a: Addr)
    ensures s.sent <= StopAll(s, us, a).sent
  {
    if us == [] {
    } else {
      StopAllSends(s, Front(us), a);
    }
  }

  lemma {:induction false} RequestUnroutedSends(s: Node, us: seq<VideoId>, a: Addr, o: Orders)
    ensures s.sent <= RequestUnrouted(s, us, a, o).sent
  {
    if us == [] {
    } else {
      RequestUnroutedSends(s, Front(us), a, o);
    }
  }

  lemma {:induction false} StopUnwantedSends(s: Node, order: seq<VideoId>, wanted: seq<VideoId>, a: Addr)
    ensures s.sent <= StopUnwanted(s, order, wanted, a).sent
  {
    if order == [] {
    } else {
      StopUnwantedSends(s, Front(order), wanted, a);
    }
  }

  lemma PingSends(s: Node, ping: nat, requested: seq<VideoId>, a: Addr, now: nat, o: Orders)
    ensures s.sent <= HandleClientPing(s, ping, requested, a, now, o).sent
  {
    var s1 := s.(lastPings := s.lastPings[a := now]);
    RequestUnroutedSends(s1, requested, a, o);
    var s2 := RequestUnrouted(s1, requested, a, o);
    StopUnwantedSends(s2, InterestedOrder(s2, o), requested, a);
  }

  lemma {:induction false} RequestAllSends(s: Node, us: seq<VideoId>, n: Addr)
    ensures s.sent <= RequestAll(s, us, n).sent
  {
    if us == [] {
    } else {
      RequestAllSends(s, Front(us), n);
    }
  }

  lemma {:induction false} DropSilentClientsSends(s: Node, order: seq<Addr>, now: nat, o: Orders)
    requires forall a :: a in order ==> a in s.lastPings
    ensures s.sent <= DropSilentClients(s, order, now, o).sent
  {
    if order == [] {
    } else {
      DropSilentClientsSends(s, Front(order), now, o);
      var s1 := DropSilentClients(s, Front(order), now, o);
      StopAllSends(s1, Sending(s1, Last(order), o), Last(order));
    }
  }

  lemma {:induction false} RequestAgainSends(s: Node, order: seq<VideoId>, now: nat)
    requires forall u :: u in order ==> u in s.lastVideoTime
    ensures s.sent <= RequestAgain(s, order, now).sent
  {
    if order == [] {
    } else {
      RequestAgainSends(s, Front(order), now);
    }
  }

  lemma {:induction false} RedirectSends(s: Node, us: seq<VideoId>, o: Orders)
    ensures s.sent <= Redirect(s, us, o).0.sent
  {
    if us == [] {
    } else {
      RedirectSends(s, Front(us), o);
    }
  }

  lemma UnresponsiveSends(s: Node, a: Addr, o: Orders)
    ensures s.sent <= HandleUnresponsiveNode(s, a, o).sent
  {
    StopAllSends(s, Sending(s, a, o), a);
    RedirectSends(StopAll(s, Sending(s, a, o), a), Receiving(s, a, o), o);
  }

  lemma {:induction false} BurySends(s: Node, dead: seq<Addr>, o: Orders)
    requires forall a :: a in dead ==> a in s.available
    ensures s.sent <= Bury(s, dead, o).sent
  {
    if dead == [] {
    } else {
      BurySends(s, Front(dead), o);
      UnresponsiveSends(MarkUnresponsive(Bury(s, Front(dead), o), Last(dead)), Last(dead), o);
    }
  }

  lemma PacketSends(s: Node, p: Packet, from: Addr, now: nat, o: Orders)
    ensures s.sent <= HandlePacket(s, p, from, now, o).sent
  {
    match p
    case ClientPing(ping, requested) => PingSends(s, ping, requested, from, now, o);
    case Flood(flood) =>
      var s1 := RecordFlood(s, from, flood, now);
      RequestAllSends(s1, Queued(s1.pending, Ids(flood.videos)), from);
    case _ =>
  }

  lemma StepSends(s: Node, e: Event)
    ensures s.sent <= Apply(s, e).sent
  {
    match e
    case Received(p, from, now, o) => PacketSends(s, p, from, now, o);
    case FloodUnacknowledged(target, o) =>
      if target in s.available {
        UnresponsiveSends(MarkUnresponsive(s, target), target, o);
      }
    case NeighbourRound(now, o) => BurySends(s, StaleParents(s, RouteTableOrder(s, o), now), o);
    case ClientRound(now, o) => DropSilentClientsSends(s, PingsOrder(s, o), now, o);
    case VideoRound(now, o) => RequestAgainSends(s, TimesOrder(s, o), now);
    case ParentAcknowledged(parent) =>
  }
}
