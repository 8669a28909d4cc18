/**
 What the periodic checks of a node do, in terms of the packets that have arrived: when the last
 packet of a video, the last ping of a client and the last flood packet of a parent came.
 */
module NodeRounds {
  import opened Common
  import opened NodeModel
  import opened NodeFailover
  import opened NodeHistory
  import opened NodeReactions
  import opened NodeSubscribers

  // ----- videos

  /** After half a second without a packet of a routed video, a round asks its upstream again. */
  lemma SilenceIsNoticed(s: Node, p: VideoPacket, t: nat, now: nat, o: Orders)
    requires p.stream in s.routes && now > t + 500_000_000
    ensures Requests(CheckVideos(HandleVideoPacket(s, p, t), now, o).sent, p.stream) ==
      Requests(s.sent, p.stream) + [s.routes[p.stream]]
  {
    VideoRoundAsksForTheOverdue(HandleVideoPacket(s, p, t), now, o, p.stream);
  }

  /** In every run a round asks for exactly the routed videos of which a packet has arrived, the last of them more
      than half a second ago, and for each once. */
  lemma {:induction false} VideoRoundAsksForTheLate(id: nat, addr: Addr, neighbours: seq<Ip>, es: seq<Event>, now: nat,
                                                    o: Orders, v: VideoId)
    ensures var s := Run(NewNode(id, addr, neighbours), es);
      var s' := CheckVideos(s, now, o);
      && s'.streams == s.streams
      && Requests(s'.sent, v) == Requests(s.sent, v) +
           match LastArrival(es, v)
           case Some(t) => if now > t + 500_000_000 && v in s.routes then [s.routes[v]] else []
           case None => []
  {
    TimesMirrorArrivals(id, addr, neighbours, es, v, addr);
    VideoRoundAsksForTheOverdue(Run(NewNode(id, addr, neighbours), es), now, o, v);
  }

  // ----- clients

  /** The round only removes subscribers of the video; its route goes exactly with the last of them, and with one
      stop to the upstream. */
  ghost predicate Thinned(s: Node, s': Node, v: VideoId) {
    && (s.SubscribersOf(v) == [] ==> s'.SubscribersOf(v) == [])
    && (v in s'.routes <==> v in s.routes && !(s.SubscribersOf(v) != [] && s'.SubscribersOf(v) == []))
    && (v in s'.routes ==> s'.routes[v] == s.routes[v])
    && Stops(s'.sent, v) == Stops(s.sent, v) + if v in s.routes && v !in s'.routes then [s.routes[v]] else []
  }

  lemma StopAllThins(s: Node, a: Addr, o: Orders, v: VideoId)
    ensures Thinned(s, StopAll(s, Sending(s, a, o), a), v)
  {
    StopAllAt(s, Sending(s, a, o), a, v);
  }

  lemma {:induction false} DropSilentClientsThins(s: Node, order: seq<Addr>, now: nat, o: Orders, v: VideoId)
    requires forall a :: a in order ==> a in s.lastPings
    ensures Thinned(s, DropSilentClients(s, order, now, o), v)
  {
    if order == [] {
    } else {
      DropSilentClientsThins(s, Front(order), now, o, v);
      StopAllThins(DropSilentClients(s, Front(order), now, o), Last(order), o, v);
    }
  }

  /** In every run a round ends exactly the subscriptions of clients that have pinged, but not for more than three
      seconds; and when nobody is left who watches a video, its upstream is told to stop, once, and its
      route is dropped. */
  lemma {:induction false} ClientRoundDropsTheSilent(id: nat, addr: Addr, neighbours: seq<Ip>, es: seq<Event>, now: nat,
                                                     o: Orders, v: VideoId, x: Addr)
    ensures var s := Run(NewNode(id, addr, neighbours), es);
      var s' := CheckClients(s, now, o);
      && Thinned(s, s', v)
      && (x in s'.SubscribersOf(v) <==>
            x in s.SubscribersOf(v)
            && match LastPing(es, x) case Some(t) => now <= t + 3_000_000_000 case None => true)
  {
    var s := Run(NewNode(id, addr, neighbours), es);
    TimesMirrorArrivals(id, addr, neighbours, es, v, x);
    ClientRoundDropsExactlyTheSilent(s, now, o, v, x);
    DropSilentClientsThins(s, PingsOrder(s, o), now, o, v);
  }

  // ----- parents

  /** In every run a sweep leaves exactly those parents responsive that were and have sent a flood packet within
      the last three seconds. */
  lemma {:induction false} SweepBuriesTheSilent(id: nat, addr: Addr, neighbours: seq<Ip>, es: seq<Event>, now: nat,
                                                o: Orders, a: Addr)
    requires a in Run(NewNode(id, addr, neighbours), es).available
    ensures var s := Run(NewNode(id, addr, neighbours), es);
      var s' := CheckNeighbours(s, now, o);
      && Floods(id, es, a) != [] && a in s'.available
      && (s'.available[a].status.Active? <==>
            s.available[a].status.Active? && now <= Last(Floods(id, es, a)).1 + 3_000_000_000)
  {
    var s := Run(NewNode(id, addr, neighbours), es);
    TableMirrorsFloods(id, addr, neighbours, es, a);
    ReachableSafe(id, addr, neighbours, es, 0);
    MultiDeathSweep(s, now, o, 0, a, CheckNeighbours(s, now, o));
  }
}
