/**
 Advertisements never shrink while links keep packets in order and nobody is declared dead:
 what a neighbour has once advertised, it still advertises, in its route table entry, in
 every later packet on the link, and by what it would send now. Stated for one arbitrary
 video `v`.
 */
module FloodOrder {
  import opened Common
  import opened NodeModel
  import opened NodeHistory
  import opened NodeUpstreams
  import opened FloodNetwork
  import opened FloodProvenance

  // ----- what single packets advertise

  predicate Carries(f: InFlight, v: VideoId) {
    v in Ids(f.packet.videos)
  }

  /** `y` would advertise the video to `to` now. */
  predicate Says(n: Net, y: Ip, to: Addr, v: VideoId) {
    || (y in n.servers && v in n.servers[y].videos)
    || (y in n.nodes && v in n.nodes[y].names && CanRelay(n.nodes[y].available, to, v))
  }

  lemma RoundSays(n: Net, e: NetEvent, f: InFlight, v: VideoId)
    requires Placed(n) && Enabled(n, e) && e.Round? && f in Sends(n, e)
    ensures f.src.ip == e.server && (Carries(f, v) <==> v in n.servers[e.server].videos)
  {
    RoundSendsTravel(n, e, f);
    if Carries(f, v) {
      var x := IdsIn(f.packet.videos, v);
    }
    if v in n.servers[e.server].videos {
      InIds(f.packet.videos, (v, n.servers[e.server].videos[v].name));
    }
  }

  lemma RelaySays(n: Net, f0: InFlight, now: nat, o: Orders, f: InFlight, v: VideoId)
    requires Placed(n) && Travelled(n, f0) && ToNode(n, f0) && f in PassedOn(n, f0, now, o)
    ensures var s' := Receive(n, f0, now, o);
      f.src == f0.dst && (Carries(f, v) <==> v in s'.names && CanRelay(s'.available, f.dst, v))
  {
    var s' := Receive(n, f0, now, o);
    RelayedSendsTravel(n, f0, now, o, f);
    if Carries(f, v) {
      var x := IdsIn(f.packet.videos, v);
      SplitHorizon(n, f0, now, o, f, x);
    }
    if v in s'.names && CanRelay(s'.available, f.dst, v) {
      SplitHorizon(n, f0, now, o, f, (v, s'.names[v]));
      InIds(f.packet.videos, (v, s'.names[v]));
    }
  }

  /** Whoever the receiver passes the packet on to, the sender of the packet backs the advertisement. */
  lemma RelayAdvertises(n: Net, f0: InFlight, now: nat, o: Orders, f: InFlight, v: VideoId)
    requires Placed(n) && Travelled(n, f0) && ToNode(n, f0) && f in PassedOn(n, f0, now, o)
    requires v in Ids(f0.packet.videos)
    ensures v in Ids(f.packet.videos)
  {
    RelayedSendsTravel(n, f0, now, o, f);
    AcceptedFloodIsRecorded(n.nodes[f0.dst.ip], f0.src, f0.packet, now, o);
    var s' := Receive(n, f0, now, o);
    AcceptedFloodNames(n.nodes[f0.dst.ip], f0.src, f0.packet, now, o);
    SplitHorizon(n, f0, now, o, f, (v, s'.names[v]));
    InIds(f.packet.videos, (v, s'.names[v]));
  }

  lemma AcceptedFloodNames(s: Node, from: Addr, p: FloodPacket, now: nat, o: Orders)
    requires s.id !in p.visited
    ensures forall v :: v in Ids(p.videos) ==> v in HandleFloodPacket(s, from, p, now, o).names
  {
    AcceptedFloodSpreads(s, from, p, now, o);
  }

  /** Every packet that enters the network says what its sender would say after the step. */
  lemma SentSays(n: Net, e: NetEvent, f: InFlight, v: VideoId)
    requires Placed(n) && FlightSound(n) && Enabled(n, e) && (e.Round? || e.Deliver?) && f in Sends(n, e)
    ensures Carries(f, v) <==> Says(Next(n, e), f.src.ip, f.dst, v)
  {
    NextGrown(n, e);
    if e.Round? {
      RoundSays(n, e, f, v);
    } else {
      assert n.flight[e.i] in n.flight;
      RelaySays(n, n.flight[e.i], e.now, e.o, f, v);
    }
  }

  // ----- ordered links

  predicate SameLink(f: InFlight, g: InFlight) {
    f.src == g.src && f.dst == g.dst
  }

  predicate FirstOnLink(flight: seq<InFlight>, i: nat)
    requires i < |flight|
  {
    forall j :: 0 <= j < i ==> !SameLink(flight[j], flight[i])
  }

  /** The step keeps links in order, declares nobody dead and restarts nobody; packets may still be lost. */
  ghost predicate Orderly(n: Net, e: NetEvent) {
    match e
    case Deliver(i, _, _, _) => i < |n.flight| && FirstOnLink(n.flight, i)
    case Copy(_) => false
    case Restart(_, _) => false
    case NodeEvent(ip, ev) => ip in n.nodes && Calm(n.nodes[ip], ev)
    case _ => true
  }

  ghost predicate OrderlyRun(n: Net, es: seq<NetEvent>)
    requires Possible(n, es)
  {
    es == [] || (OrderlyRun(n, Front(es)) && Orderly(RunNet(n, Front(es)), Last(es)))
  }

  /** Along each link, later packets advertise what earlier ones do. */
  predicate LinksGrow(flight: seq<InFlight>, v: VideoId) {
    forall i, j :: 0 <= i < j < |flight| && SameLink(flight[i], flight[j]) && Carries(flight[i], v) ==>
      Carries(flight[j], v)
  }

  lemma RemovedGrows(flight: seq<InFlight>, k: nat, v: VideoId)
    requires k < |flight| && LinksGrow(flight, v)
    ensures LinksGrow(Removed(flight, k), v)
  {
    var rest := Removed(flight, k);
    forall i, j | 0 <= i < j < |rest| && SameLink(rest[i], rest[j]) && Carries(rest[i], v)
      ensures Carries(rest[j], v)
    {
      var i', j' := if i < k then i else i + 1, if j < k then j else j + 1;
      assert flight[i'] == rest[i] && flight[j'] == rest[j];
    }
  }

  lemma AppendedGrows(flight: seq<InFlight>, extra: seq<InFlight>, v: VideoId)
    requires LinksGrow(flight, v)
    requires forall f, g :: f in flight && g in extra && SameLink(f, g) && Carries(f, v) ==> Carries(g, v)
    requires forall f, g :: f in extra && g in extra && SameLink(f, g) && Carries(f, v) ==> Carries(g, v)
    ensures LinksGrow(flight + extra, v)
  {
    var all := flight + extra;
    forall i, j | 0 <= i < j < |all| && SameLink(all[i], all[j]) && Carries(all[i], v)
      ensures Carries(all[j], v)
    {
      if j >= |flight| {
        assert all[j] in extra;
        assert if i < |flight| then all[i] in flight else all[i] in extra;
      }
    }
  }

  // ----- the invariant

  ghost predicate PacketsStand(n: Net, v: VideoId) {
    forall f :: f in n.flight && Carries(f, v) ==> Says(n, f.src.ip, f.dst, v)
  }

  /** The entry for `y` is responsive, and if it lists the video, so does whatever `y` says since. */
  ghost predicate EntryStands(n: Net, x: Ip, y: Addr, v: VideoId)
    requires x in n.nodes && y in n.nodes[x].available
  {
    && n.nodes[x].available[y].status.Active?
    && (v in n.nodes[x].available[y].videos ==>
          && Says(n, y.ip, At(x), v)
          && forall f :: f in n.flight && f.src == y && f.dst == At(x) ==> Carries(f, v))
  }

  ghost predicate EntriesStand(n: Net, v: VideoId) {
    forall x, y :: x in n.nodes && y in n.nodes[x].available ==> EntryStands(n, x, y, v)
  }

  ghost predicate Growing(n: Net, v: VideoId) {
    LinksGrow(n.flight, v) && PacketsStand(n, v) && EntriesStand(n, v)
  }

  // ----- steps

  lemma CalmKeepsTables(s: Node, e: Event)
    requires Calm(s, e) && !(e.Received? && e.packet.Flood?)
    ensures Apply(s, e).available == s.available && Apply(s, e).names == s.names
  {
    match e
    case NeighbourRound(now, o) => NobodyDies(s, now, o);
    case _ =>
  }

  lemma FloodKeepsEntry(s: Node, from: Addr, p: FloodPacket, now: nat, o: Orders, a: Addr)
    requires (from != a || s.id in p.visited) && a in s.available
    ensures var s' := HandleFloodPacket(s, from, p, now, o);
      a in s'.available && s'.available[a] == s.available[a]
  {
  }

  /** The entry of `x` for `y` in the next state is the old one, or comes from the packet delivered. */
  lemma EntrySource(n: Net, e: NetEvent, x: Ip, y: Addr)
    requires Sound(n) && Enabled(n, e) && Orderly(n, e) && x in n.nodes
    ensures x in Next(n, e).nodes
    ensures y in Next(n, e).nodes[x].available ==>
      || (y in n.nodes[x].available && Next(n, e).nodes[x].available[y] == n.nodes[x].available[y])
      || (e.Deliver? && n.flight[e.i].src == y && n.flight[e.i].dst == At(x)
          && Next(n, e).nodes[x].available[y].status.Active?
          && Next(n, e).nodes[x].available[y].videos == Ids(n.flight[e.i].packet.videos))
  {
    StepAt(n, e, x);
    if ev :| EventAt(n, e, x) == Some(ev) {
      if AcceptsFlood(x, ev, y) {
        AcceptedFloodIsRecorded(n.nodes[x], y, ev.packet.flood, ev.now, ev.o);
      } else if ev.Received? && ev.packet.Flood? {
        if y in n.nodes[x].available {
          FloodKeepsEntry(n.nodes[x], ev.from, ev.packet.flood, ev.now, ev.o, y);
        } else {
          FloodKeepsOthers(n.nodes[x], ev.from, ev.packet.flood, ev.now, ev.o, y);
        }
      } else {
        CalmKeepsTables(n.nodes[x], ev);
      }
    }
  }

  /** An entry that lists the video keeps listing it, and stays responsive. */
  lemma EntryKeepsVideo(n: Net, e: NetEvent, x: Ip, y: Addr, v: VideoId)
    requires Sound(n) && Enabled(n, e) && Orderly(n, e) && EntriesStand(n, v)
    requires x in n.nodes && y in n.nodes[x].available
    ensures x in Next(n, e).nodes && y in Next(n, e).nodes[x].available
    ensures Next(n, e).nodes[x].available[y].status.Active?
    ensures v in n.nodes[x].available[y].videos ==> v in Next(n, e).nodes[x].available[y].videos
  {
    EntryStep(n, e, x, y);
    EntrySource(n, e, x, y);
    assert EntryStands(n, x, y, v);
    if e.Deliver? && v in n.nodes[x].available[y].videos && n.flight[e.i].src == y && n.flight[e.i].dst == At(x) {
      assert n.flight[e.i] in n.flight && Carries(n.flight[e.i], v);
    }
  }

  lemma NamesGrow(n: Net, e: NetEvent, x: Ip)
    requires Placed(n) && Enabled(n, e) && x in n.nodes && !Restarts(e, x)
    ensures x in Next(n, e).nodes && n.nodes[x].names.Keys <= Next(n, e).nodes[x].names.Keys
  {
    NextGrown(n, e);
    if e.NodeEvent? && x == e.ip {
      OnlyFloodsSpread(n.nodes[x], e.e);
    } else if e.Deliver? && n.flight[e.i].dst == At(x) {
      var f := n.flight[e.i];
      if x !in f.packet.visited {
        AcceptedFloodSpreads(n.nodes[x], f.src, f.packet, e.now, e.o);
      }
    }
  }

  lemma SaysGrows(n: Net, e: NetEvent, y: Ip, to: Addr, v: VideoId)
    requires Sound(n) && Enabled(n, e) && Orderly(n, e) && EntriesStand(n, v) && Says(n, y, to, v)
    ensures Says(Next(n, e), y, to, v)
  {
    NextGrown(n, e);
    if y in n.nodes && v in n.nodes[y].names && CanRelay(n.nodes[y].available, to, v) {
      var a :| a in n.nodes[y].available && a != to && n.nodes[y].available[a].Offers(v);
      EntryKeepsVideo(n, e, y, a, v);
      NamesGrow(n, e, y);
      assert Next(n, e).nodes[y].available[a].Offers(v);
    }
  }

  /** What enters the network in this step. */
  function Entering(e: NetEvent): seq<InFlight> {
    match e
    case Round(_, _, _, extra) => extra
    case Deliver(_, _, _, extra) => extra
    case _ => []
  }

  function Staying(n: Net, e: NetEvent): seq<InFlight>
    requires (e.Deliver? || e.Lose?) ==> e.i < |n.flight|
  {
    match e
    case Deliver(i, _, _, _) => Removed(n.flight, i)
    case Lose(i) => Removed(n.flight, i)
    case _ => n.flight
  }

  lemma FlightSplits(n: Net, e: NetEvent)
    requires Enabled(n, e) && Orderly(n, e)
    ensures Next(n, e).flight == Staying(n, e) + Entering(e)
    ensures forall f :: f in Staying(n, e) ==> f in n.flight
    ensures forall f :: f in Entering(e) ==> (e.Round? || e.Deliver?) && f in Sends(n, e)
  {
  }

  lemma NextPacketsStand(n: Net, e: NetEvent, v: VideoId)
    requires Sound(n) && Enabled(n, e) && Orderly(n, e) && Growing(n, v)
    ensures PacketsStand(Next(n, e), v)
  {
    FlightSplits(n, e);
    forall f | f in Next(n, e).flight && Carries(f, v)
      ensures Says(Next(n, e), f.src.ip, f.dst, v)
    {
      if f in Staying(n, e) {
        SaysGrows(n, e, f.src.ip, f.dst, v);
      } else {
        SentSays(n, e, f, v);
      }
    }
  }

  lemma NextLinksGrow(n: Net, e: NetEvent, v: VideoId)
    requires Sound(n) && Enabled(n, e) && Orderly(n, e) && Growing(n, v)
    ensures LinksGrow(Next(n, e).flight, v)
  {
    FlightSplits(n, e);
    if e.Deliver? || e.Lose? {
      RemovedGrows(n.flight, e.i, v);
    }
    forall f, g | (f in Staying(n, e) || f in Entering(e)) && g in Entering(e) && SameLink(f, g) && Carries(f, v)
      ensures Carries(g, v)
    {
      if f in Staying(n, e) {
        SaysGrows(n, e, f.src.ip, f.dst, v);
      } else {
        SentSays(n, e, f, v);
      }
      SentSays(n, e, g, v);
    }
    AppendedGrows(Staying(n, e), Entering(e), v);
  }

  /** Packets still on the link after the first one has arrived advertise what it did. */
  lemma LaterCarry(n: Net, e: NetEvent, g: InFlight, v: VideoId)
    requires e.Deliver? && Enabled(n, e) && Orderly(n, e) && LinksGrow(n.flight, v)
    requires g in Staying(n, e) && SameLink(n.flight[e.i], g) && Carries(n.flight[e.i], v)
    ensures Carries(g, v)
  {
    var k :| 0 <= k < |Staying(n, e)| && Staying(n, e)[k] == g;
    var j := if k < e.i then k else k + 1;
    assert n.flight[j] == g;
  }

  /** What holds on the whole link when its sender stands by the video. */
  lemma LinkCarries(n: Net, e: NetEvent, x: Ip, y: Addr, v: VideoId)
    requires Sound(n) && Enabled(n, e) && Orderly(n, e) && EntriesStand(n, v) && Says(n, y.ip, At(x), v)
    requires forall f :: f in Staying(n, e) && f.src == y && f.dst == At(x) ==> Carries(f, v)
    ensures Says(Next(n, e), y.ip, At(x), v)
    ensures forall f :: f in Next(n, e).flight && f.src == y && f.dst == At(x) ==> Carries(f, v)
  {
    FlightSplits(n, e);
    SaysGrows(n, e, y.ip, At(x), v);
    forall f | f in Entering(e) && f.src == y && f.dst == At(x)
      ensures Carries(f, v)
    {
      SentSays(n, e, f, v);
    }
  }

  lemma NextEntryStands(n: Net, e: NetEvent, x: Ip, y: Addr, v: VideoId)
    requires Sound(n) && Enabled(n, e) && Orderly(n, e) && Growing(n, v)
    requires x in n.nodes && x in Next(n, e).nodes && y in Next(n, e).nodes[x].available
    ensures EntryStands(Next(n, e), x, y, v)
  {
    FlightSplits(n, e);
    EntrySource(n, e, x, y);
    if v in Next(n, e).nodes[x].available[y].videos {
      if y in n.nodes[x].available && Next(n, e).nodes[x].available[y] == n.nodes[x].available[y] {
        assert EntryStands(n, x, y, v);
      } else {
        var f := n.flight[e.i];
        assert f in n.flight && Carries(f, v);
        forall g | g in Staying(n, e) && g.src == y && g.dst == At(x)
          ensures Carries(g, v)
        {
          LaterCarry(n, e, g, v);
        }
      }
      LinkCarries(n, e, x, y, v);
    } else if y in n.nodes[x].available {
      assert EntryStands(n, x, y, v);
    }
  }

  lemma NextGrows(n: Net, e: NetEvent, v: VideoId)
    requires Sound(n) && Enabled(n, e) && Orderly(n, e) && Growing(n, v)
    ensures Growing(Next(n, e), v)
  {
    NextGrown(n, e);
    NextPacketsStand(n, e, v);
    NextLinksGrow(n, e, v);
    forall x, y | x in Next(n, e).nodes && y in Next(n, e).nodes[x].available
      ensures EntryStands(Next(n, e), x, y, v)
    {
      NextEntryStands(n, e, x, y, v);
    }
  }

  lemma {:induction false} RunGrows(n: Net, es: seq<NetEvent>, v: VideoId)
    requires Initial(n) && Possible(n, es) && OrderlyRun(n, es)
    ensures Growing(RunNet(n, es), v)
  {
    if es == [] {
    } else {
      RunGrows(n, Front(es), v);
      RunIsSound(n, Front(es));
      NextGrows(RunNet(n, Front(es)), Last(es), v);
    }
  }

  /** While links keep packets in order and nobody is declared dead, whatever a neighbour is known to offer
      it offers from then on. */
  lemma {:induction false} AdvertisementsNeverShrink(n: Net, es: seq<NetEvent>, e: NetEvent, x: Ip, y: Addr, v: VideoId)
    requires Initial(n) && Possible(n, es) && OrderlyRun(n, es)
    requires Enabled(RunNet(n, es), e) && Orderly(RunNet(n, es), e)
    requires x in RunNet(n, es).nodes && RunNet(n, es).nodes[x].OffersVia(y, v)
    ensures x in Next(RunNet(n, es), e).nodes && Next(RunNet(n, es), e).nodes[x].OffersVia(y, v)
  {
    RunIsSound(n, es);
    RunGrows(n, es, v);
    EntryKeepsVideo(RunNet(n, es), e, x, y, v);
  }
}
