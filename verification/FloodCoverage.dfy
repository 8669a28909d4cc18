/**
 What a drained flood achieves: in a fixed overlay that loses nothing, once no flood
 packet is in flight, a node's route table lists exactly its parents.
 */
module FloodCoverage {
  import opened Common
  import opened NodeModel
  import opened ServerModel
  import opened FloodNetwork
  import opened FloodProvenance

  // ----- assumptions on a run

  /** The step delivers what is sent and leaves neighbour lists as they are. */
  ghost predicate Careful(n: Net, e: NetEvent) {
    match e
    case Deliver(_, _, _, extra) => Enabled(n, e) && forall f :: f in Sends(n, e) ==> f in extra
    case Lose(_) => false
    case Restart(_, _) => false
    case NodeEvent(ip, ev) => ip in n.nodes && Apply(n.nodes[ip], ev).neighbours == n.nodes[ip].neighbours
    case ServerEvent(ip, p, _) => p != NewNeighbour
    case _ => true
  }

  ghost predicate FullRound(n: Net, e: NetEvent, r: Ip) {
    Enabled(n, e) && e.Round? && e.server == r && forall f :: f in Sends(n, e) ==> f in e.extra
  }

  /** Server `r` has started a full round, and every step since has been careful. */
  ghost predicate Flooded(n: Net, es: seq<NetEvent>, r: Ip)
    requires Possible(n, es)
  {
    es != []
    && (FullRound(RunNet(n, Front(es)), Last(es), r)
        || (Careful(RunNet(n, Front(es)), Last(es)) && Flooded(n, Front(es), r)))
  }

  // ----- coverage

  /** A path from a server to a node that floods `x`, continued to `x`. */
  ghost predicate Leads(n: Net, path: seq<Ip>, x: Ip) {
    Path(n, path) && x in n.nodes && x !in path && Edge(n, Last(path), x)
  }

  /** A flood packet that has come along `way[..j]` is on its way to `way[j]`. */
  predicate OnTheWay(f: InFlight, way: seq<Ip>, j: nat)
    requires 1 <= j < |way|
  {
    f.src == At(way[j - 1]) && f.dst == At(way[j]) && f.packet.visited == way[..j]
  }

  ghost predicate Hop(n: Net, way: seq<Ip>, j: nat)
    requires 1 <= j < |way|
  {
    exists f :: f in n.flight && OnTheWay(f, way, j)
  }

  ghost predicate Listed(n: Net, path: seq<Ip>, x: Ip) {
    path != [] && x in n.nodes && At(Last(path)) in n.nodes[x].available
  }

  ghost predicate Covered(n: Net, path: seq<Ip>, x: Ip) {
    Listed(n, path, x) || exists j :: 1 <= j <= |path| && Hop(n, path + [x], j)
  }

  // ----- facts about paths

  lemma {:induction false} PathStep(n: Net, path: seq<Ip>, i: nat)
    requires Path(n, path) && i < |path| - 1
    ensures Edge(n, path[i], path[i + 1]) && path[i + 1] in n.nodes && path[i + 1] !in path[..i + 1]
  {
    if i < |path| - 2 {
      PathStep(n, Front(path), i);
      assert Front(path)[..i + 1] == path[..i + 1];
    }
  }

  /** The same for the whole way to `x`. */
  lemma WayStep(n: Net, path: seq<Ip>, x: Ip, i: nat)
    requires Leads(n, path, x) && i < |path|
    ensures var way := path + [x];
      Edge(n, way[i], way[i + 1]) && way[i + 1] in n.nodes && way[i + 1] !in way[..i + 1]
  {
    PathSnoc(n, path, x);
    PathStep(n, path + [x], i);
  }

  // ----- a full round covers every path from its server

  lemma RoundReaches(n: Net, e: NetEvent, to: Addr)
    requires Placed(n) && Enabled(n, e) && e.Round? && to in n.servers[e.server].neighbours
    ensures InFlight(At(e.server), to, VideoListPacket(n.servers[e.server], e.order, e.now)) in Sends(n, e)
  {
    var s := n.servers[e.server];
    var plain := PlainTo(s.neighbours, Flood(VideoListPacket(s, e.order, e.now)));
    assert Added(s.sent, FloodRound(s, e.order, e.now).sent) == plain;
    var i :| 0 <= i < |s.neighbours| && s.neighbours[i] == to;
    assert plain[i] in plain;
  }

  lemma FullRoundCovers(n: Net, e: NetEvent, r: Ip, path: seq<Ip>, x: Ip)
    requires Placed(n) && FullRound(n, e, r) && Leads(n, path, x) && path[0] == r
    ensures Covered(Next(n, e), path, x)
  {
    WayStep(n, path, x, 0);
    var way := path + [x];
    RoundReaches(n, e, At(way[1]));
    var f := InFlight(At(r), At(way[1]), VideoListPacket(n.servers[r], e.order, e.now));
    assert f in Next(n, e).flight && OnTheWay(f, way, 1);
    assert Hop(Next(n, e), way, 1);
  }

  // ----- careful steps keep paths covered

  lemma CarefulKeepsEdges(n: Net, e: NetEvent)
    requires Placed(n) && Enabled(n, e) && Careful(n, e)
    ensures Grown(Next(n, e), n)
  {
    NextGrown(n, e);
    match e
    case Deliver(i, now, o, _) =>
      if ToNode(n, n.flight[i]) {
        var f := n.flight[i];
        ReceiveKeeps(n.nodes[f.dst.ip], f.src, f.packet, now, o);
      }
    case _ =>
  }

  lemma EntriesStay(n: Net, e: NetEvent, x: Ip, y: Addr)
    requires Placed(n) && Enabled(n, e) && Careful(n, e) && x in n.nodes && y in n.nodes[x].available
    ensures x in Next(n, e).nodes && y in Next(n, e).nodes[x].available
  {
    EntryStep(n, e, x, y);
  }

  /** A node that accepts `f` passes it on to each neighbour `z` other than the sender. */
  lemma PassedOnTo(n: Net, f: InFlight, now: nat, o: Orders, z: Ip) returns (g: InFlight)
    requires Placed(n) && ToNode(n, f) && f.dst.ip !in f.packet.visited
    requires z in n.nodes[f.dst.ip].neighbours && At(z) != f.src
    ensures g in PassedOn(n, f, now, o)
    ensures g.src == f.dst && g.dst == At(z) && g.packet.visited == f.packet.visited + [f.dst.ip]
  {
    var s := n.nodes[f.dst.ip];
    var s1 := CheckPendingVideos(RecordFlood(s, f.src, f.packet, now), f.src, f.packet.videos);
    g := InFlight(f.dst, At(z), FloodTo(s1, At(z), f.packet, o).body.flood);
    assert Relays(s1, s.neighbours, f.src, f.packet, o, f.dst, g);
    RelayedPacket(n, f, now, o, g);
  }

  /** The packet that has come along the whole path puts the last member on `x`'s list. */
  lemma LastHopArrives(n: Net, e: NetEvent, path: seq<Ip>, x: Ip)
    requires Placed(n) && Enabled(n, e) && e.Deliver?
    requires Leads(n, path, x) && OnTheWay(n.flight[e.i], path + [x], |path|)
    ensures Listed(Next(n, e), path, x)
  {
    var f := n.flight[e.i];
    WayStep(n, path, x, |path| - 1);
    AcceptedFloodIsRecorded(n.nodes[x], f.src, f.packet, e.now, e.o);
  }

  /** Before that, its delivery sends a packet along the next hop. */
  lemma HopMovesOn(n: Net, e: NetEvent, path: seq<Ip>, x: Ip, j: nat)
    requires Placed(n) && Enabled(n, e) && Careful(n, e) && e.Deliver?
    requires Leads(n, path, x) && 1 <= j < |path| && OnTheWay(n.flight[e.i], path + [x], j)
    ensures Hop(Next(n, e), path + [x], j + 1)
  {
    var f := n.flight[e.i];
    var way := path + [x];
    WayStep(n, path, x, j - 1);
    assert way[j] !in f.packet.visited;
    WayStep(n, path, x, j);
    assert way[j - 1] in way[..j + 1] && way[..j + 1] == way[..j] + [way[j]];
    var g := PassedOnTo(n, f, e.now, e.o, way[j + 1]);
    assert g in Next(n, e).flight && OnTheWay(g, way, j + 1);
  }

  lemma CarefulKeepsCovered(n: Net, e: NetEvent, path: seq<Ip>, x: Ip)
    requires Placed(n) && FlightSound(n) && Enabled(n, e) && Careful(n, e)
    requires Leads(n, path, x) && Covered(n, path, x)
    ensures Covered(Next(n, e), path, x)
  {
    if Listed(n, path, x) {
      EntriesStay(n, e, x, At(Last(path)));
    } else {
      var j :| 1 <= j <= |path| && Hop(n, path + [x], j);
      var f :| f in n.flight && OnTheWay(f, path + [x], j);
      if e.Deliver? && n.flight[e.i] == f {
        DeliveryKeepsCovered(n, e, path, x, j);
      } else {
        OthersStay(n, e, f);
        assert Hop(Next(n, e), path + [x], j);
      }
    }
  }

  lemma DeliveryKeepsCovered(n: Net, e: NetEvent, path: seq<Ip>, x: Ip, j: nat)
    requires Placed(n) && FlightSound(n) && Enabled(n, e) && Careful(n, e) && e.Deliver?
    requires Leads(n, path, x) && 1 <= j <= |path| && OnTheWay(n.flight[e.i], path + [x], j)
    ensures Covered(Next(n, e), path, x)
  {
    assert n.flight[e.i] in n.flight;
    if j == |path| {
      LastHopArrives(n, e, path, x);
    } else {
      HopMovesOn(n, e, path, x, j);
    }
  }

  /** A careful step takes no other packet than the one it delivers. */
  lemma OthersStay(n: Net, e: NetEvent, f: InFlight)
    requires Enabled(n, e) && Careful(n, e) && f in n.flight && !(e.Deliver? && n.flight[e.i] == f)
    ensures f in Next(n, e).flight
  {
  }

  // ----- the characterisation

  lemma {:induction false} FloodedIsCovered(n: Net, es: seq<NetEvent>, r: Ip, path: seq<Ip>, x: Ip)
    requires Initial(n) && Possible(n, es) && Flooded(n, es, r)
    requires Leads(RunNet(n, es), path, x) && path[0] == r
    ensures Covered(RunNet(n, es), path, x)
  {
    var n0 := RunNet(n, Front(es));
    RunIsSound(n, Front(es));
    if FullRound(n0, Last(es), r) {
      RoundKeepsEdges(n0, Last(es));
      PathGrows(RunNet(n, es), n0, path);
      FullRoundCovers(n0, Last(es), r, path, x);
    } else {
      CarefulKeepsEdges(n0, Last(es));
      PathGrows(RunNet(n, es), n0, path);
      FloodedIsCovered(n, Front(es), r, path, x);
      CarefulKeepsCovered(n0, Last(es), path, x);
    }
  }

  lemma RoundKeepsEdges(n: Net, e: NetEvent)
    requires Placed(n) && Enabled(n, e) && e.Round?
    ensures Grown(Next(n, e), n)
  {
    CarefulKeepsEdges(n, e);
  }

  /** In a run in which every server has started a full round, nothing has been lost and no
      neighbour list has changed since, and no flood packet is left in flight: `x` lists `y` if
      and only if `y` floods `x` and a simple path leads from a server to `y` without passing
      through `x`. */
  lemma {:induction false} DrainedFloodFindsExactlyTheParents(n: Net, es: seq<NetEvent>, x: Ip, y: Addr)
    requires Initial(n) && Possible(n, es) && RunNet(n, es).flight == []
    requires forall r :: r in n.servers ==> Flooded(n, es, r)
    requires x in RunNet(n, es).nodes
    ensures y in RunNet(n, es).nodes[x].available <==>
      y == At(y.ip) && exists path :: Reaches(RunNet(n, es), path, y.ip, x)
  {
    var n' := RunNet(n, es);
    if y in n'.nodes[x].available {
      ParentsReachAServer(n, es, x, y);
    }
    if y == At(y.ip) && exists path :: Reaches(n', path, y.ip, x) {
      var path :| Reaches(n', path, y.ip, x);
      RunKeepsMembers(n, es);
      PathStartsAtServer(n', path);
      FloodedIsCovered(n, es, path[0], path, x);
    }
  }

  lemma {:induction false} PathStartsAtServer(n: Net, path: seq<Ip>)
    requires Path(n, path)
    ensures path[0] in n.servers
  {
    if |path| == 1 {
    } else {
      PathStartsAtServer(n, Front(path));
    }
  }
}
