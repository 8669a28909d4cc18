/**
 What one full flood restores, whatever happened before it: once a server that offers a video
 has started a full round, and everything has been delivered in order since with nobody
 declared dead, every member of a simple path from it knows the member before it to offer the
 video. The argument follows one path and one video.
 */
module FloodRepair {
  import opened Common
  import opened ServerModel
  import opened FloodNetwork
  import opened FloodProvenance
  import opened FloodCoverage
  import opened FloodOrder

  // ----- the state of one path

  /** From position `k` on, every packet on the link carries the video. */
  predicate LinkFrom(flight: seq<InFlight>, a: Ip, b: Ip, v: VideoId, k: nat) {
    forall i :: k <= i < |flight| && flight[i].src == At(a) && flight[i].dst == At(b) ==> Carries(flight[i], v)
  }

  /** `b` knows `a` as responsive and as offering the video, and all packets on their link say so too. */
  ghost predicate HopStands(n: Net, a: Ip, b: Ip, v: VideoId) {
    && b in n.nodes && n.nodes[b].OffersVia(At(a), v) && v in n.nodes[b].names
    && LinkFrom(n.flight, a, b, v, 0)
  }

  /** The server offers the video, and the first `j - 1` hops stand. */
  ghost predicate Stands(n: Net, way: seq<Ip>, j: nat, v: VideoId)
    requires 1 <= j <= |way|
  {
    && way[0] in n.servers && v in n.servers[way[0]].videos
    && forall i :: 1 <= i < j ==> HopStands(n, way[i - 1], way[i], v)
  }

  /** The packet at position `k` carries the video along hop `j`, and so do all packets behind it. */
  ghost predicate FrontAt(n: Net, way: seq<Ip>, j: nat, k: nat, v: VideoId)
    requires 1 <= j < |way|
  {
    && k < |n.flight| && OnTheWay(n.flight[k], way, j) && Carries(n.flight[k], v)
    && LinkFrom(n.flight, way[j - 1], way[j], v, k)
  }

  /** The flood has come as far as hop `j`; at the end of the way there is nothing left to come. */
  ghost predicate ComeTo(n: Net, way: seq<Ip>, j: nat, v: VideoId)
    requires 1 <= j <= |way|
  {
    Stands(n, way, j, v) && (j < |way| ==> exists k :: FrontAt(n, way, j, k, v))
  }

  ghost predicate Repairing(n: Net, way: seq<Ip>, v: VideoId) {
    exists j :: 1 <= j <= |way| && ComeTo(n, way, j, v)
  }

  /** A way through distinct members, all but the first of them nodes. */
  predicate IsWay(n: Net, way: seq<Ip>) {
    NoDuplicates(way) && forall i :: 1 <= i < |way| ==> way[i] in n.nodes
  }

  // ----- whoever stands by the video says so

  lemma StandingSays(n: Net, way: seq<Ip>, j: nat, v: VideoId)
    requires IsWay(n, way) && 1 <= j < |way| && Stands(n, way, j, v)
    ensures Says(n, way[j - 1], At(way[j]), v)
  {
    if j > 1 {
      assert HopStands(n, way[j - 2], way[j - 1], v);
      assert way[j - 2] != way[j];
      assert n.nodes[way[j - 1]].available[At(way[j - 2])].Offers(v);
    }
  }

  /** What enters a link whose sender says the video carries it. */
  lemma EnteringCarries(n: Net, e: NetEvent, a: Ip, b: Ip, v: VideoId)
    requires Placed(n) && FlightSound(n) && Enabled(n, e) && Orderly(n, e) && Says(Next(n, e), a, At(b), v)
    ensures forall f :: f in Entering(e) && f.src == At(a) && f.dst == At(b) ==> Carries(f, v)
  {
    FlightSplits(n, e);
    forall f | f in Entering(e) && f.src == At(a) && f.dst == At(b)
      ensures Carries(f, v)
    {
      SentSays(n, e, f, v);
    }
  }

  // ----- hops that stand keep standing

  lemma HopKeepsEntry(n: Net, e: NetEvent, a: Ip, b: Ip, v: VideoId)
    requires Sound(n) && Enabled(n, e) && Orderly(n, e) && HopStands(n, a, b, v)
    ensures b in Next(n, e).nodes && Next(n, e).nodes[b].OffersVia(At(a), v) && v in Next(n, e).nodes[b].names
  {
    EntryStep(n, e, b, At(a));
    EntrySource(n, e, b, At(a));
    NamesGrow(n, e, b);
    if e.Deliver? && n.flight[e.i].src == At(a) && n.flight[e.i].dst == At(b) {
      assert Carries(n.flight[e.i], v);
    }
  }

  lemma HopKeepsLink(n: Net, e: NetEvent, a: Ip, b: Ip, v: VideoId)
    requires Sound(n) && Enabled(n, e) && Orderly(n, e) && HopStands(n, a, b, v)
    requires Says(Next(n, e), a, At(b), v)
    ensures LinkFrom(Next(n, e).flight, a, b, v, 0)
  {
    FlightSplits(n, e);
    EnteringCarries(n, e, a, b, v);
    var flight := Next(n, e).flight;
    forall i | 0 <= i < |flight| && flight[i].src == At(a) && flight[i].dst == At(b)
      ensures Carries(flight[i], v)
    {
      assert flight[i] in Staying(n, e) || flight[i] in Entering(e);
    }
  }

  lemma ServerKeepsVideo(n: Net, e: NetEvent, r: Ip, v: VideoId)
    requires Placed(n) && Enabled(n, e) && r in n.servers && v in n.servers[r].videos
    ensures r in Next(n, e).servers && v in Next(n, e).servers[r].videos
  {
  }

  lemma WayStays(n: Net, e: NetEvent, way: seq<Ip>)
    requires Placed(n) && Enabled(n, e) && IsWay(n, way)
    ensures IsWay(Next(n, e), way)
  {
    NextGrown(n, e);
  }

  /** Hop by hop: each sender still says the video because the hop before it still stands. */
  lemma {:induction false} StandsKeeps(n: Net, e: NetEvent, way: seq<Ip>, j: nat, v: VideoId)
    requires Sound(n) && Enabled(n, e) && Orderly(n, e) && IsWay(n, way)
    requires 1 <= j <= |way| && Stands(n, way, j, v)
    ensures Stands(Next(n, e), way, j, v)
  {
    if j == 1 {
      ServerKeepsVideo(n, e, way[0], v);
    } else {
      StandsKeeps(n, e, way, j - 1, v);
      WayStays(n, e, way);
      StandingSays(Next(n, e), way, j - 1, v);
      assert HopStands(n, way[j - 2], way[j - 1], v);
      HopKeepsEntry(n, e, way[j - 2], way[j - 1], v);
      HopKeepsLink(n, e, way[j - 2], way[j - 1], v);
    }
  }

  // ----- the front moves

  /** A step that does not deliver the packet at the front leaves it there. */
  lemma FrontStays(n: Net, e: NetEvent, way: seq<Ip>, j: nat, k: nat, v: VideoId)
    requires Sound(n) && Enabled(n, e) && Careful(n, e) && Orderly(n, e) && IsWay(n, way)
    requires 1 <= j < |way| && Stands(n, way, j, v) && FrontAt(n, way, j, k, v) && !(e.Deliver? && e.i == k)
    ensures ComeTo(Next(n, e), way, j, v)
  {
    StandsKeeps(n, e, way, j, v);
    WayStays(n, e, way);
    StandingSays(Next(n, e), way, j, v);
    EnteringCarries(n, e, way[j - 1], way[j], v);
    FlightSplits(n, e);
    var k' := if e.Deliver? && e.i < k then k - 1 else k;
    StayingFrom(n, e, way[j - 1], way[j], v, k);
    assert FrontAt(Next(n, e), way, j, k', v) by {
      AppendedFrom(Staying(n, e), Entering(e), way[j - 1], way[j], v, k');
    }
  }

  lemma StayingFrom(n: Net, e: NetEvent, a: Ip, b: Ip, v: VideoId, k: nat)
    requires Enabled(n, e) && Careful(n, e) && k < |n.flight| && !(e.Deliver? && e.i == k)
    requires LinkFrom(n.flight, a, b, v, k)
    ensures var k' := if e.Deliver? && e.i < k then k - 1 else k;
      k' < |Staying(n, e)| && Staying(n, e)[k'] == n.flight[k] && LinkFrom(Staying(n, e), a, b, v, k')
  {
    var k' := if e.Deliver? && e.i < k then k - 1 else k;
    var rest := Staying(n, e);
    forall i | k' <= i < |rest| && rest[i].src == At(a) && rest[i].dst == At(b)
      ensures Carries(rest[i], v)
    {
      assert rest[i] == n.flight[if e.Deliver? && e.i <= i then i + 1 else i];
    }
  }

  lemma AppendedFrom(flight: seq<InFlight>, extra: seq<InFlight>, a: Ip, b: Ip, v: VideoId, k: nat)
    requires k <= |flight| && LinkFrom(flight, a, b, v, k)
    requires forall f :: f in extra && f.src == At(a) && f.dst == At(b) ==> Carries(f, v)
    ensures LinkFrom(flight + extra, a, b, v, k)
  {
    var all := flight + extra;
    forall i | k <= i < |all| && all[i].src == At(a) && all[i].dst == At(b)
      ensures Carries(all[i], v)
    {
      if i >= |flight| {
        assert all[i] in extra;
      }
    }
  }

  /** Delivering the packet at the front makes its hop stand. */
  lemma FrontArrives(n: Net, e: NetEvent, way: seq<Ip>, j: nat, v: VideoId)
    requires Sound(n) && Enabled(n, e) && Careful(n, e) && Orderly(n, e) && IsWay(n, way) && e.Deliver?
    requires 1 <= j < |way| && Stands(n, way, j, v) && FrontAt(n, way, j, e.i, v)
    ensures HopStands(Next(n, e), way[j - 1], way[j], v)
  {
    var f := n.flight[e.i];
    assert way[j] !in way[..j];
    AcceptedFloodIsRecorded(n.nodes[way[j]], f.src, f.packet, e.now, e.o);
    AcceptedFloodNames(n.nodes[way[j]], f.src, f.packet, e.now, e.o);
    DeliveryAt(n, e, way[j]);
    StandsKeeps(n, e, way, j, v);
    WayStays(n, e, way);
    StandingSays(Next(n, e), way, j, v);
    EnteringCarries(n, e, way[j - 1], way[j], v);
    FlightSplits(n, e);
    FirstLeaves(n, e, way[j - 1], way[j], v);
    AppendedFrom(Staying(n, e), Entering(e), way[j - 1], way[j], v, 0);
  }

  /** The first packet on a link has left; the others were behind it. */
  lemma FirstLeaves(n: Net, e: NetEvent, a: Ip, b: Ip, v: VideoId)
    requires Enabled(n, e) && Orderly(n, e) && e.Deliver? && LinkFrom(n.flight, a, b, v, e.i)
    requires n.flight[e.i].src == At(a) && n.flight[e.i].dst == At(b)
    ensures LinkFrom(Staying(n, e), a, b, v, 0)
  {
    var rest := Staying(n, e);
    forall i | 0 <= i < e.i
      ensures !(n.flight[i].src == At(a) && n.flight[i].dst == At(b))
    {
      assert !SameLink(n.flight[i], n.flight[e.i]);
    }
    forall i | 0 <= i < |rest| && rest[i].src == At(a) && rest[i].dst == At(b)
      ensures Carries(rest[i], v)
    {
      assert rest[i] == n.flight[if i < e.i then i else i + 1];
    }
  }

  lemma LinkFromExtra(flight: seq<InFlight>, extra: seq<InFlight>, a: Ip, b: Ip, v: VideoId, i: nat)
    requires i < |extra| && forall f :: f in extra && f.src == At(a) && f.dst == At(b) ==> Carries(f, v)
    ensures var k := |flight| + i;
      k < |flight + extra| && (flight + extra)[k] == extra[i] && LinkFrom(flight + extra, a, b, v, k)
  {
    var all := flight + extra;
    forall l | |flight| + i <= l < |all| && all[l].src == At(a) && all[l].dst == At(b)
      ensures Carries(all[l], v)
    {
      assert all[l] == extra[l - |flight|];
    }
  }

  lemma FrontFromExtra(n: Net, staying: seq<InFlight>, entering: seq<InFlight>, g: InFlight, way: seq<Ip>, j: nat,
                       v: VideoId)
    requires 1 <= j < |way| && n.flight == staying + entering && g in entering && OnTheWay(g, way, j)
    requires forall f :: f in entering && f.src == At(way[j - 1]) && f.dst == At(way[j]) ==> Carries(f, v)
    ensures exists k :: FrontAt(n, way, j, k, v)
  {
    var i :| 0 <= i < |entering| && entering[i] == g;
    LinkFromExtra(staying, entering, way[j - 1], way[j], v, i);
    assert FrontAt(n, way, j, |staying| + i, v);
  }

  /** A packet that enters a link on which all that enters carries the video is a front. */
  lemma EnteringIsFront(n: Net, e: NetEvent, g: InFlight, way: seq<Ip>, j: nat, v: VideoId)
    requires Placed(n) && FlightSound(n) && Enabled(n, e) && Orderly(n, e) && g in Entering(e)
    requires 1 <= j < |way| && OnTheWay(g, way, j) && Says(Next(n, e), way[j - 1], At(way[j]), v)
    ensures exists k :: FrontAt(Next(n, e), way, j, k, v)
  {
    FlightSplits(n, e);
    EnteringCarries(n, e, way[j - 1], way[j], v);
    FrontFromExtra(Next(n, e), Staying(n, e), Entering(e), g, way, j, v);
  }

  /** Delivering the packet at the front moves it one hop on, or completes the way. */
  lemma FrontMovesOn(n: Net, e: NetEvent, path: seq<Ip>, x: Ip, j: nat, v: VideoId)
    requires Sound(n) && Enabled(n, e) && Careful(n, e) && Orderly(n, e) && e.Deliver?
    requires Leads(n, path, x) && IsWay(n, path + [x])
    requires 1 <= j <= |path| && Stands(n, path + [x], j, v) && FrontAt(n, path + [x], j, e.i, v)
    ensures ComeTo(Next(n, e), path + [x], j + 1, v)
  {
    var way := path + [x];
    StandsKeeps(n, e, way, j, v);
    FrontArrives(n, e, way, j, v);
    assert Stands(Next(n, e), way, j + 1, v);
    if j < |path| {
      WayStays(n, e, way);
      StandingSays(Next(n, e), way, j + 1, v);
      var g := NextHopEnters(n, e, path, x, j);
      EnteringIsFront(n, e, g, way, j + 1, v);
    }
  }

  lemma NextHopEnters(n: Net, e: NetEvent, path: seq<Ip>, x: Ip, j: nat) returns (g: InFlight)
    requires Placed(n) && Enabled(n, e) && Careful(n, e) && e.Deliver?
    requires Leads(n, path, x) && IsWay(n, path + [x])
    requires 1 <= j < |path| && OnTheWay(n.flight[e.i], path + [x], j)
    ensures g in Entering(e) && OnTheWay(g, path + [x], j + 1)
  {
    var f := n.flight[e.i];
    var way := path + [x];
    assert way[j] !in f.packet.visited && way[j - 1] != way[j + 1];
    WayStep(n, path, x, j);
    assert way[..j + 1] == way[..j] + [way[j]];
    g := PassedOnTo(n, f, e.now, e.o, way[j + 1]);
  }

  // ----- every run

  lemma StepRepairs(n: Net, e: NetEvent, path: seq<Ip>, x: Ip, v: VideoId)
    requires Sound(n) && Enabled(n, e) && Careful(n, e) && Orderly(n, e)
    requires Leads(n, path, x) && IsWay(n, path + [x]) && Repairing(n, path + [x], v)
    ensures Repairing(Next(n, e), path + [x], v)
  {
    var way := path + [x];
    var j :| 1 <= j <= |way| && ComeTo(n, way, j, v);
    if j == |way| {
      StandsKeeps(n, e, way, j, v);
      assert ComeTo(Next(n, e), way, j, v);
    } else {
      var k :| FrontAt(n, way, j, k, v);
      if e.Deliver? && e.i == k {
        FrontMovesOn(n, e, path, x, j, v);
      } else {
        FrontStays(n, e, way, j, k, v);
      }
    }
  }

  /** Server `r` has started a full round while it offered the video; since then everything sent has been
      delivered, in order, and nobody has been declared dead or has changed a neighbour list. */
  ghost predicate FloodedSince(n: Net, es: seq<NetEvent>, r: Ip, v: VideoId)
    requires Possible(n, es)
  {
    es != []
    && var n0 := RunNet(n, Front(es));
      || (FullRound(n0, Last(es), r) && v in n0.servers[r].videos)
      || (Careful(n0, Last(es)) && Orderly(n0, Last(es)) && FloodedSince(n, Front(es), r, v))
  }

  lemma RoundStartsRepair(n: Net, e: NetEvent, r: Ip, path: seq<Ip>, x: Ip, v: VideoId)
    requires Sound(n) && FullRound(n, e, r) && v in n.servers[r].videos && Leads(n, path, x) && path[0] == r
    ensures Repairing(Next(n, e), path + [x], v)
  {
    var way := path + [x];
    WayStep(n, path, x, 0);
    RoundReaches(n, e, At(way[1]));
    var f := InFlight(At(r), At(way[1]), VideoListPacket(n.servers[r], e.order, e.now));
    ServerKeepsVideo(n, e, r, v);
    EnteringIsFront(n, e, f, way, 1, v);
    assert ComeTo(Next(n, e), way, 1, v);
  }

  lemma LeadsIsWay(n: Net, path: seq<Ip>, x: Ip)
    requires Placed(n) && Leads(n, path, x)
    ensures IsWay(n, path + [x])
  {
    PathSnoc(n, path, x);
    PathIsSimple(n, path + [x]);
  }

  lemma {:induction false} FloodRepairsPath(n: Net, es: seq<NetEvent>, r: Ip, path: seq<Ip>, x: Ip, v: VideoId)
    requires Initial(n) && Possible(n, es) && FloodedSince(n, es, r, v)
    requires Leads(RunNet(n, es), path, x) && path[0] == r
    ensures Repairing(RunNet(n, es), path + [x], v)
  {
    var n0, e := RunNet(n, Front(es)), Last(es);
    RunIsSound(n, Front(es));
    if FullRound(n0, e, r) && v in n0.servers[r].videos {
      RoundKeepsEdges(n0, e);
      PathGrows(RunNet(n, es), n0, path);
      RoundStartsRepair(n0, e, r, path, x, v);
    } else {
      CarefulKeepsEdges(n0, e);
      PathGrows(RunNet(n, es), n0, path);
      FloodRepairsPath(n, Front(es), r, path, x, v);
      LeadsIsWay(n0, path, x);
      StepRepairs(n0, e, path, x, v);
    }
  }

  /** Once nothing is left in flight, the last member of the path is known to `x` as responsive and as
      offering the video. */
  lemma {:induction false} DrainedPathOffers(n: Net, es: seq<NetEvent>, path: seq<Ip>, x: Ip, v: VideoId)
    requires Initial(n) && Possible(n, es) && RunNet(n, es).flight == []
    requires Leads(RunNet(n, es), path, x) && FloodedSince(n, es, path[0], v)
    ensures RunNet(n, es).nodes[x].OffersVia(At(Last(path)), v)
  {
    var way := path + [x];
    FloodRepairsPath(n, es, path[0], path, x, v);
    var j :| 1 <= j <= |way| && ComeTo(RunNet(n, es), way, j, v);
    assert j == |way|;
    assert HopStands(RunNet(n, es), way[|way| - 2], way[|way| - 1], v);
  }
}
