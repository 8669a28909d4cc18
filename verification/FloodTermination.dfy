/**
 A flood dies out: with at most D neighbours per node and at most 6 transmissions per
 reliable send, every delivery lowers a weight, so a round causes boundedly many.
 */
module FloodTermination {
  import opened Common
  import opened FloodNetwork
  import opened FloodProvenance
  import Reliable

  /** One first transmission and at most five retransmissions. */
  const TRANSMISSIONS: nat := 1 + Reliable.MAX_RETRIES

  function Pow(b: nat, e: nat): nat {
    if e == 0 then 1 else b * Pow(b, e - 1)
  }

  function Base(d: nat): nat {
    TRANSMISSIONS * d + 1
  }

  /** No simple path is longer. */
  function Longest(n: Net): nat {
    |n.nodes.Keys| + 1
  }

  function Weight(f: InFlight, longest: nat, d: nat): nat {
    if |f.packet.visited| <= longest then Pow(Base(d), longest - |f.packet.visited|) else 1
  }

  function TotalWeight(flight: seq<InFlight>, longest: nat, d: nat): nat {
    if flight == [] then 0 else TotalWeight(Front(flight), longest, d) + Weight(Last(flight), longest, d)
  }

  function Measure(n: Net, d: nat): nat {
    TotalWeight(n.flight, Longest(n), d)
  }

  // ----- arithmetic

  lemma {:induction false} PowPositive(b: nat, e: nat)
    requires b > 0
    ensures Pow(b, e) > 0
  {
    if e == 0 {
    } else {
      PowPositive(b, e - 1);
      MulPositive(b, Pow(b, e - 1));
    }
  }

  lemma MulPositive(a: nat, b: nat)
    requires a > 0 && b > 0
    ensures a * b > 0
  {
  }

  lemma WeightPositive(f: InFlight, longest: nat, d: nat)
    ensures Weight(f, longest, d) > 0
  {
    if |f.packet.visited| <= longest {
      PowPositive(Base(d), longest - |f.packet.visited|);
    }
  }

  lemma {:induction false} TotalAppend(a: seq<InFlight>, b: seq<InFlight>, longest: nat, d: nat)
    ensures TotalWeight(a + b, longest, d) == TotalWeight(a, longest, d) + TotalWeight(b, longest, d)
  {
    if b == [] {
      assert a + b == a;
    } else {
      TotalAppend(a, Front(b), longest, d);
      assert Front(a + b) == a + Front(b);
    }
  }

  lemma TotalRemoved(flight: seq<InFlight>, i: nat, longest: nat, d: nat)
    requires i < |flight|
    ensures TotalWeight(flight, longest, d) ==
      TotalWeight(Removed(flight, i), longest, d) + Weight(flight[i], longest, d)
  {
    assert flight == flight[..i] + ([flight[i]] + flight[i + 1..]);
    TotalAppend(flight[..i], [flight[i]] + flight[i + 1..], longest, d);
    TotalAppend([flight[i]], flight[i + 1..], longest, d);
    TotalAppend(flight[..i], flight[i + 1..], longest, d);
    assert Front([flight[i]]) == [];
  }

  lemma {:induction false} TotalBound(flight: seq<InFlight>, longest: nat, d: nat, w: nat)
    requires forall f :: f in flight ==> Weight(f, longest, d) <= w
    ensures TotalWeight(flight, longest, d) <= |flight| * w
  {
    if flight == [] {
    } else {
      assert Last(flight) in flight;
      TotalBound(Front(flight), longest, d, w);
      assert |flight| * w == |Front(flight)| * w + w by {
        Distribute(w, |Front(flight)|);
      }
    }
  }

  /** The copies that one delivery can cause weigh less than the packet delivered. */
  lemma CopiesWeighLess(d: nat, copies: nat, e: nat)
    requires copies <= TRANSMISSIONS * d
    ensures copies * Pow(Base(d), e) < Pow(Base(d), e + 1)
  {
    var w := Pow(Base(d), e);
    PowPositive(Base(d), e);
    MulMonotone(copies, TRANSMISSIONS * d, w);
    Distribute(w, TRANSMISSIONS * d);
  }

  // ----- simple paths are short

  lemma PathIsShort(n: Net, path: seq<Ip>)
    requires Placed(n) && Path(n, path)
    ensures |path| <= Longest(n)
  {
    PathIsSimple(n, path);
    NoDuplicatesLength(path[1..], n.nodes.Keys);
  }

  // ----- every delivery lowers the measure

  ghost predicate Degree(n: Net, d: nat) {
    forall x :: x in n.nodes ==> |n.nodes[x].neighbours| <= d
  }

  /** Steps of a network that adds no copies of its own, between two rounds. */
  ghost predicate Drains(n: Net, e: NetEvent) {
    && Enabled(n, e) && !e.Round? && !e.Copy?
    && (e.Deliver? ==> |e.extra| <= TRANSMISSIONS * |Sends(n, e)|)
  }

  predicate TakesPacket(e: NetEvent) {
    e.Deliver? || e.Lose?
  }

  lemma FewSends(n: Net, e: NetEvent, d: nat)
    requires Placed(n) && FlightSound(n) && Enabled(n, e) && e.Deliver? && Degree(n, d)
    ensures |Sends(n, e)| <= d
    ensures forall f :: f in Sends(n, e) ==> |f.packet.visited| == |n.flight[e.i].packet.visited| + 1 <= Longest(n)
  {
    var f0 := n.flight[e.i];
    if ToNode(n, f0) {
      var s := n.nodes[f0.dst.ip];
      if s.id !in f0.packet.visited {
        AcceptedFloodSpreads(s, f0.src, f0.packet, e.now, e.o);
      }
      forall f | f in Sends(n, e)
        ensures |f.packet.visited| == |f0.packet.visited| + 1 <= Longest(n)
      {
        assert f0 in n.flight;
        RelayedSendsTravel(n, f0, e.now, e.o, f);
        PathIsShort(n, f.packet.visited);
      }
    }
  }

  lemma DeliveryLowersMeasure(n: Net, e: NetEvent, d: nat)
    requires Placed(n) && FlightSound(n) && Drains(n, e) && e.Deliver? && Degree(n, d)
    ensures Measure(Next(n, e), d) < Measure(n, d)
  {
    var longest := Longest(n);
    var k := |n.flight[e.i].packet.visited|;
    FewSends(n, e, d);
    TotalRemoved(n.flight, e.i, longest, d);
    TotalAppend(Removed(n.flight, e.i), e.extra, longest, d);
    WeightPositive(n.flight[e.i], longest, d);
    if e.extra != [] {
      assert e.extra[0] in Sends(n, e);
      var w := Pow(Base(d), longest - k - 1);
      TotalBound(e.extra, longest, d, w);
      CopiesWeighLess(d, |e.extra|, longest - k - 1);
    }
    NextGrown(n, e);
  }

  lemma StepKeepsMeasure(n: Net, e: NetEvent, d: nat)
    requires Placed(n) && FlightSound(n) && Drains(n, e) && Degree(n, d)
    ensures Measure(Next(n, e), d) + (if TakesPacket(e) then 1 else 0) <= Measure(n, d)
  {
    NextGrown(n, e);
    if e.Deliver? {
      DeliveryLowersMeasure(n, e, d);
    } else if e.Lose? {
      TotalRemoved(n.flight, e.i, Longest(n), d);
      WeightPositive(n.flight[e.i], Longest(n), d);
    }
  }

  function Taken(es: seq<NetEvent>): nat {
    if es == [] then 0 else Taken(Front(es)) + if TakesPacket(Last(es)) then 1 else 0
  }

  ghost predicate Draining(n: Net, es: seq<NetEvent>, d: nat)
    requires Possible(n, es)
  {
    Degree(RunNet(n, es), d)
    && (es == [] || (Draining(n, Front(es), d) && Drains(RunNet(n, Front(es)), Last(es))))
  }

  lemma {:induction false} DrainingKeepsMeasure(n: Net, es: seq<NetEvent>, d: nat)
    requires Placed(n) && FlightSound(n) && Possible(n, es) && Draining(n, es, d)
    ensures Placed(RunNet(n, es)) && FlightSound(RunNet(n, es))
    ensures Taken(es) + Measure(RunNet(n, es), d) <= Measure(n, d)
  {
    if es == [] {
    } else {
      DrainingKeepsMeasure(n, Front(es), d);
      StepKeepsMeasure(RunNet(n, Front(es)), Last(es), d);
      NextGrown(RunNet(n, Front(es)), Last(es));
      NextFlightSound(RunNet(n, Front(es)), Last(es));
    }
  }

  lemma {:induction false} PowGrows(b: nat, e: nat, e': nat)
    requires b > 0 && e <= e'
    ensures Pow(b, e) <= Pow(b, e')
  {
    if e < e' {
      PowGrows(b, e, e' - 1);
      MulMonotone(1, b, Pow(b, e' - 1));
    }
  }

  lemma MeasureBound(n: Net, d: nat)
    requires FlightSound(n)
    ensures Measure(n, d) <= |n.flight| * Pow(Base(d), |n.nodes.Keys|)
  {
    forall f | f in n.flight
      ensures Weight(f, Longest(n), d) <= Pow(Base(d), |n.nodes.Keys|)
    {
      assert Travelled(n, f);
      WeightBound(f, |n.nodes.Keys|, d);
    }
    TotalBound(n.flight, Longest(n), d, Pow(Base(d), |n.nodes.Keys|));
  }

  lemma WeightBound(f: InFlight, nodes: nat, d: nat)
    requires f.packet.visited != []
    ensures Weight(f, nodes + 1, d) <= Pow(Base(d), nodes)
  {
    PowPositive(Base(d), nodes);
    if |f.packet.visited| <= nodes + 1 {
      PowGrows(Base(d), nodes + 1 - |f.packet.visited|, nodes);
    }
  }

  /** After any run, k packets in flight cause at most k (6D + 1)^N deliveries and losses together
      before the next round, where N is the number of nodes and D bounds their neighbour lists,
      whatever else happens meanwhile. */
  lemma {:induction false} FloodDiesOut(n: Net, es: seq<NetEvent>, drain: seq<NetEvent>, d: nat)
    requires Initial(n) && Possible(n, es)
    requires Possible(RunNet(n, es), drain) && Draining(RunNet(n, es), drain, d)
    ensures Taken(drain) <= |RunNet(n, es).flight| * Pow(Base(d), |n.nodes.Keys|)
  {
    RunIsSound(n, es);
    RunKeepsMembers(n, es);
    DrainingKeepsMeasure(RunNet(n, es), drain, d);
    MeasureBound(RunNet(n, es), d);
  }
}
