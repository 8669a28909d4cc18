/**
 What is handed to an endpoint is really transmitted: unreliable sends and broadcasts once for each
 address, acknowledgements once for each packet returned; and a reliable send can be completed.
 */
module ReliableDelivery {
  import opened Common
  import opened Reliable
  import opened ReliableLife
  import opened ReliableRuns

  // ----- unreliable sends

  /** How often the payload has been handed to an unreliable send for this address that the operating system
      accepted. */
  function Casts(es: seq<Event>, a: Addr, to: Addr, payload: Packet): nat {
    if es == [] then 0 else
      Casts(Front(es), a, to, payload) + if Last(es) == Cast(a, to, payload, true) then 1 else 0
  }

  lemma {:induction false} CastCounts(es: seq<Event>, a: Addr, to: Addr, payload: Packet)
    requires Cast(a, to, payload, true) in es
    ensures Casts(es, a, to, payload) > 0
  {
    if Last(es) != Cast(a, to, payload, true) {
      CastCounts(Front(es), a, to, payload);
    }
  }

  lemma TransmitCounts(e: Endpoint, d: Datagram, x: Datagram)
    ensures multiset(e.Transmit(d).sent)[x] == multiset(e.sent)[x] + if d == x then 1 else 0
  {
  }

  lemma StepTransmits(e: Endpoint, ev: Event, now: nat, to: Addr, payload: Packet)
    requires !ev.Pass? && (ev.Finish? ==> ev.id in e.launching)
    requires ev.Wake? ==> Life(e, ev.id, now)
    ensures var d := Datagram(to, Unnumbered(payload));
      multiset(Stepped(e, ev, now).sent)[d] ==
        multiset(e.sent)[d] + if ev == Cast(ev.at, to, payload, true) then 1 else 0
  {
    var d := Datagram(to, Unnumbered(payload));
    match ev
    case Begin(_, b, p, ok) => TransmitCounts(e, Datagram(b, Numbered(|e.calls|, p)), d);
    case Finish(_, id) =>
    case Cast(_, b, p, ok) => TransmitCounts(e, Datagram(b, Unnumbered(p)), d);
    case Arrive(from, _, body, ackSent) =>
      if body.Numbered? {
        TransmitCounts(e, Datagram(from, Ack(body.id)), d);
      }
    case Wake(_, id, ok) =>
      if id in e.pending {
        TransmitCounts(e, e.pending[id].datagram, d);
      }
  }

  /** In every run each payload has been transmitted without a number exactly as often as it has been handed to an
      unreliable send. */
  lemma {:induction false} CastsAreTransmittedOnce(s: System, es: seq<Event>, a: Addr, to: Addr, payload: Packet)
    requires Initial(s) && Possible(s, es) && a in s.endpoints
    ensures a in Run(s, es).endpoints
    ensures multiset(Run(s, es).endpoints[a].sent)[Datagram(to, Unnumbered(payload))] == Casts(es, a, to, payload)
  {
    if es == [] {
    } else {
      var s1, e := Run(s, Front(es)), Last(es);
      CastsAreTransmittedOnce(s, Front(es), a, to, payload);
      if !e.Pass? && e.at == a {
        if e.Wake? {
          RunKeepsLife(s, Front(es), a, e.id);
        }
        StepTransmits(s1.endpoints[a], e, s1.clock, to, payload);
      }
    }
  }

  /** At any time after an unreliable send the packet may arrive at its address, and then `receive` returns it. */
  lemma {:induction false} CastCanArrive(s: System, es: seq<Event>, a: Addr, b: Addr, payload: Packet, ackSent: bool)
    requires Initial(s) && Possible(s, es) && a in s.endpoints && b in s.endpoints
    requires Cast(a, b, payload, true) in es
    ensures var s' := Run(s, es);
      var there := Arrive(a, b, Unnumbered(payload), ackSent);
      && Enabled(s', there)
      && Next(s', there).endpoints[b].received == s'.endpoints[b].received + [Arrival(a, Unnumbered(payload))]
  {
    RunIsHonest(s, es);
    CastsAreTransmittedOnce(s, es, a, b, payload);
    CastCounts(es, a, b, payload);
    assert Datagram(b, Unnumbered(payload)) in multiset(Run(s, es).endpoints[a].sent);
  }

  /** What can be received without a number has been handed over for this address. */
  lemma {:induction false} OnTheWireIffCast(s: System, es: seq<Event>, a: Addr, b: Addr, payload: Packet)
    requires Initial(s) && Possible(s, es) && a in s.endpoints
    ensures OnTheWire(Run(s, es), a, b, Unnumbered(payload)) <==> Cast(a, b, payload, true) in es
  {
    CastsAreTransmittedOnce(s, es, a, b, payload);
    if Cast(a, b, payload, true) in es {
      CastCounts(es, a, b, payload);
      assert Datagram(b, Unnumbered(payload)) in multiset(Run(s, es).endpoints[a].sent);
    }
    if OnTheWire(Run(s, es), a, b, Unnumbered(payload)) {
      assert multiset(Run(s, es).endpoints[a].sent)[Datagram(b, Unnumbered(payload))] > 0;
      CountedIsCast(es, a, b, payload);
    }
  }

  lemma {:induction false} CountedIsCast(es: seq<Event>, a: Addr, to: Addr, payload: Packet)
    requires Casts(es, a, to, payload) > 0
    ensures Cast(a, to, payload, true) in es
  {
    if Last(es) != Cast(a, to, payload, true) {
      CountedIsCast(Front(es), a, to, payload);
    }
  }

  // ----- broadcasts

  function Copies(targets: seq<Addr>, payload: Packet): (r: seq<Datagram>)
    ensures |r| == |targets| && forall i :: 0 <= i < |r| ==> r[i] == Datagram(targets[i], Unnumbered(payload))
  {
    seq(|targets|, i requires 0 <= i < |targets| => Datagram(targets[i], Unnumbered(payload)))
  }

  lemma CopiesSnoc(targets: seq<Addr>, payload: Packet)
    requires targets != []
    ensures Copies(targets, payload) == Copies(Front(targets), payload) + [Datagram(Last(targets), Unnumbered(payload))]
  {
  }

  /** A broadcast transmits one copy to each of the targets before the first that the operating system refuses, in
      order, and does nothing else; it reports success if there is no such target. */
  lemma {:induction false} BroadcastServesAPrefix(e: Endpoint, targets: seq<Addr>, payload: Packet, oks: seq<bool>)
    returns (k: nat)
    requires |oks| == |targets|
    ensures k <= |targets| && (forall i :: 0 <= i < k ==> oks[i]) && (k < |targets| ==> !oks[k])
    ensures var (e', all) := Broadcast(e, targets, payload, oks);
      e' == e.(log := e.log.(sent := e.sent + Copies(targets[..k], payload))) && (all <==> k == |targets|)
  {
    if targets == [] {
      k := 0;
      assert e.sent + Copies([], payload) == e.sent;
    } else {
      k := BroadcastServesAPrefix(e, Front(targets), payload, Front(oks));
      assert Front(targets)[..k] == targets[..k];
      if k == |targets| - 1 && Last(oks) {
        k := k + 1;
        assert targets[..k] == targets;
        CopiesSnoc(targets, payload);
      }
    }
  }

  /** A broadcast on the network, if the operating system accepts all copies. */
  function CastAll(a: Addr, targets: seq<Addr>, payload: Packet): (r: seq<Event>)
    ensures |r| == |targets| && forall i :: 0 <= i < |r| ==> r[i] == Cast(a, targets[i], payload, true)
  {
    seq(|targets|, i requires 0 <= i < |targets| => Cast(a, targets[i], payload, true))
  }

  /** `s'` differs from `s0` in what `a` has transmitted only: these datagrams more. */
  ghost predicate OnlyTransmits(s0: System, s': System, a: Addr, more: seq<Datagram>)
    requires a in s0.endpoints
  {
    s' == s0.(endpoints := s0.endpoints[a := s0.endpoints[a].(log := s0.endpoints[a].log.(
      sent := s0.endpoints[a].sent + more))])
  }

  lemma TransmitsNothing(s: System, a: Addr)
    requires a in s.endpoints
    ensures OnlyTransmits(s, s, a, [])
  {
    assert s.endpoints[a].sent + [] == s.endpoints[a].sent;
    assert s.endpoints[a := s.endpoints[a]] == s.endpoints;
  }

  lemma TransmitsOneMore(s0: System, s1: System, a: Addr, more: seq<Datagram>, to: Addr, payload: Packet)
    requires a in s0.endpoints && OnlyTransmits(s0, s1, a, more)
    ensures OnlyTransmits(s0, Next(s1, Cast(a, to, payload, true)), a, more + [Datagram(to, Unnumbered(payload))])
  {
    var d := Datagram(to, Unnumbered(payload));
    assert s0.endpoints[a].sent + (more + [d]) == (s0.endpoints[a].sent + more) + [d];
  }

  /** Such a broadcast transmits one copy to each target, in order, and does nothing else. */
  lemma {:induction false} BroadcastTransmitsEach(s: System, es: seq<Event>, a: Addr, targets: seq<Addr>,
                                                  payload: Packet)
    requires Possible(s, es) && a in Run(s, es).endpoints
    ensures Possible(s, es + CastAll(a, targets, payload))
    ensures OnlyTransmits(Run(s, es), Run(s, es + CastAll(a, targets, payload)), a, Copies(targets, payload))
  {
    if targets == [] {
      assert es + CastAll(a, targets, payload) == es;
      TransmitsNothing(Run(s, es), a);
    } else {
      var rest, e := CastAll(a, Front(targets), payload), Cast(a, Last(targets), payload, true);
      BroadcastTransmitsEach(s, es, a, Front(targets), payload);
      CastAllSnoc(es, a, targets, payload);
      TransmitsOneMore(Run(s, es), Run(s, es + rest), a, Copies(Front(targets), payload), Last(targets), payload);
      RunSnoc(s, es + rest, e);
      CopiesSnoc(targets, payload);
    }
  }

  lemma CastAllSnoc(es: seq<Event>, a: Addr, targets: seq<Addr>, payload: Packet)
    requires targets != []
    ensures es + CastAll(a, targets, payload) ==
      (es + CastAll(a, Front(targets), payload)) + [Cast(a, Last(targets), payload, true)]
  {
  }

  /** After a broadcast the packet may arrive at each of its targets. */
  lemma {:induction false} BroadcastCanArrive(s: System, es: seq<Event>, a: Addr, targets: seq<Addr>, payload: Packet,
                                              b: Addr, ackSent: bool)
    requires Possible(s, es) && a in Run(s, es).endpoints && b in targets && b in Run(s, es).endpoints
    ensures Possible(s, es + CastAll(a, targets, payload))
    ensures var s' := Run(s, es + CastAll(a, targets, payload));
      var there := Arrive(a, b, Unnumbered(payload), ackSent);
      && Enabled(s', there)
      && Next(s', there).endpoints[b].received == s'.endpoints[b].received + [Arrival(a, Unnumbered(payload))]
  {
    BroadcastTransmitsEach(s, es, a, targets, payload);
    var i :| 0 <= i < |targets| && targets[i] == b;
    var s' := Run(s, es + CastAll(a, targets, payload));
    assert Copies(targets, payload)[i] in s'.endpoints[a].sent;
  }

  // ----- acknowledgements

  /** How many packets with this number from `from` have been returned. */
  function Returned(received: seq<Arrival>, from: Addr, id: nat): nat {
    if received == [] then 0 else
      var last := Last(received);
      Returned(Front(received), from, id) +
      if last.from == from && last.body.Numbered? && last.body.id == id then 1 else 0
  }

  lemma ReturnedSnoc(received: seq<Arrival>, r: Arrival, from: Addr, id: nat)
    ensures Returned(received + [r], from, id) ==
      Returned(received, from, id) + if r.from == from && r.body.Numbered? && r.body.id == id then 1 else 0
  {
    assert Front(received + [r]) == received;
  }

  ghost predicate Answers(e: Endpoint, from: Addr, id: nat) {
    multiset(e.sent)[Datagram(from, Ack(id))] == Returned(e.received, from, id)
  }

  lemma ArrivalAnswers(e: Endpoint, b: Addr, w: Wire, ackSent: bool, now: nat, from: Addr, id: nat)
    requires Answers(e, from, id)
    ensures Answers(Receive(e, b, w, ackSent, now), from, id)
  {
    ReturnedSnoc(e.received, Arrival(b, w), from, id);
    if w.Numbered? {
      TransmitCounts(e, Datagram(b, Ack(w.id)), Datagram(from, Ack(id)));
    }
  }

  lemma StepAnswers(e: Endpoint, ev: Event, now: nat, from: Addr, id: nat)
    requires !ev.Pass? && (ev.Finish? ==> ev.id in e.launching)
    requires (ev.Wake? ==> Life(e, ev.id, now)) && Answers(e, from, id)
    ensures Answers(Stepped(e, ev, now), from, id)
  {
    var d := Datagram(from, Ack(id));
    match ev
    case Begin(_, b, p, ok) => TransmitCounts(e, Datagram(b, Numbered(|e.calls|, p)), d);
    case Finish(_, n) =>
    case Cast(_, b, p, ok) => TransmitCounts(e, Datagram(b, Unnumbered(p)), d);
    case Arrive(b, _, body, ackSent) => ArrivalAnswers(e, b, body, ackSent, now, from, id);
    case Wake(_, n, ok) =>
      if n in e.pending {
        TransmitCounts(e, e.pending[n].datagram, d);
      }
  }

  /** In every run an endpoint has sent exactly as many acknowledgements of a packet as `receive` has returned copies
      of it. */
  lemma {:induction false} EachReturnIsAcknowledgedOnce(s: System, es: seq<Event>, b: Addr, from: Addr, id: nat)
    requires Initial(s) && Possible(s, es) && b in s.endpoints
    ensures b in Run(s, es).endpoints
    ensures multiset(Run(s, es).endpoints[b].sent)[Datagram(from, Ack(id))] ==
      Returned(Run(s, es).endpoints[b].received, from, id)
  {
    if es == [] {
    } else {
      var s1, e := Run(s, Front(es)), Last(es);
      EachReturnIsAcknowledgedOnce(s, Front(es), b, from, id);
      if !e.Pass? && e.at == b {
        if e.Wake? {
          RunKeepsLife(s, Front(es), b, e.id);
        }
        StepAnswers(s1.endpoints[b], e, s1.clock, from, id);
      }
    }
  }

  // ----- a reliable send from end to end

  /** A reliable send that the operating system accepts is entered as pending under the next number. */
  lemma SendIsPending(s: System, a: Addr, to: Addr, payload: Packet)
    requires a in s.endpoints
    ensures var id := |s.endpoints[a].calls|;
      var s1 := Next(s, Begin(a, to, payload, true));
      && Enabled(s1, Finish(a, id))
      && var e2 := Next(s1, Finish(a, id)).endpoints[a];
        && id in e2.pending
        && e2.pending[id] == PendingPacket(Datagram(to, Numbered(id, payload)), s.clock, 0)
        && id in e2.timers && e2.timers[id] == s.clock + 100 * MILLISECOND
  {
  }

  lemma {:induction false} SentIsPending(s: System, es: seq<Event>, a: Addr, b: Addr, payload: Packet)
    returns (sent: seq<Event>)
    requires Possible(s, es) && a in Run(s, es).endpoints
    ensures var id := |Run(s, es).endpoints[a].calls|;
      && sent == es + [Begin(a, b, payload, true)] + [Finish(a, id)]
      && Possible(s, sent) && a in Run(s, sent).endpoints && id in Run(s, sent).endpoints[a].pending
      && Run(s, sent).endpoints[a].pending[id] ==
           PendingPacket(Datagram(b, Numbered(id, payload)), Run(s, sent).clock, 0)
  {
    var id := |Run(s, es).endpoints[a].calls|;
    var begun := es + [Begin(a, b, payload, true)];
    sent := begun + [Finish(a, id)];
    SendIsPending(Run(s, es), a, b, payload);
    RunSnoc(s, es, Begin(a, b, payload, true));
    RunSnoc(s, begun, Finish(a, id));
  }

  lemma {:induction false} AnsweredRun(s: System, sent: seq<Event>, a: Addr, id: nat) returns (all: seq<Event>)
    requires Initial(s) && Possible(s, sent) && a in s.endpoints && a in Run(s, sent).endpoints
    requires id in Run(s, sent).endpoints[a].pending
    requires Run(s, sent).endpoints[a].pending[id].datagram.to in s.endpoints
    ensures var p := Run(s, sent).endpoints[a].pending[id];
      && all == sent + [Arrive(a, p.datagram.to, p.datagram.body, true)] + [Arrive(p.datagram.to, a, Ack(id), true)]
      && Possible(s, all) && a in Run(s, all).endpoints && p.datagram.to in Run(s, all).endpoints
      && Arrival(a, p.datagram.body) in Run(s, all).endpoints[p.datagram.to].received
      && |VerdictsOn(Run(s, all).endpoints[a].verdicts, id)| == 1
      && p.timestamp <= Run(s, sent).clock
      && VerdictsOn(Run(s, all).endpoints[a].verdicts, id)[0].outcome ==
           Acknowledged(Run(s, sent).clock - p.timestamp)
  {
    var p := Run(s, sent).endpoints[a].pending[id];
    var there, back := Arrive(a, p.datagram.to, p.datagram.body, true), Arrive(p.datagram.to, a, Ack(id), true);
    AnsweredPacketIsAcknowledged(s, sent, a, id);
    RunSnoc(s, sent, there);
    RunSnoc(s, sent + [there], back);
    all := sent + [there] + [back];
    RunIsHonest(s, all);
  }

  /** From any reachable state a reliable send can be completed: the packet is transmitted and entered as pending, it
      arrives and is returned, its acknowledgement arrives, and the send ends as acknowledged. */
  lemma {:induction false} ReliableSendCanComplete(s: System, es: seq<Event>, a: Addr, b: Addr, payload: Packet)
    returns (all: seq<Event>)
    requires Initial(s) && Possible(s, es) && a in s.endpoints && b in s.endpoints && a in Run(s, es).endpoints
    ensures var id := |Run(s, es).endpoints[a].calls|;
      && all == es + [Begin(a, b, payload, true)] + [Finish(a, id)]
                + [Arrive(a, b, Numbered(id, payload), true)] + [Arrive(b, a, Ack(id), true)]
      && Possible(s, all) && a in Run(s, all).endpoints && b in Run(s, all).endpoints
      && Arrival(a, Numbered(id, payload)) in Run(s, all).endpoints[b].received
      && |VerdictsOn(Run(s, all).endpoints[a].verdicts, id)| == 1
      && VerdictsOn(Run(s, all).endpoints[a].verdicts, id)[0].outcome == Acknowledged(0)
  {
    var id := |Run(s, es).endpoints[a].calls|;
    var sent := SentIsPending(s, es, a, b, payload);
    all := AnsweredRun(s, sent, a, id);
  }
}
