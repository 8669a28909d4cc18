/**
 Endpoints on a network that may lose, duplicate, delay and reorder datagrams: whatever
 has ever been transmitted to an address may arrive there at any time, any number of
 times. An endpoint never restarts, and source addresses are genuine.
 */
module ReliableRuns {
  import opened Common
  import opened Reliable
  import opened ReliableLife

  datatype System = System(endpoints: map<Addr, Endpoint>, clock: nat)

  datatype Event =
    | Begin(at: Addr, to: Addr, payload: Packet, ok: bool)
    | Finish(at: Addr, id: nat)
    | Cast(at: Addr, to: Addr, payload: Packet, ok: bool)
    | Arrive(from: Addr, at: Addr, body: Wire, ackSent: bool)
    | Wake(at: Addr, id: nat, ok: bool)
    | Pass(duration: nat)

  predicate OnTheWire(s: System, from: Addr, to: Addr, body: Wire) {
    from in s.endpoints && Datagram(to, body) in s.endpoints[from].sent
  }

  predicate Enabled(s: System, e: Event) {
    if e.Pass? then true else
      e.at in s.endpoints
      && match e
         case Finish(at, id) => id in s.endpoints[at].launching
         case Arrive(from, at, body, _) => OnTheWire(s, from, at, body)
         case Wake(at, id, _) => id in s.endpoints[at].timers && s.endpoints[at].timers[id] <= s.clock
         case _ => true
  }

  function Stepped(e: Endpoint, ev: Event, now: nat): Endpoint
    requires !ev.Pass? && (ev.Finish? ==> ev.id in e.launching)
  {
    match ev
    case Begin(_, to, payload, ok) => BeginSend(e, to, payload, ok)
    case Finish(_, id) => FinishSend(e, id, now)
    case Cast(_, to, payload, ok) => SendUnreliable(e, to, payload, ok)
    case Arrive(from, _, body, ackSent) => Receive(e, from, body, ackSent, now)
    case Wake(_, id, ok) => Tick(e, id, ok, now)
  }

  function Next(s: System, e: Event): System
    requires Enabled(s, e)
  {
    if e.Pass? then s.(clock := s.clock + e.duration)
    else s.(endpoints := s.endpoints[e.at := Stepped(s.endpoints[e.at], e, s.clock)])
  }

  predicate Possible(s: System, es: seq<Event>)
    decreases |es|, 0
  {
    es == [] || (Possible(s, Front(es)) && Enabled(Run(s, Front(es)), Last(es)))
  }

  function Run(s: System, es: seq<Event>): System
    requires Possible(s, es)
    decreases |es|, 1
  {
    if es == [] then s else Next(Run(s, Front(es)), Last(es))
  }

  lemma {:induction false} RunSnoc(s: System, es: seq<Event>, e: Event)
    requires Possible(s, es) && Enabled(Run(s, es), e)
    ensures Possible(s, es + [e]) && Run(s, es + [e]) == Next(Run(s, es), e)
  {
    assert Front(es + [e]) == es;
  }

  predicate Initial(s: System) {
    forall a :: a in s.endpoints ==> s.endpoints[a] == NEW_ENDPOINT
  }

  // ----- single outcome and bounded effort

  lemma LifeAges(e: Endpoint, id: nat, now: nat, later: nat)
    requires Life(e, id, now) && now <= later
    ensures Life(e, id, later)
  {
  }

  lemma StepKeepsLife(e: Endpoint, ev: Event, id: nat, now: nat)
    requires Life(e, id, now) && !ev.Pass? && (ev.Finish? ==> ev.id in e.launching)
    requires ev.Wake? ==> Life(e, ev.id, now) && ev.id in e.timers && e.timers[ev.id] <= now
    ensures Life(Stepped(e, ev, now), id, now)
  {
    match ev
    case Begin(_, to, payload, ok) => BeginKeepsLife(e, to, payload, ok, id, now);
    case Finish(_, n) => FinishKeepsLife(e, n, id, now);
    case Cast(_, to, payload, _) => OtherTransmissionKeepsLife(e, Datagram(to, Unnumbered(payload)), id, now);
    case Arrive(from, _, body, ackSent) => ReceiveKeepsLife(e, from, body, ackSent, id, now);
    case Wake(_, n, ok) => TickKeepsLife(e, n, ok, id, now);
  }

  lemma {:induction false} RunKeepsLife(s: System, es: seq<Event>, a: Addr, id: nat)
    requires Initial(s) && Possible(s, es) && a in s.endpoints
    ensures a in Run(s, es).endpoints && Life(Run(s, es).endpoints[a], id, Run(s, es).clock)
  {
    if es == [] {
    } else {
      var s1, e := Run(s, Front(es)), Last(es);
      RunKeepsLife(s, Front(es), a, id);
      if e.Pass? {
        LifeAges(s1.endpoints[a], id, s1.clock, s1.clock + e.duration);
      } else if e.at == a {
        if e.Wake? {
          RunKeepsLife(s, Front(es), a, e.id);
        }
        StepKeepsLife(s1.endpoints[a], e, id, s1.clock);
      }
    }
  }

  /** In every run a packet entered as pending has exactly one result as soon as it is no longer
      pending, and none before; a pending packet has been transmitted once more than it has been
      retried, and is due again 100 milliseconds after the last of these; no packet is transmitted
      more than six times; and a timeout is reported only after six transmissions, 600 milliseconds
      or more after the packet was entered. */
  lemma {:induction false} SingleOutcomeAndBoundedEffort(s: System, es: seq<Event>, a: Addr, id: nat)
    requires Initial(s) && Possible(s, es) && a in s.endpoints
    ensures a in Run(s, es).endpoints
    ensures var e := Run(s, es).endpoints[a];
      && (id in e.pending ==> id in e.inserted)
      && |VerdictsOn(e.verdicts, id)| == (if id in e.inserted && id !in e.pending then 1 else 0)
      && Transmissions(e.sent, id) <= 6
      && (id in e.pending ==> Transmissions(e.sent, id) == 1 + e.pending[id].retries)
      && (id in e.pending && id in e.timers ==> e.timers[id] == e.pending[id].timestamp + 100 * MILLISECOND)
      && (id in e.inserted && id !in e.pending ==>
            var v := VerdictsOn(e.verdicts, id)[0];
            v.outcome.Timeout? ==> Transmissions(e.sent, id) == 6 && e.inserted[id] + 600 * MILLISECOND <= v.at)
  {
    RunKeepsLife(s, es, a, id);
  }

  // ----- a timer resolves its packet within six turns

  predicate IsTurn(e: Event, a: Addr, id: nat) {
    e.Wake? && e.at == a && e.id == id
  }

  /** Turns of the retransmission loop of packet `id` at `a`. */
  function Turns(es: seq<Event>, a: Addr, id: nat): nat {
    if es == [] then 0 else Turns(Front(es), a, id) + if IsTurn(Last(es), a, id) then 1 else 0
  }

  /** At some turn of that loop the local send failed. */
  predicate LocalFailure(es: seq<Event>, a: Addr, id: nat) {
    es != [] && (LocalFailure(Front(es), a, id) || (IsTurn(Last(es), a, id) && !Last(es).ok))
  }

  /** While a packet is pending, its loop has retried it at every turn; it still runs unless the
      local send has failed. */
  ghost predicate Counted(e: Endpoint, id: nat, turns: nat, failed: bool) {
    if id in e.pending then
      turns == e.pending[id].retries + (if failed then 1 else 0) && (id in e.timers <==> !failed)
    else id in e.inserted || (turns == 0 && !failed)
  }

  lemma StepKeepsCount(e: Endpoint, ev: Event, a: Addr, id: nat, now: nat, turns: nat, failed: bool)
    requires Life(e, id, now) && Counted(e, id, turns, failed)
    requires !ev.Pass? && ev.at == a && (ev.Finish? ==> ev.id in e.launching)
    requires ev.Wake? ==> ev.id in e.timers && e.timers[ev.id] <= now
    ensures Counted(Stepped(e, ev, now), id, turns + (if IsTurn(ev, a, id) then 1 else 0),
                    failed || (IsTurn(ev, a, id) && !ev.ok))
  {
  }

  lemma {:induction false} RunCounts(s: System, es: seq<Event>, a: Addr, id: nat)
    requires Initial(s) && Possible(s, es) && a in s.endpoints
    ensures a in Run(s, es).endpoints
    ensures Counted(Run(s, es).endpoints[a], id, Turns(es, a, id), LocalFailure(es, a, id))
  {
    if es == [] {
    } else {
      var s1, e := Run(s, Front(es)), Last(es);
      RunCounts(s, Front(es), a, id);
      RunKeepsLife(s, Front(es), a, id);
      if !e.Pass? && e.at == a {
        StepKeepsCount(s1.endpoints[a], e, a, id, s1.clock, Turns(Front(es), a, id), LocalFailure(Front(es), a, id));
      }
    }
  }

  /** If no local send of its retransmission loop has failed, a packet has its one result after at
      most six turns of that loop. */
  lemma {:induction false} SixTurnsResolve(s: System, es: seq<Event>, a: Addr, id: nat)
    requires Initial(s) && Possible(s, es) && a in s.endpoints && a in Run(s, es).endpoints
    requires id in Run(s, es).endpoints[a].inserted && Turns(es, a, id) >= 6 && !LocalFailure(es, a, id)
    ensures |VerdictsOn(Run(s, es).endpoints[a].verdicts, id)| == 1
  {
    RunCounts(s, es, a, id);
    RunKeepsLife(s, es, a, id);
  }

  /** A pending packet is abandoned, with nobody left to report a timeout, exactly when a local
      send of its retransmission loop has failed. */
  lemma {:induction false} AbandonedIffLocalFailure(s: System, es: seq<Event>, a: Addr, id: nat)
    requires Initial(s) && Possible(s, es) && a in s.endpoints && a in Run(s, es).endpoints
    requires id in Run(s, es).endpoints[a].pending
    ensures id !in Run(s, es).endpoints[a].timers <==> LocalFailure(es, a, id)
  {
    RunCounts(s, es, a, id);
  }

  // ----- acknowledgements are honest

  /** A numbered datagram carries the packet that was handed over under that number. */
  predicate Genuine(e: Endpoint, d: Datagram) {
    d.body.Numbered? ==> d.body.id < |e.calls| && e.calls[d.body.id] == Parcel(d.to, d.body.payload)
  }

  /** `to` has received a packet with this number from `from`. */
  ghost predicate HasReceived(e: Endpoint, from: Addr, id: nat) {
    exists payload :: Arrival(from, Numbered(id, payload)) in e.received
  }

  /** Some endpoint has acknowledged the packet to `a`. */
  ghost predicate AckOnTheWire(s: System, a: Addr, id: nat) {
    exists b :: OnTheWire(s, b, a, Ack(id))
  }

  ghost predicate SentHonestly(s: System, a: Addr)
    requires a in s.endpoints
  {
    var e := s.endpoints[a];
    && (forall d :: d in e.sent ==> Genuine(e, d))
    && (forall d :: d in e.sent && d.body.Ack? ==> HasReceived(e, d.to, d.body.id))
  }

  ghost predicate ReceivedHonestly(s: System, a: Addr)
    requires a in s.endpoints
  {
    var e := s.endpoints[a];
    && (forall r :: r in e.received ==> OnTheWire(s, r.from, a, r.body))
    && (forall v :: v in e.verdicts && v.outcome.Acknowledged? ==> AckOnTheWire(s, a, v.id))
  }

  ghost predicate Honest(s: System) {
    forall a :: a in s.endpoints ==> SentHonestly(s, a) && ReceivedHonestly(s, a)
  }

  /** The logs of an endpoint only grow. */
  ghost predicate Extends(e: Endpoint, e': Endpoint) {
    && e.calls <= e'.calls && e.sent <= e'.sent && e.received <= e'.received && e.verdicts <= e'.verdicts
  }

  lemma StepExtends(e: Endpoint, ev: Event, now: nat)
    requires !ev.Pass? && (ev.Finish? ==> ev.id in e.launching)
    ensures Extends(e, Stepped(e, ev, now))
  {
  }

  /** New datagrams are genuine, and every new acknowledgement is for a packet received. */
  lemma StepSendsHonestly(e: Endpoint, ev: Event, now: nat, d: Datagram)
    requires !ev.Pass? && (ev.Finish? ==> ev.id in e.launching)
    requires ev.Wake? ==> Life(e, ev.id, now)
    requires d in Stepped(e, ev, now).sent && d !in e.sent
    ensures Genuine(Stepped(e, ev, now), d)
    ensures d.body.Ack? ==> HasReceived(Stepped(e, ev, now), d.to, d.body.id)
  {
    if ev.Arrive? && ev.body.Numbered? && ev.ackSent {
      assert Last(Stepped(e, ev, now).received) == Arrival(ev.from, Numbered(ev.body.id, ev.body.payload));
    }
  }

  /** Only an arriving datagram adds to what has been received or acknowledged. */
  lemma StepReceives(e: Endpoint, ev: Event, now: nat)
    requires !ev.Pass? && (ev.Finish? ==> ev.id in e.launching)
    ensures var e' := Stepped(e, ev, now);
      && (forall r :: r in e'.received && r !in e.received ==> ev.Arrive? && r == Arrival(ev.from, ev.body))
      && (forall v :: v in e'.verdicts && v !in e.verdicts && v.outcome.Acknowledged? ==>
            ev.Arrive? && ev.body == Ack(v.id))
  {
  }

  lemma NextKeepsWire(s: System, e: Event, from: Addr, to: Addr, body: Wire)
    requires Enabled(s, e) && OnTheWire(s, from, to, body)
    ensures OnTheWire(Next(s, e), from, to, body)
  {
    if !e.Pass? {
      StepExtends(s.endpoints[e.at], e, s.clock);
    }
  }

  lemma NextKeepsSentHonestly(s: System, e: Event, a: Addr)
    requires Enabled(s, e) && a in s.endpoints && SentHonestly(s, a)
    requires e.Wake? ==> Life(s.endpoints[e.at], e.id, s.clock)
    ensures SentHonestly(Next(s, e), a)
  {
    if !e.Pass? && a == e.at {
      var x, x' := s.endpoints[a], Next(s, e).endpoints[a];
      StepExtends(x, e, s.clock);
      forall d | d in x'.sent
        ensures Genuine(x', d) && (d.body.Ack? ==> HasReceived(x', d.to, d.body.id))
      {
        if d !in x.sent {
          StepSendsHonestly(x, e, s.clock, d);
        } else if d.body.Ack? {
          var payload :| Arrival(d.to, Numbered(d.body.id, payload)) in x.received;
          assert Arrival(d.to, Numbered(d.body.id, payload)) in x'.received;
        }
      }
    }
  }

  lemma NextKeepsReceivedHonestly(s: System, e: Event, a: Addr)
    requires Enabled(s, e) && a in s.endpoints && ReceivedHonestly(s, a)
    ensures ReceivedHonestly(Next(s, e), a)
  {
    var s' := Next(s, e);
    if !e.Pass? {
      StepReceives(s.endpoints[e.at], e, s.clock);
    }
    forall r | r in s'.endpoints[a].received
      ensures OnTheWire(s', r.from, a, r.body)
    {
      NextKeepsWire(s, e, r.from, a, r.body);
    }
    forall v | v in s'.endpoints[a].verdicts && v.outcome.Acknowledged?
      ensures AckOnTheWire(s', a, v.id)
    {
      var b :| OnTheWire(s, b, a, Ack(v.id));
      NextKeepsWire(s, e, b, a, Ack(v.id));
    }
  }

  lemma NextIsHonest(s: System, e: Event)
    requires Enabled(s, e) && Honest(s)
    requires e.Wake? ==> Life(s.endpoints[e.at], e.id, s.clock)
    ensures Honest(Next(s, e))
  {
    forall a | a in s.endpoints
      ensures SentHonestly(Next(s, e), a) && ReceivedHonestly(Next(s, e), a)
    {
      NextKeepsSentHonestly(s, e, a);
      NextKeepsReceivedHonestly(s, e, a);
    }
  }

  lemma {:induction false} RunIsHonest(s: System, es: seq<Event>)
    requires Initial(s) && Possible(s, es)
    ensures Run(s, es).endpoints.Keys == s.endpoints.Keys
    ensures Honest(Run(s, es))
  {
    if es == [] {
    } else {
      var s1, e := Run(s, Front(es)), Last(es);
      RunIsHonest(s, Front(es));
      if e.Wake? {
        RunKeepsLife(s, Front(es), e.at, e.id);
      }
      NextIsHonest(s1, e);
    }
  }

  /** In every run, when a packet is reported as acknowledged, `receive` has returned it at its
      destination, coming from its sender: although acknowledgements carry only a number and
      the sender does not look at where they come from, and although they may arrive before the
      packet is entered as pending. */
  lemma {:induction false} AcknowledgedMeansReceived(s: System, es: seq<Event>, a: Addr, v: Verdict)
    requires Initial(s) && Possible(s, es) && a in s.endpoints && a in Run(s, es).endpoints
    requires v in Run(s, es).endpoints[a].verdicts && v.outcome.Acknowledged?
    ensures var s' := Run(s, es);
      && v.id < |s'.endpoints[a].calls|
      && var p := s'.endpoints[a].calls[v.id];
        p.to in s'.endpoints && Arrival(a, Numbered(v.id, p.payload)) in s'.endpoints[p.to].received
  {
    RunIsHonest(s, es);
    var s' := Run(s, es);
    assert ReceivedHonestly(s', a);
    var b :| OnTheWire(s', b, a, Ack(v.id));
    assert SentHonestly(s', b) && Datagram(a, Ack(v.id)) in s'.endpoints[b].sent;
    assert HasReceived(s'.endpoints[b], a, v.id);
    var payload :| Arrival(a, Numbered(v.id, payload)) in s'.endpoints[b].received;
    assert ReceivedHonestly(s', b);
    assert OnTheWire(s', a, b, Numbered(v.id, payload));
    assert Genuine(s'.endpoints[a], Datagram(b, Numbered(v.id, payload)));
  }

  /** In every run, whatever `receive` returns was handed over by its apparent sender for this very
      address: to `send_reliable` under that number, or to an unreliable send. */
  lemma {:induction false} ReceivedMeansSent(s: System, es: seq<Event>, a: Addr, r: Arrival)
    requires Initial(s) && Possible(s, es) && a in s.endpoints && a in Run(s, es).endpoints
    requires r in Run(s, es).endpoints[a].received
    ensures var s' := Run(s, es);
      && r.from in s'.endpoints
      && Datagram(a, r.body) in s'.endpoints[r.from].sent
      && (r.body.Numbered? ==>
            r.body.id < |s'.endpoints[r.from].calls|
            && s'.endpoints[r.from].calls[r.body.id] == Parcel(a, r.body.payload))
  {
    RunIsHonest(s, es);
    assert ReceivedHonestly(Run(s, es), a) && SentHonestly(Run(s, es), r.from);
  }

  // ----- progress

  lemma {:induction false} Transmitted(sent: seq<Datagram>, id: nat) returns (d: Datagram)
    requires Transmissions(sent, id) > 0
    ensures d in sent && d.body.Numbered? && d.body.id == id
  {
    d := Last(sent);
    if !(d.body.Numbered? && d.body.id == id) {
      d := Transmitted(Front(sent), id);
    }
  }

  /** From any reachable state: if a pending packet arrives, its acknowledgement leaves, and that
      arrives while the packet is still pending, then both arrivals are possible and the packet
      ends as acknowledged and received. */
  lemma {:induction false} AnsweredPacketIsAcknowledged(s: System, es: seq<Event>, a: Addr, id: nat)
    requires Initial(s) && Possible(s, es) && a in s.endpoints && a in Run(s, es).endpoints
    requires id in Run(s, es).endpoints[a].pending
    requires Run(s, es).endpoints[a].pending[id].datagram.to in s.endpoints
    ensures var s0 := Run(s, es);
      var p := s0.endpoints[a].pending[id];
      var there := Arrive(a, p.datagram.to, p.datagram.body, true);
      var back := Arrive(p.datagram.to, a, Ack(id), true);
      && Enabled(s0, there) && Enabled(Next(s0, there), back)
      && var s2 := Next(Next(s0, there), back);
        && Arrival(a, p.datagram.body) in s2.endpoints[p.datagram.to].received
        && |VerdictsOn(s2.endpoints[a].verdicts, id)| == 1
        && p.timestamp <= s0.clock
        && VerdictsOn(s2.endpoints[a].verdicts, id)[0].outcome == Acknowledged(s0.clock - p.timestamp)
  {
    RunIsHonest(s, es);
    RunKeepsLife(s, es, a, id);
    var s0 := Run(s, es);
    var e := s0.endpoints[a];
    var p := e.pending[id];
    var d := Transmitted(e.sent, id);
    assert SentHonestly(s0, a) && Genuine(e, d);
    var there := Arrive(a, p.datagram.to, p.datagram.body, true);
    var s1 := Next(s0, there);
    assert Last(s1.endpoints[p.datagram.to].sent) == Datagram(a, Ack(id));
    assert Last(s1.endpoints[p.datagram.to].received) == Arrival(a, p.datagram.body);
    var e1 := s1.endpoints[a];
    assert e1.pending == e.pending && e1.verdicts == e.verdicts;
    VerdictsSnoc(e.verdicts, Verdict(id, Acknowledged(Elapsed(p.timestamp, s0.clock)), s0.clock), id);
  }
}
