/**
 The life of one numbered packet at its sender: it is transmitted at most six times, ends
 at most once, and times out only after all six transmissions and 600 milliseconds.
 */
module ReliableLife {
  import opened Common
  import opened Reliable

  /** How often a datagram with this number has been transmitted. */
  function Transmissions(sent: seq<Datagram>, id: nat): nat {
    if sent == [] then 0 else
      Transmissions(Front(sent), id) + if Last(sent).body.Numbered? && Last(sent).body.id == id then 1 else 0
  }

  lemma TransmissionsSnoc(sent: seq<Datagram>, d: Datagram, id: nat)
    ensures Transmissions(sent + [d], id) ==
      Transmissions(sent, id) + if d.body.Numbered? && d.body.id == id then 1 else 0
  {
    assert Front(sent + [d]) == sent;
  }

  /** The results reported for this number. */
  function VerdictsOn(verdicts: seq<Verdict>, id: nat): seq<Verdict> {
    if verdicts == [] then [] else
      var rest := VerdictsOn(Front(verdicts), id);
      if Last(verdicts).id == id then rest + [Last(verdicts)] else rest
  }

  lemma VerdictsSnoc(verdicts: seq<Verdict>, v: Verdict, id: nat)
    ensures VerdictsOn(verdicts + [v], id) == VerdictsOn(verdicts, id) + if v.id == id then [v] else []
  {
    assert Front(verdicts + [v]) == verdicts;
  }

  /** The datagram that carries packet `id`. */
  function Carrier(e: Endpoint, id: nat): Datagram
    requires id < |e.calls|
  {
    Datagram(e.calls[id].to, Numbered(id, e.calls[id].payload))
  }

  // ----- the phases of a packet

  /** Not entered as pending: unknown, just transmitted, or given up because the local send failed. */
  ghost predicate NotInserted(e: Endpoint, id: nat) {
    && id !in e.pending && id !in e.timers && VerdictsOn(e.verdicts, id) == []
    && (id < |e.calls| || (id !in e.launching && Transmissions(e.sent, id) == 0))
    && Transmissions(e.sent, id) <= 1
    && (id in e.launching ==> e.launching[id] == Carrier(e, id) && Transmissions(e.sent, id) == 1)
  }

  ghost predicate Pending(e: Endpoint, id: nat, now: nat)
    requires id in e.inserted && id < |e.calls|
  {
    && id in e.pending && VerdictsOn(e.verdicts, id) == []
    && var p := e.pending[id];
      && p.datagram == Carrier(e, id)
      && p.retries <= MAX_RETRIES
      && Transmissions(e.sent, id) == 1 + p.retries
      && e.inserted[id] + p.retries * TIMEOUT <= p.timestamp <= now
      && (id in e.timers ==> e.timers[id] == p.timestamp + TIMEOUT)
  }

  ghost predicate Settled(e: Endpoint, id: nat)
    requires id in e.inserted
  {
    && id !in e.pending
    && Transmissions(e.sent, id) <= 1 + MAX_RETRIES
    && |VerdictsOn(e.verdicts, id)| == 1
    && var v := VerdictsOn(e.verdicts, id)[0];
      v.outcome.Timeout? ==>
        && Transmissions(e.sent, id) == 1 + MAX_RETRIES
        && e.inserted[id] + (1 + MAX_RETRIES) * TIMEOUT <= v.at
  }

  ghost predicate Life(e: Endpoint, id: nat, now: nat) {
    if id in e.inserted then
      id < |e.calls| && id !in e.launching && (Pending(e, id, now) || Settled(e, id))
    else NotInserted(e, id)
  }

  // ----- every step keeps it

  lemma BeginKeepsLife(e: Endpoint, to: Addr, payload: Packet, ok: bool, id: nat, now: nat)
    requires Life(e, id, now)
    ensures Life(BeginSend(e, to, payload, ok), id, now)
  {
    var d := Datagram(to, Numbered(|e.calls|, payload));
    TransmissionsSnoc(e.sent, d, id);
  }

  lemma FinishKeepsLife(e: Endpoint, n: nat, id: nat, now: nat)
    requires Life(e, id, now) && n in e.launching
    ensures Life(FinishSend(e, n, now), id, now)
  {
  }

  lemma OtherTransmissionKeepsLife(e: Endpoint, d: Datagram, id: nat, now: nat)
    requires Life(e, id, now) && !d.body.Numbered?
    ensures Life(e.Transmit(d), id, now)
  {
    TransmissionsSnoc(e.sent, d, id);
  }

  lemma ReturnKeepsLife(e: Endpoint, a: Arrival, id: nat, now: nat)
    requires Life(e, id, now)
    ensures Life(e.Return(a), id, now)
  {
  }

  lemma ResolveSettles(e: Endpoint, id: nat, outcome: Outcome, now: nat)
    requires Life(e, id, now) && id in e.pending
    requires outcome.Timeout? ==> id in e.timers && e.timers[id] <= now && e.pending[id].retries >= MAX_RETRIES
    ensures Life(e.Resolve(id, outcome, now), id, now)
  {
    VerdictsSnoc(e.verdicts, Verdict(id, outcome, now), id);
    assert Settled(e.Resolve(id, outcome, now), id);
  }

  lemma ResolveKeepsOthers(e: Endpoint, n: nat, outcome: Outcome, id: nat, now: nat)
    requires Life(e, id, now) && n != id
    ensures Life(e.Resolve(n, outcome, now), id, now)
  {
    VerdictsSnoc(e.verdicts, Verdict(n, outcome, now), id);
    var e' := e.Resolve(n, outcome, now);
    if id in e.inserted {
      assert if id in e.pending then Pending(e', id, now) else Settled(e', id);
    } else {
      assert NotInserted(e', id);
    }
  }

  lemma ResolveKeepsLife(e: Endpoint, n: nat, outcome: Outcome, id: nat, now: nat)
    requires Life(e, id, now) && n in e.pending
    requires outcome.Timeout? && n == id ==> n in e.timers && e.timers[n] <= now && e.pending[n].retries >= MAX_RETRIES
    ensures Life(e.Resolve(n, outcome, now), id, now)
  {
    if n == id {
      ResolveSettles(e, id, outcome, now);
    } else {
      ResolveKeepsOthers(e, n, outcome, id, now);
    }
  }

  lemma ReceiveKeepsLife(e: Endpoint, from: Addr, w: Wire, ackSent: bool, id: nat, now: nat)
    requires Life(e, id, now)
    ensures Life(Receive(e, from, w, ackSent, now), id, now)
  {
    match w
    case Ack(n) =>
      if n in e.pending {
        ResolveKeepsLife(e, n, Acknowledged(Elapsed(e.pending[n].timestamp, now)), id, now);
      }
    case Numbered(n, _) =>
      if ackSent {
        OtherTransmissionKeepsLife(e, Datagram(from, Ack(n)), id, now);
        ReturnKeepsLife(e.Transmit(Datagram(from, Ack(n))), Arrival(from, w), id, now);
      }
    case Unnumbered(_) => ReturnKeepsLife(e, Arrival(from, w), id, now);
  }

  lemma StopTimerKeepsLife(e: Endpoint, n: nat, id: nat, now: nat)
    requires Life(e, id, now)
    ensures Life(StopTimer(e, n), id, now)
  {
  }

  lemma TickKeepsLife(e: Endpoint, n: nat, ok: bool, id: nat, now: nat)
    requires Life(e, id, now) && Life(e, n, now) && n in e.timers && e.timers[n] <= now
    ensures Life(Tick(e, n, ok, now), id, now)
  {
    if n in e.pending && e.pending[n].retries >= MAX_RETRIES {
      ResolveKeepsLife(e, n, Timeout, id, now);
      StopTimerKeepsLife(e.Resolve(n, Timeout, now), n, id, now);
    } else if n !in e.pending || (Elapsed(e.pending[n].timestamp, now) >= TIMEOUT && !ok) {
      StopTimerKeepsLife(e, n, id, now);
    } else {
      RetransmissionKeepsLife(e, n, ok, id, now);
    }
  }

  lemma RetransmissionKeepsLife(e: Endpoint, n: nat, ok: bool, id: nat, now: nat)
    requires Life(e, id, now) && Life(e, n, now) && n in e.timers && e.timers[n] <= now
    requires n in e.pending && e.pending[n].retries < MAX_RETRIES
    requires ok || Elapsed(e.pending[n].timestamp, now) < TIMEOUT
    ensures Life(Tick(e, n, ok, now), id, now)
  {
    TransmissionsSnoc(e.sent, e.pending[n].datagram, id);
  }
}
