/**
 One endpoint of the reliable datagram layer, as functions on its state. Transmitting a
 packet and entering it into the table of pending packets are separate steps, so that an
 acknowledgement can arrive in between. The log records what the endpoint has
 transmitted, what `receive` has returned, when packets became pending and how they ended.
 */
module Reliable {
  import opened Common

  const MAX_RETRIES: nat := 5
  const TIMEOUT: nat := 100 * MILLISECOND

  datatype Wire =
    | Unnumbered(payload: Packet)
    | Numbered(id: nat, payload: Packet)
    | Ack(id: nat)

  datatype Datagram = Datagram(to: Addr, body: Wire)

  /** What `receive` returns: a payload and the address it came from. */
  datatype Arrival = Arrival(from: Addr, body: Wire)

  datatype PendingPacket = PendingPacket(datagram: Datagram, timestamp: nat, retries: nat)

  datatype Outcome = Acknowledged(after: nat) | Timeout

  datatype Verdict = Verdict(id: nat, outcome: Outcome, at: nat)

  datatype Log = Log(
    sent: seq<Datagram>,
    received: seq<Arrival>,
    inserted: map<nat, nat>,
    verdicts: seq<Verdict>
  )

  /** A packet handed to `send_reliable`. */
  datatype Parcel = Parcel(to: Addr, payload: Packet)

  datatype Endpoint = Endpoint(
    calls: seq<Parcel>,
    launching: map<nat, Datagram>,
    pending: map<nat, PendingPacket>,
    timers: map<nat, nat>,
    log: Log
  ) {
    const sent := log.sent
    const received := log.received
    const inserted := log.inserted
    const verdicts := log.verdicts

    function Transmit(d: Datagram): Endpoint {
      this.(log := log.(sent := sent + [d]))
    }

    function Resolve(id: nat, outcome: Outcome, now: nat): Endpoint {
      this.(pending := pending - {id}, log := log.(verdicts := verdicts + [Verdict(id, outcome, now)]))
    }

    function Return(a: Arrival): Endpoint {
      this.(log := log.(received := received + [a]))
    }
  }

  const NEW_ENDPOINT := Endpoint([], map[], map[], map[], Log([], [], map[], []))

  /** The first half of `send_reliable`: number the packet and transmit it. If the local send fails the
      number is used up and nothing else happens. */
  function BeginSend(e: Endpoint, to: Addr, payload: Packet, ok: bool): Endpoint {
    var id := |e.calls|;
    var d := Datagram(to, Numbered(id, payload));
    var e1 := e.(calls := e.calls + [Parcel(to, payload)]);
    if ok then e1.(launching := e1.launching[id := d]).Transmit(d) else e1
  }

  /** The second half: enter the packet as pending and start its timer. */
  function FinishSend(e: Endpoint, id: nat, now: nat): Endpoint
    requires id in e.launching
  {
    e.(launching := e.launching - {id},
       pending := e.pending[id := PendingPacket(e.launching[id], now, 0)],
       timers := e.timers[id := now + TIMEOUT],
       log := e.log.(inserted := e.inserted[id := now]))
  }

  function SendUnreliable(e: Endpoint, to: Addr, payload: Packet, ok: bool): Endpoint {
    if ok then e.Transmit(Datagram(to, Unnumbered(payload))) else e
  }

  /** `send_unreliable_broadcast`: an unreliable send for each target in turn; the first that fails ends it. `oks`
      tells for each target whether the operating system accepts the datagram. */
  function Broadcast(e: Endpoint, targets: seq<Addr>, payload: Packet, oks: seq<bool>): (Endpoint, bool)
    requires |oks| == |targets|
  {
    if targets == [] then (e, true) else
      var (e1, all) := Broadcast(e, Front(targets), payload, Front(oks));
      if all then (SendUnreliable(e1, Last(targets), payload, Last(oks)), Last(oks)) else (e1, false)
  }

  /** `receive`. A numbered packet is returned only after its acknowledgement has been sent. */
  function Receive(e: Endpoint, from: Addr, w: Wire, ackSent: bool, now: nat): Endpoint {
    match w
    case Ack(id) =>
      if id in e.pending then e.Resolve(id, Acknowledged(Elapsed(e.pending[id].timestamp, now)), now) else e
    case Numbered(id, _) =>
      if ackSent then e.Transmit(Datagram(from, Ack(id))).Return(Arrival(from, w)) else e
    case Unnumbered(_) => e.Return(Arrival(from, w))
  }

  function StopTimer(e: Endpoint, id: nat): Endpoint {
    e.(timers := e.timers - {id})
  }

  /** One turn of the loop in `handle_retransmission`, when its sleep is over. A local send failure
      ends the loop and leaves the packet pending. */
  function Tick(e: Endpoint, id: nat, ok: bool, now: nat): Endpoint {
    if id !in e.pending then StopTimer(e, id) else
      var p := e.pending[id];
      if p.retries >= MAX_RETRIES then StopTimer(e.Resolve(id, Timeout, now), id)
      else if Elapsed(p.timestamp, now) < TIMEOUT then e.(timers := e.timers[id := now + TIMEOUT])
      else if !ok then StopTimer(e, id)
      else
        e.(pending := e.pending[id := PendingPacket(p.datagram, now, p.retries + 1)],
           timers := e.timers[id := now + TIMEOUT]).Transmit(p.datagram)
  }
}
