/**
 The socket as a mutable object. Its table of pending packets and its number counter are
 what the program keeps; packets between the two halves of a send, running timers and the
 log stand for what its tasks and its network have seen.
 */
module ReliableSocket {
  import opened Common
  import opened Reliable

  class ReliableUdpSocket {
    var sequenceNumber: nat
    var pendingPackets: map<nat, PendingPacket>
    var launching: map<nat, Datagram>
    var timers: map<nat, nat>
    ghost var calls: seq<Parcel>
    ghost var log: Log

    ghost function Abs(): Endpoint
      reads this
    {
      Endpoint(calls, launching, pendingPackets, timers, log)
    }

    ghost predicate Valid()
      reads this
    {
      sequenceNumber == |calls|
    }

    constructor ()
      ensures Valid() && Abs() == NEW_ENDPOINT
    {
      sequenceNumber, pendingPackets, launching, timers := 0, map[], map[], map[];
      calls, log := [], Log([], [], map[], []);
    }

    /** `sent` tells whether the operating system accepted the datagram. */
    method SendTo(d: Datagram, sent: bool)
      modifies this`log
      ensures log == if sent then old(log).(sent := old(log).sent + [d]) else old(log)
    {
      if sent {
        log := log.(sent := log.sent + [d]);
      }
    }

    method BeginSend(to: Addr, payload: Packet, sent: bool) returns (id: nat)
      requires Valid()
      modifies this
      ensures Valid() && Abs() == Reliable.BeginSend(old(Abs()), to, payload, sent)
      ensures id == |old(Abs()).calls| && (sent ==> id in launching)
    {
      id := sequenceNumber;
      sequenceNumber := sequenceNumber + 1;
      calls := calls + [Parcel(to, payload)];
      var d := Datagram(to, Numbered(id, payload));
      SendTo(d, sent);
      if sent {
        launching := launching[id := d];
      }
    }

    method FinishSend(id: nat, now: nat)
      requires Valid() && id in launching
      modifies this
      ensures Valid() && Abs() == Reliable.FinishSend(old(Abs()), id, now)
    {
      pendingPackets := pendingPackets[id := PendingPacket(launching[id], now, 0)];
      launching := launching - {id};
      timers := timers[id := now + TIMEOUT];
      log := log.(inserted := log.inserted[id := now]);
    }

    method SendUnreliable(to: Addr, payload: Packet, sent: bool)
      requires Valid()
      modifies this
      ensures Valid() && Abs() == Reliable.SendUnreliable(old(Abs()), to, payload, sent)
    {
      SendTo(Datagram(to, Unnumbered(payload)), sent);
    }

    /** `oks` tells for each target whether the operating system accepts the datagram. */
    method SendUnreliableBroadcast(targets: seq<Addr>, payload: Packet, oks: seq<bool>) returns (all: bool)
      requires Valid() && |oks| == |targets|
      modifies this
      ensures Valid() && (Abs(), all) == Broadcast(old(Abs()), targets, payload, oks)
    {
      all := true;
      for i := 0 to |targets|
        invariant Valid() && (Abs(), all) == Broadcast(old(Abs()), targets[..i], payload, oks[..i])
      {
        NextPrefix(targets, i);
        NextPrefix(oks, i);
        if all {
          SendTo(Datagram(targets[i], Unnumbered(payload)), oks[i]);
          all := oks[i];
        }
      }
      assert targets[..|targets|] == targets && oks[..|oks|] == oks;
    }

    /** Reports the result to whoever waits for it. */
    method Resolve(id: nat, outcome: Outcome, now: nat)
      requires Valid() && id in pendingPackets
      modifies this
      ensures Valid() && Abs() == old(Abs()).Resolve(id, outcome, now)
    {
      pendingPackets := pendingPackets - {id};
      log := log.(verdicts := log.verdicts + [Verdict(id, outcome, now)]);
    }

    method Receive(from: Addr, w: Wire, ackSent: bool, now: nat) returns (r: Option<Packet>)
      requires Valid()
      modifies this
      ensures Valid() && Abs() == Reliable.Receive(old(Abs()), from, w, ackSent, now)
      ensures r == if w.Ack? || (w.Numbered? && !ackSent) then None else Some(w.payload)
    {
      r := None;
      match w
      case Ack(id) =>
        if id in pendingPackets {
          Resolve(id, Acknowledged(Elapsed(pendingPackets[id].timestamp, now)), now);
        }
      case Numbered(id, payload) =>
        SendTo(Datagram(from, Ack(id)), ackSent);
        if ackSent {
          log := log.(received := log.received + [Arrival(from, w)]);
          r := Some(payload);
        }
      case Unnumbered(payload) =>
        log := log.(received := log.received + [Arrival(from, w)]);
        r := Some(payload);
    }

    /** One turn of the retransmission loop; the loop goes on if the timer is set again. */
    method Tick(id: nat, sent: bool, now: nat)
      requires Valid()
      modifies this
      ensures Valid() && Abs() == Reliable.Tick(old(Abs()), id, sent, now)
    {
      if id !in pendingPackets {
        timers := timers - {id};
        return;
      }
      var p := pendingPackets[id];
      if p.retries >= MAX_RETRIES {
        Resolve(id, Timeout, now);
        timers := timers - {id};
      } else if Elapsed(p.timestamp, now) >= TIMEOUT {
        SendTo(p.datagram, sent);
        if sent {
          pendingPackets := pendingPackets[id := PendingPacket(p.datagram, now, p.retries + 1)];
          timers := timers[id := now + TIMEOUT];
        } else {
          timers := timers - {id};
        }
      } else {
        timers := timers[id := now + TIMEOUT];
      }
    }
  }
}
