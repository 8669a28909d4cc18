/**
 Reading control packets off a log of what has been sent: the channel to one receiver, and
 what replaying requests and stops does to a subscriber list.
 */
module ControlLog {
  import opened Common

  predicate IsControl(p: Packet) {
    p.RequestVideo? || p.StopVideo?
  }

  predicate IsControlTo(e: Envelope, to: Addr) {
    e.Reliable? && e.to == to && IsControl(e.body)
  }

  /** The requests and stops sent to `to`, in order. */
  function Channel(sent: seq<Envelope>, to: Addr): (r: seq<Packet>)
    ensures forall p :: p in r ==> IsControl(p)
  {
    if sent == [] then [] else
      var rest := Channel(Front(sent), to);
      if IsControlTo(Last(sent), to) then rest + [Last(sent).body] else rest
  }

  /** Of the requests and stops of `v`, the last is a request. */
  predicate Wanted(ps: seq<Packet>, v: VideoId) {
    ps != []
    && (Last(ps) == RequestVideo(v) || (Last(ps) != StopVideo(v) && Wanted(Front(ps), v)))
  }

  /** Of the requests and stops of `v` sent to `a`, the last is a request. */
  predicate Asked(sent: seq<Envelope>, a: Addr, v: VideoId) {
    Wanted(Channel(sent, a), v)
  }

  lemma WantedSnoc(ps: seq<Packet>, p: Packet, v: VideoId)
    ensures Wanted(ps + [p], v) <==> p == RequestVideo(v) || (p != StopVideo(v) && Wanted(ps, v))
  {
    assert Front(ps + [p]) == ps;
  }

  lemma ChannelSnoc(sent: seq<Envelope>, e: Envelope, to: Addr)
    ensures Channel(sent + [e], to) == Channel(sent, to) + if IsControlTo(e, to) then [e.body] else []
  {
    assert Front(sent + [e]) == sent;
  }

  lemma AskedSnoc(sent: seq<Envelope>, to: Addr, p: Packet, a: Addr, v: VideoId)
    ensures Asked(sent + [Reliable(to, p)], a, v) <==>
      if to != a then Asked(sent, a, v)
      else p == RequestVideo(v) || (p != StopVideo(v) && Asked(sent, a, v))
  {
    ChannelSnoc(sent, Reliable(to, p), a);
    if to == a && IsControl(p) {
      WantedSnoc(Channel(sent, a), p, v);
    }
  }

  lemma {:induction false} OtherPacketsPass(sent: seq<Envelope>, more: seq<Envelope>, to: Addr)
    requires forall e :: e in more ==> !IsControl(e.body)
    ensures Channel(sent + more, to) == Channel(sent, to)
  {
    if more == [] {
      assert sent + more == sent;
    } else {
      OtherPacketsPass(sent, Front(more), to);
      assert Last(more) in more;
      assert sent + more == (sent + Front(more)) + [Last(more)];
      ChannelSnoc(sent + Front(more), Last(more), to);
    }
  }

  lemma {:induction false} ChannelGrows(sent: seq<Envelope>, more: seq<Envelope>, to: Addr)
    requires sent <= more
    ensures Channel(sent, to) <= Channel(more, to)
  {
    if |sent| == |more| {
      assert sent == more;
    } else {
      ChannelGrows(sent, Front(more), to);
    }
  }

  lemma {:induction false} WantedIsRequested(ps: seq<Packet>, v: VideoId)
    requires Wanted(ps, v)
    ensures RequestVideo(v) in ps
  {
    if Last(ps) != RequestVideo(v) {
      WantedIsRequested(Front(ps), v);
    }
  }

  /** What the receiver of `ps` makes of its subscriber list for `v`, if all of them come from `a`. */
  function Replay(subscribers: Subscribers, ps: seq<Packet>, v: VideoId, a: Addr): Subscribers {
    if ps == [] then subscribers else
      var rest := Replay(subscribers, Front(ps), v, a);
      if Last(ps) == RequestVideo(v) then AddSubscriber(rest, a)
      else if Last(ps) == StopVideo(v) then Without(rest, a)
      else rest
  }

  /** Replaying the rest of a channel leads to the last word of the whole channel. */
  lemma {:induction false} ReplayHasLastWord(subscribers: Subscribers, ps: seq<Packet>, d: nat, v: VideoId, a: Addr)
    requires d <= |ps| && (a in subscribers <==> Wanted(ps[..d], v))
    ensures a in Replay(subscribers, ps[d..], v, a) <==> Wanted(ps, v)
  {
    if d == |ps| {
      assert ps[..d] == ps;
    } else {
      assert Front(ps)[..d] == ps[..d] && Front(ps[d..]) == Front(ps)[d..] && Last(ps[d..]) == Last(ps);
      ReplayHasLastWord(subscribers, Front(ps), d, v, a);
    }
  }
}
