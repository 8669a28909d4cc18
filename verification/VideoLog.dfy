/**
 Reading video packets off a log of what has been sent, and what it means for a sequence
 of them to be numbered without gaps.
 */
module VideoLog {
  import opened Common

  predicate IsVideoFor(e: Envelope, a: Addr, v: VideoId) {
    e.Plain? && e.to == a && e.body.VideoData? && e.body.video.stream == v
  }

  /** The packets of `v` sent to `a`, in order. */
  function VideoFor(log: seq<Envelope>, a: Addr, v: VideoId): seq<VideoPacket> {
    if log == [] then [] else
      var rest := VideoFor(Front(log), a, v);
      if IsVideoFor(Last(log), a, v) then rest + [Last(log).body.video] else rest
  }

  lemma {:induction false} VideoForAppend(log: seq<Envelope>, more: seq<Envelope>, a: Addr, v: VideoId)
    ensures VideoFor(log + more, a, v) == VideoFor(log, a, v) + VideoFor(more, a, v)
  {
    if more == [] {
      assert log + more == log;
    } else {
      VideoForAppend(log, Front(more), a, v);
      assert Front(log + more) == log + Front(more);
    }
  }

  lemma {:induction false} NoVideo(log: seq<Envelope>, a: Addr, v: VideoId)
    requires forall e :: e in log ==> !e.Plain? || !e.body.VideoData?
    ensures VideoFor(log, a, v) == []
  {
    if log == [] {
    } else {
      NoVideo(Front(log), a, v);
      assert Last(log) in log;
    }
  }

  /** A broadcast to a list without duplicates reaches each of its members exactly once. */
  lemma {:induction false} BroadcastOnce(targets: seq<Addr>, p: VideoPacket, a: Addr, v: VideoId)
    requires NoDuplicates(targets)
    ensures VideoFor(PlainTo(targets, VideoData(p)), a, v) == if a in targets && p.stream == v then [p] else []
  {
    if targets == [] {
    } else {
      BroadcastOnce(Front(targets), p, a, v);
      assert Front(PlainTo(targets, VideoData(p))) == PlainTo(Front(targets), VideoData(p));
      assert a == Last(targets) ==> a !in Front(targets);
    }
  }

  predicate Follows(ps: seq<VideoPacket>, k: nat)
    requires 0 < k < |ps|
  {
    ps[k].sequence == ps[k - 1].sequence + 1
  }

  /** Every number is the successor of the one before. */
  predicate GapFree(ps: seq<VideoPacket>) {
    forall k :: 0 < k < |ps| ==> Follows(ps, k)
  }

  /** The pieces of data numbered consecutively after `n`. */
  function NumberedFrom(v: VideoId, n: nat, chunks: seq<seq<bv8>>): (r: seq<VideoPacket>)
    ensures |r| == |chunks| && forall i :: 0 <= i < |r| ==> r[i] == VideoPacket(v, n + 1 + i, chunks[i])
  {
    seq(|chunks|, i requires 0 <= i < |chunks| => VideoPacket(v, n + 1 + i, chunks[i]))
  }

  lemma NumberedSnoc(v: VideoId, n: nat, chunks: seq<seq<bv8>>, data: seq<bv8>)
    ensures NumberedFrom(v, n, chunks + [data]) ==
      NumberedFrom(v, n, chunks) + [VideoPacket(v, n + 1 + |chunks|, data)]
  {
  }
}
