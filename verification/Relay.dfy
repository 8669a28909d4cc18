/**
 Video packets on their way from a server through any chain of nodes: which of them a
 node passes on, and what reaches the last subscriber.
 */
module Relay {
  import opened Common
  import opened NodeModel
  import opened VideoLog
  import opened NodeReactions
  import ServerModel
  import ServerRuns

  // ----- which packets pass

  /** The number of the latest packet after `ps`; `last` was the latest before. */
  function LastNumber(last: Option<nat>, ps: seq<VideoPacket>): Option<nat> {
    if ps == [] then last else Some(Last(ps).sequence)
  }

  /** A packet passes unless its number lies beyond the successor of the latest one. */
  predicate Passes(last: Option<nat>, p: VideoPacket) {
    last.None? || p.sequence <= last.value + 1
  }

  /** What a node passes on of the packets `ps` of one stream. */
  function Forwarded(last: Option<nat>, ps: seq<VideoPacket>): seq<VideoPacket> {
    if ps == [] then [] else
      var rest := Forwarded(last, Front(ps));
      if Passes(LastNumber(last, Front(ps)), Last(ps)) then rest + [Last(ps)] else rest
  }

  predicate PassesAt(last: Option<nat>, ps: seq<VideoPacket>, k: nat)
    requires k < |ps|
  {
    Passes(if k == 0 then last else Some(ps[k - 1].sequence), ps[k])
  }

  /** No packet jumps ahead of the one before it. */
  predicate NoJump(last: Option<nat>, ps: seq<VideoPacket>) {
    forall k :: 0 <= k < |ps| ==> PassesAt(last, ps, k)
  }

  lemma {:induction false} ForwardedLength(last: Option<nat>, ps: seq<VideoPacket>)
    ensures |Forwarded(last, ps)| <= |ps|
  {
    if ps == [] {
    } else {
      ForwardedLength(last, Front(ps));
    }
  }

  /** A stream passes a node unchanged if and only if it has no jump. */
  lemma {:induction false} UnchangedIffNoJump(last: Option<nat>, ps: seq<VideoPacket>)
    ensures Forwarded(last, ps) == ps <==> NoJump(last, ps)
  {
    if ps == [] {
    } else {
      UnchangedIffNoJump(last, Front(ps));
      ForwardedLength(last, Front(ps));
      NoJumpSnoc(last, ps);
    }
  }

  lemma NoJumpSnoc(last: Option<nat>, ps: seq<VideoPacket>)
    requires ps != []
    ensures NoJump(last, ps) <==> NoJump(last, Front(ps)) && Passes(LastNumber(last, Front(ps)), Last(ps))
  {
    forall k | 0 <= k < |ps|
      ensures PassesAt(last, ps, k) <==>
        if k < |ps| - 1 then PassesAt(last, Front(ps), k) else Passes(LastNumber(last, Front(ps)), Last(ps))
    {
    }
    assert PassesAt(last, ps, |ps| - 1) <==> Passes(LastNumber(last, Front(ps)), Last(ps));
  }

  lemma GapFreeHasNoJump(last: Option<nat>, ps: seq<VideoPacket>)
    requires GapFree(ps) && (ps != [] ==> Passes(last, ps[0]))
    ensures NoJump(last, ps)
  {
    forall k | 0 <= k < |ps|
      ensures PassesAt(last, ps, k)
    {
      assert k > 0 ==> Follows(ps, k);
    }
  }

  // ----- what the comment in the code means

  /** The comment says that older packets are ignored: one passes if it is at least the successor of the
      latest one. */
  predicate IsCurrent(last: Option<nat>, p: VideoPacket) {
    last.None? || p.sequence >= last.value + 1
  }

  /** What a node that did as the comment says would pass on. */
  function AsMeant(last: Option<nat>, ps: seq<VideoPacket>): seq<VideoPacket> {
    if ps == [] then [] else
      var rest := AsMeant(last, Front(ps));
      if IsCurrent(LastNumber(last, Front(ps)), Last(ps)) then rest + [Last(ps)] else rest
  }

  /** The stream has no gap and follows on the latest packet before it. */
  predicate Continues(last: Option<nat>, ps: seq<VideoPacket>) {
    GapFree(ps) && (ps != [] && last.Some? ==> ps[0].sequence == last.value + 1)
  }

  predicate IsNext(last: Option<nat>, p: VideoPacket) {
    last.None? || p.sequence == last.value + 1
  }

  lemma ContinuesSnoc(last: Option<nat>, ps: seq<VideoPacket>)
    requires ps != []
    ensures Continues(last, ps) <==> Continues(last, Front(ps)) && IsNext(LastNumber(last, Front(ps)), Last(ps))
  {
    var n := |ps| - 1;
    assert forall k :: 0 < k < n ==> (Follows(Front(ps), k) <==> Follows(ps, k));
    assert n > 0 ==> (Follows(ps, n) <==> IsNext(LastNumber(last, Front(ps)), Last(ps)));
    assert GapFree(ps) <==> GapFree(Front(ps)) && (n > 0 ==> Follows(ps, n));
  }

  /** The code and the comment decide alike about one packet exactly if it is the expected one. */
  lemma DecideAlike(last: Option<nat>, p: VideoPacket)
    ensures (Passes(last, p) <==> IsCurrent(last, p)) <==> IsNext(last, p)
  {
  }

  lemma {:induction false} PassedOnArrived(last: Option<nat>, ps: seq<VideoPacket>)
    ensures forall p :: p in Forwarded(last, ps) || p in AsMeant(last, ps) ==> p in ps
  {
    if ps == [] {
    } else {
      PassedOnArrived(last, Front(ps));
    }
  }

  /** A node passes on what the comment wants if and only if the stream has no gap and follows on the latest
      packet before it. A stale packet is passed on although it should be ignored, and a packet after
      a loss is dropped although it should pass. Packets are told apart by their contents: 5, 7, 7
      arriving would otherwise give 5, 7 either way. */
  lemma {:induction false} DoesAsMeantIffContinues(last: Option<nat>, ps: seq<VideoPacket>)
    requires NoDuplicates(ps)
    ensures Forwarded(last, ps) == AsMeant(last, ps) <==> Continues(last, ps)
  {
    if ps == [] {
    } else {
      var before, x := LastNumber(last, Front(ps)), Last(ps);
      DoesAsMeantIffContinues(last, Front(ps));
      ContinuesSnoc(last, ps);
      PassedOnArrived(last, Front(ps));
      DecideAlike(before, x);
      assert x !in Front(ps);
      var f, m := Forwarded(last, Front(ps)), AsMeant(last, Front(ps));
      if Passes(before, x) {
        assert x in Forwarded(last, ps) && Front(f + [x]) == f && Front(m + [x]) == m;
      } else {
        assert x in AsMeant(last, ps);
      }
    }
  }

  predicate MeantAt(last: Option<nat>, ps: seq<VideoPacket>, k: nat)
    requires k < |ps|
  {
    IsCurrent(if k == 0 then last else Some(ps[k - 1].sequence), ps[k])
  }

  /** Packet by packet and for any stream, repetitions included: every decision is as meant if and only if
      the stream continues without a gap. */
  lemma DecidesAsMeantIffContinues(last: Option<nat>, ps: seq<VideoPacket>)
    ensures (forall k :: 0 <= k < |ps| ==> (PassesAt(last, ps, k) <==> MeantAt(last, ps, k))) <==> Continues(last, ps)
  {
    forall k | 0 <= k < |ps|
      ensures (PassesAt(last, ps, k) <==> MeantAt(last, ps, k)) <==>
        if k == 0 then IsNext(last, ps[0]) else Follows(ps, k)
    {
      DecideAlike(if k == 0 then last else Some(ps[k - 1].sequence), ps[k]);
    }
    if ps != [] && forall k :: 0 <= k < |ps| ==> (PassesAt(last, ps, k) <==> MeantAt(last, ps, k)) {
      assert PassesAt(last, ps, 0) <==> MeantAt(last, ps, 0);
      forall k | 0 < k < |ps|
        ensures Follows(ps, k)
      {
        assert PassesAt(last, ps, k) <==> MeantAt(last, ps, k);
      }
    }
  }

  /** The stale packet 3 is passed on after 5 and the current packet 7 is not; the comment wants the opposite. */
  lemma StalePassesCurrentDoesNot(v: VideoId, data: seq<bv8>)
    ensures var five, three, seven := VideoPacket(v, 5, data), VideoPacket(v, 3, data), VideoPacket(v, 7, data);
      && Forwarded(None, [five, three]) == [five, three] && AsMeant(None, [five, three]) == [five]
      && Forwarded(None, [five, seven]) == [five] && AsMeant(None, [five, seven]) == [five, seven]
  {
    var five, three, seven := VideoPacket(v, 5, data), VideoPacket(v, 3, data), VideoPacket(v, 7, data);
    assert Front([five, three]) == [five] && Front([five, seven]) == [five] && Front([five]) == [];
    assert Forwarded(None, [five]) == [five] && AsMeant(None, [five]) == [five];
  }

  lemma {:induction false} ForwardedAppend(last: Option<nat>, ps: seq<VideoPacket>, qs: seq<VideoPacket>)
    ensures Forwarded(last, ps + qs) == Forwarded(last, ps) + Forwarded(LastNumber(last, ps), qs)
  {
    if qs == [] {
      assert ps + qs == ps;
    } else {
      ForwardedAppend(last, ps, Front(qs));
      assert Front(ps + qs) == ps + Front(qs);
    }
  }

  /** Hops of nodes without an earlier record of the stream. */
  function ThroughHops(hops: nat, ps: seq<VideoPacket>): seq<VideoPacket> {
    if hops == 0 then ps else Forwarded(None, ThroughHops(hops - 1, ps))
  }

  /** `ps` without its first `k` packets. */
  function Skip(ps: seq<VideoPacket>, k: nat): seq<VideoPacket> {
    if k <= |ps| then ps[k..] else []
  }

  /** The part after a gap is numbered consecutively and does not follow on the part before. */
  predicate Gap(before: seq<VideoPacket>, after: seq<VideoPacket>) {
    && before != [] && GapFree(before) && GapFree(after)
    && (after != [] ==> after[0].sequence > Last(before).sequence + 1)
  }

  lemma HopWidensTheGap(before: seq<VideoPacket>, after: seq<VideoPacket>)
    requires Gap(before, after)
    ensures Forwarded(None, before + after) == before + Skip(after, 1)
  {
    ForwardedAppend(None, before, after);
    GapFreeHasNoJump(None, before);
    UnchangedIffNoJump(None, before);
    if after != [] {
      HopDropsFirst(Some(Last(before).sequence), after);
    }
  }

  lemma SkipKeepsGap(before: seq<VideoPacket>, after: seq<VideoPacket>, k: nat)
    requires Gap(before, after)
    ensures Gap(before, Skip(after, k))
  {
    if k < |after| {
      NumbersGrow(after, k);
      forall i | 0 < i < |after| - k
        ensures Follows(Skip(after, k), i)
      {
        assert Follows(after, k + i);
      }
    }
  }

  /** Once packets are missing, every further hop drops one more packet after the gap. */
  lemma {:induction false} EachHopWidensTheGap(hops: nat, before: seq<VideoPacket>, after: seq<VideoPacket>)
    requires Gap(before, after)
    ensures ThroughHops(hops, before + after) == before + Skip(after, hops)
  {
    if hops == 0 {
    } else {
      EachHopWidensTheGap(hops - 1, before, after);
      SkipKeepsGap(before, after, hops - 1);
      HopWidensTheGap(before, Skip(after, hops - 1));
      assert Skip(Skip(after, hops - 1), 1) == Skip(after, hops);
    }
  }

  lemma {:induction false} NumbersGrow(ps: seq<VideoPacket>, k: nat)
    requires GapFree(ps) && k < |ps|
    ensures ps[k].sequence == ps[0].sequence + k
  {
    if k == 0 {
    } else {
      assert Follows(ps, k);
      NumbersGrow(ps, k - 1);
    }
  }

  lemma RestIsGapFree(ps: seq<VideoPacket>)
    requires ps != [] && GapFree(ps)
    ensures GapFree(ps[1..]) && (|ps| > 1 ==> ps[1].sequence == ps[0].sequence + 1)
  {
    assert |ps| > 1 ==> Follows(ps, 1);
    forall k | 0 < k < |ps| - 1
      ensures Follows(ps[1..], k)
    {
      assert Follows(ps, k + 1);
    }
  }

  lemma HopDropsFirst(last: Option<nat>, ps: seq<VideoPacket>)
    requires ps != [] && last.Some? && ps[0].sequence > last.value + 1
    requires GapFree(ps)
    ensures Forwarded(last, ps) == ps[1..]
  {
    assert ps == [ps[0]] + ps[1..];
    ForwardedAppend(last, [ps[0]], ps[1..]);
    assert Front([ps[0]]) == [];
    RestIsGapFree(ps);
    GapFreeHasNoJump(Some(ps[0].sequence), ps[1..]);
    UnchangedIffNoJump(Some(ps[0].sequence), ps[1..]);
  }

  // ----- what one node does in a run

  /** The packets of `v` that the node receives. */
  function Arrivals(es: seq<Event>, v: VideoId): seq<VideoPacket> {
    if es == [] then [] else
      var rest := Arrivals(Front(es), v);
      if IsArrival(Last(es), v) then rest + [Last(es).packet.video] else rest
  }

  predicate IsArrival(e: Event, v: VideoId) {
    e.Received? && e.packet.VideoData? && e.packet.video.stream == v
  }

  function Recorded(s: Node, v: VideoId): Option<nat> {
    if v in s.lastSequence then Some(s.lastSequence[v]) else None
  }

  /** The packets of `v` that `a` is due: those that pass while `a` is subscribed. */
  function Due(s: Node, es: seq<Event>, v: VideoId, a: Addr): seq<VideoPacket> {
    if es == [] then [] else
      var rest := Due(s, Front(es), v, a);
      var before := Run(s, Front(es));
      var e := Last(es);
      if IsArrival(e, v) && Passes(LastNumber(Recorded(s, v), Arrivals(Front(es), v)), e.packet.video)
         && a in before.SubscribersOf(v)
      then rest + [e.packet.video]
      else rest
  }

  /** Steps other than video packets relay none, and leave the record of the stream alone. */
  lemma OtherStepsRelayNoVideo(s: Node, e: Event, v: VideoId, a: Addr)
    requires !(e.Received? && e.packet.VideoData?)
    ensures var s' := Apply(s, e);
      s'.feed == s.feed && VideoFor(s'.relayed, a, v) == VideoFor(s.relayed, a, v)
  {
    if e.Received? && e.packet.Flood? {
      FloodRelaysNoVideo(s, e.from, e.packet.flood, e.now, e.o, v, a);
    }
  }

  lemma FloodRelaysNoVideo(s: Node, from: Addr, p: FloodPacket, now: nat, o: Orders, v: VideoId, a: Addr)
    ensures var s' := HandleFloodPacket(s, from, p, now, o);
      s'.feed == s.feed && VideoFor(s'.relayed, a, v) == VideoFor(s.relayed, a, v)
  {
    if s.id !in p.visited {
      var s1 := CheckPendingVideos(RecordFlood(s, from, p, now), from, p.videos);
      var copies := Broadcast(s1, s1.neighbours, from, p, o);
      VideoForAppend(s.relayed, copies, a, v);
      NoVideo(copies, a, v);
    }
  }

  lemma VideoStepRelays(s: Node, p: VideoPacket, now: nat, v: VideoId, a: Addr)
    ensures var s' := HandleVideoPacket(s, p, now);
      && Recorded(s', v) == (if p.stream == v then Some(p.sequence) else Recorded(s, v))
      && VideoFor(s'.relayed, a, v) == VideoFor(s.relayed, a, v)
           + if p.stream == v && Passes(Recorded(s, v), p) && a in s.SubscribersOf(v) then [p] else []
  {
    if InOrder(s, p) {
      VideoForAppend(s.relayed, PlainTo(s.SubscribersOf(p.stream), VideoData(p)), a, v);
      BroadcastOnce(s.SubscribersOf(p.stream), p, a, v);
    }
  }

  /** Over any run, `a` is sent exactly the packets it is due, each once and in order, and the node's
      record of the stream is the number of the latest packet. */
  lemma {:induction false} NodeSendsWhatIsDue(s: Node, es: seq<Event>, v: VideoId, a: Addr)
    ensures Recorded(Run(s, es), v) == LastNumber(Recorded(s, v), Arrivals(es, v))
    ensures VideoFor(Run(s, es).relayed, a, v) == VideoFor(s.relayed, a, v) + Due(s, es, v, a)
  {
    if es == [] {
    } else {
      NodeSendsWhatIsDue(s, Front(es), v, a);
      var s1, e := Run(s, Front(es)), Last(es);
      if e.Received? && e.packet.VideoData? {
        VideoStepRelays(s1, e.packet.video, e.now, v, a);
      } else {
        OtherStepsRelayNoVideo(s1, e, v, a);
      }
    }
  }

  /** `a` is subscribed to `v` from the start of the run to its end. */
  predicate KeepsWatching(s: Node, es: seq<Event>, v: VideoId, a: Addr) {
    a in Run(s, es).SubscribersOf(v) && (es == [] || KeepsWatching(s, Front(es), v, a))
  }

  lemma {:induction false} DueIsForwarded(s: Node, es: seq<Event>, v: VideoId, a: Addr)
    requires KeepsWatching(s, es, v, a)
    ensures Due(s, es, v, a) == Forwarded(Recorded(s, v), Arrivals(es, v))
  {
    if es == [] {
    } else {
      DueIsForwarded(s, Front(es), v, a);
    }
  }

  /** A subscriber that stays is sent what the comment wants if and only if the packets that arrive continue
      the stream without a gap. */
  lemma {:induction false} NodeDoesAsMeantIff(s: Node, es: seq<Event>, v: VideoId, a: Addr)
    requires KeepsWatching(s, es, v, a) && NoDuplicates(Arrivals(es, v))
    ensures VideoFor(Run(s, es).relayed, a, v) ==
              VideoFor(s.relayed, a, v) + AsMeant(Recorded(s, v), Arrivals(es, v))
       <==> Continues(Recorded(s, v), Arrivals(es, v))
  {
    NodeSendsWhatIsDue(s, es, v, a);
    DueIsForwarded(s, es, v, a);
    DoesAsMeantIffContinues(Recorded(s, v), Arrivals(es, v));
    if VideoFor(Run(s, es).relayed, a, v) == VideoFor(s.relayed, a, v) + AsMeant(Recorded(s, v), Arrivals(es, v)) {
      SamePrefix(VideoFor(s.relayed, a, v), Due(s, es, v, a), AsMeant(Recorded(s, v), Arrivals(es, v)));
    }
  }

  /** Two packets of a stream that a node has not seen before. */
  lemma TwoPackets(s: Node, p: VideoPacket, q: VideoPacket, a: Addr)
    requires p.stream == q.stream && p.stream !in s.lastSequence && a in s.SubscribersOf(p.stream)
    ensures var s' := HandleVideoPacket(HandleVideoPacket(s, p, 0), q, 0);
      VideoFor(s'.relayed, a, p.stream) ==
        VideoFor(s.relayed, a, p.stream) + [p] + if Passes(Some(p.sequence), q) then [q] else []
  {
    VideoStepRelays(s, p, 0, p.stream, a);
    VideoStepRelays(HandleVideoPacket(s, p, 0), q, 0, p.stream, a);
  }

  lemma UnseenStream(s: Node, a: Addr, v: VideoId, data: seq<bv8>)
    requires a in s.SubscribersOf(v) && s.lastSequence == map[] && s.relayed == []
    ensures var five, three, seven := VideoPacket(v, 5, data), VideoPacket(v, 3, data), VideoPacket(v, 7, data);
      var s5 := HandleVideoPacket(s, five, 0);
      && VideoFor(HandleVideoPacket(s5, three, 0).relayed, a, v) == [five, three]
      && VideoFor(HandleVideoPacket(s5, seven, 0).relayed, a, v) == [five]
  {
    TwoPackets(s, VideoPacket(v, 5, data), VideoPacket(v, 3, data), a);
    TwoPackets(s, VideoPacket(v, 5, data), VideoPacket(v, 7, data), a);
    assert VideoFor([], a, v) == [];
  }

  lemma NewWatcher(a: Addr, o: Orders, v: VideoId)
    ensures var s := HandleRequestVideo(NewNode(1, At(1), []), v, a, o);
      a in s.SubscribersOf(v) && s.lastSequence == map[] && s.relayed == []
  {
    RequestAt(NewNode(1, At(1), []), v, a, o, v);
  }

  /** The handler does so: a new node is asked for the video, and then packets 5 and 3, or 5 and 7, arrive. */
  lemma HandlerPassesStaleDropsCurrent(a: Addr, o: Orders, v: VideoId, data: seq<bv8>)
    ensures var s := HandleRequestVideo(NewNode(1, At(1), []), v, a, o);
      var five, three, seven := VideoPacket(v, 5, data), VideoPacket(v, 3, data), VideoPacket(v, 7, data);
      var s5 := HandleVideoPacket(s, five, 0);
      && VideoFor(HandleVideoPacket(s5, three, 0).relayed, a, v) == [five, three]
      && VideoFor(HandleVideoPacket(s5, seven, 0).relayed, a, v) == [five]
  {
    NewWatcher(a, o, v);
    UnseenStream(HandleRequestVideo(NewNode(1, At(1), []), v, a, o), a, v, data);
  }

  // ----- chains of nodes

  /** A run of one node, during which `next` stays subscribed. */
  datatype Hop = Hop(node: Node, events: seq<Event>, next: Addr)

  /** What the hop sends to the next during its run. */
  function Output(h: Hop, v: VideoId): seq<VideoPacket> {
    Due(h.node, h.events, v, h.next)
  }

  /** Each hop receives, without loss and in order, what the one before sends it; none has an
      earlier record of the stream. */
  predicate Chain(hops: seq<Hop>, v: VideoId, input: seq<VideoPacket>) {
    hops == []
    || (Chain(Front(hops), v, input)
        && var h := Last(hops);
          && KeepsWatching(h.node, h.events, v, h.next)
          && Recorded(h.node, v).None?
          && Arrivals(h.events, v) == Delivered(Front(hops), v, input))
  }

  /** What leaves the end of the chain. */
  function Delivered(hops: seq<Hop>, v: VideoId, input: seq<VideoPacket>): seq<VideoPacket> {
    if hops == [] then input else Output(Last(hops), v)
  }

  /** A stream without gaps, whatever number it starts with, passes any chain of nodes unchanged. */
  lemma {:induction false} ChainIsTransparent(hops: seq<Hop>, v: VideoId, input: seq<VideoPacket>)
    requires Chain(hops, v, input) && GapFree(input)
    ensures Delivered(hops, v, input) == input
  {
    if hops == [] {
    } else {
      ChainIsTransparent(Front(hops), v, input);
      DueIsForwarded(Last(hops).node, Last(hops).events, v, Last(hops).next);
      GapFreeHasNoJump(None, input);
      UnchangedIffNoJump(None, input);
    }
  }

  /** A stream with a gap loses one more packet at each hop of a chain. */
  lemma ChainWidensTheGap(hops: seq<Hop>, v: VideoId, before: seq<VideoPacket>, after: seq<VideoPacket>)
    requires Chain(hops, v, before + after)
    requires Gap(before, after)
    ensures Delivered(hops, v, before + after) == before + Skip(after, |hops|)
  {
    ChainIsThroughHops(hops, v, before + after);
    EachHopWidensTheGap(|hops|, before, after);
  }

  lemma {:induction false} ChainIsThroughHops(hops: seq<Hop>, v: VideoId, input: seq<VideoPacket>)
    requires Chain(hops, v, input)
    ensures Delivered(hops, v, input) == ThroughHops(|hops|, input)
  {
    if hops == [] {
    } else {
      ChainIsThroughHops(Front(hops), v, input);
      DueIsForwarded(Last(hops).node, Last(hops).events, v, Last(hops).next);
    }
  }

  /** From the encoder to the last subscriber: if every link delivers what is sent over it, in order,
      and all stay subscribed, the last node sends its subscriber all of the encoder's output, each
      piece once, in order and with its number. */
  lemma {:induction false} EncoderReachesSubscriber(s: ServerModel.Server, es: seq<ServerRuns.Event>, first: Addr,
                                                    emitted: seq<VideoPacket>, hops: seq<Hop>, v: VideoId)
    requires v in s.videos && ServerRuns.KeepsWatching(s, es, v, first)
    requires forall e :: e in es ==> !(e.Started? && e.v == v)
    requires VideoFor(ServerRuns.Run(s, es).sent, first, v) == VideoFor(s.sent, first, v) + emitted
    requires hops != [] && Chain(hops, v, emitted)
    ensures var end := Last(hops);
      VideoFor(Run(end.node, end.events).relayed, end.next, v) ==
        VideoFor(end.node.relayed, end.next, v) + NumberedFrom(v, s.videos[v].sequence, ServerRuns.Chunks(es, v))
  {
    ServerRuns.StreamIsGapFree(s, es, v, first);
    var output := NumberedFrom(v, s.videos[v].sequence, ServerRuns.Chunks(es, v));
    SamePrefix(VideoFor(s.sent, first, v), emitted, output);
    ChainIsTransparent(hops, v, output);
    NodeSendsWhatIsDue(Last(hops).node, Last(hops).events, v, Last(hops).next);
  }

  lemma SamePrefix(a: seq<VideoPacket>, b: seq<VideoPacket>, c: seq<VideoPacket>)
    requires a + b == a + c
    ensures b == c
  {
    assert (a + b)[|a|..] == b && (a + c)[|a|..] == c;
  }
}
