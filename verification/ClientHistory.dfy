/**
 What a client knows about a node is in every run what the node's answers said: the round-trip
 times measured, when it last answered, and the videos that it then listed.
 */
module ClientHistory {
  import opened Common
  import opened Selection
  import opened ClientModel
  import opened ClientReactions
  import ClientFailover

  /** An answer to a pending ping: how long after the ping, at what time, and with which list it came. */
  datatype Reply = Reply(after: nat, at: nat, videos: seq<Common.Video>)

  /** The answers of `a` that matched a pending ping. */
  function Replies(s: Client, es: seq<Event>, a: Addr): seq<Reply> {
    if es == [] then [] else
      var rest := Replies(s, Front(es), a);
      var before := Run(s, Front(es));
      if Matches(before, Last(es), a) then rest + [ReplyOf(before, Last(es))] else rest
  }

  predicate Matches(s: Client, e: Event, a: Addr) {
    e.Answer? && e.from == a && e.ping in s.pings.pending
  }

  function ReplyOf(s: Client, e: Event): Reply
    requires e.Answer? && e.ping in s.pings.pending
  {
    var start := s.pings.pending[e.ping].1;
    Reply(if start <= e.now then e.now - start else 0, e.now, e.videos)
  }

  function Times(rs: seq<Reply>): (r: seq<nat>)
    ensures |r| == |rs| && forall i :: 0 <= i < |r| ==> r[i] == rs[i].after
  {
    seq(|rs|, i requires 0 <= i < |rs| => rs[i].after)
  }

  /** The entry of `a` after these answers, whether the node is considered responsive or not. */
  ghost predicate Mirrors(s: Client, a: Addr, rs: seq<Reply>) {
    && a in s.nodes
    && s.nodes[a].rtts == PushAll(Times(rs))
    && (if rs == [] then s.nodes[a] == NEW_PEER else
          && !s.nodes[a].status.Connecting?
          && s.nodes[a].lastAnswer == Some(Last(rs).at)
          && s.nodes[a].videos == Ids(Last(rs).videos))
  }

  lemma OtherStepsKeepEntries(s: Client, e: Event, a: Addr)
    requires a in s.nodes && !Matches(s, e, a)
    ensures a in Apply(s, e).nodes
    ensures Apply(s, e).nodes[a] == s.nodes[a]
      || (s.nodes[a].status.Connected? && Apply(s, e).nodes[a] == s.nodes[a].(status := Unresponsive))
  {
    match e
    case Answer(from, ping, videos, now, o) => AnswerSettlesPing(s, from, ping, videos, now, o);
    case Sweep(now, o) => ClientFailover.BuryMarks(s, SilentNodes(s, NodesOrder(s, o), now), o);
    case _ =>
  }

  lemma AnswerIsRecorded(s: Client, e: Event, a: Addr, rs: seq<Reply>)
    requires Matches(s, e, a) && Mirrors(s, a, rs)
    ensures Mirrors(Apply(s, e), a, rs + [ReplyOf(s, e)])
    ensures Apply(s, e).nodes[a].status.Connected?
  {
    AnswerSettlesPing(s, e.from, e.ping, e.videos, e.now, e.o);
    var more := rs + [ReplyOf(s, e)];
    assert Front(Times(more)) == Times(rs);
    assert PushAll(Times(more)) == Push(PushAll(Times(rs)), ReplyOf(s, e).after);
  }

  /** In every run the entry of a node says what its answers to pending pings said. */
  lemma {:induction false} TableMirrorsAnswers(servers: set<Ip>, es: seq<Event>, a: Addr)
    requires a in NewClient(servers).nodes
    ensures Mirrors(Run(NewClient(servers), es), a, Replies(NewClient(servers), es, a))
  {
    if es == [] {
    } else {
      TableMirrorsAnswers(servers, Front(es), a);
      var s, rs := Run(NewClient(servers), Front(es)), Replies(NewClient(servers), Front(es), a);
      if Matches(s, Last(es), a) {
        AnswerIsRecorded(s, Last(es), a, rs);
      } else {
        OtherStepsKeepEntries(s, Last(es), a);
      }
    }
  }

  /** In every run the buffer of a node holds the last min(10, n) of the n round-trip times measured, and if the
      node is connected its average is defined and lies between any bounds of those. */
  lemma {:induction false} AveragesAreFaithful(servers: set<Ip>, es: seq<Event>, a: Addr, lo: nat, hi: nat)
    requires a in NewClient(servers).nodes
    ensures var s := Run(NewClient(servers), es);
      var times := Times(Replies(NewClient(servers), es, a));
      && a in s.nodes
      && s.nodes[a].rtts == (if |times| <= 10 then times else times[|times| - 10..])
      && (s.nodes[a].status.Connected? ==> s.nodes[a].rtts != [])
      && (s.nodes[a].rtts != [] && (forall d :: d in s.nodes[a].rtts ==> lo <= d <= hi) ==>
            lo <= Average(s.nodes[a].rtts) <= hi)
  {
    TableMirrorsAnswers(servers, es, a);
    var s := Run(NewClient(servers), es);
    BufferKeepsLatest(Times(Replies(NewClient(servers), es, a)));
    if s.nodes[a].rtts != [] && (forall d :: d in s.nodes[a].rtts ==> lo <= d <= hi) {
      AverageBounds(s.nodes[a].rtts, lo, hi);
    }
  }

  /** In every run a sweep leaves exactly those nodes connected that were and have answered within the last three
      seconds. */
  lemma {:induction false} SweepMarksTheSilent(servers: set<Ip>, es: seq<Event>, a: Addr, now: nat, o: Orders)
    requires a in NewClient(servers).nodes
    ensures var s := Run(NewClient(servers), es);
      var s' := CheckNodes(s, now, o);
      var rs := Replies(NewClient(servers), es, a);
      && a in s.nodes && a in s'.nodes
      && (s'.nodes[a].status.Connected? <==>
            s.nodes[a].status.Connected? && rs != [] && now <= Last(rs).at + 3_000_000_000)
  {
    TableMirrorsAnswers(servers, es, a);
    ClientFailover.ReachableSafe(servers, es, 0);
    var s := Run(NewClient(servers), es);
    ClientFailover.MultiNodeSweep(s, now, o, 0, a, CheckNodes(s, now, o));
  }
}
