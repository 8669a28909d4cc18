/**
 Choosing an upstream: average delays, the 30% delay threshold and the
 lexicographic tie-break, in the filter/map/min shape that nodes and clients share.
 */
module Selection {
  import opened Common

  /** Capacity of the buffer of recent delays. */
  const BUFFER: nat := 10

  const DELAY_THRESHOLD_PERCENTAGE: nat := 30

  /** `CircularBuffer::push_back`: the oldest sample leaves a full buffer. */
  function Push(buffer: seq<nat>, sample: nat): seq<nat> {
    (if |buffer| < BUFFER then buffer else buffer[|buffer| - BUFFER + 1..]) + [sample]
  }

  function PushAll(samples: seq<nat>): seq<nat> {
    if samples == [] then [] else Push(PushAll(Front(samples)), Last(samples))
  }

  function Latest(samples: seq<nat>): seq<nat> {
    if |samples| <= BUFFER then samples else samples[|samples| - BUFFER..]
  }

  lemma LatestSnoc(samples: seq<nat>, x: nat)
    ensures Push(Latest(samples), x) == Latest(samples + [x])
  {
    if |samples| < BUFFER {
    } else {
      assert Latest(samples) == samples[|samples| - BUFFER..];
      assert Latest(samples)[1..] == samples[|samples| - BUFFER + 1..];
    }
  }

  lemma {:induction false} PushedIsLatest(samples: seq<nat>)
    ensures PushAll(samples) == Latest(samples)
  {
    if samples == [] {
    } else {
      PushedIsLatest(Front(samples));
      LatestSnoc(Front(samples), Last(samples));
      assert Front(samples) + [Last(samples)] == samples;
    }
  }

  /** After any number of pushes the buffer is the last min(10, n) samples, in order. */
  lemma BufferKeepsLatest(samples: seq<nat>)
    ensures PushAll(samples) == if |samples| <= 10 then samples else samples[|samples| - 10..]
  {
    PushedIsLatest(samples);
  }

  function Total(ds: seq<nat>): nat {
    if ds == [] then 0 else Total(Front(ds)) + Last(ds)
  }

  function Average(ds: seq<nat>): nat
    requires ds != []
  {
    Total(ds) / |ds|
  }

  lemma {:induction false} TotalBounds(ds: seq<nat>, lo: nat, hi: nat)
    requires forall d :: d in ds ==> lo <= d <= hi
    ensures lo * |ds| <= Total(ds) <= hi * |ds|
  {
    if ds == [] {
    } else {
      assert Last(ds) in ds;
      TotalBounds(Front(ds), lo, hi);
      Distribute(lo, |Front(ds)|);
      Distribute(hi, |Front(ds)|);
    }
  }

  lemma {:induction false} TotalAppend(ds: seq<nat>, more: seq<nat>)
    ensures Total(ds + more) == Total(ds) + Total(more)
  {
    if more == [] {
      assert ds + more == ds;
    } else {
      TotalAppend(ds, Front(more));
      assert Front(ds + more) == ds + Front(more);
    }
  }

  /** The average is the sum of the samples, in whatever order, divided by their number and rounded down. */
  lemma AverageIsQuotient(d: nat, ds: seq<nat>, more: seq<nat>)
    ensures Total([]) == 0 && Total([d]) == d && Total(ds + more) == Total(ds) + Total(more)
    ensures ds != [] ==> Average(ds) * |ds| <= Total(ds) < (Average(ds) + 1) * |ds|
  {
    TotalAppend(ds, more);
    assert Front([d]) == [];
    if ds != [] {
      QuotientBounds(Total(ds), |ds|);
    }
  }

  lemma QuotientBounds(t: nat, n: nat)
    requires n > 0
    ensures t / n * n <= t < (t / n + 1) * n
  {
    var q, r := t / n, t % n;
    assert t == q * n + r;
    assert (q + 1) * n == q * n + n;
  }

  /** The average lies between any lower and any upper bound of the samples, so between their minimum and maximum. */
  lemma AverageBounds(ds: seq<nat>, lo: nat, hi: nat)
    requires ds != [] && forall d :: d in ds ==> lo <= d <= hi
    ensures lo <= Average(ds) <= hi
  {
    TotalBounds(ds, lo, hi);
    DivideBounds(Total(ds), |ds|, lo, hi);
  }

  lemma DivideBounds(t: nat, n: nat, lo: nat, hi: nat)
    requires n > 0 && lo * n <= t <= hi * n
    ensures lo <= t / n <= hi
  {
    var q, r := t / n, t % n;
    assert t == q * n + r;
    assert (q + 1) * n == q * n + n && (hi + 1) * n == hi * n + n;
    if q < lo {
      MulMonotone(q + 1, lo, n);
    }
    if hi < q {
      MulMonotone(hi + 1, q, n);
    }
  }

  /** Rust divides the duration first and multiplies afterwards, so the threshold is rounded down. */
  function Threshold(smallest: nat): nat {
    smallest + smallest / 100 * DELAY_THRESHOLD_PERCENTAGE
  }

  /** The threshold is 130% of the minimum, less at most 29.7 nanoseconds. */
  lemma ThresholdBounds(m: nat)
    ensures 130 * m - 2970 <= 100 * Threshold(m) <= 130 * m
  {
  }

  datatype Key = Key(hops: nat, requested: nat, offered: nat)

  /** Order of the tuples that `min_by_key` compares. */
  predicate Less(a: Key, b: Key) {
    a.hops < b.hops
    || (a.hops == b.hops
        && (a.requested < b.requested || (a.requested == b.requested && a.offered < b.offered)))
  }

  /** What selection knows about one eligible neighbour. */
  datatype Rating = Rating(delay: nat, key: Key)

  datatype Candidate = Candidate(addr: Addr, rating: Rating) {
    const delay := rating.delay
    const key := rating.key
  }

  function MinDelay(cs: seq<Candidate>): nat
    requires cs != []
  {
    if |cs| == 1 then cs[0].delay else
      var rest := MinDelay(Front(cs));
      if Last(cs).delay < rest then Last(cs).delay else rest
  }

  function Within(cs: seq<Candidate>, threshold: nat): seq<Candidate> {
    if cs == [] then [] else
      var rest := Within(Front(cs), threshold);
      if Last(cs).delay <= threshold then rest + [Last(cs)] else rest
  }

  /** `min_by_key`: the first of the candidates whose key no other candidate beats. */
  function FirstMin(cs: seq<Candidate>): Candidate
    requires cs != []
  {
    if |cs| == 1 then cs[0] else
      var rest := FirstMin(Front(cs));
      if Less(Last(cs).key, rest.key) then Last(cs) else rest
  }

  function PickBest(cs: seq<Candidate>): Option<Addr> {
    if cs == [] then None else
      FastestIsNear(cs);
      Some(FirstMin(Within(cs, Threshold(MinDelay(cs)))).addr)
  }

  lemma {:induction false} MinDelayIsLeast(cs: seq<Candidate>)
    requires cs != []
    ensures forall c :: c in cs ==> MinDelay(cs) <= c.delay
    ensures exists c :: c in cs && c.delay == MinDelay(cs)
  {
    if |cs| == 1 {
    } else {
      MinDelayIsLeast(Front(cs));
    }
    assert Last(cs) in cs;
  }

  lemma {:induction false} WithinIsFilter(cs: seq<Candidate>, threshold: nat, c: Candidate)
    ensures c in Within(cs, threshold) <==> c in cs && c.delay <= threshold
  {
    if cs == [] {
    } else {
      WithinIsFilter(Front(cs), threshold, c);
    }
  }

  lemma {:induction false} FirstMinIsMinimal(cs: seq<Candidate>)
    requires cs != []
    ensures FirstMin(cs) in cs && forall c :: c in cs ==> !Less(c.key, FirstMin(cs).key)
  {
    if |cs| == 1 {
    } else {
      FirstMinIsMinimal(Front(cs));
    }
  }

  lemma FastestIsNear(cs: seq<Candidate>)
    requires cs != []
    ensures Within(cs, Threshold(MinDelay(cs))) != []
  {
    MinDelayIsLeast(cs);
    var c :| c in cs && c.delay == MinDelay(cs);
    WithinIsFilter(cs, Threshold(MinDelay(cs)), c);
  }

  /** The chosen candidate wins. */
  lemma PickBestWins(cs: seq<Candidate>)
    requires cs != []
    ensures PickBest(cs).Some?
    ensures exists best :: best in cs && best.addr == PickBest(cs).value && Wins(cs, best)
  {
    MinDelayIsLeast(cs);
    FastestIsNear(cs);
    var near := Within(cs, Threshold(MinDelay(cs)));
    FirstMinIsMinimal(near);
    var best := FirstMin(near);
    forall c
      ensures c in near <==> c in cs && c.delay <= Threshold(MinDelay(cs))
    {
      WithinIsFilter(cs, Threshold(MinDelay(cs)), c);
    }
    assert Wins(cs, best);
  }

  /** What it means to be chosen, without reference to any order of the candidates. */
  ghost predicate Wins(cs: seq<Candidate>, best: Candidate) {
    exists least ::
      && least in cs
      && (forall c :: c in cs ==> least.delay <= c.delay)
      && best.delay <= Threshold(least.delay)
      && (forall c :: c in cs && c.delay <= Threshold(least.delay) ==> !Less(c.key, best.key))
  }

  // ----- selection among the eligible entries of a table

  /** The eligible entries, in the order in which the table is iterated. */
  function Listed(offers: map<Addr, Rating>, order: seq<Addr>): seq<Candidate> {
    if order == [] then [] else
      var rest := Listed(offers, Front(order));
      if Last(order) in offers then rest + [Candidate(Last(order), offers[Last(order)])] else rest
  }

  lemma {:induction false} ListedAreOffers(offers: map<Addr, Rating>, order: seq<Addr>, c: Candidate)
    ensures c in Listed(offers, order) <==> c.addr in order && c.addr in offers && c.rating == offers[c.addr]
  {
    if order == [] {
    } else {
      ListedAreOffers(offers, Front(order), c);
    }
  }

  function Select(offers: map<Addr, Rating>, order: seq<Addr>): Option<Addr> {
    PickBest(Listed(offers, order))
  }

  /** `least` has the smallest average delay of all. */
  ghost predicate Fastest(offers: map<Addr, Rating>, least: Addr) {
    least in offers && forall b :: b in offers ==> offers[least].delay <= offers[b].delay
  }

  /** `a` is within the threshold of the fastest, and no other such entry beats its key. */
  ghost predicate IsBest(offers: map<Addr, Rating>, a: Addr) {
    a in offers
    && exists least ::
         && Fastest(offers, least)
         && offers[a].delay <= Threshold(offers[least].delay)
         && forall b :: b in offers && offers[b].delay <= Threshold(offers[least].delay)
              ==> !Less(offers[b].key, offers[a].key)
  }

  ghost predicate Covers(order: seq<Addr>, offers: map<Addr, Rating>) {
    forall a :: a in offers ==> a in order
  }

  /** The candidates are exactly the offers. */
  ghost predicate Matches(cs: seq<Candidate>, offers: map<Addr, Rating>) {
    && (forall c :: c in cs ==> c.addr in offers && c.rating == offers[c.addr])
    && (forall a :: a in offers ==> Candidate(a, offers[a]) in cs)
  }

  lemma ListedMatches(offers: map<Addr, Rating>, order: seq<Addr>)
    requires Covers(order, offers)
    ensures Matches(Listed(offers, order), offers)
  {
    forall c
      ensures c in Listed(offers, order) <==> c.addr in order && c.addr in offers && c.rating == offers[c.addr]
    {
      ListedAreOffers(offers, order, c);
    }
  }

  /** Something is selected exactly when something is eligible, and it is a best entry. */
  lemma SelectIsBest(offers: map<Addr, Rating>, order: seq<Addr>)
    requires Covers(order, offers)
    ensures Select(offers, order).None? <==> forall a :: a !in offers
    ensures Select(offers, order).Some? ==> IsBest(offers, Select(offers, order).value)
  {
    var cs := Listed(offers, order);
    ListedMatches(offers, order);
    forall a | a in offers
      ensures cs != []
    {
      assert Candidate(a, offers[a]) in cs;
    }
    if cs != [] {
      assert cs[0] in cs;
      PickBestWins(cs);
      var best :| best in cs && best.addr == PickBest(cs).value && Wins(cs, best);
      WinnerIsBest(cs, offers, best);
    }
  }

  lemma WinnerIsBest(cs: seq<Candidate>, offers: map<Addr, Rating>, best: Candidate)
    requires Matches(cs, offers) && best in cs && Wins(cs, best)
    ensures IsBest(offers, best.addr)
  {
    var least :| least in cs
      && (forall c :: c in cs ==> least.delay <= c.delay)
      && best.delay <= Threshold(least.delay)
      && (forall c :: c in cs && c.delay <= Threshold(least.delay) ==> !Less(c.key, best.key));
    forall b | b in offers
      ensures offers[least.addr].delay <= offers[b].delay
      ensures offers[b].delay <= Threshold(least.delay) ==> !Less(offers[b].key, best.key)
    {
      assert Candidate(b, offers[b]) in cs;
    }
    assert Fastest(offers, least.addr);
  }

  /** `a` is at most 30% slower than anyone. */
  ghost predicate Near(offers: map<Addr, Rating>, a: Addr) {
    a in offers && forall b :: b in offers ==> offers[a].delay <= offers[b].delay + offers[b].delay / 100 * 30
  }

  /** The best entries are those that come first among the near ones. */
  lemma BestIffFirstOfNear(offers: map<Addr, Rating>, a: Addr)
    ensures IsBest(offers, a) <==>
      Near(offers, a) && forall b :: Near(offers, b) ==> !Less(offers[b].key, offers[a].key)
  {
    if a in offers {
      var least := SomeFastest(offers, a);
      NearIffWithin(offers, least);
      if IsBest(offers, a) {
        var other :| Fastest(offers, other)
          && offers[a].delay <= Threshold(offers[other].delay)
          && forall b :: b in offers && offers[b].delay <= Threshold(offers[other].delay)
               ==> !Less(offers[b].key, offers[a].key);
        NearIffWithin(offers, other);
      }
    }
  }

  lemma NearIffWithin(offers: map<Addr, Rating>, least: Addr)
    requires Fastest(offers, least)
    ensures forall b :: b in offers ==> (Near(offers, b) <==> offers[b].delay <= Threshold(offers[least].delay))
  {
  }

  lemma SomeFastest(offers: map<Addr, Rating>, a: Addr) returns (least: Addr)
    requires a in offers
    ensures Fastest(offers, least)
  {
    var order := SomeOrder(offers.Keys);
    Members(order, offers.Keys);
    SelectIsBest(offers, order);
    least :| Fastest(offers, least);
  }

  // ----- every best entry is selected by some order

  lemma {:induction false} ListedHead(offers: map<Addr, Rating>, order: seq<Addr>)
    requires order != [] && order[0] in offers
    ensures Listed(offers, order) != [] && Listed(offers, order)[0] == Candidate(order[0], offers[order[0]])
  {
    if |order| == 1 {
    } else {
      ListedHead(offers, Front(order));
    }
  }

  lemma {:induction false} WithinHead(cs: seq<Candidate>, t: nat)
    requires cs != [] && cs[0].delay <= t
    ensures Within(cs, t) != [] && Within(cs, t)[0] == cs[0]
  {
    if |cs| == 1 {
    } else {
      WithinHead(Front(cs), t);
    }
  }

  lemma {:induction false} FirstMinHead(cs: seq<Candidate>)
    requires cs != [] && forall c :: c in cs ==> !Less(c.key, cs[0].key)
    ensures FirstMin(cs) == cs[0]
  {
    if |cs| == 1 {
    } else {
      FirstMinHead(Front(cs));
    }
  }

  lemma PickHead(cs: seq<Candidate>, least: Candidate)
    requires cs != [] && least in cs && forall c :: c in cs ==> least.delay <= c.delay
    requires cs[0].delay <= Threshold(least.delay)
    requires forall c :: c in cs && c.delay <= Threshold(least.delay) ==> !Less(c.key, cs[0].key)
    ensures PickBest(cs) == Some(cs[0].addr)
  {
    MinDelayIsLeast(cs);
    var near := Within(cs, Threshold(least.delay));
    WithinHead(cs, Threshold(least.delay));
    forall c | c in near
      ensures !Less(c.key, near[0].key)
    {
      WithinIsFilter(cs, Threshold(least.delay), c);
    }
    FirstMinHead(near);
  }

  /** A best entry that comes first is selected. */
  lemma BestHeadIsSelected(offers: map<Addr, Rating>, order: seq<Addr>)
    requires Covers(order, offers) && order != [] && IsBest(offers, order[0])
    ensures Select(offers, order) == Some(order[0])
  {
    ListedMatches(offers, order);
    ListedHead(offers, order);
    var least :| Fastest(offers, least)
      && offers[order[0]].delay <= Threshold(offers[least].delay)
      && forall b :: b in offers && offers[b].delay <= Threshold(offers[least].delay)
           ==> !Less(offers[b].key, offers[order[0]].key);
    PickHead(Listed(offers, order), Candidate(least, offers[least]));
  }

  /** The keys, `a` first. */
  ghost function FirstIn(a: Addr): set<Addr> -> seq<Addr> {
    keys => if a in keys then [a] + SomeOrder(keys - {a}) else SomeOrder(keys)
  }

  lemma FirstInEnumerates(a: Addr)
    ensures forall keys :: Enumerates(FirstIn(a)(keys), keys)
  {
    forall keys
      ensures Enumerates(FirstIn(a)(keys), keys)
    {
      if a in keys {
        assert multiset(keys) == multiset(keys - {a}) + multiset{a};
      }
    }
  }
}
