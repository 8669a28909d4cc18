/**
 Addresses, packets, time and small sequence tools shared by every component.
 Times and durations are whole nanoseconds; identifiers are unbounded naturals.
 */
module Common {

  datatype Option<+T> = None | Some(value: T)

  type Ip = nat
  type VideoId = nat

  /** The port on which servers and nodes talk to each other. */
  const PORT: nat := 8010

  datatype Addr = Addr(ip: Ip, port: nat)

  /** The address of the server or node that runs at `ip`. */
  function At(ip: Ip): Addr {
    Addr(ip, PORT)
  }

  const MILLISECOND: nat := 1_000_000
  const FLOOD_PACKET_INTERVAL: nat := 1000 * MILLISECOND
  const CLIENT_PING_INTERVAL: nat := 1000 * MILLISECOND
  const VIDEO_PACKET_MAX_DELAY: nat := 500 * MILLISECOND

  /** Time passed since `since`; zero when the clock reads earlier than that. */
  function Elapsed(since: nat, now: nat): nat {
    if since <= now then now - since else 0
  }

  type Video = (VideoId, string)

  datatype FloodPacket = FloodPacket(
    created: nat,
    videos: seq<Video>,
    visited: seq<nat>,
    parents: seq<Addr>
  ) {
    function Hops(): nat {
      |visited|
    }
  }

  datatype VideoPacket = VideoPacket(stream: VideoId, sequence: nat, data: seq<bv8>)

  datatype Packet =
    | VideoData(video: VideoPacket)
    | ClientPing(ping: nat, requested: seq<VideoId>)
    | NewNeighbour
    | Flood(flood: FloodPacket)
    | RequestVideo(id: VideoId)
    | StopVideo(id: VideoId)
    | VideoList(answer: nat, videos: seq<Video>, created: nat)

  /** One packet handed to the socket: `Reliable` for the retransmitting send, `Plain` for the other. */
  datatype Envelope =
    | Reliable(to: Addr, body: Packet)
    | Plain(to: Addr, body: Packet)

  /** `send_unreliable_broadcast`: one plain copy for each target. */
  function PlainTo(targets: seq<Addr>, body: Packet): (r: seq<Envelope>)
    ensures |r| == |targets| && forall i :: 0 <= i < |targets| ==> r[i] == Plain(targets[i], body)
  {
    seq(|targets|, i requires 0 <= i < |targets| => Plain(targets[i], body))
  }

  // ----- sequences

  function Front<T(!new)>(s: seq<T>): (r: seq<T>)
    requires s != []
    ensures forall x :: x in s <==> x in r || x == s[|s| - 1]
  {
    s[..|s| - 1]
  }

  function Last<T>(s: seq<T>): T
    requires s != []
  {
    s[|s| - 1]
  }

  /** Extending a prefix by one element, in the form the loops of this project use. */
  lemma NextPrefix<T(!new)>(s: seq<T>, i: nat)
    requires i < |s|
    ensures s[..i + 1] != [] && Front(s[..i + 1]) == s[..i] && Last(s[..i + 1]) == s[i]
  {
  }

  lemma HeadIsIn<T>(s: seq<T>)
    ensures s == [] || s[0] in s
  {
  }

  predicate NoDuplicates<T(==)>(s: seq<T>) {
    forall i, j :: 0 <= i < j < |s| ==> s[i] != s[j]
  }

  lemma NoDuplicatesSnoc<T>(s: seq<T>, x: T)
    requires NoDuplicates(s) && x !in s
    ensures NoDuplicates(s + [x])
  {
  }

  lemma {:induction false} NoDuplicatesLength<T(!new)>(s: seq<T>, all: set<T>)
    requires NoDuplicates(s) && forall i :: 0 <= i < |s| ==> s[i] in all
    ensures |s| <= |all|
  {
    if s == [] {
    } else {
      NoDuplicatesLength(Front(s), all - {Last(s)});
    }
  }

  /** `s.retain(|y| y != x)` */
  function Without<T(==,!new)>(s: seq<T>, x: T): (r: seq<T>)
    ensures forall y :: y in r <==> y in s && y != x
    ensures |r| <= |s|
    ensures NoDuplicates(s) ==> NoDuplicates(r)
    ensures x !in s ==> r == s
  {
    if s == [] then [] else
      var rest := Without(Front(s), x);
      assert NoDuplicates(s) ==> Last(s) !in Front(s);
      if Last(s) == x then rest else rest + [Last(s)]
  }

  /** `s.retain(|y| !xs.contains(y))` */
  function WithoutAll<T(==,!new)>(s: seq<T>, xs: seq<T>): (r: seq<T>)
    ensures forall y :: y in r <==> y in s && y !in xs
  {
    if s == [] then [] else
      var rest := WithoutAll(Front(s), xs);
      if Last(s) in xs then rest else rest + [Last(s)]
  }

  lemma CountLast<T(!new)>(s: seq<T>, x: T)
    requires s != []
    ensures multiset(s)[x] == multiset(Front(s))[x] + if x == Last(s) then 1 else 0
  {
    assert s == Front(s) + [Last(s)];
  }

  /** What is not removed stays as often as it was there. */
  lemma {:induction false} WithoutCounts<T(!new)>(s: seq<T>, x: T, y: T)
    ensures multiset(Without(s, x))[y] == if y == x then 0 else multiset(s)[y]
  {
    if s == [] {
    } else {
      WithoutCounts(Front(s), x, y);
      CountLast(s, y);
    }
  }

  lemma {:induction false} WithoutAllCounts<T(!new)>(s: seq<T>, xs: seq<T>, y: T)
    ensures multiset(WithoutAll(s, xs))[y] == if y in xs then 0 else multiset(s)[y]
  {
    if s == [] {
    } else {
      WithoutAllCounts(Front(s), xs, y);
      CountLast(s, y);
    }
  }

  /** A subscriber list never holds an address twice. */
  type Subscribers = s: seq<Addr> | NoDuplicates(s)

  function AddSubscriber(s: Subscribers, a: Addr): (r: Subscribers)
    ensures forall x :: x in r <==> x in s || x == a
  {
    if a in s then s else
      NoDuplicatesSnoc(s, a);
      s + [a]
  }

  /** The identifiers of a list of advertised videos. */
  function Ids(vs: seq<Video>): (r: seq<VideoId>)
    ensures |r| == |vs| && forall i :: 0 <= i < |vs| ==> r[i] == vs[i].0
  {
    seq(|vs|, i requires 0 <= i < |vs| => vs[i].0)
  }

  lemma InIds(vs: seq<Video>, x: Video)
    requires x in vs
    ensures x.0 in Ids(vs)
  {
    var i :| 0 <= i < |vs| && vs[i] == x;
    assert Ids(vs)[i] == x.0;
  }

  lemma IdsIn(vs: seq<Video>, v: VideoId) returns (x: Video)
    requires v in Ids(vs)
    ensures x in vs && x.0 == v
  {
    var i :| 0 <= i < |vs| && Ids(vs)[i] == v;
    x := vs[i];
  }

  // ----- products

  lemma Distribute(x: nat, n: nat)
    ensures x * (n + 1) == x * n + x
  {
  }

  lemma MulMonotone(a: nat, b: nat, n: nat)
    requires a <= b
    ensures a * n <= b * n
  {
  }

  // ----- iteration order of maps

  /** Each key occurs exactly once. */
  ghost predicate Enumerates<T>(order: seq<T>, keys: set<T>) {
    multiset(order) == multiset(keys)
  }

  lemma Members<T(!new)>(order: seq<T>, keys: set<T>)
    requires Enumerates(order, keys)
    ensures forall x :: x in order <==> x in keys
  {
    forall x
      ensures x in order <==> x in keys
    {
      assert x in multiset(order) <==> x in multiset(keys);
    }
  }

  lemma Once<T>(order: seq<T>, keys: set<T>)
    requires Enumerates(order, keys)
    ensures NoDuplicates(order)
  {
    forall i, j | 0 <= i < j < |order|
      ensures order[i] != order[j]
    {
      assert order == order[..j] + order[j..];
      assert order[i] in order[..j] && order[j] in order[j..];
      assert multiset(keys)[order[i]] <= 1;
    }
  }

  ghost function SomeOrder<T>(keys: set<T>): (order: seq<T>)
    ensures Enumerates(order, keys)
  {
    if keys == {} then [] else
      var x :| x in keys;
      assert multiset(keys) == multiset(keys - {x}) + multiset{x};
      SomeOrder(keys - {x}) + [x]
  }
}
