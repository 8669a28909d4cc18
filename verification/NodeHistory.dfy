/**
 Repeated control packets change nothing; and what a node remembers is in every run what the
 packets received say: the route table and the names what the floods say, the times of
 videos and clients when their last packets arrived.
 */
module NodeHistory {
  import opened Common
  import opened Selection
  import opened NodeModel

  // ----- at-least-once delivery

  /** A request delivered twice leaves subscribers, routes, messages and the set of queued videos as after the first. */
  lemma RequestTwice(s: Node, v: VideoId, a: Addr, o: Orders, o': Orders)
    ensures var s1 := HandleRequestVideo(s, v, a, o);
      var s2 := HandleRequestVideo(s1, v, a, o');
      && s2 == s1.WithPending(s2.pending)
      && (forall u :: u in s2.pending <==> u in s1.pending)
  {
    var s0 := Subscribe(s, v, a);
    if v in s0.routes {
      SubscribedAgain(s0, v, a);
    } else {
      var s1 := SelectUpstream(s0, v, o);
      SubscribedAgain(s1, v, a);
      if v !in s1.routes {
        QueuedAgain(s1, v, o');
      }
    }
  }

  lemma QueuedAgain(s: Node, v: VideoId, o: Orders)
    requires !s.Offered(v)
    ensures SelectUpstream(s, v, o) == s.WithPending(s.pending + [v])
  {
  }

  lemma SubscribedAgain(s: Node, v: VideoId, a: Addr)
    requires v in s.interested && a in s.interested[v]
    ensures Subscribe(s, v, a) == s
  {
    assert s.interested[v := s.interested[v]] == s.interested;
  }

  lemma UnsubscribedAgain(s: Node, v: VideoId, a: Addr)
    requires a !in s.SubscribersOf(v)
    ensures Unsubscribe(s, v, a) == s
  {
    if v in s.interested {
      assert s.interested[v := s.interested[v]] == s.interested;
    }
  }

  /** A stop delivered twice is a stop delivered once. */
  lemma StopTwice(s: Node, v: VideoId, a: Addr)
    ensures HandleStopVideo(HandleStopVideo(s, v, a), v, a) == HandleStopVideo(s, v, a)
  {
    UnsubscribedAgain(HandleStopVideo(s, v, a), v, a);
  }

  // ----- the route table mirrors the floods

  /** The floods from `a` that a node with this identifier does not discard, with their time of arrival. */
  function Floods(id: nat, es: seq<Event>, a: Addr): seq<(FloodPacket, nat)> {
    if es == [] then [] else
      var rest := Floods(id, Front(es), a);
      if AcceptsFlood(id, Last(es), a) then rest + [(Last(es).packet.flood, Last(es).now)] else rest
  }

  predicate AcceptsFlood(id: nat, e: Event, a: Addr) {
    e.Received? && e.packet.Flood? && e.from == a && id !in e.packet.flood.visited
  }

  function Delays(fs: seq<(FloodPacket, nat)>): seq<nat> {
    seq(|fs|, i requires 0 <= i < |fs| =>
      if fs[i].0.created <= fs[i].1 then fs[i].1 - fs[i].0.created else 0)
  }

  /** The entry for `a` after these floods, whatever its status. */
  ghost predicate Mirrors(s: Node, a: Addr, fs: seq<(FloodPacket, nat)>) {
    && (a in s.available <==> fs != [])
    && (fs != [] ==>
          var r := s.available[a];
          var (p, now) := Last(fs);
          && r.delays == PushAll(Delays(fs))
          && r.hops == p.Hops()
          && r.videos == Ids(p.videos)
          && r.nodeType == Parent(p.parents, now))
  }

  /** `a`'s entry may at most change its status. */
  ghost predicate SameRecord(s: Node, s': Node, a: Addr) {
    && s'.id == s.id
    && (a in s'.available <==> a in s.available)
    && (a in s.available ==> s'.available[a] == s.available[a].(status := s'.available[a].status))
  }

  lemma {:induction false} BuryKeepsRecords(s: Node, dead: seq<Addr>, o: Orders, a: Addr)
    requires forall d :: d in dead ==> d in s.available
    ensures SameRecord(s, Bury(s, dead, o), a)
  {
    if dead == [] {
    } else {
      BuryKeepsRecords(s, Front(dead), o, a);
    }
  }

  lemma PacketKeepsRecords(s: Node, p: Packet, from: Addr, now: nat, o: Orders, a: Addr)
    requires !(p.Flood? && from == a && s.id !in p.flood.visited)
    ensures SameRecord(s, HandlePacket(s, p, from, now, o), a)
  {
    if p.Flood? {
      FloodKeepsOthers(s, from, p.flood, now, o, a);
    }
  }

  lemma FloodKeepsOthers(s: Node, from: Addr, p: FloodPacket, now: nat, o: Orders, a: Addr)
    requires from != a || s.id in p.visited
    ensures SameRecord(s, HandleFloodPacket(s, from, p, now, o), a)
  {
  }

  lemma StepKeepsRecords(s: Node, e: Event, a: Addr)
    requires !AcceptsFlood(s.id, e, a)
    ensures SameRecord(s, Apply(s, e), a)
  {
    match e
    case Received(p, from, now, o) => PacketKeepsRecords(s, p, from, now, o, a);
    case FloodUnacknowledged(target, o) =>
    case ParentAcknowledged(parent) =>
    case NeighbourRound(now, o) => BuryKeepsRecords(s, StaleParents(s, RouteTableOrder(s, o), now), o, a);
    case ClientRound(now, o) =>
    case VideoRound(now, o) =>
  }

  lemma FloodUpdatesRecord(s: Node, p: FloodPacket, now: nat, o: Orders, a: Addr, fs: seq<(FloodPacket, nat)>)
    requires Mirrors(s, a, fs) && s.id !in p.visited
    ensures Mirrors(HandleFloodPacket(s, a, p, now, o), a, fs + [(p, now)])
    ensures HandleFloodPacket(s, a, p, now, o).id == s.id
  {
    var s1 := RecordFlood(s, a, p, now);
    var more := fs + [(p, now)];
    assert Front(Delays(more)) == Delays(fs);
    assert PushAll(Delays(more)) == Push(PushAll(Delays(fs)), Elapsed(p.created, now));
  }

  lemma {:induction false} TableMirrorsFloods(id: nat, addr: Addr, neighbours: seq<Ip>, es: seq<Event>, a: Addr)
    ensures var s := Run(NewNode(id, addr, neighbours), es);
      s.id == id && Mirrors(s, a, Floods(id, es, a))
  {
    if es == [] {
    } else {
      TableMirrorsFloods(id, addr, neighbours, Front(es), a);
      var s := Run(NewNode(id, addr, neighbours), Front(es));
      if AcceptsFlood(id, Last(es), a) {
        FloodUpdatesRecord(s, Last(es).packet.flood, Last(es).now, Last(es).o, a, Floods(id, Front(es), a));
      } else {
        StepKeepsRecords(s, Last(es), a);
      }
    }
  }

  /** In every run each entry of the route table averages the last min(10, n) of the n > 0
      delays measured for that neighbour. */
  lemma {:induction false} AveragesAreFaithful(id: nat, addr: Addr, neighbours: seq<Ip>, es: seq<Event>, a: Addr)
    requires a in Run(NewNode(id, addr, neighbours), es).available
    ensures var ds := Delays(Floods(id, es, a));
      && ds != []
      && Run(NewNode(id, addr, neighbours), es).available[a].delays ==
           if |ds| <= 10 then ds else ds[|ds| - 10..]
  {
    TableMirrorsFloods(id, addr, neighbours, es, a);
    BufferKeepsLatest(Delays(Floods(id, es, a)));
  }

  // ----- names

  /** The last name that the list gives to the video. */
  function LastName(vs: seq<Video>, v: VideoId): Option<string> {
    if vs == [] then None else if Last(vs).0 == v then Some(Last(vs).1) else LastName(Front(vs), v)
  }

  lemma {:induction false} LearnedName(names: map<VideoId, string>, vs: seq<Video>, v: VideoId)
    ensures Lookup(LearnNames(names, vs), v) == if LastName(vs, v).Some? then LastName(vs, v) else Lookup(names, v)
  {
    if vs == [] {
    } else {
      LearnedName(names, Front(vs), v);
    }
  }

  function Lookup<K, T>(m: map<K, T>, k: K): Option<T> {
    if k in m then Some(m[k]) else None
  }

  predicate Accepts(id: nat, e: Event) {
    e.Received? && e.packet.Flood? && id !in e.packet.flood.visited
  }

  /** The name that the last accepted flood packet to list the video gives it. */
  function NameHeard(id: nat, es: seq<Event>, v: VideoId): Option<string> {
    if es == [] then None
    else if Accepts(id, Last(es)) && LastName(Last(es).packet.flood.videos, v).Some? then
      LastName(Last(es).packet.flood.videos, v)
    else NameHeard(id, Front(es), v)
  }

  lemma StepNames(s: Node, e: Event, v: VideoId)
    ensures Apply(s, e).id == s.id
    ensures Lookup(Apply(s, e).names, v) ==
      if Accepts(s.id, e) && LastName(e.packet.flood.videos, v).Some? then LastName(e.packet.flood.videos, v)
      else Lookup(s.names, v)
  {
    if Accepts(s.id, e) {
      LearnedName(s.names, e.packet.flood.videos, v);
    }
  }

  /** In every run a video has the name that the last accepted flood packet to list it gives it. */
  lemma {:induction false} NamesMirrorFloods(id: nat, addr: Addr, neighbours: seq<Ip>, es: seq<Event>, v: VideoId)
    ensures var s := Run(NewNode(id, addr, neighbours), es);
      s.id == id && Lookup(s.names, v) == NameHeard(id, es, v)
  {
    if es == [] {
    } else {
      NamesMirrorFloods(id, addr, neighbours, Front(es), v);
      StepNames(Run(NewNode(id, addr, neighbours), Front(es)), Last(es), v);
    }
  }

  // ----- the last packet of each video, the last ping of each client

  /** When the last packet of the video arrived. */
  function LastArrival(es: seq<Event>, v: VideoId): Option<nat> {
    if es == [] then None
    else if Last(es).Received? && Last(es).packet.VideoData? && Last(es).packet.video.stream == v then
      Some(Last(es).now)
    else LastArrival(Front(es), v)
  }

  /** When the last ping of the client arrived. */
  function LastPing(es: seq<Event>, a: Addr): Option<nat> {
    if es == [] then None
    else if Last(es).Received? && Last(es).packet.ClientPing? && Last(es).from == a then Some(Last(es).now)
    else LastPing(Front(es), a)
  }

  lemma StepTimes(s: Node, e: Event, v: VideoId, a: Addr)
    ensures Lookup(Apply(s, e).lastVideoTime, v) ==
      if e.Received? && e.packet.VideoData? && e.packet.video.stream == v then Some(e.now)
      else Lookup(s.lastVideoTime, v)
    ensures Lookup(Apply(s, e).lastPings, a) ==
      if e.Received? && e.packet.ClientPing? && e.from == a then Some(e.now) else Lookup(s.lastPings, a)
  {
  }

  /** In every run the times remembered are those of the last packet of a video and the last ping of a client. */
  lemma {:induction false} TimesMirrorArrivals(id: nat, addr: Addr, neighbours: seq<Ip>, es: seq<Event>, v: VideoId,
                                               a: Addr)
    ensures Lookup(Run(NewNode(id, addr, neighbours), es).lastVideoTime, v) == LastArrival(es, v)
    ensures Lookup(Run(NewNode(id, addr, neighbours), es).lastPings, a) == LastPing(es, a)
  {
    if es == [] {
    } else {
      TimesMirrorArrivals(id, addr, neighbours, Front(es), v, a);
      StepTimes(Run(NewNode(id, addr, neighbours), Front(es)), Last(es), v, a);
    }
  }

  // ----- neighbours

  /** Who has introduced itself or acknowledged an introduction, in order and with repetitions. */
  function Introduced(es: seq<Event>): seq<Ip> {
    if es == [] then [] else
      var rest := Introduced(Front(es));
      match Last(es)
      case Received(p, from, _, _) => if p.NewNeighbour? then rest + [from.ip] else rest
      case ParentAcknowledged(parent) => rest + [parent.ip]
      case _ => rest
  }

  /** In every run the list of neighbours is the one given at first, followed by everyone who has been introduced since,
      as often as that happened. */
  lemma {:induction false} NeighboursMirrorIntroductions(id: nat, addr: Addr, neighbours: seq<Ip>, es: seq<Event>)
    ensures Run(NewNode(id, addr, neighbours), es).neighbours == neighbours + Introduced(es)
  {
    if es == [] {
    } else {
      NeighboursMirrorIntroductions(id, addr, neighbours, Front(es));
      StepNeighbours(Run(NewNode(id, addr, neighbours), Front(es)), Last(es));
    }
  }

  lemma StepNeighbours(s: Node, e: Event)
    ensures Apply(s, e).neighbours == s.neighbours +
      match e
      case Received(p, from, _, _) => if p.NewNeighbour? then [from.ip] else []
      case ParentAcknowledged(parent) => [parent.ip]
      case _ => []
  {
  }
}
