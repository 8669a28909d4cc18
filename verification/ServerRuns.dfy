/**
 Runs of the server: repeated control packets change nothing, and a subscriber receives
 the encoder's output numbered without gaps.
 */
module ServerRuns {
  import opened Common
  import opened ServerModel
  import opened VideoLog

  type KeyOrder = f: set<VideoId> -> seq<VideoId> | forall keys :: Enumerates(f(keys), keys)
    ghost witness keys => SomeOrder(keys)

  datatype Event =
    | Arrived(packet: Packet, from: Addr)
    | Chunk(v: VideoId, data: seq<bv8>)
    | Flooded(o: KeyOrder, now: nat)
    | Started(v: VideoId, name: string)

  function Apply(s: Server, e: Event): Server {
    match e
    case Arrived(p, from) => HandlePacket(s, p, from)
    case Chunk(v, data) => StreamData(s, v, data)
    case Flooded(o, now) => FloodRound(s, o(s.videos.Keys), now)
    case Started(v, name) => AddVideo(s, v, name)
  }

  function Run(s: Server, es: seq<Event>): Server {
    if es == [] then s else Apply(Run(s, Front(es)), Last(es))
  }

  predicate Watches(s: Server, v: VideoId, a: Addr) {
    v in s.videos && a in s.videos[v].interested
  }

  // ----- at-least-once delivery

  /** A request or stop delivered twice is one delivered once; either settles whether the sender watches. */
  lemma ControlTwice(s: Server, p: Packet, a: Addr, v: VideoId)
    requires p == RequestVideo(v) || p == StopVideo(v)
    ensures var s' := HandlePacket(s, p, a);
      && HandlePacket(s', p, a) == s'
      && (Watches(s', v, a) <==> v in s.videos && p.RequestVideo?)
  {
    var s' := HandlePacket(s, p, a);
    if v in s.videos {
      assert s'.videos[v := s'.videos[v]] == s'.videos;
      assert s'.videos[v].(interested := s'.videos[v].interested) == s'.videos[v];
    }
  }

  // ----- numbering

  /** `a` watches `v` from the start of the run to its end. */
  predicate KeepsWatching(s: Server, es: seq<Event>, v: VideoId, a: Addr) {
    Watches(Run(s, es), v, a) && (es == [] || KeepsWatching(s, Front(es), v, a))
  }

  /** What the encoder of `v` produces. */
  function Chunks(es: seq<Event>, v: VideoId): seq<seq<bv8>> {
    if es == [] then [] else
      var rest := Chunks(Front(es), v);
      if Last(es).Chunk? && Last(es).v == v then rest + [Last(es).data] else rest
  }

  /** Nothing about the stream of `v` to `a` differs. */
  ghost predicate SameStream(s: Server, s': Server, v: VideoId, a: Addr)
    requires v in s.videos
  {
    v in s'.videos && s'.videos[v].sequence == s.videos[v].sequence && VideoFor(s'.sent, a, v) == VideoFor(s.sent, a, v)
  }

  lemma ArrivalStreams(s: Server, p: Packet, from: Addr, v: VideoId, a: Addr)
    requires v in s.videos
    ensures SameStream(s, HandlePacket(s, p, from), v, a)
  {
  }

  lemma BroadcastStreams(sent: seq<Envelope>, targets: Subscribers, p: VideoPacket, a: Addr, v: VideoId)
    ensures VideoFor(sent + PlainTo(targets, VideoData(p)), a, v) ==
      VideoFor(sent, a, v) + if a in targets && p.stream == v then [p] else []
  {
    VideoForAppend(sent, PlainTo(targets, VideoData(p)), a, v);
    BroadcastOnce(targets, p, a, v);
  }

  /** What the chunk adds to the stream of `v` to `a`: the next number if anybody watches, for `a` if it does. */
  ghost predicate Airs(s: Server, s': Server, v: VideoId, a: Addr, data: seq<bv8>)
    requires v in s.videos
  {
    && v in s'.videos && s'.videos[v].sequence == s.videos[v].sequence + 1
    && VideoFor(s'.sent, a, v) == VideoFor(s.sent, a, v) +
         if Watches(s, v, a) then [VideoPacket(v, s.videos[v].sequence + 1, data)] else []
  }

  lemma ChunkStreams(s: Server, u: VideoId, data: seq<bv8>, v: VideoId, a: Addr)
    requires v in s.videos
    ensures var s' := StreamData(s, u, data);
      if u == v && s.videos[v].interested != [] then Airs(s, s', v, a, data) else SameStream(s, s', v, a)
  {
    if u in s.videos {
      BroadcastStreams(s.sent, s.videos[u].interested, VideoPacket(u, s.videos[u].sequence + 1, data), a, v);
    }
  }

  lemma FloodStreams(s: Server, o: KeyOrder, now: nat, v: VideoId, a: Addr)
    requires v in s.videos
    ensures SameStream(s, FloodRound(s, o(s.videos.Keys), now), v, a)
  {
    var flood := PlainTo(s.neighbours, Flood(VideoListPacket(s, o(s.videos.Keys), now)));
    VideoForAppend(s.sent, flood, a, v);
    NoVideo(flood, a, v);
  }

  predicate IsAired(s: Server, e: Event, v: VideoId) {
    e.Chunk? && e.v == v && v in s.videos && s.videos[v].interested != []
  }

  lemma StepStreams(s: Server, e: Event, v: VideoId, a: Addr)
    requires v in s.videos && !(e.Started? && e.v == v)
    ensures if IsAired(s, e, v) then Airs(s, Apply(s, e), v, a, e.data) else SameStream(s, Apply(s, e), v, a)
  {
    match e
    case Arrived(p, from) => ArrivalStreams(s, p, from, v, a);
    case Chunk(u, data) => ChunkStreams(s, u, data, v, a);
    case Flooded(o, now) => FloodStreams(s, o, now, v, a);
    case Started(u, name) =>
  }

  /** What the encoder of `v` produces while somebody watches. */
  function Aired(s: Server, es: seq<Event>, v: VideoId): seq<seq<bv8>> {
    if es == [] then [] else
      var rest := Aired(s, Front(es), v);
      if IsAired(Run(s, Front(es)), Last(es), v) then rest + [Last(es).data] else rest
  }

  /** What is produced while `a` watches, each piece with the number it has among all that is aired. */
  function Heard(s: Server, es: seq<Event>, v: VideoId, a: Addr, n: nat): seq<VideoPacket> {
    if es == [] then [] else
      var rest := Heard(s, Front(es), v, a, n);
      var before := Run(s, Front(es));
      if IsAired(before, Last(es), v) && Watches(before, v, a)
      then rest + [VideoPacket(v, n + |Aired(s, Front(es), v)| + 1, Last(es).data)]
      else rest
  }

  /** Whoever comes and goes: the number of a stream grows by one with each piece of data that somebody watches, and
      with no other; and `a` is sent exactly the pieces produced while it watches, each once, in order and
      with its number. */
  lemma {:induction false} WatchersHearWhatIsAired(s: Server, es: seq<Event>, v: VideoId, a: Addr)
    requires v in s.videos && forall e :: e in es ==> !(e.Started? && e.v == v)
    ensures v in Run(s, es).videos && Run(s, es).videos[v].sequence == s.videos[v].sequence + |Aired(s, es, v)|
    ensures VideoFor(Run(s, es).sent, a, v) == VideoFor(s.sent, a, v) + Heard(s, es, v, a, s.videos[v].sequence)
  {
    if es == [] {
    } else {
      assert Last(es) in es;
      WatchersHearWhatIsAired(s, Front(es), v, a);
      StepStreams(Run(s, Front(es)), Last(es), v, a);
    }
  }

  lemma NumberedExtends(v: VideoId, n: nat, chunks: seq<seq<bv8>>, data: seq<bv8>)
    ensures NumberedFrom(v, n, chunks) + [VideoPacket(v, n + |chunks| + 1, data)] ==
      NumberedFrom(v, n, chunks + [data])
  {
    NumberedSnoc(v, n, chunks, data);
  }

  /** Nobody but `a` ever watches. */
  ghost predicate WatchesAlone(s: Server, es: seq<Event>, v: VideoId, a: Addr) {
    && (forall b :: Watches(Run(s, es), v, b) ==> b == a)
    && (es == [] || WatchesAlone(s, Front(es), v, a))
  }

  /** A single watcher may stop and come back as often as it likes: what it is sent is numbered consecutively, for
      the number does not advance while it is away. */
  lemma {:induction false} SingleWatcherSeesNoGap(s: Server, es: seq<Event>, v: VideoId, a: Addr)
    requires v in s.videos && (forall e :: e in es ==> !(e.Started? && e.v == v)) && WatchesAlone(s, es, v, a)
    ensures VideoFor(Run(s, es).sent, a, v) ==
      VideoFor(s.sent, a, v) + NumberedFrom(v, s.videos[v].sequence, Aired(s, es, v))
  {
    WatchersHearWhatIsAired(s, es, v, a);
    AloneHearsAll(s, es, v, a, s.videos[v].sequence);
  }

  lemma {:induction false} AloneHearsAll(s: Server, es: seq<Event>, v: VideoId, a: Addr, n: nat)
    requires WatchesAlone(s, es, v, a)
    ensures Heard(s, es, v, a, n) == NumberedFrom(v, n, Aired(s, es, v))
  {
    if es == [] {
    } else {
      AloneHearsAll(s, Front(es), v, a, n);
      var s1 := Run(s, Front(es));
      if IsAired(s1, Last(es), v) {
        assert Watches(s1, v, s1.videos[v].interested[0]);
        NumberedExtends(v, n, Aired(s, Front(es), v), Last(es).data);
      }
    }
  }

  lemma {:induction false} KeptHearsAll(s: Server, es: seq<Event>, v: VideoId, a: Addr, n: nat)
    requires KeepsWatching(s, es, v, a)
    ensures Aired(s, es, v) == Chunks(es, v) && Heard(s, es, v, a, n) == NumberedFrom(v, n, Chunks(es, v))
  {
    if es == [] {
    } else {
      KeptHearsAll(s, Front(es), v, a, n);
      if Last(es).Chunk? && Last(es).v == v {
        assert IsAired(Run(s, Front(es)), Last(es), v);
        NumberedExtends(v, n, Chunks(Front(es), v), Last(es).data);
      }
    }
  }

  /** While `a` watches a video, and the video is not started anew, `a` is sent all of the encoder's
      output, each piece once, in order and numbered consecutively. */
  lemma {:induction false} StreamIsGapFree(s: Server, es: seq<Event>, v: VideoId, a: Addr)
    requires KeepsWatching(s, es, v, a) && v in s.videos
    requires forall e :: e in es ==> !(e.Started? && e.v == v)
    ensures v in Run(s, es).videos && Run(s, es).videos[v].sequence == s.videos[v].sequence + |Chunks(es, v)|
    ensures VideoFor(Run(s, es).sent, a, v) ==
      VideoFor(s.sent, a, v) + NumberedFrom(v, s.videos[v].sequence, Chunks(es, v))
  {
    WatchersHearWhatIsAired(s, es, v, a);
    KeptHearsAll(s, es, v, a, s.videos[v].sequence);
  }

  lemma {:induction false} WatchesUntilItStops(s: Server, es: seq<Event>, v: VideoId, a: Addr)
    requires Watches(s, v, a)
    requires forall e :: e in es ==> !(e.Started? && e.v == v) && e != Arrived(StopVideo(v), a)
    ensures KeepsWatching(s, es, v, a)
  {
    if es == [] {
    } else {
      assert Last(es) in es;
      WatchesUntilItStops(s, Front(es), v, a);
    }
  }

  /** From the start of a video, which forgets those who have watched one of that name before: whoever asks for it at
      once, and neither stops it nor sees it started anew, is sent all of the encoder's output, numbered from one. */
  lemma {:induction false} FirstWatcherHearsAll(s: Server, v: VideoId, name: string, a: Addr, es: seq<Event>)
    requires forall e :: e in es ==> !(e.Started? && e.v == v) && e != Arrived(StopVideo(v), a)
    ensures var s2 := Apply(Apply(s, Started(v, name)), Arrived(RequestVideo(v), a));
      && VideoFor(Run(s2, es).sent, a, v) == VideoFor(s.sent, a, v) + NumberedFrom(v, 0, Chunks(es, v))
      && v in s2.videos && s2.videos[v].name == name && forall b :: Watches(s2, v, b) ==> b == a
  {
    var s2 := Apply(Apply(s, Started(v, name)), Arrived(RequestVideo(v), a));
    WatchesUntilItStops(s2, es, v, a);
    StreamIsGapFree(s2, es, v, a);
  }

  /** The list of a video's subscribers never holds an address twice, and the server's own list of
      flood targets never shrinks. */
  lemma {:induction false} ListsStaySound(s: Server, es: seq<Event>, v: VideoId)
    ensures v in Run(s, es).videos ==> NoDuplicates(Run(s, es).videos[v].interested)
    ensures s.neighbours <= Run(s, es).neighbours
  {
    if es == [] {
    } else {
      ListsStaySound(s, Front(es), v);
    }
  }

  // ----- floods

  lemma {:induction false} ListedOnce(videos: map<VideoId, Stream>, order: seq<VideoId>)
    requires forall v :: v in order ==> v in videos
    ensures Ids(ListVideos(videos, order)) == order
  {
    if order == [] {
    } else {
      ListedOnce(videos, Front(order));
      assert order == Front(order) + [Last(order)];
    }
  }

  /** A round sends each neighbour, in the order of the list, one and the same packet: made now by this server, without
      parents, and listing exactly the server's videos, each once and with its name. */
  lemma RoundFloodsEachNeighbour(s: Server, o: KeyOrder, now: nat) returns (p: FloodPacket)
    ensures p.created == now && p.visited == [s.id] && p.parents == [] && NoDuplicates(Ids(p.videos))
    ensures forall x :: x in p.videos <==> x.0 in s.videos && x.1 == s.videos[x.0].name
    ensures var s' := Apply(s, Flooded(o, now));
      && s' == s.(sent := s'.sent) && s.sent <= s'.sent && |s'.sent| == |s.sent| + |s.neighbours|
      && forall i :: 0 <= i < |s.neighbours| ==> s'.sent[|s.sent| + i] == Plain(s.neighbours[i], Flood(p))
  {
    p := VideoListPacket(s, o(s.videos.Keys), now);
    Members(o(s.videos.Keys), s.videos.Keys);
    Once(o(s.videos.Keys), s.videos.Keys);
    ListedOnce(s.videos, o(s.videos.Keys));
  }

  /** Who has introduced itself, in order and with repetitions. */
  function Introduced(es: seq<Event>): seq<Addr> {
    if es == [] then [] else
      var rest := Introduced(Front(es));
      if Last(es).Arrived? && Last(es).packet.NewNeighbour? then rest + [Last(es).from] else rest
  }

  /** In every run the flood targets are those given at first, followed by everyone who has introduced itself since, as
      often as it did. */
  lemma {:induction false} NeighboursMirrorIntroductions(s: Server, es: seq<Event>)
    ensures Run(s, es).neighbours == s.neighbours + Introduced(es)
  {
    if es == [] {
    } else {
      NeighboursMirrorIntroductions(s, Front(es));
    }
  }

  lemma KnownNeighbourIsFlooded(s: Server, neighbours: seq<Addr>, o: KeyOrder, now: nat, i: nat)
    returns (p: FloodPacket)
    requires neighbours <= s.neighbours && i < |neighbours|
    ensures var s' := Apply(s, Flooded(o, now));
      |s.sent| + i < |s'.sent| && s'.sent[|s.sent| + i] == Plain(neighbours[i], Flood(p))
    ensures p.created == now && p.visited == [s.id] && p.parents == []
  {
    p := RoundFloodsEachNeighbour(s, o, now);
  }

  lemma {:induction false} NewServerKeeps(id: nat, neighbours: seq<Addr>, es: seq<Event>)
    ensures Run(NewServer(id, neighbours), es).id == id && neighbours <= Run(NewServer(id, neighbours), es).neighbours
  {
    if es == [] {
    } else {
      NewServerKeeps(id, neighbours, Front(es));
    }
  }

  /** In every run of a new server each round reaches every neighbour that it was given. */
  lemma {:induction false} GivenNeighboursAreFlooded(id: nat, neighbours: seq<Addr>, es: seq<Event>, o: KeyOrder,
                                                     now: nat, i: nat) returns (p: FloodPacket)
    requires i < |neighbours|
    ensures var s := Run(NewServer(id, neighbours), es);
      var s' := Apply(s, Flooded(o, now));
      |s.sent| + i < |s'.sent| && s'.sent[|s.sent| + i] == Plain(neighbours[i], Flood(p))
    ensures p.created == now && p.visited == [id] && p.parents == []
  {
    NewServerKeeps(id, neighbours, es);
    p := KnownNeighbourIsFlooded(Run(NewServer(id, neighbours), es), neighbours, o, now, i);
  }
}
