/**
 What single packets do to a client: what a ping and its answer achieve between client and
 node, which videos change their source, and what the player is given.
 */
module ClientReactions {
  import opened Common
  import opened ClientModel
  import opened ControlLog
  import ClientFailover
  import NodeModel
  import NodeReactions

  // ----- answers

  /** The last name that the list gives to the video. */
  function Latest(vs: seq<Common.Video>, v: VideoId): Option<string> {
    if vs == [] then None else if Last(vs).0 == v then Some(Last(vs).1) else Latest(Front(vs), v)
  }

  lemma {:induction false} LearnedName(names: map<VideoId, string>, vs: seq<Common.Video>, v: VideoId)
    ensures v in LearnNames(names, vs) <==> v in names || Latest(vs, v).Some?
    ensures v in LearnNames(names, vs) ==>
      LearnNames(names, vs)[v] == match Latest(vs, v) case Some(name) => name case None => names[v]
  {
    if vs == [] {
    } else {
      LearnedName(names, Front(vs), v);
    }
  }

  /** A repeated answer changes nothing: its ping is no longer pending and its names are known. */
  lemma AnswerTwice(s: Client, from: Addr, ping: nat, vs: seq<Common.Video>, now: nat, o: Orders, now': nat,
                    o': Orders)
    ensures var s' := HandlePingAnswer(s, from, ping, vs, now, o);
      HandlePingAnswer(s', from, ping, vs, now', o') == s'
  {
    var s' := HandlePingAnswer(s, from, ping, vs, now, o);
    AnswerSettlesPing(s, from, ping, vs, now, o);
    assert LearnNames(s'.names, vs) == s'.names by {
      forall v
        ensures v in LearnNames(s'.names, vs) <==> v in s'.names
        ensures v in s'.names ==> LearnNames(s'.names, vs)[v] == s'.names[v]
      {
        LearnedName(s.names, vs, v);
        LearnedName(s'.names, vs, v);
      }
    }
  }

  lemma {:induction false} ReselectAllKeeps(s: Client, vs: seq<VideoId>, o: Orders)
    requires forall v :: v in vs ==> v in s.playing
    ensures var s' := ReselectAll(s, vs, o);
      s'.pings == s.pings && s'.names == s.names && s'.nodes == s.nodes && s.sent <= s'.sent
  {
    if vs == [] {
    } else {
      ReselectAllKeeps(s, Front(vs), o);
    }
  }

  lemma AnswerSettlesPing(s: Client, from: Addr, ping: nat, vs: seq<Common.Video>, now: nat, o: Orders)
    ensures var s' := HandlePingAnswer(s, from, ping, vs, now, o);
      && s'.names == LearnNames(s.names, vs)
      && s'.pings == s.pings.(pending := s.pings.pending - {ping})
      && s'.nodes == (if ping in s.pings.pending && from in s.nodes then
                        s.nodes[from := Answered(s.nodes[from], Elapsed(s.pings.pending[ping].1, now), Ids(vs), now)]
                      else s.nodes)
  {
    if ping in s.pings.pending {
      var s2 := s.(names := LearnNames(s.names, vs), pings := s.pings.(pending := s.pings.pending - {ping}));
      var s3 := RegisterAnswer(s2, from, Elapsed(s.pings.pending[ping].1, now), Ids(vs), now);
      ReselectAllKeeps(s3, Waiting(s3, PlayingOrder(s3, o), Ids(vs)), o);
    } else {
      assert s.pings.pending - {ping} == s.pings.pending;
    }
  }

  // ----- a ping, handled by a node, and its answer

  /** A client pings a node, the node handles the ping, and the client handles the answer. The node
      then serves the client no video that the client does not take from it; the client has the
      node as connected, with the round-trip time as its latest sample; and in the client's eyes the
      node offers exactly the videos that, when it answered, it could name and a responsive
      neighbour of its own, other than the client, offered. */
  lemma PingExchange(c: Client, a: Addr, n: NodeModel.Node, client: Addr, t0: nat, t1: nat, t2: nat, o: Orders,
                     o': Orders, on: NodeModel.Orders, v: VideoId)
    requires a in c.nodes
    ensures var c1 := PingNode(c, a, t0, o);
      var ping := Last(c1.sent);
      var n1 := NodeModel.HandlePacket(n, ping.body, client, t1, on);
      var answer := Last(n1.sent);
      && ping.to == a && n1.sent != [] && answer.to == client && answer.body.VideoList?
      && var c2 := HandlePingAnswer(c1, a, answer.body.answer, answer.body.videos, t2, o');
        && c2.pings == Pings(c.pings.pending - {c.pings.next}, c.pings.next + 1)
        && a in c2.nodes && c2.nodes[a].status == Connected
        && Last(c2.nodes[a].rtts) == (if t0 <= t2 then t2 - t0 else 0)
        && (c2.OffersVia(a, v) <==> v in n.names && NodeModel.CanRelay(n.available, client, v))
        && (client in n1.SubscribersOf(v) ==> c.PlaysFrom(v, a))
  {
    var requested := VideosFrom(c, PlayingOrder(c, o), a);
    PingIsPending(c, a, t0, o);
    NodeAnswers(n, c.pings.next, requested, client, t1, on, v);
    ClientLearns(c, a, t0, t2, NodeModel.GetVideos(n, client, on), o, o', v);
    OfferedNames(n, client, on, v);
  }

  lemma NodeAnswers(n: NodeModel.Node, ping: nat, requested: seq<VideoId>, client: Addr, t1: nat,
                    on: NodeModel.Orders, v: VideoId)
    ensures var n1 := NodeModel.HandlePacket(n, ClientPing(ping, requested), client, t1, on);
      && n1.sent != [] && Last(n1.sent) == Reliable(client, VideoList(ping, NodeModel.GetVideos(n, client, on), t1))
      && (client in n1.SubscribersOf(v) ==> v in requested)
  {
    NodeReactions.PingReconciles(n, ping, requested, client, t1, on, v, client);
  }

  lemma PingIsPending(c: Client, a: Addr, now: nat, o: Orders)
    ensures var c1, n := PingNode(c, a, now, o), c.pings.next;
      && c1.sent == c.sent + [Reliable(a, ClientPing(n, VideosFrom(c, PlayingOrder(c, o), a)))]
      && c1.nodes == c.nodes && c1.pings == Pings(c.pings.pending[n := (a, now)], n + 1)
  {
  }

  lemma ClientLearns(c: Client, a: Addr, t0: nat, t2: nat, vs: seq<Common.Video>, o: Orders, o': Orders, v: VideoId)
    requires a in c.nodes
    ensures var c1 := PingNode(c, a, t0, o);
      var c2 := HandlePingAnswer(c1, a, c.pings.next, vs, t2, o');
      && c2.pings == Pings(c.pings.pending - {c.pings.next}, c.pings.next + 1)
      && a in c2.nodes && c2.nodes[a].status == Connected && Last(c2.nodes[a].rtts) == (if t0 <= t2 then t2 - t0 else 0)
      && (c2.OffersVia(a, v) <==> v in Ids(vs))
  {
    PingIsPending(c, a, t0, o);
    AnswerIsLearned(PingNode(c, a, t0, o), a, c.pings.next, t0, t2, vs, o', v);
    assert c.pings.pending[c.pings.next := (a, t0)] - {c.pings.next} == c.pings.pending - {c.pings.next};
  }

  lemma AnswerIsLearned(c: Client, a: Addr, ping: nat, t0: nat, t2: nat, vs: seq<Common.Video>, o: Orders, v: VideoId)
    requires a in c.nodes && ping in c.pings.pending && c.pings.pending[ping] == (a, t0)
    ensures var c' := HandlePingAnswer(c, a, ping, vs, t2, o);
      && c'.pings == Pings(c.pings.pending - {ping}, c.pings.next)
      && a in c'.nodes && c'.nodes[a].status == Connected && Last(c'.nodes[a].rtts) == Elapsed(t0, t2)
      && (c'.OffersVia(a, v) <==> v in Ids(vs))
  {
    AnswerSettlesPing(c, a, ping, vs, t2, o);
  }

  lemma OfferedNames(n: NodeModel.Node, client: Addr, on: NodeModel.Orders, v: VideoId)
    ensures v in Ids(NodeModel.GetVideos(n, client, on)) <==> v in n.names && NodeModel.CanRelay(n.available, client, v)
  {
    var videos := NodeModel.GetVideos(n, client, on);
    if v in Ids(videos) {
      var x := IdsIn(videos, v);
    }
    if v in n.names && NodeModel.CanRelay(n.available, client, v) {
      InIds(videos, (v, n.names[v]));
    }
  }

  /** The k-th ping of a round goes to the k-th node of the iteration, under a number of its own that is
      then pending, and lists exactly the videos the client takes from that node. */
  lemma {:induction false} PingNodesSends(s: Client, order: seq<Addr>, now: nat, o: Orders, k: nat)
    requires k < |order|
    ensures var s' := PingNodes(s, order, now, o);
      && |s'.sent| == |s.sent| + |order| && s'.pings.next == s.pings.next + |order|
      && s.pings.next + k in s'.pings.pending && s'.pings.pending[s.pings.next + k] == (order[k], now)
      && var ping := s'.sent[|s.sent| + k];
        && ping.Reliable? && ping.to == order[k] && ping.body.ClientPing? && ping.body.ping == s.pings.next + k
        && (forall v :: v in ping.body.requested <==> s.PlaysFrom(v, order[k]))
  {
    if k < |order| - 1 {
      PingNodesSends(s, Front(order), now, o, k);
    } else {
      PingNodesCount(s, Front(order), now, o);
    }
  }

  /** A round pings every known node exactly once. */
  lemma PingRoundReaches(s: Client, now: nat, o: Orders, a: Addr) returns (k: nat)
    requires a in s.nodes
    ensures var s' := PingRound(s, now, o);
      && s.sent <= s'.sent && |s.sent| <= k < |s'.sent|
      && s'.sent[k].Reliable? && s'.sent[k].to == a && s'.sent[k].body.ClientPing?
      && s'.sent[k].body.ping in s'.pings.pending && s'.pings.pending[s'.sent[k].body.ping] == (a, now)
      && (forall v :: v in s'.sent[k].body.requested <==> s.PlaysFrom(v, a))
      && forall j :: |s.sent| <= j < |s'.sent| && j != k ==> s'.sent[j].to != a
  {
    var order := NodesOrder(s, o);
    var i :| 0 <= i < |order| && order[i] == a;
    PingNodesCount(s, order, now, o);
    PingNodesSends(s, order, now, o, i);
    var s' := PingRound(s, now, o);
    forall j | |s.sent| <= j < |s'.sent| && j != |s.sent| + i
      ensures s'.sent[j].to != a
    {
      PingGoesTo(s, order, now, o, j - |s.sent|);
    }
    k := |s.sent| + i;
  }

  lemma PingGoesTo(s: Client, order: seq<Addr>, now: nat, o: Orders, k: nat)
    requires k < |order|
    ensures var s' := PingNodes(s, order, now, o);
      |s'.sent| == |s.sent| + |order| && s'.sent[|s.sent| + k].to == order[k]
  {
    PingNodesSends(s, order, now, o, k);
  }

  /** So a new client pings each of its servers, once, in its first round. */
  lemma FirstRoundPingsEveryServer(servers: set<Ip>, now: nat, o: Orders, ip: Ip) returns (k: nat)
    requires ip in servers
    ensures var s' := PingRound(NewClient(servers), now, o);
      && k < |s'.sent| && s'.sent[k].to == At(ip) && s'.sent[k].body.ClientPing? && s'.sent[k].body.requested == []
      && forall j :: 0 <= j < |s'.sent| && j != k ==> s'.sent[j].to != At(ip)
  {
    k := PingRoundReaches(NewClient(servers), now, o, At(ip));
    HeadIsIn(PingRound(NewClient(servers), now, o).sent[k].body.requested);
  }

  lemma {:induction false} PingNodesCount(s: Client, order: seq<Addr>, now: nat, o: Orders)
    ensures var s' := PingNodes(s, order, now, o);
      && s.sent <= s'.sent && |s'.sent| == |s.sent| + |order|
      && s'.pings.next == s.pings.next + |order|
  {
    if order == [] {
    } else {
      PingNodesCount(s, Front(order), now, o);
    }
  }

  // ----- playing

  /** Stopping a video removes it, and it alone, and the last word to its source is a stop. */
  lemma StopPlayingTellsSource(s: Client, v: VideoId, a: Addr)
    requires s.PlaysFrom(v, a)
    ensures var s' := StopPlaying(s, v);
      && s'.playing == s.playing - {v} && s'.nodes == s.nodes
      && !Asked(s'.sent, a, v)
      && forall b, u :: b != a || u != v ==> (Asked(s'.sent, b, u) <==> Asked(s.sent, b, u))
  {
    forall b, u
      ensures Asked(StopPlaying(s, v).sent, b, u) <==> (b != a || u != v) && Asked(s.sent, b, u)
    {
      AskedSnoc(s.sent, a, StopVideo(v), b, u);
    }
  }

  /** A video that waits for a source is removed, and nobody is told. */
  lemma StopWaitingTellsNobody(s: Client, v: VideoId)
    requires s.Waits(v)
    ensures StopPlaying(s, v) == s.(playing := s.playing - {v})
  {
  }

  /** When the player refuses the data, the video is removed, and it alone, and the last word to the sender of
      the packet is a stop. */
  lemma RefusalStops(s: Client, from: Addr, p: VideoPacket)
    requires p.stream in s.playing
    ensures var s' := HandleVideoPacket(s, from, p, false);
      && s'.playing == s.playing - {p.stream} && s'.nodes == s.nodes
      && !Asked(s'.sent, from, p.stream)
      && forall b, u :: b != from || u != p.stream ==> (Asked(s'.sent, b, u) <==> Asked(s.sent, b, u))
  {
    forall b, u
      ensures Asked(HandleVideoPacket(s, from, p, false).sent, b, u) <==>
        (b != from || u != p.stream) && Asked(s.sent, b, u)
    {
      AskedSnoc(s.sent, from, StopVideo(p.stream), b, u);
    }
  }

  // ----- lists without repetitions

  lemma {:induction false} VideosFromOnce(s: Client, order: seq<VideoId>, a: Addr)
    requires NoDuplicates(order)
    ensures NoDuplicates(VideosFrom(s, order, a))
  {
    if order == [] {
    } else {
      VideosFromOnce(s, Front(order), a);
      assert Last(order) !in Front(order);
    }
  }

  lemma {:induction false} WaitingOnce(s: Client, order: seq<VideoId>, ids: seq<VideoId>)
    requires NoDuplicates(order)
    ensures NoDuplicates(Waiting(s, order, ids))
  {
    if order == [] {
    } else {
      WaitingOnce(s, Front(order), ids);
      assert Last(order) !in Front(order);
    }
  }

  lemma {:induction false} SilentOnce(s: Client, order: seq<Addr>, now: nat)
    requires NoDuplicates(order) && forall a :: a in order ==> a in s.nodes
    ensures NoDuplicates(SilentNodes(s, order, now))
  {
    if order == [] {
    } else {
      SilentOnce(s, Front(order), now);
      assert Last(order) !in Front(order);
    }
  }

  /** No ping lists a video twice, no round of re-selection handles one twice, and no sweep buries a node twice. */
  lemma NothingIsHandledTwice(s: Client, a: Addr, ids: seq<VideoId>, now: nat, o: Orders)
    ensures NoDuplicates(VideosFrom(s, PlayingOrder(s, o), a))
    ensures NoDuplicates(Waiting(s, PlayingOrder(s, o), ids))
    ensures NoDuplicates(SilentNodes(s, NodesOrder(s, o), now))
  {
    Once(o.playing(s.playing.Keys), s.playing.Keys);
    VideosFromOnce(s, PlayingOrder(s, o), a);
    WaitingOnce(s, PlayingOrder(s, o), ids);
    SilentOnce(s, NodesOrder(s, o), now);
  }

  // ----- changes of source

  lemma {:induction false} ReselectAllSpares(s: Client, vs: seq<VideoId>, o: Orders, v: VideoId)
    requires v in s.playing && v !in vs && forall u :: u in vs ==> u in s.playing
    ensures v in ReselectAll(s, vs, o).playing && ReselectAll(s, vs, o).playing[v] == s.playing[v]
  {
    if vs == [] {
    } else {
      ReselectAllSpares(s, Front(vs), o, v);
    }
  }

  /** An answer changes the source only of videos that it lists and that wait for one. */
  lemma AnswerMovesOnlyTheWaiting(s: Client, from: Addr, ping: nat, vs: seq<Common.Video>, now: nat, o: Orders,
                                  v: VideoId)
    requires v in s.playing && !(ping in s.pings.pending && s.Waits(v) && v in Ids(vs))
    ensures var s' := HandlePingAnswer(s, from, ping, vs, now, o);
      v in s'.playing && s'.playing[v] == s.playing[v]
  {
    if ping in s.pings.pending {
      var s2 := s.(names := LearnNames(s.names, vs), pings := s.pings.(pending := s.pings.pending - {ping}));
      var s3 := RegisterAnswer(s2, from, Elapsed(s.pings.pending[ping].1, now), Ids(vs), now);
      ReselectAllSpares(s3, Waiting(s3, PlayingOrder(s3, o), Ids(vs)), o, v);
    }
  }

  lemma {:induction false} BurySpares(s: Client, dead: seq<Addr>, o: Orders, v: VideoId)
    requires v in s.playing && (forall a :: a in dead ==> a in s.nodes && !s.PlaysFrom(v, a))
    ensures v in Bury(s, dead, o).playing && Bury(s, dead, o).playing[v] == s.playing[v]
  {
    if dead == [] {
    } else {
      BurySpares(s, Front(dead), o, v);
      var s1 := MarkUnresponsive(Bury(s, Front(dead), o), Last(dead));
      assert Last(dead) in dead;
      ReselectAllSpares(s1, VideosFrom(s1, PlayingOrder(s1, o), Last(dead)), o, v);
    }
  }

  /** A sweep changes the source only of videos that come from a node that has been silent for more than three
      seconds. */
  lemma SweepMovesOnlyFromTheSilent(s: Client, now: nat, o: Orders, v: VideoId)
    requires v in s.playing
    requires match s.playing[v].source
      case Some(a) => a in s.nodes && s.nodes[a].status.Connected? && now <= s.nodes[a].lastAnswer.value + 3_000_000_000
      case None => true
    ensures var s' := CheckNodes(s, now, o);
      v in s'.playing && s'.playing[v] == s.playing[v]
  {
    BurySpares(s, SilentNodes(s, NodesOrder(s, o), now), o, v);
  }

  // ----- what the player is given

  /** The packets of the video that arrive, from whatever node. */
  function Received(es: seq<Event>, v: VideoId): seq<VideoPacket> {
    if es == [] then [] else
      var rest := Received(Front(es), v);
      if Last(es).Video? && Last(es).packet.stream == v then rest + [Last(es).packet] else rest
  }

  function DataOf(ps: seq<VideoPacket>): (r: seq<seq<bv8>>)
    ensures |r| == |ps| && forall i :: 0 <= i < |r| ==> r[i] == ps[i].data
  {
    seq(|ps|, i requires 0 <= i < |ps| => ps[i].data)
  }

  function Volume(chunks: seq<seq<bv8>>): nat {
    if chunks == [] then 0 else Volume(Front(chunks)) + |Last(chunks)|
  }

  lemma VolumeSnoc(chunks: seq<seq<bv8>>, c: seq<bv8>)
    ensures Volume(chunks + [c]) == Volume(chunks) + |c|
  {
    assert Front(chunks + [c]) == chunks;
  }

  /** From now on the user neither starts nor stops the video, and the player takes all its data. */
  ghost predicate Undisturbed(es: seq<Event>, v: VideoId) {
    forall e :: e in es ==>
      match e
      case Start(u, _, _) => u != v
      case Stop(u) => u != v
      case Video(_, p, written) => p.stream != v || written
      case _ => true
  }

  lemma StepPlays(s: Client, e: Event, v: VideoId)
    requires v in s.playing && Undisturbed([e], v)
    ensures v in Apply(s, e).playing
    ensures var was, now := s.playing[v], Apply(s, e).playing[v];
      if e.Video? && e.packet.stream == v then
        && now.written == was.written + [e.packet.data] && now.bytes == was.bytes + |e.packet.data|
        && now.lastSequence == e.packet.sequence
      else now == was.(source := now.source)
  {
    assert e in [e];
    match e
    case Answer(from, ping, videos, now, o) => AnswerPlays(s, from, ping, videos, now, o, v);
    case Sweep(now, o) => BuryPlays(s, SilentNodes(s, NodesOrder(s, o), now), o, v);
    case _ =>
  }

  /** Only the source of a playing video may differ. */
  predicate SamePlayer(s: Client, s': Client, v: VideoId)
    requires v in s.playing
  {
    v in s'.playing && s'.playing[v] == s.playing[v].(source := s'.playing[v].source)
  }

  lemma {:induction false} ReselectAllPlays(s: Client, us: seq<VideoId>, o: Orders, v: VideoId)
    requires v in s.playing && forall u :: u in us ==> u in s.playing
    ensures SamePlayer(s, ReselectAll(s, us, o), v)
  {
    if us == [] {
    } else {
      ReselectAllPlays(s, Front(us), o, v);
    }
  }

  lemma AnswerPlays(s: Client, from: Addr, ping: nat, vs: seq<Common.Video>, now: nat, o: Orders, v: VideoId)
    requires v in s.playing
    ensures SamePlayer(s, HandlePingAnswer(s, from, ping, vs, now, o), v)
  {
    if ping in s.pings.pending {
      var s2 := s.(names := LearnNames(s.names, vs), pings := s.pings.(pending := s.pings.pending - {ping}));
      var s3 := RegisterAnswer(s2, from, Elapsed(s.pings.pending[ping].1, now), Ids(vs), now);
      ReselectAllPlays(s3, Waiting(s3, PlayingOrder(s3, o), Ids(vs)), o, v);
    }
  }

  lemma {:induction false} BuryPlays(s: Client, dead: seq<Addr>, o: Orders, v: VideoId)
    requires v in s.playing && forall a :: a in dead ==> a in s.nodes
    ensures SamePlayer(s, Bury(s, dead, o), v)
  {
    if dead == [] {
    } else {
      BuryPlays(s, Front(dead), o, v);
      var s1 := MarkUnresponsive(Bury(s, Front(dead), o), Last(dead));
      ReselectAllPlays(s1, VideosFrom(s1, PlayingOrder(s1, o), Last(dead)), o, v);
    }
  }

  /** Since a time when the video was playing as `was`, the player has been given the data of `ps`. */
  ghost predicate Played(was: Playing, now: Playing, ps: seq<VideoPacket>) {
    && now.written == was.written + DataOf(ps)
    && now.bytes == was.bytes + Volume(DataOf(ps))
    && now.lastSequence == if ps == [] then was.lastSequence else Last(ps).sequence
  }

  lemma PlayedSnoc(was: Playing, now: Playing, next: Playing, ps: seq<VideoPacket>, p: VideoPacket)
    requires Played(was, now, ps) && next.lastSequence == p.sequence
    requires next.written == now.written + [p.data] && next.bytes == now.bytes + |p.data|
    ensures Played(was, next, ps + [p])
  {
    assert DataOf(ps + [p]) == DataOf(ps) + [p.data];
    VolumeSnoc(DataOf(ps), p.data);
  }

  /** Through any number of redirects, the player is given the data of exactly the packets that arrive, in
      their order; the program's count is its volume, and the number recorded is that of the latest. */
  lemma {:induction false} PlayerGetsEverything(s: Client, es: seq<Event>, v: VideoId)
    requires v in s.playing && Undisturbed(es, v)
    ensures v in Run(s, es).playing
    ensures Played(s.playing[v], Run(s, es).playing[v], Received(es, v))
  {
    if es == [] {
      assert s.playing[v].written + DataOf([]) == s.playing[v].written;
    } else {
      assert Last(es) in es;
      PlayerGetsEverything(s, Front(es), v);
      var s1, s2 := Run(s, Front(es)), Run(s, es);
      StepPlays(s1, Last(es), v);
      if Last(es).Video? && Last(es).packet.stream == v {
        PlayedSnoc(s.playing[v], s1.playing[v], s2.playing[v], Received(Front(es), v), Last(es).packet);
      }
    }
  }

  /** From the start of a video, whether it has a source or waits for one, the player is given the data of exactly
      the packets that arrive, in their order. */
  lemma {:induction false} PlayerGetsEverythingFromTheStart(s: Client, v: VideoId, o: Orders, es: seq<Event>)
    requires Undisturbed(es, v)
    ensures var s' := Run(Apply(s, Start(v, true, o)), es);
      && v in s'.playing && s'.playing[v].written == DataOf(Received(es, v))
      && s'.playing[v].bytes == Volume(DataOf(Received(es, v)))
  {
    PlayerGetsEverything(Apply(s, Start(v, true, o)), es, v);
  }
}
