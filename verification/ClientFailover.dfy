/**
 Client failover: in every state a client can reach, a playing video has a connected
 source that has been asked for it, or waits because no connected node advertises it.
 The invariant is stated for one arbitrary video `v`.
 */
module ClientFailover {
  import opened Common
  import opened ClientModel
  import opened ControlLog

  ghost predicate Served(s: Client, v: VideoId)
    requires v in s.playing
  {
    match s.playing[v].source
    case Some(a) => a in s.nodes && s.nodes[a].status.Connected? && Asked(s.sent, a, v)
    case None => !s.Offered(v)
  }

  ghost predicate Safe(s: Client, v: VideoId) {
    v in s.playing ==> Served(s, v)
  }

  // ----- selecting a source

  lemma AskServes(s: Client, u: VideoId, o: Orders, v: VideoId)
    ensures var (s1, source) := Ask(s, u, o);
      && (Safe(s, v) ==> Safe(s1, v))
      && (source.None? ==> !s1.Offered(u))
      && (source.Some? ==> s1.OffersVia(source.value, u) && Asked(s1.sent, source.value, u))
  {
    match BestNode(s, u, o)
    case Some(b) =>
      AskedSnoc(s.sent, b, RequestVideo(u), b, u);
      if v in s.playing && s.playing[v].source.Some? {
        AskedSnoc(s.sent, b, RequestVideo(u), s.playing[v].source.value, v);
      }
    case None =>
  }

  lemma StartKeeps(s: Client, u: VideoId, launched: bool, o: Orders, v: VideoId)
    requires Safe(s, v)
    ensures Safe(StartPlaying(s, u, launched, o), v)
  {
    AskServes(s, u, o, v);
  }

  lemma ReselectKeeps(s: Client, u: VideoId, o: Orders, v: VideoId)
    requires u in s.playing && (v == u || Safe(s, v))
    ensures Safe(Reselect(s, u, o), v)
  {
    AskServes(s, u, o, v);
  }

  lemma {:induction false} ReselectAllServes(s: Client, us: seq<VideoId>, o: Orders, v: VideoId)
    requires forall u :: u in us ==> u in s.playing
    requires v in us || Safe(s, v)
    ensures Safe(ReselectAll(s, us, o), v)
  {
    if us == [] {
    } else {
      var s1 := ReselectAll(s, Front(us), o);
      if v in Front(us) || Safe(s, v) {
        ReselectAllServes(s, Front(us), o, v);
      }
      ReselectKeeps(s1, Last(us), o, v);
    }
  }

  // ----- stops, answers and video packets

  lemma RemoveKeeps(s: Client, u: VideoId, to: Addr, v: VideoId)
    requires Safe(s, v)
    ensures Safe(s.(playing := s.playing - {u}).Send(Reliable(to, StopVideo(u))), v)
  {
    if v in s.playing && s.playing[v].source.Some? {
      AskedSnoc(s.sent, to, StopVideo(u), s.playing[v].source.value, v);
    }
  }

  /** An answer can only offer the videos it lists. */
  lemma AnswerOffers(s: Client, from: Addr, rtt: nat, videos: seq<VideoId>, now: nat, v: VideoId)
    requires Safe(s, v)
    ensures var s' := RegisterAnswer(s, from, rtt, videos, now);
      Safe(s', v) || (s'.Waits(v) && v in videos)
  {
    var s' := RegisterAnswer(s, from, rtt, videos, now);
    if a :| a in s'.nodes && s'.nodes[a].Offers(v) && a != from {
      assert a in s.nodes && s.nodes[a].Offers(v);
    }
  }

  lemma AnswerKeeps(s: Client, from: Addr, ping: nat, vs: seq<Common.Video>, now: nat, o: Orders, v: VideoId)
    requires Safe(s, v)
    ensures Safe(HandlePingAnswer(s, from, ping, vs, now, o), v)
  {
    if ping in s.pings.pending {
      var s2 := s.(names := LearnNames(s.names, vs), pings := s.pings.(pending := s.pings.pending - {ping}));
      var rtt := Elapsed(s.pings.pending[ping].1, now);
      AnswerOffers(s2, from, rtt, Ids(vs), now, v);
      var s3 := RegisterAnswer(s2, from, rtt, Ids(vs), now);
      ReselectAllServes(s3, Waiting(s3, PlayingOrder(s3, o), Ids(vs)), o, v);
    }
  }

  // ----- unresponsive nodes

  lemma MarkKeeps(s: Client, a: Addr, v: VideoId)
    requires Safe(s, v) && a in s.nodes
    ensures var s' := MarkUnresponsive(s, a);
      Safe(s', v) || s'.PlaysFrom(v, a)
  {
    var s' := MarkUnresponsive(s, a);
    if b :| b in s'.nodes && s'.nodes[b].Offers(v) {
      assert b in s.nodes && s.nodes[b].Offers(v);
    }
  }

  lemma {:induction false} BuryServes(s: Client, dead: seq<Addr>, o: Orders, v: VideoId)
    requires Safe(s, v) && forall a :: a in dead ==> a in s.nodes
    ensures Safe(Bury(s, dead, o), v)
  {
    if dead == [] {
    } else {
      var s1 := Bury(s, Front(dead), o);
      BuryServes(s, Front(dead), o, v);
      MarkKeeps(s1, Last(dead), v);
      var s2 := MarkUnresponsive(s1, Last(dead));
      ReselectAllServes(s2, VideosFrom(s2, PlayingOrder(s2, o), Last(dead)), o, v);
    }
  }

  lemma {:induction false} BuryMarks(s: Client, dead: seq<Addr>, o: Orders)
    requires forall a :: a in dead ==> a in s.nodes
    ensures forall b :: b in s.nodes ==>
      Bury(s, dead, o).nodes[b] == if b in dead then s.nodes[b].(status := Unresponsive) else s.nodes[b]
  {
    if dead == [] {
    } else {
      BuryMarks(s, Front(dead), o);
    }
  }

  /** However many nodes fall silent in the same round and in whatever order they are handled,
      afterwards exactly those are newly unresponsive that were connected and have not answered for more
      than three seconds, and every playing video has a connected source or none is on offer. */
  lemma MultiNodeSweep(s: Client, now: nat, o: Orders, v: VideoId, a: Addr, s': Client)
    requires Safe(s, v) && a in s.nodes && s' == CheckNodes(s, now, o)
    ensures s'.nodes.Keys == s.nodes.Keys && s'.playing.Keys == s.playing.Keys
    ensures s'.nodes[a] ==
      if s.nodes[a].status.Connected? && now > s.nodes[a].lastAnswer.value + 3_000_000_000
      then s.nodes[a].(status := Unresponsive) else s.nodes[a]
    ensures Safe(s', v)
  {
    var dead := SilentNodes(s, NodesOrder(s, o), now);
    BuryMarks(s, dead, o);
    BuryServes(s, dead, o, v);
  }

  // ----- pings

  lemma {:induction false} PingNodesKeeps(s: Client, order: seq<Addr>, now: nat, o: Orders, v: VideoId)
    requires Safe(s, v)
    ensures Safe(PingNodes(s, order, now, o), v)
  {
    if order == [] {
    } else {
      PingNodesKeeps(s, Front(order), now, o, v);
      var s1 := PingNodes(s, Front(order), now, o);
      if v in s1.playing && s1.playing[v].source.Some? {
        AskedSnoc(s1.sent, Last(order), Last(PingNode(s1, Last(order), now, o).sent).body,
                  s1.playing[v].source.value, v);
      }
    }
  }

  // ----- every run

  lemma StepKeepsSafe(s: Client, e: Event, v: VideoId)
    requires Safe(s, v)
    ensures Safe(Apply(s, e), v)
  {
    match e
    case Start(u, launched, o) => StartKeeps(s, u, launched, o, v);
    case Stop(u) =>
      if u in s.playing && s.playing[u].source.Some? {
        RemoveKeeps(s, u, s.playing[u].source.value, v);
      }
    case Answer(from, ping, videos, now, o) => AnswerKeeps(s, from, ping, videos, now, o, v);
    case Video(from, packet, written) =>
      if packet.stream in s.playing {
        RemoveKeeps(s, packet.stream, from, v);
      }
    case Sweep(now, o) => BuryServes(s, SilentNodes(s, NodesOrder(s, o), now), o, v);
    case Ping(now, o) => PingNodesKeeps(s, NodesOrder(s, o), now, o, v);
  }

  lemma {:induction false} ReachableSafe(servers: set<Ip>, es: seq<Event>, v: VideoId)
    ensures Safe(Run(NewClient(servers), es), v)
  {
    if es == [] {
    } else {
      ReachableSafe(servers, Front(es), v);
      StepKeepsSafe(Run(NewClient(servers), Front(es)), Last(es), v);
    }
  }

  /** In every run: the source of a playing video, if there is one, is a connected node; and if
      there is none, no connected node advertises the video. */
  lemma {:induction false} PlayingVideosAreServedOrNobodyOffers(servers: set<Ip>, es: seq<Event>, s: Client, v: VideoId)
    requires s == Run(NewClient(servers), es) && v in s.playing
    ensures s.playing[v].source.Some? ==>
      s.playing[v].source.value in s.nodes && s.nodes[s.playing[v].source.value].status.Connected?
    ensures s.playing[v].source.None? ==> forall a :: !s.OffersVia(a, v)
  {
    ReachableSafe(servers, es, v);
  }

  /** In every run, of the requests and stops of a playing video that the client has sent to its
      source, the last is a request. */
  lemma {:induction false} SourcesHaveBeenAsked(servers: set<Ip>, es: seq<Event>, v: VideoId, a: Addr)
    requires Run(NewClient(servers), es).PlaysFrom(v, a)
    ensures Asked(Run(NewClient(servers), es).sent, a, v)
  {
    ReachableSafe(servers, es, v);
  }
}
