/**
 The streaming client: the nodes it pings, the videos it plays and where each comes from,
 and, as functions on that state, its reactions to the user, to packets and to its timers.
 `sent` records in order what the client has handed to its socket.
 */
module ClientModel {
  import opened Common
  import opened Selection

  datatype Status = Connecting | Connected | Unresponsive

  datatype PeerInfo = PeerInfo(rtts: seq<nat>, lastAnswer: Option<nat>, status: Status, videos: seq<VideoId>) {
    predicate Offers(v: VideoId) {
      status.Connected? && v in videos
    }
  }

  /** A connected node has answered at least one ping. */
  type Peer = p: PeerInfo | |p.rtts| <= BUFFER && (p.status.Connected? ==> p.rtts != [] && p.lastAnswer.Some?)
    witness PeerInfo([], None, Connecting, [])

  const NEW_PEER: Peer := PeerInfo([], None, Connecting, [])

  /** A video being played; without a source it waits for one. `written` records the pieces of data that
      the player has been given, `bytes` is the program's own count. */
  datatype Playing = Playing(source: Option<Addr>, lastSequence: nat, bytes: nat, written: seq<seq<bv8>>)

  datatype Pings = Pings(pending: map<nat, (Addr, nat)>, next: nat)

  datatype Client = Client(
    nodes: map<Addr, Peer>,
    pings: Pings,
    names: map<VideoId, string>,
    playing: map<VideoId, Playing>,
    sent: seq<Envelope>
  ) {
    predicate OffersVia(a: Addr, v: VideoId) {
      a in nodes && nodes[a].Offers(v)
    }

    /** Some connected node advertises the video. */
    ghost predicate Offered(v: VideoId) {
      exists a :: a in nodes && nodes[a].Offers(v)
    }

    predicate PlaysFrom(v: VideoId, a: Addr) {
      v in playing && playing[v].source == Some(a)
    }

    predicate Waits(v: VideoId) {
      v in playing && playing[v].source.None?
    }

    function Send(e: Envelope): Client {
      this.(sent := sent + [e])
    }
  }

  function NewClient(servers: set<Ip>): Client {
    Client(map ip | ip in servers :: At(ip) := NEW_PEER, Pings(map[], 0), map[], map[], [])
  }

  // ----- iteration order of the maps

  datatype AnyOrders = Orders(nodes: set<Addr> -> seq<Addr>, playing: set<VideoId> -> seq<VideoId>)

  ghost predicate Lawful(o: AnyOrders) {
    && (forall keys :: Enumerates(o.nodes(keys), keys))
    && (forall keys :: Enumerates(o.playing(keys), keys))
  }

  ghost const SOME_ORDERS := Orders(keys => SomeOrder(keys), keys => SomeOrder(keys))

  type Orders = o: AnyOrders | Lawful(o) ghost witness SOME_ORDERS

  function NodesOrder(s: Client, o: Orders): (r: seq<Addr>)
    ensures NoDuplicates(r) && forall a :: a in r <==> a in s.nodes
  {
    Members(o.nodes(s.nodes.Keys), s.nodes.Keys);
    Once(o.nodes(s.nodes.Keys), s.nodes.Keys);
    o.nodes(s.nodes.Keys)
  }

  function PlayingOrder(s: Client, o: Orders): (r: seq<VideoId>)
    ensures forall v :: v in r <==> v in s.playing
  {
    Members(o.playing(s.playing.Keys), s.playing.Keys);
    o.playing(s.playing.Keys)
  }

  // ----- selection of a source

  function RequestedFrom(s: Client, a: Addr): nat {
    |set v | v in s.playing && s.playing[v].source == Some(a)|
  }

  function RatingOf(s: Client, a: Addr): Rating
    requires a in s.nodes && s.nodes[a].status.Connected?
  {
    var p := s.nodes[a];
    Rating(Average(p.rtts), Key(0, RequestedFrom(s, a), |p.videos|))
  }

  /** Who is eligible: the connected nodes that advertise the video. */
  function Offers(s: Client, v: VideoId): map<Addr, Rating> {
    map a | a in s.nodes && s.nodes[a].Offers(v) :: RatingOf(s, a)
  }

  /** `select_best_node` */
  function BestNode(s: Client, v: VideoId, o: Orders): (r: Option<Addr>)
    ensures r.None? <==> !s.Offered(v)
    ensures r.Some? ==> s.OffersVia(r.value, v)
  {
    BestNodeOffers(s, v, o);
    Select(Offers(s, v), NodesOrder(s, o))
  }

  lemma BestNodeOffers(s: Client, v: VideoId, o: Orders)
    ensures var r := Select(Offers(s, v), NodesOrder(s, o));
      (r.None? <==> !s.Offered(v)) && (r.Some? ==> s.OffersVia(r.value, v))
  {
    SelectIsBest(Offers(s, v), NodesOrder(s, o));
    if a :| a in s.nodes && s.nodes[a].Offers(v) {
      assert a in Offers(s, v);
    }
  }

  /** `select_best_server_and_request` */
  function Ask(s: Client, v: VideoId, o: Orders): (r: (Client, Option<Addr>))
    ensures r.0 == s.(sent := r.0.sent)
    ensures r.1 == BestNode(s, v, o)
  {
    match BestNode(s, v, o)
    case Some(a) => (s.Send(Reliable(a, RequestVideo(v))), Some(a))
    case None => (s, None)
  }

  // ----- the user

  function SetPlaying(s: Client, v: VideoId, p: Playing): Client {
    s.(playing := s.playing[v := p])
  }

  /** `ui_start_playing`; the video is played only if the player could be launched. */
  function StartPlaying(s: Client, v: VideoId, launched: bool, o: Orders): Client {
    var (s1, source) := Ask(s, v, o);
    if launched then SetPlaying(s1, v, Playing(source, 0, 0, [])) else s1
  }

  /** `ui_stop_playing_id` */
  function StopPlaying(s: Client, v: VideoId): Client {
    if v !in s.playing then s else
      var s1 := s.(playing := s.playing - {v});
      match s.playing[v].source
      case Some(a) => s1.Send(Reliable(a, StopVideo(v)))
      case None => s1
  }

  // ----- answers to pings

  function LearnNames(names: map<VideoId, string>, vs: seq<Video>): map<VideoId, string> {
    if vs == [] then names else LearnNames(names, Front(vs))[Last(vs).0 := Last(vs).1]
  }

  /** `register_ping_answer` */
  function Answered(p: Peer, rtt: nat, videos: seq<VideoId>, now: nat): Peer {
    PeerInfo(Push(p.rtts, rtt), Some(now), Connected, videos)
  }

  /** Selects a source for the video, anew. */
  function Reselect(s: Client, v: VideoId, o: Orders): Client
    requires v in s.playing
  {
    var (s1, source) := Ask(s, v, o);
    SetPlaying(s1, v, s.playing[v].(source := source))
  }

  function ReselectAll(s: Client, vs: seq<VideoId>, o: Orders): (r: Client)
    requires forall v :: v in vs ==> v in s.playing
    ensures r.playing.Keys == s.playing.Keys && r.nodes == s.nodes
  {
    if vs == [] then s else Reselect(ReselectAll(s, Front(vs), o), Last(vs), o)
  }

  /** The waiting videos, in iteration order, that are among `ids`. */
  function Waiting(s: Client, order: seq<VideoId>, ids: seq<VideoId>): (r: seq<VideoId>)
    ensures forall v :: v in r <==> v in order && s.Waits(v) && v in ids
  {
    if order == [] then [] else
      var rest := Waiting(s, Front(order), ids);
      if s.Waits(Last(order)) && Last(order) in ids then rest + [Last(order)] else rest
  }

  function RegisterAnswer(s: Client, from: Addr, rtt: nat, videos: seq<VideoId>, now: nat): Client {
    if from in s.nodes then s.(nodes := s.nodes[from := Answered(s.nodes[from], rtt, videos, now)]) else s
  }

  /** `handle_ping_answer`; an answer to no pending ping teaches only names. */
  function HandlePingAnswer(s: Client, from: Addr, ping: nat, vs: seq<Video>, now: nat, o: Orders): Client {
    var s1 := s.(names := LearnNames(s.names, vs));
    if ping !in s.pings.pending then s1 else
      var rtt := Elapsed(s.pings.pending[ping].1, now);
      var s2 := s1.(pings := s.pings.(pending := s.pings.pending - {ping}));
      var s3 := RegisterAnswer(s2, from, rtt, Ids(vs), now);
      ReselectAll(s3, Waiting(s3, PlayingOrder(s3, o), Ids(vs)), o)
  }

  // ----- video packets

  /** `handle_video_packet`; when the player refuses the data, the video is stopped. */
  function HandleVideoPacket(s: Client, from: Addr, p: VideoPacket, written: bool): Client {
    if p.stream !in s.playing then s else
      var was := s.playing[p.stream];
      if written then
        SetPlaying(s, p.stream, Playing(was.source, p.sequence, was.bytes + |p.data|, was.written + [p.data]))
      else s.(playing := s.playing - {p.stream}).Send(Reliable(from, StopVideo(p.stream)))
  }

  // ----- timers

  predicate Silent(p: Peer, now: nat) {
    p.status.Connected? && Elapsed(p.lastAnswer.value, now) > 3 * CLIENT_PING_INTERVAL
  }

  function SilentNodes(s: Client, order: seq<Addr>, now: nat): (r: seq<Addr>)
    requires forall a :: a in order ==> a in s.nodes
    ensures forall a :: a in r <==> a in order && Silent(s.nodes[a], now)
  {
    if order == [] then [] else
      var rest := SilentNodes(s, Front(order), now);
      if Silent(s.nodes[Last(order)], now) then rest + [Last(order)] else rest
  }

  function MarkUnresponsive(s: Client, a: Addr): Client
    requires a in s.nodes
  {
    s.(nodes := s.nodes[a := s.nodes[a].(status := Unresponsive)])
  }

  /** The videos, in iteration order, that come from `a`. */
  function VideosFrom(s: Client, order: seq<VideoId>, a: Addr): (r: seq<VideoId>)
    ensures forall v :: v in r <==> v in order && s.PlaysFrom(v, a)
  {
    if order == [] then [] else
      var rest := VideosFrom(s, Front(order), a);
      if s.PlaysFrom(Last(order), a) then rest + [Last(order)] else rest
  }

  function Bury(s: Client, dead: seq<Addr>, o: Orders): (r: Client)
    requires forall a :: a in dead ==> a in s.nodes
    ensures r.playing.Keys == s.playing.Keys && r.nodes.Keys == s.nodes.Keys
  {
    if dead == [] then s else
      var s1 := MarkUnresponsive(Bury(s, Front(dead), o), Last(dead));
      ReselectAll(s1, VideosFrom(s1, PlayingOrder(s1, o), Last(dead)), o)
  }

  /** One round of `handle_unresponsive_pings_nodes_task`. */
  function CheckNodes(s: Client, now: nat, o: Orders): Client {
    Bury(s, SilentNodes(s, NodesOrder(s, o), now), o)
  }

  /** A ping tells the node which videos the client takes from it. */
  function PingNode(s: Client, a: Addr, now: nat, o: Orders): (r: Client)
    ensures r == s.(pings := r.pings, sent := r.sent)
  {
    var n := s.pings.next;
    s.(pings := Pings(s.pings.pending[n := (a, now)], n + 1))
     .Send(Reliable(a, ClientPing(n, VideosFrom(s, PlayingOrder(s, o), a))))
  }

  function PingNodes(s: Client, order: seq<Addr>, now: nat, o: Orders): (r: Client)
    ensures r == s.(pings := r.pings, sent := r.sent)
  {
    if order == [] then s else PingNode(PingNodes(s, Front(order), now, o), Last(order), now, o)
  }

  /** One round of `start_ping_nodes_task`. */
  function PingRound(s: Client, now: nat, o: Orders): Client {
    PingNodes(s, NodesOrder(s, o), now, o)
  }

  // ----- events

  datatype Event =
    | Start(v: VideoId, launched: bool, o: Orders)
    | Stop(v: VideoId)
    | Answer(from: Addr, ping: nat, videos: seq<Video>, now: nat, o: Orders)
    | Video(from: Addr, packet: VideoPacket, written: bool)
    | Sweep(now: nat, o: Orders)
    | Ping(now: nat, o: Orders)

  function Apply(s: Client, e: Event): Client {
    match e
    case Start(v, launched, o) => StartPlaying(s, v, launched, o)
    case Stop(v) => StopPlaying(s, v)
    case Answer(from, ping, videos, now, o) => HandlePingAnswer(s, from, ping, videos, now, o)
    case Video(from, packet, written) => HandleVideoPacket(s, from, packet, written)
    case Sweep(now, o) => CheckNodes(s, now, o)
    case Ping(now, o) => PingRound(s, now, o)
  }

  function Run(s: Client, es: seq<Event>): Client {
    if es == [] then s else Apply(Run(s, Front(es)), Last(es))
  }
}
