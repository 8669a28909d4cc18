/**
 The overlay node: its state and, as functions on that state, what one run of each
 packet handler and of each periodic task does. Two logs record in order what the node
 has handed to its socket: `relayed` its flood and video packets, `sent` all others. The
 order in which a concurrent map is iterated is arbitrary: handlers that iterate take it
 as a parameter (`Orders`).
 */
module NodeModel {
  import opened Common
  import opened Selection

  datatype RouteStatus = Active | Unresponsive

  datatype NodeType = Parent(parents: seq<Addr>, lastFlood: nat) | Child

  datatype RouteInfo = RouteInfo(
    hops: nat,
    delays: seq<nat>,
    videos: seq<VideoId>,
    status: RouteStatus,
    nodeType: NodeType
  ) {
    predicate Offers(v: VideoId) {
      status.Active? && v in videos
    }
  }

  const NEW_ROUTE := RouteInfo(0, [], [], Active, Child)

  /** An entry of the route table between two handlers: it has had at least one flood packet. */
  type Route = r: RouteInfo | 0 < |r.delays| <= BUFFER && r.nodeType.Parent?
    witness RouteInfo(0, [0], [], Active, Parent([], 0))

  ghost predicate OfferedIn(routes: map<Addr, Route>, v: VideoId) {
    exists a :: a in routes && routes[a].Offers(v)
  }

  /** Iteration orders of the concurrent maps during one handler, as functions of their keys. */
  datatype AnyOrders = Orders(
    available: set<Addr> -> seq<Addr>,
    routes: set<VideoId> -> seq<VideoId>,
    interested: set<VideoId> -> seq<VideoId>,
    names: set<VideoId> -> seq<VideoId>,
    pings: set<Addr> -> seq<Addr>,
    times: set<VideoId> -> seq<VideoId>
  )

  ghost predicate Lawful(o: AnyOrders) {
    && (forall keys :: Enumerates(o.available(keys), keys))
    && (forall keys :: Enumerates(o.routes(keys), keys))
    && (forall keys :: Enumerates(o.interested(keys), keys))
    && (forall keys :: Enumerates(o.names(keys), keys))
    && (forall keys :: Enumerates(o.pings(keys), keys))
    && (forall keys :: Enumerates(o.times(keys), keys))
  }

  ghost const SOME_ORDERS := Orders(
    keys => SomeOrder(keys), keys => SomeOrder(keys), keys => SomeOrder(keys),
    keys => SomeOrder(keys), keys => SomeOrder(keys), keys => SomeOrder(keys))

  type Orders = o: AnyOrders | Lawful(o) ghost witness SOME_ORDERS

  /** The keys of a map in the order in which the handler meets them. */
  function RouteTableOrder(s: Node, o: Orders): (r: seq<Addr>)
    ensures forall a :: a in r <==> a in s.available
  {
    Members(o.available(s.available.Keys), s.available.Keys);
    o.available(s.available.Keys)
  }

  function RoutedOrder(s: Node, o: Orders): (r: seq<VideoId>)
    ensures forall v :: v in r <==> v in s.routes
  {
    Members(o.routes(s.routes.Keys), s.routes.Keys);
    o.routes(s.routes.Keys)
  }

  function InterestedOrder(s: Node, o: Orders): (r: seq<VideoId>)
    ensures NoDuplicates(r) && forall v :: v in r <==> v in s.interested
  {
    Members(o.interested(s.interested.Keys), s.interested.Keys);
    Once(o.interested(s.interested.Keys), s.interested.Keys);
    o.interested(s.interested.Keys)
  }

  function NamesOrder(s: Node, o: Orders): (r: seq<VideoId>)
    ensures forall v :: v in r <==> v in s.names
  {
    Members(o.names(s.names.Keys), s.names.Keys);
    o.names(s.names.Keys)
  }

  function PingsOrder(s: Node, o: Orders): (r: seq<Addr>)
    ensures forall a :: a in r <==> a in s.lastPings
  {
    Members(o.pings(s.lastPings.Keys), s.lastPings.Keys);
    o.pings(s.lastPings.Keys)
  }

  function TimesOrder(s: Node, o: Orders): (r: seq<VideoId>)
    ensures NoDuplicates(r) && forall v :: v in r <==> v in s.lastVideoTime
  {
    Members(o.times(s.lastVideoTime.Keys), s.lastVideoTime.Keys);
    Once(o.times(s.lastVideoTime.Keys), s.lastVideoTime.Keys);
    o.times(s.lastVideoTime.Keys)
  }

  datatype Self = Self(id: nat, addr: Addr)

  /** What the node knows about the overlay. */
  datatype Overlay = Overlay(
    neighbours: seq<Ip>,
    names: map<VideoId, string>,
    available: map<Addr, Route>
  )

  /** Who watches which video, where it comes from, and what is waiting for an upstream. */
  datatype Streams = Streams(
    interested: map<VideoId, Subscribers>,
    routes: map<VideoId, Addr>,
    pending: seq<VideoId>
  )

  /** The latest packet of each video. */
  datatype Feed = Feed(lastSequence: map<VideoId, nat>, lastVideoTime: map<VideoId, nat>)

  datatype Node = Node(
    self: Self,
    overlay: Overlay,
    streams: Streams,
    feed: Feed,
    lastPings: map<Addr, nat>,
    sent: seq<Envelope>,
    relayed: seq<Envelope>
  ) {
    const id := self.id
    const addr := self.addr
    const neighbours := overlay.neighbours
    const names := overlay.names
    const available := overlay.available
    const interested := streams.interested
    const routes := streams.routes
    const pending := streams.pending
    const lastSequence := feed.lastSequence
    const lastVideoTime := feed.lastVideoTime

    function WithInterested(i: map<VideoId, Subscribers>): Node {
      this.(streams := streams.(interested := i))
    }

    function WithRoutes(r: map<VideoId, Addr>): Node {
      this.(streams := streams.(routes := r))
    }

    function WithPending(q: seq<VideoId>): Node {
      this.(streams := streams.(pending := q))
    }

    function SubscribersOf(v: VideoId): Subscribers {
      if v in interested then interested[v] else []
    }

    predicate OffersVia(a: Addr, v: VideoId) {
      a in available && available[a].Offers(v)
    }

    /** Some responsive neighbour advertises the video. */
    ghost predicate Offered(v: VideoId) {
      OfferedIn(available, v)
    }

    /** The video comes from a neighbour that is considered responsive. */
    predicate LiveRoute(v: VideoId) {
      v in routes && routes[v] in available && available[routes[v]].status.Active?
    }

    predicate RoutesTo(v: VideoId, a: Addr) {
      v in routes && routes[v] == a
    }
  }

  /** Who the node is, whom it knows and what it has received are the same, and only
      control packets have been sent. */
  ghost predicate SameOverlay(s: Node, s': Node) {
    && s'.self == s.self && s'.overlay == s.overlay && s'.feed == s.feed
    && s'.lastPings == s.lastPings && s'.relayed == s.relayed
  }

  function NewNode(id: nat, addr: Addr, neighbours: seq<Ip>): Node {
    Node(Self(id, addr), Overlay(neighbours, map[], map[]), Streams(map[], map[], []), Feed(map[], map[]),
         map[], [], [])
  }

  // ----- selection of an upstream

  function RequestedVia(s: Node, a: Addr): nat {
    |set v | v in s.routes && s.routes[v] == a|
  }

  function RatingOf(s: Node, a: Addr): Rating
    requires a in s.available
  {
    var r := s.available[a];
    Rating(Average(r.delays), Key(r.hops, RequestedVia(s, a), |r.videos|))
  }

  /** Who is eligible: the responsive neighbours that advertise the video. */
  function Offers(s: Node, v: VideoId): map<Addr, Rating> {
    map a | a in s.available && s.available[a].Offers(v) :: RatingOf(s, a)
  }

  /** `get_best_node_to_redirect` */
  function BestNode(s: Node, v: VideoId, o: Orders): (r: Option<Addr>)
    ensures r.None? <==> !s.Offered(v)
    ensures r.Some? ==> s.OffersVia(r.value, v)
  {
    BestNodeOffers(s, v, o);
    Select(Offers(s, v), RouteTableOrder(s, o))
  }

  lemma BestNodeOffers(s: Node, v: VideoId, o: Orders)
    ensures var r := Select(Offers(s, v), RouteTableOrder(s, o));
      (r.None? <==> !s.Offered(v)) && (r.Some? ==> s.OffersVia(r.value, v))
  {
    SelectIsBest(Offers(s, v), RouteTableOrder(s, o));
    if a :| a in s.available && s.available[a].Offers(v) {
      assert a in Offers(s, v);
    }
  }

  // ----- what the node tells others

  /** Some responsive neighbour other than `to` offers the video. */
  predicate CanRelay(table: map<Addr, Route>, to: Addr, v: VideoId) {
    exists a :: a in table && a != to && table[a].Offers(v)
  }

  function VideosFor(names: map<VideoId, string>, table: map<Addr, Route>, to: Addr,
                     order: seq<VideoId>): (r: seq<Video>)
    requires forall v :: v in order ==> v in names
    ensures forall x :: x in r <==> x.0 in order && x.1 == names[x.0] && CanRelay(table, to, x.0)
  {
    if order == [] then [] else
      var rest := VideosFor(names, table, to, Front(order));
      if CanRelay(table, to, Last(order)) then rest + [(Last(order), names[Last(order)])] else rest
  }

  /** `get_videos`: what may be advertised to `to`. */
  function GetVideos(s: Node, to: Addr, o: Orders): (r: seq<Video>)
    ensures forall x :: x in r <==> x.0 in s.names && x.1 == s.names[x.0] && CanRelay(s.available, to, x.0)
  {
    VideosFor(s.names, s.available, to, NamesOrder(s, o))
  }

  /** `get_parents`: every known route, because every one has had a flood packet. */
  function GetParents(s: Node, o: Orders): seq<Addr> {
    RouteTableOrder(s, o)
  }

  // ----- video requests

  function Send(s: Node, e: Envelope): Node {
    s.(sent := s.sent + [e])
  }

  function RequestVideoToNode(s: Node, v: VideoId, n: Addr): (r: Node)
    ensures SameOverlay(s, r)
  {
    Send(s, Reliable(n, RequestVideo(v))).WithRoutes(s.routes[v := n])
  }

  function Subscribe(s: Node, v: VideoId, a: Addr): (r: Node)
    ensures SameOverlay(s, r)
  {
    s.WithInterested(s.interested[v := AddSubscriber(s.SubscribersOf(v), a)])
  }

  function HandleRequestVideo(s: Node, v: VideoId, a: Addr, o: Orders): (r: Node)
    ensures SameOverlay(s, r)
  {
    var s1 := Subscribe(s, v, a);
    if v in s1.routes then s1 else SelectUpstream(s1, v, o)
  }

  function SelectUpstream(s: Node, v: VideoId, o: Orders): (r: Node)
    ensures SameOverlay(s, r)
  {
    match BestNode(s, v, o)
    case Some(n) => RequestVideoToNode(s, v, n)
    case None => s.WithPending(s.pending + [v])
  }

  function Unsubscribe(s: Node, v: VideoId, a: Addr): (r: Node)
    ensures SameOverlay(s, r)
  {
    if v in s.interested then s.WithInterested(s.interested[v := Without(s.interested[v], a)]) else s
  }

  function DropRoute(s: Node, v: VideoId): (r: Node)
    requires v in s.routes
    ensures SameOverlay(s, r)
  {
    Send(s, Reliable(s.routes[v], StopVideo(v))).WithRoutes(s.routes - {v})
  }

  function HandleStopVideo(s: Node, v: VideoId, a: Addr): (r: Node)
    ensures SameOverlay(s, r) && r.pending == s.pending
  {
    var s1 := Unsubscribe(s, v, a);
    if s1.SubscribersOf(v) == [] && v in s1.routes then DropRoute(s1, v) else s1
  }

  function StopAll(s: Node, vs: seq<VideoId>, a: Addr): (r: Node)
    ensures SameOverlay(s, r) && r.pending == s.pending
  {
    if vs == [] then s else HandleStopVideo(StopAll(s, Front(vs), a), Last(vs), a)
  }

  // ----- client pings

  function RequestUnrouted(s: Node, vs: seq<VideoId>, a: Addr, o: Orders): (r: Node)
    ensures SameOverlay(s, r)
  {
    if vs == [] then s else
      var s1 := RequestUnrouted(s, Front(vs), a, o);
      if Last(vs) in s1.routes then s1 else HandleRequestVideo(s1, Last(vs), a, o)
  }

  function StopUnwanted(s: Node, order: seq<VideoId>, wanted: seq<VideoId>, a: Addr): (r: Node)
    ensures SameOverlay(s, r) && r.pending == s.pending
  {
    if order == [] then s else
      var s1 := StopUnwanted(s, Front(order), wanted, a);
      var v := Last(order);
      if v !in wanted && a in s1.SubscribersOf(v) then HandleStopVideo(s1, v, a) else s1
  }

  function HandleClientPing(s: Node, ping: nat, requested: seq<VideoId>, a: Addr, now: nat, o: Orders): (r: Node)
    ensures SameOverlay(s.(lastPings := s.lastPings[a := now]), r)
  {
    var answer := VideoList(ping, GetVideos(s, a, o), now);
    var s1 := s.(lastPings := s.lastPings[a := now]);
    var s2 := RequestUnrouted(s1, requested, a, o);
    var s3 := StopUnwanted(s2, InterestedOrder(s2, o), requested, a);
    Send(s3, Reliable(a, answer))
  }

  // ----- flood packets

  function UpdateFromFlood(r: RouteInfo, p: FloodPacket, now: nat): (r': RouteInfo)
    requires |r.delays| <= BUFFER
    ensures 0 < |r'.delays| <= BUFFER && r'.nodeType.Parent?
  {
    RouteInfo(p.Hops(), Push(r.delays, Elapsed(p.created, now)), Ids(p.videos), Active, Parent(p.parents, now))
  }

  function LearnNames(names: map<VideoId, string>, vs: seq<Video>): (r: map<VideoId, string>)
    ensures r.Keys == names.Keys + set x | x in Ids(vs)
    ensures forall v :: v in r ==> (v, r[v]) in vs || (v in names && r[v] == names[v])
  {
    if vs == [] then names else
      var rest := LearnNames(names, Front(vs));
      assert Ids(vs) == Ids(Front(vs)) + [Last(vs).0];
      rest[Last(vs).0 := Last(vs).1]
  }

  function RecordFlood(s: Node, from: Addr, p: FloodPacket, now: nat): Node {
    var entry := if from in s.available then s.available[from] else NEW_ROUTE;
    s.(overlay := s.overlay.(
         names := LearnNames(s.names, p.videos),
         available := s.available[from := UpdateFromFlood(entry, p, now)]))
  }

  /** The queued videos, repetitions included, that are among `ids`. */
  function Queued(pending: seq<VideoId>, ids: seq<VideoId>): (r: seq<VideoId>)
    ensures forall v :: v in r <==> v in pending && v in ids
  {
    if pending == [] then [] else
      var rest := Queued(Front(pending), ids);
      if Last(pending) in ids then rest + [Last(pending)] else rest
  }

  function RequestAll(s: Node, vs: seq<VideoId>, n: Addr): (r: Node)
    ensures SameOverlay(s, r) && r.pending == s.pending && r.interested == s.interested
  {
    if vs == [] then s else RequestVideoToNode(RequestAll(s, Front(vs), n), Last(vs), n)
  }

  function CheckPendingVideos(s: Node, from: Addr, vs: seq<Video>): Node {
    var ready := Queued(s.pending, Ids(vs));
    var s1 := RequestAll(s, ready, from);
    s1.WithPending(WithoutAll(s1.pending, ready))
  }

  function FloodTo(s: Node, to: Addr, p: FloodPacket, o: Orders): Envelope {
    Reliable(to, Flood(FloodPacket(p.created, GetVideos(s, to, o), p.visited + [s.id], GetParents(s, o))))
  }

  /** The copies of a flood packet for the neighbours, except the one it came from. */
  function Broadcast(s: Node, neighbours: seq<Ip>, from: Addr, p: FloodPacket, o: Orders): (r: seq<Envelope>)
    ensures forall e :: e in r <==> exists ip :: ip in neighbours && At(ip) != from && e == FloodTo(s, At(ip), p, o)
    ensures |r| <= |neighbours|
  {
    if neighbours == [] then [] else
      var rest := Broadcast(s, Front(neighbours), from, p, o);
      var to := At(Last(neighbours));
      if to == from then rest else rest + [FloodTo(s, to, p, o)]
  }

  function Addresses(ips: seq<Ip>): (r: seq<Addr>)
    ensures |r| == |ips| && forall i :: 0 <= i < |r| ==> r[i] == At(ips[i])
  {
    seq(|ips|, i requires 0 <= i < |ips| => At(ips[i]))
  }

  /** One copy for each occurrence of a neighbour in the list, in its order, leaving out the sender. */
  lemma {:induction false} BroadcastInOrder(s: Node, neighbours: seq<Ip>, from: Addr, p: FloodPacket, o: Orders)
    ensures var targets := Without(Addresses(neighbours), from);
      && |Broadcast(s, neighbours, from, p, o)| == |targets|
      && forall i :: 0 <= i < |targets| ==> Broadcast(s, neighbours, from, p, o)[i] == FloodTo(s, targets[i], p, o)
  {
    if neighbours == [] {
    } else {
      BroadcastInOrder(s, Front(neighbours), from, p, o);
      WithoutLast(neighbours, from);
    }
  }

  lemma WithoutLast(ips: seq<Ip>, from: Addr)
    requires ips != []
    ensures Without(Addresses(ips), from) ==
      Without(Addresses(Front(ips)), from) + if At(Last(ips)) == from then [] else [At(Last(ips))]
  {
    assert Front(Addresses(ips)) == Addresses(Front(ips));
  }

  function HandleFloodPacket(s: Node, from: Addr, p: FloodPacket, now: nat, o: Orders): Node {
    if s.id in p.visited then s else
      var s1 := CheckPendingVideos(RecordFlood(s, from, p, now), from, p.videos);
      s1.(relayed := s1.relayed + Broadcast(s1, s1.neighbours, from, p, o))
  }

  // ----- failures

  function VideosFrom(s: Node, a: Addr, order: seq<VideoId>): (r: seq<VideoId>)
    ensures forall v :: v in r <==> v in order && s.RoutesTo(v, a)
  {
    if order == [] then [] else
      var rest := VideosFrom(s, a, Front(order));
      if s.RoutesTo(Last(order), a) then rest + [Last(order)] else rest
  }

  function VideosTo(s: Node, a: Addr, order: seq<VideoId>): (r: seq<VideoId>)
    ensures forall v :: v in r <==> v in order && a in s.SubscribersOf(v)
  {
    if order == [] then [] else
      var rest := VideosTo(s, a, Front(order));
      if a in s.SubscribersOf(Last(order)) then rest + [Last(order)] else rest
  }

  /** The videos that come from `a`. */
  function Receiving(s: Node, a: Addr, o: Orders): (r: seq<VideoId>)
    ensures forall v :: v in r <==> s.RoutesTo(v, a)
  {
    VideosFrom(s, a, RoutedOrder(s, o))
  }

  /** The videos that go to `a`. */
  function Sending(s: Node, a: Addr, o: Orders): (r: seq<VideoId>)
    ensures forall v :: v in r <==> a in s.SubscribersOf(v)
  {
    VideosTo(s, a, InterestedOrder(s, o))
  }

  /** Moves each video to another upstream; the second result lists those for which there is none. */
  function Redirect(s: Node, vs: seq<VideoId>, o: Orders): (r: (Node, seq<VideoId>))
    ensures SameOverlay(s, r.0) && r.0.pending == s.pending && r.0.interested == s.interested
  {
    if vs == [] then (s, []) else
      var (s1, remaining) := Redirect(s, Front(vs), o);
      match BestNode(s1, Last(vs), o)
      case Some(n) => (RequestVideoToNode(s1, Last(vs), n), remaining)
      case None => (s1, remaining + [Last(vs)])
  }

  /** One `NewNeighbour` for each of the grandparents other than the node itself. */
  function Introductions(me: Addr, parents: seq<Addr>): (r: seq<Envelope>)
    ensures forall e :: e in r ==> e.body == NewNeighbour && e.to in parents && e.to != me
  {
    if parents == [] then [] else
      var rest := Introductions(me, Front(parents));
      if Last(parents) == me then rest else rest + [Reliable(Last(parents), NewNeighbour)]
  }

  function ParentsOf(s: Node, a: Addr): seq<Addr> {
    if a in s.available then s.available[a].nodeType.parents else []
  }

  /** Videos without a new upstream are queued, and the parents of the dead neighbour are approached. */
  function QueueRemaining(s: Node, a: Addr, remaining: seq<VideoId>): (r: Node)
    ensures SameOverlay(s, r)
  {
    var messages := if remaining == [] then [] else Introductions(s.addr, ParentsOf(s, a));
    s.(sent := s.sent + messages).WithPending(s.pending + remaining)
  }

  function HandleUnresponsiveNode(s: Node, a: Addr, o: Orders): (r: Node)
    ensures SameOverlay(s, r)
  {
    var receiving := Receiving(s, a, o);
    var sending := Sending(s, a, o);
    var (s1, remaining) := Redirect(StopAll(s, sending, a), receiving, o);
    QueueRemaining(s1, a, remaining)
  }

  function MarkUnresponsive(s: Node, a: Addr): Node
    requires a in s.available
  {
    s.(overlay := s.overlay.(available := s.available[a := s.available[a].(status := Unresponsive)]))
  }

  /** `handle_send_flood_packet_result`, when the packet was not acknowledged. */
  function HandleFloodUnacknowledged(s: Node, target: Addr, o: Orders): Node {
    if target in s.available && s.available[target].status.Active? then
      HandleUnresponsiveNode(MarkUnresponsive(s, target), target, o)
    else s
  }

  predicate Stale(r: Route, now: nat) {
    r.status.Active? && Elapsed(r.nodeType.lastFlood, now) > 3 * FLOOD_PACKET_INTERVAL
  }

  function StaleParents(s: Node, order: seq<Addr>, now: nat): (r: seq<Addr>)
    requires forall a :: a in order ==> a in s.available
    ensures forall a :: a in r <==> a in order && Stale(s.available[a], now)
  {
    if order == [] then [] else
      var rest := StaleParents(s, Front(order), now);
      if Stale(s.available[Last(order)], now) then rest + [Last(order)] else rest
  }

  function Bury(s: Node, dead: seq<Addr>, o: Orders): (r: Node)
    requires forall a :: a in dead ==> a in s.available
    ensures r.available.Keys == s.available.Keys
    ensures r.self == s.self && r.names == s.names && r.neighbours == s.neighbours
    ensures r.feed == s.feed && r.lastPings == s.lastPings && r.relayed == s.relayed
  {
    if dead == [] then s else
      var s1 := Bury(s, Front(dead), o);
      var s2 := MarkUnresponsive(s1, Last(dead));
      HandleUnresponsiveNode(s2, Last(dead), o)
  }

  /** One round of `run_check_neighbours_task`. */
  function CheckNeighbours(s: Node, now: nat, o: Orders): Node {
    Bury(s, StaleParents(s, RouteTableOrder(s, o), now), o)
  }

  function DropSilentClients(s: Node, order: seq<Addr>, now: nat, o: Orders): (r: Node)
    requires forall a :: a in order ==> a in s.lastPings
    ensures SameOverlay(s, r) && r.pending == s.pending
  {
    if order == [] then s else
      var s1 := DropSilentClients(s, Front(order), now, o);
      if Elapsed(s.lastPings[Last(order)], now) > 3 * CLIENT_PING_INTERVAL
      then StopAll(s1, Sending(s1, Last(order), o), Last(order))
      else s1
  }

  /** One round of `run_client_health_check_task`. */
  function CheckClients(s: Node, now: nat, o: Orders): Node {
    DropSilentClients(s, PingsOrder(s, o), now, o)
  }

  function RequestAgain(s: Node, order: seq<VideoId>, now: nat): (r: Node)
    requires forall v :: v in order ==> v in s.lastVideoTime
    ensures SameOverlay(s, r) && r.pending == s.pending
  {
    if order == [] then s else
      var s1 := RequestAgain(s, Front(order), now);
      var v := Last(order);
      if Elapsed(s.lastVideoTime[v], now) > VIDEO_PACKET_MAX_DELAY && v in s1.routes
      then RequestVideoToNode(s1, v, s1.routes[v])
      else s1
  }

  /** One round of `run_video_health_check_task`. */
  function CheckVideos(s: Node, now: nat, o: Orders): Node {
    RequestAgain(s, TimesOrder(s, o), now)
  }

  // ----- neighbours and video packets

  function RegisterNewNeighbour(s: Node, ip: Ip): Node {
    s.(overlay := s.overlay.(neighbours := s.neighbours + [ip]))
  }

  /** A packet is passed on unless its number jumps ahead of the previous one. */
  predicate InOrder(s: Node, p: VideoPacket) {
    p.stream !in s.lastSequence || p.sequence <= s.lastSequence[p.stream] + 1
  }

  function HandleVideoPacket(s: Node, p: VideoPacket, now: nat): Node {
    var s1 := s.(feed := Feed(s.lastSequence[p.stream := p.sequence], s.lastVideoTime[p.stream := now]));
    if InOrder(s, p) then s1.(relayed := s1.relayed + PlainTo(s1.SubscribersOf(p.stream), VideoData(p))) else s1
  }

  // ----- events

  /** Everything that can happen to a node; each is one atomic step. */
  datatype Event =
    | Received(packet: Packet, from: Addr, now: nat, o: Orders)
    | FloodUnacknowledged(target: Addr, o: Orders)
    | ParentAcknowledged(parent: Addr)
    | NeighbourRound(now: nat, o: Orders)
    | ClientRound(now: nat, o: Orders)
    | VideoRound(now: nat, o: Orders)

  /** `handle_packet`; a packet meant for a client is refused. */
  function HandlePacket(s: Node, p: Packet, from: Addr, now: nat, o: Orders): Node {
    match p
    case ClientPing(ping, requested) => HandleClientPing(s, ping, requested, from, now, o)
    case Flood(flood) => HandleFloodPacket(s, from, flood, now, o)
    case NewNeighbour => RegisterNewNeighbour(s, from.ip)
    case RequestVideo(v) => HandleRequestVideo(s, v, from, o)
    case StopVideo(v) => HandleStopVideo(s, v, from)
    case VideoData(video) => HandleVideoPacket(s, video, now)
    case VideoList(_, _, _) => s
  }

  function Apply(s: Node, e: Event): Node {
    match e
    case Received(p, from, now, o) => HandlePacket(s, p, from, now, o)
    case FloodUnacknowledged(target, o) => HandleFloodUnacknowledged(s, target, o)
    case ParentAcknowledged(parent) => RegisterNewNeighbour(s, parent.ip)
    case NeighbourRound(now, o) => CheckNeighbours(s, now, o)
    case ClientRound(now, o) => CheckClients(s, now, o)
    case VideoRound(now, o) => CheckVideos(s, now, o)
  }

  function Run(s: Node, es: seq<Event>): Node {
    if es == [] then s else Apply(Run(s, Front(es)), Last(es))
  }
}
