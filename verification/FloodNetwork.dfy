/**
 Flooding as a network protocol: servers start rounds, nodes pass flood packets on,
 and the network may lose, copy and reorder packets while neighbour lists grow.
 A node or server is known by its `Ip`, which also serves as its unique identifier.
 */
module FloodNetwork {
  import opened Common
  import opened NodeModel
  import opened ServerModel
  import opened NodeHistory

  datatype InFlight = InFlight(src: Addr, dst: Addr, packet: FloodPacket)

  /** `published` collects every video that a server has ever offered. */
  datatype Net = Net(
    nodes: map<Ip, Node>,
    servers: map<Ip, Server>,
    flight: seq<InFlight>,
    published: set<Video>
  )

  // ----- steps

  /** A node that restarts has lost all its state; the bootstrapper gives it at least the neighbours it had.
      `extra` lists the transmissions that enter the network: any number of copies of the packets sent. */
  datatype NetEvent =
    | Round(server: Ip, order: seq<VideoId>, now: nat, extra: seq<InFlight>)
    | Deliver(i: nat, now: nat, o: Orders, extra: seq<InFlight>)
    | Lose(i: nat)
    | Copy(i: nat)
    | NodeEvent(ip: Ip, e: Event)
    | Restart(ip: Ip, neighbours: seq<Ip>)
    | ServerEvent(ip: Ip, p: Packet, from: Addr)
    | Publish(ip: Ip, v: VideoId, name: string)

  function Launched(src: Addr, es: seq<Envelope>): (r: seq<InFlight>)
    ensures |r| <= |es|
    ensures forall f :: f in r <==>
      f.src == src && (Reliable(f.dst, Flood(f.packet)) in es || Plain(f.dst, Flood(f.packet)) in es)
  {
    if es == [] then [] else
      var rest := Launched(src, Front(es));
      if Last(es).body.Flood? then rest + [InFlight(src, Last(es).to, Last(es).body.flood)] else rest
  }

  /** What a handler has added to a log. */
  function Added(before: seq<Envelope>, after: seq<Envelope>): seq<Envelope> {
    if |before| <= |after| then after[|before|..] else []
  }

  predicate ToNode(n: Net, f: InFlight) {
    f.dst.port == PORT && f.dst.ip in n.nodes
  }

  function Receive(n: Net, f: InFlight, now: nat, o: Orders): Node
    requires ToNode(n, f)
  {
    HandleFloodPacket(n.nodes[f.dst.ip], f.src, f.packet, now, o)
  }

  /** What the receiver of `f` passes on. */
  function PassedOn(n: Net, f: InFlight, now: nat, o: Orders): seq<InFlight>
    requires ToNode(n, f)
  {
    Launched(f.dst, Added(n.nodes[f.dst.ip].relayed, Receive(n, f, now, o).relayed))
  }

  /** The flood packets that are sent in this step. */
  function Sends(n: Net, e: NetEvent): seq<InFlight>
    requires e.Round? ==> e.server in n.servers && Enumerates(e.order, n.servers[e.server].videos.Keys)
    requires e.Deliver? ==> e.i < |n.flight|
  {
    match e
    case Round(server, order, now, _) =>
      var s := n.servers[server];
      Launched(At(server), Added(s.sent, FloodRound(s, order, now).sent))
    case Deliver(i, now, o, _) =>
      if ToNode(n, n.flight[i]) then PassedOn(n, n.flight[i], now, o) else []
    case _ => []
  }

  ghost predicate Enabled(n: Net, e: NetEvent) {
    match e
    case Round(server, order, _, extra) =>
      && server in n.servers && Enumerates(order, n.servers[server].videos.Keys)
      && forall f :: f in extra ==> f in Sends(n, e)
    case Deliver(i, _, _, extra) => i < |n.flight| && forall f :: f in extra ==> f in Sends(n, e)
    case Lose(i) => i < |n.flight|
    case Copy(i) => i < |n.flight|
    case NodeEvent(ip, ev) => ip in n.nodes && !(ev.Received? && ev.packet.Flood?)
    case Restart(ip, neighbours) => ip in n.nodes && forall b :: b in n.nodes[ip].neighbours ==> b in neighbours
    case ServerEvent(ip, p, _) => ip in n.servers
    case Publish(ip, _, _) => ip in n.servers
  }

  function Removed(flight: seq<InFlight>, i: nat): (r: seq<InFlight>)
    requires i < |flight|
    ensures forall f :: f in r ==> f in flight
    ensures forall f :: f in flight && f != flight[i] ==> f in r
    ensures |r| == |flight| - 1
  {
    flight[..i] + flight[i + 1..]
  }

  ghost function Next(n: Net, e: NetEvent): Net
    requires Enabled(n, e)
  {
    match e
    case Round(server, order, now, extra) =>
      n.(servers := n.servers[server := FloodRound(n.servers[server], order, now)], flight := n.flight + extra)
    case Deliver(i, now, o, extra) =>
      var f := n.flight[i];
      var rest := Removed(n.flight, i) + extra;
      if ToNode(n, f) then n.(nodes := n.nodes[f.dst.ip := Receive(n, f, now, o)], flight := rest)
      else n.(flight := rest)
    case Lose(i) => n.(flight := Removed(n.flight, i))
    case Copy(i) => n.(flight := n.flight + [n.flight[i]])
    case NodeEvent(ip, ev) => n.(nodes := n.nodes[ip := Apply(n.nodes[ip], ev)])
    case Restart(ip, neighbours) => n.(nodes := n.nodes[ip := NewNode(ip, At(ip), neighbours)])
    case ServerEvent(ip, p, from) => n.(servers := n.servers[ip := ServerModel.HandlePacket(n.servers[ip], p, from)])
    case Publish(ip, v, name) =>
      n.(servers := n.servers[ip := AddVideo(n.servers[ip], v, name)], published := n.published + {(v, name)})
  }

  ghost predicate Possible(n: Net, es: seq<NetEvent>)
    decreases |es|, 0
  {
    es == [] || (Possible(n, Front(es)) && Enabled(RunNet(n, Front(es)), Last(es)))
  }

  ghost function RunNet(n: Net, es: seq<NetEvent>): Net
    requires Possible(n, es)
    decreases |es|, 1
  {
    if es == [] then n else Next(RunNet(n, Front(es)), Last(es))
  }

  // ----- paths

  /** `a` sends its flood packets to `b`. */
  predicate Edge(n: Net, a: Ip, b: Ip) {
    || (a in n.nodes && b in n.nodes[a].neighbours)
    || (a in n.servers && At(b) in n.servers[a].neighbours)
  }

  /** A simple path from a server through nodes, along edges. */
  predicate Path(n: Net, path: seq<Ip>) {
    path != []
    && if |path| == 1 then path[0] in n.servers
       else
         && Path(n, Front(path))
         && Last(path) in n.nodes && Last(path) !in Front(path)
         && Edge(n, Last(Front(path)), Last(path))
  }

  lemma PathSnoc(n: Net, path: seq<Ip>, x: Ip)
    requires Path(n, path) && x in n.nodes && x !in path && Edge(n, Last(path), x)
    ensures Path(n, path + [x]) && Last(path + [x]) == x
  {
    assert Front(path + [x]) == path;
  }

  /** A path visits nobody twice, and everybody after its first member is a node. */
  lemma {:induction false} PathIsSimple(n: Net, path: seq<Ip>)
    requires Placed(n) && Path(n, path)
    ensures NoDuplicates(path) && forall i :: 0 < i < |path| ==> path[i] in n.nodes
  {
    if |path| == 1 {
    } else {
      PathIsSimple(n, Front(path));
      NoDuplicatesSnoc(Front(path), Last(path));
      assert path == Front(path) + [Last(path)];
    }
  }

  // ----- invariants

  ghost predicate Placed(n: Net) {
    && (forall x :: x in n.nodes ==> n.nodes[x].id == x && n.nodes[x].addr == At(x))
    && (forall x :: x in n.servers ==> n.servers[x].id == x && x !in n.nodes)
  }

  /** The packet has come along a simple path of exactly the identifiers it lists. */
  ghost predicate Travelled(n: Net, f: InFlight) {
    && Path(n, f.packet.visited)
    && f.src == At(Last(f.packet.visited))
    && (f.dst.port == PORT ==> Edge(n, f.src.ip, f.dst.ip))
  }

  /** `x` lists `y` as a parent for a reason: a simple path reaches `y` without `x`, and `y` floods `x`. */
  ghost predicate Reaches(n: Net, path: seq<Ip>, y: Ip, x: Ip) {
    Path(n, path) && Last(path) == y && x !in path && Edge(n, y, x)
  }

  ghost predicate Justified(n: Net, x: Ip, y: Addr, r: Route) {
    y.port == PORT && exists path :: Reaches(n, path, y.ip, x) && |path| == r.hops
  }

  ghost predicate FlightSound(n: Net) {
    forall f :: f in n.flight ==> Travelled(n, f)
  }

  ghost predicate TablesSound(n: Net) {
    forall x, y :: x in n.nodes && y in n.nodes[x].available ==> Justified(n, x, y, n.nodes[x].available[y])
  }

  ghost predicate Provenance(n: Net) {
    && (forall f, v :: f in n.flight && v in f.packet.videos ==> v in n.published)
    && (forall x, v :: x in n.nodes && v in n.nodes[x].names ==> (v, n.nodes[x].names[v]) in n.published)
    && (forall s, v :: s in n.servers && v in n.servers[s].videos ==> (v, n.servers[s].videos[v].name) in n.published)
  }

  ghost predicate Sound(n: Net) {
    Placed(n) && FlightSound(n) && TablesSound(n) && Provenance(n)
  }

  /** Nothing has been received yet. */
  ghost predicate Initial(n: Net) {
    && Placed(n) && n.flight == []
    && (forall x :: x in n.nodes ==> n.nodes[x].available == map[] && n.nodes[x].names == map[])
    && (forall s, v :: s in n.servers && v in n.servers[s].videos ==> (v, n.servers[s].videos[v].name) in n.published)
  }

  /** Members stay, neighbour lists only grow. */
  ghost predicate Grown(n: Net, n': Net) {
    && n'.nodes.Keys == n.nodes.Keys && n'.servers.Keys == n.servers.Keys
    && (forall a, b :: Edge(n, a, b) ==> Edge(n', a, b))
  }

  lemma {:induction false} PathGrows(n: Net, n': Net, path: seq<Ip>)
    requires Grown(n, n') && Path(n, path)
    ensures Path(n', path)
  {
    if |path| == 1 {
    } else {
      PathGrows(n, n', Front(path));
    }
  }

  lemma JustifiedGrows(n: Net, n': Net, x: Ip, y: Addr, r: Route, r': Route)
    requires Grown(n, n') && Justified(n, x, y, r) && r'.hops == r.hops
    ensures Justified(n', x, y, r')
  {
    var path :| Reaches(n, path, y.ip, x) && |path| == r.hops;
    PathGrows(n, n', path);
    assert Reaches(n', path, y.ip, x);
  }

  lemma TravelledGrows(n: Net, n': Net, f: InFlight)
    requires Grown(n, n') && Travelled(n, f)
    ensures Travelled(n', f)
  {
    PathGrows(n, n', f.packet.visited);
  }

  // ----- node steps

  /** Steps other than an accepted flood leave names and identity alone, never drop a neighbour,
      and send no flood packet. */
  lemma OnlyFloodsSpread(s: Node, e: Event)
    requires !(e.Received? && e.packet.Flood?)
    ensures var s' := Apply(s, e);
      && s'.self == s.self && s'.names == s.names && s.neighbours <= s'.neighbours
      && s.relayed <= s'.relayed
      && forall m :: m in Added(s.relayed, s'.relayed) ==> !m.body.Flood?
  {
  }

  /** What a node sends on when it accepts a flood packet. */
  lemma AcceptedFloodSpreads(s: Node, from: Addr, p: FloodPacket, now: nat, o: Orders)
    requires s.id !in p.visited
    ensures var s' := HandleFloodPacket(s, from, p, now, o);
      var s1 := CheckPendingVideos(RecordFlood(s, from, p, now), from, p.videos);
      && s'.self == s.self && s'.overlay == s1.overlay && s'.neighbours == s.neighbours
      && s1.overlay == RecordFlood(s, from, p, now).overlay
      && Added(s.relayed, s'.relayed) == Broadcast(s1, s.neighbours, from, p, o)
  {
  }

  lemma NodeGrows(n: Net, ip: Ip, s': Node, flight: seq<InFlight>)
    requires Placed(n) && ip in n.nodes && s'.self == n.nodes[ip].self
    requires forall b :: b in n.nodes[ip].neighbours ==> b in s'.neighbours
    ensures var n' := n.(nodes := n.nodes[ip := s'], flight := flight);
      Grown(n, n') && Placed(n')
  {
    var n' := n.(nodes := n.nodes[ip := s'], flight := flight);
    forall a, b | Edge(n, a, b)
      ensures Edge(n', a, b)
    {
    }
  }

  lemma ServerGrows(n: Net, ip: Ip, s': Server, flight: seq<InFlight>, published: set<Video>)
    requires Placed(n) && ip in n.servers && s'.id == n.servers[ip].id && n.servers[ip].neighbours <= s'.neighbours
    ensures var n' := n.(servers := n.servers[ip := s'], flight := flight, published := published);
      Grown(n, n') && Placed(n')
  {
    var n' := n.(servers := n.servers[ip := s'], flight := flight, published := published);
    forall a, b | Edge(n, a, b)
      ensures Edge(n', a, b)
    {
      assert At(b) in n.servers[ip].neighbours ==> At(b) in s'.neighbours;
    }
  }

  lemma NextGrown(n: Net, e: NetEvent)
    requires Placed(n) && Enabled(n, e)
    ensures Grown(n, Next(n, e)) && Placed(Next(n, e))
  {
    match e
    case Round(ip, order, now, extra) =>
      ServerGrows(n, ip, FloodRound(n.servers[ip], order, now), n.flight + extra, n.published);
    case Deliver(i, now, o, extra) =>
      var f := n.flight[i];
      if ToNode(n, f) {
        ReceiveKeeps(n.nodes[f.dst.ip], f.src, f.packet, now, o);
        NodeGrows(n, f.dst.ip, Receive(n, f, now, o), Removed(n.flight, i) + extra);
      }
    case Lose(i) =>
    case Copy(i) =>
    case NodeEvent(ip, ev) =>
      OnlyFloodsSpread(n.nodes[ip], ev);
      NodeGrows(n, ip, Apply(n.nodes[ip], ev), n.flight);
    case Restart(ip, neighbours) => NodeGrows(n, ip, NewNode(ip, At(ip), neighbours), n.flight);
    case ServerEvent(ip, p, from) =>
      ServerGrows(n, ip, ServerModel.HandlePacket(n.servers[ip], p, from), n.flight, n.published);
    case Publish(ip, v, name) =>
      ServerGrows(n, ip, AddVideo(n.servers[ip], v, name), n.flight, n.published + {(v, name)});
  }

  lemma ReceiveKeeps(s: Node, from: Addr, p: FloodPacket, now: nat, o: Orders)
    ensures var s' := HandleFloodPacket(s, from, p, now, o);
      s'.self == s.self && s'.neighbours == s.neighbours
  {
    if s.id !in p.visited {
      AcceptedFloodSpreads(s, from, p, now, o);
    }
  }

  // ----- a step, seen from one node

  predicate Restarts(e: NetEvent, x: Ip) {
    e.Restart? && e.ip == x
  }

  /** What the step does at node `x`, if anything and unless it restarts. */
  function EventAt(n: Net, e: NetEvent, x: Ip): Option<Event> {
    match e
    case NodeEvent(ip, ev) => if ip == x then Some(ev) else None
    case Deliver(i, now, o, _) =>
      if i < |n.flight| && n.flight[i].dst == At(x)
      then Some(Received(Flood(n.flight[i].packet), n.flight[i].src, now, o))
      else None
    case _ => None
  }

  lemma DeliveryAt(n: Net, e: NetEvent, x: Ip)
    requires Enabled(n, e) && e.Deliver? && x in n.nodes
    ensures x in Next(n, e).nodes
    ensures Next(n, e).nodes[x] ==
      if n.flight[e.i].dst == At(x) then
        HandleFloodPacket(n.nodes[x], n.flight[e.i].src, n.flight[e.i].packet, e.now, e.o)
      else n.nodes[x]
  {
    var f := n.flight[e.i];
    assert f.dst == At(x) <==> ToNode(n, f) && f.dst.ip == x;
  }

  lemma StepAt(n: Net, e: NetEvent, x: Ip)
    requires Enabled(n, e) && x in n.nodes && !Restarts(e, x)
    ensures x in Next(n, e).nodes
    ensures Next(n, e).nodes[x] ==
      match EventAt(n, e, x) case Some(ev) => Apply(n.nodes[x], ev) case None => n.nodes[x]
  {
    if e.Deliver? {
      DeliveryAt(n, e, x);
    } else if e.NodeEvent? {
      assert Next(n, e).nodes == n.nodes[e.ip := Apply(n.nodes[e.ip], e.e)];
    } else if e.Restart? {
      assert Next(n, e).nodes == n.nodes[e.ip := NewNode(e.ip, At(e.ip), e.neighbours)];
    } else {
      assert Next(n, e).nodes == n.nodes;
    }
  }

  /** The entry of `x` for `y` after a step: its content is as before, or that of a packet from `y` that the
      step delivers. */
  lemma EntryStep(n: Net, e: NetEvent, x: Ip, y: Addr)
    requires Placed(n) && Enabled(n, e) && x in n.nodes
    ensures x in Next(n, e).nodes
    ensures y in n.nodes[x].available && !Restarts(e, x) ==> y in Next(n, e).nodes[x].available
    ensures y in Next(n, e).nodes[x].available ==>
      || (y in n.nodes[x].available && SameContent(n.nodes[x].available[y], Next(n, e).nodes[x].available[y]))
      || (e.Deliver? && n.flight[e.i].src == y && n.flight[e.i].dst == At(x) && x !in n.flight[e.i].packet.visited
          && Next(n, e).nodes[x].available[y].hops == |n.flight[e.i].packet.visited|
          && Next(n, e).nodes[x].available[y].videos == Ids(n.flight[e.i].packet.videos)
          && Next(n, e).nodes[x].available[y].status.Active?)
  {
    if !Restarts(e, x) {
      StepAt(n, e, x);
      if ev :| EventAt(n, e, x) == Some(ev) {
        if AcceptsFlood(x, ev, y) {
          AcceptedFloodIsRecorded(n.nodes[x], y, ev.packet.flood, ev.now, ev.o);
        } else {
          StepKeepsRecords(n.nodes[x], ev, y);
        }
      }
    }
  }

  predicate SameContent(r: Route, r': Route) {
    r'.hops == r.hops && r'.videos == r.videos
  }

  // ----- packets travel along simple paths

  lemma RoundSendsTravel(n: Net, e: NetEvent, f: InFlight)
    requires Placed(n) && Enabled(n, e) && e.Round? && f in Sends(n, e)
    ensures Travelled(n, f)
    ensures f.packet.visited == [e.server] && f.dst in n.servers[e.server].neighbours
    ensures f.packet.created == e.now && f.packet.parents == []
    ensures forall v :: v in f.packet.videos <==>
      v.0 in n.servers[e.server].videos && v.1 == n.servers[e.server].videos[v.0].name
  {
    var s := n.servers[e.server];
    var p := VideoListPacket(s, e.order, e.now);
    var plain := PlainTo(s.neighbours, Flood(p));
    assert Added(s.sent, FloodRound(s, e.order, e.now).sent) == plain;
    assert Plain(f.dst, Flood(f.packet)) in plain;
  }

  /** A flood packet that is passed on extends the path of the one received. */
  lemma RelayedSendsTravel(n: Net, f0: InFlight, now: nat, o: Orders, f: InFlight)
    requires Placed(n) && Travelled(n, f0) && ToNode(n, f0) && f in PassedOn(n, f0, now, o)
    ensures f0.dst.ip !in f0.packet.visited
    ensures f.src == f0.dst && f.packet.visited == f0.packet.visited + [f0.dst.ip]
    ensures f.dst != f0.src && f.dst.port == PORT && f.dst.ip in n.nodes[f0.dst.ip].neighbours
    ensures Travelled(n, f)
  {
    if f0.dst.ip !in f0.packet.visited {
      RelayedPacket(n, f0, now, o, f);
      PathSnoc(n, f0.packet.visited, f0.dst.ip);
    }
  }

  /** The packet passed on, in terms of the state of the node after it has recorded the flood. */
  lemma RelayedPacket(n: Net, f0: InFlight, now: nat, o: Orders, f: InFlight)
    requires Placed(n) && ToNode(n, f0) && f0.dst.ip !in f0.packet.visited
    ensures var s := n.nodes[f0.dst.ip];
      var s1 := CheckPendingVideos(RecordFlood(s, f0.src, f0.packet, now), f0.src, f0.packet.videos);
      f in PassedOn(n, f0, now, o) <==> Relays(s1, s.neighbours, f0.src, f0.packet, o, f0.dst, f)
  {
    var s := n.nodes[f0.dst.ip];
    var s1 := CheckPendingVideos(RecordFlood(s, f0.src, f0.packet, now), f0.src, f0.packet.videos);
    AcceptedFloodSpreads(s, f0.src, f0.packet, now, o);
    LaunchedBroadcast(s1, s.neighbours, f0.src, f0.packet, o, f0.dst, f);
  }

  /** `f` is the copy of `p` that `me` passes on to one of the neighbours, but not back. */
  ghost predicate Relays(s: Node, neighbours: seq<Ip>, from: Addr, p: FloodPacket, o: Orders, me: Addr, f: InFlight) {
    && f.src == me && f.dst != from && f.dst.port == PORT && f.dst.ip in neighbours
    && Reliable(f.dst, Flood(f.packet)) == FloodTo(s, f.dst, p, o)
  }

  lemma LaunchedBroadcast(s: Node, neighbours: seq<Ip>, from: Addr, p: FloodPacket, o: Orders, me: Addr, f: InFlight)
    ensures f in Launched(me, Broadcast(s, neighbours, from, p, o)) <==> Relays(s, neighbours, from, p, o, me, f)
  {
    assert At(f.dst.ip) == f.dst <==> f.dst.port == PORT;
  }

  lemma NextFlightSound(n: Net, e: NetEvent)
    requires Placed(n) && FlightSound(n) && Enabled(n, e)
    ensures FlightSound(Next(n, e))
  {
    NextGrown(n, e);
    forall f | f in Next(n, e).flight
      ensures Travelled(Next(n, e), f)
    {
      if f !in n.flight {
        if e.Round? {
          RoundSendsTravel(n, e, f);
        } else {
          assert n.flight[e.i] in n.flight;
          RelayedSendsTravel(n, n.flight[e.i], e.now, e.o, f);
        }
      }
      TravelledGrows(n, Next(n, e), f);
    }
  }

  // ----- route tables are justified

  lemma NextTablesSound(n: Net, e: NetEvent)
    requires Placed(n) && FlightSound(n) && TablesSound(n) && Enabled(n, e)
    ensures TablesSound(Next(n, e))
  {
    NextGrown(n, e);
    var n' := Next(n, e);
    forall x, y | x in n'.nodes && y in n'.nodes[x].available
      ensures Justified(n', x, y, n'.nodes[x].available[y])
    {
      EntryJustified(n, e, x, y);
    }
  }

  lemma EntryJustified(n: Net, e: NetEvent, x: Ip, y: Addr)
    requires Placed(n) && FlightSound(n) && TablesSound(n) && Enabled(n, e)
    requires Grown(n, Next(n, e)) && x in Next(n, e).nodes && y in Next(n, e).nodes[x].available
    ensures Justified(Next(n, e), x, y, Next(n, e).nodes[x].available[y])
  {
    var n' := Next(n, e);
    EntryStep(n, e, x, y);
    if y in n.nodes[x].available && SameContent(n.nodes[x].available[y], n'.nodes[x].available[y]) {
      JustifiedGrows(n, n', x, y, n.nodes[x].available[y], n'.nodes[x].available[y]);
    } else {
      var f := n.flight[e.i];
      assert f in n.flight;
      TravelledGrows(n, n', f);
      assert Reaches(n', f.packet.visited, f.src.ip, x);
    }
  }

  lemma AcceptedFloodIsRecorded(s: Node, from: Addr, p: FloodPacket, now: nat, o: Orders)
    requires s.id !in p.visited
    ensures var s' := HandleFloodPacket(s, from, p, now, o);
      && from in s'.available && s'.available[from].hops == |p.visited|
      && s'.available[from].videos == Ids(p.videos) && s'.available[from].status.Active?
  {
  }
}
