/**
 Where advertisements come from, and the soundness of route tables over every run of
 the flooding protocol.
 */
module FloodProvenance {
  import opened Common
  import opened NodeModel
  import opened FloodNetwork

  /** `s` knows the video under this name, and a responsive neighbour other than `to` offers it. */
  ghost predicate MayAdvertise(s: Node, to: Addr, v: Video) {
    v.0 in s.names && v.1 == s.names[v.0] && exists a :: a in s.available && a != to && s.available[a].Offers(v.0)
  }

  /** A node passes on exactly the videos that, at that moment, a responsive neighbour other than
      the receiver offers. */
  lemma SplitHorizon(n: Net, f0: InFlight, now: nat, o: Orders, f: InFlight, v: Video)
    requires Placed(n) && Travelled(n, f0) && ToNode(n, f0) && f in PassedOn(n, f0, now, o)
    ensures v in f.packet.videos <==> MayAdvertise(Receive(n, f0, now, o), f.dst, v)
  {
    RelayedSendsTravel(n, f0, now, o, f);
    RelayedPacket(n, f0, now, o, f);
    FloodAdvertises(n.nodes[f0.dst.ip], f0.src, f0.packet, now, o, f, v);
  }

  lemma FloodAdvertises(s: Node, from: Addr, p: FloodPacket, now: nat, o: Orders, f: InFlight, v: Video)
    requires s.id !in p.visited
    requires var s1 := CheckPendingVideos(RecordFlood(s, from, p, now), from, p.videos);
      Relays(s1, s.neighbours, from, p, o, s.addr, f)
    ensures v in f.packet.videos <==> MayAdvertise(HandleFloodPacket(s, from, p, now, o), f.dst, v)
  {
    AcceptedFloodSpreads(s, from, p, now, o);
    var s' := HandleFloodPacket(s, from, p, now, o);
    assert CanRelay(s'.available, f.dst, v.0) <==>
      exists a :: a in s'.available && a != f.dst && s'.available[a].Offers(v.0);
  }

  /** What is passed on keeps the server's time stamp and names exactly the neighbours that the node has
      had flood packets from, which are those that a dead node's children will approach. */
  lemma RelayedPacketNamesParents(n: Net, f0: InFlight, now: nat, o: Orders, f: InFlight, a: Addr)
    requires Placed(n) && Travelled(n, f0) && ToNode(n, f0) && f in PassedOn(n, f0, now, o)
    ensures f.packet.created == f0.packet.created
    ensures a in f.packet.parents <==> a in Receive(n, f0, now, o).available
  {
    RelayedSendsTravel(n, f0, now, o, f);
    RelayedPacket(n, f0, now, o, f);
    AcceptedFloodSpreads(n.nodes[f0.dst.ip], f0.src, f0.packet, now, o);
  }

  /** Names come from the flood packets received. */
  lemma ReceivedNames(n: Net, e: NetEvent, x: Ip, v: VideoId)
    requires Placed(n) && Enabled(n, e) && x in Next(n, e).nodes && x in n.nodes && v in Next(n, e).nodes[x].names
    ensures var name := Next(n, e).nodes[x].names[v];
      || (v in n.nodes[x].names && name == n.nodes[x].names[v])
      || (e.Deliver? && (v, name) in n.flight[e.i].packet.videos)
  {
    if e.NodeEvent? && x == e.ip {
      OnlyFloodsSpread(n.nodes[x], e.e);
    } else if e.Deliver? && ToNode(n, n.flight[e.i]) && x == n.flight[e.i].dst.ip {
      var f := n.flight[e.i];
      if x !in f.packet.visited {
        AcceptedFloodSpreads(n.nodes[x], f.src, f.packet, e.now, e.o);
      }
    }
  }

  /** Every video in a packet that enters the network has been published. */
  lemma SentVideosWerePublished(n: Net, e: NetEvent, f: InFlight, v: Video)
    requires Sound(n) && Enabled(n, e) && f in Next(n, e).flight && f !in n.flight && v in f.packet.videos
    ensures v in Next(n, e).published
  {
    if e.Round? {
      RoundSendsTravel(n, e, f);
    } else {
      var f0 := n.flight[e.i];
      assert f0 in n.flight;
      NextGrown(n, e);
      SplitHorizon(n, f0, e.now, e.o, f, v);
      ReceivedNames(n, e, f0.dst.ip, v.0);
    }
  }

  lemma NextProvenance(n: Net, e: NetEvent)
    requires Sound(n) && Enabled(n, e)
    ensures Provenance(Next(n, e))
  {
    var n' := Next(n, e);
    NextGrown(n, e);
    forall x, v | x in n'.nodes && v in n'.nodes[x].names
      ensures (v, n'.nodes[x].names[v]) in n'.published
    {
      ReceivedNames(n, e, x, v);
    }
    forall f, v | f in n'.flight && v in f.packet.videos
      ensures v in n'.published
    {
      if f !in n.flight {
        SentVideosWerePublished(n, e, f, v);
      }
    }
  }

  lemma NextSound(n: Net, e: NetEvent)
    requires Sound(n) && Enabled(n, e)
    ensures Sound(Next(n, e))
  {
    NextGrown(n, e);
    NextFlightSound(n, e);
    NextTablesSound(n, e);
    NextProvenance(n, e);
  }

  lemma {:induction false} RunIsSound(n: Net, es: seq<NetEvent>)
    requires Initial(n) && Possible(n, es)
    ensures Sound(RunNet(n, es))
  {
    if es == [] {
    } else {
      RunIsSound(n, Front(es));
      NextSound(RunNet(n, Front(es)), Last(es));
    }
  }

  lemma {:induction false} RunKeepsMembers(n: Net, es: seq<NetEvent>)
    requires Initial(n) && Possible(n, es)
    ensures RunNet(n, es).servers.Keys == n.servers.Keys && RunNet(n, es).nodes.Keys == n.nodes.Keys
  {
    if es == [] {
    } else {
      RunKeepsMembers(n, Front(es));
      RunIsSound(n, Front(es));
      NextGrown(RunNet(n, Front(es)), Last(es));
    }
  }

  /** In every run, whatever is lost, copied or reordered and however neighbour lists grow: if `x`
      lists `y`, then `y` floods `x`, and a simple path of as many members as the recorded
      hops leads from a server to `y` without passing through `x`. */
  lemma {:induction false} ParentsReachAServer(n: Net, es: seq<NetEvent>, x: Ip, y: Addr)
    requires Initial(n) && Possible(n, es)
    requires x in RunNet(n, es).nodes && y in RunNet(n, es).nodes[x].available
    ensures var n' := RunNet(n, es);
      && y == At(y.ip)
      && exists path :: Reaches(n', path, y.ip, x) && |path| == n'.nodes[x].available[y].hops
  {
    RunIsSound(n, es);
    assert Justified(RunNet(n, es), x, y, RunNet(n, es).nodes[x].available[y]);
  }

  /** In every run every video in a flood packet, in a node's table of names or in an answer to a
      client was offered, under that name, by some server. */
  lemma {:induction false} AdvertisementsWerePublished(n: Net, es: seq<NetEvent>, x: Ip, client: Addr, o: Orders)
    requires Initial(n) && Possible(n, es) && x in RunNet(n, es).nodes
    ensures var n' := RunNet(n, es);
      && (forall f, v :: f in n'.flight && v in f.packet.videos ==> v in n'.published)
      && (forall v :: v in n'.nodes[x].names ==> (v, n'.nodes[x].names[v]) in n'.published)
      && (forall v :: v in GetVideos(n'.nodes[x], client, o) ==> v in n'.published)
  {
    RunIsSound(n, es);
  }
}
