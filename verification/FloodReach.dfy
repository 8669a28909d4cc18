/**
 Which videos a node can be asked for: exactly those that a simple path from a server that
 offers them leads to, although servers offer different videos and every node withholds from
 each neighbour what it knows from that neighbour alone.
 */
module FloodReach {
  import opened Common
  import opened NodeModel
  import opened FloodNetwork
  import opened FloodProvenance
  import opened FloodOrder
  import opened FloodCoverage
  import opened FloodAvailability
  import opened FloodRepair
  import opened NodeFailover

  /** A simple path from a server that offers the video to `z`. */
  ghost predicate Origin(n: Net, path: seq<Ip>, z: Ip, v: VideoId) {
    Path(n, path) && Last(path) == z && path[0] in n.servers && v in n.servers[path[0]].videos
  }

  ghost predicate Reached(n: Net, z: Ip, v: VideoId) {
    exists path :: Origin(n, path, z, v)
  }

  lemma {:induction false} PathPrefix(n: Net, path: seq<Ip>, k: nat)
    requires Path(n, path) && 1 <= k <= |path|
    ensures Path(n, path[..k])
  {
    if k == |path| {
      assert path[..k] == path;
    } else {
      PathPrefix(n, Front(path), k);
      assert Front(path)[..k] == path[..k];
    }
  }

  /** Whoever a reached member floods is reached: the path goes on, or it has been there before. */
  lemma ReachedOn(n: Net, y: Ip, x: Ip, v: VideoId)
    requires Placed(n) && Reached(n, y, v) && Edge(n, y, x) && x in n.nodes
    ensures Reached(n, x, v)
  {
    var path :| Origin(n, path, y, v);
    if x in path {
      var k :| 0 <= k < |path| && path[k] == x;
      PathPrefix(n, path, k + 1);
      assert Origin(n, path[..k + 1], x, v);
    } else {
      PathSnoc(n, path, x);
      assert Origin(n, path + [x], x, v);
    }
  }

  // ----- in every run, what is on offer has been reached

  ghost predicate PacketsTraced(n: Net, v: VideoId) {
    forall f :: f in n.flight && Carries(f, v) ==> Reached(n, f.src.ip, v)
  }

  ghost predicate EntriesTraced(n: Net, v: VideoId) {
    forall x, y :: x in n.nodes && y in n.nodes[x].available && v in n.nodes[x].available[y].videos ==>
      Reached(n, y.ip, v)
  }

  lemma ReachedGrows(n: Net, e: NetEvent, z: Ip, v: VideoId)
    requires Placed(n) && Enabled(n, e) && Reached(n, z, v)
    ensures Reached(Next(n, e), z, v)
  {
    NextGrown(n, e);
    ServersKeepVideos(n, e);
    var path :| Origin(n, path, z, v);
    PathGrows(n, Next(n, e), path);
    assert Origin(Next(n, e), path, z, v);
  }

  lemma EntryIsTraced(n: Net, e: NetEvent, x: Ip, y: Addr, v: VideoId)
    requires Sound(n) && Enabled(n, e) && PacketsTraced(n, v) && EntriesTraced(n, v)
    requires x in Next(n, e).nodes && y in Next(n, e).nodes[x].available
    requires v in Next(n, e).nodes[x].available[y].videos
    ensures Reached(Next(n, e), y.ip, v)
  {
    NextGrown(n, e);
    EntryStep(n, e, x, y);
    EntryWasTraced(n, e, x, y, v);
    ReachedGrows(n, e, y.ip, v);
  }

  lemma EntryWasTraced(n: Net, e: NetEvent, x: Ip, y: Addr, v: VideoId)
    requires Enabled(n, e) && PacketsTraced(n, v) && EntriesTraced(n, v) && x in n.nodes
    requires
      || (y in n.nodes[x].available && v in n.nodes[x].available[y].videos)
      || (e.Deliver? && n.flight[e.i].src == y && Carries(n.flight[e.i], v))
    ensures Reached(n, y.ip, v)
  {
    if e.Deliver? {
      assert n.flight[e.i] in n.flight;
    }
  }

  lemma OfferIsReached(n: Net, x: Ip, a: Addr, v: VideoId)
    requires Sound(n) && EntriesTraced(n, v)
    requires x in n.nodes && a in n.nodes[x].available && v in n.nodes[x].available[a].videos
    ensures Reached(n, x, v)
  {
    assert Justified(n, x, a, n.nodes[x].available[a]);
    ReachedOn(n, a.ip, x, v);
  }

  lemma ServerIsReached(n: Net, r: Ip, v: VideoId)
    requires r in n.servers && v in n.servers[r].videos
    ensures Reached(n, r, v)
  {
    assert Path(n, [r]) && Origin(n, [r], r, v);
  }

  /** Whoever would advertise the video has been reached. */
  lemma SayingIsReached(n: Net, y: Ip, to: Addr, v: VideoId)
    requires Sound(n) && EntriesTraced(n, v) && Says(n, y, to, v)
    ensures Reached(n, y, v)
  {
    if y in n.servers && v in n.servers[y].videos {
      ServerIsReached(n, y, v);
    } else {
      var a :| a in n.nodes[y].available && a != to && n.nodes[y].available[a].Offers(v);
      OfferIsReached(n, y, a, v);
    }
  }

  /** The sender of a packet that enters the network with the video has been reached. */
  lemma SenderIsReached(n: Net, e: NetEvent, f: InFlight, v: VideoId)
    requires Enabled(n, e) && Sound(n) && Sound(Next(n, e)) && EntriesTraced(Next(n, e), v)
    requires (e.Round? || e.Deliver?) && f in Sends(n, e) && Carries(f, v)
    ensures Reached(Next(n, e), f.src.ip, v)
  {
    SentSays(n, e, f, v);
    SayingIsReached(Next(n, e), f.src.ip, f.dst, v);
  }

  lemma NextTraced(n: Net, e: NetEvent, v: VideoId)
    requires Sound(n) && Enabled(n, e) && PacketsTraced(n, v) && EntriesTraced(n, v)
    ensures PacketsTraced(Next(n, e), v) && EntriesTraced(Next(n, e), v)
  {
    var n' := Next(n, e);
    NextSound(n, e);
    forall x, y | x in n'.nodes && y in n'.nodes[x].available && v in n'.nodes[x].available[y].videos
      ensures Reached(n', y.ip, v)
    {
      EntryIsTraced(n, e, x, y, v);
    }
    forall f | f in n'.flight && Carries(f, v)
      ensures Reached(n', f.src.ip, v)
    {
      if f in n.flight {
        ReachedGrows(n, e, f.src.ip, v);
      } else {
        SenderIsReached(n, e, f, v);
      }
    }
  }

  lemma {:induction false} RunTraced(n: Net, es: seq<NetEvent>, v: VideoId)
    requires Initial(n) && Possible(n, es)
    ensures PacketsTraced(RunNet(n, es), v) && EntriesTraced(RunNet(n, es), v)
  {
    if es == [] {
    } else {
      RunTraced(n, Front(es), v);
      RunIsSound(n, Front(es));
      NextTraced(RunNet(n, Front(es)), Last(es), v);
    }
  }

  /** In every run, whatever is lost, copied or reordered and whoever dies: a video that some neighbour offers
      to a node comes from a server that offers it, along a simple path to the node. */
  lemma {:induction false} OfferedMeansReached(n: Net, es: seq<NetEvent>, x: Ip, v: VideoId)
    requires Initial(n) && Possible(n, es) && x in RunNet(n, es).nodes && RunNet(n, es).nodes[x].Offered(v)
    ensures Reached(RunNet(n, es), x, v)
  {
    RunIsSound(n, es);
    RunTraced(n, es, v);
    var a :| a in RunNet(n, es).nodes[x].available && RunNet(n, es).nodes[x].available[a].Offers(v);
    OfferIsReached(RunNet(n, es), x, a, v);
  }

  // ----- after a drained flood on ordered links, what has been reached is on offer

  /** Every server that offers the video has started a full round while it did; since then all packets have
      been delivered, in order, and nobody has been declared dead; and nothing is left in flight. What
      happened before those rounds does not matter. */
  ghost predicate DrainedFor(n: Net, es: seq<NetEvent>, v: VideoId)
    requires Possible(n, es)
  {
    && RunNet(n, es).flight == []
    && forall r :: r in RunNet(n, es).servers && v in RunNet(n, es).servers[r].videos ==> FloodedSince(n, es, r, v)
  }

  /** Each neighbour at the end of a simple path from a server that offers the video to that neighbour
      advertises it, provided that the path does not pass through the node itself. */
  lemma {:induction false} PathsAdvertise(n: Net, es: seq<NetEvent>, v: VideoId, path: seq<Ip>, x: Ip)
    requires Initial(n) && Possible(n, es) && DrainedFor(n, es, v)
    requires Leads(RunNet(n, es), path, x) && Origin(RunNet(n, es), path, Last(path), v)
    ensures RunNet(n, es).nodes[x].OffersVia(At(Last(path)), v)
  {
    DrainedPathOffers(n, es, path, x, v);
  }

  /** A node has a responsive neighbour that offers the video if and only if a simple path leads to the
      node from a server that offers it. */
  lemma {:induction false} OfferedIffReached(n: Net, es: seq<NetEvent>, x: Ip, v: VideoId)
    requires Initial(n) && Possible(n, es) && DrainedFor(n, es, v) && x in RunNet(n, es).nodes
    ensures RunNet(n, es).nodes[x].Offered(v) <==> Reached(RunNet(n, es), x, v)
  {
    var n' := RunNet(n, es);
    RunIsSound(n, es);
    if n'.nodes[x].Offered(v) {
      OfferedMeansReached(n, es, x, v);
    }
    if Reached(n', x, v) {
      var path := LastLeads(n', x, v);
      PathsAdvertise(n, es, v, path, x);
      assert n'.nodes[x].available[At(Last(path))].Offers(v);
    }
  }

  /** A path to a node is a path to some member that floods the node, continued by one step. */
  lemma LastLeads(n: Net, x: Ip, v: VideoId) returns (path: seq<Ip>)
    requires Placed(n) && x in n.nodes && Reached(n, x, v)
    ensures Leads(n, path, x) && Origin(n, path, Last(path), v)
  {
    var whole :| Origin(n, whole, x, v);
    path := Front(whole);
  }

  /** Then a request for a video that the node does not yet receive is routed if and only if such a path
      exists; otherwise it is queued. */
  lemma {:induction false} RequestIsRoutedIffReached(n: Net, es: seq<NetEvent>, x: Ip, v: VideoId, client: Addr,
                                                     o: Orders)
    requires Initial(n) && Possible(n, es) && DrainedFor(n, es, v) && x in RunNet(n, es).nodes
    requires v !in RunNet(n, es).nodes[x].routes
    ensures var s' := HandleRequestVideo(RunNet(n, es).nodes[x], v, client, o);
      && (v in s'.routes <==> Reached(RunNet(n, es), x, v))
      && (v !in s'.routes ==> v in s'.pending)
  {
    OfferedIffReached(n, es, x, v);
    RequestIsRoutedIffOffered(RunNet(n, es).nodes[x], v, client, o);
  }

  lemma RequestIsRoutedIffOffered(s: Node, v: VideoId, client: Addr, o: Orders)
    requires v !in s.routes
    ensures var s' := HandleRequestVideo(s, v, client, o);
      (v in s'.routes <==> s.Offered(v)) && (v !in s'.routes ==> v in s'.pending)
  {
    var s1 := Subscribe(s, v, client);
    match BestNode(s1, v, o)
    case Some(a) =>
    case None =>
  }

  // ----- a flood repairs failover

  /** The nodes have just started. */
  ghost predicate NewNodes(n: Net) {
    Initial(n) && forall x :: x in n.nodes ==> n.nodes[x] == NewNode(x, At(x), n.nodes[x].neighbours)
  }

  /** In every run of the network every node keeps the failover invariant, restarts included. */
  lemma {:induction false} NodesStaySafe(n: Net, es: seq<NetEvent>, x: Ip, v: VideoId)
    requires NewNodes(n) && Possible(n, es) && x in n.nodes
    ensures x in RunNet(n, es).nodes && Safe(RunNet(n, es).nodes[x], v)
  {
    if es == [] {
    } else {
      var n0, e := RunNet(n, Front(es)), Last(es);
      NodesStaySafe(n, Front(es), x, v);
      if !Restarts(e, x) {
        StepAt(n0, e, x);
        if ev :| EventAt(n0, e, x) == Some(ev) {
          StepKeepsSafe(n0.nodes[x], ev, v);
        }
      }
    }
  }

  /** One full flood repairs failover everywhere, whatever was lost and whoever died or restarted before: a
      subscribed video that a simple path reaches has a responsive upstream and is not queued; one that
      no such path reaches is offered by nobody, and it has a responsive upstream or is queued. */
  lemma {:induction false} FullFloodRepairsFailover(n: Net, es: seq<NetEvent>, x: Ip, v: VideoId)
    requires NewNodes(n) && Possible(n, es) && DrainedFor(n, es, v) && x in n.nodes && x in RunNet(n, es).nodes
    requires RunNet(n, es).nodes[x].SubscribersOf(v) != []
    ensures var s := RunNet(n, es).nodes[x];
      if Reached(RunNet(n, es), x, v) then s.LiveRoute(v) && v !in s.pending
      else !s.Offered(v) && (s.LiveRoute(v) || v in s.pending)
  {
    OfferedIffReached(n, es, x, v);
    NodesStaySafe(n, es, x, v);
  }
}
