/**
 A video that every server offers is never lost on the way: each flood packet and each
 route-table entry advertises it, so a node with a responsive parent can always request it.
 */
module FloodAvailability {
  import opened Common
  import opened NodeModel
  import opened FloodNetwork
  import opened FloodProvenance
  import opened FloodOrder
  import opened FloodCoverage

  ghost predicate EveryServerOffers(n: Net, v: VideoId) {
    forall r :: r in n.servers ==> v in n.servers[r].videos
  }

  ghost predicate PacketsAdvertise(n: Net, v: VideoId) {
    forall f :: f in n.flight ==> v in Ids(f.packet.videos)
  }

  ghost predicate TablesAdvertise(n: Net, v: VideoId) {
    forall x, y :: x in n.nodes && y in n.nodes[x].available ==> v in n.nodes[x].available[y].videos
  }

  ghost predicate Advertised(n: Net, v: VideoId) {
    EveryServerOffers(n, v) && PacketsAdvertise(n, v) && TablesAdvertise(n, v)
  }

  lemma PacketsStayAdvertised(n: Net, e: NetEvent, v: VideoId)
    requires Placed(n) && FlightSound(n) && Enabled(n, e) && Advertised(n, v)
    ensures PacketsAdvertise(Next(n, e), v)
  {
    forall f | f in Next(n, e).flight
      ensures v in Ids(f.packet.videos)
    {
      if f !in n.flight {
        if e.Round? {
          RoundSays(n, e, f, v);
        } else {
          assert n.flight[e.i] in n.flight;
          RelayAdvertises(n, n.flight[e.i], e.now, e.o, f, v);
        }
      }
    }
  }

  lemma EntryStaysAdvertised(n: Net, e: NetEvent, v: VideoId, x: Ip, y: Addr)
    requires Placed(n) && Enabled(n, e) && Advertised(n, v)
    requires x in n.nodes && x in Next(n, e).nodes && y in Next(n, e).nodes[x].available
    ensures v in Next(n, e).nodes[x].available[y].videos
  {
    EntryStep(n, e, x, y);
    if !(y in n.nodes[x].available && SameContent(n.nodes[x].available[y], Next(n, e).nodes[x].available[y])) {
      assert n.flight[e.i] in n.flight;
    }
  }

  lemma NextAdvertised(n: Net, e: NetEvent, v: VideoId)
    requires Placed(n) && FlightSound(n) && Enabled(n, e) && Advertised(n, v)
    ensures Advertised(Next(n, e), v)
  {
    NextGrown(n, e);
    PacketsStayAdvertised(n, e, v);
    forall x, y | x in Next(n, e).nodes && y in Next(n, e).nodes[x].available
      ensures v in Next(n, e).nodes[x].available[y].videos
    {
      EntryStaysAdvertised(n, e, v, x, y);
    }
    ServersKeepVideos(n, e);
  }

  lemma ServersKeepVideos(n: Net, e: NetEvent)
    requires Placed(n) && Enabled(n, e)
    ensures forall r :: r in Next(n, e).servers ==>
      r in n.servers && n.servers[r].videos.Keys <= Next(n, e).servers[r].videos.Keys
  {
  }

  lemma {:induction false} RunAdvertises(n: Net, es: seq<NetEvent>, v: VideoId)
    requires Initial(n) && Possible(n, es) && EveryServerOffers(n, v)
    ensures Advertised(RunNet(n, es), v)
  {
    if es == [] {
    } else {
      RunAdvertises(n, Front(es), v);
      RunIsSound(n, Front(es));
      NextAdvertised(RunNet(n, Front(es)), Last(es), v);
    }
  }

  /** In every run, a node with a responsive parent routes a request for any video that every
      server has offered from the start; it never queues it. */
  lemma {:induction false} OfferedVideoIsNeverQueued(n: Net, es: seq<NetEvent>, v: VideoId, x: Ip, y: Addr,
                                                     client: Addr, o: Orders)
    requires Initial(n) && Possible(n, es) && EveryServerOffers(n, v)
    requires x in RunNet(n, es).nodes
    requires var s := RunNet(n, es).nodes[x]; y in s.available && s.available[y].status.Active?
    ensures var s' := HandleRequestVideo(RunNet(n, es).nodes[x], v, client, o);
      v in s'.routes && client in s'.SubscribersOf(v) && s'.pending == RunNet(n, es).nodes[x].pending
  {
    RunAdvertises(n, es, v);
    var s := Subscribe(RunNet(n, es).nodes[x], v, client);
    assert s.available[y].Offers(v);
    assert OfferedIn(s.available, v);
  }

  /** After a drained flood every node that a simple path from a server reaches lists the last
      member of the path before it, and that entry advertises the video. */
  lemma {:induction false} DrainedFloodAdvertises(n: Net, es: seq<NetEvent>, v: VideoId, path: seq<Ip>, x: Ip)
    requires Initial(n) && Possible(n, es) && RunNet(n, es).flight == []
    requires forall r :: r in n.servers ==> Flooded(n, es, r)
    requires EveryServerOffers(n, v)
    requires Leads(RunNet(n, es), path, x)
    ensures var s := RunNet(n, es).nodes[x];
      At(Last(path)) in s.available && v in s.available[At(Last(path))].videos
  {
    assert Reaches(RunNet(n, es), path, Last(path), x);
    DrainedFloodFindsExactlyTheParents(n, es, x, At(Last(path)));
    RunAdvertises(n, es, v);
  }
}
