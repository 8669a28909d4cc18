/**
 The overlay node as a mutable object. Every method is proved to do exactly what the
 corresponding function of `NodeModel` says about the abstract state.
 */
module NodeState {
  import opened Common
  import opened NodeModel

  class State {
    const id: nat
    const addr: Addr
    var neighbours: seq<Ip>
    var names: map<VideoId, string>
    var interested: map<VideoId, Subscribers>
    var lastPings: map<Addr, nat>
    var available: map<Addr, Route>
    var routes: map<VideoId, Addr>
    var lastSequence: map<VideoId, nat>
    var lastVideoTime: map<VideoId, nat>
    var pending: seq<VideoId>
    var sent: seq<Envelope>
    var relayed: seq<Envelope>

    function Abs(): Node
      reads this
    {
      Node(Self(id, addr), Overlay(neighbours, names, available), Streams(interested, routes, pending),
           Feed(lastSequence, lastVideoTime), lastPings, sent, relayed)
    }

    constructor (id: nat, addr: Addr, neighbours: seq<Ip>)
      ensures Abs() == NewNode(id, addr, neighbours)
    {
      this.id, this.addr, this.neighbours := id, addr, neighbours;
      names, interested, lastPings, available, routes := map[], map[], map[], map[], map[];
      lastSequence, lastVideoTime, pending, sent, relayed := map[], map[], [], [], [];
    }

    method SendReliable(to: Addr, body: Packet)
      modifies this`sent
      ensures sent == old(sent) + [Reliable(to, body)]
    {
      sent := sent + [Reliable(to, body)];
    }

    method RegisterNewNeighbour(ip: Ip)
      modifies this`neighbours
      ensures neighbours == old(neighbours) + [ip]
    {
      neighbours := neighbours + [ip];
    }

    method RequestVideoToNode(v: VideoId, n: Addr)
      modifies this`sent, this`routes
      ensures Abs() == NodeModel.RequestVideoToNode(old(Abs()), v, n)
    {
      SendReliable(n, RequestVideo(v));
      routes := routes[v := n];
    }

    method HandleRequestVideo(v: VideoId, a: Addr, o: Orders)
      modifies this
      ensures Abs() == NodeModel.HandleRequestVideo(old(Abs()), v, a, o)
    {
      var subscribers := if v in interested then interested[v] else [];
      interested := interested[v := AddSubscriber(subscribers, a)];
      if v in routes {
        return;
      }
      SelectUpstream(v, o);
    }

    method SelectUpstream(v: VideoId, o: Orders)
      modifies this
      ensures Abs() == NodeModel.SelectUpstream(old(Abs()), v, o)
    {
      var best := BestNode(Abs(), v, o);
      match best
      case Some(n) => RequestVideoToNode(v, n);
      case None => pending := pending + [v];
    }

    method HandleStopVideo(v: VideoId, a: Addr)
      modifies this
      ensures Abs() == NodeModel.HandleStopVideo(old(Abs()), v, a)
    {
      if v in interested {
        interested := interested[v := Without(interested[v], a)];
      }
      var remaining := if v in interested then |interested[v]| else 0;
      if remaining == 0 && v in routes {
        var upstream := routes[v];
        routes := routes - {v};
        SendReliable(upstream, StopVideo(v));
      }
    }

    method StopVideos(vs: seq<VideoId>, a: Addr)
      modifies this
      ensures Abs() == StopAll(old(Abs()), vs, a)
    {
      for i := 0 to |vs|
        invariant Abs() == StopAll(old(Abs()), vs[..i], a)
      {
        NextPrefix(vs, i);
        HandleStopVideo(vs[i], a);
      }
      assert vs[..|vs|] == vs;
    }

    method HandleClientPing(ping: nat, requested: seq<VideoId>, a: Addr, now: nat, o: Orders)
      modifies this
      ensures Abs() == NodeModel.HandleClientPing(old(Abs()), ping, requested, a, now, o)
    {
      var answer := VideoList(ping, GetVideos(Abs(), a, o), now);
      lastPings := lastPings[a := now];
      RequestMissing(requested, a, o);
      StopOthers(requested, a, o);
      SendReliable(a, answer);
    }

    method RequestMissing(requested: seq<VideoId>, a: Addr, o: Orders)
      modifies this
      ensures Abs() == RequestUnrouted(old(Abs()), requested, a, o)
    {
      for i := 0 to |requested|
        invariant Abs() == RequestUnrouted(old(Abs()), requested[..i], a, o)
      {
        NextPrefix(requested, i);
        if requested[i] !in routes {
          HandleRequestVideo(requested[i], a, o);
        }
      }
      assert requested[..|requested|] == requested;
    }

    method StopOthers(requested: seq<VideoId>, a: Addr, o: Orders)
      modifies this
      ensures var s := old(Abs()); Abs() == StopUnwanted(s, InterestedOrder(s, o), requested, a)
    {
      var order := InterestedOrder(Abs(), o);
      for i := 0 to |order|
        invariant Abs() == StopUnwanted(old(Abs()), order[..i], requested, a)
      {
        NextPrefix(order, i);
        var v := order[i];
        if v !in requested && v in interested && a in interested[v] {
          HandleStopVideo(v, a);
        }
      }
      assert order[..|order|] == order;
    }

    method UpdateFromFloodPacket(from: Addr, p: FloodPacket, now: nat)
      modifies this`names, this`available
      ensures Abs() == RecordFlood(old(Abs()), from, p, now)
    {
      for i := 0 to |p.videos|
        invariant names == LearnNames(old(names), p.videos[..i]) && available == old(available)
      {
        NextPrefix(p.videos, i);
        names := names[p.videos[i].0 := p.videos[i].1];
      }
      assert p.videos[..|p.videos|] == p.videos;
      var entry := if from in available then available[from] else NEW_ROUTE;
      available := available[from := UpdateFromFlood(entry, p, now)];
    }

    method CheckPendingVideos(from: Addr, vs: seq<Video>)
      modifies this
      ensures Abs() == NodeModel.CheckPendingVideos(old(Abs()), from, vs)
    {
      var ready := Queued(pending, Ids(vs));
      for i := 0 to |ready|
        invariant Abs() == RequestAll(old(Abs()), ready[..i], from)
      {
        NextPrefix(ready, i);
        RequestVideoToNode(ready[i], from);
      }
      assert ready[..|ready|] == ready;
      pending := WithoutAll(pending, ready);
    }

    method HandleFloodPacket(from: Addr, p: FloodPacket, now: nat, o: Orders)
      modifies this
      ensures Abs() == NodeModel.HandleFloodPacket(old(Abs()), from, p, now, o)
    {
      if id in p.visited {
        return;
      }
      UpdateFromFloodPacket(from, p, now);
      CheckPendingVideos(from, p.videos);
      BroadcastFlood(from, p, o);
    }

    method BroadcastFlood(from: Addr, p: FloodPacket, o: Orders)
      modifies this`relayed
      ensures var s := old(Abs()); Abs() == s.(relayed := s.relayed + Broadcast(s, s.neighbours, from, p, o))
    {
      for i := 0 to |neighbours|
        invariant relayed == old(relayed) + Broadcast(old(Abs()), neighbours[..i], from, p, o)
      {
        NextPrefix(neighbours, i);
        var to := At(neighbours[i]);
        if to != from {
          var copy := FloodPacket(p.created, GetVideos(Abs(), to, o), p.visited + [id], GetParents(Abs(), o));
          relayed := relayed + [Reliable(to, Flood(copy))];
        }
      }
      assert neighbours[..|neighbours|] == neighbours;
    }

    method HandleUnresponsiveNode(a: Addr, o: Orders)
      modifies this
      ensures Abs() == NodeModel.HandleUnresponsiveNode(old(Abs()), a, o)
    {
      var receiving := Receiving(Abs(), a, o);
      var sending := Sending(Abs(), a, o);
      StopVideos(sending, a);
      var remaining := RedirectVideos(receiving, o);
      QueueRemaining(a, remaining);
    }

    method QueueRemaining(a: Addr, remaining: seq<VideoId>)
      modifies this
      ensures Abs() == NodeModel.QueueRemaining(old(Abs()), a, remaining)
    {
      if remaining != [] {
        ConnectToParents(if a in available then available[a].nodeType.parents else []);
      }
      pending := pending + remaining;
    }

    method RedirectVideos(vs: seq<VideoId>, o: Orders) returns (remaining: seq<VideoId>)
      modifies this
      ensures (Abs(), remaining) == Redirect(old(Abs()), vs, o)
    {
      remaining := [];
      for i := 0 to |vs|
        invariant (Abs(), remaining) == Redirect(old(Abs()), vs[..i], o)
      {
        NextPrefix(vs, i);
        var best := BestNode(Abs(), vs[i], o);
        match best
        case Some(n) => RequestVideoToNode(vs[i], n);
        case None => remaining := remaining + [vs[i]];
      }
      assert vs[..|vs|] == vs;
    }

    method ConnectToParents(parents: seq<Addr>)
      modifies this`sent
      ensures sent == old(sent) + Introductions(addr, parents)
    {
      for i := 0 to |parents|
        invariant sent == old(sent) + Introductions(addr, parents[..i])
      {
        NextPrefix(parents, i);
        if parents[i] != addr {
          SendReliable(parents[i], NewNeighbour);
        }
      }
      assert parents[..|parents|] == parents;
    }

    method HandleFloodUnacknowledged(target: Addr, o: Orders)
      modifies this
      ensures Abs() == NodeModel.HandleFloodUnacknowledged(old(Abs()), target, o)
    {
      if target in available && available[target].status.Active? {
        available := available[target := available[target].(status := Unresponsive)];
        HandleUnresponsiveNode(target, o);
      }
    }

    method BuryNode(a: Addr, o: Orders)
      requires a in available
      modifies this
      ensures Abs() == NodeModel.HandleUnresponsiveNode(MarkUnresponsive(old(Abs()), a), a, o)
      ensures available.Keys == old(available.Keys)
    {
      available := available[a := available[a].(status := Unresponsive)];
      HandleUnresponsiveNode(a, o);
    }

    method CheckNeighbours(now: nat, o: Orders)
      modifies this
      ensures Abs() == NodeModel.CheckNeighbours(old(Abs()), now, o)
    {
      var dead := StaleParents(Abs(), RouteTableOrder(Abs(), o), now);
      for i := 0 to |dead|
        invariant available.Keys == old(available.Keys)
        invariant Abs() == Bury(old(Abs()), dead[..i], o)
      {
        NextPrefix(dead, i);
        BuryNode(dead[i], o);
      }
      assert dead[..|dead|] == dead;
    }

    method CheckClients(now: nat, o: Orders)
      modifies this
      ensures Abs() == NodeModel.CheckClients(old(Abs()), now, o)
    {
      var order := PingsOrder(Abs(), o);
      var pings := lastPings;
      for i := 0 to |order|
        invariant Abs() == DropSilentClients(old(Abs()), order[..i], now, o)
      {
        NextPrefix(order, i);
        if Elapsed(pings[order[i]], now) > 3 * CLIENT_PING_INTERVAL {
          StopVideos(Sending(Abs(), order[i], o), order[i]);
        }
      }
      assert order[..|order|] == order;
    }

    method CheckVideos(now: nat, o: Orders)
      modifies this
      ensures Abs() == NodeModel.CheckVideos(old(Abs()), now, o)
    {
      var order := TimesOrder(Abs(), o);
      var times := lastVideoTime;
      for i := 0 to |order|
        invariant Abs() == RequestAgain(old(Abs()), order[..i], now)
      {
        NextPrefix(order, i);
        if Elapsed(times[order[i]], now) > VIDEO_PACKET_MAX_DELAY && order[i] in routes {
          RequestVideoToNode(order[i], routes[order[i]]);
        }
      }
      assert order[..|order|] == order;
    }

    method HandleVideoPacket(p: VideoPacket, now: nat)
      modifies this
      ensures Abs() == NodeModel.HandleVideoPacket(old(Abs()), p, now)
    {
      var last := if p.stream in lastSequence then lastSequence[p.stream] else p.sequence;
      lastSequence := lastSequence[p.stream := p.sequence];
      lastVideoTime := lastVideoTime[p.stream := now];
      var expected := last + 1;
      if expected < p.sequence {
        return;
      }
      if p.stream in interested {
        var subscribers := interested[p.stream];
        relayed := relayed + PlainTo(subscribers, VideoData(p));
      }
    }

    method HandlePacket(p: Packet, from: Addr, now: nat, o: Orders)
      modifies this
      ensures Abs() == NodeModel.HandlePacket(old(Abs()), p, from, now, o)
    {
      match p
      case ClientPing(ping, requested) => HandleClientPing(ping, requested, from, now, o);
      case Flood(flood) => HandleFloodPacket(from, flood, now, o);
      case NewNeighbour => RegisterNewNeighbour(from.ip);
      case RequestVideo(v) => HandleRequestVideo(v, from, o);
      case StopVideo(v) => HandleStopVideo(v, from);
      case VideoData(video) => HandleVideoPacket(video, now);
      case VideoList(_, _, _) =>
    }
  }
}
