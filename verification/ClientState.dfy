/**
 The client as a mutable object. Every method is proved to do exactly what the
 corresponding function of `ClientModel` says about the abstract state.
 */
module ClientState {
  import opened Common
  import opened ClientModel

  class State {
    var nodes: map<Addr, Peer>
    var pendingPings: map<nat, (Addr, nat)>
    var pingSequence: nat
    var names: map<VideoId, string>
    var playing: map<VideoId, Playing>
    var sent: seq<Envelope>

    function Abs(): Client
      reads this
    {
      Client(nodes, Pings(pendingPings, pingSequence), names, playing, sent)
    }

    constructor (servers: set<Ip>)
      ensures Abs() == NewClient(servers)
    {
      nodes := map ip | ip in servers :: At(ip) := NEW_PEER;
      pendingPings, pingSequence, names, playing, sent := map[], 0, map[], map[], [];
    }

    method SendReliable(to: Addr, body: Packet)
      modifies this`sent
      ensures sent == old(sent) + [Reliable(to, body)]
    {
      sent := sent + [Reliable(to, body)];
    }

    method SelectAndRequest(v: VideoId, o: Orders) returns (source: Option<Addr>)
      modifies this`sent
      ensures (Abs(), source) == Ask(old(Abs()), v, o)
    {
      source := BestNode(Abs(), v, o);
      if source.Some? {
        SendReliable(source.value, RequestVideo(v));
      }
    }

    method StartPlaying(v: VideoId, launched: bool, o: Orders)
      modifies this
      ensures Abs() == ClientModel.StartPlaying(old(Abs()), v, launched, o)
    {
      var source := SelectAndRequest(v, o);
      if launched {
        playing := playing[v := Playing(source, 0, 0, [])];
      }
    }

    method StopPlaying(v: VideoId)
      modifies this
      ensures Abs() == ClientModel.StopPlaying(old(Abs()), v)
    {
      if v in playing {
        var source := playing[v].source;
        playing := playing - {v};
        if source.Some? {
          SendReliable(source.value, StopVideo(v));
        }
      }
    }

    method ReselectVideos(vs: seq<VideoId>, o: Orders)
      requires forall v :: v in vs ==> v in playing
      modifies this`playing, this`sent
      ensures Abs() == ReselectAll(old(Abs()), vs, o)
    {
      for i := 0 to |vs|
        invariant playing.Keys == old(playing.Keys)
        invariant Abs() == ReselectAll(old(Abs()), vs[..i], o)
      {
        NextPrefix(vs, i);
        var source := SelectAndRequest(vs[i], o);
        playing := playing[vs[i] := playing[vs[i]].(source := source)];
      }
      assert vs[..|vs|] == vs;
    }

    method LearnNames(vs: seq<Common.Video>)
      modifies this`names
      ensures names == ClientModel.LearnNames(old(names), vs)
    {
      for i := 0 to |vs|
        invariant names == ClientModel.LearnNames(old(names), vs[..i])
      {
        NextPrefix(vs, i);
        names := names[vs[i].0 := vs[i].1];
      }
      assert vs[..|vs|] == vs;
    }

    method HandlePingAnswer(from: Addr, ping: nat, vs: seq<Common.Video>, now: nat, o: Orders)
      modifies this
      ensures Abs() == ClientModel.HandlePingAnswer(old(Abs()), from, ping, vs, now, o)
    {
      LearnNames(vs);
      if ping !in pendingPings {
        return;
      }
      var rtt := Elapsed(pendingPings[ping].1, now);
      pendingPings := pendingPings - {ping};
      if from in nodes {
        nodes := nodes[from := Answered(nodes[from], rtt, Ids(vs), now)];
      }
      ReselectVideos(Waiting(Abs(), PlayingOrder(Abs(), o), Ids(vs)), o);
    }

    method HandleVideoPacket(from: Addr, p: VideoPacket, written: bool)
      modifies this
      ensures Abs() == ClientModel.HandleVideoPacket(old(Abs()), from, p, written)
    {
      if p.stream in playing {
        var was := playing[p.stream];
        if written {
          playing := playing[p.stream :=
            Playing(was.source, p.sequence, was.bytes + |p.data|, was.written + [p.data])];
        } else {
          playing := playing - {p.stream};
          SendReliable(from, StopVideo(p.stream));
        }
      }
    }

    method BuryNode(a: Addr, o: Orders)
      requires a in nodes
      modifies this
      ensures var s := ClientModel.MarkUnresponsive(old(Abs()), a);
        Abs() == ReselectAll(s, VideosFrom(s, PlayingOrder(s, o), a), o)
    {
      nodes := nodes[a := nodes[a].(status := Unresponsive)];
      ReselectVideos(VideosFrom(Abs(), PlayingOrder(Abs(), o), a), o);
    }

    method CheckNodes(now: nat, o: Orders)
      modifies this
      ensures Abs() == ClientModel.CheckNodes(old(Abs()), now, o)
    {
      var dead := SilentNodes(Abs(), NodesOrder(Abs(), o), now);
      for i := 0 to |dead|
        invariant nodes.Keys == old(nodes.Keys)
        invariant Abs() == Bury(old(Abs()), dead[..i], o)
      {
        NextPrefix(dead, i);
        BuryNode(dead[i], o);
      }
      assert dead[..|dead|] == dead;
    }

    method PingNodes(now: nat, o: Orders)
      modifies this
      ensures Abs() == PingRound(old(Abs()), now, o)
    {
      var order := NodesOrder(Abs(), o);
      for i := 0 to |order|
        invariant Abs() == ClientModel.PingNodes(old(Abs()), order[..i], now, o)
      {
        NextPrefix(order, i);
        var n := pingSequence;
        var requested := VideosFrom(Abs(), PlayingOrder(Abs(), o), order[i]);
        pingSequence := pingSequence + 1;
        SendReliable(order[i], ClientPing(n, requested));
        pendingPings := pendingPings[n := (order[i], now)];
      }
      assert order[..|order|] == order;
    }
  }
}
