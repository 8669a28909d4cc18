/**
 Nodes and servers agree on who watches what. The network of `FloodNetwork` is extended by
 control channels that deliver requests and stops exactly once and in order; flood packets
 may still be lost, copied and reordered, clients may do anything, and neighbours may be
 declared dead. Two members agree about a video until the one takes it from somebody else
 without a word, or the other declares the one dead while it watches.
 */
module Subscriptions {
  import opened Common
  import opened NodeModel
  import opened ServerModel
  import opened NodeFailover
  import opened NodeUpstreams
  import opened NodeSubscribers
  import opened NodeAgreement
  import opened ControlLog
  import opened FloodNetwork
  import opened FloodProvenance
  import opened FloodAvailability

  /** `delivered` counts, for each sender and receiver, the control packets that have arrived. */
  datatype Sys = Sys(net: Net, delivered: map<(Ip, Ip), nat>) {
    function Count(a: Ip, b: Ip): nat {
      if (a, b) in delivered then delivered[(a, b)] else 0
    }

    function Between(a: Ip, b: Ip): seq<Packet>
      requires a in net.nodes
    {
      Channel(net.nodes[a].sent, At(b))
    }
  }

  datatype SysEvent =
    | Background(e: NetEvent)
    | Control(a: Ip, b: Ip, now: nat, o: Orders)

  predicate IsNode(n: Net, a: Addr) {
    a.port == PORT && a.ip in n.nodes
  }

  /** No node pings like a client or sends requests and stops past its channels, no node restarts, and no
      server starts a video a second time. */
  predicate Quiet(n: Net, e: NetEvent) {
    match e
    case NodeEvent(ip, ev) => ev.Received? && (IsControl(ev.packet) || ev.packet.ClientPing?) ==> !IsNode(n, ev.from)
    case ServerEvent(_, p, from) => IsControl(p) ==> !IsNode(n, from)
    case Restart(_, _) => false
    case Publish(ip, v, _) => ip in n.servers ==> v !in n.servers[ip].videos
    case _ => true
  }

  /** The step of the network that the event amounts to. */
  function NetStep(s: Sys, e: SysEvent): NetEvent
    requires e.Control? ==> e.a in s.net.nodes && s.Count(e.a, e.b) < |s.Between(e.a, e.b)|
  {
    match e
    case Background(ev) => ev
    case Control(a, b, now, o) =>
      var p := s.Between(a, b)[s.Count(a, b)];
      if b in s.net.nodes then NodeEvent(b, Received(p, At(a), now, o)) else ServerEvent(b, p, At(a))
  }

  ghost predicate SysEnabled(s: Sys, e: SysEvent) {
    && (e.Control? ==> e.a in s.net.nodes && s.Count(e.a, e.b) < |s.Between(e.a, e.b)|)
    && Enabled(s.net, NetStep(s, e))
    && (e.Background? ==> Quiet(s.net, e.e))
  }

  ghost function SysNext(s: Sys, e: SysEvent): Sys
    requires SysEnabled(s, e)
  {
    Sys(Next(s.net, NetStep(s, e)),
        if e.Control? then s.delivered[(e.a, e.b) := s.Count(e.a, e.b) + 1] else s.delivered)
  }

  ghost predicate SysPossible(s: Sys, es: seq<SysEvent>)
    decreases |es|, 0
  {
    es == [] || (SysPossible(s, Front(es)) && SysEnabled(SysRun(s, Front(es)), Last(es)))
  }

  ghost function SysRun(s: Sys, es: seq<SysEvent>): Sys
    requires SysPossible(s, es)
    decreases |es|, 1
  {
    if es == [] then s else SysNext(SysRun(s, Front(es)), Last(es))
  }

  /** Nodes and servers have just started. */
  ghost predicate Fresh(s: Sys) {
    && Initial(s.net) && s.delivered == map[]
    && (forall x :: x in s.net.nodes ==> s.net.nodes[x] == NewNode(x, At(x), s.net.nodes[x].neighbours))
    && (forall r, v :: r in s.net.servers && v in s.net.servers[r].videos ==>
          s.net.servers[r].videos[v].interested == [])
  }

  function SubscribersAt(n: Net, b: Ip, v: VideoId): Subscribers {
    if b in n.nodes then n.nodes[b].SubscribersOf(v)
    else if b in n.servers then WatchersOf(n.servers[b], v)
    else []
  }

  function WatchersOf(s: Server, v: VideoId): Subscribers {
    if v in s.videos then s.videos[v].interested else []
  }

  // ----- a step, seen from one node

  /** No step pings in the name of a node. */
  lemma NobodyPingsForNodes(s: Sys, e: SysEvent, x: Ip)
    requires SysEnabled(s, e) && x in s.net.nodes && EventAt(s.net, NetStep(s, e), x).Some?
    ensures var ev := EventAt(s.net, NetStep(s, e), x).value;
      !(ev.Received? && ev.packet.ClientPing? && IsNode(s.net, ev.from))
  {
    if e.Control? {
      assert s.Between(e.a, e.b)[s.Count(e.a, e.b)] in s.Between(e.a, e.b);
    }
  }

  lemma {:induction false} RunSound(s: Sys, es: seq<SysEvent>)
    requires Fresh(s) && SysPossible(s, es)
    ensures Sound(SysRun(s, es).net)
    ensures SysRun(s, es).net.nodes.Keys == s.net.nodes.Keys && SysRun(s, es).net.servers.Keys == s.net.servers.Keys
  {
    if es == [] {
    } else {
      var s1 := SysRun(s, Front(es));
      RunSound(s, Front(es));
      NextSound(s1.net, NetStep(s1, Last(es)));
      NextGrown(s1.net, NetStep(s1, Last(es)));
    }
  }

  // ----- senders: routes follow the control messages

  /** `a` takes the video from `b`, where it came from, without telling it. */
  ghost predicate AbandonsAt(s: Sys, e: SysEvent, a: Ip, b: Ip, v: VideoId)
    requires SysEnabled(s, e) && a in s.net.nodes
  {
    var ev := EventAt(s.net, NetStep(s, e), a);
    ev.Some? && Abandons(s.net.nodes[a], ev.value, v, At(b))
  }

  /** Node `b` declares `a` dead while it lists `a` as a subscriber. */
  ghost predicate BuriesSubscriber(s: Sys, e: SysEvent, a: Ip, b: Ip, v: VideoId)
    requires SysEnabled(s, e) && b in s.net.nodes
  {
    var ev := EventAt(s.net, NetStep(s, e), b);
    ev.Some? && DeclaresDead(s.net.nodes[b], ev.value, At(a)) && At(a) in s.net.nodes[b].SubscribersOf(v)
  }

  ghost predicate Disturbs(s: Sys, e: SysEvent, a: Ip, b: Ip, v: VideoId)
    requires SysEnabled(s, e) && a in s.net.nodes
  {
    AbandonsAt(s, e, a, b, v) || (b in s.net.nodes && BuriesSubscriber(s, e, a, b, v))
  }

  ghost predicate Undisturbed(s: Sys, es: seq<SysEvent>, a: Ip, b: Ip, v: VideoId)
    requires SysPossible(s, es)
  {
    es == []
    || (Undisturbed(s, Front(es), a, b, v)
        && a in SysRun(s, Front(es)).net.nodes && !Disturbs(SysRun(s, Front(es)), Last(es), a, b, v))
  }

  lemma {:induction false} RunAgrees(s: Sys, es: seq<SysEvent>, a: Ip, b: Ip, v: VideoId)
    requires Fresh(s) && SysPossible(s, es) && a in s.net.nodes && Undisturbed(s, es, a, b, v)
    ensures a in SysRun(s, es).net.nodes && Agrees(SysRun(s, es).net.nodes[a], v, At(b))
  {
    if es == [] {
    } else {
      var s1 := SysRun(s, Front(es));
      RunAgrees(s, Front(es), a, b, v);
      StepAt(s1.net, NetStep(s1, Last(es)), a);
      if ev :| EventAt(s1.net, NetStep(s1, Last(es)), a) == Some(ev) {
        StepKeepsAgreementIff(s1.net.nodes[a], ev, v, At(b));
      }
    }
  }

  // ----- nobody asks a server for a video it does not have

  /** No flood packet from server `b` lists the video. */
  ghost predicate NotFlooded(n: Net, b: Ip, v: VideoId) {
    forall f :: f in n.flight && f.src == At(b) ==> v !in Ids(f.packet.videos)
  }

  predicate NotListed(s: Node, b: Addr, v: VideoId) {
    b in s.available ==> v !in s.available[b].videos
  }

  lemma NodesRelayInTheirOwnName(n: Net, e: NetEvent)
    requires Sound(n) && Enabled(n, e) && e.Deliver?
    ensures forall f :: f in Sends(n, e) ==> IsNode(n, f.src)
  {
    if ToNode(n, n.flight[e.i]) {
      assert n.flight[e.i] in n.flight;
      forall f | f in Sends(n, e)
        ensures IsNode(n, f.src)
      {
        RelayedSendsTravel(n, n.flight[e.i], e.now, e.o, f);
      }
    }
  }

  lemma NextNotFlooded(n: Net, e: NetEvent, b: Ip, v: VideoId)
    requires Sound(n) && Enabled(n, e) && b in n.servers && NotFlooded(n, b, v)
    requires v !in n.servers[b].videos
    ensures NotFlooded(Next(n, e), b, v)
  {
    if e.Round? {
      forall f | f in e.extra && f.src == At(b)
        ensures v !in Ids(f.packet.videos)
      {
        RoundSendsTravel(n, e, f);
      }
    } else if e.Deliver? {
      NodesRelayInTheirOwnName(n, e);
    }
  }

  lemma NextNotListed(n: Net, e: NetEvent, a: Ip, b: Ip, v: VideoId)
    requires Sound(n) && Enabled(n, e) && a in n.nodes && NotListed(n.nodes[a], At(b), v) && NotFlooded(n, b, v)
    ensures a in Next(n, e).nodes && NotListed(Next(n, e).nodes[a], At(b), v)
  {
    EntryStep(n, e, a, At(b));
    if e.Deliver? {
      assert n.flight[e.i] in n.flight;
    }
  }

  /** No video comes from a neighbour that has never been asked for it. */
  lemma {:induction false} RoutedWasRequested(s: Sys, es: seq<SysEvent>, a: Ip, b: Addr, v: VideoId)
    requires Fresh(s) && SysPossible(s, es) && a in s.net.nodes
    ensures a in SysRun(s, es).net.nodes
    ensures SysRun(s, es).net.nodes[a].RoutesTo(v, b) ==> Requested(SysRun(s, es).net.nodes[a], b, v)
  {
    if es == [] {
    } else {
      var s1 := SysRun(s, Front(es));
      RoutedWasRequested(s, Front(es), a, b, v);
      StepAt(s1.net, NetStep(s1, Last(es)), a);
      if ev :| EventAt(s1.net, NetStep(s1, Last(es)), a) == Some(ev) {
        FirstRequestIsBacked(s1.net.nodes[a], ev, v, b);
      }
    }
  }

  /** A node neither lists a video as the server's nor asks the server for it before the server has it. */
  lemma {:induction false} UnknownVideoIsNeverRequested(s: Sys, es: seq<SysEvent>, a: Ip, b: Ip, v: VideoId)
    requires Fresh(s) && SysPossible(s, es) && a in s.net.nodes && b in s.net.servers
    ensures a in SysRun(s, es).net.nodes && b in SysRun(s, es).net.servers
    ensures v !in SysRun(s, es).net.servers[b].videos ==>
      && NotFlooded(SysRun(s, es).net, b, v)
      && NotListed(SysRun(s, es).net.nodes[a], At(b), v)
      && !Requested(SysRun(s, es).net.nodes[a], At(b), v)
  {
    RunSound(s, es);
    if es != [] && v !in SysRun(s, es).net.servers[b].videos {
      var s1 := SysRun(s, Front(es));
      var e := NetStep(s1, Last(es));
      UnknownVideoIsNeverRequested(s, Front(es), a, b, v);
      RunSound(s, Front(es));
      ServersKeepVideos(s1.net, e);
      NextNotFlooded(s1.net, e, b, v);
      NextNotListed(s1.net, e, a, b, v);
      RoutedWasRequested(s, Front(es), a, At(b), v);
      NextNotRequested(s1, Last(es), a, b, v);
    }
  }

  lemma NextNotRequested(s: Sys, e: SysEvent, a: Ip, b: Ip, v: VideoId)
    requires SysEnabled(s, e) && a in s.net.nodes && a in SysNext(s, e).net.nodes
    requires !Requested(s.net.nodes[a], At(b), v) && !s.net.nodes[a].RoutesTo(v, At(b))
    requires NotListed(SysNext(s, e).net.nodes[a], At(b), v)
    ensures !Requested(SysNext(s, e).net.nodes[a], At(b), v)
  {
    StepAt(s.net, NetStep(s, e), a);
    if ev :| EventAt(s.net, NetStep(s, e), a) == Some(ev) {
      FirstRequestIsBacked(s.net.nodes[a], ev, v, At(b));
    }
  }

  // ----- receivers: subscriber lists follow the messages delivered

  lemma NextNoClient(s: Sys, e: SysEvent, b: Ip, x: Ip)
    requires SysEnabled(s, e) && b in s.net.nodes && x in s.net.nodes && At(x) !in s.net.nodes[b].lastPings
    ensures b in SysNext(s, e).net.nodes && At(x) !in SysNext(s, e).net.nodes[b].lastPings
  {
    StepAt(s.net, NetStep(s, e), b);
    if ev :| EventAt(s.net, NetStep(s, e), b) == Some(ev) {
      NobodyPingsForNodes(s, e, b);
      OnlyPingersAreClients(s.net.nodes[b], ev, At(x));
    }
  }

  lemma {:induction false} NodesAreNoClients(s: Sys, es: seq<SysEvent>, b: Ip, x: Ip)
    requires Fresh(s) && SysPossible(s, es) && b in s.net.nodes && x in s.net.nodes
    ensures b in SysRun(s, es).net.nodes && At(x) !in SysRun(s, es).net.nodes[b].lastPings
  {
    if es == [] {
    } else {
      NodesAreNoClients(s, Front(es), b, x);
      RunSound(s, Front(es));
      NextNoClient(SysRun(s, Front(es)), Last(es), b, x);
    }
  }

  /** The sender's channel only grows. */
  lemma ChannelKeeps(s: Sys, e: SysEvent, a: Ip, b: Ip)
    requires SysEnabled(s, e) && a in s.net.nodes
    ensures a in SysNext(s, e).net.nodes && s.Between(a, b) <= SysNext(s, e).Between(a, b)
  {
    StepAt(s.net, NetStep(s, e), a);
    if ev :| EventAt(s.net, NetStep(s, e), a) == Some(ev) {
      StepSends(s.net.nodes[a], ev);
      ChannelGrows(s.net.nodes[a].sent, Apply(s.net.nodes[a], ev).sent, At(b));
    }
  }

  /** `b` lists `a` for `v` according to the messages delivered so far. */
  ghost predicate Informed(s: Sys, a: Ip, b: Ip, v: VideoId)
    requires a in s.net.nodes
  {
    && s.Count(a, b) <= |s.Between(a, b)|
    && (At(a) in SubscribersAt(s.net, b, v) <==> Wanted(s.Between(a, b)[..s.Count(a, b)], v))
  }

  /** What the step says to `b` about `a` watching `v`, if anything. */
  function Word(s: Sys, e: SysEvent, a: Ip, b: Ip, v: VideoId): Option<bool>
    requires e.Control? ==> e.a in s.net.nodes && s.Count(e.a, e.b) < |s.Between(e.a, e.b)|
  {
    if e.Control? && e.a == a && e.b == b then
      var p := s.Between(a, b)[s.Count(a, b)];
      if p == RequestVideo(v) then Some(true) else if p == StopVideo(v) then Some(false) else None
    else None
  }

  lemma NodeListens(s: Sys, e: SysEvent, a: Ip, b: Ip, v: VideoId)
    requires SysEnabled(s, e) && a in s.net.nodes && b in s.net.nodes && At(a) !in s.net.nodes[b].lastPings
    requires !Disturbs(s, e, a, b, v)
    ensures At(a) in SubscribersAt(SysNext(s, e).net, b, v) <==>
      match Word(s, e, a, b, v) case Some(w) => w case None => At(a) in SubscribersAt(s.net, b, v)
  {
    StepAt(s.net, NetStep(s, e), b);
    if ev :| EventAt(s.net, NetStep(s, e), b) == Some(ev) {
      NobodyPingsForNodes(s, e, b);
      OnlyOwnPacketsCount(s.net.nodes[b], ev, v, At(a));
      assert Verdict(ev, v, At(a)) == Word(s, e, a, b, v);
    }
  }

  lemma ServerHandles(s: Server, p: Packet, from: Addr, v: VideoId, x: Addr)
    requires p == RequestVideo(v) && from == x ==> v in s.videos
    ensures x in WatchersOf(ServerModel.HandlePacket(s, p, from), v) <==>
      if from == x && p == RequestVideo(v) then true
      else if from == x && p == StopVideo(v) then false
      else x in WatchersOf(s, v)
  {
  }

  lemma ServerListens(s: Sys, e: SysEvent, a: Ip, b: Ip, v: VideoId)
    requires SysEnabled(s, e) && a in s.net.nodes && b in s.net.servers && b !in s.net.nodes
    requires v !in s.net.servers[b].videos ==> !Requested(s.net.nodes[a], At(b), v)
    ensures At(a) in SubscribersAt(SysNext(s, e).net, b, v) <==>
      match Word(s, e, a, b, v) case Some(w) => w case None => At(a) in SubscribersAt(s.net, b, v)
  {
    var ev := NetStep(s, e);
    if ev.ServerEvent? && ev.ip == b {
      if e.Control? {
        assert s.Between(e.a, b)[s.Count(e.a, b)] in s.Between(e.a, b);
      }
      ServerHandles(s.net.servers[b], ev.p, ev.from, v, At(a));
    } else {
      OtherStepsSpare(s.net, ev, b, v);
    }
  }

  /** Other steps than its own packets leave the server's subscribers alone. */
  lemma OtherStepsSpare(n: Net, e: NetEvent, b: Ip, v: VideoId)
    requires Enabled(n, e) && b in n.servers && b !in n.nodes && !(e.ServerEvent? && e.ip == b)
    requires e.Publish? && e.ip == b ==> e.v !in n.servers[b].videos
    ensures SubscribersAt(Next(n, e), b, v) == SubscribersAt(n, b, v)
  {
  }

  lemma PrefixKeeps(ps: seq<Packet>, ps': seq<Packet>, d: nat)
    requires ps <= ps' && d <= |ps|
    ensures ps'[..d] == ps[..d]
  {
  }

  lemma NextWord(ps: seq<Packet>, ps': seq<Packet>, d: nat, v: VideoId)
    requires ps <= ps' && d < |ps|
    ensures Wanted(ps'[..d + 1], v) <==> ps[d] == RequestVideo(v) || (ps[d] != StopVideo(v) && Wanted(ps[..d], v))
  {
    PrefixKeeps(ps, ps', d + 1);
    assert ps[..d + 1] == ps[..d] + [ps[d]];
    WantedSnoc(ps[..d], ps[d], v);
  }

  /** The messages delivered after the step say what they said before, or what the step says. */
  lemma WordCounts(s: Sys, e: SysEvent, a: Ip, b: Ip, v: VideoId)
    requires SysEnabled(s, e) && a in s.net.nodes && a in SysNext(s, e).net.nodes
    requires s.Count(a, b) <= |s.Between(a, b)| && s.Between(a, b) <= SysNext(s, e).Between(a, b)
    ensures SysNext(s, e).Count(a, b) <= |SysNext(s, e).Between(a, b)|
    ensures Wanted(SysNext(s, e).Between(a, b)[..SysNext(s, e).Count(a, b)], v) <==>
      match Word(s, e, a, b, v) case Some(w) => w case None => Wanted(s.Between(a, b)[..s.Count(a, b)], v)
  {
    var d, ps, ps' := s.Count(a, b), s.Between(a, b), SysNext(s, e).Between(a, b);
    if e.Control? && e.a == a && e.b == b {
      NextWord(ps, ps', d, v);
    } else {
      PrefixKeeps(ps, ps', d);
    }
  }

  lemma NextInformed(s: Sys, e: SysEvent, a: Ip, b: Ip, v: VideoId)
    requires SysEnabled(s, e) && a in s.net.nodes && Informed(s, a, b, v)
    requires At(a) in SubscribersAt(SysNext(s, e).net, b, v) <==>
      match Word(s, e, a, b, v) case Some(w) => w case None => At(a) in SubscribersAt(s.net, b, v)
    ensures a in SysNext(s, e).net.nodes && Informed(SysNext(s, e), a, b, v)
  {
    ChannelKeeps(s, e, a, b);
    WordCounts(s, e, a, b, v);
  }

  lemma {:induction false} RunInformed(s: Sys, es: seq<SysEvent>, a: Ip, b: Ip, v: VideoId)
    requires Fresh(s) && SysPossible(s, es) && a in s.net.nodes && (b in s.net.nodes || b in s.net.servers)
    requires Undisturbed(s, es, a, b, v)
    ensures a in SysRun(s, es).net.nodes && Informed(SysRun(s, es), a, b, v)
  {
    if es == [] {
    } else {
      var s1 := SysRun(s, Front(es));
      RunInformed(s, Front(es), a, b, v);
      RunSound(s, Front(es));
      if b in s.net.nodes {
        NodesAreNoClients(s, Front(es), b, a);
        NodeListens(s1, Last(es), a, b, v);
      } else {
        UnknownVideoIsNeverRequested(s, Front(es), a, b, v);
        ServerListens(s1, Last(es), a, b, v);
      }
      NextInformed(s1, Last(es), a, b, v);
    }
  }

  // ----- agreement

  /** In every run, whoever dies, for every node `a`, every node or server `b` and every video that has not been
      disturbed between them: after `b` has also handled the requests and stops that are still on their
      way to it, `b` lists `a` as a subscriber if and only if `a` takes the video from `b`. */
  lemma {:induction false} SubscriptionsAgree(s: Sys, es: seq<SysEvent>, a: Ip, b: Ip, v: VideoId)
    requires Fresh(s) && SysPossible(s, es) && a in s.net.nodes && (b in s.net.nodes || b in s.net.servers)
    requires Undisturbed(s, es, a, b, v)
    ensures a in SysRun(s, es).net.nodes
    ensures var s' := SysRun(s, es);
      && s'.Count(a, b) <= |s'.Between(a, b)|
      && (At(a) in Replay(SubscribersAt(s'.net, b, v), s'.Between(a, b)[s'.Count(a, b)..], v, At(a))
          <==> s'.net.nodes[a].RoutesTo(v, At(b)))
  {
    RunInformed(s, es, a, b, v);
    RunAgrees(s, es, a, b, v);
    var s' := SysRun(s, es);
    ReplayHasLastWord(SubscribersAt(s'.net, b, v), s'.Between(a, b), s'.Count(a, b), v, At(a));
  }

  lemma AbandonedIsAsked(s: Node, e: Event, v: VideoId, b: Addr)
    requires Agrees(s, v, b) && Abandons(s, e, v, b)
    ensures !Apply(s, e).RoutesTo(v, b) && Asked(Apply(s, e).sent, b, v)
  {
    StepKeepsAgreementIff(s, e, v, b);
    AbandonedIsNotRouted(s, e, v, b);
  }

  /** A background step at `a` alone says nothing to `b`. */
  lemma OnlyOneStepsAt(s: Sys, e: SysEvent, a: Ip, b: Ip, v: VideoId)
    requires SysEnabled(s, e) && a in s.net.nodes && a != b && EventAt(s.net, NetStep(s, e), a).Some?
    requires b in s.net.nodes || b in s.net.servers
    ensures At(a) in SubscribersAt(SysNext(s, e).net, b, v) <==>
      match Word(s, e, a, b, v) case Some(w) => w case None => At(a) in SubscribersAt(s.net, b, v)
  {
  }

  lemma NextAsked(s: Sys, e: SysEvent, a: Ip, b: Ip, v: VideoId)
    requires SysEnabled(s, e) && a in s.net.nodes && AbandonsAt(s, e, a, b, v) && Agrees(s.net.nodes[a], v, At(b))
    ensures a in SysNext(s, e).net.nodes && !SysNext(s, e).net.nodes[a].RoutesTo(v, At(b))
    ensures Wanted(SysNext(s, e).Between(a, b), v)
  {
    StepAt(s.net, NetStep(s, e), a);
    AbandonedIsAsked(s.net.nodes[a], EventAt(s.net, NetStep(s, e), a).value, v, At(b));
  }

  /** A step that takes the video from `b` without a word ends the agreement at once. */
  lemma {:induction false} AbandoningEndsAgreement(s: Sys, es: seq<SysEvent>, e: SysEvent, a: Ip, b: Ip, v: VideoId)
    requires Fresh(s) && SysPossible(s, es) && a in s.net.nodes && (b in s.net.nodes || b in s.net.servers) && a != b
    requires Undisturbed(s, es, a, b, v) && SysEnabled(SysRun(s, es), e) && a in SysRun(s, es).net.nodes
    requires AbandonsAt(SysRun(s, es), e, a, b, v)
    ensures var s' := SysNext(SysRun(s, es), e);
      && a in s'.net.nodes && s'.Count(a, b) <= |s'.Between(a, b)| && !s'.net.nodes[a].RoutesTo(v, At(b))
      && At(a) in Replay(SubscribersAt(s'.net, b, v), s'.Between(a, b)[s'.Count(a, b)..], v, At(a))
  {
    RunInformed(s, es, a, b, v);
    RunAgrees(s, es, a, b, v);
    RunSound(s, es);
    AbandonStep(SysRun(s, es), e, a, b, v);
  }

  lemma AbandonStep(s: Sys, e: SysEvent, a: Ip, b: Ip, v: VideoId)
    requires SysEnabled(s, e) && a in s.net.nodes && (b in s.net.nodes || b in s.net.servers) && a != b
    requires Informed(s, a, b, v) && Agrees(s.net.nodes[a], v, At(b)) && AbandonsAt(s, e, a, b, v)
    ensures var s' := SysNext(s, e);
      && a in s'.net.nodes && s'.Count(a, b) <= |s'.Between(a, b)| && !s'.net.nodes[a].RoutesTo(v, At(b))
      && At(a) in Replay(SubscribersAt(s'.net, b, v), s'.Between(a, b)[s'.Count(a, b)..], v, At(a))
  {
    var s' := SysNext(s, e);
    NextAsked(s, e, a, b, v);
    OnlyOneStepsAt(s, e, a, b, v);
    NextInformed(s, e, a, b, v);
    ReplayHasLastWord(SubscribersAt(s'.net, b, v), s'.Between(a, b), s'.Count(a, b), v, At(a));
  }

  /** Two subscriber lists of which one alone holds `a` come to agree about `a` exactly by a word of `a`. */
  lemma {:induction false} ReplayDecides(xs: Subscribers, ys: Subscribers, ps: seq<Packet>, v: VideoId, a: Addr)
    requires a in xs && a !in ys
    ensures (a in Replay(xs, ps, v, a) <==> a in Replay(ys, ps, v, a)) <==>
      RequestVideo(v) in ps || StopVideo(v) in ps
  {
    if ps == [] {
    } else {
      ReplayDecides(xs, ys, Front(ps), v, a);
      assert ps == Front(ps) + [Last(ps)];
    }
  }

  lemma BurialUnsubscribes(s: Sys, e: SysEvent, a: Ip, b: Ip, v: VideoId)
    requires SysEnabled(s, e) && a in s.net.nodes && b in s.net.nodes && a != b
    requires At(a) !in s.net.nodes[b].lastPings && BuriesSubscriber(s, e, a, b, v)
    ensures var s' := SysNext(s, e);
      && a in s'.net.nodes && s'.net.nodes[a] == s.net.nodes[a] && s'.Count(a, b) == s.Count(a, b)
      && At(a) !in SubscribersAt(s'.net, b, v)
  {
    StepAt(s.net, NetStep(s, e), a);
    StepAt(s.net, NetStep(s, e), b);
    var ev := EventAt(s.net, NetStep(s, e), b).value;
    OnlyOwnPacketsCount(s.net.nodes[b], ev, v, At(a));
  }

  /** When `b` declares the subscriber `a` dead, agreement survives if and only if a request or stop of `a` for
      the video is still on its way to `b`. */
  lemma {:induction false} BurialKeepsAgreementIff(s: Sys, es: seq<SysEvent>, e: SysEvent, a: Ip, b: Ip, v: VideoId)
    requires Fresh(s) && SysPossible(s, es) && a in s.net.nodes && b in s.net.nodes && a != b
    requires Undisturbed(s, es, a, b, v) && SysEnabled(SysRun(s, es), e) && b in SysRun(s, es).net.nodes
    requires BuriesSubscriber(SysRun(s, es), e, a, b, v)
    ensures var s' := SysNext(SysRun(s, es), e);
      && a in s'.net.nodes && s'.Count(a, b) <= |s'.Between(a, b)|
      && var onTheWay := s'.Between(a, b)[s'.Count(a, b)..];
        (At(a) in Replay(SubscribersAt(s'.net, b, v), onTheWay, v, At(a)) <==> s'.net.nodes[a].RoutesTo(v, At(b)))
        <==> RequestVideo(v) in onTheWay || StopVideo(v) in onTheWay
  {
    SubscriptionsAgree(s, es, a, b, v);
    NodesAreNoClients(s, es, b, a);
    var s0 := SysRun(s, es);
    BurialUnsubscribes(s0, e, a, b, v);
    ReplayDecides(SubscribersAt(s0.net, b, v), SubscribersAt(SysNext(s0, e).net, b, v),
                  s0.Between(a, b)[s0.Count(a, b)..], v, At(a));
  }

  /** Once nothing is on its way, the subscriber lists of nodes and servers and the routes of nodes are
      the same relation. */
  lemma {:induction false} DrainedSubscriptionsAgree(s: Sys, es: seq<SysEvent>, a: Ip, b: Ip, v: VideoId)
    requires Fresh(s) && SysPossible(s, es) && a in s.net.nodes && (b in s.net.nodes || b in s.net.servers)
    requires Undisturbed(s, es, a, b, v)
    requires a in SysRun(s, es).net.nodes && SysRun(s, es).Count(a, b) == |SysRun(s, es).Between(a, b)|
    ensures At(a) in SubscribersAt(SysRun(s, es).net, b, v) <==> SysRun(s, es).net.nodes[a].RoutesTo(v, At(b))
  {
    SubscriptionsAgree(s, es, a, b, v);
    var s' := SysRun(s, es);
    assert s'.Between(a, b)[s'.Count(a, b)..] == [];
  }

  // ----- runs without failures

  /** No node declares anybody dead. */
  ghost predicate FailureFree(s: Sys, es: seq<SysEvent>)
    requires SysPossible(s, es)
  {
    es == []
    || (FailureFree(s, Front(es))
        && forall x :: x in SysRun(s, Front(es)).net.nodes ==> CalmAt(SysRun(s, Front(es)), Last(es), x))
  }

  ghost predicate CalmAt(s: Sys, e: SysEvent, x: Ip)
    requires SysEnabled(s, e) && x in s.net.nodes
  {
    var ev := EventAt(s.net, NetStep(s, e), x);
    ev.Some? ==> Calm(s.net.nodes[x], ev.value)
  }

  lemma {:induction false} RunUnrouted(s: Sys, es: seq<SysEvent>, a: Ip, v: VideoId)
    requires Fresh(s) && SysPossible(s, es) && FailureFree(s, es) && a in s.net.nodes
    ensures a in SysRun(s, es).net.nodes
    ensures QueuedUnrouted(SysRun(s, es).net.nodes[a], v) && Safe(SysRun(s, es).net.nodes[a], v)
  {
    if es == [] {
    } else {
      var s1 := SysRun(s, Front(es));
      RunUnrouted(s, Front(es), a, v);
      assert CalmAt(s1, Last(es), a);
      StepAt(s1.net, NetStep(s1, Last(es)), a);
      if ev :| EventAt(s1.net, NetStep(s1, Last(es)), a) == Some(ev) {
        StepKeepsUnrouted(s1.net.nodes[a], ev, v);
        StepKeepsSafe(s1.net.nodes[a], ev, v);
      }
    }
  }

  /** Without failures nothing is disturbed, so all subscriptions agree. */
  lemma {:induction false} FailureFreeIsUndisturbed(s: Sys, es: seq<SysEvent>, a: Ip, b: Ip, v: VideoId)
    requires Fresh(s) && SysPossible(s, es) && FailureFree(s, es) && a in s.net.nodes
    ensures Undisturbed(s, es, a, b, v)
  {
    if es == [] {
    } else {
      var s1 := SysRun(s, Front(es));
      FailureFreeIsUndisturbed(s, Front(es), a, b, v);
      RunUnrouted(s, Front(es), a, v);
      CalmDisturbsNothing(s1, Last(es), a, b, v);
    }
  }

  lemma CalmDisturbsNothing(s: Sys, e: SysEvent, a: Ip, b: Ip, v: VideoId)
    requires SysEnabled(s, e) && a in s.net.nodes && QueuedUnrouted(s.net.nodes[a], v)
    requires forall x :: x in s.net.nodes ==> CalmAt(s, e, x)
    ensures !Disturbs(s, e, a, b, v)
  {
    assert CalmAt(s, e, a);
    assert b in s.net.nodes ==> CalmAt(s, e, b);
    if ev :| EventAt(s.net, NetStep(s, e), a) == Some(ev) {
      CalmAbandonsNothing(s.net.nodes[a], ev, v, At(b));
    }
  }
}
