/**
 Nodes and servers on top of reliable endpoints: a node that has lost its upstream
 introduces itself to the dead node's parents and adopts those that acknowledge. Adoption
 is mutual, because an acknowledgement is sent only for a packet that is handled.
 */
module Adoption {
  import opened Common
  import opened NodeModel
  import ServerModel
  import Reliable
  import ReliableRuns
  import FloodNetwork

  /** `adopted` records who has added whom after an acknowledged introduction. */
  datatype World = World(
    net: ReliableRuns.System,
    nodes: map<Addr, Node>,
    servers: map<Addr, ServerModel.Server>,
    adopted: set<(Addr, Addr)>
  )

  /** `Transport` is one step of the endpoints; whatever `receive` returns is handled at once.
      `Local` is a timer, or a flood packet without acknowledgement. */
  datatype WorldEvent =
    | Transport(e: ReliableRuns.Event, now: nat, o: Orders)
    | Local(at: Addr, step: Event)
    | Adopt(at: Addr, v: Reliable.Verdict)

  /** The step makes `receive` return a payload. */
  predicate Returns(e: ReliableRuns.Event) {
    e.Arrive? && (e.body.Unnumbered? || (e.body.Numbered? && e.ackSent))
  }

  predicate IsIntroduction(w: World, at: Addr, v: Reliable.Verdict) {
    && at in w.net.endpoints && v in w.net.endpoints[at].verdicts && v.outcome.Acknowledged?
    && v.id < |w.net.endpoints[at].calls| && w.net.endpoints[at].calls[v.id].payload == NewNeighbour
  }

  predicate Enabled(w: World, e: WorldEvent) {
    match e
    case Transport(ev, _, _) => ReliableRuns.Enabled(w.net, ev)
    case Local(at, ev) => at in w.nodes && !ev.Received? && !ev.ParentAcknowledged?
    case Adopt(at, v) => at in w.nodes && IsIntroduction(w, at, v)
  }

  /** The handlers of nodes and servers; clients have none of their own here. */
  function Handle(w: World, at: Addr, p: Packet, from: Addr, now: nat, o: Orders): World {
    if at in w.nodes then w.(nodes := w.nodes[at := HandlePacket(w.nodes[at], p, from, now, o)])
    else if at in w.servers then w.(servers := w.servers[at := ServerModel.HandlePacket(w.servers[at], p, from)])
    else w
  }

  function Next(w: World, e: WorldEvent): World
    requires Enabled(w, e)
  {
    match e
    case Transport(ev, now, o) =>
      var w1 := w.(net := ReliableRuns.Next(w.net, ev));
      if Returns(ev) then Handle(w1, ev.at, ev.body.payload, ev.from, now, o) else w1
    case Local(at, ev) => w.(nodes := w.nodes[at := Apply(w.nodes[at], ev)])
    case Adopt(at, v) =>
      var parent := w.net.endpoints[at].calls[v.id].to;
      w.(nodes := w.nodes[at := Apply(w.nodes[at], ParentAcknowledged(parent))], adopted := w.adopted + {(at, parent)})
  }

  predicate Possible(w: World, es: seq<WorldEvent>)
    decreases |es|, 0
  {
    es == [] || (Possible(w, Front(es)) && Enabled(Run(w, Front(es)), Last(es)))
  }

  function Run(w: World, es: seq<WorldEvent>): World
    requires Possible(w, es)
    decreases |es|, 1
  {
    if es == [] then w else Next(Run(w, Front(es)), Last(es))
  }

  predicate Initial(w: World) {
    ReliableRuns.Initial(w.net) && w.adopted == {}
  }

  // ----- neighbour lists

  /** The node or server at `at` floods `a`. */
  predicate Lists(w: World, at: Addr, a: Addr) {
    || (at in w.nodes && a.ip in w.nodes[at].neighbours)
    || (at in w.servers && a in w.servers[at].neighbours)
  }

  lemma NeighboursGrow(s: Node, e: Event)
    ensures s.neighbours <= Apply(s, e).neighbours
  {
    if e.Received? && e.packet.Flood? {
      FloodNetwork.ReceiveKeeps(s, e.from, e.packet.flood, e.now, e.o);
    } else {
      FloodNetwork.OnlyFloodsSpread(s, e);
    }
  }

  lemma HandlingKeepsLists(w: World, at: Addr, p: Packet, from: Addr, now: nat, o: Orders, b: Addr, a: Addr)
    requires Lists(w, b, a)
    ensures Lists(Handle(w, at, p, from, now, o), b, a)
  {
    if at in w.nodes {
      NeighboursGrow(w.nodes[at], Received(p, from, now, o));
    }
  }

  lemma NextKeepsLists(w: World, e: WorldEvent, b: Addr, a: Addr)
    requires Enabled(w, e) && Lists(w, b, a)
    ensures Lists(Next(w, e), b, a)
  {
    match e
    case Transport(ev, now, o) =>
      if Returns(ev) {
        var w1 := w.(net := ReliableRuns.Next(w.net, ev));
        HandlingKeepsLists(w1, ev.at, ev.body.payload, ev.from, now, o, b, a);
      }
    case Local(at, ev) => NeighboursGrow(w.nodes[at], ev);
    case Adopt(at, v) =>
  }

  /** Neighbour lists never lose anyone. */
  lemma {:induction false} ListsNeverShrink(w: World, es: seq<WorldEvent>, b: Addr, a: Addr)
    requires Possible(w, es) && Lists(w, b, a)
    ensures Lists(Run(w, es), b, a)
  {
    if es == [] {
    } else {
      ListsNeverShrink(w, Front(es), b, a);
      NextKeepsLists(Run(w, Front(es)), Last(es), b, a);
    }
  }

  // ----- the endpoints take an ordinary run

  function Transports(es: seq<WorldEvent>): seq<ReliableRuns.Event> {
    if es == [] then [] else
      var rest := Transports(Front(es));
      if Last(es).Transport? then rest + [Last(es).e] else rest
  }

  lemma NextNet(w: World, e: WorldEvent)
    requires Enabled(w, e)
    ensures Next(w, e).net == if e.Transport? then ReliableRuns.Next(w.net, e.e) else w.net
    ensures Next(w, e).nodes.Keys == w.nodes.Keys && Next(w, e).servers.Keys == w.servers.Keys
  {
  }

  lemma {:induction false} EndpointsRun(w: World, es: seq<WorldEvent>)
    requires Possible(w, es)
    ensures ReliableRuns.Possible(w.net, Transports(es))
    ensures Run(w, es).net == ReliableRuns.Run(w.net, Transports(es))
    ensures Run(w, es).nodes.Keys == w.nodes.Keys && Run(w, es).servers.Keys == w.servers.Keys
  {
    if es == [] {
    } else {
      EndpointsRun(w, Front(es));
      NextNet(Run(w, Front(es)), Last(es));
      if Last(es).Transport? {
        ReliableRuns.RunSnoc(w.net, Transports(Front(es)), Last(es).e);
      }
    }
  }

  // ----- introductions are handled

  /** `b` has received an introduction from `a`. */
  ghost predicate Introduced(w: World, b: Addr, a: Addr) {
    b in w.net.endpoints
    && exists r :: r in w.net.endpoints[b].received && r.from == a && !r.body.Ack? && r.body.payload == NewNeighbour
  }

  lemma NextHandlesIntroduction(w: World, e: WorldEvent, b: Addr, a: Addr)
    requires Enabled(w, e) && (b in w.nodes || b in w.servers)
    requires Introduced(w, b, a) ==> Lists(w, b, a)
    requires Introduced(Next(w, e), b, a)
    ensures Lists(Next(w, e), b, a)
  {
    if Introduced(w, b, a) {
      NextKeepsLists(w, e, b, a);
    } else {
      var ev := e.e;
      ReliableRuns.StepReceives(w.net.endpoints[b], ev, w.net.clock);
      assert ev.Arrive? && ev.at == b && ev.from == a && !ev.body.Ack? && ev.body.payload == NewNeighbour;
      assert Returns(ev);
    }
  }

  lemma {:induction false} IntroductionsAreHandled(w: World, es: seq<WorldEvent>, b: Addr, a: Addr)
    requires Initial(w) && Possible(w, es) && (b in w.nodes || b in w.servers)
    requires Introduced(Run(w, es), b, a)
    ensures Lists(Run(w, es), b, a)
  {
    if es == [] {
    } else {
      EndpointsRun(w, Front(es));
      if Introduced(Run(w, Front(es)), b, a) {
        IntroductionsAreHandled(w, Front(es), b, a);
      }
      NextHandlesIntroduction(Run(w, Front(es)), Last(es), b, a);
    }
  }

  lemma {:induction false} AdoptedWasIntroduced(w: World, es: seq<WorldEvent>, a: Addr, b: Addr)
    requires Initial(w) && Possible(w, es) && (a, b) in Run(w, es).adopted && a in w.net.endpoints
    ensures Introduced(Run(w, es), b, a) && Lists(Run(w, es), a, b)
  {
    var w0, e := Run(w, Front(es)), Last(es);
    EndpointsRun(w, Front(es));
    if (a, b) in w0.adopted {
      AdoptedWasIntroduced(w, Front(es), a, b);
      NextKeepsLists(w0, e, a, b);
      IntroductionsStay(w0, e, b, a);
    } else {
      ReliableRuns.AcknowledgedMeansReceived(w.net, Transports(Front(es)), a, e.v);
    }
  }

  lemma ReceivedStays(s: ReliableRuns.System, e: ReliableRuns.Event, b: Addr, r: Reliable.Arrival)
    requires ReliableRuns.Enabled(s, e) && b in s.endpoints && r in s.endpoints[b].received
    ensures b in ReliableRuns.Next(s, e).endpoints && r in ReliableRuns.Next(s, e).endpoints[b].received
  {
    if !e.Pass? {
      ReliableRuns.StepExtends(s.endpoints[e.at], e, s.clock);
    }
  }

  lemma IntroductionsStay(w: World, e: WorldEvent, b: Addr, a: Addr)
    requires Enabled(w, e) && Introduced(w, b, a)
    ensures Introduced(Next(w, e), b, a)
  {
    var r :| r in w.net.endpoints[b].received && r.from == a && !r.body.Ack? && r.body.payload == NewNeighbour;
    NextNet(w, e);
    if e.Transport? {
      ReceivedStays(w.net, e.e, b, r);
    }
    assert r in Next(w, e).net.endpoints[b].received;
  }

  /** In every run over lossy, duplicating and reordering links: if `a` has adopted `b` after `b`'s
      endpoint acknowledged its introduction, then each of the two lists the other from then on,
      provided that a node or a server runs at `b`. */
  lemma {:induction false} AdoptionIsMutual(w: World, es: seq<WorldEvent>, a: Addr, b: Addr)
    requires Initial(w) && Possible(w, es) && (a, b) in Run(w, es).adopted && a in w.net.endpoints
    requires b in w.nodes || b in w.servers
    ensures Lists(Run(w, es), a, b) && Lists(Run(w, es), b, a)
  {
    AdoptedWasIntroduced(w, es, a, b);
    IntroductionsAreHandled(w, es, b, a);
  }
}
