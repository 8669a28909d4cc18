/**
 What happens when an upstream dies: exactly which videos move, which are queued and who is
 approached; and how a grandparent that has been approached restores a queued video.
 */
module Recovery {
  import opened Common
  import opened NodeModel
  import opened NodeFailover
  import opened NodeReactions
  import opened NodeUpstreams
  import opened ControlLog
  import opened VideoLog
  import opened Relay
  import FloodNetwork

  // ----- introductions

  /** Those to whom the node has introduced itself, in order. */
  function Approached(sent: seq<Envelope>): seq<Addr> {
    if sent == [] then [] else
      var rest := Approached(Front(sent));
      if Last(sent).Reliable? && Last(sent).body == NewNeighbour then rest + [Last(sent).to] else rest
  }

  lemma ApproachedSnoc(sent: seq<Envelope>, e: Envelope)
    ensures Approached(sent + [e]) == Approached(sent) + if e.Reliable? && e.body == NewNeighbour then [e.to] else []
  {
    assert Front(sent + [e]) == sent;
  }

  lemma {:induction false} ApproachedAppend(sent: seq<Envelope>, more: seq<Envelope>)
    ensures Approached(sent + more) == Approached(sent) + Approached(more)
  {
    if more == [] {
      assert sent + more == sent;
    } else {
      ApproachedAppend(sent, Front(more));
      assert Front(sent + more) == sent + Front(more);
    }
  }

  lemma {:induction false} IntroductionsApproach(me: Addr, parents: seq<Addr>)
    ensures Approached(Introductions(me, parents)) == Without(parents, me)
  {
    if parents == [] {
    } else {
      IntroductionsApproach(me, Front(parents));
      ApproachedSnoc(Introductions(me, Front(parents)), Reliable(Last(parents), NewNeighbour));
    }
  }

  lemma StopApproachesNobody(s: Node, v: VideoId, a: Addr)
    ensures Approached(HandleStopVideo(s, v, a).sent) == Approached(s.sent)
  {
    var s1 := Unsubscribe(s, v, a);
    if s1.SubscribersOf(v) == [] && v in s1.routes {
      ApproachedSnoc(s1.sent, Reliable(s1.routes[v], StopVideo(v)));
    }
  }

  lemma {:induction false} StopAllApproachesNobody(s: Node, vs: seq<VideoId>, a: Addr)
    ensures Approached(StopAll(s, vs, a).sent) == Approached(s.sent)
  {
    if vs == [] {
    } else {
      StopAllApproachesNobody(s, Front(vs), a);
      StopApproachesNobody(StopAll(s, Front(vs), a), Last(vs), a);
    }
  }

  lemma {:induction false} RedirectApproachesNobody(s: Node, vs: seq<VideoId>, o: Orders)
    ensures Approached(Redirect(s, vs, o).0.sent) == Approached(s.sent)
  {
    if vs == [] {
    } else {
      RedirectApproachesNobody(s, Front(vs), o);
      var s1 := Redirect(s, Front(vs), o).0;
      match BestNode(s1, Last(vs), o)
      case Some(n) => ApproachedSnoc(s1.sent, Reliable(n, RequestVideo(Last(vs))));
      case None =>
    }
  }

  /** What is left over is exactly what nobody offers. */
  lemma {:induction false} RedirectLeavesUnoffered(s: Node, vs: seq<VideoId>, o: Orders, v: VideoId)
    ensures var (s', remaining) := Redirect(s, vs, o);
      && (v in remaining <==> v in vs && !s.Offered(v))
      && (if v in vs && s.Offered(v) then v in s'.routes && s.OffersVia(s'.routes[v], v)
          else (v in s'.routes <==> v in s.routes) && (v in s.routes ==> s'.routes[v] == s.routes[v]))
  {
    if vs == [] {
    } else {
      RedirectLeavesUnoffered(s, Front(vs), o, v);
    }
  }

  lemma {:induction false} VideosFromOnce(s: Node, a: Addr, order: seq<VideoId>)
    requires NoDuplicates(order)
    ensures NoDuplicates(VideosFrom(s, a, order))
  {
    if order == [] {
    } else {
      VideosFromOnce(s, a, Front(order));
      assert Last(order) !in Front(order);
    }
  }

  lemma ReceivingOnce(s: Node, a: Addr, o: Orders)
    ensures NoDuplicates(Receiving(s, a, o))
  {
    Once(o.routes(s.routes.Keys), s.routes.Keys);
    VideosFromOnce(s, a, RoutedOrder(s, o));
  }

  // ----- the death of a neighbour

  /** A video that came from `a` now comes from another, responsive neighbour that offers it, or, if
      there is none, has joined the queue; no other video has. */
  lemma DeathMovesVideos(s: Node, a: Addr, o: Orders, v: VideoId)
    requires a in s.available
    ensures var s1 := MarkUnresponsive(s, a);
      var s' := HandleUnresponsiveNode(s1, a, o);
      && (v in s'.pending <==> v in s.pending || (s.RoutesTo(v, a) && !s1.Offered(v)))
      && (s.RoutesTo(v, a) && s1.Offered(v) ==> v in s'.routes && s'.routes[v] != a && s'.OffersVia(s'.routes[v], v))
  {
    var s1 := MarkUnresponsive(s, a);
    RedirectLeavesUnoffered(StopAll(s1, Sending(s1, a, o), a), Receiving(s1, a, o), o, v);
  }

  lemma {:induction false} RedirectStopsNobody(s: Node, vs: seq<VideoId>, o: Orders, v: VideoId)
    ensures Stops(Redirect(s, vs, o).0.sent, v) == Stops(s.sent, v)
  {
    if vs == [] {
    } else {
      RedirectStopsNobody(s, Front(vs), o, v);
      var s1 := Redirect(s, Front(vs), o).0;
      match BestNode(s1, Last(vs), o)
      case Some(n) => StopsSnoc(s1.sent, Reliable(n, RequestVideo(Last(vs))), v);
      case None =>
    }
  }

  lemma {:induction false} IntroductionsStopNobody(me: Addr, parents: seq<Addr>, sent: seq<Envelope>, v: VideoId)
    ensures Stops(sent + Introductions(me, parents), v) == Stops(sent, v)
  {
    if parents == [] {
      assert sent + Introductions(me, parents) == sent;
    } else {
      IntroductionsStopNobody(me, Front(parents), sent, v);
      var rest := Introductions(me, Front(parents));
      StopsSnoc(sent + rest, Reliable(Last(parents), NewNeighbour), v);
      assert sent + (rest + [Reliable(Last(parents), NewNeighbour)]) ==
        (sent + rest) + [Reliable(Last(parents), NewNeighbour)];
    }
  }

  lemma QueueingStopsNobody(s: Node, a: Addr, remaining: seq<VideoId>, v: VideoId)
    ensures Stops(QueueRemaining(s, a, remaining).sent, v) == Stops(s.sent, v)
  {
    if remaining == [] {
      assert s.sent + [] == s.sent;
    } else {
      IntroductionsStopNobody(s.addr, ParentsOf(s, a), s.sent, v);
    }
  }

  lemma EndedSubscriptions(s: Node, a: Addr, o: Orders, v: VideoId)
    ensures var s' := StopAll(s, Sending(s, a, o), a);
      && (v in s'.routes <==> v in s.routes && s.SubscribersOf(v) != [a])
      && (v in s'.routes ==> s'.routes[v] == s.routes[v])
      && Stops(s'.sent, v) == Stops(s.sent, v) +
           if v in s.routes && s.SubscribersOf(v) == [a] then [s.routes[v]] else []
  {
    StopAllAt(s, Sending(s, a, o), a, v);
    if a in s.SubscribersOf(v) {
      OnlySubscriber(s.SubscribersOf(v), a);
    }
  }

  /** A video that the dead neighbour alone has watched is stopped at its upstream, once; no other is. Unless it
      came from the dead neighbour it then has no route, and a video that neither came from there nor was
      watched there alone keeps its upstream. */
  lemma DeathStopsTheUnwatched(s: Node, a: Addr, o: Orders, v: VideoId)
    requires a in s.available
    ensures var s' := HandleUnresponsiveNode(MarkUnresponsive(s, a), a, o);
      && Stops(s'.sent, v) == Stops(s.sent, v) +
           (if v in s.routes && s.SubscribersOf(v) == [a] then [s.routes[v]] else [])
      && (!s.RoutesTo(v, a) ==>
            && (v in s'.routes <==> v in s.routes && s.SubscribersOf(v) != [a])
            && (v in s'.routes ==> s'.routes[v] == s.routes[v]))
  {
    var s1 := MarkUnresponsive(s, a);
    var receiving := Receiving(s1, a, o);
    var s2 := StopAll(s1, Sending(s1, a, o), a);
    EndedSubscriptions(s1, a, o, v);
    RedirectStopsNobody(s2, receiving, o, v);
    RedirectLeavesUnoffered(s2, receiving, o, v);
    QueueingStopsNobody(Redirect(s2, receiving, o).0, a, Redirect(s2, receiving, o).1, v);
  }

  /** The node introduces itself to the dead neighbour's parents, each time they are listed and except to
      the address that it listens on itself, if and only if some video that came from the neighbour is on
      offer nowhere else. */
  lemma DeathApproachesGrandparents(s: Node, a: Addr, o: Orders)
    requires a in s.available
    ensures var s1 := MarkUnresponsive(s, a);
      Approached(HandleUnresponsiveNode(s1, a, o).sent) == Approached(s.sent) +
        if exists v :: s.RoutesTo(v, a) && !s1.Offered(v) then Without(s.available[a].nodeType.parents, s.addr) else []
  {
    var s1 := MarkUnresponsive(s, a);
    var receiving := Receiving(s1, a, o);
    var sending := Sending(s1, a, o);
    var s2 := StopAll(s1, sending, a);
    StopAllApproachesNobody(s1, sending, a);
    RedirectApproachesNobody(s2, receiving, o);
    var (s3, remaining) := Redirect(s2, receiving, o);
    RemainingIff(s, a, o, s2, receiving);
    IntroductionsApproach(s.addr, s.available[a].nodeType.parents);
    ApproachedAppend(s3.sent, if remaining == [] then [] else Introductions(s.addr, s.available[a].nodeType.parents));
  }

  lemma RemainingIff(s: Node, a: Addr, o: Orders, s2: Node, receiving: seq<VideoId>)
    requires a in s.available && s2.overlay == MarkUnresponsive(s, a).overlay
    requires forall v :: v in receiving <==> s.RoutesTo(v, a)
    ensures Redirect(s2, receiving, o).1 != [] <==> exists v :: s.RoutesTo(v, a) && !MarkUnresponsive(s, a).Offered(v)
  {
    var remaining := Redirect(s2, receiving, o).1;
    if remaining != [] {
      RedirectLeavesUnoffered(s2, receiving, o, Last(remaining));
      assert Last(remaining) in remaining;
    }
    if v :| s.RoutesTo(v, a) && !MarkUnresponsive(s, a).Offered(v) {
      RedirectLeavesUnoffered(s2, receiving, o, v);
    }
  }

  // ----- rescue by a grandparent

  /** A node that accepts a flood packet advertises each of its videos to every neighbour but the sender. */
  lemma AcceptedFloodReaches(p: Node, from: Addr, f: FloodPacket, now: nat, o: Orders, to: Addr, v: VideoId)
    returns (g: FloodPacket)
    requires p.id !in f.visited && v in Ids(f.videos)
    requires to == At(to.ip) && to.ip in p.neighbours && to != from
    ensures var p1 := HandleFloodPacket(p, from, f, now, o);
      && p.relayed <= p1.relayed && Reliable(to, Flood(g)) in p1.relayed[|p.relayed|..]
      && p1.OffersVia(from, v)
    ensures g.visited == f.visited + [p.id] && v in Ids(g.videos)
  {
    var s1 := CheckPendingVideos(RecordFlood(p, from, f, now), from, f.videos);
    FloodNetwork.AcceptedFloodSpreads(p, from, f, now, o);
    assert s1.available[from].Offers(v);
    g := BroadcastReaches(s1, from, f, o, to, v);
  }

  lemma BroadcastReaches(s: Node, from: Addr, f: FloodPacket, o: Orders, to: Addr, v: VideoId)
    returns (g: FloodPacket)
    requires s.OffersVia(from, v) && v in s.names
    requires to == At(to.ip) && to.ip in s.neighbours && to != from
    ensures Reliable(to, Flood(g)) in Broadcast(s, s.neighbours, from, f, o)
    ensures g.visited == f.visited + [s.id] && v in Ids(g.videos)
  {
    var copy := FloodTo(s, to, f, o);
    g := copy.body.flood;
    assert copy in Broadcast(s, s.neighbours, from, f, o);
    InIds(g.videos, (v, s.names[v]));
  }

  lemma {:induction false} RequestAllAsksEach(s: Node, us: seq<VideoId>, n: Addr, v: VideoId)
    ensures Requests(RequestAll(s, us, n).sent, v) == Requests(s.sent, v) + seq(multiset(us)[v], i => n)
  {
    if us == [] {
      assert Requests(s.sent, v) + [] == Requests(s.sent, v);
    } else {
      RequestAllAsksEach(s, Front(us), n, v);
      RequestsSnoc(RequestAll(s, Front(us), n).sent, Reliable(n, RequestVideo(Last(us))), v);
      CountLast(us, v);
    }
  }

  lemma {:induction false} QueuedCount(pending: seq<VideoId>, ids: seq<VideoId>, v: VideoId)
    ensures multiset(Queued(pending, ids))[v] == if v in ids then multiset(pending)[v] else 0
  {
    if pending == [] {
    } else {
      QueuedCount(Front(pending), ids, v);
      CountLast(pending, v);
    }
  }

  /** An accepted flood packet takes exactly the videos that it lists off the queue, and asks its sender for
      each as often as it was queued; all others keep their upstream. */
  lemma FloodServesTheQueue(s: Node, from: Addr, p: FloodPacket, now: nat, o: Orders, v: VideoId)
    requires s.id !in p.visited
    ensures var s' := HandleFloodPacket(s, from, p, now, o);
      var served := v in s.pending && v in Ids(p.videos);
      && multiset(s'.pending)[v] == (if served then 0 else multiset(s.pending)[v])
      && Requests(s'.sent, v) == Requests(s.sent, v) + (if served then seq(multiset(s.pending)[v], i => from) else [])
      && (served ==> s'.RoutesTo(v, from))
      && (!served ==> (v in s'.routes <==> v in s.routes) && (v in s.routes ==> s'.routes[v] == s.routes[v]))
  {
    var s1 := RecordFlood(s, from, p, now);
    var ready := Queued(s.pending, Ids(p.videos));
    RequestAllRoutes(s1, ready, from, v);
    RequestAllAsksEach(s1, ready, from, v);
    QueuedCount(s.pending, Ids(p.videos), v);
    WithoutAllCounts(s.pending, ready, v);
  }

  /** The first accepted flood packet that lists a queued video settles it: its sender is asked. */
  lemma QueuedVideoIsRequested(n: Node, from: Addr, g: FloodPacket, now: nat, o: Orders, v: VideoId)
    requires v in n.pending && n.id !in g.visited && v in Ids(g.videos)
    ensures var n1 := HandleFloodPacket(n, from, g, now, o);
      n1.RoutesTo(v, from) && v !in n1.pending && Asked(n1.sent, from, v)
  {
    var s1 := RecordFlood(n, from, g, now);
    var ready := Queued(s1.pending, Ids(g.videos));
    RequestAllRoutes(s1, ready, from, v);
    RequestAllAsks(s1, ready, from, v, from);
  }

  lemma RequestIsServed(p: Node, v: VideoId, a: Addr, from: Addr, now: nat, o: Orders, q: VideoPacket)
    requires p.OffersVia(from, v)
    ensures var p2 := HandleRequestVideo(p, v, a, o);
      && v in p2.routes && a in p2.SubscribersOf(v)
      && (q.stream == v && InOrder(p2, q) ==>
            VideoFor(HandleVideoPacket(p2, q, now).relayed, a, v) == VideoFor(p2.relayed, a, v) + [q])
  {
    OfferedVideoIsRouted(p, v, a, o, from);
    RequestAt(p, v, a, o, v);
    VideoStepRelays(HandleRequestVideo(p, v, a, o), q, now, v, a);
  }

  /** The recovery that the documentation describes. Node `n` waits for a video after its upstream
      has died; node `p` has adopted `n`. The next flood packet that `p` accepts and that lists the
      video makes `p` send `n` one that lists it too; when `n` handles that, it leaves the queue
      and asks `p`; and when `p` handles the request, `p` has the video routed and from then on
      sends `n` each packet that is in order, once. */
  lemma GrandparentRestoresVideo(n: Node, p: Node, from: Addr, f: FloodPacket, v: VideoId, t1: nat, t2: nat,
                                 t3: nat, o1: Orders, o2: Orders, o3: Orders, q: VideoPacket)
    returns (g: FloodPacket)
    requires v in n.pending && v in Ids(f.videos)
    requires n.addr == At(n.addr.ip) && n.addr.ip in p.neighbours && n.addr != from
    requires p.id !in f.visited && n.id !in f.visited && n.id != p.id
    ensures var p1 := HandleFloodPacket(p, from, f, t1, o1);
      var n1 := HandleFloodPacket(n, p.addr, g, t2, o2);
      var p2 := HandleRequestVideo(p1, v, n.addr, o3);
      var p3 := HandleVideoPacket(p2, q, t3);
      && p.relayed <= p1.relayed && Reliable(n.addr, Flood(g)) in p1.relayed[|p.relayed|..]
      && n1.RoutesTo(v, p.addr) && v !in n1.pending && Asked(n1.sent, p.addr, v)
      && v in p2.routes && n.addr in p2.SubscribersOf(v)
      && (q.stream == v && InOrder(p2, q) ==>
            VideoFor(p3.relayed, n.addr, v) == VideoFor(p2.relayed, n.addr, v) + [q])
  {
    g := AcceptedFloodReaches(p, from, f, t1, o1, n.addr, v);
    QueuedVideoIsRequested(n, p.addr, g, t2, o2, v);
    var p1 := HandleFloodPacket(p, from, f, t1, o1);
    RequestIsServed(p1, v, n.addr, from, t3, o3, q);
  }
}
