/**
 Where the videos of a dead upstream go: each to a first choice by the routes that hold when its
 turn comes, so that equally good neighbours end up with equally many.
 */
module Redirection {
  import opened Common
  import opened Selection
  import opened NodeModel
  import opened NodeSelection
  import opened NodeReactions
  import opened Recovery

  // ----- each video in its turn

  /** Each video that somebody offers gets a first choice by the state in which those before it have moved. */
  lemma {:induction false} RedirectTakesTheBest(s: Node, vs: seq<VideoId>, o: Orders, k: nat)
    requires k < |vs| && NoDuplicates(vs) && s.Offered(vs[k])
    ensures var s' := Redirect(s, vs, o).0;
      vs[k] in s'.routes && FirstChoice(Redirect(s, vs[..k], o).0, vs[k], s'.routes[vs[k]])
  {
    if k == |vs| - 1 {
      assert vs[..k] == Front(vs);
      SelectionIsBest(Redirect(s, Front(vs), o).0, Last(vs), o);
    } else {
      assert Front(vs)[..k] == vs[..k] && Front(vs)[k] == vs[k];
      RedirectTakesTheBest(s, Front(vs), o, k);
    }
  }

  /** The same for the death of an upstream, whose videos move after its own subscriptions have ended. */
  lemma DeathTakesTheBest(s: Node, a: Addr, o: Orders, k: nat)
    requires a in s.available
    requires var s1 := MarkUnresponsive(s, a);
      var vs := Receiving(s1, a, o);
      k < |vs| && s1.Offered(vs[k])
    ensures var s1 := MarkUnresponsive(s, a);
      var vs := Receiving(s1, a, o);
      var s2 := Redirect(StopAll(s1, Sending(s1, a, o), a), vs[..k], o).0;
      var s' := HandleUnresponsiveNode(s1, a, o);
      vs[k] in s'.routes && FirstChoice(s2, vs[k], s'.routes[vs[k]])
  {
    var s1 := MarkUnresponsive(s, a);
    ReceivingOnce(s1, a, o);
    RedirectTakesTheBest(StopAll(s1, Sending(s1, a, o), a), Receiving(s1, a, o), o, k);
  }

  // ----- equally good neighbours share

  /** The members of the group have as many hops, and none is more than 30% slower than another. */
  ghost predicate Alike(s: Node, group: set<Addr>) {
    forall b, c :: b in group && c in group ==>
      && b in s.available && c in s.available
      && s.available[b].hops == s.available[c].hops
      && Average(s.available[b].delays) <=
           Average(s.available[c].delays) + Average(s.available[c].delays) / 100 * 30
  }

  ghost predicate OfferedBy(s: Node, v: VideoId, group: set<Addr>) {
    forall b :: s.OffersVia(b, v) <==> b in group
  }

  function Onto(routes: map<VideoId, Addr>, a: Addr): set<VideoId> {
    set v | v in routes && routes[v] == a
  }

  function RoutedTo(s: Node, a: Addr): set<VideoId> {
    Onto(s.routes, a)
  }

  /** The numbers of videos routed to the members differ by at most one. */
  ghost predicate Balanced(s: Node, group: set<Addr>) {
    forall b, c :: b in group && c in group ==> |RoutedTo(s, b)| <= |RoutedTo(s, c)| + 1
  }

  lemma ChoiceHasFewest(s: Node, v: VideoId, group: set<Addr>, a: Addr, b: Addr)
    requires OfferedBy(s, v, group) && Alike(s, group) && FirstChoice(s, v, a) && b in group
    ensures a in group && |RoutedTo(s, a)| <= |RoutedTo(s, b)|
  {
    assert s.OffersVia(a, v) && s.OffersVia(b, v);
    assert NearFor(s, v, b);
    assert NotBehind(s, a, b);
    assert RoutedTo(s, a) == (set u | u in s.routes && s.routes[u] == a);
    assert RoutedTo(s, b) == (set u | u in s.routes && s.routes[u] == b);
  }

  lemma OneMoreRouted(routes: map<VideoId, Addr>, v: VideoId, a: Addr, b: Addr)
    requires v in routes ==> routes[v] !in {a, b}
    ensures |Onto(routes[v := a], b)| == |Onto(routes, b)| + if b == a then 1 else 0
  {
    var routes' := routes[v := a];
    if b == a {
      assert Onto(routes', b) == Onto(routes, b) + {v};
    } else {
      assert Onto(routes', b) == Onto(routes, b);
    }
  }

  /** Routing one more video to the one with fewest keeps the balance. */
  lemma OneMoreKeepsBalance(s: Node, v: VideoId, group: set<Addr>, a: Addr)
    requires OfferedBy(s, v, group) && Alike(s, group) && FirstChoice(s, v, a) && Balanced(s, group)
    requires v in s.routes ==> s.routes[v] !in group
    ensures Balanced(RequestVideoToNode(s, v, a), group)
  {
    var s' := RequestVideoToNode(s, v, a);
    forall b | b in group
      ensures a in group && |RoutedTo(s, a)| <= |RoutedTo(s, b)|
      ensures |RoutedTo(s', b)| == |RoutedTo(s, b)| + if b == a then 1 else 0
    {
      ChoiceHasFewest(s, v, group, a, b);
      OneMoreRouted(s.routes, v, a, b);
    }
  }

  /** However many videos are redirected and in whatever order, they spread evenly over those that offer them. */
  lemma {:induction false} RedirectSpreadsEvenly(s: Node, vs: seq<VideoId>, o: Orders, group: set<Addr>)
    requires NoDuplicates(vs) && Alike(s, group) && Balanced(s, group)
    requires forall v :: v in vs ==> OfferedBy(s, v, group) && (v in s.routes ==> s.routes[v] !in group)
    ensures Balanced(Redirect(s, vs, o).0, group)
  {
    if vs == [] {
    } else {
      var s1, v := Redirect(s, Front(vs), o).0, Last(vs);
      RedirectSpreadsEvenly(s, Front(vs), o, group);
      assert v in vs && v !in Front(vs);
      RedirectLeavesUnoffered(s, Front(vs), o, v);
      if BestNode(s1, v, o).Some? {
        SelectionIsBest(s1, v, o);
        assert OfferedBy(s1, v, group) && Alike(s1, group);
        OneMoreKeepsBalance(s1, v, group, BestNode(s1, v, o).value);
      }
    }
  }

  ghost predicate WatchesNothing(s: Node, a: Addr) {
    forall v :: a !in s.SubscribersOf(v)
  }

  lemma NothingToStop(s: Node, a: Addr, o: Orders)
    requires a in s.available && WatchesNothing(s, a)
    ensures var s1 := MarkUnresponsive(s, a);
      StopAll(s1, Sending(s1, a, o), a) == s1
  {
    var s1 := MarkUnresponsive(s, a);
    var sending := Sending(s1, a, o);
    assert forall v :: s1.SubscribersOf(v) == s.SubscribersOf(v);
    HeadIsIn(sending);
  }

  lemma SameRoutesSameBalance(s: Node, s': Node, group: set<Addr>)
    requires s'.routes == s.routes && Balanced(s, group)
    ensures Balanced(s', group)
  {
    assert forall b :: RoutedTo(s', b) == RoutedTo(s, b);
  }

  /** When an upstream dies that watches nothing itself, its videos spread evenly over the neighbours that
      offer them. */
  lemma DeathSpreadsEvenly(s: Node, a: Addr, o: Orders, group: set<Addr>)
    requires a in s.available && a !in group && WatchesNothing(s, a)
    requires Alike(s, group) && Balanced(s, group)
    requires forall v :: s.RoutesTo(v, a) ==> OfferedBy(MarkUnresponsive(s, a), v, group)
    ensures Balanced(HandleUnresponsiveNode(MarkUnresponsive(s, a), a, o), group)
  {
    var s1 := MarkUnresponsive(s, a);
    NothingToStop(s, a, o);
    ReceivingOnce(s1, a, o);
    assert Alike(s1, group);
    SameRoutesSameBalance(s, s1, group);
    RedirectSpreadsEvenly(s1, Receiving(s1, a, o), o, group);
    SameRoutesSameBalance(Redirect(s1, Receiving(s1, a, o), o).0, HandleUnresponsiveNode(s1, a, o), group);
  }

  lemma RoutesAfterDeath(s: Node, a: Addr, o: Orders, v: VideoId)
    requires a in s.available && WatchesNothing(s, a)
    ensures var s1 := MarkUnresponsive(s, a);
      var s' := HandleUnresponsiveNode(s1, a, o);
      if s.RoutesTo(v, a) && s1.Offered(v) then v in s'.routes && s1.OffersVia(s'.routes[v], v)
      else (v in s'.routes <==> v in s.routes) && (v in s.routes ==> s'.routes[v] == s.routes[v])
  {
    var s1 := MarkUnresponsive(s, a);
    NothingToStop(s, a, o);
    RedirectLeavesUnoffered(s1, Receiving(s1, a, o), o, v);
  }

  /** `u` is among those moved and newly routed to a member of the group, or keeps its route. */
  ghost predicate MovedOrKept(s: Node, s': Node, u: VideoId, moved: set<VideoId>, group: set<Addr>) {
    if u in moved then u in s'.routes && s'.routes[u] in group && (u in s.routes ==> s.routes[u] !in group)
    else (u in s'.routes <==> u in s.routes) && (u in s.routes ==> s'.routes[u] == s.routes[u])
  }

  ghost predicate OnlyTheseMoved(s: Node, s': Node, moved: set<VideoId>, group: set<Addr>) {
    forall u :: MovedOrKept(s, s', u, moved, group)
  }

  lemma BothToOne(s: Node, s': Node, v: VideoId, w: VideoId, b: Addr, c: Addr)
    requires OnlyTheseMoved(s, s', {v, w}, {b, c}) && v != w && b != c && s'.RoutesTo(v, b) && s'.RoutesTo(w, b)
    ensures |RoutedTo(s', b)| == |RoutedTo(s, b)| + 2 && |RoutedTo(s', c)| == |RoutedTo(s, c)|
  {
    forall u
      ensures u in RoutedTo(s', b) <==> u in RoutedTo(s, b) || u in {v, w}
      ensures u in RoutedTo(s', c) <==> u in RoutedTo(s, c)
      ensures u in {v, w} ==> u !in RoutedTo(s, b)
    {
      assert MovedOrKept(s, s', u, {v, w}, {b, c});
    }
    assert RoutedTo(s', b) == RoutedTo(s, b) + {v} + {w};
    assert RoutedTo(s', c) == RoutedTo(s, c);
  }

  lemma BalanceParts(s: Node, s': Node, v: VideoId, w: VideoId, b: Addr, c: Addr)
    requires OnlyTheseMoved(s, s', {v, w}, {b, c}) && v != w && b != c
    requires |RoutedTo(s, b)| == |RoutedTo(s, c)| && Balanced(s', {b, c})
    ensures v in s'.routes && w in s'.routes && {s'.routes[v], s'.routes[w]} == {b, c}
  {
    assert MovedOrKept(s, s', v, {v, w}, {b, c}) && MovedOrKept(s, s', w, {v, w}, {b, c});
    if s'.routes[v] == b && s'.routes[w] == b {
      BothToOne(s, s', v, w, b, c);
    } else if s'.routes[v] == c && s'.routes[w] == c {
      assert {c, b} == {b, c};
      BothToOne(s, s', v, w, c, b);
    }
  }

  lemma EqualsAreBalanced(s: Node, b: Addr, c: Addr)
    requires |RoutedTo(s, b)| == |RoutedTo(s, c)|
    ensures Balanced(s, {b, c})
  {
  }

  lemma OfferedByMember(s: Node, u: VideoId, group: set<Addr>, b: Addr)
    requires OfferedBy(s, u, group) && b in group
    ensures s.Offered(u)
  {
    assert s.OffersVia(b, u);
  }

  lemma DeathMovesOne(s: Node, a: Addr, o: Orders, u: VideoId, moved: set<VideoId>, group: set<Addr>, b: Addr)
    requires a in s.available && a !in group && WatchesNothing(s, a) && b in group
    requires s.RoutesTo(u, a) <==> u in moved
    requires u in moved ==> OfferedBy(MarkUnresponsive(s, a), u, group)
    ensures MovedOrKept(s, HandleUnresponsiveNode(MarkUnresponsive(s, a), a, o), u, moved, group)
  {
    RoutesAfterDeath(s, a, o, u);
    if u in moved {
      OfferedByMember(MarkUnresponsive(s, a), u, group, b);
    }
  }

  lemma DeathMovesThese(s: Node, a: Addr, o: Orders, moved: set<VideoId>, group: set<Addr>, b: Addr)
    requires a in s.available && a !in group && WatchesNothing(s, a) && b in group
    requires forall u :: s.RoutesTo(u, a) <==> u in moved
    requires forall u :: u in moved ==> OfferedBy(MarkUnresponsive(s, a), u, group)
    ensures OnlyTheseMoved(s, HandleUnresponsiveNode(MarkUnresponsive(s, a), a, o), moved, group)
  {
    forall u
      ensures MovedOrKept(s, HandleUnresponsiveNode(MarkUnresponsive(s, a), a, o), u, moved, group)
    {
      DeathMovesOne(s, a, o, u, moved, group, b);
    }
  }

  /** In particular two videos go to two neighbours that offer both and have had equally many. */
  lemma TwoVideosPart(s: Node, a: Addr, b: Addr, c: Addr, v: VideoId, w: VideoId, o: Orders)
    requires a in s.available && a !in {b, c} && b != c && v != w && WatchesNothing(s, a)
    requires forall u :: s.RoutesTo(u, a) <==> u in {v, w}
    requires forall u :: u in {v, w} ==> OfferedBy(MarkUnresponsive(s, a), u, {b, c})
    requires Alike(s, {b, c}) && |RoutedTo(s, b)| == |RoutedTo(s, c)|
    ensures var s' := HandleUnresponsiveNode(MarkUnresponsive(s, a), a, o);
      v in s'.routes && w in s'.routes && {s'.routes[v], s'.routes[w]} == {b, c}
  {
    forall u | s.RoutesTo(u, a)
      ensures OfferedBy(MarkUnresponsive(s, a), u, {b, c})
    {
      assert u in {v, w};
    }
    EqualsAreBalanced(s, b, c);
    DeathSpreadsEvenly(s, a, o, {b, c});
    DeathMovesThese(s, a, o, {v, w}, {b, c}, b);
    BalanceParts(s, HandleUnresponsiveNode(MarkUnresponsive(s, a), a, o), v, w, b, c);
  }

  // ----- who is asked

  lemma {:induction false} StopAllAsksNobody(s: Node, us: seq<VideoId>, a: Addr, v: VideoId)
    ensures Requests(StopAll(s, us, a).sent, v) == Requests(s.sent, v)
  {
    if us == [] {
    } else {
      StopAllAsksNobody(s, Front(us), a, v);
      var s1 := Unsubscribe(StopAll(s, Front(us), a), Last(us), a);
      if s1.SubscribersOf(Last(us)) == [] && Last(us) in s1.routes {
        RequestsSnoc(s1.sent, Reliable(s1.routes[Last(us)], StopVideo(Last(us))), v);
      }
    }
  }

  lemma RequestToNodeAsks(s: Node, u: VideoId, n: Addr, v: VideoId)
    ensures Requests(RequestVideoToNode(s, u, n).sent, v) == Requests(s.sent, v) + if u == v then [n] else []
  {
    RequestsSnoc(s.sent, Reliable(n, RequestVideo(u)), v);
  }

  lemma {:induction false} RedirectAsksOnce(s: Node, vs: seq<VideoId>, o: Orders, v: VideoId)
    requires NoDuplicates(vs)
    ensures var s' := Redirect(s, vs, o).0;
      && (v in vs && s.Offered(v) ==> v in s'.routes)
      && Requests(s'.sent, v) == Requests(s.sent, v) + if v in vs && s.Offered(v) then [s'.routes[v]] else []
  {
    if vs == [] {
    } else {
      var s1, u := Redirect(s, Front(vs), o).0, Last(vs);
      assert u !in Front(vs);
      RedirectAsksOnce(s, Front(vs), o, v);
      match BestNode(s1, u, o)
      case Some(n) =>
        RequestToNodeAsks(s1, u, n, v);
        assert Redirect(s, vs, o).0 == RequestVideoToNode(s1, u, n);
      case None => assert Redirect(s, vs, o).0 == s1;
    }
  }

  lemma {:induction false} IntroductionsAsk(me: Addr, parents: seq<Addr>, sent: seq<Envelope>, v: VideoId)
    ensures Requests(sent + Introductions(me, parents), v) == Requests(sent, v)
  {
    if parents == [] {
      assert sent + Introductions(me, parents) == sent;
    } else {
      IntroductionsAsk(me, Front(parents), sent, v);
      var rest := Introductions(me, Front(parents));
      RequestsSnoc(sent + rest, Reliable(Last(parents), NewNeighbour), v);
      assert sent + (rest + [Reliable(Last(parents), NewNeighbour)]) ==
        (sent + rest) + [Reliable(Last(parents), NewNeighbour)];
    }
  }

  lemma QueueingAsksNobody(s: Node, a: Addr, remaining: seq<VideoId>, v: VideoId)
    ensures Requests(QueueRemaining(s, a, remaining).sent, v) == Requests(s.sent, v)
  {
    if remaining == [] {
      assert s.sent + [] == s.sent;
    } else {
      IntroductionsAsk(s.addr, ParentsOf(s, a), s.sent, v);
    }
  }

  lemma MovingAsksOnce(s: Node, a: Addr, vs: seq<VideoId>, o: Orders, v: VideoId)
    requires NoDuplicates(vs)
    ensures var (s1, remaining) := Redirect(s, vs, o);
      var s' := QueueRemaining(s1, a, remaining);
      && (v in vs && s.Offered(v) ==> v in s'.routes)
      && Requests(s'.sent, v) == Requests(s.sent, v) + if v in vs && s.Offered(v) then [s'.routes[v]] else []
  {
    var (s1, remaining) := Redirect(s, vs, o);
    RedirectAsksOnce(s, vs, o, v);
    QueueingAsksNobody(s1, a, remaining, v);
  }

  /** A death makes the node ask for exactly the videos that came from the dead neighbour and are on offer
      elsewhere, each once, at its new upstream. */
  lemma DeathAsksOnce(s: Node, a: Addr, o: Orders, v: VideoId)
    requires a in s.available
    ensures var s1 := MarkUnresponsive(s, a);
      var s' := HandleUnresponsiveNode(s1, a, o);
      && (s.RoutesTo(v, a) && s1.Offered(v) ==> v in s'.routes)
      && Requests(s'.sent, v) == Requests(s.sent, v) +
           if s.RoutesTo(v, a) && s1.Offered(v) then [s'.routes[v]] else []
  {
    var s1 := MarkUnresponsive(s, a);
    StopAllAsksNobody(s1, Sending(s1, a, o), a, v);
    ReceivingOnce(s1, a, o);
    MovingAsksOnce(StopAll(s1, Sending(s1, a, o), a), a, Receiving(s1, a, o), o, v);
  }

  lemma {:induction false} RemainingOnce(s: Node, vs: seq<VideoId>, o: Orders, v: VideoId)
    requires NoDuplicates(vs)
    ensures multiset(Redirect(s, vs, o).1)[v] == if v in vs && !s.Offered(v) then 1 else 0
  {
    if vs == [] {
    } else {
      RemainingOnce(s, Front(vs), o, v);
      assert v == Last(vs) ==> v !in Front(vs);
    }
  }

  /** A death queues exactly the videos that came from the dead neighbour and are on offer nowhere else, each
      once more. */
  lemma DeathQueuesOnce(s: Node, a: Addr, o: Orders, v: VideoId)
    requires a in s.available
    ensures var s1 := MarkUnresponsive(s, a);
      multiset(HandleUnresponsiveNode(s1, a, o).pending)[v] ==
        multiset(s.pending)[v] + if s.RoutesTo(v, a) && !s1.Offered(v) then 1 else 0
  {
    var s1 := MarkUnresponsive(s, a);
    ReceivingOnce(s1, a, o);
    RemainingOnce(StopAll(s1, Sending(s1, a, o), a), Receiving(s1, a, o), o, v);
  }

  lemma {:induction false} StaleOnce(s: Node, order: seq<Addr>, now: nat)
    requires NoDuplicates(order) && forall a :: a in order ==> a in s.available
    ensures NoDuplicates(StaleParents(s, order, now))
  {
    if order == [] {
    } else {
      StaleOnce(s, Front(order), now);
      assert Last(order) !in Front(order);
    }
  }

  /** A sweep buries nobody twice. */
  lemma SweepBuriesOnce(s: Node, now: nat, o: Orders)
    ensures NoDuplicates(StaleParents(s, RouteTableOrder(s, o), now))
  {
    Once(o.available(s.available.Keys), s.available.Keys);
    StaleOnce(s, RouteTableOrder(s, o), now);
  }

  /** In a sweep the dead are buried one by one, and a video may be moved to a neighbour that is buried next:
      when `a` and `b` alone offer a video that comes from `a` and both are stale, burying `a` first asks
      `b` for it, and burying `b` first asks nobody. */
  lemma SweepAsksTheDying(s: Node, a: Addr, b: Addr, v: VideoId, o: Orders)
    requires a in s.available && b in s.available && a != b && s.RoutesTo(v, a) && OfferedBy(s, v, {a, b})
    ensures Requests(Bury(s, [a, b], o).sent, v) == Requests(s.sent, v) + [b]
    ensures Requests(Bury(s, [b, a], o).sent, v) == Requests(s.sent, v)
  {
    BuryTwo(s, a, b, o);
    BuryTwo(s, b, a, o);
    FirstDeathAsks(s, a, b, v, o);
    var s1 := HandleUnresponsiveNode(MarkUnresponsive(s, a), a, o);
    LastOfferGoes(s, a, b, v, o);
    DeathAsksOnce(s1, b, o, v);
    var s2 := HandleUnresponsiveNode(MarkUnresponsive(s, b), b, o);
    DeathAsksOnce(s, b, o, v);
    LastOfferGoes(s, b, a, v, o);
    DeathAsksOnce(s2, a, o, v);
  }

  lemma FirstDeathAsks(s: Node, a: Addr, b: Addr, v: VideoId, o: Orders)
    requires a in s.available && a != b && s.RoutesTo(v, a) && OfferedBy(s, v, {a, b})
    ensures var s' := HandleUnresponsiveNode(MarkUnresponsive(s, a), a, o);
      Requests(s'.sent, v) == Requests(s.sent, v) + [b]
  {
    assert MarkUnresponsive(s, a).OffersVia(b, v) by {
      assert s.OffersVia(b, v);
    }
    DeathAsksOnce(s, a, o, v);
    DeathMovesVideos(s, a, o, v);
    var s' := HandleUnresponsiveNode(MarkUnresponsive(s, a), a, o);
    assert s.OffersVia(s'.routes[v], v);
  }

  lemma LastOfferGoes(s: Node, a: Addr, b: Addr, v: VideoId, o: Orders)
    requires a in s.available && b in s.available && OfferedBy(s, v, {a, b})
    ensures var s1 := HandleUnresponsiveNode(MarkUnresponsive(s, a), a, o);
      b in s1.available && !MarkUnresponsive(s1, b).Offered(v)
  {
    var s2 := MarkUnresponsive(HandleUnresponsiveNode(MarkUnresponsive(s, a), a, o), b);
    if c :| c in s2.available && s2.available[c].Offers(v) {
      assert s.OffersVia(c, v);
    }
  }

  lemma BuryTwo(s: Node, a: Addr, b: Addr, o: Orders)
    requires a in s.available && b in s.available
    ensures var s1 := HandleUnresponsiveNode(MarkUnresponsive(s, a), a, o);
      && b in s1.available && Bury(s, [a, b], o) == HandleUnresponsiveNode(MarkUnresponsive(s1, b), b, o)
  {
    assert Front([a, b]) == [a] && Front([a]) == [];
    assert Bury(s, [], o) == s && Bury(s, [a], o) == HandleUnresponsiveNode(MarkUnresponsive(s, a), a, o);
  }
}
