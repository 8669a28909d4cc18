/**
 The upstream a node selects, characterised by the fields of the route table and without
 mentioning the order in which the table is iterated.
 */
module NodeSelection {
  import opened Common
  import opened Selection
  import opened NodeModel
  import opened NodeReactions

  /** `a` offers the video, and its average delay is at most 30% above that of anyone who does. */
  ghost predicate NearFor(s: Node, v: VideoId, a: Addr) {
    && s.OffersVia(a, v)
    && forall b :: s.OffersVia(b, v) ==>
         var least := Average(s.available[b].delays);
         Average(s.available[a].delays) <= least + least / 100 * 30
  }

  /** `a` is at least as good as `b`: it has fewer hops, or as many and fewer videos are routed to it, or
      as many and it offers no more videos. */
  predicate NotBehind(s: Node, a: Addr, b: Addr)
    requires a in s.available && b in s.available
  {
    var routedToA := |set v | v in s.routes && s.routes[v] == a|;
    var routedToB := |set v | v in s.routes && s.routes[v] == b|;
    || s.available[a].hops < s.available[b].hops
    || (s.available[a].hops == s.available[b].hops
        && (routedToA < routedToB
            || (routedToA == routedToB && |s.available[a].videos| <= |s.available[b].videos|)))
  }

  /** The documented criteria, in their order: near first, then hops, videos requested and videos offered. */
  ghost predicate FirstChoice(s: Node, v: VideoId, a: Addr) {
    NearFor(s, v, a) && forall b :: NearFor(s, v, b) ==> NotBehind(s, a, b)
  }

  lemma NearForIffNear(s: Node, v: VideoId, a: Addr)
    ensures NearFor(s, v, a) <==> Near(Offers(s, v), a)
  {
    if NearFor(s, v, a) {
      forall b | b in Offers(s, v)
        ensures Offers(s, v)[a].delay <= Offers(s, v)[b].delay + Offers(s, v)[b].delay / 100 * 30
      {
        assert s.OffersVia(b, v);
      }
    }
    if Near(Offers(s, v), a) {
      forall b | s.OffersVia(b, v)
        ensures var least := Average(s.available[b].delays);
          Average(s.available[a].delays) <= least + least / 100 * 30
      {
        assert b in Offers(s, v);
      }
    }
  }

  lemma NotBehindIff(s: Node, a: Addr, b: Addr)
    requires a in s.available && b in s.available
    ensures NotBehind(s, a, b) <==> !Less(RatingOf(s, b).key, RatingOf(s, a).key)
  {
    assert RequestedVia(s, a) == |set v | v in s.routes && s.routes[v] == a|;
    assert RequestedVia(s, b) == |set v | v in s.routes && s.routes[v] == b|;
  }

  lemma FirstChoiceIffBest(s: Node, v: VideoId, a: Addr)
    ensures FirstChoice(s, v, a) <==> IsBest(Offers(s, v), a)
  {
    BestIffFirstOfNear(Offers(s, v), a);
    forall b
      ensures NearFor(s, v, b) <==> Near(Offers(s, v), b)
      ensures a in Offers(s, v) && b in Offers(s, v) ==>
        (NotBehind(s, a, b) <==> !Less(Offers(s, v)[b].key, Offers(s, v)[a].key))
    {
      NearForIffNear(s, v, b);
      if a in Offers(s, v) && b in Offers(s, v) {
        NotBehindIff(s, a, b);
      }
    }
  }

  /** A node is selected exactly when a responsive one advertises the video, and it is a first choice. */
  lemma SelectionIsBest(s: Node, v: VideoId, o: Orders)
    ensures BestNode(s, v, o).None? <==> forall a :: !s.OffersVia(a, v)
    ensures BestNode(s, v, o).Some? ==> FirstChoice(s, v, BestNode(s, v, o).value)
  {
    SelectIsBest(Offers(s, v), RouteTableOrder(s, o));
    if BestNode(s, v, o).Some? {
      FirstChoiceIffBest(s, v, BestNode(s, v, o).value);
    }
  }

  /** In particular, of those that are as fast as the one selected none has fewer hops, and none with as many
      hops has fewer videos routed to it, and so on. */
  lemma NobodyFasterIsAhead(s: Node, v: VideoId, o: Orders, b: Addr)
    requires BestNode(s, v, o).Some? && s.OffersVia(b, v)
    requires Average(s.available[b].delays) <= Average(s.available[BestNode(s, v, o).value].delays)
    ensures NotBehind(s, BestNode(s, v, o).value, b)
  {
    SelectionIsBest(s, v, o);
    assert NearFor(s, v, b);
  }

  /** Any two iteration orders select neighbours with as many hops, routed videos and offered videos. */
  lemma SelectionIgnoresOrder(s: Node, v: VideoId, o: Orders, o': Orders)
    ensures BestNode(s, v, o).Some? <==> BestNode(s, v, o').Some?
    ensures BestNode(s, v, o).Some? ==>
      var a, b := BestNode(s, v, o).value, BestNode(s, v, o').value;
      && s.available[a].hops == s.available[b].hops
      && |set u | u in s.routes && s.routes[u] == a| == |set u | u in s.routes && s.routes[u] == b|
      && |s.available[a].videos| == |s.available[b].videos|
  {
    SelectionIsBest(s, v, o);
    SelectionIsBest(s, v, o');
    if BestNode(s, v, o).Some? {
      var a, b := BestNode(s, v, o).value, BestNode(s, v, o').value;
      assert NotBehind(s, a, b) && NotBehind(s, b, a);
    }
  }

  ghost function OrdersWithFirst(a: Addr): (o: Orders)
    ensures o.available == FirstIn(a)
  {
    FirstInEnumerates(a);
    SOME_ORDERS.(available := FirstIn(a))
  }

  /** The selection yields `a` for some iteration order exactly when `a` is a first choice. */
  lemma SelectableIffBest(s: Node, v: VideoId, a: Addr)
    ensures (exists o :: BestNode(s, v, o) == Some(a)) <==> FirstChoice(s, v, a)
  {
    if o :| BestNode(s, v, o) == Some(a) {
      SelectionIsBest(s, v, o);
    }
    if FirstChoice(s, v, a) {
      FirstChoiceIffBest(s, v, a);
      var o := OrdersWithFirst(a);
      assert RouteTableOrder(s, o)[0] == a;
      BestHeadIsSelected(Offers(s, v), RouteTableOrder(s, o));
      assert BestNode(s, v, o) == Some(a);
    }
  }

  // ----- what is selected depends on the route table and the routes only

  lemma ChoiceTransfers(s: Node, s': Node, v: VideoId, a: Addr)
    requires s'.available == s.available && s'.routes == s.routes && FirstChoice(s, v, a)
    ensures FirstChoice(s', v, a)
  {
    assert forall b :: s'.OffersVia(b, v) <==> s.OffersVia(b, v);
    forall b | NearFor(s', v, b)
      ensures NotBehind(s', a, b)
    {
      assert NearFor(s, v, b);
    }
  }

  /** A video without a route is routed to a first choice and asked for there, or, if nobody offers it, joins
      the end of the queue. */
  lemma RequestTakesTheBest(s: Node, v: VideoId, client: Addr, o: Orders)
    requires v !in s.routes
    ensures var s' := HandleRequestVideo(s, v, client, o);
      if s.Offered(v) then
        && v in s'.routes && FirstChoice(s, v, s'.routes[v]) && s'.pending == s.pending
        && s'.sent == s.sent + [Reliable(s'.routes[v], RequestVideo(v))]
      else s'.routes == s.routes && s'.sent == s.sent && s'.pending == s.pending + [v]
  {
    var s1 := Subscribe(s, v, client);
    SelectionIsBest(s1, v, o);
    if s.Offered(v) {
      ChoiceTransfers(s1, s, v, BestNode(s1, v, o).value);
    }
  }

  lemma {:induction false} RequestUnroutedTakesTheBest(s: Node, us: seq<VideoId>, client: Addr, o: Orders, k: nat)
    requires k < |us| && s.Offered(us[k])
    ensures var s1 := RequestUnrouted(s, us[..k], client, o);
      var s' := RequestUnrouted(s, us, client, o);
      us[k] !in s1.routes ==> us[k] in s'.routes && FirstChoice(s1, us[k], s'.routes[us[k]])
  {
    var s1 := RequestUnrouted(s, Front(us), client, o);
    if k == |us| - 1 {
      assert us[..k] == Front(us);
      if Last(us) !in s1.routes {
        RequestTakesTheBest(s1, Last(us), client, o);
      }
    } else {
      assert Front(us)[..k] == us[..k] && Front(us)[k] == us[k];
      RequestUnroutedTakesTheBest(s, Front(us), client, o, k);
      RequestAt(s1, Last(us), client, o, us[k]);
    }
  }

  /** A ping routes each video that it lists, that somebody offers and that has no route by then, to a first
      choice by the state in which those listed before it have been routed. */
  lemma PingTakesTheBest(s: Node, ping: nat, requested: seq<VideoId>, client: Addr, now: nat, o: Orders, k: nat)
    requires k < |requested| && s.Offered(requested[k])
    ensures var s1 := RequestUnrouted(s.(lastPings := s.lastPings[client := now]), requested[..k], client, o);
      var s' := HandleClientPing(s, ping, requested, client, now, o);
      requested[k] !in s1.routes ==>
        requested[k] in s'.routes && FirstChoice(s1, requested[k], s'.routes[requested[k]])
  {
    var s0 := s.(lastPings := s.lastPings[client := now]);
    RequestUnroutedTakesTheBest(s0, requested, client, o, k);
    var s2 := RequestUnrouted(s0, requested, client, o);
    StopUnwantedAt(s2, InterestedOrder(s2, o), requested, client, requested[k]);
  }
}
