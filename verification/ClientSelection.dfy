/**
 The source a client selects, characterised by the fields of its table of nodes and without
 mentioning the order in which the table is iterated.
 */
module ClientSelection {
  import opened Common
  import opened Selection
  import opened ClientModel

  /** `a` offers the video, and its average round-trip time is at most 30% above that of anyone who does. */
  ghost predicate NearFor(s: Client, v: VideoId, a: Addr) {
    && s.OffersVia(a, v)
    && forall b :: s.OffersVia(b, v) ==>
         var least := Average(s.nodes[b].rtts);
         Average(s.nodes[a].rtts) <= least + least / 100 * 30
  }

  /** `a` is at least as good as `b`: fewer videos come from it, or as many and it offers no more videos. */
  predicate NotBehind(s: Client, a: Addr, b: Addr)
    requires a in s.nodes && b in s.nodes
  {
    var fromA := |set v | v in s.playing && s.playing[v].source == Some(a)|;
    var fromB := |set v | v in s.playing && s.playing[v].source == Some(b)|;
    fromA < fromB || (fromA == fromB && |s.nodes[a].videos| <= |s.nodes[b].videos|)
  }

  /** The documented criteria, in their order: near first, then videos requested and videos offered. */
  ghost predicate FirstChoice(s: Client, v: VideoId, a: Addr) {
    NearFor(s, v, a) && forall b :: NearFor(s, v, b) ==> NotBehind(s, a, b)
  }

  lemma NearForIffNear(s: Client, v: VideoId, a: Addr)
    ensures NearFor(s, v, a) <==> Near(Offers(s, v), a)
  {
    if NearFor(s, v, a) {
      forall b | b in Offers(s, v)
        ensures Offers(s, v)[a].delay <= Offers(s, v)[b].delay + Offers(s, v)[b].delay / 100 * 30
      {
        assert s.OffersVia(b, v);
      }
    }
    if Near(Offers(s, v), a) {
      forall b | s.OffersVia(b, v)
        ensures var least := Average(s.nodes[b].rtts); Average(s.nodes[a].rtts) <= least + least / 100 * 30
      {
        assert b in Offers(s, v);
      }
    }
  }

  lemma NotBehindIff(s: Client, a: Addr, b: Addr)
    requires a in s.nodes && s.nodes[a].status.Connected? && b in s.nodes && s.nodes[b].status.Connected?
    ensures NotBehind(s, a, b) <==> !Less(RatingOf(s, b).key, RatingOf(s, a).key)
  {
    assert RequestedFrom(s, a) == |set v | v in s.playing && s.playing[v].source == Some(a)|;
    assert RequestedFrom(s, b) == |set v | v in s.playing && s.playing[v].source == Some(b)|;
  }

  lemma FirstChoiceIffBest(s: Client, v: VideoId, a: Addr)
    ensures FirstChoice(s, v, a) <==> IsBest(Offers(s, v), a)
  {
    BestIffFirstOfNear(Offers(s, v), a);
    forall b
      ensures NearFor(s, v, b) <==> Near(Offers(s, v), b)
      ensures a in Offers(s, v) && b in Offers(s, v) ==>
        (NotBehind(s, a, b) <==> !Less(Offers(s, v)[b].key, Offers(s, v)[a].key))
    {
      NearForIffNear(s, v, b);
      if a in Offers(s, v) && b in Offers(s, v) {
        NotBehindIff(s, a, b);
      }
    }
  }

  /** A node is selected exactly when a connected one advertises the video, and it is a first choice. */
  lemma SelectionIsBest(s: Client, v: VideoId, o: Orders)
    ensures BestNode(s, v, o).None? <==> forall a :: !s.OffersVia(a, v)
    ensures BestNode(s, v, o).Some? ==> FirstChoice(s, v, BestNode(s, v, o).value)
  {
    SelectIsBest(Offers(s, v), NodesOrder(s, o));
    if BestNode(s, v, o).Some? {
      FirstChoiceIffBest(s, v, BestNode(s, v, o).value);
    }
  }

  /** Any two iteration orders select nodes from which as many videos come and that offer as many. */
  lemma SelectionIgnoresOrder(s: Client, v: VideoId, o: Orders, o': Orders)
    ensures BestNode(s, v, o).Some? <==> BestNode(s, v, o').Some?
    ensures BestNode(s, v, o).Some? ==>
      var a, b := BestNode(s, v, o).value, BestNode(s, v, o').value;
      && |set u | u in s.playing && s.playing[u].source == Some(a)|
           == |set u | u in s.playing && s.playing[u].source == Some(b)|
      && |s.nodes[a].videos| == |s.nodes[b].videos|
  {
    SelectionIsBest(s, v, o);
    SelectionIsBest(s, v, o');
    if BestNode(s, v, o).Some? {
      var a, b := BestNode(s, v, o).value, BestNode(s, v, o').value;
      assert NotBehind(s, a, b) && NotBehind(s, b, a);
    }
  }

  ghost function OrdersWithFirst(a: Addr): (o: Orders)
    ensures o.nodes == FirstIn(a)
  {
    FirstInEnumerates(a);
    SOME_ORDERS.(nodes := FirstIn(a))
  }

  /** The selection yields `a` for some iteration order exactly when `a` is a first choice. */
  lemma SelectableIffBest(s: Client, v: VideoId, a: Addr)
    ensures (exists o :: BestNode(s, v, o) == Some(a)) <==> FirstChoice(s, v, a)
  {
    if o :| BestNode(s, v, o) == Some(a) {
      SelectionIsBest(s, v, o);
    }
    if FirstChoice(s, v, a) {
      FirstChoiceIffBest(s, v, a);
      var o := OrdersWithFirst(a);
      assert NodesOrder(s, o)[0] == a;
      BestHeadIsSelected(Offers(s, v), NodesOrder(s, o));
      assert BestNode(s, v, o) == Some(a);
    }
  }

  // ----- where videos come from

  /** A video that is started is asked for at a first choice, if anybody offers it. If the player can be
      launched, the video plays from there or waits, and nothing has been written yet; if not, what is played
      stays as it was. */
  lemma StartTakesTheBest(s: Client, v: VideoId, launched: bool, o: Orders) returns (source: Option<Addr>)
    ensures source.None? <==> !s.Offered(v)
    ensures source.Some? ==> FirstChoice(s, v, source.value)
    ensures var s' := StartPlaying(s, v, launched, o);
      && s'.sent == s.sent + (if source.Some? then [Reliable(source.value, RequestVideo(v))] else [])
      && s'.playing == if launched then s.playing[v := Playing(source, 0, 0, [])] else s.playing
  {
    SelectionIsBest(s, v, o);
    source := BestNode(s, v, o);
  }

  /** Each of the videos gets a first choice by the state in which those before it have got theirs. */
  lemma {:induction false} ReselectTakesTheBest(s: Client, vs: seq<VideoId>, o: Orders, k: nat)
    requires k < |vs| && NoDuplicates(vs) && forall u :: u in vs ==> u in s.playing
    ensures (forall u :: u in vs[..k] ==> u in s.playing)
      && vs[k] in ReselectAll(s, vs, o).playing
      && var s1 := ReselectAll(s, vs[..k], o);
        match ReselectAll(s, vs, o).playing[vs[k]].source
        case Some(a) => FirstChoice(s1, vs[k], a)
        case None => !s.Offered(vs[k])
  {
    if k == |vs| - 1 {
      assert vs[..k] == Front(vs);
      SelectionIsBest(ReselectAll(s, Front(vs), o), Last(vs), o);
    } else {
      ReselectTakesTheBest(s, Front(vs), o, k);
      assert Front(vs)[..k] == vs[..k] && Front(vs)[k] == vs[k];
    }
  }
}
