/**
 What single steps do to a node: requests and stops, a round of the video check, and client
 pings, which reconcile a client's subscriptions.
 */
module NodeReactions {
  import opened Common
  import opened NodeModel

  // ----- the part of the state that concerns one video

  /** The upstreams that have been asked to stop the video, in order. */
  function Stops(sent: seq<Envelope>, v: VideoId): seq<Addr> {
    if sent == [] then [] else
      var rest := Stops(Front(sent), v);
      if Last(sent).Reliable? && Last(sent).body == StopVideo(v) then rest + [Last(sent).to] else rest
  }

  lemma StopsSnoc(sent: seq<Envelope>, e: Envelope, v: VideoId)
    ensures Stops(sent + [e], v) ==
      Stops(sent, v) + if e.Reliable? && e.body == StopVideo(v) then [e.to] else []
  {
    assert Front(sent + [e]) == sent;
  }

  /** Neither subscribers, upstream nor stop messages of the video differ. */
  ghost predicate Untouched(s: Node, s': Node, v: VideoId) {
    && s'.SubscribersOf(v) == s.SubscribersOf(v)
    && (v in s'.routes <==> v in s.routes)
    && (v in s.routes ==> s'.routes[v] == s.routes[v])
    && Stops(s'.sent, v) == Stops(s.sent, v)
  }

  lemma RequestToNodeAt(s: Node, u: VideoId, n: Addr, v: VideoId)
    requires u !in s.routes
    ensures var s' := RequestVideoToNode(s, u, n);
      Stops(s'.sent, v) == Stops(s.sent, v) && (u != v ==> Untouched(s, s', v))
  {
    StopsSnoc(s.sent, Reliable(n, RequestVideo(u)), v);
  }

  lemma SelectUpstreamAt(s: Node, u: VideoId, o: Orders, v: VideoId)
    requires u !in s.routes
    ensures var s' := SelectUpstream(s, u, o);
      && s'.interested == s.interested
      && Stops(s'.sent, v) == Stops(s.sent, v)
      && (u == v ==> v in s'.routes || v in s'.pending)
      && (u != v ==> Untouched(s, s', v))
      && (v in s.pending ==> v in s'.pending)
  {
    match BestNode(s, u, o)
    case Some(n) => RequestToNodeAt(s, u, n, v);
    case None =>
  }

  /** The video keeps its upstream and nobody has been asked to stop it. */
  ghost predicate SameUpstream(s: Node, s': Node, v: VideoId) {
    && (v in s.routes ==> v in s'.routes && s'.routes[v] == s.routes[v])
    && Stops(s'.sent, v) == Stops(s.sent, v)
  }

  lemma RequestAt(s: Node, u: VideoId, a: Addr, o: Orders, v: VideoId)
    ensures var s' := HandleRequestVideo(s, u, a, o);
      && (u == v ==> s'.SubscribersOf(v) == AddSubscriber(s.SubscribersOf(v), a))
      && (u == v ==> v in s'.routes || v in s'.pending)
      && (u != v ==> Untouched(s, s', v))
      && SameUpstream(s, s', v)
      && (v in s.pending ==> v in s'.pending)
  {
    var s1 := Subscribe(s, u, a);
    assert u != v ==> Untouched(s, s1, v);
    if u !in s1.routes {
      SelectUpstreamAt(s1, u, o, v);
    }
  }

  lemma StopAt(s: Node, u: VideoId, a: Addr, v: VideoId)
    ensures var s' := HandleStopVideo(s, u, a);
      && s'.pending == s.pending
      && (u != v ==> Untouched(s, s', v))
      && (u == v ==> Stopped(s, s', v, a))
  {
    UnsubscribeAt(s, u, a, v);
    var s1 := Unsubscribe(s, u, a);
    if s1.SubscribersOf(u) == [] && u in s1.routes {
      DropRouteAt(s1, u, v);
    }
  }

  lemma UnsubscribeAt(s: Node, u: VideoId, a: Addr, v: VideoId)
    ensures var s' := Unsubscribe(s, u, a);
      && s' == s.WithInterested(s'.interested)
      && s'.SubscribersOf(v) == if u == v then Without(s.SubscribersOf(v), a) else s.SubscribersOf(v)
  {
  }

  lemma DropRouteAt(s: Node, u: VideoId, v: VideoId)
    requires u in s.routes
    ensures var s' := DropRoute(s, u);
      && s'.interested == s.interested
      && (u != v ==> Untouched(s, s', v))
      && (u == v ==> v !in s'.routes && Stops(s'.sent, v) == Stops(s.sent, v) + [s.routes[v]])
  {
    StopsSnoc(s.sent, Reliable(s.routes[u], StopVideo(u)), v);
  }

  /** `a` no longer receives `v`; the upstream is told to stop, once, exactly when nobody is left. */
  ghost predicate Stopped(s: Node, s': Node, v: VideoId, a: Addr) {
    && s'.SubscribersOf(v) == Without(s.SubscribersOf(v), a)
    && (if v in s.routes && s'.SubscribersOf(v) == [] then
          v !in s'.routes && Stops(s'.sent, v) == Stops(s.sent, v) + [s.routes[v]]
        else
          SameUpstream(s, s', v) && (v in s'.routes ==> v in s.routes))
  }

  /** Ending the subscriptions of `a` drops the route of a video it watches alone, with one stop, and no other. */
  lemma {:induction false} StopAllAt(s: Node, us: seq<VideoId>, a: Addr, v: VideoId)
    ensures var s' := StopAll(s, us, a);
      && s'.SubscribersOf(v) == (if v in us then Without(s.SubscribersOf(v), a) else s.SubscribersOf(v))
      && (v in s'.routes <==> v in s.routes && !(v in us && Without(s.SubscribersOf(v), a) == []))
      && (v in s'.routes ==> s'.routes[v] == s.routes[v])
      && Stops(s'.sent, v) == Stops(s.sent, v) + if v in s.routes && v !in s'.routes then [s.routes[v]] else []
  {
    if us == [] {
    } else {
      StopAllAt(s, Front(us), a, v);
      StopAt(StopAll(s, Front(us), a), Last(us), a, v);
    }
  }

  lemma OnlySubscriber(xs: Subscribers, a: Addr)
    requires a in xs
    ensures Without(xs, a) == [] <==> xs == [a]
  {
    if |xs| > 1 {
      var b := if xs[0] == a then xs[1] else xs[0];
      assert b in Without(xs, a);
    }
  }

  // ----- videos that do not arrive

  /** The upstreams that have been asked for the video, in order. */
  function Requests(sent: seq<Envelope>, v: VideoId): seq<Addr> {
    if sent == [] then [] else
      var rest := Requests(Front(sent), v);
      if Last(sent).Reliable? && Last(sent).body == RequestVideo(v) then rest + [Last(sent).to] else rest
  }

  lemma RequestsSnoc(sent: seq<Envelope>, e: Envelope, v: VideoId)
    ensures Requests(sent + [e], v) ==
      Requests(sent, v) + if e.Reliable? && e.body == RequestVideo(v) then [e.to] else []
  {
    assert Front(sent + [e]) == sent;
  }

  /** The last packet of the video came more than half a second ago. */
  predicate Overdue(s: Node, v: VideoId, now: nat) {
    v in s.lastVideoTime && now > s.lastVideoTime[v] + 500_000_000
  }

  lemma {:induction false} RequestAgainAt(s: Node, order: seq<VideoId>, now: nat, v: VideoId)
    requires NoDuplicates(order) && forall u :: u in order ==> u in s.lastVideoTime
    ensures var s' := RequestAgain(s, order, now);
      && s'.routes == s.routes && s'.interested == s.interested
      && Requests(s'.sent, v) == Requests(s.sent, v) +
           if v in order && Overdue(s, v, now) && v in s.routes then [s.routes[v]] else []
  {
    if order == [] {
    } else {
      RequestAgainAt(s, Front(order), now, v);
      var s1 := RequestAgain(s, Front(order), now);
      assert v == Last(order) ==> v !in Front(order);
      if Overdue(s, Last(order), now) && Last(order) in s1.routes {
        RequestsSnoc(s1.sent, Reliable(s1.routes[Last(order)], RequestVideo(Last(order))), v);
        assert s1.routes[Last(order) := s1.routes[Last(order)]] == s1.routes;
      }
    }
  }

  /** A round of the video check asks the upstream of each overdue video again, once, asks for no other
      video, and changes neither routes nor subscribers. */
  lemma VideoRoundAsksForTheOverdue(s: Node, now: nat, o: Orders, v: VideoId)
    ensures var s' := CheckVideos(s, now, o);
      && s'.streams == s.streams
      && Requests(s'.sent, v) == Requests(s.sent, v) +
           if Overdue(s, v, now) && v in s.routes then [s.routes[v]] else []
  {
    RequestAgainAt(s, TimesOrder(s, o), now, v);
  }

  // ----- advertised videos

  lemma {:induction false} VideosForOnce(s: Node, to: Addr, order: seq<VideoId>)
    requires NoDuplicates(order) && forall v :: v in order ==> v in s.names
    ensures NoDuplicates(Ids(VideosFor(s.names, s.available, to, order)))
  {
    if order == [] {
    } else {
      VideosForOnce(s, to, Front(order));
      var rest := VideosFor(s.names, s.available, to, Front(order));
      assert Last(order) !in Front(order);
      forall i | 0 <= i < |rest|
        ensures Ids(rest)[i] != Last(order)
      {
        assert rest[i] in rest;
      }
      assert Ids(rest + [(Last(order), s.names[Last(order)])]) == Ids(rest) + [Last(order)];
    }
  }

  /** A node advertises no video twice. */
  lemma AdvertisedOnce(s: Node, to: Addr, o: Orders)
    ensures NoDuplicates(Ids(GetVideos(s, to, o)))
  {
    Once(o.names(s.names.Keys), s.names.Keys);
    VideosForOnce(s, to, NamesOrder(s, o));
  }

  // ----- client pings

  lemma {:induction false} RequestUnroutedAt(s: Node, us: seq<VideoId>, a: Addr, o: Orders, v: VideoId)
    ensures var s' := RequestUnrouted(s, us, a, o);
      && s'.SubscribersOf(v) ==
           (if v in us && v !in s.routes then AddSubscriber(s.SubscribersOf(v), a) else s.SubscribersOf(v))
      && (v in us ==> v in s'.routes || v in s'.pending)
      && (v !in us ==> Untouched(s, s', v))
      && SameUpstream(s, s', v)
      && (v in s.pending ==> v in s'.pending)
  {
    if us == [] {
    } else {
      RequestUnroutedAt(s, Front(us), a, o, v);
      var s1 := RequestUnrouted(s, Front(us), a, o);
      if Last(us) !in s1.routes {
        RequestAt(s1, Last(us), a, o, v);
      }
    }
  }

  lemma {:induction false} StopUnwantedAt(s: Node, order: seq<VideoId>, wanted: seq<VideoId>, a: Addr, v: VideoId)
    requires NoDuplicates(order)
    ensures var s' := StopUnwanted(s, order, wanted, a);
      && s'.pending == s.pending
      && if v in order && v !in wanted && a in s.SubscribersOf(v)
         then Stopped(s, s', v, a)
         else Untouched(s, s', v)
  {
    if order == [] {
    } else {
      StopUnwantedAt(s, Front(order), wanted, a, v);
      var s1 := StopUnwanted(s, Front(order), wanted, a);
      if Last(order) !in wanted && a in s1.SubscribersOf(Last(order)) {
        StopAt(s1, Last(order), a, v);
      }
      assert v == Last(order) ==> v !in Front(order);
    }
  }

  /** What the two loops of `handle_client_ping` amount to, from the states around and between them. */
  ghost predicate Staged(s: Node, s2: Node, s': Node, requested: seq<VideoId>, a: Addr, v: VideoId) {
    && s2.SubscribersOf(v) ==
         (if v in requested && v !in s.routes then AddSubscriber(s.SubscribersOf(v), a) else s.SubscribersOf(v))
    && (v in requested ==> v in s2.routes || v in s2.pending)
    && (v !in requested ==> Untouched(s, s2, v))
    && SameUpstream(s, s2, v)
    && s'.pending == s2.pending
    && if v !in requested && a in s2.SubscribersOf(v) then Stopped(s2, s', v, a) else Untouched(s2, s', v)
  }

  lemma StagesReconcile(s: Node, s2: Node, s': Node, requested: seq<VideoId>, a: Addr, v: VideoId)
    requires Staged(s, s2, s', requested, a, v)
    ensures a in s'.SubscribersOf(v) ==> v in requested
    ensures v in requested ==> v in s'.routes || v in s'.pending
    ensures forall b :: b != a ==> (b in s'.SubscribersOf(v) <==> b in s.SubscribersOf(v))
    ensures v in s.routes && v in s'.routes ==> s'.routes[v] == s.routes[v]
    ensures v in s.routes && v !in s'.routes ==> s'.SubscribersOf(v) == []
    ensures Stops(s'.sent, v) == Stops(s.sent, v) + if v in s.routes && v !in s'.routes then [s.routes[v]] else []
  {
  }

  predicate AreRequests(ms: seq<Envelope>, us: seq<VideoId>) {
    forall e :: e in ms ==> e.body.RequestVideo? && e.body.id in us
  }

  /** The longer log adds requests for these videos to the other, and nothing else. */
  predicate AddsRequests(sent: seq<Envelope>, sent': seq<Envelope>, us: seq<VideoId>) {
    sent <= sent' && AreRequests(sent'[|sent|..], us)
  }

  lemma RequestAdds(s: Node, v: VideoId, a: Addr, o: Orders, us: seq<VideoId>)
    requires v in us
    ensures AddsRequests(s.sent, (if v in s.routes then s else HandleRequestVideo(s, v, a, o)).sent, us)
  {
  }

  lemma MoreRequests(sent: seq<Envelope>, sent1: seq<Envelope>, sent2: seq<Envelope>, us: seq<VideoId>)
    requires us != [] && AddsRequests(sent, sent1, Front(us)) && AddsRequests(sent1, sent2, us)
    ensures AddsRequests(sent, sent2, us)
  {
    assert sent2[|sent|..] == sent1[|sent|..] + sent2[|sent1|..];
  }

  lemma {:induction false} RequestUnroutedAdds(s: Node, us: seq<VideoId>, a: Addr, o: Orders)
    ensures AddsRequests(s.sent, RequestUnrouted(s, us, a, o).sent, us)
  {
    if us == [] {
    } else {
      var s1 := RequestUnrouted(s, Front(us), a, o);
      RequestUnroutedAdds(s, Front(us), a, o);
      RequestAdds(s1, Last(us), a, o, us);
      MoreRequests(s.sent, s1.sent, RequestUnrouted(s, us, a, o).sent, us);
    }
  }

  lemma RequestUnroutedSends(s: Node, us: seq<VideoId>, a: Addr, o: Orders) returns (requests: seq<Envelope>)
    ensures RequestUnrouted(s, us, a, o).sent == s.sent + requests
    ensures AreRequests(requests, us)
  {
    RequestUnroutedAdds(s, us, a, o);
    requests := RequestUnrouted(s, us, a, o).sent[|s.sent|..];
  }

  lemma {:induction false} StopUnwantedSends(s: Node, order: seq<VideoId>, wanted: seq<VideoId>, a: Addr)
    returns (stops: seq<Envelope>)
    ensures StopUnwanted(s, order, wanted, a).sent == s.sent + stops
    ensures forall e :: e in stops ==> e.body.StopVideo? && e.body.id !in wanted
  {
    if order == [] {
      stops := [];
    } else {
      var rest := StopUnwantedSends(s, Front(order), wanted, a);
      var s1 := StopUnwanted(s, Front(order), wanted, a);
      stops := rest + StopUnwanted(s, order, wanted, a).sent[|s1.sent|..];
    }
  }

  /** A ping is handled in this order: requests for videos it lists, stops for videos it does not list, and
      the answer, which lists what could be offered before all that. */
  lemma PingSendsInOrder(s: Node, ping: nat, requested: seq<VideoId>, a: Addr, now: nat, o: Orders)
    returns (requests: seq<Envelope>, stops: seq<Envelope>)
    ensures HandleClientPing(s, ping, requested, a, now, o).sent ==
      s.sent + requests + stops + [Reliable(a, VideoList(ping, GetVideos(s, a, o), now))]
    ensures AreRequests(requests, requested)
    ensures forall e :: e in stops ==> e.body.StopVideo? && e.body.id !in requested
  {
    var s1 := s.(lastPings := s.lastPings[a := now]);
    requests := RequestUnroutedSends(s1, requested, a, o);
    var s2 := RequestUnrouted(s1, requested, a, o);
    stops := StopUnwantedSends(s2, InterestedOrder(s2, o), requested, a);
  }

  /** The effect of a ping on any one video: the client ends up subscribed to nothing it did not
      ask for; what it asked for is routed or queued; other subscribers stay as they are; and a
      route is dropped exactly together with one stop message to its upstream, when no
      subscriber is left. */
  lemma PingReconciles(s: Node, ping: nat, requested: seq<VideoId>, a: Addr, now: nat, o: Orders, v: VideoId, b: Addr)
    ensures var s' := HandleClientPing(s, ping, requested, a, now, o);
      && (a in s'.SubscribersOf(v) ==> v in requested)
      && (v in requested ==> v in s'.routes || v in s'.pending)
      && (b != a ==> (b in s'.SubscribersOf(v) <==> b in s.SubscribersOf(v)))
      && (v in s.routes && v in s'.routes ==> s'.routes[v] == s.routes[v])
      && (v in s.routes && v !in s'.routes ==> s'.SubscribersOf(v) == [])
      && Stops(s'.sent, v) == Stops(s.sent, v) + (if v in s.routes && v !in s'.routes then [s.routes[v]] else [])
  {
    var s2 := PingStages(s, ping, requested, a, now, o, v);
    StagesReconcile(s, s2, HandleClientPing(s, ping, requested, a, now, o), requested, a, v);
  }

  /** The packet's documentation wants a node that has lost its state to learn from pings who watches
      what. That fails for the second client of a video: a requested video that is already routed
      is skipped. After a ping the client is subscribed to a requested video if and only if
      it was before, or the video had no route. */
  lemma PingResubscribesIffUnrouted(s: Node, ping: nat, requested: seq<VideoId>, a: Addr, now: nat, o: Orders,
                                    v: VideoId)
    requires v in requested
    ensures a in HandleClientPing(s, ping, requested, a, now, o).SubscribersOf(v)
       <==> a in s.SubscribersOf(v) || v !in s.routes
  {
    var s2 := PingStages(s, ping, requested, a, now, o, v);
  }

  /** The state `s2` between the two loops of `handle_client_ping`, as seen by one video. */
  lemma PingStages(s: Node, ping: nat, requested: seq<VideoId>, a: Addr, now: nat, o: Orders, v: VideoId)
    returns (s2: Node)
    ensures Staged(s, s2, HandleClientPing(s, ping, requested, a, now, o), requested, a, v)
  {
    var s1 := s.(lastPings := s.lastPings[a := now]);
    RequestUnroutedAt(s1, requested, a, o, v);
    s2 := RequestUnrouted(s1, requested, a, o);
    var order := InterestedOrder(s2, o);
    StopUnwantedAt(s2, order, requested, a, v);
    AnswerAt(StopUnwanted(s2, order, requested, a), Reliable(a, VideoList(ping, GetVideos(s, a, o), now)), v);
  }

  lemma AnswerAt(s: Node, e: Envelope, v: VideoId)
    requires e.body.VideoList?
    ensures Untouched(s, Send(s, e), v)
  {
    StopsSnoc(s.sent, e, v);
  }

  /** Two clients watch video 7 through a node that has lost its state; both ping, the second is forgotten. */
  lemma SecondClientIsForgotten(o: Orders, one: Addr, two: Addr, upstream: Addr)
    requires one != two
    ensures var s := NewNode(1, At(1), [2]);
      var p := FloodPacket(0, [(7, "film")], [2], []);
      var fed := HandleFloodPacket(s, upstream, p, 0, o);
      var s1 := HandleClientPing(fed, 0, [7], one, 0, o);
      var s2 := HandleClientPing(s1, 1, [7], two, 0, o);
      one in s2.SubscribersOf(7) && two !in s2.SubscribersOf(7)
  {
    var s := NewNode(1, At(1), [2]);
    var p := FloodPacket(0, [(7, "film")], [2], []);
    var fed := HandleFloodPacket(s, upstream, p, 0, o);
    assert Ids(p.videos)[0] == 7 && 7 in [7];
    OnePingThenAnother(fed, 7, one, two, o, upstream);
  }

  lemma OnePingThenAnother(s: Node, v: VideoId, one: Addr, two: Addr, o: Orders, n: Addr)
    requires n in s.available && s.available[n].Offers(v) && s.SubscribersOf(v) == [] && v !in s.routes && one != two
    ensures var s1 := HandleClientPing(s, 0, [v], one, 0, o);
      var s2 := HandleClientPing(s1, 1, [v], two, 0, o);
      one in s2.SubscribersOf(v) && two !in s2.SubscribersOf(v)
  {
    var s1 := HandleClientPing(s, 0, [v], one, 0, o);
    FirstPingRoutes(s, v, one, o, n);
    PingResubscribesIffUnrouted(s, 0, [v], one, 0, o, v);
    PingReconciles(s, 0, [v], one, 0, o, v, two);
    PingResubscribesIffUnrouted(s1, 1, [v], two, 0, o, v);
    PingReconciles(s1, 1, [v], two, 0, o, v, one);
  }

  lemma FirstPingRoutes(s: Node, v: VideoId, a: Addr, o: Orders, n: Addr)
    requires n in s.available && s.available[n].Offers(v)
    ensures v in HandleClientPing(s, 0, [v], a, 0, o).routes
  {
    var s1 := s.(lastPings := s.lastPings[a := 0]);
    OfferedVideoIsRouted(s1, v, a, o, n);
    assert Front([v]) == [] && Last([v]) == v;
    assert RequestUnrouted(s1, Front([v]), a, o) == s1;
    var s2 := RequestUnrouted(s1, [v], a, o);
    StopUnwantedAt(s2, InterestedOrder(s2, o), [v], a, v);
  }

  lemma OfferedVideoIsRouted(s: Node, v: VideoId, a: Addr, o: Orders, n: Addr)
    requires n in s.available && s.available[n].Offers(v)
    ensures v in HandleRequestVideo(s, v, a, o).routes
  {
    assert OfferedIn(Subscribe(s, v, a).available, v);
  }
}
