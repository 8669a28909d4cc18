/**
 The whole way of a stream: from the encoder at a server through a chain of nodes to the
 player at a client.
 */
module Playback {
  import opened Common
  import opened VideoLog
  import opened Relay
  import NodeModel
  import ServerModel
  import ServerRuns
  import ClientModel
  import ClientReactions

  lemma NumberedData(v: VideoId, n: nat, chunks: seq<seq<bv8>>)
    ensures ClientReactions.DataOf(NumberedFrom(v, n, chunks)) == chunks
  {
  }

  /** If every link delivers what is sent over it, in order, and all stay subscribed, then a player that is already
      running is given in addition exactly the encoder's output, piece by piece and in order, whatever the
      client does meanwhile with its other videos and sources. */
  lemma {:induction false} EncoderReachesRunningPlayer(s: ServerModel.Server, es: seq<ServerRuns.Event>, first: Addr,
                                                       emitted: seq<VideoPacket>, hops: seq<Hop>,
                                                       c: ClientModel.Client, played: seq<ClientModel.Event>,
                                                       v: VideoId)
    requires v in s.videos && ServerRuns.KeepsWatching(s, es, v, first)
    requires forall e :: e in es ==> !(e.Started? && e.v == v)
    requires VideoFor(ServerRuns.Run(s, es).sent, first, v) == VideoFor(s.sent, first, v) + emitted
    requires hops != [] && Chain(hops, v, emitted)
    requires v in c.playing && ClientReactions.Undisturbed(played, v)
    requires var end := Last(hops);
      VideoFor(NodeModel.Run(end.node, end.events).relayed, end.next, v) ==
        VideoFor(end.node.relayed, end.next, v) + ClientReactions.Received(played, v)
    ensures v in ClientModel.Run(c, played).playing
    ensures ClientModel.Run(c, played).playing[v].written == c.playing[v].written + ServerRuns.Chunks(es, v)
  {
    EncoderReachesSubscriber(s, es, first, emitted, hops, v);
    var output := NumberedFrom(v, s.videos[v].sequence, ServerRuns.Chunks(es, v));
    SamePrefix(VideoFor(Last(hops).node.relayed, Last(hops).next, v), ClientReactions.Received(played, v), output);
    ClientReactions.PlayerGetsEverything(c, played, v);
    NumberedData(v, s.videos[v].sequence, ServerRuns.Chunks(es, v));
  }

  /** From the moment the user starts the video, the player is given exactly the encoder's output since then. */
  lemma {:induction false} EncoderReachesPlayer(s: ServerModel.Server, es: seq<ServerRuns.Event>, first: Addr,
                                                emitted: seq<VideoPacket>, hops: seq<Hop>, c: ClientModel.Client,
                                                o: ClientModel.Orders, played: seq<ClientModel.Event>, v: VideoId)
    requires v in s.videos && ServerRuns.KeepsWatching(s, es, v, first)
    requires forall e :: e in es ==> !(e.Started? && e.v == v)
    requires VideoFor(ServerRuns.Run(s, es).sent, first, v) == VideoFor(s.sent, first, v) + emitted
    requires hops != [] && Chain(hops, v, emitted) && ClientReactions.Undisturbed(played, v)
    requires var end := Last(hops);
      VideoFor(NodeModel.Run(end.node, end.events).relayed, end.next, v) ==
        VideoFor(end.node.relayed, end.next, v) + ClientReactions.Received(played, v)
    ensures var c' := ClientModel.Run(ClientModel.Apply(c, ClientModel.Start(v, true, o)), played);
      v in c'.playing && c'.playing[v].written == ServerRuns.Chunks(es, v)
  {
    var c1 := ClientModel.Apply(c, ClientModel.Start(v, true, o));
    EncoderReachesRunningPlayer(s, es, first, emitted, hops, c1, played, v);
    assert [] + ServerRuns.Chunks(es, v) == ServerRuns.Chunks(es, v);
  }
}
