/**
 The server as a mutable object. Every method is proved to do exactly what the
 corresponding function of `ServerModel` says about the abstract state.
 */
module ServerState {
  import opened Common
  import opened ServerModel

  class State {
    const id: nat
    var videos: map<VideoId, Stream>
    var neighbours: seq<Addr>
    var sent: seq<Envelope>

    function Abs(): Server
      reads this
    {
      Server(id, videos, neighbours, sent)
    }

    constructor (id: nat, neighbours: seq<Addr>)
      ensures Abs() == NewServer(id, neighbours)
    {
      this.id, this.neighbours := id, neighbours;
      videos, sent := map[], [];
    }

    method AddVideo(v: VideoId, name: string)
      modifies this`videos
      ensures Abs() == ServerModel.AddVideo(old(Abs()), v, name)
    {
      videos := videos[v := Stream(name, [], 0)];
    }

    method HandlePacket(p: Packet, from: Addr)
      modifies this
      ensures Abs() == ServerModel.HandlePacket(old(Abs()), p, from)
    {
      match p
      case RequestVideo(v) =>
        if v in videos {
          videos := videos[v := videos[v].(interested := AddSubscriber(videos[v].interested, from))];
        }
      case StopVideo(v) =>
        if v in videos {
          videos := videos[v := videos[v].(interested := Without(videos[v].interested, from))];
        }
      case NewNeighbour => neighbours := neighbours + [from];
      case _ =>
    }

    method StreamData(v: VideoId, data: seq<bv8>)
      modifies this
      ensures Abs() == ServerModel.StreamData(old(Abs()), v, data)
    {
      if v in videos {
        if videos[v].interested == [] {
          return;
        }
        var n := videos[v].sequence + 1;
        videos := videos[v := videos[v].(sequence := n)];
        sent := sent + PlainTo(videos[v].interested, VideoData(VideoPacket(v, n, data)));
      }
    }

    /** `order` is the order in which the map of videos is iterated. */
    method FloodRound(order: seq<VideoId>, now: nat)
      requires Enumerates(order, videos.Keys)
      modifies this`sent
      ensures Abs() == ServerModel.FloodRound(old(Abs()), order, now)
    {
      Members(order, videos.Keys);
      var list := [];
      for i := 0 to |order|
        invariant Abs() == old(Abs()) && list == ListVideos(videos, order[..i])
      {
        NextPrefix(order, i);
        list := list + [(order[i], videos[order[i]].name)];
      }
      assert order[..|order|] == order;
      var packet := FloodPacket(now, list, [id], []);
      sent := sent + PlainTo(neighbours, Flood(packet));
    }
  }
}
