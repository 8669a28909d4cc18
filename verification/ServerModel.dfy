/**
 The streaming server: its videos and their subscribers, the numbering of stream
 packets, and the flood packets that start every round.
 */
module ServerModel {
  import opened Common

  datatype Stream = Stream(name: string, interested: Subscribers, sequence: nat)

  datatype Server = Server(
    id: nat,
    videos: map<VideoId, Stream>,
    neighbours: seq<Addr>,
    sent: seq<Envelope>
  )

  function NewServer(id: nat, neighbours: seq<Addr>): Server {
    Server(id, map[], neighbours, [])
  }

  /** The start of `start_streaming_video`. */
  function AddVideo(s: Server, v: VideoId, name: string): Server {
    s.(videos := s.videos[v := Stream(name, [], 0)])
  }

  function SetSubscribers(s: Server, v: VideoId, subs: Subscribers): Server
    requires v in s.videos
  {
    s.(videos := s.videos[v := s.videos[v].(interested := subs)])
  }

  /** One packet at `run_client_socket`; requests for unknown videos and flood packets are ignored. */
  function HandlePacket(s: Server, p: Packet, from: Addr): Server {
    match p
    case RequestVideo(v) =>
      if v in s.videos then SetSubscribers(s, v, AddSubscriber(s.videos[v].interested, from)) else s
    case StopVideo(v) =>
      if v in s.videos then SetSubscribers(s, v, Without(s.videos[v].interested, from)) else s
    case NewNeighbour => s.(neighbours := s.neighbours + [from])
    case _ => s
  }

  /** One chunk of encoder output: it is numbered and sent only if somebody watches. */
  function StreamData(s: Server, v: VideoId, data: seq<bv8>): Server {
    if v !in s.videos || s.videos[v].interested == [] then s else
      var n := s.videos[v].sequence + 1;
      s.(videos := s.videos[v := s.videos[v].(sequence := n)],
         sent := s.sent + PlainTo(s.videos[v].interested, VideoData(VideoPacket(v, n, data))))
  }

  /** `get_video_list`, in the order in which the map is iterated. */
  function ListVideos(videos: map<VideoId, Stream>, order: seq<VideoId>): (r: seq<Video>)
    requires forall v :: v in order ==> v in videos
    ensures forall x :: x in r <==> x.0 in order && x.1 == videos[x.0].name
    ensures |r| == |order|
  {
    if order == [] then [] else
      ListVideos(videos, Front(order)) + [(Last(order), videos[Last(order)].name)]
  }

  function VideoListPacket(s: Server, order: seq<VideoId>, now: nat): (p: FloodPacket)
    requires Enumerates(order, s.videos.Keys)
    ensures forall x :: x in p.videos <==> x.0 in s.videos && x.1 == s.videos[x.0].name
    ensures p.visited == [s.id]
  {
    Members(order, s.videos.Keys);
    FloodPacket(now, ListVideos(s.videos, order), [s.id], [])
  }

  /** One round of `run_periodic_flood_packets`. */
  function FloodRound(s: Server, order: seq<VideoId>, now: nat): Server
    requires Enumerates(order, s.videos.Keys)
  {
    s.(sent := s.sent + PlainTo(s.neighbours, Flood(VideoListPacket(s, order, now))))
  }
}
