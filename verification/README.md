# A verified model of an over-the-top streaming overlay

This project models, in Dafny, the protocol logic of a peer-to-peer live streaming network: servers that encode
videos, overlay nodes that relay them, clients that play them, and the datagram layer with acknowledgements that
carries their control packets. It proves what the network is built for: that no subscribed video is silently
forgotten when nodes die, that floods find exactly the usable upstreams, repair what deaths have broken and die out,
that an acknowledgement can be trusted, and that a stream arrives unchanged through any chain of nodes.

Check everything with `dafny verify dfyconfig.toml`.

## Structure

| modules | subject |
|---|---|
| `Common`, `Selection`, `ControlLog`, `VideoLog` | packets, addresses, time; choice of an upstream; reading logs of what was sent |
| `NodeModel` | the overlay node: state, handlers and timers as functions |
| `NodeState` | the same as a mutable class, proved equal to `NodeModel` method by method |
| `NodeSelection`, `NodeFailover`, `NodeReactions`, `NodeHistory`, `NodeRounds`, `Recovery`, `Redirection` | properties of one node, over single steps and all runs |
| `FloodNetwork`, `FloodProvenance`, `FloodCoverage`, `FloodTermination` | flooding over many nodes and servers |
| `FloodOrder`, `FloodRepair`, `FloodReach`, `FloodAvailability` | which videos the flood makes available where, and what one flood restores |
| `NodeUpstreams`, `NodeAgreement`, `NodeSubscribers`, `Subscriptions` | agreement between routes, control messages and subscriber lists, at one node and across the network |
| `Reliable`, `ReliableLife`, `ReliableRuns`, `ReliableDelivery`, `ReliableSocket` | the reliable datagram layer: endpoint, life of a packet, runs on an unreliable network, mutable class |
| `Adoption` | nodes and servers on top of reliable endpoints |
| `ServerModel`, `ServerRuns`, `ServerState`, `Relay`, `Playback` | the server, and streams from the encoder to the last subscriber and its player |
| `ClientModel`, `ClientSelection`, `ClientFailover`, `ClientReactions`, `ClientHistory`, `ClientState` | the streaming client |

A handler body is one atomic step of a node, server or client; the datagram layer has finer steps, so that an
acknowledgement can arrive between the transmission of a packet and its entry as pending. The order in which a
concurrent map is iterated is an arbitrary function of its keys (`Orders`), and all results hold for every such order.
What a component sends is an append-only log in its state; a node keeps two, one for flood and video packets and one
for everything else. A component without a fixed time of its own takes the clock reading as a parameter; durations are
naturals in nanoseconds. Local sends succeed, except in the datagram layer, where each may fail. Each node and server
has one address, which also serves as its unique identifier in the network models.

## Where code and documentation disagree

The model follows the code.

- `common/src/packet.rs:33-36` wants pings to restore subscriptions at a node that has lost its state. A listed video
  that already has a route is skipped (`node/src/handle.rs:31-36`), so the second client of a video is not subscribed
  again. `PingResubscribesIffUnrouted` says exactly when a client is; `SecondClientIsForgotten` is a concrete case.
- `node/src/handle.rs:212-216` says that older packets are ignored. The comparison drops packets that jump ahead and
  passes older ones on. `DoesAsMeantIffContinues` and `DecidesAsMeantIffContinues` say that the code does what the
  comment means exactly on streams that continue without a gap; `HandlerPassesStaleDropsCurrent` is a concrete case at a
  node, and `EachHopWidensTheGap` a consequence: after a loss, every further hop loses one more packet.

In one more respect the code promises less than one may expect: two steps take a video from its upstream without
telling it to stop. One is the redirect of a video whose upstream is declared dead; the other is a flood that lists a
video which was queued at such a death and has kept its route. `StepKeepsAgreementIff` says for every step exactly when
routes and control messages stay in step (`DeathKeepsAgreementIff` and `FloodKeepsAgreementIff` are the two cases), and
`RedirectBreaksAgreement` and `FloodBreaksAgreement` are runs after which they are not.

## Model

| member | source | states |
|---|---|---|
| `Selection.BufferKeepsLatest` | node/src/node.rs:36 | The ten-place buffer of delays holds the last min(10, n) of n samples, in order |
| `Selection.AverageBounds` | node/src/node.rs:43-46 | The average lies between any lower and upper bound of its samples |
| `Selection.AverageIsQuotient` | node/src/node.rs:43-46 | The average is the sum of the samples divided by their number, rounded down; the sum does not depend on how they are grouped |
| `Selection.ThresholdBounds` | node/src/node.rs:119-130 | With minimum m and threshold t in nanoseconds: 130m - 2970 <= 100t <= 130m |
| `Selection.PickBestWins` | node/src/node.rs:129-144 | The filter/min chain chooses a candidate within the threshold of the least delay that no such candidate beats |
| `Selection.SelectIsBest` | node/src/node.rs:121-144 | Of a table of eligible entries something is selected exactly when there is one, within the threshold of the fastest and unbeaten |
| `NodeModel.BestNode` | node/src/node.rs:113-145 | No neighbour is selected exactly when no responsive one advertises the video; one that is selected advertises it |
| `NodeSelection.SelectionIsBest` | node/src/node.rs:113-145 | For every iteration order, a neighbour is selected exactly when one offers the video; it is at most 30% slower than any that does, and of those has the fewest hops, then the fewest videos routed to it, then the fewest on offer |
| `NodeSelection.NobodyFasterIsAhead` | node/src/node.rs:132-143 | No neighbour that offers the video and is as fast as the one selected comes before it in hops, videos routed to it and videos on offer |
| `NodeSelection.SelectionIgnoresOrder` | node/src/node.rs:132-144 | Two iteration orders select neighbours with as many hops, as many videos routed to them and as many on offer |
| `NodeSelection.SelectableIffBest` | node/src/node.rs:113-145 | A neighbour is selected for some iteration order if and only if it is such a first choice |
| `NodeSelection.RequestTakesTheBest` | node/src/handle.rs:69-76 | A request for a video without a route asks a first choice and routes the video there, and otherwise, if and only if nobody offers it, puts it at the end of the queue |
| `NodeSelection.PingTakesTheBest` | node/src/handle.rs:31-36 | Each video that a ping lists, that is offered and has no route by then goes to a first choice by the state in which those before it have been routed |
| `ClientModel.BestNode` | client/src/client.rs:272-302 | The client selects nobody exactly when no connected node advertises the video |
| `ClientSelection.SelectionIsBest` | client/src/client.rs:272-302 | For every iteration order, a node is selected exactly when one offers the video; it is at most 30% slower than any that does, and of those sends the fewest videos to this client, then offers the fewest |
| `ClientSelection.SelectionIgnoresOrder` | client/src/client.rs:289-301 | Two iteration orders select nodes from which as many videos come and that offer as many |
| `ClientSelection.SelectableIffBest` | client/src/client.rs:272-302 | A node is selected for some iteration order if and only if it is such a first choice |
| `ClientSelection.StartTakesTheBest` | client/src/client.rs:147-174 | Starting a video asks a first choice if anybody offers it; if the player is launched the video plays from there, or waits if and only if nobody offers it; otherwise what is played stays as it was |
| `ClientSelection.ReselectTakesTheBest` | client/src/client.rs:355-361 | Each video that needs a new source gets a first choice by the state in which those before it have got theirs, or none if nobody offers it |
| `NodeFailover.RequestKeeps` | node/src/handle.rs:48-79 | A request keeps, for every video: subscribed implies routed or queued, routed implies live upstream or queued, queued implies not on offer |
| `NodeFailover.StopKeeps` | node/src/handle.rs:81-105 | A stop keeps the failover invariant |
| `NodeFailover.PingKeeps` | node/src/handle.rs:14-46 | A client ping keeps the failover invariant |
| `NodeFailover.CheckPendingKeeps` | node/src/node.rs:207-233 | Asking the sender of a flood for the queued videos it lists restores the invariant that the flood has broken |
| `NodeFailover.FloodKeeps` | node/src/handle.rs:107-163 | A flood packet keeps the failover invariant |
| `NodeFailover.DeathKeeps` | node/src/node.rs:235-315 | Marking a neighbour dead and redirecting keeps the failover invariant |
| `NodeFailover.MultiDeathSweep` | node/src/node.rs:352-388 | After a sweep over any number of stale parents in any order, exactly those are unresponsive that were or sent their last flood more than three seconds ago, and no video depends on an unresponsive neighbour unless queued |
| `NodeFailover.StepKeepsSafe` | node/src/node.rs:328-349 | Every packet, missing acknowledgement and timer keeps the failover invariant |
| `NodeFailover.SubscribersAreServedOrNobodyOffers` | node/src/node.rs:76-94 | In every run a subscribed video has a responsive upstream, or is queued and no responsive neighbour advertises it; queued videos are never on offer |
| `NodeReactions.RequestAt` | node/src/handle.rs:48-79 | A request subscribes its sender to that video only, routes or queues it, and stops nothing |
| `NodeReactions.StopAt` | node/src/handle.rs:81-105 | A stop unsubscribes its sender from that video only; the upstream is told to stop, once, exactly when nobody is left |
| `NodeReactions.PingReconciles` | node/src/handle.rs:14-46 | After a ping the client watches nothing it did not list, what it listed is routed or queued, others keep their subscriptions, and a route goes exactly with one stop message when nobody is left |
| `NodeReactions.PingSendsInOrder` | node/src/handle.rs:14-46 | A ping is handled in this order: requests for videos it lists, stops for videos it does not list, and the answer with what could be offered before all that |
| `NodeReactions.PingResubscribesIffUnrouted` | node/src/handle.rs:31-36 | A ping leaves the client subscribed to a listed video if and only if it was before or the video had no route |
| `NodeReactions.SecondClientIsForgotten` | common/src/packet.rs:33-36 | Two clients of one video ping a node that has lost its state: the second is not subscribed |
| `NodeReactions.VideoRoundAsksForTheOverdue` | node/src/node.rs:422-441 | A round asks the upstream of each video whose last packet is recorded as more than half a second old, once, and changes neither routes nor subscribers |
| `NodeRounds.SilenceIsNoticed` | node/src/node.rs:422-441 | When half a second has passed since a packet of a routed video, a round asks its upstream again |
| `NodeRounds.VideoRoundAsksForTheLate` | node/src/node.rs:422-441 | In every run a round asks for exactly the routed videos of which a packet has arrived, the last of them more than half a second ago |
| `NodeRounds.ClientRoundDropsTheSilent` | node/src/node.rs:391-420 | In every run a round ends exactly the subscriptions of clients that have pinged, but not within three seconds; a video that loses its last subscriber so is stopped at its upstream, once, and loses its route |
| `NodeRounds.SweepBuriesTheSilent` | node/src/node.rs:352-388 | In every run a sweep leaves exactly those parents responsive that were and have sent a flood packet within three seconds |
| `NodeSubscribers.ClientRoundDropsExactlyTheSilent` | node/src/node.rs:391-420 | A round ends exactly the subscriptions of clients whose last ping is recorded as more than three seconds old |
| `NodeHistory.RequestTwice` | node/src/handle.rs:48-79 | A request delivered twice leaves subscribers, routes, messages and the set of queued videos as delivered once |
| `NodeHistory.StopTwice` | node/src/handle.rs:81-105 | A stop delivered twice leaves the state as delivered once |
| `NodeHistory.TableMirrorsFloods` | node/src/node.rs:48-67 | In every run each route table entry holds what the accepted floods from that neighbour say |
| `NodeHistory.NamesMirrorFloods` | node/src/handle.rs:115-118 | In every run a video has the name that the last accepted flood to list it gives it |
| `NodeHistory.NeighboursMirrorIntroductions` | node/src/node.rs:179-181 | In every run the neighbours are those given at first and then everyone introduced since, in order and as often as it happened |
| `NodeHistory.TimesMirrorArrivals` | node/src/handle.rs:207-208 | In every run the times recorded are those at which the last packet of a video and the last ping of a client arrived |
| `NodeHistory.AveragesAreFaithful` | node/src/node.rs:42-46 | In every run each entry averages the last min(10, n) of n > 0 measured delays |
| `Common.AddSubscriber` | node/src/handle.rs:53-56 | Adding a subscriber keeps a duplicate-free list duplicate-free (by its result type) |
| `Common.Without` | node/src/handle.rs:86-88 | Removing a subscriber removes exactly it and keeps the list duplicate-free |
| `Common.WithoutCounts` | node/src/node.rs:298-301 | What is not removed from a list stays as often as it was there |
| `Common.WithoutAllCounts` | node/src/node.rs:229-232 | The same for removing all of a list |
| `NodeModel.GetVideos` | node/src/node.rs:154-169 | The advertised list holds exactly the named videos that a responsive neighbour other than the receiver offers |
| `NodeReactions.AdvertisedOnce` | node/src/node.rs:154-169 | No video is advertised twice in one list |
| `NodeModel.Receiving` | node/src/node.rs:238-243 | Lists exactly the videos routed to the neighbour |
| `NodeModel.Sending` | node/src/node.rs:245-250 | Lists exactly the videos the neighbour subscribes to |
| `NodeModel.StaleParents` | node/src/node.rs:357-380 | Lists exactly the responsive neighbours without a flood packet for more than three intervals |
| `NodeModel.BroadcastInOrder` | node/src/handle.rs:140-160 | One copy for each occurrence of a neighbour in the list, in its order, leaving out the sender, each with the videos that may be advertised to it |
| `NodeState.State.constructor` | node/src/node.rs:97-111 | A new node knows its identity and neighbours and nothing else |
| `NodeState.State.SendReliable` | node/src/node.rs:322-323 | Hands one packet over: appends it to the log of control packets and changes nothing else |
| `NodeState.State.RegisterNewNeighbour` | node/src/node.rs:179-181 | Appends the address without looking for duplicates and changes nothing else |
| `NodeState.State.RequestVideoToNode` | node/src/node.rs:317-326 | Sends one request to the upstream and routes the video to it, whatever the route was |
| `NodeState.State.HandleRequestVideo` | node/src/handle.rs:48-79 | Subscribes the sender unless it is; without a route it asks the best upstream, or queues the video if there is none |
| `NodeState.State.SelectUpstream` | node/src/handle.rs:69-76 | Asks the best upstream and routes the video to it, or queues the video if there is none |
| `NodeState.State.HandleStopVideo` | node/src/handle.rs:81-105 | Removes the subscriber; if nobody is left and there is a route, removes it and tells the upstream to stop |
| `NodeState.State.StopVideos` | node/src/node.rs:259-263 | Ends the subscriptions of one address to a list of videos, one after the other |
| `NodeState.State.HandleClientPing` | node/src/handle.rs:14-46 | Records the ping, requests what is listed and unrouted, stops what is not listed, and answers with the videos on offer before all that |
| `NodeState.State.RequestMissing` | node/src/handle.rs:31-36 | Requests, in order, each listed video that has no route by then |
| `NodeState.State.StopOthers` | node/src/handle.rs:38-44 | Stops each video that the client watches and does not list |
| `NodeState.State.UpdateFromFloodPacket` | node/src/handle.rs:115-131 | Learns the names listed and renews the entry of the sender: hops, videos, one more delay, responsive, its parents |
| `NodeState.State.CheckPendingVideos` | node/src/node.rs:207-233 | Asks the sender for each queued video it lists, repetitions included, and then removes those from the queue |
| `NodeState.State.HandleFloodPacket` | node/src/handle.rs:107-163 | Ignores a packet that has visited the node; otherwise records it, serves the queue and passes it on |
| `NodeState.State.BroadcastFlood` | node/src/handle.rs:137-161 | Sends each neighbour but the sender a copy with the node among the visited, its parents, and what may be advertised there |
| `NodeState.State.HandleUnresponsiveNode` | node/src/node.rs:235-315 | Ends the subscriptions of the dead neighbour, redirects its videos, and queues the rest after approaching its parents |
| `NodeState.State.QueueRemaining` | node/src/node.rs:282-314 | Approaches the parents of the dead neighbour if any video is left over, and queues what is |
| `NodeState.State.RedirectVideos` | node/src/node.rs:265-280 | Moves each video to the upstream that is best by then, and returns those for which there is none |
| `NodeState.State.ConnectToParents` | node/src/node.rs:298-307 | Sends one introduction to each listed parent other than the node itself |
| `NodeState.State.HandleFloodUnacknowledged` | node/src/handle.rs:165-190 | Declares the target dead if it is a responsive entry of the route table, and does nothing otherwise |
| `NodeState.State.BuryNode` | node/src/node.rs:384-387 | Marks one entry unresponsive and handles the death |
| `NodeState.State.CheckNeighbours` | node/src/node.rs:352-388 | Collects the stale parents first and buries them one by one afterwards |
| `NodeState.State.CheckClients` | node/src/node.rs:391-420 | Ends all subscriptions of each client whose last ping is too old |
| `NodeState.State.CheckVideos` | node/src/node.rs:422-441 | Asks the upstream of each overdue video again |
| `NodeState.State.HandleVideoPacket` | node/src/handle.rs:192-237 | Records number and time; passes the packet on to all subscribers unless it jumps ahead |
| `NodeState.State.HandlePacket` | node/src/node.rs:328-349 | Gives each kind of packet to its handler and refuses those meant for clients |
| `Recovery.DeathMovesVideos` | node/src/node.rs:269-280 | A video that came from the dead neighbour moves to another that offers it, or joins the queue if there is none; no other video is queued |
| `Recovery.DeathStopsTheUnwatched` | node/src/node.rs:257-263 | A death stops exactly the videos that the dead neighbour alone watched, each once at its upstream; those that neither came from it nor were watched by it alone keep their upstream |
| `Redirection.RedirectTakesTheBest` | node/src/node.rs:265-280 | Each redirected video that somebody offers goes to a first choice by the routes that hold after those before it have moved |
| `Redirection.DeathTakesTheBest` | node/src/node.rs:235-280 | The same for the videos of a dead upstream |
| `Redirection.RedirectSpreadsEvenly` | node/src/node.rs:132-143 | Any number of redirected videos spread over equally good neighbours that offer them so that their numbers differ by at most one |
| `Redirection.DeathSpreadsEvenly` | node/src/node.rs:235-280 | The same when an upstream dies that watches nothing |
| `Redirection.TwoVideosPart` | node/src/node.rs:265-280 | Two videos of a dead upstream go to two different neighbours that offer both and had equally many |
| `Redirection.DeathAsksOnce` | node/src/node.rs:265-280 | A death makes the node ask for exactly the videos that came from there and are on offer elsewhere, each once, at its new upstream |
| `Redirection.DeathQueuesOnce` | node/src/node.rs:265-280 | A death queues exactly the videos that came from there and are on offer nowhere else, each once more |
| `Redirection.SweepBuriesOnce` | node/src/node.rs:357-380 | A sweep buries nobody twice |
| `Redirection.SweepAsksTheDying` | node/src/node.rs:384-387 | When two neighbours that alone offer a video are buried in one sweep, the second is asked for it if and only if the video came from the first to be buried |
| `Recovery.DeathApproachesGrandparents` | node/src/node.rs:291-308 | The dead neighbour's parents, other than the address that the node listens on, are approached if and only if some video that came from it is offered nowhere else |
| `Recovery.QueuedVideoIsRequested` | node/src/node.rs:207-233 | The first accepted flood that lists a queued video takes it off the queue and asks the sender for it |
| `Recovery.FloodServesTheQueue` | node/src/node.rs:207-233 | An accepted flood takes exactly the videos it lists off the queue, asks its sender for each as often as it was queued, and leaves all other routes and queue entries alone |
| `Recovery.GrandparentRestoresVideo` | report/src/main.typ:371 | The documented recovery: a grandparent that lists the node floods it the queued video, is asked for it, and then serves it, each packet once |
| `FloodNetwork.RoundSendsTravel` | server/src/server.rs:246-262 | A round sends each server neighbour a packet made at that time with exactly the server's videos, only the server visited, and no parents |
| `FloodNetwork.RelayedSendsTravel` | node/src/handle.rs:107-162 | A packet that is passed on extends the simple path of the one received by the node itself and does not go back to its sender |
| `FloodNetwork.OnlyFloodsSpread` | node/src/node.rs:328-349 | Steps other than an accepted flood send no flood packet, teach no names and drop no neighbour |
| `FloodProvenance.SplitHorizon` | node/src/node.rs:154-169 | A node passes on exactly the videos that at that moment a responsive neighbour other than the receiver offers |
| `FloodProvenance.RelayedPacketNamesParents` | node/src/handle.rs:150-157 | A packet that is passed on keeps the time stamp and names exactly the neighbours that have sent the node flood packets |
| `FloodProvenance.RunIsSound` | node/src/handle.rs:107-163 | In every run packets in flight have come along simple paths, route table entries are justified by one, and every advertised video was published |
| `FloodProvenance.ParentsReachAServer` | node/src/node.rs:26-28 | In every run, with loss, copies and growing neighbour lists: a listed parent floods the node, and a simple path with as many members as the recorded hops leads from a server to it without the node |
| `FloodProvenance.AdvertisementsWerePublished` | server/src/server.rs:145-150 | Every video and name in a flood packet, a node's table or an answer to a client was offered by some server |
| `FloodCoverage.FullRoundCovers` | server/src/server.rs:256-262 | A full round puts a packet on the first hop of every path from its server |
| `FloodCoverage.CarefulKeepsCovered` | node/src/handle.rs:107-162 | Lossless steps move the packet that covers a path one hop on or list its last member |
| `FloodCoverage.DrainedFloodFindsExactlyTheParents` | node/src/node.rs:26-28 | Once nothing is in flight, a node lists a neighbour if and only if that floods it and a simple path from a server reaches it without the node |
| `FloodTermination.DeliveryLowersMeasure` | node/src/handle.rs:110-161 | Each delivery lowers the sum of (6D + 1)^(N + 1 - visited) over the packets in flight |
| `FloodTermination.FloodDiesOut` | common/src/reliable.rs:187-213 | k packets in flight cause at most k (6D + 1)^N deliveries and losses before the next round |
| `FloodOrder.AdvertisementsNeverShrink` | node/src/node.rs:154-169 | While links keep packets in order and nobody is declared dead, a neighbour that is known to offer a video stays known to |
| `FloodReach.OfferedMeansReached` | node/src/node.rs:154-169 | In every run, a video on offer at a node comes along a simple path from a server that offers it |
| `FloodRepair.FloodRepairsPath` | node/src/handle.rs:107-162 | After any history, since a full round of a server with ordered, lossless delivery and no deaths: along each path from the server a first part of the hops advertises the video, and the next hop has a packet in flight with the video, as have all behind it |
| `FloodRepair.DrainedPathOffers` | node/src/handle.rs:107-162 | Once nothing is in flight, the last member of each path from the server is known to the next as responsive and offering the video |
| `FloodReach.PathsAdvertise` | node/src/handle.rs:107-162 | Once such rounds have drained, the end of each simple path from a server that offers a video advertises it to every node that it floods and that is not on the path |
| `FloodReach.OfferedIffReached` | node/src/node.rs:154-169 | After any history and then a drained full round of every server that offers a video, the video is on offer at a node if and only if a simple path leads there from such a server |
| `FloodReach.RequestIsRoutedIffReached` | node/src/handle.rs:69-76 | Then a request is routed if and only if such a path exists, and queued otherwise |
| `FloodReach.NodesStaySafe` | node/src/node.rs:328-349 | In every run of the network, with loss, copies, deaths and restarts, every node keeps the failover invariant |
| `FloodReach.FullFloodRepairsFailover` | node/src/node.rs:207-233 | Whatever died or was lost before, after such rounds each subscribed video that a path reaches has a responsive upstream and is not queued; any other is offered by nobody, and has a responsive upstream or is queued |
| `FloodAvailability.OfferedVideoIsNeverQueued` | node/src/handle.rs:69-76 | In every run a node with a responsive parent routes a request for a video that every server offers |
| `FloodAvailability.DrainedFloodAdvertises` | node/src/handle.rs:107-162 | After a drained flood, a node at the end of a path from a server lists the member before it, and that entry advertises the video |
| `ControlLog.ReplayHasLastWord` | node/src/handle.rs:53-56 | Replaying the undelivered rest of a channel on a subscriber list gives the last word of the whole channel |
| `NodeUpstreams.FloodKeepsAgreementIff` | node/src/node.rs:207-233 | A flood packet keeps routes and control messages in step with a neighbour, unless it is accepted, comes from another, and lists a queued video that still comes from that neighbour: exactly then the video moves without a stop |
| `NodeUpstreams.StepKeepsUnrouted` | node/src/node.rs:207-233 | While nobody is declared dead, queued videos have no route |
| `NodeAgreement.DeathKeepsAgreementIff` | node/src/node.rs:257-280 | Declaring a neighbour dead keeps routes and control messages in step with it if and only if it is not the case that the video came from it, is on offer elsewhere, and was not watched by it alone |
| `NodeAgreement.OtherDeathAgrees` | node/src/node.rs:235-315 | Declaring a neighbour dead keeps routes and control messages in step with every other one |
| `NodeAgreement.RedirectLeavesOldUpstreamAsked` | node/src/node.rs:265-280 | A redirect of a video that others still watch sends the old upstream no stop |
| `NodeAgreement.BuryKeepsAgreementIff` | node/src/node.rs:352-388 | However many neighbours a sweep buries in whatever order, agreement with one of them is lost if and only if it is lost at its own turn |
| `NodeAgreement.StepKeepsAgreementIff` | node/src/node.rs:317-326 | Any step, deaths included, keeps the video coming from a neighbour exactly if that was last asked for it, if and only if the step does not take the video from it without telling it |
| `NodeAgreement.RunAgreesUntilAbandoned` | node/src/node.rs:317-326 | In every run of a new node routes and control messages are in step until a step takes the video from its upstream without telling it, which ends that |
| `NodeAgreement.RedirectBreaksAgreement` | node/src/node.rs:265-280 | Two floods, a request and an unacknowledged flood after which a neighbour has last been asked for a video that does not come from it |
| `NodeAgreement.FloodBreaksAgreement` | node/src/node.rs:207-233 | A flood, a request, an unacknowledged flood and a flood from elsewhere after which the same holds: the video was queued and kept its route |
| `NodeUpstreams.FirstRequestIsBacked` | node/src/handle.rs:69-76 | In every step, a neighbour that is asked for a video for the first time has advertised it, and is responsive unless it dies in the same round |
| `NodeSubscribers.DeathUnsubscribes` | node/src/node.rs:245-263 | A dead neighbour loses its subscriptions and nobody else does |
| `NodeSubscribers.OnlyOwnPacketsCount` | node/src/handle.rs:81-88 | In every step, an address that does not ping is subscribed and unsubscribed by its own requests and stops and by being declared dead, and by nothing else |
| `Subscriptions.RoutedWasRequested` | node/src/node.rs:317-326 | In every run no video comes from a neighbour that has never been asked for it |
| `Subscriptions.UnknownVideoIsNeverRequested` | server/src/server.rs:179-191 | In every run no node lists a video as a server's, or asks the server for it, before the server has it |
| `Subscriptions.SubscriptionsAgree` | node/src/handle.rs:48-105 | In every run with ordered, exactly-once control channels, whoever dies: unless the pair has been disturbed about the video, replaying what is on its way, a node or server lists a node as subscriber if and only if that node takes the video from it |
| `Subscriptions.AbandoningEndsAgreement` | node/src/node.rs:265-280 | A step that takes the video from its upstream without telling it ends that agreement at once |
| `Subscriptions.BurialKeepsAgreementIff` | node/src/node.rs:259-263 | When the upstream declares a subscriber dead, agreement survives if and only if a request or stop of the subscriber is still on its way |
| `Subscriptions.DrainedSubscriptionsAgree` | node/src/handle.rs:48-105 | With nothing on its way, subscriber lists and routes are the same relation for undisturbed pairs |
| `Subscriptions.FailureFreeIsUndisturbed` | node/src/node.rs:235-315 | If nobody is ever declared dead, nothing is disturbed |
| `VideoLog.BroadcastOnce` | common/src/reliable.rs:122-138 | A broadcast to a duplicate-free list reaches each member exactly once |
| `Relay.UnchangedIffNoJump` | node/src/handle.rs:198-223 | A node passes a stream on unchanged if and only if no number jumps beyond the successor of the one before |
| `Relay.DoesAsMeantIffContinues` | node/src/handle.rs:209-221 | For distinct packets, a node passes on what the comment wants, older ones ignored, if and only if the stream continues without a gap |
| `Relay.DecidesAsMeantIffContinues` | node/src/handle.rs:209-221 | For any stream, code and comment decide alike about every packet if and only if it continues without a gap |
| `Relay.NodeDoesAsMeantIff` | node/src/handle.rs:192-237 | Over any run, a staying subscriber is sent what the comment wants if and only if what arrives continues without a gap |
| `Relay.HandlerPassesStaleDropsCurrent` | node/src/handle.rs:192-237 | A new node that is asked for a video and receives packets 5 and 3 relays both; of 5 and 7 it relays 5 |
| `Relay.StalePassesCurrentDoesNot` | node/src/handle.rs:210-216 | After packet 5, the stale packet 3 is passed on and packet 7 is not |
| `Relay.EachHopWidensTheGap` | node/src/handle.rs:198-216 | A stream with a gap loses one more packet after the gap at every hop |
| `Relay.NodeSendsWhatIsDue` | node/src/handle.rs:192-237 | Over any run a subscriber is sent exactly the packets that pass while it is subscribed, each once and in order |
| `Relay.ChainIsTransparent` | node/src/handle.rs:192-237 | A gap-free stream, whatever its first number, passes any chain of nodes without earlier record unchanged |
| `Relay.ChainWidensTheGap` | node/src/handle.rs:198-216 | A stream with a gap loses one more packet at each hop of a chain of node runs |
| `Relay.EncoderReachesSubscriber` | server/src/server.rs:109-130 | From encoder through any chain, the last subscriber is sent all output, each piece once, in order and numbered consecutively |
| `Playback.EncoderReachesPlayer` | client/src/client.rs:304-321 | From the moment a client starts the video, through any chain from the encoder, the player is given exactly the output since then, piece by piece and in order |
| `Playback.EncoderReachesRunningPlayer` | client/src/client.rs:235-257 | The same in addition to what a running player has been given |
| `ServerModel.ListVideos` | server/src/server.rs:145-150 | The list pairs each video identifier with the name the server has for it |
| `ServerModel.VideoListPacket` | server/src/server.rs:249-254 | A round's packet lists exactly the server's videos and only the server as visited |
| `ServerRuns.ControlTwice` | server/src/server.rs:179-200 | A request or stop delivered twice leaves the server as delivered once, and settles whether its sender watches |
| `ServerRuns.StreamIsGapFree` | server/src/server.rs:109-130 | A subscriber that stays is sent all of the encoder's output, once, in order, numbered consecutively |
| `ServerRuns.WatchersHearWhatIsAired` | server/src/server.rs:109-130 | Whoever comes and goes, the number advances with exactly the pieces that somebody watches, and a subscriber is sent exactly the pieces produced while it watches, each once under its number |
| `ServerRuns.SingleWatcherSeesNoGap` | server/src/server.rs:109-114 | A single subscriber that stops and comes back is sent consecutive numbers |
| `ServerRuns.FirstWatcherHearsAll` | server/src/server.rs:86-130 | Starting a video forgets its watchers; whoever asks for it then, and does not stop it, is sent all output, numbered from one |
| `ServerRuns.RoundFloodsEachNeighbour` | server/src/server.rs:246-262 | A round sends each neighbour in turn the same packet, made now, without parents |
| `ServerRuns.NeighboursMirrorIntroductions` | server/src/server.rs:202-205 | In every run the flood targets are those given at first and then everyone introduced since, in order and as often as it happened |
| `ServerRuns.GivenNeighboursAreFlooded` | server/src/server.rs:32-39 | In every run of a new server each round reaches every neighbour that it was given |
| `ServerRuns.ListsStaySound` | server/src/server.rs:179-207 | In every run subscriber lists are duplicate-free and the list of flood targets only grows |
| `ServerState.State.constructor` | server/src/server.rs:32-39 | A new server has its identity and neighbours, no videos, and has sent nothing |
| `ServerState.State.AddVideo` | server/src/server.rs:86-87 | Enters the video under its name with no subscribers and number zero |
| `ServerState.State.HandlePacket` | server/src/server.rs:178-213 | Adds or removes the sender at a known video, appends a new neighbour, ignores the rest |
| `ServerState.State.StreamData` | server/src/server.rs:109-130 | Numbers the data and sends it to all subscribers if there are any, and drops it otherwise |
| `ServerState.State.FloodRound` | server/src/server.rs:246-262 | Sends every neighbour a packet with the video list and the server alone visited |
| `ReliableLife.TickKeepsLife` | common/src/reliable.rs:181-216 | A turn of the retransmission loop keeps: transmissions = 1 + retries, at most one result, timeout only after six transmissions and 600 ms |
| `ReliableLife.ReceiveKeepsLife` | common/src/reliable.rs:158-172 | A received datagram keeps the same, also when an acknowledgement comes before the packet is pending |
| `ReliableRuns.SingleOutcomeAndBoundedEffort` | common/src/reliable.rs:77-218 | In every run a packet entered as pending has exactly one result once it is not pending and none before; while its loop runs it is due 100 ms after its last transmission; at most six transmissions; timeout only after six and 600 ms |
| `ReliableRuns.SixTurnsResolve` | common/src/reliable.rs:176-218 | Unless a retransmission fails locally, a packet has its result after at most six turns of its loop |
| `ReliableRuns.AbandonedIffLocalFailure` | common/src/reliable.rs:201-208 | A pending packet is left without a timer exactly when a retransmission has failed locally |
| `ReliableRuns.AcknowledgedMeansReceived` | common/src/reliable.rs:85-104 | In every run with loss, duplication and reordering, an acknowledged packet was returned by `receive` at its destination |
| `ReliableRuns.ReceivedMeansSent` | common/src/reliable.rs:151-173 | Whatever `receive` returns was handed over by its apparent sender for this address |
| `ReliableRuns.AnsweredPacketIsAcknowledged` | common/src/reliable.rs:158-171 | In every reachable state: if a pending packet arrives and its acknowledgement arrives in time, it ends as acknowledged and received |
| `ReliableDelivery.CastsAreTransmittedOnce` | common/src/reliable.rs:111-120 | In every run a payload is transmitted without a number exactly as often as it is handed to an unreliable send |
| `ReliableDelivery.CastCanArrive` | common/src/reliable.rs:111-120 | At any time after an unreliable send the packet may arrive at its address, and `receive` then returns it |
| `ReliableDelivery.OnTheWireIffCast` | common/src/reliable.rs:111-120 | An unnumbered packet can arrive if and only if it was handed to an unreliable send for that address |
| `ReliableDelivery.BroadcastServesAPrefix` | common/src/reliable.rs:122-138 | A broadcast transmits one copy to each target before the first that the operating system refuses, in order, and reports whether there is none |
| `ReliableDelivery.BroadcastTransmitsEach` | common/src/reliable.rs:122-138 | On the network a broadcast transmits one copy to each target, in order, and does nothing else |
| `ReliableDelivery.BroadcastCanArrive` | common/src/reliable.rs:122-138 | After a broadcast the packet may arrive at each target |
| `ReliableDelivery.EachReturnIsAcknowledgedOnce` | common/src/reliable.rs:165-170 | In every run an endpoint has sent as many acknowledgements of a packet as `receive` has returned copies of it |
| `ReliableDelivery.ReliableSendCanComplete` | common/src/reliable.rs:77-109 | From any reachable state a reliable send can be transmitted, entered as pending, returned at its destination and acknowledged |
| `ReliableSocket.ReliableUdpSocket.constructor` | common/src/reliable.rs:63-75 | A new endpoint has sent and received nothing and starts at number zero |
| `ReliableSocket.ReliableUdpSocket.SendTo` | common/src/reliable.rs:89-90 | Logs the datagram exactly if the operating system accepts it |
| `ReliableSocket.ReliableUdpSocket.BeginSend` | common/src/reliable.rs:85-90 | Takes the next number and transmits the packet under it; if the local send fails only the number is used up |
| `ReliableSocket.ReliableUdpSocket.FinishSend` | common/src/reliable.rs:92-106 | Enters the transmitted packet as pending with no retries and starts its timer |
| `ReliableSocket.ReliableUdpSocket.SendUnreliable` | common/src/reliable.rs:111-120 | Transmits the packet once, without a number, if the operating system accepts it |
| `ReliableSocket.ReliableUdpSocket.SendUnreliableBroadcast` | common/src/reliable.rs:122-138 | Transmits one copy to each target in turn, until the operating system refuses one |
| `ReliableSocket.ReliableUdpSocket.Resolve` | common/src/reliable.rs:159-163 | Removes the pending packet and reports one result |
| `ReliableSocket.ReliableUdpSocket.Receive` | common/src/reliable.rs:151-173 | Ends the packet that is acknowledged if it is pending; returns a payload exactly for an unnumbered packet, or a numbered one whose acknowledgement was sent |
| `ReliableSocket.ReliableUdpSocket.Tick` | common/src/reliable.rs:181-216 | Reports a timeout after five retries; otherwise sends again and counts, or ends the loop if the local send fails or nothing is pending |
| `Adoption.ListsNeverShrink` | node/src/node.rs:179-181 | In every run neighbour lists of nodes and servers never lose anyone |
| `Adoption.IntroductionsAreHandled` | node/src/node.rs:339 | A `NewNeighbour` that has been received has been handled: its sender is listed |
| `Adoption.AdoptionIsMutual` | node/src/node.rs:183-204 | In every run over unreliable links, a node and the parent it has adopted list each other |
| `ClientFailover.MultiNodeSweep` | client/src/client.rs:323-372 | After a sweep over any number of silent nodes in any order exactly those are newly unresponsive that were connected and answered last more than three seconds ago, and every playing video has a connected source or is offered by nobody |
| `ClientFailover.StepKeepsSafe` | client/src/client.rs:147-270 | Starting, stopping, answers, video packets, sweeps and pings keep client failover |
| `ClientFailover.PlayingVideosAreServedOrNobodyOffers` | client/src/client.rs:54-61 | In every run the source of a playing video is a connected node; without a source, no connected node advertises it |
| `ClientFailover.SourcesHaveBeenAsked` | client/src/client.rs:147-157 | In every run the last request or stop of a playing video sent to its source is a request |
| `ClientReactions.AnswerTwice` | client/src/client.rs:189-233 | An answer delivered twice leaves the client as delivered once |
| `ClientReactions.AnswerMovesOnlyTheWaiting` | client/src/client.rs:219-231 | An answer changes the source only of videos that it lists and that wait for one |
| `ClientReactions.SweepMovesOnlyFromTheSilent` | client/src/client.rs:346-370 | A sweep changes the source only of videos from nodes that have not answered for three seconds |
| `ClientReactions.PingExchange` | client/src/client.rs:374-394 | Ping, answer and its handling: the node serves the client nothing it does not take from it, and the client sees the node as connected and offering exactly what the node can relay |
| `ClientReactions.PingNodesSends` | client/src/client.rs:374-394 | Each ping has its own pending number and lists exactly the videos taken from that node |
| `ClientReactions.PingRoundReaches` | client/src/client.rs:374-394 | A round pings every known node exactly once |
| `ClientReactions.FirstRoundPingsEveryServer` | client/src/client.rs:82-104 | A new client pings each of its servers exactly once in its first round |
| `ClientReactions.NothingIsHandledTwice` | client/src/client.rs:219-231 | No ping lists a video twice, no re-selection handles one twice, and no sweep buries a node twice |
| `ClientReactions.StopPlayingTellsSource` | client/src/client.rs:176-187 | Stopping removes that video alone and the last word to its source, and to nobody else, is a stop |
| `ClientReactions.StopWaitingTellsNobody` | client/src/client.rs:176-187 | Stopping a video that waits for a source removes it, and nobody is told |
| `ClientReactions.RefusalStops` | client/src/client.rs:258-266 | When the player refuses data, that video alone is removed and the last word to the sender, and to nobody else, is a stop |
| `ClientReactions.PlayerGetsEverything` | client/src/client.rs:235-257 | Through any redirects the player is given the data of exactly the packets that arrive, in order; the byte count is its volume and the number recorded is the latest |
| `ClientReactions.PlayerGetsEverythingFromTheStart` | client/src/client.rs:159-174 | From the start of a video, with a source or waiting for one, the player is given the data of exactly the packets that arrive, in order |
| `ClientHistory.TableMirrorsAnswers` | client/src/client.rs:42-47 | In every run the entry of a node holds the round-trip times, the time and the list that its answers to pending pings gave |
| `ClientHistory.AveragesAreFaithful` | client/src/client.rs:42-51 | In every run a node's buffer holds the last min(10, n) round-trip times, and a connected node's average is defined and within their bounds |
| `ClientHistory.SweepMarksTheSilent` | client/src/client.rs:323-372 | In every run a sweep leaves exactly those nodes connected that were and have answered within three seconds |
| `ClientState.State.constructor` | client/src/client.rs:82-104 | A new client knows its servers, not yet connected, and nothing else |
| `ClientState.State.SendReliable` | client/src/client.rs:127-145 | Hands one packet over: appends it to the log and changes nothing else |
| `ClientState.State.SelectAndRequest` | client/src/client.rs:147-157 | Selects the best node, sends it a request if there is one, and returns it |
| `ClientState.State.StartPlaying` | client/src/client.rs:159-174 | Requests the video first and plays it from the node selected, if the player could be launched |
| `ClientState.State.StopPlaying` | client/src/client.rs:176-187 | Removes the video and tells its source to stop, if it has one |
| `ClientState.State.ReselectVideos` | client/src/client.rs:227-231 | Selects a source for each listed video anew, one after the other |
| `ClientState.State.LearnNames` | client/src/client.rs:191-193 | Enters each listed name in order, so that the last one stays |
| `ClientState.State.HandlePingAnswer` | client/src/client.rs:189-233 | Learns names; if the ping is pending, settles it, renews the node that answers and looks for sources of waiting videos that it lists |
| `ClientState.State.HandleVideoPacket` | client/src/client.rs:235-270 | Gives the data to the player and records number and volume; if the player refuses, removes the video and tells the sender to stop |
| `ClientState.State.BuryNode` | client/src/client.rs:346-370 | Marks one node unresponsive and selects new sources for what came from it |
| `ClientState.State.CheckNodes` | client/src/client.rs:323-372 | Collects the silent nodes first and buries them one by one afterwards |
| `ClientState.State.PingNodes` | client/src/client.rs:374-394 | Pings every node under a number of its own, listing what is taken from it, and enters the ping as pending |

## Left out

- Subscriptions.SubscriptionsAgree: for a node, an upstream and a video that no step has disturbed, since `AbandoningEndsAgreement` and `BurialKeepsAgreementIff` show what such steps do; and for channels that deliver requests and stops once and in order.
- FloodTermination.FloodDiesOut: assumes a network that adds no copies of its own, so that a packet is delivered at most six times for one reliable send.
- FloodCoverage.DrainedFloodFindsExactlyTheParents: the "if" half assumes that nothing is lost and no neighbour list changes after the rounds; the "only if" half and the hop counts are proved for every run as `ParentsReachAServer`.
- FloodAvailability.OfferedVideoIsNeverQueued: assumes that every server offers the video, and nothing about links; `RequestIsRoutedIffReached` is for any video, after a full round on ordered links.
- FloodAvailability.DrainedFloodAdvertises: assumes that every server offers the video, and nothing about the order of packets; `PathsAdvertise` is for any video, after a full round on ordered links.
- NodeState.State.SendReliable: only hands the packet over; numbers, transmissions and results are those of `ReliableSocket.ReliableUdpSocket`.
- Relay.DoesAsMeantIffContinues: for packets that differ from each other, because 5, 7, 7 gives 5, 7 either way; `DecidesAsMeantIffContinues` compares the decisions and needs no such assumption.
- FloodReach.OfferedIffReached: the "if" half needs, since a full round of each server that offers the video and not before, that links keep packets in order and lose none, and that nobody is declared dead; the "only if" half holds in every run (`OfferedMeansReached`).
- Relay.ChainIsTransparent: for hops without an earlier record of the stream and links that lose nothing; what a hop does to any other sequence is `UnchangedIffNoJump` and `NodeSendsWhatIsDue`.
- Adoption.AdoptionIsMutual: says nothing about an adopted address at which a client runs, since clients ignore introductions; which packets the endpoints are handed is left open.
- ReliableRuns.AcknowledgedMeansReceived: an endpoint that restarts would reuse packet numbers; endpoints do not restart in the model.
- NodeModel.BestNode and the other pure filter/map chains are functions; the class methods that call them pass their abstract state.
- Sending an acknowledgement and returning the payload are one step of `receive`; so are finding a packet out of retries and removing it.
- The locks of concurrent maps: some loops change a map while they iterate over it (`node/src/handle.rs:38-44`), which may block; handlers iterate over a snapshot.
- Local send errors in nodes, servers and clients, which several paths only log.
- The order between control packets and relayed packets of one node, since they are kept in two logs.
- Whether a route can be without subscribers, and whether routes can form a cycle: neither is claimed.
- Restarts of servers, and restarts after which the bootstrapper lists fewer neighbours than the node had; other restarts of nodes are steps of the flooding network.
- Duplicates in the queue of pending videos and in neighbour lists, which the code allows and the model keeps.
- 64-bit wrap-around of packet, ping and stream numbers; clock skew between hosts, which shows only as arbitrary delays.
- Hash collisions of node and video identifiers; a node that listens on the unspecified address, and so never recognises its own address among a dead neighbour's parents.
- The bootstrapper, the user interface, video players, encoders, folder watching, argument parsing and logging.
- The byte encoding of packets, and errors in decoding them.
