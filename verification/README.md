# Group Centric Networking, modelled and proved in Dafny

GCN is a multi-hop wireless protocol: clients attach to a service on each node, sources advertise
their groups, group nodes acknowledge along reverse paths, and DATA is flooded with TTLs, spread
over the resulting relay tree, or sent as unicast to a source. This project models the service
(`gcn/src/gcnService.cpp`), the client library (`gcn/src/gcnClient.cpp`) and the basic client
(`gcn/src/gcnClientBasic.cpp`), lifts the service to a network, and proves what the protocol is for.

`dafny verify dfyconfig.toml` checks everything.

## How it is built

- `Types` has identifiers, messages and table entries; `NodeSpec` says, handler by handler, what
  becomes of each table of a node. 32-bit counters wrap explicitly. A failed `LOG_ASSERT` or
  `LOG_FATAL`, which ends the process, is the outcome `Fatal`.
- `GcnService` is the service as a class that updates its tables in place, each method proved
  against the function of the same handler. `HashIndex` and `PullTable` hold the facts its loops need.
- `Network` is the adversarial network: any message ever sent may reach any node, any number of
  times, in any order, or never. Over its runs: `LoopFreedom` (no assertion fails, reverse paths
  have no loops), `Hearing` (what a node knows of a flow, told from what it received), `Distances`,
  `Origin`, `Delivery` (at most once), `Coin` (who becomes a relay), `AckWave` (one ACK and one coin
  flip for one advertisement), `Registry` (what a node keeps of its clients, told from what they
  asked), `Tables`, `Pulls` and `Sessions`.
- `Air` is the network of broadcasts over fixed links: each transmission puts one copy on the way to
  each neighbour. A round is a sequence of deliveries and timers; in a season (`Traffic`) clients go
  on sending DATA as well. Over rounds and seasons: `Silence` (they end), `Flood`, `FloodRound`,
  `FloodSeason`, `FloodStart` and `Sharing` (who gets a flooded message), `FloodOrder` and
  `FloodOrderRound` (when the order of events does not matter), `Tree`, `TreeRound`, `TreeSeason` and
  `TreeData` (the relay tree and what travels over it), `Gather`, `GatherRound`, `GatherSeason` and
  `UnicastSend` (unicast, over the tree or with a TTL), `GatherBlock` and `GatherLoss` (when it gets
  lost), `Convergecast` (unicast to the source after a first round) and `Descent` (unicast traffic ends). `Flood`, `Tree` and `Gather` are small machines about one message
  each; the modules named Round prove that the network, watched for that message, is such a machine,
  and each has its own words for it: the world it moves in, its moves, and what else may be afoot.
  `Numbers` and `AdNumbers` show for all runs that new messages are new to everyone. `Sums` has sums
  over finite sets.
- The modules named Scene hold concrete runs, made of the steps in `Scenes`, in which something one
  might expect does not happen.
- `GcnClient` and `BasicClient` are the client side, `Payload` the text in its messages, `Framing`
  the byte stream between client and service, `Conversation` what a client's commands come to.

## What is taken for granted

- A hash value stands for its canonical message, so two messages have the same hash only if they
  agree in everything but TTL, distance and relay distance. ADVERTISE and DATA never collide: field
  8 is a number in one and bytes in the other (`gcn/src/GCNMessage.proto:73`, `gcn/src/GCNMessage.proto:110`).
- Node ids are unique, and cancelling a timer is atomic. A pending timer is its table entry.
- Times, coin draws, delays and the order of events are arbitrary.
- Clients are well behaved where the service would exit: group DATA and DEREGISTER only for
  registered groups, announcement intervals below the pull expiry.
- Rounds and seasons are lossless where an outcome is stated, and contain no cleanup and no change of
  membership. Beside a message watched, other messages may be on the air: any but another
  advertisement of its flow beside a flood, traffic of other groups and DATA of other flows beside a
  tree, a unicast message, or DATA on its way along a tree.

## Where the code does not do what one might expect

- `setAckTimer` drops a request while an ACK of the flow is pending, so a sequence number may be
  marked as acknowledged though no ACK carries it (`SwallowScene.Swallowed`); `AckWave.AckCarriedIff`
  says exactly when one does.
- With `nottlregen` a group node sends with the TTL of the first copy it hears, so who is reached may
  depend on the order of deliveries (`DetourScene.OrderMatters`). It does not depend on it exactly if
  the TTL is renewed or all ways to each group node that the TTL lasts for are equally long
  (`FloodOrderRound.OrderFreeIff`).
- Once its hash has expired, an echo of a node's own DATA is handed to the session that sent it
  (`EchoScene.ExpiryEchoes`, `Delivery.EchoHandedIff`); before that, never (`Delivery.NeverEchoed`).
- A source TTL of zero is sent as 2^32 - 1 (`FloodStart.SourceTtlWraps`); the bounds on floods hold
  for positive source TTLs. Floods end for all.
- Registering a group again after giving it up restarts its sequence numbers; a node may then
  acknowledge the same number twice (`RestartScene.AcknowledgedTwice`). The bound on ACKs
  (`AckWave.OneAckPerAdvertisement`) is proved for registrations that stay.
- Unicast may get lost though its origin is joined to the source: a relay left over from an earlier
  advertisement, with an outdated hop count, makes the relays of the present tree hear the message
  too low first, and they drop the copy that follows (`LostScene.LeftoverMisleads`). It arrives in
  every order of events exactly if no set of relays blocks it (`GatherLoss.ArrivesIff`); a flow's
  first round leaves none (`Convergecast.UnicastDelivered`). Unicast with a source TTL may get lost in
  the same way by a copy without TTL left; the condition covers both. The origin of a unicast message hashes
  it with the resilience field, which is cleared before sending, so the origin may take an echo for
  new and pass it on; all of this is proved with that.
- A stop count of 2^32 - 1 does not stop the basic client (`BasicClient.LimitHolds`).

## Model

| member | source | states |
|---|---|---|
| GcnService.GcnService.constructor | gcn/src/gcnService.h:285-441 | A new service: every table empty, the hash index in agreement with the hash table. |
| GcnService.GcnService.AddHash | gcn/src/gcnService.cpp:621-650 | A key already known is left alone; a new one enters the table with its TTL and the time index with the current time, and the two keep agreeing. |
| GcnService.GcnService.ChangeMaxTtl | gcn/src/gcnService.cpp:671-682 | The stored maximum TTL of a known key is replaced and no other entry changes. |
| GcnService.GcnService.UpdateDistanceTable | gcn/src/gcnService.cpp:688-767 | First, repeated and new messages of a flow: the entry is made, counts the sender once, or is reset by an ADVERTISE and only re-measured by DATA. |
| GcnService.GcnService.HashCleanup | gcn/src/gcnService.cpp:784-827 | Erasing from the front of the time index until the first fresh entry removes exactly the expired keys from both tables, and the lookup asserted on the way never fails. |
| GcnService.GcnService.ScheduleAck | gcn/src/gcnService.cpp:1058-1081 | A request for an ACK while one of the flow is pending is dropped. |
| GcnService.GcnService.ScheduleAdv | gcn/src/gcnService.cpp:1109-1139 | A pending ADVERTISE of the same flow is replaced. |
| GcnService.GcnService.ScheduleData | gcn/src/gcnService.cpp:1166-1196 | A pending DATA with the same hash is replaced. |
| GcnService.GcnService.AckTimeout | gcn/src/gcnService.cpp:1009-1054 | The probability of relay is the configured one or is shared among the neighbours heard; missing entries end the service. |
| GcnService.GcnService.AdvTimeout | gcn/src/gcnService.cpp:1086-1105 | The pending ADVERTISE goes out with its TTL lowered and the timer entry goes. |
| GcnService.GcnService.DataTimeout | gcn/src/gcnService.cpp:1144-1162 | The pending DATA goes out with its TTL lowered and the timer entry goes. |
| GcnService.GcnService.ForwardAdv | gcn/src/gcnService.cpp:378-405 | An ADVERTISE goes out with the key it had, and with a lower TTL than the one given exactly if that is positive. |
| GcnService.GcnService.ForwardData | gcn/src/gcnService.cpp:347-374 | DATA goes out with the key it had, and with a lower TTL than the one given exactly if that is positive. |
| GcnService.GcnService.UpdateReversePath | gcn/src/gcnService.cpp:1616-1646 | The next hop towards a source changes only for a newer sequence number. |
| GcnService.GcnService.ProcessNetworkAdvertise | gcn/src/gcnService.cpp:1553-1768 | The whole ADVERTISE handler on all its tables: hash, adv-seen, distance, reverse path, forwarding, ACK request and override. |
| GcnService.GcnService.AddRemotePull | gcn/src/gcnService.cpp:1990-2018 | Refreshes the entry of this child for the group or adds one. |
| GcnService.GcnService.ProcessNetworkAck | gcn/src/gcnService.cpp:1774-2030 | The whole ACK handler: source, obligatory relay, coin flip, and when it ends the service. |
| GcnService.GcnService.DeliverLocal | gcn/src/gcnService.cpp:1316-1336 | One write per subscriber of the group in table order, none for the session the data came from. |
| GcnService.GcnService.HandOver | gcn/src/gcnService.cpp:1280-1338 | Unicast goes to the announcing client and all subscribers at its destination only; group DATA to subscribers. |
| GcnService.GcnService.PreProcessData | gcn/src/gcnService.cpp:1264-1340 | Hash, distance table and local delivery, the latter for new DATA only. |
| GcnService.GcnService.RelayUnicast | gcn/src/gcnService.cpp:1396-1457 | Passed on only by nodes at most as far as the relay distance, with their own distance less one. |
| GcnService.GcnService.RelayFlood | gcn/src/gcnService.cpp:1483-1546 | New DATA with the renewed or received TTL; repeats raise the stored maximum outside the group only. |
| GcnService.GcnService.ProcessNetworkData | gcn/src/gcnService.cpp:1344-1548 | The whole DATA handler on all its tables. |
| GcnService.GcnService.OnNetworkReceive | gcn/src/gcnService.cpp:1200-1259 | Messages with the own id in the header are dropped; others go to their handler. |
| GcnService.GcnService.Unsubscribe | gcn/src/gcnService.cpp:2084-2108 | Removes the first subscription of this session for the group and no other. |
| GcnService.GcnService.OriginateUnicast | gcn/src/gcnService.cpp:2158-2208 | Initial relay distance one less, as much or one more than the known distance; nothing is sent without one; resilience is not sent. |
| GcnService.GcnService.StampData | gcn/src/gcnService.cpp:2117-2125 | Source node and per-group sequence number are set before hashing. |
| GcnService.GcnService.AcceptData | gcn/src/gcnService.cpp:2111-2238 | Client DATA is counted, hashed, delivered locally and sent; group DATA for a group that is not announced ends the service. |
| GcnService.GcnService.Register | gcn/src/gcnService.cpp:2241-2381 | A new registration or an update that keeps the history of the old one, with its timer. |
| GcnService.GcnService.OnClientReceive | gcn/src/gcnService.cpp:2034-2388 | Pull, unpull, data, register and deregister of a client. |
| GcnService.GcnService.CloseClientConnection | gcn/src/gcnService.cpp:499-550 | Erasing while iterating leaves both tables as their old contents without the session. |
| GcnService.GcnService.AnnounceTimeout | gcn/src/gcnService.cpp:965-1005 | Counts the sequence number, hashes and measures the own ADVERTISE and sends it. |
| GcnService.GcnService.DropExpiredPulls | gcn/src/gcnService.cpp:882-897 | Erasing while iterating keeps exactly the unexpired remote pulls. |
| GcnService.GcnService.RemotePullCleanup | gcn/src/gcnService.cpp:872-934 | Expired pulls go, then every announcer left without a subscriber is sent one UNPULL, in table order. |
| PullTable.UnmarkedIff | gcn/src/gcnService.cpp:907-926 | A cleanup takes the mark from exactly the announcers that were marked, have a positive interval, no local subscriber and no remote pull that has not expired, and changes nothing else of any. |
| PullTable.UnpulledIff | gcn/src/gcnService.cpp:907-926 | It writes UNPULL to exactly those and writes nothing else. |
| PullTable.ToldInOrder | gcn/src/gcnService.cpp:907-926 | Several announcers are told in the order of their groups. |
| HashIndex.CleanupExact | gcn/src/gcnService.cpp:784-827 | After a cleanup the tables agree and a key survives exactly if it was inserted no longer than the expiry time ago, despite the early break. |
| HashIndex.FreshIsSuffix | gcn/src/gcnService.cpp:811-816 | Because the index is ordered, stopping at the first fresh entry loses nothing. |
| Tables.IndexAgrees | gcn/src/gcnService.cpp:621-650 | In every run the time index lists exactly the keys of the hash table, each once and in order of time; a cleanup is then exact. |
| Tables.OnePullPerChild | gcn/src/gcnService.cpp:1990-2018 | In every run the remote-pull multimap holds at most one entry for a group and a child. |
| PullTable.AddPullRefines | gcn/src/gcnService.cpp:1990-2018 | Adding to an unambiguous table is a map update: it sets the time of its own key and of no other. |
| PullTable.DropStaleExact | gcn/src/gcnService.cpp:882-897 | Cleanup keeps the table unambiguous and exactly the unexpired entries in it. |
| PullTable.PulledHasSubscriber | gcn/src/gcnService.cpp:907-926 | After a cleanup an announcer with a positive interval that is still marked as pulled has a local or a remote subscriber. |
| Network.ReactOk | gcn/src/gcnService.cpp:688-742 | Every event keeps: a distance entry and a path wherever an ACK is pending, the sender count equal to the number of senders and positive, a path for everything in adv-seen or the hash table. |
| LoopFreedom.NoAssertionFails | gcn/src/gcnService.cpp:1016-1039 | In every run, under loss, repetition, reordering, mobility, membership change and hash expiry, no enabled network, timer or well-behaved client event fails an assertion or divides by zero. |
| LoopFreedom.AckNeverFatal | gcn/src/gcnService.cpp:1877-1926 | An obligatory relay, or a node that saw the advertisement, has a reverse path. |
| LoopFreedom.StepInv | gcn/src/gcnService.cpp:1611-1647 | Every step keeps: a next hop is the source or has a path at least as recent. |
| LoopFreedom.ReversePathsLoopFree | gcn/src/gcnService.cpp:1611-1647 | In every run, from every node with a reverse path, following next hops reaches the source in finitely many hops. |
| Distances.HopCountsAreWalks | gcn/src/gcnService.cpp:688-742 | On a fixed topology every stored and every sent hop count is the length of a walk from the source, on 32 bits. |
| Distances.NeverBelowShortest | gcn/src/gcnService.cpp:1560-1609 | In runs of fewer than 2^32 events a stored hop count is never below the length of a shortest path. |
| Distances.DataPassedOn | gcn/src/gcnService.cpp:1460-1547 | DATA taken up waits under its own name and with its payload, with one more than the distance heard, or with the own hop count if it was a repeat. |
| Distances.AdvertisePassedOn | gcn/src/gcnService.cpp:1686-1757 | So for advertisements, of which one waits for a flow. |
| Origin.CopyKeepsKey | gcn/src/gcnService.cpp:554-586 | TTL, distance and relay distance do not enter the hash of DATA. |
| Origin.SameAdvertiseKey | gcn/src/gcnService.cpp:590-615 | Two advertisements have the same key exactly if they agree in all fields but TTL and distance. |
| Origin.SameDataKey | gcn/src/gcnService.cpp:554-586 | Two DATA messages have the same key exactly if they agree in all fields but TTL, distance and relay distance. |
| Origin.KindsApart | gcn/src/GCNMessage.proto:73-110 | No advertisement has the key of DATA. |
| Origin.AdvForwardKey | gcn/src/gcnService.cpp:590-615 | A forwarded ADVERTISE hashes as the one heard. |
| Origin.DataForwardKey | gcn/src/gcnService.cpp:554-586 | Forwarded DATA hashes as the DATA heard. |
| Origin.RunFaithful | gcn/src/gcnService.cpp:2117-2129 | Without hash expiry every copy on the air carries a key its source issued, and a source, group and sequence number name one key. |
| Delivery.OneCopyEach | gcn/src/gcnService.cpp:1316-1336 | A delivery writes one copy per subscription and none to the sending session. |
| Delivery.InTableOrder | gcn/src/gcnService.cpp:1316-1336 | Sessions are served in the order of the subscription table. |
| Delivery.OnlyNewsIsHanded | gcn/src/gcnService.cpp:1280-1338 | Nothing is handed to a client unless the event made its key new. |
| Delivery.HeardCopies | gcn/src/gcnService.cpp:1280-1338 | Of DATA heard that is new each session is written exactly one copy for each subscription, of unicast at its destination only and one more to the announcing client; of known DATA none. |
| Delivery.SentCopies | gcn/src/gcnService.cpp:1280-1338 | Of DATA that a client sends likewise, without the sending session for group DATA. |
| Delivery.OwnDataRests | gcn/src/gcnService.cpp:1460-1547 | A node never passes on an echo of its own group DATA, even when it has forgotten it. |
| Delivery.OwnIdDropped | gcn/src/gcnService.cpp:1200-1259 | What carries the node's own id as its sender changes nothing. |
| Delivery.NeverEchoed | gcn/src/gcnService.cpp:1323-1334 | Without hash expiry a session is never handed the group DATA it sent, neither when it sends it nor when an echo comes at any later time of the run. |
| Delivery.EchoHandedIff | gcn/src/gcnService.cpp:1264-1340 | An echo of a node's own group DATA is handed to a session exactly if the session subscribes and the node has forgotten the key. |
| EchoScene.ExpiryEchoes | gcn/src/gcnService.cpp:784-827 | A run in which, after the hash has expired, a session is handed the group DATA it sent. |
| Delivery.AtMostOnce | gcn/src/gcnService.cpp:1264-1340 | Without hash expiry a node hands over a group message, named by source, group and number, in at most one event of the whole run. |
| AckWave.OneAckPerAdvertisement | gcn/src/gcnService.cpp:1836-1907 | Without hash expiry or deregistration, with settled membership, a node sends or has pending at most one ACK for one advertisement. |
| AckWave.OneFlipPerAdvertisement | gcn/src/gcnService.cpp:1822-1834 | In any run a node flips the coin at most once for one advertisement. |
| AckWave.FlipRaises | gcn/src/gcnService.cpp:1956-1985 | An ACK makes a node flip exactly if it raises what is recorded for its flow, to the number of the ACK; records of other flows stay and none ever falls. |
| Coin.AdoptsIff | gcn/src/gcnService.cpp:1858-1985 | The sender of an ACK becomes a new child exactly at the announcing source, at the relay named, and at a node that saw the advertisement, has not flipped for it or a later one, and draws below the probability carried. |
| Coin.LosersRest | gcn/src/gcnService.cpp:1956-1985 | A node that is neither and does not win is left as it was but for the coin it records. |
| Coin.RelaysPassOn | gcn/src/gcnService.cpp:1877-1914 | Whoever becomes a relay outside the group passes the ACK to its own next hop, once for a number, unless an ACK of the flow is pending. |
| Coin.Chances | gcn/src/gcnService.cpp:771-778 | Of the hundred draws exactly as many make the node a relay as the probability says, all of them above a hundred. |
| Hearing.KnownIff | gcn/src/gcnService.cpp:688-767 | In every run a flow of another node is known exactly if a copy of it has been received from another node. |
| Hearing.LatestTold | gcn/src/gcnService.cpp:688-767 | Its latest message is that of the last copy that was the first of the flow or an advertisement that was news. |
| Hearing.HopsTold | gcn/src/gcnService.cpp:688-767 | Its hop count is one more than the distance in the last copy that was the first of the flow or news other than a repetition of the latest message. |
| Hearing.SourcesTold | gcn/src/gcnService.cpp:695-742 | The neighbours counted are exactly those that sent the node the latest message since it became the latest. |
| Hearing.OwnNotCounted | gcn/src/gcnService.cpp:695-705 | A node that hears its own latest message back counts nobody for it. |
| Hearing.AckSays | gcn/src/gcnService.cpp:1016-1047 | In every run the ACK that leaves carries the relay probability of the way back up to a hundred, and above that its share among the neighbours that sent the node the latest message, who are at least one. |
| Hearing.PathTold | gcn/src/gcnService.cpp:1611-1647 | In every run the way back leads to the neighbour that brought the last advertisement that was news and newer than all before it, and has its number and relay probability. |
| Hearing.SeenIff | gcn/src/gcnService.cpp:1583-1609 | In every run a node has seen an advertisement, and may flip for it, exactly if it received it from another node while in the group or with some TTL left. |
| AckWave.AckProbability | gcn/src/gcnService.cpp:1020-1047 | The probability an ACK carries is the configured one up to 100, and above that the configured number shared among the neighbours heard, who are at least one. |
| AckWave.AckCarriedIff | gcn/src/gcnService.cpp:1058-1081 | When a relay records a number as acknowledged, an ACK with that number is sent or pending exactly if none of the flow was pending, or the pending one has the number, or one was sent before. |
| SwallowScene.Swallowed | gcn/src/gcnService.cpp:1060-1080 | A run after which a relay has recorded an advertisement as acknowledged that no ACK of it, sent or pending, carries. |
| RestartScene.AcknowledgedTwice | gcn/src/gcnService.cpp:2241-2382 | A run without hash expiry in which a node acknowledges one number twice, because the source registers again and starts counting anew. |
| Silence.EveryRoundEnds | gcn/src/gcnService.cpp:1713-1750 | Deliveries, losses and timers end after a number of steps fixed by the state they start from, whatever the order. |
| Silence.NeverStuck | gcn/src/gcnService.cpp:1009-1196 | A round can go on as long as a copy is on the way or a timer waits: it ends in silence. |
| Silence.SilenceReached | gcn/src/gcnService.cpp:1009-1196 | From every reachable state some lossless round ends with nothing waiting and nothing on the way. |
| Flood.DiedOut | gcn/src/gcnService.cpp:1651-1757 | A flood that has died out has reached exactly the nodes that a TTL-feasible walk reaches, and raised stored TTLs to the most such a walk leaves. |
| FloodOrder.Determined | gcn/src/gcnService.cpp:1666-1672 | Without TTL renewal, if all ways to a group node that the TTL lasts for are equally long, two floods that have died out agree on who has the message and on every stored TTL. |
| FloodOrderRound.OrderFreeIff | gcn/src/gcnService.cpp:1651-1757 | The outcome of a flood, who has the message and the TTLs stored where they are passed on, is the same for every order of events if and only if group nodes renew the TTL or all ways to each group node that the TTL lasts for are equally long. |
| DetourScene.OrderMatters | gcn/src/gcnService.cpp:1483-1546 | Two complete rounds from one reachable network, of one message with nottlregen: a node gets it in one and not in the other. |
| FloodRound.FloodOutcome | gcn/src/gcnService.cpp:1651-1757 | In every lossless round of an ADVERTISE or group DATA flood in which no group node but the source is bound to the first TTL it hears, the outcome is the same: reached nodes and stored maximum TTLs are those of TTL-feasible walks. |
| FloodRound.OnlyWalksReach | gcn/src/gcnService.cpp:1483-1546 | At any moment, regenerating or not, nobody has a message that no such walk brings, nor with another TTL. |
| FloodRound.FloodBounded | gcn/src/gcnService.cpp:347-361 | Whatever gets lost, TTLs waiting are between one and the source TTL, TTLs sent below it; no node sends a message more often than that, a group node more than once. |
| FloodRound.AdvertiseFacet | gcn/src/gcnService.cpp:1611-1757 | What the ADVERTISE handler makes of one message: the stored TTL and the TTL waiting, for a group node and for any other. |
| FloodRound.DataFacet | gcn/src/gcnService.cpp:1460-1547 | The same for the DATA handler, with and without a source TTL. |
| FloodStart.AnnouncementFloods | gcn/src/gcnService.cpp:965-1005 | A new announcement starts a flood. |
| FloodStart.ClientDataFloods | gcn/src/gcnService.cpp:2209-2236 | So does group DATA of a client. |
| FloodStart.LeavesIff | gcn/src/gcnService.cpp:2209-2236 | Group DATA goes on the air exactly if it has a TTL, someone subscribed, or the group's announcement interval is not positive. |
| FloodStart.SourceTtlWraps | gcn/src/gcnService.cpp:378-392 | The TTL sent is below the source TTL exactly if that is positive; a source TTL of zero is sent as the largest TTL. |
| FloodSeason.FloodReaches | gcn/src/gcnService.cpp:1460-1547 | While clients go on sending other DATA the flood still reaches exactly the nodes its walks reach. |
| Sharing.RoundShared | gcn/src/gcnService.cpp:1280-1338 | In every round whoever receives DATA that fits its buffers hands it to every session it is for. |
| Sharing.SeasonShared | gcn/src/gcnService.cpp:1280-1338 | So in every season, whatever other DATA clients send. |
| Numbers.RunNumbered | gcn/src/gcnService.cpp:2117-2125 | In every run of fewer than 2^64 events, with hash expiry and clients coming and going, no DATA stored, pending or sent anywhere carries a number its source has not counted. |
| Numbers.NextUnnamed | gcn/src/gcnService.cpp:2117-2129 | What a client sends next is therefore known to nobody. |
| AdNumbers.RunNumbered | gcn/src/gcnService.cpp:965-1005 | In every run of fewer than 2^32 events in which registrations stay, no advertisement, ACK or trace of one carries a number its source has not announced. |
| AdNumbers.EveryRoundBuilds | gcn/src/gcnService.cpp:965-1005 | Every announcement of such a network, over symmetric links and with nothing of its group or flow afoot, starts a round that builds a tree, not only the first. |
| AdNumbers.NextUnheard | gcn/src/gcnService.cpp:965-1005 | A new announcement is known to nobody. |
| Tree.TreeBuilt | gcn/src/gcnService.cpp:1858-1914 | When all ACKs have been heard every active node is joined to the source by adopting parents. |
| TreeRound.AckHears | gcn/src/gcnService.cpp:1858-1986 | What the ACK handler makes of one ACK: source, named relay, winner of a coin, bystander. |
| TreeRound.AdvertiseHears | gcn/src/gcnService.cpp:1608-1683 | What the ADVERTISE handler makes of one advertisement: hop count, parent, copy to spread, ACK request. |
| TreeRound.HopsAreDepth | gcn/src/gcnService.cpp:1560-1647 | At every moment of an advertisement round, with no DATA of its source about, the hop count of every node that knows the advertisement is exactly the depth of its reverse path. |
| TreeRound.TreeComplete | gcn/src/gcnService.cpp:1858-2018 | When an ADVERTISE and ACK round has come to rest, for every order of events and every coin, each reached group node and each relay is joined to the source by remote pulls along its reverse path, over as many links as its hop count says, and the client at the source has been pulled. |
| TreeRound.AnnouncementStartsTree | gcn/src/gcnService.cpp:965-1005 | An announcement over symmetric links, with nothing as recent of its flow around, starts such a round. |
| TreeData.SeasonChains | gcn/src/gcnService.cpp:1462-1479 | DATA of any flow leaves the relay chains of a group as they are. |
| TreeData.TreeRelayIff | gcn/src/gcnService.cpp:1462-1479 | New DATA without a TTL is passed on exactly by nodes with a remote pull of the group and by group nodes set to relay always. |
| TreeData.GroupDataDelivered | gcn/src/gcnService.cpp:1462-1479 | Every DATA message without a source TTL that the source sends, the first as the later ones, reaches every node that a relay chain joins to it and is handed to all its subscribers, if it fits their buffers, whatever other DATA and other groups' traffic is about. |
| TreeData.SubscribersServed | gcn/src/gcnService.cpp:2209-2236 | After an advertisement round every node but the source that joined the tree is served by every such message. |
| TreeData.EveryMessage | gcn/src/gcnService.cpp:2209-2236 | An advertisement round and then a season of traffic that comes to rest, put together. |
| GatherBlock.Arrived | gcn/src/gcnService.cpp:1396-1440 | Though relays drop every copy after the first, the message gets down to the destination if every node that may have to send it has a nearer one next to it that is the destination or takes it up. |
| GatherBlock.LostBlocks | gcn/src/gcnService.cpp:1396-1457 | If a unicast message has died out without reaching its destination, the relays that passed it on, with the TTLs they sent, block it: every other relay they reach may first hear a copy it does not pass on, too low or without TTL left, and the destination hears none. |
| GatherLoss.ArrivesIff | gcn/src/gcnService.cpp:1391-1458 | Unicast, over the tree or with a TTL of its source, arrives in every complete round if and only if no set of relays blocks it, a condition on links, hop counts, membership and remote pulls at the moment of sending. |
| LostScene.LeftoverMisleads | gcn/src/gcnService.cpp:1405-1416 | A reachable network at rest over symmetric links, in which the origin is joined to the source by a relay chain, and a complete round after which its unicast has not arrived: a relay left over from an earlier advertisement is in the way. |
| GatherLoss.DestinationReached | gcn/src/gcnService.cpp:1391-1440 | The message arrives in every complete round whenever every node that may have to send it has a nearer one next to it that is the destination, or knows its distance and is one that the TTL lasts for. |
| GatherRound.DataHears | gcn/src/gcnService.cpp:1391-1440 | What the DATA handler makes of one unicast copy: the first counts, and is passed on below the own hop count with the TTL that the node's duty gives it. |
| UnicastSend.SourceTtlWaits | gcn/src/gcnService.cpp:1417-1440 | A first copy with a source TTL waits at nodes that it allows: in the group with the source TTL unless that is not to be renewed and some TTL is left, elsewhere with what is left; with none left nothing waits outside the group. |
| UnicastSend.TreeWaits | gcn/src/gcnService.cpp:1405-1416 | A first copy along the tree waits at nodes that it allows and that hold a remote pull of the group, or are in the group and set to relay always. |
| UnicastSend.RelayDistances | gcn/src/gcnService.cpp:2176-2194 | The one message that leaves allows relays at the known hop count less one at low or no resilience, at it at medium, at one more at high; the resilience itself does not leave. |
| UnicastSend.ResilienceBuys | gcn/src/gcnService.cpp:2176-2194 | Hearing it straight from the origin, a node as far away as the origin passes it on at medium and high resilience and not at low, one a hop farther at high only, a nearer one always. |
| UnicastSend.NothingLeaves | gcn/src/gcnService.cpp:2165-2208 | Without a known distance nothing leaves. |
| UnicastSend.UnicastArrives | gcn/src/gcnService.cpp:2158-2208 | Every unicast message of a client, over the tree or with a TTL, in whatever season of other traffic, arrives and is handed to every session it is for, if when it left every node that may have to send it had a nearer one next to it that is the destination or takes it up. |
| UnicastSend.AmpleTtl | gcn/src/gcnService.cpp:1417-1440 | A source TTL of at least two more than the relay distance lasts for every node, however its copies travel. |
| Convergecast.FirstRoundStarts | gcn/src/gcnService.cpp:965-1005 | The first announcement of a flow made in silence starts a round after which unicast is certain to arrive. |
| Convergecast.TreeDownhill | gcn/src/gcnService.cpp:1391-1416 | After a first round every possible sender has a relay or the source next to it one hop nearer. |
| GatherSeason.DestinationServed | gcn/src/gcnService.cpp:1391-1440 | The same as for complete rounds while clients go on sending other DATA. |
| TreeSeason.SeasonSettled | gcn/src/gcnService.cpp:1344-1458 | The tree of a first round, with its hop counts, outlasts any amount of DATA of other flows, unicast to its source in particular. |
| Convergecast.UnicastDelivered | gcn/src/gcnService.cpp:2158-2203 | After a first round every unicast message from any node of the tree, the first as the later ones, reaches the source at every resilience level and in every order, whatever other flows' DATA is about, and is handed to the announcing client, if it fits its buffer. |
| Convergecast.EveryUnicast | gcn/src/gcnService.cpp:2158-2203 | A first round and then a season of traffic that comes to rest, put together. |
| Descent.ForwardingDescends | gcn/src/gcnService.cpp:1405-1440 | Each forwarding keeps the destination and lowers the relay distance without underflow. |
| Descent.ChainBounded | gcn/src/gcnService.cpp:1396-1440 | No chain of forwardings is longer than the relay distance it starts with, whatever the tables say. |
| Descent.UnicastEnds | gcn/src/gcnService.cpp:1391-1458 | Unicast traffic ends even while nodes forget hashes and hop counts and members change. |
| Pulls.PullsAlternate | gcn/src/gcnService.cpp:1866-1874 | In every run Pulls and Unpulls for a registered group alternate, starting with a Pull, go to the announcing session, and the last one is the recorded mark. |
| Pulls.UnpullTalk | gcn/src/gcnService.cpp:907-926 | A cleanup unpulls each orphaned group once. |
| Pulls.MarkedIff | gcn/src/gcnService.cpp:1674-1683 | An unmarked announcer is marked, and so written a PULL, exactly by an ACK of its own advertisement or, with an interval of zero, by a new advertisement of its group from elsewhere. |
| Pulls.BeliefCatchesUp | gcn/src/gcnClient.cpp:393-411 | A client that started without subscribers will, having read what is still unread, believe exactly what the service recorded. |
| Sessions.CloseFilters | gcn/src/gcnService.cpp:499-543 | Closing removes exactly the entries of the session. |
| Sessions.ClosedIsForgotten | gcn/src/gcnService.cpp:499-550 | In every run no table names a closed session until it is heard of again. |
| Sessions.TimerIffInterval | gcn/src/gcnService.cpp:2276-2357 | In every run the announcement timer runs exactly while the interval is positive. |
| Registry.RegisteredAs | gcn/src/gcnService.cpp:2241-2381 | In every run a registration has the interval, the TTL, the relay probability and the wish about TTL renewal of the last REGISTER for its group. |
| Registry.RegisteredBy | gcn/src/gcnService.cpp:2241-2381 | It belongs to the session that registered the group when nobody had. |
| Registry.AdvertisedAs | gcn/src/gcnService.cpp:965-1005 | In every run an advertisement that a node originates carries what the last REGISTER for its group asked for, and the number after the one before. |
| Registry.SubscriptionsCounted | gcn/src/gcnService.cpp:2051-2108 | In every run a session has as many subscriptions to a group as its pulls and unpulls, and closing, leave. |
| Registry.RemovesFirst | gcn/src/gcnService.cpp:2084-2108 | Of several equal subscriptions the first goes and the others keep their places. |
| Registry.SubscribesLast | gcn/src/gcnService.cpp:2051-2080 | A new subscription is served after those that were there. |
| Registry.ForgottenIff | gcn/src/gcnService.cpp:784-827 | In every run a cleanup forgets a message exactly if the event that made it known lies longer back than the expiry time. |
| Registry.RefusedIff | gcn/src/gcnService.cpp:2241-2381 | A REGISTER ends the service exactly if it is a first one with a positive interval not below the pull expiry. |
| Registry.GivenUp | gcn/src/gcnService.cpp:2241-2382 | DEREGISTER ends the service exactly if the group is not registered; otherwise only that group goes. |
| GcnClient.GcnClient.Start | gcn/src/gcnClient.cpp:57-158 | Registers a sender, subscribes a listener, and holds a sender with a non-negative announce rate back. |
| GcnClient.GcnClient.SendMessage | gcn/src/gcnClient.cpp:207-291 | Sends and counts only with subscribers; unicast to the named node or to the last writer; the service TTL fields only without advertisements. |
| GcnClient.GcnClient.OnReceive | gcn/src/gcnClient.cpp:377-505 | Pull and unpull switch the gate; DATA is counted and answered; an unknown group ends the client. |
| GcnClient.LifeCounted | gcn/src/gcnClient.cpp:221-289 | In every life the counters equal the DATA and the unicast DATA sent for the group, on 32 bits. |
| GcnClient.HeldBack | gcn/src/gcnClient.cpp:273-278 | Broadcast DATA leaves only while the client believes it has subscribers. |
| GcnClient.SendSays | gcn/src/gcnClient.cpp:207-291 | With subscribers a send puts out one message with the payload given, to the node named, else to the last writer, else to the group; a TTL, the response one for unicast, and a ban on renewing it only without advertisements. |
| GcnClient.SendHeldBack | gcn/src/gcnClient.cpp:207-291 | Without subscribers a send changes nothing. |
| GcnClient.AnswerSays | gcn/src/gcnClient.cpp:425-500 | Every so many new messages a responding listener answers the source by unicast, with the right TTL, and the number read back from its answer is its receive count; a responding sender only remembers whom to write to. |
| GcnClient.StartSays | gcn/src/gcnClient.cpp:57-158 | Senders register, listeners subscribe, nothing else is sent, and exactly the senders that use advertisements are held back. |
| GcnClient.StartAgain | gcn/src/gcnClient.cpp:57-158 | Starting a group again keeps all that is known of it, but a sender that uses advertisements waits to be pulled anew. |
| GcnClient.LifeHeard | gcn/src/gcnClient.cpp:440-441 | In every life the count of unicast received is that of the unicast DATA heard for the group, on 32 bits. |
| Conversation.RegistrationMeans | gcn/src/gcnClient.cpp:57-158 | What the client library registers, as the service takes it: announced at the whole seconds of its rate if they are positive as an int32, with its relay probability and its wish about TTL renewal; with a negative rate never. |
| Conversation.BroadcastMeans | gcn/src/gcnClient.cpp:207-291 | What a broadcasting client sends, as the service puts it on the air: along the tree exactly if it uses advertisements, and then only once someone subscribed or ACKs are not awaited; else at once with its TTL. |
| GcnClient.ReadingBelieves | gcn/src/gcnClient.cpp:393-411 | Reading messages makes the client believe what they say about subscribers and nothing else. |
| BasicClient.BasicClient.OnSendTimeout | gcn/src/gcnClientBasic.cpp:194-234 | The number advances only when the message left; the timer goes on while the limit is not exceeded. |
| BasicClient.BasicClient.ProcessData | gcn/src/gcnClientBasic.cpp:238-303 | A message is new exactly if its group, source and number were not met before, whatever number is found where the payload has none. |
| BasicClient.LimitHolds | gcn/src/gcnClientBasic.cpp:220-227 | A non-zero limit bounds the messages sent, however the timeouts go, exactly if it is below 2^32 - 1. |
| BasicClient.StopsInTime | gcn/src/gcnClientBasic.cpp:220-227 | With such a limit no more messages are sent. |
| BasicClient.RunsOnIff | gcn/src/gcnClientBasic.cpp:194-234 | The number of the next message is one more than the messages sent, and the send timer runs on exactly if the client pushes, time is left and there is no limit or the number has not passed it. |
| BasicClient.NoLimit | gcn/src/gcnClientBasic.cpp:220-227 | Without a limit a pushing client sends on for as long as there is time. |
| BasicClient.NeverStops | gcn/src/gcnClientBasic.cpp:220-227 | With the limit 2^32 - 1 the counter wraps and any number of messages may be sent. |
| BasicClient.LifeDistinct | gcn/src/gcnClient.cpp:431-433 | In every life the receive count of a group is the number of distinct sources and numbers met for it, on 32 bits. |
| BasicClient.NumberArrives | gcn/src/gcnClientBasic.cpp:252-289 | What a broadcasting client writes is filed under its node and message number. |
| Payload.Build | gcn/src/gcnClientBasic.cpp:203-218 | The payload is time, number and node, padded to at least the size asked for. |
| Payload.PayloadRead | gcn/src/gcnClientBasic.cpp:247-277 | The number and node read back are those written, with any padding and for every 32-bit value. |
| Payload.ResponseRead | gcn/src/gcnClient.cpp:458-460 | The number in a unicast response is read back. |
| Framing.Write | gcn/src/gcnClient.cpp:586-628 | Four size bytes, most significant first, and the message, if both fit the buffer; otherwise nothing. |
| Framing.Read | gcn/src/gcnService.cpp:2390-2458 | The loop that reads sizes and messages in turn. |
| Framing.RoundTrip | gcn/src/gcnClient.cpp:527-628 | Reading what was written yields exactly the accepted, non-empty messages in order; both directions use these two. |
| Framing.CutAnywhere | gcn/src/gcnClient.cpp:533-574 | Wherever the stream is cut, what was handed over is a prefix of what will be. |

## Left out

- Expiry of reverse paths (`gcn/src/gcnService.cpp:832-867`): an entry that others point at may be deleted, after which neither loop freedom nor the absence of failed assertions holds.
- Protobuf encoding, packet capture, raw sockets, TCP plumbing and the interleaving of asynchronous writes: messages are values and channels are logs.
- The refusal of messages that do not fit a buffer is modelled in Framing only, not in the service's handlers: what is said of messages sent and handed to sessions is said of messages that fit.
- Logging, data item files and statistics counters of the service: they do not change what the protocol does.
- The distribution of the coin flip, of timer delays and of delivery: they are arbitrary.
- Connecting, retrying and stopping of the client library, and one application message that carries several items: items are handled one at a time.
- Applications other than the basic client, the command line, signal handling and the simulation set-up.
- FloodOrderRound.OrderFreeIff: the outcome compared leaves out the TTL that a node which renews or ignores TTLs has stored, which nothing depends on.
- AckWave.OneAckPerAdvertisement: assumes that membership of a group is settled before its traffic comes by, that registrations stay and that fewer than 2^32 events happen; a node that changes sides may acknowledge again, and RestartScene shows a restarted sequence.
- Distances.NeverBelowShortest: assumes fewer than 2^32 events; beyond that hop counts are walk lengths on 32 bits only.
- Convergecast.UnicastDelivered: assumes that the tree is that of the flow's first round, that the source sends no DATA to the group, and fewer than 2^32 nodes; for all other trees GatherLoss.ArrivesIff gives the exact condition.
- TreeRound.TreeComplete: assumes that no other source of the group advertises and that the source sends no DATA during the round.
- TreeData.GroupDataDelivered: assumes that no advertisement and no ACK of the group is on the air, so that its relays do not change under way.
- BasicClient.BasicClient.ProcessData: reading past the last word of a payload yields an arbitrary number; that it may crash the client instead is not modelled.
- GcnClient.GcnClient.SendMessage: what remains of the client after an unknown group is not stated, since its process has ended.
