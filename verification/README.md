# A verified model of the onion relay network

Nodes of the network pass messages along random routes of relays. A sender wraps its message in one
encrypted layer per hop; every relay opens one layer, remembers whom to tell on failure and hands the
rest to the next hop, trying the members of a group in random order when the next hop is a group. The
destination takes the message in and sends off a second onion, prepared by the sender, that carries the
acknowledgement back. A hop that reaches nobody sends a NACK, and every relay that holds the matching
entry passes it one hop further back. The sender waits on a channel of capacity one that is registered
under two keys and tries again on a NACK. Long messages travel as numbered fragments.

This project models that behaviour in Dafny and proves what its results mean.

## How the model is laid out

| file | contents |
|---|---|
| `Wrappers.dfy`, `Strings.dfy` | optional values, results; the few string functions the wire formats rest on |
| `Layers.dfy`, `Codec.dfy` | the seven-field layer, its text form, address lists, symbolic boxes; identifiers and the text form of everything the senders build |
| `Encapsulation.dfy` | both onion builders, and what peeling an onion gives |
| `Fragments.dfy` | splitting, tagging and reassembly |
| `Handler.dfy`, `Node.dfy` | a node's handler as atomic steps on its maps, and the node as a class whose methods are tied to those steps |
| `Protocol.dfy` | the whole network as a step system: sends, tries, messages, handlers, losses, crashes, key changes |
| `Attempts.dfy`, `Invariant.dfy`, `Advance.dfy`, `Steps.dfy`, `Preservation.dfy`, `Frames.dfy` | the global invariant and its preservation by every step |
| `Outcomes.dfy`, `Retries.dfy`, `Tries.dfy`, `EndToEnd.dfy` | the results over all runs, whatever fails |
| `Paths.dfy`, `Delivery.dfy`, `Cascade.dfy` | an attempt while it is known who answers: where it is, and what is left once it is over |
| `Progress.dfy`, `Endings.dfy`, `Sends.dfy`, `Strays.dfy` | every attempt comes to rest, every send ends, and when the cascade of NACKs can be trusted |
| `Replay.dfy` | duplicate suppression with time |
| `Routes.dfy`, `Clusters.dfy`, `Listing.dfy` | route choice of SEND and SSEND; the directory's list as printed and as read |
| `Directory.dfy` | the directory's availability score |

Two views of a node are kept apart on purpose. `Handler.StepTask` is one step between two lock
acquisitions: all interleavings of the system are interleavings of these. `Nodes.Node` is the code as it
is written, with maps reassigned in place and loops that dial; each of its methods is proved to end in
the state, and to put on the wire the messages, that running the atomic steps one after the other gives.

A route of n hops (n - 1 relays and the destination) is treated as 2n stations: the relays, the
destination, the relays backward, the sender. SEND is the case in which every group has one member.
Encryption is symbolic: a box names the keys it was sealed for and opens for those alone. A node has
one key at a time; REGEN replaces it, a restart does too, and a sender seals with the keys it knows,
fresh or stale. Identifiers come from a supply that never repeats itself. A `SendTo` either puts one
message in flight or fails with nothing sent; nodes crash and come back blank, messages and goroutines
are lost, and the eviction sweep removes any MsgIDs it likes in the protocol runs.

The results about one attempt in calm say who can be reached (the set `up`), that its reachable stations
have the keys it was sealed for, and that nothing of the attempt is lost; the rest of the network goes
on unconstrained meanwhile (`Paths.Calm`). Which member of a group takes the onion is the shuffle's
choice; a NACK goes to the first reachable member in listed order.

## Main results

* `Outcomes.OutcomeSoundness`: a send that ended in ACK was accepted exactly once over all its tries, one
  that ended in ABANDON never, any other at most once; with `Outcomes.ValueTells` for every single try.
* `Outcomes.ChannelNeverBlocks`: the put on the channel, done with the lock held, never blocks.
* `Outcomes.SingleThread`, `Outcomes.HandledAtMost`, `Progress.MovesAtMost`, `Retries.LaunchesAtMost`: one
  message or handler per attempt at any time, at most 3n - 2 messages handled and a bounded number of
  moves in all, and at most maxRetries attempts per send.
* `Tries.OutcomeTells`, `Tries.RetriesExactly`, `Tries.AbandonsAtLast`: a send tries again exactly after a
  NACK or when nobody answered, reports TIMEOUT exactly when nothing came, and ABANDON after exactly
  maxRetries failed tries; `Tries.TryAgrees` and `Tries.WaiterAgrees` tie these steps to the code in place.
* `Delivery.RestIsSettled`: for every calm attempt that is over, who opened its boxes tells what the
  sender heard, what the destination took in and which entries are left, to the last one.
* `Sends.SendEnds`: under fair scheduling every send reports an outcome, whatever the network does;
  `Sends.AckIsReported`: with a reachable member in every group it reports ACK and the message has been
  received once.
* `Strays.CleansExactlyWhen`, `Cascade.CleanExactly`, `Endings.CascadeCompletes`: with a broken hop f the
  NACK always comes home and cleans up if and only if none of the groups 1 to f - 1 has two reachable
  members; a run at rest is clean if and only if every box before hop f was opened by the first
  reachable member of its group. `Strays.NackGetsLost` is a run in which it was not.
* `EndToEnd.SentMessageArrives`: when all fragments of a message have been reported ACK, the destination
  has received the original message, once, whatever else was going on.
* `Encapsulation.PeelForward`, `Encapsulation.PeelReturn`, `Encapsulation.SingleBuilderRefinesGroupBuilder`.
* `Clusters.BuildSmartClusters`, `Routes.SendRouteValid`, `Routes.SuperRouteValid`: the builders produce
  the disjoint routes the protocol relies on, conserve the nodes and stay balanced.
* `Directory.KeptExactly`: a name of the directory is safe from eviction without two failures in a row if
  and only if it has one row, with a score from 10 on; `Directory.FailuresEvict`.
* `Fragments.Reassembly`, `Replay.PassagesApart`, `Replay.WindowAgrees`.

## Model

| member | source | states |
|---|---|---|
| `Layers.ParsePrint` | node_server/model/OnionLayer.go:20-45 | reading a printed layer gives the layer back if and only if its first six fields hold no separator; the message may hold any |
| `Layers.ParsePrintParse` | node_server/model/OnionLayer.go:20-45 | on every accepted string, legacy six-field ones included, one more round of print and parse changes nothing |
| `Layers.PrintParse` | node_server/model/OnionLayer.go:25-45 | printing restores the accepted string itself exactly when it had seven fields |
| `Layers.AcceptedHeader` | node_server/model/OnionLayer.go:25-45 | whatever is accepted has a separator-free header, in the seven-field and in the legacy form |
| `Layers.ReadsSeven` | node_server/model/OnionLayer.go:20-41 | seven fields are read in the order Type, MsgID, Next, From, Data, Frag, Message and printed back the same; the message may hold separators |
| `Layers.ReadsSix` | node_server/model/OnionLayer.go:25-45 | of six fields the last is the message and Frag is empty |
| `Layers.AcceptsSix` | node_server/model/OnionLayer.go:25-30 | a text is accepted exactly when it has six fields or more |
| `Layers.ParseJoinAddresses` | node_server/model/Broadcast.go:14-23 | an address list is read back exactly, the empty one included, and a non-empty one passes the port check |
| `Layers.JoinAddressesPipeFree` | node_server/model/Broadcast.go:21-23 | a joined list of valid addresses never breaks the layer text |
| `Layers.BroadcastEncrypt` | node_server/model/Broadcast.go:28-54 | fails exactly on an empty group; otherwise the box opens to the plaintext for every member and for no other key |
| `Layers.BroadcastDecrypt` | node_server/model/Broadcast.go:57-87 | the loop over the wrapped keys succeeds exactly for a holder of one of them |
| `Codec.GenerateMsgID` | node_server/model/OnionLayer.go:48-58 | a prefix, a dash and ten digits, whatever is drawn; free of every separator when the prefix is |
| `Codec.BuiltLayersParse` | node_server/node/onion.go:77-118 | every layer of every onion built for valid addresses reads back exactly, whatever the message and however boxes are rendered |
| `Codec.DrawnFits` | node_server/node/onion.go:52-58 | the identifiers and tags the senders draw are free of separators, parse, and keep msg and nack identifiers apart |
| `Codec.DrawnLayersParse` | node_server/node/onion.go:77-118 | so every layer of every onion with drawn identifiers and tags reads back exactly |
| `Encapsulation.EncryptOnionLayersGroup` | node_server/node/super_send.go:52-81 | the backward loop builds the nested boxes hop by hop; it fails exactly when some group has no key |
| `Encapsulation.EncapsulatorFuncSuper` | node_server/node/super_send.go:83-127 | onion, message identifier and first NACK identifier of the group builder, and when it fails |
| `Encapsulation.EncryptOnionLayers` | node_server/node/onion.go:94-126 | the same loop of the single-relay builder |
| `Encapsulation.EncapsulatorFunc` | node_server/node/onion.go:54-92 | onion, message identifier and first NACK identifier of the single-relay builder, fragment tag included |
| `Encapsulation.SingleBuilderRefinesGroupBuilder` | node_server/node/onion.go:30-126 | on one-member groups both builders give the same onion, for every route, return route and tag |
| `Encapsulation.PeelForward` | node_server/node/super_send.go:52-126 | after i openings: a box for exactly the members of group i, holding the RELAY layer with the right next and previous group and identifier pair, or the FINAL layer |
| `Encapsulation.PeelReturn` | node_server/node/super_send.go:98-110 | going on through the FINAL layer along the return route, with the identifiers reversed, down to the ACK that carries the registered identifier |
| `Attempts.NewAttemptValid` | node_server/node/super_send.go:222-235 | whatever disjoint route is drawn, the onion sent has at each of its 2n stations the box for that group with the layer the protocol expects there |
| `Attempts.MsgIdEqual` | node_server/node/onion.go:67-70 | no two stations of an attempt share a MsgID: forward pair, return pair and the destination's all differ |
| `Attempts.MsgIdApart` | node_server/node/onion.go:54-58 | stations of attempts with different identifiers never share a MsgID |
| `Fragments.ChunksSplit` | node_server/node/cli.go:22-33 | the chunks are the message cut into full pieces and a last non-empty one |
| `Fragments.SplitMessage` | node_server/node/cli.go:22-33 | the loop computes that split for every positive size |
| `Fragments.TagChunks` | node_server/node/cli.go:154-162 | up to 4096 characters the message goes whole and untagged, above that as tagged chunks of 4096 in order |
| `Fragments.ParseFragTag` | node_server/model/Node.go:301-305 | every tag the sender writes is read back to its identifier, number and count |
| `Fragments.TagText` | node_server/node/cli.go:160-160 | the text of a tag: identifier, colon, number, slash, count, in decimal |
| `Fragments.ReadableTag` | node_server/model/Node.go:301-307 | whatever the tag, the handler gets through without a panic if and only if a slash comes somewhere after a colon |
| `Fragments.Pigeonhole` | node_server/model/Node.go:316-316 | n different chunk numbers out of 1 to n are all of them, so counting them is enough |
| `Fragments.Reassembly` | node_server/model/Node.go:300-332 | for every interleaving of arrivals the buffer holds exactly the chunks since the last completion, always fewer than the total, both maps share their keys, and the received list is what should have been appended |
| `Fragments.ChunkArrives` | node_server/model/Node.go:300-332 | any chunk, honest or not, on any inbox: it replaces what was there under its number, the total is that of the first chunk, and when that many numbers have come chunks 1 to the total are appended and the identifier is forgotten |
| `Fragments.OtherChunksStay` | node_server/model/Node.go:300-332 | no chunk touches another identifier |
| `Fragments.AppendedOnce` | node_server/model/Node.go:316-329 | a fragmented message is appended exactly once if all its chunks came, with repeats only before completion, and otherwise not at all |
| `Handler.StepFrame` | node_server/model/Node.go:207-372 | whatever task on whatever state, one atomic step: a PendingACKs key goes exactly when its channel is told, PendingRelays changes by one key of that layer or NACK, SeenMsgs gains exactly the MsgID that goes on, the inbox changes exactly on acceptance, the key never; the goroutine stays or puts one message on the wire for the address it dialled |
| `Handler.HandlerTerminates` | node_server/model/Node.go:275-297 | on any layer, honest or not, every step of a handler that goes on shortens what is left of it |
| `Handler.FirstUp` | node_server/model/Node.go:279-285 | the message goes to the first address of the list that answers, every address before it being down, and to none exactly when nobody answers |
| `Handler.FinishPropagate` | node_server/model/Node.go:224-230 | the atomic steps of sending a NACK back, run in a row, send it to the first address that answers |
| `Handler.FinishNack` | node_server/model/Node.go:207-232 | a NACK run to its end: a waiting sender is told false before any entry is looked at; otherwise the entry goes and the NACK goes to the first previous address that answers; otherwise nothing happens |
| `Handler.LayerArrives` | node_server/model/Node.go:243-367 | a decrypted layer: RELAY and FINAL go on exactly when their MsgID is new, which is then recorded with the time; an ACK tells exactly the sender that waits for it; anything else changes nothing |
| `Handler.FinishRelay` | node_server/model/Node.go:254-297 | a RELAY layer run to its end: entry registered and onion forwarded, or entry gone and NACK sent back |
| `Handler.FinishFinal` | node_server/model/Node.go:299-358 | a FINAL layer run to its end: message taken in, return onion sent to the first hop that answers, or a NACK to the empty From |
| `Nodes.Shuffle` | node_server/model/Node.go:276-278 | the shuffle yields a permutation of the group, whatever is drawn |
| `Nodes.AckChan.Put` | node_server/model/Node.go:214-214 | on a channel of capacity one the put goes through exactly while it is empty |
| `Nodes.Network.SendTo` | node_server/model/Node.go:374-393 | success puts one message in flight, an error none |
| `Nodes.Network.SendToFirst` | node_server/model/Node.go:279-285 | the dialling loop puts at most one message on the wire, for the first address that answers |
| `Nodes.Node.Register` | node_server/node/send.go:96-100 | both keys lead to the one new channel |
| `Nodes.Node.Deregister` | node_server/node/send.go:115-118 | both keys are gone and nothing else |
| `Nodes.Node.RegenerateKeys` | node_server/model/Node.go:456-472 | REGEN replaces the key and leaves every map |
| `Nodes.Node.StartTry` | node_server/node/super_send.go:241-275 | at every dial both keys are already registered; they are taken back exactly when nobody of the first group answers; blacklisted are exactly the members before the first that answers, in order |
| `Nodes.Node.AwaitResult` | node_server/node/send.go:125-152 | the outcome and the retry for every value or the timeout; only success leaves the two keys alone |
| `Tries.WaiterAgrees` | node_server/node/send.go:125-152 | the protocol steps of the waiter, one after the other, report the outcome, start the next try and leave the keys as the in-place waiter does, for every value and for the timeout |
| `Tries.TryAgrees` | node_server/node/super_send.go:241-275 | launch and dials, one after the other, leave the node and put on the wire what the in-place first half of a try does; when nobody answers the send is ready for its next try |
| `Nodes.Node.SeenMsg` | node_server/model/Node.go:119-130 | a MsgID is new exactly when it is not recorded, and is then recorded with the time; a repeat does not renew it |
| `Nodes.Node.EvictSeen` | node_server/model/Node.go:134-145 | the sweep removes what was too old when it began, keeps what is not too old when it ends, and changes no time |
| `Nodes.Node.Notify` | node_server/model/Node.go:212-219 | the value reaches the channel and the key goes, or the put would block and nothing changes |
| `Nodes.Node.AcceptFinal` | node_server/model/Node.go:300-338 | the inbox maps are updated in place exactly as the functional inbox is, and a tag that makes the handler panic is told apart |
| `Nodes.Node.AssembleChunks` | node_server/model/Node.go:317-320 | the builder loop concatenates chunks 1 to total in order |
| `Nodes.Node.HandleNack` | node_server/model/Node.go:207-232 | in place: the waiting sender is told false once, or the relay entry is removed and the NACK goes on to the first previous address that answers |
| `Nodes.Node.HandleRelay` | node_server/model/Node.go:254-297 | in place: the same maps and the same message as the atomic steps run to their end |
| `Nodes.Node.HandleFinal` | node_server/model/Node.go:299-358 | in place: the same inbox and the same message as the atomic steps run to their end |
| `Nodes.Node.HandleAck` | node_server/model/Node.go:360-367 | in place: exactly the channel registered under the identifier gets true, and the key goes |
| `Nodes.Node.HandlerRoutine` | node_server/model/Node.go:207-372 | a whole line: state and wire as the atomic steps give them, each channel gets what is told to it, and the one case in which the lock would be held forever is a full channel |
| `Preservation.StepKeeps` | node_server/model/Node.go:207-372 | every step of the system, crash, loss and eviction included, keeps the global invariant and pays for the messages it handles |
| `Preservation.RunInv` | node_server/model/Node.go:207-372 | the global invariant holds in every reachable state |
| `Outcomes.OutcomeSoundness` | node_server/node/send.go:26-31 | over every run: a send that ended in ACK had its FINAL layer accepted exactly once over all tries, one that ended in ABANDON or stopped never, any other at most once |
| `Outcomes.OutcomeIsFinal` | node_server/node/send.go:112-152 | no step ever revises a reported outcome |
| `Retries.LaunchesAtMost` | node_server/node/send.go:26-31 | over every run a send launches at most maxRetries attempts, none for zero or less, and reports ABANDON after exactly that many |
| `Tries.OutcomeTells` | node_server/node/send.go:112-152 | over every run the outcome tells what became of the last try: ACK that its onion left and true came, TIMEOUT that it left, no value was received and the time ran out, ABANDON or a new try that it never left or was answered false |
| `Tries.StoryMeans` | node_server/node/send.go:112-152 | in terms of the run: a successful dial, a received value, an expiry since the latest launch |
| `Tries.TimeoutTells` | node_server/node/send.go:144-152 | a send that reports TIMEOUT was dialled with success in its last try and consumed no value |
| `Tries.RetriesExactly` | node_server/node/send.go:112-152 | clearing the keys ends the send exactly after a timeout and counts up to the next try after anything else |
| `Tries.AbandonsAtLast` | node_server/node/send.go:26-31 | a send whose every try is answered false or never leaves, neither stopped nor timed out nor crashed, ends in ABANDON in every fair endless run, after exactly maxRetries launches |
| `Outcomes.ChannelNeverBlocks` | node_server/model/Node.go:212-219 | over every run at most one value is ever put on the channel of a try, so no handler is ever stuck in the put with the lock held |
| `Outcomes.ValueTells` | node_server/node/send.go:125-152 | a false on the channel of a try means it was never accepted, before or later, and a true that it was accepted once: a retry cannot deliver twice |
| `Outcomes.SingleThread` | node_server/model/Node.go:207-372 | over every run an attempt has at most one message or handler in the system, and every message or handler belongs to an attempt |
| `Outcomes.HandledAtMost` | node_server/node/onion.go:94-126 | over every run at most 3n - 2 messages of an attempt on a route of n hops are handled |
| `Outcomes.HonestLayersPass` | node_server/model/Node.go:235-273 | over every run, key changes and restarts included: every box arrives at somebody it was sealed for and opens exactly when the key there is one of its keys; an opened honest layer is never dropped as a duplicate, and no entry of PendingRelays is overwritten |
| `Outcomes.UnchangedKeyOpens` | node_server/model/Node.go:235-240 | a box opens at its node as long as the node has neither restarted nor run REGEN since the launch that used its key |
| `Frames.OtherRun` | node_server/model/Node.go:207-372 | a step of another attempt leaves an attempt's keys, channel and thread alone |
| `Delivery.RestIsSettled` | node_server/model/Node.go:207-372 | any calm attempt at rest: nobody of the group after the last opener was reachable; the openers fix what the sender heard, whether the message was accepted, exactly which PendingRelays entries are left, and where the send stands; of the two PendingACKs keys, after an ACK the NACK key stays, after a NACK the MsgID stays until it is cleared, after a first group out of reach both until then, and when nothing is heard both stay with the waiter |
| `Delivery.AnycastDelivers` | node_server/model/Node.go:275-286 | with a reachable member in every group on the way out and back, an attempt at rest was accepted once and its channel got true, for every shuffle; a NACK never comes in between; left are exactly the entry of every relay station at its opener and the key of the first NACK identifier |
| `Cascade.CleanExactly` | node_server/model/Node.go:207-232 | forward hop f reaches nobody: an attempt at rest is cleaned up if and only if every box before hop f was opened by the first reachable member of its group; otherwise the NACK was dropped at a known hop, the sender hears nothing and waits with both its keys, and exactly the entries below that hop stay |
| `Cascade.NackComesHome` | node_server/model/Node.go:207-232 | when besides only one member of each group 1 to f - 1 is reachable, an attempt at rest gave the sender exactly one false, was never accepted, and left no entry at hops 0 to f |
| `Strays.CleansExactlyWhen` | node_server/model/Node.go:224-230 | the NACK of a broken hop f comes home and cleans up in every calm continuation from the launch if and only if none of the groups 1 to f - 1 has two reachable members |
| `Strays.NackGetsLost` | node_server/model/Node.go:290-297 | a run on the route A, then B or C, then D: C takes the onion, the NACK goes to B, the sender is told nothing, and the entries of A and C stay |
| `Progress.NoTaskStuck` | node_server/model/Node.go:207-372 | over every run every message and every handler can take its next step |
| `Progress.PendingCanStep` | node_server/model/Node.go:207-372 | an attempt that is not at rest always has a step of its own to take |
| `Progress.MovesAtMost` | node_server/model/Node.go:207-372 | over every run an attempt makes at most a number of moves, handler steps and dials to its first group together, fixed by its route |
| `Endings.LeadsToRest` | node_server/model/Node.go:207-372 | any calm run goes on to a state where the attempt is at rest, by moves of the attempt alone and within its bound; the shuffles can be led to any reachable member of one group |
| `Endings.FairEnds` | node_server/model/Node.go:207-372 | in every endless run that never forgets the attempt, a calm attempt comes to rest |
| `Endings.AnycastCompletes` | node_server/model/Node.go:339-351 | every group reachable: in every endless fair run there is a time from which on the message has been received exactly once and the sender told so |
| `Endings.CascadeCompletes` | node_server/model/Node.go:287-297 | a broken hop with one reachable member in each group 1 to f - 1: in every endless fair run there is a time from which on the sender has its NACK and no entry is left at hops 0 to f |
| `Sends.SendCanAct` | node_server/node/send.go:26-152 | over every run a send that has not reported an outcome has a step of its own to take |
| `Sends.SendEnds` | node_server/node/send.go:26-152 | in every endless run that gives the goroutine of a send its turns the send reports an outcome, for good, whatever the network does |
| `Sends.AckIsReported` | node_server/node/send.go:125-136 | every group reachable: in every endless run fair to the attempt and to its send, the send reports ACK, for good, and the message has been received once |
| `Sends.NothingIsLeft` | node_server/node/send.go:115-141 | a broken hop with one reachable member in each group 1 to f - 1: in every such run nothing of the attempt is left, neither an entry at hops 0 to f nor a key at the sender |
| `EndToEnd.FragmentsDelivered` | node_server/model/Node.go:300-332 | over every run in which the destination keeps its memory, a fragmented message is in its list once if all its chunks were accepted and otherwise not at all |
| `EndToEnd.SentMessageArrives` | node_server/node/cli.go:154-162 | when every chunk's send has reported ACK, the destination that did not crash has received the original message, once |
| `EndToEnd.RestartForgets` | node_server/node/main.go:14-40 | a restart: all maps and the inbox of the node are empty, its handlers and waiters are gone, messages on the wire and all other nodes stay |
| `Replay.Remembered` | node_server/model/Node.go:119-145 | what passed is remembered with its time until thirty seconds are over |
| `Replay.PassagesApart` | node_server/model/Node.go:119-145 | two passages of one MsgID at one node are more than thirty seconds apart, over every run of arrivals and sweeps |
| `Replay.WindowAgrees` | node_server/model/Node.go:119-145 | the map lies between the last thirty seconds and the full history, and equals the history on any run not longer than that |
| `Replay.NothingOld` | node_server/model/Node.go:134-145 | after a sweep nothing is ever held that was too old when it began |
| `Routes.BuildSendRoute` | node_server/node/send.go:42-88 | fails exactly on the empty list, without a candidate or without a relay asked for; otherwise exactly the number of relays asked for, all candidates when there are fewer, then the destination, mirrored for the return |
| `Routes.DrawOrder` | node_server/node/send.go:74-77 | the in-place Fisher-Yates loop permutes the candidates whatever is drawn |
| `Routes.ListedFromList` | node_server/node/send.go:47-64 | no address read from a directory list holds a list or field separator, whatever the directory sends |
| `Listing.GetNodesList` | node_server/List_Serveur/serveur.go:253-274 | the server prints the nodes in order, or LIST:empty |
| `Listing.ListReads` | node_server/node/super_send.go:163-186 | what the server prints both senders read back, node by node, field by field and in order |
| `Listing.EntryReads` | node_server/node/send.go:52-60 | SEND and SSEND read the same ip:port from an entry |
| `Strings.AtoiUnreadable` | node_server/node/super_send.go:173-175 | a number field that is no number reads as zero |
| `Listing.EntryTaken` | node_server/node/super_send.go:169-172 | SEND takes an entry of four fields or more, SSEND one of six or more |
| `Routes.SendRouteValid` | node_server/node/send.go:50-88 | given distinct directory addresses every route that can be drawn has disjoint hops, none of them the sender or the destination |
| `Routes.SendOnionIsAttemptOnion` | node_server/node/send.go:79-90 | the onion built for such a route is the onion of the protocol's attempt on one-member groups |
| `Routes.CollectSuperCandidates` | node_server/node/super_send.go:163-197 | the candidate loop with its key cache |
| `Routes.CollectedExactly` | node_server/node/super_send.go:185-197 | given distinct addresses, candidates are exactly the listed nodes that are neither end of the route and whose key is cached or can be read |
| `Routes.BuildSuperRoute` | node_server/node/super_send.go:147-225 | fails exactly on the empty list, with fewer candidates than hops asked for or than three, or without the destination key; otherwise as many clusters as hops asked for, three at least, of the eligible candidates, the destination, and the mirrored return, all groups non-empty exactly when enough candidates are eligible |
| `Routes.SuperRouteValid` | node_server/node/super_send.go:163-209 | given distinct directory addresses and enough eligible nodes, the clusters are as many as the hops after the rise to three, disjoint, non-empty, and hold neither end of the route nor a blacklisted node |
| `Routes.SuperRouteIsLaunch` | node_server/node/super_send.go:163-235 | with the keys listed for its nodes, such a route is one the protocol launches and its onion is the onion of that attempt |
| `Routes.SuperOnionIsAttemptOnion` | node_server/node/super_send.go:220-235 | the onion built for the clusters is the onion of the protocol's attempt on those groups |
| `Clusters.BuildSmartClusters` | node_server/node/cluster.go:24-107 | for any draws: every eligible node once with its own key at the same index, all clusters non-empty exactly when enough nodes are eligible, mean times hops equals the total score, with non-negative scores no cluster ahead of another by more than the largest score, and every non-empty cluster i with a member that at most i + 3 available nodes beat, not counting those with an unreadable key |
| `Clusters.PairsConserved` | node_server/node/cluster.go:66-100 | the pairs of address and key in all clusters are, as a multiset, those of the eligible nodes, each with its own key |
| `Clusters.FilterBlacklisted` | node_server/node/cluster.go:25-38 | the nodes not on the blacklist, in order |
| `Clusters.SortNodesByScore` | node_server/node/cluster.go:17-22 | a permutation in descending order of score |
| `Clusters.SeedClusters` | node_server/node/cluster.go:44-72 | the seeding ends although it passes over bad keys; a node taken at position p had rank at most p + 3, those left have only moved right, and one node goes into each group while nodes last |
| `Clusters.LeastLoaded` | node_server/node/cluster.go:75-82 | the first group with the smallest score |
| `Clusters.FillClusters` | node_server/node/cluster.go:74-91 | every further node goes to the group that is behind; nothing is lost and the balance bound is kept |
| `Clusters.ShuffleGroup` | node_server/node/cluster.go:93-100 | each address keeps its own key at the same index through every swap |
| `Clusters.BalancedMean` | node_server/node/cluster.go:102-106 | in balanced clusters every score is within the largest single score of the mean |
| `Clusters.UsablesPermuted` | node_server/node/cluster.go:61-67 | who is eligible does not depend on the order |
| `Directory.NeverEvictedAtOnce` | node_server/List_Serveur/serveur.go:304-329 | a node registered with a score from 10 on survives every ping history without two failures in a row, its score from 5 on and at most 100 unless it claimed more |
| `Directory.ScoreInRange` | node_server/List_Serveur/serveur.go:304-329 | while a node stays in the table its score stays within 5 to 100 |
| `Directory.FailuresEvict` | node_server/List_Serveur/serveur.go:307-315 | k >= 1 failures in a row evict a node if and only if its score is below 5 * 2^k |
| `Directory.SuccessesRaise` | node_server/List_Serveur/serveur.go:321-328 | k answered pings in a row take a score s below 100 to the smaller of s + 5k and 100 and leave any other alone |
| `Directory.FailureHalves` | node_server/List_Serveur/serveur.go:307-320 | one missed ping halves a score from 10 on and evicts below 10 |
| `Directory.TableRaises` | node_server/List_Serveur/serveur.go:297-331 | the same for a node with a name of its own over any run of ticks on any table |
| `Directory.TableFollowsPings` | node_server/List_Serveur/serveur.go:297-331 | over any run of ticks on any table, the score of a node with a name of its own is what its own pings made of it |
| `Directory.NoSuddenEviction` | node_server/List_Serveur/serveur.go:297-331 | so the table never evicts a node with a name of its own, registered from 10 on, that did not miss two pings in a row |
| `Directory.KeptExactly` | node_server/List_Serveur/serveur.go:297-331 | for any table and any name in it: the name survives every run of ticks without two failures in a row if and only if it has exactly one row, with a score from 10 on |
| `Directory.SharedEvicted` | node_server/List_Serveur/serveur.go:297-331 | for every table and any two rows of one name there is a run of ticks in which the first row answers every ping and all rows of the name are removed |
| `Directory.SharedNameEvicted` | node_server/List_Serveur/serveur.go:297-331 | an instance: of the rows 100 and 10 with one name, two ticks remove both although the first answered each time |
| `Directory.DirectoryServer.TestPing` | node_server/List_Serveur/serveur.go:304-330 | one tick on any table, duplicate names included: the rows of every name go through the pings of the rows sampled with that name, in order, and through no other |
| `Directory.DirectoryServer.PingOne` | node_server/List_Serveur/serveur.go:305-329 | all rows of the name take the halved or raised score, or all go, or nothing changes at the full score; every other name keeps its rows |
| `Directory.DirectoryServer.AddNode` | node_server/List_Serveur/serveur.go:126-163 | INIT adds a row with the claimed name and score, whether or not the name is taken |
| `Directory.WithoutScore` | node_server/data/SQLManager.go:101-106 | deleting by name removes all rows of that name and no other |
| `Directory.WithScoreScore` | node_server/data/SQLManager.go:108-111 | updating by name sets the score of all rows of that name and no other |

## Left out

- Cryptography (RSA-OAEP, AES-GCM, TLS, x509) and base64: library code; a box opens for its keys and for no other, and its text is only assumed free of the field separator.
- Sockets, line trimming, `GET_PUBKEY`, telemetry, SQL, the dashboard, the command dispatcher: input and output.
- The key cache: every key a builder needs is taken to be present (`Encapsulation.Cached`). The program does not guard the gap between its expiry check and the later lookup, so nothing is claimed about it.
- The MSG and RELAY commands: they build onions without a return route, which the builders cover (`returnRoute` is optional), but they are not sends of the protocol.
- Identifiers: the supply never repeats one (`Protocol.Unused`, `Protocol.FreshIds`); ten random digits only make that likely.
- Delivery.RestIsSettled: is about attempts in calm (`Paths.Calm`): who answers does not change during the attempt, and its reachable stations neither restart nor change their keys; the results of `Outcomes`, `Retries` and `EndToEnd` hold without that.
- Probabilities of the shuffles and of the jitter: random draws are arbitrary choices.
- Anonymity: the first return hop learns the sender's address from its layer, so nothing is claimed.
- Layers made by somebody else: the protocol runs contain the onions of honest senders only; `Handler.HandlerTerminates`, `Handler.FinishRelay`, `Handler.FinishFinal` and the methods of `Nodes.Node` do hold for any layer.
- A malformed fragment tag makes the handler panic, which takes the whole process down; the model ends that one handler and changes nothing (`Fragments.Deliver` tells the case apart, and `Protocol.FragOK` keeps it out of the runs).
- Atoi beyond 64 bits: `Strings.AtoiOrZero` is unbounded, the program clamps.
- SSEND with fewer eligible nodes than hops: some clusters are empty, as `Routes.BuildSuperRoute` states, and the encapsulator refuses the route; `Protocol.Enabled` admits launches on non-empty groups only.
- A negative number of relays makes the program slice out of range; `Routes.BuildSendRoute` returns an error there.
- Clusters.BuildSmartClusters: asks for numHops >= 1, which its caller guarantees; the program would divide by zero or index out of range below that.
- Directory.TableFollowsPings: starts at a table that holds the node, that is at or after its registration, and covers runs of ticks in which no QUIT or new INIT for that name comes in. Registrations and removals between ticks are separate methods.
- EndToEnd.FragmentsDelivered: asks that the destination does not crash, because its inbox is in memory only, and that every send to it carries a whole message or one chunk of a catalogue, no chunk twice, as the SEND command hands them out.
- EndToEnd.SentMessageArrives: asks that the destination does not crash, because its inbox is in memory only.
- Replay.PassagesApart: is about the clock of one node and its own map; a restart empties the map.
- The lengths of the timeout and of the sweep interval in protocol runs: a timeout or an eviction may come at any moment.
