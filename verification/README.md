# Game server: connection lifecycle, wire formats and small tools

This project models the server side of a 4000-player game service: an ENet network thread,
a simulation thread that ticks, and an HTTP thread that asks an account backend whether a
token is valid. The threads share one table of sessions behind a mutex and four queues.

The main part is the life of a connection, from CONNECT through key exchange, encryption,
authentication and readiness to the start of the match, and everything that is sent on the
way. The guarantees matter most where the code does not check them: the response handler
writes the verdict over whatever status the session has, the ready and input handlers do not
look at the authentication status, and the guards that protect them ran earlier, on another
thread. They hold because of facts about all queues together.

| file | content |
|---|---|
| Messages, Lifecycle | the state and one step function per critical section of each thread |
| Preparation, Membership, Sequences | splitting and coalescing; the life of one connection; filters |
| Invariant, KeepEvents, KeepSending, KeepIncoming, KeepTick | the global invariant and its preservation by every step |
| Threads, Effects | what each thread can write, and what the others can rely on |
| Runs, Chain, Guarantees, Handshakes, Streams, Deliveries, Latecomers, WorldOpening, Refusals, Replies, SessionContents | theorems over whole runs |
| Wire | from the life of a connection to keys and bytes |
| Witness, FullTable | runs that happen: one trusted client, a full table, a world that starts |
| Queues, Server | the queues and the server as objects updated in place; whole ticks and passes under interference |
| Bytes, Packets, Signing, Frames | readers, writers, packet layouts, the signed message, fragment gathering, the encrypted frame |
| Literals, Metrics | the C++ literal generator; the metrics cadence |

## How to read it

A run is a list of states, each made from the one before by a step that was allowed there
(`Runs.IsRun`). A step is one critical section with the thread-local work around it. A packet
receive is two steps, the guard and the later push; a handler is two steps, the locked part
and the push; a snapshot is two steps, the allocation under the lock and the send; every
broadcast loop takes one step per session, and CheckMatchFlow one step per lock.

`Server` carries a ghost run. Every step method is proved to do what the step function says,
and `Perform` appends it, so all theorems about runs hold of the object at every moment. The
methods for a whole tick, a whole outgoing pass and a whole HTTP pass take the schedule of the
other threads as an argument, so they are proved for every interleaving.

Histories (`ins`, `auths`, `secures`, `outs`, `matches`) and the field `allocations` of a
session are not in the source. No step reads a history. `allocations` counts snapshot ids
without wrapping; the two wire counters are its images modulo 2^32.

## Assumptions

- The connection tables are touched by one network thread only (include/network/state.h:21).
- ENet raises CONNECT only on a slot with no live connection, and there are fewer than 2^32
  connections. What happens beyond is `Deliveries.ConnectKeepsBijection`.
- An acknowledgement may come late and any number of times before its packet is freed, but not
  in the middle of an outgoing pass.
- Ticks strictly increase and stay 2^32 below 2^64; the countdown has 32 bits.
- Key exchange, signing, verdicts, packet creation, context allocation and sends succeed or
  fail arbitrarily. A client may send anything, any number of times.
- The cipher is a pair of functions of which `Frames.IsAead` is assumed.

A step of the network thread that needs the session lock is allowed even while a broadcast
loop of the simulation holds it, so the model has more interleavings than the program.

## Where the code is not what its comments say

- `isSecureSessionEstablished` is not permanent: a second hello whose signing fails clears it
  while the session stays authenticated and encrypted (`Witness.SecureFlagIsLost`), and nothing
  else does (`Handshakes.SecureChangesExactly`). Exactly then the connection goes on encrypting
  under a key of zeros (`Handshakes.InsecureMeansZeroKey`, `Wire.DatagramsUseTheirOwnKey`).
- MATCH_INIT is broadcast once, to whoever is connected. The send guard drops it for a client
  that is not authenticated yet, and it is never sent again: it arrives exactly when the guard
  passes at that one send (`Deliveries.MatchPacketArrivesExactly`). A client whose hello was not
  accepted when the packet was pushed never gets it (`Latecomers.LateHelloMissesThePacket`); a
  full table of clients that only connected is such a case (`FullTable.FullTableLosesMatchInit`).
- The announced start tick is a lower bound. The flow returns at once while too few clients are
  connected, so one client leaving during the countdown puts the start off until the first tick
  that counts enough of them again (`WorldOpening.WorldOpensExactly`), however late that is
  (`FullTable.AnnouncedStartIsPutOff`).
- The connection id is unique for 2^32 - 1 connections only. The next one gets 0 and leaves a stale
  entry (`Deliveries.CounterWrapBreaksIt`), and the one after it can take the id of a client that is
  still there (`Deliveries.CounterWrapTakesALiveId`).
- An encrypted empty datagram is reported like a rejected one (`Frames.SealAndOpen`).
- The generated header is wrong for a bundle with a hexadecimal digit right after a byte that
  needs a hexadecimal escape, and does not compile for an empty one (`Literals.HeaderRoundTrip`).

## Model

The theorems come first, then the whole passes and the exact formats. The rows from
`KeepEvents.KeepConnect` to the end are helpers: one critical section each, first in the proof of
the invariant, then in the code.

| member | source | states |
|---|---|---|
| Guarantees.AuthConservation | src/simulation/process/incoming/auth_message.cpp:36-86 | in every reachable state a connection has exactly one item in the authentication line (request queue, HTTP batch and job, response queue, drained responses) when its session waits, none when it does not, and never two even after its session is gone |
| Guarantees.OneValidation | src/simulation/process/incoming/auth_message.cpp:70-86 | over a whole run a connection is validated at most once, and answers come back in the order asked |
| Guarantees.OneAuthReply | src/simulation/process/http/auth_validatetokenresponse_message.cpp:92-110 | over a whole run at most one authentication reply is pushed for a connection |
| Guarantees.ReplyTellsTheStatus | src/simulation/process/http/auth_validatetokenresponse_message.cpp:46-110 | a reply in the log says what the session it concerns says, and disconnects exactly the rejected |
| Guarantees.VerdictIsFinal | src/simulation/process/http/auth_validatetokenresponse_message.cpp:46-79 | Valid and Invalid never change for the life of a session, although the handler assigns them without looking |
| Chain.VerdictMeans | src/simulation/process/http/auth_validatetokenresponse_message.cpp:26-110 | a decided session went through accepted hello, its acknowledgement, the token over an encrypted session, the answer of the backend and its application, found as steps of the run in that order |
| Chain.ReadyOrInputMeans | src/simulation/process/incoming/ready_for_match_message.cpp:17-36 | a session that is ready or has queued input is authenticated and encrypted and went through all five steps, although neither handler checks any of it |
| Chain.EncryptedMeans | src/network/transport/outgoing/enet_send_packets.cpp:170-206 | encryption is on only after an accepted hello of this very connection whose reply was acknowledged, in that order |
| Chain.AskedBy | src/simulation/process/incoming/auth_message.cpp:16-86 | only the first token of a session, handled over an encrypted session, asks the backend |
| Chain.AppliedBy | src/simulation/process/http/auth_validatetokenresponse_message.cpp:26-90 | a verdict is applied only to a session that waits for it |
| Chain.GuardAtHead | src/network/transport/incoming/guards_channels.cpp:37-81 | what the network thread checked on arrival still holds when the simulation handles the message |
| SessionContents.SessionReflectsItsMessages | src/simulation/process/incoming/input_message.cpp:26-46 | in every reachable state the input queue, latest input, acknowledged snapshot, readiness, client key and asked-or-not of a session are read off the messages handled for its connection: all inputs numbered above 0 in order, the last input, the last hello, the ready message, the first token |
| SessionContents.AccountIsTheBackends | src/simulation/process/http/auth_validatetokenresponse_message.cpp:46-79 | account id and name of an authenticated session, and the error of a rejected one, are those of the answer the backend gave to a request of this very connection with the first token it sent |
| SessionContents.RequestsCarryTheirTokens | src/simulation/process/incoming/auth_message.cpp:70-86 | every request under way carries the first token handled for its connection |
| Replies.PushesExactly | src/simulation/entrypoint.cpp:18-156 | every step pushes exactly these messages, in full: the held reply, or one packet of the stage with the tick, start tick and countdown of that moment, or one unnumbered snapshot of the tick |
| Replies.HellosAreAnswered | src/simulation/process/incoming/secure_session_hello_message.cpp:64-150 | the handshake replies correspond one for one and in order to the hellos handled: status by outcome, nonce echoed when the keys were derived and zeros otherwise, disconnection or encryption on acknowledgement |
| Replies.VerdictsAreAnswered | src/simulation/process/http/auth_validatetokenresponse_message.cpp:92-110 | the authentication replies correspond one for one and in order to the verdicts applied, with sign and disconnection |
| Replies.StartPacketsSay | src/simulation/match_flow.cpp:149-200 | every start packet ever pushed says the tick of the decision, the start tick of the game and the countdown, and the second is the sum of the others |
| Replies.InitPacketsAgree | src/simulation/match_flow.cpp:60-82 | every init packet names the tick of the step that pushed it, and all of them name the same tick |
| Refusals.SendAttachesItsContext | src/network/transport/outgoing/enet_send_packets.cpp:271-403 | a packet that leaves carries exactly what its message asks for on acknowledgement, for the connection it is for; a refusal that cannot be sent with its context disconnects at once; otherwise neither happens |
| Refusals.ContextLives | src/network/transport/outgoing/enet_send_packets.cpp:150-168 | from its send to its free a packet keeps the context it was sent with |
| Refusals.AcknowledgedRefusalDisconnects | src/network/transport/outgoing/enet_send_packets.cpp:170-206 | when a refusal that was handed to ENet is acknowledged, its client is disconnected if and only if it is still connected |
| Refusals.ReceiveExactly | src/network/transport/incoming/channels/secure_session_reliable.cpp:8-84 | a packet from a bound slot is taken up if and only if it is the encoding of a message of its channel under the guard, and its sender is disconnected at once if and only if it is a well formed hello of another version; nothing else happens |
| Refusals.StrangersAreIgnored | src/network/transport/incoming/connection_validation.cpp:8-83 | a packet from a slot no connection is bound to changes nothing |
| Refusals.TakenUpIsPushed | src/network/transport/incoming/channels/secure_session_reliable.cpp:71-83 | a packet that was taken up is pushed as it is |
| Refusals.KicksExactly | src/network/transport/outgoing/enet_send_packets.cpp:170-206 | over every step of every run the server disconnects exactly: on a hello of another version, on a refusal that cannot be sent, and on the acknowledgement of a refusal by a client that is still bound |
| Guarantees.TablesAgree | src/network/transport/incoming/events/connect.cpp:22-44 | handling the messages still under way would turn the keys of the session table into exactly the connected ids |
| Guarantees.HandlersFindTheirSessions | src/simulation/process/network_incoming_dispatcher.cpp:18-77 | at every handled message: a CONNECT finds no session, every other message finds one, and the guard holds; the unknown-session branches are dead |
| Guarantees.TraceGrammar | src/network/transport/incoming/events/disconnect.cpp:29-50 | what is accepted for one connection is CONNECT, packets, then DISCONNECT exactly once it is unbound; the handled messages are a prefix of the pushed ones |
| Guarantees.EncryptionMirror | src/network/transport/outgoing/enet_send_packets.cpp:99-144 | both encryption tables have the connected ids, their flags agree with the session, and a session is encrypted exactly when a success reply was acknowledged before |
| Guarantees.EncryptionStays | src/network/transport/outgoing/enet_send_packets.cpp:193-196 | encryption never goes off while the session lives |
| Guarantees.GuardsAmountTo | src/network/transport/incoming/guards_channels.cpp:37-81 | in reachable states the gameplay guard is authentication and the secure flag, the auth guard encryption, the secure flag and no rejection; every other flag they test is implied |
| Handshakes.SecureChangesExactly | src/simulation/process/incoming/secure_session_hello_message.cpp:93-112 | while a session lives its secure flag falls if and only if another hello of that connection is handled and signing fails, and rises if and only if one is handled and key exchange and signing work |
| Handshakes.KeyedByTheLastHandshake | src/simulation/process/incoming/secure_session_hello_message.cpp:66-112 | in every reachable state the flag and both keys of a session are what the last handshake of that very connection that got past key exchange left: its keys, or zeros |
| Handshakes.InsecureMeansZeroKey | src/simulation/process/incoming/secure_session_hello_message.cpp:98-112 | an encrypted session is not secure if and only if its last handshake failed at signing, and then it goes on under the key of 32 zeros; otherwise it has the keys of its last successful handshake |
| Witness.SomebodyIsTrusted | src/network/transport/outgoing/enet_send_packets.cpp:170-206 | for any keys, token and account there is a run in which a client is authenticated over a secure and encrypted session |
| Witness.SecureFlagIsLost | src/simulation/process/incoming/secure_session_hello_message.cpp:106-112 | and a run in which a second hello of that client, failing at signing, takes the flag and both keys while it stays authenticated and encrypted |
| Wire.DatagramsUseTheirOwnKey | src/network/transport/encryption/enet_host_xchacha20poly1305_encryptor.cpp:59-87 | however slots are reused, the encryptor loads for a peer the key left by the last handshake of the connection bound to it, and none exactly when that connection is not encrypted |
| Wire.PatchedDescribes | src/network/transport/outgoing/process/simulation/unreliable_messages.cpp:57-69 | overwriting bytes 1 to 4 of a snapshot that says a payload gives one that says the payload with the new id |
| Wire.SentBytesCarryTheWireId | src/network/transport/outgoing/process/simulation/unreliable_messages.cpp:57-72 | a snapshot about to be sent was pushed with the id 0; overwriting bytes 1 to 4 of what the simulation serialized for it, at whatever time, gives bytes that decode to the pushed tick and last input and to the wire id that the run records |
| Wire.SnapshotLeavesExactly | src/network/transport/outgoing/process/simulation/unreliable_messages.cpp:67-72 | a held snapshot reaches ENet if and only if its own session is authenticated and secure and ENet takes it, on the slot of its connection with the allocated id |
| Wire.RunFromLog | src/network/transport/outgoing/message_preparation.cpp:3-38 | in every reachable state what is queued, kept or held was pushed, and every pushed snapshot has the id 0 |
| Wire.SerializedDescribes | src/simulation/snapshots.cpp:12-46 | the bytes serialized for a payload whose numbers fit their fields parse back to that payload |
| Guarantees.WorldMeans | src/simulation/match_flow.cpp:149-219 | a world tick t was preceded by a decision with at least 4000 sessions, all ready, authenticated and encrypted, at least the countdown before t, and the start tick has not changed since |
| Guarantees.StartIsDecidedByTrustedPlayers | src/game/world/entrypoint.cpp:16-21 | every session present when the start of a running world was decided went through the whole chain of five steps |
| WorldOpening.OneGatePerTick | src/simulation/match_flow.cpp:49-58 | a tick counts the sessions once |
| WorldOpening.GateOfTick | src/simulation/match_flow.cpp:43-58 | a tick in the flow or about to simulate the world passed its gate before: the flow runs only if that gate counted enough sessions, and when the world is simulated `started` is what it was at the gate, or raised exactly when the gate counted enough and the start is due |
| WorldOpening.WorldOpensExactly | src/simulation/match_flow.cpp:50-219 | the world runs in a tick if and only if in it or an earlier one the gate counted enough sessions with the start sent and its tick come, so each tick with too few clients puts the announced start off |
| FullTable.TheWorldStarts | src/simulation/match_flow.cpp:149-219 | there is a run in which all 4000 places are taken by authenticated, secure, encrypted and ready clients and the world ticks |
| FullTable.AnnouncedStartIsPutOff | src/simulation/match_flow.cpp:50-58 | there is a run in which a client leaves during the countdown and, any number of ticks after the announced one, the world is simulated without running |
| Guarantees.FlagsRiseInOrder | src/simulation/match_flow.cpp:60-213 | init, world, start, started rise in this order and never fall; a sent start keeps its tick |
| Streams.StreamIncreases | src/network/transport/outgoing/process/simulation/unreliable_messages.cpp:40-72 | the snapshots handed to ENet for one connection have strictly increasing allocation numbers and ticks, and go to its own slot |
| Streams.WireIdsIncrease | src/network/transport/outgoing/process/simulation/unreliable_messages.cpp:57-65 | the id on the wire is the allocation number modulo 2^32; between two snapshots less than 2^32 apart it increases if and only if the counter did not wrap between them |
| Streams.AllocatedIds | src/network/transport/outgoing/process/simulation/unreliable_messages.cpp:40-62 | over a run the ids allocated for a connection are 1, 2, 3, ... in 32 bits without gap or repeat, and the two session counters are the last and the next |
| Streams.WireIdWraps | src/network/transport/outgoing/process/simulation/unreliable_messages.cpp:57-61 | the wrap happens: after 2^32 - 1 comes 0 |
| Deliveries.PeersAreABijection | src/network/transport/incoming/connection_validation.cpp:8-83 | `peer->data` is c exactly when the table sends c to that peer, so a bound slot always validates to its own connection |
| Deliveries.ConnectKeepsBijection | src/network/transport/incoming/events/connect.cpp:22-33 | for any counter value, a connection keeps the bijection if and only if its 32-bit id is neither 0 nor in use |
| Deliveries.CounterWrapBreaksIt | src/network/transport/incoming/events/connect.cpp:22-25 | after 2^32 - 1 clients came and went on a slot the tables are empty and the next one gets the id 0: its pointer stays null, the table gains an entry that its disconnection does not remove, and the bijection is gone |
| Deliveries.CounterWrapTakesALiveId | src/network/transport/incoming/events/connect.cpp:22-33 | when the first client stayed meanwhile, the connection after that one gets its id: the table sends the id to the newcomer and the packets of the first client validate to no connection |
| Deliveries.ReconnectsLeaveNothing | src/network/transport/incoming/events/disconnect.cpp:29-50 | clients coming and going on one slot change nothing of the network tables but the counter, as long as it stays below 2^32 |
| Deliveries.SendGoesToItsConnection | src/network/transport/outgoing/process/simulation/reliable_messages.cpp:13-60 | a reliable message is handed to ENet if and only if its connection is bound, ENet and the allocator cooperate and, for match messages, its own session is authenticated and secure; it goes to the slot of that connection |
| Deliveries.AckTouchesOnlyItsConnection | src/network/transport/outgoing/enet_send_packets.cpp:170-206 | an acknowledgement changes the flags of its own connection only, and nothing at all once the slot is no longer bound to it |
| Deliveries.KickMeans | src/network/transport/outgoing/enet_send_packets.cpp:198-205 | the server disconnects only a connection refused before: wrong version, failed handshake or negative verdict |
| Deliveries.ReliableOrder | src/network/transport/outgoing/process/simulation/reliable_messages.cpp:13-60 | reliable messages are handled in the order pushed, none lost or doubled, and those handed to ENet keep that order |
| Deliveries.MatchPacketsOnce | src/simulation/match_flow.cpp:60-204 | over a run a connection is pushed one of [], init, init world, init world start, or start alone; after the world stage never init without world |
| Deliveries.MatchSentInOrder | src/network/transport/outgoing/process/simulation/reliable_messages.cpp:13-60 | the match messages ENet gets for one connection come in the order init, world, start, each at most once |
| Deliveries.DroppedMatchPacketIsNeverRepeated | src/network/transport/outgoing/enet_send_packets.cpp:217-289 | a match message dropped by the send guard or by ENet is never made up for in the rest of the run |
| Deliveries.MatchPacketArrivesExactly | src/network/transport/outgoing/enet_send_packets.cpp:217-289 | a client is ever handed a match message of some kind if and only if at the one step that handles its message of that kind it is bound, authenticated and secure and ENet takes the packet |
| Latecomers.HandledBehindItsPush | src/network/transport/outgoing/process/simulation/reliable_messages.cpp:13-60 | a match packet is handled after exactly the reliable messages that were pushed before it |
| Latecomers.LateHelloMissesThePacket | src/simulation/match_flow.cpp:60-103 | a client whose hello was not accepted when the packet of a stage was pushed for it is never handed that packet, whatever it does afterwards |
| FullTable.FullTableLosesMatchInit | src/simulation/match_flow.cpp:50-82 | there is a run in which 4000 clients have connected, MATCH_INIT of a bound one is handled while ENet would take it, and it is not handed over |
| Deliveries.HandledAscending | src/network/transport/outgoing/message_preparation.cpp:16-24 | draining and splitting keep the order of the match messages of one connection |
| Invariant.InitialInv | include/network/state.h:21-47 | the boot state satisfies the global invariant |
| KeepTick.InvNext | src/simulation/entrypoint.cpp:18-156 | every step of every thread keeps the global invariant |
| Runs.RunInv | src/simulation/entrypoint.cpp:18-156 | every state of every run satisfies it |
| Runs.LaterRun | src/simulation/match_flow.cpp:60-219 | histories only grow along a run, match flags only rise, and the start tick is fixed from the decision on |
| KeepEvents.DispatchExact | src/network/transport/incoming/dispatch_by_channel.cpp:12-78 | a datagram is accepted if and only if it is the encoding of a message of its channel and the guard holds, and the sender is disconnected if and only if it is a well formed hello of another version |
| KeepEvents.DispatchEstablishesTheGuard | src/network/transport/incoming/dispatch_by_channel.cpp:22-47 | a dispatched message satisfies the guard of its channel at the moment it is accepted |
| KeepIncoming.VerdictsAppliedVerdict | src/simulation/process/http/auth_validatetokenresponse_message.cpp:46-79 | after a verdict the session status is still the one verdict applied to it |
| KeepTick.ReadyMeansValidAndEncrypted | src/simulation/match_flow.cpp:15-40 | all sessions ready means all authenticated and encrypted |
| Membership.HeadFindsItsSession | src/simulation/process/incoming/connect_message.cpp:16-25 | the next message finds the table as the grammar of its connection says |
| Membership.LifePop | src/simulation/process/incoming/disconnect_message.cpp:13-32 | handling a message moves its connection along its life |
| Membership.ReplayGivesTheBound | src/network/transport/incoming/events/connect.cpp:22-44 | replaying the pending messages on the table gives the bound ids |
| Threads.NetworkKeeps | include/network/state.h:21-47 | a network step changes of sessions only the encryption flag and the snapshot counters, and neither match fields nor the HTTP line |
| Threads.SimulationKeeps | src/simulation/entrypoint.cpp:18-156 | a simulation step leaves the network tables and what was sent alone |
| Threads.OtherThreadsKeepReadiness | src/simulation/match_flow.cpp:13-60 | between two looks of CheckMatchFlow the other threads change neither the keys, nor readiness, nor authentication |
| Threads.OnlyHandlersWriteSessions | src/simulation/process/network_incoming_dispatcher.cpp:18-77 | only the two message handlers of the simulation write sessions |
| Effects.OthersAreQuiet | src/simulation/match_flow.cpp:43-60 | what each thread can rely on while the others run |
| Effects.StagesUnderSameTables | src/simulation/match_flow.cpp:43-219 | the stages of the flow, each on the table as it finds it, amount to one look at the first table |
| ServerObject.Server.constructor | include/network/state.h:21-47 | the object boots in the initial state, with a run of one state |
| ServerObject.Server.Perform | src/simulation/entrypoint.cpp:18-156 | one step: the fields become what the step function says and the run is extended by it |
| ServerObject.Server.Interfere | include/network/state.h:35-47 | the other threads take exactly those of the given steps they can, in order; what this thread relies on stays |
| ServerObject.Server.RunSimulationTick | src/simulation/entrypoint.cpp:18-156 | a tick under any interference handles everything queued when it began, in order, leaves the match fields that a single look at the table would have left, and on a production tick pushes exactly one snapshot for every session of the table and for nobody else, otherwise none |
| ServerObject.Server.HandleQueues | src/simulation/entrypoint.cpp:35-91 | both queues are drained and both batches handled to the end, in order, with no snapshot pushed |
| ServerObject.Server.ProcessNetworkIncoming | src/simulation/process/network_incoming_dispatcher.cpp:12-77 | the loop handles exactly the drained batch, in order, with the given handshake outcomes, and takes no other step of its own but the pushes |
| ServerObject.Server.ProcessHttpResponses | src/simulation/process/http_dispatcher.cpp:7-35 | the loop handles exactly the drained responses, in order |
| ServerObject.Server.CheckMatchFlow | src/simulation/match_flow.cpp:43-220 | with the other threads running at every release of the lock, the match fields and the addressees are those of FlowResult on the table at entry |
| ServerObject.Server.RunStage | src/simulation/match_flow.cpp:60-106 | one stage: nothing when it is not due, otherwise one packet to every session and the flag |
| ServerObject.Server.BroadcastToAll | src/simulation/match_flow.cpp:62-105 | a broadcast loop addresses every session of the table once |
| ServerObject.Server.AreAllSessionsReadyForMatch | src/simulation/match_flow.cpp:13-41 | true if and only if there are enough sessions and all are ready |
| ServerObject.Server.CreateFullSnapshots | src/simulation/snapshots.cpp:48-69 | on a production tick every session gets exactly one snapshot and nobody else does |
| ServerObject.Server.RunOutgoingPass | src/network/transport/outgoing/entrypoint.cpp:10-51 | a pass under any interference is drain, one send per reliable message queued when it began, in order, then one allocation and send per connection with a queued snapshot, each once, and no other step of its own |
| ServerObject.Server.SendReliables | src/network/transport/outgoing/process/simulation/reliable_messages.cpp:8-61 | the ordered loop over the reliable messages, one send each with the given outcomes |
| ServerObject.Server.SendOneSnapshot | src/network/transport/outgoing/process/simulation/unreliable_messages.cpp:16-73 | the steps for one kept snapshot are its allocation and, if and only if its connection is bound, its send with the given outcome |
| ServerObject.Server.SendSnapshots | src/network/transport/outgoing/process/simulation/unreliable_messages.cpp:75-108 | the loop takes the kept snapshots in some order without repetition, every one of them, each with its own outcome |
| ServerObject.Server.RunHttpPass | src/services/http/entrypoint.cpp:8-37 | a pass woken by a request drains once, then takes and answers every request it drained, in order, with the given answers, and nothing else; woken by a stop with nothing queued it changes nothing |
| ServerObject.Server.EncryptDatagram | src/network/transport/encryption/enet_host_xchacha20poly1305_encryptor.cpp:149-248 | a datagram of a peer leaves as the frame under the transmit key of the last handshake of the connection bound to it, and is left as it is exactly when that connection is not encrypted, the frame does not fit, the fragments fail or sealing fails |
| ServerObject.Server.DecryptDatagram | src/network/transport/encryption/enet_host_xchacha20poly1305_encryptor.cpp:251-354 | a datagram is accepted exactly when it is a frame under the receive key of that same connection |
| Queues.MessageQueue.Push | include/core/threading/queues/network_incoming_to_simulation.h:49-53 | appends |
| Queues.MessageQueue.Drain | include/core/threading/queues/network_incoming_to_simulation.h:55-60 | hands out the whole queue; conservation survives if and only if the deque swapped in is empty |
| Queues.BlockingQueue.WaitAndDrain | include/core/threading/queues/simulation_to_http.h:47-63 | true exactly with a non-empty batch; false only when stopped and everything ever pushed was handed over |
| Queues.BlockingQueue.Stop | include/core/threading/queues/simulation_to_http.h:65-72 | stops and keeps what is queued |
| Queues.Consumer.ProcessBatch | src/services/http/entrypoint.cpp:8-38 | with pushes at every iteration a pass consumes exactly what it drained, in order, and leaves what came meanwhile; it ends only when stopped and everything pushed was consumed |
| Preparation.SplitReliableAndCoalesceUnreliable | src/network/transport/outgoing/message_preparation.cpp:3-38 | reliable output is the ordered filter and each map holds exactly the last message of its family per connection |
| Preparation.PreparedIsUnique | src/network/transport/outgoing/message_preparation.cpp:3-38 | that specification has one solution |
| Preparation.SplitConcatenation | src/network/transport/outgoing/message_preparation.cpp:3-38 | preparing a concatenation is merging the two preparations, the later winning |
| Preparation.LastIndexConcat | src/network/transport/outgoing/message_preparation.cpp:25-36 | where the last message of a family is in a concatenation |
| Bytes.Be16RoundTrip | src/network/serialization/byte_reader.cpp:24-37 | big-endian 16-bit words and their values are inverse |
| Bytes.Be32RoundTrip | src/network/serialization/byte_reader.cpp:39-54 | the same for 32 bits |
| Bytes.Be64RoundTrip | src/network/serialization/byte_reader.cpp:56-75 | the same for 64 bits |
| Bytes.WordValue | src/network/serialization/byte_writer.cpp:42-51 | a length below 2^16 survives its 16-bit prefix |
| Bytes.ByteReader.ReadU32 | src/network/serialization/byte_reader.cpp:39-54 | reads four bytes or fails and stays |
| Bytes.ByteReader.ReadString | src/network/serialization/byte_reader.cpp:89-110 | reads a prefixed string within the limit |
| Bytes.ByteReader.ReadBytes | src/network/serialization/byte_reader.cpp:77-87 | reads a block or fails and stays |
| Bytes.ByteWriter.WriteU64 | src/network/serialization/byte_writer.cpp:24-34 | appends the big-endian form |
| Bytes.ByteWriter.WriteString | src/network/serialization/byte_writer.cpp:42-51 | appends the prefixed form |
| Packets.HelloExact | src/network/serialization/deserialize_packets_client.cpp:5-43 | the parser accepts a byte string exactly when it is the encoding of that packet |
| Packets.AuthExact | src/network/serialization/deserialize_packets_client.cpp:45-75 | the same for the token packet, whose token has at most 1024 bytes |
| Packets.ReadyExact | src/network/serialization/deserialize_packets_client.cpp:77-100 | the ready packet is its one type byte and nothing else |
| Packets.InputExact | src/network/serialization/deserialize_packets_client.cpp:102-165 | the same for the input packet |
| Packets.SnapshotExact | src/network/serialization/deserialize_packets_server.cpp:5-51 | the same for the snapshot packet |
| Packets.DeserializeHello | src/network/serialization/deserialize_packets_client.cpp:5-43 | the sequential reads compute that parser |
| Packets.DeserializeAuth | src/network/serialization/deserialize_packets_client.cpp:45-75 | the same for the token packet |
| Packets.DeserializeReady | src/network/serialization/deserialize_packets_client.cpp:77-100 | the same for the ready packet |
| Packets.DeserializeInput | src/network/serialization/deserialize_packets_client.cpp:102-165 | the same for the input packet |
| Packets.DeserializeSnapshot | src/network/serialization/deserialize_packets_server.cpp:5-51 | the same for the snapshot packet |
| Packets.SerializeHelloResponse | src/network/serialization/serialize_packets_server.cpp:55-68 | the sequential writes give the layout |
| Packets.SerializeMatchInit | src/network/serialization/serialize_packets_server.cpp:5-18 | the layout; a map name of 65536 bytes or more is refused |
| Packets.SerializeMatchStart | src/network/serialization/serialize_packets_server.cpp:29-40 | the layout |
| Packets.SerializeSnapshot | src/network/serialization/serialize_packets_server.cpp:42-53 | the layout |
| Packets.SerializeAuthResponse | src/network/serialization/serialize_packets_server.cpp:70-78 | the layout |
| Packets.SerializeWorldInit | src/network/serialization/serialize_packets_server.cpp:20-27 | the layout |
| Packets.HelloResponseExact | src/network/serialization/serialize_packets_server.cpp:55-68 | reading at fixed offsets inverts the layout: a byte string reads as that packet exactly when it is its encoding |
| Packets.MatchInitExact | src/network/serialization/serialize_packets_server.cpp:5-18 | the same for the match announcement |
| Packets.MatchStartExact | src/network/serialization/serialize_packets_server.cpp:29-40 | the same for the start announcement |
| Packets.ServerBytesInjective | src/network/serialization/serialize_packets_server.cpp:5-78 | the five reliable server packets together are encoded injectively; the snapshot travels on another channel, its exactness is SnapshotExact |
| Packets.PatchSnapshot | src/network/transport/outgoing/process/simulation/unreliable_messages.cpp:27-69 | parse, patch and print again |
| Packets.PatchOverwritesTheId | src/network/transport/outgoing/process/simulation/unreliable_messages.cpp:64-69 | which is overwriting bytes 1 to 4 and nothing else |
| Signing.BuildSecureSessionMessage | src/crypto/signing.cpp:28-60 | the message is domain, key, two times, nonce, of fixed length |
| Signing.WriteU64Be | src/crypto/signing.cpp:16-26 | appends the big-endian form |
| Signing.SignedMessageExact | src/crypto/signing.cpp:28-60 | reading at fixed offsets inverts the signed message |
| Signing.SignedMessageInjective | src/crypto/signing.cpp:28-60 | one signed message attests one payload |
| Frames.CopyInBuffersToOutData | src/network/transport/encryption/enet_host_xchacha20poly1305_encryptor.cpp:90-146 | the first inLimit bytes of the fragments in place, or 0; the rest of the buffer is untouched |
| Frames.CopyInBuffersToContiguous | src/network/transport/compression/enet_host_lz4_compressor.cpp:19-73 | the same verdict for the caller and the same bytes |
| Frames.UsableAppend | src/network/transport/encryption/enet_host_xchacha20poly1305_encryptor.cpp:114-142 | how bytes are cut into fragments does not matter |
| Frames.EncryptCallback | src/network/transport/encryption/enet_host_xchacha20poly1305_encryptor.cpp:149-248 | produces a frame of header, length and tag exactly when the key is on, the buffer is large enough, the fragments are there and suffice and sealing works |
| Frames.DecryptCallback | src/network/transport/encryption/enet_host_xchacha20poly1305_encryptor.cpp:251-354 | returns the plaintext of a frame under the key or 0; a rejected frame touches at most the bytes its plaintext would have taken |
| Frames.FrameExact | src/network/transport/encryption/enet_host_xchacha20poly1305_encryptor.cpp:283-354 | the decryptor accepts exactly the frames built under its key whose plaintext fits |
| Frames.SealAndOpen | src/network/transport/encryption/enet_host_xchacha20poly1305_encryptor.cpp:149-354 | what one side seals the other opens, for any fragmentation; an empty plaintext looks like a rejection |
| Literals.EscapeCppBytes | build-scripts/curl-cacertpem/generate_ca_bundle_header.py:7-22 | the loop computes the escape |
| Literals.EscapeInjective | build-scripts/curl-cacertpem/generate_ca_bundle_header.py:7-22 | different inputs give different texts, for all inputs |
| Literals.EscapePrefixFree | build-scripts/curl-cacertpem/generate_ca_bundle_header.py:7-22 | the codes form a prefix code |
| Literals.ReadIsGreedy | build-scripts/curl-cacertpem/generate_ca_bundle_header.py:49-50 | what a compiler reads in the emitted literal |
| Literals.GreedyExact | build-scripts/curl-cacertpem/generate_ca_bundle_header.py:7-22 | a literal yields its bytes if and only if no byte written in hexadecimal is followed by a hexadecimal digit |
| Literals.HexSwallowsTheNextDigit | build-scripts/curl-cacertpem/generate_ca_bundle_header.py:20-21 | the text emitted for the bytes 01 41 is read back as the one byte 1A |
| Literals.WriteInitializer | build-scripts/curl-cacertpem/generate_ca_bundle_header.py:48-51 | the writer loop emits one literal per line and the semicolon |
| Literals.ReadAdjacentIsGreedy | build-scripts/curl-cacertpem/generate_ca_bundle_header.py:48-51 | what a compiler reads in the literals together |
| Literals.SplitKeepsEverything | build-scripts/curl-cacertpem/generate_ca_bundle_header.py:33-33 | cutting into lines loses nothing and separates no offending pair |
| Literals.HeaderRoundTrip | build-scripts/curl-cacertpem/generate_ca_bundle_header.py:33-51 | the header holds exactly the bundle if and only if the bundle is not empty and has no offending pair |
| Metrics.Publisher.PublishIfNeeded | src/simulation/process/nats/publish_gameserver_simulation_etat_metrics.cpp:7-76 | after every call the deadline is the grid point in (t, t + 1s]; at most one publication per whole second since the first call |
| Metrics.Publisher.CatchUp | src/simulation/process/nats/publish_gameserver_simulation_etat_metrics.cpp:39-43 | the loop ends, without wrapping, at the closed form |
| Metrics.NextPointIsUnique | src/simulation/process/nats/publish_gameserver_simulation_etat_metrics.cpp:25-43 | that grid point is the only one |
| Metrics.FirstDeadlineIsLater | src/simulation/process/nats/publish_gameserver_simulation_etat_metrics.cpp:23-27 | arming gives a later time if and only if the 64-bit sum does not wrap, and gives the unarmed value at exactly one second below the limit |
| KeepEvents.KeepConnect | src/network/transport/incoming/events/connect.cpp:22-44 | CONNECT keeps the invariant |
| KeepEvents.KeepDisconnect | src/network/transport/incoming/events/disconnect.cpp:29-50 | DISCONNECT keeps it |
| KeepEvents.KeepReceive | src/network/transport/incoming/dispatch_by_channel.cpp:12-78 | guarding and parsing keep it |
| KeepIncoming.KeepHandleIn | src/simulation/process/network_incoming_dispatcher.cpp:18-77 | handling one network message keeps it |
| KeepIncoming.KeepHandleVerdict | src/simulation/process/http/auth_validatetokenresponse_message.cpp:26-110 | writing a verdict keeps it, so it overwrites WaitingAuth only |
| KeepSending.KeepDrainOutgoing | src/network/transport/outgoing/message_preparation.cpp:3-38 | draining and coalescing keep it |
| KeepSending.KeepSendReliable | src/network/transport/outgoing/enet_send_packets.cpp:271-403 | one reliable send keeps it |
| KeepSending.KeepAllocateSnapshot | src/network/transport/outgoing/process/simulation/unreliable_messages.cpp:40-65 | allocating a snapshot id keeps it |
| KeepSending.KeepSendSnapshot | src/network/transport/outgoing/process/simulation/unreliable_messages.cpp:67-72 | sending the patched snapshot keeps it |
| KeepSending.KeepAcknowledge | src/network/transport/outgoing/enet_send_packets.cpp:170-206 | a late, stale or repeated acknowledgement keeps it |
| KeepTick.KeepDecide | src/simulation/match_flow.cpp:60-156 | deciding a stage keeps it |
| KeepTick.KeepBroadcast | src/simulation/match_flow.cpp:62-102 | one packet of a broadcast loop keeps it |
| KeepTick.KeepBroadcastSnapshot | src/simulation/snapshots.cpp:12-46 | one snapshot keeps it |
| KeepTick.KeepHttpAnswer | src/services/http/process/simulation/auth_validatetokenrequest_message.cpp:6-23 | answering a request keeps it |
| ServerObject.Server.DecideStage | src/simulation/match_flow.cpp:149-156 | decides a stage and fixes the start tick |
| ServerObject.Server.HandleConnect | src/network/transport/incoming/events/connect.cpp:7-50 | numbers the connection in 32 bits, binds the peer both ways, encryption off, pushes CONNECT |
| ServerObject.Server.HandleDisconnect | src/network/transport/incoming/events/disconnect.cpp:7-56 | unbinds both ways and pushes DISCONNECT; an unbound peer changes nothing |
| ServerObject.Server.HandleReceive | src/network/transport/incoming/events/receive.cpp:6-23 | validates, dispatches, and disconnects on a wrong protocol version |
| ServerObject.Server.Dispatch | src/network/transport/incoming/dispatch_by_channel.cpp:12-78 | guard first, then the reads of the parser of the channel, compute that dispatch |
| ServerObject.Server.ValidatedConnectionId | src/network/transport/incoming/connection_validation.cpp:8-83 | the id when peer and table agree, otherwise 0 |
| ServerObject.Server.IsPeerAllowedToSendPacket | src/network/transport/outgoing/enet_send_packets.cpp:217-269 | the send guard on the session of the peer |
| ServerObject.Server.TryLoadSessionKeyIfEnabled | src/network/transport/encryption/enet_host_xchacha20poly1305_encryptor.cpp:34-87 | the key of the session bound to the peer, in the direction asked, or none |
| ServerObject.Server.SendPacketToPeer | src/network/transport/outgoing/enet_send_packets.cpp:271-403 | what one send returns, and when it attaches a context or disconnects at once |
| ServerObject.Server.SendNextReliable | src/network/transport/outgoing/process/simulation/reliable_messages.cpp:13-60 | one iteration of the reliable loop |
| ServerObject.Server.AllocateSnapshotId | src/network/transport/outgoing/process/simulation/unreliable_messages.cpp:16-65 | allocates the id under the lock and patches the packet |
| ServerObject.Server.SendPatchedSnapshot | src/network/transport/outgoing/process/simulation/unreliable_messages.cpp:67-72 | sends the patched snapshot under the send guard |
| ServerObject.Server.IsPeerStillBound | src/network/transport/outgoing/enet_send_packets.cpp:64-91 | true exactly while peer and id are bound to each other and the id is not 0 |
| ServerObject.Server.SetPeerEncryptionEnabled | src/network/transport/outgoing/enet_send_packets.cpp:99-144 | raises both flags of a properly bound peer |
| ServerObject.Server.OnReliablePacketAcknowledged | src/network/transport/outgoing/enet_send_packets.cpp:170-206 | the acknowledgement callback |
| ServerObject.Server.DrainOutgoingQueue | src/network/transport/outgoing/entrypoint.cpp:26-42 | swaps the queue out and prepares it |
| ServerObject.Server.HandleHelloMessage | src/simulation/process/incoming/secure_session_hello_message.cpp:18-150 | keys and flags of the session, and the reply with its post-acknowledgement flags, in the three outcomes |
| ServerObject.Server.HandleAuthMessage | src/simulation/process/incoming/auth_message.cpp:10-86 | asks the backend only from the None status |
| ServerObject.Server.HandleConnectMessage | src/simulation/process/incoming/connect_message.cpp:7-25 | a fresh session in place of whatever was there |
| ServerObject.Server.HandleDisconnectMessage | src/simulation/process/incoming/disconnect_message.cpp:8-32 | the session is erased |
| ServerObject.Server.HandleReadyMessage | src/simulation/process/incoming/ready_for_match_message.cpp:8-36 | the ready flag, with no check of its own |
| ServerObject.Server.HandleInputMessage | src/simulation/process/incoming/input_message.cpp:8-53 | the latest input and acknowledged snapshot always, the queue only for a newer sequence number |
| ServerObject.Server.HandleAuthResponse | src/simulation/process/http/auth_validatetokenresponse_message.cpp:12-110 | the verdict over whatever status there is, and the reply |
| ServerObject.Server.FinishBroadcast | src/simulation/match_flow.cpp:104-105 | raises the flag of the stage |
| ServerObject.Server.OpenGate | src/simulation/match_flow.cpp:206-219 | opens the world once the start tick is reached |
| ServerObject.Server.CreateSnapshotFor | src/simulation/snapshots.cpp:12-46 | one snapshot with the current tick |
| ServerObject.Server.AnswerJob | src/services/http/process/simulation/auth_validatetokenrequest_message.cpp:6-23 | files the answer under the id of the request |

## Left out

- ENet, libsodium, LZ4, cJSON, httplib, NATS and the engine: environment steps or assumed functions.
- The HTTP request and the JSON of its response: an arbitrary verdict with account data.
- The gameplay phases of the world, whose bodies are empty; only the gate is modelled.
- Entity, item, projectile and player tables, spawning and version packing: easy members only.
- `SimulationToHttpQueue::reset`, which clears the queue and is not called.
- Clock synchronisation, whose producer is commented out; its coalescing is modelled.
- The metrics publisher is modelled although its call in the tick is commented out.
- Input acknowledgement: nothing advances the last processed sequence number.
- Packet contents that nothing reads back (map name, tick rate, monotonic time) in the life of a
  connection; their bytes are in Packets. Lifecycle keeps ticks, statuses and ids.
- Logging, memory wiping of keys, Docker, Kubernetes and CMake files, key generation.
- Fragments: a fragment of n bytes is a sequence of length n; a pointer to fewer bytes than announced is not modelled.
- Literals: a hexadecimal escape above FF, whose value the standard leaves to the implementation, counts as unreadable.
- Metrics.Publisher.PublishIfNeeded: requires times in order and one second below 2^64, because beyond that the 64-bit sum wraps (`Metrics.FirstDeadlineIsLater`).
