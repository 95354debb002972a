# Lightning Link, verified

Lightning Link is an authoritative game server with client-side prediction over UDP. This project models
the path an input takes through it and back - input, session, world, snapshot, reconciliation - together
with the network conditioner, the interpolator, the binary codec and the line framing of the TCP baseline,
and proves what each of them, and all of them together, guarantee.

The objects the program updates in place are classes here (`Predictor`, `WorldState`, `SessionManager`,
`UdpSnapshotBroadcaster`, `Server`, `Client`, `LaggedSocket`, `Interpolator`, `BufferWriter`,
`BufferReader`, `TcpClient`). Each method is proved equal to a function of the old state, and the theorems
are about those functions and about runs of them.

| file | what it models |
|---|---|
| `Types.dfy` | constants, machine integers, shared records |
| `Motion.dfy` | direction, movement and arena arithmetic |
| `Prediction.dfy` | the input ring, prediction, reconciliation |
| `World.dfy` | the authoritative simulation and its input register |
| `Reconciliation.dfy` | bounds on corrections, lockstep, drift |
| `Wire.dfy`, `Serialization.dfy` | packet layouts, and the writer, reader, encoders and decoders |
| `Sessions.dfy`, `Server.dfy` | sessions, broadcaster, the server as a transition system and as an object |
| `Isolation.dfy`, `EndToEnd.dfy` | what one endpoint sees of a shared server |
| `Conditioner.dfy` | the delay queue of the socket wrapper |
| `Interpolation.dfy` | drawing remote players in the past |
| `Client.dfy`, `Protocol.dfy` | the client's protocol state, and the whole system over an unreliable network |
| `AckSafety.dfy` | exactly when acks are safe, with the executions in which they are not |
| `InStep.dfy` | lockstep over the whole system |
| `Channel.dfy` | two conditioned sockets and a wire as the network of `Protocol` |
| `Framing.dfy` | newline framing of the TCP baseline |

## Main results

- **Lockstep** (`NoCorrectionEverSeen`, `LockstepTransparentIff`, `LockstepRun`, `LockstepOnSharedServer`): in every
  execution of the whole system in which a client's inputs reach the server one per tick and no snapshot it
  processes is more than 120 inputs old, its position is after every action the plain replay of everything it
  did: no snapshot is ever visible. Datagrams are bytes, the network loses, delays, reorders and repeats them
  (but for join requests, and strangers send the client no snapshots), other clients join, time out and leave.
  The 120 are exact (`LockstepTransparentIff`). The four vector
  operations both sides share are arbitrary functions in all of this, so arithmetic may round; `AnyStepArises`
  shows that no step function is excluded. `Responsive` and `Faithful` say the little that is asked of them.
- **Drift** (`DriftBounded`, `DriftOnSharedServer`): under any loss, delay, duplication and reordering of
  inputs, server and client are at most 8 units apart per axis and tick on which the newest delivered
  input asks for another direction than the client's.
- **Ack safety** (`AcksSafeIff`, `SnapshotsAckOwnInputs`, `EveryInputAccounted`, `RetiredOnce`): in every
  execution of clients, server, strangers and a network that loses, delays, reorders and repeats datagrams, every
  snapshot on its way to a playing client acknowledges only numbers that client has sent - if and only if no join
  request is delivered twice and whatever strangers can get to a client is harmless (no accept with an id, no
  snapshot that lacks one of the eight ids or acknowledges anything). The client does not look at who sent what
  it receives (client/client.cpp:89-106, client/network_receiver.cpp:24-48), so the second half is needed.
  Repeats of anything else, in either direction, and anything at all that strangers send the server, are
  harmless: every number stays exactly one of pending, retired and aged out, and none is retired twice.
  Everything in transit is bytes. The failing halves (`RepeatedJoinMisleads`, `StraySnapshotMisleads`,
  `StrayAcceptMisleads`) are whole executions, one for every harmful datagram.
- **Isolation** (`RunIsolated`, `SessionLivesExactly`, `OwnInputsOnly`): the whole state a live session has
  on the shared server is that of a server of its own.
- **Agreement and broadcasts** (`RunAgrees`, `BroadcastTotal`, `BroadcastAccounting`, `OneSnapshotInThree`).
- **Conditioner** (`HistorySound`, `SteadyDelayIsFifo`, `LaggedSocket.Drain`): conservation, ordering, and a
  drain argument: what is waiting is delivered once each in deadline order, although each flush may stop early.
- **Sockets and network** (`SocketsRefineNetwork`, `HandedOverAtMostOnce`): a client and the server that talk through
  two conditioned sockets and a real network are an execution of `Protocol`, and a datagram is repeated only where
  the wire itself has doubled one: what `Protocol` asks of repeats is asked of the wire alone.
- **What each step does, field by field** (`ExactDisplacement`, `ExactVelocity`, `SnapshotOutcome`, `PressesRecorded`,
  `PressRemembered`, `WatchFeeds`, `LinesDone`, `InputsCounted`, `InputIsHeard`, the four `...Layout` lemmas): the operations
  against laws that do not mention the functions they are modelled by.
- **Interpolation** (`RenderPosition`, `IngestMovesOn`, `CurveSpeedLimited`, `IngestKeepsPast`): the bracket search draws a
  clamped piecewise-linear curve, which inherits the speed limit of its samples and whose past is stable.
- **Codec** (`RoundTrips`, the five `...Inverse` lemmas, `DecodersExclusive`): inverse in both directions.
- **Framing** (`ChunkingIrrelevant`).

## Where the code and its documentation differ

- `apply_input` accepts an equal sequence number (server/world_state.cpp:38), although the comment at
  server/world_state.hpp:32 asks for a greater one. The model accepts it; `CommuteIff` says what follows.
- The server clamps directions to {-1, 0, 1} (server/world_state.cpp:41-42), the predictor does not
  (client/prediction.cpp:7-12). `ClampAgreesIff` says for which directions this makes no difference: those on
  the axes and the diagonals, so not (2, 1). Lockstep and drift are about directions in {-1, 0, 1}, which is
  what the keyboard and the bots produce (client/client.cpp:49-61, client/bot.cpp:18-59).
- `StartsWithTie` is the one case in which the interpolator leaves the curve: two samples that share the
  millisecond to be drawn, at the very start of the history.
- A snapshot of nine or more players can be encoded but is refused by the decoder, so the round trip holds
  exactly up to eight (`SnapshotInverse`).

## Modelling choices

- The vector operations of common/ (`normalize_dir`, `*` and `+` of `Vec2`, the cast to `float`) are a parameter
  `VectorOps` of both sides. The bounds are about `ExactOps`, the operations over the reals, with `std::sqrt` as
  a parameter `root` of which they ask that a component of a vector is no longer than its root (`IsRoot`, which
  can be met: `RootsExist`). `ClampAgreesIff` asks for exact roots.
- Coordinates are real numbers; on the wire a float is its binary32 word, related to the coordinate by
  parameters `bits` and `value`.
- Which datagrams to the server the network may repeat is a parameter `mayRepeat` of `Protocol`; those to a
  client it always may. Which datagrams anybody may send to a client is a parameter `mayStray`.
- Clock readings, the loss coin, the jitter draw, the iteration order of hash maps, the choice among equal
  deadlines in the priority queue, and the text parsing of a line are inputs or left open.
- 32-bit counters wrap in the classes. Theorems that need a counter not to have wrapped say so.
- `given`, `retired`, `aged` and `acks` in `Protocol`, `log` and `lap` in `Predictor`, `wanted` and `original`
  in `BufferWriter`, and `ledger` and `history` in `LaggedSocket` are history variables.

## Model

| member | source | states |
|---|---|---|
| `Motion.NormalizedIsUnit` | common/math_utils.hpp:18-26 | a nonzero direction becomes a vector pointing the same way, as far from unit length as the root is off |
| `Motion.NormalizedWithinOne` | common/math_utils.hpp:18-26 | no component of a normalized direction exceeds 1, for any signed bytes |
| `Motion.ClampIsNearest` | common/math_utils.hpp:10-16 | clamping goes to the nearest point of the arena and fixes its points |
| `Motion.MoveNonExpansive` | client/prediction.cpp:7-12 | the same move never drives two positions apart |
| `Motion.MoveDiverges` | client/prediction.cpp:7-12 | two different moves drive positions apart by at most twice the speed times dt |
| `Motion.MoveStepBounded` | client/prediction.cpp:7-12 | a player in the arena stays in it and moves by at most the speed times dt per axis |
| `Motion.ExactDisplacement` | client/prediction.cpp:7-12 | inside the arena a move covers exactly 240 units a second along its direction, component by component, up to how far the root is off |
| `Motion.BorderReached` | common/math_utils.hpp:10-16 | a move ends on a border only if that displacement would have reached it |
| `Motion.AnyStepArises` | client/prediction.cpp:7-12 | every step function, once clamped to the arena, is `apply_move` for some vector operations |
| `Motion.ExactIsResponsive` | client/prediction.cpp:7-12 | over the reals one frame to the right from the centre is seen, and a player without a direction stays at either place |
| `Folding.SnapAndReplay` | client/prediction.cpp:37-50 | for any step function, snapping to a prefix and replaying the rest equals replaying everything |
| `ClientSpec.FrameTime` | client/client.cpp:261-262 | a frame time in (0, 0.25] is kept, any other replaced by the nominal one, which lies in that range |
| `Prediction.Predictor.constructor` | client/prediction.hpp:37-42 | an empty ring whose first number is 1 |
| `Prediction.Predictor.Push` | client/prediction.cpp:16-23 | the ring, its write slot and count keep holding the newest inputs of the log |
| `Prediction.Predictor.RecordAndStep` | client/prediction.cpp:15-27 | appends one input under the next number and moves at once |
| `Prediction.Predictor.FindInputBySeq` | client/prediction.cpp:29-35 | finds an input with the number iff the window holds one |
| `Prediction.Predictor.Reconcile` | client/prediction.cpp:37-50 | the result is the replay, from the authoritative position, of the window's inputs above the ack |
| `Prediction.WindowNumbers` | client/prediction.cpp:15-27 | the ring holds the last min(n,120) inputs with consecutive numbers ending at n |
| `Prediction.RingKeepsNewest` | client/prediction.cpp:41-49 | what is replayed is exactly the suffix of the log above the ack, cut at 120 |
| `Prediction.WindowLookup` | client/prediction.cpp:29-35 | a number is in the window iff it is one of the last 120, and names the input recorded under it |
| `World.ServerMovesAsClient` | server/world_state.cpp:50-55 | whatever the vector operations compute, one server tick moves a player exactly as the client's prediction step does, sets its velocity and leaves its register alone |
| `World.ExactVelocity` | server/world_state.cpp:50-53 | the velocity a tick sets is 240 units a second along the direction, component by component, up to how far the root is off; zero without a direction |
| `World.WorldState.constructor` | server/world_state.hpp:44-47 | an empty world at tick 0 |
| `World.WorldState.AddPlayer` | server/world_state.cpp:6-13 | adds a fresh player at the centre iff the id is unused |
| `World.WorldState.RemovePlayer` | server/world_state.cpp:15-17 | removes exactly that player |
| `World.WorldState.ApplyInput` | server/world_state.cpp:33-46 | accepts iff the player exists and the number is not older; changes only that player's register |
| `World.WorldState.StepTick` | server/world_state.cpp:48-57 | the loop steps every player once; the tick counter wraps at 32 bits |
| `World.WorldState.CollectPlayerStates` | server/world_state.cpp:59-66 | lists every player's state exactly once |
| `InputRegister.RegisterHoldsMaximum` | server/world_state.cpp:33-46 | after any inputs the seen and the acknowledged number are the maximum offered |
| `InputRegister.MaxSeqIsMaximum` | server/world_state.cpp:38-39 | that maximum bounds all offers and is one of them or the start |
| `InputRegister.NewestWins` | server/world_state.cpp:33-46 | the newest offered command is what the register holds, wherever in the sequence it came |
| `InputRegister.StaleIgnored` | server/world_state.cpp:38 | only stale offers: nothing changes |
| `InputRegister.FlagRaised` | server/world_state.cpp:33-46 | the pending flag is up iff it was or an offer was not stale; id, position and velocity stay |
| `InputRegister.DeliveryOrderIrrelevant` | server/world_state.cpp:33-46 | reordering or duplicating the inputs between two ticks gives the same player |
| `InputRegister.CommuteIff` | server/world_state.cpp:37-42 | two commands commute iff sharing a number means sharing the clamped direction |
| `InputRegister.DirectionsStayInRange` | server/world_state.cpp:40-42 | the simulated direction is always in {-1,0,1}; an accepted one in range is kept |
| `Clamping.ClampAgreesIff` | server/world_state.cpp:41-42 | with exact roots the clamp leaves the velocity as it was iff the direction is on an axis or a diagonal |
| `Clamping.SameDirection` | common/math_utils.hpp:18-26 | with exact roots a stretched direction normalizes to the same vector |
| `Correction.ReplayNonExpansive` | client/prediction.cpp:43-49 | replaying any inputs never increases the gap between two starts |
| `Correction.CorrectionBounded` | client/prediction.cpp:37-50 | reconcile moves a replayed position by at most the distance of the authoritative one from its start |
| `Correction.ReplayTravel` | client/prediction.cpp:43-49 | a replay from inside the arena stays inside and travels at most speed times total time |
| `Correction.ForgettingBounded` | client/prediction.cpp:41-49 | with more than 120 unacked, the result is within 240 times the forgotten time of the full replay |
| `Lockstep.ServerFollowsPrefix` | server/world_state.cpp:33-57 | for any vector operations: in lockstep the server after tick k is at the replay of the first k inputs and acks k |
| `Lockstep.LockstepTransparent` | client/prediction.cpp:37-50 | for any vector operations, rounded or not: reconciling against any tick at most 120 inputs old changes nothing |
| `Lockstep.LockstepTransparentIff` | common/constants.hpp:29 | the staleness bound is exact: transparency for all inputs iff n-k is at most 120, for any operations under which a step from the centre is seen and a player stands still at its two ends |
| `Lockstep.LockstepRun` | client/prediction.cpp:15-50 | for any vector operations: over any run with skipped, repeated and reordered snapshots the position is the replay of all inputs |
| `Drift.ServerActsOnNewest` | server/world_state.cpp:33-57 | the server simulates the newest delivered input's direction, whatever the delivery order |
| `Drift.DriftBounded` | server/world_state.cpp:33-57 | over the reals: per axis, at most 8 units of drift per tick with a mismatched direction |
| `WireTheorems.NetworkByteOrder` | common/serialization.cpp:29-42 | integers are laid out most significant byte first |
| `WireTheorems.JoinRequestInverse` | common/serialization.cpp:143-148 | decoding yields p iff the buffer starts with p's encoding |
| `WireTheorems.JoinAcceptInverse` | common/serialization.cpp:150-157 | decoding yields p iff the buffer starts with p's encoding |
| `WireTheorems.InputInverse` | common/serialization.cpp:159-167 | decoding yields p iff the buffer starts with p's encoding |
| `WireTheorems.DisconnectInverse` | common/serialization.cpp:192-197 | decoding yields p iff the buffer starts with p's encoding |
| `WireTheorems.SnapshotInverse` | common/serialization.cpp:169-190 | decoding yields p iff the buffer starts with p's encoding and p has at most eight players |
| `WireTheorems.SnapshotSize` | common/protocol.hpp:44-46 | a snapshot of n players takes 7+22n bytes |
| `WireTheorems.JoinLayouts` | common/protocol.hpp:10-24 | type numbers, sizes and offsets of join request and disconnect notice |
| `WireTheorems.AcceptLayout` | common/serialization.cpp:93-100 | every field of a join accept at its offset |
| `WireTheorems.InputLayout` | common/serialization.cpp:102-110 | every field of an input at its offset, directions as two's complement bytes |
| `WireTheorems.SnapshotLayout` | common/serialization.cpp:112-126 | the header and every field of every player at its offset |
| `WireTheorems.DecodersExclusive` | common/serialization.cpp:136-141 | no buffer is accepted by two decoders, and the accepting one is the peeked type |
| `WireTheorems.RoundTrips` | common/serialization.cpp:86-197 | every packet survives encoding, trailing bytes and decoding; a snapshot iff at most eight players |
| `Serialization.BufferWriter.constructor` | common/serialization.hpp:16-17 | an empty writer over the buffer |
| `Serialization.BufferWriter.PutU8` | common/serialization.cpp:24-28 | writes or fails for good; never outside the buffer, never behind the cursor's end |
| `Serialization.BufferWriter.PutU16` | common/serialization.cpp:29-35 | the same for two bytes |
| `Serialization.BufferWriter.PutU32` | common/serialization.cpp:36-42 | the same for four bytes |
| `Serialization.BufferWriter.PutI8` | common/serialization.cpp:43-45 | the same for a signed byte in two's complement |
| `Serialization.EncodeJoinRequest` | common/serialization.cpp:86-91 | 0 iff the buffer is too small, else exactly the layout and nothing behind it |
| `Serialization.EncodeJoinAccept` | common/serialization.cpp:93-100 | 0 iff the buffer is too small, else exactly the layout and nothing behind it |
| `Serialization.EncodeInput` | common/serialization.cpp:102-110 | 0 iff the buffer is too small, else exactly the layout and nothing behind it |
| `Serialization.PutRecords` | common/serialization.cpp:117-124 | the loop appends every player's record in order |
| `Serialization.EncodeSnapshot` | common/serialization.cpp:112-126 | 0 iff the buffer is too small, else exactly the layout and nothing behind it |
| `Serialization.EncodeDisconnect` | common/serialization.cpp:128-133 | 0 iff the buffer is too small, else exactly the layout and nothing behind it |
| `Serialization.BufferReader.GetU8` | common/serialization.cpp:51-55 | reads at the cursor or fails for good |
| `Serialization.BufferReader.GetU16` | common/serialization.cpp:56-63 | reads a big-endian 16-bit number or fails for good |
| `Serialization.BufferReader.GetU32` | common/serialization.cpp:64-71 | reads a big-endian 32-bit number or fails for good |
| `Serialization.BufferReader.GetI8` | common/serialization.cpp:72-77 | reads a signed byte or fails for good |
| `Serialization.DecodeJoinRequest` | common/serialization.cpp:143-148 | the cursor walk accepts exactly the buffers that start with an encoding |
| `Serialization.DecodeJoinAccept` | common/serialization.cpp:150-157 | the cursor walk accepts exactly the buffers that start with an encoding |
| `Serialization.DecodeInput` | common/serialization.cpp:159-167 | the cursor walk accepts exactly the buffers that start with an encoding |
| `Serialization.DecodeSnapshot` | common/serialization.cpp:169-190 | the cursor walk accepts exactly the buffers that start with an encoding of at most eight players |
| `Serialization.DecodeDisconnect` | common/serialization.cpp:192-197 | the cursor walk accepts exactly the buffers that start with an encoding |
| `Sessions.LeastFree` | server/session_manager.cpp:7-12 | the result is unused and every smaller id is taken; 0 only if all are |
| `Sessions.SessionManager.NextFreeId` | server/session_manager.cpp:7-12 | the loop finds the least unused id |
| `Sessions.SessionManager.RegisterOrGet` | server/session_manager.cpp:14-30 | keeps the maps inverse; an old endpoint keeps its id and is heard, a new one gets the least id or is refused |
| `Sessions.SessionManager.VerifyInput` | server/session_manager.cpp:43-46 | with inverse maps the lookup by endpoint decides ownership: true iff the claimed id is live and belongs to this endpoint |
| `Sessions.SessionManager.Touch` | server/session_manager.cpp:48-52 | changes only the endpoint's last-heard time |
| `Sessions.SessionManager.RemoveByEndpoint` | server/session_manager.cpp:75-81 | removes the session from both maps, which stay inverse |
| `Sessions.SessionManager.ReapTimeouts` | server/session_manager.cpp:54-73 | erasing while iterating removes exactly the expired sessions, each id reported once |
| `Sessions.SessionManager.AllEndpoints` | server/session_manager.cpp:83-88 | lists every endpoint once |
| `Sessions.AdmissionExact` | server/session_manager.cpp:14-30 | a newcomer is refused iff eight sessions are live, else gets the least unused id in 1..8 |
| `Sessions.AtMostEight` | server/session_manager.cpp:7-30 | as many ids as sessions, never more than eight |
| `Broadcasting.UdpSnapshotBroadcaster.constructor` | server/udp_snapshot_broadcaster.hpp:24-25 | both counters start at 0 |
| `Broadcasting.UdpSnapshotBroadcaster.SnapshotPayload` | server/udp_snapshot_broadcaster.cpp:10-12 | the fixed buffer holds the encoding iff there are at most eight players |
| `Broadcasting.UdpSnapshotBroadcaster.SendToEach` | server/udp_snapshot_broadcaster.cpp:14-17 | one datagram per recipient, in order, and its bytes counted |
| `Broadcasting.UdpSnapshotBroadcaster.Broadcast` | server/udp_snapshot_broadcaster.cpp:8-20 | the same encoding to every recipient, counted per recipient; nothing if it does not fit |
| `Broadcasting.TrafficIsProduct` | server/udp_snapshot_broadcaster.cpp:14-19 | n recipients of m players cost n*(7+22m) bytes |
| `ServerSpec.StepAgrees` | server/server.cpp:80-145 | every packet and every tick keeps session maps inverse and the world's ids equal to the sessions' |
| `ServerSpec.RunAgrees` | server/server.cpp:80-145 | so it holds in every reachable state |
| `ServerSpec.LivePlayers` | server/server.cpp:90-103 | one player per session, at most eight |
| `GameServer.Server.constructor` | server/server.cpp:17-18 | the empty server |
| `GameServer.Server.HandleDatagram` | server/server.cpp:82-125 | the packet switch on bytes is the transition function, and its replies are exactly the join accepts |
| `GameServer.Server.HandleJoin` | server/server.cpp:90-103 | the join branch |
| `GameServer.Server.HandleInput` | server/server.cpp:104-112 | the input branch: verified, touched, applied, counted |
| `GameServer.Server.HandleDisconnect` | server/server.cpp:113-122 | the disconnect branch: only the owner removes its session and player |
| `GameServer.Server.Reap` | server/server.cpp:130-135 | expired sessions and exactly their players disappear |
| `GameServer.Server.Tick` | server/server.cpp:129-145 | a tick is the transition function, and on every third one snapshot of every player goes to every session once |
| `GameServer.BroadcastTotal` | server/udp_snapshot_broadcaster.cpp:8-20 | in a reachable state the snapshot fits the buffer and decodes to the same tick and list |
| `GameServer.BroadcastAccounting` | server/udp_snapshot_broadcaster.cpp:14-18 | no broadcast is dropped; with n sessions it adds n*(7+22n) bytes and one snapshot |
| `GameServer.OneSnapshotInThree` | server/server.cpp:137-144 | after T ticks exactly T/3 snapshots have been counted, until the tick counter wraps |
| `GameServer.AcceptSays` | server/server.cpp:94-102 | an admitted join gets one accept, to the sender, with its id and the two arena words; nothing else is answered |
| `GameServer.ArenaWords` | common/constants.hpp:17-18 | the two words are the binary32 encodings of 1280 and 720 |
| `Isolation.StepIsolated` | server/server.cpp:80-145 | one step of the shared server is, for a live session, one step of a server of its own |
| `Isolation.RunIsolated` | server/server.cpp:80-145 | over any run the session's whole state is that of a server of its own |
| `Isolation.JoinStartsFresh` | server/server.cpp:90-103 | a newcomer starts afresh under the least free id, at the arena centre, at rest and with nothing acknowledged, or is refused if eight sessions are live |
| `Isolation.SoloLivesIffAttentive` | server/session_manager.cpp:54-73 | a session survives iff heard within 3 s before every tick and not disconnected by its owner |
| `Isolation.SessionLivesExactly` | server/session_manager.cpp:54-73 | the same on the shared server: it keeps its id, or the first violation removes it |
| `Isolation.OwnInputsOnly` | server/server.cpp:104-112 | ack and pending direction are the register its owner's inputs of this session alone would leave |
| `Isolation.OthersUntouched` | server/server.cpp:90-122 | a datagram from one endpoint leaves every other session and player untouched |
| `Isolation.InputsCounted` | server/server.cpp:104-112 | over any run the input counter grows by the inputs that owners of live sessions send for their own ids |
| `EndToEnd.PlayerIsItsTimeline` | server/server.cpp:104-145 | a live player is a function of its own commands grouped by tick |
| `EndToEnd.LockstepOnSharedServer` | client/prediction.cpp:37-50 | for any vector operations: on the shared server a client in step sees no correction |
| `EndToEnd.DriftOnSharedServer` | server/world_state.cpp:33-57 | on the shared server drift is at most 8 units per axis and mismatched tick |
| `Ledgers.AdmitKeeps` | common/lagged_socket.cpp:62-101 | offering a datagram keeps conservation and ordering |
| `Ledgers.ReleaseKeeps` | common/lagged_socket.cpp:103-116 | releasing the earliest matured one of its direction keeps both |
| `Ledgers.HistorySound` | common/lagged_socket.cpp:62-189 | after any history each datagram has exactly one fate, none left early, and each direction left in deadline order |
| `Ledgers.SteadyDelayIsFifo` | common/lagged_socket.cpp:82-154 | in either direction, with constant delay and increasing times, release is first in, first out |
| `Ledgers.EarliestExists` | common/lagged_socket.hpp:66-68 | a nonempty queue has an earliest entry |
| `Ledgers.TakeShrinks` | common/lagged_socket.cpp:167-183 | a receive hands over the earliest matured inbound datagram, cut to the capacity, and leaves the others, or there was none |
| `Ledgers.HandedOverCounts` | common/lagged_socket.cpp:167-183 | datagrams handed over one by one are as many as are missing from those that waited |
| `Conditioner.LaggedSocket.constructor` | common/lagged_socket.hpp:70-74 | an empty queue |
| `Conditioner.LaggedSocket.SendTo` | common/lagged_socket.cpp:62-101 | dropped, sent at once at zero delay, or queued until now plus the send latency and the jitter |
| `Conditioner.LaggedSocket.FlushOutbound` | common/lagged_socket.cpp:103-116 | sends matured outbound datagrams in order; one can remain only behind a matured inbound one |
| `Conditioner.LaggedSocket.Take` | common/lagged_socket.cpp:162-183 | pop-and-rebuild removes only the earliest matured inbound datagram, cut to the caller's capacity |
| `Conditioner.LaggedSocket.RecvFrom` | common/lagged_socket.cpp:118-184 | each arrival that is not lost enters the queue under the next serial, due the receive latency and the jitter after it came, a lost one never; what is handed over is due; the queue loses only what was sent and delivered |
| `Conditioner.LaggedSocket.Pump` | common/lagged_socket.cpp:186-189 | one flush |
| `Conditioner.LaggedSocket.ReceiveNext` | server/server.cpp:82-84 | one turn of the receive loop hands over the earliest waiting datagram, or nothing matured is left in either direction |
| `Conditioner.LaggedSocket.Drain` | server/server.cpp:80-84 | at a frozen clock what is delivered is the matured inbound datagrams, each once, in deadline order and cut to the capacity; if fewer than 256 wait it takes one call more than there are, and nothing matured is left in either direction |
| `Interpolation.Interpolator.Ingest` | client/interpolation.cpp:6-10 | appends and keeps the newest 32 |
| `Interpolation.IngestKeepsNewest` | client/interpolation.cpp:6-10 | the new sample and the newest 31 before it are kept in order; no other player is touched |
| `Interpolation.IngestMovesOn` | client/interpolation.cpp:6-10 | from a newer sample's time on the player is drawn where that sample has it |
| `Interpolation.IngestRefreshes` | client/interpolation.cpp:12-22 | a sample at most two seconds old makes its player visible |
| `Interpolation.StaleExactly` | client/interpolation.cpp:18-22 | stale iff the newest sample is more than two seconds old, or lies in the future and the difference wraps |
| `Interpolation.Interpolator.RenderPosition` | client/interpolation.cpp:12-50 | shown iff known and not stale; the position is what the bracket search finds, and with a clock that does not run backwards the clamped piecewise-linear curve, up to a tie at the start |
| `Interpolation.Interpolator.Search` | client/interpolation.cpp:29-49 | the search loop |
| `Interpolation.SearchStopsAtFirst` | client/interpolation.cpp:29-49 | for any history, even with decreasing times: the place found is on the first bracketing pair, and without one at the nearer end |
| `Interpolation.SearchedOnCurve` | client/interpolation.cpp:29-49 | with times that do not decrease the search finds the curve, up to a tie at the start |
| `Interpolation.Interpolator.Prune` | client/interpolation.cpp:52-62 | erasing while iterating keeps exactly the histories that are not stale |
| `Interpolation.CurveOnSegment` | client/interpolation.cpp:29-42 | between neighbours the curve is their linear interpolant |
| `Interpolation.CurveOnFirstBracket` | client/interpolation.cpp:29-42 | the first bracket gives the curve; a zero-length one can only be the first pair |
| `Interpolation.CurveOutside` | client/interpolation.cpp:45-49 | outside the samples the curve holds the end values |
| `Interpolation.CurveInHull` | client/interpolation.cpp:28-49 | every drawn coordinate lies between received ones |
| `Interpolation.CurveSpeedLimited` | client/interpolation.cpp:28-49 | drawn motion is never faster than received motion, between any two times |
| `Interpolation.IngestKeepsPast` | client/interpolation.cpp:6-10 | a newer sample, even evicting the oldest, does not change the drawn past |
| `GameClient.Client.constructor` | client/client.cpp:135-139 | starts at the arena centre with nothing pending |
| `GameClient.Client.HandleSnapshot` | client/client.cpp:193-252 | learn, watch, reconcile or snap, retire: the whole drain step as a function of the old state |
| `GameClient.Client.LearnAndWatch` | client/client.cpp:197-206 | every record overwrites what was known; all but the own one feed the interpolator |
| `GameClient.Client.Retire` | client/client.cpp:222-250 | erasing while iterating removes exactly the numbers up to the ack |
| `ClientLaws.LearnsLast` | client/client.cpp:197-198 | of several records of a player the last one is what is known |
| `ClientLaws.LearnKeepsOthers` | client/client.cpp:197-198 | players without a record stay as last known |
| `ClientLaws.WatchFeeds` | client/client.cpp:199-205 | every other player's samples join its history, of which the newest 32 are kept; the client's own records do not |
| `ClientLaws.SnapshotOutcome` | client/client.cpp:208-250 | with prediction on the position is the replay from the last own record, with prediction off it is that record's; pending loses exactly the numbers up to its ack |
| `ClientLaws.SnapshotOfOthers` | client/client.cpp:208-250 | a client never told of itself stays where it is and retires nothing |
| `ClientLaws.PressesRecorded` | client/client.cpp:261-274 | over any run of presses each takes the next number and is recorded, (0,0) with prediction off, with its frame time; the position moves by those made with prediction on |
| `ClientLaws.PressRemembered` | client/client.cpp:286-299 | a press is pending under its number with its send time and position; with more than 256 pending exactly those older than two seconds go |
| `ClientLaws.AgedExactly` | client/client.cpp:294-296 | aged iff more than two seconds old, or stamped in the future and the difference wraps |
| `GameClient.Client.HandleInput` | client/client.cpp:256-299 | record, send, remember, age out: the whole send step with its two readings of the clock, and the bytes it sends |
| `GameClient.Client.Record` | client/client.cpp:265-274 | with prediction off the number advances but (0,0) is recorded and the position stays |
| `GameClient.Client.DropAged` | client/client.cpp:293-299 | removes exactly the samples older than two seconds |
| `GameClient.Client.Remember` | client/client.cpp:286-299 | the sent input joins the pending ones under the first reading of the clock; with more than 256 those aged at the second go |
| `GameClient.Client.Packet` | client/client.cpp:276-283 | the bytes handed to the socket are the encoded input |
| `Protocol.NextKeepsInv` | client/client.cpp:89-299 | every action of clients, server, strangers and network keeps the system invariant in benign surroundings |
| `Protocol.ExecutionKeepsInv` | server/server.cpp:80-145 | the invariant holds throughout every execution in benign surroundings |
| `Protocol.SnapshotArrivesIntact` | client/client.cpp:197-198 | what a client reads out of a broadcast is the server's state player by player, for coordinates that are binary32 numbers |
| `Protocol.SnapshotWords` | server/udp_snapshot_broadcaster.cpp:8-12 | each coordinate of a broadcast travels as its own word |
| `Protocol.RecordsRead` | common/serialization.cpp:177-188 | each word of a record is read into its own place |
| `Protocol.SnapshotsAckOwnInputs` | server/server.cpp:137-144 | in benign surroundings every snapshot in transit to a playing client holds its record and acks a number below its next one, and one to any client does so or is blank |
| `Protocol.EveryInputAccounted` | client/client.cpp:221-299 | in benign surroundings every sent number is exactly one of pending, retired, aged out; pending ones exceed every processed ack, retired ones are covered by one |
| `Protocol.RetiredOnce` | client/client.cpp:221-250 | in benign surroundings a processed snapshot retires exactly the pending numbers up to its own ack, none a second time |
| `Protocol.LeavingEnds` | server/server.cpp:113-122 | a leaving client's notice ends its session when it arrives |
| `Protocol.InputIsHeard` | client/client.cpp:276-283 | in benign surroundings a playing client's next input, arriving while its session lives, is heard as its own, with its number and both directions in place |
| `AckSafety.AcksSafeIff` | client/network_receiver.cpp:24-48 | in every execution every snapshot in transit to a playing client acks only numbers it has sent, iff no join request is repeated and strangers can send clients nothing but harmless datagrams |
| `Duplication.RepeatedJoinMisleads` | server/session_manager.cpp:14-30 | a failing half: an execution with a repeated join that ends with another player's ack on its way to a playing client that has sent nothing |
| `Strangers.StraySnapshotMisleads` | client/network_receiver.cpp:24-48 | a failing half: for every snapshot that lacks an id or acks something for it, an execution in which it reaches the player with that id, who has sent nothing |
| `Strangers.StrayAcceptMisleads` | client/client.cpp:89-106 | a failing half: for every accept with an id, an execution in which a client takes it and is then sent a snapshot that misleads it |
| `Stage.SomethingSent` | server/server.cpp:137-144 | after any tick of an agreeing server there is something it can have sent, so a tick is never blocked |
| `SystemLockstep.ExecutionInStep` | client/client.cpp:193-299 | the invariant behind it: the position replays the log, the server is at the replay of what it acked, and so is every record in transit |
| `SystemLockstep.NoCorrectionEverSeen` | client/client.cpp:193-299 | in every execution whose inputs reach the server one per tick and whose processed snapshots are at most 120 inputs old, the position is always the plain replay of everything recorded |
| `SystemLockstep.ReconciledInStep` | client/prediction.cpp:37-50 | snapping to where a prefix of at most 120 fewer inputs led and replaying the rest is replaying all |
| `Channels.StepConserves` | common/lagged_socket.cpp:62-189 | a step of two sockets and a wire changes the copies in transit by what it sends, doubles, loses and hands over |
| `Channels.HandedOverAtMostOnce` | common/lagged_socket.cpp:62-189 | over any history the sockets hand over no more copies than were sent and doubled on the wire |
| `ChannelRefinement.UpStepRefines` | common/lagged_socket.cpp:62-189 | each step inside the sockets and on the wire is a loss or, only if the wire doubles, a repeat of the protocol towards the server |
| `ChannelRefinement.DownStepRefines` | common/lagged_socket.cpp:62-189 | the same towards the client |
| `ChannelRefinement.SocketsRefineNetwork` | common/lagged_socket.cpp:62-189 | whatever a client, the server, two sockets and a wire do is an execution of the protocol, without repeats unless the wire doubles |
| `Framing.TcpClient.constructor` | server/tcp_baseline.cpp:35-40 | an empty buffer |
| `Framing.TcpClient.ProcessLines` | server/tcp_baseline.cpp:71-94 | the find-and-erase loop handles exactly the complete lines, in order, leaves the residue, and has the effect of the commands in them |
| `Framing.TcpClient.HandleOne` | server/tcp_baseline.cpp:76-92 | an empty line does nothing, IN offers one input with its directions cast to a byte, BYE marks for removal |
| `Framing.FrameConcat` | server/tcp_baseline.cpp:73-76 | what follows a residue completes the stream |
| `Framing.ResidueHasNoNewline` | server/tcp_baseline.cpp:73-75 | the residue is newline-free |
| `Framing.ChunkingIrrelevant` | server/tcp_baseline.cpp:71-94 | however the stream is cut, the same lines are handled and the same residue is left |
| `Framing.LinesDone` | server/tcp_baseline.cpp:71-94 | the lines of a stream offer their IN commands to the own player in order, count them, mark on BYE and touch nobody else |
| `Framing.StreamDone` | server/tcp_baseline.cpp:71-94 | the same over a whole connection, however it is cut |
| `Framing.LineSteers` | server/tcp_baseline.cpp:83-88 | an IN line with a number that is not stale sets the two directions, each in its place |
| `Framing.CastKeeps` | server/tcp_baseline.cpp:86-87 | the cast to a signed byte keeps its values and forgets multiples of 256 |
| `Framing.AllocId` | server/tcp_baseline.cpp:42-49 | the least id no connected client has, 0 if there is none |

## Left out

- Real sockets, address resolution, threads, sleeping, signals: foreign calls. Each conditioner call is one atomic step.
- Renderer, HUD, keyboard, bots, CSV logging, analysis scripts: no protocol state.
- `SnapshotQueue`: the queue between receive thread and main loop only adds delay in order, which the network of `Protocol` already allows; a delivered snapshot is processed at once.
- The size of float rounding, NaN, infinities: bounds are over the reals, lockstep is about any operations on real coordinates, the codec carries opaque words.
- The 64-bit deadlines of the conditioner and the microsecond clock are unbounded.
- Receive buffers of 64 and 1200 bytes in front of the decoders: every packet of the protocol that matters there is shorter.
- Forged sender addresses: in `Protocol` a datagram to the server carries the endpoint that sent it.
- A port reused by a later client process: in `Protocol` an endpoint is one client, which joins once.
- Several clients' sockets at once: `SocketsRefineNetwork` refines one client's direction to the server at a time, the other direction step by step.
- TCP accept and read loop, removal after BYE or end of stream, and the text of `SS` lines, which is lossy: framing claims stop at `process_lines`. Its `last_input` timestamp is never read and is not modelled.
- The TCP baseline client and its own conditioner.
- EndToEnd.LockstepOnSharedServer: prediction is on throughout and every recorded frame time is the nominal one; while prediction is off the client records (0,0) but sends the real input (client/client.cpp:268-280), which `HandleInput` models but lockstep does not cover.
- Motion.NormalizedIsUnit: the quotients are real numbers; binary32 ones round.
- Clamping.ClampAgreesIff: assumes exact roots and real quotients; binary32 velocities of stretched diagonals may differ in the last bit.
- Clamping.SameDirection: assumes exact roots, as above.
- SystemLockstep.NoCorrectionEverSeen: asks for prediction on and nominal frame times, as lockstep does, and that moves end on numbers the wire can carry, which binary32 moves do.
