# Verified model of the Hypertron ROS 2 bridge core

The bridge drives a legged robot through a vendor SDK and receives its LiDAR
over UDP. This project models its five stateful components and proves what
they keep over every input, every call history and every interleaving.

| component | files | form |
|---|---|---|
| LiDAR datagrams (UDP 6100) | `LidarWire.dfy` | functions, plus the decode loop and the parser as methods |
| Frame assembler | `FrameAssembler.dfy`, `AssemblerInvariants.dfy`, `AssemblerRoundTrip.dfy`, `AssemblerVerdict.dfy` | a class proved against functions on its state; invariants and a reference receiver |
| Datagrams to frames | `LidarStream.dfy` | composition of the two |
| Safety controller | `ModeNames.dfy`, `RobotController.dfy`, `ControllerHistory.dfy`, `ControllerMeaning.dfy` | a class proved against functions; theorems over call histories |
| Command queue | `CommandQueue.dfy` | a class proved against functions |
| Driver runtime | `DriverRuntime.dfy`, `RuntimePromises.dfy`, `RuntimeSafety.dfy`, `RuntimeVerdict.dfy`, `RuntimeRequest.dfy`, `RuntimeIdentity.dfy`, `RuntimeMismatch.dfy`, `RuntimeResponse.dfy`, `RuntimeMotion.dfy`, `RuntimeAnswers.dfy`, `RuntimeAuthority.dfy`, `RuntimeSteps.dfy` | interleaved step system of one worker, any callers and status reports |
| SDK adapter lifecycle | `SdkAdapter.dfy`, `AdapterInvariants.dfy`, `AdapterTheorems.dfy` | interleaved step system of any number of threads |
| Device clock mapper | `ClockMapper.dfy` | a class proved against functions |

`dafny verify dfyconfig.toml` checks the whole project.

How to read it:

- The assembler, the controller, the queue and the clock mapper change state in
  place; each is a class whose methods equate the new state with a function of
  the old one. The theorems are about those functions.
- `DriverRuntime.Step` takes one critical section of the wake mutex, one
  controller call or one SDK call. `SdkAdapter.Step` takes one gate section,
  one acquisition or release of the lifecycle or teardown mutex, or the return
  of a vendor call or project callback. Theorems quantify over every sequence
  of such steps from the start state.
- The clock, the results of SDK calls, timer expiry, snapshots, network
  preflight and vendor deliveries are parameters of the steps.
- Points are decoded by an arbitrary function of the raw integers that may
  fail, velocities are reals with a flag for non-finite input, integers are
  unbounded except where a width matters (wire fields, `ClockMapper.NoOverflow`).

Findings:

- One header comment calls the packet index a sequence number
  (include/hypertron_ros2_bridge/lidar_stream.hpp:144); the code uses it as a
  point offset within the frame (src/lidar_stream.cpp:417-425). The model
  follows the code.
- Two branches of the assembler never run: the point-budget conflict
  (`BudgetNeverFires`) and the final size mismatch (`CompleteMeansExact`).
- The controller's motion gate starts open, so the first session accepts a
  velocity without any mode request (`FirstSessionNeedsNoRequest`). `GateOpenIff`
  gives the exact condition; after a disconnect the full chain is needed
  (`NoRestoration`).
- In the runtime, the poll-time timeout and the unmapped-mode branch never run
  (`DeadBranches`), and the promise helper's catch for a second answer never
  has anything to catch (`AnsweredExactlyOnce`).
- The controller's pending transition has no identity, so a mode request
  accepted in one session can be enqueued in the next, after another request was
  accepted there. `StandOpensGate` is such a run: a confirmed stand opens the
  motion gate because the controller was waiting for move. `ConfirmedModeIff`
  says exactly when the confirmed mode is the awaited one, and `SerialConfirms`
  and `SerialGate` that one unanswered mode request at a time is enough.
- A repeat that arrives after its frame was published starts the frame anew. A
  frame is published again whenever its pieces arrive again in full
  (`LateRepeatPublishesAgain`); `ExactlyOnce` gives the exact condition.
- An unknown mode whose name contains "pending" is answered as busy, because the
  runtime looks for the word in the reason text (`UnknownModeAnswer`).
- An adapter teardown that finds nothing to drain still publishes
  Uninitialized. When another thread's init is accepted before that
  publication, the new generation is overwritten (`WindowIsReal`);
  `OverwriteIff` shows that this window is the only way, and `SingleOwnerSafe`
  that one owning thread excludes it. After it a deinit can return while the
  overwritten init goes on, and a callback then runs (`DeinitNotFinal`);
  `DeinitFinalIff` is the exact condition.

## Model

| member | source | states |
|---|---|---|
| `FrameAssembler.PointCloudFrameAssembler.constructor` | src/lidar_stream.cpp:350-356 | starts with max(1, parallel cap) empty slots and zero counters |
| `FrameAssembler.PointCloudFrameAssembler.SlotForTimestamp` | src/lidar_stream.cpp:358-402 | returns the active slot of the timestamp, else the first free one, else evicts the oldest activation and counts the drop; other slots unchanged |
| `FrameAssembler.PointCloudFrameAssembler.AddPacket` | src/lidar_stream.cpp:404-544 | whole new state and published frame of one call equal the specification step, in every reject, conflict, duplicate, store and publish case |
| `FrameAssembler.PointCloudFrameAssembler.FinalizeSlot` | src/lidar_stream.cpp:547-566 | clears an active slot and bumps only the counter of the reason; an inactive slot is left alone |
| `FrameAssembler.PointCloudFrameAssembler.Expire` | src/lidar_stream.cpp:568-579 | the loop over the slots equals the specification of expiry |
| `FrameAssembler.PointCloudFrameAssembler.InFlightCount` | src/lidar_stream.cpp:581-589 | returns the number of active slots |
| `FrameAssembler.PointCloudFrameAssembler.PlacePacket` | src/lidar_stream.cpp:451-543 | duplicate, packet cap, neighbour overlap, budget and storage in the source's order |
| `FrameAssembler.PointCloudFrameAssembler.ScanComplete` | src/lidar_stream.cpp:503-518 | the ordered scan succeeds exactly when the stored ranges run gap-free from zero to the total |
| `FrameAssembler.PointCloudFrameAssembler.GatherPoints` | src/lidar_stream.cpp:524-533 | the gathered points are the stored chunks in offset order |
| `AssemblerInvariants.NeighboursSuffice` | src/lidar_stream.cpp:471-486 | testing only the two neighbours decides separation from every stored range, both directions |
| `AssemblerInvariants.SumDecidesScan` | src/lidar_stream.cpp:503-518 | for disjoint ranges inside the frame, sizes add up to the total exactly when the ordered scan succeeds |
| `AssemblerInvariants.ScanDecidesCover` | src/lidar_stream.cpp:503-518 | the scan succeeds exactly when every point position is covered |
| `AssemblerInvariants.BudgetNeverFires` | src/lidar_stream.cpp:488-495 | in a well-formed slot a separate in-range packet never exceeds the total or the point cap |
| `AssemblerInvariants.CompleteMeansExact` | src/lidar_stream.cpp:503-539 | completion, exact cover and sum equal to total coincide, and a complete slot gathers exactly the declared number of points |
| `AssemblerInvariants.PacketOk` | src/lidar_stream.cpp:404-544 | one call keeps every slot sorted, disjoint, in range and incomplete with distinct timestamps, and balances the packet and frame ledgers |
| `AssemblerInvariants.ExpiryOk` | src/lidar_stream.cpp:568-579 | expiry keeps the invariant, clears exactly the stale slots and counts each one |
| `AssemblerInvariants.Conservation` | src/lidar_stream.cpp:385-579 | over any run: calls = accepted + duplicated + rejected + conflicts, and activations = published + timed out + conflicts + evicted + in flight |
| `AssemblerInvariants.RunBufferBound` | src/lidar_stream.cpp:463-501 | no run buffers more points than parallel cap times point cap |
| `AssemblerRoundTrip.SeenAllIffFull` | src/lidar_stream.cpp:503-518 | the stored sizes reach the total exactly when every piece of the frame has been stored |
| `AssemblerRoundTrip.RepeatPiece` | src/lidar_stream.cpp:451-461 | an exact repeat changes nothing but the duplicate counter |
| `AssemblerRoundTrip.PlacePiece` | src/lidar_stream.cpp:451-543 | storing any piece of an unfinished frame loses nothing, touches no other slot, and publishes the original points exactly when it was the last missing one |
| `AssemblerRoundTrip.DeliverTracks` | src/lidar_stream.cpp:404-544 | one packet of any frame keeps the simulation with a receiver that only remembers which pieces arrived since the last publication, with the same output |
| `AssemblerRoundTrip.IdleTracks` | src/lidar_stream.cpp:568-579 | expiry before any frame is too old changes nothing |
| `AssemblerRoundTrip.Refinement` | src/lidar_stream.cpp:358-544 | over any interleaving with at most the parallel cap of unfinished frames, repeats before and after publication included, outputs equal the reference receiver's and nothing is rejected, dropped, expired or evicted |
| `AssemblerRoundTrip.RoundTrip` | src/lidar_stream.cpp:404-544 | a delivery publishes its frame, complete and in order, exactly when with it the pieces since the frame's last publication become all pieces; otherwise nothing |
| `AssemblerRoundTrip.ExactlyOnce` | src/lidar_stream.cpp:404-544 | a frame is published if and only if all its pieces arrived, and exactly once if and only if the deliveries after its first completion do not bring all its pieces again |
| `AssemblerRoundTrip.PublishedPerCompletion` | src/lidar_stream.cpp:404-544 | a frame is published once per completion of its pieces |
| `AssemblerRoundTrip.LateRepeatPublishesAgain` | src/lidar_stream.cpp:393-400 | the piece of a one-piece frame, delivered again after publication, publishes the frame a second time |
| `AssemblerRoundTrip.PublishesOwnPoints` | src/lidar_stream.cpp:524-543 | every publication of a run carries the points of the frame with its timestamp |
| `AssemblerVerdict.PacketVerdict` | src/lidar_stream.cpp:441-543 | over the stored chunks of a frame being collected: the frame is dropped as a conflict if and only if the total differs, the offset is stored with other points, or below the packet cap some stored range clashes; a duplicate if and only if that very chunk is stored; rejected by the cap, stored or published exactly in the remaining cases, a published frame having every chunk at its offset |
| `AssemblerVerdict.NewFrameVerdict` | src/lidar_stream.cpp:358-402 | the first packet of a frame takes a free slot while there is one and otherwise evicts the earliest activation, is stored there, and publishes at once exactly when it is the whole frame |
| `AssemblerVerdict.BadPacketVerdict` | src/lidar_stream.cpp:404-433 | an unparsed packet or an inadmissible total is only counted; an out-of-range packet drops the frame being collected, or is only counted |
| `AssemblerVerdict.ExpiryVerdict` | src/lidar_stream.cpp:568-579 | exactly the slots active for the timeout or longer are emptied |
| `LidarWire.DecodeRecords` | src/lidar_stream.cpp:157-183 | the decode loop yields the decoded records in order, or nothing when some coordinate does not decode |
| `LidarWire.TryLayout` | src/lidar_stream.cpp:110-187 | one layout attempt accepts and returns exactly what the layout's specification says, with every read inside the buffer |
| `LidarWire.ParsePointCloudPacket` | src/lidar_stream.cpp:315-344 | invalid scales reject; otherwise the packed layout, then the aligned one; a point that does not decode rejects the datagram |
| `LidarWire.LayoutsExclusive` | src/lidar_stream.cpp:101-138 | packed lengths are 22 and aligned lengths 2 modulo 28, so no byte string passes both length tests and trying aligned first would give the same result |
| `LidarWire.TailLength` | src/lidar_stream.cpp:128-140 | an accepted length fixes the remainder modulo 28, and both tail forms put the marker in the last two bytes, so they agree where they coincide |
| `LidarWire.PointCodec` | src/lidar_stream.cpp:30-51 | decoding a 28-byte point record inverts encoding it, both directions |
| `LidarWire.ReadersLittleEndian` | src/lidar_stream.cpp:30-51 | every reader yields the little-endian value of its bytes, the signed one in two's complement |
| `LidarWire.EncodeParses` | src/lidar_stream.cpp:110-187 | every encoding, in either layout, with either tail and any padding, parses back to its packet |
| `LidarWire.ParseIsEncoding` | src/lidar_stream.cpp:110-187 | whatever parses is an encoding of the parsed packet |
| `LidarWire.ParseIffEncoding` | src/lidar_stream.cpp:315-344 | the accepted datagrams are exactly the encodings |
| `LidarStream.WireRefines` | src/lidar_stream.cpp:798-828 | receiving encoded pieces is receiving the pieces, over whole runs |
| `LidarStream.WireRoundTrip` | src/lidar_stream.cpp:798-828 | cut frames into pieces of 1 to 50 points, encode each in any form, interleave and repeat at will: a datagram yields its frame exactly when with it the pieces since the last publication become all pieces, and nothing otherwise |
| `LidarStream.GarbageIgnored` | src/lidar_stream.cpp:808-824 | a datagram that is no encoding of a packet whose points decode changes nothing |
| `RobotController.Create` | src/robot_controller.cpp:35-41 | construction fails exactly for a non-positive deadman; otherwise nothing is stored, no latch is set and the gate is open |
| `RobotController.SafetyController.ForceZeroVelocity` | src/robot_controller.cpp:233-237 | clears the stored velocity and restamps it |
| `RobotController.SafetyController.AcceptCommand` | src/robot_controller.cpp:43-62 | stores and returns the clamped command when finite and movement is ready, otherwise forces zero |
| `RobotController.SafetyController.VelocityForTick` | src/robot_controller.cpp:64-71 | returns the stored value only if ready, present and within the deadman |
| `RobotController.SafetyController.Trigger` | src/robot_controller.cpp:73-78 | latches and forces zero |
| `RobotController.SafetyController.Clear` | src/robot_controller.cpp:80-86 | unlatches and forces zero |
| `RobotController.SafetyController.Request` | src/robot_controller.cpp:88-132 | the name is normalized and looked up; the first failing test decides the refusal; an accepted request arms the pending mode, closes the gate and forces zero |
| `ModeNames.NormalizedMode` | src/robot_controller.cpp:14-31 | the two scans and the conversion compute the trimmed lower-case name |
| `ModeNames.NameInsensitive` | src/robot_controller.cpp:14-31 | outer blanks and letter case never change the normalized name, and normalizing twice is normalizing once |
| `ModeNames.TableMeaning` | src/robot_controller.cpp:89-94 | the table holds exactly the documented names and codes |
| `RobotController.SafetyController.Complete` | src/robot_controller.cpp:134-142 | clears the pending mode; the gate opens only for a successful move transition |
| `RobotController.SafetyController.SetDriverReady` | src/robot_controller.cpp:144-153 | arming changes only readiness; disarming closes the gate and forces zero |
| `RobotController.SafetyController.InvalidateConnection` | src/robot_controller.cpp:160-169 | readiness and pending mode are cleared, the gate closed, the latch kept |
| `RobotController.SafetyController.UpdateRobotState` | src/robot_controller.cpp:171-184 | a loss clears the pending mode and closes the gate; any unready result forces zero |
| `ControllerHistory.StoredImpliesReady` | src/robot_controller.cpp:43-86 | in every history a stored velocity implies an open movement gate |
| `ControllerHistory.TickTestRedundant` | src/robot_controller.cpp:64-71 | the readiness test inside the tick never changes its result |
| `ControllerHistory.TickProvenance` | src/robot_controller.cpp:43-184 | a tick sends v if and only if v is the clamp of one earlier accepted command no older than the deadman, with the gate open in every state since and no rejected velocity, estop change, accepted request, completion or invalidation |
| `ControllerHistory.ReadyMeaning` | src/robot_controller.cpp:144-169 | readiness holds exactly when some set_driver_ready(true) was not followed by a disarming or a disconnect |
| `ControllerHistory.PendingMeaning` | src/robot_controller.cpp:127-142 | a pending transition is one accepted request for that mode that no call has cleared since |
| `ControllerHistory.GateOpenIff` | src/robot_controller.cpp:127-184 | the gate is open if and only if no call ever closed it or an accepted move request was completed with nothing closing it since |
| `ControllerHistory.FirstSessionNeedsNoRequest` | src/robot_controller.cpp:35-62 | a history without any mode request in which a velocity is accepted |
| `ControllerHistory.NoRestoration` | src/robot_controller.cpp:88-184 | after any disconnect an accepted velocity is preceded, in order, by arming, an accepted move request and the completion of that request, with no loss in between |
| `ControllerHistory.LatchMeaning` | src/robot_controller.cpp:73-86 | the latch is set exactly when the last trigger or clear was a trigger |
| `ControllerMeaning.GrantedIff` | src/robot_controller.cpp:88-132 | from the calls alone: a mode request is accepted if and only if the mode is known, the driver armed, nothing pending, the last report free of loss, and the latch not set unless the mode is damping |
| `ControllerMeaning.MayMoveIff` | src/robot_controller.cpp:225-231 | from the calls alone: the movement gate is open if and only if armed, gate open, nothing pending, last report with link, authority, 0xB104 and no error, and the last latch call no trigger |
| `ControllerMeaning.AcceptsIff` | src/robot_controller.cpp:43-62 | a velocity is accepted if and only if its components are finite and the movement gate is open in that sense |
| `ControllerMeaning.TickFromCalls` | src/robot_controller.cpp:43-184 | from the calls alone: a tick sends v if and only if v is one submitted command, each component limited to [-1, 1], no older than the deadman, with the movement gate open ever since and no call discarding it |
| `CommandQueue.Create` | include/hypertron_ros2_bridge/thread_safe_queue.hpp:22-27 | construction fails exactly for a zero capacity; otherwise the queue is open and empty |
| `CommandQueue.ThreadSafeQueue.TryPush` | include/hypertron_ros2_bridge/thread_safe_queue.hpp:32-48 | refuses when closed or full under RejectNew, otherwise appends, dropping the oldest when full |
| `CommandQueue.ThreadSafeQueue.TryPop` | include/hypertron_ros2_bridge/thread_safe_queue.hpp:50-53 | removes and returns the front item, or nothing |
| `CommandQueue.ThreadSafeQueue.Close` | include/hypertron_ros2_bridge/thread_safe_queue.hpp:61-67 | closes and keeps the items |
| `CommandQueue.ThreadSafeQueue.Size` | include/hypertron_ros2_bridge/thread_safe_queue.hpp:74-77 | the number of items, within capacity and positive exactly when the next pop yields an item |
| `CommandQueue.RejectNewIsLossless` | include/hypertron_ros2_bridge/thread_safe_queue.hpp:32-53 | taken items followed by queued items are exactly the accepted ones, in order, within capacity |
| `CommandQueue.DropOldestKeepsNewest` | include/hypertron_ros2_bridge/thread_safe_queue.hpp:32-53 | the queue is always a suffix of the accepted items |
| `CommandQueue.ClosingStopsPushes` | include/hypertron_ros2_bridge/thread_safe_queue.hpp:32-67 | a closed queue accepts nothing but still hands out its items; an open one with room accepts everything |
| `CommandQueue.ClosedStays` | include/hypertron_ros2_bridge/thread_safe_queue.hpp:61-72 | a queue is closed exactly when close was called |
| `RuntimePromises.RunAccounted` | src/direct_driver_runtime.cpp:170-294 | in every reachable state answers plus places holding a promise equal one for issued promises and zero for others |
| `RuntimePromises.AnsweredExactlyOnce` | src/direct_driver_runtime.cpp:698-972 | an issued future is answered once and held nowhere, or unanswered and held in exactly one place; outside a session queue, transition and estop slot are empty |
| `RuntimeSafety.PendingHasOwner` | src/direct_driver_runtime.cpp:251-294 | a controller-side pending transition always has a caller between accept and enqueue, a queued command, the command handled, the armed transition or (only when not connected) the teardown to settle it |
| `RuntimeSafety.VelocityTracking` | src/direct_driver_runtime.cpp:498-528 | the nonzero flag is exact, except that it lags behind an accepted zero during the damping call that follows; set_mode for a queued command runs only at zero velocity; a tick whose move does not fail leaves the SDK at the tick target |
| `RuntimeVerdict.RunEvident` | src/direct_driver_runtime.cpp:698-828 | every armed transition is backed by a successful set_mode of the current session and every logged success by a timely snapshot |
| `RuntimeVerdict.ModeVerdict` | src/direct_driver_runtime.cpp:793-818 | a mode future succeeds only after set_mode succeeded for it and a later snapshot of the same session showed the stable status in a pass begun before the deadline |
| `RuntimeVerdict.DeadBranches` | src/direct_driver_runtime.cpp:746-817 | the poll-time timeout and the unmapped-mode branch are unreachable |
| `RuntimeRequest.RunMatches` | src/direct_driver_runtime.cpp:251-294 | wherever an accepted request travels, the mode with it is the mode it asked for |
| `RuntimeRequest.RequestedModeVerdict` | src/direct_driver_runtime.cpp:698-818 | a mode future succeeds only if set_mode succeeded for the mode it asked for and a later snapshot of the same session showed the status paired with that mode, in a pass begun within the timeout of that call |
| `RuntimeRequest.StableTable` | src/direct_driver_runtime.cpp:62-81 | the confirming status of a mode is exactly the documented pair |
| `RuntimeRequest.UnknownModeAnswer` | src/direct_driver_runtime.cpp:86-93 | an unknown name is answered busy if its normalized form contains the word pending, and invalid otherwise |
| `ModeNames.ReasonMentions` | src/direct_driver_runtime.cpp:86-93 | the reason text contains that word exactly when the normalized name does |
| `RuntimeIdentity.ConfirmedModeIff` | src/direct_driver_runtime.cpp:793-812 | when the worker confirms a transition the controller still waits for, the confirmed mode is the controller's pending mode if and only if the request accepted last asked for the confirmed future's mode |
| `RuntimeIdentity.SerialConfirms` | src/direct_driver_runtime.cpp:793-812 | if no mode request is accepted while another accepted one is unanswered, the confirmed mode is always the pending mode |
| `RuntimeIdentity.GateOpensAtConfirm` | src/robot_controller.cpp:134-142 | the motion gate opens only by confirming a transition while the controller waits for move |
| `RuntimeIdentity.SerialGate` | src/direct_driver_runtime.cpp:793-812 | with serial mode requests the gate opens only when the future of a move request is confirmed by a snapshot showing 0xB104 |
| `RuntimeMismatch.StandOpensGate` | src/direct_driver_runtime.cpp:251-294 | a run in which a stand request accepted in one session is enqueued in the next after a move request, succeeds there, and its confirmation opens the motion gate |
| `RuntimeResponse.DropResponse` | src/direct_driver_runtime.cpp:402-474 | after a latched drop, until the next session at most one more command executes (none unless the pass is beyond the re-check) and the queue is always a tail of what it was, so nothing is enqueued |
| `RuntimeResponse.EstopResponse` | src/direct_driver_runtime.cpp:195-206 | while an estop mark waits, at most one command executes before the worker takes it |
| `RuntimeResponse.CaughtNeverExecuted` | src/direct_driver_runtime.cpp:843-900 | a command queued when a mark is taken is never executed and ends with exactly one failure answer |
| `RuntimeResponse.TakingDooms` | src/direct_driver_runtime.cpp:843-853 | a command is caught exactly when it is queued at the moment a mark is taken |
| `RuntimeResponse.LatchedMotion` | src/direct_driver_runtime.cpp:498-528 | from any state with the latch set, until it is released at most one more nonzero move is sent, and only if a tick had already read it |
| `RuntimeAnswers.EstopVerdict` | src/direct_driver_runtime.cpp:843-921 | an engage future has succeeded if and only if after its mark was taken the zero move and then the damping call were made for it in one session and both succeeded |
| `RuntimeAuthority.AuthorityVerdict` | src/direct_driver_runtime.cpp:698-706 | an authority future has succeeded if and only if the one SDK call made for it asked for the authority it was issued for and succeeded |
| `RuntimeSteps.AuthorityAdmission` | src/direct_driver_runtime.cpp:226-249 | an authority request is enqueued exactly in a live session with room, and otherwise answered at once with the matching code |
| `RuntimeSteps.ModeCheckAdmission` | src/direct_driver_runtime.cpp:251-263 | a mode request passes the first gate exactly in a live session |
| `RuntimeSteps.ModeAdmission` | src/direct_driver_runtime.cpp:271-294 | an accepted mode request is enqueued exactly in a live session with room; otherwise the controller's acceptance is undone and the future failed |
| `RuntimeSteps.RefusalAnswer` | src/direct_driver_runtime.cpp:86-100 | the controller's refusal tests in order, each with the code answered |
| `RuntimeSteps.MarkEffect` | src/direct_driver_runtime.cpp:188-206 | an older mark is superseded with a failure, and the new one stands exactly in a live session |
| `RuntimeSteps.LatchEffect` | src/direct_driver_runtime.cpp:170-186 | engaging latches and releasing unlatches at once, both discarding the stored velocity |
| `RuntimeSteps.SubmitEffect` | src/direct_driver_runtime.cpp:158-168 | a submitted velocity reaches the controller at once and changes nothing else |
| `RuntimeSteps.LoopTop` | src/direct_driver_runtime.cpp:413-457 | a stop leads to the stop actuation, a latched drop to the end of the session, and nothing else does |
| `RuntimeSteps.PassClock` | src/direct_driver_runtime.cpp:440-440 | the pass time is the clock at the start of the pass |
| `RuntimeSteps.ActuationAuthorized` | src/direct_driver_runtime.cpp:878-891 | the stop calls are made exactly with link, authority and no latched drop |
| `RuntimeSteps.StopEffect` | src/direct_driver_runtime.cpp:902-939 | the shutdown actuation sends zero, then damping, then ends the session |
| `RuntimeSteps.HeartbeatEffect` | src/direct_driver_runtime.cpp:486-497 | failed heartbeats end the session; otherwise the pass goes on |
| `RuntimeSteps.OrphanSettled` | src/direct_driver_runtime.cpp:465-470 | a transition the controller no longer waits for is failed before the next command is taken |
| `RuntimeSteps.PollOrphanSettled` | src/direct_driver_runtime.cpp:555-560 | such a transition is also failed before a fresh snapshot can confirm it |
| `RuntimeSteps.ConfirmNeedsPending` | src/direct_driver_runtime.cpp:793-807 | confirming needs an armed transition the controller still waits for and a snapshot with its stable status |
| `RuntimeSteps.ConfirmEffect` | src/direct_driver_runtime.cpp:807-812 | confirming answers the future and opens the gate exactly when the controller waited for move |
| `RuntimeSteps.TransitionAborted` | src/direct_driver_runtime.cpp:830-841 | an aborted transition is failed, disarmed and ended in the controller |
| `RuntimeSteps.TransitionSuperseded` | src/direct_driver_runtime.cpp:708-716 | a superseded transition is failed without touching the controller |
| `RuntimeSteps.TransitionLate` | src/direct_driver_runtime.cpp:529-535 | a transition is timed out exactly when the pass began at or after its deadline |
| `RuntimeSteps.TransitionCutOff` | src/direct_driver_runtime.cpp:941-963 | the end of the session fails an armed transition as not initialized |
| `RuntimeSteps.GivenUp` | src/direct_driver_runtime.cpp:860-972 | a command given up has its future failed with the code of the place, and a mode command leaves the controller waiting for nothing |
| `RuntimeSteps.ReadyNeedsLink` | src/direct_driver_runtime.cpp:561-567 | the driver becomes ready only by the first snapshot of a connection that reports a link |
| `RuntimeSteps.RunCache` | src/direct_driver_runtime.cpp:537-552 | outside a teardown the controller believes in link and authority only while the last status report stands, and knows exactly the last polled sport status and error |
| `RuntimeSteps.LinkFromReports` | src/direct_driver_runtime.cpp:615-641 | link and authority come from status reports alone; a report without link latches a drop; a new attempt clears the latch |
| `RuntimeSteps.RunCoherent` | src/direct_driver_runtime.cpp:974-993 | outside a teardown the controller is ready exactly when a snapshot of this connection armed it, and the worker exits only after a stop |
| `RuntimeSteps.TickNotLost` | src/direct_driver_runtime.cpp:475-503 | a motion tick asked for by a status report stays due until the worker reads the controller's velocity and goes to send it, unless failed heartbeats end the session |
| `RuntimeMotion.StepCalls` | src/direct_driver_runtime.cpp:158-294 | every runtime step changes the controller by exactly the controller call it makes |
| `RuntimeMotion.ControllerRefinement` | src/direct_driver_runtime.cpp:296-576 | the controller of any runtime run is the controller after the run's calls in order |
| `RuntimeMotion.SentVelocityProvenance` | src/direct_driver_runtime.cpp:498-528 | a nonzero velocity held by the SDK or about to be sent is the clamp of one submitted command, accepted within the deadman when the tick read it, with the gate open in between |
| `RuntimeMotion.SessionRestoration` | src/direct_driver_runtime.cpp:974-993 | after any session invalidation of a runtime run, a velocity is accepted only after arming, an accepted move request and its completion, in order, among the run's controller calls |
| `RuntimeMotion.LatchedModes` | src/robot_controller.cpp:123-126 | from any state with the latch set, until it is released the controller comes to wait for no mode but damping |
| `AdapterInvariants.RunPreserves` | src/direct_astrall_sdk.cpp:327-432 | over every interleaving: mutex ownership, the in-flight count, the drain protocol, the init/deinit balance and the stored callback invariant hold |
| `AdapterTheorems.WaitsDownward` | src/direct_astrall_sdk.cpp:264-266 | no thread waits for itself, for a mutex it holds or for its own callback; waits go down the order teardown, lifecycle, drain |
| `AdapterTheorems.NoDeadlock` | src/direct_astrall_sdk.cpp:367-432 | in every reachable state each blocked thread waits, through at most three threads, for one that can take a step |
| `AdapterTheorems.DrainStep` | src/direct_astrall_sdk.cpp:367-428 | while ShuttingDown no callback starts, no init is accepted, the in-flight count only falls and only the drain's publisher leaves the state, with nothing in flight |
| `AdapterTheorems.DeinitReturns` | src/direct_astrall_sdk.cpp:751-771 | a non-callback deinit returns only from a gate section that sees Uninitialized, no request and nothing in flight |
| `AdapterTheorems.QuietUntilInit` | src/direct_astrall_sdk.cpp:454-484 | from a quiet state no project callback runs until the next accepted init |
| `AdapterTheorems.DeinitIsFinal` | src/direct_astrall_sdk.cpp:730-771 | in a run without the overwrite window a returned deinit is final: no callback runs until the next accepted init |
| `AdapterTheorems.DeinitFinalIff` | src/direct_astrall_sdk.cpp:730-771 | once a non-callback deinit has returned, no project callback runs until the next accepted init if and only if no init accepted before the return can still publish Initialized |
| `AdapterTheorems.DeinitNotFinal` | src/direct_astrall_sdk.cpp:417-428 | a concrete run in which deinit returns and a callback then runs with no further init accepted |
| `AdapterTheorems.VendorDiscipline` | src/direct_astrall_sdk.cpp:655-797 | at most one vendor entry executes at a time, vendor deinit is entered at most once per init entry, and a delivery during vendor deinit starts no callback; the lower bound is in the next two rows |
| `AdapterTheorems.TeardownDeinits` | src/direct_astrall_sdk.cpp:371-416 | over every interleaving, closing a live generation enters vendor deinit exactly once if it is bound, and no other step does |
| `AdapterTheorems.DeinitClosesSessions` | src/direct_astrall_sdk.cpp:655-771 | in a run without the overwrite window a returned deinit has closed every vendor session: inits equal deinits plus published failures |
| `AdapterTheorems.GenerationDiscipline` | src/direct_astrall_sdk.cpp:371-432 | in such a run every teardown publishes with nothing in flight, vendor entries run only in their own generation, and no stored callback outlives it |
| `AdapterTheorems.DeinitAnswersInit` | src/direct_astrall_sdk.cpp:371-416 | each vendor deinit entry consumes one unmatched vendor init entry and closes the gate |
| `AdapterTheorems.SubscribeRollsBack` | src/direct_astrall_sdk.cpp:827-876 | a failed subscription restores the callback it replaced, untouched in between |
| `AdapterTheorems.SubscribeSettles` | src/direct_astrall_sdk.cpp:827-876 | a subscription settles with its own callback exactly when the vendor accepted it, otherwise with the one it replaced |
| `AdapterTheorems.CallbackDeinitRecords` | src/direct_astrall_sdk.cpp:730-738 | a deinit from inside a callback only records the request |
| `AdapterTheorems.RequestNotLost` | src/direct_astrall_sdk.cpp:625-653 | a recorded request is cleared only by a thread that is then tearing down, and a teardown's gate section always clears it |
| `AdapterTheorems.TailTakesOver` | src/direct_astrall_sdk.cpp:625-653 | a request made inside a vendor call is taken over by the tail of that call |
| `AdapterTheorems.DrainNeverOverwrites` | src/direct_astrall_sdk.cpp:417-428 | only a teardown that found nothing to drain can replace a live generation |
| `AdapterTheorems.WindowIsReal` | src/direct_astrall_sdk.cpp:392-428 | a concrete two-thread run that reaches a state whose next publication replaces a fresh generation |
| `AdapterTheorems.OverwriteIff` | src/direct_astrall_sdk.cpp:417-428 | a run passes through such a state if and only if some init was accepted between an idle teardown's gate section and its publication |
| `AdapterTheorems.SingleOwnerSafe` | src/direct_astrall_sdk.cpp:655-771 | when one thread makes all entry calls, no publication replaces a live generation |
| `ClockMapper.LidarDeviceClockMapper.constructor` | src/driver_node.cpp:159-161 | starts uninitialized |
| `ClockMapper.LidarDeviceClockMapper.ObserveOdometry` | src/driver_node.cpp:101-135 | new filter state and returned stamp of one observation |
| `ClockMapper.LidarDeviceClockMapper.MapCloud` | src/driver_node.cpp:137-146 | the stamp of a cloud, or the reception time when no mapping exists |
| `ClockMapper.OffsetAtMostObserved` | src/driver_node.cpp:123-134 | after an observation the offset is at most the observed one, so the odometry clamp never bites |
| `ClockMapper.ObserveMeaning` | src/driver_node.cpp:110-133 | the first observation, a device restart and a jump over two seconds set the offset to the observed one; otherwise a lower offset is followed at once and a higher one by a sixty-fourth of the gap |
| `ClockMapper.HugeStampIgnored` | src/driver_node.cpp:105-108 | a device stamp beyond 63 bits is ignored |
| `ClockMapper.CloudMeaning` | src/driver_node.cpp:137-156 | a cloud keeps its reception time before any odometry, and otherwise gets the mapped time, never a later one than its reception |
| `ClockMapper.OffsetStaysInBand` | src/driver_node.cpp:110-133 | observations within a band keep the offset in the band |
| `ClockMapper.Converges` | src/driver_node.cpp:126-132 | a constant observation is approached from below without overshoot, the distance above 63 ns shrinking by 63/64 a step |
| `ClockMapper.ReachesBand` | src/driver_node.cpp:126-132 | the offset ends within 63 ns below a constant observation |
| `ClockMapper.CloudMatchesOdometry` | src/driver_node.cpp:137-156 | a cloud with the last odometry's device stamp, received no earlier, gets the odometry's stamp |
| `ClockMapper.StampsNotInFuture` | src/driver_node.cpp:149-156 | no stamp lies after its reception |
| `ClockMapper.NoOverflow` | src/driver_node.cpp:110-156 | with stamps below 2^62 every intermediate value fits 64 bits |

## Left out

- Driver runtime and SDK adapter: modelled on values as interleaved step systems, so update in place and the memory model below the mutexes are not captured.
- LidarWire.ParsePointCloudPacket: floating-point scaling is an arbitrary function that may fail, and the failure reasons are not modelled, because they only feed a log line.
- ClockMapper.ReachesBand: its step count is the initial distance; the geometric rate is in `ClockMapper.Converges`.
- AdapterTheorems.NoDeadlock: assumes that project callbacks and vendor calls return; fairness and the number of teardown retries are not bounded.
- Estop mark: the flag and the promise of the source are always set together and are one optional value in the model.
- Exceptions thrown by SDK calls, the destructor, start, stop's join and wait_pop_for.
- Heartbeat failure counting, periodic deadlines and reconnect backoff: any outcome may be chosen at any pass.
- Odometry datagrams and quaternion normalisation: square roots and NaN reasoning.
- Sockets, receiver threads, network preflight, the ROS node, observer dispatch, log text, launch files and Python tools: plumbing and I/O.
- Vendor struct mapping, the sport and LiDAR subscriptions (same shape as the IMU one), and callbacks nested across several adapters.
