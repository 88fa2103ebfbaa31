# RemoteInput: a verified model

RemoteInput lets one computer (the controller) drive the keyboard and mouse of another (the target) through a relay.
Its safety rests on state machines: a target engine that must never leave a key stuck, a policy that decides which
local input is forwarded, a relay that must keep sessions apart and revoke them, a journaled password change, and a
hook thread that must give the cursor back. This project models those machines and proves what they promise, for every
input, every interleaving of their threads and tasks, and every pattern of failures.

## How the model is built

- Each stateful object of the source is a class (`TargetEngine`, `CapturePolicy`, `InputQueue`, `NetworkTiming`,
  `RateLimit`, `Store`, `RelayServer`, `Vault`, `Target`, `WindowsCapture`, `Outbox`, `Controller`). Each method states
  its whole new state as a function of the old one; the properties are proved of those functions.
- A `...System` module interleaves the pieces that run without interruption: sections under a lock, and code between
  two awaits. An action that is not possible changes nothing, so every sequence of actions is a run, and the main
  theorems quantify over all of them.
- Time is real-valued; both sides of the outside world (clock readings, drawn secrets, refused injections, failing
  native calls, callbacks inside native calls) are parameters of the actions.
- History that no code keeps (what was received, what the system holds down, where the user left the cursor) is part of
  the modelled state only to state properties about it.

| files | subject |
|---|---|
| `Protocol`, `Timing`, `Queueing`, `QueueConservation`, `QueueAcceptance` | wire format, adaptive deadline, coalescing queue |
| `Engine`, `TargetEngine`, `EngineSystem` | the target engine: specification, object, two-thread interleaving |
| `EngineVerdicts`, `EngineTiming`, `EngineDeadlines`, `EngineLeases` | what becomes of an event, and how long control lasts |
| `EngineHolds`, `EngineReleases`, `EngineMessages`, `EngineAcks` | what the engine holds, lets go and reports |
| `EngineDelivery`, `EngineGapFree`, `EngineReplay`, `EngineRuns` | what reaches the injector |
| `Capture`, `CaptureInvariant`, `CaptureEmission`, `EndToEnd` | the capture policy, and its composition with queues, wire and engine |
| `Limiter`, `LimiterRefinement`, `Registry` | sliding-window limiter, names and passwords |
| `Relay`, `RelaySystem`, `RelayQueues`, `RelayIsolation`, `RelayRevocation`, `RelayExactness`, `RelayEscapes` | sessions, queues, isolation, revocation |
| `Rotation`, `RotationSystem`, `RotationProgress`, `RotationRuns`, `TargetClient` | crash-safe password change |
| `HandOff`, `HandOffSystem` | activation through the hook thread |
| `Transport`, `WakeUp`, `SenderDelivery`, `SenderFrames`, `ControllerLink` | outbox, wake-ups, the controller's sender |

## Where the code does less than one might expect

Each of these is proved, with the exact condition or a concrete run.

- F9 or F10 held as an ordinary key and then joined by Ctrl and Alt is both forwarded and swallowed when it repeats; the
  target then keeps holding it after its release (`HotkeyCorner`, `CornerSticks`, `CornerReached`).
- A stale or duplicate move merged with a newer one in the queue still contributes its displacement
  (`StaleMoveContributes`, `StaleMoveReached`); gap-free delivery therefore assumes increasing numbers, which the controller's single outbox
  provides (`WrittenAreOrdered`).
- `paused` for the epoch in control does not always mean that control ended: a repeated activation frame with a valid
  lease is answered with it (`PauseWithoutEnd`, `PauseReached`).
- When an event overloads the controller's queue, the policy is paused before emit returns: a key may then be marked as
  forwarded although nothing is captured (`OverloadLeavesForwarded`), and the release of a waiting modifier ends in a
  KeyError and reaches the local applications (`ExclusiveRouting`).
- A key forwarded, still down through a pause and the next activation, is both ignored and swallowed; its release ends only
  the second mark, and its next press reaches neither side (`ReleaseForgets`, `HeldAcrossActivations`).
- The limiter refuses a new key while expired buckets sit behind a live one (`RefusedWhileIdle`, `ExpiredBehindLive`).
- A controller outlives a password change when the change is carried out under another spelling of its target's number,
  or by a request whose connection has ended while the registry call ran (`CurrentExactly` says exactly when; `AliasRun`
  and `CancelRun` are runs in which it happens).
- `rotated` carries no rotation id, so a change begun while an earlier confirmation is outstanding can be confirmed by the
  wrong message; and a rotation request cut off from its connection can be carried out after a newer change, because the
  registry compares ids with the latest one only. Exactly these lose the registry's password (`PasswordNeverLost`,
  `SettledIsExact`, `UnsettledRun`, `LateRun`), and the second makes an id raise the generation again
  (`GenerationCountsRotations`, `RaisesExactly`).
- After a refused restore, and until the user moves the mouse, an activation records the anchor as the user's position
  (`RestoresHome`, `RecordsExactly`, `StuckForgetsHome`, `WanderHeals`).

## Model

| member | source | states |
|---|---|---|
| `Protocol.PackUnpack` | src/remoteinput/protocol.py:37-59 | sending then receiving gives an event back if and only if its fields fit the frame and its arguments are valid; a field outside its width is refused |
| `Protocol.UnpackPack` | src/remoteinput/protocol.py:44-59 | every accepted 41-byte frame is exactly what its event packs to, so no event has two spellings and malformed frames are refused |
| `Protocol.PackFields` | src/remoteinput/protocol.py:22-38 | the big-endian, two's-complement bytes of a packed event spell its own seven fields |
| `Protocol.FrameLayout` | src/remoteinput/protocol.py:22-38 | where each field of a frame is: the code of its operation, four unsigned 64-bit numbers and two 32-bit arguments in two's complement, highest byte first |
| `Protocol.AcceptedExactly` | src/remoteinput/protocol.py:44-59 | byte by byte: a frame is accepted if and only if it has 41 bytes and one of eight codes, and is a key 1 to 254 or button 1 to 5 with flag 0 or 1, a move or scroll within its bound, or has zero arguments |
| `Protocol.BytesOfNumber` | src/remoteinput/protocol.py:22 | a number that fits w bytes is recovered from them |
| `Protocol.NumberOfBytes` | src/remoteinput/protocol.py:22 | w bytes are recovered from the number they spell, which fits w bytes |
| `Timing.NetworkTiming.Observe` | src/remoteinput/timing.py:12-21 | accepts exactly the samples in [0, 3) and smooths variation against the previous round trip before updating it |
| `Timing.Timeout` | src/remoteinput/timing.py:24-28 | the deadline always lies between 2 and 3 seconds |
| `Timing.ReachableInRange` | src/remoteinput/timing.py:12-21 | for every sequence of samples, round trip and variation stay in [0, 3) |
| `Timing.SampleMoves` | src/remoteinput/timing.py:15-20 | a usable sample moves the round trip an eighth of the way to it and the variation a quarter of the way to its distance from the old round trip |
| `Timing.DeadlineMonotone` | src/remoteinput/timing.py:24-28 | the deadline is round trip + 4 * variation + 0.2 brought into [2, 3]: a longer round trip or a larger variation never shortens it |
| `Timing.DeadlineCoversSample` | src/remoteinput/timing.py:12-28 | from every reachable estimate, after a sample s the deadline is at least min(3, s + 0.2), and when the route became slower it leaves an eighth of the difference besides |
| `Timing.SpreadContracts` | src/remoteinput/timing.py:17-20 | one more sample of a constant route shrinks variation + 4 * distance by at least the factor 15/16 |
| `Timing.SpreadDecays` | src/remoteinput/timing.py:12-21 | after n samples of a constant route the spread is at most 15 * (15/16)^n |
| `Timing.DeadlineConverges` | src/remoteinput/timing.py:12-28 | from any reachable estimate, after n samples s the deadline lies between s + 0.2 and s + 0.2 + 60 * (15/16)^n, each brought into [2, 3] |
| `EngineTiming.EstimateIsMeasured` | src/remoteinput/safety.py:101-110 | in every run the estimate is the smoothing of exactly the challenge ages answered since the connection or the peer changed, one for each admitted heartbeat with a challenge newer than all before |
| `EngineTiming.DeadlineFollows` | src/remoteinput/timing.py:24-28 | in every run the deadline leaves room for the round trip measured last and one challenge interval, up to 3 seconds |
| `EngineTiming.ControlLasts` | src/remoteinput/safety.py:93-99 | in every run a tick ends control exactly when the heartbeat is overdue or permission is gone, so never early for a controller that keeps the latest round trip |
| `EngineTiming.RejectedExactly` | src/remoteinput/safety.py:160-167 | an admitted event is rejected exactly when its token is unknown or older than the deadline plus 0.3 s, for a heartbeat the deadline, or 3 s without control |
| `EngineTiming.PromptTokensAccepted` | src/remoteinput/timing.py:30-34 | in every run an input whose token is at most 0.3 s older than the round trip measured last, and a heartbeat no older than it, is never rejected |
| `Queueing.InputQueue.Offer` | src/remoteinput/queueing.py:29-56 | the new queue, the answer and whether the consumer is woken, for every branch of put: failed, over age, merged, merge out of range, full, appended |
| `Queueing.InputQueue.Take` | src/remoteinput/queueing.py:58-70 | the new queue and the item, the absence of one, or the overload of pop |
| `Queueing.InputQueue.Clear` | src/remoteinput/queueing.py:72-75 | an empty queue that has not failed |
| `Queueing.CombineUniform` | src/remoteinput/queueing.py:38-47 | a merged item carries the first arrival time and the last sequence number, stamp and lease; only moves of one epoch merge |
| `Queueing.PutTracks` | src/remoteinput/queueing.py:29-56 | after a put every queued item is still the merge of its own run of arrivals, and the runs concatenate to everything accepted |
| `Queueing.PopTracks` | src/remoteinput/queueing.py:58-70 | a popped item is the merge of the oldest run, which leaves the account whole |
| `QueueConservation.Conservation` | src/remoteinput/queueing.py:29-75 | over every interleaving of put, pop and clear: nothing is lost, duplicated or reordered, entry times are sorted, every constituent of a popped item is within the age limit, the length limit holds, and after a failure what was delivered is still a prefix |
| `QueueConservation.MergeConservation` | src/remoteinput/queueing.py:38-47 | merging adjacent moves in what was popped and what remains gives what merging everything accepted gives |
| `QueueConservation.WireValidity` | src/remoteinput/queueing.py:41-52 | a queue fed wire-valid events holds and delivers only wire-valid events |
| `QueueAcceptance.HoldsWaiting` | src/remoteinput/queueing.py:29-56 | in every run the queue is the merge of the arrivals accepted and not yet popped, and its age that of the first of them |
| `QueueAcceptance.PutFailsExactly` | src/remoteinput/queueing.py:31-52 | in every run a put is refused if and only if the oldest waiting arrival is over age, the move it merges into gets past 1,000,000, or the waiting arrivals would, merged, exceed the limit |
| `QueueAcceptance.PopFailsExactly` | src/remoteinput/queueing.py:58-70 | in every run a pop fails if and only if the oldest waiting arrival is over age, and otherwise gives the first of the merged arrivals |
| `QueueAcceptance.FailureLasts` | src/remoteinput/queueing.py:32-33 | a failure lasts until the queue is cleared, and no longer |
| `QueueAcceptance.BurstDelivered` | src/remoteinput/queueing.py:29-70 | from the arrivals alone: a burst in order, within the age limit, in range and, merged, within the length limit is accepted in full, and popped in time all of it comes out |
| `QueueAcceptance.WakesSeldom` | src/remoteinput/queueing.py:13-18 | in every run the puts wake the consumer at most twice between two pops or clears: for the first item of an empty queue and when they fail it |
| `QueueAcceptance.EverydayBurst` | src/remoteinput/queueing.py:20-27 | with the limits in use, that is any 256 arrivals within a tenth of a second whose neighbouring moves stay in range |
| `TargetEngines.TargetEngine.ReleaseKeys` | src/remoteinput/safety.py:49-54 | every tracked key is released once; exactly those whose release raised stay tracked, and then input is blocked |
| `TargetEngines.TargetEngine.ReleaseButtons` | src/remoteinput/safety.py:55-60 | the same for mouse buttons |
| `TargetEngines.TargetEngine.ResetAll` | src/remoteinput/safety.py:43-63 | the whole state after a reset, under any pattern of failing releases |
| `TargetEngines.TargetEngine.ChangeConnection` | src/remoteinput/safety.py:65-72 | the state after connecting or disconnecting |
| `TargetEngines.TargetEngine.ChangePeer` | src/remoteinput/safety.py:74-81 | the state after a peer change: leases kept, calibration forgotten |
| `TargetEngines.TargetEngine.Accept` | src/remoteinput/safety.py:83-88 | a reset frame resets at once; any other is queued, and an overload resets |
| `TargetEngines.TargetEngine.Renew` | src/remoteinput/safety.py:101-110 | only a challenge newer than the last one echoed is measured and renews control |
| `TargetEngines.TargetEngine.Reject` | src/remoteinput/safety.py:112-122 | an event with a stale lease resets, and a stale activation is also answered with a pause |
| `TargetEngines.TargetEngine.Expire` | src/remoteinput/safety.py:93-99 | control is reset exactly when the heartbeat is overdue |
| `TargetEngines.TargetEngine.IssueChallenge` | src/remoteinput/safety.py:129-135 | leases past the history limit are dropped and a challenge is issued when one is due |
| `TargetEngines.TargetEngine.CheckHolds` | src/remoteinput/safety.py:136-140 | expiry, lost permission and the retry of failed releases, in that order |
| `TargetEngines.TargetEngine.RunTick` | src/remoteinput/safety.py:124-140 | the state after a tick |
| `TargetEngines.TargetEngine.PressOrRelease` | src/remoteinput/safety.py:195-211 | tracking before pressing and untracking after releasing, with the injector raising at either |
| `TargetEngines.TargetEngine.InjectEvent` | src/remoteinput/safety.py:194-221 | unsupported keys, injection, a stalled injection and acknowledgement, in the order of the source |
| `TargetEngines.TargetEngine.Start` | src/remoteinput/safety.py:168-179 | an activation is refused or resets and opens its epoch |
| `TargetEngines.TargetEngine.ProcessItem` | src/remoteinput/safety.py:148-221 | the state and verdict for every branch of the locked part of process_one |
| `TargetEngines.TargetEngine.ProcessNext` | src/remoteinput/safety.py:142-224 | pop, process, and the reset after an exception, when nothing intervenes |
| `EngineSystem.SessionAlways` | src/remoteinput/safety.py:168-175 | in every interleaving control exists only on a live connection and under the epoch activated last |
| `EngineSystem.EpochSteady` | src/remoteinput/safety.py:142-221 | only resets change the epoch, the last epoch, the connection or the block; processing without a reset leaves the queue alone |
| `EngineSystem.NumberGrows` | src/remoteinput/safety.py:158-188 | the sequence number falls only when an activation sets a new start |
| `EngineSystem.ResetEffect` | src/remoteinput/safety.py:43-63 | the actions that reset leave an empty queue, and no epoch unless they open an activation |
| `EngineSystem.TurnsAreSteps` | src/remoteinput/safety.py:83-88 | process_one and receive run without interruption are these steps in sequence, so what holds of every run holds of the methods |
| `EngineVerdicts.VerdictsExactly` | src/remoteinput/safety.py:148-221 | for every event the exact condition, independent of the order of tests, for being dropped, rejected, refused, started, calibrated, expired, stopped or raised |
| `EngineVerdicts.EpochAfter` | src/remoteinput/safety.py:148-221 | which epoch is in control after each verdict |
| `EngineVerdicts.ActivationsAnswered` | src/remoteinput/safety.py:118-179 | every activation that is looked at is answered, with its epoch activated if it opens control and with its epoch paused if not |
| `EngineVerdicts.TokensWereSent` | src/remoteinput/safety.py:129-135 | in every run each lease that can be presented has been sent as a challenge |
| `EngineVerdicts.ConnectedAsSaid` | src/remoteinput/safety.py:65-72 | in every run the engine is connected exactly when the network thread said so last |
| `EngineVerdicts.ChangeGetsChallenge` | src/remoteinput/safety.py:74-81 | in every run the first tick after the connection or the peer changed issues a challenge at once |
| `EngineVerdicts.TickOffersChallenge` | src/remoteinput/safety.py:129-135 | in every run each tick on a connection leaves a challenge that has been sent and is younger than 0.2 s |
| `EngineHolds.HoldsTracked` | src/remoteinput/safety.py:43-63 | in every interleaving and under every injection failure: whatever the system may hold down is tracked, and without control or a failed release nothing is held |
| `EngineHolds.ActivationStartsClean` | src/remoteinput/safety.py:173-177 | an activation begins with nothing held unless a release has failed |
| `EngineHolds.BlockedOnlyReleases` | src/remoteinput/safety.py:150-151 | once a release has failed, whatever happens afterwards: no event reaches the injector, so only the releases of resets remain; no control is granted and the tracked holds only shrink |
| `EngineReleases.ResetLeaves` | src/remoteinput/safety.py:43-63 | whatever resets: exactly the tracked controls whose release was refused stay tracked, exactly those the refusal left down stay down, and exactly a refusal blocks; a stalled injection is released too, and a tick tries again |
| `EngineReleases.BlockedExactly` | src/remoteinput/safety.py:43-63 | in every run input is blocked if and only if a release of a tracked control was refused; without control what is tracked and what is down is what the latest reset was refused; and while not blocked nor handling an exception, the system holds down exactly what is tracked |
| `EngineReleases.NothingLeftBehind` | src/remoteinput/safety.py:43-63 | in every run without a refused release, whatever the injector raised: input is not blocked, and without control nothing is tracked or down |
| `EngineReleases.TickLetsGo` | src/remoteinput/safety.py:136-140 | in every run, a tick after which there is no control leaves nothing tracked or down if the releases it tries work, however many were refused before |
| `EngineMessages.ActivationsBracketed` | src/remoteinput/safety.py:168-188 | consecutive activations carry different epochs and the first is closed by its own paused message before the second |
| `EngineMessages.MessagesAlways` | src/remoteinput/safety.py:43-63 | in every interleaving the engine's messages are well bracketed and agree with the epoch in control |
| `EngineMessages.PauseWithoutEnd` | src/remoteinput/safety.py:168-172 | a paused message for the epoch in control is sent while control goes on exactly for a repeated activation frame of that epoch with a valid lease |
| `EngineRuns.PauseReached` | src/remoteinput/safety.py:168-172 | a run from the start in which that happens |
| `EngineDelivery.Always` | src/remoteinput/safety.py:83-88 | in every interleaving, since the last reset: processed, in hand and queued account for every arrival in order, up to merging |
| `EngineDelivery.CallsRecorded` | src/remoteinput/safety.py:150-215 | exactly the events that pass every test reach the injector, each once |
| `EngineDelivery.ResetIsBarrier` | src/remoteinput/safety.py:144-159 | in every interleaving, of everything the injector is called with: each call merges arrivals, identified by position, accepted after the latest reset, even for an item popped before one, and carries the epoch in control; within an activation numbers strictly increase and no arrival is injected twice |
| `EngineDelivery.BarrierAlways` | src/remoteinput/safety.py:142-221 | over every run the injector calls are exactly the events of the recorded injections, in order |
| `EngineGapFree.GapFree` | src/remoteinput/safety.py:142-221 | while control lasts, the arrivals handled are a prefix of the inputs accepted under this epoch, and with the ones in hand and queued they are all of them: no input is dropped while control continues |
| `EngineGapFree.DrainedHolds` | src/remoteinput/safety.py:199-211 | once everything is processed, the keys and buttons tracked, and those the system really holds down, are those the accepted inputs leave held |
| `EngineGapFree.DeliveryAlways` | src/remoteinput/safety.py:142-221 | the invariant behind both: under control every input of the epoch is handled, and number, keys and buttons follow from the handled ones |
| `EngineGapFree.StaleMoveContributes` | src/remoteinput/safety.py:158-159 | the increasing numbers are needed: from any moment of control with an empty queue, a stale move that would be dropped alone has its displacement injected when a newer one is put before the pop |
| `EngineGapFree.StaleExactly` | src/remoteinput/safety.py:158-159 | under control a merged item passes the test on numbers, with whatever stale arrivals it holds, exactly if its last arrival is newer than the number reached |
| `EngineRuns.StaleMoveReached` | src/remoteinput/queueing.py:38-47 | a run from the start in which a repeated move is injected that way |
| `EngineReplay.CallsAreHandled` | src/remoteinput/safety.py:195-215 | in every run under control: since the activation the injector was called exactly with the items handled, in order, every move, scroll and press and every release of something held, and their total motion and scrolling is that of the handled arrivals |
| `EngineReplay.DrainedTravel` | src/remoteinput/safety.py:212-215 | once everything is processed, the target has moved and scrolled exactly as far as the accepted inputs say |
| `EngineReplay.PlayedAlways` | src/remoteinput/safety.py:142-221 | the invariant behind both |
| `EngineAcks.AckExactly` | src/remoteinput/safety.py:180-182 | which events are acknowledged, each at most once and with its own operation, epoch, sequence number and stamp |
| `EngineAcks.AcksEcho` | src/remoteinput/safety.py:219-220 | in every run each acknowledgement carries the operation, epoch, number and stamp of one and the same frame put before |
| `EngineLeases.PruningExact` | src/remoteinput/safety.py:90-91 | for every event and every later time the lease test on the pruned map answers as on the complete issuing history |
| `EngineLeases.FewLeases` | src/remoteinput/safety.py:129-135 | at most 22 leases plus one per peer change since connecting are ever kept |
| `EngineDeadlines.OnlyRenewalsExtend` | src/remoteinput/safety.py:101-110 | the heartbeat time moves exactly at an activation or a renewal with a strictly newer challenge; inputs, probes, calibration and replays never move it |
| `EngineDeadlines.ControlIsFresh` | src/remoteinput/safety.py:136-140 | after a tick that leaves control active the last grant is under 3 s old, its challenge was issued by this target under 6.3 s ago, and renewals used strictly newer challenges |
| `EngineDeadlines.BoundedHold` | src/remoteinput/safety.py:136-140 | anything the system may hold down after a tick rests, unless a release has failed, on the latest grant of the epoch in control: under 3 s old, with a challenge this target issued under 6.3 s ago |
| `Capture.CapturePolicy.Activate` | src/remoteinput/capture.py:23-29 | the policy after activation |
| `Capture.CapturePolicy.Pause` | src/remoteinput/capture.py:31-36 | the policy after a pause: forwarded keys become swallowed |
| `Capture.CapturePolicy.Emit` | src/remoteinput/controller.py:39-59 | an event handed over while control lasts; if it overloads the queue the policy is paused before the call returns |
| `Capture.CapturePolicy.FlushModifiers` | src/remoteinput/capture.py:38-42 | waiting modifiers are emitted in order and become forwarded, also those after an overload |
| `Capture.CapturePolicy.OnModifier` | src/remoteinput/capture.py:67-78 | a modifier waits on the way down and is sent on the way up, which raises if its down overloads the queue |
| `Capture.CapturePolicy.OnKey` | src/remoteinput/capture.py:44-87 | the policy, the suppression answer and the callback, for every branch |
| `Capture.CapturePolicy.OnMouse` | src/remoteinput/capture.py:89-101 | the same for mouse events |
| `CaptureInvariant.PolicyAlways` | src/remoteinput/capture.py:23-101 | in every run, with an overload at any emission: while active, forwarded and pending partition keys - ignored - swallowed for every key but F9 and F10; replaying the emitted events leaves held exactly the forwarded keys and the buttons down that are not ignored; no release is emitted for a key not held |
| `CaptureInvariant.ExclusiveRouting` | src/remoteinput/capture.py:61-101 | while inactive nothing is emitted; while active nothing reaches local applications, except exactly the release of a waiting modifier whose emission overloads the queue, which raises |
| `CaptureInvariant.OverloadLeavesForwarded` | src/remoteinput/capture.py:38-87 | a policy paused in the middle of an event is left with forwarded keys exactly if the overload came before the last key was marked |
| `CaptureInvariant.ForwardedReleaseSwallowed` | src/remoteinput/capture.py:31-60 | after a pause a forwarded key stays suppressed until it is released, and no longer |
| `CaptureInvariant.HotkeyCorner` | src/remoteinput/capture.py:51-56 | with F9 and F10 included, one key event breaks the equation if and only if a forwarded F9 or F10 repeats after Ctrl and Alt joined it |
| `CaptureInvariant.CornerSticks` | src/remoteinput/capture.py:51-60 | in that corner the release is swallowed and the target keeps holding the key |
| `CaptureInvariant.CornerReached` | src/remoteinput/capture.py:44-87 | a run that reaches the corner |
| `CaptureEmission.EmittedInOrder` | src/remoteinput/capture.py:44-101 | in every run, what was handed over since the activation is, modifiers apart, exactly what arrived to be forwarded: every move and scroll with its arguments, every button, key, repeat and release, in order, up to an overload |
| `CaptureEmission.ModifiersComeFirst` | src/remoteinput/capture.py:38-42 | in every run, when a key, button, move or scroll is handed over, the receiver already holds exactly the keys then down that are neither ignored nor swallowed (F9 and F10 apart) |
| `CaptureEmission.SeesWhatIsDown` | src/remoteinput/capture.py:46-50 | in every run the sets of keys and buttons are those physically down |
| `CaptureEmission.ChordFires` | src/remoteinput/capture.py:51-56 | in every run F9 pressed with Ctrl and Alt down calls toggle and F10 calls stop, once per press, and nothing else calls either |
| `CaptureEmission.PausedRouting` | src/remoteinput/capture.py:51-66 | while inactive the mouse is left alone and a key is suppressed exactly if it is such a chord or still swallowed |
| `CaptureEmission.TapReaches` | src/remoteinput/capture.py:70-78 | in every run a modifier tapped alone reaches the target as a press and a release |
| `CaptureEmission.LocalReleasePasses` | src/remoteinput/capture.py:31-66 | in every run a key that was down at the activation gets its release at the local applications after a pause |
| `CaptureEmission.ReleaseForgets` | src/remoteinput/capture.py:57-64 | letting go of a key ends its being ignored or swallowed, except that a key which is both stays ignored |
| `CaptureEmission.HeldAcrossActivations` | src/remoteinput/capture.py:23-64 | a run in which a key held across a pause and a new activation is lost at its next press |
| `EndToEnd.TargetHoldsForwarded` | src/remoteinput/capture.py:38-101 | policy, and every interleaving of the controller's hooks, sender and writer and of the target's threads, composed through the wire format: once drained with the epoch still in control, the keys the target tracks and its system holds are exactly the forwarded ones, its buttons those down that are not ignored, and it has moved and scrolled exactly as far as the input that arrived to be forwarded |
| `EndToEnd.WrittenEffect` | src/remoteinput/controller.py:82-98 | in every interleaving, the written frames of an epoch leave held, and move and scroll, what its accepted input does |
| `SenderDelivery.HandedExactly` | src/remoteinput/controller.py:82-98 | in every interleaving and for every epoch, the accepted frames the controller did not add by itself are exactly the items popped while that epoch was in control, in order; while nothing is lost, with the queued ones they are all the input accepted under it |
| `SenderDelivery.LostOnlyBy` | src/remoteinput/controller.py:86-97 | input of an epoch is lost only by an overload, a clear, or a pop that finds another epoch in control or a failed outbox |
| `Queueing.RunHeld` | src/remoteinput/queueing.py:38-47 | appending a run or its merge leaves the same keys held |
| `Queueing.RunTravel` | src/remoteinput/queueing.py:38-47 | a run travels as far as its merge |
| `EndToEnd.MergingEffect` | src/remoteinput/queueing.py:38-47 | merging moves never changes which keys and buttons a stream of events leaves held, nor how far it moves and scrolls |
| `Limiter.RateLimit.Evict` | src/remoteinput/registry.py:120-121 | expired buckets are taken from the front up to the first live one; the last entry of the head is always there to read |
| `Limiter.RateLimit.Prune` | src/remoteinput/registry.py:125-126 | expired times are taken from the front of one bucket |
| `Limiter.RateLimit.TryAcquire` | src/remoteinput/registry.py:117-131 | the new table and the answer of allow |
| `LimiterRefinement.AnswerExact` | src/remoteinput/registry.py:117-131 | the answer is that of the limiter which remembers everything, except for a key not remembered while the table is full |
| `LimiterRefinement.RefinesHistory` | src/remoteinput/registry.py:110-131 | in every run buckets are never empty nor more than the capacity, and every open window shows the same times in table and history |
| `LimiterRefinement.NeverExceeded` | src/remoteinput/registry.py:110-131 | no window of the configured length, wherever it is placed, holds more acceptances of a key than allowed |
| `LimiterRefinement.EvictsExactly` | src/remoteinput/registry.py:120-121 | eviction forgets exactly the keys used longest ago whose latest time has left the window, up to the first whose has not, and keeps the times of the others |
| `LimiterRefinement.RefusedWhileIdle` | src/remoteinput/registry.py:120-123 | a key with nothing in its window is refused exactly when the table, after eviction from its head, is full without it |
| `LimiterRefinement.ExpiredBehindLive` | src/remoteinput/registry.py:120-130 | a run in which an expired bucket behind a live head causes such a refusal |
| `Registry.NumberOfName` | src/remoteinput/registry.py:46-55 | formatting then parsing a number gives it back exactly below 1,000,000,000,000 |
| `Registry.AliasExists` | src/remoteinput/registry.py:50-55 | a second spelling of a number is accepted |
| `Registry.Store.AddTarget` | src/remoteinput/registry.py:57-73 | the table, number and generation after a registration |
| `Registry.Store.ChangePassword` | src/remoteinput/registry.py:94-107 | the table and generation after a rotation, or its refusal |
| `Registry.RegistrationStable` | src/remoteinput/registry.py:57-73 | retrying a registration gives the same number, changes nothing and never replaces the password; owners never share a number |
| `Registry.RotationIdempotent` | src/remoteinput/registry.py:94-107 | resending a rotation changes nothing; a new one raises the generation by one, makes exactly the new password work and touches no other target |
| `Relay.RelayServer.PutMessage` | src/remoteinput/relay.py:21-24 | a message is queued unless 256 are waiting |
| `Relay.RelayServer.AddTarget` | src/remoteinput/relay.py:85-89 | one connection per target name |
| `Relay.RelayServer.AddController` | src/remoteinput/relay.py:96-111 | admission by generation, presence and vacancy; the controller is listed before its target is told |
| `Relay.RelayServer.PassFrame` | src/remoteinput/relay.py:120-124 | a frame is forwarded only for the session still listed |
| `Relay.RelayServer.FinishRotation` | src/remoteinput/relay.py:158-164 | the controller is delisted and the target told |
| `Relay.RelayServer.RemoveTarget` | src/remoteinput/relay.py:182-187 | a departing target takes its controller's admission with it |
| `Relay.RelayServer.RemoveController` | src/remoteinput/relay.py:188-195 | a departing controller is delisted and its target told |
| `RelaySystem.SessionsAlways` | src/remoteinput/relay.py:85-111 | in every interleaving: exactly the holder of pair_lock is inside it, listed targets are running connections under their own names, and running ones are listed |
| `RelaySystem.ControllersHaveTargets` | src/remoteinput/relay.py:96-111 | admitted controllers' names are connected targets' names, and each controller is served by the target connection it was admitted to |
| `RelayQueues.QueuesBounded` | src/remoteinput/relay.py:18-24 | in every run what the writer has taken is a beginning of what was put, and at most 256 messages wait |
| `RelayQueues.AllHandedOn` | src/remoteinput/relay.py:26-35 | in every run as many turns of the writer as messages wait hand on all of them, in order |
| `RelayQueues.FrameReachesHome` | src/remoteinput/relay.py:120-126 | in every run a frame of an admitted controller is appended unchanged to the queue of the connection it was admitted to, if it is still listed and fewer than 256 wait; otherwise nothing is put and its session ends |
| `RelayQueues.PasswordAdmits` | src/remoteinput/relay.py:96-111 | in every run with the lock free, a controller with the right password gets in exactly if its target is connected and uncontrolled, and one with a wrong password is turned away |
| `RelayQueues.RegisteredLogin` | src/remoteinput/registry.py:57-92 | a new target's name logs in with its own password and no other, and proves itself with its own token and no other |
| `RelayIsolation.QueueIsolation` | src/remoteinput/relay.py:99-126 | in every target queue: a frame follows its controller's announcement, frames of two controllers have the second one's announcement between them, and no frame follows its controller's departure or revocation |
| `RelayIsolation.FramesAnnounced` | src/remoteinput/relay.py:108-124 | every frame is preceded by its controller's announcement |
| `RelayIsolation.OneHome` | src/remoteinput/relay.py:120-124 | no controller's frames are in the queues of two target connections |
| `RelayIsolation.IsolationAlways` | src/remoteinput/relay.py:99-195 | the invariant behind them, over every interleaving |
| `RelayExactness.CurrentExactly` | src/remoteinput/relay.py:96-164 | in every run, with any names and any cancelled rotations: whenever pair_lock is free, an admitted controller holds the registry's current generation if and only if no rotation of its number was carried out while it was listed, other than by the lock holder about to delist its name, nor between the reading of its generation and its admission |
| `RelayExactness.ExactAlways` | src/remoteinput/relay.py:96-164 | the invariant behind it: a generation read under the lock is still the registry's, and a listed controller is current or about to be delisted, exactly if no such rotation has marked it |
| `RelayRevocation.FreeLockMeansCurrent` | src/remoteinput/relay.py:96-111 | with canonical names and no rotation cancelled, whenever pair_lock is free every admitted controller holds the registry's current generation for its name |
| `RelayEscapes.AliasEscapes` | src/remoteinput/relay.py:154-164 | from any moment at which a controller is listed under another spelling, the rotation leaves it in place with a stale generation |
| `RelayEscapes.AliasRun` | src/remoteinput/relay.py:85-164 | a run from the start that does so, with nothing cancelled |
| `RelayEscapes.CancelEscapes` | src/remoteinput/relay.py:156-161 | cancelling the coroutine that awaits a rotation, whose thread goes on, leaves the controller in place with a stale generation |
| `RelayEscapes.CancelRun` | src/remoteinput/relay.py:156-195 | a run from the start, with canonical names only, in which the stale controller stays on a target that connected again |
| `Rotation.Vault.Save` | src/remoteinput/vault.py:25-26 | the record is replaced whole, or the save raises and changes nothing |
| `Rotation.Vault.TargetIdentity` | src/remoteinput/vault.py:145-151 | the saved identity, or a new one saved before it is used |
| `Rotation.Vault.BeginRotation` | src/remoteinput/vault.py:154-159 | a pending change is kept; otherwise a new one is saved first |
| `Rotation.Vault.FinishRotation` | src/remoteinput/vault.py:162-167 | the pending password becomes the password, or nothing changes |
| `TargetClient.Target.Start` | src/remoteinput/target.py:17-20 | a program start with whatever the vault holds |
| `TargetClient.Target.Rotate` | src/remoteinput/target.py:32-37 | mark, journal, send; a failed save ends the connection |
| `TargetClient.Target.Registered` | src/remoteinput/target.py:58-66 | the reply's id is saved and a change under way is sent again |
| `TargetClient.Target.Confirmed` | src/remoteinput/target.py:74-88 | a confirmation finishes the change, or ends the connection |
| `TargetClient.Target.RotateOffline` | src/remoteinput/target.py:111-118 | the command between connections |
| `TargetClient.Target.Disconnect` | src/remoteinput/target.py:104-106 | the end of a connection |
| `RotationSystem.PasswordNeverLost` | src/remoteinput/vault.py:145-167 | over every run of disconnects, lost replies, requests cut off and carried out late, failed saves, crashes and commands at any time: the registry's password is at every moment the saved or the pending one, and the saved one when nothing is pending, if and only if no confirmation is taken while the registry shows another change and no superseded request is carried out late |
| `RotationProgress.NeverForgotten` | src/remoteinput/target.py:32-37 | in every run, on a connection alive on both sides an unconfirmed change is requested or has a confirmation on its way, and a target that believes in a change has it in its journal |
| `RotationProgress.NextConnectionCompletes` | src/remoteinput/target.py:58-88 | from every reachable moment without a connection, a journaled change is completed by one undisturbed connection: vault and registry then both have the new password and nothing is pending |
| `RotationSystem.ConsistentStep` | src/remoteinput/target.py:82-84 | exactly these two steps lose the password |
| `RotationSystem.SettledKeepsPassword` | src/remoteinput/target.py:32-37 | beginning changes only with nothing of an earlier one outstanding rules both out, as long as no late request takes the registry back |
| `RotationRuns.UnsettledRun` | src/remoteinput/target.py:82-84 | a run in which a confirmation meant for an earlier change loses the password |
| `RotationRuns.LateRun` | src/remoteinput/registry.py:94-107 | a run, with every change begun in order and confirmed, in which a request carried out late loses the password and raises the generation a second time for its id |
| `RotationSystem.GenerationCountsRotations` | src/remoteinput/registry.py:94-107 | in every run the generation counts the rotations that raised it, and each rotation id raised it once, however often it was resent, if and only if no request was carried out again after another change had been |
| `RotationSystem.RaisesExactly` | src/remoteinput/registry.py:101-107 | in every run, carrying out a request raises the generation exactly when the latest id carried out is another one, and nothing else changes it |
| `RotationSystem.ExecuteOnce` | src/remoteinput/registry.py:101-107 | as long as no late request takes the registry back, a request raises the generation exactly when its rotation id is new |
| `RotationSystem.SettledIsExact` | src/remoteinput/target.py:82-84 | in every run, a change begun now on a connection the relay serves is confirmed soundly by the next confirmation if and only if nothing of an earlier change is outstanding, because the confirmation carries no rotation id |
| `RotationSystem.Always` | src/remoteinput/target.py:32-37 | the invariant behind them, over every run: memory and vault agree, requests of one connection come in the order in which their changes were begun, and the row shows the last change that raised the generation |
| `HandOff.WindowsCapture.SetActive` | src/remoteinput/platforms/windows.py:146-167 | the state after a request from any thread and whether it raises, posted, coalesced or failed |
| `HandOff.WindowsCapture.RestoreDesk` | src/remoteinput/platforms/windows.py:169-173 | the recorded position is forgotten first and then put back |
| `HandOff.WindowsCapture.HoldCursor` | src/remoteinput/platforms/windows.py:187-195 | the position is recorded and the cursor anchored |
| `HandOff.WindowsCapture.Complete` | src/remoteinput/platforms/windows.py:196-202 | activation only if the request seen at the start is still the latest |
| `HandOff.WindowsCapture.Dispatch` | src/remoteinput/platforms/windows.py:199-200 | requests made by callbacks inside a native call |
| `HandOff.WindowsCapture.ApplyState` | src/remoteinput/platforms/windows.py:175-205 | the state after a posted message, with every native call failing or re-entering, and whether it raises |
| `HandOffSystem.ActiveIsRequested` | src/remoteinput/platforms/windows.py:146-205 | in every reachable state an active policy is still requested |
| `HandOffSystem.PauseHolds` | src/remoteinput/platforms/windows.py:146-205 | a pause lasts until someone asks to activate again, whatever messages are on their way |
| `HandOffSystem.OneMessage` | src/remoteinput/platforms/windows.py:152-167 | in every run, whatever posts fail, the note of a message on its way is set exactly while one is, and there is never a second |
| `HandOffSystem.ActivatesExactly` | src/remoteinput/platforms/windows.py:175-205 | from every state, the posted message leaves the policy active exactly if activation is requested and it was active, or everything worked and no request came while the activation was under way |
| `HandOffSystem.SettledAsRequested` | src/remoteinput/platforms/windows.py:146-167 | with no message pending, the hook thread idle and the last post delivered, active equals requested exactly unless the request itself raised for want of a thread |
| `HandOffSystem.SettledCursor` | src/remoteinput/platforms/windows.py:169-205 | settled and inactive: no position is left to restore, and the cursor stands where the program put it exactly if the latest restore went amiss and the user has not moved it since |
| `HandOffSystem.RestoresHome` | src/remoteinput/platforms/windows.py:169-195 | in every run a recorded position is where the user left the cursor, and restoring it puts the cursor there, if and only if the activation that recorded it did not begin with the cursor still placed away from there |
| `HandOffSystem.RecordsExactly` | src/remoteinput/platforms/windows.py:184-190 | which activations those are: the latest restore went amiss, the user has not moved the cursor since, and it is not at home |
| `HandOffSystem.PutBackAtHome` | src/remoteinput/platforms/windows.py:169-205 | in every run, whatever step ends the cursor's standing where the program put it, without the user moving it, leaves it where the user had it |
| `HandOffSystem.WanderHeals` | src/remoteinput/platforms/windows.py:184-190 | once the user has moved the cursor, the next activation records where it is |
| `HandOffSystem.StuckForgetsHome` | src/remoteinput/platforms/windows.py:169-195 | a run in which a refused restore makes the next activation record the anchor |
| `HandOffSystem.Always` | src/remoteinput/platforms/windows.py:146-205 | the invariant behind them, including the clean-up of the hook thread at lines 307-309 |
| `Transport.Outbox.Post` | src/remoteinput/transport.py:22-33 | the outbox after a put and whether it schedules a wake |
| `Transport.Outbox.Take` | src/remoteinput/transport.py:40-50 | one turn of the writer's loop up to the write |
| `WakeUp.NoLostWakeUp` | src/remoteinput/queueing.py:53-56 | in every interleaving of producers, clears, deliveries and both loops: a consumer asleep and unsignalled with items or a failure waiting has a wake on its way |
| `WakeUp.AsleepMeansDone` | src/remoteinput/controller.py:82-98 | when both loops sleep with nothing on its way, the queue is empty and every accepted frame has been written |
| `WakeUp.WrittenInOrder` | src/remoteinput/transport.py:36-53 | what is written is a prefix of what was accepted, numbered strictly increasingly |
| `WakeUp.WrittenAreOrdered` | src/remoteinput/controller.py:66-68 | the frames written after an activation satisfy the numbering that gap-free delivery assumes |
| `WakeUp.FailureIsPermanent` | src/remoteinput/transport.py:22-53 | a failed outbox stays failed: nothing more is accepted and at most the frame being written is completed |
| `SenderFrames.FramesCarry` | src/remoteinput/controller.py:66-68 | in every run an action sends exactly the frame of its event, with its operation, epoch and arguments, the count of all frames made, its time stamp and the lease set last, unless the outbox has failed or holds 256 |
| `SenderFrames.BacklogIsQuiet` | src/remoteinput/transport.py:22-33 | a frame put behind others in an outbox that takes it schedules no wake; every other put does |
| `SenderFrames.WriterSendsAll` | src/remoteinput/transport.py:36-53 | from every reachable state with the writer at work, everything accepted is written, in order, if nothing waits longer than 0.1 s and no write fails |
| `SenderFrames.StaleNeverWritten` | src/remoteinput/transport.py:44-50 | a frame that has waited longer than that is never written |
| `ControllerLink.Controller.Enqueue` | src/remoteinput/controller.py:39-43 | an event is queued under the current epoch, and an overload stops control |
| `ControllerLink.EnqueueExactly` | src/remoteinput/controller.py:39-59 | without a connection or an epoch nothing is put; otherwise the event waits under the epoch in control, or the queue refuses it and control ends with nothing waiting |
| `ControllerLink.Controller.StopControl` | src/remoteinput/controller.py:56-58 | no epoch and an empty queue |
| `ControllerLink.Controller.SendFrame` | src/remoteinput/controller.py:66-68 | the next number and the present lease, then the outbox |
| `ControllerLink.Controller.TakeTurn` | src/remoteinput/controller.py:84-98 | one turn of the sender: clearing its event, one pop and its frame, the stop after an overload, or the wait |
| `ControllerLink.Controller.Intrude` | src/remoteinput/controller.py:39-59 | what the hook thread does between two turns: enqueue or stop |
| `ControllerLink.Controller.RunSender` | src/remoteinput/controller.py:82-98 | the sender to its next wait, with the hook thread acting before any of its turns |
| `ControllerLink.PassIsRun` | src/remoteinput/controller.py:82-98 | such a round is a run of the interleaved system, so its theorems hold of the object |
| `ControllerLink.PassHandsOn` | src/remoteinput/controller.py:82-98 | an undisturbed, timely round hands on exactly the current epoch's events, in order, consecutively numbered, under the present lease |
| `ControllerLink.OverloadStops` | src/remoteinput/controller.py:96-97 | a round that meets an overload ends with no epoch and an empty queue and sends nothing, whatever the hook thread does before the stop |

## Left out

- WebSocket, TLS, asyncio task plumbing, reconnect delays and ping measurements: library input and output; only the steps between awaits are kept.
- Win32, CoreGraphics, DPAPI and Keychain calls: represented by parameters that say whether a call fails and what it leaves behind.
- SQLite, password hashing and digests: the registry is a table changed atomically, secrets are numbers, and digests are injective.
- Random nonces, epochs and passwords: arbitrary values; a repeated nonce overwrites its lease as in the source, and drawn passwords and rotation ids are assumed not to repeat.
- Floating point: times and the estimator are real numbers; rounding, infinities and NaN are not modelled.
- Status text, metrics, timing fields of acknowledgements, the console, `cli.py`, key names, scroll remainders and URL checks: no effect on the state machines.
- Exceptions from `permitted()` inside a tick: the source lets them end the worker thread; here the call answers yes or no.
- Several producers on one queue: each queue has one producer, whose clock does not run backwards, because `put` reads the clock outside the lock.
- Hotkey callbacks: fired while active, they are taken to pause the policy, as `Controller.toggle` and `stop_control` do; apart from the pause of an overload, emit is taken not to call back into the policy.
- The controller's activation handshake (`activate`, `reader`, `monitor`): the epoch and the lease change by arbitrary steps; that an active capture has a nonzero epoch is not claimed, and can fail when the hook thread stops control between `controller.py` lines 132 and 133.
- The 350 ms write limit and the age limit of the relay's own writer: an expired message ends that connection, which is the failure step of the relay model.
- Rate limits, the 512-connection limit and the semaphore around hashing in the relay's handler: they only refuse or delay connections.
- A registration when twelve digits of target numbers are used up: the relay model lets nothing happen then.
- Losing the vault's file between runs: a saved record stays saved.
- Leaving the hook thread by an exception instead of a quit message: the clean-up is the same and is modelled once.
- EngineGapFree.GapFree: assumes that inputs of an epoch arrive with increasing numbers; `WrittenAreOrdered` proves the sender's side of it, and the relay and transport are taken to keep order.
- EndToEnd.TargetHoldsForwarded: says nothing of keys the target does not support, because such a key ends control; the relay and transport are taken to carry what is written, in order, and the controller to send no input of an epoch before its target has activated it.
- ControllerLink.PassHandsOn: describes an undisturbed round; `SenderDelivery.HandedExactly` is the statement over every interleaving.
- EngineDelivery.ResetIsBarrier: an activation frame already popped when a reset comes is still processed, as in the source; only inputs are barred.
- QueueConservation.Conservation: covers one producer; after a failure it speaks of what had been delivered, since the rest is discarded by design.
- RelayRevocation.FreeLockMeansCurrent: assumes canonical names and no cancelled rotation; `CurrentExactly` drops both and says exactly which controllers are current.
- RotationSystem.PasswordNeverLost: assumes that drawn passwords and rotation ids do not repeat.
- RotationSystem.ExecuteOnce: assumes that no late request takes the registry back; `GenerationCountsRotations` and `RaisesExactly` say what happens otherwise.
- WakeUp.NoLostWakeUp: a wake refused because the event loop is closed is not modelled, since nothing waits then.
