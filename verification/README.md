# Verified model of the robot demonstration collector

This project models the parts of the `ur12e_collection` package in which a mistake would silently produce unsafe motion
or a wrong recording, and proves what they are for. `dafny verify dfyconfig.toml` checks everything.

## How the model is laid out

Each component has a specification module of plain values (its state, its transitions, its error cases), an object that
updates its fields in place as the program does and is proved equal to those transitions, and lemmas over whole runs.

| component | files |
|---|---|
| command pipeline: leader input, precision profile, tracker, motion owner | `Conditioning`, `ConditioningProofs`, `Overshoot`, `Precision`, `LeaderInput`, `Owner`, `OwnerProofs`, `Settling` |
| the second implementation of the pipeline, and the theorem that the runtime refines it | `LeaderAudit`, `AuditTheorem`, `Restamping` |
| three-camera matcher and what the archive demands of its groups | `Matching`, `MatchingProofs`, `MatchingEager`, `MatchingPruning`, `Groups` |
| archive writer, streaming verifier, control-log validator | `Archive`, `ArchiveProofs`, `ControlRecords`, `ControlProofs`, `ControlExactly` |
| shared-memory ring, background writer, capture window | `SharedFrames`, `Storage`, `Recording`, `RecordingProofs`, `CaptureWindow` |
| route executor, follower service, stream framing | `Kinematic`, `KinematicProofs`, `FollowerService`, `Framing` |
| collection session, and its messages to the capture | `Collection`, `CollectionProofs`, `CollectionCapture` |
| shared vocabulary | `Prelude`, `Model`, `Contracts` |

## Conventions

- Numbers that the program keeps as floats are exact reals; times are integer nanoseconds, except that the route
  executor's clock is float seconds and is modelled as reals.
- `math.sqrt` and `math.exp` are function parameters. What is used of the square root is stated as `IsSqrt`; nothing is
  used of the exponential. Forward kinematics is an arbitrary function of the joints.
- A raised exception is an error value or a missing result. Where the program has already changed state before it raises
  and goes on, the changed state is part of the outcome (`Kinematic`, `Collection`, `Owner`, `Matching`).
- Concurrency is interleaving of atomic steps: single words copied into and out of a slot, one queue or semaphore
  operation, one critical section.
- Calls into devices, codecs, file systems and other processes are parameters of an operation, so the theorems hold for
  every outcome they may have.

## Results that say where the code stops

- The auditor accepts the runtime's stream exactly when the feedback continues one source: a known clock, times that
  do not move back, and equal controller times only on equal packets (`RuntimeRefinesAuditor`). The runtime does not
  require that. A controller packet that is read twice and stamped at each read is accepted by the runtime and refused
  by the auditor, from every engagement (`RestampedExactly`, `RestampedRefused`) and on one written out in full
  (`RestampedStation`).
- A capture is complete exactly when no pass met, at or past the boundary then in force, a frame of the final window
  (`CapturedExactly`). The collection session sends one freeze per window, under any failures, so its captures are
  complete (`SessionCapturesAll`); a second freeze that raises the boundary loses frames without an error
  (`RaisedBoundaryLoses`).
- An engine that refuses a move for its speed or acceleration has already replaced its target and route. By itself it
  keeps the speed limit exactly when the move was admissible or near (`MoveKeepsPaceExactly`). In the program the
  follower service holds the engine before any update, so a refused command moves nothing (`RefusalMovesNothing`) and
  moves keep the speed limit over every run (`ServiceIsPaced`).
- A verified sequence is blocks of seven only in its camera messages (`VerifiedShape`): a rejection may stand anywhere
  after the preface, also between a group and its images (`DiagnosticAnywhere`).
- The tracker overshoots exactly when a step is too short for a joint to shed its velocity within the error that is
  left (`OvershootExactly`). Steps that never shrink rule that out (`NoOvershoot`); the default limits admit shrinking
  steps that do overshoot (`ShrinkingStepOvershoots`).

## Model

| member | source | states |
|---|---|---|
| Conditioning.Conditioner.constructor | src/ur12e_collection/control/conditioning.py:11-14 | a tracker starts at its seed with zero velocity |
| Conditioning.Conditioner.Integrate | src/ur12e_collection/control/conditioning.py:27-41 | the per-joint loop accumulates exactly the velocities and positions of the step function, in joint order |
| Conditioning.Conditioner.Step | src/ur12e_collection/control/conditioning.py:16-54 | one command: the new target and velocity of the step function, or the fault with the tracker unchanged |
| ConditioningProofs.RunJoint | src/ur12e_collection/control/conditioning.py:16-54 | each joint of a run evolves independently of the others by the scalar law |
| ConditioningProofs.JointNoOvershoot | src/ur12e_collection/control/conditioning.py:29-40 | for one joint, any number of steps of any never-shrinking lengths keep later positions between earlier ones and the goal |
| ConditioningProofs.NoOvershoot | src/ur12e_collection/control/conditioning.py:16-54 | from rest, fixed goal and gain, step times that never shrink: the error of every joint keeps its sign and never grows |
| ConditioningProofs.ReachesGoal | src/ur12e_collection/control/conditioning.py:16-54 | with a constant step time a run that does not fault stands exactly at the goal once steps times stride cover the initial error |
| ConditioningProofs.NeverFaults | src/ur12e_collection/control/conditioning.py:16-54 | such a run never faults when goal and seed are admissible and each step is fresh and fits the step limit |
| ConditioningProofs.AlwaysReachesGoal | src/ur12e_collection/control/conditioning.py:16-54 | both together: finite, exact convergence with a step bound and no fault |
| Overshoot.JointExactly | src/ur12e_collection/control/conditioning.py:29-40 | one step of a joint that does not move away from its goal stays between its position and the goal if and only if the travel left under full deceleration fits into the error |
| Overshoot.CommandExactly | src/ur12e_collection/control/conditioning.py:16-54 | the same for a whole issued command, read off the tracker's target and velocity before it |
| Overshoot.OvershootExactly | src/ur12e_collection/control/conditioning.py:16-54 | from rest, for any step times: no joint ever overshoots if and only if before every command every joint could still stop in time |
| Overshoot.ShrinkingStepOvershoots | src/ur12e_collection/control/conditioning.py:27-54 | with the default limits, steps of 100 and then 50 ms from rest pass every check and stand past the goal |
| Precision.CorrectAll | src/ur12e_collection/control/precision.py:88-107 | the appending loop returns the contracted vector, joint by joint |
| Precision.GainWithin | src/ur12e_collection/control/precision.py:43-51 | the scheduled gain lies between the first knot's gain and 1 at every height |
| LeaderInput.CheckEngagement | src/ur12e_collection/leader/episode.py:81-119 | the checks in their order, sample by sample: which one refuses, and none exactly when follower and reference window are good |
| LeaderInput.EngageMapper | src/ur12e_collection/leader/episode.py:77-107 | engagement either yields a mapper on its last sample or the first check that failed, an unsteady window apart from every other refusal |
| LeaderInput.EpisodeMapper.Target | src/ur12e_collection/leader/episode.py:146-166 | the mapped pose against the fixed or the running reference; any refusal latches the mapper |
| LeaderInput.EpisodeMapper.Stop | src/ur12e_collection/leader/episode.py:168-170 | a stopped mapper stays stopped |
| LeaderInput.EngageInput | src/ur12e_collection/leader/input.py:16-50 | opening either refuses as the mapper does or yields an input with the baseline, the start pose and a tracker at rest |
| LeaderInput.Input.Take | src/ur12e_collection/leader/input.py:108-131 | a repeated reading keeps its age and refreshes only the precision pose; a new one is mapped once |
| LeaderInput.Input.Look | src/ur12e_collection/leader/input.py:86-92 | precision evidence comes from fresh, admissible measured feedback only |
| LeaderInput.Input.CorrectNow | src/ur12e_collection/leader/input.py:96-106 | the contracted pose becomes the next reference and completes the evidence |
| LeaderInput.Input.Continue | src/ur12e_collection/leader/input.py:85-106 | every later sample is the composition observe, map, contract, condition, in that order of faults |
| LeaderInput.Input.Pull | src/ur12e_collection/leader/input.py:77-106 | the first sample returns the engagement pose, later ones advance the input |
| LeaderInput.Input.Sample | src/ur12e_collection/leader/input.py:67-75 | every refusal closes the input, and a closed input refuses everything |
| LeaderInput.Input.Close | src/ur12e_collection/leader/input.py:137-140 | closing retires the baseline |
| LeaderAudit.SumGain | src/ur12e_collection/leader/precision_audit.py:84-97 | the auditor's loop over clamped segments computes the summed schedule |
| LeaderAudit.ClipLoop | src/ur12e_collection/leader/precision_audit.py:101-115 | the auditor's clip-and-decay loop, joint by joint |
| LeaderAudit.Restore | src/ur12e_collection/leader/precision_audit.py:18-47 | one restored intent: the expected pose and the auditor's next reference, feedback and gain, or a refusal |
| LeaderAudit.FollowLoop | src/ur12e_collection/leader/precision_audit.py:117-130 | the auditor's independent command recomputation |
| LeaderAudit.OpenAudit | src/ur12e_collection/leader/audit.py:12-57 | opening on a recorded baseline: refused for its age or its calibration, otherwise at the start pose |
| LeaderAudit.Auditor.Intent | src/ur12e_collection/leader/audit.py:66-112 | one recorded intent updates the previous sample and intent time, or is refused |
| LeaderAudit.Auditor.Sent | src/ur12e_collection/leader/audit.py:114-133 | one recorded command updates the carried command and velocity, or is refused |
| AuditTheorem.GainsAgree | src/ur12e_collection/leader/precision_audit.py:84-97 | the auditor's summed clamped segments equal the runtime's piecewise-linear gain at every height |
| AuditTheorem.ContractionsAgree | src/ur12e_collection/leader/precision_audit.py:101-115 | clipping then decaying the excess equals blending toward the feasible interval |
| AuditTheorem.CorrectionsAgree | src/ur12e_collection/leader/precision_audit.py:101-115 | the whole contraction vectors of runtime and auditor are equal |
| AuditTheorem.CommandsAgree | src/ur12e_collection/leader/precision_audit.py:117-130 | the auditor recomputes exactly the command the tracker issued |
| AuditTheorem.IssuedDerivatives | src/ur12e_collection/leader/audit.py:114-133 | finite differences of issued commands recover the tracker's velocity and stay within speed and acceleration at any gain |
| AuditTheorem.PrecisionStep | src/ur12e_collection/leader/input.py:77-131 | one precision sample: the recorded intent and command are accepted and every carried value stays equal |
| AuditTheorem.PrecisionRefused | src/ur12e_collection/leader/precision_audit.py:49-83 | a tick that the runtime accepted is refused by the auditor when its feedback does not continue its source |
| AuditTheorem.RelativeStep | src/ur12e_collection/leader/input.py:77-131 | the same for the plain relative mapping |
| AuditTheorem.RuntimeRefinesAuditor | src/ur12e_collection/leader/audit.py:9-133 | over every engagement and run the recorded stream is accepted record by record if and only if the feedback continues one source, and the auditor ends with the runtime's own reading, reference, command and velocity |
| Restamping.RestingTick | src/ur12e_collection/leader/input.py:77-131 | a tracker at rest at HOME stays there while its reading repeats, and takes any fresh packet as evidence |
| Restamping.RestampedExactly | src/ur12e_collection/leader/precision_audit.py:69-83 | from every engagement with a precision profile: over two reads of one controller packet the runtime refuses nothing, and the auditor accepts the recorded stream if and only if the clock is known, the time not negative, and the packet not stamped anew |
| Restamping.RestampedRefused | src/ur12e_collection/control/ur.py:90-96 | each read stamped at its own sample, as the reader does: accepted by the runtime, refused by the auditor |
| Restamping.RestampedStation | src/ur12e_collection/leader/precision_audit.py:75-83 | one such input in full: a station with the default limits, a steady window, HOME, and a packet read again after 10 ms |
| Settling.Standstill.Update | src/ur12e_collection/control/settling.py:21-39 | one packet: the verdict and next window of the two-clock detector |
| Settling.ReplayIsExamined | src/ur12e_collection/control/settling.py:21-39 | the window remembers the last examined packet and the first packet of its steady run |
| Settling.ConfirmsExactly | src/ur12e_collection/control/settling.py:13-39 | standstill is confirmed if and only if the examined history ends in slow samples with both clocks strictly advancing within the freshness bound over 200 ms on each |
| Owner.Controller.constructor | src/ur12e_collection/control/owner.py:44-52 | a controller starts holding, with nothing dispatched |
| Owner.Controller.Fail | src/ur12e_collection/control/owner.py:65-77 | the first fault revokes every queued target and dispatches one stop; later ones change nothing |
| Owner.Controller.Tick | src/ur12e_collection/control/owner.py:79-122 | one tick: read, reject in the source's order, refresh the watchdog, settle |
| Owner.Controller.Inspect | src/ur12e_collection/control/owner.py:86-116 | which packets a tick rejects, and when it has already refreshed the progress clock |
| Owner.Controller.SettleNow | src/ur12e_collection/control/owner.py:124-144 | measured arrival and standstill decide the next waypoint or hold |
| Owner.Controller.MoveNext | src/ur12e_collection/control/owner.py:146-151 | the next waypoint is dispatched with the route's own rates and a fresh deadline |
| Owner.Controller.Route | src/ur12e_collection/control/owner.py:153-187 | a route starts only from a measured, fresh, stopped start inside the limits |
| Owner.Controller.Engage | src/ur12e_collection/control/owner.py:197-220 | following starts only at an authorized, aligned, fresh, stopped pose |
| Owner.Controller.Follow | src/ur12e_collection/control/owner.py:222-254 | a target is dispatched unchanged or faults; nothing is clamped |
| Owner.Controller.Halt | src/ur12e_collection/control/owner.py:256-273 | halting revokes following and starts a new standstill window |
| Owner.Controller.Close | src/ur12e_collection/control/owner.py:275-280 | closing during motion is a fault |
| OwnerProofs.FollowingIsPaced | src/ur12e_collection/control/owner.py:222-273 | over every run, two targets of one following interval differ by at most speed times elapsed time on every joint, and after a stop no servo target is dispatched before a new engagement |
| OwnerProofs.FaultIsFinal | src/ur12e_collection/control/owner.py:59-77 | a faulted or closed owner dispatches nothing more whatever is called |
| OwnerProofs.HoldOnlyAfterStandstill | src/ur12e_collection/control/owner.py:124-129 | a stopping owner reaches hold on a tick if and only if the packet is accepted and the packets since the halt end in a stationary run |
| OwnerProofs.OnlyTicksHold | src/ur12e_collection/control/owner.py:256-273 | no other operation takes a stopping owner to hold |
| OwnerProofs.ConditionedAlwaysFollowed | src/ur12e_collection/control/teleop.py:151-165 | every command the tracker issues, at any admitted gains and goals, passes every follow check of the owner engaged at its seed |
| OwnerProofs.EngagedInStep | src/ur12e_collection/control/teleop.py:92-120 | engaging at the tracker's seed puts owner and tracker in step |
| Matching.Matcher.constructor | src/ur12e_collection/matching.py:137-148 | an empty matcher at generation zero |
| Matching.Matcher.Push | src/ur12e_collection/matching.py:203-225 | one frame: late decisions first, then admission and eager decisions, or the fault or refusal |
| Matching.Matcher.Advance | src/ur12e_collection/matching.py:227-230 | time alone resolves expired anchors |
| Matching.Matcher.Finish | src/ur12e_collection/matching.py:232-238 | everything pending is decided and every buffer emptied |
| Matching.Matcher.Reset | src/ur12e_collection/matching.py:185-193 | a newer generation discards pending work explicitly |
| Matching.Matcher.Invalidate | src/ur12e_collection/matching.py:195-201 | every pending anchor is rejected once, in order |
| Matching.Matcher.DrainDue | src/ur12e_collection/matching.py:299-321 | anchors are decided from the front exactly while they are due |
| Matching.Matcher.DecideNow | src/ur12e_collection/matching.py:284-297 | an accepted anchor replaces the used frames, a rejected one changes nothing |
| Matching.Matcher.PruneOld | src/ur12e_collection/matching.py:271-282 | only third-camera frames older than the oldest anchor's reach are retired |
| Matching.Matcher.ArriveNow | src/ur12e_collection/matching.py:214-224 | admission remembers, prunes, makes room and appends, in that order |
| MatchingProofs.SelectIsNearest | src/ur12e_collection/matching.py:240-269 | a camera's choice is a buffered fresh frame of least skew, then least time; there is none exactly when no buffered frame qualifies |
| MatchingProofs.EachAnchorOnce | src/ur12e_collection/matching.py:185-238 | over every run, decided anchors followed by the wrist buffer are exactly the admitted wrist frames in order |
| MatchingProofs.BuffersStayBounded | src/ur12e_collection/matching.py:214-224 | no buffer ever exceeds its capacity |
| MatchingProofs.GroupsPassTheArchive | src/ur12e_collection/matching.py:284-297 | within one generation every accepted match of any run passes the archive's group validator, which ends with the matcher's own used frames |
| MatchingEager.RunCoherent | src/ur12e_collection/matching.py:156-179 | in every reachable state each buffer is a strictly ordered chain ending in the newest frame |
| MatchingEager.RunDepthCoherent | src/ur12e_collection/matching.py:156-179 | while no camera's depth time moves back, every reachable state also has depth-ordered buffers |
| MatchingEager.ChoiceIsFinal | src/ur12e_collection/matching.py:240-269 | once a camera has passed the anchor, later frames and pruning do not change an accepted choice |
| MatchingProofs.GenerationPasses | src/ur12e_collection/matching.py:185-193 | from a new matcher, and after a reset of any state at all, an empty archive validator accepts every group of the generation |
| MatchingEager.EagerAcceptanceIsFinal | src/ur12e_collection/matching.py:299-321 | an anchor accepted early keeps the same three members when it is decided after any further valid arrivals |
| MatchingEager.EagerDrainIsFinal | src/ur12e_collection/matching.py:299-321 | the drain that finds the anchor ready and any later drain, timed or forced, after more arrivals begin with the same accepted match |
| MatchingEager.EagerRunIsFinal | src/ur12e_collection/matching.py:203-225 | from a new matcher over any such run: what a push accepts at once is what any later drain after more valid arrivals would accept |
| MatchingPruning.ChoicesAgree | src/ur12e_collection/matching.py:240-282 | the pruned and the unpruned camera choose the same frame |
| MatchingPruning.PruningIsTransparent | src/ur12e_collection/matching.py:271-282 | without third-camera overflow every operation is answered as by a matcher that never prunes and never bounds its third cameras, up to missing view for excessive skew |
| MatchingPruning.NewMatchersAgree | src/ur12e_collection/matching.py:137-179 | two new matchers, one pruning and bounded and one neither, answer every run without overflow alike |
| Groups.GroupValidator.constructor | src/ur12e_collection/archive.py:86-104 | a validator starts with no accepted group |
| Groups.GroupValidator.Check | src/ur12e_collection/archive.py:106-144 | a group is accepted exactly when ordered, identified, within skew and fresher than the last; a refusal keeps the memory |
| Archive.ArchiveWriter.constructor | src/ur12e_collection/archive.py:171-197 | a writer starts with no message and no count |
| Archive.ArchiveWriter.Put | src/ur12e_collection/archive.py:216-229 | one message with the ordered log clock, and its topic's count |
| Archive.ArchiveWriter.Write | src/ur12e_collection/archive.py:199-229 | the snapshot goes first, then the message, or nothing when the time does not fit |
| Archive.ArchiveWriter.WriteMember | src/ur12e_collection/archive.py:250-278 | a member's color packet, then its depth map |
| Archive.ArchiveWriter.Group | src/ur12e_collection/archive.py:231-278 | one group and its six images, after validation |
| Archive.ArchiveWriter.Rejection | src/ur12e_collection/archive.py:280-290 | a rejection diagnostic, never an accepted group |
| Archive.ArchiveWriter.Record | src/ur12e_collection/archive.py:312-326 | a typed record on its own topic |
| Archive.StreamVerifier.constructor | src/ur12e_collection/archive.py:365-392 | a verifier starts with nothing expected |
| Archive.StreamVerifier.Consume | src/ur12e_collection/archive.py:487-502 | one message against the log clock, then by topic |
| Archive.StreamVerifier.ReadGroup | src/ur12e_collection/archive.py:394-417 | a group is validated before its six images are expected |
| Archive.StreamVerifier.ReadImage | src/ur12e_collection/archive.py:419-461 | an image must be the next expected one, in topic, time, number and content |
| Archive.StreamVerifier.ReadJson | src/ur12e_collection/archive.py:504-533 | the preface once and first; groups, rejections and records kept apart |
| ArchiveProofs.GroupTracks | src/ur12e_collection/archive.py:231-278 | after any written group the verifier stands exactly where the writer does |
| ArchiveProofs.WrittenIsVerified | src/ur12e_collection/archive.py:199-334 | every finished episode with a group and the matcher's rejections is accepted by the verifier, with equal counts, log clock and validator states |
| ArchiveProofs.VerifiedShape | src/ur12e_collection/archive.py:394-502 | any verified sequence, not only a written one: strictly increasing log times never below publish times, one preface, and numbered groups with their own six images in order |
| ArchiveProofs.DiagnosticAnywhere | src/ur12e_collection/archive.py:394-461 | any accepted sequence stays accepted when a rejection is put in anywhere after the preface, also among a group's images, and the log clock behind it moves on |
| ControlRecords.Validator.constructor | src/ur12e_collection/control_records.py:9-21 | a validator starts with no record |
| ControlRecords.Validator.Receive | src/ur12e_collection/control_records.py:29-34 | only the receipt extremes are kept |
| ControlRecords.Validator.Frames | src/ur12e_collection/control_records.py:23-27 | with a control snapshot a group contributes the receipts of its frames |
| ControlRecords.Validator.Check | src/ur12e_collection/control_records.py:36-87 | one record: without a control snapshot anything but authority, otherwise source, stamp, clock, sequence and gap, then its own rule |
| ControlRecords.Validator.CheckAuthority | src/ur12e_collection/control_records.py:108-145 | acquired once, then released once, with the declared mapping, the snapshot's precision settings and a gripper baseline |
| ControlRecords.Validator.CheckSample | src/ur12e_collection/control_records.py:147-191 | intent before command, state before equal readback |
| ControlProofs.WindowCovered | src/ur12e_collection/control_records.py:225-234 | a covered stream has a record in every closed window of the maximum gap |
| ControlProofs.AcceptedIsWellFormed | src/ur12e_collection/control_records.py:193-241 | an accepted log has one acquisition and one release, alternating intents and commands, equal paired readbacks, every observation inside, and full coverage of every required stream |
| ControlExactly.ExtremesStep | src/ur12e_collection/control_records.py:22-34 | the remembered receipt extremes are receipts that were really observed |
| ControlExactly.LawfulReplays | src/ur12e_collection/control_records.py:36-87 | a log lawful as streams is never refused before `finish`, entry by entry |
| ControlExactly.CompleteIsFinished | src/ur12e_collection/control_records.py:193-241 | the completion check on the carried state equals a property of the log's streams |
| ControlExactly.AcceptedExactly | src/ur12e_collection/control_records.py:36-241 | for every mapping, a log is accepted through `finish` if and only if its streams are lawful and complete: sources, clocks, consecutive numbers and gaps, one acquisition and release, alternation, echoes, equal readbacks, coverage, rate, containment, and a leader audit that by itself refuses nothing |
| ControlExactly.AnyAcceptedExactly | src/ur12e_collection/control_records.py:36-241 | with a control snapshot exactly the lawful and complete logs are accepted, without one exactly those that claim no authority |
| ControlExactly.DirectNeverTracks | src/ur12e_collection/control_records.py:108-142 | without a relative mapping no leader audit is ever running |
| ControlProofs.AcceptedRate | src/ur12e_collection/control_records.py:219-224 | an accepted log exceeds the minimum command rate over its ownership interval |
| SharedFrames.Slots.constructor | src/ur12e_collection/shared_frames.py:17-20 | both indices start at zero |
| SharedFrames.Slots.Pack | src/ur12e_collection/shared_frames.py:69-80 | exhausted exactly when no permit is left; otherwise one slot holds the frame and every other slot is untouched |
| SharedFrames.Slots.Unpack | src/ur12e_collection/shared_frames.py:82-96 | only the next ticket is read, its words are copied before the permit returns |
| SharedSteps.NextKeeps | src/ur12e_collection/shared_frames.py:69-96 | every micro-step of either process keeps the ring invariant |
| SharedSteps.UnpackedAsPacked | src/ur12e_collection/rig.py:240-248 | under every interleaving what is unpacked is a pixel-exact prefix of what was packed, at most capacity tickets are outstanding, and a full queue, an out-of-order ticket or a surplus release is never met |
| SharedSteps.NeverOverwritesUnread | src/ur12e_collection/shared_frames.py:69-80 | a slot being written never holds an unread ticket, whose words stay intact |
| SharedSteps.ExhaustedOnlyWhenFull | src/ur12e_collection/rig.py:49-55 | the producer runs out exactly when every slot is unread or unreleased, which is before the queue could overflow |
| Storage.EpisodeWriter.constructor | src/ur12e_collection/storage.py:79-102 | an open writer with nothing queued |
| Storage.EpisodeWriter.Submit | src/ur12e_collection/storage.py:125-149 | a submission is queued and counted, refused, or aborts the recording |
| Storage.EpisodeWriter.Abort | src/ur12e_collection/storage.py:165-172 | an abort revokes everything but a commit |
| Storage.EpisodeWriter.BeginFinish | src/ur12e_collection/storage.py:190-204 | completion closes submission and sets the deadline |
| Storage.EpisodeWriter.EndFinish | src/ur12e_collection/storage.py:209-216 | an uncommitted completion revokes the episode |
| Storage.EpisodeWriter.Take | src/ur12e_collection/storage.py:226-233 | the writer takes the oldest item |
| Storage.EpisodeWriter.Account | src/ur12e_collection/storage.py:235-241 | a taken item leaves its own counter |
| Storage.EpisodeWriter.Commit | src/ur12e_collection/storage.py:260-278 | commit only while closing, before the deadline, onto a free destination |
| Storage.EpisodeWriter.Fail | src/ur12e_collection/storage.py:350-355 | a writer failure is final |
| StorageSteps.NextKeeps | src/ur12e_collection/storage.py:125-374 | every atomic step of either thread keeps flow, counters and file contents |
| StorageSteps.CommittedIsComplete | src/ur12e_collection/storage.py:260-374 | a committed episode has consumed every accepted submission exactly once in order, and its file is what those operations write |
| StorageSteps.SubmissionNeverFull | src/ur12e_collection/storage.py:135-149 | no submission of any interleaving finds the internal queue full |
| StorageSteps.RevokedStays | src/ur12e_collection/storage.py:165-216 | after an abort, an overflow, a failure or an expired completion nothing commits |
| StorageSteps.WhatRevokes | src/ur12e_collection/storage.py:125-216 | which steps revoke |
| StorageSteps.OnlyCommitCommits | src/ur12e_collection/storage.py:260-278 | only the writer's commit step commits, before the deadline of a completion under way |
| StorageSteps.CommittedStays | src/ur12e_collection/storage.py:165-216 | a committed episode stays committed |
| StorageSteps.VerificationNeverRefuses | src/ur12e_collection/storage.py:296-307 | the verification between the last item and the commit never refuses a complete episode |
| Recording.Session.constructor | src/ur12e_collection/session.py:14-25 | an idle session |
| Recording.Session.Submit | src/ur12e_collection/session.py:71-94 | recorded, ignored, or an error when it comes after the capture was drained |
| Recording.Session.Begin | src/ur12e_collection/session.py:64-69 | recording starts at the boundary with the acquisition |
| Recording.Session.SubmitFeedback | src/ur12e_collection/session.py:96-110 | only records received from the start on are kept, in order |
| Recording.Capture.constructor | src/ur12e_collection/recording.py:27-36 | nothing pending, no boundary |
| Recording.Capture.Begin | src/ur12e_collection/recording.py:43-50 | a new window starts empty at its boundary |
| Recording.Capture.Freeze | src/ur12e_collection/recording.py:51-54 | a boundary at or past the watermark |
| Recording.Capture.Samples | src/ur12e_collection/recording.py:71-85 | samples below an advancing watermark inside the boundary |
| Recording.Capture.Stop | src/ur12e_collection/recording.py:87-94 | the stop fixes watermark, cutoff and boundary together |
| Recording.Capture.Collect | src/ur12e_collection/recording.py:105-111 | frames read are held back, dropped at the boundary, or checked against a finalizing window |
| Recording.Capture.SubmitEach | src/ur12e_collection/recording.py:116-117 | released frames reach the session in order |
| Recording.Capture.ReleaseDue | src/ur12e_collection/recording.py:112-120 | the watermark releases, the boundary drops, the rest waits |
| Recording.Capture.Conclude | src/ur12e_collection/recording.py:124-130 | finalizing starts once the stop is settled and the wait has passed |
| Recording.Capture.Pass | src/ur12e_collection/recording.py:96-138 | one pass: collect, release, conclude, poll |
| CaptureWindow.CapturedExactly | src/ur12e_collection/recording.py:38-138 | for every run that raises nowhere and finalizes: the window is captured exactly if and only if no pass, with the boundary then in force, met a frame read so far at or past that boundary and inside the final window; boundary, window and frames are read off the operations alone |
| CaptureWindow.FirstCapturesAll | src/ur12e_collection/recording.py:51-54 | when a freeze only ever sets a boundary not yet set, every frame of the window reaches the matcher |
| CollectionCapture.SessionIsTidy | src/ur12e_collection/control/collection.py:323-361 | over every run of the collection session under any failures, a freeze is sent only while no boundary is in force |
| CollectionCapture.SessionCapturesAll | src/ur12e_collection/control/collection.py:323-361 | whatever the components do, a recorder that takes the session's messages in order between its own passes captures every window exactly |
| RecordingProofs.FramesReachTheMatcher | src/ur12e_collection/recording.py:96-138 | frames read since begin reach the matcher as often as read if start <= receipt < cutoff and never otherwise, as long as no freeze raises an earlier boundary |
| RecordingProofs.RaisedBoundaryLoses | src/ur12e_collection/recording.py:51-54 | a concrete run that freezes twice, raises nowhere, and loses a frame of its window |
| RecordingProofs.CamerasKeepOrder | src/ur12e_collection/recording.py:112-120 | each camera's window reaches the matcher in delivery order |
| RecordingProofs.SamplesBelowCutoff | src/ur12e_collection/recording.py:71-94 | acquisition, samples and release are submitted in order, every sample below the cutoff |
| RecordingProofs.ContainmentNeverFails | src/ur12e_collection/control_records.py:235-241 | the control validator's interval containment cannot fail on what the capture submitted |
| Kinematic.Engine.constructor | src/ur12e_collection/followers/kinematic.py:17-30 | at READY, inactive, without a route |
| Kinematic.Engine.Command | src/ur12e_collection/followers/kinematic.py:32-70 | the outcome and the state a command leaves, including what a refused move has already changed |
| Kinematic.Engine.Aim | src/ur12e_collection/followers/kinematic.py:41-48 | a goal is checked, then replaces target and route |
| Kinematic.Engine.Hold | src/ur12e_collection/followers/kinematic.py:72-77 | holding freezes joints and gripper |
| Kinematic.Engine.AdvanceTargets | src/ur12e_collection/followers/kinematic.py:86-113 | one update: gripper slew, blended pose or target, reported rates |
| Kinematic.Engine.Follow | src/ur12e_collection/followers/kinematic.py:97-100 | the per-joint blend |
| Kinematic.Engine.Update | src/ur12e_collection/followers/kinematic.py:79-84 | an expired heartbeat holds and latches a fault before the update |
| KinematicProofs.BlendPaced | src/ur12e_collection/followers/kinematic.py:94-100 | the quintic blend is monotone and 15/8-Lipschitz on [0, 1] |
| KinematicProofs.BlendCurved | src/ur12e_collection/followers/kinematic.py:57-62 | its second differences are at most 5.774 h^2 |
| KinematicProofs.RouteIsRoomy | src/ur12e_collection/followers/kinematic.py:56-63 | the chosen duration leaves room for the requested speed and acceleration on every joint |
| KinematicProofs.RouteIsPaced | src/ur12e_collection/followers/kinematic.py:86-113 | after any accepted move, between consecutive updates at any nondecreasing times no joint exceeds the requested speed and none leaves the limits |
| KinematicProofs.PoseCurved | src/ur12e_collection/followers/kinematic.py:56-63 | a running route's second differences stay within the requested acceleration |
| KinematicProofs.RouteArrives | src/ur12e_collection/followers/kinematic.py:94-103 | after any accepted move, an engine that still follows stands exactly at the goal, its route over, from the route's end on |
| KinematicProofs.AlwaysInsideLimits | src/ur12e_collection/followers/kinematic.py:32-113 | no sequence of commands and updates takes a joint outside the limits |
| KinematicProofs.EngineStaysInside | src/ur12e_collection/followers/kinematic.py:17-113 | so from construction on, at READY |
| KinematicProofs.MoveKeepsPaceExactly | src/ur12e_collection/followers/kinematic.py:41-63 | an engine by itself, told a move, keeps every joint within the speed limit at its next update if and only if the move's limits are admissible or its goal is that near |
| FollowerService.Server.constructor | src/ur12e_collection/followers/local.py:224-244 | no peer, no owner, an engine at READY |
| FollowerService.Server.Handle | src/ur12e_collection/followers/local.py:267-289 | one line: age, owner and number decide whether the engine is told; a refusal latches a fault and holds |
| FollowerService.Server.Receive | src/ur12e_collection/followers/local.py:256-296 | one reception: lines in order until one ends it; a lost peer releases, any other error fails |
| FollowerService.Server.Release | src/ur12e_collection/followers/local.py:246-254 | execution revoked, owner and number forgotten |
| ServiceProofs.RefusalMovesNothing | src/ur12e_collection/followers/local.py:256-296 | after a reception that refuses a line, whatever came before it, no joint moves over any further receptions and updates until a claim is taken up |
| ServiceProofs.ClaimNeedsRelease | src/ur12e_collection/followers/local.py:278-281 | a claim is taken up only from a service without an owner |
| ServiceProofs.ServiceIsPaced | src/ur12e_collection/followers/kinematic.py:32-113 | over every run of the service without servo targets, refusals, skipped packets, lost owners and expired heartbeats included, no update moves a joint faster than the speed limit |
| KinematicProofs.GripperSlews | src/ur12e_collection/followers/kinematic.py:91-93 | the gripper approaches its target at bounded speed and never passes it |
| Framing.Frames.constructor | src/ur12e_collection/followers/local.py:31-32 | nothing retained |
| Framing.Frames.Split | src/ur12e_collection/followers/local.py:45-49 | complete lines are split off in order, the first oversized one is a fault |
| Framing.Frames.Receive | src/ur12e_collection/followers/local.py:34-52 | up to sixteen reads, all their complete lines, and the retained tail |
| Framing.Publisher.constructor | src/ur12e_collection/followers/local.py:244-244 | nothing outgoing |
| Framing.Publisher.Publish | src/ur12e_collection/followers/local.py:298-319 | a new packet only when the last one is gone, then what the socket takes |
| FramingSteps.SplitEncodes | src/ur12e_collection/followers/local.py:45-49 | a buffer is its lines, each with a newline, and its tail |
| FramingSteps.PrefixDecodes | src/ur12e_collection/followers/local.py:20-25 | an encoding that begins with some lines begins with those packets |
| FramingSteps.DeliversPublished | src/ur12e_collection/followers/local.py:28-52 | for any partial sends and chunk sizes no reception faults, the delivered lines are a prefix of the published packets, the tail stays within the bound, and nothing is missing once nothing is in flight |
| Collection.Session.constructor | src/ur12e_collection/control/collection.py:82-95 | an idle session without episodes |
| Collection.Session.Interrupt | src/ur12e_collection/control/collection.py:517-520 | the first interruption of an unfinished episode latches |
| Collection.Session.Reject | src/ur12e_collection/control/collection.py:309-321 | a further failure adds a lost component, a first one begins the rejection |
| Collection.Session.BeginReject | src/ur12e_collection/control/collection.py:323-361 | cut off, interrupt, revoke motion, wait for the operator, freeze the recorder |
| Collection.Session.StopEpisode | src/ur12e_collection/control/collection.py:196-203 | a stop that does not revoke following raises |
| Collection.Session.QuitNow | src/ur12e_collection/control/collection.py:181-194 | quitting stops, saves or closes by phase |
| Collection.Session.Press | src/ur12e_collection/control/collection.py:140-179 | one key by phase, debounced |
| Collection.Session.KeyPressed | src/ur12e_collection/control/collection.py:133-138 | a key whose transition raises begins a rejection |
| Collection.Session.ListPartial | src/ur12e_collection/control/collection.py:492-504 | an unfinished episode is listed once as partial and aborted |
| Collection.Session.Reply | src/ur12e_collection/control/collection.py:254-297 | preparation, cancellation or completion, each only in its phase; a completed episode is listed even when the report after it raises |
| Collection.Session.Poll | src/ur12e_collection/control/collection.py:254-255 | replies are handled in order until one raises |
| Collection.Session.Finalize | src/ur12e_collection/control/collection.py:439-444 | settled, then finalizing |
| Collection.Session.Cancel | src/ur12e_collection/control/collection.py:485-490 | cancel, or list the partial when the recorder is lost |
| Collection.Session.Resolve | src/ur12e_collection/control/collection.py:506-515 | blocked while anything is unavailable, idle once held |
| Collection.Session.ReviewNow | src/ur12e_collection/control/collection.py:446-483 | the operator's choice against what is still available |
| Collection.Session.Confirm | src/ur12e_collection/control/collection.py:388-399 | a held arm or an independent standstill confirms the stop |
| Collection.Session.SendTail | src/ur12e_collection/control/collection.py:412-437 | the release is sent once, after both feedback streams crossed the cutoff |
| Collection.Session.Settle | src/ur12e_collection/control/collection.py:387-410 | confirm, send the tail, then finalize or review |
| Collection.Session.Record | src/ur12e_collection/control/collection.py:378-385 | begin once following, then sample, settle or resolve |
| Collection.Session.Advance | src/ur12e_collection/control/collection.py:363-385 | replies, readers and motion are contained one by one before recording |
| Collection.Session.Close | src/ur12e_collection/control/collection.py:541-564 | close interrupts and lists whatever episode is left, once |
| CollectionProofs.StepSound | src/ur12e_collection/control/collection.py:363-515 | any step under any component failures keeps the accounting |
| CollectionProofs.KeySound | src/ur12e_collection/control/collection.py:133-203 | any key under any component failures keeps the accounting |
| CollectionProofs.EachEpisodeOnce | src/ur12e_collection/control/collection.py:254-361 | once closed, each prepared episode is listed exactly once under its own number, and every success was stopped by Space, seen held, verified and never interrupted |
| CollectionProofs.BlockedStaysBlocked | src/ur12e_collection/control/collection.py:506-515 | a blocked session never starts another episode |
| CollectionProofs.InterruptionIsFinal | src/ur12e_collection/control/collection.py:27-32 | an interrupted episode can only end aborted, whatever is chosen or replied later |

## Left out

- EagerAcceptanceIsFinal: excludes arrivals that overflow any buffer; a wrist overflow would evict the anchor itself.
- FramesReachTheMatcher: requires that no freeze raises an earlier boundary; `CapturedExactly` gives the exact
  condition.
- ServiceIsPaced: excludes servo targets, which are taken over in a single update by design.
- RouteIsPaced: speaks of moves, since a servo target is taken over in a single update by design.
- WrittenIsVerified: takes the image codecs as correct functions and JSON as the identity on described values.
- AcceptedExactly: the leader audit inside the control validator is any function of its own state and the record, which
  may refuse any step; its content is the subject of `AuditTheorem`.
- EachEpisodeOnce: starts closing after the stop requests to the readers and the recorder; one of those that raises
  leaves the active episode unlisted in the program.
- Reply: lists the session's own number of the episode and takes the one in the recorder's report as equal to it.
- Floating-point rounding and the auditors' numeric tolerances, which absorb it: comparisons are exact.
- Input guards of `control/guards.py`, which only refuse more, and the gripper part of the leader audit.
- Shape, finiteness and type checks of arguments, which the types of the model replace.
- Unit conversions with pi: the radian value of a count and the stop speed are parameters.
- Counters, timings, queue-delay statistics, traces and operator messages.
- Growth of the memory behind queues, process start-up and reaping, watchdog calls, sockets and serial ports.
- File renaming, synchronisation and sidecar files beyond whether they succeed; the renaming of a partial directory
  whose writer had committed.
- The feedback-only validator of `feedback_records.py`, one instance of the record validator the archive theorem
  quantifies over.
- The independent standstill observation of a rejected interval: its outcome is an input of a step.
- Keyboard interruption of a running operation.
- Follower commands whose envelope is valid and whose fields are missing or of another type: they raise inside the
  engine and end in the same fault and hold as a refused command.
- The physics-backed follower engine, which takes the place of the kinematic one behind the same service.
- `control/session.py`, `control/lifecycle.py`, `control/program.py`, `leader/motion.py`, calibration, timing and
  extensions: smaller variants of what is proved here.
