# Motion, hydraulics and bench-protocol proofs

A Dafny model of the vehicle's motion core, with proofs about every run of it:

- the CAN3 lift and hydraulic adapter: a thirteen-state, non-blocking machine that sets up
  four lift drives, enables them in the CiA 402 order, preloads and triggers interpolation,
  aligns the legs, streams one common trajectory and recovers from starvation, beside a
  pump-first valve sequencer;
- the steering and drive setpoint shapers: integer rate and acceleration limiters over four
  axes;
- the fixed-posture steering transition planner;
- the Modbus RTU codec and the resynchronising request scanner of the virtual acquisition
  module.

Check everything with `dafny verify dfyconfig.toml`.

## How it is organised

State that the firmware updates in place is an object updated in place:
`LiftHydraulicDevice`, `SteeringTransitionPlanner`, `AdcModule`, and the array methods of
the shapers. Each of their methods is proved equal to a function from state to state
(`LiftModel`, `HydraulicModel`, `DeviceModel`, `SteeringShaper`, `DriveShaper`,
`TransitionPlanner`, `RtuCodec`, `VirtualAdc`), and the theorems are about those functions
over single calls and over whole runs. For the adapter `CommandExecutor.RunCycles` runs the
object and states on it where it ends, what its log holds and what its outputs prove; the
adapter's many small step methods, each equal to its function, are not listed below.

| files | content |
|---|---|
| `Clock`, `Legs`, `Arithmetic`, `Cubics`, `Octets` | wrapping millisecond clocks, four-leg vectors, products and quotients, the cubic smoothstep, bytes |
| `CanopenService` | what the CAN3 service may answer in one call, and everything that can be handed to it |
| `LiftModel`, `HydraulicModel`, `ValveMasks`, `DeviceModel` | the adapter as functions, and runs of calls |
| `LiftHydraulicDevice`, `CommandExecutor` | the adapter as an object, and the vehicle cycle that runs it |
| `LiftAuthority`, `LiftOrdering`, `LiftHolds`, `LiftEdges`, `LiftRest`, `LiftStop`, `LiftStopExact`, `LiftRate`, `LiftStream`, `LiftCourse`, `LiftAlignment` | its theorems about the lift in motion and at a stop |
| `LiftSetup`, `LiftStartUp`, `LiftDeadlines`, `LiftBackoff` | what comes before motion: set-up, standstill, time limits and backoff |
| `LiftRange`, `LiftRunning`, `LiftProgress` | where the legs may go and what each look at them decides, in the figures the drives report |
| `LiftPowerUp`, `LiftShiftedHold`, `LiftJump`, `LiftUntriggered`, `LiftUnlimited` | runs from power-up that show where it does not do what one would expect |
| `ValveSafety`, `PressureProof`, `PumpExact`, `PumpCommands`, `PumpStart` | its theorems about pump and valves |
| `SquareRoot`, `SteeringShaper`, `SteeringLaws`, `SteeringLimits`, `DriveShaper`, `DriveLaws`, `DriveLimits` | the shapers and their theorems |
| `TransitionPlanner`, `PlannerLaws` | the planner and its theorems |
| `RtuCodec`, `CrcLaws`, `CrcPolynomial`, `VirtualAdc` | codec, scanner, replies and their theorems |

The CANopen service is an oracle: each call is given one record of answers (lane idle,
enqueue accepted, outstanding group pending, complete or failed, SDO counters, feedback of
every node) and nothing is assumed about it beyond what a theorem names. Times are absolute
in runs and reach the code as 32-bit counters that wrap. The lift state is held in one
record field and the pump state in another, grouped as the firmware's flat structure is
used; `log` collects the traffic.

## Where the code differs from what one would expect

The model follows the code.

- `motion_setpoint_shaper.h` says a reversing drive group is first ramped to a coherent zero
  vector. No call of a reversal ever reaches it: the phase ends inside the 80,000 unit
  deadband, with more than 60,000 units left (`DriveLaws.ReversalSkipsZero`).
- A comment of the valve sequence asks for three consecutive samples before a valve opens.
  After a positive-rotation return one sample can be enough, because the counter is kept;
  that is the only exception (`PressureProof.ThreeSamplesExactly`,
  `PressureProof.OneSampleAfterReversal`).
- A change of direction or target while RUNNING can be swallowed. It is stored before anything
  is asked; when the disable group then does not go out, because the outstanding group is
  pending, the lane is busy or the service refuses, the machine stays RUNNING on the old plan,
  and the next such call finds nothing changed (`LiftCourse.ChangeSwallowed`). The plan fits
  the new demand only under the condition of `LiftCourse.CourseExactly`. Otherwise the next
  point jumps (`LiftCourse.RetargetJump`; by both ways at once when the direction was
  reversed, `LiftCourse.ReversalJump`, shown on a run from power-up by
  `LiftJump.RunningJumps`), and a target further away than the stored total is never reached
  (`LiftCourse.ArrivalExactly`, `LiftCourse.NeverArrives`). Without a swallowed change every
  running trajectory is on course (`LiftCourse.RunningOnCourse`), and after one it is again
  from its next point on exactly when the target lies ahead of the origin within the stored
  total (`LiftCourse.PointRecovers`).
- The first point after a pre-alignment can jump too: back into the band when the legs were
  aligned outside it, and at once to a target they were aligned beyond
  (`LiftAlignment.FirstStepExactly`, `LiftAlignment.AlignedFirstPoint`).
- The motion limits of the drives are written by an enabling set-up only. After a fault a stop
  request starts a disabling one, which leaves the machine prepared for a fast restart, and
  that can be the first set-up after power-up: the drives are then switched on without any
  limit written (`LiftUnlimited.SwitchedOnUnlimited`). What every start does have behind it is
  `LiftStartUp.MovesAfterSetup`.
- A busy lane counts as a sent trigger (`LiftEdges.TriggerSentExactly`), so RUNNING can be
  reached without 0x003F, from power-up too (`LiftUntriggered.RunsUntriggered`).
- The preload points of one series can differ: the at-target disable group of a preloading
  call is refused on an idle lane, the captured origin is dropped, and the next look holds
  elsewhere (`LiftHolds.DroppedHoldsDiffer`). Normally the third counted hold ends preloading
  before the five looks at the target that this takes; in the run shown, two completed holds
  stay uncounted because re-targeted calls, refused as well, took their completions
  (`LiftShiftedHold.ShiftedHolds`). The repository's own service does not refuse on an idle
  lane of a normal bus (ecu/drivers/canopen/src/canopen_master_service.c:1080-1094 with
  :612-621), and with such a service the points are always equal
  (`LiftOrdering.TriggersAtOneHold`).
- A safe stop ends for every machine only when calls come at most 1249 ms apart: later ones
  let each set-up run into its 5 s deadline before the fourth axis is announced, and a
  faulted machine retries for ever (`LiftStopExact.StopSpacingExact`).
- The steering speed limit of 500,000 holds up to a distance of 2,147,487,941 counts between
  an axis and its request, which 32-bit requests can exceed (`SteeringLaws.SpeedLimitExactly`).
- The steering acceleration limits have one exception: an axis that runs away from its request is
  stopped dead at the end of the range (`SteeringLimits.RangeEndStops`; otherwise
  `SteeringLimits.LimitsOverRuns`).
- The pre-alignment arithmetic fits 64 bits up to 42,129,488 counts, about 160 mm of
  misalignment (`LiftAlignment.FitsExactly`).
- The call that starts a posture transition without any axis to move outputs the measured
  positions, not the request (`PlannerLaws.SmallMoveOutputsMeasured`).

## Model

| member | source | states |
|---|---|---|
| `LiftAuthority.MotionAuthority` | ecu/devices/src/lift_hydraulic_device.c:1974-2474 | On every run from any state, a group with 0x0007, 0x000F, 0x003F or a position point leaves only in a call with high-voltage feedback and a lift request agreeing with the sign of the height rate; every other lift group is 0x0000 and all set-up writes are non-enabling |
| `LiftAuthority.ProcessStill` | ecu/devices/src/lift_hydraulic_device.c:1984-2184 | Without a matching request no single call of any of the thirteen states enqueues an enabling, triggering or position group |
| `LiftAuthority.SetupWritesHarmless` | ecu/devices/src/lift_hydraulic_device.c:529-625 | Every control word of a queued set-up is disable, fault reset or shutdown, for any fault feedback and either set-up kind |
| `LiftOrdering.EnableAndTriggerOrder` | ecu/devices/src/lift_hydraulic_device.c:1924-2461 | On every run from power-up, judged by a listener on the bus: 0x000F only after a completed 0x0007, every position group after both since the last STOPPED or CONFIGURING, every 0x003F after at least three completed preload groups at measured positions since the last 0x000F, all equal unless preloading dropped its captured origin in between |
| `LiftOrdering.TriggersAtOneHold` | ecu/devices/src/lift_hydraulic_device.c:1447-1495 | With a service whose idle lane never refuses an enqueue nothing is ever dropped: every 0x003F of every run follows at least three completed groups that all hold at one measured place |
| `LiftHolds.DroppedHoldsDiffer` | ecu/devices/src/lift_hydraulic_device.c:1454-1464 | The converse, for every run from power-up: a hold completed, then the at-target disable refused; the first point after that, however many calls later, goes out in a call that measures another place, and completes in any later call of the series; then the holds of that series differ from there on |
| `LiftHolds.SamePlaceAlike` | ecu/devices/src/lift_hydraulic_device.c:1490-1571 | And the other way round: whatever was dropped, as long as every point goes out at the same place all holds of the series stay equal |
| `LiftHolds.OriginDropped` | ecu/devices/src/lift_hydraulic_device.c:1454-1464 | The failing branch itself: a refused disable in the final look sends nothing, stays in PRELOADING with its count and forgets the captured origin |
| `LiftHolds.HoldSent` | ecu/devices/src/lift_hydraulic_device.c:1447-1606 | Every other preloading look on an idle, accepting lane sends exactly one point, at the captured origin or else where the axes are measured, and keeps that place |
| `LiftShiftedHold.ShiftedHolds` | ecu/devices/src/lift_hydraulic_device.c:2384-2434 | A run of 22 calls from power-up that gets there, pump and lift sharing one lane in every call: two completed holds go uncounted behind refused re-targeted calls, the fifth look is refused too, and 0x003F goes out after unlike holds |
| `LiftPowerUp.OpenedUp` | ecu/devices/src/lift_hydraulic_device.c:2197-2380 | How these runs begin: from power-up through set-up, enabling and settling every such run stands in PRELOADING after twelve calls, nothing captured, the pump stop command out first |
| `LiftOrdering.ProcessOrderly` | ecu/devices/src/lift_hydraulic_device.c:1974-2474 | Each call keeps what its state promises about the groups completed before it (the invariant behind the order theorem) |
| `LiftEdges.TriggerSentExactly` | ecu/devices/src/lift_hydraulic_device.c:2448-2461 | The triggering call, exactly: 0x003F goes out if and only if the lane is idle and the service accepts, but the machine moves on unless the service refuses |
| `LiftEdges.RunningWithoutTrigger` | ecu/devices/src/lift_hydraulic_device.c:2442-2471 | Concrete family of two calls that reaches RUNNING with nothing sent: RUNNING does not imply that 0x003F was sent |
| `LiftUntriggered.RunsUntriggered` | ecu/devices/src/lift_hydraulic_device.c:2442-2471 | A run of 18 calls from power-up that does: the first work command of the pump takes the shared lane in the triggering call, and the machine is RUNNING and sends its first point though no control-word group has gone out since preloading began |
| `LiftStop.SafeStopReached` | ecu/devices/src/lift_hydraulic_device.c:1984-2184 | Sustained safe stop, a service that has finished everything by the next call, calls at most 1249 ms apart, pump and lift sharing one lane: every state is STOPPED after thirteen calls and thirteen more for each call in which the pump got the bus first |
| `LiftStop.StopBesidePump` | ecu/devices/src/lift_hydraulic_device.c:2812-2842 | When the pump is not wanted either, as after a loss of high voltage, it takes the bus once at most: every state of lift and pump is stopped after fourteen calls, with the pump stop command out |
| `LiftStop.StepRanks` | ecu/devices/src/lift_hydraulic_device.c:3068-3091 | One served call lowers the rank of the lift unless the pump acts in it, and never leaves STOPPED |
| `LiftStopExact.StopSpacingExact` | ecu/devices/src/lift_hydraulic_device.c:704-771 | The spacing for which that holds, exactly: for every uniform spacing up to half a billion milliseconds some number of calls stops every machine if and only if it is at most 1249 ms, and then fourteen do |
| `LiftStopExact.RetriesForever` | ecu/devices/src/lift_hydraulic_device.c:704-733 | The witness above that spacing: after any number of calls a faulted machine is still faulted or setting up, each deadline having passed before the fourth axis was announced |
| `LiftStopExact.NeverWithin` | ecu/devices/src/lift_hydraulic_device.c:704-733 | So above 1249 ms no number of calls is enough |
| `LiftStop.StoppedIsAbsorbing` | ecu/devices/src/lift_hydraulic_device.c:2105-2158 | Once STOPPED, a sustained safe stop stays STOPPED with no lift traffic, whatever an initialised service answers |
| `LiftStop.StoppedExactly` | ecu/devices/src/lift_hydraulic_device.c:2987-3012 | One call of it, exactly: no lift traffic in any case, and STOPPED is kept if and only if the service is initialised; otherwise the machine is in FAULT and the call reports an offline backend |
| `LiftStop.CancelledCall` | ecu/devices/src/lift_hydraulic_device.c:2082-2108 | A LEVELING call that sees a cancel condition sends no point and ends latched, stopping behind a disable group, or in a fault |
| `LiftStop.CancelledAlignmentStaysStill` | ecu/devices/src/lift_hydraulic_device.c:2082-2108 | From that call on no alignment point is enqueued while the machine is still LEVELING, even if the request comes back |
| `LiftStop.CancelsExactly` | ecu/devices/src/lift_hydraulic_device.c:2082-2108 | What cancels a pre-alignment, exactly, in terms of the command: no high voltage, a safe stop, no matching request, or one for another direction |
| `LiftRange.PointsRest` | ecu/devices/src/lift_hydraulic_device.c:303-365 | Over every run from any state, on the positions the drives report: a position group leaves only on feedback of all four legs that is complete, at most 200 ms old and without a latched fault; a pre-alignment group only with no leg where it cannot be; a travelling one extends if any leg is above -2,621,440, retracts if any is below -128,450,560, and with both kinds, or a leg outside -131,334,144..262,144, there is none |
| `LiftRange.RunStartsExactly` | ecu/devices/src/lift_hydraulic_device.c:2339-2380 | On every run from power-up: a stopped machine asked for motion, away from the target and with no backoff running, begins set-up or enabling if and only if all four legs are heard and the direction asked for is allowed from where they are; and it begins for that direction and target, with nothing left over |
| `LiftRange.OutOfRangeStops` | ecu/devices/src/lift_hydraulic_device.c:1424-1441 | A running look at legs from which its direction is not allowed sends no point and asks for the disable group |
| `LiftStartUp.MovesAfterSetup` | ecu/devices/src/lift_hydraulic_device.c:704-771 | On every run from power-up every group that switches on, enables, triggers or positions the drives comes after a whole set-up, with no fault and no reset in between: some call sent writes that leave all four drives configured, after all four were announced, and a later one saw every write acknowledged and none aborted |
| `LiftStartUp.DoneAfterSetup` | ecu/devices/src/lift_hydraulic_device.c:674-771 | and so does every machine that stands prepared for a fast restart |
| `LiftSetup.SetupConfigures` | ecu/devices/src/lift_hydraulic_device.c:529-625 | What the writes of a set-up leave in each drive when they are replayed in order: the shut-down or disabling control word, interpolated positions every 20 ms with an empty buffer, a latched fault acknowledged by its own word, and before motion the profile limits and the following-error window |
| `LiftSetup.WordsInOrder` | ecu/devices/src/lift_hydraulic_device.c:553-610 | The control words of one drive in order: a fault acknowledged first, then disable, fault reset, shut-down, and no other but a final disable |
| `LiftUnlimited.SwitchedOnUnlimited` | ecu/devices/src/lift_hydraulic_device.c:674-771 | A run of ten calls from power-up whose only set-up is a disabling one: the drives are switched on though no write of the run has given any of them a profile limit or a following-error window |
| `LiftStartUp.PreloadsAfterStandstill` | ecu/devices/src/lift_hydraulic_device.c:981-1022 | On every chronological run from power-up a settling machine begins to preload only after a series of looks at all four fresh legs, the first 1500 ms or more after the drives were enabled, 100 ms or more apart, over 500 ms or more, between which no leg moved by more than 3,000 counts |
| `LiftStartUp.SettlingExactly` | ecu/devices/src/lift_hydraulic_device.c:2262-2338 | Every look of a settling machine, exactly: what it samples, when it preloads and whether it will align first, when it refuses the direction, and when it fails |
| `LiftDeadlines.GivesUpExactly` | ecu/devices/src/lift_hydraulic_device.c:704-771 | On every run from power-up a call that finds the machine waiting in its start-up with motion still asked for ends it in FAULT if and only if its time is over: 5 s of set-up, 1 s ready to switch on, 4.5 s from enabling to standstill |
| `LiftDeadlines.DeadlineSource` | ecu/devices/src/lift_hydraulic_device.c:630-700 | where the stored deadline is that long after the call that entered the state |
| `LiftDeadlines.ReachedExactly` | ecu/devices/src/lift_hydraulic_device.c:60-63 | The signed comparison of wrapping clocks is the order of the times themselves, up to half a wrap |
| `LiftBackoff.FaultBacksOff` | ecu/devices/src/lift_hydraulic_device.c:1275-1285 | Over every run: from the call that takes the machine out of a drive fault and for 1000 ms after it, nothing is sent to the lift and it stays at rest, whatever is asked for |
| `LiftBackoff.FailedTransferForgets` | ecu/devices/src/lift_hydraulic_device.c:1287-1320 | Over every run: the call that takes the machine out of a failed transfer resets the bus and with it everything known of the pump; every valve is closed |
| `LiftBackoff.LostFeedbackForgets` | ecu/devices/src/lift_hydraulic_device.c:1412-1420 | and so does a running call that has waited 5 s for its legs in vain |
| `LiftBackoff.HaltsExactly` | ecu/devices/src/lift_hydraulic_device.c:2003-2045 | The end of a disable group, exactly: at rest, and prepared unless a leg is faulted, the power is gone or the transport failed; or on to a new set-up when motion is asked for to a target not yet reached and no backoff runs |
| `LiftBackoff.ClearedExactly` | ecu/devices/src/lift_hydraulic_device.c:2048-2080 | The end of a re-priming edge, exactly: disable on a stop demand, otherwise preloading again from the measured positions of four fresh legs, with an alignment to follow |
| `LiftRunning.RunningDecides` | ecu/devices/src/lift_hydraulic_device.c:1370-1606 | Each look of a running machine, exactly and in this order: disable where the direction is not allowed; stopped for good when all legs stand within 3 mm of the target and of each other for the fifth time in a row; re-prime a starving drive on the third look in a row, three times, then 1000 ms off; and otherwise one common point planned at the governed speed |
| `LiftRunning.PointsGoverned` | ecu/devices/src/lift_hydraulic_device.c:1542-1606 | Over every run every point of a running machine is the next sample of its trajectory at the speed the governor allows for the lead just measured |
| `LiftRunning.GovernorExactly` | ecu/devices/src/lift_hydraulic_device.c:908-931 | The governed speed: 20 mm/s up to a lead of 2.5 mm, 2 mm/s from 10 mm on, and the straight line in between, for every lead |
| `LiftRunning.GovernorFalls` | ecu/devices/src/lift_hydraulic_device.c:908-931 | It never rises with the lead |
| `LiftRunning.LeadExactly` | ecu/devices/src/lift_hydraulic_device.c:873-901 | where the lead is that of the common target over the leg that lags most |
| `LiftRunning.SampleExactly` | ecu/devices/src/lift_hydraulic_device.c:84-154 | One sample, exactly: braking from where 8 mm/s^2 just stops within the rest, otherwise one speed step towards the governed speed, and the distance of 20 ms at it |
| `LiftRunning.UnheardExactly` | ecu/devices/src/lift_hydraulic_device.c:1384-1433 | A due look that does not hear all legs sends no point: it asks for disable on a latched fault, and otherwise waits, resetting the transport after 5 s |
| `LiftRunning.HeardForgets` | ecu/devices/src/lift_hydraulic_device.c:459-463 | and a running look that hears all legs ends that wait, so that the next one starts afresh |
| `LiftProgress.StallsExactly` | ecu/devices/src/lift_hydraulic_device.c:1108-1145 | Over any series of looks a stall is reported exactly when some leg, more than 3 mm from its target, has moved by less than 13,107 counts in every look for 5 s |
| `LiftProgress.StallOnlyUnmarks` | ecu/devices/src/lift_hydraulic_device.c:1470-1489 | and all a stall does is to take back the mark of having arrived |
| `LiftCourse.RunningOnCourse` | ecu/devices/src/lift_hydraulic_device.c:1984-2474 | On every run from power-up, a RUNNING trajectory on which no change of the demand was swallowed since its origin was captured or resumed is on course to its target, when origin and target are in band and the target is on the requested side |
| `LiftCourse.SteadySegment` | ecu/devices/src/lift_hydraulic_device.c:1542-1606 | and while the calls keep asking the same and the machine keeps running, it is one on-course stretch |
| `LiftCourse.SteadyCallTravels` | ecu/devices/src/lift_hydraulic_device.c:1542-1606 | so each such call of every run sends nothing or brings all four axes one bounded common step towards the target |
| `LiftCourse.RunSound` | ecu/devices/src/lift_hydraulic_device.c:1984-2474 | The invariant behind it, over every run and all thirteen states: bounded plans, plans at their start until they run, and plans for the present demand as long as nothing was swallowed |
| `LiftCourse.ChangeSwallowed` | ecu/devices/src/lift_hydraulic_device.c:2381-2397 | A changed demand on a RUNNING machine: it stays RUNNING exactly when its disable group is pending, finds the lane busy or is refused; then nothing is sent, the old plan is kept, and the demand counts as followed |
| `LiftCourse.CourseExactly` | ecu/devices/src/lift_hydraulic_device.c:1582-1597 | A plan made for one target is on course to another in its direction if and only if its total reaches that far and both cuts leave it where it is |
| `LiftCourse.PointRecovers` | ecu/devices/src/lift_hydraulic_device.c:1542-1606 | On every run from power-up, whatever was swallowed: the call that sends a point leaves the trajectory on course to what it asks for if and only if that lies on the requested side of the origin within the stored total |
| `LiftCourse.ArrivalExactly` | ecu/devices/src/lift_hydraulic_device.c:1582-1597 | A finished plan stands on the new target if and only if its total reaches it |
| `LiftCourse.NeverArrives` | ecu/devices/src/lift_hydraulic_device.c:1542-1606 | With a total too short no point of the stretch is ever the target, however long it runs |
| `LiftCourse.RetargetJump` | ecu/devices/src/lift_hydraulic_device.c:1582-1597 | The first point towards another target in the same direction: exactly the difference of the two ways |
| `LiftCourse.ReversalJump` | ecu/devices/src/lift_hydraulic_device.c:1582-1597 | The first point in the opposite direction swings to the other side of the origin, exactly by the sum of both ways |
| `LiftCourse.WrongSideJump` | ecu/devices/src/lift_hydraulic_device.c:1582-1597 | The first point towards a target on the wrong side of the origin is that target itself |
| `LiftJump.RunningJumps` | ecu/devices/src/lift_hydraulic_device.c:2381-2474 | A run of 35 calls from power-up, one shared lane throughout, that jumps: while extending it is asked to retract with its point still pending, stays RUNNING, and its next two neighbouring points are more than two full-speed steps apart on both sides of the origin |
| `LiftStream.SegmentTravels` | ecu/devices/src/lift_hydraulic_device.c:1542-1606 | Over any stretch of RUNNING calls with one direction and target that is on course when it begins: all four axes get one identical target per point, it moves only towards the command target and never passes it, at most 104,857 counts and one 41,943 counts/s speed step per point, whatever the governor says |
| `LiftStream.SegmentArrives` | ecu/devices/src/lift_hydraulic_device.c:1542-1606 | Such an on-course stretch stands exactly on the command target after at most total/838 + 9 points |
| `LiftStream.TargetAdvances` | ecu/devices/src/lift_hydraulic_device.c:84-154 | One sample of the common trajectory keeps the course, makes bounded progress towards the target and lowers the bound on the points left, for every governor limit |
| `LiftStream.PlanArrives` | ecu/devices/src/lift_hydraulic_device.c:1582-1597 | A plan with nothing left has its common target exactly on the command target |
| `LiftStream.ResumeOnCourse` | ecu/devices/src/lift_hydraulic_device.c:1789-1818 | RUNNING after pre-alignment starts at rest from the aligned position and is on course |
| `LiftStream.CaptureOnCourse` | ecu/devices/src/lift_hydraulic_device.c:1490-1495 | A start without pre-alignment is on course from the captured origin, at rest |
| `LiftStream.CapturedFarthest` | ecu/devices/src/lift_hydraulic_device.c:957-973 | where the origin of every axis is its own measured position and the total the way of the axis with the furthest to go |
| `LiftStream.TargetsInBand` | ecu/devices/src/lift_hydraulic_device.c:281-292 | Every height command, however far out, becomes a target inside the permitted band |
| `LiftStream.HeightExactly` | ecu/devices/src/lift_hydraulic_device.c:281-292 | and exactly 262,144 counts per millimetre below the resting place, cut off to whole counts, between 10 mm and 490 mm |
| `LiftRate.PointRateBounded` | ecu/devices/src/lift_hydraulic_device.c:1060-1083 | Every chronological run, any mix of preload, pre-alignment and travel: the calls of a window of L ms enqueue at most L/20 + 2 position groups |
| `LiftRate.DeadlineFollows` | ecu/devices/src/lift_hydraulic_device.c:1060-1083 | After k points since some call the stored deadline lies at least 20(k-1) ms past that call less 20 ms, across wraps of the 32-bit clock |
| `LiftRate.DeadlineExactly` | ecu/devices/src/lift_hydraulic_device.c:1060-1083 | One point moves the deadline on by 20 ms exactly, or to now if that still lies more than 20 ms back |
| `LiftRate.ProcessPaced` | ecu/devices/src/lift_hydraulic_device.c:1322-1366 | Every call sends at most one position group, only 20 ms or more after the stored deadline, and otherwise leaves that deadline or sets it to now |
| `LiftAlignment.AlignmentProgress` | ecu/devices/src/lift_hydraulic_device.c:1820-1877 | Over any uncancelled pre-alignment the sample index equals the number of groups sent, and group k is the k-th point of every axis on its cubic |
| `LiftAlignment.AlignmentLands` | ecu/devices/src/lift_hydraulic_device.c:1837-1845 | When pre-alignment gives way to RUNNING exactly the computed number of groups has been sent, the last on the common target for all axes, and the stream starts there at zero velocity |
| `LiftAlignment.GroupStep` | ecu/devices/src/lift_hydraulic_device.c:1677-1697 | Each axis moves monotonically between its origin and the common target, at most 10,486 counts per group |
| `LiftAlignment.FitsExactly` | ecu/devices/src/lift_hydraulic_device.c:1649-1697 | The 64-bit intermediates of the point generator fit if and only if the alignment distance is at most 42,129,488 counts |
| `LiftAlignment.SamplesSuffice` | ecu/devices/src/lift_hydraulic_device.c:1649-1662 | The computed sample count keeps the peak slope of the cubic within the levelling speed |
| `LiftAlignment.SamplesFewest` | ecu/devices/src/lift_hydraulic_device.c:1649-1662 | and beyond the least count of three no smaller count would |
| `LiftAlignment.AlignmentEases` | ecu/devices/src/lift_hydraulic_device.c:1677-1697 | A pre-alignment sets off and lands gently: within k points of either end of n it is at most 3(k/n)^2 of its way from it |
| `LiftAlignment.PointExactly` | ecu/devices/src/lift_hydraulic_device.c:1677-1697 | Each point covers the cubic share of its way, cut off to whole counts |
| `LiftAlignment.NeverBack` | ecu/devices/src/lift_hydraulic_device.c:1609-1697 | and no group moves any leg against the direction it was asked for |
| `LiftAlignment.BegunAlong` | ecu/devices/src/lift_hydraulic_device.c:857-871 | because the common place is that of the leg already furthest along it |
| `LiftAlignment.BegunAligning` | ecu/devices/src/lift_hydraulic_device.c:1609-1667 | Pre-alignment begins at the measured origins, towards the axis already furthest along the requested direction, with the computed sample count |
| `LiftAlignment.AlignmentBeginsSegment` | ecu/devices/src/lift_hydraulic_device.c:1789-1845 | The call that ends a pre-alignment asks for the aligned direction, and with the aligned place in band and the target ahead it begins a running stretch on course to that target |
| `LiftAlignment.AlignedThenArrives` | ecu/devices/src/lift_hydraulic_device.c:1609-1877 | Pre-alignment and travel joined: after the alignment groups and at most the remaining distance over 838, plus nine, further points all axes are sent exactly to the command target |
| `LiftAlignment.FirstStepExactly` | ecu/devices/src/lift_hydraulic_device.c:1542-1597 | The first sample after a pre-alignment, exactly, for every governor limit: one step of at most 838 counts cut to the band, or a target already passed at once; within a full-speed step if and only if the aligned place is that near to the band, or to the passed target |
| `LiftAlignment.AlignedFirstPoint` | ecu/devices/src/lift_hydraulic_device.c:1542-1606 | Over every run: the first point a machine sends after an alignment, in whatever call, is that one on all four axes |
| `ValveSafety.OpenValveEvidence` | ecu/devices/src/lift_hydraulic_device.c:2987-3075 | On every run that starts without a pressure proof, as at power-up: a call leaving a valve open has as mask the sanitized request without a complete interlock pair, a pump request, a finished set-up, Node13 feedback that is readable, valid, without a latched fault, at most 200 ms old and at most 5,000 units forward, and some call of the run, less than 500 ms before, with such feedback of a speed below -1,333,333 units |
| `PumpExact.ValvesExactly` | ecu/devices/src/lift_hydraulic_device.c:2812-2967 | The other direction too, on every run from power-up: a call leaves exactly the sanitized selection open if the pump is set up, has its proof and the dead time is over, and nothing otherwise; without a request, a service, or feedback of the last 200 ms without a fault no valve is open and no proof stands; and a set-up pump has its proof after the call exactly if it had one, is heard without forward rotation and was ready less than 500 ms ago, or if this is its third ready sample |
| `PumpExact.CommandsExactly` | ecu/devices/src/lift_hydraulic_device.c:2845-2967 | Every pump command of every run, exactly: enable at -4,000,000 units for the track-width valves and at -2,500,000 otherwise in a requested call, or disable at zero |
| `PumpCommands.ToldWhatWasSent` | ecu/devices/src/lift_hydraulic_device.c:2500-2592 | On every run from power-up what the pump is taken to have been told is what the bus last carried for it: an outstanding command, or with none the one remembered as done, is the last pump command sent |
| `PumpCommands.SubmitExactly` | ecu/devices/src/lift_hydraulic_device.c:2500-2592 | One submission, exactly: nothing while a command is outstanding or when the pump has been told already or the lane is busy, a bus reset after a failed one, otherwise the command; a refusal that is not transient costs the set-up |
| `PumpStart.SetupShows` | ecu/devices/src/lift_hydraulic_device.c:2621-2730 | On every run from power-up a pump that becomes set up had its six writes, seven after a fault, accepted by an earlier call, all acknowledged since and none aborted |
| `PumpStart.SetupGivesUpExactly` | ecu/devices/src/lift_hydraulic_device.c:2621-2730 | On every run from power-up a call that finds the set-up of a requested pump neither acknowledged nor aborted ends it if and only if 5 s have passed since the call that began it |
| `PumpStart.FaultUnsets` | ecu/devices/src/lift_hydraulic_device.c:2742-2772 | Over every run: a call that asks for the pump and hears of a fault latched in it leaves it not set up |
| `PumpExact.OverdueResends` | ecu/devices/src/lift_hydraulic_device.c:2922-2945 | A start without pressure for more than 3000 ms sends its command once more and starts its time afresh |
| `PumpExact.LossResends` | ecu/devices/src/lift_hydraulic_device.c:2907-2920 | A proven pump that is heard but not fast enough for 500 ms loses its proof, every valve is closed, and its command goes out once more |
| `ValveSafety.ApplyValves` | ecu/devices/src/lift_hydraulic_device.c:2812-2967 | The one-call form of it, together with how a call may move the pending mask and its hold time |
| `ValveSafety.ValveDeadTime` | ecu/devices/src/lift_hydraulic_device.c:2845-2850 | Between a call leaving mask A open and a later one leaving another mask B open some call left everything closed, and B opened at least 10 ms after it, on every chronological run and across clock wraps |
| `PressureProof.ThreeSamplesExactly` | ecu/devices/src/lift_hydraulic_device.c:2861-2906 | On every run from power-up: a pressure proof that appears was backed by three consecutive ready calls if and only if no call saw positive rotation since the sample counter was last zero |
| `PressureProof.ApplyCounts` | ecu/devices/src/lift_hydraulic_device.c:2812-2967 | One call: where a sample count comes from, and that a proof appears only in a ready call on two samples or more |
| `PressureProof.OneSampleAfterReversal` | ecu/devices/src/lift_hydraulic_device.c:2861-2881 | A run of seven calls from power-up that shows it, every pump command going out on one shared lane: forward rotation drops the proof, keeps the counter, and one reverse sample proves pressure again |
| `ValveSafety.PumpReverseOnly` | ecu/devices/src/lift_hydraulic_device.c:220-246 | On every run a pump command is either disable at speed zero or a reverse velocity between the work speed and the limit of 4,000,000 units |
| `ValveMasks.SanitizedMask` | ecu/devices/src/lift_hydraulic_device.c:176-218 | The sanitized mask is a part of the managed request, holds no complete pair, keeps every managed valve outside the pairs, and sanitizing it again changes nothing |
| `SquareRoot.IntegerSqrt` | ecu/control/src/motion_setpoint_shaper.c:100-119 | For every 64-bit value both loops end and the result r satisfies r*r <= value < (r+1)*(r+1) |
| `SquareRoot.RootMonotone` | ecu/control/src/motion_setpoint_shaper.c:100-119 | A larger radicand never has a smaller root |
| `SteeringLaws.BrakingEnvelope` | ecu/control/src/motion_setpoint_shaper.c:219-228 | The group speed before sharing satisfies v*v <= 2*350000*error and is zero exactly in the hold band |
| `SteeringLaws.EnvelopeOverRuns` | ecu/control/src/motion_setpoint_shaper.c:187-343 | From in-range positions, over any run of 32-bit requests and however late: outputs within 1,225,000 counts, speeds within 500,285 and steps within 30,008 always, and within 500,000 and 30,000 for every axis a call finds no further than 2,147,487,941 counts from its request |
| `SteeringLaws.SpeedLimitExactly` | ecu/control/src/motion_setpoint_shaper.c:7-14 | The speed limit of a call, exactly: every start velocity and elapsed time stays within it if and only if every axis is at most 2,147,487,941 counts from its request |
| `SteeringLaws.GroupOverspeeds` | ecu/control/src/motion_setpoint_shaper.c:240-252 | The witness beyond: a group at full speed towards that axis gets faster than the limit |
| `SteeringLimits.LimitsOverRuns` | ecu/control/src/motion_setpoint_shaper.c:250-285 | Over any run of in-range requests, however late the calls: one call changes the clamped velocity of an axis by at most 350 counts/s per elapsed millisecond (1 to 60) while slowing or reversing, 500 while speeding up, 300 with every axis within 20,000 counts, and 1,000 more where it settles to zero; the only exception is an axis that runs away from its request into the end of the range |
| `SteeringLimits.RangeEndStops` | ecu/control/src/motion_setpoint_shaper.c:317-331 | That exception is real: at the end of the range, at full speed outwards and sent back, an axis stands still after one call, however short |
| `SteeringLimits.LeaderGains` | ecu/control/src/motion_setpoint_shaper.c:38-54 | Nor is any call slower: the axis with the furthest to go gains exactly the limit or reaches the group speed |
| `SteeringLimits.LeaderSlows` | ecu/control/src/motion_setpoint_shaper.c:38-54 | and when it is too fast it loses exactly 350 a millisecond or gets down to the group speed |
| `SteeringLimits.FastestBrakes` | ecu/control/src/motion_setpoint_shaper.c:38-54 | The fastest axis running away from its request loses exactly 350 a millisecond, or gets to the velocity it should have |
| `SteeringLimits.StepShared` | ecu/control/src/motion_setpoint_shaper.c:56-98 | Every other axis short of its desired velocity changes by its share of the limit, up to rounding: its speed against the fastest while slowing, its desired speed against the group speed otherwise |
| `SteeringLimits.GroupSpeedExactly` | ecu/control/src/motion_setpoint_shaper.c:219-228 | The group speed is the largest within the cruise speed of the distance from which 350,000 counts/s^2 still stop within it |
| `SteeringLimits.PositionFollows` | ecu/control/src/motion_setpoint_shaper.c:286-331 | Where an axis ends up: where the mean of its old and new velocity takes it, at its request if that takes it there or beyond or if it has settled within 750 counts, or at the end of the range it ran into |
| `SteeringLaws.NeverOvershoots` | ecu/control/src/motion_setpoint_shaper.c:286-331 | In-range request, velocities not opposing the errors: over the whole run no error grows, and an axis whose error and velocity start on one side keeps both there |
| `SteeringLaws.NeverReverses` | ecu/control/src/motion_setpoint_shaper.c:286-331 | So no axis ends up beyond its request or moving against the direction it started with |
| `SteeringLaws.HeadingKept` | ecu/control/src/motion_setpoint_shaper.c:254-331 | The one-axis, one-call form: error not larger, same side, velocity not reversed |
| `SteeringLaws.CallComesCloser` | ecu/control/src/motion_setpoint_shaper.c:187-343 | Every call outside the arrived state lowers the lexicographic measure (opposing speed, summed error, summed distance from the desired velocities) |
| `SteeringLaws.Arrives` | ecu/control/src/motion_setpoint_shaper.c:187-343 | Constant in-range request, any start velocities, any elapsed times: exactly at the request with zero velocity after finitely many calls, at most as many as the three measures of the start leave |
| `SteeringLaws.ArrivedForGood` | ecu/control/src/motion_setpoint_shaper.c:187-343 | So after 39,200,015,800,000 calls every group is there and stays there, wherever it started |
| `SteeringLaws.StaysArrived` | ecu/control/src/motion_setpoint_shaper.c:303-315 | The arrived state is kept by every further call |
| `SteeringLaws.DesiredShare` | ecu/control/src/motion_setpoint_shaper.c:240-252 | Each axis is asked for its share of the group speed towards its target, and the axis furthest away for all of it |
| `SteeringLimits.DesiredProportion` | ecu/control/src/motion_setpoint_shaper.c:240-252 | that share is in proportion to its distance, rounded towards zero but never to a standstill |
| `DriveLaws.CommonStep` | ecu/control/src/motion_setpoint_shaper.c:129-155 | Every axis moves towards its request without passing it and the largest error shrinks by exactly the common step |
| `DriveLimits.RampExactly` | ecu/control/src/motion_setpoint_shaper.c:360-419 | One call, exactly: every axis moves towards where the call heads for and the furthest comes nearer by just the ramp of the call, 600, 1,200 or 2,000 units per elapsed millisecond (1 to 40) by distance, 500 while turning round, and 1,000 at least |
| `DriveLimits.RampShared` | ecu/control/src/motion_setpoint_shaper.c:129-155 | and each axis takes its share by distance, rounded towards zero but never to a standstill |
| `DriveLaws.DriveConverges` | ecu/control/src/motion_setpoint_shaper.c:374-419 | For values within 5,000,000 and a constant request the group equals the request after 15,000 calls and ever after, for any elapsed times |
| `DriveLaws.ReversalEnds` | ecu/control/src/motion_setpoint_shaper.c:345-358 | The reversal phase ends after at most one call per 1,000 units of the largest speed and does not come back |
| `DriveLaws.NeverRestarts` | ecu/control/src/motion_setpoint_shaper.c:345-358 | A call outside a reversal never begins one |
| `DriveLaws.NoSignFlip` | ecu/control/src/motion_setpoint_shaper.c:374-419 | No axis above 80,000 units changes its sign within one call |
| `DriveLaws.ReversalSkipsZero` | ecu/control/include/motion_setpoint_shaper.h:48-54 | No call of a reversal ever outputs the zero vector: more than 60,000 units are left on some axis, against the comment that a coherent zero vector comes first |
| `PlannerLaws.SmoothShape` | ecu/control/src/steering_transition_planner.c:31-40 | Smoothstep is monotone, 1.5-Lipschitz up to rounding, and full exactly at full progress |
| `PlannerLaws.SmoothEases` | ecu/control/src/steering_transition_planner.c:31-40 | It starts under the parabola 3p^2 and ends as it starts |
| `PlannerLaws.TransitionShape` | ecu/control/src/steering_transition_planner.c:187-209 | Two looks at one transition: every axis between start and latched target, moving only towards it, on it exactly once the duration has passed, with a bounded step in between |
| `PlannerLaws.PointShape` | ecu/control/src/steering_transition_planner.c:42-53 | The same for one axis in terms of progress |
| `PlannerLaws.LatchTimed` | ecu/control/src/steering_transition_planner.c:68-83 | The duration of a latched transition, exactly |
| `PlannerLaws.TransitionSource` | ecu/control/src/steering_transition_planner.c:135-185 | Over every call sequence from initialisation a transition under way was latched by one earlier spin or crab call from four fresh measured positions, with a duration of its furthest distance at 2,700,000 counts/s within 900 to 2,200 ms, and every call since kept the posture and stayed within 1,000 counts per axis of the latched targets |
| `PlannerLaws.RejectionForcesFresh` | ecu/control/src/steering_transition_planner.c:149-156 | After a rejected update the next successful fixed-posture call has four fresh axes and starts from their measured positions |
| `PlannerLaws.FreshStartOnly` | ecu/control/src/steering_transition_planner.c:148-185 | With nothing under way or complete, a posture call succeeds exactly with four fresh axes |
| `PlannerLaws.CallExactly` | ecu/control/src/steering_transition_planner.c:109-211 | Every update call from every state, exactly: passes through outside a posture, holds the request of a completed transition, goes on with one under way, starts anew from four fresh axes or rejects |
| `PlannerLaws.ShownExactly` | ecu/control/src/steering_transition_planner.c:109-211 | What the planner shows of a successful posture call, exactly: its output, the measured positions and mask, and as errors the way from the output to the latched targets, or from the axes to a request that is held |
| `PlannerLaws.CompletionAbsorbs` | ecu/control/src/steering_transition_planner.c:138-146 | Completion is absorbing while posture and targets hold, with or without fresh feedback |
| `PlannerLaws.SmallMoveOutputsMeasured` | ecu/control/src/steering_transition_planner.c:158-204 | A transition with every axis within 1,000 counts is complete at once and the starting call still outputs the measured positions |
| `CrcLaws.AppendVerifies` | tools/modbus/rtu_codec.py:23-34 | What append_crc returns verifies if and only if the payload has at least two bytes |
| `CrcPolynomial.CrcIsRemainder` | tools/modbus/rtu_codec.py:10-20 | The register of a payload of any length is the remainder of polynomial long division over its bits: low bit of every byte first, the first sixteen coefficients inverted, sixteen zeros appended, generator x^16+x^15+x^2+1 |
| `CrcPolynomial.BitsDetermine` | tools/modbus/rtu_codec.py:10-20 | and those sixteen bits are all of the register |
| `CrcPolynomial.DigitsCheck` | tools/modbus/rtu_codec.py:10-20 | The published check value: 0x4B37 for the nine ASCII digits 1 to 9 |
| `CrcPolynomial.ReadAllFrame` | tools/modbus/rtu_codec.py:23-26 | The usual request 01 04 00 00 00 08 ends with F1 CC on the line |
| `CrcLaws.ResidueTheorem` | tools/modbus/rtu_codec.py:29-34 | A frame of four bytes or more is valid if and only if the register over all of it, trailer included, ends at zero |
| `CrcLaws.CorruptionRejected` | tools/modbus/rtu_codec.py:10-34 | Any corruption of a valid frame of any length confined to sixteen consecutive line bits, payload or trailer, across up to three bytes, is rejected |
| `CrcLaws.AdjacentBytesRejected` | tools/modbus/rtu_codec.py:10-34 | and so is any corruption of two adjacent bytes anywhere in the frame |
| `CrcLaws.ShiftsInjective` | tools/modbus/rtu_codec.py:15-19 | The shift and xor steps are injective on 16-bit registers |
| `CrcLaws.ShiftsLinear` | tools/modbus/rtu_codec.py:15-19 | and linear: the difference of two registers evolves by itself |
| `CrcLaws.ResponseRoundTrip` | tools/modbus/rtu_codec.py:43-54 | A master decodes a built function 04 response to exactly the register values it was built from |
| `CrcLaws.ResponseOnWire` | tools/modbus/rtu_codec.py:43-54 | Byte by byte: address, function 04, twice the number of values, and each value high byte first |
| `CrcLaws.ResponseFails` | tools/modbus/rtu_codec.py:45-52 | Building fails exactly for more than 125 values or a value outside 16 bits |
| `VirtualAdc.ScannerConfluence` | tools/modbus/virtual_adc_module.py:134-153 | The requests found and the bytes left over are the same for every way of splitting the byte stream into chunks |
| `VirtualAdc.ScanContinues` | tools/modbus/virtual_adc_module.py:90-109 | Bytes that arrive later never change what was found before them |
| `VirtualAdc.RequestAnswered` | tools/modbus/virtual_adc_module.py:66-87 | Every request found gets a CRC-valid answer; an in-range one decodes to exactly the requested register slice, a bad count gets exception 3, a bad address exception 2 |
| `VirtualAdc.AddressedAnswered` | tools/modbus/virtual_adc_module.py:66-87 | Exactly the undamaged eight-byte frames for the slave are answered, whatever their function; the answer is valid and under that address; a function other than 04 gets its exception with code 1, which no master decodes as registers |
| `VirtualAdc.RequestFound` | tools/modbus/virtual_adc_module.py:90-109 | Every function 04 request to the slave, framed with its trailer, is found as soon as it is complete |
| `VirtualAdc.ScannedAreRequests` | tools/modbus/virtual_adc_module.py:90-109 | Everything the scanner produces is addressed, function 04 and CRC-valid |
| `CommandExecutor.RunCycles` | ecu/vehicle/src/vehicle_command_executor.c:557-609 | Any number of cycles on the adapter object: it ends in the state of the modelled run with exactly its traffic in the log; every moving group in the log went out in a cycle with a live, authorised command, everything else is harmless or a reverse-only pump command, and every published valve output has a live pump request, an interlocked mask and a ready speed read less than 500 ms before |
| `CommandExecutor.FlushLiftHydraulic` | ecu/vehicle/src/vehicle_command_executor.c:409-431 | One cycle on the object: a command stamped at most 50 ms ago or at most 10 ms ahead, on wrapping counters, is handed over and its valves published; for every other mailbox the safe default is applied and the outputs are zero |
| `CommandExecutor.LiveExactly` | ecu/vehicle/src/vehicle_command_executor.c:335-344 | On absolute times less than half a wrap apart: a command stamped at s is live at t if and only if t <= s + 50 and s <= t + 10 |
| `CommandExecutor.StaleCycle` | ecu/vehicle/src/vehicle_command_executor.c:572-590 | In any cycle outside that window no moving group leaves, every valve ends closed and the published output is zero |
| `CommandExecutor.TimelyHandsOver` | ecu/vehicle/src/vehicle_command_executor.c:366-388 | and inside it the command is handed over as it is, but for the track-width valves while the steering is not ready |
| `CommandExecutor.FreshExactly` | ecu/vehicle/src/vehicle_command_executor.c:335-344 | The firmware test on wrapping counters means that age for every stamp, however far apart |
| `CommandExecutor.TrafficAccounted` | ecu/vehicle/src/vehicle_command_executor.c:557-609 | Over any run of cycles every event on the bus is accounted for: moving groups only from commands at most 50 ms old, or 10 ms ahead, that ask for motion with high voltage present |
| `CommandExecutor.OutputsJustified` | ecu/vehicle/src/vehicle_command_executor.c:600-606 | Every non-zero published output has in its cycle a command of that age with a pump request, its interlocked selection, no track-width valve before the steering is ready, and Node13 feedback at most 200 ms old without fault or forward rotation, and less than 500 ms before a cycle that read the pump faster than 1,333,333 units in reverse |
| `CommandExecutor.AbandonedStops` | ecu/vehicle/src/vehicle_command_executor.c:572-590 | When no command of that age comes any more, the valves are closed from the first such cycle on and every state of lift and pump is stopped after fourteen served cycles |
| `LiftHydraulicDevices.LiftHydraulicDevice.Apply` | ecu/devices/src/lift_hydraulic_device.c:2987-3095 | The in-place adapter call takes the device to the modelled next state with the modelled traffic, for every state, service answer, command and time |
| `LiftHydraulicDevices.LiftHydraulicDevice.Process` | ecu/devices/src/lift_hydraulic_device.c:1974-2474 | The in-place interpolation machine, all thirteen states, does exactly the modelled call, which the theorems on ranges, set-up, settling, travel and backoff above state in terms of what it reads |
| `LiftHydraulicDevices.LiftHydraulicDevice.RefreshFeedback` | ecu/devices/src/lift_hydraulic_device.c:431-464 | The leg loop takes over exactly the usable positions and velocities and reports whether all four were |
| `LiftHydraulicDevices.LiftHydraulicDevice.RefreshRanges` | ecu/devices/src/lift_hydraulic_device.c:303-345 | The leg loop sets the three range marks |
| `LiftHydraulicDevices.LiftHydraulicDevice.MeasureSpread` | ecu/devices/src/lift_hydraulic_device.c:812-843 | The leg loop finds the difference of the highest and the lowest position |
| `LiftHydraulicDevices.LiftHydraulicDevice.PositionsAtTarget` | ecu/devices/src/lift_hydraulic_device.c:1085-1106 | The early-exit loop decides whether all four legs are within tolerance of the target and of each other |
| `LiftHydraulicDevices.LiftHydraulicDevice.LeadingPosition` | ecu/devices/src/lift_hydraulic_device.c:857-871 | The leg loop finds the axis already furthest along the requested direction |
| `LiftHydraulicDevices.LiftHydraulicDevice.CommonFollowingError` | ecu/devices/src/lift_hydraulic_device.c:873-901 | The progress loop finds the lead of the common target over the slowest axis, cut at zero and at 32 bits |
| `LiftHydraulicDevices.LiftHydraulicDevice.AxesNearZero` | ecu/devices/src/lift_hydraulic_device.c:933-943 | Whether all four axes are below the starvation speed |
| `LiftHydraulicDevices.LiftHydraulicDevice.StepCounts` | ecu/devices/src/lift_hydraulic_device.c:84-154 | The branching speed step: brake within the remaining distance, otherwise approach the governed limit, and the counts of one segment |
| `LiftHydraulicDevices.LiftHydraulicDevice.QueueSetupSdos` | ecu/devices/src/lift_hydraulic_device.c:529-625 | Queues the set-up writes in order; refused anywhere, it faults with exactly the head of them queued |
| `LiftHydraulicDevices.LiftHydraulicDevice.ObserveSettle` | ecu/devices/src/lift_hydraulic_device.c:981-1022 | The drift sampler restarts on any leg above 3000 counts and reports settled after the stable window |
| `LiftHydraulicDevices.LiftHydraulicDevice.ObserveProgress` | ecu/devices/src/lift_hydraulic_device.c:1108-1145 | The progress watchdog rebaselines all legs when any has stalled and only drops the at-target mark |
| `LiftHydraulicDevices.LiftHydraulicDevice.CaptureOrigin` | ecu/devices/src/lift_hydraulic_device.c:957-973 | The origin is the measured positions and the total the farthest leg from the target |
| `LiftHydraulicDevices.LiftHydraulicDevice.PlanSample` | ecu/devices/src/lift_hydraulic_device.c:1542-1597 | One sample of speed, planned distance and common target in place |
| `LiftHydraulicDevices.LiftHydraulicDevice.BeginLeveling` | ecu/devices/src/lift_hydraulic_device.c:1609-1667 | Fixes target, origins and sample count of a pre-alignment |
| `SteeringShaper.ShapeSteeringGroup` | ecu/control/src/motion_setpoint_shaper.c:187-343 | The in-place four-axis update, arrays shared or not, one array for both outputs included, null arrays rejected, computes the group step whose speed, acceleration, heading and arrival the laws are about |
| `SteeringShaper.ShapeAxis` | ecu/control/src/motion_setpoint_shaper.c:240-338 | The statements of the wheel loop compute one axis step |
| `SteeringShaper.ChoosePace` | ecu/control/src/motion_setpoint_shaper.c:204-237 | Band, braking speed, current group speed and bounded elapsed time of a call |
| `DriveShaper.ShapeDriveGroup` | ecu/control/src/motion_setpoint_shaper.c:374-419 | The in-place drive update computes the ramp step the laws are about and reports the reversal |
| `DriveShaper.AdvanceGroup` | ecu/control/src/motion_setpoint_shaper.c:129-155 | The common step applied in place, also onto the array of current values |
| `DriveShaper.GroupRequestsReversal` | ecu/control/src/motion_setpoint_shaper.c:345-358 | Whether any axis reverses across the deadband |
| `TransitionPlanner.SteeringTransitionPlanner.Update` | ecu/control/src/steering_transition_planner.c:109-211 | The in-place planner update reaches the modelled next state, return value and output for every input, null and shared arrays included |
| `TransitionPlanner.SteeringTransitionPlanner.constructor` | ecu/control/src/steering_transition_planner.c:85-91 | A new planner is blank |
| `TransitionPlanner.SteeringTransitionPlanner.Reset` | ecu/control/src/steering_transition_planner.c:93-101 | Everything cleared except the transition counter |
| `TransitionPlanner.SteeringTransitionPlanner.HaveTargetsChanged` | ecu/control/src/steering_transition_planner.c:55-66 | Whether some axis was re-targeted by 1,000 counts or more |
| `TransitionPlanner.SteeringTransitionPlanner.LatchAxes` | ecu/control/src/steering_transition_planner.c:160-176 | Start, target, errors, moving mask and largest distance of a new transition |
| `RtuCodec.Crc16Modbus` | tools/modbus/rtu_codec.py:10-20 | The nested loops compute the register that is the remainder of the polynomial division |
| `RtuCodec.BuildReadInputRegistersResponse` | tools/modbus/rtu_codec.py:43-54 | The response loop, with the first offending value as its error |
| `VirtualAdc.AdcModule.PopNextRequestFrame` | tools/modbus/virtual_adc_module.py:90-109 | Returns the first valid 8-byte window and consumes exactly up to its end; without one, fewer than eight bytes stay |
| `VirtualAdc.AdcModule.Receive` | tools/modbus/virtual_adc_module.py:136-153 | One pass of the service loop answers exactly the requests of the buffer |
| `VirtualAdc.AdcModule.Serve` | tools/modbus/virtual_adc_module.py:134-153 | The service loop over any chunks answers exactly the requests of the whole stream |

## Left out

- LiftOrdering.EnableAndTriggerOrder: equality of the preload points is stated for series in which no captured origin was dropped, because with one it is false; `LiftHolds.DroppedHoldsDiffer` gives the converse.
- LiftStream.SegmentTravels: of a stretch that is on course to its target when it begins, because the property is false of others; `LiftCourse.RunningOnCourse` says that every stretch without a swallowed change is, and `LiftCourse.CourseExactly` and `LiftCourse.PointRecovers` which of the others are.
- LiftStream.SegmentArrives: likewise; `LiftCourse.ArrivalExactly` gives the condition.
- LiftStop.SafeStopReached: about a service that finishes everything within one call; how the service schedules its queue is not modelled.
- LiftStopExact.StopSpacingExact: spacings above half a billion milliseconds, where a gap comes near half a wrap of the clock.
- The gate that holds back the track-width valves until the steering is in posture enters `CommandExecutor` as one answer per cycle, and so does a mailbox read torn by its writer.
- LiftAlignment.GroupStep: computed in unbounded integers; `LiftAlignment.FitsExactly` says for which distances that is the firmware's arithmetic.
- Diagnostic counters, group sequence numbers, maxima kept for display and the cached last command: nothing above depends on them.
- The individual SDO writes of the pump set-up: one accepted-or-not answer stands for all of them.
- Feedback that changes between two reads within one call: a call sees one coherent snapshot.
- Feedback-chasing leveling (`lift_level_next_target`, `lift_level_target_from_feedback`): leveling always starts with a direction and every cancel intercepts it.
- Floating-point heights are real numbers; NaN and infinities of the command are not modelled.
- 32-bit overflow of differences between positions of opposite extremes, in the adapter and in the planner's error fields.
- `motion_setpoint_shape_drive_current_group`: a start from zero current is applied at once, which leaves nothing to converge.
- The unbounded service loop, serial port, printing and command line of the virtual module: `Serve` runs over a finite stream of chunks.
- Kinematics, motion control, board support, object dictionary, power, input/output, warning-light and analog adapters, and the Python motion tools: tables, thin adapters or hardware access.
