# Verified model of fw-fan-quiet

fw-fan-quiet caps CPU power and GPU clocks so that another program can hold a fan-noise target. This project models its hard parts in Dafny and proves what they promise over every input, every run or every interleaving:

- **Guided calibration** (`StepTest`, `StepTestMachine`, `StepTermination`, `StepHistory`, `StepTrace`, `StepBaseline`, `StepEndings`, `StepLoop`, `Runner`, `RunnerProofs`, `ClippedRun`): the sample-driven step test with its gates, retries and frozen key, and the runner that merges and saves gains. Proved: every fair run ends within five budgets of seconds; a device is stepped only after certified steadiness; each fit uses one contiguous trace of at least 180 certified samples, against the step the run itself reported; saved gains are conserved; closed with the actuators, only the stepped device ever leaves the baseline and every ending restores the pair before stopping the burner.
- **FOPDT identification** (`LeastSquares`, `GridSearch`, `Fopdt`, `FopdtProofs`, `Identify`): the fitted line is the unique minimiser, the coarse-to-fine search is sound, and the identification does not depend on sample order, temperature offset or (up to the gain) temperature unit. `exp` is an arbitrary function throughout.
- **Controller safety shell** (`Controller`, `ControllerMachine`, `ControllerProofs`, `ControllerSessions`, `ControllerSteps`, `ControllerHardware`, `ControllerReleases`, `ControllerEffects`, `ControllerFindings`, `ControllerCalib`, `ControllerGains`, `WatchdogProofs`, `Shutdown`, `Restore`, `CpuActuator`): mode ownership, the emergency latch, the flag stream, the stop fence, and the two-layer restore between main and the controller thread. Proved over every session of commands and samples: one owner, an exact flag stream, no cap behind a tripped watchdog, every limit in force backed by the last operation on its device and every lost one put back to stock, every calibration leaves Calibrating, saved gains change only at the key of a finished run, and exactly when Monitor means stock limits and when the re-entry hold is up.
- **Read-back, ranges and warm starts** (`Verdicts`, `GpuVerify`, `Guards`, `Config`, `Ranges`, `WarmStart`, `TimedWindow`): counters and windows shown equal to predicates over everything observed.

Each stateful object of the program is a class whose methods are proved against a transition function on values; the results about whole runs are lemmas about those functions. Floating point is exact reals, with `Finite`/`NonFinite` or an option where the program tests for finiteness or validity. Check everything with `dafny verify dfyconfig.toml`.

## Where the code and its documentation differ

The model follows the code.

- `src/control/controller.rs:2757-2761` says Monitor implies no limits by construction, and the program's own README says stock limits return whenever control stops. A calibration started from Monitor ends in Monitor with its caps still in force (`ControllerFindings.MonitorCanHoldLimits`). Over any session Monitor means stock limits exactly when no calibration begun in Monitor ended, without a trip, with a cap in force (`MonitorIsStockExactly`), and always when calibrations are started in Auto only (`AutoStartsKeepMonitorStock`).
- The held sample after an Auto calibration (`src/control/controller.rs:2940-2945`) also swallows the first sample of a later Auto session, when the session that owned the hold was released before any sample came (`ControllerFindings.ReleaseReachesStaleHold`) and when the watchdog tripped during the calibration itself (`TripReachesStaleHold`). `HoldIsHistory` and `FirstSampleSwallowedExactlyWhenHeld` say exactly when.
- The stop fence is described as guaranteeing that an orphaned thread issues no further write (`src/control/controller.rs:3104-3107`). The GPU half of a reassert is not re-checked, and a call already under way can land late. `Shutdown` proves the exact bound, gives both interleavings, and shows from which states each can still happen: a late start exactly from past a reassert's fence, a capped exit exactly from the middle of a write.
- A step test that is done can leave Done by retrying a reset cap; only the runner's flag makes the end final: `StepTermination.DoneIsLeftOnlyByRetry`, with a run that does it in `DoneCanBeLeft`.
- A grid round whose lower bound is clipped at its floor can lose the best model already found. The next round is no worse for every objective exactly when the best point is one of its 625 points (`GridSearch.KeptExactlyOnTheGrid`); `FopdtProofs.ClippedTraceLosesItsModel` gives a six-minute trace of a plant with 45 s time constant and 7.5 s dead time that round 0 fits exactly and round 1 does not, for any decaying `exp`, and `ClippedRun.ClippedTraceIsRecorded` a run of the step test that records it.
- `src/control/watchdog.rs:26` asks for consecutive hot samples; a sample without any temperature between them does not break the count, as lines 76-77 of that file say: `WatchdogProofs.TripMeaning`.
- `src/control/controller.rs:228-229` counts Unverifiable reads towards blindness; the code resets the count on them (lines 498-501). Line 198 names 87 C as the GPU trip; the constant is 91 C.
- The GPU maximum raised by a floor edit that is undone before the next sample never reaches the ratchet: `Ranges.BriefFloorEditIsForgotten`, and `Ranges.CeilingIsConfigured` for exactly when the loop's ceiling is the configured maximum.
- The held sample puts a NaN into the fan window when the fan reads nothing (`src/control/controller.rs:2966-2971`), and the steady window's deviation test lets a NaN pass (lines 2274-2278): forty-one qualifying ticks later the duty table is handed a NaN. `WarmStart.RefinedByNonFinite` says exactly when, `WarmStart.HeldSampleReachesTheTable` gives the run; warm starts are not affected (`StoredFromSettledEvidence`). What the table does with it is not part of this model.
- CPU maintenance compares with the request but writes the clamped value, so a request more than half a watt outside the envelope is repaired for ever: `CpuActuator.RepairSettlesInsideEnvelope`. This is a fact about the function: the controller only maintains caps that a write verified, which are clamped, and those settle (`VerifiedCapSettles`).

## Model

| member | source | states |
|---|---|---|
| TimedWindow.PushTimedOptional | src/calib/step.rs:772-794 | the in-place deque update equals the window function for every reading, missing and non-finite ones included |
| TimedWindow.TimedSpanWithin | src/calib/step.rs:796-803 | the folded flatness test equals the span predicate |
| TimedWindow.WindowIsCoveringSuffix | src/calib/step.rs:772-794 | for nondecreasing times the deque is the history since the last missing reading, cut at the latest reading at or before the boundary |
| TimedWindow.SpanWithinMeaning | src/calib/step.rs:796-803 | flat iff the ends are a horizon apart and no two readings differ by more than the tolerance |
| TimedWindow.FlatMeansHistoryFlat | src/calib/step.rs:772-803 | the gate passes iff the untrimmed history covers the horizon and is flat from the covering reading on |
| LeastSquares.ShapesAndMeans | src/calib/fopdt.rs:86-98 | the response shape of every sample and both means, computed in one pass |
| LeastSquares.CentredSums | src/calib/fopdt.rs:100-106 | the slope's numerator and denominator are the centred sums |
| LeastSquares.ResidualSum | src/calib/fopdt.rs:113-120 | the residual of the returned line |
| LeastSquares.LinearFitAt | src/calib/fopdt.rs:82-122 | returns the fitted line, or nothing exactly when the shape hardly varies |
| LeastSquares.FittedLineIsTheUniqueMinimum | src/calib/fopdt.rs:82-122 | no line has a smaller residual on data of any length and any shape, and a line that ties is the fitted one |
| LeastSquares.FitPermutes | src/calib/fopdt.rs:82-122 | reordering the samples leaves the line and its residual unchanged |
| LeastSquares.FitRescales | src/calib/fopdt.rs:82-122 | rescaling and shifting temperatures transforms the line and its residual accordingly |
| GridSearch.GridBestIsFirstMinimum | src/calib/fopdt.rs:150-168 | a round returns the first usable grid point with the least residual, or nothing when no point is usable |
| GridSearch.RoundStaysPhysical | src/calib/fopdt.rs:150-168 | the point found has a positive time constant, a non-negative dead time and lies in its window |
| GridSearch.NextWindowShrinksAroundBest | src/calib/fopdt.rs:170-175 | the next window contains the best point (exactly when it is above the time-constant floor) and is at most 0.35 as wide, or 1e-6 |
| GridSearch.EveryRoundIsPhysical | src/calib/fopdt.rs:129-178 | every round's window keeps positive time constants and non-negative dead times |
| GridSearch.BestNeverLeavesTheWindow | src/calib/fopdt.rs:129-178 | over all rounds the previous best stays inside the next window |
| GridSearch.CentredRoundKeepsBest | src/calib/fopdt.rs:150-175 | a round whose bounds were not clipped is never worse than the one before |
| GridSearch.RoundsNeverGetWorse | src/calib/fopdt.rs:129-178 | residuals fall monotonically along any stretch of unclipped rounds |
| GridSearch.KeptExactlyOnTheGrid | src/calib/fopdt.rs:150-175 | the next round is no worse for every objective that agrees at the best point exactly when that point is one of the next round's 625 |
| GridSearch.ClippedRoundCanLoseTheBest | src/calib/fopdt.rs:170-175 | of searches over arbitrary objectives: one on which a clipped round gets worse |
| GridSearch.SearchAgrees | src/calib/fopdt.rs:129-178 | the search depends only on the order of the residuals |
| Fopdt.SearchTauTheta | src/calib/fopdt.rs:129-178 | the nested loops perform the nine-round search |
| Fopdt.SearchRound | src/calib/fopdt.rs:150-168 | the 25 by 25 loops visit the grid in order |
| Fopdt.FitFopdt | src/calib/fopdt.rs:50-72 | the fit with its rejections in order |
| FopdtProofs.VariationErrorUnreachable | src/calib/fopdt.rs:57-60 | the second inner fit always succeeds, so its error is never produced |
| FopdtProofs.AcceptedFitIsBestOnTheGrid | src/calib/fopdt.rs:50-72 | an accepted model is physical, moved the temperature enough, and beats every response curve at every usable point of each final unclipped grid |
| FopdtProofs.FitRefusesExactly | src/calib/fopdt.rs:50-72 | which traces are refused and why, each reason exactly, and nothing else; the accepted gain times the step is the fitted response |
| FopdtProofs.ClippedTraceLosesItsModel | src/calib/fopdt.rs:129-178 | a trace of 361 samples, one a second, that round 0 fits without residual at its true dead time and round 1, clipped, does not, for any decaying exponential |
| FopdtProofs.FitIgnoresOrder | src/calib/fopdt.rs:50-72 | any permutation of the samples gives the same result or the same rejection |
| FopdtProofs.FitFollowsUnits | src/calib/fopdt.rs:50-72 | an affine change of temperature unit scales the gain and changes nothing else |
| FopdtProofs.FitIgnoresOffset | src/calib/fopdt.rs:50-72 | adding a constant to all temperatures changes nothing |
| FopdtProofs.DerivedGainsAreTuned | src/calib/fopdt.rs:187-208 | gains are derived exactly from models in the band, and kc times k times (lambda + theta) is tau, with lambda 90 s up to a dead time of 30 s and three dead times from there |
| Identify.DefaultsAreTuned | src/control/device_loop.rs:68-75 | the default gains are positive and tuned to the documented plant by the same rule |
| Identify.IdentifiedGainsAreTuned | src/calib/step.rs:721-741 | identified gains obey the tuning rule on an accepted model and stay within a factor of four of the defaults |
| Identify.IdentificationIgnoresOrderAndOffset | src/calib/step.rs:721-741 | the whole identification is invariant under order and offset |
| StepTest.SettledMeans | src/calib/step.rs:502-514 | all seven gates pass iff the pair is held, the loop quiet and all three windows flat |
| StepTestMachine.PerDeviceStepTest.constructor | src/calib/step.rs:211-239 | the initial state |
| StepTestMachine.PerDeviceStepTest.AbortRun | src/calib/step.rs:743-755 | ends the run; an initialized run restores both caps before the burner stops |
| StepTestMachine.PerDeviceStepTest.CountHotSample | src/calib/step.rs:435-439 | the saturating hot streak |
| StepTestMachine.PerDeviceStepTest.GuardReason | src/calib/step.rs:440-449 | whether a thermal guard trips |
| StepTestMachine.PerDeviceStepTest.KeyChangeReason | src/calib/step.rs:414-432 | freezes the key once and reports any later difference; a change leaves the state alone |
| StepTestMachine.PerDeviceStepTest.ObserveGates | src/calib/step.rs:346-356 | passes one verdict to each gate |
| StepTestMachine.PerDeviceStepTest.WatchSettling | src/calib/step.rs:480-514 | windows grow while held and quiet and are emptied otherwise, then the gates are observed |
| StepTestMachine.PerDeviceStepTest.AdoptPair | src/calib/step.rs:457-474 | takes the verified pair as baseline once and fixes both targets |
| StepTestMachine.PerDeviceStepTest.OnSettleSample | src/calib/step.rs:451-528 | one settling sample, with its timeout and missing-key abort |
| StepTestMachine.PerDeviceStepTest.OnRecoverySample | src/calib/step.rs:672-719 | one recovery sample between the steps |
| StepTestMachine.PerDeviceStepTest.NoteAppliedCap | src/calib/step.rs:555-577 | the step counts from its verified completion |
| StepTestMachine.PerDeviceStepTest.OnResponseSample | src/calib/step.rs:549-635 | one response sample: wait, abort, reject, record or conclude |
| StepTestMachine.PerDeviceStepTest.ConcludeDevice | src/calib/step.rs:721-741 | fits the collected trace with the applied step; `StepTrace.FittedStepIsReported` says over the run what that step is |
| StepTestMachine.PerDeviceStepTest.FinishDeviceResponse | src/calib/step.rs:637-669 | leaves a step with the held pair put back first |
| StepTestMachine.PerDeviceStepTest.RetryAfterCpuCapReset | src/calib/step.rs:380-412 | discards the response and settles again, at most twice per device |
| StepTestMachine.PerDeviceStepTest.BeginRun | src/calib/step.rs:324-344 | the first sample's baseline and key |
| StepTestMachine.PerDeviceStepTest.OnJudgedSample | src/calib/step.rs:346-376 | guards, key, retry, first sample and phase, in that order |
| StepTestMachine.PerDeviceStepTest.OnSample | src/calib/step.rs:314-377 | one sample of the whole machine, clock errors included |
| StepTermination.CalibrationEnds | src/calib/step.rs:314-412 | every run of honest reports with a clock that never stands still is done within five budgets of seconds |
| StepTermination.StepSpends | src/calib/step.rs:524-719 | each sample ends the run or spends at least a tick of the budget, with at most two retries per device |
| StepTermination.RetriesAreBounded | src/calib/step.rs:380-387 | over any run at all each device is retried at most twice, and the counters count exactly the samples that retried |
| StepTermination.ValuelessReportsNeverEnd | src/calib/step.rs:555-590 | without a value on verified writes a run of any length stays waiting, so that assumption is needed |
| StepTermination.DoneIsLeftOnlyByRetry | src/calib/step.rs:357-376 | the test leaves Done exactly by a retry that passes every earlier check |
| StepTermination.DoneCanBeLeft | src/calib/step.rs:357-412 | a run of three samples that is done after the second and settling again after the third |
| StepHistory.StepsStartSteady | src/calib/step.rs:475-523 | entering either step, the last minute (twenty seconds for fans) was flat with both caps verified at the baseline and the loop quiet on every sample |
| StepHistory.RunWatches | src/calib/step.rs:480-496 | in every run the settling windows hold exactly what the last certified samples read |
| StepHistory.GateDatesItsStretch | src/calib/step.rs:115-123 | a gate's start time is the first observation of the current unbroken verdict |
| StepHistory.StreakIsHotTail | src/calib/step.rs:435-439 | in every run the hot streak is the number of hot samples at the end of those the clock accepted, up to 255 |
| StepHistory.GuardTripsMeaning | src/calib/step.rs:434-449 | the thermal guard trips iff the embedded controller reads 95 or more, the GPU is hot, or this and the two accepted samples before it were all CPU-hot; the run is then over |
| StepTrace.RunTraces | src/calib/step.rs:549-635 | in every run the response recorded so far is exactly the last samples, contiguous, under the frozen key |
| StepTrace.FittedTraceIsCertified | src/calib/step.rs:594-635 | reported gains were fitted to a contiguous trace of at least 180 samples that spans the window, all with the stepped pair verified since the last retry |
| StepTrace.FittedStepIsReported | src/calib/step.rs:721-741 | every fit is of the run's own reports: the batch puts a pair (c, g) back first, and the fit is given the last samples' temperatures, timed from the completion the first of them reports, against that sample's reported cap of the stepped device minus c, or minus g; all samples verified, the other device at the pair |
| StepBaseline.FirstSampleAsks | src/calib/step.rs:324-370 | the first sample with a clock starts 24 burner threads and asks for the caps in force, or for the floors where a cap is unknown or not kept; a guard that trips at once ends the run instead |
| StepBaseline.StepsAskOneStepAbove | src/calib/step.rs:457-528 | entering either step is exactly one write, 15 W or 500 MHz above a pair that some sample of the run reported verified with both writes completed since it began, within the reported maximum |
| StepBaseline.FittedPairWasReported | src/calib/step.rs:457-474 | the pair a fitted batch puts back, against which the step is measured, is one the run reported verified |
| StepEndings.SettleDecides | src/calib/step.rs:451-528 | a judged settling sample moves on exactly when a known pair is held, the loop is quiet and all windows are flat, under a key; it ends the run exactly when that comes without a key or has not come in ten minutes |
| StepEndings.RecoveryDecides | src/calib/step.rs:672-719 | recovery moves on exactly when moreover both writes completed since it began, and ends the run exactly when that has not come in ten minutes |
| StepEndings.ResponseDecides | src/calib/step.rs:549-635 | a response goes on exactly while its write is reported and held and its readings follow each other for six minutes, or while it has waited less than six minutes for the report; the CPU step leads to recovery exactly when finished with the pair held, and everything else ends the run |
| StepEndings.NoPhaseIsCutShort | src/calib/step.rs:475-719 | over any run a judged sample ends settling or recovery for lack of steadiness exactly ten minutes or more after the sample that last entered it, retries included, and a step for lack of its write no sooner than six minutes after the sample that asked |
| StepEndings.PhasesStartOver | src/calib/step.rs:380-412 | entering recovery, and every retry, starts with empty windows, no response, no applied step and no gate observed |
| StepEndings.FirstSampleObserves | src/calib/step.rs:346-356 | the first sample opens all seven gates at its time, four closed and three as the fan loop is |
| StepTrace.MachineTracesAreLongEnough | src/calib/fopdt.rs:51-53 | such a trace is never rejected as too short and always spans 358 seconds |
| ClippedRun.ClippedTraceIsRecorded | src/calib/step.rs:549-635 | a run of the step test hands exactly that trace to identification, for any fit and any exponential |
| StepLoop.StepClosesLoop | src/calib/step.rs:314-412 | closed with the actuators: only the stepped device is off the baseline, an adopted baseline stays, the burner is not restarted, and the run ends exactly when it stops the burner after restoring the pair |
| StepLoop.FirstClosesLoop | src/calib/step.rs:318-365 | the first sample starts the burner and requests the pair, or ends the run at once |
| StepLoop.AdoptLoop | src/calib/step.rs:457-474 | adopting a verified pair cannot move a baseline the actuators already hold |
| Runner.PerDeviceCalibRunner.constructor | src/calib/runner.rs:269-282 | a fresh runner over the starting maps |
| Runner.PerDeviceCalibRunner.Start | src/calib/runner.rs:284-288 | raises only the started flag |
| Runner.PerDeviceCalibRunner.MergeFits | src/calib/runner.rs:298-311 | each fit lands in its device's map under the current key |
| Runner.PerDeviceCalibRunner.OnSample | src/calib/runner.rs:290-337 | passes a sample on, merges fits and saves once at the end |
| Runner.PerDeviceCalibRunner.AbortWithReason | src/calib/runner.rs:346-351 | finishes without saving, after the test's own restores |
| RunnerProofs.StepMoves | src/calib/step.rs:314-412 | phases only go forward, a frozen key stays, and a fit is reported only as its device's step ends |
| RunnerProofs.GainsAreConserved | src/calib/runner.rs:290-337 | over any events the saved maps differ from the starting ones at most at the frozen key, by the single fit of that device, and are saved at most once, last |
| RunnerProofs.FrozenAndFinal | src/calib/runner.rs:295-335 | the key never changes once set and a finished runner neither acts nor changes |
| RunnerProofs.RunnerFollowsTest | src/calib/runner.rs:290-297 | until it finishes the runner is exactly the test of the delivered samples |
| RunnerProofs.RunnerFinishes | src/calib/runner.rs:325-335 | every fair calibration finishes through the runner |
| RunnerProofs.RunStaysClosed | src/calib/runner.rs:290-351 | over any truthful run, aborts included, a finished run has restored the baseline and stopped the burner, started at most once |
| RunnerProofs.FittedGainsAreCertified | src/calib/runner.rs:298-306 | every gain in the maps comes from a delivered sample with a certified trace |
| Verdicts.VerdictState.constructor | src/control/controller.rs:424-439 | a counter starts fresh |
| Verdicts.VerdictState.Observe | src/control/controller.rs:463-518 | one verdict, suppressed or not, with its outcome |
| Verdicts.StrikesFollow | src/control/controller.rs:503-514 | the strike count is the mismatches since the last verified read modulo three, and released means three or more |
| Verdicts.EpisodeMeaning | src/control/controller.rs:454-456 | in an episode iff an unsuppressed mismatch came since the last verified read; the release comes at exactly every third |
| Verdicts.BlindMeaning | src/control/controller.rs:483-501 | blind iff six unsuppressed unreadable reads came with no mismatch or unverifiable between them and no verified read since |
| Verdicts.AnnouncementsMatchHistory | src/control/controller.rs:463-496 | recovery and blindness are announced exactly when they happen |
| GpuVerify.PairedIndex | src/actuators/gpu.rs:130-137 | the paired command is the latest one completed by the sample |
| GpuVerify.LatestCompleted | src/actuators/gpu.rs:130-137 | the backwards search finds it |
| GpuVerify.GpuLockVerifier.constructor | src/actuators/gpu.rs:76-81 | a verifier starts without violations |
| GpuVerify.GpuLockVerifier.VerifyAgainstLock | src/actuators/gpu.rs:155-179 | one sample against an allowed lock |
| GpuVerify.GpuLockVerifier.VerifyPaired | src/actuators/gpu.rs:123-153 | one sample against its paired command, with the descent window |
| GpuVerify.StreakIsViolatingTail | src/actuators/gpu.rs:155-179 | the streak is the length of the violating tail of the paired samples |
| GpuVerify.MismatchMeaning | src/actuators/gpu.rs:123-179 | mismatch iff the sample is paired and the last three paired samples all violated |
| GpuVerify.ViolatesExactly | src/actuators/gpu.rs:138-179 | a paired reading violates iff the load is over 90 % and the clock is over the paired command by more than the slack, and also over the one before or more than a second after |
| GpuVerify.MismatchExactly | src/actuators/gpu.rs:123-179 | over any run, a mismatch comes iff the reading is paired and the last three paired readings were loaded and more than one command or one second behind, and names the clock read and the ceiling it was held to; verified iff paired, loaded and obeying |
| GpuVerify.RecordGpuCommand | src/control/controller.rs:2068-2079 | appends a command and keeps the last three |
| GpuVerify.RecordingKeepsLastThree | src/control/controller.rs:2068-2079 | recording one at a time keeps the last three of the whole history |
| GpuVerify.TruncationKeepsAllowance | src/control/controller.rs:2077 | the kept three allow what the full history allows exactly unless the sample pairs with something older, or with the oldest kept during its descent second |
| GpuVerify.LaggingCardNeverStruck | src/actuators/gpu.rs:138-152 | a card at most one of the shown commands and one second behind is never struck in any run |
| GpuVerify.LaggingCardStruckOnlyByTruncation | src/control/controller.rs:2068-2079 | judged by the last three commands, a card at most one command and one second behind the whole history is struck only by readings truncation judges differently, at least three of them, the last included |
| GpuVerify.TruncationStrikesALaggingCard | src/control/controller.rs:2077 | three readings of such a card, between the second and third of four quick commands, that do strike it |
| Guards.MaxRatchet.constructor | src/control/guards.rs:49-63 | ordered bounds and a clamped current ceiling |
| Guards.NewRatchetMeaning | src/control/guards.rs:49-63 | a new ratchet orders its bounds and starts at the value given, or at the bound that value is beyond |
| Guards.MaxRatchet.SetFloor | src/control/guards.rs:66-70 | a live floor keeps the ratchet's progress |
| Guards.MaxRatchet.Step | src/control/guards.rs:73-83 | one control sample of the ratchet; `HotGuardLowers` and `CoolGuardRaises` say what it does |
| Guards.CeilingRisesOnlyCoolOrForced | src/control/guards.rs:66-83 | the ceiling rises exactly when a floor forces it or a cool valid sample finds room, and by at most half the fall |
| Guards.HotGuardLowers | src/control/guards.rs:73-83 | the maximum falls exactly on a valid sample with the guard hot and room above the floor, by the whole rate or to exactly the floor |
| Guards.CoolGuardRaises | src/control/guards.rs:73-83 | a valid cool sample with the guard inactive raises the maximum by half the rate or to exactly the ceiling |
| Guards.GuardPair.constructor | src/control/guards.rs:136-143 | both guards start cold |
| Guards.GuardPair.Step | src/control/guards.rs:148-160 | both hysteresis axes advance one tick |
| Guards.HysteresisMeaning | src/control/guards.rs:166-177 | hot iff some reading reached the threshold and none since was missing or at the bottom of the band |
| Config.Sanitize | src/config.rs:230-352 | the field-by-field rewrite equals the sanitized configuration |
| Config.SanitizePositive | src/config.rs:364-370 | finite and at least the floor |
| Config.SanitizedIsInRange | src/config.rs:230-352 | every bound the controller relies on, non-finite inputs included |
| Config.SanitizedIsProjection | src/config.rs:230-352 | sanitation fixes exactly the in-range configurations and is idempotent |
| Config.SanitizedIsNearest | src/config.rs:230-370 | every number goes to the nearest value of its range, the ranges of the later fields being those of the earlier results; what is no number goes to its default; a gain override survives iff valid |
| Ranges.ThermalRanges.constructor | src/control/controller.rs:616-629 | ratchets start at the configured maxima |
| Ranges.ThermalRanges.StepCpuGuard | src/control/controller.rs:1727-1736 | the CPU guard's streak and band |
| Ranges.ThermalRanges.Tick | src/control/controller.rs:1724-1748 | guards, live floors and both ratchets on one sample |
| Ranges.ThermalRanges.Resume | src/control/controller.rs:1333-1335 | a resumed sample: cold guards, untouched ratchets |
| Ranges.ThermalRanges.ReseedAfterCalibration | src/control/controller.rs:2982-2990 | the held sample: cold guards that have seen its reading, untouched ratchets |
| Ranges.FloorEdit | src/control/controller.rs:1072-1098 | an edit keeps the configuration in range and raises the GPU maximum exactly when its floor exceeds it |
| Ranges.RangesNeverInvert | src/control/controller.rs:1737-1748 | over any edits, samples, resumes, Auto entries and held samples each loop gets floor, maximum, configured maximum and hardware ceiling in order |
| Ranges.GpuCeilingRisesOnlyCool | src/control/controller.rs:1744-1748 | in every such run the GPU maximum rises exactly when forced or when the guard is off with the die four degrees below its threshold |
| Ranges.MaximaFallExactlyHot | src/control/controller.rs:1727-1748 | in every run a sample lowers a loop's maximum exactly when it is valid, leaves that guard hot and finds room above the floor, by 2 W or 105 MHz or to exactly the floor |
| Ranges.HotSamplesLowerGpu | src/control/controller.rs:1744-1748 | after any run, n samples with a hot die leave the GPU maximum at the higher of the floor and the start less n times 105 MHz |
| Ranges.WarmSamplesLowerCpu | src/control/controller.rs:1727-1743 | once the CPU guard is hot, n readings above the bottom of its band leave the CPU maximum at the higher of the floor and the start less n times 2 W |
| Ranges.EntryStartsAtMaxima | src/control/controller.rs:616-629 | entering Auto starts each loop at its configured maximum |
| Ranges.BriefFloorEditIsForgotten | src/control/controller.rs:1072-1098 | an edit undone before the next sample raises the configured maximum but not the loop's |
| Ranges.CeilingsFollowFloors | src/control/controller.rs:1737-1748 | in every run the loop's GPU ceiling is the highest of the maximum at the last Auto entry and the floors its samples saw, the configured maximum the highest of the same and the floors set, and the CPU ceiling always the configured one |
| Ranges.CeilingIsConfigured | src/control/controller.rs:1072-1098 | the loop's ceiling is the configured maximum exactly when the highest GPU floor set since the last Auto entry was at most the maximum at that entry or was in force at some sample since |
| Ranges.CpuGuardMeaning | src/control/controller.rs:1727-1736 | over readings without a reset the CPU guard is hot iff three in a row reached the threshold and every one since stayed within three degrees |
| Ranges.GuardMeanings | src/control/controller.rs:1724-1736 | in every run of edits, samples, resumes, entries and held samples, each guard is hot exactly by the readings since the guards were last made cold |
| WarmStart.PopulationVariance | src/control/controller.rs:796-801 | the population variance of a window; `VarianceIdentity` and `VarianceBounds` say what that is |
| WarmStart.VarianceIdentity | src/control/controller.rs:796-801 | the count squared times the variance is the count times the total of squares less the total squared |
| WarmStart.VarianceBounds | src/control/controller.rs:796-801 | the variance is never negative, is zero exactly when all values are equal, and below a limit keeps every value within the count times that limit of the mean, squared |
| WarmStart.SteadyObserver.constructor | src/control/controller.rs:668-672 | empty windows and no keys |
| WarmStart.SteadyObserver.SmoothFan | src/control/controller.rs:2261-2267 | the fan window and its mean |
| WarmStart.SteadyObserver.PushSmoothed | src/control/controller.rs:2270-2279 | a bounded push yields the mean exactly when the window is full and steady |
| WarmStart.SteadyObserver.LoseView | src/control/controller.rs:2232-2240 | losing the view clears every window and key |
| WarmStart.SteadyObserver.ReseedAfterCalibration | src/control/controller.rs:2966-2979 | the held sample: the fan window is its reading or NaN, every other window and key is cleared |
| WarmStart.SteadyObserver.ObserveSteady | src/control/controller.rs:2224-2307 | one tick over both windows, the refinement and the stored pair |
| WarmStart.WindowIsCappedStretch | src/control/controller.rs:2270-2294 | a window is the capped stretch of qualifying samples since its key was set |
| WarmStart.StoredFromSettledEvidence | src/control/controller.rs:2286-2306 | a pair is stored exactly when forty gated ticks under one already current key end here with a finite variance below 3600 |
| WarmStart.StoredPairMeaning | src/control/controller.rs:2241-2306 | over any events, written out gate by gate: stored iff the last forty-one were ticks under the key, the last forty settled and near the table, with variance below 3600; every speed is then within 380 rpm of the mean, and what is stored is the pair in force |
| WarmStart.OnlyStoringChangesThePairs | src/control/controller.rs:2301-2306 | no event changes or drops a stored pair except a tick that stores its own key's |
| WarmStart.FanWindowIsRecentSpeeds | src/control/controller.rs:2261-2266 | the fan window is the last five speeds since the last missing one or the held sample that seeded it, and only that seed can be non-finite |
| WarmStart.SmoothedLosesItsValue | src/control/controller.rs:2267 | the smoothed speed is no number exactly while a held sample without a usable reading is among the last five |
| WarmStart.RefinedFromForty | src/control/controller.rs:2270-2285 | the duty table is handed the mean of the last forty smoothed speeds exactly when forty qualifying ticks under one already current key end here without a variance of 3600 or more |
| WarmStart.RefinementMeaning | src/control/controller.rs:2241-2285 | a number handed to the table is the mean of forty speeds of settled ticks under one key, every one within 380 rpm of it |
| WarmStart.RefinedByNonFinite | src/control/controller.rs:2270-2285 | it is handed something other than a number exactly when one of those forty is none |
| WarmStart.HeldSampleReachesTheTable | src/control/controller.rs:2966-2971 | a held sample without a fan reading and forty-one perfect ticks hand the duty table a NaN |
| Restore.RestoreGuard.constructor | src/actuators/guard.rs:48-60 | a guard owes what it was given |
| Restore.RestoreGuard.StartupReset | src/actuators/guard.rs:68-80 | releases both and keeps the actuators |
| Restore.RestoreGuard.RestoreAll | src/actuators/guard.rs:88-106 | performs everything owed, in order, and owes nothing after |
| Restore.OwedInOrder | src/actuators/guard.rs:88-106 | GPU before CPU before the module, each once and only what is owed |
| Restore.RestoreGuard.RestoreThenDrop | src/actuators/guard.rs:88-112 | restoring explicitly and then dropping restores once |
| Restore.FinalRestoreDrop | src/actuators/guard.rs:161-196 | restores with fresh actuators iff all twenty-one looks found the flag down |
| Shutdown.NoWriteStartsAfterShutdown | src/control/controller.rs:777-788 | over every interleaving at most one cap write starts after the flag, and only the GPU half of a reassert already past its fence |
| Shutdown.ExitLeavesStock | src/main.rs:421-439 | the process exits only after a restore, and with a cap only if the controller was caught mid-write and never reported |
| Shutdown.AtomicShutdownIsClean | src/control/controller.rs:3108-3187 | with writes and reasserts as single steps no write starts after the flag and the exit is always stock |
| Shutdown.AbandonedWriteSurvives | src/main.rs:395-412 | an interleaving in which a write under way lands after the final restore |
| Shutdown.UnfencedReassertSurvives | src/control/controller.rs:3045-3060 | an interleaving in which the unchecked GPU half of a reassert does |
| Shutdown.MainNeverWaitsForever | src/main.rs:279-350 | main always has a next step and exits within 28 of its own, whatever the controller does |
| Shutdown.LateStartExactlyPastFence | src/control/controller.rs:3045-3060 | from a reachable state in which the flag goes up, a cap write can still start exactly if the controller is past a reassert's fence |
| Shutdown.CapSurvivesExactlyMidWrite | src/actuators/guard.rs:161-196 | from a reachable state in which the fresh restore runs, the process can still exit capped exactly if the controller is in the middle of a write |
| CpuActuator.CpuCap.constructor | src/actuators/cpu.rs:106-115 | no cap written yet |
| CpuActuator.CpuCap.VerifyWrite | src/actuators/cpu.rs:196-219 | scores a read-back |
| CpuActuator.CpuCap.SetSustained | src/actuators/cpu.rs:130-155 | clamped write then verdict; a failed write is not remembered, and what is remembered is what the history of calls says |
| CpuActuator.CpuCap.Maintain | src/actuators/cpu.rs:160-166 | writes exactly on a readable mismatch with permission |
| CpuActuator.CpuCap.RestoreStock | src/actuators/cpu.rs:236-272 | one or two profile round trips; the cap is forgotten exactly on success, along the history of calls |
| CpuActuator.ToggleProfile | src/actuators/cpu.rs:277-296 | a different profile and then the original |
| CpuActuator.VerdictMeaning | src/actuators/cpu.rs:196-219 | verified iff both limits read back within half a watt; the first that does not is reported with what was written and read |
| CpuActuator.RememberedIsInForce | src/actuators/cpu.rs:130-272 | over any calls the remembered cap is the last one written since a restore succeeded, and 0 exactly when there is none |
| CpuActuator.RestoreProvesTheCapGone | src/actuators/cpu.rs:236-272 | after any calls a restore succeeds exactly when a round trip went through and no written cap is in force or a read after it, or after a second one, does not show that cap; a surviving cap is reported exactly when both reads show it |
| CpuActuator.RepairSettlesInsideEnvelope | src/actuators/cpu.rs:160-166 | on a machine that holds what is written, maintenance settles exactly for requests within half a watt of the envelope |
| CpuActuator.VerifiedCapSettles | src/actuators/cpu.rs:130-166 | a cap that a write verified lies inside the envelope and its maintenance settles |
| CpuActuator.RealActuatorsSettle | src/actuators/cpu.rs:130-131 | rounding and clamping is idempotent, so the closed-loop results apply to the real actuators |
| ControllerMachine.SafetyController.constructor | src/control/controller.rs:804-871 | the initial shell with the gains it loaded |
| ControllerMachine.SafetyController.RaiseFlag | src/control/controller.rs:3068-3076 | a genuine insertion is recorded once |
| ControllerMachine.SafetyController.ClearFlag | src/control/controller.rs:3080-3089 | a genuine removal is recorded once |
| ControllerMachine.SafetyController.DrainFlagEffects | src/control/controller.rs:3094-3096 | hands the recorded transitions over and forgets them |
| ControllerMachine.SafetyController.ReleaseLimits | src/control/controller.rs:2840-2886 | stock limits, Monitor, and the closed loop's flags cleared; `ControllerReleases.ReleaseCommandsRestore` and `ControllerEffects.ReleaseCommandsClear` say so over the operations and the flags |
| ControllerMachine.SafetyController.DropAuto | src/control/controller.rs:2827-2835 | drops the live Auto state |
| ControllerMachine.SafetyController.FinishCalibration | src/control/controller.rs:2896-2943 | resumes a suspended Auto behind a hold, or returns to Monitor |
| ControllerMachine.SafetyController.NoteCpuAnswer | src/control/controller.rs:2619-2635 | a verified CPU write becomes the limit with its stamps; any other only counts as a check |
| ControllerMachine.SafetyController.NoteGpuAnswer | src/control/controller.rs:2649-2669 | an applied GPU lock becomes the limit and, with a sample, one of the last three recorded commands |
| ControllerMachine.SafetyController.ApplyMachineEffect | src/control/controller.rs:2608-2682 | one actuator or burner effect, stopped by the fence, with the evidence it leaves |
| ControllerMachine.SafetyController.KeepGains | src/control/controller.rs:2724-2737 | takes over the saved maps, and the view is flagged uncalibrated unless its key has both gains |
| ControllerMachine.SafetyController.ApplyCalibEffects | src/control/controller.rs:2575-2754 | a batch in order; a terminal one ends the calibration |
| ControllerMachine.SafetyController.TakeDownCalibration | src/control/controller.rs:2784-2787 | aborts the runner, applies its restores and ends it |
| ControllerMachine.SafetyController.EmergencyStop | src/control/controller.rs:2775-2799 | releases everything, raises the flag and reports |
| ControllerMachine.SafetyController.AbortRunnerFirst | src/control/controller.rs:1237-1252 | a thermal trip lets the runner restore its pair first |
| ControllerMachine.SafetyController.AcknowledgeEmergency | src/control/controller.rs:951-963 | clears both alarms and re-arms |
| ControllerMachine.SafetyController.CommandCpu | src/control/controller.rs:993-1026 | a manual CPU cap behind the fence |
| ControllerMachine.SafetyController.CommandGpu | src/control/controller.rs:1027-1046 | a manual GPU clock behind the fence |
| ControllerMachine.SafetyController.EnterAuto | src/control/controller.rs:1101-1117 | a fresh Auto session |
| ControllerMachine.SafetyController.BeginCalibration | src/control/controller.rs:1130-1164 | a started runner over the saved gains, remembering where it came from |
| ControllerMachine.SafetyController.ExecuteCommand | src/control/controller.rs:990-1205 | every command past the gates |
| ControllerMachine.SafetyController.OnCommand | src/control/controller.rs:931-1205 | acknowledge gate, ownership gates, execution |
| ControllerMachine.SafetyController.SyncVerdictFlags | src/control/controller.rs:2386-2405 | raises or syncs the flags of the two counters |
| ControllerMachine.SafetyController.ScoreCpuVerdict | src/control/controller.rs:2146-2160 | a CPU verdict, its release and its flags |
| ControllerMachine.SafetyController.ScoreGpuVerdict | src/control/controller.rs:2186-2201 | a GPU verdict, its release and its flags |
| ControllerMachine.SafetyController.WriteCpuDecision | src/control/controller.rs:2101-2163 | a due CPU write, re-tried once |
| ControllerMachine.SafetyController.WriteGpuDecision | src/control/controller.rs:2164-2217 | verification first, then a write unless just released |
| ControllerMachine.SafetyController.OnAutoSample | src/control/controller.rs:1459-2057 | an Auto sample as flag updates, then either the two decisions or the end of the engagement |
| ControllerMachine.SafetyController.EndEngagement | src/control/controller.rs:2005-2056 | a released target: fresh counters and timers, two flags cleared, and on the change both devices at stock with no limit left, still in Auto |
| ControllerMachine.SafetyController.ReassertActuators | src/control/controller.rs:2998-3063 | maintenance of whatever is commanded, and whether anything was attempted |
| ControllerMachine.SafetyController.HandleResume | src/control/controller.rs:1292-1356 | a resumed sample, or the end of its episode |
| ControllerMachine.SafetyController.WatchStickiness | src/control/controller.rs:1368-1419 | the power watch with its strict window |
| ControllerMachine.SafetyController.MaintainPeriodically | src/control/controller.rs:1421-1442 | maintenance every ten seconds |
| ControllerMachine.SafetyController.RegulateSample | src/control/controller.rs:1286-1455 | resume, loops, stickiness, maintenance, drain, with the release of a target that just disengaged told first |
| ControllerMachine.SafetyController.CheckCpuCap | src/control/controller.rs:2442-2464 | the CPU cap is read when never checked, ten seconds old or about to be fitted, and repaired exactly on a mismatch without a hot reading |
| ControllerMachine.SafetyController.ScoreCalibGpu | src/control/controller.rs:2534-2544 | a valid reading of a sample that is not a resume is scored against the run's own commands |
| ControllerMachine.SafetyController.BuildCalibContext | src/control/controller.rs:2441-2573 | the checks in order and the context the runner is given |
| ControllerMachine.SafetyController.OnCalibSample | src/control/controller.rs:2409-2439 | a calibrating sample |
| ControllerMachine.SafetyController.ProceedSample | src/control/controller.rs:1278-1285 | dispatch by mode, with the held sample |
| ControllerMachine.SafetyController.OnSample | src/control/controller.rs:1212-1285 | fence, watchdog before any mode, then the mode |
| ControllerSessions.CommandIsSound | src/control/controller.rs:931-1205 | every command but Quit keeps ownership and the latch, tells its flags exactly and respects the fence |
| ControllerSessions.SampleIsSound | src/control/controller.rs:1212-1455 | the same for every sample in every mode |
| ControllerSessions.QuitIsSound | src/control/controller.rs:1182-1198 | Quit ends everything with the restore as its last operation and still tells its flags |
| ControllerSessions.CalibSampleIsSound | src/control/controller.rs:2409-2439 | a calibrating sample keeps the invariant, and Calibrating lasts exactly until the runner finishes, then returns to where the run came from |
| ControllerSessions.SessionsAreSound | src/control/controller.rs:931-1455 | in every session calib is present exactly in Calibrating, auto exactly in Auto or a calibration from it, the latch is up exactly with an emergency flag, and replaying all transitions from none reproduces the duplicate-free flags with nothing pending |
| ControllerSessions.QuittingSessionTellsItsFlags | src/control/controller.rs:1182-1198 | the stream stays complete through the final Quit |
| ControllerSessions.LatchHolds | src/control/controller.rs:931-963 | behind a tripped watchdog only an acknowledging command lowers the latch, and it touches no hardware |
| ControllerSessions.NothingIsCappedUntilAcknowledged | src/control/controller.rs:2766-2799 | from a watchdog release until the acknowledgement no sequence of samples and commands starts a cap write |
| ControllerSessions.SecondPressActs | src/control/controller.rs:931-1164 | the first press acknowledges and does nothing more; the second enters Auto, starts the calibration, or sets the cap exactly when its write could be made and was verified |
| ControllerSessions.FencedSessionsWriteNothing | src/control/controller.rs:1213-1220 | once the shutdown flag is up no call starts a cap write |
| WatchdogProofs.StreaksMeaning | src/control/watchdog.rs:79-106 | until it trips the watchdog's counts are the hot samples since the last cool one and the samples without a CPU temperature at the end |
| WatchdogProofs.TripMeaning | src/control/watchdog.rs:79-106 | a lost-sensor trip iff ten samples in a row had no CPU temperature; a thermal trip iff not that and this hot sample is the third since the last cool one, unreadable samples counting as neither |
| WatchdogProofs.TrippedIsSilent | src/control/watchdog.rs:79-82 | after a trip the watchdog neither moves nor reports, whatever samples come, until it is armed again |
| ControllerSteps.BatchBares | src/control/controller.rs:2575-2754 | a batch of calibration effects leaves nothing commanded exactly when nothing was before and no cap write of it was verified |
| ControllerHardware.CpuVerdictRestores | src/control/controller.rs:2146-2160 | a CPU verdict ends with the CPU put back to stock exactly when it releases, and touches nothing else |
| ControllerHardware.GpuVerdictRestores | src/control/controller.rs:2186-2201 | a GPU verdict ends with the GPU put back to stock exactly when it releases, and touches nothing else |
| ControllerHardware.ReassertWrites | src/control/controller.rs:2998-3063 | one maintenance pass, operation by operation: the cap again iff repaired, stock iff a third strike, and the lock in force always, last |
| ControllerHardware.CpuDecisionWrites | src/control/controller.rs:2101-2163 | the exact writes of one CPU decision and the limit it leaves |
| ControllerHardware.GpuDecisionWrites | src/control/controller.rs:2164-2217 | the exact writes of one GPU decision and the lock it leaves; a release is never followed by a write of the same sample |
| ControllerHardware.VerdictFlags | src/control/controller.rs:2386-2405 | the blind flag follows both counters both ways, an episode of either raises LimitNotSticking, and no other flag moves |
| ControllerHardware.StickinessDecides | src/control/controller.rs:1368-1419 | the power watch acts exactly on the third reading five watts over the limit, or the second soon after a resume, and otherwise writes nothing |
| ControllerHardware.StickinessMeaning | src/control/controller.rs:1368-1419 | over any run outside Auto with no resume recent, the watch counts the readings over the limit since the last that was not, modulo three, readings of no power being neither, and acts exactly when that completes a three |
| ControllerEffects.PowerWithinTheLimitClears | src/control/controller.rs:1368-1419 | a reading of power within the limit takes LimitNotSticking down unless a read-back episode keeps it up, and does nothing else |
| ControllerReleases.ReleaseCommandsRestore | src/control/controller.rs:2840-2886 | after releasing by command, or leaving Auto, the last operation on every device present is its restore, no limit is left, and the release is told first |
| ControllerReleases.TripsRestore | src/control/controller.rs:2757-2799 | a tripping sample ends with every device present restored, no limit left and a running burner stopped exactly when anything is commanded; otherwise it re-arms |
| ControllerReleases.DisengagedSampleRestores | src/control/controller.rs:2005-2056 | the sample on which the target is released ends with every device present restored |
| ControllerReleases.VerdictReleasesRestore | src/control/controller.rs:2146-2201 | a third unexcused mismatch in the loops ends the sample with that device restored, whatever the rest of the sample does |
| ControllerReleases.QuitRestores | src/control/controller.rs:1182-1198 | after Quit the last operation on both devices is the final restore |
| ControllerReleases.LostLimitsAreAtStock | src/control/controller.rs:931-1455 | in one call of any kind, a limit that stops being in force, or a burner that stops, was put back by the last operation on it |
| ControllerReleases.LimitsInForceAreOnTheHardware | src/control/controller.rs:931-1455 | in every session a limit in force is the last thing done to its device, and the burner runs exactly when it was started and not stopped since |
| ControllerReleases.ReleasedStaysReleased | src/control/controller.rs:2766-2799 | from a watchdog release until the acknowledgement neither device is left driven by any samples and commands |
| ControllerEffects.ReleaseCommandsClear | src/control/controller.rs:2854-2886 | releasing clears exactly the flags other than a resume and the alarms, and starts both watches over |
| ControllerEffects.TripRaisesItsAlarm | src/control/controller.rs:2775-2799 | a watchdog release raises the alarm of its own trip and clears exactly the flags other than a resume and the alarms |
| ControllerEffects.AcknowledgeClearsAlarms | src/control/controller.rs:951-963 | acknowledging clears exactly the two alarms and arms the watchdog afresh |
| ControllerEffects.SavingTellsCalibration | src/control/controller.rs:2724-2737 | after a save the view is flagged uncalibrated iff its key lacks a gain for either device |
| ControllerEffects.OwnedActuatorsAreLeftAlone | src/control/controller.rs:964-990 | in Auto a manual cap, and in a calibration every command but its abort and Quit, changes nothing at all |
| ControllerEffects.ManualCapsTakeEffect | src/control/controller.rs:993-1046 | a manual cap is written exactly when unfenced and present, and in force exactly when then verified |
| ControllerEffects.EnteringAuto | src/control/controller.rs:1101-1117 | entering Auto starts fresh counters, warns that the view is uncalibrated and keeps the limits; entering it again changes nothing |
| ControllerEffects.StartsFresh | src/control/controller.rs:1130-1164 | a calibration starts from Monitor or Auto only, over the saved gains and with no evidence from before |
| ControllerEffects.EndsFresh | src/control/controller.rs:2896-2943 | a calibration that ends back in Auto resumes with fresh counters behind the hold; either end stops the burner and writes nothing else |
| ControllerEffects.AbortRestoresThePair | src/calib/step.rs:743-755 | aborting a begun calibration writes exactly the held pair, the CPU first, and then stops the burner |
| ControllerEffects.CpuVerdictsAreCounted | src/control/controller.rs:2146-2160 | a CPU verdict moves the CPU counter by one observation and leaves the GPU counter |
| ControllerEffects.GpuVerdictsAreCounted | src/control/controller.rs:2186-2201 | a GPU verdict moves the GPU counter by one observation and leaves the CPU counter |
| ControllerEffects.DisengageStartsOver | src/control/controller.rs:2005-2056 | the end of an engagement starts counters and watches over and takes down exactly the two verdict flags |
| ControllerEffects.ResumedFlagMeaning | src/control/controller.rs:1292-1356 | over any samples the resume flag is up exactly while the thirty seconds of the latest resume last |
| ControllerEffects.ManualSampleWrites | src/control/controller.rs:1286-1442 | the exact writes of a sample outside Auto with a limit in force: a pass over the limits after a resume, one when the power watch acts, and one when ten seconds went by without any |
| ControllerEffects.LockIsRewritten | src/control/controller.rs:1421-1442 | outside Auto a lock in force was last written less than ten seconds before any sample returns, as the last operation of the sample that wrote it |
| ControllerFindings.MonitorStopsBeingStock | src/control/controller.rs:2757-2765 | the call after which Monitor no longer means stock limits is exactly the end, without a trip, of a run begun in Monitor with a cap in force before or from its last batch |
| ControllerFindings.MonitorIsStockExactly | src/control/controller.rs:2757-2765 | over any session Monitor means stock limits at every return exactly when no such call occurred |
| ControllerFindings.AutoStartsKeepMonitorStock | src/control/controller.rs:2757-2765 | a session that starts calibrations in Auto only has stock limits at every return in Monitor |
| ControllerFindings.MonitorCanHoldLimits | src/control/controller.rs:2896-2943 | a session from the start that ends in Monitor with both limits in force |
| ControllerFindings.HoldIsHistory | src/control/controller.rs:2933-2942 | over any session the hold is up exactly when a calibration begun in Auto ended, emergency ends included, and since then no Auto sample was serviced, none was started and none begun in Monitor ended |
| ControllerFindings.FirstSampleSwallowedExactlyWhenHeld | src/control/controller.rs:1281-1285 | after entering Auto the first serviced sample acts on nothing, whatever the loops decide, exactly when the hold was up before |
| ControllerFindings.ReentryHoldOutlivesRelease | src/control/controller.rs:1281-1285 | a hold left by a release swallows the first sample of the next Auto session |
| ControllerFindings.ReleaseReachesStaleHold | src/control/controller.rs:2840-2886 | a session from the start that releases an aborted Auto calibration and keeps the hold in Monitor |
| ControllerFindings.TripReachesStaleHold | src/control/controller.rs:2775-2799 | a session from the start in which the watchdog trips an Auto calibration and the acknowledged Monitor keeps the hold |
| ControllerCalib.InputIsBacked | src/control/controller.rs:2441-2573 | an input built from evidence that is backed calls no cap verified without its value, and shows the stamps and time as they are |
| ControllerCalib.VerifiedCapsHaveValues | src/control/controller.rs:2441-2573 | in every session every input built for the runner that calls a cap verified carries its value |
| ControllerCalib.CpuEvidenceIsFresh | src/control/controller.rs:2442-2464 | the runner is told of a verified CPU cap only by a read less than ten seconds old, or by this sample's own read when a response is about to be fitted; a lost cap is reported, and rewritten exactly when nothing is hot |
| ControllerCalib.GpuEvidenceIsPaired | src/control/controller.rs:2534-2544 | the GPU cap counts as verified exactly when this sample reads a clock, is no resume, and its command allows it |
| ControllerCalib.CpuWriteEvidence | src/control/controller.rs:2608-2635 | a cap write withdraws the old evidence; a verified answer becomes the limit with its stamps, any other only a check |
| ControllerCalib.GpuWriteEvidence | src/control/controller.rs:2649-2669 | an applied lock becomes the lock in force and the newest of the last three commands |
| ControllerCalib.RunnerSeesTheSample | src/control/controller.rs:2546-2573 | the runner is shown this sample's readings, the caps in force and the configured limits, and keeps the current caps exactly when begun in Auto |
| ControllerCalib.ReadingsAreHeldToThisRun | src/control/controller.rs:2534-2669 | while a calibration lasts every GPU reading is held to the last three of all the locks this run applied, and to none before it |
| ControllerCalib.RunFollowsTest | src/control/controller.rs:2409-2439 | while a started calibration lasts its runner is the step test of the inputs built so far, all honest and on time, and that test has not ended |
| ControllerCalib.CalibrationAlwaysEnds | src/control/controller.rs:2409-2439 | from the command that starts a calibration, any session whose unfenced samples tick for five full budgets of seconds leaves Calibrating |
| ControllerGains.CallSavesAtKey | src/control/controller.rs:2724-2737 | one call changes the saved maps only by finishing a run, to that run's maps, and only at the key the run had frozen |
| ControllerGains.GainsChangeOnlyByFinishedRuns | src/control/controller.rs:931-1455 | over any session, aborts, trips and releases among its calls, the saved gains under a key change only if some call finished a calibration that had frozen that key |

## Left out

- StepTermination.CalibrationEnds: of the step test alone, so it needs verified writes to carry a value, which `ValuelessReportsNeverEnd` shows necessary; inside the controller `ControllerCalib.CalibrationAlwaysEnds` needs no such assumption, only stamps bounded ahead of their samples.
- ControllerMachine.SafetyController.OnAutoSample: the two device loops, the temperature-target source and the EC replica (`device_loop`, `tstar`) are an arbitrary choice of routine flag updates, engagement, verdicts and due writes on each sample; their flags exclude the two emergency flags, as in the code.
- Shutdown.ExitLeavesStock: covers a normal exit; a panic in main, and a call that lands after the process is gone, are not modelled.
- GpuVerify.GpuLockVerifier.VerifyAgainstLock: the violation count is unbounded; the 32-bit wrap after four billion violations is not modelled.
- A sample's clock is a real number inside the controller; the step test alone also meets a non-finite one.
- Each call of `on_command` and `on_sample` is one step against the shutdown flag in `ControllerSessions`; checks between the writes of one call are modelled in `Shutdown`.
- Reports of status changes and causes, and the rendered text of notes, outcomes and diagnostics; the two abort messages for an unverified and a changed pair are one abort.
- A gain or warm-start key is the tuple it is rendered from, not the rendered string.
- IEEE rounding and NaN arithmetic; temperatures and times are reals, options or a finite/non-finite value.
- Sensors, NVML, `ryzenadj`, sysfs, sleeps, wall-clock stamps and file saves: their answers are parameters. Parsing of tool output, TOML and JSON is not part of this model.
- ControllerMachine.SafetyController.BuildCalibContext: the EC averages and the reconciliation of the socket's view are readings of each sample; the cap checks, the evidence and everything the context takes from the session are modelled.
- The fan-duty table, telemetry, terminal UI, LED, burner threads and self-test.
