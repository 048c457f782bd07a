# RoboTactile benchmark: a verified model

RoboTactile runs robot policies in closed loop while tactile faults are injected on a schedule, and then
checks, independently of the injection, that each fault was delivered exactly as scheduled. This project
models that machinery in Dafny and proves what it is for. Running `dafny verify dfyconfig.toml` checks
everything; nothing here executes the original program.

The modules follow the program's components, and each file holds one module of the same name.

- **Schedules and pairing**: `OperatorParameters`, `Manifests`, `Trials`; what they promise is proved in
  `SeverityDoses`, `MaterializationRules` and `PairingRules`.
- **Evidence**: `Records`; `PixelReference`, `PixelProperties` and `PixelValues` (the expected pictures of a pixel
  fault, channel by channel); `ValidationCodes`, `OperatorValidators`, `Validators`, `DeliveryProperties` and
  `DeliveryFields` (the delivery gate, payloads and every other field); `Streaming`, `StreamingProperties`,
  `PixelStreaming`, `PixelStreamingProperties`, `StreamingFaithful` and `StreamedSlots` (the streaming delivery of a
  fault).
- **Closed loop**: `Delivery`, `DeliveryStreams`, `Results`, `RunnerChecks`, `Runner` (what a run is), `RunnerLoop` (the runner
  statement by statement, proved equal to it), `RunnerInvariant`, `RunnerProperties`, `RunnerReplies`,
  `RunnerSafety`, `RunnerStarts` and `RunnerCycles` (a run told from its logs and replies), `Chronology` and
  `ChronologyProperties` (the independent checker) and `RunnerChronology` (runner against checker).
- **Backend and policy adapters**: `ContactPhases`, `Backend`, `BackendProperties`, `BackendReplies`, `BackendRunner`,
  `BackendRuns`, `DependableRuns`, `StreamedRuns` and `PixelRuns` (whole runs of the backend, under any channel that
  delivers all it makes, and under every fault of the registry), `N0Adapter`,
  `N0Properties` and `N0Requests` (what is sent, and which answers are accepted).
- **Matrix**: `Sorting`, `Matrix`, `MatrixProperties`, `MatrixOrder`, `MatrixCounts`.
- **Calibration and stored evidence**: `CalibrationSelection`, `ArtifactArrays`, `ArtifactRecords`,
  `ArtifactLoading`, `ArtifactReader`, `RootReceipts`, `BundleArtifacts`, `BundlePublication`, `PublishedRuns` (from a
  run to its published bundle).
- **Concrete failures**: `Counterexamples`.

Conventions. A digest is symbolic (`Sha(content)`, or `Foreign(text)` for a digest of nothing in sight), so
distinct contents have distinct digests. A call that may raise returns a `Reply`. Severity doses are exact
hundredths, pixels are integers, and pixel arithmetic is over the reals with one half-to-even rounding when a
picture is restored. The environment of a run (backend, policy, clock) is a record of replies, each of which may be an
exception, so a statement about every environment covers every behaviour of foreign code. Code that updates
state in place is a class or a loop, and each such method is proved equal to a specification function; the
properties are lemmas about those functions.

## Where the code falls short of the plain claim

The code was kept as it is, the exact condition was proved, and `Counterexamples` holds a concrete input for
each case that can be reached.

- A runner violation with an empty code makes the receipt's own checks refuse the crash receipt, so the
  exception escapes and no result is returned: exactly when the last reply of the environment is such a violation
  (`RunnerProperties.RunAlwaysReports`, `RunnerReplies.SilentExactly`).
- A crash on execute, or in the delivery of an executed batch, leaves one control cycle without an action
  entry; the chronology checker rejects exactly those traces (`RunnerChronology.IncompleteExactly`,
  `RunnerChronology.FaithfulEvidenceAccepted`). With the UniVTAC backend under a streamed fault, these are the runs
  whose last execute raised (`StreamedRuns.StreamedEvidenceAccepted`).
- A T2 freeze whose window starts at frame 0 holds frame 0, so a trace that ends there shows no fault and is
  rejected although it reached the window (`StreamingProperties.StreamAccepted`).
- A restored T2 twin is refused when the restored window is shorter than the freeze (`Trials.PairingExact`).
- The trace writer caps bytes only; the loader also caps elements and refuses empty names, empty vision maps and
  empty vectors. What is serialized round-trips exactly when it is within those limits
  (`ArtifactLoading.EvidenceRoundTrip`, `ArtifactLoading.OversizedPictureLost`). Nothing published is lost by this:
  publication first reloads what it has staged, and refuses the rest (`BundlePublication.PublishBundle`).
- A bundle holds at most 512 members, seven of them documents, and 64 MiB in all, so valid evidence with more than 505
  different arrays is never published: a few hundred frames with different pictures are enough
  (`BundlePublication.CrowdedRefused`, `Counterexamples.CrowdedRunRefused`). The writer counts the bytes without the
  root receipt and the loader with it, so a bundle that the receipt alone takes over the cap is built, staged and
  refused. Which runs can be published is `PublishedRuns.PublishedExactly`.
- F5 at the top severity folds its own source map on a frame of 25 by 25 pixels, and the reference raises. It never
  does on a frame whose shorter side is more than five times the displacement, 26 pixels at the top severity
  (`PixelProperties.WarpNeverFoldsOrLeaves`, `Counterexamples.NarrowFrameFolds`).
- A batch that raises while it encodes a later row has already had its earlier rows accepted, and nothing stops the
  next execute from going on behind them, past steps that its caller never saw. Execute is closed for good after a
  failure exactly when the failure came after the encoding of the last row attempted
  (`BackendProperties.FailsClosedExactly`). The runner never executes again after a failure.
- The streaming session refuses an F7 record in contact whose frame has a side of one or two pixels, where the
  reference still computes a picture (`PixelStreamingProperties.PixelStreamDelivers`).
- The rest-frame builder never compares the payload shape with the task registry, which the loader's
  cross-links do (`CalibrationSelection.BuiltPairLinks`).
- `build_commit` moves the adapter's state before it looks at the anchor. The branch that would leave a
  rejected call half done is unreachable (`N0Properties.LostAnchorMoves`, `N0Properties.AnchorNeverLost`).

## Model

| member | source | states |
|---|---|---|
| Basics.HalfEvenIsNearest | src/robotactile_benchmark/operator_parameters.py:32-35 | rounding gives a nearest integer, and the even one of two |
| OperatorParameters.SpreadAccepted | src/robotactile_benchmark/operator_parameters.py:25-48 | for every window and count that fits, the generated A2 offsets are strictly increasing, inside the window, start at 0 and reach the last frame when there are two or more |
| OperatorParameters.MaterializeRegisters | src/robotactile_benchmark/operator_parameters.py:194-231 | whatever dictionary is supplied, an accepted one yields only the instance's own parameters |
| OperatorParameters.MaterializeIdempotent | src/robotactile_benchmark/operator_parameters.py:194-231 | the completed dictionary of any registered instance passes the gate again, unchanged, schedule included |
| OperatorParameters.SourceMapsCausal | src/robotactile_benchmark/operator_parameters.py:145-180 | every T1, T2 and T3 source map has the window's length, shows the frame the operator means, and reads neither the future nor a negative frame |
| MaterializationRules.MaterializeExactly | src/robotactile_benchmark/operator_parameters.py:194-231 | a dictionary is accepted, and completed to certain parameters, if and only if these are the instance's own, the dictionary agrees with their completed form entry by entry, and it holds what only the caller can supply |
| SeverityDoses.CoverageExactly | src/robotactile_benchmark/operator_parameters.py:74-79 | A1 and C1 cover the first frames of the window and A2 scattered ones: 5 percent of it at level 1, doubled at every level, to the nearest whole frame, at least one and at most all |
| SeverityDoses.DosedExactly | src/robotactile_benchmark/severity.py:5-32 | every registered instance has its operator's registered dose in its own unit, and its centre where its seed places it |
| SeverityDoses.LevelsHarden | src/robotactile_benchmark/severity.py:5-32 | a higher level of one fault in one window is never milder: it is shown at least as often, keeps strictly less of the signal, or moves it strictly further |
| Manifests.ManifestRoundTrip | src/robotactile_benchmark/manifests.py:175-226 | every accepted manifest survives to_dict and from_dict |
| MaterializationRules.FromDictExactly | src/robotactile_benchmark/manifests.py:190-226 | a document is read as a manifest if and only if the manifest is well-formed and every field of the document, none missing and none added, is the manifest's |
| Manifests.MakeOk | src/robotactile_benchmark/manifests.py:75-132 | every manifest that the constructor path accepts is well-formed: registered parameters, window and severity |
| Manifests.ReparameterizedUnchanged | src/robotactile_benchmark/manifests.py:140-173 | rebuilding with the same severity and window gives the same manifest |
| Manifests.RebuildAccepts | src/robotactile_benchmark/operator_parameters.py:245-259 | the caller inputs extracted from a manifest always pass the gate at any window that fits them |
| Trials.PairingExact | src/robotactile_benchmark/trials.py:303-361 | a manifest and its restored twin are accepted as a pair if and only if the operator is not T2 or the restored window holds the freeze (and the control is well-formed) |
| Trials.GridSharesPairKey | src/robotactile_benchmark/trials.py:203-217 | the four trials of an accepted grid are well-formed, carry their own manifests and share one pair key |
| PairingRules.GridExactly | src/robotactile_benchmark/trials.py:303-361 | exactly which grids are built, for any two well-formed manifests: one fault on the same sensors from the same frame, bound to the same rest frames, with a restoration inside the faulted window that leaves a freeze whole, a clean trial and a well-formed control |
| PairingRules.KeyAndRole | src/robotactile_benchmark/trials.py:122-217 | a well-formed trial is its pair key and its role: two with the same key and role are the same trial, checkpoint and configuration included |
| Trials.RoutingAgreesBeforeRestoration | src/robotactile_benchmark/operator_parameters.py:145-180 | before the restoration index the faulted and restored runs are shown the same source frames |
| Trials.PixelParametersAgree | src/robotactile_benchmark/operator_parameters.py:81-144 | the restored twin of a pixel fault has the very same parameters |
| Trials.AffectedIsPrefix | src/robotactile_benchmark/operator_parameters.py:74-79 | the restored A1 and C1 exposure is a prefix of the faulted one |
| PixelReference.ExpectedPixelPayloads | src/robotactile_benchmark/reference_signatures.py:226-303 | the one-pass loop returns exactly when every frame is readable, and then records the dictated pictures although it keeps only the running histories |
| PixelReference.ExpectedSlot | src/robotactile_benchmark/reference_signatures.py:262-301 | one frame of one slot: the stored history moves one step ahead and the picture is the dictated one |
| PixelReference.RecordedWhole | src/robotactile_benchmark/reference_signatures.py:226-303 | the result holds exactly the in-window frames of the declared slots, each with its dictated picture |
| PixelProperties.WarpNeverFoldsOrLeaves | src/robotactile_benchmark/reference_signatures.py:112-148 | F5 on any frame whose shorter side is more than five times the displacement (26 px at the top severity): the source map increases strictly along each row and the support reads inside the frame, so neither guard fires |
| PixelProperties.HistoryClosedForm | src/robotactile_benchmark/reference_signatures.py:262-301 | the F6 history equals the exponentially weighted sum of all residuals so far, including those before the window |
| PixelProperties.HistoryBounded | src/robotactile_benchmark/reference_signatures.py:262-301 | the F6 history never exceeds the largest residual |
| PixelProperties.ReflectMirrors | src/robotactile_benchmark/reference_signatures.py:151-158 | reflected indices stay on the axis and mirror about its ends without repeating them |
| PixelProperties.AnchorRadiusClamped | src/robotactile_benchmark/reference_signatures.py:161-190 | the clamped filter radius keeps reflection within one period |
| PixelProperties.AnchorBetween | src/robotactile_benchmark/reference_signatures.py:161-212 | the separable box anchor lies between the frame's least and greatest value |
| PixelProperties.CompressShape | src/robotactile_benchmark/reference_signatures.py:161-212 | the F7 curve is the identity below the knee, never amplifies, is non-decreasing and stays below knee plus plateau |
| PixelProperties.ReferenceCausal | src/robotactile_benchmark/reference_signatures.py:226-303 | the reference of a prefix is the restriction of the reference of the whole trace |
| PixelValues.RintNearest | src/robotactile_benchmark/reference_signatures.py:33-37 | restoring a picture rounds to the nearest value, and to the even one of two |
| PixelValues.DriftValue | src/robotactile_benchmark/reference_signatures.py:55-60 | F1 fades every channel linearly over the window, from the clean value at its first frame to the target gain of it at its last |
| PixelValues.BlendRuns | src/robotactile_benchmark/reference_signatures.py:55-60 | such a fade starts and ends where it says, and a constant picture never brightens on the way down |
| PixelValues.SensitivityValue | src/robotactile_benchmark/reference_signatures.py:63-79 | F2 leaves a channel clean where it is cold, and shrinks its deviation from the rest frame to the retained share where it is hot, by a Gaussian about the centre |
| PixelValues.ScarValue | src/robotactile_benchmark/reference_signatures.py:82-95 | F3 adds the severity times a fixed tint on a band about a line of slope 0.45, and nothing anywhere else |
| PixelValues.PatchValue | src/robotactile_benchmark/reference_signatures.py:98-109 | F4 is the rest frame inside a disc about the centre, and the clean frame outside it |
| PixelValues.ShiftValue | src/robotactile_benchmark/reference_signatures.py:215-223 | C2 shows in column x the clean column x minus the severity, and the rest frame in the first columns |
| PixelValues.WarpValue | src/robotactile_benchmark/reference_signatures.py:112-148 | F5 in contact reads a pixel of its lens between two columns to the left of it, in order along the row and within the frame; outside the lens or contact nothing changes |
| PixelValues.ImprintValue | src/robotactile_benchmark/reference_signatures.py:262-301 | F6 blends the clean frame with the rest frame plus the exponentially weighted sum of all residuals so far |
| PixelValues.AnchorIsBoxMean | src/robotactile_benchmark/reference_signatures.py:151-195 | the F7 anchor is the mean of a square box about the pixel, folded back at the edges, of 0.06 of the shorter side rounded |
| PixelValues.SaturationValue | src/robotactile_benchmark/reference_signatures.py:161-212 | F7 in contact leaves a pixel whose contrast is within the knee, and moves all channels of any other towards their anchors by the one factor that bends its contrast |
| OperatorValidators.ValidateRoutedSource | src/robotactile_benchmark/operator_validators.py:38-77 | adds exactly the codes of the routed fields that disagree with the source frame |
| OperatorValidators.RoutedFrameExists | src/robotactile_benchmark/operator_validators.py:139-168 | every frame the routing validators look up exists |
| OperatorValidators.ValidateFixedDelay | src/robotactile_benchmark/operator_validators.py:139-168 | the T1 loops add exactly the codes deserved by the in-window frames of every declared slot |
| OperatorValidators.ValidateHeldLast | src/robotactile_benchmark/operator_validators.py:171-218 | the T2 loops add exactly the codes of held frames, resumed frames and an unheld freeze, per slot |
| OperatorValidators.ValidateInterSensorSkew | src/robotactile_benchmark/operator_validators.py:221-265 | the T3 loops add exactly the codes of their frames, and the no-skew code exactly when no frame shows two sources |
| OperatorValidators.ValidateIdentityMisrouting | src/robotactile_benchmark/operator_validators.py:268-317 | the C1 loops add exactly the codes of exposed and unexposed frames, and the no-misrouting code exactly when no exposed slot shows a foreign source |
| Validators.ValidateRecords | src/robotactile_benchmark/validators.py:114-240 | the pass over paired records adds exactly the codes each record deserves and counts the affected ones |
| Validators.ValidateOperatorSemantics | src/robotactile_benchmark/operator_validators.py:320-355 | raises exactly when the signature cannot be measured, else adds exactly the operator's findings |
| Validators.ValidatePixelSignature | src/robotactile_benchmark/operator_validators.py:79-136 | adds the mismatch code exactly when some delivered payload is not the reference picture |
| Validators.ValidateDelivery | src/robotactile_benchmark/validators.py:87-275 | the report lists exactly the codes the traces deserve, each once, and passes exactly when there are none |
| DeliveryProperties.PassedPayload | src/robotactile_benchmark/validators.py:114-275 | what passing says about one payload: a routed one hashes to its source's digest, every other one is the dictated one |
| DeliveryProperties.DeliverySound | src/robotactile_benchmark/validators.py:87-275 | when validation passes, every payload at every index and slot is the one the manifest dictates |
| DeliveryProperties.DeliveryUnique | src/robotactile_benchmark/validators.py:87-275 | two passing deliveries of one clean trace under one manifest carry identical payloads |
| DeliveryFields.PassesExactly | src/robotactile_benchmark/validators.py:87-275 | a delivery passes if and only if it has the clean length, its signature can be measured, every record is, field by field, what it must be, some in-window record is changed, and the operator's own checks find nothing |
| DeliveryFields.PassedBystanders | src/robotactile_benchmark/validators.py:73-149 | in a passing delivery cameras, joints, episode, task, seed and step are the clean ones at every index, and so are the sensor and the provenance of every undeclared slot |
| DeliveryFields.PassedSource | src/robotactile_benchmark/operator_validators.py:38-317 | in a passing delivery a routed slot carries its source's index, time, digest and physical source, and a slot that a freeze or a misrouting leaves alone is the clean one |
| DeliveryFields.FieldsUnique | src/robotactile_benchmark/validators.py:87-275 | two passing deliveries of one clean trace agree on all of that, and on the validity of every slot that both mark as faulted |
| Streaming.StreamingFaultSession.DeliverNext | src/robotactile_benchmark/streaming/session.py:73-150 | the session with its trimmed cache delivers what the whole past would deliver |
| Streaming.CacheSuffices | src/robotactile_benchmark/streaming/temporal.py:53-89 | a cache as old as the oldest registered source answers every lookup |
| PixelStreaming.PixelFaultSession.DeliverNext | src/robotactile_benchmark/streaming/session.py:73-116 | the pixel session, with its F6 histories moved on frame by frame, delivers what the whole past would deliver |
| PixelStreamingProperties.SlotPictureIsExpected | src/robotactile_benchmark/streaming/fidelity.py:28-70 | what the session paints on a slot is the independent reference's picture, wherever both compute one |
| PixelStreamingProperties.PixelStreamDelivers | src/robotactile_benchmark/streaming/fidelity.py:172-208 | a readable clean trace is delivered whole if and only if its calibration is that of the rest frames and no frame in contact is too small for the F7 filter |
| PixelStreamingProperties.PixelStreamMatches | src/robotactile_benchmark/operator_validators.py:79-136 | whatever the session delivers matches the reference signature: the mismatch code is never raised for it |
| StreamingProperties.StreamShape | src/robotactile_benchmark/streaming/session.py:73-116 | a delivered record is the clean one, or differs from it on exactly the declared slots |
| StreamingProperties.StreamAccepted | src/robotactile_benchmark/operator_validators.py:139-317 | the reference delivery of A1, A2, T1, T2, T3 or C1 passes validation if and only if the fault takes effect on the trace |
| PixelStreamingProperties.PixelStreamAccepted | src/robotactile_benchmark/operator_validators.py:79-136 | the streamed delivery of a pixel fault passes validation if and only if the fault takes effect on the clean trace (the window is reached, for F5 and F7 in contact, for C2 with a calibration of its own) and no dose code is raised |
| PixelStreamingProperties.ReachedTouches | src/robotactile_benchmark/streaming/fidelity.py:28-70 | a pixel fault that does not wait for contact takes effect as soon as its window is reached |
| StreamingFaithful.StreamedFaultsAreFaithful | src/robotactile_benchmark/streaming/session.py:73-116 | streamed faults keep every record well-formed and of its own episode and step |
| StreamingFaithful.PixelFaultsAreFaithful | src/robotactile_benchmark/streaming/session.py:73-116 | so do streamed pixel faults |
| StreamedSlots.StreamedSlot | src/robotactile_benchmark/streaming/availability_context.py:26-98 | every slot that an availability, routing or misrouting fault rewrites, field by field: withheld with nothing of its source left, or its source's picture, sensing time and provenance at its own delivery time |
| StreamedSlots.PixelSlot | src/robotactile_benchmark/streaming/fidelity.py:28-70 | every declared slot of a delivered pixel fault, field by field: the reference picture, its digest, the declared validity and, for C2, a new calibration, and nothing else changed |
| Delivery.DeliverySession.Deliver | src/robotactile_benchmark/closed_loop/delivery.py:165-303 | one delivery moves the session exactly as specified, and a refused record leaves it as it was |
| Delivery.DeliverySession.Finish | src/robotactile_benchmark/closed_loop/delivery.py:305-349 | finalizing closes the session with its receipt, and a refused receipt leaves it open |
| Delivery.FinalizeSound | src/robotactile_benchmark/closed_loop/delivery.py:97-150 | a receipt, once issued, covers the whole session and reports coherently |
| DeliveryStreams.SessionsStream | src/robotactile_benchmark/closed_loop/delivery.py:165-197 | whatever is offered to a session, what it holds is one fault-free stream of one episode, one set of sensors and one calibration, and a record is taken up exactly if it continues that stream |
| RunnerChecks.BatchVerdictExact | src/robotactile_benchmark/closed_loop/runner_checks.py:150-187 | a batch is accepted if and only if it meets the contract, and then yields its last native step |
| RunnerChecks.ValidateBatch | src/robotactile_benchmark/closed_loop/runner_checks.py:150-187 | the checking loop computes that verdict, first violation included |
| RunnerLoop.RunClosedLoopTrial | src/robotactile_benchmark/closed_loop/runner.py:68-307 | the runner, statement by statement, leaves behind exactly the specified receipt, evidence and call logs |
| RunnerLoop.TrialRun.ControlLoop | src/robotactile_benchmark/closed_loop/runner.py:137-211 | the control loop ends, in the specified state |
| RunnerLoop.TrialRun.OneCycle | src/robotactile_benchmark/closed_loop/runner.py:138-211 | one pass: budgets, infer, execute, deliver, commit, with the exit of each failure |
| RunnerLoop.TrialRun.HandleCrash | src/robotactile_benchmark/closed_loop/runner.py:250-279 | the handler aborts a policy that was met, finalizes what there is, and reports |
| RunnerLoop.TrialRun.CloseResources | src/robotactile_benchmark/closed_loop/runner.py:374-387 | both resources are closed once, whatever the first close does |
| RunnerProperties.RunAlwaysReports | src/robotactile_benchmark/closed_loop/runner.py:95-307 | once reset is attempted a run ends in one receipt, coherent by every clause of the receipt's semantics, except exactly when the exception that reaches the handler is a violation with an empty code |
| RunnerProperties.WellNamedRunsReport | src/robotactile_benchmark/closed_loop/runner.py:95-307 | if nothing raises a violation with an empty code, every attempted run is reported, coherently |
| RunnerProperties.SilentViolationEscapes | src/robotactile_benchmark/closed_loop/results.py:59-64 | a reset that raises an empty-coded violation leaves no receipt |
| RunnerReplies.CaughtIsLast | src/robotactile_benchmark/closed_loop/runner.py:95-279 | the exception that reaches the handler is the one in the last reply of the environment, if that raised, and else one of the runner's own with a code |
| RunnerReplies.SilentExactly | src/robotactile_benchmark/closed_loop/runner.py:250-279 | an attempted run leaves no receipt if and only if the last reply of its environment raised a violation with an empty code |
| RunnerInvariant.CycleKeeps | src/robotactile_benchmark/closed_loop/runner.py:138-211 | one cycle keeps the books of observations, entries and commits, or breaks inside execute or delivery |
| RunnerInvariant.LoopKeeps | src/robotactile_benchmark/closed_loop/runner.py:137-211 | so does the whole loop |
| RunnerInvariant.AttemptKeeps | src/robotactile_benchmark/closed_loop/runner.py:95-211 | the state in which any run leaves its loop or meets its first exception |
| RunnerInvariant.AttemptTraced | src/robotactile_benchmark/closed_loop/runner.py:95-211 | every delivered record is what the channel made of the clean one beside it |
| RunnerSafety.PolicyIsSpectator | src/robotactile_benchmark/closed_loop/runner.py:95-307 | in every run the policy is reset once, asked only about the latest delivered observation, told the next ones in turn, aborted at most once, closed once |
| RunnerSafety.DoneMeans | src/robotactile_benchmark/closed_loop/runner.py:250-307 | such a call log has one close, at the end, and at most one abort, just before it and only after a reset |
| RunnerSafety.CommittedIsStream | src/robotactile_benchmark/closed_loop/runner.py:180-205 | the initial observation and the committed ones are the delivered stream, without gap or repeat |
| RunnerSafety.CompletedRunShowsAll | src/robotactile_benchmark/closed_loop/runner.py:137-249 | a run that no exception reaches has shown its policy the whole delivered trace and acknowledged exactly the recorded actions |
| RunnerSafety.BackendIsDriven | src/robotactile_benchmark/closed_loop/runner.py:95-307 | the backend sees reset, one observe, one execute per cycle, and one final close |
| RunnerSafety.BudgetsHold | src/robotactile_benchmark/closed_loop/runner.py:137-176 | no run exceeds its cycle or observation budget; observations are one plus the executed actions |
| RunnerSafety.ReceiptTells | src/robotactile_benchmark/closed_loop/result_hashes.py:84-147 | the receipt's hashes and counts are those of the run, and a pass on record is that of its evidence |
| RunnerSafety.ScoresExactly | src/robotactile_benchmark/closed_loop/result_hashes.py:150-160 | a success is scored if and only if the backend signalled it, delivery was validated, restoration observed and nothing raised, closing included |
| RunnerStarts.PreflightExactly | src/robotactile_benchmark/closed_loop/runner_checks.py:58-105 | each of the four trials of a grid can only be run by its own policy, on its own channel: which jobs pass the preflight, condition by condition |
| RunnerStarts.PolicyMetExactly | src/robotactile_benchmark/closed_loop/runner_checks.py:108-119 | the policy is met if and only if the backend's receipt is for this trial's episode and both its seeds; its first call then carries the trial's context, and otherwise it is only closed |
| RunnerCycles.CyclesAreDue | src/robotactile_benchmark/closed_loop/runner.py:137-211 | the k-th execute of a run carries a prefix of the k-th plan that is within the prefix, observation and plan bounds and as long as one of them, begun within the wall-clock, cycle and observation budgets; entries and commits hold the part the backend executed and its signal, and every cycle but the last left the episode running |
| RunnerCycles.EndsExactly | src/robotactile_benchmark/closed_loop/runner.py:137-211 | a run that no exception reaches ended because its last cycle ended the episode, a budget was spent, or the policy proposed nothing |
| RunnerCycles.CompletedStatus | src/robotactile_benchmark/closed_loop/runner.py:212-252 | its receipt says how it executed: what its last signal says, whatever validation and closing did to the final status |
| RunnerCycles.RejectionAccuses | src/robotactile_benchmark/closed_loop/runner.py:213-252 | every rejected run says exactly why: the codes of its report, and that the restoration was not observed if it was not |
| RunnerCycles.CrashCoded | src/robotactile_benchmark/closed_loop/runner.py:253-284 | the receipt of an exception names its stage and code, and a policy that was met was told that code just before it was closed |
| Chronology.ValidateExecution | src/robotactile_benchmark/closed_loop/artifact_semantics.py:19-67 | the checker accepts exactly the evidence with sound records, counts and chronology |
| Chronology.CheckEntries | src/robotactile_benchmark/closed_loop/artifact_semantics.py:51-67 | its walk accepts exactly the entries that start where the earlier ones lead |
| Chronology.CheckTrace | src/robotactile_benchmark/closed_loop/artifact_semantics.py:70-110 | it accepts exactly the traces of well-formed records of this episode |
| ChronologyProperties.AcceptsExactly | src/robotactile_benchmark/closed_loop/artifact_semantics.py:19-110 | evidence is accepted if and only if every record is of the trial's episode at its own step, every entry was planned at the step that the actions before it lead to, and the counts are those of the run and within its budgets |
| RunnerChronology.EvidenceAcceptedExactly | src/robotactile_benchmark/closed_loop/artifact_semantics.py:19-110 | runner evidence is accepted if and only if the last cycle is complete and each record is well-formed by itself |
| RunnerChronology.IncompleteExactly | src/robotactile_benchmark/closed_loop/runner.py:148-211 | the last cycle is incomplete, by exactly one, if and only if the run crashed on execute or on a batch's delivery |
| RunnerChronology.FaithfulEvidenceAccepted | src/robotactile_benchmark/closed_loop/artifact_semantics.py:42-67 | with a faithful channel and well-formed clean records, evidence is rejected exactly after such a crash |
| RunnerChronology.RestorationSeenExactly | src/robotactile_benchmark/closed_loop/runner.py:357-371 | restoration is observed if and only if the trace reaches past the restoration index |
| ContactPhases.ContactMeans | src/robotactile_benchmark/adapters/univtac.py:77-97 | hysteresis without state: in contact exactly when some frame reached the upper threshold and no later one fell to the lower |
| ContactPhases.PhasesAreCycles | src/robotactile_benchmark/adapters/univtac.py:88-97 | every phase trace is a prefix of (FREE* ONSET SUSTAINED* RELEASE)* |
| ContactPhases.FreeMeans | src/robotactile_benchmark/adapters/univtac.py:88-97 | FREE is being out of contact before and after |
| Backend.UniVTACIsaacBackend.Reset | src/robotactile_benchmark/backends/univtac_isaac.py:180-225 | reset moves the backend exactly as specified, at most once |
| Backend.UniVTACIsaacBackend.Observe | src/robotactile_benchmark/backends/univtac_isaac.py:227-235 | the cached observation is handed out exactly once |
| Backend.UniVTACIsaacBackend.Execute | src/robotactile_benchmark/backends/univtac_isaac.py:237-317 | the row loop validates the whole batch first, then takes, observes and accepts row by row, as specified, and the simulator is given the batch's own actions in order, up to the last one taken |
| Backend.UniVTACIsaacBackend.Close | src/robotactile_benchmark/backends/univtac_isaac.py:319-325 | closing shuts the simulator down once |
| BackendProperties.BatchMeetsContract | src/robotactile_benchmark/backends/univtac_isaac.py:237-317 | every returned batch is dense, advances native ids by exactly the increment, is terminal only at its end, short only if terminal, and meets the runner's contract |
| BackendProperties.NeverBeyondHorizon | src/robotactile_benchmark/backends/univtac_isaac.py:237-317 | over any history of calls, failing or not, no more actions are accepted than the horizon |
| BackendProperties.LosingIsAhead | src/robotactile_benchmark/backends/univtac_isaac.py:248-293 | a call that takes an action without accepting its outcome raises and leaves the simulator ahead |
| BackendProperties.RaisedExactly | src/robotactile_benchmark/backends/univtac_isaac.py:248-293 | an execute that raises leaves the simulator ahead if and only if its last attempted row was encoded; otherwise the two stay in sync and the backend stays open |
| BackendProperties.FailsClosed | src/robotactile_benchmark/backends/univtac_isaac.py:248-293 | if the counter strictly advances, no execute returns after a call that took an action without accepting its outcome |
| BackendProperties.FailsClosedExactly | src/robotactile_benchmark/backends/univtac_isaac.py:237-317 | after an execute that raised, no later one ever returns if and only if it raised after encoding its last attempted row |
| BackendReplies.SignalTold | src/robotactile_benchmark/backends/univtac_isaac.py:76-104 | after an action the signal is success if and only if either success check held; failure if neither held and execution or planning failed; early stop if none of these and the task asked for it; timeout if none of these and the horizon is reached |
| BackendReplies.BatchTold | src/robotactile_benchmark/backends/univtac_isaac.py:237-317 | every transition of a returned batch by the simulator's replies alone: its signal by those rules, its record field by field what the frame after its action shows, its contact phases those of all depths so far |
| BackendReplies.ResetTold | src/robotactile_benchmark/backends/univtac_isaac.py:180-225 | so for the record that a reset caches, and the receipt repeats the episode and both seeds |
| BackendRunner.BackendNeverViolates | src/robotactile_benchmark/closed_loop/runner_checks.py:108-187 | composed with the runner, no check of this backend's replies ever fails: an exception at a backend stage is the backend's own |
| BackendRuns.RunMade | src/robotactile_benchmark/backends/univtac_isaac.py:180-317 | every clean record of every run of this backend is well-formed, of one stream, and stamped with its own step |
| BackendRuns.BackedEvidenceAccepted | src/robotactile_benchmark/closed_loop/artifact_semantics.py:42-110 | with a faithful channel, the evidence of a run of this backend is rejected exactly after a crash on execute or on a batch's delivery |
| BackendRuns.WorldExists | src/robotactile_benchmark/closed_loop/runner.py:95-211 | around any policy, clock and closing there is an environment whose backend is this one |
| DependableRuns.DependableDelivery | src/robotactile_benchmark/closed_loop/delivery.py:295-303 | under a channel that delivers every record of this backend, no run fails in a delivery |
| DependableRuns.DependableEvidence | src/robotactile_benchmark/closed_loop/artifact_semantics.py:42-67 | under such a channel, if faithful, the evidence of a run is rejected if and only if the last execute it asked for raised |
| DependableRuns.DependableVerdict | src/robotactile_benchmark/closed_loop/runner.py:213-249 | under such a channel, judged by the validator, a run ends rejected if and only if nothing raised, everything closed, and the validator found something, the fault never resumed, or was to be restored after the end |
| StreamedRuns.DeliveryNeverBreaks | src/robotactile_benchmark/closed_loop/delivery.py:295-303 | under a streamed fault no run of this backend fails in a delivery |
| StreamedRuns.StreamedEvidenceAccepted | src/robotactile_benchmark/closed_loop/artifact_semantics.py:42-67 | under a streamed fault the evidence of a run of this backend is rejected if and only if the last execute it asked for raised |
| StreamedRuns.RejectedExactly | src/robotactile_benchmark/closed_loop/runner.py:213-249 | under a streamed fault a run of this backend ends rejected by the validator if and only if nothing raised, everything closed, and the fault took no effect, never resumed, or was to be restored after the end |
| StreamedRuns.ChannelExists | src/robotactile_benchmark/closed_loop/delivery.py:231-326 | every streamed fault has a channel that delivers by its session and is judged by the validator |
| PixelRuns.PixelDeliveryNeverBreaks | src/robotactile_benchmark/closed_loop/delivery.py:295-303 | under a pixel fault whose rest frames and cameras suit it, no run of this backend fails in a delivery |
| PixelRuns.PixelEvidenceAccepted | src/robotactile_benchmark/closed_loop/artifact_semantics.py:42-67 | the evidence of such a run is rejected if and only if the last execute it asked for raised |
| PixelRuns.PixelRejectedExactly | src/robotactile_benchmark/closed_loop/runner.py:213-249 | such a run ends rejected by the validator if and only if nothing raised, everything closed, and the fault took no effect, a dose code was raised, or it was to be restored after the end |
| PixelRuns.PixelChannelExists | src/robotactile_benchmark/closed_loop/delivery.py:231-326 | every pixel fault has a channel that delivers by its session and is judged by the validator |
| N0Adapter.N0TwamQpos8Adapter.Reset | src/robotactile_benchmark/adapters/n0_twam.py:150-188 | opens an episode exactly from the resettable states |
| N0Adapter.N0TwamQpos8Adapter.AckReset | src/robotactile_benchmark/adapters/n0_twam.py:190-198 | accepts exactly the answer to the open reset |
| N0Adapter.N0TwamQpos8Adapter.Fail | src/robotactile_benchmark/adapters/n0_twam.py:200-205 | a pending transaction that fails, and only one of that kind, aborts the episode |
| N0Adapter.N0TwamQpos8Adapter.BuildInfer | src/robotactile_benchmark/adapters/n0_twam.py:234-257 | opens an infer transaction, anchored at the last acknowledged commit |
| N0Adapter.N0TwamQpos8Adapter.AckInfer | src/robotactile_benchmark/adapters/n0_twam.py:276-289 | accepts exactly the answer to the open infer, with a decodable action |
| N0Adapter.N0TwamQpos8Adapter.BuildCommit | src/robotactile_benchmark/adapters/n0_twam.py:291-333 | opens a commit of the proposed action with increasing keyframes |
| N0Adapter.N0TwamQpos8Adapter.AckCommit | src/robotactile_benchmark/adapters/n0_twam.py:335-348 | accepts exactly the answer to the open commit |
| N0Properties.InvariantHolds | src/robotactile_benchmark/adapters/n0_twam.py:36-362 | the adapter's invariant, tying its state to the history of accepted calls, holds after every history |
| N0Properties.KeyframesIncrease | src/robotactile_benchmark/adapters/n0_twam.py:291-348 | keyframe steps strictly increase across all commits of an episode |
| N0Properties.InferStartsAtCommit | src/robotactile_benchmark/adapters/n0_twam.py:234-257 | each infer after the first of its episode starts at the last acknowledged commit's step |
| N0Properties.CommitCarriesProposal | src/robotactile_benchmark/adapters/n0_twam.py:291-333 | each commit is accepted only with the action of the infer acknowledged just before (what its request carries is `N0Requests.CommitRequest`) |
| N0Properties.TransactionsUnique | src/robotactile_benchmark/adapters/n0_twam.py:81-92 | transaction identifiers never repeat |
| N0Properties.StaleAcksRejected | src/robotactile_benchmark/adapters/n0_twam.py:113-129 | an accepted answer names the last transaction issued, for the first time |
| N0Properties.AnchorNeverLost | src/robotactile_benchmark/adapters/n0_twam.py:315-320 | the branch that has lost its infer anchor is unreachable |
| N0Properties.RejectedUnchanged | src/robotactile_benchmark/adapters/n0_twam.py:150-362 | in every reachable state a rejected call leaves the adapter as it was |
| N0Properties.LostAnchorMoves | src/robotactile_benchmark/adapters/n0_twam.py:291-333 | unreachable states show why that needs the invariant |
| N0Properties.OnlyAwaitingIsStuck | src/robotactile_benchmark/adapters/n0_twam.py:150-205 | AWAITING_COMMIT is the only state in which no failure and no reset is accepted |
| N0Properties.ServerRoundTrip | src/robotactile_benchmark/adapters/n0_twam.py:95-129 | what a server builds from the request just sent is accepted |
| N0Requests.ResetRequest | src/robotactile_benchmark/adapters/n0_twam.py:150-188 | the request of a reset opens the episode it names, with its prompt, task and seed, under the next transaction |
| N0Requests.InferRequest | src/robotactile_benchmark/adapters/n0_twam.py:207-257 | in every reachable state, an infer request carries the record's top, wrist, left and right pictures and its first eight joint values, at its step |
| N0Requests.CommitRequest | src/robotactile_benchmark/adapters/n0_twam.py:291-333 | in every reachable state, a commit request carries the action the server proposed, the four pictures of every keyframe in order, the joint values of the infer it answers, and the last keyframe's step |
| N0Requests.AnswerExactly | src/robotactile_benchmark/adapters/n0_twam.py:113-129 | in every reachable state, an acknowledgement is accepted if and only if a request of its kind is unanswered and it repeats that very request's operation, transaction, episode and digest, with an action of the registered shape and bounds if it answers an infer |
| N0Requests.FailureExactly | src/robotactile_benchmark/adapters/n0_twam.py:200-205 | a failure is accepted if and only if a request of its kind is unanswered |
| N0Requests.ProposalIsAnswer | src/robotactile_benchmark/adapters/n0_twam.py:259-289 | what an infer proposes is the action its answer carries |
| Sorting.SortForgetsOrder | src/robotactile_benchmark/matrix/builders.py:118-238 | sorting by a strict total order depends on the elements alone |
| Matrix.BuildMatrix | src/robotactile_benchmark/matrix/builders.py:118-217 | the builder's loop over sorted points, with its dictionary of cells, computes the specified manifest |
| MatrixProperties.PointOrderTotal | src/robotactile_benchmark/matrix/builders.py:128-140 | the sort key of grid points is a strict total order |
| MatrixProperties.BuildForgetsOrder | src/robotactile_benchmark/matrix/builders.py:118-238 | permuting the grid points gives the same manifest or the same refusal |
| MatrixProperties.RowExact | src/robotactile_benchmark/matrix/builders.py:141-190 | a point is accepted if and only if its restored twin pairs and the control is well-formed |
| MatrixProperties.RowResolves | src/robotactile_benchmark/matrix/manifest.py:100-172 | each comparison's four addresses resolve to cells of the right condition and one operator instance |
| MatrixProperties.BuildExact | src/robotactile_benchmark/matrix/manifest.py:53-172 | exactly which points a matrix is built from; the manifest's inventory checks refuse nothing else |
| MatrixOrder.MatrixInOrder | src/robotactile_benchmark/matrix/builders.py:128-238 | every built matrix lists the clean cell, the no-touch cell, then the faulted and then the restored cells, each by operator, severity and restoration index, and its comparisons by operator, severity, focus and restoration index |
| MatrixOrder.TextMeans | src/robotactile_benchmark/matrix/builders.py:128-140 | texts are ordered by their first difference |
| MatrixCounts.PrimaryHas142Cells | src/robotactile_benchmark/matrix/manifest.py:53-98 | a built primary matrix has 1 clean, 1 no-touch, 70 faulted and 70 restored distinct cells |
| MatrixCounts.PrimaryExact | src/robotactile_benchmark/matrix/builders.py:26-67 | exactly which fault sets the primary builder accepts, and then it has its 142 cells |
| CalibrationSelection.LongestFreeRun | src/robotactile_benchmark/calibration/selection.py:68-85 | the loop computes the selected interval |
| CalibrationSelection.BestRun | src/robotactile_benchmark/calibration/selection.py:68-85 | it is a longest all-FREE interval, and the earliest of that length |
| CalibrationSelection.BuildRestReference | src/robotactile_benchmark/calibration/selection.py:88-202 | the checking loop refuses exactly the unusable sources and freezes from the best interval |
| CalibrationSelection.SelectedInside | src/robotactile_benchmark/calibration/selection.py:126-202 | the frozen step is the median of that interval, inside it and FREE; the payloads are that frame's own, untouched by any fault, under the registered calibration, from a clean trial's run |
| CalibrationSelection.FreezesExactly | src/robotactile_benchmark/calibration/selection.py:126-202 | a usable run is frozen if and only if it has a long enough FREE interval and payloads of one shape |
| CalibrationSelection.BuiltPairLinks | src/robotactile_benchmark/calibration/artifacts.py:161-224 | a built pair passes all cross-links if and only if its payloads have the registry's shape |
| ArtifactArrays.ArrayFileStore.Add | src/robotactile_benchmark/closed_loop/artifact_arrays.py:54-73 | an array is stored once, under its own address, however often it is added |
| ArtifactArrays.References.Load | src/robotactile_benchmark/closed_loop/artifact_arrays.py:103-140 | loading records the path it looked up |
| ArtifactArrays.StoredLoads | src/robotactile_benchmark/closed_loop/artifact_arrays.py:54-140 | a stored array loads back as itself exactly when it is within the loader's profile |
| ArtifactRecords.WriteEvidence | src/robotactile_benchmark/closed_loop/artifact_records.py:96-262 | writing succeeds exactly when every array fits, and stores exactly the arrays of both traces |
| ArtifactLoading.RecordBack | src/robotactile_benchmark/closed_loop/artifact_records.py:214-338 | one record comes back exactly, or is refused exactly for what only the loader checks |
| ArtifactLoading.EvidenceRoundTrip | src/robotactile_benchmark/closed_loop/artifact_records.py:96-211 | written evidence, with any sharing of arrays, loads back as itself if and only if all of it is loadable |
| ArtifactLoading.InventoryBijective | src/robotactile_benchmark/closed_loop/artifacts.py:186-202 | the referenced paths are exactly the stored ones |
| ArtifactLoading.OversizedPictureLost | src/robotactile_benchmark/closed_loop/artifact_arrays.py:76-140 | a picture over the element cap is serialized and does not load, so that publication refuses it |
| ArtifactReader.ReadBundle | src/robotactile_benchmark/closed_loop/artifacts.py:182-202 | the typed traces are read, with a growing set of paths, and returned exactly when they load and the array inventory is bijective |
| RootReceipts.BuildReceipt | src/robotactile_benchmark/closed_loop/artifact_contracts.py:63-152 | a receipt is accepted exactly within its caps on members, their sizes and their total, with exactly the seven documents |
| RootReceipts.ScanDirectory | src/robotactile_benchmark/closed_loop/artifact_io.py:111-160 | the scan, which stops at the first cap exceeded, accepts exactly the directories within all caps |
| RootReceipts.ReadInventory | src/robotactile_benchmark/closed_loop/artifact_io.py:77-108 | a receipt is read exactly when it pins, digest by digest, what lies beside it, within the caps |
| RootReceipts.TotalTake | src/robotactile_benchmark/closed_loop/artifact_contracts.py:150-151 | the total of the members does not depend on their order |
| BundleArtifacts.BuildBundle | src/robotactile_benchmark/closed_loop/artifacts.py:113-158 | the writer builds the staged directory exactly from checked inputs whose receipt is accepted |
| BundleArtifacts.StoredCount | src/robotactile_benchmark/closed_loop/artifacts.py:127-143 | a bundle has seven documents and one member for every different array |
| BundlePublication.LoadBundle | src/robotactile_benchmark/closed_loop/artifacts.py:161-222 | the loader succeeds exactly when inventory, documents, traces, chronology, second validation and cross-links all agree |
| BundlePublication.Rerun | src/robotactile_benchmark/closed_loop/artifacts.py:298-346 | validating again gives the stored report, and it passes, exactly when the delivery passes and the report is the validator's |
| BundlePublication.PublishBundle | src/robotactile_benchmark/closed_loop/artifacts.py:55-97 | exactly the publishable evidence is published: checked inputs, caps with the receipt included, everything loadable, validator and cross-links in agreement; and it loads back as what it was made from |
| BundlePublication.PublishedTells | src/robotactile_benchmark/closed_loop/artifacts.py:144-156 | the receipt of published evidence holds the digests of its own trial, pair, budget, fault, result and actions, and of its clean and delivered records, in that order |
| BundlePublication.CrowdedRefused | src/robotactile_benchmark/closed_loop/artifact_contracts.py:133-136 | evidence with more than 505 different arrays is never published |
| PublishedRuns.RunBound | src/robotactile_benchmark/closed_loop/artifacts.py:318-346 | the receipt and the evidence of a run of this backend agree in every cross-link |
| PublishedRuns.PublishedExactly | src/robotactile_benchmark/closed_loop/artifacts.py:55-97 | the evidence of a run of this backend can be published if and only if its receipt says validated, the operator needs no rest frames, the last execute did not raise, and the caps hold it |
| Counterexamples.ShortRestorationRefused | src/robotactile_benchmark/trials.py:317-340 | a concrete 32-frame freeze whose restored twin keeps five frames is refused as a pair |
| Counterexamples.FirstFrameFreezeRejected | src/robotactile_benchmark/operator_validators.py:171-218 | a concrete T2 delivery from frame 0 on a one-frame trace is rejected although the window is reached |
| Counterexamples.NarrowFrameFolds | src/robotactile_benchmark/reference_signatures.py:134-138 | on every frame of 25 by 25 pixels the top F5 severity reads two neighbouring columns in the wrong order |
| Counterexamples.ExecuteCrashRejected | src/robotactile_benchmark/closed_loop/artifact_semantics.py:42-67 | a concrete run that crashes on its first execute is reported, with evidence that the checker refuses |
| Counterexamples.StumblingSkipsAStep | src/robotactile_benchmark/backends/univtac_isaac.py:237-317 | a concrete history in which an execute raises on its second row and the next returns a batch from step 2 |
| Counterexamples.SilentRun | src/robotactile_benchmark/closed_loop/results.py:59-64 | a concrete attempted run that ends without a receipt |
| Counterexamples.WrongShapeFrozen | src/robotactile_benchmark/calibration/artifacts.py:161-224 | a concrete frozen pair that fails the loader's cross-links |
| Counterexamples.WidePictureLost | src/robotactile_benchmark/closed_loop/artifact_arrays.py:54-140 | a concrete 1200 by 1200 picture, 4.3 megabytes, that is serialized and does not load |
| Counterexamples.CrowdedRunRefused | src/robotactile_benchmark/closed_loop/artifact_contracts.py:133-136 | six hundred different executed actions fit and load one by one, and no result makes them a bundle |

## Left out

- OperatorParameters.SpreadAccepted: quotients and dose products are exact rationals; a floating-point tie may round the other way in Python.
- Validators.ValidateDelivery: the dose statistics of a pixel signature are an abstract `dose` that contributes its own codes; messages and metrics other than the affected count are not modelled.
- Validators.ValidateOperatorSemantics: the dose statistics of pixel signatures are the same abstract `dose`.
- Validators.ValidatePixelSignature: only the exact-match code is computed; the dose codes are the abstract `dose`.
- OperatorValidators.ValidateIdentityMisrouting: the two passes over exposed and other indices are one pass, so codes come in a different order.
- StreamingProperties.StreamAccepted: covers A1, A2, T1, T2, T3 and C1; pixel faults, whose dose codes are abstract, have their own theorem, `PixelStreamingProperties.PixelStreamAccepted`.
- PixelStreaming.PixelFaultSession.DeliverNext: after an F6 delivery that raised, the histories of earlier slots have moved on and the session is not promised to be usable; the delivery session around it never gets past such a record.
- PixelStreamingProperties.PixelStreamMatches: over real arithmetic with one rounding, so it does not say that the float32 paths of session and reference round alike.
- PixelRuns.PixelRejectedExactly: the dose codes are the abstract `dose`, and suitable cameras are a premise, stated on the simulator's frames.
- PixelReference.ExpectedPixelPayloads: arithmetic is over the reals with one rounding; IEEE rounding and uint8 conversion, and the exp and norm kernels, are abstract.
- PixelValues.SensitivityValue: the Gaussian is the abstract `exp` kernel of the pixel reference.
- PixelValues.SaturationValue: the contrast is the abstract `norm` kernel of the pixel reference.
- DeliveryFields.PassesExactly: the operator's own findings stay a named set; `DeliveryFields.PassedSource` and `DeliveryProperties.DeliverySound` say what an empty one means.
- PixelProperties.WarpNeverFoldsOrLeaves: over the reals; the bound on the frame is shown to be the least one at the top severity only.
- MatrixProperties.BuildForgetsOrder: the order of digests, which breaks ties, is a parameter without collisions, and real-valued because the modelled contents are uncountable.
- CalibrationSelection.BuildRestReference: the human-readable reference name is not modelled.
- ArtifactLoading.EvidenceRoundTrip: JSON text and NPY bytes are documents and symbolic files; vision is a map of pictures and proprioception a real vector, so other dtypes are not covered.
- Backend.UniVTACIsaacBackend.Reset: the simulator handshake and the raw field checks are one reply of the simulator.
- BackendRunner.BackendNeverViolates: says nothing about simulator exceptions, which are the backend's own.
- MaterializationRules.MaterializeExactly: a supplied `erased_offsets: null`, as below.
- OperatorParameters.MaterializeRegisters: a supplied `erased_offsets: null` counts as absent in the source and has no value here.
- PixelReference.ExpectedSlot: real arithmetic as above; and a frame that numpy would broadcast against the rest frame is refused; the source computes on the broadcast shape.
- Field-by-field type, pattern and digest checks of dataclass constructors are folded into datatypes and predicates.
- The digest that turns an operator seed into template offsets is a parameter bounded by the offset range.
- Exceptions outside Python's Exception hierarchy (keyboard interrupts) and the in-memory evidence capture hook.
- The simulator handshake, raw field shapes and joint reordering; a raw frame that cannot be converted is an exception.
- N0 handshake field checks, request keys and the wire transport.
- BundlePublication.PublishBundle: the staging directory is a value, and publishing over an existing output is not modelled; the JSON text of a document stands for the document, whose length is a parameter; of a report, the codes and the affected count are compared, not messages and other metrics.
- Serialization of matrices, and links between the roots of other bundles.
- The live artifact variant, the matrix runner, summaries and reporting, command lines, resources and provenance.
