# Verified model of the Linux VST bridge's proof transaction and native transport

This project models the parts of the bridge whose correctness depends on order, crashes and
byte layout, and proves what they keep. `dafny verify dfyconfig.toml` checks all of it.

## What is modelled

**The proof transaction: two machines, one execution** (`ProofPolicy`, `ProofTransaction`,
`ProofOwner`, `ProofBackend`, `ProofAdapter`, `ExecutionWorker`, `ProofRuns`, `ProofWitnesses`).
The controller keeps a budget, its adjustment records and, per reservation, a transaction file, a
result file, a failure with its sidecar and renderer-recovery files. Each file is replaced
atomically; nothing is atomic across files. `ProofOwner.Owner` is that directory, with the trail of
every state it has ever been in; each durable step first consults a countdown (`crashIn`) at whose
end the process dies, so every theorem about a method is about a crash before any of its steps.
What is read before the lock is read from any earlier points of the trail, so a call overlaps with
any number of other calls. The worker on the other machine keeps its own files, which a crash may
tear, and its own trail. Between them requests and replies are lost, late, repeated or refused.
`ProofRuns.Run` is any sequence of processes, each with its own delegation, authority readings,
moments of reading, deployed worker program and instant of death; what it ensures is what both
machines keep in every reachable state: one supervision per reservation at most, only for
reservations the budget lists, and no success retained that the worker's run did not earn.
`ProofRuns.DieThenRunAgain` lets one process die anywhere and runs another under the same standing
authority. `ProofRuns.FirstExecution` says that an execution with nothing in its way does what it is
for; the ghost `Errand` the backend's methods take is what such an execution is expected to bring home.

**Attribution** (`Attribution`): the clock brackets and the span loop of the timing report, proved
against a ghost real clock offset and a ghost true schedule.

**The native transport** (`Bytes`, `Wire`, `Incremental`, `Client`, `Mapping`, `Admission`,
`Events`, `Floats`): the versioned frame codec and its in-place encoder, the resumable reader
against any chunking of the stream, the one-slot request state against any peer, the shared region's
planes and its single sample owner, and the admission and event codecs.

**Stateful stream and ownership code** (`HostLines`, `ProcessTree`, `StateStream`, `Sessions`,
`DelayLine`): line framing with sender attribution, process descent, the bounded state stream with
`transfer` and `readEnvelope`, session capacity under threads, and the ring buffer against an
unbounded delay line.

## Conventions

- Digests are collision-free: `Sha(x)` is the value it was taken of. Canonical JSON is only a
  length: `Lengths` holds arbitrary functions, and the bounds on them are the program's.
- Whatever a caller cannot control is a parameter: scripts of exchanges, saves, adapter answers,
  authority readings, switches, chunks, `emit` calls (`patience` says how many are accepted before
  one raises), and `crashIn`.
- One `Owner` is one class and execution identity. The plan descriptor is joined with the delegation
  when the adapter is admitted and is then the delegation's.
- Fixed classification texts are named constants; any other text is itself, with the syntax it must have.
- Names, commits and digests inside records are numbers; effect counts are kept as how many there
  are, whether any is unknown, and which they are.

## What turned out not to hold

- A result whose observation and admitted value are each within their bounds need not fit the result
  file. The execution then stops and leaves the transaction OBSERVED, exactly as it was, and does so
  again on every run on which the adapter admits that value. `ProofBackend.Backend.ProcessObservation`
  states when, for all inputs; `ProofWitnesses.ResultNeverFits` is such a transaction, reached by the
  program's own steps. A failure record over 64 KiB stops an execution in the same way
  (`ProofWitnesses.FailureNeverFits`).
- `render_retained` called while the transaction still is RESULT_RETAINED renders, notes the recovery
  as complete, and only then meets an illegal transition; a later call finds the revision used.
  `ProofBackend.InVainExactly` says for which files this happens, `ProofBackend.Backend.RenderRetained`
  that nothing else decides it, and `ProofWitnesses.RenderTwice` that it does happen.
- A diagnostic run that was verified without any error, but whose environment or protected state was
  not left right, is published as inconclusive with its verified summary. The controller's adapter
  refuses exactly that (`ProofAdapter.RefusedExactly`), so nothing of it is ever retained
  (`ProofWitnesses.VerifiedInVain`).
- A crash between FAILURE_RETAINED and CLOSED is never repaired: later runs answer with the receipt
  of FAILURE_RETAINED and leave it (`ProofBackend.Backend.Resume`, `ProofBackend.Backend.Execute`).
- After a publication error the worker answers INCONCLUSIVE, yet inspection may find SUCCESS. For a
  run that was about to publish a success the two disagree exactly when the observation was in
  place and the sidecar's publication raised after the whole file was there
  (`ExecutionWorker.Execution.Publish`).
- The AP3 ring is not the delay line for every block: it is exactly for those of up to 3072 frames and
  those that start before frame 1024 and end by frame 4096 (`DelayLine.RingIsDelayExactly`). For a
  block size beyond that, unless the timeline is short enough, a generator exists with which the
  emitted samples differ (`DelayLine.Telling3`).

## Model

| member | source | states |
|---|---|---|
| ProofPolicy.AdmittedDelegation | tools/proof_execution_policy.py:269-355 | an admitted delegation runs under its own class's posture only, is eligible exactly for acceptance, and acceptance has a budget of one |
| ProofPolicy.AdmitsExactly | tools/proof_execution_policy.py:269-355 | the delegation an authority admits, field by field and both ways: its class's own posture, a budget of at least one (of one for acceptance), and every name and digest as the authority has it |
| ProofPolicy.OneDelegation | tools/proof_execution_policy.py:328-355 | no authority admits two different delegations |
| ProofTransaction.NoStateTwice | tools/classified_proof_backend.py:114-135 | along any legal history time only runs forward, so no state comes twice |
| ProofTransaction.HistoriesAre | tools/classified_proof_backend.py:114-135 | the legal histories are exactly the beginnings of ten courses from NEW to EVIDENCE_RENDERED |
| ProofTransaction.Move | tools/classified_proof_backend.py:961-973 | a transition is made exactly when the closed table has it |
| ProofTransaction.ReadsBack | tools/classified_proof_backend.py:878-956 | whatever is stored soundly passes the program's own readback exactly for the delegation it was made under, or a diagnostic's with another authority and a maximum that did not fall |
| ProofOwner.Owner.Step | tools/classified_proof_backend.py:405-430 | one atomic replacement happens whole or the process dies with the directory untouched; every earlier state stays related to the new one |
| ProofBackend.OneMoreRendering | tools/classified_proof_backend.py:1300-1312 | a rendering by a claimed renderer that has not been called keeps renderings distinct, claimed and of the retained result |
| ProofBackend.AdjustmentKeepsReservations | tools/classified_proof_backend.py:750-834 | plan revisions and extensions keep the reservations and their count and never lower the maximum |
| ProofBackend.AdjustmentIsRepeatable | tools/classified_proof_backend.py:788-833 | at each point of an adjustment a process that starts over goes by the same budget |
| ProofBackend.PlanExactly | tools/classified_proof_backend.py:750-834 | which budgets are kept, revised, extended or refused: a revision needs an authority that allows it and names the contract and plan content the budget has, at the same maximum |
| ProofBackend.Backend.Save | tools/classified_proof_backend.py:958-959 | the transaction on disk becomes exactly the successor, or stays when the process dies |
| ProofBackend.Backend.RetainFailure | tools/classified_proof_backend.py:1348-1405 | an unnamed failure becomes the exact record with its sidecar; a named one is verified and left; refused exactly for open dispositions or excess length |
| ProofBackend.Backend.RetainUnknown | tools/classified_proof_backend.py:1326-1346 | an unknown outcome is named with the dispositions given and rests in OUTCOME_UNKNOWN |
| ProofBackend.Backend.CloseWithFailure | tools/classified_proof_backend.py:1109-1120 | closed with this failure, unless one was named before, and without a result; stops for want of room exactly when the failure to be named does not fit, and then has written nothing |
| ProofBackend.Backend.CallRenderer | tools/classified_proof_backend.py:1300-1306 | the only place a rendering is made: one more, of the retained result, by this caller |
| ProofBackend.Backend.RetainRenderFailure | tools/classified_proof_backend.py:1287-1319 | a rendering that failed or may have happened leaves the result, and a failure that says which unless one was named; stops exactly when that does not fit |
| ProofBackend.Backend.RenderAcceptance | tools/classified_proof_backend.py:1276-1324 | an unclaimed rendering is made once and recorded exactly if it succeeds; a claimed one is never repeated; stops exactly when the failure it would have to name does not fit |
| ProofBackend.Backend.ProcessObservation | tools/classified_proof_backend.py:1100-1176 | on an answer there is a result exactly if the observation was a success, the adapter's admission fits, and, for acceptance alone, the delegation is eligible and everything was left as it should be; it is this observation with that admission; otherwise the failure has the observation's dispositions and the classification of the check that failed. It stops exactly when that result or that failure does not fit, and a result that does not fit leaves every file as it was |
| ProofBackend.Backend.CloseFailed | tools/classified_proof_backend.py:1109-1156 | each failing branch closes with its own classification and the observation's dispositions |
| ProofBackend.Backend.CloseSucceeded | tools/classified_proof_backend.py:1158-1176 | the retained result is the observed success, rendered only for acceptance; nothing is touched exactly when it does not fit |
| ProofBackend.Backend.RetainObservation | tools/classified_proof_backend.py:1079-1098 | the observation is on disk before it is judged, and comes to a result or a failure exactly as above |
| ProofBackend.Backend.Reconcile | tools/classified_proof_backend.py:1002-1023 | only recordable answers count, and a success among them was earned on the worker |
| ProofBackend.Backend.Readmit | tools/classified_proof_backend.py:1222-1274 | a retained result is taken up exactly if digest, binding, dispositions and failure pair verify and the adapter admits the same value again |
| ProofBackend.Backend.ResumeResult | tools/classified_proof_backend.py:1201-1220 | a retained result is closed and, for acceptance, its rendering settled; the result never changes |
| ProofBackend.Backend.Readmitted | tools/classified_proof_backend.py:656-668 | a yes means the document on disk is the one supplied and admits the delegation; a document that stands is never refused |
| ProofBackend.Backend.LoadBudget | tools/classified_proof_backend.py:750-834 | yields exactly the planned budget or the planned refusal, and however it stops, starting over plans the same |
| ProofBackend.Backend.AdjustBudget | tools/classified_proof_backend.py:784-833 | the intent is on record before the budget is replaced |
| ProofBackend.Backend.Resume | tools/classified_proof_backend.py:1025-1077 | every consumed state has its disposition, and none invokes; a retained failure is answered and left as it is, an observation on disk or reconciled comes to a result or a failure exactly as above |
| ProofBackend.Backend.ResumeUnobserved | tools/classified_proof_backend.py:1036-1058 | a reconciled observation is what is retained; otherwise the unknown outcome is, or stays as it was |
| ProofBackend.Backend.Invoke | tools/classified_proof_backend.py:570-575 | the adapter is called once, in LAUNCHING, for a reservation never invoked before |
| ProofBackend.Backend.Conclude | tools/classified_proof_backend.py:577-614 | a typed observation is retained as it came; otherwise what reconciliation found; otherwise an unknown outcome with the dispositions known |
| ProofBackend.Backend.Reserve | tools/classified_proof_backend.py:556-561 | the budget lists the reservation, one more than before, before anything is launched |
| ProofBackend.Backend.MarkLaunching | tools/classified_proof_backend.py:562-565 | RESERVED and LAUNCHING are both on disk, in that order, before the call |
| ProofBackend.Backend.Go | tools/classified_proof_backend.py:562-614 | a launch that is seen through invoked exactly once |
| ProofBackend.Backend.Launch | tools/classified_proof_backend.py:547-614 | a fresh execution touches its own reservation only, keeps the budget's terms and invokes once |
| ProofBackend.Backend.LaunchIfStillAdmitted | tools/classified_proof_backend.py:543-554 | a stale authority creates neither transaction nor reservation |
| ProofBackend.Backend.LookBefore | tools/classified_proof_backend.py:500-511 | what is read before the lock, file by file at different moments, verifies and still stands for an unchanged revision |
| ProofBackend.Backend.BeforeLock | tools/classified_proof_backend.py:483-518 | nothing of the owner's changes, and the adapter is refused only if it does not speak for the delegation |
| ProofBackend.Backend.Proceed | tools/classified_proof_backend.py:519-545 | refused for its delegation exactly when the transaction on disk was made under another one |
| ProofBackend.Backend.ReadTransaction | tools/classified_proof_backend.py:864-876 | reading back succeeds for every reachable state; a consumed reservation has its transaction |
| ProofBackend.Backend.ResumeReserved | tools/classified_proof_backend.py:522-541 | what was seen before the lock is used only for the same revision |
| ProofBackend.Backend.ResumePreflighted | tools/classified_proof_backend.py:529-535 | a reservation consumed but never marked is retained as unknown and never relaunched |
| ProofBackend.Backend.Execute | tools/classified_proof_backend.py:483-614 | invokes only a reservation nobody consumed before, and once if it is seen through; a failure left retained stays as it is; answers state what is at rest on disk; all ways of stopping are accounted for; where nothing stands in the way, the errand it is given is done |
| ProofBackend.Backend.RenderRetained | tools/classified_proof_backend.py:616-654 | never invokes or reserves, ends exactly as the files, the adapter's admission and its renderer decide, and leaves exactly one more rendering of the retained result, marked with how it went, or every file as it was |
| ProofBackend.Backend.RecoverRendering | tools/classified_proof_backend.py:624-654 | under the lock: refused, answered, attempted before, raised, in vain or completed, each exactly when, with exactly what each leaves |
| ProofBackend.InVainExactly | tools/classified_proof_backend.py:624-654 | the illegal transition comes exactly for a transaction still RESULT_RETAINED whose result is admitted again, under a revision not used before and a renderer that succeeds; the same revision is refused ever after |
| ProofAdapter.Translate | tools/pc0_proof_adapter.py:702-758 | no reply speaks for another request; what is carried keeps the worker's kind, classification, dispositions and payload, and a success carries complete cleanup and unchanged state |
| ProofAdapter.TranslateDiagnostic | tools/pc0_proof_adapter.py:702-758 | a diagnostic value is carried with its own kind, classification, dispositions and payload or refused, and the well-formed ones are not refused |
| ProofAdapter.TranslateAcceptance | tools/pc0_acceptance_adapter.py:104-148 | a success stays one exactly with its label, complete cleanup, unchanged state and a verified summary; otherwise it is inconclusive and of unknown dispositions |
| ProofAdapter.TranslateProduct | tools/ap0_adapter.py:103-123 | the same for a product, but its dispositions stay as the worker stated them |
| ProofAdapter.RefusedExactly | tools/pc0_proof_adapter.py:702-758 | of what inspection finds, exactly the diagnostic values verified without being a success are refused, and everything else is carried faithfully |
| ProofAdapter.Adapter.Serve | tools/pc0_execution_worker.py:241-268 | an answer that claims no workload found an existing record; a retained answer, a refusal or a full run is told exactly as the worker's files and the preflight decide |
| ProofAdapter.Adapter.Remote | tools/pc0_proof_adapter.py:685-700 | retrieval reports a state the worker was in and executes nothing; a success was earned |
| ProofAdapter.Adapter.Send | tools/pc0_proof_adapter.py:685-691 | a lost, late or repeated execute request keeps every guarantee; one that is delivered is told as it ended |
| ProofAdapter.Adapter.Reconcile | tools/pc0_proof_adapter.py:461-467 | retrieval only: what it reports is, with classification, dispositions and payload, what some state of the worker's files said; over a link that delivers it reports exactly what is there and can be reported |
| ProofAdapter.Adapter.Invoke | tools/pc0_proof_adapter.py:469-492 | execution is asked for only after retrieval found the reservation absent and the local preflight passed; a retained observation is returned without asking, as it was; each unknown outcome has exactly its dispositions and effects; over a link that loses nothing a run comes back as it ended, and an untroubled one as a success |
| ProofAdapter.Adapter.Attempt | tools/pc0_proof_adapter.py:475-479 | both preflights stand before the one request |
| ProofAdapter.Adapter.PreflightPlan | tools/pc0_proof_adapter.py:450-459 | a reservation the worker knows needs no preflight; an absent one needs both |
| ExecutionWorker.InspectIs | tools/pc0_execution_worker.py:76-108 | success is seen exactly when a successful observation and its sidecar are whole |
| ExecutionWorker.InspectedSuccessIsProved | tools/pc0_execution_worker.py:76-108 | at whatever instant, SUCCESS is seen only of a run that completed, was contained, retired, unchanged and free of errors, states so, and is seen for ever after |
| ExecutionWorker.OneProgram | tools/pc0_execution_worker.py:83-87 | once a reservation's intent is written, every other worker program's request for it is refused, at once and for ever |
| ExecutionWorker.AfterFaithful | tools/pc0_execution_worker.py:298-333 | "saved" always means: the checkpoint on disk preserves the latest observation |
| ExecutionWorker.Noted | tools/pc0_execution_worker.py:284-304 | the first error stays primary, and a checkpoint forgets no persistence error |
| ExecutionWorker.Execution.Checkpoint | tools/pc0_execution_worker.py:298-333 | a checkpoint changes the checkpoint file alone, and the progress it keeps is faithful to the disk |
| ExecutionWorker.Execution.Supervise | tools/pc0_execution_worker.py:335-368 | the supervisor runs exactly if guard and creation worked, and the run is a success so far exactly if supervision, scanner, containment and normalization were too |
| ExecutionWorker.Execution.Interpret | tools/pc0_execution_worker.py:347-366 | what the supervisor returned is checkpointed before it is read, and read as success exactly when complete and contained |
| ExecutionWorker.Execution.Retire | tools/pc0_execution_worker.py:373-381 | can only be called with every process known gone and the latest observation in the checkpoint on disk |
| ExecutionWorker.Execution.Clear | tools/pc0_execution_worker.py:369-384 | the environment is retired exactly if that was allowed after the last checkpoint and retirement answered so |
| ExecutionWorker.Execution.Conclude | tools/pc0_execution_worker.py:369-396 | cleanup is COMPLETE and protected state UNCHANGED exactly when the readbacks established it |
| ExecutionWorker.DecidedEarned | tools/pc0_execution_worker.py:397-430 | success survives exactly without errors, with complete cleanup, unchanged state and its admission, and is then earned |
| ExecutionWorker.Execution.Decide | tools/pc0_execution_worker.py:397-434 | what is about to be published is a success exactly then |
| ExecutionWorker.Execution.Publish | tools/pc0_execution_worker.py:439-452 | published in full, the answer is the observation; otherwise inconclusive; and the one case where inspection then says otherwise |
| ExecutionWorker.Execution.PutBoth | tools/pc0_execution_worker.py:441-445 | observation before sidecar, and a whole sidecar means a whole observation |
| ExecutionWorker.Execution.Perform | tools/pc0_execution_worker.py:269-452 | where the keeping of records meets no trouble the answer is exactly what guard, supervision, retirement and readbacks call for: kind, classification, summary, cleanup and protected state; SUCCESS is answered only of an earned run |
| ExecutionWorker.Execute | tools/pc0_execution_worker.py:241-268 | one supervision per reservation at most, and only past a preflight, an intent in full, guard and creation; a failing preflight refuses and leaves everything; an existing record is answered and left alone, one of another program refused; a fresh run is answered as above |
| ExecutionWorker.Run | tools/pc0_execution_worker.py:259-268 | the winner of the directory runs, and answers for itself, exactly as above |
| ProofRuns.InvokedAtMostOnce | tools/classified_proof_backend.py:539-575 | in every sound state a reservation was invoked at most once, is listed if it was, and its history has been through LAUNCHING |
| ProofRuns.BudgetLaw | tools/classified_proof_backend.py:734-834 | reservations distinct, counted exactly, within the maximum, one at most for acceptance, each with its transaction |
| ProofRuns.EvidenceLaw | tools/classified_proof_backend.py:1143-1324 | evidence only for acceptance, only of the retained verified success, and once per renderer |
| ProofRuns.RecordsLaw | tools/classified_proof_backend.py:864-979 | every transaction on disk has a legal history ending in its state, an observation exactly from OBSERVED on, and beside it the files it names: the result is of that observation, the failure of its own binding with its sidecar |
| ProofRuns.OverTime | tools/classified_proof_backend.py:734-979 | lists grow, maxima rise, what is named stays, and nothing is rendered after a completed rendering |
| ProofRuns.Process | tools/classified_proof_backend.py:483-654 | no process, dying anywhere, breaks the join or ever meets corrupt state |
| ProofRuns.Run | tools/classified_proof_backend.py:483-654 | over all runs of both machines, worker programs changing between them: one supervision per reservation, only when listed, successes earned |
| ProofRuns.ExecuteOnce | tools/classified_proof_backend.py:483-614 | an admissible delegation stays admissible, and exhaustion stops only one whose reservation was not consumed |
| ProofRuns.DieThenRunAgain | tools/classified_proof_backend.py:483-614 | after a death anywhere a second run ends at rest, a failure named or nothing left to render, but for refusals of the adapter and size bounds, if the reservation was consumed |
| ProofRuns.FirstExecution | tools/classified_proof_backend.py:483-614 | a first execution under a standing authority with room in the budget, over a link that delivers, of a run without trouble: supervised once, and its observation with what the adapter admits is the result, rendered for acceptance |
| ProofWitnesses.ResultNeverFits | tools/classified_proof_backend.py:1158-1176 | a reachable OBSERVED transaction whose result does not fit though its parts do, left as it is run after run |
| ProofWitnesses.FailureNeverFits | tools/classified_proof_backend.py:1127-1136 | and one whose failure does not |
| ProofWitnesses.RenderOnce | tools/classified_proof_backend.py:616-654 | on every RESULT_RETAINED transaction that would be admitted again, a fresh revision renders and then meets the illegal transition |
| ProofWitnesses.RenderAgain | tools/classified_proof_backend.py:633-635 | after which the same revision is refused as attempted |
| ProofWitnesses.RenderTwice | tools/classified_proof_backend.py:616-654 | both happen, from an empty directory by the program's own steps |
| ProofWitnesses.VerifiedInVain | tools/pc0_proof_adapter.py:702-758 | a diagnostic verified without error whose environment was not left right is published by the worker and refused by the adapter, when it asked for the run and whenever it asks again |
| Attribution.Absences | tools/audio_recovery_timing.py:30-42 | accepts exactly ordered alternating switches and yields exactly the completed absences |
| Attribution.Attribute | tools/audio_recovery_timing.py:11-55 | accepts exactly well-formed witnesses, and reports exactly: off-CPU and preempted time inside the common window, the smaller of preempted time inside the possible window and the tick-derived call length, and the preemptions across the gap |
| Attribution.InstantRounded | tools/audio_recovery_timing.py:19-20 | the two conversions bracket every tick's true instant, each less than a nanosecond away |
| Attribution.WindowsBracketTheCall | tools/audio_recovery_timing.py:23-27 | for every offset consistent with the two messages the common window is inside the true call and the call inside the possible one |
| Attribution.WindowsAreTight | tools/audio_recovery_timing.py:19-27 | each end of both windows, and each bound on the offset, is less than a nanosecond from the exact one |
| Attribution.SumsAgree | tools/audio_recovery_timing.py:43-45 | sums over the spans bound the true time from both sides |
| Attribution.ReportMeasures | tools/audio_recovery_timing.py:43-55 | the reported sums are the exact measures of absence within their windows, without reference to spans |
| Attribution.BetweenBounded | tools/audio_recovery_timing.py:54 | disjoint absences never exceed the window they lie in |
| Attribution.ReportIsSound | tools/audio_recovery_timing.py:23-55 | lower bound, truth, upper bound, for every consistent offset and every completion of the schedule |
| Attribution.CrossingIsInsideTheCall | tools/audio_recovery_timing.py:46-49 | a reported crossing is a recorded preemption inside the true call and contains the gap |
| Attribution.CrossingIsComplete | tools/audio_recovery_timing.py:46-49 | no preemption within the margins is left out |
| Attribution.ConsistentOffsetExists | tools/audio_recovery_timing.py:23-25 | soundness is not about nothing: consistent stamps have a consistent offset, and the reported brackets are less than two nanoseconds wider than what the messages leave open |
| Bytes.GetPut | native-audio-client/src/lib.rs:47-57 | reading what was put gives the value back |
| Bytes.PutGet | native-audio-client/src/lib.rs:47-57 | and putting what was read gives the bytes back |
| Bytes.PutInto | native-audio-client/src/lib.rs:52-57 | the in-place loop writes exactly those bytes and no others |
| Wire.HeaderReadsBack | native-audio-client/src/lib.rs:93-137 | an encoded header announces its payload and gives back its frame |
| Wire.EncodableExactly | native-audio-client/src/lib.rs:93-126 | which kinds and payloads each minor lets through, by when they came in |
| Wire.EncodedBytes | native-audio-client/src/lib.rs:127-137 | where every field of an encoded frame stands |
| Wire.DecodeEncode | native-audio-client/src/lib.rs:93-157 | encodable frames decode to themselves, for every minor |
| Wire.EncodeDecode | native-audio-client/src/lib.rs:93-157 | accepted bytes re-encode to themselves, for every minor |
| Wire.ReadComplete | native-audio-client/src/lib.rs:213-220 | a frame is read when its bytes are there, whatever follows |
| Wire.ReadAllEncodeAll | native-audio-client/src/lib.rs:213-220 | any concatenation of encoded frames reads back as exactly that list |
| Wire.EncodeInto | native-audio-client/src/lib.rs:93-137 | the encoder that fills a buffer field by field produces the specified bytes, or refuses |
| Incremental.JudgeIsOneShot | native-audio-client/src/endpoint.rs:39-99 | a verdict on a prefix is the verdict of a single read and later bytes never change it |
| Incremental.IncrementalFrame.Reset | native-audio-client/src/endpoint.rs:49-53 | after a reset the reader owns the next frame from where the socket stands |
| Incremental.IncrementalFrame.PreparePayload | native-audio-client/src/endpoint.rs:54-63 | refuses exactly a header that announces no admissible payload |
| Incremental.IncrementalFrame.ReadOnce | native-audio-client/src/endpoint.rs:72-99 | every answer is what the bytes taken so far amount to, and no byte past the frame is taken; a would-block, an interruption and a fault are each answered exactly when the socket gave one |
| Incremental.IncrementalFrame.ReadAvailable | native-audio-client/src/endpoint.rs:100-139 | the same without waiting: it is pending exactly when the socket stalled, and only a fault of the socket is one |
| Incremental.AnswersAreOneShot | native-audio-client/src/endpoint.rs:39-139 | both readers, in any mix and over any chunking, agree with reading the whole stream at once |
| Incremental.ReceiveUntil | native-audio-client/src/endpoint.rs:148-179 | terminates; ends unhealthy exactly at the first such answer among those asked for, never succeeds past its deadline, and reports a fault only of the socket or its deadline; a frame whose bytes come in time, among any stalls and while healthy, is answered as a single read answers it |
| Client.RequestReadsBack | native-audio-client/src/lib.rs:301-312 | the request's payload says what was asked for |
| Client.ClientState.ProcessLimited | native-audio-client/src/lib.rs:286-323 | a request goes out exactly from a writable slot within its limits, and takes the slot |
| Client.ClientState.Process | native-audio-client/src/lib.rs:275-277 | at most until sequence 64 |
| Client.ClientState.ProcessSustained | native-audio-client/src/lib.rs:278-285 | until one before the last 64-bit sequence, so that the next never overflows |
| Client.ClientState.DoneAt | native-audio-client/src/lib.rs:327-346 | accepted exactly for the outstanding request's own acknowledgement; anything else spends the slot |
| Client.ClientState.Close | native-audio-client/src/lib.rs:350-362 | succeeds exactly when writable, and then everything issued was acknowledged |
| Client.Run | native-audio-client/src/lib.rs:262-373 | any calls against any peer: consecutive acknowledgements, one outstanding, failure permanent, no overflow; a reply is taken for a close's answer only if it is that, after everything issued was acknowledged, and right after a close exactly then |
| Mapping.PlanesAreApart | native-audio-client/src/mapping.rs:74-80 | planes of every layout are in bounds, past the header and disjoint |
| Mapping.LayoutsAre | native-audio-client/src/mapping.rs:74-80 | the three layouts and where their planes stand |
| Mapping.View.TransferAudio | native-audio-client/src/mapping.rs:37-53 | succeeds exactly when no audio view lives and the mapping works, and then the new view reaches everything and this one exactly the header; failure gives the permit back |
| Mapping.View.Drop | native-audio-client/src/mapping.rs:167-174 | only an audio view returns the permit |
| Mapping.View.Close | native-audio-client/src/mapping.rs:113-118 | the view is spent whether or not unmapping succeeds |
| Mapping.View.Write | native-audio-client/src/mapping.rs:54-62 | writes exactly in reach of this view, and exactly these bytes |
| Mapping.View.Read | native-audio-client/src/mapping.rs:63-67 | reads exactly in reach of this view |
| Mapping.View.Prepare | native-audio-client/src/mapping.rs:98-109 | every plane gets both its guards |
| Mapping.View.WritePlane | native-audio-client/src/mapping.rs:145-157 | exactly the plane's words change |
| Mapping.View.ReadPlane | native-audio-client/src/mapping.rs:158-165 | exactly the plane's words are read |
| Mapping.PlaneRoundTrip | native-audio-client/src/mapping.rs:145-165 | a plane written and read gives its words back |
| Mapping.OtherPlanesUnchanged | native-audio-client/src/mapping.rs:145-157 | writing one plane leaves every other plane and its guards |
| Mapping.OneSampleOwner | native-audio-client/src/mapping.rs:37-66 | two views that can both reach a sample are one view |
| Mapping.Run | native-audio-client/src/mapping.rs:37-174 | over any transfers, failures, drops and closes there is one sample owner at most |
| Admission.RefusalOf | native-audio-client/src/admission.rs:24-49 | refusal codes and refusals correspond one to one |
| Admission.BindingReadsBack | native-audio-client/src/admission.rs:96-114 | an encoded binding reads back as itself |
| Admission.AcceptedIff | native-audio-client/src/admission.rs:96-164 | bytes decode to a binding exactly when they are its encoding for this request and version |
| Admission.AcceptedBytesAre | native-audio-client/src/admission.rs:96-164 | the same byte by byte: what stands where in an accepted reply, and what a binding must be |
| Admission.RefusedIff | native-audio-client/src/admission.rs:70-164 | bytes decode to a refusal exactly when they are its encoding, or the busy refusal |
| Admission.BoundToItsRequest | native-audio-client/src/admission.rs:128-164 | an accepted binding decodes under no other request or version |
| Admission.OnlyBusyIsUnbound | native-audio-client/src/admission.rs:128-164 | the busy refusal is the only reply two requests can share |
| Events.EventReadsBack | native-audio-client/src/events.rs:58-105 | an event's 32 bytes give it back |
| Events.BytesReadBack | native-audio-client/src/events.rs:58-105 | and 32 bytes with clear padding are some event's |
| Events.EventBytes | native-audio-client/src/events.rs:58-105 | where every field of an event stands |
| Events.AdmitsExactly | native-audio-client/src/events.rs:20-50 | which notes and parameters a block lets through |
| Events.EncodedHead | native-audio-client/src/events.rs:58-74 | a list is encoded exactly if there are at most 256 admissible events, and begins with their count |
| Events.BodiesDecode | native-audio-client/src/events.rs:78-105 | the encoding of valid events decodes to them |
| Events.DecodedBodies | native-audio-client/src/events.rs:78-105 | accepted bytes are the encoding of valid events |
| Events.DecodeIff | native-audio-client/src/events.rs:58-105 | bytes decode to a list exactly when they are its encoding |
| Events.EncodeForBlock | native-audio-client/src/events.rs:58-74 | the in-place encoder appends exactly the encoding or refuses, whatever was in the buffer |
| HostLines.BreakIsFirst | bridge-manager/runtime/ownership.py:179-180 | the line ends at the first newline |
| HostLines.Conserved | bridge-manager/runtime/ownership.py:178-196 | lines with their newlines and what is pending are the input |
| HostLines.FrameConcat | bridge-manager/runtime/ownership.py:178-183 | framing chunk by chunk is framing the whole |
| HostLines.NextLine | bridge-manager/runtime/ownership.py:179-194 | the mixed flag and the held writer say exactly whether the next line has one sender and who |
| HostLines.JudgeStable | bridge-manager/runtime/ownership.py:171-196 | later chunks change no earlier judgement |
| HostLines.Open | bridge-manager/runtime/ownership.py:171-178 | a new chunk continues the unfinished line |
| HostLines.AttributedBytes | bridge-manager/runtime/ownership.py:184-189 | every byte of a line that goes out with a writer came in that writer's chunk or one judged the same sender |
| HostLines.LengthIgnoresChunks | bridge-manager/runtime/ownership.py:181-196 | text accepted in any chunks has no long line |
| HostLines.HostWriterLines.RefusedInAnyChunks | bridge-manager/runtime/ownership.py:181-196 | text refused for length is accepted in no other chunks, whatever follows |
| HostLines.PassLines | bridge-manager/runtime/ownership.py:179-196 | lines go out in order and as judged, up to the first that is refused |
| HostLines.HostWriterLines.Feed | bridge-manager/runtime/ownership.py:171-205 | what goes out is what the whole history says; a chunk is judged of the same sender exactly by pid, uid and both being alive; on every exit each writer passed in is closed or the one held |
| HostLines.HostWriterLines.Settle | bridge-manager/runtime/ownership.py:192-200 | one writer is held for the bytes left, or none |
| HostLines.HostWriterLines.Abandon | bridge-manager/runtime/ownership.py:201-205 | the exceptional exit leaves no writer open |
| HostLines.HostWriterLines.Finish | bridge-manager/runtime/ownership.py:213-220 | an unfinished line is never passed on as protocol |
| ProcessTree.DescendantIdentities | bridge-manager/runtime/ownership.py:375-388 | every record below the root exactly once, and without cycles never the root |
| ProcessTree.ProcessTracker.constructor | bridge-manager/runtime/ownership.py:428-433 | the root and its descendants are owned at admission |
| ProcessTree.ProcessTracker.Update | bridge-manager/runtime/ownership.py:447-481 | exactly what was owned and every live descendant of it |
| ProcessTree.Walk | bridge-manager/runtime/ownership.py:447-481 | the worklist terminates with that set |
| ProcessTree.RecycledOwnNothing | bridge-manager/runtime/ownership.py:455-457 | an identity whose pid is gone or has another start time has no children, and a child counts exactly if listed under a parent that is the same process and naming it |
| StateStream.OverlayIsResizeAndCopy | vst-state/stream.h:81-86 | resizing and copying is overlaying with zeros in the gap |
| StateStream.RunLaws | vst-state/stream.h:48-113 | over any run the limit holds, and once failed nothing changes |
| StateStream.WriteExactly | vst-state/stream.h:67-94 | when a write is taken, where every byte of the file then comes from, and what a refusal leaves |
| StateStream.Stream.Read | vst-state/stream.h:48-66 | the plain file's read: exactly what is there up to the count asked, short at the end and still successful |
| StateStream.Stream.Write | vst-state/stream.h:67-94 | the plain file's overlay, refused for good beyond the limit |
| StateStream.Stream.Seek | vst-state/stream.h:95-113 | the cursor moves exactly to a position within the limit, and the stream fails exactly for one beyond it |
| StateStream.RunAll | vst-state/stream.h:48-113 | any operations on a stream are those on the plain file |
| StateStream.TransferIn | vst-state/stream.h:127-144 | all bytes arrive in order or the answer is no, and it is yes exactly if they are there |
| StateStream.TransferOut | vst-state/stream.h:127-144 | all bytes are laid down or the answer is no, and it is yes exactly if they fit |
| StateStream.EnvelopeIs | vst-state/stream.h:149-155 | the announced length decides whether the rest is one envelope |
| StateStream.ReadEnvelope | vst-state/stream.h:145-164 | succeeds exactly when the rest of the stream is one envelope, and returns it |
| Sessions.ServeConnected | tools/ap4_preview.py:113-211 | an environment created and not positively retired is a containment error, and nothing else is |
| Sessions.Supervised | tools/ap4_preview.py:146-162 | containment is the last thing known of the processes |
| Sessions.DropFits | tools/ap4_preview.py:243-247 | reaping loses a slot only when new work is already blocked |
| Sessions.Pool.Advance | tools/ap4_preview.py:254-265 | a thread's step, and when it blocks new work |
| Sessions.Pool.Listen | tools/ap4_preview.py:243-269 | each step of the listener, exactly |
| Sessions.AdmitUndisturbed | tools/ap4_preview.py:249-269 | lets a peer in exactly if nothing is blocked and the living leave room |
| Sessions.Reap | tools/ap4_preview.py:243-247 | the living are kept, in order |
| Sessions.Run | tools/ap4_preview.py:234-274 | for every interleaving sessions that live or whose environment is unresolved never exceed four |
| DelayLine.EmissionIsDelayed | tools/ap3_contract.py:23-37 | with blocks that fit the whole emission is the delay line's |
| DelayLine.RingIsDelayExactly | tools/ap3_contract.py:30-36 | the ring is the delay line for exactly the blocks of at most 3072 frames, or that start before frame 1024 and end by frame 4096 |
| DelayLine.Diverges3 | tools/ap3_contract.py:16-38 | for every AP3 block size outside the condition there is a generator with which the emission differs |
| DelayLine.Telling3 | tools/ap3_contract.py:16-38 | with it, emission and delay line agree exactly if the block size is within the condition |
| DelayLine.Reconstruct | tools/ap3_contract.py:16-38 | blocks tile the timeline and follow the plan |
| DelayLine.OneTimeline | tools/ap3_contract.py:22-37 | a record leaves no choice of blocks and gains |
| DelayLine.OneEmission | tools/ap3_contract.py:16-38 | what is emitted depends on the seed and the record alone |
| DelayLine.BlocksKeepToOneSide | tools/ap3_contract.py:24-25 | no AP3 block straddles the end of the active part |
| DelayLine.GainAt3 | tools/ap3_contract.py:23-26 | the gain of an AP3 block by its number |
| DelayLine.SampleAt3 | tools/ap3_contract.py:24-32 | each AP3 sample by its position and its block's number |
| DelayLine.Reconstruct3 | tools/ap3_contract.py:16-38 | AP3: blocks tile the timeline, and for 1 to 3072 frames, or larger ones that fit the timeline's length, the emission is the delayed product stream |
| DelayLine.MuteIsExact | tools/ap4_contract.py:24-27 | AP4 blocks stand at multiples of 256 and an aligned mute holds from exactly there |
| DelayLine.MuteAt | tools/ap4_contract.py:21-32 | each AP4 sample by its position, muted exactly from the mute position on |
| DelayLine.Reconstruct4 | tools/ap4_contract.py:18-35 | AP4: the delayed product stream so muted |

## Left out

- ProofBackend.Backend.WriteBudget: does not model the 512 KiB bound on the budget, adjustment and transaction files; a write refused for it leaves what a death before that write leaves, which the model covers, but no run is shown to stop for it.
- ProofBackend.Backend.LoadBudget: where an adjustment record differs and the authority on disk has moved as well, the program names the authority and the model the record; both refuse before any write.
- ProofBackend.Backend.Conclude: an adapter that raises an `OutcomeUnknown` with dispositions outside the closed set is not modelled; the modelled one never does, as `ProofAdapter.Adapter.Invoke` states.
- ProofBackend.Backend.Resume: an adapter whose reconciliation returns a value that is no observation at all is not modelled; this adapter returns none such.
- ProofAdapter.Translate: does not model the field-by-field checks of summaries, failure diagnostics and runtime observations, nor their size bounds; a `Verified` summary is one that passes them.
- ProofAdapter.Adapter.Admit: the adapter's admission is an arbitrary answer, so results hold for any adapter.
- ExecutionWorker.Execution.Callbacks: the supervisor is any sequence of checkpoint calls followed by a result or an exception; what it observes is opaque.
- ProcessTree.ProcessTracker.Update: is stated for a process table that does not change during the walk, because the child is read again after the last look at its parent.
- HostLines.HostWriterLines.Feed: whether two writers are the same sender is what the probe answers; the processes behind them are not modelled.
- Mapping.View.Write: memory ordering between the two processes is not modelled.
- DelayLine.Reconstruct: samples and gains are exact reals, the generator is any step function, and the digests folded over input and output are left out.
- Attribution.Attribute: malformed JSON and wrong tuple shapes beyond the length checks are not modelled.
- Floats: single and double values are bit patterns with the validity tests the codecs make; no rounding.
- fsync and directory synchronisation: an atomic replacement is durable.
- Owner directories of other classes and identities: they share nothing with one another.
- SSH, git, flatpak, /proc, sockets, poll and mmap: only their outcomes.
- The manager's user interface, the probe, the direct-audio shim, the AP adapters and build scripts, the scalar record checkers, StrictSSHPort and the installer ledger: glue, fixed values or user interface.
- native-audio-client/src/notification.rs and TrackingCadence: small state next to the rest.
