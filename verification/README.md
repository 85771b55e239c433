# Local Recall, verified core

A Dafny model of the parts of Local Recall whose correctness rests on state, order or
arithmetic, with proofs about every run, every interleaving or every input.

The centre is the capture lifecycle together with the bounded pipeline:

* `GateModel`, `GateTheorems` and the class in `CaptureGate.dfy`: the capture gate, its
  generations, cancel events and registered operations.
* `ActorModel`, `ActorTheorems` and the class in `LifecycleActor.dfy`: the lifecycle owner,
  its pause latches and its audit trail.
* `PipelineModel`, `Protocol*`: gate, owner, ingress, four stage actors, edges, credits and
  the commit lock as one interleaved machine. A step is one critical section of one thread; a
  section nested in another lock's, and what the thread then does by itself, belong to it. What
  comes from outside (a failed send, a raising processor or encoder, a deadline, a timeout) is
  a choice of the step, so a claim about all runs covers every combination.
  `ProtocolInvariant` states the invariant, one predicate per concern;
  `ProtocolWorkers`, `ProtocolCommit`, `ProtocolIngress` and `ProtocolControl` show that
  every step keeps it; `ProtocolTheorems` draws the conclusions, `ProtocolStops` says when a
  stop is clean, `ProtocolFaults` gives runs through FAULTED, and `ProtocolProgress` shows that
  every thread but the owner can come to rest by its own steps. `ProtocolOrigins` traces every
  accepted and persisted record to its submission; `ProtocolAccounts` keeps the books of whole
  runs, in which each submission and each accepted record is in exactly one place or was given
  up by one step for a named reason; `ProtocolStages` says what stages work on and what faults
  them; and `ProtocolDelivery` shows that a submission does get through.
* `ActorProtocol` and `ActorRuns`: the owner's half of that machine is an automaton of its own,
  and every message the owner handles, with every answer of the sink and the coordinator, is a
  path of that automaton. What the owner does next the other threads can permit in every
  reachable state, unless it waits for an edge that has lost a credit; and every history of
  messages is a run of the machine from its beginning (`HistoriesRun`), and goes on from the
  middle of any run that has lost no credit (`HistoriesGoOn`). In these runs a pipeline that is
  not quiescent appears as a timed-out wait for the first edge, and buffers that could not be
  cleared as a first stage that does not answer.
* `SessionPreflight`: the session's safety preflight in front of the owner.
* `GateOutcomes`, `ActorOutcomes` and `ActorReports`: what every gate operation and every
  message of the owner does, said on states, latches and answers instead of on the functions
  of the models; from that, a pause holds until it is resumed or stopped (`APauseHolds`).
* `CreditLedger.dfy`, `StageActor.dfy`, `PipelineIngress.dfy`, `BoundedPipeline.dfy`: the same
  components as objects, one uninterrupted call at a time.

Beside it: the PNG codec (`Png*`, after RFC 2083), the checkpointed semantic index
(`IndexModel`, `IndexTheorems`, `SemanticIndex.dfy`), adaptive capture (`Adaptive*`,
`PerceptualHash`), the policy engine (`Policy*`), activity segmentation (`Activity*`) and the
decoding of X window dumps (`Xwd*`).

`PngBytes` and the other modules named `*Outcomes` say the same of these on elementary terms:
bytes and neighbours, hits, single conditions of a rule, times, scores and weights.

Where the program updates fields or buffers, the model is a class or a method over arrays
whose contract equates the new state with a function of the old one; the theorems are about
those functions.

Four expectations that the code does not meet on every input are kept as the code has them,
with the exact condition under which it does:

* OFF leaves nothing behind: FAULTED to OFF waits for no operation and no credit, so work may
  be left (`FaultedStopMayLeaveWork` is a run). Under every interleaving, with stages that drain
  one after another among the steps of all threads, such a stop is clean for a generation if and
  only if, before the stop, no operation of it is registered and its credits are exactly those
  of its queued messages, its messages in hand and its sends in progress, so that none is lost
  (`FaultedStopIsCleanExactly`); this is for a stop during which no operation of the generation
  ends, no further credit is lost and no socket fails, and `FaultedStopCompletes` shows that every
  reachable fault has one. At its last step any stop is clean if and only if no operation, credit
  or coalesced frame is left (`StopIsCleanExactly`), and a stop whose generation no fault
  cancelled always is (`StopIsClean`). What is clean stays clean.
* SESSION_LOCKED is given up only for SESSION_UNLOCKED: the owner also gives it up for an
  accepted preflight result of IDLE, whatever preflight it has, and then the end of idleness
  resumes recording (`IdlePreflightReplacesTheLock` is a run, `WhatClearsTheLock` the condition).
  With the session's own preflight (src/local_recall/session/safety.py:594-624) that result
  means that the lock was seen unlocked, as docs/session-safety.md:9 asks, and recording never
  goes on without an observed unlock or SESSION_UNLOCKED (`NoRecordingWithoutAnUnlock`).
* A completed rebuild is that of its documents: it matches its checkpoint by record
  identifiers alone, so changed text is not embedded again (`CompletedWithTheOldVector` is a
  run). It is the fresh rebuild if and only if the identifiers no longer fit the checkpoint's
  documents, or those were captured at the same times and embed alike (`ChangedTextSurvives`).
* A rebuild of valid documents completes: a checkpoint of another model blocks it
  (`AnotherModelIsRefused` is a run). It completes if and only if no checkpoint fits, or the one that does
  is of the provider's model and dimension or already covers every document (`ResumedRebuildFinishes`).

An encoder that raises after its credit was taken loses that credit, and so does a message
whose header cannot be read; conservation is stated with exactly those losses
(`CreditsAreConserved`).

## Model

| member | source | states |
|---|---|---|
| CaptureGateObject.CaptureGate.constructor | src/local_recall/lifecycle/gate.py:56-69 | A new gate is OFF, owns no generation, no event and no operation. |
| CaptureGateObject.CaptureGate.BindOwner | src/local_recall/lifecycle/gate.py:137-144 | The first thread to bind becomes the owner, binding again changes nothing, and another thread is refused. |
| CaptureGateObject.CaptureGate.ReleaseOwner | src/local_recall/lifecycle/gate.py:146-149 | Only the owner gives the gate up. |
| CaptureGateObject.CaptureGate.BeginStart | src/local_recall/lifecycle/gate.py:151-165 | Only the owner, only from OFF: a new generation with an unset event and the given revision becomes active in STARTING; otherwise the state is untouched and the error says why. |
| CaptureGateObject.CaptureGate.MarkRecording | src/local_recall/lifecycle/gate.py:167-173 | STARTING of exactly this generation becomes RECORDING. |
| CaptureGateObject.CaptureGate.Pause | src/local_recall/lifecycle/gate.py:175-179 | RECORDING becomes PAUSED within the same generation. |
| CaptureGateObject.CaptureGate.Resume | src/local_recall/lifecycle/gate.py:181-185 | PAUSED becomes RECORDING within the same generation. |
| CaptureGateObject.CaptureGate.InvalidateAndPause | src/local_recall/lifecycle/gate.py:187-207 | The active generation's event is set, it becomes the draining one, and a fresh generation is active in PAUSED. |
| CaptureGateObject.CaptureGate.BeginStopping | src/local_recall/lifecycle/gate.py:209-223 | The active generation is cancelled and handed over for draining; the epoch moves even when the transition is refused. |
| CaptureGateObject.CaptureGate.FinishOff | src/local_recall/lifecycle/gate.py:225-241 | OFF forgets the session and takes out exactly the set events without operations in flight. |
| CaptureGateObject.CaptureGate.Fault | src/local_recall/lifecycle/gate.py:243-258 | Cancels the active generation, returns the active or else the draining one, marks the gate unhealthy. |
| CaptureGateObject.CaptureGate.AcquirePreflight | src/local_recall/lifecycle/gate.py:264-267 | Admits one operation of the active generation in STARTING, or raises and changes nothing. |
| CaptureGateObject.CaptureGate.AcquireCapture | src/local_recall/lifecycle/gate.py:269-274 | Admits one operation of the active generation in RECORDING, or raises and changes nothing. |
| CaptureGateObject.CaptureGate.AcquirePersistence | src/local_recall/lifecycle/gate.py:276-282 | Admits one operation of the given generation when it is active in RECORDING or PAUSED, or raises and changes nothing. |
| CaptureGateObject.CaptureGate.RequireCurrentGeneration | src/local_recall/lifecycle/gate.py:118-123 | Reports staleness before a closed gate, and nothing for a current generation. |
| CaptureGateObject.CaptureGate.ReleaseOperation | src/local_recall/lifecycle/gate.py:294-303 | One operation less; the last one of a generation that is not active takes its event out of the dictionary. |
| CaptureGateObject.CaptureGate.OperationsQuiescent | src/local_recall/lifecycle/gate.py:125-135 | One look of the wait: quiescent exactly when no operation of the generation is in flight. |
| GateTheorems.PermitsFollowTheActiveGeneration | src/local_recall/lifecycle/gate.py:187-303 | After every sequence of calls the in-flight counts are the outstanding permits, and a permit is cancelled exactly when its generation is not the active one. |
| GateTheorems.RegistrationNeverRaises | src/local_recall/lifecycle/gate.py:264-292 | Each acquisition succeeds exactly on its guard; the raises for a missing event or revision are unreachable. |
| GateTheorems.RetiredGenerationOnlyDrains | src/local_recall/lifecycle/gate.py:264-303 | Once a generation is not active it never is again, its in-flight count never rises, and nothing is admitted for it. |
| GateTheorems.InvalidationRetires | src/local_recall/lifecycle/gate.py:187-258 | Automatic pause, stop and fault each retire the generation they find active. |
| GateTheorems.FinishOffNeedsInvalidation | src/local_recall/lifecycle/gate.py:225-241 | Going to OFF keeps the gate's invariant exactly when the state is not STARTING. |
| GateTheorems.RefusedInvalidationMovesTheEpoch | src/local_recall/lifecycle/gate.py:213-222 | A refused stop or fault still moves the epoch and nothing a permit can see; when each is refused. |
| GateOutcomes.WhoMayEnter | src/local_recall/domain/lifecycle.py:47-86 | The transition table read by its targets: from which states each state may be entered. |
| GateOutcomes.SessionsSucceedExactly | src/local_recall/lifecycle/gate.py:151-241 | The states in which a start, a recording, a pause, a resume and a finish succeed, and no others. |
| GateOutcomes.InvalidationsSucceedExactly | src/local_recall/lifecycle/gate.py:187-258 | Automatic pause and stop succeed exactly in STARTING, RECORDING and PAUSED, a fault exactly outside FAULTED. |
| GateOutcomes.SessionOutcomes | src/local_recall/lifecycle/gate.py:151-185 | Start, recording, pause and resume field by field: the new generation is the next epoch with a clear event, and the others keep theirs. |
| GateOutcomes.InvalidationOutcomes | src/local_recall/lifecycle/gate.py:187-258 | What invalidates sets the active generation's event, hands it over for draining and moves the epoch; only an automatic pause opens a new one. |
| GateOutcomes.IdleOutcomes | src/local_recall/lifecycle/gate.py:209-258 | Without an active generation nothing is cancelled, a fault keeps what drains, and OFF keeps just the events with operations in flight. |
| GateOutcomes.WorkOutcomes | src/local_recall/lifecycle/gate.py:264-303 | Who is admitted, with which permit, and what a release takes back, on states and generations alone. |
| CreditLedgerObject.CreditLedger.TryAcquire | src/local_recall/pipeline/credits.py:19-25 | Succeeds exactly while fewer credits than the capacity are in use, and takes one of this generation. |
| CreditLedgerObject.CreditLedger.Release | src/local_recall/pipeline/credits.py:27-37 | Returns one credit of the generation, or raises when there is none. |
| CreditLedgerObject.CreditLedger.ReleaseIfAcquired | src/local_recall/pipeline/credits.py:39-50 | Returns one credit of the generation if there is one, and says whether. |
| CreditLedgerObject.CreditLedger.InUse | src/local_recall/pipeline/credits.py:57-59 | The sum over the dictionary is the number of credits in use. |
| CreditLedgerObject.CreditLedger.InUseFor | src/local_recall/pipeline/credits.py:61-63 | The count of one generation. |
| StageActorObject.StageActor.HandleParts | src/local_recall/pipeline/actors.py:218-274 | On every path the input credit is returned exactly once, unless the header names no generation; exactly one counter moves, the verdict is the one whose condition holds (`Due`), and the stage is faulted exactly by a protocol, processor, encoder or sink failure. |
| StageActorObject.StageActor.Work | src/local_recall/pipeline/actors.py:221-268 | Which answers of decoder, token, gate, processor and socket lead to which verdict, and what each verdict does to the output credit, the output queue and the flags. |
| StageActorObject.VerdictsExactly | src/local_recall/pipeline/actors.py:218-337 | Exactly one verdict is due: persisted, forwarded, lost, dropped or failed, each with its own condition on the answers. |
| StageActorObject.GenerationsCount | src/local_recall/pipeline/actors.py:339-362 | What a drain counts: every pulled message whose header can be read, once. |
| StageActorObject.StageActor.SendOutput | src/local_recall/pipeline/actors.py:323-337 | A credit is kept exactly for an item that left or whose encoding raised; a failed send gives it back. |
| StageActorObject.StageActor.Drain | src/local_recall/pipeline/actors.py:339-362 | Draining returns one credit, by generation, for every queued message whose header can be read. |
| StageActorObject.ForwardedItemsAreValid | src/local_recall/pipeline/actors.py:300-321 | What a stage forwards has the next stage and the source's id, generation and revision, and passed both generation checks in a stage that is not faulted. |
| PipelineIngressObject.Destroy | src/local_recall/pipeline/models.py:99-101 | Every byte of every frame becomes zero. |
| PipelineIngressObject.PipelineIngress.HandleOverload | src/local_recall/pipeline/ingress.py:112-123 | The newest item is dropped and zeroed, or replaces the coalesced one, which is zeroed and named; the survivor keeps its bytes. |
| PipelineIngressObject.PipelineIngress.Submit | src/local_recall/pipeline/ingress.py:48-65 | The status for every case of permit, credit and socket; a credit is held exactly for an item that went out or whose encoding raised; given-up buffers are zero, the slot's are intact, and a coalesced result names the item it replaced. |
| PipelineIngressObject.PipelineIngress.FlushCoalesced | src/local_recall/pipeline/ingress.py:67-86 | The slot empties exactly when its item went out or had become stale, and then its buffers are zero; otherwise item and bytes stay. |
| PipelineIngressObject.PipelineIngress.ClearCoalesced | src/local_recall/pipeline/ingress.py:88-96 | Clears and zeroes the slot for its own generation or for all, and touches nothing else. |
| PipelineIngressObject.PipelineIngress.HasCoalesced | src/local_recall/pipeline/ingress.py:98-102 | Whether the slot holds an item of the generation, or any. |
| BoundedPipelineObject.BoundedPipeline.WaitForQuiescence | src/local_recall/pipeline/runtime.py:246-252 | Without other activity the four waits and the slot check succeed exactly when none times out, no ledger holds a credit of the generation and the slot does not hold it. |
| BoundedPipelineObject.BoundedPipeline.SubmitRaw | src/local_recall/pipeline/runtime.py:192-225 | Refused exactly outside RECORDING and stale exactly for another generation, both without effect; otherwise cancellation, credit and socket decide between accepted, dropped, coalesced and a raising encoder. The gate ends as it began, and a submission that ends in an exception has its frames zeroed. |
| ProtocolTheorems.StepKeepsInv | src/local_recall/pipeline/actors.py:218-362 | Every step of every thread keeps the protocol's invariant. |
| ProtocolTheorems.RunKeepsInv | src/local_recall/pipeline/runtime.py:192-259 | So does every interleaving of any length. |
| ProtocolTheorems.CreditsAreConserved | src/local_recall/pipeline/credits.py:19-59 | In every run, per edge and generation, credits in use are queued messages, the message in process and the send in progress, plus one for every encoder that raised and every unreadable header; they never exceed the capacity; and they are exactly the holders' if and only if there was no such loss. |
| ProtocolTheorems.CommitsAreCurrent | src/local_recall/lifecycle/gate.py:104-116 | For the whole duration of a persistence operation its generation is active and the state is RECORDING or PAUSED. |
| ProtocolTheorems.NoCommitAfterInvalidation | src/local_recall/lifecycle/gate.py:187-258 | After an automatic pause, a stop or a fault has invalidated a generation, no continuation commits a record of it. |
| ProtocolTheorems.RetiredIsNeverCommitted | src/local_recall/lifecycle/gate.py:276-282 | A generation that is not active is never committed again, and what is committed stays. |
| ProtocolTheorems.CommittedGenerationsIncrease | src/local_recall/lifecycle/gate.py:104-116 | Committed generations never go back over a whole run. |
| ProtocolTheorems.QuiescenceIsSound | src/local_recall/pipeline/runtime.py:246-252 | If the drain of a generation ends without a failure, no credit, queued message, message in process, gate operation or coalesced frame of it exists at that moment or in any continuation, although each wait looked at its own time. |
| ProtocolTheorems.StopIsClean | src/local_recall/lifecycle/actor.py:376-398 | Whatever came before a start, reaching OFF again without a fault leaves nothing of any generation handed out since, nor its event. |
| ProtocolTheorems.FaultFreeStopEmptiesTheSystem | src/local_recall/lifecycle/actor.py:358-456 | A run without a fault that is at OFF has empty ledgers, queues, in-flight counts, events and slot, and idle stages. |
| ProtocolStops.StopIsCleanExactly | src/local_recall/lifecycle/actor.py:358-398 | In every run and under every interleaving, a stop from a session or from a fault ends clean for a generation if and only if no operation, credit or coalesced frame of it is left at its last step; that holds of every generation no fault cancelled; and then it is clean in every continuation. |
| ProtocolStops.FaultedStopIsCleanExactly | src/local_recall/lifecycle/actor.py:363-375 | From every reachable fault and under every interleaving: acknowledging it reaches OFF, clean for a generation if and only if, before the stop, no operation of it is registered and none of its credits is lost; and then it is clean in every continuation. |
| ProtocolStops.AcknowledgementLeaves | src/local_recall/pipeline/runtime.py:254-257 | Draining the stages one after another is sound: each answers at its own time among the steps of all other threads, and at the end nothing of the generation is left but what was lost before. |
| ProtocolFaults.FaultedStopCompletes | src/local_recall/pipeline/runtime.py:254-257 | From every reachable fault the steps of the owner and the stages alone bring the stop to its last step, without losing a credit. |
| ProtocolFaults.FaultedStopMayLeaveWork | src/local_recall/lifecycle/actor.py:363-418 | A concrete run: a fault during a submission, its drain timing out, and a stop that reaches OFF with the credit and the gate operation still held. |
| ProtocolProgress.OthersComeToRest | src/local_recall/pipeline/actors.py:218-362 | From every reachable state the ingress, the preflight and the stages can end what they do and empty every queue by their own steps, without the owner and without losing a credit. |
| ProtocolProgress.LostIsNeverClean | src/local_recall/pipeline/actors.py:330-336 | A generation that has lost a credit is clean in no continuation. |
| ProtocolTheorems.PersistedAreAcceptedInOrder | src/local_recall/pipeline/actors.py:218-337 | Persisted records are accepted submissions in order, each at most once, through all four stages in order, with unchanged id, generation and revision. |
| ProtocolOrigins.AcceptedWereSubmitted | src/local_recall/pipeline/runtime.py:203-221 | Every accepted item of every run is the record, frames and expected generation of one submission of that run, made while RECORDING under exactly that generation, with the session's revision. |
| ProtocolOrigins.PersistedWereSubmitted | src/local_recall/pipeline/runtime.py:203-221 | So every persisted record carries the identifier, generation and revision of such a submission. |
| ProtocolOrigins.FirstStageSeesSubmissions | src/local_recall/pipeline/ingress.py:48-65 | What the first stage has in hand is, frames included, what was submitted. |
| ProtocolOrigins.SlotChanges | src/local_recall/pipeline/ingress.py:67-123 | What every step does to the coalesced slot: overload keeps the newest, a flush takes out what went or is stale, the owner clears only what it drains. |
| ProtocolAccounts.SubmissionsAreAccountedFor | src/local_recall/pipeline/ingress.py:48-123 | Over every run each submission under the recording generation is accepted once, still waits, or was dropped by a step that says why; nothing else is accepted. |
| ProtocolAccounts.RecordsAreAccountedFor | src/local_recall/pipeline/actors.py:218-337 | Over every run each accepted record is in exactly one place: inside the pipeline, persisted, or given up by one step for a named reason. |
| ProtocolAccounts.SubmissionChoices | src/local_recall/pipeline/runtime.py:192-221 | A submission begins exactly while RECORDING, is cancelled exactly when its generation is gone, and finds no credit exactly when the raw edge is full. |
| ProtocolAccounts.FlushChoices | src/local_recall/pipeline/ingress.py:67-86 | When a flush finds nothing, discards a stale item, finds no credit or sends. |
| ProtocolAccounts.StageChoices | src/local_recall/pipeline/actors.py:323-337 | A stage sends exactly while the next edge has room, and the last stage is never kept from the commit lock. |
| ProtocolStages.StagesBeginExactly | src/local_recall/pipeline/actors.py:221-242 | A stage begins to work exactly on a current message and unfaulted, and passes on only a fitting output whose source is still current. |
| ProtocolStages.StagesFaultExactly | src/local_recall/pipeline/actors.py:221-268 | What faults a stage, exactly; nothing takes a fault back. |
| ProtocolStages.FaultedStagesDoNoWork | src/local_recall/pipeline/actors.py:226-229 | A faulted stage that has let go of its message works on nothing in any continuation. |
| ProtocolStages.RetiredIsNeverWorkedOn | src/local_recall/pipeline/actors.py:230-242 | In no continuation does a stage begin to work on a message of an invalidated generation. |
| ProtocolDelivery.SubmissionsGetThrough | src/local_recall/pipeline/runtime.py:192-225 | While a session records and the others rest, a submission can be accepted, pass all four stages and be committed, leaving everything else as it was. |
| ProtocolDelivery.CoalescedItemsGetIn | src/local_recall/pipeline/ingress.py:67-86 | While its generation records and a raw credit is free, the coalesced item can be accepted, which empties the slot. |
| ProtocolTheorems.SessionsCarryTheStartRevision | src/local_recall/lifecycle/gate.py:284-292 | Every generation of a session, also those opened by automatic pauses, carries the revision its start was given. |
| LifecycleActorObject.LifecycleActor.DrainGeneration | src/local_recall/lifecycle/actor.py:421-456 | Which fault code a drain yields for every combination of failures, the first one winning. |
| LifecycleActorObject.LifecycleActor.EmitTransition | src/local_recall/lifecycle/actor.py:458-480 | An emission that fails closes the gate with a fault unless it announces one; the mutual recursion terminates. |
| LifecycleActorObject.LifecycleActor.EnterFault | src/local_recall/lifecycle/actor.py:405-419 | FAULTED is entered once, reported, and drained on request. |
| LifecycleActorObject.LifecycleActor.HandleStart | src/local_recall/lifecycle/actor.py:192-229 | The whole new state and reply for every state, configuration, sink answer and preflight actor. |
| LifecycleActorObject.LifecycleActor.HandlePreflightComplete | src/local_recall/lifecycle/actor.py:231-265 | Stale results are ignored; a failed one faults; a latched or requested block pauses and drains; else recording. |
| LifecycleActorObject.LifecycleActor.HandlePause | src/local_recall/lifecycle/actor.py:267-283 | Latches the manual pause in RECORDING and PAUSED and nowhere else. |
| LifecycleActorObject.LifecycleActor.HandleResume | src/local_recall/lifecycle/actor.py:285-303 | Refused while an automatic block is latched; otherwise clears the manual pause. |
| LifecycleActorObject.LifecycleActor.HandleBlock | src/local_recall/lifecycle/actor.py:305-333 | A lock is not weakened by idleness; an inactive state only latches; an active one is invalidated, paused and drained. |
| LifecycleActorObject.LifecycleActor.HandleRelease | src/local_recall/lifecycle/actor.py:335-356 | Only the matching release clears the latch, and only without a manual pause does recording resume. |
| LifecycleActorObject.LifecycleActor.HandleStop | src/local_recall/lifecycle/actor.py:358-398 | From FAULTED only the buffers are cleared; a session is drained before OFF, and a failing drain faults. |
| LifecycleActorObject.LifecycleActor.HandleFault | src/local_recall/lifecycle/actor.py:400-403 | Idempotent in FAULTED, otherwise enters it with a drain. |
| LifecycleActorObject.LifecycleActor.OnStart | src/local_recall/lifecycle/actor.py:135-149 | An unreadable configuration faults; a permitted one starts. |
| LifecycleActorObject.LifecycleActor.OnStop | src/local_recall/lifecycle/actor.py:171-179 | Stopping the actor stops the session, and faults if that ended neither OFF nor FAULTED. |
| ActorTheorems.LatchesHold | src/local_recall/lifecycle/actor.py:192-403 | After every message sequence and whatever fails: RECORDING means no manual pause and no automatic block, a manual pause means PAUSED or FAULTED, and the state is never STOPPING or PRIVACY. |
| ActorOutcomes.EveryMessageEnds | src/local_recall/lifecycle/actor.py:135-403 | The state after every message, from what it asks for, the latches and the answers of sink and coordinator. |
| ActorOutcomes.EveryMessageLatches | src/local_recall/lifecycle/actor.py:192-403 | What every message makes of the manual pause and the automatic block, however it is answered. |
| ActorOutcomes.APauseHolds | src/local_recall/lifecycle/actor.py:267-283 | A pause asked for in RECORDING or PAUSED holds over every sequence of messages without a resume or a stop. |
| ActorOutcomes.RecordingBeginsExactly | src/local_recall/lifecycle/actor.py:231-356 | Recording begins exactly on an accepted preflight, a resume without a block or the matching release without a manual pause, when the sink answers. |
| ActorOutcomes.RecordingGoesOnExactly | src/local_recall/lifecycle/actor.py:192-403 | The messages through which recording goes on. |
| ActorReports.EveryMessageReports | src/local_recall/lifecycle/actor.py:458-480 | What every message announces first, in every field, and that nothing else is announced. |
| ActorReports.EveryMessageDrains | src/local_recall/lifecycle/actor.py:421-456 | Which generation every message drains first. |
| ActorReports.RepliesTell | src/local_recall/lifecycle/actor.py:489-502 | A reply says that something changed exactly when something was announced, and is accepted exactly when it neither faulted nor was declined. |
| ActorReports.DrainReports | src/local_recall/lifecycle/actor.py:421-456 | The first call of a drain that fails names the fault; without a generation only clearing can. |
| ActorTheorems.WhatClearsTheLock | src/local_recall/lifecycle/actor.py:241-244 | A latched SESSION_LOCKED is given up exactly by SESSION_UNLOCKED or by an accepted preflight result carrying IDLE. |
| ActorTheorems.TheLockHolds | src/local_recall/lifecycle/actor.py:305-356 | Over every sequence without those two the lock stays latched and nothing records, through stops, restarts and faults. |
| ActorTheorems.IdlePreflightReplacesTheLock | src/local_recall/lifecycle/actor.py:241-244 | A concrete sequence of messages that ends recording although the owner received no SESSION_UNLOCKED since the lock was latched. |
| SessionPreflight.OnlyUnlockedSessionsLoseTheLock | src/local_recall/session/safety.py:594-624 | With the session's preflight, a latched lock is given up exactly by SESSION_UNLOCKED or by an accepted preflight that saw the session unlocked and idle. |
| SessionPreflight.NoRecordingWithoutAnUnlock | src/local_recall/session/safety.py:594-624 | Over every run from a latched lock, whatever the base preflight says: if the lock is gone or capture records, SESSION_UNLOCKED was received or a preflight saw the session unlocked. |
| SessionPreflight.CheckReports | src/local_recall/session/safety.py:594-624 | What the session preflight reports for every base result and observation. |
| SessionPreflight.LockedSessionsStartPaused | src/local_recall/session/safety.py:594-624 | A start whose preflight does not see the session unlocked latches the lock and ends PAUSED, or FAULTED when the sink or the drain fails. |
| ActorTheorems.TheTrailIsAPath | src/local_recall/lifecycle/actor.py:458-480 | Audit attempts form a contiguous path of legal transitions with generations that never go back, ending at the present state; an undelivered one is followed by the fault it caused unless it announced one. |
| ActorTheorems.TheGateNeverRefuses | src/local_recall/domain/lifecycle.py:47-102 | Over every sequence of messages, no gate operation of a handler, of the start, stop and failure hooks, of a fault or of a failed announcement raises. |
| ActorProtocol.ProtocolProjects | src/local_recall/lifecycle/actor.py:358-456 | The protocol's control steps are exactly the owner's automaton where the other threads permit them. |
| ActorProtocol.MessagesArePaths | src/local_recall/lifecycle/actor.py:151-190 | Every message, with every answer of sink and coordinator, is a path of that automaton from Ready to Ready ending in the state the handler leaves. |
| ActorProtocol.HistoriesArePaths | src/local_recall/lifecycle/actor.py:151-190 | So is every history of messages. |
| ActorRuns.OthersCanPermit | src/local_recall/lifecycle/gate.py:187-258 | In every reachable state, whatever the owner's next step is, the other threads can permit it by their own steps, unless it waits for an edge that has lost a credit of its generation. |
| ActorRuns.LostIsNeverPermitted | src/local_recall/pipeline/credits.py:65-73 | And such a wait sees zero in no continuation. |
| ActorRuns.CommitLockIsGivenUp | src/local_recall/lifecycle/gate.py:104-116 | From every reachable state the persisting stage alone has steps after which the commit lock is free and the owner stands where it stood. |
| ActorRuns.SlotLockIsGivenUp | src/local_recall/pipeline/ingress.py:66-86 | And so has the ingress alone for the lock of the coalesced slot. |
| ActorRuns.HistoriesRun | src/local_recall/lifecycle/actor.py:151-190 | Every history of messages, with every answer of sink and coordinator, is a run of the whole protocol from its beginning that ends in the gate the actor leaves. |
| ActorRuns.HistoriesGoOn | src/local_recall/lifecycle/actor.py:151-190 | The same from the middle of any run that has lost no credit, once the other threads have come to rest. |
| PngFilters.PaethIsNearest | src/local_recall/capture/png.py:211-220 | The predictor is the neighbour nearest to left + up - upper left, ties going to left, then up (RFC 2083, section 6.6). |
| PngFilters.RowRoundTrip | src/local_recall/capture/png.py:160-184 | Undoing any filter of RFC 2083 gives back the row it was applied to. |
| PngFilters.ImageRoundTrip | src/local_recall/capture/png.py:154-187 | So for whole images with any independent choice of filter per row. |
| PngFilters.RowsFailOnlyOnFilters | src/local_recall/capture/png.py:183-184 | Unfiltering fails exactly when some row has a filter code above four. |
| PngPixels.UndoSub | src/local_recall/capture/png.py:166-168 | The in-place loop computes the unfiltered row, the first pixel staying as it is. |
| PngPixels.UndoUp | src/local_recall/capture/png.py:169-171 | The in-place loop computes the unfiltered row from the row above. |
| PngPixels.UndoAverage | src/local_recall/capture/png.py:172-176 | The in-place loop computes the unfiltered row from both neighbours' floor mean. |
| PngPixels.UndoPaeth | src/local_recall/capture/png.py:177-182 | The in-place loop computes the unfiltered row from the predictor over three neighbours. |
| PngPixels.WriteRgb8Row | src/local_recall/capture/png.py:190-208 | Writes exactly three bytes per pixel, gray replicated, RGB copied, alpha dropped, and leaves the rest of the target alone. |
| PngPixels.UnfilterAndConvert | src/local_recall/capture/png.py:154-187 | All rows converted into exactly 3 * width * height bytes, or the unsupported filter. |
| PngPixels.FilteredImagesDecode | src/local_recall/capture/png.py:154-208 | For every image, one, three or four channels and any filters, the pixels are the RGB rendering of the rows that were filtered. |
| PngPixels.RgbImageAt | src/local_recall/capture/png.py:190-208 | Every byte of the result is the component of the pixel at its place. |
| PngContainer.ReadsBack | src/local_recall/capture/png.py:138-151 | Reading a chunk undoes printing it, wherever it stands. |
| PngContainer.PrintsBack | src/local_recall/capture/png.py:243-249 | A chunk that is read is, byte for byte, the print of what was read. |
| PngContainer.HeaderRoundTrip | src/local_recall/capture/png.py:76-103 | A printed header parses to its dimensions and channels, or to the bound error. |
| PngContainer.CollectIdat | src/local_recall/capture/png.py:106-120 | The chunk loop yields the IDAT payloads up to an IEND that ends the file, or the error of the first thing wrong. |
| PngContainer.InflateParts | src/local_recall/capture/png.py:121-135 | Inflating part by part under a limit of one byte more than expected accepts exactly complete streams of the expected size. |
| PngContainer.DecodePngRgb8 | src/local_recall/capture/png.py:43-67 | The decoder's result with every check in its order, and an accepted image within the output bound. |
| PngRoundTrip.AnyChunkingDecodes | src/local_recall/capture/png.py:43-151 | A file decodes to its image whatever the filters, the cutting of the stream into IDAT chunks and the other chunks between them, or fails with the bound it exceeds. |
| PngFormat.DecodesExactlyPngs | src/local_recall/capture/png.py:43-187 | The converse as well: a payload decodes, and to this image, if and only if it is the signature, a printed header, printed chunks and one last IEND chunk, within the bounds, whose stream inflates to the filtered scanlines of the image's rows. |
| PngFilters.RowsComeBack | src/local_recall/capture/png.py:154-187 | Whatever unfilters without an error is the filtered scanlines of the rows it unfilters to. |
| PngRoundTrip.EncodePngRgb8 | src/local_recall/capture/png.py:223-240 | The encoder's errors in order, and its file: header, one IDAT of the unfiltered stream, end. |
| PngRoundTrip.EncodedImagesDecode | src/local_recall/capture/png.py:43-249 | Decoding the encoder's output gives the same dimensions and the padding-free pixels, or the error of the caller's bound. |
| PngRoundTrip.PackedPixels | src/local_recall/capture/png.py:233-236 | Those pixels are the buffer's, component by component, for any stride padding. |
| PngRoundTrip.DefaultBoundsAccept | src/local_recall/capture/png.py:14-15 | With its defaults the decoder accepts an encoded image exactly when its pixels fit 512 MiB. |
| PngRoundTrip.EncoderTakes | src/local_recall/capture/png.py:223-232 | Which images the encoder takes, and which of its three errors any other gets. |
| PngBytes.FilterCodes | src/local_recall/capture/png.py:163-184 | Codes 0 to 4 are None, Sub, Up, Average and Paeth, and there are no others. |
| PngBytes.RestoresOne | src/local_recall/capture/png.py:160-184 | Said in arithmetic on the three neighbours (modulo 256, the Average by its two bounds, Paeth by distances), what a scanline byte restores is unique. |
| PngBytes.RowsAreRestored | src/local_recall/capture/png.py:154-187 | Unfiltering restores every byte of every row from its scanline and the row above, in arithmetic on the neighbours. |
| PngBytes.RenderedAt | src/local_recall/capture/png.py:190-208 | Gray is replicated, RGB copied, alpha dropped, byte by byte. |
| PngBytes.ChunkIsRead | src/local_recall/capture/png.py:138-151 | Where a chunk has its length, type, data and checksum, and which is refused. |
| PngBytes.HeaderIsParsed | src/local_recall/capture/png.py:76-103 | The header's fields on the payload's bytes, or the first thing wrong with them. |
| PngBytes.ChunksAreTaken | src/local_recall/capture/png.py:106-120 | Which chunks are skipped or taken, and what ends the file. |
| PngBytes.StreamExactly | src/local_recall/capture/png.py:121-135 | Exactly which pixel streams are accepted. |
| PngBytes.DecodedImageIsRestored | src/local_recall/capture/png.py:43-208 | Every byte of a decoded image is the component of a row restored from the inflated stream. |
| PngBytes.RefusedFor | src/local_recall/capture/png.py:43-135 | The first thing wrong with a payload names the error. |
| SemanticIndexObject.SemanticIndex.CurrentManifest | src/local_recall/index/semantic.py:123-128 | The manifest of the active snapshot, or the error when there is none. |
| SemanticIndexObject.SemanticIndex.Rebuild | src/local_recall/index/semantic.py:207-247 | The batch loop, its checkpoint after every batch, its errors and what each point of interruption leaves in the two files. |
| SemanticIndexObject.SemanticIndex.Add | src/local_recall/index/semantic.py:130-151 | The new active snapshot, ordered by identifier, or the error with the index unchanged. |
| SemanticIndexObject.SemanticIndex.Remove | src/local_recall/index/semantic.py:153-169 | The snapshot without the identifiers, or the error with the index unchanged. |
| SemanticIndexObject.SemanticIndex.RecordIds | src/local_recall/index/semantic.py:171-177 | The identifiers of the active snapshot in stored order. |
| SemanticIndexObject.SemanticIndex.Search | src/local_recall/index/semantic.py:184-205 | The errors in order and the ranked hits cut at the limit. |
| IndexTheorems.CompletedRebuild | src/local_recall/index/semantic.py:207-247 | When a rebuild completes, whatever checkpoint it found, the active identifiers are the documents' in order and the checkpoint is gone. |
| IndexTheorems.CrashesDoNotMatter | src/local_recall/index/semantic.py:217-246 | After any number of rebuilds, each stopped anywhere with its own batch size, one that runs to the end leaves what a single uninterrupted one leaves. |
| IndexTheorems.StaleCheckpointsSurvive | src/local_recall/index/semantic.py:402-408 | For any checkpoint, a completed rebuild is the fresh one exactly when the checkpoint that fits, if any, is part of the fresh one. |
| IndexTheorems.ChangedTextSurvives | src/local_recall/index/semantic.py:218-230 | For a checkpoint of the first n of other documents: the rebuild is the fresh one if and only if the identifiers do not fit, or those n documents were captured at the same times and embed alike. |
| IndexTheorems.CompletedWithTheOldVector | src/local_recall/index/semantic.py:218-247 | A concrete pair of rebuilds, the first cut off after one batch, the second of a changed text, that completes with the old text's vector. |
| IndexTheorems.ResumedRebuildFinishes | src/local_recall/index/semantic.py:228-247 | With a provider of one model and dimension a rebuild completes if and only if the documents and the batch size are valid and the checkpoint that fits, if any, is of that model and dimension or covers all documents; otherwise both files stay as they are. |
| IndexTheorems.ModelChangeBlocks | src/local_recall/index/semantic.py:233-237 | Whatever else the provider answers: a first answer of another model than the checkpoint's makes the rebuild fail, however it would be stopped, and leaves both files as they are. |
| IndexTheorems.AnotherModelIsRefused | src/local_recall/index/semantic.py:233-237 | A concrete rebuild, cut off and gone on with another model, that is refused. |
| IndexTheorems.HistoryKeepsOk | src/local_recall/index/semantic.py:123-247 | Over every history, failed and interrupted operations included, identifiers are unique and vectors have their snapshot's dimension. |
| IndexTheorems.OperationsRefineTheMap | src/local_recall/index/semantic.py:130-182 | Adding is map override, removing is restriction, clearing empties, and a failed operation changes nothing. |
| IndexTheorems.SearchReturnsTheBest | src/local_recall/index/semantic.py:184-205 | After every history of operations a search that answers returns hits of the map in the time window, ranked; what it leaves out ranks after everything it returns, and is left out only for the limit. |
| IndexTheorems.SearchSeesOnlyTheMap | src/local_recall/index/semantic.py:184-205 | Two histories that end in the same map, model and dimension give every search the same answer, whatever the stored order. |
| IndexOutcomes.SearchRanks | src/local_recall/index/semantic.py:184-205 | On the returned hits: the better score first, then the earlier capture, then the smaller identifier; each stands for an entry inside the two bounds, and one left out is worse than all of a full list. |
| IndexOutcomes.SearchAnswers | src/local_recall/index/semantic.py:184-205 | When a search answers, and with which error it does not. |
| IndexOutcomes.DocumentsRefused | src/local_recall/index/semantic.py:260-268 | Nothing empty, unredacted or double is embedded, and the index stays. |
| IndexOutcomes.AddAnswers | src/local_recall/index/semantic.py:130-151 | An add asks once, for every text in order, and takes only an answer of the index's model and dimension. |
| IndexOutcomes.AddedInOrder | src/local_recall/index/semantic.py:130-151 | After an add the entries stand in the order of their identifiers. |
| IndexOutcomes.RemoveAnswers | src/local_recall/index/semantic.py:153-169 | When a removal is refused, and what it reports. |
| IndexOutcomes.RemovedInOrder | src/local_recall/index/semantic.py:153-169 | An entry stays exactly when it is not named, and what stays keeps its order. |
| IndexOutcomes.RebuildAsksInBatches | src/local_recall/index/semantic.py:207-247 | A rebuild asks for its batches in order behind the checkpoint and depends on nothing else of the provider. |
| IndexOutcomes.RebuildNeedsAnswers | src/local_recall/index/semantic.py:228-237 | A first call that fails fails the rebuild. |
| IndexOutcomes.RebuildReports | src/local_recall/index/semantic.py:207-247 | The manifest of a completed rebuild. |
| AdaptiveControllerObject.AdaptiveController.Poll | src/local_recall/capture/adaptive.py:183-222 | The trigger, the error or the pending change for every context and time. |
| AdaptiveControllerObject.AdaptiveController.MarkCaptureStarted | src/local_recall/capture/adaptive.py:224-240 | Closes the open span exactly on a change of generation or revision. |
| AdaptiveControllerObject.AdaptiveController.ClassifyFrame | src/local_recall/capture/adaptive.py:242-275 | Whether a frame opens a span or joins the open one, and the span's counters. |
| AdaptiveTheorems.SpansAreSound | src/local_recall/capture/adaptive.py:242-309 | Over every run: frames of a span share their context and lie within the threshold of the first, any two within twice the threshold; neighbouring spans of one context without a reset between begin further apart; the counts the decisions reported since the last reset are the sizes of the spans since then and sum to the frames classified since then. |
| AdaptiveTheorems.DefensiveRaisesAreUnreachable | src/local_recall/capture/adaptive.py:208-212 | The raises for missing timestamps cannot happen, and the backoff multiplier stays a power of two in its bounds. |
| AdaptiveTheorems.SuccessUndoesOverload | src/local_recall/capture/adaptive.py:277-284 | One success undoes one overload exactly when the backoff was not saturated. |
| AdaptiveTheorems.ChangeIsDebounced | src/local_recall/capture/adaptive.py:196-222 | A context change is reported exactly when the same new key has been pending for the debounce time, and then pends no longer. |
| AdaptiveTheorems.PendingKeepsItsStart | src/local_recall/capture/adaptive.py:201-217 | Polling the same new key leaves its start where it was until the debounce time is over. |
| AdaptiveOutcomes.PollCallsFor | src/local_recall/capture/adaptive.py:183-222 | What a poll calls for, or refuses, on times and contexts alone. |
| AdaptiveOutcomes.PollRemembers | src/local_recall/capture/adaptive.py:183-222 | What a poll remembers of a change of place, and that it changes nothing else. |
| AdaptiveOutcomes.CadenceIsChecked | src/local_recall/capture/adaptive.py:219-222 | A cadence is due exactly when the put-off interval has passed in whole nanoseconds. |
| AdaptiveOutcomes.CaptureStarts | src/local_recall/capture/adaptive.py:224-240 | What a started capture leaves, and when it is refused. |
| AdaptiveOutcomes.OverloadsDouble | src/local_recall/capture/adaptive.py:277-281 | After any number of overloads the backoff is that power of two, up to the bound. |
| AdaptiveOutcomes.SuccessHalves | src/local_recall/capture/adaptive.py:283-284 | A success halves the backoff, down to one. |
| AdaptiveOutcomes.SettingsTaken | src/local_recall/capture/adaptive.py:125-158 | Which settings a controller takes, and how it begins. |
| AdaptiveOutcomes.FramesAreClassified | src/local_recall/capture/adaptive.py:242-309 | A frame joins the open span exactly when its context is the span's and enough bits agree with the span's first. |
| AdaptiveOutcomes.DistanceCountsDigits | src/local_recall/capture/adaptive.py:256-262 | The distance grows by one exactly at the binary digits that differ. |
| PerceptualHash.SamplesSpanTheImage | src/local_recall/capture/adaptive.py:453-456 | Sample coordinates lie inside, in order, and reach both edges. |
| PerceptualHash.PerceptualDhash | src/local_recall/capture/adaptive.py:392-425 | The loop gathers the 64 brightness comparisons into their number, or reports the bad argument. |
| PerceptualHash.HashDistance | src/local_recall/capture/adaptive.py:409-425 | A hash is a 64-bit number, and the distance of two hashes is the number of comparisons in which the images differ. |
| PerceptualHash.HashBit | src/local_recall/capture/adaptive.py:409-425 | Each bit of the hash compares two neighbouring samples, on the pixels themselves. |
| PerceptualHash.Hashed | src/local_recall/capture/adaptive.py:392-408 | Which images are hashed, and which argument is reported. |
| PolicyEngineObject.PolicyEngine.SetPrivacyMode | src/local_recall/policy/engine.py:196-203 | The new state, the generation moving exactly on a change. |
| PolicyEngineObject.PolicyEngine.SetSessionLocked | src/local_recall/policy/engine.py:205-212 | The new state, the generation moving exactly on a change. |
| PolicyEngineObject.PolicyEngine.MarkCurrentSensitive | src/local_recall/policy/engine.py:214-235 | Replaces the marker of its scope, or raises and changes nothing. |
| PolicyEngineObject.PolicyEngine.ClearTemporarySensitive | src/local_recall/policy/engine.py:237-249 | Removes the markers of the scope, the generation moving exactly on a change. |
| PolicyEngineObject.PolicyEngine.ReplacePolicy | src/local_recall/policy/engine.py:251-270 | A blank revision is refused; a policy that compiles replaces everything; one that does not makes the engine unhealthy. |
| PolicyEngineObject.PolicyEngine.TakeSnapshot | src/local_recall/policy/engine.py:284-301 | Expired markers are pruned, which is a change of its own. |
| PolicyEngineObject.PolicyEngine.EvaluateRules | src/local_recall/policy/engine.py:325-398 | The rule loop stops at the first rule it cannot judge and otherwise settles by denies, markers, built-ins, allows and default. |
| PolicyEngineObject.PolicyEngine.Authorize | src/local_recall/policy/engine.py:159-177 | An authorization exactly for an allowed and certain decision, with the generation of the pruned engine. |
| PolicyEngineObject.PolicyEngine.IsAuthorizationCurrent | src/local_recall/policy/engine.py:179-194 | The check on flags, revision, generation and capture generation. |
| PolicyTheorems.CurrentMeansUnchanged | src/local_recall/policy/engine.py:159-301 | After any run an authorization is current exactly when the engine equals the one that issued it, and then the original request is allowed again under the same generation: no ABA. |
| PolicyTheorems.MarkedContextsStayDenied | src/local_recall/policy/engine.py:214-235 | A marked window or workspace is denied for its capture generation until the marker expires, through every call that does not clear it. |
| PolicyTheorems.OrderOfRulesIsIrrelevant | src/local_recall/policy/engine.py:325-398 | Allowed and certain do not depend on the order or repetition of rules, and a certain decision is equal in every field. |
| PolicyTheorems.AllowedExactly | src/local_recall/policy/engine.py:303-398 | The exact condition under which a request is allowed. |
| PolicyOutcomes.RuleIsMatched | src/local_recall/policy/engine.py:421-498 | A rule matches exactly when every condition does; it is malformed when one is, a mismatch when none is and one says no, unknown otherwise. |
| PolicyOutcomes.AllowedOutright | src/local_recall/policy/engine.py:303-398 | Allowed exactly when nothing closes the engine, the metadata is usable, every rule that applies can be judged and none denies, no marker or built-in entry speaks against it, and a rule or the default allows; down to the single conditions. |
| PolicyOutcomes.ClosedReasons | src/local_recall/policy/engine.py:303-323 | The reasons that come before the rules, in order. |
| PolicyOutcomes.BlindReasons | src/local_recall/policy/engine.py:327-352 | The first rule that cannot be judged ends the evaluation without certainty. |
| PolicyOutcomes.SettledReasons | src/local_recall/policy/engine.py:359-398 | The reasons of a certain decision in order, named by the strongest rule. |
| PolicyOutcomes.SwitchesAre | src/local_recall/policy/engine.py:196-212 | Entering or leaving privacy or the lock is a change of its own, and entering forgets every marker. |
| PolicyOutcomes.ReplacementIs | src/local_recall/policy/engine.py:251-270 | What a replaced policy leaves, what one that does not compile leaves, and when the revision is refused. |
| PolicyOutcomes.MarkIs | src/local_recall/policy/engine.py:214-235 | A mark lasts a second to a day, replaces its scope's and stands last. |
| PolicyOutcomes.ClearingIs | src/local_recall/policy/engine.py:237-249 | Clearing removes the scope's markers, a change exactly when there were some. |
| PolicyOutcomes.SnapshotIs | src/local_recall/policy/engine.py:284-301 | A snapshot removes what has expired, a change exactly when something had. |
| PolicyOutcomes.AuthorizationIs | src/local_recall/policy/engine.py:159-177 | An authorization names what was asked and the pruned engine that gave it. |
| PolicyOutcomes.CurrentIs | src/local_recall/policy/engine.py:179-194 | When an authorization is current, field by field. |
| ActivityTheorems.Segment | src/local_recall/activity/clustering.py:106-117 | The loop over sorted records builds the groups and their clusters, or stops at the first error. |
| ActivityTheorems.GroupsAreCuts | src/local_recall/activity/clustering.py:110-116 | The groups concatenate to the sorted records, cut exactly where continuity fails. |
| ActivityTheorems.CutsAreUnique | src/local_recall/activity/clustering.py:110-116 | There is only one such cut. |
| ActivityTheorems.SegmentationIsTheCut | src/local_recall/activity/clustering.py:106-164 | With distinct identifiers segmentation fails only on vectors of different lengths; otherwise each cluster describes its group of that cut. |
| ActivityTheorems.InputOrderIsIrrelevant | src/local_recall/activity/clustering.py:109-109 | With distinct identifiers the clusters do not depend on the input's order. |
| ActivityTheorems.OnlyDimensionsCanFail | src/local_recall/activity/clustering.py:122-124 | On sorted records the negative-gap error is unreachable. |
| ActivityTheorems.CauchySchwarz | src/local_recall/activity/clustering.py:181-186 | The inequality the clamp relies on, over the reals. |
| ActivityTheorems.UpperClampIsIdle | src/local_recall/activity/clustering.py:184-186 | The cosine never exceeds one, so the upper clamp changes nothing. |
| ActivityTheorems.ScoreInRange | src/local_recall/activity/clustering.py:134-154 | The continuity score lies in [0, 1]. |
| ActivityOutcomes.ContinuesOutright | src/local_recall/activity/clustering.py:119-155 | When two neighbours continue each other, when not, and when comparing them is an error, with the weights and bounds written out. |
| ActivityOutcomes.SegmentsOutright | src/local_recall/activity/clustering.py:106-164 | Clusters list the records in time order, cut exactly where two neighbours do not go on with each other. |
| ActivityOutcomes.SegmentationFails | src/local_recall/activity/clustering.py:106-155 | With distinct identifiers segmentation fails exactly when two neighbours that could belong together have vectors of different lengths. |
| ActivityOutcomes.RepeatsAreRefused | src/local_recall/activity/clustering.py:84-98 | No cluster lists an identifier twice; a repeated one is the only other failure. |
| XwdMasks.MasksAcceptedExactly | src/local_recall/capture/xorg.py:470-480 | The mask check accepts exactly three pairwise disjoint runs of set bits that fit the pixel. |
| XwdMasks.ChannelIsItsBits | src/local_recall/capture/xorg.py:483-487 | A channel is the pixel shifted down and cut to the mask's width. |
| XwdMasks.ScalingRoundsToNearest | src/local_recall/capture/xorg.py:483-487 | Scaling yields 0 to 255, rounds to the nearest with no tie possible, and is monotone in the channel. |
| XwdDecoder.SignedCard32IsTwosComplement | src/local_recall/capture/xorg.py:490-491 | The signed reading of a 32-bit word. |
| XwdDecoder.DecodeXwd | src/local_recall/capture/xorg.py:378-467 | Every check in its order, and otherwise the decoded rows, every index in bounds. |
| XwdDecoder.DecodedAt | src/local_recall/capture/xorg.py:440-458 | Every byte of the result is the scaled channel of the pixel at its place, for both byte orders and any line padding. |
| XwdDecoder.TrustedRegionsAreInside | src/local_recall/capture/xorg.py:328-348 | A region is returned exactly when all four values are trusted and it lies inside the snapshot. |
| XwdDecoder.CropSnapshot | src/local_recall/capture/xorg.py:366-375 | The crop is the rows of the region, one after another, without padding. |
| XwdDecoder.CroppedAt | src/local_recall/capture/xorg.py:366-375 | No slice is cut short: byte k of a cropped row is byte k of that row of the window. |
| XwdOutcomes.HeaderFields | src/local_recall/capture/xorg.py:378-402 | Where the header has its fields, as big-endian words of the payload. |
| XwdOutcomes.DumpRefusedFor | src/local_recall/capture/xorg.py:378-439 | The first thing wrong with a dump names the error. |
| XwdOutcomes.MasksRefused | src/local_recall/capture/xorg.py:470-480 | What is wrong with the masks first. |
| XwdOutcomes.PixelIsRead | src/local_recall/capture/xorg.py:443-454 | Where a pixel stands and its value, low or high byte first. |
| XwdOutcomes.PictureAt | src/local_recall/capture/xorg.py:440-467 | Each component is the pixel's channel under the red, green or blue mask, brought to 255 and rounded to the nearest. |
| XwdOutcomes.PictureStands | src/local_recall/capture/xorg.py:458-467 | Where the picture stands, in two's complement. |
| XwdOutcomes.RegionUsed | src/local_recall/capture/xorg.py:328-348 | A region is used exactly when all of it is trusted and it lies inside. |
| XwdOutcomes.CropAt | src/local_recall/capture/xorg.py:366-375 | Each byte of a crop is the byte of the region at its place. |

## Left out

- CaptureGateObject.CaptureGate.BeginStart: the cancel event object is modelled as a flag per generation that is never forgotten, together with the set of dictionary keys; the event's waiting side is not modelled.
- CaptureGateObject.CaptureGate.OperationsQuiescent: one look at the dictionary; the waiting and its deadline are the free choice of the protocol's steps.
- CreditLedgerObject.CreditLedger.InUseFor: stands for one look of the wait for zero; the waiting and its deadline are the free choice of the protocol's steps.
- BoundedPipelineObject.BoundedPipeline.WaitForQuiescence: stated for a system in which nothing else moves; the interleaved claim is ProtocolTheorems.QuiescenceIsSound.
- ProtocolTheorems.QuiescenceIsSound: a stage that is asked to drain takes its messages off by its own receive, discard, finish and unreadable-header steps, which return and lose the same credits, and answers at a moment at which it is idle and its queue empty; how it is woken is not modelled.
- ProtocolStops.FaultedStopIsCleanExactly: of a generation whose operation ends during the stop it says nothing; StopIsCleanExactly then decides at the last step.
- ProtocolTheorems.StepKeepsInv: cancellation tokens, deadlines, timeouts and socket errors are free choices of a step, so nothing depends on them; that the cancellation registry delivers a cancellation is not modelled.
- StageActorObject.StageActor.HandleParts: the gate's and the token's answers are parameters, because other threads may change them between two looks; the interleaved behaviour is the protocol's. The zeroing of a raw item's frames and the processing flag are not modelled here; zeroing is modelled at the ingress.
- StageActorObject.StageActor.Drain: the pulled messages end where the queue is empty or the socket fails; the zeroing of raw frames is not modelled.
- PipelineIngressObject.PipelineIngress.Submit: the errors for a closed ingress and for a foreign thread are not modelled.
- PipelineIngressObject.PipelineIngress.FlushCoalesced: the error for a foreign thread is not modelled.
- BoundedPipelineObject.BoundedPipeline.SubmitRaw: the computation of the deadline and the check of the owning thread are not modelled.
- LifecycleActorObject.LifecycleActor.OnStart: binding the owner and starting the preflight actor are not modelled.
- LifecycleActorObject.LifecycleActor.OnStop: stopping the preflight actor and releasing the owner are not modelled.
- SessionPreflight.NoRecordingWithoutAnUnlock: whether the idle sources resolve to IDLE, and how the lock source is asked, are parameters.
- ProtocolTheorems.PersistedAreAcceptedInOrder: a sink that wrote its record and then raised counts as not committed.
- SemanticIndexObject.SemanticIndex.Add: the errors for vectors that are not finite and for a snapshot above the size limit are not modelled.
- PolicyEngineObject.PolicyEngine.MarkCurrentSensitive: times and lifetimes are whole units, and a scope's text is compared as it is.
- PolicyEngineObject.PolicyEngine.EvaluateRules: whether one condition of a rule matches is a judge's answer.
- PngContainer.InflateParts: the inflater is a function of the stream fed so far and the output limit; that feeding it in parts is the same as feeding the concatenation is part of that abstraction.
- PngRoundTrip.EncodedImagesDecode: compression is an abstract inverse pair that yields prefixes on prefixes (StoringIsInverse shows that one exists); the checksum is any function.
- AdaptiveTheorems.SpansAreSound: cadences and thresholds are reals, and the bit count of an exclusive or is the number of differing binary digits.
- ActivityTheorems.ScoreInRange: scores and vectors are reals and the square root is exact; floating-point rounding is not modelled.
- IndexTheorems.SearchReturnsTheBest: the similarity is any real-valued function of two vectors.
- PolicyTheorems.OrderOfRulesIsIrrelevant: title patterns, text folding, domain names, time windows and the built-in lists are decided by a judge; the built-in lists do not look at the rules.
- Fairness: that a run which can come to rest does so, or that a wait is ever woken, is not claimed.
- Message framing (pipeline/framing.py): an abstract encoding whose peeked generation, if the header can be read, is the decoded one.
- Stage metrics owners, status snapshots and the fault sink's events beyond whether it raised.
- Snapshot encryption, file permissions and atomic writes: a save is one atomic step and loading returns what was saved; the size limit of a snapshot is not modelled.
- Record identifiers in the index and in segmentation are numbers whose order is the order of their text; the policy's rule identifiers likewise.
- Wall clocks and time zones: times are integers.
- Qtile, Wayland and ActivityWatch sources, the IPC server, remote providers, the command line, the indicator, health checks, answering and rendering: I/O plumbing or single-branch validation.
- Secret detection: a regular-expression engine.
