# LifeLoop case engine: a verified model

LifeLoop steers the government services that follow a birth. Each case is a dependency graph of steps; an officer
releases every filing, authorities report back, the parent reports the consulate step, and a transactional outbox
drives the orchestrator. This project models that engine in Dafny and proves what it keeps in every run: no step is
ever done on LifeLoop's own word, nothing is filed that no officer released, no case stalls silently, the event
cascade ends, and at-least-once delivery has the effect of exactly-once.

`dafny verify dfyconfig.toml` checks the whole project.

## How it is laid out

- `StateMachine`, `LifeEventGraph`: the node state table; reachability, the downstream search and the bounded query.
- `CaseModel`, `CaseServices`: the rows of a case, and each service's unit of work as a function on them. A `Failure` is
  a raised exception: the unit of work is rolled back.
- `CaseSession`: the same services as they work, a session class whose methods change the tables row by row with the
  loops of the source; each method is proved equal to its function, and `Execute` to one step of a run.
- `CaseEvolution`, `CaseInvariants`, `CaseSteps`, `CaseFilingSteps`, `CaseServiceSafety`, `CaseConsumerSafety`,
  `CaseRuns`: the invariant, the changes every step may make, and runs of arbitrary steps, failures and crashes.
- `CaseOutcomes`, `CasePolicy`, `CaseTargets`: when each operation is accepted and what it leaves behind, what one run of
  the orchestrator starts, calls and escalates, and where each operation may move nodes.
- `CaseTheorems`, `CaseLiveness`, `CaseSubmission`, `CaseCascade`, `CaseFreshness`: the main results over runs.
- `CaseDeadEnds`, `CaseWitnesses`: where the code does less than its documentation, with exact conditions and runs.
- `BirthCase`: the six-service template as an instance of the arbitrary acyclic graph the other modules work on.
- `Delivery`, `DeliveryProgress`: workers, redelivery, races, failures and crashes, refining a sequential run, and what
  the workers get done. `OutboxRelay`: a pass of the relay, and the order events are handed over in. `EventPipeline`: relay,
  broker, dispatcher and pump over a live session.
- `CallbackDesk`, `CallbackSafety`, `CallbackOutcomes`, `CallbackSession`: consent, opt-out and the callback engine.
- `LoginLockout`, `IntakeDialog`, `IntakeAnswers`: the account lockout, the slot-filling intake and what it sends.

Event names that differ only by step are one event, `NodeMoved`; a document's title is its type; the officer access
policy is the `officiates` flag of an `Officer`. Times are integers. Clocks, authority replies, telephony outcomes, the
order a query returns ties in and everything the language engine hears are parameters. Settings (the calls a submission
may take, the coalescing and ringing times, the dispatch attempts, the relay's batch) have no fixed value.

## Where the code does less than it says

Each of these is reached: a lemma gives a run that leads to it, where a case is meant from every opening with a filing
that lacks at most one document.

- A late rejection is applied without a look at the officer gate. It wedges a step that has an undecided approval:
  approve, reject, prepare and request_documents all refuse from then on, and the case can never complete.
- request_documents may take a step out of PENDING before its predecessors are done, and the step can then be filed.
  It is the only operation that can. The impact view's comment that what it lists is held back holds without it.
- A filing whose step has left SUBMITTING for a state that does not lead on (request_documents does this) is sent to
  the authority but its answer cannot be recorded; the submitter is dead-lettered.
- A filing in DOCUMENT_MISSING with an approval left over from before is not taken back to the officer when its
  documents arrive.
- take reopens a resolved escalation without refreshing the case, and beside an open one for the same reason and step.
- The relay's "ordering is preserved" holds while the broker takes everything. A refused row is overtaken by younger
  ones while it is backed off, and only refused rows ever are.
- After a refused create_case the dialog repeats the call on any answer but a no, and without the Emirates IDs, which
  it believes are still stored.

These are gaps of one operation that its callers close, so no run of the source reaches them:

- set_status could claim an authority's document held although no step produced it. The HTTP schema does not let it.
- The callback engine's complete overwrites finished callbacks; its caller looks first.
- The callback engine looks at consent and opt-out again when it dials, "they may have changed"; with units of work that
  do not interleave, a scheduled callback always passes.

## Model

| member | source | states |
|---|---|---|
| LifeEventGraph.Downstream | backend/app/services/graph_service.py:202-218 | The search ends on every finite graph, cyclic or not, and returns without repetition exactly the other nodes the start reaches by one or more edges. |
| LifeEventGraph.BoundedQueryAgrees | backend/app/services/graph_service.py:220-230 | On an acyclic graph of at most limit + 1 nodes the bounded path query and the search name the same nodes. |
| LifeEventGraph.BoundedQueryMissesLongChain | backend/app/graph/neo4j_projection.py:85 | The bound is exact: a chain of limit + 2 nodes has a held step the query misses. |
| LifeEventGraph.EarliestMember | backend/app/services/graph_service.py:194-200 | In an acyclic graph every nonempty set of nodes has one with no predecessor in it, so something can always be unlocked first. |
| StateMachine.TableByColumn | backend/app/workflows/state_machine.py:5-21 | The state table read by row and by column is the same table. |
| CaseOutcomes.TransitionOutcome | backend/app/services/graph_service.py:95-142 | A transition is accepted exactly when the table allows it; one to the same state without a reason changes nothing; any other sets every time and the reason of one node as the state demands and nothing else of it, announces the move once, and is followed only by case-status news. |
| CaseOutcomes.RequestApprovalOutcome | backend/app/services/approval_service.py:31-51 | A filing is prepared exactly when it already waits or is READY, blocked, missing documents, stalled or rejected; it gains one undecided approval, waits and is announced. |
| CaseOutcomes.ApproveOutcome | backend/app/services/approval_service.py:62-78 | Approval is accepted exactly for an entitled officer, an undecided approval, a waiting node and documents in hand, each refusal has its own error, and it files exactly the next attempt's key. |
| CaseOutcomes.RejectOutcome | backend/app/services/approval_service.py:80-96 | Refusal is accepted exactly with more than white space as its reason, for an undecided approval whose node the table lets become BLOCKED; the reason is shown, and each error has its condition. |
| CaseOutcomes.RequestDocumentsOutcome | backend/app/services/approval_service.py:98-120 | Accepted exactly for known types and a node the table lets wait for documents; its pending approval is cancelled by that officer, no other approval changes, and the types are missing. |
| CaseOutcomes.RetryOutcome | backend/app/services/entity_service.py:170-180 | A retry is accepted exactly for a stalled node whose latest filing has no reference; the same filing and key are announced again. |
| CaseOutcomes.CallsOutcome | backend/app/services/entity_service.py:131-152 | Only a timeout or an outage is tried again, up to the limit, and the last answer counts; the consulate refuses at once. |
| CaseOutcomes.SubmitOutcome | backend/app/services/entity_service.py:114-168 | A submission of anything but a filing being submitted does nothing; an accepted one gets its reference and status and is SUBMITTED, a refused one blocks, any other stalls as a dependency, with the calls counted. |
| CaseOutcomes.PollOutcome | backend/app/services/entity_service.py:183-209 | A poll records and announces an answer about a filing the authority knows, unless a routine one brings no news. |
| CaseOutcomes.StatusOutcome | backend/app/services/entity_service.py:226-262 | Each authority status means one state, reason and stall kind; the node follows exactly when the table allows it and stays as it was otherwise; the request always records the status; success registers the outputs, a missing-documents status marks those named or else the first required. |
| CaseOutcomes.MarkMissingOutcome | backend/app/services/document_service.py:68-81 | Every known type of the list becomes missing with its source kept, rows are created for known types only, and no other document changes. |
| CaseOutcomes.RegisterOutputsOutcome | backend/app/services/document_service.py:137-145 | Every output the case tracks is held from the authority afterwards and no other document changes. |
| CaseOutcomes.MissingNothingIff | backend/app/services/document_service.py:64-66 | The list of missing documents is empty exactly when none that the node requires is missing or expired. |
| CaseOutcomes.UnlockedInOrder | backend/app/services/graph_service.py:194-200 | Steps are unlocked in node order, each once. |
| CaseOutcomes.UploadOutcome | backend/app/services/document_service.py:83-108 | An upload is accepted exactly for a document of the case the authority has not issued; afterwards a node waits for documents exactly when it lacks one, or is a filing with an approval left over; every other that waited is back with the parent or the officer, and no other node moves. |
| CaseOutcomes.VerifyOutcome | backend/app/services/document_service.py:110-122 | A check is accepted exactly for an uploaded document; it is verified and announced, and nothing else changes. |
| CaseOutcomes.SetStatusOutcome | backend/app/services/document_service.py:124-135 | An officer's status is taken as it is; uploaded, verified and not applicable let the waiting nodes look again. |
| CaseOutcomes.ReportOutcome | backend/app/services/consulate_service.py:35-77 | A milestone is accepted exactly while the step waits for the parent, is processing or stalled, the passport only with its number; booked means waiting, submitted processing, issued completed, delayed stalled and escalated; the report is the last. |
| CaseOutcomes.EscalateOutcome | backend/app/services/escalation_service.py:37-68 | One escalation is open for the reason and node afterwards; a row is added and announced, warm or cold, only when there was none. |
| CaseOutcomes.ResolveOutcome | backend/app/services/escalation_service.py:70-87 | An escalation is resolved and announced exactly while it is not, by an entitled officer. |
| CaseOutcomes.TakeOutcome | backend/app/services/escalation_service.py:89-97 | An entitled officer may take any escalation; it is in progress then and nothing else changes. |
| CaseOutcomes.TakeKeepsOpenOnceIff | backend/app/services/escalation_service.py:89-97 | Taking keeps open escalations unrepeated exactly when it does not reopen a resolved one beside an open one. |
| CaseOutcomes.WatchdogOutcome | backend/app/workers/jobs.py:43-67 | A pass stalls exactly the nodes filed or in process past their due date, as an SLA stall, and escalates the consulate exactly when it is silent with nothing reported; every other node stays. |
| CaseOutcomes.TopicOfEvent | backend/app/events/catalog.py:117-124 | The topic of every event. |
| CaseOutcomes.ConsumersOf | backend/app/events/handlers.py:33-77 | Which events each consumer is told of, event by event. |
| CaseOutcomes.DeliverOutcome | backend/app/events/consumers.py:119-131 | A delivery is refused to a consumer not registered, acknowledged if receipted, and else does what its service does, with the receipt. |
| CaseEvolution.TransitionEvolves | backend/app/services/graph_service.py:95-142 | A transition keeps done nodes done, sends none back to PENDING, keeps every row, and announces each change of state. |
| CaseTargets.ApplyTo | backend/app/workflows/case_orchestrator.py:92-112 | Every unit of work moves nodes only into its own target states, and only a delivery writes a receipt. |
| CaseServiceSafety.ApproveSafe | backend/app/services/approval_service.py:62-78 | An approval keeps the whole invariant, in order, with documents justified. |
| CaseServiceSafety.RequestDocumentsSafe | backend/app/services/approval_service.py:98-120 | request_documents keeps the invariant; it keeps the order too when its node has left PENDING or may leave it. |
| CaseServiceSafety.SubmitSafe | backend/app/services/entity_service.py:114-168 | A submission, with its retries and every answer, keeps the invariant. |
| CaseServiceSafety.ApplyStatusSafe | backend/app/services/entity_service.py:226-262 | Applying a received status keeps the invariant: only a success recorded for a referenced, released filing finishes a node. |
| CaseConsumerSafety.OrchestrateSafe | backend/app/workflows/case_orchestrator.py:67-217 | A run of the orchestrator keeps the invariant and starts a node only when all its predecessors are done. |
| CaseConsumerSafety.WatchdogSafe | backend/app/workers/jobs.py:43-67 | A watchdog pass keeps the invariant. |
| CaseConsumerSafety.ReportSafe | backend/app/services/consulate_service.py:35-77 | A parent's report keeps the invariant: the step is done only with the passport reported and its number present. |
| CaseRuns.OpenedSafe | backend/app/services/case_service.py:104-117 | A case as create_from_intake commits it satisfies the invariant. |
| CaseRuns.NextSafe | backend/app/services/container.py:181-190 | Every step, committed, rolled back or crashed, keeps the invariant, the dependency order outside request_documents, held documents outside set_status, and shows authorities filed keys only. |
| CaseRuns.ReachableSafe | backend/app/events/recorder.py:1-8 | The invariant holds in every world a case may come to from its opening by any steps, commits, rollbacks and crashes, and the rows have only evolved. |
| CaseTheorems.OpenedOutcome | backend/app/services/case_service.py:104-117 | A case opens with every step PENDING, the unattested documents missing, the others required, and CaseCreated and IntakeCompleted in its outbox. |
| CaseTheorems.DoneHasProvenance | backend/app/services/entity_service.py:226-262 | In every run a done filing has a received success on a referenced request whose approval an entitled officer granted; a done consulate step has its last report PASSPORT_ISSUED with the number. |
| CaseTheorems.HeldDocumentWasProduced | backend/app/services/document_service.py:137-145 | In every run a document held from an authority was produced by a done node, or an officer's set_status made it read as held while no producer was done. |
| CaseTheorems.ApiDeclaresNothing | backend/app/schemas/cases.py:131 | With the statuses the API accepts nothing is ever declared held: every such document was produced. |
| CaseTheorems.ReleaseConservation | backend/app/services/entity_service.py:97-112 | Attempts, entity requests and approved approvals of every node are equal in number in every run. |
| CaseTheorems.KeysAreReleased | backend/app/services/entity_service.py:97-224 | Filing keys are pairwise distinct, and every key an authority is shown, through retries, refiling, rolled-back submits and redelivery, belongs to a request an officer released. |
| CaseTheorems.CallsShowTheirKey | backend/app/services/entity_service.py:131-209 | A submission, committed or not, and a filing sent again after a poll, show exactly their filing's key. |
| CaseTheorems.GateHolds | backend/app/services/approval_service.py:31-51 | A node never has two pending approvals, and waits for an officer only with one. |
| CaseTheorems.DecisionsAreFinal | backend/app/services/approval_service.py:62-120 | A decided approval never changes again, and none is removed. |
| CaseTheorems.BeingSubmittedHasNoReference | backend/app/services/entity_service.py:114-180 | A request still being submitted has no external reference. |
| CaseTheorems.SubmittingNeedsAnOfficer | backend/app/services/entity_service.py:97-180 | A node becomes SUBMITTING only by an entitled officer's approval of its pending approval, or retry of a released filing. |
| CaseTheorems.EarlyHasACause | backend/app/services/approval_service.py:98-120 | In every run, if a node has left PENDING while a predecessor is not done, a request_documents step took it out of PENDING behind a predecessor not done. |
| CaseTheorems.OrderHolds | backend/app/services/graph_service.py:194-200 | In every run in which no request_documents takes a node out of PENDING too early, every started node has all its predecessors done. |
| CaseTheorems.FiledAfterAllAncestors | backend/app/services/graph_service.py:194-200 | In such a run all transitive predecessors of a started node are done. |
| CaseTheorems.ImpactIsHeld | backend/app/services/graph_service.py:202-230 | In such a run everything downstream of a node that is not done is PENDING, so the impact view lists held steps. |
| CaseTheorems.RequestDocumentsKeepsOrderIff | backend/app/services/approval_service.py:98-120 | request_documents keeps the dependency order if and only if its node has left PENDING or has all predecessors done. |
| CaseTheorems.SetStatusKeepsProvenanceIff | backend/app/services/document_service.py:124-135 | set_status keeps held documents produced if and only if it claims nothing new or a producer is done. |
| CaseTheorems.CompletionIsExact | backend/app/services/case_service.py:142-166 | In every run the case is COMPLETED exactly when all nodes are done, and CaseCompleted is then in the outbox once and otherwise not at all. |
| CaseTheorems.CompletionIsPermanent | backend/app/services/case_service.py:142-166 | A completed case stays completed in every further run. |
| CaseTheorems.RecordsAgreeWithStates | backend/app/services/graph_service.py:107-127 | In every run stalled_since is set exactly on STALLED nodes, cleared_at exactly on done ones, done nodes have no reason and no SLA date, and an SLA date comes with a submission time. |
| CaseTheorems.WatchdogLeavesNoneOverdue | backend/app/workers/jobs.py:43-55 | A watchdog pass always succeeds and leaves no SUBMITTED or PROCESSING node past its SLA date. |
| CaseLiveness.OrchestratorNeverRaises | backend/app/workflows/case_orchestrator.py:67-180 | No run of the orchestrator raises, so its handler dead-letters nothing. |
| CaseLiveness.OrchestrateClears | backend/app/workflows/case_orchestrator.py:67-112 | After a run of the orchestrator no node is left to unlock. |
| CasePolicy.OrchestratorCalls | backend/app/workflows/case_orchestrator.py:115-180 | Unless the event was answered before, a run asks for a callback if and only if the event calls for one, with that reason and subject, once: a filing cleared or completed and still there, a step blocked, rejected, missing documents, past its SLA or waiting for the parent, a cold escalation, completion; and never for another event. |
| CasePolicy.OrchestratorEscalates | backend/app/workflows/case_orchestrator.py:115-162 | A run opens an escalation if and only if the event is a step's SLA stall or rejection and none is open for it. |
| CasePolicy.OrchestratorStarts | backend/app/workflows/case_orchestrator.py:67-112 | A run starts exactly the PENDING nodes whose predecessors are all done: the parent's step waits for the parent, a filing that lacks a document for documents, any other for the officer; every other node stays as it is. |
| CasePolicy.CompletingChangesNothing | backend/app/workflows/case_orchestrator.py:165-169 | The routed completing step only makes sure: when all steps are done the case already reads COMPLETED. |
| CaseLiveness.UnlockableHasTrigger | backend/app/workflows/case_orchestrator.py:67-112 | In every run, while a node can be unlocked an event the orchestrator has not run on is in the outbox. |
| CaseLiveness.QuietCaseHasStarted | backend/app/workflows/case_orchestrator.py:67-112 | Once the orchestrator has seen every trigger, an incomplete acyclic case has a node neither PENDING nor done. |
| CaseSubmission.SubmittingIsOnItsWay | backend/app/services/entity_service.py:97-180 | In every run a SUBMITTING node has a release in the outbox that the submitter has not run on, of a filing of the node still being submitted. |
| CaseSubmission.SubmitterMovesOn | backend/app/services/entity_service.py:114-168 | Running the submitter on it always commits, whatever the authority answers, and takes the node out of SUBMITTING. |
| CaseSubmission.NoneRestsInReady | backend/app/workflows/case_orchestrator.py:92-112 | In every run no unit of work leaves a node in READY. |
| CaseSubmission.QuietCaseWaitsForSomeone | backend/app/workflows/case_orchestrator.py:67-112 | Once the orchestrator has seen every trigger and the submitter every release, an incomplete acyclic case has a node in a state that waits for an officer, the parent or an authority. |
| CaseCascade.DeliveryLowersPotential | backend/app/workflows/case_orchestrator.py:67-220 | Every committed first delivery strictly lowers an integer potential: weighted undelivered events plus a charge per PENDING node. |
| CaseCascade.CascadeEnds | backend/app/events/handlers.py:33-77 | From every reachable world, in any run of deliveries and crashes alone, the receipts written and the potential left never exceed the potential at the start: the cascade ends. |
| CaseFreshness.StatusIsDerived | backend/app/services/case_service.py:142-158 | In every run in which take reopens no resolved escalation unseen, the case reads COMPLETED iff all nodes are done; else escalated iff an escalation is unresolved; else waiting for the parent iff a node waits for the parent or documents; else waiting for the officer iff a node does; else active. |
| CaseFreshness.RefreshOutcome | backend/app/services/case_service.py:142-166 | A refresh gives an open case that status, tells of a change from and to it, and of completion once. |
| CaseFreshness.TakeKeepsFreshIff | backend/app/services/escalation_service.py:89-97 | take leaves the right case status if and only if it reopens no resolved escalation of an unfinished case without an open one. |
| CaseDeadEnds.WedgeIsForever | backend/app/workflows/state_machine.py:18 | No step of any kind ever moves a REJECTED node with an undecided approval, and its case never completes. |
| CaseDeadEnds.LateRejectionWedgesIff | backend/app/services/entity_service.py:256-257 | A late rejection wedges its node if and only if the node has an undecided approval and may become REJECTED. |
| CaseDeadEnds.OutcomeIsRecordedIff | backend/app/services/entity_service.py:139-168 | A submission's outcome is recorded if and only if the node may move to the state it leads to. |
| CaseWitnesses.FiledBeforeItsPredecessors | backend/app/services/approval_service.py:98-120 | From the opening of any case, any filing can be released in three steps before one of its predecessors has started. |
| CaseWitnesses.AcceptedFilingIsLost | backend/app/services/entity_service.py:139-168 | From the opening of any case with a filing, a run that ends with the authority accepting the filing it is shown leaves that filing as being submitted, without a reference. |
| CaseWitnesses.WedgeIsReached | backend/app/services/entity_service.py:226-262 | From the opening of any case with a filing, a run leads to a wedged node. |
| CaseWitnesses.LeftWaitingIsReached | backend/app/services/document_service.py:101-108 | From the opening of any case with a filing, a run leaves that filing waiting for documents it has, with an approval left over. |
| CaseWitnesses.StaleStatusIsReached | backend/app/services/escalation_service.py:89-97 | From any opening, opening, resolving and taking an escalation leaves a case status its escalations contradict. |
| CaseWitnesses.DoubleEscalationIsReached | backend/app/services/escalation_service.py:89-97 | From any opening, taking the first of two escalations for one cause leaves both open. |
| BirthCase.BirthIsAcyclic | backend/app/workflows/birth_expat.py:163-164 | The template's graph is acyclic. |
| BirthCase.ServicesRunInOrder | backend/app/workflows/birth_expat.py:3-5 | In such a run the six services run strictly one after the other. |
| BirthCase.DocumentsComeInOrder | backend/app/workflows/birth_expat.py:77-164 | No service of the template waits for a document that only itself or a later one issues, and no two issue the same. |
| BirthCase.BirthStarts | backend/app/workflows/case_orchestrator.py:67-112 | The first run sends the birth certificate to the officer, or lets it wait for documents when the marriage certificate is not attested, and leaves the other five PENDING. |
| BirthCase.ImpactSourcesAgree | backend/app/services/graph_service.py:220-230 | On the template's graph the graph database's ten-step query and the search agree. |
| CaseSession.Session.constructor | backend/app/services/graph_service.py:73-92 | The session opens on the case its template describes. |
| CaseSession.Session.Emit | backend/app/events/recorder.py:66-100 | A keyed event is recorded once, any other every time. |
| CaseSession.Session.Refresh | backend/app/services/case_service.py:142-166 | The status is derived, and a change of it announced, with CaseCompleted once. |
| CaseSession.Session.WriteColumns | backend/app/services/graph_service.py:107-127 | The columns written one after the other are those of the stamped node. |
| CaseSession.Session.Transition | backend/app/services/graph_service.py:95-142 | Equals the transition's specification; a refused one leaves the tables alone. |
| CaseSession.Session.FindUnlockable | backend/app/services/graph_service.py:194-200 | The predecessor lists yield exactly the PENDING nodes with all predecessors done, in node order. |
| CaseSession.Session.MarkMissing | backend/app/services/document_service.py:68-81 | The loop over the types does what its specification says and returns the titles marked. |
| CaseSession.Session.RegisterOutputs | backend/app/services/document_service.py:137-145 | The loop over the outputs does what its specification says. |
| CaseSession.Session.RequestApproval | backend/app/services/approval_service.py:31-51 | Equals its specification, error for error. |
| CaseSession.Session.Approve | backend/app/services/approval_service.py:62-78 | Equals its specification, error for error. |
| CaseSession.Session.Reject | backend/app/services/approval_service.py:80-96 | Equals its specification, error for error. |
| CaseSession.Session.RequestDocuments | backend/app/services/approval_service.py:98-120 | Equals its specification, error for error. |
| CaseSession.Session.Release | backend/app/services/entity_service.py:97-112 | Counts the attempt, files its key unless filed, and announces the release once per key. |
| CaseSession.Session.Call | backend/app/services/entity_service.py:131-152 | The retry loop ends with the first final answer or the third call, and counts the calls. |
| CaseSession.Session.Submit | backend/app/services/entity_service.py:114-168 | Equals its specification: only a request being submitted is filed. |
| CaseSession.Session.Retry | backend/app/services/entity_service.py:170-180 | Equals its specification, error for error. |
| CaseSession.Session.Poll | backend/app/services/entity_service.py:183-209 | Equals its specification: a changed status is recorded and announced. |
| CaseSession.Session.ApplyStatus | backend/app/services/entity_service.py:226-262 | Equals its specification, an invalid transition being ignored. |
| CaseSession.Session.ResumeAfterDocuments | backend/app/services/document_service.py:101-108 | The loop over the nodes never raises and does what its specification says. |
| CaseSession.Session.Upload | backend/app/services/document_service.py:83-99 | Equals its specification, error for error. |
| CaseSession.Session.Verify | backend/app/services/document_service.py:110-122 | Equals its specification, error for error. |
| CaseSession.Session.SetStatus | backend/app/services/document_service.py:124-135 | Equals its specification, error for error. |
| CaseSession.Session.Escalate | backend/app/services/escalation_service.py:37-68 | The search through open escalations decides whether one is added. |
| CaseSession.Session.Resolve | backend/app/services/escalation_service.py:70-87 | Equals its specification, error for error. |
| CaseSession.Session.Take | backend/app/services/escalation_service.py:89-97 | Equals its specification, error for error. |
| CaseSession.Session.ReportMilestone | backend/app/services/consulate_service.py:35-77 | Equals its specification, error for error. |
| CaseSession.Session.Watchdog | backend/app/workers/jobs.py:43-67 | The loops over the nodes never raise and do what the specification says. |
| CaseSession.Session.EntityAction | backend/app/workflows/case_orchestrator.py:92-112 | The loop over the plan never raises and does what its specification says. |
| CaseSession.Session.Orchestrate | backend/app/workflows/case_orchestrator.py:67-217 | Check, plan, act, evaluate and the routed steps equal the specification. |
| CaseSession.Session.Deliver | backend/app/events/consumers.py:119-131 | A receipted event is acknowledged; otherwise handler and receipt go together. |
| CaseSession.Session.Execute | backend/app/services/container.py:181-190 | A unit of work commits as a whole or leaves every table as it was: one step of a run. |
| Delivery.ExactlyOnce | backend/app/events/consumers.py:92-147 | Under every interleaving of workers, redelivery, duplicates, failures, lost races and crashes the committed rows are those of one sequential run, each delivery committed once, the receipts exactly those. |
| Delivery.ProcessedMeansReceipted | backend/app/events/consumers.py:92-109 | A PROCESSED row has a receipt from every consumer registered for its event. |
| Delivery.StatusesMoveForward | backend/app/events/consumers.py:104-109 | Outbox statuses only move from PENDING to PUBLISHED to PROCESSED or FAILED. |
| Delivery.PerformKeeps | backend/app/events/consumers.py:112-147 | Every action of a worker keeps the refinement. |
| DeliveryProgress.LoneWorkerDelivers | backend/app/events/consumers.py:92-147 | Published, received by an idle worker and left to it, an event whose handlers commit is PROCESSED, with the rows its consumers make one after the other. |
| DeliveryProgress.FailedMeansAllTriesLost | backend/app/events/consumers.py:112-147 | In every execution a row is FAILED only when some worker has lost every allowed try of one consumer on it. |
| DeliveryProgress.MessagesStay | backend/app/events/broker.py:49-53 | A message leaves the broker only by being received and acknowledged. |
| OutboxRelay.RelayPublishesPrefix | backend/app/events/relay.py:31-56 | A pass publishes a prefix of its ordered batch, backs off the first refused row, and changes no other. |
| OutboxRelay.RelayQueues | backend/app/events/relay.py:41-45 | Both messages of every published row are queued, and nothing but messages of the batch. |
| OutboxRelay.QueuedInBatchOrder | backend/app/events/relay.py:40-45 | The queue grows by exactly the messages of the batch, in its order, each event before its audit copy, up to the first refused publish. |
| OutboxRelay.OrderIsPreservedUnrefused | backend/app/events/relay.py:31-56 | In every run of commits, passes, passes cut off before their commit and settlements in which the broker refuses nothing, no event is handed over before every older one has been. |
| OutboxRelay.MessagesComeInOrder | backend/app/events/relay.py:31-56 | With no pass cut off either, the messages come in the order of the outbox. |
| OutboxRelay.OnlyRefusedAreOvertaken | backend/app/events/relay.py:46-52 | In every run, with any refusals, an event that a younger one was handed over before has been refused by the broker. |
| OutboxRelay.OvertakenIff | backend/app/events/relay.py:35-52 | A pass lets a younger event past an unsent row if and only if that is backed off, a younger row is due, and the batch and the broker reach past the due rows before it. |
| OutboxRelay.RefusedRowIsOvertakenIff | backend/app/events/relay.py:46-52 | After a pass that refuses a row, the next one lets a younger event past it if and only if its pause is not over, a younger row is due, and the pass reaches that. |
| OutboxRelay.OvertakingIsReached | backend/app/events/relay.py:46-52 | Two events, the first refused once: the second is handed over before it. |
| OutboxRelay.BackoffGrows | backend/app/events/relay.py:49 | The pauses double from one second on, never shrink and settle at thirty seconds. |
| EventPipeline.Pipeline.RelayOnce | backend/app/events/relay.py:31-62 | The loop over the batch equals the pass's specification. |
| EventPipeline.Pipeline.Drain | backend/app/events/broker.py:49-53 | Returns every queued message in order and empties the queue. |
| EventPipeline.Pipeline.FindRegistrations | backend/app/events/consumers.py:79-89 | The filtering loop returns the registered consumers in registry order. |
| EventPipeline.Pipeline.RunConsumer | backend/app/events/consumers.py:112-147 | True means that a try committed after the earlier ones raised, with the case as that try makes it and the receipt written; false that every allowed try raised on the case as it still is. |
| EventPipeline.Pipeline.Dispatch | backend/app/events/consumers.py:92-109 | Every registered consumer is run, whatever became of the others; the row is processed when each has its receipt and failed when one lost every try; an audit copy runs nothing. |
| EventPipeline.Pipeline.Pump | backend/app/events/pump.py:19-33 | An early exit leaves the queue empty, and with a healthy broker and no row backed off every event processed or dead-lettered; a row fails only when a consumer lost every try; with a healthy broker every message of every row sent is dispatched or queued; a pump out of rounds dispatched one in each. |
| EventPipeline.QuietMeansSettled | backend/app/events/pump.py:25-32 | After a healthy pass with nothing to publish and nothing queued, only backed-off rows are not settled. |
| CallbackSafety.NoDialAfterOptOut | backend/app/services/callback_service.py:108-159 | In every run an opt-in lies between an opt-out and any later dial of the case. |
| CallbackSafety.NoDialAfterRevoke | backend/app/services/callback_service.py:108-159 | In every run a new callback consent lies between a withdrawal and any later dial of the case. |
| CallbackSafety.DialledAtMostOnce | backend/app/services/callback_service.py:108-159 | No callback is dialled twice. |
| CallbackSafety.DialTimeCheckAlwaysPasses | backend/app/services/callback_service.py:117-126 | A scheduled callback always has a consent with a token and no opt-out when it is dialled. |
| CallbackSafety.FinalStatusesAbsorb | backend/app/services/callback_service.py:108-203 | A callback no longer open keeps its status and its updates in every further run. |
| CallbackSafety.CompleteAbsorbsIff | backend/app/services/callback_service.py:180-183 | Called directly, complete leaves finished callbacks alone if and only if its own is open, completed or cancelled. |
| CallbackSafety.EveryUpdateIsToldOnce | backend/app/services/callback_service.py:58-106 | Every update asked for is told by exactly one callback, of its case, in the order of asking. |
| CallbackSafety.AtMostOneScheduled | backend/app/services/callback_service.py:92-106 | A case has at most one SCHEDULED callback. |
| CallbackSafety.OptOutIsOneState | backend/app/services/consent_service.py:81-99 | An active opt-out, the SMS-only channel and the opt-out time are one and the same, and leave no callback open. |
| CallbackSafety.OneConsentPerType | backend/app/services/consent_service.py:36-65 | A case has at most one granted consent of each type. |
| CallbackSafety.OptInIssuesFreshToken | backend/app/services/consent_service.py:101-113 | Opting in leaves a granted callback consent with a token no consent of any case carried before. |
| CallbackSafety.PerformKeeps | backend/app/services/callback_service.py:58-213 | Every operation keeps the callback invariant and leaves finished callbacks alone. |
| CallbackOutcomes.DialDueOutcome | backend/app/services/callback_service.py:108-159 | From every reachable desk, dialling the due batch leaves a callback whose phone or browser rings DIALING since now with a new call of its own in progress or ringing, one whose line is dead FAILED with an unconnected call, and every other as it was. |
| CallbackOutcomes.DialledCallIsLive | backend/app/services/callback_service.py:127-153 | In every run a DIALING callback has a call of its own that rings, is in progress or has been transferred. |
| CallbackOutcomes.SweepUnansweredOutcome | backend/app/services/callback_service.py:161-178 | A sweep leaves unanswered exactly the callbacks ringing for longer than the limit, and ends exactly their calls. |
| CallbackOutcomes.EndOutcome | backend/app/services/call_service.py:238-248 | Hanging up on a ringing call leaves its callback unanswered; the end of any other live call completes its open callback, a transferred one staying transferred. |
| CallbackOutcomes.ConnectedOutcome | backend/app/services/call_service.py:100-120 | A resident's own call is in progress at once and belongs to no callback; only a call in progress is transferred. |
| CallbackOutcomes.AnswerOutcome | backend/app/services/call_service.py:168-178 | A ringing call of a callback may be answered, and is in progress then; no other may. |
| CallbackOutcomes.CancelOutcome | backend/app/services/callback_service.py:190-203 | Exactly the open callbacks of the case are cancelled, and exactly their ringing calls ended. |
| CallbackOutcomes.RequestOutcome | backend/app/services/callback_service.py:58-106 | An update goes by SMS after an opt-out, nowhere without consent, to the case's scheduled callback if there is one, keeping its reason unless urgent, and else to a new one due after the coalescing time. |
| CallbackOutcomes.TriggerNowOutcome | backend/app/services/callback_service.py:205-213 | Asked for by a person, the case's scheduled callback is due now. |
| CallbackOutcomes.CaptureOutcome | backend/app/services/consent_service.py:36-53 | A consent is written unless one is granted, a callback consent with the next token. |
| CallbackOutcomes.RevokeOutcome | backend/app/services/consent_service.py:55-65 | Withdrawing takes the grant, not the token, from the granted consent of the type, and cancels open callbacks for a callback consent. |
| CallbackOutcomes.OptOutOutcome | backend/app/services/consent_service.py:81-99 | Opting out adds an opt-out with its time, switches to SMS and cancels every open callback, unless opted out already. |
| CallbackOutcomes.OptInOutcome | backend/app/services/consent_service.py:101-113 | Opting in lifts every opt-out, withdraws the old callback consent and adds one with the next token; callbacks stay. |
| CallbackSession.Session.Capture | backend/app/services/consent_service.py:36-53 | Equals its specification. |
| CallbackSession.Session.Revoke | backend/app/services/consent_service.py:55-65 | Equals its specification. |
| CallbackSession.Session.OptOut | backend/app/services/consent_service.py:81-99 | Equals its specification. |
| CallbackSession.Session.OptIn | backend/app/services/consent_service.py:101-113 | The loop clears every opt-out row; the rest equals the specification. |
| CallbackSession.Session.CancelPending | backend/app/services/callback_service.py:190-203 | The loop closes exactly the open callbacks of the case, and the calls they ring on. |
| CallbackSession.Session.Request | backend/app/services/callback_service.py:58-106 | Equals its specification, and returns the callback the update went to. |
| CallbackSession.Session.TriggerNow | backend/app/services/callback_service.py:205-213 | Equals its specification: a scheduled callback becomes due at once. |
| CallbackSession.Session.DialDue | backend/app/services/callback_service.py:108-159 | The loop over the due batch equals its specification. |
| CallbackSession.Session.SweepUnanswered | backend/app/services/callback_service.py:161-178 | The loop closes exactly the callbacks that rang too long unanswered. |
| CallbackSession.Session.Finish | backend/app/services/call_service.py:217-229 | A call's end completes its callback only while that is open. |
| CallbackSession.Session.End | backend/app/services/call_service.py:238-248 | A declined call leaves its callback unanswered; any other ends as a finished call. |
| LoginLockout.User.Login | backend/app/services/auth_service.py:106-127 | Equals one attempt of the lockout's specification. |
| LoginLockout.User.SetPassword | backend/app/services/auth_service.py:184-188 | Setting a password clears the count and the lock. |
| LoginLockout.AttemptOutcome | backend/app/services/auth_service.py:106-127 | While the lock lasts every try is turned away and counts for nothing; else the right password logs in and clears the record, and a wrong one counts or locks. |
| LoginLockout.FewMistakesAreForgiven | backend/app/services/auth_service.py:106-127 | After fewer wrong passwords than the limit the right one still logs in. |
| LoginLockout.LockIsForItsTime | backend/app/services/auth_service.py:106-119 | The limit's last wrong password turns everybody away for exactly the lock time. |
| LoginLockout.LockoutBound | backend/app/services/auth_service.py:106-127 | In any run, any stretch without a login or a password set compares at most limit * (window / lock time + 1) wrong passwords in a window. |
| LoginLockout.BoundIsReached | backend/app/services/auth_service.py:115-119 | The bound is exact: n bursts of tries, one lock time apart, are all compared. |
| LoginLockout.BurstsFit | backend/app/services/auth_service.py:115-119 | Those n bursts fit in a window of n - 1 lock times. |
| LoginLockout.NoBoundWithoutLockTime | backend/app/services/auth_service.py:116-118 | With a lock time of nought every try is compared. |
| IntakeDialog.FillByTheWay | backend/app/agents/dialog/graph.py:162-168 | Opportunistic filling equals its specification. |
| IntakeDialog.TakeAnswer | backend/app/agents/dialog/graph.py:169-226 | The answer to each question equals its specification. |
| IntakeDialog.IntakeNode | backend/app/agents/dialog/graph.py:155-255 | The whole node equals one turn of the dialog. |
| IntakeDialog.CreatedOnlyWithConsent | backend/app/agents/dialog/graph.py:213-245 | For every conversation and every understanding of it, create_case is called only with every slot filled and after a yes to filing. |
| IntakeAnswers.CreationSendsWhatWasSaid | backend/app/agents/dialog/graph.py:162-245 | In every conversation each call of create_case sends the last yes or no to the marriage and the callback question, the name and nationality understood in the last answer to their own question, what was first heard by the way, and the Emirates IDs still held. |
| IntakeAnswers.SlotsSaidSo | backend/app/agents/dialog/graph.py:162-226 | At every moment each of these slots holds that value, so an answer to one question changes no other's slot. |
| IntakeAnswers.EidsAreSaidSo | backend/app/agents/dialog/graph.py:187-199 | The IDs held are the last ones heard that have not expired or been sent, and are marked recorded exactly when heard. |
| IntakeAnswers.TurnLeads | backend/app/agents/dialog/graph.py:169-255 | A refusal ends the intake, an answer without what was asked repeats the question, any other leads to the first later question still open or to create_case. |
| IntakeDialog.EarlierSlotsAreFilled | backend/app/agents/dialog/graph.py:227-236 | Every slot before the present question is filled. |
| IntakeDialog.QuestionsMoveForward | backend/app/agents/dialog/graph.py:227-249 | In every conversation the dialog never comes back to a question it has left, unless a creation was called in between. |
| IntakeDialog.CreationsAreRepeated | backend/app/agents/dialog/graph.py:238-249 | For every n a conversation leads to a dialog still in the intake after n refused creations. |
| IntakeDialog.OpportunityOnlySkips | backend/app/agents/dialog/graph.py:162-168 | What is filled by the way is never overwritten later and only skips questions. |
| IntakeDialog.LaterCreationsSendNoIds | backend/app/agents/dialog/graph.py:238-249 | Every call of create_case but the first sends no Emirates ID, though both are marked as recorded. |
| IntakeDialog.RefusedCreationRepeats | backend/app/agents/dialog/graph.py:247-249 | After a refused creation any answer but a no calls create_case again at once. |

## Left out

- CaseTheorems.FiledAfterAllAncestors: assumes a run in which no officer asks for documents too early, because request_documents breaks the order; the exact condition is RequestDocumentsKeepsOrderIff.
- EventPipeline.Pipeline.Pump: the clock stands still during a pump; time passing only makes more rows due.
- CaseSession.Session.Poll: the refiling call to an authority that lost an application changes no row here; the key it shows is accounted for in CaseRuns.
- Risk level, deadline, last-activity and completed_at columns, timeline, audit rows, notifications in the app and wording: they carry no protocol state.
- The consent events written between CaseCreated and IntakeCompleted when a case opens: no consumer modelled here changes a case on them.
- The access policy beyond whether an officer may officiate, case transfer and officer notes.
- Payload redaction and the fields sent to authorities.
- White space other than blanks, tabs and line ends in an officer's reason for refusing.
- The consulate's silence is an input of the watchdog, not computed from updated_at.
- The post-call webhook consumer and the agent's own events: they touch no row of the case engine.
- SMS, e-mail and telephony happen outside the transaction; the code does not make them exactly-once either.
- SQL isolation: units of work are taken to be serialisable. Only a consumer is split, into check, handler and commit.
- The PUBLISHED update that a concurrent consumer can miss, so that a row stays PUBLISHED: no liveness of statuses is claimed.
- Kafka, Redis and Neo4j clients, webhooks, HTTP routing, JWT and password hashing.
- Order of outbox rows created at the same instant: they are ordered by position.
- Calls bound to a case or a resident that no longer exists, which foreign keys rule out.
- Verification of a caller, status answers and the exception branch of the dialog, beyond its ending or not ending a call.
- The seeded demonstration data and the older orchestration prototype.
