# Kolyan: verified protocol models

Kolyan is an agent runtime on append-only durable logs. This project models its log
protocols, schedulers, incremental stream machines and retry loops in Dafny and proves
what they keep over every input, every interleaving and every crash.

    dafny verify dfyconfig.toml

| files | what they model |
|---|---|
| `LedgerTypes`, `Ledger` | the execution ledger: atomic appends, bounded queries, paged reads while others write |
| `ToolEvidence`, `EvidenceLaws` | the evidence format of prepared tool effects, and what of it is accepted, field by field |
| `EffectProtocol`, `EffectSafety`, `EffectReplay`, `EffectFolds`, `EffectAlone`, `EffectFirst`, `ExecutionRuntime` | `apply_effect` as atomic steps of many crashing callers, its safety, its replay, what its reads amount to, what one application writes event by event, and the program text |
| `Reconciliation`, `ReconciliationAlone`, `ReconciliationOutcomes`, `ReconciliationRuntime` | `reconcile_tool_effect` likewise |
| `FactTypes`, `FactJournal`, `FactAdmission`, `FactJournalLaws`, `InstanceRegistry`, `InstanceRecords` | the compare-and-append fact journal, exactly what it accepts, its laws, and the instance registry above it with the records it accepts |
| `Paths`, `Scheduler` | resource conflicts and the staging of a batch of tool calls |
| `Observation`, `OutputCap` | ordered telemetry over two bounded queues; one byte budget shared by two threads |
| `SseDecoder`, `SseEvents`, `SseStream` | incremental decoding of an event stream, and its events in terms of the stream's lines |
| `StepStream` | the step stream, its recording and its aggregation |
| `Blocks`, `Completions`, `MessageStream` | indexed content blocks, what a completed message holds, and the stream that builds it |
| `Utf8`, `HttpRetry`, `OpeningClients` | bounded texts, the retry policy and report, the two opening loops |
| `Coordinator`, `CoordinatorProtocol`, `CoordinatorSafety`, `CoordinatorRaces`, `CoordinatorOutcomes`, `CoordinatorRuntime` | execution lifecycle: state fold and scan, the interleaved steps of start, resume, recovery, direct admission, cancellation and release, who can own an ended execution, what state and records are in terms of the events, and the program text |
| `Selection` | validation of selected history |

## How it is modelled

- Identities that the program formats as strings or derives with SHA-256 are structured
  values, equal exactly when their coordinates are. JSON payloads are datatypes.
- Digests, name formatting, UTF-8 validity of raw bytes, JSON parsing, policy decisions,
  inspectors, executors, providers, clocks and random numbers are parameters: every
  statement holds for every such function or schedule.
- A protocol is given twice. As a state machine, each step makes at most one access to
  shared state, so a run is any interleaving of steps, crashes and foreign writes. As
  methods on a class over the in-memory store, the program's statements are proved to end
  exactly as one caller's steps do when nobody else moves (`Ends`), or against
  specification functions. Where other writers matter to one call, the method takes what
  they write before each of its accesses as an argument (`others`).
- What an operation answers and leaves is also said without those functions, in terms of
  the events, lines, drafts or calls themselves and with the program's bounds written out
  (lemmas ending in `ExactlyWhen`, `IsExact` or `AsWritten`, and the methods' `IsAsWritten`,
  `IsReport` and `IsOutcome`).
- Loops, in-place fields and early returns follow the program; each is proved against a
  function of its inputs or of the old state.

## What the code does that its descriptions do not say

- `execution_stages` finds an awaited call's stage by its id. Conflicting calls keep
  their order, whatever they claim, exactly when no two executable calls with one id
  precede a third (`Scheduler.OrderedExactlyWhenAddressable`). `resolve_prepared_batch`
  refuses repeated ids; `resolve_batch` does not, so its plans can put conflicting calls
  in one stage.
- The path test of `claims_conflict` is component nesting on all strings, including the
  root, whose two components are empty: "/" does not conflict with "/a"
  (`Paths.RootMeetsNoChild`).
- Approving a call approves its id. A newly approved call can stand in for a running call
  of the same id and move a later call to an earlier stage
  (`Scheduler.ApprovalCanHasten`). No approval does so, whatever is claimed, exactly when
  no call that could be approved shares the id of a running call that some call runs
  before and some call runs after (`Scheduler.HastensExactlyWhenEclipsed`).
- The event stream decoder keeps the last event id across frames and emits an event at
  a blank line without data while a kind, an id or a retry is set, unlike section 9.2.6 of
  the WHATWG HTML Living Standard. Its events are those of dispatching only with data
  exactly when no blank line is read in that state (`SseDecoder.SameExactlyWithoutStrays`,
  with an instance in `SseDecoder.IdAloneEmits`).
- The suspension scan does not stop at an uncertain effect, which the state fold treats as
  a failure. Scan and fold agree on whether an execution is suspended unless it has ended
  and its latest lifecycle event is a suspension (`Coordinator.AgreeExactlyWhen`,
  `Coordinator.UncertainEffectDisagrees`).
- A `recover` that finds the execution owned fails and leaves its readmission in the
  ledger, exactly when the execution is running or suspended and the readmission could be
  appended (`CoordinatorRuntime.ExecutionCoordinator.Recover`,
  `CoordinatorRuntime.OwnedRecoveryLeavesEvent`). A `start` that fails with nobody else
  moving changes nothing, from every state a run reaches
  (`CoordinatorRuntime.StartFailsCleanly`). One that another caller overtakes after its
  record can fail and leave that record (`CoordinatorRaces.StartFailsRecorded`).
- A start that has recorded its execution can be overtaken by a whole cancel and then take
  the execution: both succeed, and a cancelled execution is owned
  (`CoordinatorRaces.CancelledYetOwned`). An execution that has ended and is not owned can
  become owned exactly while a caller that read it earlier is on its way
  (`CoordinatorRaces.EndedCanBeOwnedExactlyWhen`). That caller may be one of the service's
  direct admissions, which read the state and take the execution without recording
  anything; once it has read, nothing others do stops it
  (`CoordinatorRaces.AdmissionIsNotStopped`).

## Model

| member | source | states |
|---|---|---|
| Ledger.InMemoryLedger.AppendChecked | crates/kolyan-ledger/src/lib.rs:188-211 | an append adds exactly one event with the next cursor, or fails for a cancelled execution or a taken identity or key and changes nothing |
| Ledger.InMemoryLedger.AppendUnlessCancelled | crates/kolyan-ledger/src/lib.rs:230-232 | cancellation check and append are one step |
| Ledger.GrownKeepsWellFormed | crates/kolyan-ledger/src/lib.rs:188-211 | whatever writers try, cursors stay 1, 2, 3, ... and identities and keys unique, and nothing is lost |
| Ledger.AppendedExactlyWhen | crates/kolyan-ledger/src/lib.rs:188-211 | an append is refused exactly for a cancelled execution, if that is checked, else for a taken identity or key |
| Ledger.InMemoryLedger.CheckedQuery | crates/kolyan-ledger/src/query.rs:55-76 | an invalid query is refused; a valid one answers with the bounded filter, and the port check never rejects it |
| Ledger.CheckPage | crates/kolyan-ledger/src/query.rs:55-76 | a page is accepted exactly when it is bounded, in scope and strictly ascending |
| Ledger.PageIsPage | crates/kolyan-ledger/src/lib.rs:215-225 | the in-memory query always yields such a page |
| Ledger.PageExactlyWhen | crates/kolyan-ledger/src/query.rs:24-53 | a page holds exactly the wanted events, up to its last if it is full |
| Ledger.InMemoryLedger.EventById | crates/kolyan-ledger/src/lib.rs:102-116 | lookup by identity through a bounded query finds the event with that identity or none |
| Ledger.FindIsStable | crates/kolyan-ledger/src/lib.rs:102-116 | a successful lookup keeps its answer however the log grows |
| Ledger.InMemoryLedger.ExecutionEventsAfter | crates/kolyan-ledger/src/lib.rs:119-143 | with arbitrary appends before every page, the answer is one filter over the log as it stands at the last page; the loop ends |
| Ledger.EventsOfIsExact | crates/kolyan-ledger/src/lib.rs:119-143 | that filter is exactly the execution's events above the cursor, each once, in strictly ascending order |
| Ledger.AfterNoTurns | crates/kolyan-ledger/src/lib.rs:119-143 | on a fixed log the paged read therefore equals the filter of that log |
| ToolEvidence.FromFacts | crates/kolyan-runtime/src/reconciliation/receipt.rs:70-92 | evidence rebuilt from saved payloads is returned only if it would write exactly those payloads, for this execution and effect |
| EvidenceLaws.BoundExactlyWhen | crates/kolyan-runtime/src/reconciliation/receipt.rs:23-92 | saved payloads give a binding exactly when call, scope, grant and derived request agree field by field and are what it writes |
| EvidenceLaws.AcceptedExactlyWhen | crates/kolyan-runtime/src/reconciliation/receipt.rs:152-264 | a receipt is accepted exactly when it is the one of a definitive result, without a proof or with one that attests this effect and result |
| EffectSafety.AtMostOnce | crates/kolyan-runtime/src/execution.rs:368-445 | over every interleaving of callers, crashes, cancels and foreign writes the executor is called at most once per execution and effect, only by the caller whose start record was appended |
| EffectSafety.NeverStartedAfterCancel | crates/kolyan-runtime/src/execution.rs:380-407 | no start record follows the cancellation of its execution |
| EffectSafety.EvidenceChain | crates/kolyan-runtime/src/execution.rs:166-255 | behind a generic receipt stand, in cursor order, its preparation, authorization and start, binding the same effect, input digest and grant |
| EffectSafety.RunKeepsInv | crates/kolyan-runtime/src/execution.rs:166-567 | every step of every caller keeps the protocol's invariant over log, callers and executor calls |
| EffectReplay.ReplayNeverExecutes | crates/kolyan-runtime/src/execution.rs:166-255 | a call for an effect that has started with this request never writes, never asks admission or executor, and reports receipt, cancellation or need of reconciliation, whatever others do meanwhile |
| EffectReplay.TerminalIsReceipt | crates/kolyan-runtime/src/execution.rs:462-535 | the first terminal result found in a reachable log is the receipt's disposition |
| EffectReplay.NoReceiptNoTerminal | crates/kolyan-runtime/src/execution.rs:462-535 | without a receipt there is no terminal result |
| EffectReplay.StatusIsCancelled | crates/kolyan-runtime/src/execution.rs:345-366 | a cancelled execution folds to the cancelled status, whatever else its ledger says |
| EffectFolds.StatusExactlyWhen | crates/kolyan-runtime/src/execution.rs:345-366 | the status is that of the last event that bears on it, and cancelled if any event says so |
| EffectFolds.TerminalIsFirst | crates/kolyan-runtime/src/execution.rs:462-535 | the terminal result is what the first receipt or projection of the effect tells, by its contents and slot; there is none without one |
| EffectAlone.ReapplyIsExact | crates/kolyan-runtime/src/execution.rs:166-255 | applying a started request again alone writes nothing and replies exactly: cancelled, else the receipt's disposition, else reconciliation required |
| EffectFirst.FirstApplication | crates/kolyan-runtime/src/execution.rs:166-460 | applying an effect nothing is saved about: for every decision and outcome the reply, all events written with kinds and payloads, and the executor calls; under a binding grant exactly one call and the five events of preparation, authorization, start, receipt and projection |
| EffectFirst.NextApplication | crates/kolyan-runtime/src/execution.rs:166-460 | applying a prepared, undecided effect again asks admission again and prepares nothing; an awaited decision awaited again writes nothing |
| EffectFirst.BarredApplication | crates/kolyan-runtime/src/execution.rs:166-188 | an incomplete request is refused and a cancelled execution reported, with nothing written or executed |
| EffectFirst.ToolApplication | crates/kolyan-runtime/src/execution.rs:259-343 | the effect of a prepared tool reports what its saved start and receipt say, and neither writes nor executes |
| EffectAlone.StepDescends | crates/kolyan-runtime/src/execution.rs:166-445 | every step brings a caller nearer its reply, so `apply_effect` ends |
| ExecutionRuntime.Runtime.ApplyEffect | crates/kolyan-runtime/src/execution.rs:166-255 | the program ends with exactly the log and reply of one caller's steps; for an effect nothing is saved about, one prepared or awaited, one of a prepared tool, an incomplete request and a cancelled execution, the reply, every event written and every executor call are given outright |
| ExecutionRuntime.Runtime.Continue | crates/kolyan-runtime/src/execution.rs:214-229 | likewise from the terminal lookup on |
| ExecutionRuntime.Runtime.ProbeOrphans | crates/kolyan-runtime/src/execution.rs:189-205 | evidence without a preparation is refused |
| ExecutionRuntime.Runtime.RecoverPreparedTool | crates/kolyan-runtime/src/execution.rs:259-343 | a tool effect's history is observed and never changed |
| ExecutionRuntime.Runtime.Decided | crates/kolyan-runtime/src/execution.rs:230-254 | from admission's decision on the program ends as one caller's steps do, which `EffectFirst.FirstApplication` writes out for each decision |
| ExecutionRuntime.Runtime.Await | crates/kolyan-runtime/src/execution.rs:239-252 | an awaited decision is recorded before the suspension |
| ExecutionRuntime.Runtime.Dispatch | crates/kolyan-runtime/src/execution.rs:368-445 | from a grant on likewise: a grant that binds is authorized before the start, any other refused |
| ExecutionRuntime.Runtime.Start | crates/kolyan-runtime/src/execution.rs:380-407 | only the winner of the start record executes; a cancelled or lost start does not |
| ExecutionRuntime.Runtime.Executed | crates/kolyan-runtime/src/execution.rs:407-460 | the executor's outcome is bound and then saved as receipt and projection |
| ExecutionRuntime.Runtime.AppendOnce | crates/kolyan-runtime/src/execution.rs:537-567 | a fact is appended once, or an equal saved one accepted, or the call fails |
| ExecutionRuntime.Runtime.Status | crates/kolyan-runtime/src/execution.rs:345-366 | the status loop, with its early exit, equals the fold over all events |
| ExecutionRuntime.Runtime.TerminalEffect | crates/kolyan-runtime/src/execution.rs:462-535 | the search returns the first verdict on the effect |
| Reconciliation.CommittedDecisionsAreBacked | crates/kolyan-runtime/src/reconciliation.rs:103-194 | over every interleaving and crash a committed decision stands behind the one receipt of its effect, saved earlier, with the same request and resolution |
| Reconciliation.ReceiptPreventsInspection | crates/kolyan-runtime/src/reconciliation.rs:103-166 | a call made once the receipt is saved never invokes the inspector, whatever happens meanwhile |
| Reconciliation.RunKeepsInv | crates/kolyan-runtime/src/reconciliation.rs:56-194 | every step keeps the invariant of log and callers |
| Reconciliation.SavedProofAgrees | crates/kolyan-runtime/src/reconciliation/receipt.rs:188-224 | a validated receipt with a proof of this request carries a valid committed resolution that agrees with it |
| Reconciliation.WrittenReceiptAgrees | crates/kolyan-runtime/src/reconciliation.rs:170-184 | the receipt a call writes is one that validation accepts |
| ReconciliationAlone.RerunRepeats | crates/kolyan-runtime/src/reconciliation.rs:56-194 | a successful call can be made again with any inspector: same answer, nothing written, no inspection |
| ReconciliationAlone.CrashIsRepaired | crates/kolyan-runtime/src/reconciliation.rs:136-166 | after a crash before a committed decision, calling again writes exactly that decision with the saved proof and does not inspect |
| ReconciliationAlone.SuccessSettles | crates/kolyan-runtime/src/reconciliation.rs:56-194 | whatever a call answers successfully is determined by the ledger when it returns |
| ReconciliationAlone.StepDescends | crates/kolyan-runtime/src/reconciliation.rs:56-194 | every step brings a call nearer its reply |
| ReconciliationOutcomes.ReadyExactlyWhen | crates/kolyan-runtime/src/reconciliation.rs:60-102 | the evidence that lets a reconciliation begin, event by event |
| ReconciliationOutcomes.CallIsAsWritten | crates/kolyan-runtime/src/reconciliation.rs:56-194 | a valid attestation that is not committed replies its resolution and adds exactly the decision, a valid committed one adds exactly receipt and decision, none is an inspector failure, an invalid one is refused with nothing written; saved receipts and decisions answer likewise |
| ReconciliationRuntime.ToolReconciler.ReconcileToolEffect | crates/kolyan-runtime/src/reconciliation.rs:56-194 | the program ends with exactly the log and reply of one caller's steps; for every kind of attestation and of saved history, the reply, the events written and whether the inspector is asked are given outright |
| ReconciliationRuntime.ToolReconciler.AppendIdentical | crates/kolyan-runtime/src/reconciliation.rs:274-305 | a fact is appended, or the saved one is accepted if it differs only in its cursor |
| ReconciliationRuntime.ToolReconciler.Resolve | crates/kolyan-runtime/src/reconciliation.rs:116-166 | a saved decision or receipt answers before the inspector is asked |
| FactJournal.MemoryFactJournal.Append | crates/kolyan-ledger/src/facts.rs:104-137 | the answer and the three maps after an append equal the specified ones; which batches that accepts is `FactAdmission.AcceptedExactlyWhen` |
| FactJournal.MemoryFactJournal.PlanAppend | crates/kolyan-ledger/src/facts.rs:214-261 | planning refuses reused identities, a stale position, then the first unresolved cause, in that order |
| FactJournal.ValidateBatch | crates/kolyan-ledger/src/facts.rs:174-212 | the first inadmissible draft of a batch decides the error; which batches have none is `FactAdmission.AdmittedExactlyWhen` |
| FactJournal.Retry | crates/kolyan-ledger/src/facts.rs:267-273 | a batch under a taken position is answered with the saved records exactly if it has their drafts in their order, and is a conflict otherwise |
| FactAdmission.AdmittedExactlyWhen | crates/kolyan-ledger/src/facts.rs:140-212 | a batch is admissible exactly within the bounds: 1 to 64 drafts, end position below 2 to the 63rd, distinct ids, nonzero versions, at most 32 causes at positions in range, payloads up to 131072 bytes, names of at most 256 bytes, dotted kinds |
| FactAdmission.KindExactlyWhen | crates/kolyan-ledger/src/facts.rs:157-172 | a kind is two or more nonempty segments of ASCII letters, digits, underscores and hyphens joined by dots |
| FactAdmission.AcceptedExactlyWhen | crates/kolyan-ledger/src/facts.rs:214-261 | a batch that is no retry is accepted exactly when it is admissible, continues its stream, reuses no identity, and every cause is a committed fact or an earlier draft, at its own stream and position |
| FactAdmission.RefusedWith | crates/kolyan-ledger/src/facts.rs:234-258 | a stale position carries what was expected and the head, and a missing cause the first unresolved identity |
| FactAdmission.EffectFollowsCause | crates/kolyan-ledger/src/facts.rs:243-258 | a batch whose second draft names its first is committed on the empty journal |
| FactJournal.MemoryFactJournal.ReadRecords | crates/kolyan-ledger/src/facts.rs:90-102 | a read selects the stream's records above a position, up to the limit |
| FactJournalLaws.RunKeepsInv | crates/kolyan-ledger/src/facts.rs:104-137 | in every reachable journal positions are 1..n, fact ids unique, the maps agree, and causes name earlier facts exactly |
| FactJournalLaws.RunExtends | crates/kolyan-ledger/src/facts.rs:104-137 | nothing committed is lost or changed by any later operations |
| FactJournalLaws.RetryForever | crates/kolyan-ledger/src/facts.rs:110-117 | a successful append repeated after any later operations returns the original records and changes nothing |
| FactJournalLaws.OtherBatchesFail | crates/kolyan-ledger/src/facts.rs:230-242 | any other batch that reuses a committed fact id or an occupied position fails and changes nothing |
| FactJournalLaws.NewBatchAccepted | crates/kolyan-ledger/src/facts.rs:214-261 | a new valid batch is accepted exactly when it continues the head, reuses no identity and all its causes resolve |
| FactJournalLaws.NewBatchCommits | crates/kolyan-ledger/src/facts.rs:118-137 | then its stream ends with exactly its drafts and no other stream moved |
| FactJournalLaws.CauseIsEarlier | crates/kolyan-ledger/src/facts.rs:243-258 | a cause was committed strictly before its effect |
| FactJournalLaws.CausalityIsAcyclic | crates/kolyan-ledger/src/facts.rs:243-258 | in no reachable journal is a fact, through any chain, a cause of itself |
| FactJournalLaws.ReadIsSlice | crates/kolyan-ledger/src/facts.rs:90-102 | a read of a reachable journal is the contiguous slice right after the position |
| InstanceRegistry.Registry.Reserve | crates/kolyan-server/src/instance_registry.rs:109-164 | with others committing before every journal operation: a proof is one that a load gives the owner; contention means that others alone committed at least 32 facts; an owner that holds a proof gets one or the load's refusal; left alone, the answer is exactly the held proof, the capacity refusal, the identity conflict or the next instance |
| InstanceRegistry.Registry.Attempt | crates/kolyan-server/src/instance_registry.rs:114-161 | one round answers, or others made progress and it committed nothing |
| InstanceRegistry.Registry.Load | crates/kolyan-server/src/instance_registry.rs:166-239 | the paged replay equals the replay of the whole stream as it stands when the load returns |
| InstanceRegistry.ReplayIsFaithful | crates/kolyan-server/src/instance_registry.rs:185-236 | an accepted replay knows one owner per record and one record per owner, at the record's own position |
| InstanceRegistry.InstancesIdentifyOwners | crates/kolyan-server/src/instance_registry.rs:185-236 | proofs held at any two moments name the same instance exactly when they are of the same owner, and then are the same proof |
| InstanceRegistry.HeldIsFound | crates/kolyan-server/src/instance_registry.rs:116-119 | an owner that once held a proof is found by every later load that is not refused |
| InstanceRegistry.CommittedIsLoaded | crates/kolyan-server/src/instance_registry.rs:123-154 | a reservation appended alone at a free head is what the next load gives its owner, at the next position |
| InstanceRegistry.CapacityIsKept | crates/kolyan-server/src/instance_registry.rs:120-147 | if all writers append below the capacity the stream never exceeds it |
| InstanceRegistry.LoadRefusals | crates/kolyan-server/src/instance_registry.rs:187-189 | a load reports capacity only of an overfull stream, and never contention |
| InstanceRecords.NextExactlyWhen | crates/kolyan-server/src/instance_registry.rs:185-236 | a replay goes on with a record exactly when it is the reservation of a new owner written for its own position, field by field |
| InstanceRecords.OwnerExactlyWhen | crates/kolyan-server/src/instance_registry.rs:256-272 | an owner is valid exactly when each coordinate is no blank, at most 256 bytes long and free of control characters |
| Paths.MeetIsNesting | crates/kolyan-policy/src/lib.rs:462-467 | the string test holds exactly when one path's components begin with the other's, and is symmetric |
| Paths.RootMeetsNoChild | crates/kolyan-policy/src/lib.rs:462-467 | the root does not meet its children |
| Paths.ScopeIsNesting | crates/kolyan-policy/src/lib.rs:64-76 | for every base: a scope contains the base without its trailing slashes and what lies strictly below the base without one; so with at most one trailing slash, exactly the paths whose components begin with the base's |
| Paths.JoinOfComponents | crates/kolyan-policy/src/lib.rs:462-467 | joining a path's components by slashes gives the path back |
| Scheduler.ConflictIsNesting | crates/kolyan-policy/src/lib.rs:446-470 | claims conflict, symmetrically, when one writes and no two known paths lie apart |
| Scheduler.ExecutionStages | crates/kolyan-policy/src/lib.rs:414-444 | the staging loops place every executable call by the first-stage rule, and an id is in some stage exactly when a call of that id is allowed, allowed with constraints, or has its required approval |
| Scheduler.StagedExactlyWhen | crates/kolyan-policy/src/lib.rs:414-421 | which ids are staged, by decision and approval alone: no denied and no unapproved id, every other |
| Scheduler.StagedOnce | crates/kolyan-policy/src/lib.rs:414-444 | with unique ids a staged id is in one stage only |
| Scheduler.SamePathConflicts | crates/kolyan-policy/src/lib.rs:446-470 | two claims on one path, or both on none, conflict exactly when one of them creates, updates, deletes, executes or delegates |
| Scheduler.PlanSeparates | crates/kolyan-policy/src/lib.rs:422-444 | with unique ids no call is staged twice, and of two conflicting calls the later is in a later stage |
| Scheduler.PlanIsComplete | crates/kolyan-policy/src/lib.rs:414-444 | the stages hold exactly the executable calls, each as often as it occurs |
| Scheduler.NoStageIsEmpty | crates/kolyan-policy/src/lib.rs:439-441 | no stage is empty |
| Scheduler.PlaceIsDepth | crates/kolyan-policy/src/lib.rs:422-442 | each call goes to the stage of its longest chain of conflicting predecessors, and conflicting calls to strictly increasing stages |
| Scheduler.ChainIsBounded | crates/kolyan-policy/src/lib.rs:422-442 | no chain of conflicting calls is longer than the depth says |
| Scheduler.LongestChain | crates/kolyan-policy/src/lib.rs:422-442 | and one is as long |
| Scheduler.StageCountIsMinimal | crates/kolyan-policy/src/lib.rs:422-442 | no assignment that separates conflicting calls uses fewer stages |
| Scheduler.ApprovalNeverHastens | crates/kolyan-policy/src/lib.rs:276-278 | unless a newly approved call can stand in for a running one of its id, approving more calls moves no running call to an earlier stage |
| Scheduler.HastensExactlyWhenEclipsed | crates/kolyan-policy/src/lib.rs:276-278 | no approval moves a running call to an earlier stage, whatever is claimed, exactly when no approvable call shares the id of a running call that some call runs before and some call runs after |
| Scheduler.ApprovalCanHasten | crates/kolyan-policy/src/lib.rs:400-411 | a batch whose last call moves from the third stage to the second by an approval |
| Scheduler.UniqueIsSafe | crates/kolyan-policy/src/prepared_batch.rs:19-33 | unique ids rule this out |
| Scheduler.OrderedExactlyWhenAddressable | crates/kolyan-policy/src/lib.rs:426-437 | conflicting calls keep their order whatever is claimed exactly when no two executable calls with one id precede a third |
| Scheduler.SampleMisplaces | crates/kolyan-policy/src/lib.rs:400-411 | otherwise there are claims under which two conflicting calls share a stage |
| Scheduler.ResolvePreparedBatch | crates/kolyan-policy/src/prepared_batch.rs:14-35 | a batch is refused exactly for the first corrupted preparation or repeated id; an admitted one has unique ids and is planned |
| Scheduler.UniqueIsAddressable | crates/kolyan-policy/src/prepared_batch.rs:19-33 | unique ids are enough under every set of approvals |
| Scheduler.StagesWithApprovals | crates/kolyan-policy/src/lib.rs:276-278 | staging with approvals follows the same rule, and is ordered for unique ids |
| Observation.Channel.Emit | crates/kolyan-sandbox/src/observation.rs:284-328 | an event joins the one queue, or is counted as a loss of its kind, exactly by receiver, number range and room |
| Observation.Channel.TryRecv | crates/kolyan-sandbox/src/observation.rs:189-203 | a receive gives the oldest accepted event, and nothing or the end only when none waits |
| Observation.Channel.PollRecv | crates/kolyan-sandbox/src/observation.rs:226-261 | likewise for a poll, with senders leaving in between and spent budgets; the end is reported only when all senders are gone |
| Observation.Channel.FillHeads | crates/kolyan-sandbox/src/observation.rs:213-225 | looking at both queues gives each waiting kind its head and changes nothing else |
| Observation.Channel.TakeHead | crates/kolyan-sandbox/src/observation.rs:262-273 | the head with the smaller number is taken |
| Observation.SmallerIsNext | crates/kolyan-sandbox/src/observation.rs:262-273 | the smaller head is the oldest waiting event, and both lanes still stand for the one queue |
| Observation.EmittedCarries | crates/kolyan-sandbox/src/observation.rs:307-327 | an accepted event enters its own lane only, with the next number |
| Observation.Channel.Conserved | crates/kolyan-sandbox/src/observation.rs:284-328 | emits equal delivered, queued, held and lost; delivered events are the accepted ones in order without a gap |
| Observation.Channel.LossesAddUp | crates/kolyan-sandbox/src/observation.rs:84-94 | at quiescence total losses equal lifecycle plus output losses, on 64 bits |
| Observation.Channel.CountTotal | crates/kolyan-sandbox/src/observation.rs:84-94 | the second count of a loss is a step of its own |
| Observation.Channel.BindContext | crates/kolyan-sandbox/src/observation.rs:153-162 | an oversized context is refused and counted, and otherwise there is one sender more |
| Observation.Channel.DropReceiver | crates/kolyan-sandbox/src/observation.rs:106-112 | after the receiver leaves nothing waits and nothing more is accepted |
| SseStream.Decoder.Push | crates/kolyan-protocol-sse/src/lib.rs:31-82 | a chunk is scanned byte by byte; a line that is not UTF-8 is an error at once, or set aside behind the chunk's events |
| SseStream.Decoder.TakeByte | crates/kolyan-protocol-sse/src/lib.rs:33-79 | each byte does what the scan says to line, frame and carriage return |
| SseStream.Decoder.TakeError | crates/kolyan-protocol-sse/src/lib.rs:85-87 | an error set aside is given once |
| SseStream.Decoder.Finish | crates/kolyan-protocol-sse/src/lib.rs:90-97 | an unfinished line must be UTF-8 and is dropped |
| SseStream.Collect | crates/kolyan-protocol-openai/src/responses/stream.rs:82-150 | driving the decoder over any chunks gives the outcome of the whole stream, and that is the events of its lines, field by field |
| SseDecoder.ScanIsReadingLines | crates/kolyan-protocol-sse/src/lib.rs:31-82 | that outcome is reading the lines of the input split at CR, LF or CRLF |
| SseDecoder.SplitExists | crates/kolyan-protocol-sse/src/lib.rs:33-40 | every input has such a split |
| SseStream.CollectTwice | crates/kolyan-protocol-sse/src/lib.rs:31-97 | decoders driven over two chunkings of the same bytes end with the same events and error, those of any split into lines |
| SseEvents.EventsAreExact | crates/kolyan-protocol-sse/src/lib.rs:43-79 | the events are one for each blank line before which something was collected, with the last kind, all data lines joined, and the last identity and retry |
| SseEvents.OutcomeIsExact | crates/kolyan-protocol-sse/src/lib.rs:31-97 | a stream gives the events of its lines before the first that is not UTF-8, and that line or else a rest that is not |
| SseDecoder.SameExactlyWithoutStrays | crates/kolyan-protocol-sse/src/lib.rs:51-63 | the events are those of dispatching only with data exactly when no blank line is read without data while a kind, an id or a retry is set |
| SseDecoder.StraysAreExtra | crates/kolyan-protocol-sse/src/lib.rs:51-63 | otherwise there is one event more for each such line |
| SseDecoder.IdAloneEmits | crates/kolyan-protocol-sse/src/lib.rs:51-63 | an id and two blank lines give two events without data |
| StepStream.ControlledStepStream.PollNext | crates/kolyan-core/src/step.rs:425-501 | one poll does what the specification says, and boundary and provider stream are there whenever they are polled |
| StepStream.RecordingStepStream.PollNext | crates/kolyan-core/src/step.rs:297-328 | one poll of the recording wrapper, likewise |
| StepStream.AnswerFollowsGrammar | crates/kolyan-core/src/step.rs:294-501 | every answer is allowed by the stream's grammar |
| StepStream.StartedIsFirst | crates/kolyan-core/src/step.rs:430-435 | the started event comes first, unless recording it fails, and never again |
| StepStream.CompletedIsLast | crates/kolyan-core/src/step.rs:425-501 | after completion come no items but the end or one error |
| StepStream.OverIsForever | crates/kolyan-core/src/step.rs:401-421 | after a terminal answer only the end follows |
| StepStream.EndHasCause | crates/kolyan-core/src/step.rs:488-496 | a stream ends only after a completion, an error, a cancellation or a timeout |
| StepStream.HandedOutIsProviders | crates/kolyan-core/src/step.rs:356-386 | what is handed out is the provider's event of that poll, and a completion its validated response |
| StepStream.HandedOutIsRecorded | crates/kolyan-core/src/step.rs:308-316 | nothing is handed out that the recorder did not accept |
| StepStream.NothingIsDropped | crates/kolyan-core/src/step.rs:356-501 | until the stream is over everything the provider reported has been handed out, in order |
| StepStream.AnswerIsExact | crates/kolyan-core/src/step.rs:356-501 | each answer after the first, by stop boundary, provider, validator and recorder |
| StepStream.AggregateStepStream | crates/kolyan-core/src/step.rs:331-354 | aggregation succeeds exactly on one completion followed by the end, and otherwise fails as the first decisive item says |
| MessageStream.OpenBlocks.Event | crates/kolyan-provider-anthropic/src/blocks.rs:15-130 | an accepted block event changes its own index only |
| MessageStream.AnthropicState.Event | crates/kolyan-provider-anthropic/src/lib.rs:135-220 | an event is accepted, reported or refused exactly as the events so far say; a completion holds the done blocks in index order, the last reason, identity and usage, and the parse of its text |
| Blocks.IndexIsIndependent | crates/kolyan-provider-anthropic/src/blocks.rs:15-130 | what an accepted message holds at an index depends on that index's events alone |
| Blocks.AcceptedIndexByIndex | crates/kolyan-provider-anthropic/src/blocks.rs:15-130 | events are accepted exactly when every index accepts its own |
| Blocks.InterleavingIsIrrelevant | crates/kolyan-provider-anthropic/src/lib.rs:148-161 | two interleavings of the same per-index events are accepted together and hold the same blocks |
| Blocks.CompletedHolds | crates/kolyan-provider-anthropic/src/blocks.rs:48-127 | a completed block is its initial text followed by its deltas; tool arguments are the parse of the concatenated partial text, or the input, and an object |
| Blocks.StopNeedsAllStopped | crates/kolyan-provider-anthropic/src/lib.rs:181-186 | a message stops exactly when it has a reason and no block is open |
| Completions.CompletionIsExact | crates/kolyan-provider-anthropic/src/lib.rs:195-220 | a completed message's content is that of the done blocks, at exactly their indices in ascending order; its structured output the parse of all its text; its reason, identity and usage the last ones given |
| Completions.LifeAcceptedExactlyWhen | crates/kolyan-provider-anthropic/src/blocks.rs:15-130 | a block's start, deltas and stop are accepted exactly when the deltas fit its kind and its parts parse |
| Completions.ReportIsExact | crates/kolyan-provider-anthropic/src/lib.rs:135-220 | what each event is answered with, by the events before it |
| Blocks.AscendingIsSorted | crates/kolyan-provider-anthropic/src/lib.rs:195-213 | the indices of a message's blocks, each once and strictly ascending; that the content follows them is `Completions.CompletionIsExact` |
| MessageStream.MapStream | crates/kolyan-provider-anthropic/src/lib.rs:83-121 | the mapped stream reports accepted events in order and ends at one validated completion, whose content is that of its blocks, or at one error exactly where an event is refused, a completion rejected or the stream breaks off |
| Utf8.Bounded | crates/kolyan-protocol-http/src/report.rs:98-108 | a cut text is the longest prefix of whole characters that fits |
| Utf8.WidthIsEncoded | crates/kolyan-protocol-http/src/report.rs:98-108 | a character's width is the length of its encoding, which gives the character back |
| HttpRetry.RetriedExactlyWhen | crates/kolyan-protocol-http/src/policy.rs:123-195 | a call is retried exactly when it may be, the server's delay is acceptable and the delay leaves some of the window, and then after exactly that delay |
| HttpRetry.StopsExactlyWhen | crates/kolyan-protocol-http/src/policy.rs:123-195 | each reason to stop, exactly when it is given |
| HttpRetry.RetriableExactlyWhen | crates/kolyan-protocol-http/src/policy.rs:123-150 | which statuses and codes may be retried |
| HttpRetry.BackoffIsExact | crates/kolyan-protocol-http/src/policy.rs:180-186 | the backoff of every retry: 500, 1000, 2000, 4000, then 8000 ms, less up to a quarter |
| HttpRetry.BackoffMs | crates/kolyan-protocol-http/src/policy.rs:180-186 | a backoff lies between three quarters of its base and its base, and in 375 to 8000 ms |
| HttpRetry.RetryReport.Push | crates/kolyan-protocol-http/src/report.rs:55-71 | an observation is added exactly when it is the next attempt, fits and there is room |
| HttpRetry.NewObservation | crates/kolyan-protocol-http/src/report.rs:22-43 | an observation's texts are the longest prefixes that fit, and it is marked exactly when one was cut |
| OpeningClients.OpenAiOpen | crates/kolyan-protocol-openai/src/client.rs:102-262 | every opening ends with each send observed once in order with its status, its bounded request id and code, all but the last retried, exactly the waits it slept, all together shorter than the window, and on failure the reason and error that the last attempt or the window's end gives |
| OpeningClients.AnthropicOpen | crates/kolyan-protocol-anthropic/src/client.rs:101-259 | likewise, with the window checked again around each sleep |
| OpeningClients.OpeningExpired | crates/kolyan-protocol-anthropic/src/client.rs:310-333 | an attempt that outlives the window is recorded and stops the opening |
| OpeningClients.TransportExactlyWhen | crates/kolyan-protocol-openai/src/client.rs:217-237 | an eligible transport failure is retried at once while transport retries are left, and otherwise stops for its own reason |
| OpeningClients.Record | crates/kolyan-protocol-anthropic/src/client.rs:288-304 | a push of the next attempt within the bound is never refused |
| OpeningClients.SendsAreBounded | crates/kolyan-protocol-openai/src/client.rs:17-27 | at most max(transport retries, status retries) + 1 sends, so at most 17, numbered 1, 2, 3, ... |
| OpeningClients.WaitsStayInWindow | crates/kolyan-protocol-http/src/policy.rs:188-193 | with status retries enabled and a clock that advances between attempts by each wait, all waits of an opening together are shorter than the window |
| OutputCap.CapIsExact | crates/kolyan-sandbox/src/process.rs:308-350 | over every interleaving of the two threads, once both are done the kept bytes are min(read, limit), a prefix of each pipe, and the flag says exactly that more was read |
| OutputCap.NeverBeyondLimit | crates/kolyan-sandbox/src/process.rs:308-350 | at no moment is more than the limit kept |
| OutputCap.AcceptedIsComplete | crates/kolyan-sandbox/src/process.rs:169-188 | a result is accepted exactly when both pipes ended well within the limit, and is then all they carried |
| OutputCap.Capture | crates/kolyan-sandbox/src/process.rs:308-350 | one thread's loop keeps a byte exactly if fewer bytes than the limit were counted before it, so a prefix of its pipe and all of it unless the flag is set; it returns that unless a read fails, reports its size always, and counts everything |
| OutputCap.KeptExactlyWhen | crates/kolyan-sandbox/src/process.rs:308-350 | which bytes of which chunks are kept, by what was counted before them |
| OutputCap.ReadIsTaken | crates/kolyan-sandbox/src/process.rs:308-350 | a read is taken whole, and only the end of a pipe or an error ends a thread |
| CoordinatorRuntime.ExecutionCoordinator.State | crates/kolyan-server/src/coordinator.rs:20-55 | the loop with its early exit equals the fold; an owned suspended execution counts as running |
| CoordinatorOutcomes.FoldedExactlyWhen | crates/kolyan-server/src/coordinator.rs:20-44 | an execution is completed, cancelled or failed as the first event says that ended it, else running or suspended as the last says that moved it, else new |
| CoordinatorOutcomes.StateExactlyWhen | crates/kolyan-server/src/coordinator.rs:20-55 | the public state likewise, where an owned suspended execution is running |
| CoordinatorOutcomes.LatestCursorExactlyWhen | crates/kolyan-server/src/coordinator.rs:234-240 | the cursor a readmission is named by is that of the execution's latest event, 0 without one |
| CoordinatorOutcomes.RecordableExactlyWhen | crates/kolyan-server/src/coordinator.rs:182-232 | a fact can be recorded exactly if it is there already or its identity is unused, and then it alone is added |
| Coordinator.TerminalForever | crates/kolyan-server/src/coordinator.rs:20-55 | a terminal state is unchanged by every extension of the log |
| Coordinator.SuspendedExactlyWhen | crates/kolyan-server/src/suspension.rs:196-217 | the fold is suspended exactly when nothing ended the execution and the backward scan finds a suspension |
| Coordinator.AgreeExactlyWhen | crates/kolyan-server/src/suspension.rs:196-217 | scan and fold agree on suspension exactly unless the execution has ended and its latest lifecycle event is a suspension |
| Coordinator.UncertainEffectDisagrees | crates/kolyan-server/src/suspension.rs:196-217 | after a suspension and an uncertain effect they disagree |
| Coordinator.CurrentSuspension | crates/kolyan-server/src/suspension.rs:196-217 | the scan finds the latest lifecycle event and takes it exactly if it is a suspension |
| CoordinatorRuntime.ExecutionCoordinator.Start | crates/kolyan-server/src/coordinator.rs:57-87 | the start ends as its steps alone do; answer, ledger and owned set are given for every ledger and owned set, those no run reaches (a new execution that is owned) included, down to the one event written; a success leaves the execution running and owned |
| CoordinatorRuntime.StartFailsCleanly | crates/kolyan-server/src/coordinator.rs:57-87 | from every state a run of all callers reaches, a start that then runs alone either succeeds or leaves ledger and owned set as they were |
| CoordinatorRaces.StartFailsRecorded | crates/kolyan-server/src/coordinator.rs:57-133 | a start overtaken by a recovery after its record: the start fails, its own record stays, and the recovery owns the execution |
| CoordinatorRuntime.ExecutionCoordinator.Resume | crates/kolyan-server/src/coordinator.rs:89-113 | likewise; a success leaves the execution running and owned, a failure changes nothing |
| CoordinatorRuntime.ExecutionCoordinator.Recover | crates/kolyan-server/src/coordinator.rs:115-133 | likewise; a failed recovery leaves one event exactly when the execution is owned, running or suspended, and its readmission could be appended |
| CoordinatorRuntime.ExecutionCoordinator.AdmitSaved | crates/kolyan-server/src/lib.rs:515-525 | a direct admission leaves the ledger alone and succeeds exactly when the execution is not owned and is suspended, or for a recovery running; a failure changes nothing |
| CoordinatorRuntime.ExecutionCoordinator.Cancel | crates/kolyan-server/src/coordinator.rs:135-148 | likewise; alone, a cancel leaves an open execution cancelled and not owned, and an ended one as it was |
| CoordinatorRuntime.ExecutionCoordinator.AppendOnce | crates/kolyan-server/src/coordinator.rs:182-232 | with others writing between lookup and append, the answer and the ledger left are given exactly: a fact is added once, the same fact is there, or the call conflicts |
| CoordinatorRuntime.ExecutionCoordinator.Admit | crates/kolyan-server/src/coordinator.rs:157-173 | an admission succeeds exactly when the execution is not owned |
| CoordinatorSafety.OneAdmissionBetweenReleases | crates/kolyan-server/src/coordinator.rs:57-173 | over every interleaving of start, resume, recover, direct admission, cancel, release, crashes, restarts and foreign writes: two callers admitted to one execution have a release or a restart between their admissions |
| CoordinatorSafety.RunKeepsInv | crates/kolyan-server/src/coordinator.rs:57-232 | every step of every caller, direct admissions included, keeps the invariant of ledger, owned set and callers |
| CoordinatorSafety.CancelEndsForGood | crates/kolyan-server/src/coordinator.rs:135-148 | in every interleaving a cancel that succeeded leaves an ended execution, then and ever after |
| CoordinatorSafety.OwnedExactlyWhen | crates/kolyan-server/src/coordinator.rs:150-180 | an execution is owned exactly when an admission came after all its releases, and that owner read it before it ended |
| CoordinatorSafety.OwnedHasBegun | crates/kolyan-server/src/coordinator.rs:57-173 | no run reaches a new execution that is owned |
| CoordinatorRaces.EndedCanBeOwnedExactlyWhen | crates/kolyan-server/src/coordinator.rs:57-173 | an ended execution that is not owned, as after a completed cancel, can become owned exactly while a start, resume, recovery or direct admission that read it earlier is on its way and its record, if it makes one, does not conflict |
| CoordinatorRaces.AdmissionIsNotStopped | crates/kolyan-server/src/lib.rs:413-420 | once a caller is about to be admitted, no action of others, a whole cancel included, keeps its next step from taking an execution that nobody has |
| CoordinatorRaces.NeverOwnedAgain | crates/kolyan-server/src/coordinator.rs:57-173 | with nobody on its way it is never owned again, whatever starts, resumes, recoveries, direct admissions and cancels come |
| CoordinatorRaces.CancelledYetOwned | crates/kolyan-server/src/coordinator.rs:57-148 | a start overtaken by a cancel: both succeed and the cancelled execution is owned |
| CoordinatorRuntime.OwnedRecoveryLeavesEvent | crates/kolyan-server/src/coordinator.rs:115-133 | a recovery of an owned execution fails and leaves one event more |
| CoordinatorRuntime.StepDescends | crates/kolyan-server/src/coordinator.rs:57-148 | every step brings a caller nearer its answer |
| Selection.ValidateSelection | crates/kolyan-server/src/preparation.rs:80-134 | a selection is accepted exactly when both requests are in bounds, other fields equal, the input tail intact and the history embeds in order; a refusal names the first failure |
| Selection.FindsSubsequence | crates/kolyan-server/src/preparation.rs:127-132 | the greedy pass succeeds exactly when some strictly increasing embedding exists |
| Selection.BoundedRequest | crates/kolyan-server/src/preparation.rs:136-165 | a request is in bounds exactly by messages, content blocks and serialized size |
| Selection.WithinExactlyWhen | crates/kolyan-server/src/preparation.rs:136-165 | the bounds are 4096 messages, 16384 content blocks over all of them, and 16 MiB |

## Left out

- SQLite and file stores, file locks, SQL text: the in-memory ledger and journal are the reference.
- Leases and idempotency claims: they add little to the protocols here.
- Turn engine, checkpoints, task reducer, session store, planner rules, server routing and host assembly.
- Process spawning, signals, sandbox profiles, path canonicalisation, HTTP transport beyond the retry loops.
- `decide_claim` and the grant conversions of the policy engine: a chain of independent checks.
- Identities as formatted strings: two different coordinates whose strings collide are not modelled.
- Reads of the effect protocol that fold a whole execution are one step, taken at their last page; `Ledger.InMemoryLedger.ExecutionEventsAfter` is why.
- Ledger cursors, journal positions beyond the admission bound, and the captured-byte total are unbounded; their 64-bit overflow is out of reach.
- FactTypes.PayloadBytes gives a reservation payload no size, because its three bounded coordinates stay far below the limit.
- Blocks: a field that is absent or not a string reads as the empty string, as in the program, but the saved opaque block is not told apart from one that holds an empty string.
- Completions: the stop reason is kept as its text; the mapping to the model's stop reasons is not modelled.
- StepStream: the wake-up of a skipped provider start is not modelled, only the pending answer.
- Observation: launch ids, process ids and the shortening of error texts are data carried along.
- HttpRetry: parsing a server's delay from headers is a parameter, and the backoff is computed over reals, not floating point.
- Coordinator: the envelope checks of a found suspension are not modelled; other processes appear as writers to the shared ledger, not with owned sets of their own.
- CoordinatorProtocol: a direct admission (`resume`, `resume_approval`, `resume_committed`, denial of an approval) is `AdmitOp`, its read of the state and its admission; what else it checks, such as the suspension a denial loads between the two, is a place where the caller may stop (`Crash`), and a denial reports its refusal by another error than `NotSuspended`.
- Reconciliation: a decision that is not committed may race with a receipt, and its replay then fails; the two are not claimed to exclude each other.
- EffectProtocol: the pipeline that prepares tool effects writes under the conditions of `ForeignAllowed` and is not modelled further.
