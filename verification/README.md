# Dispatch permits: a verified model

The service issues dispatch permits for the gates of a hydropower station. A *directive*
(`OperationDirective`) asks for a gate to be brought to a target state; it is submitted by one
person, approved by another, executed, and ended by an *execution confirmation*
(`ExecutionConfirmation`) or an abort. *Gates* (`GateUnit`) are moved by the gate handler, by
directives that start or abort, and by confirmations. All three are versioned rows with tombstones;
beside them stand an append-only approval ledger and an append-only audit log. Handlers read rows
outside any transaction, decide, and later commit a small version-checked set of rows, together with
their ledger and audit entries.

## How the model is built

* **Decisions and transactions.** `Handlers` says what each handler decides, given what it has read:
  `Plan` returns an error or a list of *blocks*, one per row (`Transactions`): the row write, a ledger
  entry if there is one, and the audit entry. `Atomic` reads everything at once and applies the plan.
* **The service layer, imperative, with faults.** `Storage.Database` is the mutable database: tables,
  ledger, log, nested transactions kept as snapshots to roll back to, and an oracle that says which
  attempted write or commit fails. The services (`GateUnitService`, `OperationDirectiveService`,
  `ExecutionConfirmationService`, `Security`) are written step by step against it and are proved to do
  exactly what the plan says, or nothing.
* **The interleaved layer.** In `Interleaving` any number of handlers are in flight. Each begins, reads
  its own row, then its directive, then its gate, in separate steps, and commits in one step, with
  anything in between. A commit is one step because every conditional update holds its row until the
  transaction ends. `Layers` connects the two layers.
* **The limiter.** `RateLimit` is separate: the in-memory fixed-window counter and its use when Redis
  fails.

* **The requirements.** `GateRequirements`, `DirectiveRequirements` and `ConfirmationRequirements` say of
  every request to a one-step handler what comes of it: the error, or the stored rows, ledger entry and
  audit entries, column by column. They name stored columns, request columns and literal values only, so
  they do not depend on how `Handlers` and `Transactions` decide and store.

The interleaved results come in two strengths. `Versions`, `Snapshots` and the conservation laws need
no assumption about clients. Everything from `Reachability` on is about *honest* runs: when a request
begins, the version it expects has already been stored for that row. The code compares that version
with the stored row but never with the row the handler read, so the assumption cannot be dropped:
`Snapshots.CommitIsUpToDateIff` says exactly when a commit overwrites what was read, and
`Counterexamples.GuessedVersionUndoesSubmission` shows what a guessed version does. `Reachability.Sound`
is the invariant of honest runs: well-shaped rows, unique codes, the approval ledger that fits each
directive's status, and the agreement of confirmations and directives. `Seed` proves that the rows of a
new installation satisfy it.

Serialisability is stated for whole runs and for single commits. `Serial` and `StaleDeletions`: the
successful commits of an honest run can be put in an order in which the one-step handlers, run one after
the other, all succeed and leave the same rows, exactly if no deletion of a directive or confirmation was
stale. The order is not that of the commits: a commit checks the version of every row it writes, and only
of those, so a commit that depends on a row it does not write is placed at its reading (`Places`).
`DecisionPoints`: every commit has a moment in its handler's lifetime at which the handler, run in one
step, would have read and stored the same. `Refinement`: it equals the one-step handler run at its commit
on the stored state with the linked rows put back to what was read (`Rewind`). `Exactness`: it is the
one-step handler on the stored state itself exactly if that state still grants what the handler needs of
the rows it does not write (`Granted`).

Where the code and its documents disagree, the code is followed:

* The project README (line 44) lets every active stage be aborted; in the code a draft cannot be, nor an
  execution whose gate has been deleted (`Workflow.AbortsIff`).
* The project README (line 48) says that a gate enters `moving` when execution starts; in the code a
  gate that already stands at the directive's target stays there
  (`Workflow.StartMovesIff`).
* The project README (line 48) promises the gate outcome of every receipt. The code keeps it when the
  handler runs by itself; with other handlers in between, exactly under the condition of
  `GateOutcomes.ReceiptGateOutcomeIff`.

## Model

| member | source | states |
|---|---|---|
| `Text.WhiteSpace` | backend/internal/repository/base.go:74-78 | The 25 white-space code points of Unicode |
| `Text.TrimSpaceSlices` | backend/internal/repository/base.go:74-78 | Trimming returns the slice of the text without its surrounding Unicode white space, and no more |
| `Text.UpperCase` | backend/internal/repository/base.go:74-78 | Upper-casing turns small letters into capitals and leaves everything else |
| `Text.CanonIdempotent` | backend/internal/repository/base.go:74-78 | Normalising a code twice is normalising it once, so stored codes are found under themselves |
| `Text.EqualFoldEquivalence` | backend/internal/service/operation_directive.go:160-163 | Case-insensitive equality of people and facilities is an equivalence |
| `Text.EqualFoldIsSameUpper` | backend/internal/service/operation_directive.go:160-163 | Two texts are equal up to case exactly if their upper-case forms are equal |
| `Text.FoldMatchesStoredCode` | backend/internal/service/execution_confirmation.go:92-94 | Comparing a typed code up to case with a stored one is the same test as looking it up |
| `Records.GetByCode` | backend/internal/repository/base.go:74-78 | Lookup by code finds a live row with that code, and fails only if there is none |
| `Requirements.TextNames` | backend/internal/constants/status.go:37-58 | Which requested text names which status, letter by letter |
| `Requirements.DeleteMeets` | backend/internal/service/operation_directive.go:206-220 | The result of every deletion: a gate in any status, a draft directive, a pending confirmation becomes a tombstone of the same version, with its entry; anything else is refused, and how |
| `GateRequirements.CreateMeets` | backend/internal/service/gate_unit.go:43-74 | The result of every gate creation: accepted exactly with all names, a reservoir of the same facility and a new code; the stored row and its entry column by column |
| `GateRequirements.UpdateMeets` | backend/internal/service/gate_unit.go:76-116 | The result of every gate edit: accepted exactly with all names, the reservoir kept and of the same facility, and the stored version; the stored row and its entry column by column |
| `GateRequirements.TransitionMeets` | backend/internal/service/gate_unit.go:118-137 | The result of every gate transition: accepted exactly for the eight pairs of statuses under the stored version; only status and version change, with an entry by the caller |
| `GateRequirements.OtherTargetRefused` | backend/internal/service/gate_unit.go:123-126 | A text that names no gate status moves no gate |
| `DirectiveRequirements.CreateMeets` | backend/internal/service/operation_directive.go:43-78 | The result of every directive creation: accepted exactly with all names, a live unlocked gate of the same facility and a new code; the stored row column by column, its target `closed` unless another is asked for |
| `DirectiveRequirements.UpdateMeets` | backend/internal/service/operation_directive.go:80-123 | The result of every directive edit: accepted exactly for a draft with all names, a live unlocked gate of the same facility and the stored version; the stored row column by column, its target kept unless another is asked for |
| `DirectiveRequirements.SubmitMeets` | backend/internal/service/operation_directive.go:169-188 | The result of every submission: a draft, by an operator or administrator, under the stored version; row, ledger entry and audit entry in full |
| `DirectiveRequirements.ApproveMeets` | backend/internal/service/operation_directive.go:160-188 | The result of every approval: a pending directive, by a reviewer or administrator other than its submitter, under the stored version; row, ledger entry and audit entry in full |
| `DirectiveRequirements.StartMeets` | backend/internal/service/operation_directive.go:140-199 | The result of every start: an approved directive, by an operator or administrator, with a live unlocked gate, under the stored version; directive, gate and entries in full |
| `DirectiveRequirements.AbortMeets` | backend/internal/service/operation_directive.go:140-199 | The result of every abort: a pending, approved or executing directive, by an operator, reviewer or administrator, under the stored version, an executing one with a live gate; directive, gate and entries in full |
| `DirectiveRequirements.OtherTargetRefused` | backend/internal/service/operation_directive.go:130-136 | No other text moves a directive, completion included |
| `ConfirmationRequirements.CreateMeets` | backend/internal/service/execution_confirmation.go:44-79 | The result of every confirmation creation: accepted exactly with all names, a live executing directive, no confirmation of it and a new code; the stored row column by column, with the directive's columns copied |
| `ConfirmationRequirements.UpdateMeets` | backend/internal/service/execution_confirmation.go:81-121 | The result of every confirmation edit: accepted exactly while pending, with all names, its directive unchanged, live and executing, and the stored version; the stored row column by column |
| `ConfirmationRequirements.ConfirmMeets` | backend/internal/service/execution_confirmation.go:123-199 | The result of every `confirmed` receipt: pending, directive live and executing, gate live and at the target or able to go there, stored version; the three rows and their entries in full |
| `ConfirmationRequirements.FailMeets` | backend/internal/service/execution_confirmation.go:123-199 | The result of every `failed` receipt: pending, directive live and executing, gate live in any status, stored version; the confirmation fails, the directive is aborted, the gate locked, with their entries |
| `ConfirmationRequirements.CancelMeets` | backend/internal/service/execution_confirmation.go:123-199 | The result of every `cancelled` request: a failed confirmation under the stored version, and nothing else changes |
| `ConfirmationRequirements.OtherTargetRefused` | backend/internal/service/execution_confirmation.go:128-131 | No other text moves a confirmation |
| `Versions.PlanDocumented` | backend/internal/service/operation_directive.go:181-199 | Every plan of every handler writes one to three different rows, advances each version by one and logs each row once, with its new state |
| `Versions.TransactionConserves` | backend/internal/service/execution_confirmation.go:164-197 | A transaction writes exactly the rows of its blocks, moves each version with its non-delete entries, and logs each row once |
| `Versions.TransactionLogs` | backend/internal/service/execution_confirmation.go:164-197 | A transaction appends exactly the audit entries of its plan, in order |
| `Snapshots.RunConserves` | backend/internal/repository/base.go:88-99 | In every interleaving, whatever clients send: versions never decrease, tombstones never change, ledger and log only grow, and each version moves with the row's non-delete audit entries |
| `Snapshots.CreatedRowVersionIsLogged` | backend/internal/service/execution_confirmation.go:139-194 | A row created during a run has a version equal to its number of non-delete audit entries |
| `Snapshots.CommitLogsEachRowOnce` | backend/internal/service/gate_unit.go:105-135 | Each commit adds exactly one audit entry for each row it created, updated or deleted, and none for others |
| `Snapshots.CommitIsUpToDateIff` | backend/internal/service/operation_directive.go:126-203 | A commit overwrites exactly what the handler read if and only if the client sent the version the handler read |
| `Lifecycle.EdgeDescends` | backend/internal/constants/status.go:44-58 | Every edge of the directive and confirmation graphs strictly lowers the rank |
| `Lifecycle.GateEdges` | backend/internal/constants/status.go:37-42 | A gate opens only out of `moving`, moves only from open or closed, can be locked from every other state, and is released from a lock by being closed |
| `Lifecycle.PlanSourced` | backend/internal/service/execution_confirmation.go:139-194 | Every block of every plan is a legal move from the snapshot it was planned from, guarded by the client's version on its own row and by the version read on a linked row |
| `Lifecycle.OwnDirectiveBlockLegal` | backend/internal/service/operation_directive.go:137-188 | A directive transition follows the graph and carries a ledger entry by its caller exactly when it submits or approves, by two people when it approves |
| `Validity.WriteKeepsUnique` | backend/internal/model/execution_confirmation.go:18 | Unique codes and unique related codes survive every write the store accepts, tombstones counted |
| `Validity.StageNeverTaken` | backend/internal/model/operation_directive.go:37-38 | The unique (directive, stage) index never rejects the entry of a legal transition |
| `Validity.BlockKeepsLedgers` | backend/internal/repository/operation_directive.go:65-78 | A legal write keeps every directive's ledger fitting its status |
| `Agreement.AgreeingMeans` | backend/internal/service/execution_confirmation.go:145-162 | The agreement invariant gives: completed exactly if its one confirmation is confirmed; failed or cancelled only if aborted |
| `Agreement.SoloKeepsAgreeing` | backend/internal/service/operation_directive.go:134-136 | A block that completes no directive and ends no pending confirmation keeps agreement |
| `Agreement.OutcomeKeepsAgreeing` | backend/internal/service/execution_confirmation.go:164-183 | Ending a confirmation and its directive together keeps agreement |
| `Reachability.SaveOverwritesItsSource` | backend/internal/repository/base.go:88-99 | Each row a successful commit overwrites still holds what the handler had read (equal version, equal content) |
| `Reachability.CommitKeeps` | backend/internal/service/execution_confirmation.go:124-199 | One commit of any handler keeps every invariant and moves every row along its lifecycle |
| `Reachability.RunSound` | backend/internal/service/execution_confirmation.go:44-215 | Every state of every honest interleaved run satisfies the invariants: shapes, unique codes, ledger, agreement |
| `Reachability.RunSegment` | backend/internal/service/operation_directive.go:80-204 | Between any two points of an honest run every row evolves along its lifecycle and keeps the columns it must |
| `Refinement.CommitRefinesAtomicIff` | backend/internal/service/operation_directive.go:126-203 | A commit equals the one-step handler, run with the linked rows put back to what was read, on all rows written, the ledger and the log, if and only if it is not a deletion that finds another status than it read |
| `Exactness.CommitIsAtomicIff` | backend/internal/service/execution_confirmation.go:124-199 | A commit of any handler is the one-step handler on the stored state if and only if that state still grants what the handler needs of rows it does not write |
| `Exactness.RunCommitIsAtomicIff` | backend/internal/service/operation_directive.go:126-203 | The same for every successful commit of an honest interleaved run |
| `Exactness.TransitionIsAtomicIff` | backend/internal/service/operation_directive.go:140-199 | For receipts, starts and aborts: if and only if the gate is live with the status read, or still fits a start or abort that does not move it |
| `Exactness.DirectiveEditIsAtomicIff` | backend/internal/service/operation_directive.go:43-123 | For a directive created or updated: if and only if its gate is live, of the same facility and not locked |
| `Exactness.ReceiptEditIsAtomicIff` | backend/internal/service/execution_confirmation.go:44-121 | For a confirmation created or updated: if and only if its directive is live and executing |
| `Exactness.DeletionIsAtomicIff` | backend/internal/service/execution_confirmation.go:201-215 | For a deletion: if and only if the row has the status that was read |
| `DecisionPoints.ReadTimes` | backend/internal/service/execution_confirmation.go:124-153 | A handler has read its own row, its directive and its gate, in this order, from states stored while it was in flight |
| `DecisionPoints.CommitHasDecisionPoint` | backend/internal/repository/base.go:88-121 | Every successful commit of an honest run, deletions included, has a moment in its handler's lifetime at which the whole handler, run in one step on the state stored then, reads the same and stores the same rows and entries (a deletion, a tombstone) |
| `Places.WritesInOrder` | backend/internal/repository/base.go:88-99 | Of two commits that write a row, the earlier one comes first in the serial order |
| `SerialSteps.StepAtPlace` | backend/internal/service/execution_confirmation.go:124-199 | At its place in the serial order every commit is the one-step handler: it reads the same, succeeds and leaves the same rows |
| `Serial.RunIsSerial` | backend/internal/repository/base.go:88-121 | The successful commits of an honest run without stale deletions have an order in which the same requests, served by one-step handlers one after the other, all succeed and leave exactly the same rows |
| `StaleDeletions.StaleIsNotSerial` | backend/internal/service/operation_directive.go:206-220 | After a stale deletion of a directive or confirmation no order lets all the requests succeed |
| `StaleDeletions.RunIsSerialIff` | backend/internal/repository/base.go:88-121 | An honest run is serialisable if and only if no deletion of a directive or confirmation has found another status than it had read |
| `Refinement.FullReceiptIsAtomic` | backend/internal/service/execution_confirmation.go:164-197 | A receipt that moves three aggregates is the one-step handler, whatever happened between its reads |
| `Refinement.RunRefinesAtomicIff` | backend/internal/repository/base.go:88-121 | The same for every successful commit of an honest interleaved run |
| `AuditTrail.RunReplays` | backend/internal/service/gate_unit.go:118-149 | Replaying a row's entries of an honest run from its first state ends in its stored status and tombstone mark |
| `AuditTrail.RunReplaysStrictlyIff` | backend/internal/service/operation_directive.go:206-220 | The strict chain, in which a deletion too starts where the previous entry ended, holds for every row over an honest run if and only if every deletion found the status it had read |
| `AuditTrail.AtomicReplaysStrictly` | backend/internal/service/gate_unit.go:139-150 | A handler running alone always continues the strict chain |
| `AuditTrail.AcceptedLogIsAChain` | backend/internal/service/execution_confirmation.go:164-194 | In a log that replays, each entry starts where the previous one ended (a deletion, if read strictly) and nothing follows a deletion |
| `Guarantees.ApprovedByTwo` | backend/internal/service/operation_directive.go:160-180 | In every reachable state an approved, executing or completed directive has exactly two ledger entries, by its submitter and its approver, who differ up to case |
| `Guarantees.DirectiveMovesByRole` | backend/internal/service/operation_directive.go:222-235 | In every honest run a status change of a directive is committed by a caller in a role that may make it, who approves only what another submitted, or by a receipt that ends its execution |
| `Guarantees.StoreRefusesOnlyStaleVersions` | backend/internal/repository/operation_directive.go:65-78 | A planned update or transition can be refused by the store for a version conflict only, never by a unique index |
| `Guarantees.SubmittedContentIsFrozen` | backend/internal/service/operation_directive.go:80-123 | Once a directive has left draft, no later commit changes its business fields, gate target, submitter or code |
| `Guarantees.OutcomesAgree` | backend/internal/service/execution_confirmation.go:145-198 | In every reachable state a directive is completed exactly if its one confirmation, tombstones counted, is confirmed; failed and cancelled ones have aborted directives |
| `Guarantees.LoserIsRefusedForever` | backend/internal/service/operation_directive.go:185-199 | Of two handlers that would save the same row, once one commits the other is refused now and at every later time |
| `Guarantees.ExecutionEndsOnce` | backend/internal/service/execution_confirmation.go:171-178 | Whichever of confirm, fail and abort ends an executing directive first decides its status for the rest of the run |
| `Guarantees.LifecyclesAreShort` | backend/internal/constants/status.go:44-58 | In any honest run a directive changes status at most four times and a confirmation at most twice |
| `Guarantees.TransactionEdges` | backend/internal/service/execution_confirmation.go:129-131 | One commit moves any row along at most one edge of its graph |
| `Guarantees.EventFollowsEdges` | backend/internal/service/gate_unit.go:118-137 | Every event of an honest run leaves each status alone or follows one edge of its graph, whichever handler wrote it |
| `Guarantees.OpensOnlyThroughMoving` | backend/internal/constants/status.go:37-42 | A gate seen closed and later open was moving in between, whichever handlers wrote it |
| `Receipts.RunCoherent` | backend/internal/service/execution_confirmation.go:64-69 | Every confirmation created or coherent at the start keeps its directive's facility, category and risk level in every reachable state |
| `Receipts.RunCopiedIff` | backend/internal/service/execution_confirmation.go:95-109 | The copied columns of any stored confirmation, seeded ones included, are its directive's at the end of an honest run if and only if they were at the start or the run has committed an update of it |
| `Orphans.ReceiptFindsExecuting` | backend/internal/service/execution_confirmation.go:217-226 | A receipt that ends a pending confirmation commits only while the named directive is executing |
| `Orphans.OrphanStaysPending` | backend/internal/service/execution_confirmation.go:145-149 | If a directive is aborted while its confirmation is pending, no handler, in flight or later, ever ends that confirmation |
| `Orphans.OrphanIsFrozen` | backend/internal/service/execution_confirmation.go:81-121 | While no update in flight can still be stored, its content never changes again either, except by deletion |
| `Orphans.OrphanIsFrozenIff` | backend/internal/service/execution_confirmation.go:81-121 | Every honest run leaves an orphaned confirmation's content alone if and only if no update of it in flight has seen the directive executing, holds the stored version and can still be stored |
| `Orphans.DeletedReceiptBlocksCompletion` | backend/internal/service/execution_confirmation.go:201-215 | After a pending confirmation is deleted no other one of its directive is ever stored, and the directive can only end aborted |
| `GateOutcomes.LockingNeverRefused` | backend/internal/service/operation_directive.go:151-158 | The check before locking refuses no gate status |
| `GateOutcomes.DirectiveSettlesGate` | backend/internal/service/operation_directive.go:140-199 | Starting leaves the linked gate moving or at its target and never locked; aborting an execution leaves it locked |
| `GateOutcomes.ReceiptSettlesAll` | backend/internal/service/execution_confirmation.go:154-194 | A receipt ends its confirmation, completes or aborts the directive, and leaves the gate at the target or locked; only a confirmation records its caller as confirmer |
| `GateOutcomes.ReceiptLogsEachMove` | backend/internal/service/execution_confirmation_test.go:100-103 | A receipt leaves two or three entries under its caller and request: confirmation, directive, and the gate exactly if it moved |
| `GateOutcomes.ReceiptGateOutcomeIff` | backend/internal/service/execution_confirmation.go:184-194 | With other handlers in between, the gate outcome of a receipt holds if and only if it had to move the gate or the stored gate is at the target |
| `GateOutcomes.DirectiveGateOutcomeIff` | backend/internal/service/operation_directive.go:189-199 | With other handlers in between, the gate outcome of a start or abort holds if and only if it had to move the gate or the stored gate fits |
| `Workflow.AtomicKeeps` | backend/internal/service/operation_directive.go:125-204 | One handler running alone keeps every invariant |
| `Workflow.ExecuteStep` | backend/internal/service/operation_directive.go:140-199 | Starting an approved directive whose gate is live and unlocked always succeeds, and moves and logs the gate exactly if it has to |
| `Workflow.StartMovesIff` | backend/internal/service/operation_directive.go:151-155 | After a start the gate is moving if and only if it was not at the target, or the target is moving |
| `Workflow.AbortStep` | backend/internal/service/operation_directive.go:140-199 | An executing directive whose gate is live can always be aborted, whatever the gate's state, and this locks the gate |
| `Workflow.AbortsIff` | backend/internal/service/operation_directive.go:130-152 | A live directive can be aborted if and only if the caller is an operator, reviewer or administrator and it is pending, approved, or executing with a live gate; a draft is refused |
| `Workflow.ConfirmStep` | backend/internal/service/execution_confirmation.go:124-199 | Confirming always succeeds when the gate is moving or at the target; the gate is logged exactly if it had to move |
| `Workflow.EndToEnd` | backend/internal/service/execution_confirmation_test.go:81-104 | From every valid state with a live unlocked gate and no confirmation of the code, two different people can take a draft to completion: version +4, gate at the target, and 0, 1 or 2 gate entries |
| `Counterexamples.GuessedVersionUndoesSubmission` | backend/internal/service/operation_directive.go:80-123 | A client that guesses the next version can return a submitted directive to draft with its ledger entry in place |
| `Refinement.DeleteCommitsIffLive` | backend/internal/repository/base.go:112-121 | A deletion commits if and only if the row is live, whatever became of it, and logs the status that was read |
| `Refinement.DeletionOutcome` | backend/internal/service/operation_directive.go:206-220 | A deletion does what the one-step handler does if it finds the status it read; otherwise that handler refuses or logs another status |
| `Counterexamples.StaleDeleteHidesConfirmed` | backend/internal/service/execution_confirmation.go:201-215 | A deletion that read a confirmation pending commits after it was confirmed |
| `Orphans.UpdateCommitsIffUnchanged` | backend/internal/service/execution_confirmation.go:110-118 | An update in flight commits if and only if its own row is live at the expected version |
| `Counterexamples.AbortOrphans` | backend/internal/service/operation_directive.go:142-152 | Aborting an executing directive leaves its pending confirmation as it is |
| `Counterexamples.OrphanChangesOnce` | backend/internal/service/execution_confirmation.go:95-118 | So an update in flight can still change an orphaned confirmation, which the one-step handler refuses |
| `Counterexamples.UnwrittenGateIsNotChecked` | backend/internal/service/execution_confirmation.go:184-186 | A gate that needs no write can be locked between the reads and the commit of a confirmation, and the directive is still completed |
| `Counterexamples.TwoExecutionsShareAGate` | backend/internal/service/operation_directive.go:140-159 | Two approved directives of one unlocked gate can both be started and then both execute |
| `Seed.SeedIsSound` | backend/internal/database/database.go:162-240 | The seeded rows and ledger satisfy every invariant |
| `Seed.SeedCoherence` | backend/internal/database/database.go:226-240 | Copied columns are coherent for every seeded confirmation but EC-001, which shares facility and risk level with OD-003 but not the category |
| `Seed.SeedIsStartable` | backend/internal/database/database.go:188-224 | The end-to-end result applies to the first seeded directive |
| `Seed.SeedCanBeOrphaned` | backend/internal/database/database.go:188-240 | Aborting the seeded execution is possible and orphans the seeded confirmation |
| `Faults.PerformAppend` | backend/internal/repository/base.go:37-44 | Attempting two lists of writes is attempting the first and, if it succeeded, the second |
| `Faults.AllOrNothing` | backend/internal/repository/base.go:37-44 | A transaction does its whole plan if none of its writes and not its commit fails, and fails otherwise |
| `Storage.Database.Get` | backend/internal/repository/base.go:68-72 | Reading by key misses tombstones |
| `Storage.Database.GetByCode` | backend/internal/repository/base.go:74-78 | Reading by code finds the one live row with the normalised code |
| `Storage.Database.CountByDirectiveCode` | backend/internal/repository/execution_confirmation.go:54-59 | Counts the live confirmations of a directive code: at most one, and more than none only if the unique index would refuse another |
| `Storage.Database.Create` | backend/internal/repository/base.go:80-82 | Inserts under the next key unless a unique index, tombstones counted, holds the code or the related code |
| `Storage.Database.Update` | backend/internal/repository/base.go:88-99 | Replaces a live row of the expected version, its code and tombstone mark left alone, and reports a conflict otherwise |
| `Storage.Database.Delete` | backend/internal/repository/base.go:112-121 | Marks a live row deleted without touching its version |
| `Storage.Database.AppendAudit` | backend/internal/repository/security.go:43-45 | Appends one audit entry |
| `Storage.Database.Finish` | backend/internal/repository/base.go:37-44 | An error restores the state saved at the transaction's start; a savepoint is released; only the outermost transaction commits |
| `Storage.Database.TransitionWithAudit` | backend/internal/repository/base.go:103-110 | Row and audit entry together or not at all, as a transaction of its own or inside another |
| `Storage.Database.TransitionWithApproval` | backend/internal/repository/operation_directive.go:65-78 | Row, ledger entry and audit entry together or not at all, as a transaction of its own or inside another |
| `Security.SecurityService.Audit` | backend/internal/service/security.go:59-74 | Fills in a missing actor or request, and refuses an entry without an action |
| `Security.HandlerIsAllOrNothing` | backend/internal/service/execution_confirmation_test.go:106-125 | A handler that meets a fault anywhere leaves store, ledger and log as they were; without one it is the one-step handler, refusals included |
| `GateUnitService.ReservoirRepository.GetByCode` | backend/internal/repository/reservoir.go:37-39 | Finds the reservoir of the normalised code |
| `GateUnitService.GateUnitService.Create` | backend/internal/service/gate_unit.go:43-74 | Does its plan in one transaction or changes nothing; returns the stored row; `GateRequirements` says what that stores |
| `GateUnitService.GateUnitService.Update` | backend/internal/service/gate_unit.go:76-116 | Does its plan in one transaction or changes nothing; returns the stored row; `GateRequirements` says what that stores |
| `GateUnitService.GateUnitService.Transition` | backend/internal/service/gate_unit.go:118-137 | Does its plan in one transaction or changes nothing; returns the stored row; `GateRequirements` says what that stores |
| `GateUnitService.GateUnitService.Delete` | backend/internal/service/gate_unit.go:139-150 | Does its plan in one transaction or changes nothing; `Requirements.DeleteMeets` says what that stores |
| `OperationDirectiveService.OperationDirectiveService.Create` | backend/internal/service/operation_directive.go:43-78 | Does its plan in one transaction or changes nothing; returns the stored row; `DirectiveRequirements` says what that stores |
| `OperationDirectiveService.OperationDirectiveService.Update` | backend/internal/service/operation_directive.go:80-123 | Does its plan in one transaction or changes nothing; returns the stored row; `DirectiveRequirements` says what that stores |
| `OperationDirectiveService.OperationDirectiveService.TransitionThenMoveGate` | backend/internal/service/operation_directive.go:185-199 | The nested transition and the gate move attempt exactly the statements of the plan, stopping at the first failure |
| `OperationDirectiveService.OperationDirectiveService.Transition` | backend/internal/service/operation_directive.go:125-204 | Checks in the order of the code, then directive, ledger, gate and audits in one transaction, or nothing; `DirectiveRequirements` says what that stores |
| `OperationDirectiveService.OperationDirectiveService.Delete` | backend/internal/service/operation_directive.go:206-220 | Does its plan in one transaction or changes nothing; `Requirements.DeleteMeets` says what that stores |
| `ExecutionConfirmationService.ExecutionConfirmationService.RequireExecutingDirective` | backend/internal/service/execution_confirmation.go:217-226 | Finds the directive of a code if it is live and executing |
| `ExecutionConfirmationService.ExecutionConfirmationService.Create` | backend/internal/service/execution_confirmation.go:44-79 | Does its plan in one transaction or changes nothing; returns the stored row; `ConfirmationRequirements` says what that stores |
| `ExecutionConfirmationService.ExecutionConfirmationService.Update` | backend/internal/service/execution_confirmation.go:81-121 | Does its plan in one transaction or changes nothing; returns the stored row; `ConfirmationRequirements` says what that stores |
| `ExecutionConfirmationService.ExecutionConfirmationService.TransitionThenMove` | backend/internal/service/execution_confirmation.go:164-195 | The three-aggregate body attempts exactly the statements of the plan, stopping at the first failure |
| `ExecutionConfirmationService.ExecutionConfirmationService.Transition` | backend/internal/service/execution_confirmation.go:123-199 | Checks in the order of the code, then three aggregates and up to three audits in one transaction, or nothing; `ConfirmationRequirements` says what that stores |
| `ExecutionConfirmationService.ExecutionConfirmationService.Delete` | backend/internal/service/execution_confirmation.go:201-215 | Does its plan in one transaction or changes nothing; `Requirements.DeleteMeets` says what that stores |
| `Layers.AloneIsAtomic` | backend/internal/service/execution_confirmation.go:123-199 | A handler whose reads and commit nothing interrupts is the one-step handler |
| `Layers.ServiceIsARun` | backend/internal/service/execution_confirmation.go:123-199 | A service method that succeeds has done what its uninterrupted run in the interleaved layer does |
| `Layers.ServiceKeepsInvariants` | backend/internal/service/operation_directive.go:125-204 | A service method called with a version already stored keeps every invariant, whether or not a write fails |
| `RateLimit.LocalCountsHistoryIff` | backend/internal/middleware/ratelimit.go:71-94 | For every history and any clock: the pruned map answers one plus the earlier calls of the key in the minute if and only if no call in between restarted the key's bucket in another minute or pruned it in a later one |
| `RateLimit.LocalCountsHistory` | backend/internal/middleware/ratelimit.go:71-94 | In particular it always does with a clock that never goes back |
| `RateLimit.LocalStaysSmall` | backend/internal/middleware/ratelimit.go:85-94 | After each call the map holds at most 512 entries or only keys of this minute or later ones; only of this minute, if the clock never goes back |
| `RateLimit.BackwardClockForgets` | backend/internal/middleware/ratelimit.go:78-80 | A clock that goes back and forth can restart a bucket (exactly when, says `RateLimit.LocalCountsHistoryIff`) |
| `RateLimit.LocalAdmits` | backend/internal/middleware/ratelimit.go:49-53 | The local counter admits exactly the first `limit` calls of a key in a minute, as long as none was forgotten when a later one was answered |
| `RateLimit.OrderedKeepsCounts` | backend/internal/middleware/ratelimit.go:71-83 | With a clock that never goes back, none ever is |
| `RateLimit.RedisAdmits` | backend/internal/middleware/ratelimit.go:57-69 | If the Redis counter gives no answer within the limit more than `times` times, in whatever order, it admits at most `times` times the limit |
| `RateLimit.AdmitsAtMostTwiceTheLimit` | backend/internal/middleware/ratelimit.go:37-69 | However often Redis fails to answer, as long as it keeps its counter, a process admits at most `limit` requests through each counter, twice that in all |
| `RateLimit.AdmitsWithLostCounters` | backend/internal/middleware/ratelimit.go:37-69 | If Redis also loses its counter, each repetition of its answers admits the limit once more |
| `RateLimit.CountedThisMinute` | backend/internal/middleware/ratelimit.go:71-94 | In seconds: with a clock that never goes back the answer is one plus the earlier calls of the key in the sixty seconds of the same minute, and the map holds at most 512 entries or the keys of those seconds |
| `RateLimit.AdmitsPerMinute` | backend/internal/middleware/ratelimit.go:37-69 | In seconds: of the requests of a key in the sixty seconds of a minute at most `limit` are admitted through Redis, and exactly the first `limit` of those it did not answer through the local counter |
| `RateLimit.Limiter.CleanupLocal` | backend/internal/middleware/ratelimit.go:85-94 | Below 512 entries nothing is deleted, from 512 on exactly the buckets of earlier minutes |
| `RateLimit.Limiter.IncrementLocal` | backend/internal/middleware/ratelimit.go:71-83 | Returns one plus the earlier calls of the key in the sixty seconds of this minute if and only if none was forgotten, so always with a clock that never goes back |
| `RateLimit.Limiter.Middleware` | backend/internal/middleware/ratelimit.go:37-55 | Admits a request exactly if the answer of Redis, or else the number of calls in the sixty seconds of this minute, is within the limit |

## Left out

- Honest clients: that clients send only versions they have seen is an assumption of the results from `Reachability` on, for the reason shown by `Counterexamples.GuessedVersionUndoesSubmission`.
- Reachability.HonestRun: role checks made by the routes are not part of this model; actor, role and request id are inputs, and the roles the directive handler checks itself are modelled.
- GateOutcomes.DirectiveSettlesGate: stated for handlers that run by themselves; the interleaved form needs the condition of `GateOutcomes.DirectiveGateOutcomeIff`.
- GateOutcomes.ReceiptSettlesAll: stated for handlers that run by themselves; the interleaved form needs the condition of `GateOutcomes.ReceiptGateOutcomeIff`.
- Orphans.OrphanIsFrozen: has a condition on updates in flight, because without it the claim is false of the code (`Counterexamples.OrphanChangesOnce`); `Orphans.OrphanIsFrozenIff` shows the condition to be exact.
- Receipts.RunCoherent: does not cover confirmations that were incoherent at the start, of which the seeded EC-001 is one; `Receipts.RunCopiedIff` says exactly when they become coherent.
- Exclusive use of a gate: the code lets several directives execute on one gate (`Counterexamples.TwoExecutionsShareAGate`), so nothing is claimed about it.
- Serial.RunIsSerial: equates the rows; the order of ledger and log is that of the commits, and is not compared (both ledgers fit the same rows, as both states are valid).
- Timestamps (created, updated, submitted, approved, confirmed, tombstone time): not stored; a tombstone is a mark.
- Descriptions, measurements and evidence: carried as opaque columns.
- Version width: versions are natural numbers without wrap-around.
- Reservoirs: the gate service looks reservoirs up in a fixed repository; changes to reservoirs are not part of this model, and a handler in flight carries the result of its lookup.
- Requested gate targets: that they are gate statuses is guaranteed by the request binding (`Lifecycle.Bound`); binding itself is not modelled, and status text that names no status is refused as the transition graphs refuse it.
- Text.CanonIdempotent: upper-casing is modelled for ASCII letters, as codes use them; other letters are left alone.
- Text.EqualFoldEquivalence: case folding is modelled for ASCII letters.
- Text.EqualFoldIsSameUpper: case folding is modelled for ASCII letters; it does not hold of all of Unicode, where the Kelvin sign folds to k but is its own upper case.
- Text.FoldMatchesStoredCode: case folding is modelled for ASCII letters, and fails for the same Unicode letters.
- Tables: the three tables are one map keyed by table and primary key; one key sequence serves all tables.
- The lookup of a directive by code reads it twice in the code, by code and then by key; it is one read here.
- Reads never fail; the final read of a handler after its commit is assumed to find the row it wrote.
- GORM and SQL internals, association saving, isolation levels, opening a transaction or a savepoint that fails: a conditional update, soft-delete filtering, unique indexes over all rows and atomic commit are assumed.
- Lists, paging, status counts, audit queries and summaries: they only read.
- HTTP handlers, JSON, tokens, password hashes, request-id normalisation, configuration, start-up, the user interface and scripts: not part of this model.
- RateLimit.AdmitsAtMostTwiceTheLimit: assumes that Redis does not lose its counter within the minute; `RateLimit.AdmitsWithLostCounters` says what happens if it does.
- The expiry of Redis counters and response headers: they do not affect admission within a minute.
