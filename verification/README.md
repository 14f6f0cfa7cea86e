# Verification of the delivery system's persistence and execution core

This project models the part of the delivery system that has to stay right when processes race, crash and
restart: applying an approved list of write operations to a remote repository, deciding which lists are
eligible, the canonical form that digests are taken of, the tokeniser that compares stored table
definitions, and the append-only and index stores for attestations, authority bindings and audits.

**The execution protocol.** The four durable tables of a workspace are one value (`ExecutionTables.Tables`),
and every store call is one atomic step on it that either commits or raises. `ExecutionStore.Store` is the
store as it is written, with the tables as fields that the methods reassign; each method is proved equal to
its step. `ApplyProtocol` lets any number of appliers run over the tables: a run is an arbitrary sequence of
arrivals, applier steps, crashes and generic (unmanaged) store calls, and a ghost log records every remote
dispatch. `Applier.Apply` is the apply loop; its contract says that whatever it does, with everybody else
acting between any two of its calls, is such a run. The theorems in `ApplyTheorems`, `SafeOrder` and
`ApplyProgress` therefore hold of it. `Dispatches` says what is sent, `Settlements` how an operation ends that does
not succeed, `Answers` compares the durable rows with what the remote system answered, and `Continuity` says under
whose credential all of it is done; their conditions, codes and end states are written out there, apart from the
functions that the applier computes with. `GenericRuns` follows the unmanaged calls over their own applications.

**The operation compiler.** Items and planned relationships determine one operation list. The two evaluators
collect overlapping blockers in loops; the blockers are shown to collapse to "the list is the compiled list
and every endpoint is known", and that is shown to be what makes every later lookup of the applier succeed.
`Blockers` and `BlockersV2` tell the single blockers apart in terms of the submitted entries.

**Canonical form and schema text.** What the JSON printer prints is read back by a reader written after the
grammar of RFC 8259 and not after the printer, and no text that is read as the same value is shorter. The
printer is uniquely decodable, normalising is idempotent, keeps what is there and forgets insertion and
iteration order at any depth, and snapshot digests follow. The tokeniser is the exact
inverse of laying out tokens: a text lexes to a token list if and only if it is a layout of it. The separate
character scanner that cuts one table's definition out of a schema script is shown to stop where the tokens
close, as long as no comment or bracketed name leaves a quote or parenthesis open.

**Stores.** The attestation history is an append-only log per artifact, kept by an in-memory store with
markers and corruption checks and by a SQLite store whose every database call may fail. Authority bindings
are a map with an index. The audit producer is compared with the independent check on committed audits, and
schema upgrades are followed through failures inside their transactions.

Some results are exact conditions rather than plain guarantees:

- A checked create result may still not be usable as a reference: a node id of blanks only passes the check
  on the remote reply but not the constructor of a reference (`SafeOrder.TrustedCreateReference`). So a
  claimed relationship of an eligible list materialises if and only if both node ids are not blank and the
  two issues differ (`SafeOrder.EligibleRelationshipMaterializes` gives the exact result,
  `ApplyProgress.BlankNodeIdFails` the runs that fail). The shipped driver refuses such node ids itself
  (delivery_system/drivers/github_write.py:312), so only replies of another driver meet this.
- What `_validate` accepts passes the commit check if and only if every evaluation gives a rationale, lists no
  reference twice, and every applicable rule was evaluated (`Audit.ProducerMeetsCheck`). `_validate` looks at
  neither of the first two and enforces the third only for mandatory rules; `record_audit` refuses the rest
  itself, because it puts the record to the commit check before it hands it on (`Audit.RecordAudit`,
  `Audit.AcceptedButRefused`). Every rule of the shipped registry is mandatory.
- On calls that are valid and address the workspace, reads among them, the SQLite and the in-memory attestation
  stores give the same answers and end with the same log if and only if no call brings a new artifact with a
  binding id that is already in use; the first such call is where they first differ
  (`AttestationSqlite.StoresAgree`, `AttestationSqlite.FirstDisagreement`).
- Finalising a complete application succeeds if and only if the runtime accepts, the clock has not gone
  back, the continuity anchor is the same and no stray application receipt is stored; it never fails for a
  missing or wrong operation receipt (`ApplyTheorems.FinalizeSucceedsExactly`).
- The scanner for table definitions knows neither comments nor a doubled closing bracket: a parenthesis in a
  comment ends a definition early, and one after a doubled bracket is counted
  (`TableDefinitions.CommentEndsDefinition`, `TableDefinitions.BracketOpensParenthesis`). It passes over such
  a piece in every context if and only if, as the piece is written, its quotes are paired and the parentheses
  outside them are balanced (`TableDefinitions.InvisibleExactlyNeutral`). The three scripts it is given today
  hold no comments and no bracketed names.
- The first version-4 layout is recognised without comparing constraints, so its rows are first checked when they
  are copied: the upgrade succeeds if and only if every row records the first contract version and meets the
  other current constraints. The integrity error of a row that does not is caught nowhere in the call
  (`SchemaUpgrade.Upgrade4Succeeds`, `SchemaUpgrade.LegacyRowRefused`); the attestation store then closes its
  connection, which rolls back.
- A transition of an unmanaged attempt always follows the transition table, from exactly the attempt that the caller
  expected; saving an attempt outright over a stored one succeeds whatever the two phases are, and so follows the
  table only if the caller hands in a step of it (`GenericRuns.AttemptsFollowTable`,
  `GenericRuns.SavingIgnoresTable`): an applied attempt can become pending again
  (`GenericRuns.SavingGoesPastTable`). Short of such a save, an ended attempt or application stays as it is.
- A claim whose holder is gone is never taken over (`ApplyTheorems.OrphanedClaimIsFrozen`).

Digests are modelled by the values they are taken of, that is, SHA-256 is taken to be injective. All
contexts of one application id carry the same operation list, because the id holds it.

## Model

| member | source | states |
|---|---|---|
| ApplyTheorems.AtMostOnceInOrder | delivery_system/applier.py:93-206 | over every interleaving of appliers, crashes and generic calls, no operation is dispatched twice, dispatches of an application are in order, and the receipts of all lower operations are stored when one is dispatched |
| ApplyTheorems.DispatchesAreInitialSegment | delivery_system/applier.py:93-206 | the dispatched indices of an application are exactly 0, 1, 2, ... up to its progress, and one more only while that operation is claimed or was settled |
| ApplyTheorems.EventAdvances | delivery_system/execution_state.py:23-77 | every event leaves a managed row alone or is one durable step of its claim holder that obeys the transition table (finalising excepted), lowers the rank, and except for settling does not turn the clock back |
| ApplyTheorems.DurableStepsBounded | delivery_system/execution_state.py:23-77 | a managed application over n operations makes at most 2n + 1 durable steps in any run |
| ApplyTheorems.TerminalIsFinal | delivery_system/execution_state.py:23-33 | once Failed, Blocked, OutcomeUnknown or Applied, no row of the application ever changes and nothing is dispatched for it |
| ApplyTheorems.OrphanedClaimIsFrozen | delivery_system/applier.py:99-122 | an application whose claim holder is gone stays as it is for ever; nobody takes the claim over |
| ApplyTheorems.CleanApplicationStaysExact | delivery_system/execution_store.py:361-563 | the table invariant of an application created without rows, in every later world: receipts exactly below the next index, attempts Applied below it, an application receipt exactly when Applied |
| ApplyTheorems.CreationIsClean | delivery_system/execution_store.py:361-389 | creating an application of which no row is stored starts such a clean application with the full rank |
| ApplyTheorems.AppliedClockNeverFalls | delivery_system/execution_store.py:36-39 | in a run that reaches Applied, the row's update time never falls |
| ApplyTheorems.CompletionIsLast | delivery_system/execution_store.py:524-563 | the completion time of an applied application is its last update and no earlier than its start or any receipt's completion |
| ApplyTheorems.ReplayAccepts | delivery_system/execution_store.py:194-225 | what finalising wrote is what the replay check demands, and the application receipt matches the stored receipts |
| ApplyTheorems.ReapplyReturnsReceipt | delivery_system/applier.py:93-98 | every later apply of an applied application, after any run, returns its receipt id, dispatches nothing and changes nothing |
| ApplyTheorems.FinalizeSucceedsExactly | delivery_system/execution_store.py:524-563 | finalising a complete application succeeds if and only if the runtime accepts, the clock is not earlier, the anchor is the same and no application receipt exists |
| ApplyProtocol.RunKeeps | delivery_system/applier.py:83-206 | the invariant over all four tables, all clients and the dispatch log holds in every run |
| ApplyProtocol.NextKeeps | delivery_system/applier.py:83-206 | every single event keeps that invariant |
| ManagedRows.CreateKeeps | delivery_system/execution_store.py:361-389 | creating keeps the row invariant, other applications' rows, and an existing application unchanged |
| ManagedRows.ClaimKeeps | delivery_system/execution_store.py:391-433 | claiming keeps the row invariant and moves exactly the claimed row, to the attempt at the next index |
| ManagedRows.CompleteKeeps | delivery_system/execution_store.py:449-495 | completing keeps the row invariant, stores the receipt of the operation at the next index and advances by one |
| ManagedRows.SettleKeeps | delivery_system/execution_store.py:497-522 | settling keeps the row invariant and ends attempt and application alike |
| ManagedRows.FinalizeKeeps | delivery_system/execution_store.py:524-563 | finalising keeps the row invariant and writes a receipt that refers to every stored receipt in order |
| ManagedRows.ManagedRowsAreConstructed | delivery_system/execution_state.py:124-139 | a managed row always passes its constructor: no reference twice, and no owner or attempt while pending or partially applied |
| ManagedRows.GenericNonInterference | delivery_system/execution_store.py:61-127 | a generic call touches no row of a managed application and neither makes nor unmakes one |
| ManagedRows.GenericCallsNeverInterfere | delivery_system/execution_store.py:227-359 | the same over every sequence of generic calls from any store instances |
| GenericRuns.ReceiptsNeverChange | delivery_system/execution_store.py:584-644 | over every sequence of generic calls, no receipt is lost or changed and no attempt is lost or bound to another operation |
| GenericRuns.AttemptsFollowTable | delivery_system/execution_store.py:227-312 | a generic call changes a stored attempt only by a step of the transition table from exactly the attempt expected, keeping its start, or by saving it outright |
| GenericRuns.ApplicationsFollowTable | delivery_system/execution_store.py:90-359 | a generic call changes a stored application only while it is unmanaged and under the same anchor: by a step of the transition table from exactly the state expected, with at most one more reference, whose receipt is stored, or by saving it outright |
| GenericRuns.SavingIgnoresTable | delivery_system/execution_store.py:227-257 | saving an attempt outright succeeds or fails whatever the phases are |
| GenericRuns.SavingGoesPastTable | delivery_system/execution_store.py:227-257 | an applied attempt of an unmanaged application that a save makes pending again |
| GenericRuns.EndedAttemptIsFinal | delivery_system/execution_state.py:23-77 | short of saving it outright, an ended attempt stays as it is over every sequence of generic calls |
| GenericRuns.EndedApplicationIsFinal | delivery_system/execution_state.py:23-77 | likewise an ended application |
| ExecutionStore.Store.CreateExecutionIfAbsent | delivery_system/execution_store.py:361-389 | the new tables and result are those of the atomic create step |
| ExecutionStore.Store.ClaimNextOperation | delivery_system/execution_store.py:391-433 | the new tables and result are those of the atomic claim step |
| ExecutionStore.Store.CheckHeldClaim | delivery_system/execution_store.py:435-447 | passes exactly when the claim is still held, changing nothing |
| ExecutionStore.Store.CompleteOperationSuccess | delivery_system/execution_store.py:449-495 | the new tables and result are those of the atomic complete step |
| ExecutionStore.Store.SettleOperation | delivery_system/execution_store.py:497-522 | the new tables and result are those of the atomic settle step |
| ExecutionStore.Store.LoadAllReceipts | delivery_system/execution_store.py:536-546 | the loop loads the receipts in operation order or raises as specified |
| ExecutionStore.Store.FinalizeApplication | delivery_system/execution_store.py:524-563 | the new tables and result are those of the atomic finalise step |
| ExecutionStore.Store.GetExecution | delivery_system/execution_store.py:194-225 | the replay loop accepts exactly what the replay specification accepts |
| ExecutionStore.Store.SaveExecution | delivery_system/execution_store.py:90-127 | equals the generic step |
| ExecutionStore.Store.SaveAttempt | delivery_system/execution_store.py:227-257 | equals the generic step |
| ExecutionStore.Store.CreateAttemptIfAbsent | delivery_system/execution_store.py:259-282 | equals the generic step |
| ExecutionStore.Store.TransitionAttempt | delivery_system/execution_store.py:284-312 | equals the generic step |
| ExecutionStore.Store.TransitionExecution | delivery_system/execution_store.py:314-359 | equals the generic step |
| ExecutionStore.Store.RecordOperationReceipt | delivery_system/execution_store.py:584-604 | equals the generic step |
| ExecutionStore.Store.RecordApplicationReceipt | delivery_system/execution_store.py:624-644 | equals the generic step |
| ExecutionRecords.ApplicationReceipt.ValidateAgainst | delivery_system/receipts.py:238-253 | true exactly when operations, receipts and references match position by position |
| Applier.Apply | delivery_system/applier.py:83-206 | the loop, with everybody else acting between its calls, is a run of the protocol in which this client ends stopped with the returned outcome |
| Applier.ApplyNext | delivery_system/applier.py:99-205 | one iteration is a run that ends one operation further or stopped |
| Applier.LostClaim | delivery_system/applier.py:103-122 | a lost claim is reported from the current state, without dispatching |
| Applier.PrepareCommand | delivery_system/applier.py:124-140 | validating and materialising ends with a command to send or a settlement, as the protocol says |
| Applier.MaterializeCommand | delivery_system/applier.py:209-281 | the command or error that materialising specifies; which command that is over runs, `Dispatches` says |
| Applier.LookUpOperands | delivery_system/applier.py:258-281 | the operands in order, or the error of the first lookup that fails |
| Applier.SendCommand | delivery_system/applier.py:141-160 | the only step that dispatches |
| Applier.RecordReply | delivery_system/applier.py:161-206 | completes with checked evidence or hands over to settling, as the protocol says; where each answer ends, `Settlements` and `Answers` say |
| Dispatches.DispatchedCommandsFit | delivery_system/applier.py:209-281 | over every run, each dispatched command is the one its operation and a live context of an arrival stand for: a create has the repository, the client reference, the rendered title and body of its item in their places, and the operation as request; a relationship joins the issues of its first and second operand, in that order |
| Dispatches.EligibleCreatesDispatch | delivery_system/applier.py:246-251 | for an eligible plan, the dispatch of the create at index k has the title and body of the k-th item |
| Dispatches.EligibleRelationshipsDispatch | delivery_system/applier.py:252-281 | for an eligible plan whose contexts are all of the first version, each dispatched relationship joins the issues that the stored receipts of its source and target creates name |
| Dispatches.EligibleTypedRelationshipsDispatch | delivery_system/applier.py:252-281 | the same where all contexts are of the second version, for typed endpoints, existing issues standing for their bindings |
| Settlements.AmbiguousStaysOpen | delivery_system/applier.py:188-203 | after an ambiguous answer, whatever others do before, the settlement changes nothing or ends row, attempt and returned result in OutcomeUnknown, with the answered code or the default one |
| Settlements.RejectionEnds | delivery_system/applier.py:188-203 | after a rejection, likewise in Blocked for exactly five codes and in Failed for every other, with the answered code or the default one |
| Settlements.RefusalEnds | delivery_system/applier.py:147-160 | a dispatch refused for one of eight credential codes ends in Blocked; every other refusal is raised with the claim left as it is |
| Settlements.RefusedCommandEnds | delivery_system/applier.py:124-140 | what validating the claim or making the command raises ends in Blocked for exactly ten codes and in Failed for every other, without a dispatch; an error that is no ValueError is raised |
| Settlements.LostAuthorityLeavesClaim | delivery_system/applier.py:141-175 | an authority that is no longer current leaves the claim for recovery, before and after the dispatch |
| Settlements.LaterApplyReports | delivery_system/applier.py:93-98 | applying again what another holds or what has ended changes nothing and returns the stored phase, index and code, or the call for recovery |
| Settlements.ClaimStandsExactly | delivery_system/execution_store.py:435-447 | a claim is valid if and only if row and attempt are the stored ones and still applying under this owner and attempt |
| Settlements.LostRaceReports | delivery_system/applier.py:103-122 | a lost claim is answered from the row as it is by then, or with its own error if the row has not moved |
| Settlements.SettlementTakesEffect | delivery_system/execution_store.py:497-522 | over every run, the settlement of a claim holder takes effect whenever the runtime refuses nothing |
| Answers.AcceptedExactly | delivery_system/applier.py:284-316 | a successful answer is accepted if and only if it carries the listed evidence: repository, executor, contract version and status, and for a create exactly the seven keys with a positive number, a numeric id of up to twenty digits and a node id |
| Answers.KeptOfAnswer | delivery_system/applier.py:313-316 | what is kept of an accepted answer is its identity and payload, under the kind of the operation |
| Answers.FinishedWereAnswered | delivery_system/applier.py:161-187 | over every run, each finished operation holds exactly what the remote answered to its one dispatch, and that answer vouches for the write |
| Answers.EndsAreTrue | delivery_system/applier.py:124-203 | over every run, an open outcome stands for an ambiguous answer, and an operation recorded as failed or blocked was answered with nothing but a rejection, if at all |
| Continuity.ContinuesExactly | delivery_system/runtime.py:3265-3283 | a stored attempt is continued if and only if it is one of the operations of the context and actor, driver and remote authority are the same, the actor being a principal or else a credential instance of an issuer |
| Continuity.OneActor | delivery_system/runtime.py:3232-3239 | over every run, any two finished operations of a managed application were recorded by one actor |
| Continuity.HoldersContinue | delivery_system/runtime.py:3232-3283 | over every run, the continuity checks pass for whoever holds the claim |
| SafeOrder.FinishedOperationsAreEvidenced | delivery_system/applier.py:284-316 | in every run, each finished operation's receipt carries evidence checked for its kind and repository |
| SafeOrder.LookupsFindStoredReceipts | delivery_system/applier.py:319-329 | whenever a claim is held in a run, looking up any item created below it finds that create's stored receipt; no lookup reports a missing receipt |
| SafeOrder.EligibleRelationshipMaterializes | delivery_system/applier.py:262-281 | the exact result of materialising a claimed relationship of an eligible list |
| SafeOrder.EligibleTypedRelationshipResolves | delivery_system/applier.py:240-265 | the same for typed endpoints: each work item resolves to its stored create, each existing issue to its binding |
| SafeOrder.TrustedCreateReference | delivery_system/applier.py:284-329 | checked evidence makes a reference unless its node id is blank |
| SafeOrder.EncodeLosesOnlyDependencies | delivery_system/runtime.py:85-106 | two typed entries have the same durable form if and only if they agree in everything but their dependencies |
| ApplyProgress.EligiblePlanCompletes | delivery_system/applier.py:83-206 | whatever ran before, an uninterrupted apply of an eligible plan of either version ends applied with every operation dispatched once in order, for every clock that does not go back, all valid owners, and all replies that pass the evidence check and name a usable and new issue each |
| ApplyProgress.EligiblePlanHasRun | delivery_system/applier.py:83-206 | every eligible plan of either version has such a run |
| ApplyProgress.BlankNodeIdFails | delivery_system/applier.py:284-329 | with replies that all pass the evidence check, the first relationship of an eligible plan is settled as failed, without a dispatch, when the node id given to its source is blank |
| ApplyProgress.BlankNodeIdRun | delivery_system/applier.py:284-329 | every eligible plan with a relationship has such a run |
| WriteOperations.Normalize | delivery_system/write_operations.py:26-49 | returns the list unchanged, or the error of the first bad entry |
| WriteOperations.Evaluate | delivery_system/write_operations.py:65-137 | raises exactly on malformed input, with the code of the first fault; otherwise the blockers are exactly those that apply, and eligible means none |
| WriteOperations.EligibilityCollapses | delivery_system/write_operations.py:65-137 | eligible if and only if the list is the compiled list and every relationship endpoint is an item |
| WriteOperations.CreatesComeFirst | delivery_system/write_operations.py:126-135 | each reference a relationship uses is created by exactly one entry, which comes earlier |
| Blockers.BlockersMean | delivery_system/write_operations.py:82-137 | each blocker is reported if and only if what it says is so of the submitted entries: an unknown reference, a dependency, a kind, a shape, an item created twice or not at all, a relationship missing or unplanned, an entry out of place |
| WriteOperationsV2.NormalizeV2 | delivery_system/write_operations.py:167-197 | accepts exactly the normal typed entries, unchanged, or raises the error of the first bad entry |
| WriteOperationsV2.EvaluateV2 | delivery_system/write_operations.py:200-281 | raises exactly on malformed input, with the code of the first fault; otherwise the blockers are exactly those that apply |
| WriteOperationsV2.EligibilityCollapsesV2 | delivery_system/write_operations.py:200-281 | eligible if and only if the list is the compiled list, endpoints are known in their own name space, and none joins two existing issues |
| WriteOperationsV2.EmbeddingKeepsVerdict | delivery_system/write_operations.py:65-281 | a first-version plan read as a typed plan without bindings gets the same verdict, a raise counting as not eligible |
| BlockersV2.BlockersMeanV2 | delivery_system/write_operations.py:216-281 | the same for the typed form, in terms of the endpoints as submitted; among them, that the remote system already holds the planned relationship between the issues its endpoints are bound to |
| CanonicalText.TextFixesExactlyClean | delivery_system/canonical.py:12-14 | text normalisation is idempotent and leaves a text alone exactly when it is clean |
| CanonicalLines.LinesSurvive | delivery_system/canonical.py:12-14 | the lines of the normalised text are the lines of the text, whichever way they were broken, without trailing blanks, and without blank lines and blanks at both ends |
| JsonText.PrintUnique | delivery_system/canonical.py:17-18 | a printed value can be read off the front of a text in one way only |
| JsonText.PrintInjective | delivery_system/canonical.py:52-54 | equal texts are texts of equal values |
| JsonReader.PrintReadsBack | delivery_system/canonical.py:52-54 | a reader after the grammar of RFC 8259 reads the printed text as the value printed |
| JsonShortest.PrintIsShortest | delivery_system/canonical.py:52-54 | no text that is read as a value is shorter than its printed one |
| JsonShortest.NumbersAreLowerCase | delivery_system/canonical.py:52-54 | an escape by number has lower-case digits |
| JsonText.QuotedUnique | delivery_system/canonical.py:17-18 | quoted strings with escapes decode uniquely |
| JsonText.IntTextUnique | delivery_system/canonical.py:17-18 | printed integers decode uniquely before a delimiter |
| CanonicalValue.NormalizeFixesExactlyNormal | delivery_system/canonical.py:21-49 | normalising is idempotent and leaves a value alone exactly when it is normal |
| CanonicalValue.NormalizeForgetsOrder | delivery_system/canonical.py:21-49 | the normalised value does not depend on mapping insertion order or set iteration order, at any depth |
| CanonicalValue.NormalizeKeeps | delivery_system/canonical.py:21-49 | normalising keeps scalars, list items in order, the elements of a set as often as they occur and ordered by their texts, and mapping entries under their keys in key order |
| CanonicalValue.PayloadDecides | delivery_system/canonical.py:52-58 | canonical texts are equal if and only if the normalised values are; which text it is, the next two rows say |
| CanonicalValue.PayloadReadsBack | delivery_system/canonical.py:52-54 | the canonical text is read back as the normalised value |
| CanonicalValue.PayloadIsShortest | delivery_system/canonical.py:52-54 | and is a shortest text that is |
| Sorting.SortedForgetsOrder | delivery_system/canonical.py:41-43 | sorting by a key that tells the elements apart forgets their order |
| Sorting.TextOrder | delivery_system/canonical.py:34-43 | texts are ordered by the first character in which they differ, a beginning before the whole |
| Sorting.KeyOrder | delivery_system/remote_snapshot.py:203-206 | composite keys are ordered by the first part in which they differ |
| RemoteSnapshot.DigestCovers | delivery_system/remote_snapshot.py:196-214 | the digest text is the canonical text of the covered entries; the observation time has no part in it |
| RemoteSnapshot.DigestDecides | delivery_system/remote_snapshot.py:211-276 | digests are equal if and only if every covered entry normalises alike |
| RemoteSnapshot.DigestForgetsOrder | delivery_system/remote_snapshot.py:166-276 | order of records, relationships, permissions, capabilities, evidence and scope entries, and the observation time, decide neither acceptance nor digest |
| RemoteSnapshot.ShuffledAccepted | delivery_system/remote_snapshot.py:167-194 | reordered records are accepted alike and sort to the same lists |
| SnapshotFields.AcceptedExactly | delivery_system/remote_snapshot.py:166-194 | records make a snapshot if and only if each issue belongs to the repository and is well formed, ids, evidence and capabilities are distinct, and relationships are of a known kind between the issues |
| SnapshotFields.RefusedBecause | delivery_system/remote_snapshot.py:166-194 | whatever code the records are refused with, that is what is wrong with them |
| SnapshotFields.SnapshotKeeps | delivery_system/remote_snapshot.py:191-194 | each argument is kept in its own field, record by record |
| SnapshotFields.DictHolds | delivery_system/remote_snapshot.py:196-209 | each field stands under its own name in the dictionary that is digested |
| SnapshotFields.DictLists | delivery_system/remote_snapshot.py:196-209 | the lists stand there in the order of their keys |
| SnapshotFields.IssueHolds | delivery_system/remote_snapshot.py:54-108 | each field of an issue record stands under its own name |
| SnapshotFields.RecordsHold | delivery_system/remote_snapshot.py:111-130 | likewise each field of a relationship record and each permission |
| DdlLexer.LexDdl | delivery_system/sqlite_schema.py:220-318 | the index loop returns the tokens or error of the tokeniser's specification |
| DdlLexer.ScanDelimited | delivery_system/sqlite_schema.py:240-297 | the inner loop reads up to the closing delimiter, doubled ones standing for one |
| DdlLexer.ScanNumber | delivery_system/sqlite_schema.py:304-312 | the inner loop takes the longest number, a sign only after an e |
| DdlLayout.LexOfLayout | delivery_system/sqlite_schema.py:220-318 | printing tokens in any layout and quoting style and lexing gives them back |
| DdlLayout.LayoutOfLexed | delivery_system/sqlite_schema.py:220-318 | whatever is accepted is a layout of the tokens returned |
| DdlLayout.LexesExactlyLayouts | delivery_system/sqlite_schema.py:220-318 | a text lexes to a token list if and only if it is some layout of it |
| CheckConstraints.CheckExpressionsOf | delivery_system/sqlite_schema.py:325-353 | the nested loops return the sorted bodies, or the mismatch error |
| CheckConstraints.CollectBodies | delivery_system/sqlite_schema.py:329-350 | the outer loop finds the body of every CHECK in order |
| CheckConstraints.FindClosing | delivery_system/sqlite_schema.py:335-347 | the inner loop finds the partner of an opening parenthesis |
| CheckConstraints.BodyIsBalanced | delivery_system/sqlite_schema.py:335-349 | the partner found closes exactly the balanced text before it |
| CheckConstraints.BodiesAreBalanced | delivery_system/sqlite_schema.py:349-350 | every extracted body is parenthesis-balanced |
| CheckConstraints.BodiesInOrder | delivery_system/sqlite_schema.py:325-353 | the constraints found are the balanced bodies behind all CHECK words, each once and in order |
| CheckConstraints.BodiesSucceedExactly | delivery_system/sqlite_schema.py:331-348 | the search succeeds if and only if a closed parenthesis follows every CHECK word |
| CheckConstraints.WrittenCheckIsFound | delivery_system/sqlite_schema.py:325-353 | the balanced body of a CHECK, written in any case and layout and anywhere in the text, is among the constraints of the text |
| CheckConstraints.ChecksSeeDefinitionsOnly | delivery_system/sqlite_schema.py:325-353 | the comparison is blind to layout, quoting style and the order of definitions |
| CheckConstraints.CanonicalDecides | delivery_system/sqlite_schema.py:321-322 | the rendered constraint determines its tokens |
| TableDefinitions.ScriptTableDefinition | delivery_system/sqlite_schema.py:356-383 | the scanning loop returns what the specification cuts out |
| TableDefinitions.HeaderMatches | delivery_system/sqlite_schema.py:357-361 | the matcher, with its backtracking over blanks, accepts exactly the texts of the header pattern, whatever the table name |
| TableDefinitions.ScannerMeetsTokens | delivery_system/sqlite_schema.py:362-383 | on a plain layout the character scanner stops at the very piece where the tokens close, or both find none |
| TableDefinitions.DefinitionOfLayout | delivery_system/sqlite_schema.py:356-383 | what is cut out is the first matching header and the pieces up to the one that closes a balanced body; it is empty exactly when the tokens never close |
| TableDefinitions.DefinitionChecks | delivery_system/sqlite_schema.py:620-623 | the checks expected of a table are those between its header and its closing parenthesis, whatever follows in the script |
| TableDefinitions.InvisibleExactlyNeutral | delivery_system/sqlite_schema.py:364-381 | the scanner passes over a text at every depth and before every continuation if and only if its quotes are paired and the parentheses outside them are balanced |
| TableDefinitions.CommentEndsDefinition | delivery_system/sqlite_schema.py:364-382 | a script of one statement that is cut short at a parenthesis in a comment, although the tokeniser reads it whole |
| TableDefinitions.BracketOpensParenthesis | delivery_system/sqlite_schema.py:373-375 | a script of one statement of which nothing is cut out, because a parenthesis after a doubled closing bracket is counted |
| AttestationLog.HistoryIsAppendOnly | delivery_system/attestation_persistence_store.py:402-504 | over every run, aggregates never change, histories only grow at the end, and hold each identity once |
| AttestationLog.AppendedKeepsNumber | delivery_system/attestation_persistence_store.py:475-486 | appending an event again, after any calls, changes nothing and returns its old number; another event of its identity is refused |
| AttestationLog.LatestIsLastAppended | delivery_system/attestation_persistence_store.py:488-504 | latest is the event last appended, numbered one above the previous latest |
| AttestationLog.StoredExactly | delivery_system/attestation_persistence.py:617-641 | a new artifact is stored if and only if its reference repeats its claims, field by field |
| AttestationLog.PersistAnswers | delivery_system/attestation_persistence_store.py:402-438 | persisting what is stored already returns it and replaces nothing; a different artifact or reference is refused, each with its own code |
| AttestationLog.AppendAnswers | delivery_system/attestation_persistence_store.py:455-486 | appending is refused without an artifact, for another artifact or reference, and for another event under a stored identity, each with its own code |
| AttestationLog.StoredHistoriesRepeat | delivery_system/attestation_persistence_store.py:402-486 | over every run, each history stands under its artifact, its reference repeats the artifact, and each event names that artifact and reference |
| AttestationMemory.MemoryStore.PersistArtifact | delivery_system/attestation_persistence_store.py:402-438 | does to the log what persisting means |
| AttestationMemory.MemoryStore.AppendEvent | delivery_system/attestation_persistence_store.py:455-486 | does to the log what appending means; corruption is never reported |
| AttestationMemory.MemoryStore.LatestEvent | delivery_system/attestation_persistence_store.py:488-504 | returns the latest of the log |
| AttestationMemory.MemoryStore.GetArtifactAggregate | delivery_system/attestation_persistence_store.py:440-453 | returns the aggregate of the log |
| AttestationMemory.CheckRecords | delivery_system/attestation_persistence_store.py:356-400 | the loop over the records passes every corruption check on a store in order |
| AttestationSqlite.SqliteStore.PersistArtifact | delivery_system/attestation_persistence_store.py:772-815 | whatever fails, ends open or closed; raises without change, or, when the commit outcome is unknown, with exactly the change that persisting means; otherwise refines persisting |
| AttestationSqlite.SqliteStore.AppendEvent | delivery_system/attestation_persistence_store.py:834-886 | likewise for appending |
| AttestationSqlite.SqliteStore.GetArtifactAggregate | delivery_system/attestation_persistence_store.py:817-832 | likewise, and never changes the tables |
| AttestationSqlite.SqliteStore.LatestEvent | delivery_system/attestation_persistence_store.py:888-910 | likewise, and never changes the tables |
| AttestationSqlite.SqliteStore.Close | delivery_system/attestation_persistence_store.py:580-592 | closes for good without changing the tables |
| AttestationSqlite.SqliteStore.Begin | delivery_system/attestation_persistence_store.py:608-621 | a failed begin leaves no transaction |
| AttestationSqlite.SqliteStore.Abort | delivery_system/attestation_persistence_store.py:623-634 | a rollback reopens the store, or closes it when it fails |
| AttestationSqlite.SqliteStore.Break | delivery_system/attestation_persistence_store.py:562-578 | a database error rolls back, or closes the store when it is fatal |
| AttestationSqlite.SqliteStore.Commit | delivery_system/attestation_persistence_store.py:636-647 | a failed commit closes the store with an unknown outcome |
| AttestationSqlite.StoresAgree | delivery_system/attestation_persistence_store.py:312-910 | on every run of well-addressed writes and reads the two stores give the same answers and end with the same log if and only if no call brings a new artifact with a used binding id |
| AttestationSqlite.FirstDisagreement | delivery_system/attestation_persistence_store.py:772-815 | the stores answer alike up to the first such call, and there the in-memory store takes the artifact in while the SQLite store reports a conflict |
| AttestationSqlite.UnsharedAgree | delivery_system/attestation_persistence_store.py:772-815 | calls in which no two artifacts bring one binding id never meet that case |
| AttestationSqlite.AggregateReads | delivery_system/attestation_persistence_store.py:732-770 | reading from sound tables never reports corruption |
| RestartRevalidation.Service.Revalidate | delivery_system/attestation_restart.py:496-549 | a call that returns appended exactly one event, one above the previous latest, for a fresh attempt; the outcome is successful if and only if the artifact has no extension, has not expired and is answered current and not revoked, failed with its own code in each of three other cases, and in the remaining ones the call raises; a call that raises appended none |
| RestartRevalidation.Service.AppendOutcome | delivery_system/attestation_restart.py:581-607 | binding and appending the outcome adds one event |
| RestartRevalidation.AttemptsAreOnce | delivery_system/attestation_persistence.py:869-947 | over every run of the boundary, an issued id is never issued again and a bound attempt keeps its event |
| RestartRevalidation.SuccessesAreVouchedFor | delivery_system/attestation_restart.py:496-549 | over every run of calls, a successful event was appended by a call that found its artifact unextended, unexpired and answered current and not revoked |
| RestartRevalidation.ServiceContinues | delivery_system/attestation_restart.py:496-549 | over every run of calls, histories only grow |
| RestartRevalidation.Boundary.NewAttempt | delivery_system/attestation_persistence.py:877-892 | equals the step that issues an attempt |
| RestartRevalidation.Boundary.BindEvent | delivery_system/attestation_persistence.py:921-947 | equals the step that binds an attempt to its one event |
| AuthorityBindings.SavesStayDisjoint | delivery_system/authority_binding_persistence.py:188-244 | over every run of saves, operation sets stay disjoint, saved bindings stay, and saving again is idempotent |
| AuthorityBindings.SavedAreOwn | delivery_system/authority_binding_persistence.py:78-185 | over every run of saves, what is stored was signed with the one algorithm for this workspace and stands under its own issuance id |
| AuthorityBindings.SaveAnswers | delivery_system/authority_binding_persistence.py:228-244 | what saving answers: of a new binding, success if and only if it shares no operation with a saved one; the map changes only then |
| AuthorityBindings.LookupAnswers | delivery_system/authority_binding_persistence.py:246-262 | a lookup is answered if and only if the workspace is named properly and is the own one and the identity has its prefix and 64 hexadecimal digits; each refusal has its own code |
| AuthorityBindings.ResolvesOnce | delivery_system/authority_binding_persistence.py:256-272 | resolving an operation has exactly one answer |
| AuthorityBindings.IndexedAreDisjoint | delivery_system/authority_binding_persistence.py:188-226 | an exact assignment table makes the operation sets disjoint |
| AuthorityBindings.ParentReads | delivery_system/authority_binding_persistence.py:197-226 | the corruption checks never fire on a store in order |
| AuthorityBindings.InMemoryStore.SaveBinding | delivery_system/authority_binding_persistence.py:228-244 | all or nothing: the abstract map and result of saving, with the index kept exact |
| AuthorityBindings.InMemoryStore.LoadBinding | delivery_system/authority_binding_persistence.py:246-254 | returns the saved binding or none |
| AuthorityBindings.InMemoryStore.ResolveOperation | delivery_system/authority_binding_persistence.py:256-272 | returns the one binding that contains the operation, or none |
| AuthorityBindings.SQLiteStore.SaveBinding | delivery_system/authority_binding_persistence.py:379-425 | the same map and result, or a database failure after which nothing changed or, when the commit took effect all the same, exactly the binding was saved |
| AuthorityBindings.SQLiteStore.LoadBinding | delivery_system/authority_binding_persistence.py:427-438 | the same, or a database failure |
| AuthorityBindings.SQLiteStore.ResolveOperation | delivery_system/authority_binding_persistence.py:440-473 | the same, or a database failure |
| Audit.Validate | delivery_system/auditor.py:336-418 | accepts exactly the acceptable drafts, with the payloads made from them, and otherwise raises the specified refusal |
| Audit.RecordAudit | delivery_system/auditor.py:420-469 | hands a record on, whose result is decided by the worst outcome, exactly when the drafts are acceptable, give a rationale, list no reference twice and cover every applicable rule; acceptable drafts that fail one of these are refused at the commit boundary |
| Audit.AcceptedButRefused | delivery_system/auditor.py:428-469 | drafts that validation accepts and recording refuses: no rationale, evidence listed twice, an optional rule left out |
| Audit.ValidateCommitted | delivery_system/auditor.py:182-286 | true exactly on records that satisfy the commit conditions; what it accepts has each finding referenced once and the result of the worst outcome |
| Audit.CommittedMeans | delivery_system/auditor.py:182-286 | in a committed audit the result is AllBlocked, NeedsInformation or ChangesRequired if and only if the worst outcome is Blocked, Unknown or Failed, a rule is marked not applicable if and only if it does not apply, and each finding has the class its rule gives to its outcome |
| Audit.CommittedHolds | delivery_system/auditor.py:182-260 | a committed audit evaluates each rule once under its version with a rationale, refers only where the outcome needs it, and its findings repeat the rule and outcome they belong to, with known items and evidence |
| Audit.RecordKeepsDrafts | delivery_system/auditor.py:336-418 | the record keeps what was drafted, field by field and in order |
| Audit.RecordKeepsReferences | delivery_system/auditor.py:395-418 | a reference of a draft becomes the id of the finding it names |
| Audit.FindingAcceptedExactly | delivery_system/auditor.py:365-390 | a drafted finding is acceptable if and only if class, severity, items, evidence and texts are as required |
| Audit.ProducerMeetsCheck | delivery_system/auditor.py:182-418 | what the producer accepts passes the check if and only if rationales are given, references are listed once and every applicable rule was evaluated |
| Audit.ReferencedOnce | delivery_system/auditor.py:228-247 | each finding of such a record is referenced exactly once |
| Audit.PassedAuditIsClean | delivery_system/auditor.py:262-286 | a passed audit has no findings and every applicable rule passed |
| SchemaUpgrade.RunsNeverLower | delivery_system/sqlite_schema.py:775-1027 | over any sequence of transactions, any of which may fail anywhere, the shape stays recognised and matching, the version never falls, and no attestation row is lost, changed or added |
| SchemaUpgrade.SuccessfulRunsEndAtHighest | delivery_system/sqlite_schema.py:775-1027 | successful transactions end at the highest version reached or asked for |
| SchemaUpgrade.OrderDoesNotMatter | delivery_system/sqlite_schema.py:775-1027 | any order of the same successful upgrades ends at the same version |
| SchemaUpgrade.UpgradeTwice | delivery_system/sqlite_schema.py:775-1027 | upgrading again changes nothing |
| SchemaUpgrade.UpgradedHolds | delivery_system/sqlite_schema.py:775-1027 | what a successful transaction leaves holds exactly the tables and indexes of its version |
| SchemaUpgrade.Upgrade4Succeeds | delivery_system/sqlite_schema.py:775-864 | the first upgrade of a recognised database succeeds if and only if it belongs to the workspace and, in the first version-4 layout, every row records the first contract version and meets the other current constraints |
| SchemaUpgrade.LegacyRowRefused | delivery_system/sqlite_schema.py:640-730 | a recognised database of the workspace whose one artifact of the second contract version stops the upgrade with an integrity error |
| SchemaUpgrade.Connection.EnsureV4 | delivery_system/sqlite_schema.py:775-864 | leaves the database as it was or upgraded, whatever fails; only an integrity error leaves the transaction open, and the next call then fails and closes it |
| SchemaUpgrade.Connection.MigrateLegacy | delivery_system/sqlite_schema.py:701-730 | rebuilding the first version-4 layout gives the canonical one with the same rows, exactly when every row copied with NULL in the added columns meets the current constraints |
| SchemaUpgrade.Connection.Extend | delivery_system/sqlite_schema.py:950-1027 | the transactions that add execution and authority tables, likewise |
| SchemaUpgrade.Connection.EnsureV6 | delivery_system/sqlite_schema.py:947-990 | the first two transactions in turn |
| SchemaUpgrade.Connection.EnsureV7 | delivery_system/sqlite_schema.py:993-1027 | all three transactions in turn |

## Left out

- Digests, signatures and stored JSON are values: a digest equals another exactly when what it covers does, so `verify_integrity` and payload parsing of a row this system wrote always succeed.
- One workspace per set of execution tables: the rejections of rows of another workspace, and the normalisation of repository identities, are not modelled.
- Python type checks, frozen copies, weak references to attempts, locks and closing of connections outside the attestation store: the type system or atomic steps stand for them.
- `Applier.Others` stands for everybody else by its contract only; its body is one of the allowed behaviours.
- Materialising reads all operands from one state of the tables; the source reads them in separate calls, between which a claimed application's receipts do not change.
- Rendering of a work item, re-reading an existing issue, the live runtime's validation and the remote reply are inputs of a step; the closed lists of refusal codes are kept.
- The order in which blockers, sorted payload lists and audit entries are rendered: blockers are a set and audit lists keep the order of the drafts.
- `resolve_application_id_by_approved_context`, the read-only projection store, `validate_schema_v7_read_only` and `validate_current_commit_context`.
- Canonical values: floats, non-text mapping keys, and Unicode composition beyond an alphabet on which it is the identity; with distinct keys the collision error cannot occur.
- The reader of JSON texts reads no fractions, exponents and surrogate pairs, none of which the modelled values print as.
- Case folding is over ASCII; in the tokeniser, characters from 128 on count as letters without case.
- Timestamps of snapshots carry the parser's answer about their time zone.
- The shape checks before a revalidation and the derivation of its context digest are one guard and one text; the result digest is a text of what it covers.
- SchemaUpgrade: column, index and foreign-key details of a table are one definition value, the version-3 scan sees the set of workspaces that rows name, and an attestation row shows its contract version, the two added columns and whether it meets the remaining constraints.
- SQLite itself: a transaction that does not commit leaves the tables as they were, and closing a connection discards an open one.
- Audit.RecordAudit: the guards on revision and context digest are one input, and the store's own commit after the check is not modelled.
- AttestationSqlite.SqliteStore.PersistArtifact: constraint checks other than the uniqueness of binding ids cannot fail for identities derived from their content, and are not modelled.
- RestartRevalidation.Service.Revalidate: assumes that this service is the only one that appends events to its store.
- SchemaUpgrade.Connection.EnsureV4: which of the possible error codes a failed statement raises is not stated.
