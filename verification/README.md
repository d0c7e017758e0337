# Verification of the physical systems harness

A Dafny model of the protocol state machines that keep evidence and ownership straight in the
harness when a remote Node answers late, out of order, wrongly or not at all. Every `await` of
the source is a step boundary; a response may arrive after any number of other steps, or as a
failure. Each stateful file is modelled twice: as a specification on values (`Next`), about which
the theorems over whole runs are proved, and as a class whose fields its methods update in place:
each method ends in exactly the state the specification gives, keeps the invariant proved of every
reachable state (`Valid`), and states its own guarantee about the object.

Run `dafny verify dfyconfig.toml` to check the project.

## Files

- `Options`, `Texts`, `JsonText`, `JsonReading`, `JsonOrder`, `Digests`: UTF-16 text, JSON values,
  the canonical text, its unique reading, and digests. The hash is a parameter; theorems that need
  it collision-free say `Injective(h)`. The simulated Node, whose digests are also short, needs only
  that no other text has the hash of its preparation (`Guards`); `HashesServe` shows such hashes exist.
- `JsonGrammar`, `Encodings`: RFC 8259, RFC 2781 and RFC 3629 in literal code points, and the
  canonical text and its measures proved against them.
- `RunContract`, `RunOrder`, `RunDepth`: run records, when one is believed, and when one may
  replace another; `RunBelief` spells both out by the names and values of the fields.
- `RunPins`: the compact re-check of the run inspector and its table of 128 remembered runs;
  `InspectionRules` spells out what an inspection accepts, shows and remembers.
- `ExecutionProtocol`, `ExecutionHistory`, `ExecutionController`: the execution controller;
  `ExecutionRequests` says exactly what it asks for and what answers do.
- `SimulationNode`, `SimulationRecords`, `SimulationLog`, `SimulationStore`, `SimulationSafety`,
  `SimulationRuns`, `SimulationFile`, `SimulationProgress`, `SimulationExample`, `SimulationHost`: the
  simulated Node, its timers, the log its appends may fail to reach, and what a load makes of that log.
  `SimulationEffects` spells out what each operation stores, `SimulationApproval` who approved a run.
- `ContinuationProtocol`, `ContinuationService`: write-ahead continuations; `ContinuationRequests`
  says which of them go to the agent.
- `Commissioning`, `CommissioningProtocol`, `CommissioningRuns`, `CommissioningController`: the
  gripper check, its recovery and its Stop; `CommissioningRequests` says exactly which requests go
  out over whole runs and what each answer leaves.
- `CaptureProtocol`, `CaptureRuns`, `WorkcellController`: camera capture ownership;
  `CaptureRequests` says when a preview may start and what each answer leaves.
- `JsonSize`, `SetupReport`, `SetupReportFacts`, `SetupReportSize`, `SetupReportRules`: projection,
  truncation, size and parts of the setup report.
- `JpegGeometry`, `EventStream`, `EventStreamRules`, `CatalogFile`, `CatalogRules`, `WorkerPool`,
  `WorkerPoolProgress`: the marker walk, the coalescing event stream, the crash-safe catalog and
  the pool of checks.

The modules named for requests, rules, effects and belief name no guard of the state machine they are
about: they say in literal fields, phases and numbers when something happens and what it leaves.

## What the code does that a reader might not expect

- A believed record whose event detail is nested exactly 16 levels deep is rejected when compared
  with itself: the event object adds a level and the comparison allows 16
  (packages/cli/src/physical/execution-contracts.js:153). `ReflexiveIffShallow` is the exact
  condition; the compact comparison allows 20 levels, so `PinsRefineMatches` asks that the older
  record be shallower.
- An exact gripper reading is compared by configuration digest, not by device identity or origin
  session (packages/cli/src/physical/commissioning-client.js:102-105), so the receipt it may carry
  names the retained device and session exactly when the reading does (`EndFullyBoundIff`,
  `ReleaseMayNameAnotherDevice`).
- The setup report may exceed its limit by up to 33 bytes, because its status text is changed after
  the size was checked (packages/cli/src/harness/setup-inspection.js:311-316); `BoundedExceedsIff`
  says exactly when, and `BoundedMayExceed` gives such reports.
- The simulated Node changes memory before it appends to its log
  (packages/desktop/src/simulation.js:88-91). When an append is lost, a verified success or a
  confirmed Stop that was served becomes an unknown outcome at the next load (`SuccessTakenBack`,
  `StopTakenBack`), and two runs may be open (`TwoMayBeOpen`). `TakenBackIff` is the exact condition:
  what is taken back is what has its latest write missing from the log. A line that does not parse
  ends the session for good (`TornNeverLoads`). `SimulationExample` holds such runs of the empty session.
- When an append of the simulated Node is cut just before its newline, the line still loads. The next
  append joins it, and then the session never loads again although that append succeeded
  (`CutThenNeverLoads`, `SessionLostToSuccess`); a load that closes a run does this itself (`RestartTwice`).
- The history copy of the selected run may be newer than the selected copy, and a step may then take
  the history copy back (`HistoryGoesBackIff`, `GoesBackWithBelievedRecords`); only the selected copy
  never goes back.
- A simulated approval whose second clock reading passes the expiry is refused by the contract
  check after the guard let it through (`ApproveKeeps`).
- In memory an accepted continuation is unconfirmed when its save fails, though the file may have it
  accepted (`AnswerAcceptsIff`, `MemoryMayFallBack`); only a durable acceptance is final.
- Under back-pressure the event stream may write a state twice in a row (`WritesAgainIff`,
  `StateMayBeWrittenTwice`); it never loses one.
- A catalog commit that is reported as failed after its rename is in the file. The next commit of the
  same process is made from memory and replaces it by a catalog of the same revision
  (`SameRevisionIff`, `SameRevisionMayDiffer`).

## Model

| member | source | states |
|---|---|---|
| Texts.CompareKeys | packages/cli/src/physical/execution-contracts.js:54-61 | the index loop gives the sign of the lexicographic order on code points, and zero only for equal keys |
| Texts.KeyOrderIsTotal | packages/cli/src/physical/execution-contracts.js:54-61 | key comparison is antisymmetric, transitive and total, so sorting by it has one result |
| Encodings.CodePointsIff | packages/cli/src/physical/execution-contracts.js:54-61 | the points keys are compared by are those of RFC 2781: a list of points is that of a text exactly when each point is spelled by one unit or by the two of a surrogate pair, spelled out |
| Encodings.Utf8Measures | packages/cli/src/harness/setup-inspection.js:287 | a text takes the one to four bytes that RFC 3629 gives each of its points |
| Encodings.IdIff | packages/cli/src/physical/execution-contracts.js:21 | an identifier is a lower-case letter or a digit and up to 127 more of them, underscores or dashes |
| Encodings.FormsIff | packages/cli/src/physical/execution-contracts.js:22-23 | digests and run identifiers are their prefix and 64 or 32 hexadecimal digits |
| JsonReading.SerialReads | packages/cli/src/physical/execution-contracts.js:62-78 | unique reading: two texts with any followers that start alike come from equal values and leave equal followers (prefix-freeness through nested arrays and objects, string escapes of RFC 8259 section 7) |
| JsonReading.QuoteReads | packages/cli/src/physical/execution-contracts.js:70-76 | a quoted string gives the string back, whatever follows it |
| JsonGrammar.SpelledOnce | packages/cli/src/physical/execution-contracts.js:62-78 | an independent grammar of RFC 8259, with literal code points for brackets, quotes, commas, colons, digits, the short escapes and the six-character ones: a text spells a value exactly when it is the one printed with the members as they stand |
| JsonGrammar.PrintSpells | packages/cli/src/physical/execution-contracts.js:62-78 | the canonical text is the one text of that grammar of the value with the members of every object in increasing order of their keys, and that value is the same up to member order |
| JsonGrammar.WellFormedIff | packages/cli/src/physical/execution-contracts.js:70-76 | a text is well formed exactly when every surrogate in it stands in a pair |
| JsonGrammar.PrintableIff | packages/cli/src/physical/execution-contracts.js:62-78 | the checks pass exactly when every value at every place within is inside the limits, given as numbers: integers below 2^53, strings of 65536 units, 4096 items, 512 keys of 256 units, and the depth |
| JsonGrammar.CanonicalIff | packages/cli/src/physical/execution-contracts.js:62-78 | both together: a canonical text is returned exactly for a value within the limits, and it is that one text |
| JsonOrder.PrintDecidesSame | packages/cli/src/physical/execution-contracts.js:62-78 | two values with integer numbers print alike exactly when they are equal up to the order of object members |
| JsonOrder.NormDecidesSame | packages/cli/src/physical/execution-contracts.js:74-77 | sorting the members at every level is a normal form: equal exactly for values equal up to member order |
| Digests.CanonicalDecidesSame | packages/cli/src/physical/execution-contracts.js:62-78 | with every check included: member order never changes the result, failures included, and the text decides equality up to it |
| Digests.DigestDecidesSame | packages/cli/src/physical/execution-contracts.js:79 | under a collision-free hash two digests agree exactly when the values are equal up to member order |
| Digests.SealPassesIffFits | packages/cli/src/physical/execution-contracts.js:79-80 | storing the digest that leaves a field out makes the seal check pass exactly when the field existed or the object had room for one more key |
| Digests.SealedContentUnique | packages/cli/src/physical/execution-contracts.js:79-80 | two objects sealed with one digest hold the same sealed content |
| RunContract.CheckSequences | packages/cli/src/physical/execution-contracts.js:115-120 | the running counter accepts exactly the events numbered 1, 2, 3, ... |
| RunContract.MatchesTransitive | packages/cli/src/physical/execution-contracts.js:142-155 | "this record extends that one" is transitive |
| RunOrder.DigestIdentifiesRun | packages/cli/src/physical/execution-contracts.js:102-132 | two believed records with one run digest are the same record up to member order |
| RunOrder.MatchesAntisymmetric | packages/cli/src/physical/execution-contracts.js:142-155 | two believed records that extend one another are the same record up to member order |
| RunDepth.SealingBelieved | packages/cli/src/physical/execution-contracts.js:102-132 | a record that meets every field check can be sealed, and the sealed record is one that normalizing accepts |
| RunDepth.SealRunSeals | packages/cli/src/physical/execution-contracts.js:79-80 | sealing a record succeeds exactly when every value prints within depth 20, and then the seal check passes |
| RunDepth.ReflexiveIffShallow | packages/cli/src/physical/execution-contracts.js:142-155 | a believed record extends itself exactly when no event detail is 16 levels deep |
| RunDepth.NotAlwaysReflexive | packages/cli/src/physical/execution-contracts.js:21-24 | a record whose identifiers and digests all have the form the contract asks for, which normalizing accepts and which the comparison rejects against itself |
| RunBelief.FieldsByName | packages/cli/src/physical/execution-contracts.js:102-132 | a record is an object of 21 fields under their names, phases and statuses by their texts |
| RunBelief.PartsByName | packages/cli/src/physical/execution-contracts.js:109-124 | its approval, its events and its outcome hold their parts under their names |
| RunBelief.BelievedIff | packages/cli/src/physical/execution-contracts.js:102-132 | normalizing accepts exactly the records spelled out field by field: bounded inputs, an approval no later than its expiry, which a ready, dispatching, running, verifying or verified run has and a waiting one has not, instants in order, events numbered 1 to n with their bounds, an outcome that names the own phase, a success with evidence, and a digest that is the hash of the canonical text of everything else |
| RunBelief.ReplacesIff | packages/cli/src/physical/execution-contracts.js:142-155 | between believed records the comparison accepts exactly those that keep every fixed field, are of a higher revision or of the same digest, and repeat every event |
| RunPins.PinsRefineMatches | packages/cli/src/harness/execution-inspection.js:38-65 | for believed records, one of them shallow: the compact comparison with the remembered digests succeeds exactly when the full comparison does |
| RunPins.MatchPinsExtends | packages/cli/src/harness/execution-inspection.js:49-59 | a record that extends a record that passed the compact comparison passes it too |
| RunPins.StoredEntries | packages/cli/src/harness/execution-inspection.js:234-238 | after a round the table holds at most 128 entries: those of the shown runs, all of them, and unchanged older ones |
| RunPins.RememberedChain | packages/cli/src/harness/execution-inspection.js:154-158 | what a round remembers of a known run is what was remembered before, or a shown record that extends the one before |
| RunPins.PinsOverInspections | packages/cli/src/harness/execution-inspection.js:49-59 | over any number of inspections in which a run stays in the table, what is remembered last extends what was remembered first, digest by digest, however deep the event details |
| RunPins.RecordsOverInspections | packages/cli/src/harness/execution-inspection.js:234-238 | when the details are less than 16 levels deep, what is remembered last is of a record that extends the first record in full |
| InspectionRules.AcceptsIff | packages/cli/src/harness/execution-inspection.js:147-201 | an inspection gives a result exactly when every listed run is of the service's mode and agrees, field by field and digest by digest, with the table and with the browser's selection, the exact read succeeds the listed record of the run looked at, and something is known of that run |
| InspectionRules.MatchPinsIff | packages/cli/src/harness/execution-inspection.js:49-59 | the compact comparison spelled out: nine fields equal, the revision higher or the digest equal, and the remembered digests those of the first events, the inputs and the approval |
| InspectionRules.StoredIs | packages/cli/src/harness/execution-inspection.js:234-238 | deleting and setting run by run and trimming one by one leaves the entries of unshown runs in their order, then the shown runs with the digests of their content, and of these the last 128 |
| InspectionRules.InspectedAs | packages/cli/src/harness/execution-inspection.js:147-246 | what an inspection shows is the chosen run and then the other listed ones, 32 in all, exactly when every response fits; only then the table changes |
| RunPins.Inspector.CheckListing | packages/cli/src/harness/execution-inspection.js:154-158 | the listing is accepted exactly when every listed run agrees with what is remembered and with what the browser selected |
| RunPins.Inspector.Select | packages/cli/src/harness/execution-inspection.js:175-201 | the selected run is the last response all checks accepted, and it agrees with what is remembered |
| RunPins.Inspector.Remember | packages/cli/src/harness/execution-inspection.js:234-238 | the delete-and-set loop and the trimming loop end in the table the specification gives |
| RunPins.Inspector.Inspect | packages/cli/src/harness/execution-inspection.js:147-246 | one inspection shows a result exactly when every check passes, changes the table only then, and leaves exactly what it shows remembered |
| ExecutionProtocol.NextInv | packages/cli/src/harness/execution-controller.js:64-75 | every step keeps: ids are listed once, and the history copy of the selected run extends the selected copy |
| ExecutionProtocol.NextSound | packages/cli/src/harness/execution-controller.js:64-75 | a step takes in only what it delivered, and only over nothing or over a copy of the same run that it extends |
| ExecutionProtocol.NextReleases | packages/cli/src/harness/execution-controller.js:42-43 | one step takes an id out of the unresolved runs only with a settled record of it, delivered now or already held |
| ExecutionProtocol.NotForgotten | packages/cli/src/harness/execution-controller.js:80-119 | over every run of polls, Stops, selections, preparations, failures and incomplete listings, an id leaves the unresolved runs only at a step by which a record of it that is terminal and not stop-unconfirmed was accepted, and which delivers that record or finds it in the history |
| ExecutionProtocol.SelectedMovesForward | packages/cli/src/harness/execution-controller.js:64-75 | while one run stays selected each later copy extends each earlier one; revisions never fall and events are only appended |
| ExecutionProtocol.HistoryExtendsSelected | packages/cli/src/harness/execution-controller.js:90-104 | the history holds a copy of the selected run, and that copy extends the selected one |
| ExecutionProtocol.PrepareWhenResolved | packages/cli/src/harness/execution-controller.js:185-190 | a preparation is requested only while no known run needs resolution |
| ExecutionRequests.SettledIff | packages/cli/src/harness/execution-controller.js:6-8 | a record is settled exactly when its phase is one of the four that end a run and its Stop is not unconfirmed |
| ExecutionRequests.StopAskedIff | packages/cli/src/harness/execution-controller.js:124-131 | a Stop goes out exactly when the view is open, none is pending and the selected copy of that run, otherwise the history copy, is in a phase other than the four settled ones or is stop-unconfirmed; it is about that copy |
| ExecutionRequests.StopResolves | packages/cli/src/harness/execution-controller.js:124-147 | progress: from every reachable state, stopping an unresolved run and a settled answer that extends what is held take it out of the unresolved runs |
| ExecutionRequests.ActionAskedIff | packages/cli/src/harness/execution-controller.js:152-213 | select, receipt, prepare, approve and reconcile go out exactly when nothing is pending and the request is complete: an approval says yes, names the digests of the selected run and of its approval, and the run waits, without Stop and before its expiry |
| ExecutionRequests.ReadAskedIff | packages/cli/src/harness/execution-controller.js:80-108 | a refresh begins exactly when none is under way and the view is open, with the listing; the exact read that follows is of the selected run |
| ExecutionRequests.OnlyAnswersEnd | packages/cli/src/harness/execution-controller.js:131-222 | each wait ends with its own answer and with nothing else |
| ExecutionRequests.AcceptSettles | packages/cli/src/harness/execution-controller.js:64-75 | a record is taken in exactly when it extends every copy the operator acts on and is no older; then it is selected and first, the others follow in their order, 128 and behind them only the open ones |
| ExecutionRequests.ListingSettles | packages/cli/src/harness/execution-controller.js:90-102 | a listing is refused exactly when a record in it contradicts the history; otherwise the history is the listing, newer copies kept, then the open records it leaves out, and the selected run stays or the first open one is selected |
| ExecutionRequests.ExactSettles | packages/cli/src/harness/execution-controller.js:103-108 | an exact read counts exactly while the run it was issued for is selected |
| ExecutionRequests.ActionSettles | packages/cli/src/harness/execution-controller.js:156-218 | a selection selects the answer or a newer copy that came in meanwhile; receipts and actions count only while their run is selected; a preparation replaces the selection |
| ExecutionRequests.StopSettles | packages/cli/src/harness/execution-controller.js:131-143 | a Stop answer that does not extend the copy it is about changes nothing; of the selected run it is taken in, of another it replaces the history copy in its place |
| ExecutionRequests.ClosedViewKeeps | packages/cli/src/harness/execution-controller.js:131-222 | a closed view changes nothing it holds, whatever arrives |
| ExecutionHistories.HistoryGoesBackIff | packages/cli/src/harness/execution-controller.js:64-104 | a step puts an older copy of a run into the history exactly when the run is the selected one and either a record between the selected copy and the history copy is taken in, or a listing drops a settled history copy that is newer than the selected one |
| ExecutionHistories.HistoryMayGoBack | packages/cli/src/harness/execution-controller.js:90-108 | a run of six steps in which an accepted exact read takes the history copy back |
| ExecutionHistories.GoesBackWithBelievedRecords | packages/cli/src/harness/execution-controller.js:90-108 | three sealed copies of one record, well-formed and believed, with which it happens |
| ExecutionControllers.ExecutionController.AcceptRun | packages/cli/src/harness/execution-controller.js:64-75 | history with its cap of 128 and the selected run end where the specification says; the result tells exactly whether the record was taken |
| ExecutionControllers.ExecutionController.ListingArrives | packages/cli/src/harness/execution-controller.js:90-104 | the map, the retain loop and the choice of an unresolved run end in the specified state; a run that stays selected is extended, and an id leaves the unresolved runs only by a settled record |
| ExecutionControllers.ExecutionController.ExactArrives | packages/cli/src/harness/execution-controller.js:103-108 | an exact read is taken in only for the run it was issued for, with the same two guarantees |
| ExecutionControllers.ExecutionController.StopArrives | packages/cli/src/harness/execution-controller.js:131-150 | a Stop answer updates the selected run or only its history entry, with the same two guarantees |
| ExecutionControllers.ExecutionController.StartStop | packages/cli/src/harness/execution-controller.js:124-131 | a Stop becomes pending exactly about the copy of the run the operator acts on, when that copy still needs one |
| ExecutionControllers.ExecutionController.StartApprove | packages/cli/src/harness/execution-controller.js:208-213 | an approval becomes pending exactly about the selected run it names, waiting, in time and with its own digests |
| ExecutionControllers.ExecutionController.ActionArrives | packages/cli/src/harness/execution-controller.js:151-222 | answers to select, receipt, prepare, approve and reconcile end in the specified state, with the same two guarantees |
| SimulationRecords.Grows | packages/desktop/src/simulation.js:95-100 | a record evolved from a stored one by any step of the script is sealed, believed, and extends the one before with a higher revision |
| SimulationStore.WriteSound | packages/desktop/src/simulation.js:86-94 | a write changes memory first; its line is in the file afterwards or not, as its append ended, and then memory and log both have the new record or the log has the record it had; behind a line that was cut it leaves a line that does not parse |
| SimulationStore.EvidenceDiffers | packages/desktop/src/simulation.js:86-94 | a preparation and a final check never share a digest, so neither overwrites the other |
| SimulationStore.LogIsMemory | packages/desktop/src/simulation.js:69-94 | replaying the log gives exactly memory, the order of the runs and the evidence included, exactly when no run's latest write is missing from it |
| SimulationSafety.GrowRun | packages/desktop/src/simulation.js:86-100 | writing an evolved record is never refused, replaces one run in place in memory, and in the log exactly when its line reached the file |
| SimulationSafety.ApproveKeeps | packages/desktop/src/simulation.js:130-166 | an approval is accepted exactly when its guard holds and its own later clock reading is not past the expiry; when its append throws the run is left running without a timer |
| SimulationSafety.StopKeeps | packages/desktop/src/simulation.js:167-171 | Stop answers exactly for known runs and leaves the run terminal in memory, throws exactly when its append does, and changes no other run |
| SimulationSafety.EarlyStep | packages/desktop/src/simulation.js:138-151 | a due pick or transfer timer adds its event, is never refused, and queues the next step unless its append throws |
| SimulationSafety.LastStep | packages/desktop/src/simulation.js:145-160 | the third timer ends the run in verified success in memory, whether or not its last append throws |
| SimulationSafety.LoadKeeps | packages/desktop/src/simulation.js:308-326 | a load closes exactly the runs the log shows active, each into OUTCOME_UNKNOWN with exactly one more event, leaves every other logged run as it is, and succeeds exactly when none of its own appends fails; they spoil the file exactly when its last line was cut and a run is closed |
| SimulationRuns.PrepareKeeps | packages/desktop/src/simulation.js:114-129 | a preparation is accepted exactly when the session is open, no run is open and its inputs are a bounded object |
| SimulationRuns.NextKeeps | packages/desktop/src/simulation.js:101-172 | every request, timer, failing append, interruption, restart and reopening keeps the invariant and moves the log only forward; every step but a load moves memory only forward |
| SimulationRuns.LogMovesForward | packages/desktop/src/simulation.js:69-94 | between any two moments each logged run is unchanged or replaced by a newer record that extends it, and terminal ones never change, whatever appends fail |
| SimulationRuns.RunsMoveForward | packages/desktop/src/simulation.js:86-94 | a run in memory whose latest write was logged, or after which nothing was loaded, is at every later moment itself or a newer record that extends it, and never changes once terminal |
| SimulationRuns.TakenBackIff | packages/desktop/src/simulation.js:308-326 | at a load that succeeds a served record is served again, or a newer one that extends it, exactly when its latest write was logged |
| SimulationRuns.NothingTakenBackIff | packages/desktop/src/simulation.js:308-326 | a load that succeeds takes nothing back exactly when no run's latest write is missing |
| SimulationRuns.ServedRunsBelieved | packages/desktop/src/simulation.js:111-112 | in every reachable state each run passes normalizing, its revision is its event count and none is FAILED |
| SimulationRuns.AtMostOneOpen | packages/desktop/src/simulation.js:114-117 | at most one run is open as long as the log never shows two open runs to a load |
| SimulationRuns.LoadLeavesOneOpenIff | packages/desktop/src/simulation.js:308-326 | a load that succeeds leaves at most one run open exactly when the log shows at most one |
| SimulationRuns.SuccessFollowsTheScript | packages/desktop/src/simulation.js:138-160 | verified success means exactly: prepared, approved in time, picked, transferred, placed, verified, in that order |
| SimulationRuns.ServedRecordsAgree | packages/desktop/src/simulation.js:111-113 | of two records of one run served at two moments the later extends the earlier, when the earlier was logged or nothing was loaded between |
| SimulationRuns.LogRebuildsMemory | packages/desktop/src/simulation.js:308-326 | in every reachable state: replaying the log gives exactly memory exactly when nothing is missing, run by run as well, and no line is refused |
| SimulationRuns.NothingLostNothingMissing | packages/desktop/src/simulation.js:69-94 | from the start, or from a load that succeeded, the log is exactly memory as long as every append reaches the file |
| SimulationRuns.RestartTwice | packages/desktop/src/simulation.js:322-326 | the first restart makes each run the log shows active an unknown outcome with exactly one more event and leaves the others; a second one changes nothing, and loads exactly when the closing did not join a line that was cut |
| SimulationFiles.TornNeverLoads | packages/desktop/src/simulation.js:76-85 | once the file holds a line that does not parse, no later restart loads the session |
| SimulationFiles.CutThenNeverLoads | packages/desktop/src/simulation.js:69-85 | once a line was cut before its newline and anything was written behind it, the append of which succeeds, no later restart loads the session |
| SimulationFiles.WholeLinesLoad | packages/desktop/src/simulation.js:76-85 | as long as appends leave whole lines in the file, whether they throw or not, a restart loads the session exactly when none of its own appends throws |
| SimulationProgress.WholeScriptRuns | packages/desktop/src/simulation.js:114-163 | from any open state with no open run, preparing, approving in time and firing the timers leads to verified success |
| SimulationApproval.ApprovedIff | packages/desktop/src/simulation.js:130-166 | an approval starts a run exactly when the session is open and the request says yes and names the stored record: it waits, the record digest and the approval digest are its own, the route is the current one, and the expiry is past the first clock reading and not before the second; then the record, its place, its line and its first timer are spelled out, and otherwise nothing changes |
| SimulationApproval.RunningWasApproved | packages/desktop/src/simulation.js:130-166 | over every history: a run that is running or verified was approved by an earlier request that named the digest of its approval and of the record stored then, in time, for its route and with its inputs, through any failing appends and restarts |
| SimulationEffects.WriteRecords | packages/desktop/src/simulation.js:86-94 | one write, field by field: a known run keeps its place and a new one comes last, the preparation and the evidence are stored under their digests, and the line is in the file exactly when the append reached it |
| SimulationEffects.PrepareStores | packages/desktop/src/simulation.js:114-129 | what a preparation stores, under the literal names and numbers of the script, or nothing exactly when it is refused |
| SimulationEffects.StopStores | packages/desktop/src/simulation.js:167-171 | what a Stop stores: the cancelled record with its one event and its outcome, for a known run that is not over and for no other |
| SimulationEffects.TimerStores | packages/desktop/src/simulation.js:138-160 | what a timer stores: one record of its step, the next timer with the table it finds, or the final check |
| SimulationEffects.VerifyStores | packages/desktop/src/simulation.js:151-157 | the final check of any table: a verified success exactly where the container lies at its destination and was let go, a failure otherwise |
| SimulationEffects.LoadServes | packages/desktop/src/simulation.js:308-326 | a load that succeeds serves every logged run unchanged, but those the log shows ready, dispatching, running or verifying with an unknown outcome that says why |
| SimulationProgress.ScriptCompletes | packages/desktop/src/simulation.js:138-163 | an approved run whose three timers fire, whatever else is queued, ends in verified success |
| SimulationProgress.SuccessTakenBack | packages/desktop/src/simulation.js:154-157 | a run in which a served verified success becomes an unknown outcome: its last append is lost and the host restarts |
| SimulationProgress.StopTakenBack | packages/desktop/src/simulation.js:167-171 | a run in which a served confirmed Stop becomes an unknown outcome in the same way |
| SimulationProgress.TwoMayBeOpen | packages/desktop/src/simulation.js:114-117 | a run after which two runs wait for approval: a Stop was lost, another run prepared and the host restarted |
| SimulationProgress.SuccessSpoilsFile | packages/desktop/src/simulation.js:69-85 | a preparation whose line was cut loads, but after a Stop whose append succeeds the session never loads again |
| SimulationProgress.InterruptedEndsUnknown | packages/desktop/src/simulation.js:145-160 | a process that ends between the two writes of the third timer leaves an unknown outcome after restart |
| SimulationExamples.ServedSuccessTakenBack | packages/desktop/src/simulation.js:154-157 | six moves of the empty session, under a hash that exists, that serve a verified success and then an unknown outcome of the same run |
| SimulationExamples.ServedStopTakenBack | packages/desktop/src/simulation.js:167-171 | four moves of the empty session that serve a confirmed Stop and then an unknown outcome of the same run |
| SimulationExamples.TwoRunsOpen | packages/desktop/src/simulation.js:114-117 | four moves of the empty session after which two runs wait for approval |
| SimulationExamples.SessionLostToSuccess | packages/desktop/src/simulation.js:69-85 | three moves of the empty session in which the append of a served Stop succeeds and the restart does not load |
| SimulationHosts.SimulationHost.WriteRun | packages/desktop/src/simulation.js:86-94 | a refused write changes nothing; otherwise the maps are updated before the append, which may throw with or without its line in the file |
| SimulationHosts.SimulationHost.LoadSession | packages/desktop/src/simulation.js:308-326 | the reading loop and the closing loop, with an append that ends it, end in the specified load |
| SimulationHosts.SimulationHost.HostRestarts | packages/desktop/src/simulation.js:308-326 | a restart keeps the invariant, opens exactly when the file parses and its own appends succeed, and then serves exactly what the log says with the active runs closed |
| SimulationHosts.SimulationHost.TimerFires | packages/desktop/src/simulation.js:138-160 | a timer callback ends in the specified state, keeps the invariant and moves every run only forward |
| SimulationHosts.SimulationHost.DoPrepare | packages/desktop/src/simulation.js:114-129 | prepare keeps the invariant; afterwards the run is there exactly when the session was open, no run was open and the inputs were a bounded object |
| SimulationHosts.SimulationHost.DoApprove | packages/desktop/src/simulation.js:130-166 | approve starts the run exactly when the request agrees with the stored record, as spelled out, and changes nothing otherwise; it keeps the invariant and moves every run only forward |
| SimulationHosts.SimulationHost.DoStop | packages/desktop/src/simulation.js:167-171 | after Stop a known run is terminal, whatever becomes of the append, and no run went back |
| ContinuationProtocol.NextKeeps | packages/operator-service/src/service.js:247-295 | every step, crash and failed save keeps one open record per plan, and on disk no record disappears and acceptance is final |
| ContinuationProtocol.SubmissionIsBound | packages/operator-service/src/service.js:270-288 | when the agent is asked the file already holds the pending record, the request was not accepted before, and no other request of the plan is open |
| ContinuationProtocol.WrittenAhead | packages/operator-service/src/service.js:280-284 | over every run a durable pending record precedes each submission and outlives every crash |
| ContinuationProtocol.AcceptedOnce | packages/operator-service/src/service.js:263-270 | a durably accepted request id is never submitted again |
| ContinuationProtocol.OneOpenRequestPerPlan | packages/operator-service/src/service.js:272-274 | a second request id for a plan is submitted only after the first is durably accepted |
| ContinuationProtocol.DiskKept | packages/operator-service/src/service.js:134-138 | across crashes and restarts the file loses no record and no acceptance |
| ContinuationProtocol.AnswerAcceptsIff | packages/operator-service/src/service.js:286-295 | an accepting answer leaves the request accepted in memory exactly when its save succeeds, and in the file exactly when the content of that save reached it |
| ContinuationProtocol.MemoryMayFallBack | packages/operator-service/src/service.js:286-295 | a run of three steps after which memory has an answered request unconfirmed and the file has it accepted |
| ContinuationRequests.NotedIff | packages/operator-service/src/service.js:259-284 | a request is noted exactly when it was made before for the same plan and is not accepted, or its id is free, no request of the plan is open, and there are fewer than 4096 records, 256 of the conversation |
| ContinuationRequests.SubmitsIff | packages/operator-service/src/service.js:259-290 | over every run the agent is asked exactly when the request may be noted, the service runs and can save, the conversation waits for nothing, the record was saved and the second review agreed |
| ContinuationRequests.UnconfirmedMayRetry | packages/operator-service/src/service.js:261-290 | over every run a request that went to the agent and was not durably accepted since may be tried again under its own id, at any number of records |
| ContinuationRequests.StepLeaves | packages/operator-service/src/service.js:247-295 | what continuing, answers, saves, crashes and restarts leave of memory, of the file and of the waits, record by record |
| ContinuationServices.OperatorService.ContinueExperiment | packages/operator-service/src/service.js:247-295 | continuing, with its searches, limits and both saves, ends in the specified state, loses no record, and asks the agent exactly when the request may be noted and was saved and reviewed, with the pending record in the file |
| ContinuationServices.OperatorService.AgentAnswers | packages/operator-service/src/service.js:286-295 | an accepting answer is accepted in memory exactly when it could be saved; the file loses no record and no acceptance |
| ContinuationServices.OperatorService.Start | packages/operator-service/src/service.js:218-227 | the recovery loop turns exactly the pending records unconfirmed and saves them before the service runs; the file loses nothing |
| CommissioningProtocol.NextInv | packages/cli/src/harness/commissioning-controller.js:96-171 | a recovery call of the current epoch is about the current status, a Stop outdates every request issued before it, and the epoch never falls |
| CommissioningProtocol.TrialRetained | packages/cli/src/harness/commissioning-controller.js:42-55 | while a trial is unresolved no step changes its id, digest, positions, duration, expiry or configuration digest, nor its session except through a receipt that clears it; a running trial never waits again |
| CommissioningProtocol.UnknownEndsByClearance | packages/cli/src/harness/commissioning-controller.js:37-55 | one step ends an unknown outcome only with a receipt for that trial and configuration |
| CommissioningProtocol.EndFullyBoundIff | packages/cli/src/physical/commissioning-client.js:27-36 | that receipt names the device and origin session of the retained trial exactly when the response that carried it did |
| CommissioningProtocol.RecoveryReleaseMatches | packages/cli/src/harness/commissioning-controller.js:37-41 | a release by the recovery path always carries a receipt for the very trial, session, configuration and device that were retained |
| CommissioningRuns.ReleaseMayNameAnotherDevice | packages/cli/src/harness/commissioning-controller.js:42-55 | two readings of the form the contract asks for and one refresh that ends an unknown outcome by a receipt for another device |
| CommissioningRuns.TrialHeld | packages/cli/src/harness/commissioning-controller.js:72-145 | over any number of steps a trial that stays unresolved is the same trial, in the same session, under the same configuration |
| CommissioningRuns.UnknownTrialReleased | packages/cli/src/harness/commissioning-controller.js:72-145 | however long an unknown outcome lasts, only a receipt for the very trial it was about ends it |
| CommissioningRuns.StopComesFirst | packages/cli/src/harness/commissioning-controller.js:99-114 | once a Stop has started, no answer to a request issued before it changes the trial status |
| CommissioningRuns.OnlyStopAnswers | packages/cli/src/harness/commissioning-controller.js:99-114 | while a Stop is pending only its own answer may change the status |
| CommissioningRuns.SentOnce | packages/cli/src/harness/commissioning-controller.js:115-171 | over a whole run one approval per session and trial, and one confirmation per session, trial and offer digest |
| CommissioningRuns.NotedIffSent | packages/cli/src/harness/commissioning-controller.js:12-18 | a send is held back as attempted exactly when that very send was made |
| CommissioningRequests.ApprovalIff | packages/cli/src/harness/commissioning-controller.js:146-165 | over every run an approval goes out at a step exactly when the operator said yes and named the id and digest of the trial on view, which waits without a Stop, may be approved and has not expired, the reading is available and recent, nothing is uncertain or in flight, and no approval of that trial in that session went out before |
| CommissioningRequests.ConfirmationIff | packages/cli/src/harness/commissioning-controller.js:115-128 | over every run a confirmation goes out at a step exactly when the operator confirmed the inspection on view, ready, unexpired, of that digest and about the retained trial with its session, configuration and device, and no confirmation of that offer went out before |
| CommissioningRequests.RequestsIff | packages/cli/src/harness/commissioning-controller.js:146-156 | inspecting, preparing and observing recovery each begin exactly when they are given, spelled out by fields |
| CommissioningRequests.StopIff | packages/cli/src/harness/commissioning-controller.js:99-102 | a Stop begins exactly for the open trial it names, whatever is in flight; a refresh exactly when nothing is |
| CommissioningRequests.UnresolvedIff | packages/cli/src/physical/commissioning-client.js:101 | a trial is open exactly while it waits, moves or is unknown or its Stop is not confirmed, and no receipt for its own id, digest, session, configuration and device clears it |
| CommissioningRequests.AnswerSettles | packages/cli/src/harness/commissioning-controller.js:37-171 | what every answer leaves, field by field: dropped when outdated, taken in exactly when it may replace the held status, and otherwise counted as failed, with the uncertainty each kind of request leaves |
| CommissioningRequests.RequestStep | packages/cli/src/harness/commissioning-controller.js:96-165 | what every request step leaves of the epoch, of the readings shown and of what is in flight |
| Commissioning.RecoveryKeyInjective | packages/cli/src/harness/commissioning-controller.js:18 | the colon-joined key gives session, trial and digest back, colons inside the digest included |
| CommissioningRequests.KeysAre | packages/cli/src/harness/commissioning-controller.js:18 | the keys join their parts by colons |
| CommissioningControllers.CommissioningController.Accept | packages/cli/src/harness/commissioning-controller.js:42-55 | a reading is taken in, or refused without any change, as specified |
| CommissioningControllers.CommissioningController.RefreshRecovery | packages/cli/src/harness/commissioning-controller.js:60-70 | only an exact, unexpired reading of the inspected offer renews it |
| CommissioningControllers.CommissioningController.StatusArrives | packages/cli/src/harness/commissioning-controller.js:71-95 | an answer to a refresh keeps the invariant, leaves an unresolved trial the same or ends it by a receipt, and changes nothing when an epoch has passed |
| CommissioningControllers.CommissioningController.StopArrives | packages/cli/src/harness/commissioning-controller.js:99-114 | a Stop answer keeps the invariant and the retained trial; afterwards the Stop is uncertain or its answer is the status |
| CommissioningControllers.CommissioningController.StartStop | packages/cli/src/harness/commissioning-controller.js:99-106 | a Stop becomes pending exactly for the open trial it names, and then every request in flight is outdated |
| CommissioningControllers.CommissioningController.ObservedArrives | packages/cli/src/harness/commissioning-controller.js:129-145 | an observation that releases a trial carries a receipt for everything retained of it |
| CommissioningControllers.CommissioningController.StartRecoveryConfirm | packages/cli/src/harness/commissioning-controller.js:115-128 | a confirmation goes out only when the operator confirmed the very inspection on view, as spelled out, was not attempted before and is noted; one that is not sent notes nothing |
| CommissioningControllers.CommissioningController.StartApprove | packages/cli/src/harness/commissioning-controller.js:158-165 | an approval goes out exactly when the operator said yes to the very trial on view, as spelled out, and it was not attempted before; it is noted, and one that is not sent notes nothing |
| CaptureProtocol.NextInv | packages/cli/src/harness/workcell-controller.js:121-154 | every step keeps: at most one session owned, nothing shown of a session whose Stop was requested, a halted Start waits for its exact Stop, teardown accounts for what is owned |
| CaptureRuns.OneOwner | packages/cli/src/harness/workcell-controller.js:351-353 | at most one capture session is owned at any time |
| CaptureRuns.ReleasedOnlyByStopped | packages/cli/src/harness/workcell-controller.js:122-127 | an owned session is released only by a stopped status that names exactly it |
| CaptureRuns.AcquiredOnlyByStart | packages/cli/src/harness/workcell-controller.js:370-373 | a session becomes owned only by the answer to a Start |
| CaptureRuns.CancelledStartHalts | packages/cli/src/harness/workcell-controller.js:373-376 | a Start cancelled while pending asks for the exact Stop of the session it produced and does not end there |
| CaptureRuns.CancelledStartSettles | packages/cli/src/harness/workcell-controller.js:373-392 | before it completes that Stop was answered and the session released or recorded as unconfirmed |
| CaptureRuns.TeardownSettles | packages/cli/src/harness/workcell-controller.js:406-427 | after teardown every session still owned is recorded as stop-unconfirmed |
| CaptureRuns.NothingStale | packages/cli/src/harness/workcell-controller.js:156-198 | after Stop is requested for a session no frame of it is cached or shown until a later Start, whether the read was issued before or after |
| CaptureRuns.StopMarks | packages/cli/src/harness/workcell-controller.js:128-134 | an accepted Stop marks its session, hides what was shown and cancels a pending Start |
| CaptureRequests.BeginsIff | packages/cli/src/harness/workcell-controller.js:351-354 | a Start begins exactly when the agent is idle and no Start, no Stop, no owned session, no unconfirmed Stop, no unanswered Start and no other running camera is there |
| CaptureRequests.UnconfirmedIff | packages/cli/src/harness/workcell-controller.js:136-176 | over every run a session counts as unconfirmed exactly from the answer or read that does not confirm its Stop to the one that does |
| CaptureRequests.NoStartWhileUnconfirmed | packages/cli/src/harness/workcell-controller.js:351-353 | over every run no preview starts between those two |
| CaptureRequests.StopArrivesLeaves | packages/cli/src/harness/workcell-controller.js:136-151 | what the answer to a Stop leaves, field by field: a stopped status of the very session releases it, everything else leaves it unconfirmed |
| CaptureRequests.PollLeaves | packages/cli/src/harness/workcell-controller.js:157-198 | what a camera read leaves, field by field, and that one overtaken by a Start or Stop leaves nothing |
| CaptureRequests.StepLeaves | packages/cli/src/harness/workcell-controller.js:333-427 | what every other step leaves: requests, the stages of a Start, its cancellation and the teardown |
| WorkcellControllers.WorkcellController.StopCapture | packages/cli/src/harness/workcell-controller.js:128-154 | a new exact Stop marks its session, hides every frame and outdates the reads in flight; a pending one is shared |
| WorkcellControllers.WorkcellController.StopArrives | packages/cli/src/harness/workcell-controller.js:136-151 | a Stop answer keeps the invariant and releases nothing but a session whose stopped status names it; otherwise the session is recorded as unconfirmed |
| WorkcellControllers.WorkcellController.PollArrives | packages/cli/src/harness/workcell-controller.js:165-197 | after a camera read no frame of a session whose Stop was requested is cached or shown, and only a stopped status released a session |
| WorkcellControllers.WorkcellController.StartArrives | packages/cli/src/harness/workcell-controller.js:366-392 | the answer to a Start acquires only the session it names, and when the Start was cancelled asks for the exact Stop of it |
| WorkcellControllers.WorkcellController.RequestStart | packages/cli/src/harness/workcell-controller.js:351-361 | a Start begins exactly when nothing is pending, owned, unconfirmed or running, as spelled out |
| WorkcellControllers.WorkcellController.RequestStop | packages/cli/src/harness/workcell-controller.js:333-349 | an accepted Stop marks its session, shows nothing of it and cancels a pending Start |
| WorkcellControllers.WorkcellController.TeardownProceeds | packages/cli/src/harness/workcell-controller.js:406-427 | when teardown is done every session still owned is recorded as unconfirmed |
| SetupReports.DropTakesOne | packages/cli/src/harness/setup-inspection.js:288-305 | every pass of the loop takes exactly one row away |
| SetupReports.SetupReport.Bound | packages/cli/src/harness/setup-inspection.js:282-318 | the popping loop terminates and returns the specified bounded report |
| SetupReportFacts.DropExact | packages/cli/src/harness/setup-inspection.js:288-301 | each pass keeps every truncated flag set exactly when rows are missing, and every count equal to the rows there are |
| SetupReportFacts.DropConserves | packages/cli/src/harness/setup-inspection.js:290-295 | shown plus omitted implementations, requirements, bindings and constraints stay constant |
| SetupReportFacts.StopsAtFirstFit | packages/cli/src/harness/setup-inspection.js:287-309 | the loop returns the first report that fits, so drops no more than needed, or gives up only when nothing more may go |
| SetupReportRules.LossOrder | packages/cli/src/harness/setup-inspection.js:288-305 | however many rows the loop took: a list has lost rows only when every list before it is down to what stays, so requirements of the selected implementation go last |
| SetupReportRules.BoundedIs | packages/cli/src/harness/setup-inspection.js:282-318 | a report is returned after the fewest passes that bring it to 65536 bytes, called partial exactly when a row went, something was omitted or the setup read failed; where no number of passes does, it is the blank one |
| SetupReportRules.ProjectShows | packages/cli/src/harness/setup-inspection.js:184-231 | a new report shows the first 16 implementations and the first 32 of everything else, the chosen ones first and each part in its order, and counts them all |
| SetupReportRules.ReportNamed | packages/cli/src/harness/setup-inspection.js:282-318 | the report whose bytes are counted holds every part under its name, with the status texts |
| SetupReportRules.BlankIs | packages/cli/src/harness/setup-inspection.js:124-135 | the report that stands for no evidence lists nothing, counts nothing and calls every source unavailable |
| SetupReportFacts.BoundedKeeps | packages/cli/src/harness/setup-inspection.js:282-318 | a returned report is the blank one, or the original with whole rows gone, exact flags and nothing uncounted |
| JsonSize.SerialBytes | packages/cli/src/harness/setup-inspection.js:287 | the bytes of a value as it is sent are the sum of the bytes of its parts, in UTF-8 |
| SetupReportSizes.RelabelAdds | packages/cli/src/harness/setup-inspection.js:41-42 | changing the status text of an available report to partial adds exactly 33 bytes to it |
| SetupReportSizes.BoundedExceedsIff | packages/cli/src/harness/setup-inspection.js:311-316 | the returned report is past its limit exactly when its records were available, a row was dropped or something omitted or the setup read failed, and the first report that fits has fewer than 33 bytes to spare; then by at most 33 |
| SetupReportSizes.BoundedMayExceed | packages/cli/src/harness/setup-inspection.js:282-318 | every report within the limit with 32 capabilities without reason codes and a failed setup read can be given reason codes of the allowed form with which it still fits and what is returned does not |
| SetupReportFacts.SelectedFirstKeeps | packages/cli/src/harness/setup-inspection.js:221-224 | putting the chosen rows first loses and repeats no row, and a chosen one comes first when there is one |
| SetupReportFacts.SelectedRowSurvives | packages/cli/src/harness/setup-inspection.js:221-225 | the selected implementation is shown first in every report that is not the blank one, however many candidates there are |
| JpegGeometry.ReadGeometry | packages/cli/src/physical/camera-preview-client.js:84-101 | every read is in range, both loops end, and the result is that of the specified walk |
| JpegGeometry.WalkIffGrammar | packages/cli/src/physical/camera-preview-client.js:84-101 | the walk returns a geometry exactly when the buffer is a first frame header of that geometry behind fill-padded segments that are no frame headers (ITU-T T.81 sections B.1.1.2 to B.1.1.4 and B.2.2) |
| JpegGeometry.WalkFinds | packages/cli/src/physical/camera-preview-client.js:84-101 | every such frame header is found, whatever the fill |
| JpegGeometry.WalkFound | packages/cli/src/physical/camera-preview-client.js:84-101 | whatever is returned can be parsed back into those segments |
| JpegGeometry.GeometryIff | packages/cli/src/physical/camera-preview-client.js:84-101 | a geometry is returned exactly for a buffer of at most two megabytes between a start and an end of image whose first start of frame, of those of Table B.1 of ITU-T T.81, has it |
| EventStreams.NextInv | packages/cli/src/harness/workcell-server.js:292-325 | every step keeps: the last state taken is shown or held back, and a host change is taken, being read, or due |
| EventStreams.NoLostUpdate | packages/cli/src/harness/workcell-server.js:262-350 | an open stream with no read out and nothing held back has written the host's current snapshot last |
| EventStreams.HeldBackIsNewest | packages/cli/src/harness/workcell-server.js:295-306 | at most one event is held back, only under back-pressure, and it is the newest state |
| EventStreams.BecomesQuiet | packages/cli/src/harness/workcell-server.js:307-325 | from any reachable open state five answers, two reads and a drain, show the viewer the host's snapshot |
| EventStreams.WritesAgainIff | packages/cli/src/harness/workcell-server.js:301-306 | a step writes the state that was written last exactly when it is a drain the socket takes and that very state was held back |
| EventStreams.StateMayBeWrittenTwice | packages/cli/src/harness/workcell-server.js:292-325 | a run of seven steps after which a snapshot has been written twice in a row |
| EventStreamRules.WritesIff | packages/cli/src/harness/workcell-server.js:292-350 | a step writes a state exactly when it has a new one or one held back, a heartbeat exactly when its timer fires on an open stream that is not blocked, and only if the socket takes it |
| EventStreamRules.OpensWith | packages/cli/src/harness/workcell-server.js:262-350 | a stream opens with its first snapshot written, unless the socket overflows, and with a read out that closes the gap before the subscription |
| EventStreamRules.NothingAfterTheEnd | packages/cli/src/harness/workcell-server.js:281-306 | in every run nothing is written after the stream was closed, a read failed or the socket overflowed |
| EventStreamRules.StepLeaves | packages/cli/src/harness/workcell-server.js:292-350 | what every step leaves of the stream, field by field |
| EventStreams.EventStream.WriteEvent | packages/cli/src/harness/workcell-server.js:292-300 | an event is written, held back in place of the one before, or dropped with its closed or overfull socket, as specified |
| EventStreams.EventStream.ReadArrives | packages/cli/src/harness/workcell-server.js:311-325 | one round of the reading loop keeps the invariant; a stream that is quiet after it has written the host's snapshot last |
| EventStreams.EventStream.Drains | packages/cli/src/harness/workcell-server.js:301-306 | a drain keeps the invariant; a stream that is quiet after it has written the host's snapshot last |
| CatalogFiles.UniqueIds | packages/desktop/src/catalog.js:26-31 | the growing set finds exactly the duplicates and holds exactly the identifiers |
| CatalogFiles.SelectionConsistent | packages/desktop/src/catalog.js:73-79 | in a valid catalog the selected conversation exists once and belongs to the selected project |
| CatalogFiles.CommitFollowsCommit | packages/desktop/src/catalog.js:134-148 | each commit is the mutator applied to the commit before it, one revision higher and valid |
| CatalogFiles.FailedMutatorChangesNothing | packages/desktop/src/catalog.js:138-141 | a mutator that fails or makes an invalid draft changes nothing |
| CatalogFiles.RevisionCountsCommits | packages/desktop/src/catalog.js:140-145 | while the process runs the revision counts the commits |
| CatalogFiles.CrashSafe | packages/desktop/src/catalog.js:93-102 | at every crash point the file is absent or valid, its backup valid and never newer, and a start reads exactly the file |
| CatalogFiles.FileIsOldOrNew | packages/desktop/src/catalog.js:134-148 | one step leaves the file or replaces it by a valid commit, never by anything between |
| CatalogFiles.FileRevisionGrows | packages/desktop/src/catalog.js:134-148 | over crashes, restarts and failed writes the revision in the file never falls |
| CatalogFiles.FailedCommitSurvives | packages/desktop/src/catalog.js:93-148 | a commit reported as failed after its rename is what every restart reads until the file is written again |
| CatalogFiles.SameRevisionIff | packages/desktop/src/catalog.js:134-148 | a step gives the file another catalog of the same revision exactly when it writes the file while the file is ahead of memory, that is, after such a commit |
| CatalogFiles.SameRevisionMayDiffer | packages/desktop/src/catalog.js:134-148 | a run in which that happens |
| CatalogRules.ValidIff | packages/desktop/src/catalog.js:37-85 | a catalog is valid exactly when it has at most 10000 of each kind, no identifier twice, and every reference names what is there and fits |
| CatalogRules.TurnCommitsIff | packages/desktop/src/catalog.js:134-148 | one transaction from its turn on: memory, the file and the backup change exactly as its draft may be stored and as each write ends, and the queue moves up |
| CatalogRules.StepLeaves | packages/desktop/src/catalog.js:104-148 | what opening, queueing, each stage of a transaction and a crash leave, field by field |
| CatalogFiles.DesktopCatalog.Validate | packages/desktop/src/catalog.js:37-85 | the checks and loops decide validity |
| CatalogFiles.DesktopCatalog.FileWritten | packages/desktop/src/catalog.js:143-145 | the last write keeps the invariant, never lowers the revision in the file, and changes memory only to a valid commit one revision higher that the file holds |
| WorkerPools.NextInv | packages/cli/scripts/concurrent-checks.js:46-53 | taken checks are settled or awaited by exactly one worker, the others untouched |
| WorkerPools.StartedOnce | packages/cli/scripts/concurrent-checks.js:47-50 | no check is started twice |
| WorkerPools.NeverTooMany | packages/cli/scripts/concurrent-checks.js:46 | never more checks run than the concurrency allows |
| WorkerPools.CompleteIsFull | packages/cli/scripts/concurrent-checks.js:46-54 | when the pool settles every check was started and has its result |
| WorkerPools.ResultIsItsOutcome | packages/cli/scripts/concurrent-checks.js:48-51 | result i is the outcome with which check i settled |
| WorkerPools.Pool.Collect | packages/cli/scripts/concurrent-checks.js:54-56 | the outputs in order when nothing failed, and every failure in order |
| WorkerPools.ThrowsIffFailed | packages/cli/scripts/concurrent-checks.js:54-55 | the call throws exactly when some check failed |
| WorkerPoolProgress.SettlesAfter | packages/cli/scripts/concurrent-checks.js:46-53 | in every run, whatever the order of the outcomes, the pool settles exactly when as many steps did something as there are checks twice and workers once |
| WorkerPoolProgress.NeverStuck | packages/cli/scripts/concurrent-checks.js:46-53 | until then some worker has something to do, whatever its check ends with |
| WorkerPoolProgress.StartsWith | packages/cli/scripts/concurrent-checks.js:44-46 | a pool starts with as many workers as there are checks or as the concurrency allows, whichever is less, and nothing taken |
| WorkerPoolProgress.StepLeaves | packages/cli/scripts/concurrent-checks.js:47-51 | what taking a check and storing an outcome leave, and that anything else changes nothing |

## Left out

- Timestamps are milliseconds: an instant is printed as a decimal string, so the calendar spelling, sub-millisecond digits and the equality of differently spelled equal instants are not modelled.
- Numbers are integers without negative zero; wire number tokens and floating point are not modelled. Gripper positions and durations are real numbers that are only compared.
- Regular-expression field checks, display-text cleaning and messages: only the facts a proof needs are kept, such as identifiers without colons and short well-formed texts.
- HTTP, file descriptors, timers, random ids and SHA-256: responses, failures, crash points, fresh ids, arbitrary firing and a hash parameter stand for them.
- ExecutionProtocol.Next: freshness, route and configuration checks are one boolean that may hold at any time, and responses are any records, so the theorems cover more runs than the code has. The receipt view, its snapshots and the displayed projections are left out.
- SimulationRuns.NextKeeps: assumes short well-formed ids, digests and approval nonces, inputs that name a source and a destination, a fresh run id and a clock within four-digit years.
- SimulationRuns.PrepareKeeps: the configuration, route and mode of the request are taken to match; only the open-run guard and the contract check refuse.
- SimulationNode.Write: appends of messages and the header, whose failures have the same effects on the file, are left out. In a file that no longer parses, `log` still lists the lines written whole.
- SimulationNode.Reopen: another conversation opened in between is left out; its runs and timers have other ids.
- SimulationHosts.SimulationHost.LoadSession: the lines of messages and names, the file header and the size limit of the file are left out; the loader's own check of each line is shown never to refuse one.
- Continuations: review of the experiment, its phases, trial limits and expiry are one boolean; events emitted and responses shaped after a save are assumed not to throw; other saved records are left out.
- Commissioning: polling timers, ages of readings and the permission to act are booleans of each step; inspection and preparation payloads are left out; the cancelling Stop of a recovery is only an outcome of the Stop step.
- Camera: candidate checks, workflow invalidation, agent state, analysis and the bytes of frames are left out; a continuation of a settled request runs in the step that settles it.
- RunPins.Inspector.Inspect: timeouts, cancellation, the single pending read and the receipt's snapshot checks are one boolean and one optional record of each reading.
- SetupReports.Project: how each row is computed, route and catalog validation and the context match are left out; rows are any JSON values. Lone surrogates, which are escaped when sent, do not occur in validated fields.
- JpegGeometry.ReadGeometry: takes the buffer as a sequence, which it only reads.
- EventStreams: the socket's own buffer is one of three outcomes of a write; viewer limits and headers are left out.
- CatalogFiles.DesktopCatalog.Validate: field shapes, names, paths and URLs are left out; the size limit is a parameter. The lock file and closing are left out.
- WorkerPools: launching, output and timing of a check are its outcome; the range check of the concurrency is left out.
- `experiments/controller.js`, `node-client.js`, `workflow.js`, `route-contracts.js` and `setup-contracts.js` are not part of this model.
- Endpoint and Node ownership maps, reconnection, credentials, the terminal and desktop shells and release scripts would add only easy members.
