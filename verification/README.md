# Verification of the battle record

A Dafny model of the parts of `maple_next` where a mistake would be silent, and proofs of what they promise. Check
it with `dafny verify dfyconfig.toml` (Dafny 4.11).

* **The match command state machine.** `Records` and `Store` hold the tables, `Commands` says what each command does
  to them, and the class in `Application` does it row by row, as `application/service.py` does, with rollback.
  `Invariant`, `Evolution`, `Preservation`, `Content`, `Lanes`, `Effects` and `Steps` prove what every command keeps;
  `Guarantees` draws the conclusions for whole runs, `Progress` proves that a truthful answer is not turned away, and
  `Scenario` plays one match. `Conditions` says exactly when each command is done, `Promises` what the rows then say, in
  terms of its input, and `Results` how each worker's result ends; the methods of `Application` carry the invariant and
  all three in their contracts. `Refusals` proves that the reason a refused command is given is true. Results may arrive at any time with any
  contents, and a restart may come between any two commands. `TwoPhase` is the optimistic next-turn step; `Export`,
  `ExportCrash` and `MatchExporter` are the export, its steps interleaved with everything else, and its crashes.
* **The confirmed-state chain.** `TurnState` derives and confirms, `BattleMemory` rebuilds the prior turns from
  unordered rows, `ExportChain` has the three chain validators, `HistoryExport` compares the memory's verdict with
  theirs, `RichCodec` is the strict JSON form, and `RichContents` says which part stands at which key.
* **The intel directory.** `GenerationStore` interleaves commits, archivings, crashes and readers file by file,
  `Discovery` is the pagination proof, `IntelContext` the snapshot decoder, context builder and validator,
  `RuntimeIntel` carries a match's pin from stored bytes to the context it reasons under, and `IntelContents` spells out
  what such a context says of the snapshot's JSON.
* **Frame admission.** `FrameAdmission` is the preview cadence cap and its counters.

`Basics` and `Text` are shared helpers.

## Conventions

* Generated ids are atoms; a row's id is its position in its append-only table. A turn's id is its session and number,
  the table's other unique key. Clocks and reported timestamps are inputs.
* A hash of canonical bytes is the value hashed, or an injective function where only the hash is stored.
* A command is all or nothing: a refusal leaves the repository as it was, which is what the transaction is for.
* What happens outside the modelled files enters as an argument: whether the rules snapshot resolves, which confirmed
  state passed the rich gate, the action rebuilt for a rich result, whether an answer is well formed, the rich blocks
  of an export document, what reading its pinned intel gives, and the decoding of file bytes.
  `decide_turn_advice_dispatch` is taken to deny a request while a job waits or the attempt is consumed.

## What the proofs found

* The identity check is documented as accepting exactly what the resolver can produce
  (`domain/opponent_intel_context.py:252-268`). It accepts more: a document keyed "A B" does not resolve "a-b", which
  the check would accept. `IntelContext.ResolverMissesIff` says exactly when the two differ, and
  `CanonicalKeysResolveIff` that they agree on documents keyed by canonical ids.
* A turn that was confirmed twice can be remembered but never exported: the input is
  `HistoryExport.ReconfirmedIsRememberedNotExported`. `ListingExportsIff` says exactly which of the histories the memory
  accepts have exportable states, `HistoryExportsIff` the same in terms of the memory's own chain at the last turn.
* The validators that run before building accept gaps in the turn numbers, which the parser refuses afterwards:
  `GapPassesThenFails` is an input, `ExportableRowsParseIff` the exact condition, and chains made by derive and confirm
  always meet it.
* A published generation is pinned without validating its contents, so a pin can be readable and still fail to load:
  `PinnedButUnloadable` is an input and `HeldPinLoadsIff` says when. A flat pair is validated before it is pinned.
* Two exports of one match that overlap can leave a file that is not the recorded one, since looking for the file,
  replacing it and committing are separate steps (`application/match_service.py:182-225`). It takes a match with rich
  state and a pinned generation that cannot be read for one of the two (`:539-576`, `DocumentsDifferIff`): a read that
  fails for a moment, since by `PinnedReadsNeverChange` a generation once readable stays so. `RacingExportsDisagree` and
  `ARaceCanHappen` are the run. `UnderWayAgreesIff` is the exact condition for calls under way, `AdvanceAgreesIff` for a
  step, and `ConcurringExportsAgree` shows over whole runs that it takes different documents.
* An archiving that loses a race compares only the snapshots (`opponent_intel_db/generation_store.py:276-283`), so under
  an id of the caller's choice it can report success for another catalog: `LoserGetsOtherCatalog`. With ids named after
  contents, as `materialized_generation_id` does, it cannot: `ArchivedExactly`.

## Model

| member | source | states |
|---|---|---|
| `Application.BattleApplication.constructor` | src/maple_next/persistence/sqlite.py:37-44 | a new repository has no rows and no active match, and satisfies the invariant |
| `Application.BattleApplication.SaveSession` | src/maple_next/persistence/session_store.py:44-69 | rewrites one session row and no other row of any table |
| `Application.BattleApplication.SetJobStatus` | src/maple_next/persistence/job_store.py:69-73 | moves one job to a status; its dispatch count, binding and every other job stay |
| `Application.BattleApplication.InsertFreshSession` | src/maple_next/persistence/session_store.py:21-42 | the new session gets the next generation and the active slot, with the pins it was given |
| `Application.BattleApplication.NewMatchCommand` | src/maple_next/application/service.py:299-320 | keeps the invariant and everything settled; done exactly when no match is active and the rules snapshot resolves; then there is one fresh SELECTION_OPEN row with these pins and nothing else in it, every earlier match is over, and no waiting result can be applied to it |
| `Application.BattleApplication.AbortCommand` | src/maple_next/application/service.py:322-345 | keeps the invariant and everything settled; done exactly when a human confirms and the active match is neither ended nor exported; then the match is ABORTED one revision up, no match is active, and no job can be decided any more |
| `Application.BattleApplication.UpdateMetadataCommand` | src/maple_next/application/service.py:2207-2212 | keeps the invariant and everything settled; done exactly when a match is active; only its metadata revision moves, and exactly the same jobs can be decided afterwards |
| `Application.BattleApplication.EndMatchCommand` | src/maple_next/application/match_service.py:100-130 | keeps the invariant and everything settled; done exactly when a human confirms in BATTLE_READY or TURN_RECORDED; then the match has its first and only outcome, the one given, stamped with the revision it is left at, and no job can be decided |
| `Application.BattleApplication.CommitExportRecord` | src/maple_next/application/match_service.py:213-225 | keeps the invariant and everything settled; done exactly when the match it was asked for is the active one and MATCH_ENDED; then it has its first and only export record, this document, and is MATCH_EXPORTED, both or neither |
| `Application.BattleApplication.NewMatchAfterExportCommand` | src/maple_next/application/match_service.py:227-251 | keeps the invariant and everything settled; done exactly when the active match is exported and the rules snapshot resolves; the slot changes hands in one transaction, with the promise of a new match |
| `Application.BattleApplication.ConfirmSelection` | src/maple_next/application/service.py:347-372 | keeps the invariant and everything settled; done exactly in SELECTION_OPEN for six different names a side and a build that names the own six; then the newest selection row is exactly what was given and is the reviewed one, older advice is dropped, and every job made before is past deciding |
| `Application.BattleApplication.ApplySelectionCommand` | src/maple_next/application/service.py:743-791 | keeps the invariant and everything settled; done exactly when a human picks three different members of the reviewed team and a lead among them; then the match has its one applied row, holding that three, that lead and exactly the other two as backline |
| `Application.BattleApplication.InsertJob` | src/maple_next/persistence/job_store.py:17-44 | appends one job and touches nothing else |
| `Application.BattleApplication.RequestSelection` | src/maple_next/application/service.py:374-413 | keeps the invariant and everything settled; done exactly in SELECTION_OPEN with a reviewed selection and no job of the lane waiting or of unknown delivery; then there is one more QUEUED job bound to the reviewed row and this moment's session |
| `Application.BattleApplication.ReserveSelection` | src/maple_next/application/service.py:415-492 | keeps the invariant and everything settled; the production lane; done exactly when the round has no job yet and the lane is open, or its job, the lane's newest, failed and its last attempt's recorded reason is one of those worth a retry; the round then names the new job, whose fields are those of a request |
| `Application.BattleApplication.StartAttemptCommand` | src/maple_next/persistence/attempt_ledger_store.py:23-37 | keeps the invariant and everything settled; done exactly for ordinal 1 or 2 of a job that has none under it; no other attempt is touched |
| `Application.BattleApplication.FinishAttemptCommand` | src/maple_next/persistence/attempt_ledger_store.py:39-64 | keeps the invariant and everything settled; done exactly for an attempt under way, so only once; no other attempt is touched |
| `Application.BattleApplication.MarkDispatchedCommand` | src/maple_next/application/service.py:606-625 | keeps the invariant and everything settled; done exactly for a QUEUED job of this lane and of the active match, which then is its lane's newest; it is IN_FLIGHT and counted once, and whether it can be decided did not change |
| `Application.BattleApplication.FailJobCommand` | src/maple_next/application/service.py:627-645 | keeps the invariant and everything settled; a waiting job of the lane becomes FAILED, or TIMED_OUT for a timeout, and cannot be decided; any other job is as it was |
| `Application.BattleApplication.Recover` | src/maple_next/persistence/job_store.py:123-140 | keeps the invariant and everything settled; after a restart nothing waits: a job sent once is DELIVERY_UNKNOWN, one never sent INTERRUPTED, finished jobs as they were |
| `Application.BattleApplication.AuditResult` | src/maple_next/persistence/job_store.py:152-181 | one audit row per result handled |
| `Application.BattleApplication.RejectInvalid` | src/maple_next/application/service.py:1652-1663 | an invalid result fails its job and leaves an INVALID_REJECTED row |
| `Application.BattleApplication.ApplySelectionResultCommand` | src/maple_next/application/service.py:647-741 | keeps the invariant and everything settled; exactly one audit row for this result, with a reason that is true; STALE_REJECTED exactly when it does not say what its job and the match say, INVALID_REJECTED with the job FAILED exactly when the proposal is not three different members of the reviewed team with its lead among them, else APPLIED: the job succeeds and the advice row is the proposal; refused only where that row's keys are taken |
| `Application.BattleApplication.AcceptSelection` | src/maple_next/application/service.py:687-741 | an accepted result succeeds its job, stores the advice and makes SELECTION_ADVICE_READY, all or nothing |
| `Application.BattleApplication.AppendAdvice` | src/maple_next/persistence/turn_store.py:121-150 | an advice is stored once per id and per job |
| `Application.BattleApplication.ApplyTurnResultCommand` | src/maple_next/application/service.py:1549-1671 | keeps the invariant and everything settled; exactly one audit row, with a reason that is true; stale exactly when it does not say what its job and the match say; INVALID_REJECTED with the job FAILED and no advice exactly when the payload is malformed, the digest is not the canonical request of now, or the action is not in the reviewed board's moves or switches; else APPLIED: the match's advice is that action for that board |
| `Application.BattleApplication.AcceptTurn` | src/maple_next/application/service.py:1594-1671 | for a result that fits the present: a malformed or unlisted answer, or one to another request, is INVALID_REJECTED with the job FAILED and no advice; any other becomes the current advice with exactly its action, unless the advice keys are taken, which changes nothing |
| `Application.BattleApplication.ApplyRichTurnResultCommand` | src/maple_next/application/service.py:1673-1876 | keeps the invariant and everything settled; the same endings in the rich lane, each exactly characterised: duplicates, stale results with a true reason, the state asked about having to be the latest and of this turn and revision; a request that no longer rebuilds, or a response that fails its checks, ends INVALID_REJECTED with the job FAILED, and that verdict is an argument |
| `Application.BattleApplication.OpenTurn` | src/maple_next/application/service.py:2218-2224 | a new pending turn clears board, observation and advice and raises the revision by one |
| `Application.BattleApplication.StartTurn` | src/maple_next/application/service.py:793-802 | keeps the invariant and everything settled; done exactly in BATTLE_READY; turn 1 opens with nothing reviewed, advised or recorded in it, and no earlier job can be decided |
| `Application.BattleApplication.NextTurnCommand` | src/maple_next/application/service.py:2192-2205 | keeps the invariant and everything settled; done exactly in TURN_RECORDED; turn n+1 opens the same way and no draft is stored |
| `Application.BattleApplication.ConfirmFacts` | src/maple_next/application/service.py:804-883 | keeps the invariant and everything settled; done exactly when a human confirms a board that fits the applied three; then the newest facts row of the current turn is the reviewed board and says field by field what was typed, names stripped: each HP with its own side, moves, switches, note; its advice is dropped, earlier jobs are past deciding, and after a re-confirmation none of the turn lane waits |
| `Application.BattleApplication.CancelWaiting` | src/maple_next/application/service.py:865-875 | cancels exactly the session's waiting Turn Advice jobs |
| `Application.BattleApplication.ReserveTurnAttempt` | src/maple_next/persistence/attempt_ledger_store.py:208-252 | job and ledger row come together; a taken key refuses and leaves neither |
| `Application.BattleApplication.RequestTurn` | src/maple_next/application/service.py:926-1018 | keeps the invariant and everything settled; done exactly in TURN_REVIEWED without advice when none of the lane waits or was ever made for this board of this turn and the newest is not of unknown delivery; then there is one more decidable job with its ledger row, carrying the canonical request of this moment |
| `Application.BattleApplication.RequestRichTurn` | src/maple_next/application/service.py:1020-1263 | keeps the invariant and everything settled; the same for the rich request, bound to the latest confirmed state, which must be of this turn and revision and have passed its gate |
| `Application.BattleApplication.Record` | src/maple_next/application/service.py:2011-2103 | keeps the invariant and everything settled; done exactly when the confirmed action is in the reviewed board's moves or switches, advice is current and nothing is recorded, and a rich completion fits; then the turn has its first and only action row and it says what the human gave: own type and stripped name, opponent present exactly when a type was given, with that type and stripped name, and the order; the completion holds this action and its delta |
| `Application.BattleApplication.CommitPlan` | src/maple_next/application/service.py:2156-2190 | keeps the invariant and everything settled; the second phase; done exactly when nothing the plan was made from has changed and its draft's id is free; then the next turn is open and the plan's draft is stored at the new revision |
| `Application.BattleApplication.AppendState` | src/maple_next/persistence/turn_state_store.py:82-113 | keeps the invariant and everything settled; done exactly when the id and the turn revision are new and the predecessor is present; then the state is the last row |
| `Application.CheckFacts` | src/maple_next/application/service.py:840-863 | the first reason a reviewed board is refused, or none |
| `Application.Backline` | src/maple_next/application/service.py:743-791 | the chosen three without the lead, in order |
| `Promises.WithoutThree` | src/maple_next/application/service.py:743-791 | the lead and the two of the backline are exactly the chosen three, each once |
| `Conditions.NewMatchIff` | src/maple_next/application/service.py:299-320 | a match can be opened exactly when none is active and the rules snapshot resolves |
| `Conditions.EndIff` | src/maple_next/application/match_service.py:100-130 | and ended exactly when a human confirms in BATTLE_READY or TURN_RECORDED |
| `Conditions.ConfirmSelectionIff` | src/maple_next/application/service.py:347-372 | a selection is accepted exactly in SELECTION_OPEN with six different names a side and a build, if any, that names the own six |
| `Conditions.ApplySelectionIff` | src/maple_next/application/service.py:743-791 | three are applied exactly when a human confirms, they are three different members of the reviewed team and the lead is one of them |
| `Conditions.RequestSelectionIff` | src/maple_next/application/service.py:374-413 | a Selection job is made exactly when no job of the match's lane is queued, in flight or of unknown delivery |
| `Conditions.ReserveIff` | src/maple_next/application/service.py:415-492 | a production job is made exactly for an unreserved round of an open lane, or after the reserved job, the lane's newest, failed with a transient last attempt: timeout, network, or HTTP 408, 425, 429, 500, 502, 503, 504 |
| `Conditions.DispatchIff` | src/maple_next/application/service.py:606-625 | a job goes out exactly when it is queued, of this lane and of the active match: being the newest follows |
| `Conditions.BoardFitsIff` | src/maple_next/application/service.py:840-863 | the refusal checks pass exactly a board with the own active and all switches among the applied three, the active not among them, one to four moves, no blank and no repeated name once stripped |
| `Conditions.ConfirmFactsIff` | src/maple_next/application/service.py:804-883 | so a board is confirmed exactly when a human confirms such a board in a pending or reviewed turn |
| `Conditions.RequestTurnIff` | src/maple_next/application/service.py:926-1018 | a Turn Advice job is made exactly in TURN_REVIEWED without advice, when none of the lane waits or was ever made for this board of this turn and none has unknown delivery as the newest |
| `Conditions.RequestRichIff` | src/maple_next/application/service.py:1020-1263 | a rich one exactly in TURN_REVIEWED when the latest state is of this turn and revision, the gate passed it, and none of the lane waits or was ever made for it |
| `Conditions.RecordIff` | src/maple_next/application/service.py:2011-2103 | an action is recorded exactly when confirmed, listed on the reviewed board and advised, its opponent half complete or absent, and its rich completion, if any, of this turn and new |
| `Conditions.CommitIff` | src/maple_next/application/service.py:2156-2190 | a plan commits exactly when session, revision, latest state and last delta are those it was made from |
| `Refusals.RefusalIsTrue` | src/maple_next/application/service.py:299-2383 | in every state a run reaches, the reason a refused command is given is one of its own and is true of the input and the rows: the wrong state, the missing confirmation, the waiting job, the reserved round, the name outside the team, the blank or repeated name, the action not listed, the taken key, the stale plan |
| `Refusals.ActionRefused` | src/maple_next/application/service.py:2011-2103 | so for an action: not confirmed, an opponent half that does not fit, no advice, not listed on the reviewed board, or a completion of another turn, delta or state or under a taken key |
| `Refusals.BoardRefused` | src/maple_next/application/service.py:840-863 | and for a board: each refusal names what is wrong with it |
| `Results.SelectionResultEnds` | src/maple_next/application/service.py:647-741 | of every result whatever: duplicate, stale with a true reason, invalid or applied, each exactly when; applied, the proposal is three different members of the reviewed team with its lead, and that is what is stored |
| `Results.TurnResultEnds` | src/maple_next/application/service.py:1549-1671 | the same in the Turn Advice lane: applied, the answer is well formed, to the canonical request of now, and a move or switch of the reviewed board, and that action is what is stored; expected and current but malformed or unlisted, the job is FAILED and no advice is stored |
| `Results.RichResultEnds` | src/maple_next/application/service.py:1673-1947 | the same in the rich lane, where the state asked about must be the latest one and of this turn and revision |
| `Store.LatestJob` | src/maple_next/persistence/job_store.py:101-110 | the newest job of a session and type: no later row is one |
| `Store.LatestFacts` | src/maple_next/persistence/match_store.py:120-144 | the newest board of a turn: no later row is one |
| `Store.LatestAdvice` | src/maple_next/persistence/match_store.py:146-156 | the newest advice of a turn: no later row is one |
| `Store.ListTurns` | src/maple_next/persistence/match_store.py:107-118 | a session's turns and no others, by rising number |
| `Store.LatestState` | src/maple_next/persistence/turn_state_store.py:171-187 | the latest confirmed state of a match: none of it has a higher turn or revision |
| `Store.LastDeltaOn` | src/maple_next/persistence/turn_state_store.py:474-494 | the last delta based on a state: none has a higher turn or revision |
| `Store.NextGeneration` | src/maple_next/persistence/session_store.py:21-26 | above every generation given out before |
| `Preservation.EmptyStoreOk` | src/maple_next/persistence/sqlite.py:37-44 | the repository invariant holds of an empty repository |
| `Steps.ExecuteSteps` | src/maple_next/application/service.py:260-2452 | every command that commits, from any state that satisfies the invariant, keeps it; it raises a session's revision by one exactly when it changes state or pointers; it only moves jobs along the status order |
| `Steps.StepSteps` | src/maple_next/persistence/sqlite.py:47-61 | the same of every command, committed or rolled back |
| `Guarantees.RunKeeps` | src/maple_next/application/service.py:260-2452 | whole runs: the invariant holds throughout, revisions never fall, an equal revision means an unchanged session, final jobs and append-only rows never change |
| `Guarantees.ReachableIsSound` | src/maple_next/application/service.py:260-2452 | so it holds in every state any run reaches, restarts and hostile results included |
| `Guarantees.AppliedMeansUntouched` | src/maple_next/application/service.py:2397-2452 | if a result is APPLIED for a job, then at every point since the job was created its session's state, revision and pointers were the same |
| `Guarantees.StaleResultIsOnlyNoted` | src/maple_next/application/service.py:647-684 | in all three lanes a result whose job is not decidable now leaves one audit row and changes nothing else |
| `Guarantees.JobsActOnce` | src/maple_next/persistence/job_store.py:69-150 | per job at most one APPLIED or INVALID_REJECTED row; dispatch count at most 1, 0 while QUEUED or INTERRUPTED, 1 while IN_FLIGHT or DELIVERY_UNKNOWN |
| `Guarantees.FinalJobsStayFinal` | src/maple_next/persistence/job_store.py:123-150 | a terminal job is never changed and never decided again, by any later run |
| `Guarantees.OnlyTheNewestWaits` | src/maple_next/application/service.py:374-492 | a waiting job is the newest of its session and type |
| `Guarantees.UnknownDeliverySticks` | src/maple_next/application/service.py:2368-2375 | after a Selection delivery is unknown no run creates another Selection job for that session, which is only ever open or aborted |
| `Guarantees.OneTurnJobPerSnapshot` | src/maple_next/persistence/attempt_ledger_store.py:208-287 | at most one Turn Advice job per session, match, generation, turn and reviewed snapshot, though the table's key also has the revision |
| `Guarantees.SelectionJobsFormChains` | src/maple_next/application/service.py:415-578 | a round's production jobs form one chain in row order: by now each predecessor is FAILED or TIMED_OUT with a transient attempt on record; the ledger names the last |
| `Guarantees.SuccessorWasEarned` | src/maple_next/application/service.py:415-492 | a production job made while its round is reserved replaces the round's last job, whose last provider attempt, as recorded at that moment, had failed transiently |
| `Guarantees.EverySuccessorWasEarned` | src/maple_next/application/service.py:415-578 | over whole runs: every later job of a round was made by a command that ran when the round's job before it had just so ended |
| `Guarantees.PinsNeverMove` | src/maple_next/persistence/session_store.py:44-69 | no run changes a session's rules pin, intel pin or match id |
| `Progress.RequestedForNow` | src/maple_next/application/service.py:926-1018 | a requested job is bound to the turn, board, revision and canonical request of this moment |
| `Progress.StillMadeFor` | src/maple_next/application/service.py:2397-2452 | and stays so bound for as long as the match is untouched, whatever else runs |
| `Progress.TruthfulAnswerIsApplied` | src/maple_next/application/service.py:1549-1671 | the converse of stale-result safety: a truthful, legal answer to a waiting job of an untouched match is applied |
| `Progress.AppliedIffUntouched` | src/maple_next/application/service.py:1549-1671 | both directions at once, for any payload: an answer that repeats its job's binding is applied if and only if the job still waits, the match is as it was at the request, and the payload is well formed and names a move or switch of that board |
| `Progress.EchoFitsIff` | src/maple_next/application/service.py:2397-2452 | in any lane a result that repeats its job's binding fits exactly when the job waits and nobody moved the match |
| `Progress.ProposalFitsIffUntouched` | src/maple_next/application/service.py:647-741 | so over whole runs a Selection proposal is not turned away as stale exactly when the job waits and the match is as it was |
| `Progress.RichFitsIffUntouched` | src/maple_next/application/service.py:1673-1947 | and a rich answer exactly when besides the confirmed state it was asked about is still the latest of this turn |
| `Scenario.AMatchCanBePlayed` | src/maple_next/application/service.py:260-2452 | a run from the empty repository through both advice lanes to MATCH_ENDED, so the guarantees over reachable states are about something |
| `Scenario.ARaceCanHappen` | src/maple_next/application/match_service.py:132-225 | a run from the empty repository and directory, of a match with a pinned generation and a valid confirmed state of its turn, in which two overlapping exports, one of which cannot read the pin, leave a file that is not the recorded one |
| `Scenario.EndedExports` | src/maple_next/application/match_export_v3.py:318-439 | the chain validators accept that match's state before building and when parsing |
| `TwoPhase.PlanIsDerived` | src/maple_next/application/service.py:2112-2155 | the plan's draft is the derivation of the given state and delta, under the identity of turn n+1 and revision r+1 |
| `TwoPhase.PlansIff` | src/maple_next/application/service.py:2112-2155 | a plan comes of exactly the active TURN_RECORDED match, its latest state and that state's last delta; the second check of the chain never refuses what the first derived |
| `TwoPhase.TwoPhaseRefinesAtOnce` | src/maple_next/application/service.py:2105-2190 | whatever ran in between, a commit that succeeds equals the one-step derive-and-store at commit time; one that fails changes nothing |
| `TwoPhase.TwoPhaseSucceedsIff` | src/maple_next/application/service.py:2156-2190 | it succeeds exactly when planning at commit time gives the same plan and the draft's id is free |
| `TwoPhase.CommittedDraftIsBound` | src/maple_next/application/service.py:2156-2190 | the stored draft continues the latest state and delta and carries the session's new identity |
| `Export.PayloadBuilds` | src/maple_next/application/match_service.py:253-394 | under the invariant a finished match's payload builds and every field of it is the rows': session, match, generation, the given outcome, the reviewed selection, the applied three and lead, builds exactly when the selection has a build, turns 1..n each with its latest board, its advice for that board, its one legal action and the active's build, the history, and no rich part |
| `Export.ExportNeverSticks` | src/maple_next/application/match_service.py:253-394 | so in every reachable MATCH_ENDED state no missing-data error can be raised, and the payload says this with the outcome on record |
| `Export.RecordedTurnSettles` | src/maple_next/application/service.py:2011-2103 | the board and advice a turn exports are those current when its action was recorded, after any later run |
| `Export.PayloadSettles` | src/maple_next/application/match_service.py:253-394 | no run changes what a finished match exports |
| `MatchExporter.MatchApplication.constructor` | src/maple_next/application/match_service.py:54-68 | no file exists before the first export and the repository satisfies the invariant |
| `MatchExporter.MatchApplication.BuildTurns` | src/maple_next/application/match_service.py:271-360 | the listed turns in order, or the first missing piece |
| `MatchExporter.MatchApplication.BuildExportPayload` | src/maple_next/application/match_service.py:253-394 | the payload, or the first reason there is none; what it says of a finished match is `PayloadBuilds` |
| `MatchExporter.MatchApplication.BuildDocument` | src/maple_next/application/match_service.py:132-185 | legacy payload, with the rich blocks for a match that has confirmed states |
| `MatchExporter.MatchApplication.PlaceFile` | src/maple_next/application/match_service.py:182-192 | the path's file is already this document, or there was none and now it is; another document is left and refused |
| `MatchExporter.MatchApplication.FinishExport` | src/maple_next/application/match_service.py:182-225 | place, read back, commit, with a crash after any of them; keeps the invariant and everything settled |
| `MatchExporter.MatchApplication.ExportMatchCommand` | src/maple_next/application/match_service.py:132-225 | the call over repository and directory, with a crash after any of its steps; it keeps the invariant and everything settled |
| `ExportCrash.ExportPathIsCanonical` | src/maple_next/application/match_service.py:132-225 | however commands, exports and crashes interleave step by step, an export path holds nothing or a document every field of which is its match's rows', with rich blocks only if the match has a confirmed state and intel provenance only if it has a pin; so does the record; they differ in the rich part alone, and without rich state not at all |
| `ExportCrash.CallIsActs` | src/maple_next/application/match_service.py:132-225 | an undisturbed or crashed call is one of those interleavings, so what is proved of them is proved of it |
| `ExportCrash.StepDoes` | src/maple_next/application/match_service.py:182-225 | a step touches at most its own path or the repository; a call goes past its file exactly when the path was empty or holds its document, and a rich one once more when it reads it back |
| `ExportCrash.RecordIsFinal` | src/maple_next/application/match_service.py:213-225 | a match is exported once: its record is there for good, whatever is still under way |
| `ExportCrash.AdvanceAgreesIff` | src/maple_next/application/match_service.py:182-225 | a step of an export keeps file and record equal exactly when, before its replace, the match is not recorded or the file is its document already, and, before its commit, the file is its document if the commit's guards hold |
| `ExportCrash.ConcurringExportsAgree` | src/maple_next/application/match_service.py:182-225 | over runs with any overlap, crashes and commands: if every export that begins while its path holds nothing finds those of its match under way with its own document, file and record are equal for every match |
| `ExportCrash.OneAtATimeAgrees` | src/maple_next/application/match_service.py:132-225 | in particular exports that never overlap leave file and record equal for every match |
| `ExportCrash.UnderWayAgreesIff` | src/maple_next/application/match_service.py:182-225 | of calls that have built their documents and gone no further: every order of their steps, with any commands and crashes between, leaves file and record equal if and only if those of each match whose path holds nothing have built the same document |
| `ExportCrash.DocumentsDifferIff` | src/maple_next/application/match_service.py:539-576 | two calls on the same rows build different documents exactly when the match uses rich state, has a pinned generation and they read different provenance of it |
| `ExportCrash.RacingExportsDisagree` | src/maple_next/application/match_service.py:182-225 | for a match with rich state and a pinned generation, two that overlap on the same rows but read different provenance do not agree: the record names one document, the path holds the other, and every later call is refused |
| `ExportCrash.UndisturbedExportCompletes` | src/maple_next/application/match_service.py:132-225 | for a match without rich state, whatever crashed or is still under way, one undisturbed call ends MATCH_EXPORTED with one record equal to the file, which says of every field what the rows do; calling again changes nothing |
| `ExportCrash.RepeatAnswersIff` | src/maple_next/application/match_service.py:132-140 | asked again, an exported match changes nothing, and the answer is its record exactly if the file still is that |
| `TurnState.AdvanceSucceedsIff` | src/maple_next/domain/turn_state.py:504-564 | derive then confirm succeeds exactly on chained inputs with a non-blank timestamp, and the new state has the given id, identity, confirmation and evidence, a link to the previous state and the derived board |
| `TurnState.DerivesIff` | src/maple_next/domain/turn_state.py:399-531 | a draft is derived exactly on chained inputs; it names its state and delta, and each slot holds the new value, the old one carried forward, or UNKNOWN |
| `TurnState.ConfirmsIff` | src/maple_next/domain/turn_state.py:534-564 | any draft is confirmed exactly when it continues this state and this delta under the next identity, and its board is taken as it is |
| `TurnState.FoldUntouched` | src/maple_next/domain/turn_state.py:468-481 | a field nobody observed keeps the root value with one CARRY_FORWARD a turn |
| `TurnState.FoldLooksBack` | src/maple_next/domain/turn_state.py:468-481 | otherwise it is what the last observation that was not UNCHANGED said, carried forward once a later turn |
| `TurnState.PlayedBoardIsFold` | src/maple_next/domain/turn_state.py:484-531 | over any number of turns each slot of the last confirmed board is that fold |
| `TurnState.PlayedBoardIsValid` | src/maple_next/domain/turn_state.py:228-303 | every confirmed board of a match stays within the constructors' rules |
| `TurnState.PlayedStagesStayBounded` | src/maple_next/domain/turn_state.py:57-61 | known stages stay between -6 and 6 |
| `BattleMemory.IndexStates` | src/maple_next/domain/battle_memory.py:405-414 | fails exactly on a foreign or repeated state |
| `BattleMemory.WalkChain` | src/maple_next/domain/battle_memory.py:350-376 | terminates, and finds the ancestor chain exactly when there is an acyclic, unbroken one |
| `BattleMemory.IndexCompletions` | src/maple_next/domain/battle_memory.py:421-430 | fails exactly on a foreign, current, future or repeated completion |
| `BattleMemory.IndexDeltas` | src/maple_next/domain/battle_memory.py:432-440 | fails exactly on a repeated delta id, and counts the deltas based on each state |
| `BattleMemory.BuildBattleMemory` | src/maple_next/domain/battle_memory.py:379-494 | succeeds exactly when the declarative history condition holds, and returns the memory it determines; each row says what the rows behind it do: identity and reviewed state, own and opponent active as that state's board holds them, both actions, order and result |
| `BattleMemory.MemoryIsUnique` | src/maple_next/domain/battle_memory.py:379-494 | the condition determines the memory |
| `BattleMemory.OrderDoesNotMatter` | src/maple_next/domain/battle_memory.py:379-494 | verdict and memory are the same under any permutation of the three row lists |
| `BattleMemory.MemoryIsPriorTurns` | src/maple_next/domain/battle_memory.py:265-284 | exactly turns 1..N-1 of this match, in order; turn k is read off one completion, the state it was reviewed on and the delta it names: own active from the own side, opponent active from the opponent's, own action, the opponent's or UNKNOWN exactly when no type was recorded, order and result; the reviewed states come in turn order along the current state's ancestors |
| `ExportChain.ValidateStates` | src/maple_next/application/match_export_v3.py:318-378 | accepts exactly distinct, linked states of one match with rising turns within the final revision |
| `ExportChain.ValidateDeltas` | src/maple_next/application/match_export_v3.py:395-439 | accepts exactly distinct deltas based on different exported states with matching identities |
| `ExportChain.ValidateDocument` | src/maple_next/application/match_export_v3.py:896-996 | accepts exactly one consecutive chain, whatever order its turns are in |
| `ExportChain.CheckRecord` | src/maple_next/application/match_export_v3.py:896-996 | per record: it extends the chain so far or is refused |
| `ExportChain.DocumentOrderDoesNotMatter` | src/maple_next/application/match_export_v3.py:896-996 | the verdict does not depend on turn order |
| `ExportChain.AcceptedDocumentIsExportable` | src/maple_next/application/match_export_v3.py:896-996 | an accepted document, sorted by turn, passes both validators that run before building |
| `ExportChain.ExportableRowsParseIff` | src/maple_next/application/match_export_v3.py:318-439 | rows that pass before building parse back exactly when their turns and revisions are consecutive |
| `ExportChain.PlayedChainExports` | src/maple_next/application/match_export_v3.py:318-439 | any chain made by derive and confirm passes all three validators |
| `ExportChain.ReconfirmedTurnIsNotExportable` | src/maple_next/application/match_export_v3.py:318-378 | two confirmed states of one turn never pass the state validator |
| `HistoryExport.ListingExportsIff` | src/maple_next/application/match_export_v3.py:318-378 | a history the memory accepts: its match's listed states are exportable exactly when the ancestor chain of the last listed one holds them all, with rising turns, within the final revision |
| `HistoryExport.HistoryExportsIff` | src/maple_next/application/match_export_v3.py:318-378 | at the match's last turn: exactly when the memory's own chain holds every state, no turn was confirmed twice and every revision is within the final one |
| `HistoryExport.EarlierChainDecidesNothing` | src/maple_next/application/match_export_v3.py:318-378 | an input: seen from turn 1 the chain lacks turn 2, and the states are exportable all the same |
| `HistoryExport.HistoryDeltasExportIff` | src/maple_next/application/match_export_v3.py:395-439 | its deltas are then exportable exactly when at most one is based on the current state and that one is of the current turn |
| `HistoryExport.ReconfirmedIsRememberedNotExported` | src/maple_next/domain/battle_memory.py:379-494 | an input: turn 1 confirmed twice is accepted by the memory and refused by the export |
| `HistoryExport.GapPassesThenFails` | src/maple_next/application/match_export_v3.py:318-439 | an input: turns 1 and 3 pass both validators that run before building and the parser refuses |
| `RichCodec.ValueRoundTrip` | src/maple_next/domain/turn_state.py:711-783 | every field value reads back as written |
| `RichCodec.KnownRoundTrip` | src/maple_next/domain/turn_state.py:723-748 | knowledge, UNKNOWN included, reads back with its provenance |
| `RichCodec.FieldDeltaRoundTrip` | src/maple_next/domain/turn_state.py:751-777 | an observation reads back |
| `RichCodec.SideRoundTrip` | src/maple_next/domain/turn_state.py:786-821 | a side's eleven fields read back |
| `RichCodec.SideDeltaRoundTrip` | src/maple_next/domain/turn_state.py:824-859 | a side's eleven observations read back |
| `RichCodec.IdentityRoundTrip` | src/maple_next/application/match_export_v3.py:670-682 | a turn identity reads back |
| `RichCodec.ConfirmationRoundTrip` | src/maple_next/application/match_export_v3.py:685-694 | a confirmation reads back |
| `RichCodec.StateRoundTrip` | src/maple_next/application/match_export_v3.py:697-719 | a valid confirmed state reads back |
| `RichCodec.DeltaRoundTrip` | src/maple_next/application/match_export_v3.py:722-743 | a valid delta reads back |
| `RichCodec.ActionRoundTrip` | src/maple_next/application/match_export_v3.py:746-774 | a legal action reads back |
| `RichCodec.EvidenceRoundTrip` | src/maple_next/application/match_export_v3.py:777-789 | evidence with an accepted hash reads back |
| `RichCodec.BlockRoundTrip` | src/maple_next/application/match_export_v3.py:808-893 | the strict parser takes back, unchanged, every block the exporter writes for a valid record |
| `RichCodec.ParsedBlockIsValid` | src/maple_next/application/match_export_v3.py:808-893 | every block it accepts is a valid record with one identity throughout |
| `RichContents.BlockSaid` | src/maple_next/application/match_export_v3.py:163-228 | the block written holds every part of the record at that part's own key, side by side and field by field, and no other key |
| `RichContents.BlockReadsIff` | src/maple_next/application/match_export_v3.py:808-893 | the strict parser accepts exactly the blocks of valid records: a missing, misplaced or extra key anywhere is refused, and what it returns is what stands at each key |
| `GenerationStore.ReachableSystem` | src/maple_next/opponent_intel_db/generation_store.py:133-289 | every run of commits, archivings, failures, crashes and readers keeps each folder as far along as its one writer and every published generation whole |
| `GenerationStore.ReadersSeeOneGeneration` | src/maple_next/opponent_intel_db/generation_store.py:346-383 | interleaved file by file with all of that, a reader ends with the two files of one published generation or with none, never a mix or a hash error |
| `GenerationStore.NothingOnlyBeforeTheFirst` | src/maple_next/opponent_intel_db/generation_store.py:346-383 | none is returned only before the first publication |
| `GenerationStore.CurrentIsReadable` | src/maple_next/opponent_intel_db/generation_store.py:346-383 | an uninterrupted reader gets the last published generation |
| `GenerationStore.PinnedReadsNeverChange` | src/maple_next/opponent_intel_db/generation_store.py:301-336 | an id that reads once reads the same bytes after every later run |
| `GenerationStore.PublishedIsPinnable` | src/maple_next/opponent_intel_db/generation_store.py:301-336 | a published generation reads by its id for good |
| `GenerationStore.ReadsIff` | src/maple_next/opponent_intel_db/generation_store.py:301-336 | on any disk an id reads exactly as the manifest in a complete folder of that id whose two files are the ones it names |
| `GenerationStore.ReadsCurrentIff` | src/maple_next/opponent_intel_db/generation_store.py:346-383 | and the current generation exactly as the pointer whose two files are there |
| `GenerationStore.QuietReaderIsReadCurrent` | src/maple_next/opponent_intel_db/generation_store.py:346-383 | a reader nobody disturbs comes step by step to the same end, whatever state the disk is in |
| `GenerationStore.ServedIsNamed` | src/maple_next/opponent_intel_db/generation_store.py:346-383 | whatever happened to the disk between its steps, a reader serves no bytes but those the pointer it read names |
| `GenerationStore.ArchivedReadsBack` | src/maple_next/opponent_intel_db/generation_store.py:203-289 | an archiving that reports success, a lost race included, names what its id reads as for good, with the snapshot it was given |
| `GenerationStore.LostRaceIsExactIff` | src/maple_next/opponent_intel_db/generation_store.py:254-283 | a lost race taken for a success left exactly these bytes if and only if the check made before writing would have passed too |
| `GenerationStore.LoserGetsOtherCatalog` | src/maple_next/opponent_intel_db/generation_store.py:254-283 | an input: two archivings under one id of the caller's choice, the same snapshot and different catalogs; the loser is told it succeeded |
| `GenerationStore.IntelDirectory.constructor` | src/maple_next/opponent_intel_db/generation_store.py:197-200 | an empty directory publishes nothing |
| `GenerationStore.IntelDirectory.WriteNext` | src/maple_next/opponent_intel_db/generation_store.py:106-115 | one more file of a folder, in the order snapshot, catalog, manifest, each with its own content |
| `GenerationStore.IntelDirectory.CommitGeneration` | src/maple_next/opponent_intel_db/generation_store.py:133-194 | published whole, its three files those of the manifest, or undone by a failure, or left unpublished by a crash at any file |
| `GenerationStore.IntelDirectory.MaterializeGeneration` | src/maple_next/opponent_intel_db/generation_store.py:203-289 | never touches the pointer or an existing generation; when it reports success is said exactly; success means the id reads back with this snapshot, and with this catalog exactly unless another process won a race with another catalog |
| `Discovery.Dedup` | src/maple_next/opponent_intel_db/discovery.py:70-84 | of every species the first entry, in order; says whether there was a second |
| `Discovery.CheckRanks` | src/maple_next/opponent_intel_db/discovery.py:87-108 | accepts exactly no ranks at all, or 1..N once each |
| `Discovery.CoversPages` | src/maple_next/opponent_intel_db/discovery.py:265-277 | the visited page numbers are exactly 1..last |
| `Discovery.Traverse` | src/maple_next/opponent_intel_db/discovery.py:126-293 | stops within 50 distinct urls; a failed traversal means no proof exists |
| `Discovery.DiscoverAllSpecies` | src/maple_next/opponent_intel_db/discovery.py:126-293 | COMPLETE exactly when a positive terminal proof exists, with that proof's entries; UNPROVABLE only after a clean trace that declares neither a total nor a last page |
| `Discovery.ProvenIsExact` | src/maple_next/opponent_intel_db/discovery.py:126-293 | a proof over a site truthful about its total or its last page holds exactly the site's species |
| `Discovery.EntriesInOrder` | src/maple_next/opponent_intel_db/discovery.py:126-293 | the entries are the pages' entries in page order, each page's as listed |
| `Discovery.CompleteIsExact` | src/maple_next/opponent_intel_db/discovery.py:126-293 | so COMPLETE means the site's species set, each once |
| `IntelContext.NormalizeTwice` | src/maple_next/opponent_intel_db/normalize.py:21-37 | the shared normal form is idempotent and blind to outer white space |
| `IntelContext.DecodedRecordIsOk` | src/maple_next/opponent_intel_db/normalize.py:146-199 | a decoded record says what its JSON says at each key, has its names, non-blank entries and percentages within 0..100 |
| `IntelContext.RecordDecodesIff` | src/maple_next/opponent_intel_db/normalize.py:146-199 | the decoder accepts an object exactly when a record says what it holds, and returns that record: each text at its own key, update time and ranking, for each category the names and percentages of the list at that category's key, none when the key is absent, and the spreads |
| `IntelContext.KeyedEntryDecodesIff` | src/maple_next/opponent_intel_db/snapshot_store.py:68-118 | an entry of the snapshot decodes exactly when its object does and its key names that species |
| `IntelContext.DecodeDocument` | src/maple_next/opponent_intel_db/snapshot_store.py:68-118 | decodes exactly when every record does under a key that names its own species; header and records then say what the JSON says, each field from its own key |
| `IntelContext.LessIsTotal` | src/maple_next/domain/opponent_intel_context.py:209-249 | sorted() has one order to give |
| `IntelContext.LessIsTransitive` | src/maple_next/domain/opponent_intel_context.py:209-249 | and it is an order |
| `IntelContext.ScansTakeTheLeast` | src/maple_next/domain/opponent_intel_context.py:209-249 | where several species fit a scan the least id wins, whatever the dict's order |
| `IntelContext.ResolvedIsAccepted` | src/maple_next/domain/opponent_intel_context.py:252-280 | whichever of the four rules resolves a name, the identity check accepts the record |
| `IntelContext.ResolverMissesIff` | src/maple_next/domain/opponent_intel_context.py:252-280 | the check accepts a species the resolver misses exactly when no accepted record is findable by key or display name |
| `IntelContext.CanonicalKeysResolveIff` | src/maple_next/domain/opponent_intel_context.py:252-280 | for documents keyed by canonical ids the two are exact inverses |
| `IntelContext.BlankKeyIsMissed` | src/maple_next/domain/opponent_intel_context.py:252-280 | a document where they differ |
| `IntelContext.BuiltContextPasses` | src/maple_next/domain/opponent_intel_context.py:400-605 | every context the builder returns for a decoded snapshot passes the validator |
| `IntelContext.BuilderFailsIff` | src/maple_next/domain/opponent_intel_context.py:426-440 | the builder fails exactly when a pin leads nowhere, elsewhere or to other bytes |
| `IntelContext.AvailableIff` | src/maple_next/domain/opponent_intel_context.py:442-501 | population is claimed exactly for a pinned, compatible snapshot holding the confirmed species, and the identity reported is the pin's |
| `IntelContext.PopulationReadsBack` | src/maple_next/domain/opponent_intel_context.py:287-306 | read with the snapshot's own decoder, the population is the record's first eight entries of each category |
| `IntelContents.ResolvesIff` | src/maple_next/domain/opponent_intel_context.py:209-249 | a name finds exactly the record it stands for: its own id, else its normal form, else the least id that shows it, else the least that fits it up to case |
| `IntelContents.IdentityMatchesIff` | src/maple_next/domain/opponent_intel_context.py:252-280 | the five steps of the identity check say two equalities: same normal form as the id, or same display name up to case |
| `IntelContents.ContextSays` | src/maple_next/domain/opponent_intel_context.py:309-501 | every context is one of six forms, spelled out key by key with its status and reason; an AVAILABLE one names the pinned snapshot and one species object of its JSON, and shows at each category key the first eight items of that object's list |
| `IntelContents.ContextPassesIff` | src/maple_next/domain/opponent_intel_context.py:504-605 | the check at the request boundary passes exactly the contexts of this shape |
| `IntelContents.LoadedContextShowsFile` | src/maple_next/application/turn_provider_export_bridge.py:249-323 | so what a request shows is read off the file its match pinned |
| `RuntimeIntel.DecodeCatalog` | src/maple_next/opponent_intel_db/runtime_intel.py:63-86 | accepts exactly valid entries with distinct names |
| `RuntimeIntel.ExpectedCounts` | src/maple_next/opponent_intel_db/runtime_intel.py:89-94 | for each move the number of species that list it, a repeated listing counting once |
| `RuntimeIntel.TrustedIff` | src/maple_next/opponent_intel_db/runtime_intel.py:63-151 | a pair is trusted exactly when both schemas are the known ones, every record decodes, each catalog entry names a move once with the number of species listing it, and no listed move is missing |
| `RuntimeIntel.ValidatedBundle` | src/maple_next/opponent_intel_db/runtime_intel.py:124-151 | serves a pair exactly when both files decode and the catalog lists the snapshot's moves with the right counts |
| `RuntimeIntel.PairIdsAreExact` | src/maple_next/opponent_intel_db/runtime_intel.py:97-121 | one content id never stands for two different pairs of JSON files |
| `RuntimeIntel.ArchivedExactly` | src/maple_next/opponent_intel_db/runtime_intel.py:97-121 | so with ids named after contents every archiving that reports success, the loser of a race included, leaves exactly its own pair readable for good |
| `RuntimeIntel.ResolveNewMatchPin` | src/maple_next/opponent_intel_db/runtime_intel.py:204-273 | a published generation is pinned as it is, with nothing written; without one, the flat pair is pinned exactly when it validates and its archiving succeeds, under its content id, and then that id reads back as exactly this pair, whoever else archives by content meanwhile |
| `RuntimeIntel.LoadPinnedGeneration` | src/maple_next/opponent_intel_db/runtime_intel.py:276-293 | the generation of that id, verified and validated, or nothing |
| `RuntimeIntel.LoadedContextPasses` | src/maple_next/application/turn_provider_export_bridge.py:249-323 | every context loaded for a match passes the request boundary's validator |
| `RuntimeIntel.HeldPinLoadsIff` | src/maple_next/application/turn_provider_export_bridge.py:249-323 | a readable pin gives a context exactly when its pair validates |
| `RuntimeIntel.PinnedButUnloadable` | src/maple_next/opponent_intel_db/runtime_intel.py:204-293 | an input: a committed generation whose snapshot does not decode is current, readable and pinned as it is, and loads nothing |
| `RuntimeIntel.ContextNeverDrifts` | src/maple_next/application/turn_provider_export_bridge.py:249-323 | after any run of commands and any run of the intel directory a match's pin and confirmed species give the same context |
| `FrameAdmission.WindowIsBounded` | src/maple_next/capture/qt_ugreen.py:43-45 | in stream-time order any window of T ns admits at most 1 + T / 32,333,333 frames |
| `FrameAdmission.WindowNext` | src/maple_next/capture/qt_ugreen.py:275-287 | counting the admitted stamps in a window agrees with admitting the frames one by one |
| `FrameAdmission.NoneLostIff` | src/maple_next/capture/qt_ugreen.py:275-287 | a timed source loses no frame exactly when each gap is at least 32,333,333 ns or negative |
| `FrameAdmission.DroppedIsCovered` | src/maple_next/capture/qt_ugreen.py:275-287 | every dropped frame follows an admitted one by less than 32,333,333 ns |
| `FrameAdmission.ConversionsAreFew` | src/maple_next/capture/qt_ugreen.py:183-224 | conversions in rising sequence number are no more than the frames admitted |
| `FrameAdmission.PreviewBackend.constructor` | src/maple_next/capture/qt_ugreen.py:85-104 | nothing counted, pending or cached |
| `FrameAdmission.PreviewBackend.Teardown` | src/maple_next/capture/qt_ugreen.py:306-327 | forgets every counter, pending frame and packet |
| `FrameAdmission.PreviewBackend.Start` | src/maple_next/capture/qt_ugreen.py:106-178 | a second start changes nothing; a failed one leaves nothing behind |
| `FrameAdmission.PreviewBackend.Stop` | src/maple_next/capture/qt_ugreen.py:180-181 | as teardown |
| `FrameAdmission.PreviewBackend.AdmitPreviewFrame` | src/maple_next/capture/qt_ugreen.py:275-287 | drops exactly a frame less than 32,333,333 ns after the last admitted one and not before it, and moves that mark only when admitting |
| `FrameAdmission.PreviewBackend.OnFrame` | src/maple_next/capture/qt_ugreen.py:289-304 | a running backend counts the callback as admitted or dropped, and exactly an admitted one becomes the pending frame; a stopped one ignores it; nothing is converted |
| `FrameAdmission.PreviewBackend.GetLatestFrame` | src/maple_next/capture/qt_ugreen.py:183-224 | converts the newest admitted frame at most once, failed or not; a conversion of positive size gives the packet of that frame and size, and a first resolution; else the last packet is returned |
| `FrameAdmission.PreviewBackend.ReadMetrics` | src/maple_next/capture/qt_ugreen.py:229-250 | after any interleaving: raw = admitted + dropped, attempts = successes + failures <= admitted, the window bound, and no loss exactly for a spaced source |

## Left out

* Qt, capture hardware, image conversion, HTTP, robots.txt and HTML parsing: pages, frames and conversion results are
  arguments.
* SQL, JSON text, SHA-256, fsync and the internals of os.replace: tables are values, decoding is a function, a replace
  is one step.
* Text is ASCII: Unicode white space and case rules are not modelled.
* Object keys and enumeration spellings are atoms, and JSON coercions by `str`, `int` and `bool` are not modelled.
* `persistence/turn_state_store.py`, beyond its appends under their unique and foreign keys and its latest-row reads; the
  table of evidence rows is not kept.
* The rich gate, the canonical request it builds and its rebuild for transport: their verdicts are arguments.
* Opponent entry events, local memory, legal-switch confirmations, the current observation pointer, presets, projection
  labels and the effect and ability catalogs: none of them enters the guarantees proved.
* `set_job_status_for_test` (`persistence/job_store.py:87-91`): it breaks the status order on purpose.
* The standalone `build_match_export_v3_payload`, which uses another delta convention, and the forbidden-key scan.
* The check that the export directory lies outside the repository, and the creation timestamps copied into a payload.
* Custom file names in a generation. Reading a rich export back compares it with what was built; its parse is taken to
  succeed, as it did before the write.
* Write errors of the export directory, which end the call like a crash before the file.
* The race between validating a flat pair and reading its bytes again for archiving: both reads see the same files here.
* Commands run one at a time, as the repository's write lock makes them. The two-phase step, the steps of an export and
  the intel directory are interleaved with others; building a document reads one state of the repository.
* JSON numbers of a ranking or percentage are reals.
- Guarantees.UnknownDeliverySticks: is claimed of the Selection lane only, because the rich Turn Advice request does not consult
  the guard it rests on.
- ExportCrash.UndisturbedExportCompletes: is claimed for matches without rich state; with it an earlier crash may have left a file
  with other rich blocks, which the call refuses.
- Application.BattleApplication.ApplyRichTurnResultCommand: takes the rebuilt request and the response checks as one verdict.
- Application.BattleApplication.RequestRichTurn: takes the outcome of the rich gate and request builders as an argument.
- MatchExporter.MatchApplication.BuildDocument: takes the rich blocks, the verdict of their validators and what reading the pinned
  generation gives as an argument; the validators are in `ExportChain` and `RichCodec`, the reading in `GenerationStore`.
- HistoryExport.HistoryExportsIff: asks that the history's turn be the match's last; for other current states the chain of the
  last listed state decides, as `ListingExportsIff` says.
- BattleMemory.MemoryIsPriorTurns: says nothing of deltas that no completion links to, which the builder does not check.
- ExportChain.PlayedChainExports: asks for fresh state and delta ids and a final revision not below the last state's, which is what
  the commands give.
- GenerationStore.CurrentIsReadable: speaks of a caller nobody interrupts; interrupted readers are `ReadersSeeOneGeneration`.
- Progress.AppliedIffUntouched: asks that the answer's id and the job be new to the advice table, whose unique keys refuse the row
  otherwise; in the other lanes `ProposalFitsIffUntouched` and `RichFitsIffUntouched` say when a result fits, and `Results` how it
  then ends.
