/** Every command keeps the invariant, and evolves sessions, jobs and recorded turns only as allowed. */
module Steps {
  import opened Basics
  import opened TurnState
  import opened Records
  import opened Store
  import opened Commands
  import opened Invariant
  import opened Evolution
  import opened Effects
  import opened Preservation
  import opened Lanes
  import opened Content

  ghost predicate Stepped(s: Store, s': Store) {
    Inv(s') && Evolves(s, s')
  }

  predicate SameLanes(s: Store, s': Store) {
    && s'.jobs == s.jobs && s'.audits == s.audits && s'.turnLedger == s.turnLedger
    && s'.selectionLedger == s.selectionLedger && s'.attempts == s.attempts
  }

  lemma LanesAlone(s: Store, s': Store)
    requires LaneInv(s) && SameLanes(s, s')
    ensures LaneInv(s') && JobsEvolve(s.jobs, s'.jobs)
  {
  }

  lemma TurnsAlone(s: Store, s': Store)
    requires s'.facts == s.facts && s'.advices == s.advices && s'.actions == s.actions
    ensures TurnsFrozen(s, s')
  {
  }

  lemma SessionsAlone(ss: seq<Session>)
    ensures SessionsEvolve(ss, ss)
  {
  }

  lemma StutterSteps(s: Store)
    requires Inv(s)
    ensures Stepped(s, s)
  {
    SessionsAlone(s.sessions);
    TurnsAlone(s, s);
  }

  /** The battle tables moved, the lanes did not. */
  lemma BattleStep(s: Store, s': Store)
    requires Inv(s) && Kept(s, s') && ContentInv(s') && TurnsFrozen(s, s') && SameLanes(s, s') && TablesGrow(s, s')
    ensures Stepped(s, s')
  {
    LanesAlone(s, s');
  }

  // ---- match lifecycle ----------------------------------------------------------------------

  lemma InsertSteps(s: Store, rules: RulesPin, intel: IntelPin)
    requires Inv(s) && (s.slot.Some? ==> Closed(s.sessions[s.slot.value]))
    ensures Stepped(s, InsertSession(s, rules, intel))
  {
    var s' := InsertSession(s, rules, intel);
    InsertKeeps(s, rules, intel);
    InsertedContent(s, FreshSession(s.sessions, rules, intel), s');
    TurnsAlone(s, s');
    BattleStep(s, s');
  }

  /** A move of the active session's state and counters alone. */
  lemma SaveSteps(s: Store, i: nat, y: Session, s': Store)
    requires Inv(s) && ActiveIs(s, i) && SamePointers(s.sessions[i], y) && Revised(s.sessions[i], y) && Shape(y)
    requires (s'.slot == s.slot && !y.state.Aborted?) || (s'.slot == None && Closed(y))
    requires Waiting(s.sessions[i].state) ==> Waiting(y.state)
    requires y.turn.Some? && Undecided(y.state) ==> Undecided(s.sessions[i].state)
    requires y.turn.Some? && Decided(y.state) ==> Decided(s.sessions[i].state)
    requires OutcomeRows(s.sessions[i := y], s'.outcomes, s'.exports)
    requires s' == Save(s, i, y).(slot := s'.slot, outcomes := s'.outcomes, exports := s'.exports)
    requires TablesGrow(s, s')
    ensures Stepped(s, s')
  {
    SaveKeeps(s, i, y, s'.slot);
    SavedContent(s, i, y, s');
    TurnsAlone(s, s');
    BattleStep(s, s');
  }

  lemma AbortSteps(s: Store, confirmed: bool, s': Store)
    requires Inv(s) && AbortMatch(s, confirmed) == Success(s')
    ensures Stepped(s, s')
  {
    hide SelectionRows, TurnRows, FactRows, AdviceRows, ActionRows, JobRows, ContentInv, LaneInv;
    var i := s.slot.value;
    SaveOutcome(s.sessions, i, s'.sessions[i], s.outcomes, s.exports);
    SaveSteps(s, i, s'.sessions[i], s');
  }

  lemma MetadataSteps(s: Store, s': Store)
    requires Inv(s) && UpdateMetadata(s) == Success(s')
    ensures Stepped(s, s')
  {
    hide SelectionRows, TurnRows, FactRows, AdviceRows, ActionRows, JobRows, ContentInv, LaneInv;
    var i := s.slot.value;
    SaveOutcome(s.sessions, i, s'.sessions[i], s.outcomes, s.exports);
    SaveSteps(s, i, s'.sessions[i], s');
  }

  lemma EndEffect(s: Store, outcome: MatchOutcome, confirmed: bool, s': Store) returns (i: nat, y: Session)
    requires SessionsOk(s.sessions, s.slot) && EndMatch(s, outcome, confirmed) == Success(s')
    ensures ActiveIs(s, i) && !Over(s.sessions[i]) && !Waiting(s.sessions[i].state)
    ensures s.sessions[i].turn.Some? ==> Decided(s.sessions[i].state)
    ensures y == s.sessions[i].Bumped().(state := MatchEnded) && Shape(y)
    ensures s' == Save(s, i, y).(outcomes := s.outcomes[i := OutcomeRecord(outcome, y.battleRevision)])
    ensures i !in s.outcomes
  {
    i := s.slot.value;
    y := s'.sessions[i];
  }

  lemma EndSteps(s: Store, outcome: MatchOutcome, confirmed: bool, s': Store)
    requires Inv(s) && EndMatch(s, outcome, confirmed) == Success(s')
    ensures Stepped(s, s')
  {
    hide EndMatch, SelectionRows, TurnRows, FactRows, AdviceRows, ActionRows, JobRows, ContentInv, LaneInv, Shape;
    var i, y := EndEffect(s, outcome, confirmed, s');
    EndOutcome(s.sessions, i, y, s.outcomes, s.exports, outcome);
    SaveSteps(s, i, y, s');
  }

  lemma ExportEffect(s: Store, session: nat, file: ExportPayload, onDisk: Option<ExportPayload>, s': Store)
      returns (i: nat, y: Session)
    requires SessionsOk(s.sessions, s.slot) && CommitExport(s, session, file, onDisk) == Success(s')
    ensures ActiveIs(s, i) && s.sessions[i].state.MatchEnded? && Shape(y)
    ensures y == s.sessions[i].Bumped().(state := MatchExported)
    ensures s' == if i in s.exports then s else Save(s, i, y).(exports := s.exports[i := file])
  {
    i := s.slot.value;
    y := s.sessions[i].Bumped().(state := MatchExported);
  }

  lemma ExportSteps(s: Store, session: nat, file: ExportPayload, onDisk: Option<ExportPayload>, s': Store)
    requires Inv(s) && CommitExport(s, session, file, onDisk) == Success(s')
    ensures Stepped(s, s')
  {
    hide SelectionRows, TurnRows, FactRows, AdviceRows, ActionRows, JobRows, ContentInv, LaneInv;
    hide CommitExport, Shape;
    var i, y := ExportEffect(s, session, file, onDisk, s');
    if i in s.exports {
      StutterSteps(s);
    } else {
      ExportOutcome(s.sessions, i, y, s.outcomes, s.exports, file);
      SaveSteps(s, i, y, s');
    }
  }

  lemma NewMatchSteps(s: Store, rules: Option<RulesPin>, intel: IntelPin, s': Store)
    requires Inv(s) && NewMatch(s, rules, intel) == Success(s')
    ensures Stepped(s, s')
  {
    InsertSteps(s, rules.value, intel);
  }

  lemma NewMatchAfterExportEffect(s: Store, rules: Option<RulesPin>, intel: IntelPin, s': Store)
    requires NewMatchAfterExport(s, rules, intel) == Success(s')
    ensures rules.Some? && s.slot.Some? && s.slot.value < |s.sessions| && Closed(s.sessions[s.slot.value])
    ensures s' == InsertSession(s, rules.value, intel)
  {
  }

  lemma NewMatchAfterExportSteps(s: Store, rules: Option<RulesPin>, intel: IntelPin, s': Store)
    requires Inv(s) && NewMatchAfterExport(s, rules, intel) == Success(s')
    ensures Stepped(s, s')
  {
    NewMatchAfterExportEffect(s, rules, intel, s');
    InsertSteps(s, rules.value, intel);
  }

  // ---- selection ----------------------------------------------------------------------------

  lemma ConfirmSelectionSteps(s: Store, own: seq<Name>, opponent: seq<Name>, build: Option<TeamBuild>, s': Store)
    requires Inv(s) && ConfirmSelectionFacts(s, own, opponent, build) == Success(s')
    ensures Stepped(s, s')
  {
    var i := s.slot.value;
    var f := SelectionFacts(i, own, opponent, build);
    SelectionRowKeeps(s, i, s'.sessions[i], f);
    SelectionContent(s, i, s'.sessions[i], f);
    TurnsAlone(s, s');
    BattleStep(s, s');
  }

  lemma ApplySelectionSteps(s: Store, three: seq<Name>, lead: Name, confirmed: bool, s': Store)
    requires Inv(s) && ApplySelection(s, three, lead, confirmed) == Success(s')
    ensures Stepped(s, s')
  {
    var i, row := ApplySelectionEffect(s, three, lead, confirmed, s');
    ApplyRowKeeps(s, i, s'.sessions[i], row);
    AppliedContent(s, i, s'.sessions[i], row);
    TurnsAlone(s, s');
    BattleStep(s, s');
  }

  // ---- turns --------------------------------------------------------------------------------

  lemma TurnOpenedSteps(s: Store, i: nat, turn: TurnId, s': Store)
    requires Inv(s) && TurnOpened(s, i, turn, s') && turn == TurnId(i, TurnCount(s.sessions[i]) + 1)
    requires s.sessions[i].turn.Some? ==> Decided(s.sessions[i].state)
    requires s.sessions[i].applied.Some? && !Over(s.sessions[i]) && !Waiting(s.sessions[i].state)
    ensures Stepped(s, s')
  {
    TurnRowKeeps(s, i, turn);
    SavedContent(s, i, s'.sessions[i], s');
    TurnsAlone(s, s');
    BattleStep(s, s');
  }

  lemma StartTurnSteps(s: Store, s': Store)
    requires Inv(s) && StartTurnCapture(s) == Success(s')
    ensures Stepped(s, s')
  {
    var i, turn := StartTurnEffect(s, s');
    TurnOpenedSteps(s, i, turn, s');
  }

  lemma NextTurnSteps(s: Store, s': Store)
    requires Inv(s) && NextTurn(s) == Success(s')
    ensures Stepped(s, s')
  {
    var i, turn := NextTurnEffect(s, s');
    TurnOpenedSteps(s, i, turn, s');
  }

  lemma CommitNextTurnSteps(s: Store, plan: NextTurnPlan, s': Store)
    requires Inv(s) && CommitNextTurn(s, plan) == Success(s')
    ensures Stepped(s, s')
  {
    var i, turn := CommitNextTurnEffect(s, plan, s');
    TurnOpenedSteps(s, i, turn, s');
  }

  lemma CancelMoves(ss: seq<Session>, jobs: seq<Job>, i: nat)
    requires JobRows(ss, jobs)
    ensures Moved(jobs, CancelPending(jobs, i))
  {
  }

  /** A step that also moves jobs: the battle part is proved against the jobs as moved. */
  lemma JobsFirst(s: Store, jobs': seq<Job>)
    requires Inv(s) && Moved(s.jobs, jobs')
    ensures Inv(s.(jobs := jobs'))
  {
    MovedLanes(s, jobs');
  }

  lemma ConfirmTurnFactsSteps(s: Store, input: FactsInput, confirmed: bool, s': Store)
    requires Inv(s) && ConfirmTurnFacts(s, input, confirmed) == Success(s')
    ensures Stepped(s, s')
  {
    var i, f := ConfirmTurnFactsEffect(s, input, confirmed, s');
    CancelMoves(s.sessions, s.jobs, i);
    BoardSteps(s, i, f, s');
  }

  lemma UndecidedHasNoAction(s: Store, i: nat, turn: TurnId)
    requires Inv(s) && ActiveIs(s, i) && Undecided(s.sessions[i].state) && s.sessions[i].turn == Some(turn)
    ensures turn.session == i && !HasAction(s.actions, turn)
  {
    hide SelectionRows, FactRows, AdviceRows, OutcomeRows, ContentInv, LaneInv;
  }

  lemma BoardSteps(s: Store, i: nat, f: TurnFacts, s': Store)
    requires Inv(s) && ActiveIs(s, i) && Undecided(s.sessions[i].state) && s.sessions[i].turn == Some(f.turn)
    requires ValidTurnFacts(f) && s.sessions[i].applied.Some? && s.sessions[i].applied.value < |s.applied|
    requires f.selfActive in s.applied[s.sessions[i].applied.value].three && Moved(s.jobs, s'.jobs)
    requires s' == Save(s, i, s.sessions[i].Bumped()
                              .(reviewedBoard := Some(|s.facts|), turnAdvice := None, state := TurnReviewed))
                   .(facts := s.facts + [f], jobs := s'.jobs)
    ensures Stepped(s, s')
  {
    hide SessionsOk, SelectionRows, TurnRows, FactRows, AdviceRows, ActionRows, OutcomeRows, ContentRows, JobRows;
    hide LaneInv;
    hide HasAction;
    var mid := s.(jobs := s'.jobs);
    JobsFirst(s, s'.jobs);
    UndecidedHasNoAction(s, i, f.turn);
    BoardRowKeeps(mid, i, s'.sessions[i], f);
    BoardContent(mid, i, s'.sessions[i], f, s');
    BattleStep(mid, s');
  }

  lemma RecordActionSteps(s: Store, input: ActionInput, confirmed: bool, rich: Option<RichCompletion>, s': Store)
    requires Inv(s) && RecordAction(s, input, confirmed, rich) == Success(s')
    ensures Stepped(s, s')
  {
    var i, a := RecordActionEffect(s, input, confirmed, rich, s');
    ActionRowKeeps(s, i, s'.sessions[i], a);
    CurrentBacked(s.sessions, i, s.turns, s.facts, s.advices, a);
    ActionContent(s, i, s'.sessions[i], a, s');
    BattleStep(s, s');
  }

  lemma AppendStateSteps(s: Store, state: ConfirmedTurnState, s': Store)
    requires Inv(s) && AppendConfirmedState(s, state) == Success(s')
    ensures Stepped(s, s')
  {
    assert s' == s.(states := s.states + [state]);
    hide AppendConfirmedState;
    hide SessionsOk, SelectionRows, TurnRows, FactRows, AdviceRows, ActionRows, OutcomeRows, ContentRows, JobRows;
    SessionsAlone(s.sessions);
    TurnsAlone(s, s');
    LanesAlone(s, s');
  }

  // ---- jobs and attempts --------------------------------------------------------------------

  /** The lanes moved, the battle tables did not. */
  lemma LaneStep(s: Store, s': Store)
    requires Inv(s) && JobRows(s.sessions, s'.jobs) && LaneInv(s') && JobsEvolve(s.jobs, s'.jobs)
    requires NewJobs(s, s') && AuditsEvolve(s, s')
    requires s' == s.(jobs := s'.jobs, audits := s'.audits, turnLedger := s'.turnLedger,
                      selectionLedger := s'.selectionLedger, attempts := s'.attempts)
    ensures Stepped(s, s')
  {
    hide SessionsOk, SelectionRows, TurnRows, FactRows, AdviceRows, ActionRows, OutcomeRows, ContentRows, JobRows;
    hide LaneInv;
    SessionsAlone(s.sessions);
    TurnsAlone(s, s');
  }

  lemma AddedEvolves(jobs: seq<Job>, j: Job)
    ensures JobsEvolve(jobs, jobs + [j])
  {
  }

  lemma RequestSelectionSteps(s: Store, command: Id, s': Store)
    requires Inv(s) && RequestSelectionAdvice(s, command) == Success(s')
    ensures Stepped(s, s')
  {
    var i, j := RequestSelectionEffect(s, command, s');
    AddedRows(s.sessions, s.jobs, j);
    AddedAudits(s.jobs, j, s.audits);
    AddedTurnLedger(s.jobs, j, s.turnLedger);
    AddedDirect(s.jobs, j, s.selectionLedger, s.attempts);
    AddedEvolves(s.jobs, j);
    LaneStep(s, s');
  }

  lemma TransientlyFailed(s: Store, i: nat, job: nat)
    requires i < |s.sessions| && job < |s.jobs| && EndedTransiently(s, i, job)
    ensures FailedTransiently(s.attempts, job) && (s.jobs[job].status == Failed || s.jobs[job].status == TimedOut)
  {
    if AttemptKey(job, 2) in s.attempts {
      assert LastAttempt(s.attempts, job) == Some(s.attempts[AttemptKey(job, 2)]);
    }
  }

  lemma ReserveSteps(s: Store, command: Id, s': Store)
    requires Inv(s) && ReserveSelectionAttempt(s, command) == Success(s')
    ensures Stepped(s, s')
  {
    hide EndedTransiently;
    var i, j, key := ReserveSelectionEffect(s, command, s');
    assert Earned(s, j);
    if key in s.selectionLedger {
      TransientlyFailed(s, i, s.selectionLedger[key]);
    }
    AddedRows(s.sessions, s.jobs, j);
    AddedAudits(s.jobs, j, s.audits);
    AddedTurnLedger(s.jobs, j, s.turnLedger);
    AddedProduction(s.jobs, j, s.selectionLedger, s.attempts, key);
    AddedEvolves(s.jobs, j);
    LaneStep(s, s');
  }

  lemma TurnJobSteps(s: Store, i: nat, j: Job, row: TurnLedgerRow, s': Store)
    requires Inv(s) && TurnJobAdded(s, i, j, row, s')
    ensures Stepped(s, s')
  {
    AddedRows(s.sessions, s.jobs, j);
    AddedAudits(s.jobs, j, s.audits);
    AddedTurnJob(s.jobs, j, s.turnLedger, row);
    AddedDirect(s.jobs, j, s.selectionLedger, s.attempts);
    AddedEvolves(s.jobs, j);
    LaneStep(s, s');
  }

  lemma RequestTurnSteps(s: Store, command: Id, s': Store)
    requires Inv(s) && RequestTurnAdvice(s, command) == Success(s')
    ensures Stepped(s, s')
  {
    var i, j, row := RequestTurnEffect(s, command, s');
    TurnJobSteps(s, i, j, row, s');
  }

  lemma RequestRichSteps(s: Store, command: Id, gate: Option<nat>, s': Store)
    requires Inv(s) && RequestRichTurnAdvice(s, command, gate) == Success(s')
    ensures Stepped(s, s')
  {
    var i, j, row := RequestRichEffect(s, command, gate, s');
    TurnJobSteps(s, i, j, row, s');
  }

  lemma AttemptSteps(s: Store, attempts': map<AttemptKey, Attempt>)
    requires Inv(s) && AttemptsGrow(s.attempts, attempts')
    ensures Stepped(s, s.(attempts := attempts'))
  {
    var s' := s.(attempts := attempts');
    assert Moved(s.jobs, s.jobs);
    MovedSelectionLedger(s.jobs, s.jobs, s.selectionLedger, s.attempts, attempts');
    LaneStep(s, s');
  }

  lemma StartAttemptSteps(s: Store, job: nat, ordinal: nat, s': Store)
    requires Inv(s) && StartAttempt(s, job, ordinal) == Success(s')
    ensures Stepped(s, s')
  {
    AttemptSteps(s, s'.attempts);
  }

  lemma FinishAttemptSteps(s: Store, job: nat, ordinal: nat, succeeded: bool, reason: FailureReason, s': Store)
    requires Inv(s) && FinishAttempt(s, job, ordinal, succeeded, reason) == Success(s')
    ensures Stepped(s, s')
  {
    AttemptSteps(s, s'.attempts);
  }

  lemma JobsSteps(s: Store, jobs': seq<Job>)
    requires Inv(s) && Moved(s.jobs, jobs')
    ensures Stepped(s, s.(jobs := jobs'))
  {
    MovedLanes(s, jobs');
    LaneStep(s, s.(jobs := jobs'));
  }

  lemma DispatchedMoves(s: Store, lane: JobType, job: nat, s': Store)
    requires MarkDispatched(s, lane, job) == Success(s')
    ensures Moved(s.jobs, s'.jobs) && s' == s.(jobs := s'.jobs)
  {
  }

  lemma FailedMoves(s: Store, lane: JobType, job: nat, reason: FailureReason, s': Store)
    requires FailJob(s, lane, job, reason) == Success(s')
    ensures Moved(s.jobs, s'.jobs) && s' == s.(jobs := s'.jobs)
  {
  }

  lemma RecoveredMoves(ss: seq<Session>, jobs: seq<Job>)
    requires JobRows(ss, jobs)
    ensures Moved(jobs, RecoverJobs(jobs))
  {
    forall k | 0 <= k < |jobs| ensures JobMoves(jobs[k], RecoverJobs(jobs)[k]) {
      assert JobBound(jobs[k], ss);
    }
  }

  lemma MarkDispatchedSteps(s: Store, lane: JobType, job: nat, s': Store)
    requires Inv(s) && MarkDispatched(s, lane, job) == Success(s')
    ensures Stepped(s, s')
  {
    DispatchedMoves(s, lane, job, s');
    JobsSteps(s, s'.jobs);
  }

  lemma FailJobSteps(s: Store, lane: JobType, job: nat, reason: FailureReason, s': Store)
    requires Inv(s) && FailJob(s, lane, job, reason) == Success(s')
    ensures Stepped(s, s')
  {
    FailedMoves(s, lane, job, reason, s');
    JobsSteps(s, s'.jobs);
  }

  lemma RecoverSteps(s: Store, s': Store)
    requires Inv(s) && RecoverAfterRestart(s) == Success(s')
    ensures Stepped(s, s')
  {
    RecoveredMoves(s.sessions, s.jobs);
    JobsSteps(s, s'.jobs);
  }

  // ---- results ------------------------------------------------------------------------------

  lemma NotedSteps(s: Store, r: ResultEnvelope, s': Store)
    requires Inv(s) && OnlyNoted(s, r, s')
    ensures Stepped(s, s')
  {
    NotedAudits(s.jobs, s.audits, s'.audits[|s.audits|]);
    LaneStep(s, s');
  }

  /** The decision and its audit row, before the session moves. */
  function DecidedStore(s: Store, r: ResultEnvelope, accepted: bool): Store
    requires r.jobId < |s.jobs|
  {
    if accepted then Audited(s, r, Applied, BindingAccepted).(jobs := SetStatus(s.jobs, r.jobId, Succeeded))
    else Audited(s, r, InvalidRejected, InvalidPayload).(jobs := SetStatus(s.jobs, r.jobId, Failed))
  }

  lemma SetStatusMoves(jobs: seq<Job>, job: nat, status: JobStatus)
    requires job < |jobs| && Moves(jobs[job].status, status) && status != InFlight
    ensures Moved(jobs, SetStatus(jobs, job, status))
  {
  }

  lemma DecidedSteps(s: Store, r: ResultEnvelope, accepted: bool)
    requires Inv(s) && Decidable(s, r.jobId)
    ensures Stepped(s, DecidedStore(s, r, accepted)) && Inv(DecidedStore(s, r, accepted))
    ensures Moved(s.jobs, DecidedStore(s, r, accepted).jobs)
  {
    hide SessionsOk, SelectionRows, TurnRows, FactRows, AdviceRows, ActionRows, OutcomeRows, ContentInv;
    var mid := DecidedStore(s, r, accepted);
    SetStatusMoves(s.jobs, r.jobId, if accepted then Succeeded else Failed);
    MovedLanes(s, mid.jobs);
    DecidedAudits(s.jobs, s.audits, mid.audits[|s.audits|]);
    hide Inv, Stepped, JobRows, AuditRows, TurnLedgerRows, SelectionLedgerRows;
    LaneStep(s, mid);
  }

  /** The session's move, after the decision is on record. */
  lemma SelectionMoves(mid: Store, i: nat, y: Session, s': Store)
    requires Inv(mid) && ActiveIs(mid, i) && mid.sessions[i].state.SelectionOpen?
    requires mid.sessions[i].reviewedSelection.Some? && LaneFree(mid.jobs, i, SelectionAdviceJob)
    requires y == mid.sessions[i].Bumped().(selectionAdvice := y.selectionAdvice, state := SelectionAdviceReady)
    requires y.selectionAdvice.Some? && s' == Save(mid, i, y).(selectionAdvices := s'.selectionAdvices)
    ensures Stepped(mid, s')
  {
    SaveOutcome(mid.sessions, i, y, mid.outcomes, mid.exports);
    SaveKeeps(mid, i, y, mid.slot);
    SavedContent(mid, i, y, s');
    TurnsAlone(mid, s');
    BattleStep(mid, s');
  }

  lemma TurnMoves(mid: Store, i: nat, a: TurnAdvice, s': Store)
    requires Inv(mid) && ActiveIs(mid, i) && mid.sessions[i].state.TurnReviewed?
    requires mid.sessions[i].turn == Some(a.turn) && mid.sessions[i].reviewedBoard == Some(a.inputSnapshot)
    requires s' == Save(mid, i, mid.sessions[i].Bumped().(turnAdvice := Some(a.adviceId)))
                   .(advices := mid.advices + [a])
    ensures Stepped(mid, s')
  {
    hide SessionsOk, SelectionRows, AdviceRows, OutcomeRows, JobRows, LaneInv;
    AdviceRowKeeps(mid, i, s'.sessions[i], a);
    AdviceContent(mid, i, s'.sessions[i], a, s');
    BattleStep(mid, s');
  }

  lemma AfterDecision(s: Store, r: ResultEnvelope, s': Store)
    requires Decidable(s, r.jobId) && Stepped(DecidedStore(s, r, true), s') && s'.jobs == DecidedStore(s, r, true).jobs
    requires Moved(s.jobs, s'.jobs) && s'.audits == DecidedStore(s, r, true).audits
    ensures Stepped(s, s')
  {
    hide Inv, Revised, LatestFacts, LatestAdvice;
    var mid := DecidedStore(s, r, true);
    assert SessionsEvolve(mid.sessions, s'.sessions) && TurnsFrozen(mid, s');
  }

  lemma StateAtJob(s: Store, lane: JobType, r: ResultEnvelope)
    requires Inv(s) && Expected(s, lane, r) && Current(s, r)
    ensures Decidable(s, r.jobId)
    ensures lane == SelectionAdviceJob ==> s.sessions[s.slot.value].state.SelectionOpen?
    ensures lane == TurnAdviceJob ==> s.sessions[s.slot.value].state.TurnReviewed?
  {
    assert JobBound(s.jobs[r.jobId], s.sessions);
  }

  lemma SelectionAcceptedSteps(s: Store, r: ResultEnvelope, s': Store)
    requires Inv(s) && Expected(s, SelectionAdviceJob, r) && Current(s, r) && SelectionAccepted(s, r, s')
    ensures Stepped(s, s')
  {
    hide Inv, Stepped;
    var i, mid := s.slot.value, DecidedStore(s, r, true);
    StateAtJob(s, SelectionAdviceJob, r);
    DecidedSteps(s, r, true);
    LatestJobMoved(s.jobs, mid.jobs, i, SelectionAdviceJob);
    SelectionMoves(mid, i, s'.sessions[i], s');
    AfterDecision(s, r, s');
  }

  lemma TurnAcceptedSteps(s: Store, r: ResultEnvelope, s': Store, a: TurnAdvice)
    requires Inv(s) && Expected(s, TurnAdviceJob, r) && Current(s, r) && TurnAccepted(s, r, s', a)
    ensures Stepped(s, s')
  {
    hide Inv, Stepped;
    StateAtJob(s, TurnAdviceJob, r);
    DecidedSteps(s, r, true);
    TurnMoves(DecidedStore(s, r, true), s.slot.value, a, s');
    AfterDecision(s, r, s');
  }

  lemma SelectionResultSteps(s: Store, r: ResultEnvelope, s': Store)
    requires Inv(s) && ApplySelectionResult(s, r) == Success(s')
    ensures Stepped(s, s')
  {
    hide Inv, Stepped;
    SelectionResultEffect(s, r, s');
    if OnlyNoted(s, r, s') {
      NotedSteps(s, r, s');
    } else if Refuted(s, r, s') {
      StateAtJob(s, SelectionAdviceJob, r);
      DecidedSteps(s, r, false);
    } else {
      SelectionAcceptedSteps(s, r, s');
    }
  }

  lemma TurnResultSteps(s: Store, r: ResultEnvelope, s': Store)
    requires Inv(s) && ApplyTurnResult(s, r) == Success(s')
    ensures Stepped(s, s')
  {
    hide Inv, Stepped;
    var a := TurnResultEffect(s, r, s');
    if OnlyNoted(s, r, s') {
      NotedSteps(s, r, s');
    } else if Refuted(s, r, s') {
      StateAtJob(s, TurnAdviceJob, r);
      DecidedSteps(s, r, false);
    } else {
      TurnAcceptedSteps(s, r, s', a);
    }
  }

  lemma RichResultSteps(s: Store, r: ResultEnvelope, rebuilt: Option<Action>, s': Store)
    requires Inv(s) && ApplyRichTurnResult(s, r, rebuilt) == Success(s')
    ensures Stepped(s, s')
  {
    hide Inv, Stepped;
    var a := RichResultEffect(s, r, rebuilt, s');
    if OnlyNoted(s, r, s') {
      NotedSteps(s, r, s');
    } else if Refuted(s, r, s') {
      StateAtJob(s, TurnAdviceJob, r);
      DecidedSteps(s, r, false);
    } else {
      TurnAcceptedSteps(s, r, s', a);
    }
  }

  // ---- one step and whole runs --------------------------------------------------------------

  predicate IsJobCommand(c: Command) {
    || c.CRequestSelectionAdvice? || c.CReserveSelectionAttempt? || c.CStartAttempt? || c.CFinishAttempt?
    || c.CMarkDispatched? || c.CFailJob? || c.CRequestTurnAdvice? || c.CRequestRichTurnAdvice? || c.CRecoverAfterRestart?
  }

  predicate IsResultCommand(c: Command) {
    c.CApplySelectionResult? || c.CApplyTurnResult? || c.CApplyRichTurnResult?
  }

  lemma ExecuteResultSteps(s: Store, c: Command, s': Store)
    requires Inv(s) && Execute(s, c) == Success(s') && IsResultCommand(c)
    ensures Stepped(s, s')
  {
    hide Inv, Stepped, ApplySelectionResult, ApplyTurnResult, ApplyRichTurnResult;
    match c
    case CApplySelectionResult(result) => SelectionResultSteps(s, result, s');
    case CApplyTurnResult(result) => TurnResultSteps(s, result, s');
    case CApplyRichTurnResult(result, rebuilt) => RichResultSteps(s, result, rebuilt, s');
    case _ =>
  }

  lemma ExecuteJobSteps(s: Store, c: Command, s': Store)
    requires Inv(s) && Execute(s, c) == Success(s') && IsJobCommand(c)
    ensures Stepped(s, s')
  {
    hide Inv, Stepped, RequestSelectionAdvice, ReserveSelectionAttempt, ApplySelectionResult, StartAttempt;
    hide FinishAttempt;
    hide MarkDispatched, FailJob, RecoverAfterRestart, RequestTurnAdvice, RequestRichTurnAdvice, ApplyTurnResult;
    hide ApplyRichTurnResult, NewMatch, AbortMatch, UpdateMetadata, EndMatch, CommitExport, NewMatchAfterExport;
    hide ConfirmSelectionFacts, ApplySelection, StartTurnCapture, ConfirmTurnFacts, RecordAction, NextTurn;
    hide CommitNextTurn, AppendConfirmedState;
    match c
    case CRequestSelectionAdvice(command) => RequestSelectionSteps(s, command, s');
    case CReserveSelectionAttempt(command) => ReserveSteps(s, command, s');
    case CStartAttempt(job, ordinal) => StartAttemptSteps(s, job, ordinal, s');
    case CFinishAttempt(job, ordinal, succeeded, reason) => FinishAttemptSteps(s, job, ordinal, succeeded, reason, s');
    case CMarkDispatched(lane, job) => MarkDispatchedSteps(s, lane, job, s');
    case CFailJob(lane, job, reason) => FailJobSteps(s, lane, job, reason, s');
    case CRequestTurnAdvice(command) => RequestTurnSteps(s, command, s');
    case CRequestRichTurnAdvice(command, gate) => RequestRichSteps(s, command, gate, s');
    case CRecoverAfterRestart => RecoverSteps(s, s');
    case _ =>
  }

  lemma ExecuteMatchSteps(s: Store, c: Command, s': Store)
    requires Inv(s) && Execute(s, c) == Success(s') && !IsJobCommand(c) && !IsResultCommand(c)
    ensures Stepped(s, s')
  {
    hide Inv, Stepped, NewMatch, AbortMatch, UpdateMetadata, EndMatch, CommitExport, NewMatchAfterExport;
    hide ConfirmSelectionFacts, ApplySelection, StartTurnCapture, ConfirmTurnFacts, RecordAction, NextTurn;
    hide CommitNextTurn, AppendConfirmedState, RequestSelectionAdvice, ReserveSelectionAttempt, ApplySelectionResult;
    hide StartAttempt, FinishAttempt, MarkDispatched, FailJob, RecoverAfterRestart, RequestTurnAdvice;
    hide RequestRichTurnAdvice, ApplyTurnResult, ApplyRichTurnResult;
    match c
    case CNewMatch(rules, intel) => NewMatchSteps(s, rules, intel, s');
    case CAbortMatch(confirmed) => AbortSteps(s, confirmed, s');
    case CUpdateMetadata => MetadataSteps(s, s');
    case CEndMatch(outcome, confirmed) => EndSteps(s, outcome, confirmed, s');
    case CCommitExport(session, file, onDisk) => ExportSteps(s, session, file, onDisk, s');
    case CNewMatchAfterExport(rules, intel) => NewMatchAfterExportSteps(s, rules, intel, s');
    case CConfirmSelectionFacts(own, opponent, build) => ConfirmSelectionSteps(s, own, opponent, build, s');
    case CApplySelection(three, lead, confirmed) => ApplySelectionSteps(s, three, lead, confirmed, s');
    case CStartTurnCapture => StartTurnSteps(s, s');
    case CConfirmTurnFacts(facts, confirmed) => ConfirmTurnFactsSteps(s, facts, confirmed, s');
    case CRecordAction(action, confirmed, rich) => RecordActionSteps(s, action, confirmed, rich, s');
    case CNextTurn => NextTurnSteps(s, s');
    case CCommitNextTurn(plan) => CommitNextTurnSteps(s, plan, s');
    case CAppendConfirmedState(state) => AppendStateSteps(s, state, s');
    case _ =>
  }

  /** Every command that commits keeps the invariant and only evolves the repository. */
  lemma ExecuteSteps(s: Store, c: Command, s': Store)
    requires Inv(s) && Execute(s, c) == Success(s')
    ensures Stepped(s, s')
  {
    hide Inv, Stepped, Execute;
    if IsJobCommand(c) {
      ExecuteJobSteps(s, c, s');
    } else if IsResultCommand(c) {
      ExecuteResultSteps(s, c, s');
    } else {
      ExecuteMatchSteps(s, c, s');
    }
  }

  lemma StepSteps(s: Store, c: Command)
    requires Inv(s)
    ensures Stepped(s, Step(s, c))
  {
    hide Execute, Inv, Stepped;
    match Execute(s, c)
    case Success(s') => ExecuteSteps(s, c, s');
    case Failure(_) => StutterSteps(s);
  }
}
