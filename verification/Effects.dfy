/** What the larger commands do when they succeed, read off their guards once and for all. */
module Effects {
  import opened Basics
  import Text
  import opened TurnState
  import opened Records
  import opened Store
  import opened Commands
  import opened Invariant

  /** The active session, named: every command that needs one runs against it. */
  predicate ActiveIs(s: Store, i: nat) {
    s.slot == Some(i) && i < |s.sessions|
  }

  // ---- results ------------------------------------------------------------------------------

  /** A stale, misrouted or repeated result leaves one audit row. */
  predicate OnlyNoted(s: Store, r: ResultEnvelope, s': Store) {
    exists d, why :: (d == StaleRejected || d == DuplicateIgnored) && s' == Audited(s, r, d, why)
  }

  /** The job is its lane's newest of the active session and still waits for its first decision. */
  predicate Expected(s: Store, lane: JobType, r: ResultEnvelope) {
    && s.slot.Some? && ActiveIs(s, s.slot.value) && LatestJob(s.jobs, s.slot.value, lane) == Some(r.jobId)
    && IsPending(s.jobs[r.jobId].status) && !HasApplied(s.audits, r.jobId)
  }

  /** Everything the result says about its job and its match is what the repository says now. */
  predicate Current(s: Store, r: ResultEnvelope)
    requires s.slot.Some? && s.slot.value < |s.sessions| && r.jobId < |s.jobs|
  {
    var x, j := s.sessions[s.slot.value], s.jobs[r.jobId];
    && r.commandId == j.commandId && r.jobType == j.jobType && r.session == s.slot.value
    && r.matchId == x.matchId && r.generation == x.generation
    && r.baseRevision == x.battleRevision == j.baseRevision
    && r.expectedState == x.state == j.expectedState
    && r.snapshot == j.snapshot && r.turnNumber == j.turnNumber && r.digest == j.digest
  }

  predicate Refuted(s: Store, r: ResultEnvelope, s': Store) {
    r.jobId < |s.jobs| && s' == Audited(s, r, InvalidRejected, InvalidPayload).(jobs := SetStatus(s.jobs, r.jobId, Failed))
  }

  predicate SelectionAccepted(s: Store, r: ResultEnvelope, s': Store) {
    && r.jobId < |s.jobs| && s.slot.Some? && ActiveIs(s, s.slot.value)
    && s.sessions[s.slot.value].reviewedSelection.Some?
    && var y := s.sessions[s.slot.value].Bumped().(selectionAdvice := Some(r.resultId), state := SelectionAdviceReady);
       s' == Audited(Save(s, s.slot.value, y), r, Applied, BindingAccepted)
             .(selectionAdvices := s'.selectionAdvices, jobs := SetStatus(s.jobs, r.jobId, Succeeded))
  }

  predicate TurnAccepted(s: Store, r: ResultEnvelope, s': Store, a: TurnAdvice) {
    && r.jobId < |s.jobs| && s.slot.Some? && ActiveIs(s, s.slot.value)
    && s.sessions[s.slot.value].turn == Some(a.turn) && s.sessions[s.slot.value].reviewedBoard == Some(a.inputSnapshot)
    && a.adviceId == r.resultId && a.job == r.jobId
    && var y := s.sessions[s.slot.value].Bumped().(turnAdvice := Some(a.adviceId));
       s' == Audited(Save(s, s.slot.value, y), r, Applied, BindingAccepted)
             .(advices := s.advices + [a], jobs := SetStatus(s.jobs, r.jobId, Succeeded))
  }

  lemma SelectionResultEffect(s: Store, r: ResultEnvelope, s': Store)
    requires ApplySelectionResult(s, r) == Success(s')
    ensures OnlyNoted(s, r, s')
            || (Expected(s, SelectionAdviceJob, r) && Current(s, r) && (Refuted(s, r, s') || SelectionAccepted(s, r, s')))
  {
  }

  lemma TurnBound(s: Store, r: ResultEnvelope, snapshot: Option<SnapshotId>, turn: Option<nat>)
    requires r.jobId < |s.jobs| && !HasApplied(s.audits, r.jobId)
    requires BindingFailure(s, LatestActiveJob(s, TurnAdviceJob), s.jobs[r.jobId], r, snapshot, turn) == None
    ensures Expected(s, TurnAdviceJob, r) && Current(s, r) && snapshot == Some(r.snapshot)
  {
    hide HasApplied;
  }

  lemma RichBound(s: Store, r: ResultEnvelope, current: Option<TurnIdentity>, latest: Option<ConfirmedTurnState>)
    requires r.jobId < |s.jobs| && !HasApplied(s.audits, r.jobId)
    requires RichBindingFailure(s, LatestActiveJob(s, TurnAdviceJob), s.jobs[r.jobId], r, current, latest) == None
    ensures Expected(s, TurnAdviceJob, r) && Current(s, r)
  {
    hide HasApplied;
  }

  lemma AdviceEffect(s: Store, r: ResultEnvelope, turn: TurnId, board: nat, action: Action, s': Store)
      returns (a: TurnAdvice)
    requires s.slot.Some? && ActiveIs(s, s.slot.value) && r.jobId < |s.jobs|
    requires s.sessions[s.slot.value].turn == Some(turn) && s.sessions[s.slot.value].reviewedBoard == Some(board)
    requires AppendTurnAdvice(s, s.slot.value, r, turn, board, action) == Success(s')
    ensures TurnAccepted(s, r, s', a)
  {
    hide AdviceKeyTaken;
    a := TurnAdvice(r.resultId, turn, r.jobId, board, action.actionType, action.name);
  }

  lemma AcceptTurnEffect(s: Store, r: ResultEnvelope, s': Store) returns (a: TurnAdvice)
    requires Expected(s, TurnAdviceJob, r) && Current(s, r) && AcceptTurnResult(s, r) == Success(s')
    requires CurrentBoard(ActiveRow(s)) == Some(r.snapshot)
    ensures Refuted(s, r, s') || TurnAccepted(s, r, s', a)
  {
    hide AppendTurnAdvice, LatestJob, HasApplied, TurnRequestOf, LegalIn, TurnAccepted;
    a := TurnAdvice(0, TurnId(0, 0), 0, 0, Move, "");
    if !Refuted(s, r, s') {
      a := AdviceEffect(s, r, s.sessions[s.slot.value].turn.value, r.snapshot.row,
                        Action(r.turnPayload.actionType, r.turnPayload.actionName), s');
    }
  }

  lemma TurnResultEffect(s: Store, r: ResultEnvelope, s': Store) returns (a: TurnAdvice)
    requires ApplyTurnResult(s, r) == Success(s')
    ensures OnlyNoted(s, r, s')
            || (Expected(s, TurnAdviceJob, r) && Current(s, r) && (Refuted(s, r, s') || TurnAccepted(s, r, s', a)))
  {
    hide AcceptTurnResult, BindingFailure, Expected, Current, Refuted, TurnAccepted, HasApplied, LatestJob;
    a := TurnAdvice(0, TurnId(0, 0), 0, 0, Move, "");
    if !OnlyNoted(s, r, s') {
      TurnBound(s, r, CurrentBoard(ActiveRow(s)), CurrentTurnNumber(ActiveRow(s)));
      a := AcceptTurnEffect(s, r, s');
    }
  }

  lemma RichResultEffect(s: Store, r: ResultEnvelope, rebuilt: Option<Action>, s': Store) returns (a: TurnAdvice)
    requires ApplyRichTurnResult(s, r, rebuilt) == Success(s')
    ensures OnlyNoted(s, r, s')
            || (Expected(s, TurnAdviceJob, r) && Current(s, r) && (Refuted(s, r, s') || TurnAccepted(s, r, s', a)))
  {
    hide AppendTurnAdvice, RichBindingFailure, Current, TurnAccepted, HasApplied, LatestJob, LatestState;
    a := TurnAdvice(0, TurnId(0, 0), 0, 0, Move, "");
    if !OnlyNoted(s, r, s') {
      var active := ActiveSession(s.sessions, s.slot);
      var current := if active.Success? then IdentityNow(s, active.value) else None;
      RichBound(s, r, current, if current.Some? then LatestStateOf(s, active.value) else None);
      if !Refuted(s, r, s') {
        var x := s.sessions[s.slot.value];
        a := AdviceEffect(s, r, x.turn.value, x.reviewedBoard.value, rebuilt.value, s');
      }
    }
  }

  // ---- selection and turns ------------------------------------------------------------------

  lemma ApplySelectionEffect(s: Store, three: seq<Name>, lead: Name, confirmed: bool, s': Store)
      returns (i: nat, row: AppliedSelection)
    requires ApplySelection(s, three, lead, confirmed) == Success(s')
    ensures ActiveIs(s, i) && s.sessions[i].state.SelectionAdviceReady? && row.session == i
    ensures s.sessions[i].reviewedSelection.Some? && s.sessions[i].reviewedSelection.value < |s.selectionFacts|
    ensures ThreeOf(row.three, row.lead, s.selectionFacts[s.sessions[i].reviewedSelection.value].selfTeam)
    ensures s' == Save(s, i, s.sessions[i].Bumped().(applied := Some(|s.applied|), state := BattleReady))
                  .(applied := s.applied + [row])
  {
    i, row := s.slot.value, s'.applied[|s.applied|];
  }

  predicate TurnOpened(s: Store, i: nat, turn: TurnId, s': Store) {
    ActiveIs(s, i) && s' == Save(s, i, Pending(s.sessions[i], turn)).(turns := s.turns + [turn], drafts := s'.drafts)
  }

  lemma StartTurnEffect(s: Store, s': Store) returns (i: nat, turn: TurnId)
    requires StartTurnCapture(s) == Success(s')
    ensures TurnOpened(s, i, turn, s') && s.sessions[i].state.BattleReady? && s.sessions[i].turn == None
    ensures turn == TurnId(i, 1)
  {
    i := s.slot.value;
    turn := TurnId(i, 1);
  }

  lemma NextTurnEffect(s: Store, s': Store) returns (i: nat, turn: TurnId)
    requires NextTurn(s) == Success(s')
    ensures TurnOpened(s, i, turn, s') && s.sessions[i].state.TurnRecorded? && s.sessions[i].turn.Some?
    ensures turn == TurnId(i, s.sessions[i].turn.value.number + 1)
  {
    i := s.slot.value;
    turn := TurnId(i, s.sessions[i].turn.value.number + 1);
  }

  lemma CommitNextTurnEffect(s: Store, plan: NextTurnPlan, s': Store) returns (i: nat, turn: TurnId)
    requires CommitNextTurn(s, plan) == Success(s')
    ensures TurnOpened(s, i, turn, s') && s.sessions[i].state.TurnRecorded? && s.sessions[i].turn == Some(plan.turn)
    ensures turn == TurnId(i, plan.turn.number + 1)
  {
    i := s.slot.value;
    turn := TurnId(i, plan.turn.number + 1);
  }

  lemma ConfirmTurnFactsEffect(s: Store, input: FactsInput, confirmed: bool, s': Store) returns (i: nat, f: TurnFacts)
    requires ConfirmTurnFacts(s, input, confirmed) == Success(s')
    ensures ActiveIs(s, i) && Undecided(s.sessions[i].state) && s.sessions[i].turn == Some(f.turn) && ValidTurnFacts(f)
    ensures s.sessions[i].applied.Some? && s.sessions[i].applied.value < |s.applied|
    ensures f.selfActive in s.applied[s.sessions[i].applied.value].three
    ensures s'.jobs == s.jobs || s'.jobs == CancelPending(s.jobs, i)
    ensures s' == Save(s, i, s.sessions[i].Bumped()
                             .(reviewedBoard := Some(|s.facts|), turnAdvice := None, state := TurnReviewed))
                  .(facts := s.facts + [f], jobs := s'.jobs)
  {
    i := s.slot.value;
    f := FactsRow(s.sessions[i].turn.value, input, s.sessions[i].reviewedBoard);
  }

  lemma RecordActionEffect(s: Store, input: ActionInput, confirmed: bool, rich: Option<RichCompletion>, s': Store)
      returns (i: nat, a: RecordedAction)
    requires RecordAction(s, input, confirmed, rich) == Success(s')
    ensures ActiveIs(s, i) && s.sessions[i].state.TurnReviewed? && s.sessions[i].turn == Some(a.turn)
    ensures s.sessions[i].reviewedBoard.Some? && s.sessions[i].reviewedBoard.value < |s.facts|
    ensures s.sessions[i].turnAdvice.Some? && !HasAction(s.actions, a.turn)
    ensures LegalIn(s.facts[s.sessions[i].reviewedBoard.value], a.own.actionType, a.own.name)
    ensures s' == Save(s, i, s.sessions[i].Bumped().(state := TurnRecorded))
                  .(actions := s.actions + [a], deltas := s'.deltas, completions := s'.completions)
  {
    i := s.slot.value;
    a := RecordedAction(s.sessions[i].turn.value, Action(input.actionType, Text.Strip(input.name)), OpponentAction(input),
                        input.order);
  }

  // ---- jobs ---------------------------------------------------------------------------------

  predicate JobAdded(s: Store, i: nat, j: Job, s': Store) {
    && ActiveIs(s, i) && j.session == i && j.matchId == s.sessions[i].matchId && j.generation == s.sessions[i].generation
    && j.baseRevision == s.sessions[i].battleRevision && j.expectedState == s.sessions[i].state
    && j.status == Queued && j.dispatchCount == 0
    && s'.jobs == s.jobs + [j]
  }

  predicate SelectionJobAdded(s: Store, i: nat, j: Job, s': Store) {
    && JobAdded(s, i, j, s') && j.jobType == SelectionAdviceJob && j.expectedState == SelectionOpen
    && j.turnNumber == None && j.snapshot.SelectionSnapshot? && LaneFree(s.jobs, i, SelectionAdviceJob)
  }

  lemma RequestSelectionEffect(s: Store, command: Id, s': Store) returns (i: nat, j: Job)
    requires RequestSelectionAdvice(s, command) == Success(s')
    ensures SelectionJobAdded(s, i, j, s') && j.origin == Direct && s' == s.(jobs := s.jobs + [j])
  {
    i, j := s.slot.value, s'.jobs[|s.jobs|];
  }

  lemma ReserveSelectionEffect(s: Store, command: Id, s': Store) returns (i: nat, j: Job, key: SelectionKey)
    requires ReserveSelectionAttempt(s, command) == Success(s')
    ensures SelectionJobAdded(s, i, j, s') && InRound(j, key)
    ensures s' == s.(jobs := s.jobs + [j], selectionLedger := s.selectionLedger[key := |s.jobs|])
    ensures j.origin == Production(if key in s.selectionLedger then Some(s.selectionLedger[key]) else None)
    ensures key in s.selectionLedger ==> s.selectionLedger[key] < |s.jobs| && EndedTransiently(s, i, s.selectionLedger[key])
  {
    i, j := s.slot.value, s'.jobs[|s.jobs|];
    key := KeyOf(s, i, s.sessions[i].reviewedSelection.value);
  }

  predicate TurnJobAdded(s: Store, i: nat, j: Job, row: TurnLedgerRow, s': Store) {
    && JobAdded(s, i, j, s') && j.jobType == TurnAdviceJob && j.expectedState == TurnReviewed
    && j.turnNumber.Some? && !j.snapshot.SelectionSnapshot? && j.origin == Direct
    && LaneFree(s.jobs, i, TurnAdviceJob) && row.job == |s.jobs| && LedgerRowOf(row, j)
    && !TurnAttemptReserved(s.turnLedger, row.session, row.matchId, row.generation, row.turnNumber, row.snapshot)
    && s' == s.(turnLedger := s.turnLedger + [row], jobs := s.jobs + [j])
  }

  lemma RequestTurnEffect(s: Store, command: Id, s': Store) returns (i: nat, j: Job, row: TurnLedgerRow)
    requires RequestTurnAdvice(s, command) == Success(s')
    ensures TurnJobAdded(s, i, j, row, s')
  {
    i, j, row := s.slot.value, s'.jobs[|s.jobs|], s'.turnLedger[|s.turnLedger|];
  }

  lemma RequestRichEffect(s: Store, command: Id, gate: Option<nat>, s': Store)
      returns (i: nat, j: Job, row: TurnLedgerRow)
    requires RequestRichTurnAdvice(s, command, gate) == Success(s')
    ensures TurnJobAdded(s, i, j, row, s')
  {
    i, j, row := s.slot.value, s'.jobs[|s.jobs|], s'.turnLedger[|s.turnLedger|];
  }
}
