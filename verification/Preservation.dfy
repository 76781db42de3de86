/**
 The battle tables' invariant under everything a command does to them: a session rewritten or added, and
 a row appended together with the session's move.
 */
module Preservation {
  import opened Basics
  import opened TurnState
  import opened Records
  import opened Store
  import opened Commands
  import opened Invariant
  import opened Evolution

  lemma NoRowsOk(s: Store)
    requires |s.sessions| == |s.turns| == |s.facts| == |s.selectionFacts| == |s.applied| == 0
    requires |s.advices| == |s.actions| == 0 && s.outcomes == map[] && s.exports == map[] && s.slot == None
    ensures BattleInv(s) && ContentInv(s)
  {
  }

  lemma NoJobsOk(s: Store)
    requires |s.jobs| == |s.audits| == |s.turnLedger| == 0 && s.selectionLedger == map[]
    ensures JobRows(s.sessions, s.jobs) && LaneInv(s)
  {
  }

  lemma EmptyStoreOk()
    ensures Inv(EMPTY)
  {
    NoRowsOk(EMPTY);
    NoJobsOk(EMPTY);
  }

  // ---- one session is rewritten, a table is not ---------------------------------------------

  lemma SaveSession(ss: seq<Session>, slot: Option<nat>, i: nat, y: Session, slot': Option<nat>)
    requires SessionsOk(ss, slot) && slot == Some(i)
    requires Shape(y) && y.matchId == i && y.generation == i + 1 && y.battleRevision >= 1
    requires (slot' == slot && !y.state.Aborted?) || (slot' == None && Closed(y))
    ensures SessionsOk(ss[i := y], slot')
  {
  }

  lemma SaveSelection(ss: seq<Session>, i: nat, y: Session, facts: seq<SelectionFacts>, applied: seq<AppliedSelection>)
    requires SelectionRows(ss, facts, applied) && i < |ss|
    requires y.reviewedSelection == ss[i].reviewedSelection && y.applied == ss[i].applied
    ensures SelectionRows(ss[i := y], facts, applied)
  {
  }

  lemma SaveTurn(ss: seq<Session>, i: nat, y: Session, turns: seq<TurnId>)
    requires TurnRows(ss, turns) && i < |ss| && y.turn == ss[i].turn
    ensures TurnRows(ss[i := y], turns)
  {
  }

  lemma SaveFact(ss: seq<Session>, i: nat, y: Session, turns: seq<TurnId>, facts: seq<TurnFacts>)
    requires FactRows(ss, turns, facts) && i < |ss| && (ss[i].applied.Some? ==> y.applied.Some?)
    requires y.reviewedBoard.Some? ==> y.reviewedBoard == ss[i].reviewedBoard && y.turn == ss[i].turn
    ensures FactRows(ss[i := y], turns, facts)
  {
  }

  lemma SaveAdvice(ss: seq<Session>, i: nat, y: Session, turns: seq<TurnId>, advices: seq<TurnAdvice>)
    requires AdviceRows(ss, turns, advices) && i < |ss|
    requires y.turnAdvice.Some? ==>
               y.turnAdvice == ss[i].turnAdvice && y.turn == ss[i].turn && y.reviewedBoard == ss[i].reviewedBoard
    ensures AdviceRows(ss[i := y], turns, advices)
  {
  }

  lemma SaveAction(ss: seq<Session>, i: nat, y: Session, turns: seq<TurnId>, actions: seq<RecordedAction>)
    requires ActionRows(ss, turns, actions) && i < |ss| && y.turn == ss[i].turn
    requires y.turn.Some? && Undecided(y.state) ==> Undecided(ss[i].state)
    requires y.turn.Some? && Decided(y.state) ==> Decided(ss[i].state)
    ensures ActionRows(ss[i := y], turns, actions)
  {
  }

  lemma SaveOutcome(ss: seq<Session>, i: nat, y: Session, outcomes: map<nat, OutcomeRecord>, exports: map<nat, ExportPayload>)
    requires OutcomeRows(ss, outcomes, exports) && i < |ss|
    requires if Over(ss[i]) then y.state == ss[i].state && y.battleRevision == ss[i].battleRevision else !Over(y)
    ensures OutcomeRows(ss[i := y], outcomes, exports)
  {
  }

  lemma SaveJobs(ss: seq<Session>, i: nat, y: Session, jobs: seq<Job>)
    requires JobRows(ss, jobs) && i < |ss|
    requires y.matchId == ss[i].matchId && y.generation == ss[i].generation
    requires y.battleRevision >= ss[i].battleRevision
    requires Waiting(ss[i].state) && !Waiting(y.state) ==> LaneFree(jobs, i, SelectionAdviceJob)
    ensures JobRows(ss[i := y], jobs)
  {
  }

  lemma SaveEvolves(ss: seq<Session>, i: nat, y: Session)
    requires i < |ss| && Revised(ss[i], y)
    ensures SessionsEvolve(ss, ss[i := y])
  {
  }

  // ---- a session is added -------------------------------------------------------------------

  predicate Blank(z: Session) {
    z.reviewedSelection.None? && z.applied.None? && z.turn.None? && z.reviewedBoard.None? && z.turnAdvice.None?
  }

  lemma GenerationsCount(ss: seq<Session>)
    requires forall k :: 0 <= k < |ss| ==> ss[k].generation == k + 1
    ensures NextGeneration(ss) == |ss| + 1
  {
    if ss != [] {
      assert ss[|ss| - 1].generation == |ss|;
    }
  }

  lemma AddSession(ss: seq<Session>, slot: Option<nat>, z: Session)
    requires SessionsOk(ss, slot) && Shape(z) && z.matchId == |ss| && z.generation == |ss| + 1
    requires z.battleRevision >= 1 && !z.state.Aborted?
    requires slot.Some? ==> Closed(ss[slot.value])
    ensures SessionsOk(ss + [z], Some(|ss|))
  {
  }

  lemma AddSelection(ss: seq<Session>, z: Session, facts: seq<SelectionFacts>, applied: seq<AppliedSelection>)
    requires SelectionRows(ss, facts, applied) && Blank(z)
    ensures SelectionRows(ss + [z], facts, applied)
  {
  }

  lemma AddTurn(ss: seq<Session>, z: Session, turns: seq<TurnId>)
    requires TurnRows(ss, turns) && Blank(z)
    ensures TurnRows(ss + [z], turns)
  {
  }

  lemma AddFact(ss: seq<Session>, z: Session, turns: seq<TurnId>, facts: seq<TurnFacts>)
    requires FactRows(ss, turns, facts) && Blank(z)
    ensures FactRows(ss + [z], turns, facts)
  {
  }

  lemma AddAdvice(ss: seq<Session>, z: Session, turns: seq<TurnId>, advices: seq<TurnAdvice>)
    requires AdviceRows(ss, turns, advices) && Blank(z)
    ensures AdviceRows(ss + [z], turns, advices)
  {
  }

  lemma AddAction(ss: seq<Session>, z: Session, turns: seq<TurnId>, actions: seq<RecordedAction>)
    requires ActionRows(ss, turns, actions) && Blank(z)
    ensures ActionRows(ss + [z], turns, actions)
  {
  }

  lemma AddOutcome(ss: seq<Session>, z: Session, outcomes: map<nat, OutcomeRecord>, exports: map<nat, ExportPayload>)
    requires OutcomeRows(ss, outcomes, exports) && !Over(z)
    ensures OutcomeRows(ss + [z], outcomes, exports)
  {
  }

  lemma AddJobs(ss: seq<Session>, z: Session, jobs: seq<Job>)
    requires JobRows(ss, jobs)
    ensures JobRows(ss + [z], jobs)
  {
  }

  lemma AddEvolves(ss: seq<Session>, z: Session)
    ensures SessionsEvolve(ss, ss + [z])
  {
  }

  // ---- a session moves on together with its row ------------------------------------------

  ghost predicate BattleOk(s: Store) {
    BattleInv(s) && JobRows(s.sessions, s.jobs)
  }

  ghost predicate Kept(s: Store, s': Store) {
    BattleInv(s') && JobRows(s'.sessions, s.jobs) && SessionsEvolve(s.sessions, s'.sessions)
  }

  lemma InsertRow(s: Store, z: Session)
    requires BattleOk(s) && (s.slot.Some? ==> Closed(s.sessions[s.slot.value]))
    requires Blank(z) && z.state.SelectionOpen? && z.matchId == |s.sessions| && z.generation == |s.sessions| + 1
    requires z.battleRevision >= 1
    ensures Kept(s, s.(sessions := s.sessions + [z], slot := Some(|s.sessions|)))
  {
    AddSession(s.sessions, s.slot, z);
    AddSelection(s.sessions, z, s.selectionFacts, s.applied);
    AddTurn(s.sessions, z, s.turns);
    AddFact(s.sessions, z, s.turns, s.facts);
    AddAdvice(s.sessions, z, s.turns, s.advices);
    AddAction(s.sessions, z, s.turns, s.actions);
    AddOutcome(s.sessions, z, s.outcomes, s.exports);
    AddJobs(s.sessions, z, s.jobs);
    AddEvolves(s.sessions, z);
  }

  lemma InsertKeeps(s: Store, rules: RulesPin, intel: IntelPin)
    requires BattleOk(s) && (s.slot.Some? ==> Closed(s.sessions[s.slot.value]))
    ensures Kept(s, InsertSession(s, rules, intel))
  {
    GenerationsCount(s.sessions);
    InsertRow(s, FreshSession(s.sessions, rules, intel));
  }

  /** The pointers stay, the state moves on: every table but sessions and outcomes is unaffected. */
  lemma SaveKeeps(s: Store, i: nat, y: Session, slot': Option<nat>)
    requires BattleOk(s) && s.slot == Some(i)
    requires SamePointers(s.sessions[i], y) && Revised(s.sessions[i], y) && Shape(y)
    requires (slot' == s.slot && !y.state.Aborted?) || (slot' == None && Closed(y))
    requires Waiting(s.sessions[i].state) && !Waiting(y.state) ==> LaneFree(s.jobs, i, SelectionAdviceJob)
    requires y.turn.Some? && Undecided(y.state) ==> Undecided(s.sessions[i].state)
    requires y.turn.Some? && Decided(y.state) ==> Decided(s.sessions[i].state)
    ensures var ss := s.sessions[i := y];
            && SessionsOk(ss, slot') && SelectionRows(ss, s.selectionFacts, s.applied) && TurnRows(ss, s.turns)
            && FactRows(ss, s.turns, s.facts) && AdviceRows(ss, s.turns, s.advices)
            && ActionRows(ss, s.turns, s.actions) && JobRows(ss, s.jobs) && SessionsEvolve(s.sessions, ss)
  {
    SaveSession(s.sessions, s.slot, i, y, slot');
    SaveSelection(s.sessions, i, y, s.selectionFacts, s.applied);
    SaveTurn(s.sessions, i, y, s.turns);
    SaveFact(s.sessions, i, y, s.turns, s.facts);
    SaveAdvice(s.sessions, i, y, s.turns, s.advices);
    SaveAction(s.sessions, i, y, s.turns, s.actions);
    SaveJobs(s.sessions, i, y, s.jobs);
    SaveEvolves(s.sessions, i, y);
  }

  lemma EndOutcome(ss: seq<Session>, i: nat, y: Session, outcomes: map<nat, OutcomeRecord>, exports: map<nat, ExportPayload>,
                   outcome: MatchOutcome)
    requires OutcomeRows(ss, outcomes, exports) && i < |ss| && !Over(ss[i]) && y.state.MatchEnded?
    ensures OutcomeRows(ss[i := y], outcomes[i := OutcomeRecord(outcome, y.battleRevision)], exports)
  {
  }

  lemma ExportOutcome(ss: seq<Session>, i: nat, y: Session, outcomes: map<nat, OutcomeRecord>, exports: map<nat, ExportPayload>,
                      file: ExportPayload)
    requires OutcomeRows(ss, outcomes, exports) && i < |ss| && ss[i].state.MatchEnded? && y.state.MatchExported?
    requires y.battleRevision == ss[i].battleRevision + 1
    ensures OutcomeRows(ss[i := y], outcomes, exports[i := file])
  {
  }

  // ---- selection ----------------------------------------------------------------------------

  lemma ReviewSelection(ss: seq<Session>, i: nat, y: Session, facts: seq<SelectionFacts>, f: SelectionFacts,
                        applied: seq<AppliedSelection>)
    requires SelectionRows(ss, facts, applied) && i < |ss| && ss[i].applied == None && y.applied == None
    requires y.reviewedSelection == Some(|facts|) && f.session == i
    ensures SelectionRows(ss[i := y], facts + [f], applied)
  {
  }

  lemma SelectionRowKeeps(s: Store, i: nat, y: Session, f: SelectionFacts)
    requires BattleOk(s) && s.slot == Some(i) && s.sessions[i].state.SelectionOpen? && f.session == i
    requires y == s.sessions[i].Bumped().(reviewedSelection := Some(|s.selectionFacts|), selectionAdvice := None)
    ensures Kept(s, Save(s, i, y).(selectionFacts := s.selectionFacts + [f]))
  {
    SaveSession(s.sessions, s.slot, i, y, s.slot);
    ReviewSelection(s.sessions, i, y, s.selectionFacts, f, s.applied);
    SaveTurn(s.sessions, i, y, s.turns);
    SaveFact(s.sessions, i, y, s.turns, s.facts);
    SaveAdvice(s.sessions, i, y, s.turns, s.advices);
    SaveAction(s.sessions, i, y, s.turns, s.actions);
    SaveOutcome(s.sessions, i, y, s.outcomes, s.exports);
    SaveJobs(s.sessions, i, y, s.jobs);
    SaveEvolves(s.sessions, i, y);
  }

  lemma ApplyThree(ss: seq<Session>, i: nat, y: Session, facts: seq<SelectionFacts>, applied: seq<AppliedSelection>,
                   row: AppliedSelection)
    requires SelectionRows(ss, facts, applied) && i < |ss| && ss[i].applied == None && row.session == i
    requires y.applied == Some(|applied|) && y.reviewedSelection == ss[i].reviewedSelection
    requires y.reviewedSelection.Some?
    ensures SelectionRows(ss[i := y], facts, applied + [row])
  {
  }

  lemma ApplyRowKeeps(s: Store, i: nat, y: Session, row: AppliedSelection)
    requires BattleOk(s) && s.slot == Some(i) && s.sessions[i].state.SelectionAdviceReady? && row.session == i
    requires y == s.sessions[i].Bumped().(applied := Some(|s.applied|), state := BattleReady)
    ensures Kept(s, Save(s, i, y).(applied := s.applied + [row]))
  {
    SaveSession(s.sessions, s.slot, i, y, s.slot);
    ApplyThree(s.sessions, i, y, s.selectionFacts, s.applied, row);
    SaveTurn(s.sessions, i, y, s.turns);
    SaveFact(s.sessions, i, y, s.turns, s.facts);
    SaveAdvice(s.sessions, i, y, s.turns, s.advices);
    SaveAction(s.sessions, i, y, s.turns, s.actions);
    SaveOutcome(s.sessions, i, y, s.outcomes, s.exports);
    SaveJobs(s.sessions, i, y, s.jobs);
    SaveEvolves(s.sessions, i, y);
  }

  // ---- turns --------------------------------------------------------------------------------

  lemma OpenTurn(ss: seq<Session>, i: nat, y: Session, turns: seq<TurnId>, turn: TurnId)
    requires TurnRows(ss, turns) && i < |ss| && turn == TurnId(i, TurnCount(ss[i]) + 1) && y.turn == Some(turn)
    ensures TurnRows(ss[i := y], turns + [turn])
  {
    var ss' := ss[i := y];
    forall k: nat, n: nat | k < |ss'| && 1 <= n <= TurnCount(ss'[k]) ensures HasTurn(turns + [turn], k, n) {
      if n <= TurnCount(ss[k]) {
        assert HasTurn(turns, k, n);
      } else {
        assert (turns + [turn])[|turns|] == turn;
      }
    }
  }

  lemma OpenFact(ss: seq<Session>, i: nat, y: Session, turns: seq<TurnId>, turn: TurnId, facts: seq<TurnFacts>)
    requires FactRows(ss, turns, facts) && i < |ss| && y.reviewedBoard == None && y.applied == ss[i].applied
    ensures FactRows(ss[i := y], turns + [turn], facts)
  {
    SaveFact(ss, i, y, turns, facts);
  }

  lemma OpenAdvice(ss: seq<Session>, i: nat, y: Session, turns: seq<TurnId>, turn: TurnId, advices: seq<TurnAdvice>)
    requires AdviceRows(ss, turns, advices) && i < |ss| && y.turnAdvice == None
    ensures AdviceRows(ss[i := y], turns + [turn], advices)
  {
    SaveAdvice(ss, i, y, turns, advices);
  }

  lemma TurnNotYet(ss: seq<Session>, i: nat, turns: seq<TurnId>, n: nat)
    requires TurnRows(ss, turns) && i < |ss| && n > TurnCount(ss[i])
    ensures !HasTurn(turns, i, n)
  {
  }

  lemma OpenAction(ss: seq<Session>, i: nat, y: Session, turns: seq<TurnId>, turn: TurnId, actions: seq<RecordedAction>)
    requires ActionRows(ss, turns, actions) && TurnRows(ss, turns) && i < |ss|
    requires turn == TurnId(i, TurnCount(ss[i]) + 1) && y.turn == Some(turn) && y.state.TurnCapturePending?
    requires ss[i].turn.Some? ==> Decided(ss[i].state)
    ensures ActionRows(ss[i := y], turns + [turn], actions)
  {
    TurnNotYet(ss, i, turns, turn.number);
    assert !HasAction(actions, turn);
    if ss[i].turn.Some? {
      assert Recorded(actions, i, TurnCount(ss[i])) by {
        assert ss[i].turn.value == TurnId(i, TurnCount(ss[i]));
      }
    }
  }

  lemma OpenRows(s: Store, i: nat, turn: TurnId)
    requires i < |s.sessions| && TurnRows(s.sessions, s.turns) && FactRows(s.sessions, s.turns, s.facts)
    requires AdviceRows(s.sessions, s.turns, s.advices) && ActionRows(s.sessions, s.turns, s.actions)
    requires turn == TurnId(i, TurnCount(s.sessions[i]) + 1)
    requires s.sessions[i].turn.Some? ==> Decided(s.sessions[i].state)
    ensures var ss, turns := s.sessions[i := Pending(s.sessions[i], turn)], s.turns + [turn];
            && TurnRows(ss, turns) && FactRows(ss, turns, s.facts)
            && AdviceRows(ss, turns, s.advices) && ActionRows(ss, turns, s.actions)
  {
    var y := Pending(s.sessions[i], turn);
    OpenTurn(s.sessions, i, y, s.turns, turn);
    OpenFact(s.sessions, i, y, s.turns, turn, s.facts);
    OpenAdvice(s.sessions, i, y, s.turns, turn, s.advices);
    OpenAction(s.sessions, i, y, s.turns, turn, s.actions);
  }

  lemma TurnRowKeeps(s: Store, i: nat, turn: TurnId)
    requires BattleOk(s) && s.slot == Some(i) && turn == TurnId(i, TurnCount(s.sessions[i]) + 1)
    requires s.sessions[i].turn.Some? ==> Decided(s.sessions[i].state)
    requires s.sessions[i].applied.Some? && !Over(s.sessions[i]) && !Waiting(s.sessions[i].state)
    ensures Kept(s, Save(s, i, Pending(s.sessions[i], turn)).(turns := s.turns + [turn]))
  {
    var y := Pending(s.sessions[i], turn);
    SaveSession(s.sessions, s.slot, i, y, s.slot);
    SaveSelection(s.sessions, i, y, s.selectionFacts, s.applied);
    OpenRows(s, i, turn);
    SaveOutcome(s.sessions, i, y, s.outcomes, s.exports);
    SaveJobs(s.sessions, i, y, s.jobs);
    SaveEvolves(s.sessions, i, y);
  }

  // ---- boards, advice and actions -----------------------------------------------------------

  lemma ReviewBoard(ss: seq<Session>, i: nat, y: Session, turns: seq<TurnId>, facts: seq<TurnFacts>, f: TurnFacts)
    requires FactRows(ss, turns, facts) && TurnRows(ss, turns) && i < |ss|
    requires y.applied == ss[i].applied && y.applied.Some? && y.turn == ss[i].turn == Some(f.turn)
    requires y.reviewedBoard == Some(|facts|)
    ensures FactRows(ss[i := y], turns, facts + [f])
  {
    var ss' := ss[i := y];
    assert HasTurn(turns, i, f.turn.number);
    forall k | 0 <= k < |ss'| && ss'[k].reviewedBoard.Some?
      ensures ss'[k].turn.Some? && LatestFacts(facts + [f], ss'[k].turn.value) == ss'[k].reviewedBoard
    {
      LatestFactsAdded(facts, f, ss'[k].turn.value);
    }
  }

  lemma NewAdvice(ss: seq<Session>, i: nat, y: Session, turns: seq<TurnId>, advices: seq<TurnAdvice>, a: TurnAdvice)
    requires AdviceRows(ss, turns, advices) && TurnRows(ss, turns) && i < |ss|
    requires y.turn == ss[i].turn == Some(a.turn) && y.turnAdvice == Some(a.adviceId)
    requires y.reviewedBoard == Some(a.inputSnapshot)
    ensures AdviceRows(ss[i := y], turns, advices + [a])
  {
    var ss' := ss[i := y];
    assert HasTurn(turns, i, a.turn.number);
    forall k | 0 <= k < |ss'| && ss'[k].turnAdvice.Some? ensures ss'[k].turn.Some? && IsCurrentAdvice(ss'[k], advices + [a])
    {
      LatestAdviceAdded(advices, a, ss'[k].turn.value);
    }
  }

  lemma NewAction(ss: seq<Session>, i: nat, y: Session, turns: seq<TurnId>, actions: seq<RecordedAction>,
                  a: RecordedAction)
    requires ActionRows(ss, turns, actions) && TurnRows(ss, turns) && i < |ss|
    requires y.turn == ss[i].turn == Some(a.turn) && !HasAction(actions, a.turn) && y.state.TurnRecorded?
    ensures ActionRows(ss[i := y], turns, actions + [a])
  {
    assert HasTurn(turns, i, a.turn.number);
    var actions' := actions + [a];
    assert actions'[|actions|] == a;
    assert forall turn :: HasAction(actions', turn) ==> HasAction(actions, turn) || turn == a.turn;
    forall turn | HasAction(actions, turn) ensures HasAction(actions', turn) {
      var k :| 0 <= k < |actions| && actions[k].turn == turn;
      assert actions'[k].turn == turn;
    }
    var ss' := ss[i := y];
    forall k: nat, n: nat | k < |ss'| && 1 <= n < TurnCount(ss'[k]) ensures Recorded(actions', k, n) {
      assert Recorded(actions, k, n);
    }
  }

  lemma BoardRowKeeps(s: Store, i: nat, y: Session, f: TurnFacts)
    requires BattleOk(s) && s.slot == Some(i) && Undecided(s.sessions[i].state) && s.sessions[i].turn == Some(f.turn)
    requires y == s.sessions[i].Bumped().(reviewedBoard := Some(|s.facts|), turnAdvice := None, state := TurnReviewed)
    ensures Kept(s, Save(s, i, y).(facts := s.facts + [f]))
  {
    SaveSession(s.sessions, s.slot, i, y, s.slot);
    SaveSelection(s.sessions, i, y, s.selectionFacts, s.applied);
    SaveTurn(s.sessions, i, y, s.turns);
    ReviewBoard(s.sessions, i, y, s.turns, s.facts, f);
    SaveAdvice(s.sessions, i, y, s.turns, s.advices);
    SaveAction(s.sessions, i, y, s.turns, s.actions);
    SaveOutcome(s.sessions, i, y, s.outcomes, s.exports);
    SaveJobs(s.sessions, i, y, s.jobs);
    SaveEvolves(s.sessions, i, y);
  }

  lemma AdviceRowKeeps(s: Store, i: nat, y: Session, a: TurnAdvice)
    requires BattleOk(s) && s.slot == Some(i) && s.sessions[i].state.TurnReviewed?
    requires s.sessions[i].turn == Some(a.turn) && s.sessions[i].reviewedBoard == Some(a.inputSnapshot)
    requires y == s.sessions[i].Bumped().(turnAdvice := Some(a.adviceId))
    ensures Kept(s, Save(s, i, y).(advices := s.advices + [a]))
  {
    SaveSession(s.sessions, s.slot, i, y, s.slot);
    SaveSelection(s.sessions, i, y, s.selectionFacts, s.applied);
    SaveTurn(s.sessions, i, y, s.turns);
    SaveFact(s.sessions, i, y, s.turns, s.facts);
    NewAdvice(s.sessions, i, y, s.turns, s.advices, a);
    SaveAction(s.sessions, i, y, s.turns, s.actions);
    SaveOutcome(s.sessions, i, y, s.outcomes, s.exports);
    SaveJobs(s.sessions, i, y, s.jobs);
    SaveEvolves(s.sessions, i, y);
  }

  lemma ActionRowKeeps(s: Store, i: nat, y: Session, a: RecordedAction)
    requires BattleOk(s) && s.slot == Some(i) && s.sessions[i].state.TurnReviewed?
    requires s.sessions[i].turn == Some(a.turn) && !HasAction(s.actions, a.turn)
    requires y == s.sessions[i].Bumped().(state := TurnRecorded)
    ensures Kept(s, Save(s, i, y).(actions := s.actions + [a]))
  {
    SaveSession(s.sessions, s.slot, i, y, s.slot);
    SaveSelection(s.sessions, i, y, s.selectionFacts, s.applied);
    SaveTurn(s.sessions, i, y, s.turns);
    SaveFact(s.sessions, i, y, s.turns, s.facts);
    SaveAdvice(s.sessions, i, y, s.turns, s.advices);
    NewAction(s.sessions, i, y, s.turns, s.actions, a);
    SaveOutcome(s.sessions, i, y, s.outcomes, s.exports);
    SaveJobs(s.sessions, i, y, s.jobs);
    SaveEvolves(s.sessions, i, y);
  }
}
