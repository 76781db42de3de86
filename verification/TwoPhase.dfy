/** next_turn_with_action_result plans outside its transaction; what it commits is what one atomic step would. */
module TwoPhase {
  import opened Basics
  import opened TurnState
  import opened Records
  import opened Store
  import opened Commands
  import opened Invariant
  import opened Effects
  import opened Preservation

  /** The one-step specification: derive from the latest state and delta, and store, at one instant. */
  function NextTurnAtOnce(s: Store, draftId: Id, derivedAt: string): Committed {
    var i :- SessionIn(s.sessions, s.slot, TurnRecorded);
    var confirmed :- Present(LatestStateOf(s, i), NoConfirmedState);
    var delta :- Present(LastDeltaOn(s.deltas, confirmed.stateId), DeltaNotCurrent);
    var plan :- PlanNextTurn(s, confirmed, delta, draftId, derivedAt);
    CommitNextTurn(s, plan)
  }

  /** The plan says where it came from. */
  lemma PlanIsDerived(s: Store, confirmed: ConfirmedTurnState, delta: ActionResultDelta, draftId: Id,
                      derivedAt: string, plan: NextTurnPlan)
    requires PlanNextTurn(s, confirmed, delta, draftId, derivedAt) == Success(plan)
    ensures plan.confirmed == confirmed && plan.delta == delta && confirmed.identity.turnId == plan.turn
    ensures plan.draft.identity == TurnIdentity(plan.session, plan.matchId, plan.generation,
                                                TurnId(plan.session, plan.turn.number + 1), plan.turn.number + 1,
                                                plan.revision + 1)
    ensures DeriveNextDraft(confirmed, delta, draftId, plan.draft.identity, derivedAt) == Success(plan.draft)
    ensures ValidateFullChain(confirmed, delta, plan.draft) == Pass
  {
  }

  predicate PlansNow(s: Store, confirmed: ConfirmedTurnState, delta: ActionResultDelta, draftId: Id,
                     derivedAt: string, plan: NextTurnPlan)
  {
    && s.slot == Some(plan.session) && plan.session < |s.sessions|
    && var x := s.sessions[plan.session];
       && x.state == TurnRecorded && x.matchId == plan.matchId && x.generation == plan.generation
       && x.turn == Some(plan.turn) && plan.turn in s.turns && x.battleRevision == plan.revision
       && confirmed == plan.confirmed && delta == plan.delta && confirmed.identity.turnId == plan.turn
       && LatestState(s.states, plan.session, x.matchId, x.generation) == Some(confirmed)
       && LastDeltaOn(s.deltas, confirmed.stateId) == Some(delta)
       && DeriveNextDraft(confirmed, delta, draftId,
                          TurnIdentity(plan.session, x.matchId, x.generation,
                                       TurnId(plan.session, plan.turn.number + 1), plan.turn.number + 1,
                                       x.battleRevision + 1),
                          derivedAt) == Success(plan.draft)
  }

  /**
   A plan comes of exactly the active TURN_RECORDED match, its latest state and that state's last delta, under turn
   n+1 and revision r+1; the second check of the whole chain never refuses what the first one derived.
   */
  lemma PlansIff(s: Store, confirmed: ConfirmedTurnState, delta: ActionResultDelta, draftId: Id, derivedAt: string,
                 plan: NextTurnPlan)
    ensures PlanNextTurn(s, confirmed, delta, draftId, derivedAt) == Success(plan) <==>
              PlansNow(s, confirmed, delta, draftId, derivedAt, plan)
  {
    hide LatestState, LastDeltaOn;
  }

  lemma CommittedPlanIsCurrent(late: Store, plan: NextTurnPlan)
    requires CommitNextTurn(late, plan).Success?
    ensures ActiveIs(late, plan.session) && late.sessions[plan.session].state == TurnRecorded
    ensures late.sessions[plan.session].turn == Some(plan.turn) && plan.turn in late.turns
    ensures late.sessions[plan.session].battleRevision == plan.revision
    ensures late.sessions[plan.session].matchId == plan.matchId
    ensures late.sessions[plan.session].generation == plan.generation
    ensures LatestStateOf(late, plan.session) == Some(plan.confirmed)
    ensures LastDeltaOn(late.deltas, plan.confirmed.stateId) == Some(plan.delta)
    ensures var i := plan.draft.identity;
            !DraftIdTaken(late.drafts, DraftKey(i.session, i.turnId, i.battleRevision), plan.draft.draftId)
  {
  }

  /** Planning again at `late`, where every planned input still holds, gives the same plan. */
  lemma Replans(late: Store, plan: NextTurnPlan, draftId: Id, derivedAt: string)
    requires CommitNextTurn(late, plan).Success? && plan.confirmed.identity.turnId == plan.turn
    requires plan.draft.identity == TurnIdentity(plan.session, plan.matchId, plan.generation,
                                                 TurnId(plan.session, plan.turn.number + 1), plan.turn.number + 1,
                                                 plan.revision + 1)
    requires DeriveNextDraft(plan.confirmed, plan.delta, draftId, plan.draft.identity, derivedAt) == Success(plan.draft)
    requires ValidateFullChain(plan.confirmed, plan.delta, plan.draft) == Pass
    ensures PlanNextTurn(late, plan.confirmed, plan.delta, draftId, derivedAt) == Success(plan)
  {
    CommittedPlanIsCurrent(late, plan);
    hide CommitNextTurn;
  }

  lemma CommitsAtOnce(late: Store, plan: NextTurnPlan, draftId: Id, derivedAt: string)
    requires CommitNextTurn(late, plan).Success? && plan.confirmed.identity.turnId == plan.turn
    requires plan.draft.identity == TurnIdentity(plan.session, plan.matchId, plan.generation,
                                                 TurnId(plan.session, plan.turn.number + 1), plan.turn.number + 1,
                                                 plan.revision + 1)
    requires DeriveNextDraft(plan.confirmed, plan.delta, draftId, plan.draft.identity, derivedAt) == Success(plan.draft)
    requires ValidateFullChain(plan.confirmed, plan.delta, plan.draft) == Pass
    ensures CommitNextTurn(late, plan) == NextTurnAtOnce(late, draftId, derivedAt)
  {
    hide CommitNextTurn, PlanNextTurn, DeriveNextDraft, ValidateFullChain, LatestStateOf, LastDeltaOn;
    Replans(late, plan, draftId, derivedAt);
    CommittedPlanIsCurrent(late, plan);
  }

  lemma RefusedLeavesAlone(late: Store, plan: NextTurnPlan)
    ensures CommitNextTurn(late, plan).Failure? ==> Step(late, CCommitNextTurn(plan)) == late
  {
    hide CommitNextTurn;
  }

  /**
   Whatever ran between planning (at `early`) and committing (at `late`), a commit that succeeds does what
   the atomic step would do at the moment of the commit; one that fails leaves the repository alone.
   */
  lemma TwoPhaseRefinesAtOnce(early: Store, late: Store, confirmed: ConfirmedTurnState, delta: ActionResultDelta,
                              draftId: Id, derivedAt: string, plan: NextTurnPlan)
    requires PlanNextTurn(early, confirmed, delta, draftId, derivedAt) == Success(plan)
    ensures CommitNextTurn(late, plan).Success? ==>
              CommitNextTurn(late, plan) == NextTurnAtOnce(late, draftId, derivedAt)
    ensures CommitNextTurn(late, plan).Failure? ==> Step(late, CCommitNextTurn(plan)) == late
  {
    hide PlanNextTurn, CommitNextTurn, DeriveNextDraft, ValidateFullChain, NextTurnAtOnce, Step;
    PlanIsDerived(early, confirmed, delta, draftId, derivedAt, plan);
    RefusedLeavesAlone(late, plan);
    if CommitNextTurn(late, plan).Success? {
      CommitsAtOnce(late, plan, draftId, derivedAt);
    }
  }

  lemma PlannedIsCurrent(late: Store, confirmed: ConfirmedTurnState, delta: ActionResultDelta, draftId: Id,
                         derivedAt: string, plan: NextTurnPlan)
    requires PlanNextTurn(late, confirmed, delta, draftId, derivedAt) == Success(plan)
    ensures ActiveIs(late, plan.session) && late.sessions[plan.session].state == TurnRecorded
    ensures late.sessions[plan.session].turn == Some(plan.turn) && plan.turn in late.turns
    ensures late.sessions[plan.session].battleRevision == plan.revision
    ensures late.sessions[plan.session].matchId == plan.matchId
    ensures late.sessions[plan.session].generation == plan.generation
    ensures LatestStateOf(late, plan.session) == Some(confirmed)
    ensures LastDeltaOn(late.deltas, confirmed.stateId) == Some(delta)
  {
  }

  lemma CurrentPlanCommits(late: Store, confirmed: ConfirmedTurnState, delta: ActionResultDelta, draftId: Id,
                           derivedAt: string, plan: NextTurnPlan)
    requires PlanNextTurn(late, confirmed, delta, draftId, derivedAt) == Success(plan)
    requires TurnRows(late.sessions, late.turns)
    requires !DraftIdTaken(late.drafts, DraftKey(plan.session, plan.draft.identity.turnId, plan.revision + 1),
                           plan.draft.draftId)
    ensures CommitNextTurn(late, plan).Success?
  {
    PlannedIsCurrent(late, confirmed, delta, draftId, derivedAt, plan);
    PlanIsDerived(late, confirmed, delta, draftId, derivedAt, plan);
    TurnNotYet(late.sessions, plan.session, late.turns, plan.turn.number + 1);
    assert TurnId(plan.session, plan.turn.number + 1) !in late.turns;
    hide TurnRows, PlanNextTurn, LatestStateOf, LastDeltaOn;
  }

  /** It succeeds exactly when planning at that moment gives the same plan and the draft's id is free. */
  lemma TwoPhaseSucceedsIff(early: Store, late: Store, confirmed: ConfirmedTurnState, delta: ActionResultDelta,
                            draftId: Id, derivedAt: string, plan: NextTurnPlan)
    requires PlanNextTurn(early, confirmed, delta, draftId, derivedAt) == Success(plan) && BattleInv(late)
    ensures CommitNextTurn(late, plan).Success? <==>
            && PlanNextTurn(late, confirmed, delta, draftId, derivedAt) == Success(plan)
            && !DraftIdTaken(late.drafts, DraftKey(plan.session, plan.draft.identity.turnId, plan.revision + 1),
                             plan.draft.draftId)
  {
    PlanIsDerived(early, confirmed, delta, draftId, derivedAt, plan);
    hide PlanNextTurn, CommitNextTurn;
    if CommitNextTurn(late, plan).Success? {
      CommittedPlanIsCurrent(late, plan);
      Replans(late, plan, draftId, derivedAt);
    } else {
      if PlanNextTurn(late, confirmed, delta, draftId, derivedAt) == Success(plan)
         && !DraftIdTaken(late.drafts, DraftKey(plan.session, plan.draft.identity.turnId, plan.revision + 1),
                          plan.draft.draftId) {
        CurrentPlanCommits(late, confirmed, delta, draftId, derivedAt, plan);
      }
    }
  }

  /** The stored draft continues the chain the repository holds and is bound to the turn just opened. */
  lemma CommittedDraftIsBound(early: Store, late: Store, confirmed: ConfirmedTurnState, delta: ActionResultDelta,
                              draftId: Id, derivedAt: string, plan: NextTurnPlan, done: Store)
    requires PlanNextTurn(early, confirmed, delta, draftId, derivedAt) == Success(plan)
    requires CommitNextTurn(late, plan) == Success(done)
    ensures var key := DraftKey(plan.session, plan.draft.identity.turnId, plan.revision + 1);
            && key in done.drafts && done.drafts[key] == plan.draft
            && plan.session < |done.sessions| && IdentityNow(done, plan.session) == Some(plan.draft.identity)
    ensures plan.session < |late.sessions| && LatestStateOf(late, plan.session) == Some(confirmed)
    ensures LastDeltaOn(late.deltas, confirmed.stateId) == Some(delta)
    ensures plan.draft.basedOn == confirmed.stateId && plan.draft.sourceDelta == delta.deltaId
    ensures plan.draft.board == DeriveBoard(confirmed.board, delta.board)
  {
    PlanIsDerived(early, confirmed, delta, draftId, derivedAt, plan);
    CommittedPlanIsCurrent(late, plan);
    hide PlanNextTurn;
  }
}
