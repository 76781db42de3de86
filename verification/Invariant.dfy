/** What every run of commands keeps true of the repository, table by table. */
module Invariant {
  import opened Basics
  import opened TurnState
  import opened Records
  import opened Store
  import opened Commands

  // ---- sessions -----------------------------------------------------------------------------

  /** Which current_* pointers a session has in each state. TURN_REVIEW_REQUIRED is never entered. */
  predicate Shape(x: Session) {
    match x.state
    case SelectionOpen => x.applied.None? && x.turn.None? && x.reviewedBoard.None? && x.turnAdvice.None?
    case SelectionAdviceReady =>
      x.reviewedSelection.Some? && x.selectionAdvice.Some? && x.applied.None? && x.turn.None?
      && x.reviewedBoard.None? && x.turnAdvice.None?
    case BattleReady =>
      x.reviewedSelection.Some? && x.applied.Some? && x.turn.None? && x.reviewedBoard.None? && x.turnAdvice.None?
    case TurnCapturePending =>
      x.reviewedSelection.Some? && x.applied.Some? && x.turn.Some? && x.reviewedBoard.None? && x.turnAdvice.None?
    case TurnReviewRequired => false
    case TurnReviewed => x.reviewedSelection.Some? && x.applied.Some? && x.turn.Some? && x.reviewedBoard.Some?
    case TurnRecorded => x.reviewedSelection.Some? && x.applied.Some? && x.turn.Some? && x.reviewedBoard.Some?
    case MatchEnded => x.reviewedSelection.Some? && x.applied.Some?
    case MatchExported => x.reviewedSelection.Some? && x.applied.Some?
    case Aborted => true
  }

  predicate Closed(x: Session) {
    x.state.Aborted? || x.state.MatchExported?
  }

  predicate SessionsOk(sessions: seq<Session>, slot: Option<nat>) {
    && (forall i :: 0 <= i < |sessions| ==> Shape(sessions[i]) && sessions[i].generation == i + 1
                                            && sessions[i].matchId == i && sessions[i].battleRevision >= 1)
    && (slot.Some? ==> slot.value < |sessions| && !sessions[slot.value].state.Aborted?)
    && (forall i :: 0 <= i < |sessions| && slot != Some(i) ==> Closed(sessions[i]))
  }

  // ---- selection rows -----------------------------------------------------------------------

  predicate SelectionBound(x: Session, i: nat, facts: seq<SelectionFacts>, applied: seq<AppliedSelection>) {
    && (x.reviewedSelection.Some? ==> x.reviewedSelection.value < |facts| && facts[x.reviewedSelection.value].session == i)
    && (x.applied.Some? ==>
          x.reviewedSelection.Some? && x.applied.value < |applied| && applied[x.applied.value].session == i)
  }

  /** applied_selections.session_id is UNIQUE because a row is its session's current one for good. */
  predicate SelectionRows(sessions: seq<Session>, facts: seq<SelectionFacts>, applied: seq<AppliedSelection>) {
    && (forall i :: 0 <= i < |sessions| ==> SelectionBound(sessions[i], i, facts, applied))
    && (forall k :: 0 <= k < |applied| ==>
          applied[k].session < |sessions| && sessions[applied[k].session].applied == Some(k))
  }

  // ---- turns --------------------------------------------------------------------------------

  function TurnCount(x: Session): nat {
    if x.turn.Some? then x.turn.value.number else 0
  }

  predicate HasTurn(turns: seq<TurnId>, i: nat, n: nat) {
    TurnId(i, n) in turns
  }

  /** A session's turns are numbered 1..n in row order and its current turn is the n-th. */
  ghost predicate TurnRows(sessions: seq<Session>, turns: seq<TurnId>) {
    && (forall i :: 0 <= i < |sessions| && sessions[i].turn.Some? ==>
          sessions[i].turn.value.session == i && sessions[i].turn.value.number >= 1)
    && (forall k :: 0 <= k < |turns| ==>
          turns[k].session < |sessions| && 1 <= turns[k].number <= TurnCount(sessions[turns[k].session]))
    && (forall i: nat, n: nat :: i < |sessions| && 1 <= n <= TurnCount(sessions[i]) ==> HasTurn(turns, i, n))
    && (forall p, q :: 0 <= p < q < |turns| && turns[p].session == turns[q].session ==> turns[p].number < turns[q].number)
  }

  // ---- facts, advice and actions of a turn --------------------------------------------------

  predicate OfTurn(turn: TurnId, turns: seq<TurnId>) {
    HasTurn(turns, turn.session, turn.number)
  }

  predicate FactRows(sessions: seq<Session>, turns: seq<TurnId>, facts: seq<TurnFacts>) {
    && (forall k :: 0 <= k < |facts| ==>
          && OfTurn(facts[k].turn, turns)
          && facts[k].turn.session < |sessions| && sessions[facts[k].turn.session].applied.Some?)
    && (forall i :: 0 <= i < |sessions| && sessions[i].reviewedBoard.Some? ==>
          sessions[i].turn.Some? && LatestFacts(facts, sessions[i].turn.value) == sessions[i].reviewedBoard)
  }

  /** The session's current advice is the newest of its turn, and was given for the current board. */
  predicate IsCurrentAdvice(x: Session, advices: seq<TurnAdvice>)
    requires x.turn.Some?
  {
    var latest := LatestAdvice(advices, x.turn.value);
    latest.Some? && Some(advices[latest.value].adviceId) == x.turnAdvice
    && Some(advices[latest.value].inputSnapshot) == x.reviewedBoard
  }

  predicate AdviceRows(sessions: seq<Session>, turns: seq<TurnId>, advices: seq<TurnAdvice>) {
    && (forall k :: 0 <= k < |advices| ==> OfTurn(advices[k].turn, turns))
    && (forall i :: 0 <= i < |sessions| && sessions[i].turnAdvice.Some? ==>
          sessions[i].turn.Some? && IsCurrentAdvice(sessions[i], advices))
  }

  predicate HasAction(actions: seq<RecordedAction>, turn: TurnId) {
    exists k :: 0 <= k < |actions| && actions[k].turn == turn
  }

  predicate Undecided(state: BattleState) {
    state.TurnCapturePending? || state.TurnReviewed?
  }

  predicate Decided(state: BattleState) {
    state.TurnRecorded? || state.MatchEnded? || state.MatchExported?
  }

  predicate Recorded(actions: seq<RecordedAction>, i: nat, n: nat) {
    HasAction(actions, TurnId(i, n))
  }

  /** Every turn before the current one is recorded; the current one exactly once its state says so. */
  ghost predicate ActionRows(sessions: seq<Session>, turns: seq<TurnId>, actions: seq<RecordedAction>) {
    && (forall k :: 0 <= k < |actions| ==> OfTurn(actions[k].turn, turns))
    && (forall p, q :: 0 <= p < q < |actions| ==> actions[p].turn != actions[q].turn)
    && (forall i: nat, n: nat :: i < |sessions| && 1 <= n < TurnCount(sessions[i]) ==> Recorded(actions, i, n))
    && (forall i :: 0 <= i < |sessions| && sessions[i].turn.Some? ==>
          && (Undecided(sessions[i].state) ==> !HasAction(actions, sessions[i].turn.value))
          && (Decided(sessions[i].state) ==> HasAction(actions, sessions[i].turn.value)))
  }

  // ---- jobs, audits and ledgers -------------------------------------------------------------

  predicate DispatchOk(status: JobStatus, dispatchCount: nat) {
    && dispatchCount <= 1
    && (status == Queued || status == Interrupted ==> dispatchCount == 0)
    && (status == InFlight || status == DeliveryUnknown ==> dispatchCount == 1)
  }

  predicate JobBound(j: Job, sessions: seq<Session>) {
    && j.session < |sessions|
    && j.matchId == sessions[j.session].matchId && j.generation == sessions[j.session].generation
    && j.baseRevision <= sessions[j.session].battleRevision
    && (j.jobType == SelectionAdviceJob || j.jobType == TurnAdviceJob)
    && (j.jobType == SelectionAdviceJob <==> j.turnNumber.None?)
    && (j.jobType == SelectionAdviceJob <==> j.snapshot.SelectionSnapshot?)
    && (j.jobType == TurnAdviceJob ==> j.origin == Direct)
    && j.expectedState == (if j.jobType == SelectionAdviceJob then SelectionOpen else TurnReviewed)
    && DispatchOk(j.status, j.dispatchCount)
  }

  predicate Waiting(state: BattleState) {
    state.SelectionOpen? || state.Aborted?
  }

  /** What keeps its lane closed: a pending job or, in the Selection lane, one whose delivery is unknown. */
  predicate Blocking(j: Job) {
    IsPending(j.status) || (j.jobType == SelectionAdviceJob && j.status == DeliveryUnknown)
  }

  predicate LaneFree(jobs: seq<Job>, session: nat, jobType: JobType) {
    var latest := LatestJob(jobs, session, jobType);
    latest.None? || !Blocking(jobs[latest.value])
  }

  /** Only the newest job of a lane can block it; a blocked Selection lane leaves only abort. */
  predicate JobRows(sessions: seq<Session>, jobs: seq<Job>) {
    && (forall k :: 0 <= k < |jobs| ==> JobBound(jobs[k], sessions))
    && (forall k :: 0 <= k < |jobs| && Blocking(jobs[k]) ==>
          && LatestJob(jobs, jobs[k].session, jobs[k].jobType) == Some(k)
          && (jobs[k].jobType == SelectionAdviceJob ==> Waiting(sessions[jobs[k].session].state)))
  }

  predicate Decisive(d: Disposition) {
    d == Applied || d == InvalidRejected
  }

  predicate AuditRows(jobs: seq<Job>, audits: seq<Audit>) {
    && (forall k :: 0 <= k < |audits| && Decisive(audits[k].disposition) ==>
          && audits[k].job < |jobs|
          && jobs[audits[k].job].status == (if audits[k].disposition == Applied then Succeeded else Failed))
    && (forall p, q :: 0 <= p < q < |audits| && Decisive(audits[p].disposition) && Decisive(audits[q].disposition) ==>
          audits[p].job != audits[q].job)
  }

  predicate LedgerRowOf(row: TurnLedgerRow, j: Job) {
    && j.jobType == TurnAdviceJob && row.session == j.session && row.matchId == j.matchId
    && row.generation == j.generation && Some(row.turnNumber) == j.turnNumber && row.snapshot == j.snapshot
    && row.revision == j.baseRevision
  }

  /** Each Turn job owns one ledger row and no two rows are of the same round. */
  predicate TurnLedgerRows(jobs: seq<Job>, ledger: seq<TurnLedgerRow>) {
    && (forall k :: 0 <= k < |ledger| ==> ledger[k].job < |jobs| && LedgerRowOf(ledger[k], jobs[ledger[k].job]))
    && (forall k :: 0 <= k < |jobs| && jobs[k].jobType == TurnAdviceJob ==>
          exists m :: 0 <= m < |ledger| && ledger[m].job == k)
    && (forall p, q :: 0 <= p < q < |ledger| ==>
          !SameRound(ledger[p], ledger[q].session, ledger[q].matchId, ledger[q].generation, ledger[q].turnNumber,
                     ledger[q].snapshot))
  }

  predicate InRound(j: Job, key: SelectionKey) {
    && j.jobType == SelectionAdviceJob && j.origin.Production?
    && key == SelectionKey(j.session, j.matchId, j.generation, j.baseRevision,
                           if j.snapshot.SelectionSnapshot? then j.snapshot.row else 0)
  }

  /** Some recorded provider attempt of the job failed for an allowlisted transient reason. */
  predicate FailedTransiently(attempts: map<AttemptKey, Attempt>, job: nat) {
    exists ordinal :: 1 <= ordinal <= 2 && AttemptKey(job, ordinal) in attempts
                      && attempts[AttemptKey(job, ordinal)].outcome == AttemptFailed
                      && IsTransient(attempts[AttemptKey(job, ordinal)].reason)
  }

  /** Job `to` was created right after `from` in the chain of its round. */
  predicate ChainLink(jobs: seq<Job>, attempts: map<AttemptKey, Attempt>, key: SelectionKey, from: Option<nat>, to: nat) {
    match from
    case None => forall p :: 0 <= p < to && p < |jobs| ==> !InRound(jobs[p], key)
    case Some(p) =>
      && p < to && p < |jobs| && InRound(jobs[p], key) && (jobs[p].status == Failed || jobs[p].status == TimedOut)
      && FailedTransiently(attempts, p)
      && forall m :: p < m < to && m < |jobs| ==> !InRound(jobs[m], key)
  }

  predicate Linked(jobs: seq<Job>, ledger: map<SelectionKey, nat>, attempts: map<AttemptKey, Attempt>,
                   key: SelectionKey, k: nat)
    requires k < |jobs| && InRound(jobs[k], key)
  {
    key in ledger && ChainLink(jobs, attempts, key, jobs[k].origin.replaced, k)
  }

  ghost predicate SelectionLedgerRows(jobs: seq<Job>, ledger: map<SelectionKey, nat>, attempts: map<AttemptKey, Attempt>) {
    && (forall key :: key in ledger ==>
          && ledger[key] < |jobs| && InRound(jobs[ledger[key]], key)
          && forall m :: ledger[key] < m < |jobs| ==> !InRound(jobs[m], key))
    && (forall k: nat, key :: k < |jobs| && InRound(jobs[k], key) ==> Linked(jobs, ledger, attempts, key, k))
  }

  // ---- outcomes and exports -----------------------------------------------------------------

  ghost predicate OutcomeRows(sessions: seq<Session>, outcomes: map<nat, OutcomeRecord>, exports: map<nat, ExportPayload>) {
    && (forall i: nat :: i in outcomes <==> i < |sessions| && (sessions[i].state.MatchEnded? || sessions[i].state.MatchExported?))
    && (forall i: nat :: i in exports <==> i < |sessions| && sessions[i].state.MatchExported?)
    && (forall i :: i in outcomes ==>
          outcomes[i].finalRevision == (if sessions[i].state.MatchEnded? then sessions[i].battleRevision
                                        else sessions[i].battleRevision - 1))
  }

  // ---- what the rows say --------------------------------------------------------------------

  predicate RowsValid(facts: seq<TurnFacts>, selectionFacts: seq<SelectionFacts>) {
    && (forall k :: 0 <= k < |facts| ==> ValidTurnFacts(facts[k]))
    && (forall k :: 0 <= k < |selectionFacts| ==>
          ValidTeams(selectionFacts[k].selfTeam, selectionFacts[k].opponentTeam, selectionFacts[k].build))
  }

  predicate ThreeFits(x: Session, selectionFacts: seq<SelectionFacts>, applied: seq<AppliedSelection>) {
    x.applied.Some? ==>
      && x.reviewedSelection.Some? && x.reviewedSelection.value < |selectionFacts| && x.applied.value < |applied|
      && ThreeOf(applied[x.applied.value].three, applied[x.applied.value].lead,
                 selectionFacts[x.reviewedSelection.value].selfTeam)
  }

  predicate ActiveFits(f: TurnFacts, sessions: seq<Session>, applied: seq<AppliedSelection>) {
    && f.turn.session < |sessions| && sessions[f.turn.session].applied.Some?
    && sessions[f.turn.session].applied.value < |applied|
    && f.selfActive in applied[sessions[f.turn.session].applied.value].three
  }

  /** A recorded action is legal in the newest facts of its turn, and its newest advice is about those facts. */
  predicate ActionBacked(a: RecordedAction, facts: seq<TurnFacts>, advices: seq<TurnAdvice>) {
    var board, advice := LatestFacts(facts, a.turn), LatestAdvice(advices, a.turn);
    && board.Some? && advice.Some?
    && LegalIn(facts[board.value], a.own.actionType, a.own.name)
    && advices[advice.value].inputSnapshot == board.value
  }

  predicate ContentRows(sessions: seq<Session>, selectionFacts: seq<SelectionFacts>, applied: seq<AppliedSelection>,
                        facts: seq<TurnFacts>, advices: seq<TurnAdvice>, actions: seq<RecordedAction>) {
    && RowsValid(facts, selectionFacts)
    && (forall i :: 0 <= i < |sessions| ==> ThreeFits(sessions[i], selectionFacts, applied))
    && (forall k :: 0 <= k < |facts| ==> ActiveFits(facts[k], sessions, applied))
    && (forall k :: 0 <= k < |actions| ==> ActionBacked(actions[k], facts, advices))
  }

  // ---- the invariant ------------------------------------------------------------------------

  /** The tables of the battle itself: sessions, selection, turns, facts, advice and actions. */
  ghost predicate BattleInv(s: Store) {
    && SessionsOk(s.sessions, s.slot)
    && SelectionRows(s.sessions, s.selectionFacts, s.applied)
    && TurnRows(s.sessions, s.turns)
    && FactRows(s.sessions, s.turns, s.facts)
    && AdviceRows(s.sessions, s.turns, s.advices)
    && ActionRows(s.sessions, s.turns, s.actions)
    && OutcomeRows(s.sessions, s.outcomes, s.exports)
  }

  predicate ContentInv(s: Store) {
    ContentRows(s.sessions, s.selectionFacts, s.applied, s.facts, s.advices, s.actions)
  }

  /** The provider lanes: the jobs' audits and the two ledgers. */
  ghost predicate LaneInv(s: Store) {
    && AuditRows(s.jobs, s.audits)
    && TurnLedgerRows(s.jobs, s.turnLedger)
    && SelectionLedgerRows(s.jobs, s.selectionLedger, s.attempts)
  }

  ghost predicate Inv(s: Store) {
    BattleInv(s) && JobRows(s.sessions, s.jobs) && LaneInv(s) && ContentInv(s)
  }
}
