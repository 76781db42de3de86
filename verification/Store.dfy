/** The repository's tables as one value, and the queries the application runs on them. */
module Store {
  import opened Basics
  import opened TurnState
  import opened Records

  datatype Store = Store(
    sessions: seq<Session>, slot: Option<nat>,
    selectionFacts: seq<SelectionFacts>, selectionAdvices: seq<SelectionAdvice>, applied: seq<AppliedSelection>,
    turns: seq<TurnId>, facts: seq<TurnFacts>, advices: seq<TurnAdvice>, actions: seq<RecordedAction>,
    jobs: seq<Job>, audits: seq<Audit>,
    selectionLedger: map<SelectionKey, nat>, turnLedger: seq<TurnLedgerRow>, attempts: map<AttemptKey, Attempt>,
    states: seq<ConfirmedTurnState>, deltas: seq<ActionResultDelta>, drafts: map<DraftKey, NextTurnStateDraft>,
    completions: seq<Completion>,
    outcomes: map<nat, OutcomeRecord>, exports: map<nat, ExportPayload>)

  const EMPTY: Store := Store([], None, [], [], [], [], [], [], [], [], [], map[], [], map[], [], [], map[], [],
                              map[], map[])

  /** load_active_session: the row the unique active_slot index names. */
  function ActiveSession(sessions: seq<Session>, slot: Option<nat>): (r: Result<nat, Refusal>)
    ensures r.Success? <==> slot.Some? && slot.value < |sessions|
    ensures r.Success? ==> r.value == slot.value
    ensures r.Failure? ==> r.error == NoActiveMatch
  {
    if slot.Some? && slot.value < |sessions| then Success(slot.value) else Failure(NoActiveMatch)
  }

  function SessionIn(sessions: seq<Session>, slot: Option<nat>, state: BattleState): (r: Result<nat, Refusal>)
    ensures r.Success? <==> slot.Some? && slot.value < |sessions| && sessions[slot.value].state == state
    ensures r.Success? ==> r.value == slot.value
  {
    var i :- ActiveSession(sessions, slot);
    :- Need(sessions[i].state == state, WrongState);
    Success(i)
  }

  function Row<T>(table: seq<T>, id: nat): Result<T, Refusal> {
    if id < |table| then Success(table[id]) else Failure(MissingRow)
  }

  /** COALESCE(MAX(generation), 0) + 1 */
  function NextGeneration(sessions: seq<Session>): (g: nat)
    ensures g >= 1
    ensures forall i :: 0 <= i < |sessions| ==> sessions[i].generation < g
    ensures g == 1 || exists i :: 0 <= i < |sessions| && g == sessions[i].generation + 1
  {
    if sessions == [] then 1
    else
      var g, last := NextGeneration(sessions[..|sessions| - 1]), sessions[|sessions| - 1].generation;
      if last < g then g else last + 1
  }

  // ---- latest by rowid ----------------------------------------------------------------------

  predicate IsJobOf(job: Job, session: nat, jobType: JobType) {
    job.session == session && job.jobType == jobType
  }

  function LatestJob(jobs: seq<Job>, session: nat, jobType: JobType): (r: Option<nat>)
    ensures r.Some? ==> r.value < |jobs| && IsJobOf(jobs[r.value], session, jobType)
    ensures r.Some? ==> forall k :: r.value < k < |jobs| ==> !IsJobOf(jobs[k], session, jobType)
    ensures r.None? ==> forall k :: 0 <= k < |jobs| ==> !IsJobOf(jobs[k], session, jobType)
  {
    if jobs == [] then None
    else if IsJobOf(jobs[|jobs| - 1], session, jobType) then Some(|jobs| - 1)
    else LatestJob(jobs[..|jobs| - 1], session, jobType)
  }

  function LatestFacts(facts: seq<TurnFacts>, turn: TurnId): (r: Option<nat>)
    ensures r.Some? ==> r.value < |facts| && facts[r.value].turn == turn
    ensures r.Some? ==> forall k :: r.value < k < |facts| ==> facts[k].turn != turn
    ensures r.None? ==> forall k :: 0 <= k < |facts| ==> facts[k].turn != turn
  {
    if facts == [] then None
    else if facts[|facts| - 1].turn == turn then Some(|facts| - 1)
    else LatestFacts(facts[..|facts| - 1], turn)
  }

  function LatestAdvice(advices: seq<TurnAdvice>, turn: TurnId): (r: Option<nat>)
    ensures r.Some? ==> r.value < |advices| && advices[r.value].turn == turn
    ensures r.Some? ==> forall k :: r.value < k < |advices| ==> advices[k].turn != turn
    ensures r.None? ==> forall k :: 0 <= k < |advices| ==> advices[k].turn != turn
  {
    if advices == [] then None
    else if advices[|advices| - 1].turn == turn then Some(|advices| - 1)
    else LatestAdvice(advices[..|advices| - 1], turn)
  }

  function ActionFor(actions: seq<RecordedAction>, turn: TurnId): (r: Option<nat>)
    ensures r.Some? ==> r.value < |actions| && actions[r.value].turn == turn
    ensures r.None? ==> forall k :: 0 <= k < |actions| ==> actions[k].turn != turn
  {
    if actions == [] then None
    else if actions[|actions| - 1].turn == turn then Some(|actions| - 1)
    else ActionFor(actions[..|actions| - 1], turn)
  }

  lemma LatestJobAdded(jobs: seq<Job>, j: Job, session: nat, jobType: JobType)
    ensures LatestJob(jobs + [j], session, jobType)
            == if IsJobOf(j, session, jobType) then Some(|jobs|) else LatestJob(jobs, session, jobType)
  {
    assert (jobs + [j])[..|jobs|] == jobs;
  }

  lemma LatestFactsAdded(facts: seq<TurnFacts>, f: TurnFacts, turn: TurnId)
    ensures LatestFacts(facts + [f], turn) == if f.turn == turn then Some(|facts|) else LatestFacts(facts, turn)
  {
    assert (facts + [f])[..|facts|] == facts;
  }

  lemma LatestAdviceAdded(advices: seq<TurnAdvice>, a: TurnAdvice, turn: TurnId)
    ensures LatestAdvice(advices + [a], turn) == if a.turn == turn then Some(|advices|) else LatestAdvice(advices, turn)
  {
    assert (advices + [a])[..|advices|] == advices;
  }

  // ---- ORDER BY turn_number -----------------------------------------------------------------

  function Highest(turns: seq<TurnId>, session: nat): (n: nat)
    ensures forall k :: 0 <= k < |turns| && turns[k].session == session ==> turns[k].number <= n
  {
    if turns == [] then 0
    else
      var n, last := Highest(turns[..|turns| - 1], session), turns[|turns| - 1];
      if last.session == session && last.number > n then last.number else n
  }

  function TurnsUpTo(turns: seq<TurnId>, session: nat, n: nat): (r: seq<TurnId>)
    ensures forall t :: t in r <==> t in turns && t.session == session && t.number <= n
    ensures forall p, q :: 0 <= p < q < |r| ==> r[p].number < r[q].number
  {
    var before := if n == 0 then [] else TurnsUpTo(turns, session, n - 1);
    if TurnId(session, n) in turns then before + [TurnId(session, n)] else before
  }

  /** list_turns: the session's turns by turn number, which is unique within a session. */
  function ListTurns(turns: seq<TurnId>, session: nat): (r: seq<TurnId>)
    ensures forall t :: t in r <==> t in turns && t.session == session
    ensures forall p, q :: 0 <= p < q < |r| ==> r[p].number < r[q].number
  {
    TurnsUpTo(turns, session, Highest(turns, session))
  }

  function ActionsAt(actions: seq<RecordedAction>, turn: TurnId): seq<RecordedAction> {
    if actions == [] then []
    else
      var before, last := ActionsAt(actions[..|actions| - 1], turn), actions[|actions| - 1];
      if last.turn == turn then before + [last] else before
  }

  function ActionsUpTo(actions: seq<RecordedAction>, session: nat, n: nat): seq<RecordedAction> {
    (if n == 0 then [] else ActionsUpTo(actions, session, n - 1)) + ActionsAt(actions, TurnId(session, n))
  }

  function TurnsActed(actions: seq<RecordedAction>): (r: seq<TurnId>)
    ensures |r| == |actions| && forall k :: 0 <= k < |actions| ==> r[k] == actions[k].turn
  {
    seq(|actions|, k requires 0 <= k < |actions| => actions[k].turn)
  }

  /** list_recorded_actions: by turn number, then in row order. */
  function ListActions(actions: seq<RecordedAction>, session: nat): seq<RecordedAction> {
    ActionsUpTo(actions, session, Highest(TurnsActed(actions), session))
  }

  // ---- rich-state rows ----------------------------------------------------------------------

  predicate StateOf(s: ConfirmedTurnState, session: Id, matchId: Id, generation: nat) {
    s.identity.session == session && s.identity.matchId == matchId && s.identity.generation == generation
  }

  /** (turn_number, battle_revision) in row order: a later row wins a tie. */
  predicate NoNewer(a: TurnIdentity, b: TurnIdentity) {
    a.turnNumber < b.turnNumber || (a.turnNumber == b.turnNumber && a.battleRevision <= b.battleRevision)
  }

  /** ORDER BY turn_number DESC, battle_revision DESC, rowid DESC LIMIT 1 */
  function LatestState(states: seq<ConfirmedTurnState>, session: Id, matchId: Id, generation: nat)
    : (r: Option<ConfirmedTurnState>)
    ensures r.None? ==> forall k :: 0 <= k < |states| ==> !StateOf(states[k], session, matchId, generation)
    ensures r.Some? ==> r.value in states && StateOf(r.value, session, matchId, generation)
    ensures r.Some? ==> forall k :: 0 <= k < |states| && StateOf(states[k], session, matchId, generation) ==>
              NoNewer(states[k].identity, r.value.identity)
  {
    if states == [] then None
    else
      var before, last := LatestState(states[..|states| - 1], session, matchId, generation), states[|states| - 1];
      assert states == states[..|states| - 1] + [last];
      if !StateOf(last, session, matchId, generation) then before
      else if before.None? || NoNewer(before.value.identity, last.identity) then Some(last)
      else before
  }

  function LatestStateOf(s: Store, i: nat): Option<ConfirmedTurnState>
    requires i < |s.sessions|
  {
    LatestState(s.states, i, s.sessions[i].matchId, s.sessions[i].generation)
  }

  function StateRow(states: seq<ConfirmedTurnState>, id: Id): (r: Option<ConfirmedTurnState>)
    ensures r.Some? ==> r.value in states && r.value.stateId == id
    ensures r.None? ==> forall k :: 0 <= k < |states| ==> states[k].stateId != id
  {
    if states == [] then None
    else if states[|states| - 1].stateId == id then Some(states[|states| - 1])
    else StateRow(states[..|states| - 1], id)
  }

  /** The last of list_action_result_deltas_based_on: ORDER BY turn_number, battle_revision, rowid. */
  function LastDeltaOn(deltas: seq<ActionResultDelta>, basedOn: Id): (r: Option<ActionResultDelta>)
    ensures r.None? ==> forall k :: 0 <= k < |deltas| ==> deltas[k].basedOn != basedOn
    ensures r.Some? ==> r.value in deltas && r.value.basedOn == basedOn
    ensures r.Some? ==> forall k :: 0 <= k < |deltas| && deltas[k].basedOn == basedOn ==>
              NoNewer(deltas[k].identity, r.value.identity)
  {
    if deltas == [] then None
    else
      var before, last := LastDeltaOn(deltas[..|deltas| - 1], basedOn), deltas[|deltas| - 1];
      assert deltas == deltas[..|deltas| - 1] + [last];
      if last.basedOn != basedOn then before
      else if before.None? || NoNewer(before.value.identity, last.identity) then Some(last)
      else before
  }

  // ---- ledgers and audits -------------------------------------------------------------------

  predicate SameRound(row: TurnLedgerRow, session: nat, matchId: Id, generation: nat, turnNumber: nat,
                      snapshot: SnapshotId) {
    && row.session == session && row.matchId == matchId && row.generation == generation
    && row.turnNumber == turnNumber && row.snapshot == snapshot
  }

  /** turn_advice_attempt_reserved: the revision is not part of the question. */
  predicate TurnAttemptReserved(ledger: seq<TurnLedgerRow>, session: nat, matchId: Id, generation: nat,
                                turnNumber: nat, snapshot: SnapshotId) {
    exists k :: 0 <= k < |ledger| && SameRound(ledger[k], session, matchId, generation, turnNumber, snapshot)
  }

  predicate HasApplied(audits: seq<Audit>, job: nat) {
    exists k :: 0 <= k < |audits| && audits[k].job == job && audits[k].disposition == Applied
  }

  /** selection_provider_attempt_audits(job)[-1]: ordinals are 1 and 2 by the table's CHECK. */
  function LastAttempt(attempts: map<AttemptKey, Attempt>, job: nat): Option<Attempt> {
    if AttemptKey(job, 2) in attempts then Some(attempts[AttemptKey(job, 2)])
    else if AttemptKey(job, 1) in attempts then Some(attempts[AttemptKey(job, 1)])
    else None
  }

  predicate IsTransient(reason: FailureReason) {
    match reason
    case Timeout => true
    case NetworkError => true
    case HttpError(Some(status)) => status in {408, 425, 429, 500, 502, 503, 504}
    case _ => false
  }

  predicate IsPending(status: JobStatus) {
    status == Queued || status == InFlight
  }
}
