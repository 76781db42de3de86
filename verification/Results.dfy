/**
 How a worker's result ends in each lane, said of the result, the job, the match and the rows alone: which results are
 turned away and why, which fail their job, and which are applied and as what.
 */
module Results {
  import opened Basics
  import Text
  import opened TurnState
  import opened Records
  import opened Store
  import opened Commands
  import opened Invariant
  import opened Evolution
  import opened Effects
  import opened Steps
  import opened Guarantees
  import opened Promises

  // ---- bound to the present -----------------------------------------------------------------

  /** Everything the result says of its job and its match is what the repository says, and the job is still awaited. */
  predicate SaysJob(s: Store, r: ResultEnvelope, lane: JobType) {
    && HasActive(s) && r.jobId < |s.jobs| && LatestJob(s.jobs, s.slot.value, lane) == Some(r.jobId)
    && var x, j := ActiveMatch(s), s.jobs[r.jobId];
       && (j.status == Queued || j.status == InFlight)
       && r.contractVersion == 1 && r.commandId == j.commandId && r.jobType == j.jobType
       && r.session == s.slot.value && r.matchId == x.matchId && r.generation == x.generation
       && r.baseRevision == x.battleRevision && r.baseRevision == j.baseRevision
       && r.expectedState == x.state && r.expectedState == j.expectedState
       && r.turnNumber == j.turnNumber && r.snapshot == j.snapshot && r.digest == j.digest
  }

  predicate SelectionNow(s: Store, r: ResultEnvelope) {
    && SaysJob(s, r, SelectionAdviceJob) && r.turnNumber == None
    && ActiveMatch(s).reviewedSelection.Some? && r.snapshot == SelectionSnapshot(ActiveMatch(s).reviewedSelection.value)
  }

  predicate TurnNow(s: Store, r: ResultEnvelope) {
    && SaysJob(s, r, TurnAdviceJob) && r.turnNumber == NumberNow(s)
    && ActiveMatch(s).reviewedBoard.Some? && r.snapshot == FactsSnapshot(ActiveMatch(s).reviewedBoard.value)
  }

  function NumberNow(s: Store): Option<nat>
    requires HasActive(s)
  {
    if ActiveMatch(s).turn.Some? then Some(ActiveMatch(s).turn.value.number) else None
  }

  /** The match's latest confirmed state. */
  function StateNow(s: Store): Option<ConfirmedTurnState>
    requires HasActive(s)
  {
    LatestState(s.states, s.slot.value, ActiveMatch(s).matchId, ActiveMatch(s).generation)
  }

  predicate RichNow(s: Store, r: ResultEnvelope) {
    && SaysJob(s, r, TurnAdviceJob) && ActiveMatch(s).turn.Some? && r.turnNumber == NumberNow(s)
    && var x, state := ActiveMatch(s), StateNow(s);
       && state.Some? && r.snapshot == StateSnapshot(state.value.stateId)
       && state.value.identity == TurnIdentity(s.slot.value, x.matchId, x.generation, x.turn.value, x.turn.value.number,
                                               x.battleRevision)
  }

  // ---- why a result is stale ----------------------------------------------------------------

  /** The recorded reason is a true one. `turn` and `snapshot` are what the lane compares with. */
  predicate StaleFor(s: Store, r: ResultEnvelope, lane: JobType, turn: Option<nat>, snapshot: Option<SnapshotId>,
                     why: AuditReason)
  {
    match why
    case JobIdMismatch => r.jobId >= |s.jobs|
    case WrongLane => r.jobId < |s.jobs| && s.jobs[r.jobId].jobType != lane
    case NotRichContract =>
      r.jobId < |s.jobs| && var j := s.jobs[r.jobId];
      forall k :: 0 <= k < |s.states| ==> !StateOf(s.states[k], j.session, j.matchId, j.generation)
    case JobIdNotCurrent => !HasActive(s) || LatestJob(s.jobs, s.slot.value, lane) != Some(r.jobId)
    case JobNotAcceptingResults => r.jobId < |s.jobs| && s.jobs[r.jobId].status !in {Queued, InFlight}
    case ContractVersionMismatch => r.contractVersion != 1
    case CommandIdMismatch => r.jobId < |s.jobs| && r.commandId != s.jobs[r.jobId].commandId
    case JobTypeMismatch => r.jobId < |s.jobs| && r.jobType != s.jobs[r.jobId].jobType
    case SessionDiffers => HasActive(s) && r.session != s.slot.value
    case MatchDiffers => HasActive(s) && r.matchId != ActiveMatch(s).matchId
    case GenerationDiffers => HasActive(s) && r.generation != ActiveMatch(s).generation
    case TurnDiffers => r.jobId < |s.jobs| && (r.turnNumber != s.jobs[r.jobId].turnNumber || r.turnNumber != turn)
    case RevisionDiffers =>
      && HasActive(s) && r.jobId < |s.jobs|
      && (r.baseRevision != ActiveMatch(s).battleRevision || r.baseRevision != s.jobs[r.jobId].baseRevision)
    case ExpectedStateDiffers =>
      && HasActive(s) && r.jobId < |s.jobs|
      && (r.expectedState != ActiveMatch(s).state || r.expectedState != s.jobs[r.jobId].expectedState)
    case InputSnapshotDiffers =>
      r.jobId < |s.jobs| && (Some(r.snapshot) != snapshot || r.snapshot != s.jobs[r.jobId].snapshot)
    case StateNotCurrentBinding =>
      HasActive(s) && StateNow(s).Some? && Some(StateNow(s).value.identity) != IdentityNow(s, s.slot.value)
    case DigestDiffers => r.jobId < |s.jobs| && r.digest != s.jobs[r.jobId].digest
    case _ => false
  }

  function ReviewedNow(s: Store): Option<SnapshotId> {
    if !HasActive(s) || ActiveMatch(s).reviewedSelection.None? then None
    else Some(SelectionSnapshot(ActiveMatch(s).reviewedSelection.value))
  }

  function BoardNow(s: Store): Option<SnapshotId> {
    if !HasActive(s) || ActiveMatch(s).reviewedBoard.None? then None
    else Some(FactsSnapshot(ActiveMatch(s).reviewedBoard.value))
  }

  function StateSnapshotNow(s: Store): Option<SnapshotId> {
    if HasActive(s) && StateNow(s).Some? then Some(StateSnapshot(StateNow(s).value.stateId)) else None
  }

  function TurnNumberNow(s: Store): Option<nat> {
    if HasActive(s) then NumberNow(s) else None
  }

  // ---- the endings --------------------------------------------------------------------------

  predicate EndsNoted(s: Store, s': Store, r: ResultEnvelope, disposition: Disposition, why: AuditReason) {
    s' == s.(audits := s.audits + [Audit(r.resultId, r.jobId, disposition, why)])
  }

  predicate EndsStale(s: Store, s': Store, r: ResultEnvelope, lane: JobType, turn: Option<nat>,
                      snapshot: Option<SnapshotId>)
  {
    && |s'.audits| == |s.audits| + 1
    && var why := s'.audits[|s.audits|].reason;
       EndsNoted(s, s', r, StaleRejected, why) && StaleFor(s, r, lane, turn, snapshot, why)
  }

  /** A result of this lane for a job that has an APPLIED row already. */
  predicate Repeats(s: Store, r: ResultEnvelope, lane: JobType) {
    && r.jobId < |s.jobs| && s.jobs[r.jobId].jobType == lane
    && exists k :: 0 <= k < |s.audits| && s.audits[k].job == r.jobId && s.audits[k].disposition == Applied
  }

  predicate EndsInvalid(s: Store, s': Store, r: ResultEnvelope) {
    && r.jobId < |s.jobs|
    && s' == s.(jobs := s.jobs[r.jobId := s.jobs[r.jobId].(status := Failed)],
                audits := s.audits + [Audit(r.resultId, r.jobId, InvalidRejected, InvalidPayload)])
  }

  /** The job succeeds, the row y is the match's, and the result is on record as applied; `tables` adds the advice. */
  predicate EndsApplied(s: Store, s': Store, r: ResultEnvelope, y: Session, tables: Store) {
    && HasActive(s) && r.jobId < |s.jobs|
    && s' == tables.(sessions := s.sessions[s.slot.value := y],
                     jobs := s.jobs[r.jobId := s.jobs[r.jobId].(status := Succeeded)],
                     audits := s.audits + [Audit(r.resultId, r.jobId, Applied, BindingAccepted)])
  }

  /** Three different names of the reviewed team, the lead among them. */
  predicate ProposalFits(s: Store, r: ResultEnvelope) {
    && HasReviewed(s) && r.selectionPayload.Proposal?
    && var p, team := r.selectionPayload, s.selectionFacts[ActiveMatch(s).reviewedSelection.value].selfTeam;
       && |p.three| == 3 && p.three[0] != p.three[1] && p.three[0] != p.three[2] && p.three[1] != p.three[2]
       && p.three[0] in team && p.three[1] in team && p.three[2] in team && p.lead in p.three
  }

  /** A well-formed answer to the canonical request of now, whose action is on the reviewed board. */
  predicate AnswerFits(s: Store, r: ResultEnvelope) {
    && HasBoard(s) && r.digest == RequestNow(s) && r.turnPayload.Body? && r.turnPayload.wellFormed
    && var p, f := r.turnPayload, s.facts[ActiveMatch(s).reviewedBoard.value];
       p.actionName in (if p.actionType == Move then f.moves else f.switches)
  }

  function SelectionReady(s: Store, r: ResultEnvelope): Session
    requires HasActive(s)
  {
    NextAs(ActiveMatch(s), SelectionAdviceReady).(selectionAdvice := Some(r.resultId))
  }

  function Advised(s: Store, r: ResultEnvelope): Session
    requires HasActive(s)
  {
    NextAs(ActiveMatch(s), TurnReviewed).(turnAdvice := Some(r.resultId))
  }

  function WithProposal(s: Store, r: ResultEnvelope): Store
    requires HasActive(s) && r.selectionPayload.Proposal?
  {
    s.(selectionAdvices := s.selectionAdvices + [SelectionAdvice(r.resultId, s.slot.value, r.jobId,
                                                                 r.selectionPayload.three, r.selectionPayload.lead)])
  }

  function WithAdvice(s: Store, r: ResultEnvelope, action: Action): Store
    requires HasBoard(s)
  {
    var x := ActiveMatch(s);
    s.(advices := s.advices + [TurnAdvice(r.resultId, x.turn.value, r.jobId, x.reviewedBoard.value, action.actionType,
                                          action.name)])
  }

  /** The advice table already has this advice id, or an advice of this job. */
  predicate ProposalKeyTaken(s: Store, r: ResultEnvelope) {
    exists k :: 0 <= k < |s.selectionAdvices|
                && (s.selectionAdvices[k].adviceId == r.resultId || s.selectionAdvices[k].job == r.jobId)
  }

  predicate AdviceTaken(s: Store, r: ResultEnvelope) {
    exists k :: 0 <= k < |s.advices| && (s.advices[k].adviceId == r.resultId || s.advices[k].job == r.jobId)
  }

  predicate SelectionEnds(s: Store, s': Store, r: ResultEnvelope) {
    if Repeats(s, r, SelectionAdviceJob) then EndsNoted(s, s', r, DuplicateIgnored, ResultAlreadyApplied)
    else if !SelectionNow(s, r) then EndsStale(s, s', r, SelectionAdviceJob, None, ReviewedNow(s))
    else if !ProposalFits(s, r) then EndsInvalid(s, s', r)
    else EndsApplied(s, s', r, SelectionReady(s, r), WithProposal(s, r))
  }

  predicate TurnEnds(s: Store, s': Store, r: ResultEnvelope) {
    if Repeats(s, r, TurnAdviceJob) then EndsNoted(s, s', r, DuplicateIgnored, ResultAlreadyApplied)
    else if !TurnNow(s, r) then EndsStale(s, s', r, TurnAdviceJob, TurnNumberNow(s), BoardNow(s))
    else if !AnswerFits(s, r) then EndsInvalid(s, s', r)
    else
      var answer := Action(r.turnPayload.actionType, r.turnPayload.actionName);
      EndsApplied(s, s', r, Advised(s, r), WithAdvice(s, r, answer))
  }

  /** The job's match has a confirmed state at all: the rich contract is its contract. */
  predicate HasStates(s: Store, job: nat)
    requires job < |s.jobs|
  {
    var j := s.jobs[job];
    exists k :: 0 <= k < |s.states| && StateOf(s.states[k], j.session, j.matchId, j.generation)
  }

  predicate RichEnds(s: Store, s': Store, r: ResultEnvelope, rebuilt: Option<Action>) {
    if Repeats(s, r, TurnAdviceJob) && HasStates(s, r.jobId) then
      EndsNoted(s, s', r, DuplicateIgnored, ResultAlreadyApplied)
    else if !RichNow(s, r) then EndsStale(s, s', r, TurnAdviceJob, TurnNumberNow(s), StateSnapshotNow(s))
    else if rebuilt.None? then EndsInvalid(s, s', r)
    else HasBoard(s) && EndsApplied(s, s', r, Advised(s, r), WithAdvice(s, r, rebuilt.value))
  }

  lemma MisroutedIsTrue(s: Store, r: ResultEnvelope, lane: JobType, turn: Option<nat>, snapshot: Option<SnapshotId>)
    ensures r.jobId >= |s.jobs| ==> StaleFor(s, r, lane, turn, snapshot, JobIdMismatch)
    ensures r.jobId < |s.jobs| && s.jobs[r.jobId].jobType != lane ==> StaleFor(s, r, lane, turn, snapshot, WrongLane)
    ensures r.jobId >= |s.jobs| || s.jobs[r.jobId].jobType != lane ==> !SaysJob(s, r, lane) && !Repeats(s, r, lane)
  {
  }

  // ---- the binding checks -------------------------------------------------------------------

  lemma SelectionBinding(s: Store, r: ResultEnvelope)
    requires r.jobId < |s.jobs| && s.jobs[r.jobId].jobType == SelectionAdviceJob
    ensures var why := BindingFailure(s, LatestActiveJob(s, SelectionAdviceJob), s.jobs[r.jobId], r,
                                      CurrentSelection(ActiveRow(s)), None);
            && (why == None <==> SelectionNow(s, r))
            && (why.Some? ==> StaleFor(s, r, SelectionAdviceJob, None, ReviewedNow(s), why.value))
  {
    hide LatestJob;
  }

  lemma TurnBinding(s: Store, r: ResultEnvelope)
    requires r.jobId < |s.jobs| && s.jobs[r.jobId].jobType == TurnAdviceJob
    ensures var why := BindingFailure(s, LatestActiveJob(s, TurnAdviceJob), s.jobs[r.jobId], r,
                                      CurrentBoard(ActiveRow(s)), CurrentTurnNumber(ActiveRow(s)));
            && (why == None <==> TurnNow(s, r))
            && (why.Some? ==> StaleFor(s, r, TurnAdviceJob, TurnNumberNow(s), BoardNow(s), why.value))
  {
    hide LatestJob;
  }

  lemma RichBinding(s: Store, r: ResultEnvelope)
    requires r.jobId < |s.jobs| && s.jobs[r.jobId].jobType == TurnAdviceJob && s.jobs[r.jobId].turnNumber.Some?
    ensures var active := ActiveSession(s.sessions, s.slot);
            var current := if active.Success? then IdentityNow(s, active.value) else None;
            var latest := if current.Some? then LatestStateOf(s, active.value) else None;
            var why := RichBindingFailure(s, LatestActiveJob(s, TurnAdviceJob), s.jobs[r.jobId], r, current, latest);
            && (why == None <==> RichNow(s, r))
            && (why.Some? ==> StaleFor(s, r, TurnAdviceJob, TurnNumberNow(s), StateSnapshotNow(s), why.value))
  {
    hide LatestJob, LatestState;
  }

  lemma BoundIsFirst(s: Store, r: ResultEnvelope, lane: JobType)
    requires Inv(s) && SaysJob(s, r, lane)
    ensures !HasApplied(s.audits, r.jobId) && s.jobs[r.jobId].jobType == lane
    ensures lane == TurnAdviceJob ==> ActiveMatch(s).state == TurnReviewed
    ensures lane == SelectionAdviceJob ==> ActiveMatch(s).state == SelectionOpen
  {
    hide BattleInv, ContentInv, TurnLedgerRows, SelectionLedgerRows;
    assert JobBound(s.jobs[r.jobId], s.sessions);
  }

  // ---- the Selection lane -------------------------------------------------------------------

  lemma ReviewedIsThere(s: Store)
    requires Inv(s) && HasActive(s) && ActiveMatch(s).reviewedSelection.Some?
    ensures HasReviewed(s)
  {
    hide TurnRows, FactRows, AdviceRows, ActionRows, OutcomeRows, LaneInv, JobRows, ContentInv;
    assert SelectionBound(ActiveMatch(s), s.slot.value, s.selectionFacts, s.applied);
  }

  lemma ThreeFitsIff(s: Store, r: ResultEnvelope)
    requires HasReviewed(s)
    ensures ProposalFits(s, r) <==>
              && r.selectionPayload.Proposal?
              && ThreeOf(r.selectionPayload.three, r.selectionPayload.lead,
                         s.selectionFacts[ActiveMatch(s).reviewedSelection.value].selfTeam)
  {
    if r.selectionPayload.Proposal? && |r.selectionPayload.three| == 3 {
      var three := r.selectionPayload.three;
      assert three == [three[0], three[1], three[2]];
    }
  }

  lemma SelectionSnapshotIs(s: Store, r: ResultEnvelope)
    requires SelectionNow(s, r)
    ensures HasActive(s) && r.jobId < |s.jobs| && ActiveMatch(s).reviewedSelection.Some?
    ensures s.jobs[r.jobId].snapshot == SelectionSnapshot(ActiveMatch(s).reviewedSelection.value)
  {
  }

  lemma AcceptedSelectionEnds(s: Store, r: ResultEnvelope)
    requires SelectionNow(s, r) && HasReviewed(s)
    ensures r.jobId < |s.jobs|
    ensures var c := AcceptSelectionResult(s, r);
            if !ProposalFits(s, r) then c.Success? && EndsInvalid(s, c.value, r)
            else if SelectionAdviceKeyTaken(s.selectionAdvices, r.resultId, r.jobId)
              then c == Failure(IntegrityViolation)
            else c.Success? && EndsApplied(s, c.value, r, SelectionReady(s, r), WithProposal(s, r))
  {
    ThreeFitsIff(s, r);
    SelectionSnapshotIs(s, r);
    hide SelectionNow, ProposalFits, ThreeOf, SelectionAdviceKeyTaken;
  }

  /** How a Selection result ends; it is refused exactly where it would be applied and the advice's keys are taken. */
  lemma SelectionResultEnds(s: Store, r: ResultEnvelope)
    requires Inv(s)
    ensures var c := ApplySelectionResult(s, r);
            && (c.Success? ==> SelectionEnds(s, c.value, r))
            && (c.Failure? <==> SelectionNow(s, r) && ProposalFits(s, r) && ProposalKeyTaken(s, r))
  {
    hide Inv, AcceptSelectionResult, BindingFailure, ProposalFits, LatestJob, EndsApplied, EndsInvalid, StaleFor;
    MisroutedIsTrue(s, r, SelectionAdviceJob, None, ReviewedNow(s));
    if SelectionNow(s, r) {
      BoundIsFirst(s, r, SelectionAdviceJob);
      ReviewedIsThere(s);
      AcceptedSelectionEnds(s, r);
    }
    if r.jobId < |s.jobs| && s.jobs[r.jobId].jobType == SelectionAdviceJob {
      SelectionBinding(s, r);
    }
    hide SelectionNow;
  }

  // ---- the Turn Advice lane -----------------------------------------------------------------

  lemma BoardIsThere(s: Store)
    requires Inv(s) && HasActive(s) && ActiveMatch(s).state == TurnReviewed
    ensures HasBoard(s)
  {
    SelectionBehindTurn(s);
  }

  lemma TurnSnapshotIs(s: Store, r: ResultEnvelope)
    requires TurnNow(s, r)
    ensures HasActive(s) && r.jobId < |s.jobs| && ActiveMatch(s).reviewedBoard.Some?
    ensures s.jobs[r.jobId].snapshot == FactsSnapshot(ActiveMatch(s).reviewedBoard.value)
    ensures s.jobs[r.jobId].baseRevision == ActiveMatch(s).battleRevision && r.digest == s.jobs[r.jobId].digest
  {
  }

  /** The request rebuilt for the result is the canonical one of now. */
  lemma RebuiltIsNow(s: Store)
    requires HasBoard(s)
    ensures var x := ActiveMatch(s);
            TurnRequestOf(s, s.slot.value, x.reviewedBoard.value, x.battleRevision) == Success(RequestNow(s))
  {
  }

  lemma AnswerFitsIff(s: Store, r: ResultEnvelope)
    requires HasBoard(s)
    ensures AnswerFits(s, r) <==>
              && r.digest == RequestNow(s) && r.turnPayload.Body? && r.turnPayload.wellFormed
              && LegalIn(RequestNow(s).board, r.turnPayload.actionType, r.turnPayload.actionName)
  {
  }

  lemma AppendedAdvice(s: Store, r: ResultEnvelope, action: Action)
    requires HasBoard(s) && r.jobId < |s.jobs| && ActiveMatch(s).state == TurnReviewed
    ensures var x := ActiveMatch(s);
            var c := AppendTurnAdvice(s, s.slot.value, r, x.turn.value, x.reviewedBoard.value, action);
            if AdviceTaken(s, r) then c == Failure(IntegrityViolation)
            else c.Success? && EndsApplied(s, c.value, r, Advised(s, r), WithAdvice(s, r, action))
  {
  }

  lemma AcceptedTurnEnds(s: Store, r: ResultEnvelope)
    requires TurnNow(s, r) && HasBoard(s) && ActiveMatch(s).state == TurnReviewed
    ensures r.jobId < |s.jobs|
    ensures var c := AcceptTurnResult(s, r);
            var answer := Action(if r.turnPayload.Body? then r.turnPayload.actionType else Move,
                                 if r.turnPayload.Body? then r.turnPayload.actionName else "");
            if !AnswerFits(s, r) then c.Success? && EndsInvalid(s, c.value, r)
            else if AdviceTaken(s, r) then c == Failure(IntegrityViolation)
            else c.Success? && EndsApplied(s, c.value, r, Advised(s, r), WithAdvice(s, r, answer))
  {
    TurnSnapshotIs(s, r);
    RebuiltIsNow(s);
    AnswerFitsIff(s, r);
    if r.turnPayload.Body? {
      AppendedAdvice(s, r, Action(r.turnPayload.actionType, r.turnPayload.actionName));
    }
    hide TurnNow, AnswerFits, LegalIn, TurnRequestOf, RequestNow, AppendTurnAdvice, AdviceTaken, EndsApplied;
  }

  /** How a Turn Advice result ends; it is refused exactly where it would be applied and the advice's keys are taken. */
  lemma TurnResultEnds(s: Store, r: ResultEnvelope)
    requires Inv(s)
    ensures var c := ApplyTurnResult(s, r);
            && (c.Success? ==> TurnEnds(s, c.value, r))
            && (c.Failure? <==> TurnNow(s, r) && AnswerFits(s, r) && AdviceTaken(s, r))
  {
    hide Inv, AcceptTurnResult, BindingFailure, LatestJob, EndsApplied, EndsInvalid, StaleFor, AdviceTaken;
    MisroutedIsTrue(s, r, TurnAdviceJob, TurnNumberNow(s), BoardNow(s));
    if TurnNow(s, r) {
      BoundIsFirst(s, r, TurnAdviceJob);
      BoardIsThere(s);
      AcceptedTurnEnds(s, r);
    }
    if r.jobId < |s.jobs| && s.jobs[r.jobId].jobType == TurnAdviceJob {
      TurnBinding(s, r);
    }
    hide TurnNow, RequestNow;
  }

  // ---- the rich lane ------------------------------------------------------------------------

  lemma RichIsTurn(s: Store, r: ResultEnvelope)
    requires RichNow(s, r)
    ensures HasActive(s) && ActiveMatch(s).turn.Some? && SaysJob(s, r, TurnAdviceJob)
    ensures r.jobId < |s.jobs|
  {
  }

  lemma TurnJobHasNumber(s: Store, job: nat)
    requires Inv(s) && job < |s.jobs| && s.jobs[job].jobType == TurnAdviceJob
    ensures s.jobs[job].turnNumber.Some?
  {
    hide BattleInv, LaneInv, ContentInv;
    assert JobBound(s.jobs[job], s.sessions);
  }

  lemma RichJobHasStates(s: Store, r: ResultEnvelope)
    requires Inv(s) && RichNow(s, r)
    ensures r.jobId < |s.jobs| && HasStates(s, r.jobId)
  {
    hide BattleInv, LaneInv, ContentInv;
    assert JobBound(s.jobs[r.jobId], s.sessions);
    var x, state := ActiveMatch(s), StateNow(s).value;
    var k :| 0 <= k < |s.states| && s.states[k] == state;
    assert StateOf(s.states[k], s.slot.value, x.matchId, x.generation);
  }

  lemma NoStatesIff(s: Store, job: nat)
    requires job < |s.jobs|
    ensures var j := s.jobs[job];
            LatestState(s.states, j.session, j.matchId, j.generation).None? <==> !HasStates(s, job)
  {
    var j := s.jobs[job];
    var latest := LatestState(s.states, j.session, j.matchId, j.generation);
    if latest.Some? {
      var k :| 0 <= k < |s.states| && s.states[k] == latest.value;
      assert StateOf(s.states[k], j.session, j.matchId, j.generation);
    }
  }

  /** How a rich result ends; it is refused exactly where it would be applied and the advice's keys are taken. */
  lemma RichResultEnds(s: Store, r: ResultEnvelope, rebuilt: Option<Action>)
    requires Inv(s)
    ensures var c := ApplyRichTurnResult(s, r, rebuilt);
            && (c.Success? ==> RichEnds(s, c.value, r, rebuilt))
            && (c.Failure? <==> RichNow(s, r) && rebuilt.Some? && AdviceTaken(s, r))
  {
    hide Inv, AppendTurnAdvice, RichBindingFailure, LatestJob, LatestState, EndsApplied, StaleFor, AdviceTaken;
    hide HasStates;
    MisroutedIsTrue(s, r, TurnAdviceJob, TurnNumberNow(s), StateSnapshotNow(s));
    if RichNow(s, r) {
      RichIsTurn(s, r);
      BoundIsFirst(s, r, TurnAdviceJob);
      BoardIsThere(s);
      RichJobHasStates(s, r);
      if rebuilt.Some? {
        AppendedAdvice(s, r, rebuilt.value);
      }
    }
    if r.jobId < |s.jobs| && s.jobs[r.jobId].jobType == TurnAdviceJob {
      TurnJobHasNumber(s, r.jobId);
      NoStatesIff(s, r.jobId);
      RichBinding(s, r);
      if !HasStates(s, r.jobId) {
        NotRichIsTrue(s, r);
      }
    }
    hide RichNow;
  }

  lemma NotRichIsTrue(s: Store, r: ResultEnvelope)
    requires r.jobId < |s.jobs| && !HasStates(s, r.jobId)
    ensures StaleFor(s, r, TurnAdviceJob, TurnNumberNow(s), StateSnapshotNow(s), NotRichContract)
  {
  }
}
