/**
 Why a command is refused. The reason a caller is given is true of the input and of the rows as they are; the reasons
 that are not named here are never given in a repository any run reaches.
 */
module Refusals {
  import opened Basics
  import Text
  import opened TurnState
  import opened Records
  import opened Store
  import opened Commands
  import opened Invariant
  import opened Effects
  import opened Guarantees
  import opened Promises
  import opened Conditions
  import opened Results

  // ---- what each reason says ----------------------------------------------------------------

  predicate NotIn(s: Store, states: set<BattleState>) {
    HasActive(s) && ActiveMatch(s).state !in states
  }

  predicate InWrongState(s: Store, c: Command) {
    match c
    case CCommitExport(_, _, _) => NotIn(s, {MatchEnded})
    case CNewMatchAfterExport(_, _) => NotIn(s, {MatchExported})
    case CConfirmSelectionFacts(_, _, _) => NotIn(s, {SelectionOpen})
    case CRequestSelectionAdvice(_) => NotIn(s, {SelectionOpen})
    case CReserveSelectionAttempt(_) => NotIn(s, {SelectionOpen})
    case CApplySelection(_, _, _) => NotIn(s, {SelectionAdviceReady})
    case CStartTurnCapture => NotIn(s, {BattleReady})
    case CConfirmTurnFacts(_, _) => NotIn(s, {TurnCapturePending, TurnReviewed})
    case CRequestTurnAdvice(_) => NotIn(s, {TurnReviewed})
    case CRequestRichTurnAdvice(_, _) => NotIn(s, {TurnReviewed})
    case CRecordAction(_, _, _) => NotIn(s, {TurnReviewed})
    case CNextTurn => NotIn(s, {TurnRecorded})
    case CCommitNextTurn(_) => NotIn(s, {TurnRecorded})
    case _ => false
  }

  predicate RulesMissing(c: Command) {
    match c
    case CNewMatch(rules, _) => rules == None
    case CNewMatchAfterExport(rules, _) => rules == None
    case _ => false
  }

  /** The human did not confirm this kind of command. */
  predicate Unconfirmed(c: Command, e: Refusal) {
    match c
    case CAbortMatch(confirmed) => !confirmed && e == AbortConfirmationRequired
    case CEndMatch(_, confirmed) => !confirmed && e == OutcomeConfirmationRequired
    case CApplySelection(_, _, confirmed) => !confirmed && e == HumanApplyRequired
    case CConfirmTurnFacts(_, confirmed) => !confirmed && e == FactsConfirmationRequired
    case CRecordAction(_, confirmed, _) => !confirmed && e == ActionConfirmationRequired
    case _ => false
  }

  /** A job of the active match's lane has one of these statuses. */
  predicate LaneHas(s: Store, lane: JobType, statuses: set<JobStatus>) {
    && HasActive(s)
    && exists k :: 0 <= k < |s.jobs| && s.jobs[k].session == s.slot.value && s.jobs[k].jobType == lane
                   && s.jobs[k].status in statuses
  }

  predicate RoundReserved(s: Store) {
    && HasActive(s) && ActiveMatch(s).reviewedSelection.Some?
    && var x := ActiveMatch(s);
       SelectionKey(s.slot.value, x.matchId, x.generation, x.battleRevision, x.reviewedSelection.value)
         in s.selectionLedger
  }

  predicate SelectionBecause(s: Store, three: seq<Name>, lead: Name, e: Refusal) {
    match e
    case NotExactlyThree => |three| != 3
    case DuplicateSelection => Repeated(three)
    case OutsideReviewedTeam =>
      && HasReviewed(s)
      && exists n :: n in three && n !in s.selectionFacts[ActiveMatch(s).reviewedSelection.value].selfTeam
    case LeadNotSelected => lead !in three
    case _ => false
  }

  predicate DispatchBecause(s: Store, lane: JobType, job: nat, e: Refusal) {
    match e
    case MissingRow => job >= |s.jobs|
    case JobTypeNotExpected => job < |s.jobs| && s.jobs[job].jobType != lane
    case JobIdNotCurrentForDispatch =>
      && HasActive(s) && job < |s.jobs|
      && (s.jobs[job].session != s.slot.value
          || exists k :: job < k < |s.jobs| && s.jobs[k].session == s.slot.value && s.jobs[k].jobType == lane)
    case JobNotDispatchable => job < |s.jobs| && s.jobs[job].status != Queued
    case _ => false
  }

  predicate BoardBecause(input: FactsInput, three: seq<Name>, e: Refusal) {
    match e
    case ActiveOutsideSelection => Text.Strip(input.selfActive) !in three
    case SwitchOutsideSelection =>
      exists k :: 0 <= k < |input.switches| && Text.Strip(input.switches[k]) !in three
    case ActiveAmongSwitches =>
      exists k :: 0 <= k < |input.switches| && Text.Strip(input.switches[k]) == Text.Strip(input.selfActive)
    case InvalidTurnFacts =>
      || Text.Strip(input.selfActive) == "" || Text.Strip(input.opponentActive) == ""
      || !(1 <= |input.moves| <= 4) || !NamesFit(input.moves) || !NamesFit(input.switches)
    case _ => false
  }

  predicate RichBecause(s: Store, input: ActionInput, done: RichCompletion, e: Refusal)
    requires HasActive(s)
  {
    match e
    case CompletionTurnMismatch => Some(done.identity.turnId) != ActiveMatch(s).turn
    case CompletionDeltaMismatch => done.delta.identity != done.identity
    case BasedOnStateMissing => forall k :: 0 <= k < |s.states| ==> s.states[k].stateId != done.delta.basedOn
    case CompletionStateMismatch =>
      exists k :: && 0 <= k < |s.states| && s.states[k].stateId == done.delta.basedOn
                  && s.states[k].identity != done.identity
    case InvalidOpponentName => input.opponentName.Some? && Text.Strip(input.opponentName.value) == "UNKNOWN"
    case IntegrityViolation =>
      || (exists k :: 0 <= k < |s.deltas| && s.deltas[k].deltaId == done.delta.deltaId)
      || (exists k :: && 0 <= k < |s.completions|
                      && (s.completions[k].transaction == done.transaction
                          || Some(s.completions[k].identity.turnId) == ActiveMatch(s).turn))
    case _ => false
  }

  predicate ActionBecause(s: Store, input: ActionInput, rich: Option<RichCompletion>, e: Refusal) {
    || (e == InvalidOpponentName && !OpponentFits(input))
    || (e == TurnAdviceRequired && HasActive(s) && ActiveMatch(s).turnAdvice == None)
    || (e == ActionNotLegal && HasBoard(s) && NotListed(s, input))
    || (rich.Some? && HasActive(s) && RichBecause(s, input, rich.value, e))
  }

  /** The reviewed board does not list what the human gave. */
  predicate NotListed(s: Store, input: ActionInput)
    requires HasBoard(s)
  {
    var f := s.facts[ActiveMatch(s).reviewedBoard.value];
    Text.Strip(input.name) !in (if input.actionType == Move then f.moves else f.switches)
  }

  predicate DraftIdUsed(s: Store, plan: NextTurnPlan) {
    exists k :: k in s.drafts && s.drafts[k].draftId == plan.draft.draftId
  }

  /** The match, its latest state and that state's last delta are not all those the plan was made from. */
  predicate PlanIsStale(s: Store, plan: NextTurnPlan)
    requires HasActive(s)
  {
    var x := ActiveMatch(s);
    || s.slot != Some(plan.session) || x.matchId != plan.matchId || x.generation != plan.generation
    || x.turn != Some(plan.turn) || x.battleRevision != plan.revision
    || LatestState(s.states, s.slot.value, x.matchId, x.generation) != Some(plan.confirmed)
    || LastDeltaOn(s.deltas, plan.confirmed.stateId) != Some(plan.delta)
  }

  predicate PlanBecause(s: Store, plan: NextTurnPlan, e: Refusal) {
    match e
    case Phase1BindingStale => HasActive(s) && PlanIsStale(s, plan)
    case NextTurnRevisionMismatch => plan.draft.identity.battleRevision != plan.revision + 1
    case IntegrityViolation => DraftIdUsed(s, plan)
    case _ => false
  }

  predicate LaneBecause(s: Store, lane: JobType, e: Refusal) {
    match e
    case ReviewedSelectionRequired => HasActive(s) && ActiveMatch(s).reviewedSelection == None
    case ProviderRequestPending => LaneHas(s, lane, {Queued, InFlight})
    case ProviderDeliveryUnknown => LaneHas(s, lane, {DeliveryUnknown})
    case _ => false
  }

  /** A Turn Advice job of the match waits, or one was made for this snapshot of this turn before. */
  predicate RoundBecause(s: Store, snapshot: SnapshotId, e: Refusal)
    requires HasActive(s) && ActiveMatch(s).turn.Some?
  {
    match e
    case DenyPendingJob => LaneHas(s, TurnAdviceJob, {Queued, InFlight})
    case DenyAttemptConsumed =>
      exists k :: && 0 <= k < |s.jobs| && s.jobs[k].session == s.slot.value && s.jobs[k].jobType == TurnAdviceJob
                  && s.jobs[k].turnNumber == Some(ActiveMatch(s).turn.value.number) && s.jobs[k].snapshot == snapshot
    case _ => false
  }

  /** The reasons that many commands share. */
  predicate Generally(s: Store, c: Command, e: Refusal) {
    || (e == NoActiveMatch && s.slot == None)
    || (e == WrongState && InWrongState(s, c))
    || (e == RulesSnapshotUnavailable && RulesMissing(c))
    || Unconfirmed(c, e)
  }

  predicate MatchBecause(s: Store, c: Command, e: Refusal) {
    match e
    case ActiveMatchExists => c.CNewMatch? && s.slot.Some?
    case AbortNotAllowed => c.CAbortMatch? && HasActive(s) && ActiveMatch(s).state in {MatchEnded, MatchExported}
    case OutcomeAlreadySet => c.CEndMatch? && HasActive(s) && s.slot.value in s.outcomes
    case EndNotAllowed => c.CEndMatch? && NotIn(s, {BattleReady, TurnRecorded})
    case MatchChangedDuringExport => c.CCommitExport? && s.slot != Some(c.session)
    case SelfTeamBuildMismatch => c.CConfirmSelectionFacts? && !TeamsFit(c.selfTeam, c.opponentTeam, c.build)
    case _ => false
  }

  predicate SelectionJobBecause(s: Store, c: Command, e: Refusal) {
    || LaneBecause(s, SelectionAdviceJob, e)
    || (c.CReserveSelectionAttempt? && e == SelectionAttemptConsumed && RoundReserved(s) && !MayReserve(s))
  }

  predicate AttemptBecause(s: Store, c: Command, e: Refusal) {
    match c
    case CStartAttempt(job, ordinal) => e == IntegrityViolation && !MayStart(s, job, ordinal)
    case CFinishAttempt(job, ordinal, _, _) => e == AttemptNotStarted && !MayFinish(s, job, ordinal)
    case CAppendConfirmedState(state) => e == IntegrityViolation && !MayAppend(s, state)
    case _ => false
  }

  predicate FactsBecause(s: Store, input: FactsInput, e: Refusal) {
    && HasActive(s) && ActiveMatch(s).applied.Some? && ActiveMatch(s).applied.value < |s.applied|
    && BoardBecause(input, s.applied[ActiveMatch(s).applied.value].three, e)
  }

  predicate TurnJobBecause(s: Store, e: Refusal) {
    || (e == TurnAdviceExists && HasActive(s) && ActiveMatch(s).turnAdvice.Some?)
    || LaneBecause(s, TurnAdviceJob, e)
    || (HasBoard(s) && RoundBecause(s, FactsSnapshot(ActiveMatch(s).reviewedBoard.value), e))
  }

  predicate RichJobBecause(s: Store, gate: Option<nat>, e: Refusal) {
    || (e == NoConfirmedState && HasActive(s) && StateNow(s) == None)
    || (e == StateNotCurrent && HasBoard(s) && !StateIsCurrent(s))
    || (e == RichGateDenied && gate == None)
    || (HasBoard(s) && StateNow(s).Some? && RoundBecause(s, StateSnapshot(StateNow(s).value.stateId), e))
  }

  predicate ResultBecause(s: Store, c: Command, e: Refusal) {
    match c
    case CApplySelectionResult(r) => e == IntegrityViolation && ProposalKeyTaken(s, r)
    case CApplyTurnResult(r) => e == IntegrityViolation && AdviceTaken(s, r)
    case CApplyRichTurnResult(r, _) => e == IntegrityViolation && AdviceTaken(s, r)
    case _ => false
  }

  /** The reason is one this kind of command can give, and it is true. */
  predicate Because(s: Store, c: Command, e: Refusal) {
    || Generally(s, c, e) || MatchBecause(s, c, e) || AttemptBecause(s, c, e) || ResultBecause(s, c, e)
    || match c
       case CRequestSelectionAdvice(_) => SelectionJobBecause(s, c, e)
       case CReserveSelectionAttempt(_) => SelectionJobBecause(s, c, e)
       case CMarkDispatched(lane, job) => DispatchBecause(s, lane, job, e)
       case CApplySelection(three, lead, _) => SelectionBecause(s, three, lead, e)
       case CConfirmTurnFacts(input, _) => FactsBecause(s, input, e)
       case CRequestTurnAdvice(_) => TurnJobBecause(s, e)
       case CRequestRichTurnAdvice(_, gate) => RichJobBecause(s, gate, e)
       case CRecordAction(input, _, rich) => ActionBecause(s, input, rich, e)
       case CCommitNextTurn(plan) => PlanBecause(s, plan, e)
       case _ => false
  }

  // ---- it is true ---------------------------------------------------------------------------

  lemma SessionRefused(s: Store, state: BattleState)
    requires Inv(s)
    ensures var r := SessionIn(s.sessions, s.slot, state);
            r.Failure? ==> (r.error == NoActiveMatch && s.slot == None) || (r.error == WrongState && NotIn(s, {state}))
  {
    hide Inv, Shape;
    SlotIsRow(s);
  }

  lemma OpenRefused(s: Store, rules: Option<RulesPin>, intel: IntelPin)
    requires Inv(s)
    ensures var c, d := NewMatch(s, rules, intel), CNewMatch(rules, intel);
            c.Failure? ==> Generally(s, d, c.error) || MatchBecause(s, d, c.error)
    ensures var c, d := NewMatchAfterExport(s, rules, intel), CNewMatchAfterExport(rules, intel);
            c.Failure? ==> Generally(s, d, c.error)
  {
    hide Inv, InsertSession, Shape;
    SlotIsRow(s);
    if HasActive(s) {
      ActiveOutcome(s);
    }
  }

  lemma EndRefused(s: Store, outcome: MatchOutcome, confirmed: bool)
    requires Inv(s)
    ensures var c, d := EndMatch(s, outcome, confirmed), CEndMatch(outcome, confirmed);
            c.Failure? ==> Generally(s, d, c.error) || MatchBecause(s, d, c.error)
    ensures var c, d := AbortMatch(s, confirmed), CAbortMatch(confirmed);
            c.Failure? ==> Generally(s, d, c.error) || MatchBecause(s, d, c.error)
    ensures UpdateMetadata(s).Failure? ==> Generally(s, CUpdateMetadata, UpdateMetadata(s).error)
  {
    hide Inv, Shape;
    SlotIsRow(s);
  }

  lemma ExportRefused(s: Store, session: nat, file: ExportPayload, onDisk: Option<ExportPayload>)
    requires Inv(s)
    ensures var c, d := CommitExport(s, session, file, onDisk), CCommitExport(session, file, onDisk);
            c.Failure? ==> Generally(s, d, c.error) || MatchBecause(s, d, c.error)
  {
    hide Inv, VerifyExport, Shape;
    SlotIsRow(s);
    if HasActive(s) {
      ActiveOutcome(s);
    }
  }

  lemma TeamsRefused(s: Store, own: seq<Name>, opponent: seq<Name>, build: Option<TeamBuild>)
    requires Inv(s)
    ensures var c, d := ConfirmSelectionFacts(s, own, opponent, build), CConfirmSelectionFacts(own, opponent, build);
            c.Failure? ==> Generally(s, d, c.error) || MatchBecause(s, d, c.error)
  {
    hide Inv, Shape;
    assert TeamsFit(own, opponent, build) <==> ValidTeams(own, opponent, build);
    hide TeamsFit, ValidTeams;
    SlotIsRow(s);
  }

  lemma ThreeRefused(s: Store, three: seq<Name>, lead: Name, confirmed: bool)
    requires Inv(s)
    ensures var c, d := ApplySelection(s, three, lead, confirmed), CApplySelection(three, lead, confirmed);
            c.Failure? ==> Generally(s, d, c.error) || SelectionBecause(s, three, lead, c.error)
  {
    hide Inv, Without;
    assert Text.Distinct(three) <==> !Repeated(three);
    hide Repeated, Text.Distinct;
    SlotIsRow(s);
    if HasActive(s) {
      ActiveSelection(s);
    }
  }

  lemma WaitingShows(s: Store, lane: JobType)
    requires HasActive(s)
    ensures var latest := LatestJob(s.jobs, s.slot.value, lane);
            && (GuardProvider(s.jobs, latest) == Fail(ProviderRequestPending) ==> LaneHas(s, lane, {Queued, InFlight}))
            && (GuardProvider(s.jobs, latest) == Fail(ProviderDeliveryUnknown) ==> LaneHas(s, lane, {DeliveryUnknown}))
            && (latest.Some? && IsPending(s.jobs[latest.value].status) ==> LaneHas(s, lane, {Queued, InFlight}))
  {
    var latest := LatestJob(s.jobs, s.slot.value, lane);
    if latest.Some? {
      assert s.jobs[latest.value].session == s.slot.value && s.jobs[latest.value].jobType == lane;
    }
  }

  lemma SelectionJobRefused(s: Store, command: Id)
    requires Inv(s)
    ensures var c, d := RequestSelectionAdvice(s, command), CRequestSelectionAdvice(command);
            c.Failure? ==> Generally(s, d, c.error) || SelectionJobBecause(s, d, c.error)
  {
    hide Inv, LaneHas, SelectionJob, LatestJob, Shape;
    SlotIsRow(s);
    if HasActive(s) {
      ActiveSelection(s);
      WaitingShows(s, SelectionAdviceJob);
    }
  }

  lemma ReserveRefused(s: Store, command: Id)
    requires Inv(s)
    ensures var c, d := ReserveSelectionAttempt(s, command), CReserveSelectionAttempt(command);
            c.Failure? ==> Generally(s, d, c.error) || SelectionJobBecause(s, d, c.error)
  {
    hide Inv, LaneHas, SelectionJob, LatestJob, Shape, MayReserve, EndedTransiently;
    ReserveIff(s, command);
    SlotIsRow(s);
    if HasActive(s) {
      ActiveSelection(s);
      WaitingShows(s, SelectionAdviceJob);
    }
  }

  lemma AttemptsRefused(s: Store, c: Command)
    requires c.CStartAttempt? || c.CFinishAttempt? || c.CAppendConfirmedState?
    ensures Execute(s, c).Failure? ==> AttemptBecause(s, c, Execute(s, c).error)
  {
    match c {
      case CStartAttempt(job, ordinal) => AttemptsIff(s, job, ordinal, true, NoReason);
      case CFinishAttempt(job, ordinal, succeeded, reason) => AttemptsIff(s, job, ordinal, succeeded, reason);
      case CAppendConfirmedState(state) =>
        hide MayAppend, SameStateKey, PredecessorPresent;
        AppendIff(s, state);
    }
  }

  lemma DispatchRefused(s: Store, lane: JobType, job: nat)
    requires Inv(s)
    ensures var c := MarkDispatched(s, lane, job);
            c.Failure? ==> Generally(s, CMarkDispatched(lane, job), c.error) || DispatchBecause(s, lane, job, c.error)
  {
    hide Inv, Shape;
    SlotIsRow(s);
    if HasActive(s) && job < |s.jobs| && s.jobs[job].jobType == lane && s.jobs[job].session == s.slot.value {
      var latest := LatestJob(s.jobs, s.slot.value, lane);
      assert IsJobOf(s.jobs[job], s.slot.value, lane);
      if latest != Some(job) {
        assert latest.Some? && job < latest.value && IsJobOf(s.jobs[latest.value], s.slot.value, lane);
      }
    }
    hide LatestJob;
  }

  lemma TurnStartRefused(s: Store)
    requires Inv(s)
    ensures StartTurnCapture(s).Failure? ==> Generally(s, CStartTurnCapture, StartTurnCapture(s).error)
    ensures NextTurn(s).Failure? ==> Generally(s, CNextTurn, NextTurn(s).error)
  {
    hide Inv, SessionIn, ActionFor, AppendTurn, NextTurn, StartTurnCapture, Shape;
    SessionRefused(s, BattleReady);
    SessionRefused(s, TurnRecorded);
    StartTurnIff(s);
    NextTurnIff(s);
    TurnStartUnfolds(s);
  }

  /** In the right state neither is refused, so the only refusals are those of the state. */
  lemma TurnStartUnfolds(s: Store)
    ensures var r := SessionIn(s.sessions, s.slot, BattleReady);
            r.Failure? ==> StartTurnCapture(s) == Failure(r.error)
    ensures var r := SessionIn(s.sessions, s.slot, TurnRecorded);
            r.Failure? ==> NextTurn(s) == Failure(r.error)
  {
    hide SessionIn, AppendTurn;
  }

  lemma BoardRefused(turn: TurnId, input: FactsInput, previous: Option<nat>, three: seq<Name>)
    requires turn.number >= 1
    ensures var e := FactsRefusal(FactsRow(turn, input, previous), three);
            e.Some? ==> BoardBecause(input, three, e.value)
  {
    hide NamesFit, NoBlank, Text.Distinct, Text.Strip, Text.IsBlank;
    var row := FactsRow(turn, input, previous);
    NamesFitIff(input.moves);
    NamesFitIff(input.switches);
    StrippedTwice(input.selfActive);
    StrippedTwice(input.opponentActive);
    if row.selfActive in row.switches {
      var k :| 0 <= k < |row.switches| && row.switches[k] == row.selfActive;
      assert Text.Strip(input.switches[k]) == Text.Strip(input.selfActive);
    }
    if exists k :: 0 <= k < |row.switches| && row.switches[k] !in three {
      var k :| 0 <= k < |row.switches| && row.switches[k] !in three;
      assert Text.Strip(input.switches[k]) !in three;
    }
  }

  lemma FactsRefused(s: Store, input: FactsInput, confirmed: bool)
    requires Inv(s)
    ensures var c, d := ConfirmTurnFacts(s, input, confirmed), CConfirmTurnFacts(input, confirmed);
            c.Failure? ==> Generally(s, d, c.error) || FactsBecause(s, input, c.error)
  {
    hide Inv, FactsRefusal, FactsRow, BoardBecause, CancelPending;
    SlotIsRow(s);
    if HasActive(s) {
      ActiveTurn(s);
      ActiveSelection(s);
      var x := ActiveMatch(s);
      if x.turn.Some? && x.applied.Some? {
        BoardRefused(x.turn.value, input, x.reviewedBoard, s.applied[x.applied.value].three);
      }
    }
    hide ActionFor;
  }

  lemma RoundRefused(s: Store, command: Id, snapshot: SnapshotId, digest: Request)
    requires Inv(s) && HasActive(s) && ActiveMatch(s).turn.Some?
    ensures var c := DispatchTurnJob(s, s.slot.value, ActiveMatch(s).turn.value, command, snapshot, digest);
            c.Failure? ==> RoundBecause(s, snapshot, c.error)
  {
    hide Inv, LaneHas, LatestJob;
    var x := ActiveMatch(s);
    WaitingShows(s, TurnAdviceJob);
    if TurnAttemptReserved(s.turnLedger, s.slot.value, x.matchId, x.generation, x.turn.value.number, snapshot) {
      var m :| 0 <= m < |s.turnLedger|
               && SameRound(s.turnLedger[m], s.slot.value, x.matchId, x.generation, x.turn.value.number, snapshot);
      RowsHaveTurnJobs(s, m);
      var k := s.turnLedger[m].job;
      assert s.jobs[k].session == s.slot.value && s.jobs[k].jobType == TurnAdviceJob;
    }
    hide TurnJob;
  }

  lemma TurnJobRefused(s: Store, command: Id)
    requires Inv(s)
    ensures var c := RequestTurnAdvice(s, command);
            c.Failure? ==> Generally(s, CRequestTurnAdvice(command), c.error) || TurnJobBecause(s, c.error)
  {
    hide Inv, LaneHas, LatestJob, DispatchTurnJob, RoundBecause, TurnRequestOf, RequestNow;
    SlotIsRow(s);
    if HasActive(s) {
      ActiveTurn(s);
      SelectionBehindTurn(s);
      WaitingShows(s, TurnAdviceJob);
      if HasBoard(s) {
        RequestIsReady(s);
        RoundRefused(s, command, FactsSnapshot(ActiveMatch(s).reviewedBoard.value), RequestNow(s));
      }
    }
    hide ActionFor;
  }

  lemma RichJobHere(s: Store, command: Id, gate: Option<nat>)
    requires Inv(s) && ActiveIn(s, TurnReviewed)
    ensures var c := RequestRichTurnAdvice(s, command, gate); c.Failure? ==> RichJobBecause(s, gate, c.error)
  {
    hide Inv, LatestState, DispatchTurnJob, RoundBecause, ActionFor, Shape;
    var x, state := ActiveMatch(s), LatestStateOf(s, s.slot.value);
    ActiveTurn(s);
    SelectionBehindTurn(s);
    if state.Some? && gate.Some? {
      RoundRefused(s, command, StateSnapshot(state.value.stateId),
                   RichRequest(s.slot.value, x.matchId, x.generation, x.battleRevision, state.value.stateId,
                               gate.value));
    }
  }

  lemma RichJobElsewhere(s: Store, command: Id, gate: Option<nat>)
    ensures var r := SessionIn(s.sessions, s.slot, TurnReviewed);
            r.Failure? ==> RequestRichTurnAdvice(s, command, gate) == Failure(r.error)
  {
    hide LatestState, DispatchTurnJob;
  }

  lemma RichJobRefused(s: Store, command: Id, gate: Option<nat>)
    requires Inv(s)
    ensures var c := RequestRichTurnAdvice(s, command, gate);
            c.Failure? ==>
              Generally(s, CRequestRichTurnAdvice(command, gate), c.error) || RichJobBecause(s, gate, c.error)
  {
    hide Inv, RequestRichTurnAdvice, RichJobBecause, Shape;
    SessionRefused(s, TurnReviewed);
    RichJobElsewhere(s, command, gate);
    if ActiveIn(s, TurnReviewed) {
      RichJobHere(s, command, gate);
    }
  }

  lemma CheckRefused(s: Store, input: ActionInput, done: RichCompletion, turn: TurnId)
    requires HasActive(s) && ActiveMatch(s).turn == Some(turn)
    ensures var c := CheckCompletion(s, turn, done); c.Fail? ==> RichBecause(s, input, done, c.error)
  {
    hide Text.Strip;
    var state := StateRow(s.states, done.delta.basedOn);
    if state.Some? {
      var k :| 0 <= k < |s.states| && s.states[k] == state.value;
    }
    hide StateRow;
  }

  lemma CompletionRefused(s: Store, input: ActionInput, done: RichCompletion, action: RecordedAction)
    requires HasActive(s) && ActiveMatch(s).turn == Some(action.turn)
    requires action.opponent == OpponentAction(input) && CheckCompletion(s, action.turn, done).Pass?
    ensures var c := AppendCompletion(s, action, Some(done)); c.Failure? ==> RichBecause(s, input, done, c.error)
  {
    hide Text.Strip, StateRow;
  }

  lemma ListedIff(s: Store, input: ActionInput)
    requires HasBoard(s)
    ensures var f := s.facts[ActiveMatch(s).reviewedBoard.value];
            LegalIn(f, input.actionType, Text.Strip(input.name)) <==> !NotListed(s, input)
  {
    hide Text.Strip;
  }

  lemma TakeRefused(s: Store, i: nat, action: RecordedAction, rich: Option<RichCompletion>)
    requires i < |s.sessions|
    ensures var c := TakeAction(s, i, action, rich);
            c.Failure? ==> AppendCompletion(s, action, rich) == Failure(c.error)
  {
    hide AppendCompletion;
  }

  /** The checks of the turn itself, for a confirmed action whose opponent half fits. */
  lemma ActionHere(s: Store, input: ActionInput, rich: Option<RichCompletion>)
    requires Inv(s) && ActiveIn(s, TurnReviewed) && OpponentFits(input)
    ensures var c := RecordAction(s, input, true, rich); c.Failure? ==> ActionBecause(s, input, rich, c.error)
  {
    hide Inv, Text.Strip, Text.IsBlank, ActionFor, ValidTurnFacts, CheckCompletion, AppendCompletion, RichBecause;
    hide OpponentFits, TakeAction, OpponentAction, LegalIn, NotListed, Shape;
    OpponentFitsIff(input);
    ActiveTurn(s);
    SelectionBehindTurn(s);
    ActiveBoard(s);
    var x := ActiveMatch(s);
    var f := s.facts[x.reviewedBoard.value];
    var own := Action(input.actionType, Text.Strip(input.name));
    var action := RecordedAction(x.turn.value, own, OpponentAction(input), input.order);
    ListedIff(s, input);
    if LegalIn(f, input.actionType, own.name) {
      ListedIsNamed(f, input.actionType, own.name);
    }
    TakeRefused(s, s.slot.value, action, rich);
    if rich.Some? {
      CheckRefused(s, input, rich.value, x.turn.value);
      if CheckCompletion(s, x.turn.value, rich.value).Pass? {
        CompletionRefused(s, input, rich.value, action);
      }
    } else {
      NoCompletion(s, action);
    }
  }

  lemma ActionElsewhere(s: Store, input: ActionInput, confirmed: bool, rich: Option<RichCompletion>)
    ensures var c, r := RecordAction(s, input, confirmed, rich), SessionIn(s.sessions, s.slot, TurnReviewed);
            && (!confirmed ==> c == Failure(ActionConfirmationRequired))
            && (confirmed && !OpponentFits(input) ==> c == Failure(InvalidOpponentName))
            && (confirmed && OpponentFits(input) && r.Failure? ==> c == Failure(r.error))
  {
    hide Text.Strip, Text.IsBlank, LegalIn, CheckCompletion, TakeAction, ActionFor, OpponentFits;
    OpponentFitsIff(input);
  }

  lemma ActionRefused(s: Store, input: ActionInput, confirmed: bool, rich: Option<RichCompletion>)
    requires Inv(s)
    ensures var c, d := RecordAction(s, input, confirmed, rich), CRecordAction(input, confirmed, rich);
            c.Failure? ==> Generally(s, d, c.error) || ActionBecause(s, input, rich, c.error)
  {
    hide Inv, RecordAction, OpponentFits, RichBecause, NotListed, Shape;
    ActionElsewhere(s, input, confirmed, rich);
    SessionRefused(s, TurnReviewed);
    if confirmed && OpponentFits(input) && ActiveIn(s, TurnReviewed) {
      ActionHere(s, input, rich);
    }
  }

  lemma TurnAppends(s: Store, i: nat, number: nat)
    requires i < |s.sessions| && TurnId(i, number) !in s.turns
    ensures AppendTurn(s, i, number).Success?
    ensures i < |AppendTurn(s, i, number).value.sessions|
    ensures AppendTurn(s, i, number).value.sessions[i].battleRevision == s.sessions[i].battleRevision + 1
  {
  }

  lemma DraftTaken(s: Store, plan: NextTurnPlan)
    ensures var i := plan.draft.identity;
            DraftIdTaken(s.drafts, DraftKey(i.session, i.turnId, i.battleRevision), plan.draft.draftId) ==>
              DraftIdUsed(s, plan)
  {
  }

  predicate PlansHere(s: Store, plan: NextTurnPlan) {
    ActiveIn(s, TurnRecorded) && s.slot == Some(plan.session) && ActiveMatch(s).turn == Some(plan.turn)
  }

  lemma PlanElsewhere(s: Store, plan: NextTurnPlan)
    requires !PlansHere(s, plan)
    ensures var c, r := CommitNextTurn(s, plan), SessionIn(s.sessions, s.slot, TurnRecorded);
            if r.Failure? then c == Failure(r.error) else c == Failure(Phase1BindingStale)
  {
    hide LatestState, LastDeltaOn, AppendTurn, DraftIdTaken;
  }

  lemma PlanIsFresh(s: Store, plan: NextTurnPlan)
    requires PlansHere(s, plan) && !PlanIsStale(s, plan)
    ensures var x := ActiveMatch(s);
            && x.matchId == plan.matchId && x.generation == plan.generation && x.battleRevision == plan.revision
            && LatestStateOf(s, plan.session) == Some(plan.confirmed)
            && LastDeltaOn(s.deltas, plan.confirmed.stateId) == Some(plan.delta)
  {
    hide LatestState, LastDeltaOn;
  }

  lemma StalePlanHere(s: Store, plan: NextTurnPlan)
    requires PlansHere(s, plan) && PlanIsStale(s, plan) && plan.turn in s.turns
    ensures CommitNextTurn(s, plan) == Failure(Phase1BindingStale)
  {
    hide LatestState, LastDeltaOn, AppendTurn, DraftIdTaken;
  }

  lemma FreshPlanHere(s: Store, plan: NextTurnPlan)
    requires PlansHere(s, plan) && !PlanIsStale(s, plan) && plan.turn in s.turns
    requires TurnId(plan.session, plan.turn.number + 1) !in s.turns
    ensures var c := CommitNextTurn(s, plan); c.Failure? ==> PlanBecause(s, plan, c.error)
  {
    hide LatestState, LastDeltaOn, AppendTurn, DraftIdTaken, DraftIdUsed;
    PlanIsFresh(s, plan);
    hide PlanIsStale;
    DraftTaken(s, plan);
    TurnAppends(s, plan.session, plan.turn.number + 1);
  }

  lemma PlanRefused(s: Store, plan: NextTurnPlan)
    requires Inv(s)
    ensures var c := CommitNextTurn(s, plan);
            c.Failure? ==> Generally(s, CCommitNextTurn(plan), c.error) || PlanBecause(s, plan, c.error)
  {
    hide Inv, CommitNextTurn, ActionFor, Shape, LatestState, LastDeltaOn, DraftIdUsed;
    if PlansHere(s, plan) {
      ActiveTurn(s);
      if PlanIsStale(s, plan) {
        StalePlanHere(s, plan);
      } else {
        FreshPlanHere(s, plan);
      }
    } else {
      SessionRefused(s, TurnRecorded);
      PlanElsewhere(s, plan);
    }
  }

  lemma ProposalRefused(s: Store, r: ResultEnvelope)
    requires Inv(s)
    ensures var c := ApplySelectionResult(s, r);
            c.Failure? ==> ResultBecause(s, CApplySelectionResult(r), c.error)
  {
    hide Inv, ProposalKeyTaken, ProposalFits, SelectionNow, SelectionEnds, BindingFailure, ThreeOf;
    hide SelectionAdviceKeyTaken;
    SelectionResultEnds(s, r);
  }

  lemma AnswerRefused(s: Store, r: ResultEnvelope)
    requires Inv(s)
    ensures var c := ApplyTurnResult(s, r); c.Failure? ==> ResultBecause(s, CApplyTurnResult(r), c.error)
  {
    hide Inv, AdviceTaken, AnswerFits, TurnNow, TurnEnds, BindingFailure, TurnRequestOf, LegalIn, AdviceKeyTaken;
    TurnResultEnds(s, r);
  }

  lemma RichRefused(s: Store, r: ResultEnvelope, rebuilt: Option<Action>)
    requires Inv(s)
    ensures var c := ApplyRichTurnResult(s, r, rebuilt);
            c.Failure? ==> ResultBecause(s, CApplyRichTurnResult(r, rebuilt), c.error)
  {
    hide Inv, AdviceTaken, RichNow, RichEnds, RichBindingFailure, AdviceKeyTaken, LatestState;
    RichResultEnds(s, r, rebuilt);
  }

  // ---- of every command ---------------------------------------------------------------------

  lemma MatchRefused(s: Store, c: Command)
    requires Inv(s) && Execute(s, c).Failure?
    requires c.CNewMatch? || c.CAbortMatch? || c.CUpdateMetadata? || c.CEndMatch? || c.CCommitExport?
             || c.CNewMatchAfterExport? || c.CConfirmSelectionFacts? || c.CStartTurnCapture? || c.CNextTurn?
    ensures Because(s, c, Execute(s, c).error)
  {
    hide Inv, Generally, MatchBecause, NewMatch, AbortMatch, UpdateMetadata, EndMatch, CommitExport;
    hide NewMatchAfterExport, ConfirmSelectionFacts, StartTurnCapture, NextTurn;
    match c {
      case CNewMatch(rules, intel) => OpenRefused(s, rules, intel);
      case CNewMatchAfterExport(rules, intel) => OpenRefused(s, rules, intel);
      case CAbortMatch(confirmed) => EndRefused(s, Win, confirmed);
      case CUpdateMetadata => EndRefused(s, Win, true);
      case CEndMatch(outcome, confirmed) => EndRefused(s, outcome, confirmed);
      case CCommitExport(session, file, onDisk) => ExportRefused(s, session, file, onDisk);
      case CConfirmSelectionFacts(own, opponent, build) => TeamsRefused(s, own, opponent, build);
      case CStartTurnCapture => TurnStartRefused(s);
      case CNextTurn => TurnStartRefused(s);
    }
  }

  lemma LaneRefused(s: Store, c: Command)
    requires Inv(s) && Execute(s, c).Failure?
    requires c.CRequestSelectionAdvice? || c.CReserveSelectionAttempt? || c.CMarkDispatched? || c.CStartAttempt?
             || c.CFinishAttempt? || c.CAppendConfirmedState? || c.CApplySelectionResult? || c.CApplyTurnResult?
             || c.CApplyRichTurnResult?
    ensures Because(s, c, Execute(s, c).error)
  {
    hide Inv, Generally, SelectionJobBecause, DispatchBecause, AttemptBecause, ResultBecause, RequestSelectionAdvice;
    hide ReserveSelectionAttempt, MarkDispatched, StartAttempt, FinishAttempt, AppendConfirmedState;
    hide ApplySelectionResult, ApplyTurnResult, ApplyRichTurnResult;
    match c {
      case CRequestSelectionAdvice(command) => SelectionJobRefused(s, command);
      case CReserveSelectionAttempt(command) => ReserveRefused(s, command);
      case CMarkDispatched(lane, job) => DispatchRefused(s, lane, job);
      case CApplySelectionResult(r) => ProposalRefused(s, r);
      case CApplyTurnResult(r) => AnswerRefused(s, r);
      case CApplyRichTurnResult(r, rebuilt) => RichRefused(s, r, rebuilt);
      case _ => AttemptsRefused(s, c);
    }
  }

  lemma PlayRefused(s: Store, c: Command)
    requires Inv(s) && Execute(s, c).Failure?
    requires c.CApplySelection? || c.CConfirmTurnFacts? || c.CRequestTurnAdvice? || c.CRequestRichTurnAdvice?
             || c.CRecordAction? || c.CCommitNextTurn?
    ensures Because(s, c, Execute(s, c).error)
  {
    hide Inv, Generally, SelectionBecause, FactsBecause, TurnJobBecause, RichJobBecause, ActionBecause, PlanBecause;
    hide ApplySelection, ConfirmTurnFacts, RequestTurnAdvice, RequestRichTurnAdvice, RecordAction, CommitNextTurn;
    match c {
      case CApplySelection(three, lead, confirmed) => ThreeRefused(s, three, lead, confirmed);
      case CConfirmTurnFacts(input, confirmed) => FactsRefused(s, input, confirmed);
      case CRequestTurnAdvice(command) => TurnJobRefused(s, command);
      case CRequestRichTurnAdvice(command, gate) => RichJobRefused(s, command, gate);
      case CRecordAction(input, confirmed, rich) => ActionRefused(s, input, confirmed, rich);
      case CCommitNextTurn(plan) => PlanRefused(s, plan);
    }
  }

  lemma NeverRefused(s: Store, c: Command)
    requires c.CFailJob? || c.CRecoverAfterRestart?
    ensures Execute(s, c).Success?
  {
  }

  /** In every state a run reaches, a refused command is told a reason that is true. */
  lemma RefusalIsTrue(s: Store, c: Command)
    requires Reachable(s) && Execute(s, c).Failure?
    ensures Because(s, c, Execute(s, c).error)
  {
    hide Reachable, Inv, Execute, Because;
    ReachableIsSound(s);
    if c.CFailJob? || c.CRecoverAfterRestart? {
      NeverRefused(s, c);
    } else if c.CApplySelection? || c.CConfirmTurnFacts? || c.CRequestTurnAdvice? || c.CRequestRichTurnAdvice?
              || c.CRecordAction? || c.CCommitNextTurn?
    {
      PlayRefused(s, c);
    } else if c.CNewMatch? || c.CAbortMatch? || c.CUpdateMetadata? || c.CEndMatch? || c.CCommitExport?
              || c.CNewMatchAfterExport? || c.CConfirmSelectionFacts? || c.CStartTurnCapture? || c.CNextTurn?
    {
      MatchRefused(s, c);
    } else {
      LaneRefused(s, c);
    }
  }
}
