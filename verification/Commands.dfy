/**
 Every command of the battle lifecycle as a function of the whole repository (application/service.py,
 application/match_service.py). A command either yields the committed repository or names the refusal
 that rolled it back. Module Application proves the step-by-step methods against these functions.
 */
module Commands {
  import opened Basics
  import Text
  import opened TurnState
  import opened Records
  import opened Store

  type Committed = Result<Store, Refusal>

  function Save(s: Store, i: nat, x: Session): Store
    requires i < |s.sessions|
  {
    s.(sessions := s.sessions[i := x])
  }

  // ---- match lifecycle ----------------------------------------------------------------------

  function FreshSession(sessions: seq<Session>, rules: RulesPin, intel: IntelPin): Session {
    Session(|sessions|, NextGeneration(sessions), SelectionOpen, 1, 0, None, None, None, None, None, None, rules, intel)
  }

  function InsertSession(s: Store, rules: RulesPin, intel: IntelPin): Store {
    s.(sessions := s.sessions + [FreshSession(s.sessions, rules, intel)], slot := Some(|s.sessions|))
  }

  /** The pins are resolved outside the repository; a rules snapshot that does not resolve is None. */
  function NewMatch(s: Store, rules: Option<RulesPin>, intel: IntelPin): Committed {
    var active := ActiveSession(s.sessions, s.slot);
    :- Need(active.Failure?, ActiveMatchExists);
    var pin :- Present(rules, RulesSnapshotUnavailable);
    Success(InsertSession(s, pin, intel))
  }

  function AbortMatch(s: Store, humanConfirmed: bool): Committed {
    var confirmed := Need(humanConfirmed, AbortConfirmationRequired);
    :- confirmed;
    var i :- ActiveSession(s.sessions, s.slot);
    var x := s.sessions[i];
    :- Need(!x.state.MatchEnded? && !x.state.MatchExported? && !x.state.Aborted?, AbortNotAllowed);
    Success(Save(s, i, x.Bumped().(state := Aborted)).(slot := None))
  }

  function UpdateMetadata(s: Store): Committed {
    var i :- ActiveSession(s.sessions, s.slot);
    Success(Save(s, i, s.sessions[i].(metadataRevision := s.sessions[i].metadataRevision + 1)))
  }

  function EndMatch(s: Store, outcome: MatchOutcome, humanConfirmed: bool): Committed {
    var confirmed := Need(humanConfirmed, OutcomeConfirmationRequired);
    :- confirmed;
    var i :- ActiveSession(s.sessions, s.slot);
    var x := s.sessions[i];
    :- Need(i !in s.outcomes, OutcomeAlreadySet);
    :- Need(x.state.BattleReady? || x.state.TurnRecorded?, EndNotAllowed);
    Success(Save(s, i, x.Bumped().(state := MatchEnded))
            .(outcomes := s.outcomes[i := OutcomeRecord(outcome, x.battleRevision + 1)]))
  }

  /** _verify_existing_export, given what the record's path holds. */
  function VerifyExport(record: ExportPayload, expected: Option<ExportPayload>, onDisk: Option<ExportPayload>)
    : Check<Refusal>
  {
    if onDisk.None? then Fail(ExportFileUnreadable)
    else if onDisk.value != record then Fail(ExportHashMismatch)
    else if expected.Some? && onDisk != expected then Fail(ExportContentMismatch)
    else Pass
  }

  /**
   The closing transaction of export_match, for the session and document decided before it; `onDisk` is what the
   export path holds now. A record already there is verified and kept.
   */
  function CommitExport(s: Store, session: nat, file: ExportPayload, onDisk: Option<ExportPayload>): Committed {
    var i :- SessionIn(s.sessions, s.slot, MatchEnded);
    :- Need(i == session, MatchChangedDuringExport);
    if i in s.exports then
      var verified := VerifyExport(s.exports[i], Some(file), onDisk);
      :- verified;
      Success(s)
    else Success(Save(s, i, s.sessions[i].Bumped().(state := MatchExported)).(exports := s.exports[i := file]))
  }

  function NewMatchAfterExport(s: Store, rules: Option<RulesPin>, intel: IntelPin): Committed {
    var i :- SessionIn(s.sessions, s.slot, MatchExported);
    :- Need(i in s.exports, ExportRecordMissing);
    var pin :- Present(rules, RulesSnapshotUnavailable);
    Success(InsertSession(s, pin, intel))
  }

  // ---- selection ----------------------------------------------------------------------------

  predicate ValidTeams(selfTeam: seq<Name>, opponentTeam: seq<Name>, build: Option<TeamBuild>) {
    && |selfTeam| == 6 && Text.Distinct(selfTeam) && |opponentTeam| == 6 && Text.Distinct(opponentTeam)
    && (build.Some? ==> build.value.members == selfTeam)
  }

  function ConfirmSelectionFacts(s: Store, selfTeam: seq<Name>, opponentTeam: seq<Name>, build: Option<TeamBuild>)
    : Committed
  {
    var valid := ValidTeams(selfTeam, opponentTeam, build);
    :- Need(valid, SelfTeamBuildMismatch);
    var i :- SessionIn(s.sessions, s.slot, SelectionOpen);
    var x := s.sessions[i].Bumped().(reviewedSelection := Some(|s.selectionFacts|), selectionAdvice := None);
    Success(Save(s, i, x)
            .(selectionFacts := s.selectionFacts + [SelectionFacts(i, selfTeam, opponentTeam, build)]))
  }

  predicate ThreeOf(three: seq<Name>, lead: Name, team: seq<Name>) {
    && |three| == 3 && Text.Distinct(three) && lead in three
    && forall k :: 0 <= k < 3 ==> three[k] in team
  }

  /** The chosen three without the lead, in order. */
  function Without(names: seq<Name>, lead: Name): seq<Name> {
    if names == [] then []
    else if names[0] == lead then Without(names[1..], lead)
    else [names[0]] + Without(names[1..], lead)
  }

  function ApplySelection(s: Store, three: seq<Name>, lead: Name, humanConfirmed: bool): Committed {
    var confirmed := Need(humanConfirmed, HumanApplyRequired);
    :- confirmed;
    var i :- SessionIn(s.sessions, s.slot, SelectionAdviceReady);
    var x := s.sessions[i];
    var advice :- Present(x.selectionAdvice, SelectionAdviceRequired);
    var reviewed :- Present(x.reviewedSelection, ReviewedSelectionUnavailable);
    :- Need(reviewed < |s.selectionFacts|, ReviewedSelectionUnavailable);
    :- Need(|three| == 3, NotExactlyThree);
    :- Need(Text.Distinct(three), DuplicateSelection);
    :- Need(forall k :: 0 <= k < 3 ==> three[k] in s.selectionFacts[reviewed].selfTeam, OutsideReviewedTeam);
    :- Need(lead in three, LeadNotSelected);
    var row := AppliedSelection(i, three, lead, Without(three, lead), advice);
    Success(Save(s, i, x.Bumped().(applied := Some(|s.applied|), state := BattleReady))
            .(applied := s.applied + [row]))
  }

  // ---- provider jobs ------------------------------------------------------------------------

  /** Consulted by both Selection lanes and by the Turn Advice request, but not by the rich one. */
  function GuardProvider(jobs: seq<Job>, latest: Option<nat>): Check<Refusal>
    requires latest.Some? ==> latest.value < |jobs|
  {
    if latest.None? then Pass
    else if IsPending(jobs[latest.value].status) then Fail(ProviderRequestPending)
    else if jobs[latest.value].status == DeliveryUnknown then Fail(ProviderDeliveryUnknown)
    else Pass
  }

  function SelectionJob(s: Store, i: nat, reviewed: nat, command: Id, origin: Origin): Job
    requires i < |s.sessions| && reviewed < |s.selectionFacts|
  {
    var x := s.sessions[i];
    Job(command, SelectionAdviceJob, i, x.matchId, x.generation, None, x.battleRevision, SelectionOpen,
        SelectionSnapshot(reviewed),
        SelectionRequest(i, x.matchId, x.generation, x.battleRevision, reviewed, s.selectionFacts[reviewed]),
        Queued, 0, origin)
  }

  function RequestSelectionAdvice(s: Store, command: Id): Committed {
    var i :- SessionIn(s.sessions, s.slot, SelectionOpen);
    var reviewed :- Present(s.sessions[i].reviewedSelection, ReviewedSelectionRequired);
    :- GuardProvider(s.jobs, LatestJob(s.jobs, i, SelectionAdviceJob));
    :- Need(reviewed < |s.selectionFacts|, MissingRow);
    Success(s.(jobs := s.jobs + [SelectionJob(s, i, reviewed, command, Direct)]))
  }

  function KeyOf(s: Store, i: nat, reviewed: nat): SelectionKey
    requires i < |s.sessions|
  {
    SelectionKey(i, s.sessions[i].matchId, s.sessions[i].generation, s.sessions[i].battleRevision, reviewed)
  }

  /** The job the current round may be resent after: its last provider attempt failed transiently. */
  predicate EndedTransiently(s: Store, i: nat, job: nat)
    requires i < |s.sessions| && job < |s.jobs|
  {
    var j, x, last := s.jobs[job], s.sessions[i], LastAttempt(s.attempts, job);
    && j.session == i && j.matchId == x.matchId && j.generation == x.generation
    && j.baseRevision == x.battleRevision
    && x.reviewedSelection.Some? && j.snapshot == SelectionSnapshot(x.reviewedSelection.value)
    && (j.status == Failed || j.status == TimedOut)
    && last.Some? && last.value.outcome == AttemptFailed && last.value.reason != NoReason
    && IsTransient(last.value.reason)
  }

  function ReserveSelectionAttempt(s: Store, command: Id): Committed {
    var i :- SessionIn(s.sessions, s.slot, SelectionOpen);
    var reviewed :- Present(s.sessions[i].reviewedSelection, ReviewedSelectionRequired);
    var key := KeyOf(s, i, reviewed);
    var latest := LatestJob(s.jobs, i, SelectionAdviceJob);
    var origin :- (
      if key !in s.selectionLedger then
        var guard := GuardProvider(s.jobs, latest);
        if guard.Fail? then Failure(guard.error) else Success(Production(None))
      else if latest.None? || !EndedTransiently(s, i, latest.value) || s.selectionLedger[key] != latest.value then
        Failure(SelectionAttemptConsumed)
      else Success(Production(latest)));
    :- Need(reviewed < |s.selectionFacts|, MissingRow);
    Success(s.(jobs := s.jobs + [SelectionJob(s, i, reviewed, command, origin)],
               selectionLedger := s.selectionLedger[key := |s.jobs|]))
  }

  function StartAttempt(s: Store, job: nat, ordinal: nat): Committed {
    var key := AttemptKey(job, ordinal);
    :- Need(job < |s.jobs| && 1 <= ordinal <= 2 && key !in s.attempts, IntegrityViolation);
    Success(s.(attempts := s.attempts[key := Attempt(Started, NoReason)]))
  }

  function FinishAttempt(s: Store, job: nat, ordinal: nat, succeeded: bool, reason: FailureReason): Committed {
    var key := AttemptKey(job, ordinal);
    :- Need(key in s.attempts && s.attempts[key].outcome == Started, AttemptNotStarted);
    Success(s.(attempts := s.attempts[key := Attempt(if succeeded then AttemptSucceeded else AttemptFailed, reason)]))
  }

  function SetStatus(jobs: seq<Job>, job: nat, status: JobStatus): seq<Job>
    requires job < |jobs|
  {
    jobs[job := jobs[job].(status := status)]
  }

  function MarkDispatched(s: Store, lane: JobType, job: nat): Committed {
    var j :- Row(s.jobs, job);
    :- Need(j.jobType == lane, JobTypeNotExpected);
    var i :- ActiveSession(s.sessions, s.slot);
    :- Need(LatestJob(s.jobs, i, lane) == Some(job), JobIdNotCurrentForDispatch);
    :- Need(j.status == Queued, JobNotDispatchable);
    Success(s.(jobs := s.jobs[job := j.(status := InFlight, dispatchCount := j.dispatchCount + 1)]))
  }

  function FailJob(s: Store, lane: JobType, job: nat, reason: FailureReason): Committed {
    if job >= |s.jobs| || s.jobs[job].jobType != lane || !IsPending(s.jobs[job].status) then Success(s)
    else Success(s.(jobs := SetStatus(s.jobs, job, if reason == Timeout then TimedOut else Failed)))
  }

  function Recovered(j: Job): Job {
    if !IsPending(j.status) then j
    else if j.status == InFlight && (j.jobType == SelectionAdviceJob || j.jobType == TurnAdviceJob) then
      j.(status := DeliveryUnknown)
    else j.(status := Interrupted)
  }

  function RecoverJobs(jobs: seq<Job>): (r: seq<Job>)
    ensures |r| == |jobs|
    ensures forall k :: 0 <= k < |jobs| ==> r[k] == Recovered(jobs[k])
  {
    seq(|jobs|, k requires 0 <= k < |jobs| => Recovered(jobs[k]))
  }

  function RecoverAfterRestart(s: Store): Committed {
    Success(s.(jobs := RecoverJobs(s.jobs)))
  }

  // ---- results ------------------------------------------------------------------------------

  /** The checks both binding functions share, in source order up to the turn check. */
  function CommonBinding(s: Store, latest: Option<nat>, j: Job, r: ResultEnvelope): Option<AuditReason> {
    if latest != Some(r.jobId) then Some(JobIdNotCurrent)
    else if !IsPending(j.status) then Some(JobNotAcceptingResults)
    else if r.contractVersion != CONTRACT_VERSION then Some(ContractVersionMismatch)
    else if r.commandId != j.commandId then Some(CommandIdMismatch)
    else if r.jobType != j.jobType then Some(JobTypeMismatch)
    else if ActiveSession(s.sessions, s.slot).Failure? then Some(NoActiveMatchForResult)
    else
      var i := ActiveSession(s.sessions, s.slot).value;
      var x := s.sessions[i];
      if r.session != i then Some(SessionDiffers)
      else if r.matchId != x.matchId then Some(MatchDiffers)
      else if r.generation != x.generation then Some(GenerationDiffers)
      else None
  }

  function BindingFailure(s: Store, latest: Option<nat>, j: Job, r: ResultEnvelope,
                          currentSnapshot: Option<SnapshotId>, currentTurn: Option<nat>): Option<AuditReason>
  {
    var common := CommonBinding(s, latest, j, r);
    if common.Some? then common
    else
      var x := s.sessions[ActiveSession(s.sessions, s.slot).value];
      if r.turnNumber != j.turnNumber || r.turnNumber != currentTurn then Some(TurnDiffers)
      else if r.baseRevision != x.battleRevision || r.baseRevision != j.baseRevision then Some(RevisionDiffers)
      else if r.expectedState != x.state || r.expectedState != j.expectedState then Some(ExpectedStateDiffers)
      else if Some(r.snapshot) != currentSnapshot || r.snapshot != j.snapshot then Some(InputSnapshotDiffers)
      else if r.digest != j.digest then Some(DigestDiffers)
      else None
  }

  /** The rich lane binds the latest confirmed state instead of the reviewed board. */
  function RichBindingFailure(s: Store, latest: Option<nat>, j: Job, r: ResultEnvelope,
                              current: Option<TurnIdentity>, latestState: Option<ConfirmedTurnState>)
    : Option<AuditReason>
  {
    var common := CommonBinding(s, latest, j, r);
    if common.Some? then common
    else
      var x := s.sessions[ActiveSession(s.sessions, s.slot).value];
      if current.None? || r.turnNumber != j.turnNumber || r.turnNumber != Some(current.value.turnNumber) then
        Some(TurnDiffers)
      else if r.baseRevision != x.battleRevision || r.baseRevision != j.baseRevision then Some(RevisionDiffers)
      else if r.expectedState != x.state || r.expectedState != j.expectedState then Some(ExpectedStateDiffers)
      else if latestState.None? || j.snapshot != r.snapshot || r.snapshot != StateSnapshot(latestState.value.stateId)
      then Some(InputSnapshotDiffers)
      else if latestState.value.identity != current.value then Some(StateNotCurrentBinding)
      else if r.digest != j.digest then Some(DigestDiffers)
      else None
  }

  function Audited(s: Store, r: ResultEnvelope, disposition: Disposition, reason: AuditReason): Store {
    s.(audits := s.audits + [Audit(r.resultId, r.jobId, disposition, reason)])
  }

  /** A result that fails a check leaves an audit row and nothing else. */
  function Turned(s: Store, r: ResultEnvelope, disposition: Disposition, reason: AuditReason): Committed {
    Success(Audited(s, r, disposition, reason))
  }

  function Invalid(s: Store, r: ResultEnvelope): Committed
    requires r.jobId < |s.jobs|
  {
    Success(Audited(s, r, InvalidRejected, InvalidPayload).(jobs := SetStatus(s.jobs, r.jobId, Failed)))
  }

  function LatestActiveJob(s: Store, lane: JobType): Option<nat> {
    match ActiveSession(s.sessions, s.slot)
    case Success(i) => LatestJob(s.jobs, i, lane)
    case Failure(_) => None
  }

  function ActiveRow(s: Store): Option<Session> {
    match ActiveSession(s.sessions, s.slot)
    case Success(i) => Some(s.sessions[i])
    case Failure(_) => None
  }

  function CurrentSelection(x: Option<Session>): Option<SnapshotId> {
    if x.Some? && x.value.reviewedSelection.Some? then Some(SelectionSnapshot(x.value.reviewedSelection.value)) else None
  }

  function CurrentBoard(x: Option<Session>): Option<SnapshotId> {
    if x.Some? && x.value.reviewedBoard.Some? then Some(FactsSnapshot(x.value.reviewedBoard.value)) else None
  }

  function CurrentTurnNumber(x: Option<Session>): Option<nat> {
    if x.Some? && x.value.turn.Some? then Some(x.value.turn.value.number) else None
  }

  /** The identity the current turn of session i would have now. */
  function IdentityNow(s: Store, i: nat): Option<TurnIdentity>
    requires i < |s.sessions|
  {
    var x := s.sessions[i];
    if x.turn.None? then None
    else Some(TurnIdentity(i, x.matchId, x.generation, x.turn.value, x.turn.value.number, x.battleRevision))
  }

  predicate AdviceKeyTaken(advices: seq<TurnAdvice>, adviceId: Id, job: nat) {
    exists k :: 0 <= k < |advices| && (advices[k].adviceId == adviceId || advices[k].job == job)
  }

  predicate SelectionAdviceKeyTaken(advices: seq<SelectionAdvice>, adviceId: Id, job: nat) {
    exists k :: 0 <= k < |advices| && (advices[k].adviceId == adviceId || advices[k].job == job)
  }

  function ApplySelectionResult(s: Store, r: ResultEnvelope): Committed {
    if r.jobId >= |s.jobs| then Turned(s, r, StaleRejected, JobIdMismatch)
    else
      var j := s.jobs[r.jobId];
      if j.jobType != SelectionAdviceJob then Turned(s, r, StaleRejected, WrongLane)
      else if HasApplied(s.audits, r.jobId) then Turned(s, r, DuplicateIgnored, ResultAlreadyApplied)
      else
        var x := ActiveRow(s);
        var reason := BindingFailure(s, LatestActiveJob(s, SelectionAdviceJob), j, r, CurrentSelection(x), None);
        if reason.Some? then Turned(s, r, StaleRejected, reason.value)
        else AcceptSelectionResult(s, r)
  }

  function AcceptSelectionResult(s: Store, r: ResultEnvelope): Committed
    requires r.jobId < |s.jobs| && ActiveSession(s.sessions, s.slot).Success?
  {
    var i := ActiveSession(s.sessions, s.slot).value;
    var p := r.selectionPayload;
    var snapshot := s.jobs[r.jobId].snapshot;
    if !snapshot.SelectionSnapshot? || snapshot.row >= |s.selectionFacts| || p.MalformedSelection?
       || !ThreeOf(p.three, p.lead, s.selectionFacts[snapshot.row].selfTeam)
    then Invalid(s, r)
    else
      :- Need(!SelectionAdviceKeyTaken(s.selectionAdvices, r.resultId, r.jobId), IntegrityViolation);
      var x := s.sessions[i].Bumped().(selectionAdvice := Some(r.resultId), state := SelectionAdviceReady);
      Success(Audited(Save(s, i, x), r, Applied, BindingAccepted)
              .(selectionAdvices := s.selectionAdvices + [SelectionAdvice(r.resultId, i, r.jobId, p.three, p.lead)],
                jobs := SetStatus(s.jobs, r.jobId, Succeeded)))
  }

  predicate LegalIn(f: TurnFacts, actionType: ActionType, name: Name) {
    name in (if actionType == Move then f.moves else f.switches)
  }

  function TurnRequestOf(s: Store, i: nat, board: nat, revision: nat): Result<Request, Refusal>
    requires i < |s.sessions|
  {
    var x := s.sessions[i];
    var f :- Row(s.facts, board);
    var applied :- Present(x.applied, AppliedSelectionRequired);
    var selection :- Row(s.applied, applied);
    var build :- (if x.reviewedSelection.None? then Success(None)
                  else var sf :- Row(s.selectionFacts, x.reviewedSelection.value); Success(sf.build));
    Success(TurnRequest(i, x.matchId, x.generation, revision, board, f, selection.three, build))
  }

  function ApplyTurnResult(s: Store, r: ResultEnvelope): Committed {
    if r.jobId >= |s.jobs| then Turned(s, r, StaleRejected, JobIdMismatch)
    else
      var j := s.jobs[r.jobId];
      if j.jobType != TurnAdviceJob then Turned(s, r, StaleRejected, WrongLane)
      else if HasApplied(s.audits, r.jobId) then Turned(s, r, DuplicateIgnored, ResultAlreadyApplied)
      else
        var x := ActiveRow(s);
        var reason :=
          BindingFailure(s, LatestActiveJob(s, TurnAdviceJob), j, r, CurrentBoard(x), CurrentTurnNumber(x));
        if reason.Some? then Turned(s, r, StaleRejected, reason.value)
        else AcceptTurnResult(s, r)
  }

  /** The recommended action must be one of the reviewed legal ones. */
  function AcceptTurnResult(s: Store, r: ResultEnvelope): Committed
    requires r.jobId < |s.jobs| && ActiveSession(s.sessions, s.slot).Success?
  {
    var i := ActiveSession(s.sessions, s.slot).value;
    var x, j, p := s.sessions[i], s.jobs[r.jobId], r.turnPayload;
    if !j.snapshot.FactsSnapshot? || x.turn.None? then Invalid(s, r)
    else
      var request := TurnRequestOf(s, i, j.snapshot.row, j.baseRevision);
      if request.Failure? || p.MalformedTurn? || !p.wellFormed || r.digest != request.value
         || !LegalIn(request.value.board, p.actionType, p.actionName)
      then Invalid(s, r)
      else AppendTurnAdvice(s, i, r, x.turn.value, j.snapshot.row, Action(p.actionType, p.actionName))
  }

  function AppendTurnAdvice(s: Store, i: nat, r: ResultEnvelope, turn: TurnId, board: nat, recommended: Action)
    : Committed
    requires i < |s.sessions| && r.jobId < |s.jobs|
  {
    var advice := TurnAdvice(r.resultId, turn, r.jobId, board, recommended.actionType, recommended.name);
    :- Need(!AdviceKeyTaken(s.advices, r.resultId, r.jobId), IntegrityViolation);
    Success(Audited(Save(s, i, s.sessions[i].Bumped().(turnAdvice := Some(r.resultId))), r, Applied, BindingAccepted)
            .(advices := s.advices + [advice], jobs := SetStatus(s.jobs, r.jobId, Succeeded)))
  }

  /**
   `rebuilt` is the verdict of rebuilding the rich request and of the response checks against it:
   the accepted recommendation, or None.
   */
  function ApplyRichTurnResult(s: Store, r: ResultEnvelope, rebuilt: Option<Action>): Committed {
    if r.jobId >= |s.jobs| then Turned(s, r, StaleRejected, JobIdMismatch)
    else
      var j := s.jobs[r.jobId];
      if j.jobType != TurnAdviceJob then Turned(s, r, StaleRejected, WrongLane)
      else if LatestState(s.states, j.session, j.matchId, j.generation).None? then
        Turned(s, r, StaleRejected, NotRichContract)
      else if HasApplied(s.audits, r.jobId) then Turned(s, r, DuplicateIgnored, ResultAlreadyApplied)
      else
        var active := ActiveSession(s.sessions, s.slot);
        var current := if active.Success? then IdentityNow(s, active.value) else None;
        var latestState := if current.Some? then LatestStateOf(s, active.value) else None;
        var reason := RichBindingFailure(s, LatestActiveJob(s, TurnAdviceJob), j, r, current, latestState);
        if reason.Some? then Turned(s, r, StaleRejected, reason.value)
        else
          var x := s.sessions[active.value];
          if rebuilt.None? || x.reviewedBoard.None? || x.turn.None? || x.reviewedBoard.value >= |s.facts| then
            Invalid(s, r)
          else AppendTurnAdvice(s, active.value, r, x.turn.value, x.reviewedBoard.value, rebuilt.value)
  }

  // ---- turns --------------------------------------------------------------------------------

  /** _set_pending_turn */
  function Pending(x: Session, turn: TurnId): Session {
    x.Bumped().(turn := Some(turn), reviewedBoard := None, turnAdvice := None, state := TurnCapturePending)
  }

  function AppendTurn(s: Store, i: nat, number: nat): Committed
    requires i < |s.sessions|
  {
    var turn := TurnId(i, number);
    :- Need(turn !in s.turns, IntegrityViolation);
    Success(Save(s, i, Pending(s.sessions[i], turn)).(turns := s.turns + [turn]))
  }

  function StartTurnCapture(s: Store): Committed {
    var i :- SessionIn(s.sessions, s.slot, BattleReady);
    :- Need(s.sessions[i].turn.None?, CurrentTurnExists);
    AppendTurn(s, i, 1)
  }

  function NextTurn(s: Store): Committed {
    var i :- SessionIn(s.sessions, s.slot, TurnRecorded);
    var turn :- Present(s.sessions[i].turn, CurrentTurnRequired);
    :- Need(turn in s.turns, MissingRow);
    AppendTurn(s, i, turn.number + 1)
  }

  datatype FactsInput = FactsInput(selfActive: Name, opponentActive: Name, selfHp: HpBucket, opponentHp: HpBucket,
                                   moves: seq<Name>, switches: seq<Name>, note: string)

  function Stripped(names: seq<Name>): (r: seq<Name>)
    ensures |r| == |names|
    ensures forall k :: 0 <= k < |names| ==> r[k] == Text.Strip(names[k])
  {
    seq(|names|, k requires 0 <= k < |names| => Text.Strip(names[k]))
  }

  predicate NoBlank(names: seq<Name>) {
    forall k :: 0 <= k < |names| ==> !Text.IsBlank(names[k])
  }

  predicate ValidTurnFacts(f: TurnFacts) {
    && f.turn.number >= 1 && !Text.IsBlank(f.selfActive) && !Text.IsBlank(f.opponentActive)
    && 1 <= |f.moves| <= 4 && NoBlank(f.moves) && Text.Distinct(f.moves)
    && NoBlank(f.switches) && Text.Distinct(f.switches) && f.selfActive !in f.switches
  }

  function FactsRow(turn: TurnId, input: FactsInput, previous: Option<nat>): TurnFacts {
    TurnFacts(turn, Text.Strip(input.selfActive), Text.Strip(input.opponentActive), input.selfHp, input.opponentHp,
              Stripped(input.moves), Stripped(input.switches), Text.Strip(input.note), previous)
  }

  /** A re-confirmation cancels the turn job still waiting for the board it replaces. */
  function CancelPending(jobs: seq<Job>, session: nat): (r: seq<Job>)
    ensures |r| == |jobs|
  {
    var latest := LatestJob(jobs, session, TurnAdviceJob);
    if latest.Some? && IsPending(jobs[latest.value].status) then SetStatus(jobs, latest.value, Cancelled) else jobs
  }

  function FactsRefusal(row: TurnFacts, three: seq<Name>): Option<Refusal> {
    if row.selfActive !in three then Some(ActiveOutsideSelection)
    else if exists k :: 0 <= k < |row.switches| && row.switches[k] !in three then Some(SwitchOutsideSelection)
    else if row.selfActive in row.switches then Some(ActiveAmongSwitches)
    else if !ValidTurnFacts(row) then Some(InvalidTurnFacts)
    else None
  }

  function ConfirmTurnFacts(s: Store, input: FactsInput, humanConfirmed: bool): Committed {
    var confirmed := Need(humanConfirmed, FactsConfirmationRequired);
    :- confirmed;
    var i :- ActiveSession(s.sessions, s.slot);
    var x := s.sessions[i];
    :- Need(x.state.TurnCapturePending? || x.state.TurnReviewed?, WrongState);
    var turn :- Present(x.turn, CurrentTurnRequired);
    var appliedId :- Present(x.applied, AppliedSelectionRequired);
    :- Need(turn in s.turns, MissingRow);
    var selection :- Row(s.applied, appliedId);
    var row := FactsRow(turn, input, x.reviewedBoard);
    var refusal := FactsRefusal(row, selection.three);
    :- Need(refusal.None?, if refusal.Some? then refusal.value else InvalidTurnFacts);
    var x' := x.Bumped().(reviewedBoard := Some(|s.facts|), turnAdvice := None, state := TurnReviewed);
    Success(Save(s, i, x')
            .(facts := s.facts + [row], jobs := if x.reviewedBoard.Some? then CancelPending(s.jobs, i) else s.jobs))
  }

  function TurnJob(x: Session, i: nat, turn: TurnId, command: Id, snapshot: SnapshotId, digest: Request): Job {
    Job(command, TurnAdviceJob, i, x.matchId, x.generation, Some(turn.number), x.battleRevision, TurnReviewed,
        snapshot, digest, Queued, 0, Direct)
  }

  predicate SameLedgerKey(a: TurnLedgerRow, b: TurnLedgerRow) {
    SameRound(a, b.session, b.matchId, b.generation, b.turnNumber, b.snapshot) && a.revision == b.revision
  }

  predicate LedgerKeyTaken(ledger: seq<TurnLedgerRow>, row: TurnLedgerRow) {
    exists k :: 0 <= k < |ledger| && SameLedgerKey(ledger[k], row)
  }

  /** decide_turn_advice_dispatch, then the ledger row, then the job: shared by both Turn lanes. */
  function DispatchTurnJob(s: Store, i: nat, turn: TurnId, command: Id, snapshot: SnapshotId, digest: Request)
    : Committed
    requires i < |s.sessions|
  {
    var x, latest := s.sessions[i], LatestJob(s.jobs, i, TurnAdviceJob);
    :- Need(latest.None? || !IsPending(s.jobs[latest.value].status), DenyPendingJob);
    :- Need(!TurnAttemptReserved(s.turnLedger, i, x.matchId, x.generation, turn.number, snapshot), DenyAttemptConsumed);
    var row := TurnLedgerRow(i, x.matchId, x.generation, turn.number, x.battleRevision, snapshot, |s.jobs|);
    :- Need(!LedgerKeyTaken(s.turnLedger, row), TurnAttemptConsumed);
    Success(s.(turnLedger := s.turnLedger + [row], jobs := s.jobs + [TurnJob(x, i, turn, command, snapshot, digest)]))
  }

  function RequestTurnAdvice(s: Store, command: Id): Committed {
    var i :- SessionIn(s.sessions, s.slot, TurnReviewed);
    var x := s.sessions[i];
    var turn :- Present(x.turn, CurrentTurnRequired);
    var board :- Present(x.reviewedBoard, ReviewedFactsRequired);
    :- Need(x.applied.Some?, AppliedSelectionRequired);
    :- Need(x.turnAdvice.None?, TurnAdviceExists);
    :- Need(turn in s.turns, MissingRow);
    :- GuardProvider(s.jobs, LatestJob(s.jobs, i, TurnAdviceJob));
    var digest :- TurnRequestOf(s, i, board, x.battleRevision);
    DispatchTurnJob(s, i, turn, command, FactsSnapshot(board), digest)
  }

  /** `gate` is the outcome of the request builders and gates this model does not open: the bytes, or None. */
  function RequestRichTurnAdvice(s: Store, command: Id, gate: Option<nat>): Committed {
    var i :- SessionIn(s.sessions, s.slot, TurnReviewed);
    var x := s.sessions[i];
    var turn :- Present(x.turn, CurrentTurnRequired);
    :- Need(x.applied.Some?, AppliedSelectionRequired);
    :- Need(turn in s.turns, MissingRow);
    var state :- Present(LatestStateOf(s, i), NoConfirmedState);
    :- Need(Some(state.identity) == IdentityNow(s, i), StateNotCurrent);
    var body :- Present(gate, RichGateDenied);
    DispatchTurnJob(s, i, turn, command, StateSnapshot(state.stateId),
                    RichRequest(i, x.matchId, x.generation, x.battleRevision, state.stateId, body))
  }

  // ---- recording and advancing --------------------------------------------------------------

  datatype ActionInput = ActionInput(actionType: ActionType, name: Name, opponentType: Option<ActionType>,
                                     opponentName: Option<Name>, order: ActionOrder)

  datatype RichCompletion = RichCompletion(identity: TurnIdentity, delta: ActionResultDelta, transaction: Id)

  function OpponentAction(input: ActionInput): Option<Action> {
    if input.opponentType.Some? && input.opponentName.Some?
    then Some(Action(input.opponentType.value, Text.Strip(input.opponentName.value)))
    else None
  }

  /** The sentinel text a stored unknown opponent action uses; refused as a real name. */
  const UNKNOWN_SENTINEL: string := "UNKNOWN"

  function CheckCompletion(s: Store, turn: TurnId, rich: RichCompletion): Check<Refusal> {
    var state := StateRow(s.states, rich.delta.basedOn);
    if rich.identity.turnId != turn then Fail(CompletionTurnMismatch)
    else if rich.delta.identity != rich.identity then Fail(CompletionDeltaMismatch)
    else if state.None? then Fail(BasedOnStateMissing)
    else if state.value.identity != rich.identity then Fail(CompletionStateMismatch)
    else Pass
  }

  predicate CompletionKeyTaken(s: Store, rich: RichCompletion) {
    || (exists k :: 0 <= k < |s.deltas| && s.deltas[k].deltaId == rich.delta.deltaId)
    || (exists k :: 0 <= k < |s.completions| && (s.completions[k].transaction == rich.transaction
                                                 || s.completions[k].identity.turnId == rich.identity.turnId))
  }

  function AppendCompletion(s: Store, action: RecordedAction, rich: Option<RichCompletion>): Committed {
    if rich.None? then Success(s)
    else
      :- Need(action.opponent.Some? ==> action.opponent.value.name != UNKNOWN_SENTINEL, InvalidOpponentName);
      :- Need(!CompletionKeyTaken(s, rich.value), IntegrityViolation);
      var row := Completion(rich.value.transaction, rich.value.identity, rich.value.delta.basedOn, action,
                            rich.value.delta.deltaId);
      Success(s.(deltas := s.deltas + [rich.value.delta], completions := s.completions + [row]))
  }

  /** The transaction itself: the action, its completion, and the session past the turn. */
  function TakeAction(s: Store, i: nat, action: RecordedAction, rich: Option<RichCompletion>): Committed
    requires i < |s.sessions|
  {
    var s' :- AppendCompletion(s, action, rich);
    Success(Save(s', i, s.sessions[i].Bumped().(state := TurnRecorded)).(actions := s.actions + [action]))
  }

  function RecordAction(s: Store, input: ActionInput, humanConfirmed: bool, rich: Option<RichCompletion>): Committed {
    var confirmed := Need(humanConfirmed, ActionConfirmationRequired);
    :- confirmed;
    :- Need(input.opponentType.None? ==> input.opponentName.None?, InvalidOpponentName);
    :- Need(input.opponentType.Some? ==> input.opponentName.Some? && !Text.IsBlank(input.opponentName.value),
            InvalidOpponentName);
    var i :- SessionIn(s.sessions, s.slot, TurnReviewed);
    var x := s.sessions[i];
    var turn :- Present(x.turn, CurrentTurnRequired);
    var board :- Present(x.reviewedBoard, ReviewedFactsRequired);
    :- Need(x.turnAdvice.Some?, TurnAdviceRequired);
    :- Need(ActionFor(s.actions, turn).None?, ActionAlreadyRecorded);
    var f :- Row(s.facts, board);
    :- Need(LegalIn(f, input.actionType, Text.Strip(input.name)), ActionNotLegal);
    var own := Action(input.actionType, Text.Strip(input.name));
    var action := RecordedAction(turn, own, OpponentAction(input), input.order);
    :- Need(f.turn.number >= 1 && !Text.IsBlank(action.own.name), InvalidAction);
    var checked := if rich.Some? then CheckCompletion(s, turn, rich.value) else Pass;
    :- checked;
    TakeAction(s, i, action, rich)
  }

  /** What phase 1 of next_turn_with_action_result carries into its transaction. */
  datatype NextTurnPlan = NextTurnPlan(session: nat, matchId: Id, generation: nat, turn: TurnId, revision: nat,
                                       confirmed: ConfirmedTurnState, delta: ActionResultDelta,
                                       draft: NextTurnStateDraft)

  function PlanNextTurn(s: Store, confirmed: ConfirmedTurnState, delta: ActionResultDelta, draftId: Id,
                        derivedAt: string): Result<NextTurnPlan, Refusal>
  {
    var i :- SessionIn(s.sessions, s.slot, TurnRecorded);
    var x := s.sessions[i];
    var turn :- Present(x.turn, CurrentTurnRequired);
    :- Need(turn in s.turns, MissingRow);
    :- Need(confirmed.identity.turnId == turn, StateNotCurrent);
    :- Need(LatestStateOf(s, i) == Some(confirmed), StateNotCurrent);
    :- Need(LastDeltaOn(s.deltas, confirmed.stateId) == Some(delta), DeltaNotCurrent);
    var next := TurnIdentity(i, x.matchId, x.generation, TurnId(i, turn.number + 1), turn.number + 1,
                             x.battleRevision + 1);
    var draft := DeriveNextDraft(confirmed, delta, draftId, next, derivedAt);
    if draft.Failure? then Failure(DerivationFailed(draft.error))
    else
      var chain := ValidateFullChain(confirmed, delta, draft.value);
      if chain.Fail? then Failure(DerivationFailed(chain.error))
      else Success(NextTurnPlan(i, x.matchId, x.generation, turn, x.battleRevision, confirmed, delta, draft.value))
  }

  predicate DraftIdTaken(drafts: map<DraftKey, NextTurnStateDraft>, key: DraftKey, draftId: Id) {
    exists k :: k in drafts && k != key && drafts[k].draftId == draftId
  }

  function CommitNextTurn(s: Store, plan: NextTurnPlan): Committed {
    var i :- SessionIn(s.sessions, s.slot, TurnRecorded);
    var x := s.sessions[i];
    :- Need(i == plan.session && x.matchId == plan.matchId && x.generation == plan.generation
            && x.turn == Some(plan.turn) && x.battleRevision == plan.revision, Phase1BindingStale);
    :- Need(plan.turn in s.turns, MissingRow);
    :- Need(LatestStateOf(s, i) == Some(plan.confirmed), Phase1BindingStale);
    :- Need(LastDeltaOn(s.deltas, plan.confirmed.stateId) == Some(plan.delta), Phase1BindingStale);
    var s' :- AppendTurn(s, i, plan.turn.number + 1);
    :- Need(s'.sessions[i].battleRevision == plan.draft.identity.battleRevision, NextTurnRevisionMismatch);
    var key := DraftKey(plan.draft.identity.session, plan.draft.identity.turnId, plan.draft.identity.battleRevision);
    :- Need(!DraftIdTaken(s.drafts, key, plan.draft.draftId), IntegrityViolation);
    Success(s'.(drafts := s.drafts[key := plan.draft]))
  }

  /** The table's two unique keys. */
  predicate SameStateKey(a: ConfirmedTurnState, b: ConfirmedTurnState) {
    || a.stateId == b.stateId
    || (a.identity.session == b.identity.session && a.identity.turnId == b.identity.turnId
        && a.identity.battleRevision == b.identity.battleRevision)
  }

  /** The table's foreign key on the previous state, which a row may also meet by naming itself. */
  predicate PredecessorPresent(states: seq<ConfirmedTurnState>, state: ConfirmedTurnState) {
    state.previous.Some? ==> state.previous.value == state.stateId || StateRow(states, state.previous.value).Some?
  }

  /** The operator's own confirmation of a turn-start state, written by the window, not by a command. */
  function AppendConfirmedState(s: Store, state: ConfirmedTurnState): Committed {
    var free := forall k :: 0 <= k < |s.states| ==> !SameStateKey(s.states[k], state);
    :- Need(free, IntegrityViolation);
    :- Need(PredecessorPresent(s.states, state), IntegrityViolation);
    Success(s.(states := s.states + [state]))
  }

  // ---- one step and whole runs --------------------------------------------------------------

  datatype Command =
    | CNewMatch(rules: Option<RulesPin>, intel: IntelPin)
    | CAbortMatch(humanConfirmed: bool)
    | CUpdateMetadata
    | CEndMatch(outcome: MatchOutcome, humanConfirmed: bool)
    | CCommitExport(session: nat, file: ExportPayload, onDisk: Option<ExportPayload>)
    | CNewMatchAfterExport(rules: Option<RulesPin>, intel: IntelPin)
    | CConfirmSelectionFacts(selfTeam: seq<Name>, opponentTeam: seq<Name>, build: Option<TeamBuild>)
    | CRequestSelectionAdvice(command: Id)
    | CReserveSelectionAttempt(command: Id)
    | CStartAttempt(job: nat, ordinal: nat)
    | CFinishAttempt(job: nat, ordinal: nat, succeeded: bool, reason: FailureReason)
    | CMarkDispatched(lane: JobType, job: nat)
    | CFailJob(lane: JobType, job: nat, reason: FailureReason)
    | CApplySelectionResult(selectionResult: ResultEnvelope)
    | CApplySelection(three: seq<Name>, lead: Name, humanConfirmed: bool)
    | CStartTurnCapture
    | CConfirmTurnFacts(facts: FactsInput, humanConfirmed: bool)
    | CRequestTurnAdvice(command: Id)
    | CRequestRichTurnAdvice(command: Id, gate: Option<nat>)
    | CApplyTurnResult(turnResult: ResultEnvelope)
    | CApplyRichTurnResult(richResult: ResultEnvelope, rebuilt: Option<Action>)
    | CRecordAction(action: ActionInput, humanConfirmed: bool, rich: Option<RichCompletion>)
    | CNextTurn
    | CCommitNextTurn(plan: NextTurnPlan)
    | CAppendConfirmedState(state: ConfirmedTurnState)
    | CRecoverAfterRestart

  function Execute(s: Store, c: Command): Committed {
    match c
    case CNewMatch(rules, intel) => NewMatch(s, rules, intel)
    case CAbortMatch(confirmed) => AbortMatch(s, confirmed)
    case CUpdateMetadata => UpdateMetadata(s)
    case CEndMatch(outcome, confirmed) => EndMatch(s, outcome, confirmed)
    case CCommitExport(session, file, onDisk) => CommitExport(s, session, file, onDisk)
    case CNewMatchAfterExport(rules, intel) => NewMatchAfterExport(s, rules, intel)
    case CConfirmSelectionFacts(own, opponent, build) => ConfirmSelectionFacts(s, own, opponent, build)
    case CRequestSelectionAdvice(command) => RequestSelectionAdvice(s, command)
    case CReserveSelectionAttempt(command) => ReserveSelectionAttempt(s, command)
    case CStartAttempt(job, ordinal) => StartAttempt(s, job, ordinal)
    case CFinishAttempt(job, ordinal, succeeded, reason) => FinishAttempt(s, job, ordinal, succeeded, reason)
    case CMarkDispatched(lane, job) => MarkDispatched(s, lane, job)
    case CFailJob(lane, job, reason) => FailJob(s, lane, job, reason)
    case CApplySelectionResult(result) => ApplySelectionResult(s, result)
    case CApplySelection(three, lead, confirmed) => ApplySelection(s, three, lead, confirmed)
    case CStartTurnCapture => StartTurnCapture(s)
    case CConfirmTurnFacts(facts, confirmed) => ConfirmTurnFacts(s, facts, confirmed)
    case CRequestTurnAdvice(command) => RequestTurnAdvice(s, command)
    case CRequestRichTurnAdvice(command, gate) => RequestRichTurnAdvice(s, command, gate)
    case CApplyTurnResult(result) => ApplyTurnResult(s, result)
    case CApplyRichTurnResult(result, rebuilt) => ApplyRichTurnResult(s, result, rebuilt)
    case CRecordAction(action, confirmed, rich) => RecordAction(s, action, confirmed, rich)
    case CNextTurn => NextTurn(s)
    case CCommitNextTurn(plan) => CommitNextTurn(s, plan)
    case CAppendConfirmedState(state) => AppendConfirmedState(s, state)
    case CRecoverAfterRestart => RecoverAfterRestart(s)
  }

  /** A refused command is rolled back: the repository is what it was. */
  function Step(s: Store, c: Command): Store {
    match Execute(s, c)
    case Success(s') => s'
    case Failure(_) => s
  }

  function Run(s: Store, commands: seq<Command>): Store
    decreases |commands|
  {
    if commands == [] then s else Run(Step(s, commands[0]), commands[1..])
  }
}
