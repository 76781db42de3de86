/**
 The application object (application/service.py, application/match_service.py). Each command is a method that
 works on the repository row by row inside a transaction; a guard that fails after rows were written puts the
 repository back to where the transaction began. Each method is proved to be the command of module Commands.
 */
module Application {
  import opened Basics
  import Text
  import opened TurnState
  import opened Records
  import opened Store
  import opened Commands
  import Invariant
  import Guarantees
  import Preservation
  import opened Promises
  import opened Conditions
  import opened Results

  datatype Reply = Done | Refused(error: Refusal)

  function Verdict(c: Committed): Reply {
    if c.Success? then Done else Refused(c.error)
  }

  lemma ActionsAreNoKeys(s: Store, actions: seq<RecordedAction>, rich: RichCompletion)
    ensures CompletionKeyTaken(s.(actions := actions), rich) == CompletionKeyTaken(s, rich)
  {
  }

  class BattleApplication {
    var repository: Store

    /** The transaction that began at `before` ended as command `c` says, and so did its caller's reply. */
    predicate Ends(before: Store, c: Committed, r: Reply)
      reads this
    {
      repository == After(before, c) && r == Verdict(c)
    }

    /** The repository satisfies the invariant of every run. */
    ghost predicate Valid()
      reads this
    {
      Invariant.Inv(repository)
    }

    constructor ()
      ensures repository == EMPTY && Valid()
    {
      repository := EMPTY;
      new;
      Preservation.EmptyStoreOk();
    }

    method SaveSession(i: nat, session: Session)
      requires i < |repository.sessions|
      modifies this
      ensures repository == Save(old(repository), i, session)
    {
      repository := repository.(sessions := repository.sessions[i := session]);
    }

    method SetJobStatus(job: nat, status: JobStatus)
      requires job < |repository.jobs|
      modifies this
      ensures repository == old(repository).(jobs := SetStatus(old(repository).jobs, job, status))
    {
      var row := repository.jobs[job];
      repository := repository.(jobs := repository.jobs[job := row.(status := status)]);
    }

    // ---- match lifecycle --------------------------------------------------------------------

    method InsertFreshSession(rules: RulesPin, intel: IntelPin)
      modifies this
      ensures repository == InsertSession(old(repository), rules, intel)
    {
      var session := FreshSession(repository.sessions, rules, intel);
      repository := repository.(slot := Some(|repository.sessions|));
      repository := repository.(sessions := repository.sessions + [session]);
    }

    method NewMatchCommand(rules: Option<RulesPin>, intel: IntelPin) returns (r: Reply)
      requires Valid()
      modifies this
      ensures Ends(old(repository), NewMatch(old(repository), rules, intel), r)
      ensures Valid() && Guarantees.Later(old(repository), repository)
      ensures r == Done <==> MayOpen(old(repository), rules)
      ensures r == Done ==> MatchOpened(old(repository), repository, rules, intel)
    {
      hide Invariant.Inv, Guarantees.Later, MatchOpened, MayOpen;
      NewMatchPromise(repository, rules, intel);
      NewMatchIff(repository, rules, intel);
      if ActiveSession(repository.sessions, repository.slot).Success? {
        return Refused(ActiveMatchExists);
      }
      if rules.None? {
        return Refused(RulesSnapshotUnavailable);
      }
      InsertFreshSession(rules.value, intel);
      return Done;
    }

    method AbortCommand(humanConfirmed: bool) returns (r: Reply)
      requires Valid()
      modifies this
      ensures Ends(old(repository), AbortMatch(old(repository), humanConfirmed), r)
      ensures Valid() && Guarantees.Later(old(repository), repository)
      ensures r == Done <==> MayAbort(old(repository), humanConfirmed)
      ensures r == Done ==> MatchAborted(old(repository), repository)
    {
      hide Invariant.Inv, Guarantees.Later, MatchAborted, MayAbort;
      AbortPromise(repository, humanConfirmed);
      AbortIff(repository, humanConfirmed);
      if !humanConfirmed {
        return Refused(AbortConfirmationRequired);
      }
      var active := ActiveSession(repository.sessions, repository.slot);
      if active.Failure? {
        return Refused(active.error);
      }
      var session := repository.sessions[active.value];
      if session.state.MatchEnded? || session.state.MatchExported? || session.state.Aborted? {
        return Refused(AbortNotAllowed);
      }
      session := session.(state := Aborted);
      repository := repository.(slot := None);
      session := session.Bumped();
      SaveSession(active.value, session);
      return Done;
    }

    method UpdateMetadataCommand() returns (r: Reply)
      requires Valid()
      modifies this
      ensures Ends(old(repository), UpdateMetadata(old(repository)), r)
      ensures Valid() && Guarantees.Later(old(repository), repository)
      ensures r == Done <==> old(repository).slot.Some?
      ensures r == Done ==> OnlyMetadata(old(repository), repository)
    {
      hide Invariant.Inv, Guarantees.Later, OnlyMetadata;
      MetadataPromise(repository);
      MetadataIff(repository);
      var active := ActiveSession(repository.sessions, repository.slot);
      if active.Failure? {
        return Refused(active.error);
      }
      var session := repository.sessions[active.value];
      session := session.(metadataRevision := session.metadataRevision + 1);
      SaveSession(active.value, session);
      return Done;
    }

    method EndMatchCommand(outcome: MatchOutcome, humanConfirmed: bool) returns (r: Reply)
      requires Valid()
      modifies this
      ensures Ends(old(repository), EndMatch(old(repository), outcome, humanConfirmed), r)
      ensures Valid() && Guarantees.Later(old(repository), repository)
      ensures r == Done <==> MayEnd(old(repository), humanConfirmed)
      ensures r == Done ==> MatchClosed(old(repository), repository, outcome)
    {
      hide Invariant.Inv, Guarantees.Later, MatchClosed, MayEnd;
      EndPromise(repository, outcome, humanConfirmed);
      EndIff(repository, outcome, humanConfirmed);
      if !humanConfirmed {
        return Refused(OutcomeConfirmationRequired);
      }
      var active := ActiveSession(repository.sessions, repository.slot);
      if active.Failure? {
        return Refused(active.error);
      }
      var i := active.value;
      if i in repository.outcomes {
        return Refused(OutcomeAlreadySet);
      }
      var session := repository.sessions[i];
      if !session.state.BattleReady? && !session.state.TurnRecorded? {
        return Refused(EndNotAllowed);
      }
      var finalRevision := session.battleRevision + 1;
      repository := repository.(outcomes := repository.outcomes[i := OutcomeRecord(outcome, finalRevision)]);
      session := session.(state := MatchEnded);
      session := session.Bumped();
      SaveSession(i, session);
      return Done;
    }

    method CommitExportRecord(session: nat, file: ExportPayload, onDisk: Option<ExportPayload>) returns (r: Reply)
      requires Valid()
      modifies this
      ensures Ends(old(repository), CommitExport(old(repository), session, file, onDisk), r)
      ensures Valid() && Guarantees.Later(old(repository), repository)
      ensures r == Done <==> MayRecordExport(old(repository), session)
      ensures r == Done ==> ExportRecorded(old(repository), repository, session, file)
    {
      hide Invariant.Inv, Guarantees.Later, ExportRecorded, MayRecordExport;
      ExportPromise(repository, session, file, onDisk);
      ExportIff(repository, session, file, onDisk);
      var required := SessionIn(repository.sessions, repository.slot, MatchEnded);
      if required.Failure? {
        return Refused(required.error);
      }
      var i := required.value;
      if i != session {
        return Refused(MatchChangedDuringExport);
      }
      if i in repository.exports {
        var verified := VerifyExport(repository.exports[i], Some(file), onDisk);
        return if verified.Pass? then Done else Refused(verified.error);
      }
      repository := repository.(exports := repository.exports[i := file]);
      var current := repository.sessions[i];
      current := current.(state := MatchExported);
      current := current.Bumped();
      SaveSession(i, current);
      return Done;
    }

    method NewMatchAfterExportCommand(rules: Option<RulesPin>, intel: IntelPin) returns (r: Reply)
      requires Valid()
      modifies this
      ensures Ends(old(repository), NewMatchAfterExport(old(repository), rules, intel), r)
      ensures Valid() && Guarantees.Later(old(repository), repository)
      ensures r == Done <==> MayOpenAfterExport(old(repository), rules)
      ensures r == Done ==> MatchOpened(old(repository), repository, rules, intel)
    {
      hide Invariant.Inv, Guarantees.Later, MatchOpened, MayOpenAfterExport;
      NewMatchAfterExportPromise(repository, rules, intel);
      NewMatchAfterExportIff(repository, rules, intel);
      var before := repository;
      var previous := SessionIn(repository.sessions, repository.slot, MatchExported);
      if previous.Failure? {
        return Refused(previous.error);
      }
      if previous.value !in repository.exports {
        return Refused(ExportRecordMissing);
      }
      repository := repository.(slot := None);
      if rules.None? {
        repository := before;
        return Refused(RulesSnapshotUnavailable);
      }
      InsertFreshSession(rules.value, intel);
      return Done;
    }

    // ---- selection --------------------------------------------------------------------------

    method ConfirmSelection(selfTeam: seq<Name>, opponentTeam: seq<Name>, build: Option<TeamBuild>) returns (r: Reply)
      requires Valid()
      modifies this
      ensures Ends(old(repository), ConfirmSelectionFacts(old(repository), selfTeam, opponentTeam, build), r)
      ensures Valid() && Guarantees.Later(old(repository), repository)
      ensures r == Done <==> TeamsFit(selfTeam, opponentTeam, build) && ActiveIn(old(repository), SelectionOpen)
      ensures r == Done ==> SelectionReviewed(old(repository), repository, selfTeam, opponentTeam, build)
    {
      hide Invariant.Inv, Guarantees.Later, SelectionReviewed, ActiveIn, TeamsFit;
      ConfirmSelectionPromise(repository, selfTeam, opponentTeam, build);
      ConfirmSelectionIff(repository, selfTeam, opponentTeam, build);
      if !ValidTeams(selfTeam, opponentTeam, build) {
        return Refused(SelfTeamBuildMismatch);
      }
      var required := SessionIn(repository.sessions, repository.slot, SelectionOpen);
      if required.Failure? {
        return Refused(required.error);
      }
      var i := required.value;
      var session := repository.sessions[i];
      var row := |repository.selectionFacts|;
      repository := repository.(selectionFacts :=
        repository.selectionFacts + [SelectionFacts(i, selfTeam, opponentTeam, build)]);
      session := session.(reviewedSelection := Some(row));
      session := session.(selectionAdvice := None);
      session := session.Bumped();
      SaveSession(i, session);
      return Done;
    }

    method ApplySelectionCommand(three: seq<Name>, lead: Name, humanConfirmed: bool) returns (r: Reply)
      requires Valid()
      modifies this
      ensures Ends(old(repository), ApplySelection(old(repository), three, lead, humanConfirmed), r)
      ensures Valid() && Guarantees.Later(old(repository), repository)
      ensures r == Done <==> MayApply(old(repository), three, lead, humanConfirmed)
      ensures r == Done ==> SelectionApplied(old(repository), repository, three, lead)
    {
      hide Invariant.Inv, Guarantees.Later, SelectionApplied, MayApply;
      ApplySelectionPromise(repository, three, lead, humanConfirmed);
      ApplySelectionIff(repository, three, lead, humanConfirmed);
      if !humanConfirmed {
        return Refused(HumanApplyRequired);
      }
      var required := SessionIn(repository.sessions, repository.slot, SelectionAdviceReady);
      if required.Failure? {
        return Refused(required.error);
      }
      var i := required.value;
      var session := repository.sessions[i];
      if session.selectionAdvice.None? {
        return Refused(SelectionAdviceRequired);
      }
      if session.reviewedSelection.None? || session.reviewedSelection.value >= |repository.selectionFacts| {
        return Refused(ReviewedSelectionUnavailable);
      }
      var team := repository.selectionFacts[session.reviewedSelection.value].selfTeam;
      if |three| != 3 {
        return Refused(NotExactlyThree);
      }
      if !Text.Distinct(three) {
        return Refused(DuplicateSelection);
      }
      var k := 0;
      while k < 3
        invariant 0 <= k <= 3 && forall j :: 0 <= j < k ==> three[j] in team
        invariant repository == old(repository)
      {
        if three[k] !in team {
          return Refused(OutsideReviewedTeam);
        }
        k := k + 1;
      }
      if lead !in three {
        return Refused(LeadNotSelected);
      }
      var backline := Backline(three, lead);
      var row := |repository.applied|;
      repository := repository.(applied :=
        repository.applied + [AppliedSelection(i, three, lead, backline, session.selectionAdvice.value)]);
      session := session.(applied := Some(row));
      session := session.(state := BattleReady);
      session := session.Bumped();
      SaveSession(i, session);
      return Done;
    }

    // ---- provider jobs ----------------------------------------------------------------------

    method InsertJob(job: Job)
      modifies this
      ensures repository == old(repository).(jobs := old(repository).jobs + [job])
    {
      repository := repository.(jobs := repository.jobs + [job]);
    }

    method RequestSelection(command: Id) returns (r: Reply)
      requires Valid()
      modifies this
      ensures Ends(old(repository), RequestSelectionAdvice(old(repository), command), r)
      ensures Valid() && Guarantees.Later(old(repository), repository)
      ensures r == Done <==> MayRequestSelection(old(repository))
      ensures r == Done ==> SelectionRequested(old(repository), repository, command)
    {
      hide Invariant.Inv, Guarantees.Later, SelectionRequested, MayRequestSelection;
      RequestSelectionPromise(repository, command);
      RequestSelectionIff(repository, command);
      var required := SessionIn(repository.sessions, repository.slot, SelectionOpen);
      if required.Failure? {
        return Refused(required.error);
      }
      var i := required.value;
      var session := repository.sessions[i];
      if session.reviewedSelection.None? {
        return Refused(ReviewedSelectionRequired);
      }
      var guard := GuardProvider(repository.jobs, LatestJob(repository.jobs, i, SelectionAdviceJob));
      if guard.Fail? {
        return Refused(guard.error);
      }
      if session.reviewedSelection.value >= |repository.selectionFacts| {
        return Refused(MissingRow);
      }
      InsertJob(SelectionJob(repository, i, session.reviewedSelection.value, command, Direct));
      return Done;
    }

    /** The ledger row is written first, then judged: a replacement compares the job it replaces. */
    method ReserveSelection(command: Id) returns (r: Reply)
      requires Valid()
      modifies this
      ensures Ends(old(repository), ReserveSelectionAttempt(old(repository), command), r)
      ensures Valid() && Guarantees.Later(old(repository), repository)
      ensures r == Done <==> MayReserve(old(repository))
      ensures r == Done ==> AttemptReserved(old(repository), repository, command)
    {
      hide Invariant.Inv, Guarantees.Later, AttemptReserved, MayReserve;
      ReservePromise(repository, command);
      ReserveIff(repository, command);
      var before := repository;
      var required := SessionIn(repository.sessions, repository.slot, SelectionOpen);
      if required.Failure? {
        return Refused(required.error);
      }
      var i := required.value;
      var session := repository.sessions[i];
      if session.reviewedSelection.None? {
        return Refused(ReviewedSelectionRequired);
      }
      var reviewed, jobId := session.reviewedSelection.value, |repository.jobs|;
      var key := KeyOf(repository, i, reviewed);
      var latest := LatestJob(repository.jobs, i, SelectionAdviceJob);
      var origin := Production(None);
      if key in repository.selectionLedger {
        if latest.None? || !EndedTransiently(repository, i, latest.value) {
          return Refused(SelectionAttemptConsumed);
        }
        if repository.selectionLedger[key] != latest.value {
          return Refused(SelectionAttemptConsumed);
        }
        origin := Production(latest);
        repository := repository.(selectionLedger := repository.selectionLedger[key := jobId]);
      } else {
        repository := repository.(selectionLedger := repository.selectionLedger[key := jobId]);
        var guard := GuardProvider(repository.jobs, latest);
        if guard.Fail? {
          repository := before;
          return Refused(guard.error);
        }
      }
      if reviewed >= |repository.selectionFacts| {
        repository := before;
        return Refused(MissingRow);
      }
      InsertJob(SelectionJob(repository, i, reviewed, command, origin));
      return Done;
    }

    method StartAttemptCommand(job: nat, ordinal: nat) returns (r: Reply)
      requires Valid()
      modifies this
      ensures Ends(old(repository), StartAttempt(old(repository), job, ordinal), r)
      ensures Valid() && Guarantees.Later(old(repository), repository)
      ensures r == Done <==> MayStart(old(repository), job, ordinal)
      ensures r == Done ==> AttemptOpened(old(repository), repository, AttemptKey(job, ordinal))
    {
      hide Invariant.Inv, Guarantees.Later, AttemptOpened, MayStart;
      StartAttemptPromise(repository, job, ordinal);
      AttemptsIff(repository, job, ordinal, false, NoReason);
      var key := AttemptKey(job, ordinal);
      if job >= |repository.jobs| || ordinal < 1 || ordinal > 2 || key in repository.attempts {
        return Refused(IntegrityViolation);
      }
      repository := repository.(attempts := repository.attempts[key := Attempt(Started, NoReason)]);
      return Done;
    }

    method FinishAttemptCommand(job: nat, ordinal: nat, succeeded: bool, reason: FailureReason) returns (r: Reply)
      requires Valid()
      modifies this
      ensures Ends(old(repository), FinishAttempt(old(repository), job, ordinal, succeeded, reason), r)
      ensures Valid() && Guarantees.Later(old(repository), repository)
      ensures r == Done <==> MayFinish(old(repository), job, ordinal)
      ensures r == Done ==> AttemptClosed(old(repository), repository, AttemptKey(job, ordinal), succeeded, reason)
    {
      hide Invariant.Inv, Guarantees.Later, AttemptClosed, MayFinish;
      FinishAttemptPromise(repository, job, ordinal, succeeded, reason);
      AttemptsIff(repository, job, ordinal, succeeded, reason);
      var key := AttemptKey(job, ordinal);
      if key !in repository.attempts || repository.attempts[key].outcome != Started {
        return Refused(AttemptNotStarted);
      }
      var outcome := if succeeded then AttemptSucceeded else AttemptFailed;
      repository := repository.(attempts := repository.attempts[key := Attempt(outcome, reason)]);
      return Done;
    }

    method MarkDispatchedCommand(lane: JobType, job: nat) returns (r: Reply)
      requires Valid()
      modifies this
      ensures Ends(old(repository), MarkDispatched(old(repository), lane, job), r)
      ensures Valid() && Guarantees.Later(old(repository), repository)
      ensures r == Done <==> MayDispatch(old(repository), lane, job)
      ensures r == Done ==> Dispatched(old(repository), repository, lane, job)
    {
      hide Invariant.Inv, Guarantees.Later, Dispatched, MayDispatch;
      DispatchPromise(repository, lane, job);
      DispatchIff(repository, lane, job);
      if job >= |repository.jobs| {
        return Refused(MissingRow);
      }
      var row := repository.jobs[job];
      if row.jobType != lane {
        return Refused(JobTypeNotExpected);
      }
      var active := ActiveSession(repository.sessions, repository.slot);
      if active.Failure? {
        return Refused(active.error);
      }
      if LatestJob(repository.jobs, active.value, lane) != Some(job) {
        return Refused(JobIdNotCurrentForDispatch);
      }
      if row.status != Queued {
        return Refused(JobNotDispatchable);
      }
      row := row.(status := InFlight);
      row := row.(dispatchCount := row.dispatchCount + 1);
      repository := repository.(jobs := repository.jobs[job := row]);
      return Done;
    }

    method FailJobCommand(lane: JobType, job: nat, reason: FailureReason) returns (r: Reply)
      requires Valid()
      modifies this
      ensures Ends(old(repository), FailJob(old(repository), lane, job, reason), r)
      ensures Valid() && Guarantees.Later(old(repository), repository)
      ensures r == Done
      ensures r == Done ==> JobFailed(old(repository), repository, lane, job, reason)
    {
      hide Invariant.Inv, Guarantees.Later, JobFailed;
      FailPromise(repository, lane, job, reason);
      var target := if reason == Timeout then TimedOut else Failed;
      if job >= |repository.jobs| || repository.jobs[job].jobType != lane {
        return Done;
      }
      if IsPending(repository.jobs[job].status) {
        SetJobStatus(job, target);
      }
      return Done;
    }

    /** recover_unfinished_jobs: one pass over the rows still pending. */
    method Recover() returns (r: Reply)
      requires Valid()
      modifies this
      ensures Ends(old(repository), RecoverAfterRestart(old(repository)), r)
      ensures Valid() && Guarantees.Later(old(repository), repository)
      ensures r == Done
      ensures r == Done ==> NothingWaits(old(repository), repository)
    {
      hide Invariant.Inv, Guarantees.Later, NothingWaits;
      RecoverPromise(repository);
      ghost var jobs := repository.jobs;
      var k := 0;
      while k < |repository.jobs|
        invariant 0 <= k <= |jobs| == |repository.jobs|
        invariant repository == old(repository).(jobs := repository.jobs)
        invariant forall j :: 0 <= j < k ==> repository.jobs[j] == Recovered(jobs[j])
        invariant forall j :: k <= j < |jobs| ==> repository.jobs[j] == jobs[j]
      {
        var row := repository.jobs[k];
        if row.status == InFlight && (row.jobType == SelectionAdviceJob || row.jobType == TurnAdviceJob) {
          SetJobStatus(k, DeliveryUnknown);
        } else if IsPending(row.status) {
          SetJobStatus(k, Interrupted);
        }
        k := k + 1;
      }
      assert repository.jobs == RecoverJobs(jobs);
      return Done;
    }

    // ---- results ----------------------------------------------------------------------------

    method AuditResult(result: ResultEnvelope, disposition: Disposition, reason: AuditReason)
      modifies this
      ensures repository == Audited(old(repository), result, disposition, reason)
    {
      var audit := Audit(result.resultId, result.jobId, disposition, reason);
      repository := repository.(audits := repository.audits + [audit]);
    }

    method RejectInvalid(result: ResultEnvelope)
      requires result.jobId < |repository.jobs|
      modifies this
      ensures Ends(old(repository), Invalid(old(repository), result), Done)
    {
      AuditResult(result, InvalidRejected, InvalidPayload);
      SetJobStatus(result.jobId, Failed);
    }

    method ApplySelectionResultCommand(result: ResultEnvelope) returns (r: Reply)
      requires Valid()
      modifies this
      ensures Ends(old(repository), ApplySelectionResult(old(repository), result), r)
      ensures Valid() && Guarantees.Later(old(repository), repository)
      ensures r == Done <==>
                !(SelectionNow(old(repository), result) && ProposalFits(old(repository), result)
                  && ProposalKeyTaken(old(repository), result))
      ensures r == Done ==> ResultSettled(old(repository), repository, result, SelectionAdviceJob)
      ensures r == Done ==> SelectionEnds(old(repository), repository, result)
    {
      hide Invariant.Inv, Guarantees.Later, ResultSettled, ProposalFits, ProposalKeyTaken, SelectionEnds, SelectionNow;
      SelectionResultPromise(repository, result);
      SelectionResultEnds(repository, result);
      if result.jobId >= |repository.jobs| {
        AuditResult(result, StaleRejected, JobIdMismatch);
        return Done;
      }
      var job := repository.jobs[result.jobId];
      if job.jobType != SelectionAdviceJob {
        AuditResult(result, StaleRejected, WrongLane);
        return Done;
      }
      if HasApplied(repository.audits, result.jobId) {
        AuditResult(result, DuplicateIgnored, ResultAlreadyApplied);
        return Done;
      }
      var row := ActiveRow(repository);
      var latest := LatestActiveJob(repository, SelectionAdviceJob);
      var reason := BindingFailure(repository, latest, job, result, CurrentSelection(row), None);
      if reason.Some? {
        AuditResult(result, StaleRejected, reason.value);
        return Done;
      }
      r := AcceptSelection(result);
    }

    method AcceptSelection(result: ResultEnvelope) returns (r: Reply)
      requires result.jobId < |repository.jobs| && ActiveSession(repository.sessions, repository.slot).Success?
      modifies this
      ensures Ends(old(repository), AcceptSelectionResult(old(repository), result), r)
    {
      var i := repository.slot.value;
      var p, snapshot := result.selectionPayload, repository.jobs[result.jobId].snapshot;
      if !snapshot.SelectionSnapshot? || snapshot.row >= |repository.selectionFacts| || p.MalformedSelection?
         || !ThreeOf(p.three, p.lead, repository.selectionFacts[snapshot.row].selfTeam) {
        RejectInvalid(result);
        return Done;
      }
      if SelectionAdviceKeyTaken(repository.selectionAdvices, result.resultId, result.jobId) {
        return Refused(IntegrityViolation);
      }
      var advice := SelectionAdvice(result.resultId, i, result.jobId, p.three, p.lead);
      repository := repository.(selectionAdvices := repository.selectionAdvices + [advice]);
      var session := repository.sessions[i];
      session := session.(selectionAdvice := Some(result.resultId));
      session := session.(state := SelectionAdviceReady);
      session := session.Bumped();
      SaveSession(i, session);
      SetJobStatus(result.jobId, Succeeded);
      AuditResult(result, Applied, BindingAccepted);
      return Done;
    }

    method AppendAdvice(i: nat, result: ResultEnvelope, turn: TurnId, board: nat, recommended: Action)
        returns (r: Reply)
      requires i < |repository.sessions| && result.jobId < |repository.jobs|
      modifies this
      ensures Ends(old(repository), AppendTurnAdvice(old(repository), i, result, turn, board, recommended), r)
    {
      if AdviceKeyTaken(repository.advices, result.resultId, result.jobId) {
        return Refused(IntegrityViolation);
      }
      var advice := TurnAdvice(result.resultId, turn, result.jobId, board, recommended.actionType, recommended.name);
      repository := repository.(advices := repository.advices + [advice]);
      var session := repository.sessions[i];
      session := session.(turnAdvice := Some(result.resultId));
      session := session.Bumped();
      SaveSession(i, session);
      SetJobStatus(result.jobId, Succeeded);
      AuditResult(result, Applied, BindingAccepted);
      return Done;
    }

    method ApplyTurnResultCommand(result: ResultEnvelope) returns (r: Reply)
      requires Valid()
      modifies this
      ensures Ends(old(repository), ApplyTurnResult(old(repository), result), r)
      ensures Valid() && Guarantees.Later(old(repository), repository)
      ensures r == Done <==>
                !(TurnNow(old(repository), result) && AnswerFits(old(repository), result)
                  && AdviceTaken(old(repository), result))
      ensures r == Done ==> ResultSettled(old(repository), repository, result, TurnAdviceJob)
      ensures r == Done ==> TurnEnds(old(repository), repository, result)
    {
      hide Invariant.Inv, Guarantees.Later, ResultSettled, AdviceTaken, AnswerFits, TurnEnds, TurnNow;
      TurnResultPromise(repository, result);
      TurnResultEnds(repository, result);
      if result.jobId >= |repository.jobs| {
        AuditResult(result, StaleRejected, JobIdMismatch);
        return Done;
      }
      var job := repository.jobs[result.jobId];
      if job.jobType != TurnAdviceJob {
        AuditResult(result, StaleRejected, WrongLane);
        return Done;
      }
      if HasApplied(repository.audits, result.jobId) {
        AuditResult(result, DuplicateIgnored, ResultAlreadyApplied);
        return Done;
      }
      var row := ActiveRow(repository);
      var latest := LatestActiveJob(repository, TurnAdviceJob);
      var reason := BindingFailure(repository, latest, job, result, CurrentBoard(row), CurrentTurnNumber(row));
      if reason.Some? {
        AuditResult(result, StaleRejected, reason.value);
        return Done;
      }
      r := AcceptTurn(result);
    }

    method AcceptTurn(result: ResultEnvelope) returns (r: Reply)
      requires result.jobId < |repository.jobs| && ActiveSession(repository.sessions, repository.slot).Success?
      modifies this
      ensures Ends(old(repository), AcceptTurnResult(old(repository), result), r)
      ensures var s := old(repository);
              TurnNow(s, result) && HasBoard(s) && ActiveMatch(s).state == TurnReviewed ==>
                if !AnswerFits(s, result) then r == Done && EndsInvalid(s, repository, result)
                else if AdviceTaken(s, result) then r == Refused(IntegrityViolation) && repository == s
                else
                  var answer := Action(result.turnPayload.actionType, result.turnPayload.actionName);
                  r == Done && EndsApplied(s, repository, result, Advised(s, result), WithAdvice(s, result, answer))
    {
      hide TurnNow, AdviceTaken, EndsInvalid, EndsApplied, RequestNow, LegalIn;
      if TurnNow(repository, result) && HasBoard(repository) && ActiveMatch(repository).state == TurnReviewed {
        AcceptedTurnEnds(repository, result);
      }
      var i := repository.slot.value;
      var session, job, p := repository.sessions[i], repository.jobs[result.jobId], result.turnPayload;
      if !job.snapshot.FactsSnapshot? || session.turn.None? {
        RejectInvalid(result);
        return Done;
      }
      var request := TurnRequestOf(repository, i, job.snapshot.row, job.baseRevision);
      if request.Failure? || p.MalformedTurn? || !p.wellFormed || result.digest != request.value
         || !LegalIn(request.value.board, p.actionType, p.actionName) {
        RejectInvalid(result);
        return Done;
      }
      r := AppendAdvice(i, result, session.turn.value, job.snapshot.row, Action(p.actionType, p.actionName));
    }

    method ApplyRichTurnResultCommand(result: ResultEnvelope, rebuilt: Option<Action>) returns (r: Reply)
      requires Valid()
      modifies this
      ensures Ends(old(repository), ApplyRichTurnResult(old(repository), result, rebuilt), r)
      ensures Valid() && Guarantees.Later(old(repository), repository)
      ensures r == Done <==>
                !(RichNow(old(repository), result) && rebuilt.Some? && AdviceTaken(old(repository), result))
      ensures r == Done ==> ResultSettled(old(repository), repository, result, TurnAdviceJob)
      ensures r == Done ==> RichEnds(old(repository), repository, result, rebuilt)
    {
      hide Invariant.Inv, Guarantees.Later, ResultSettled, AdviceTaken, RichEnds, RichNow;
      RichResultPromise(repository, result, rebuilt);
      RichResultEnds(repository, result, rebuilt);
      if result.jobId >= |repository.jobs| {
        AuditResult(result, StaleRejected, JobIdMismatch);
        return Done;
      }
      var job := repository.jobs[result.jobId];
      if job.jobType != TurnAdviceJob {
        AuditResult(result, StaleRejected, WrongLane);
        return Done;
      }
      if LatestState(repository.states, job.session, job.matchId, job.generation).None? {
        AuditResult(result, StaleRejected, NotRichContract);
        return Done;
      }
      if HasApplied(repository.audits, result.jobId) {
        AuditResult(result, DuplicateIgnored, ResultAlreadyApplied);
        return Done;
      }
      var active := ActiveSession(repository.sessions, repository.slot);
      var current, latestState := None, None;
      if active.Success? {
        current := IdentityNow(repository, active.value);
      }
      if current.Some? {
        latestState := LatestStateOf(repository, active.value);
      }
      var latest := LatestActiveJob(repository, TurnAdviceJob);
      var reason := RichBindingFailure(repository, latest, job, result, current, latestState);
      if reason.Some? {
        AuditResult(result, StaleRejected, reason.value);
        return Done;
      }
      var session := repository.sessions[active.value];
      if rebuilt.None? || session.reviewedBoard.None? || session.turn.None?
         || session.reviewedBoard.value >= |repository.facts| {
        RejectInvalid(result);
        return Done;
      }
      r := AppendAdvice(active.value, result, session.turn.value, session.reviewedBoard.value, rebuilt.value);
    }

    // ---- turns ------------------------------------------------------------------------------

    /** append_turn, then _set_pending_turn; the caller's transaction is over either way. */
    method OpenTurn(i: nat, number: nat) returns (r: Reply)
      requires i < |repository.sessions|
      modifies this
      ensures Ends(old(repository), AppendTurn(old(repository), i, number), r)
    {
      var turn := TurnId(i, number);
      if turn in repository.turns {
        return Refused(IntegrityViolation);
      }
      repository := repository.(turns := repository.turns + [turn]);
      var session := repository.sessions[i];
      session := session.(turn := Some(turn));
      session := session.(reviewedBoard := None);
      session := session.(turnAdvice := None);
      session := session.(state := TurnCapturePending);
      session := session.Bumped();
      SaveSession(i, session);
      return Done;
    }

    method StartTurn() returns (r: Reply)
      requires Valid()
      modifies this
      ensures Ends(old(repository), StartTurnCapture(old(repository)), r)
      ensures Valid() && Guarantees.Later(old(repository), repository)
      ensures r == Done <==> ActiveIn(old(repository), BattleReady)
      ensures r == Done ==> NextTurnOpened(old(repository), repository)
    {
      hide Invariant.Inv, Guarantees.Later, NextTurnOpened, ActiveIn;
      StartTurnPromise(repository);
      StartTurnIff(repository);
      var required := SessionIn(repository.sessions, repository.slot, BattleReady);
      if required.Failure? {
        return Refused(required.error);
      }
      if repository.sessions[required.value].turn.Some? {
        return Refused(CurrentTurnExists);
      }
      r := OpenTurn(required.value, 1);
    }

    method NextTurnCommand() returns (r: Reply)
      requires Valid()
      modifies this
      ensures Ends(old(repository), NextTurn(old(repository)), r)
      ensures Valid() && Guarantees.Later(old(repository), repository)
      ensures r == Done <==> ActiveIn(old(repository), TurnRecorded)
      ensures r == Done ==> NextTurnOpened(old(repository), repository)
    {
      hide Invariant.Inv, Guarantees.Later, NextTurnOpened, ActiveIn;
      NextTurnPromise(repository);
      NextTurnIff(repository);
      var required := SessionIn(repository.sessions, repository.slot, TurnRecorded);
      if required.Failure? {
        return Refused(required.error);
      }
      var current := repository.sessions[required.value].turn;
      if current.None? {
        return Refused(CurrentTurnRequired);
      }
      if current.value !in repository.turns {
        return Refused(MissingRow);
      }
      r := OpenTurn(required.value, current.value.number + 1);
    }

    method CancelWaiting(i: nat)
      modifies this
      ensures repository == old(repository).(jobs := CancelPending(old(repository).jobs, i))
    {
      var latest := LatestJob(repository.jobs, i, TurnAdviceJob);
      if latest.Some? && IsPending(repository.jobs[latest.value].status) {
        SetJobStatus(latest.value, Cancelled);
      }
    }

    method ConfirmFacts(input: FactsInput, humanConfirmed: bool) returns (r: Reply)
      requires Valid()
      modifies this
      ensures Ends(old(repository), ConfirmTurnFacts(old(repository), input, humanConfirmed), r)
      ensures Valid() && Guarantees.Later(old(repository), repository)
      ensures r == Done <==> MayConfirm(old(repository), input, humanConfirmed)
      ensures r == Done ==> BoardConfirmed(old(repository), repository, input)
    {
      hide Invariant.Inv, Guarantees.Later, BoardConfirmed, MayConfirm;
      FactsPromise(repository, input, humanConfirmed);
      ConfirmFactsIff(repository, input, humanConfirmed);
      hide FactsRefusal, FactsRow, CancelPending, ConfirmTurnFacts;
      FactsEnd(repository, input, humanConfirmed);
      if !humanConfirmed {
        return Refused(FactsConfirmationRequired);
      }
      var active := ActiveSession(repository.sessions, repository.slot);
      if active.Failure? {
        return Refused(active.error);
      }
      var i := active.value;
      var session := repository.sessions[i];
      if !session.state.TurnCapturePending? && !session.state.TurnReviewed? {
        return Refused(WrongState);
      }
      if session.turn.None? {
        return Refused(CurrentTurnRequired);
      }
      if session.applied.None? {
        return Refused(AppliedSelectionRequired);
      }
      if session.turn.value !in repository.turns || session.applied.value >= |repository.applied| {
        return Refused(MissingRow);
      }
      var three := repository.applied[session.applied.value].three;
      var row := FactsRow(session.turn.value, input, session.reviewedBoard);
      var refusal := CheckFacts(row, three);
      if refusal.Some? {
        return Refused(refusal.value);
      }
      if session.reviewedBoard.Some? {
        CancelWaiting(i);
      }
      var board := |repository.facts|;
      repository := repository.(facts := repository.facts + [row]);
      session := session.(reviewedBoard := Some(board));
      session := session.(turnAdvice := None);
      session := session.(state := TurnReviewed);
      session := session.Bumped();
      SaveSession(i, session);
      return Done;
    }

    // ---- turn advice ------------------------------------------------------------------------

    method ReserveTurnAttempt(i: nat, turn: TurnId, command: Id, snapshot: SnapshotId, digest: Request)
        returns (r: Reply)
      requires i < |repository.sessions|
      modifies this
      ensures Ends(old(repository), DispatchTurnJob(old(repository), i, turn, command, snapshot, digest), r)
    {
      hide LatestJob, TurnAttemptReserved, LedgerKeyTaken, TurnJob, DispatchTurnJob;
      var session := repository.sessions[i];
      var row := TurnLedgerRow(i, session.matchId, session.generation, turn.number, session.battleRevision, snapshot,
                               |repository.jobs|);
      var job := TurnJob(session, i, turn, command, snapshot, digest);
      DispatchEnds(repository, i, turn, command, snapshot, digest, row, job);
      var latest := LatestJob(repository.jobs, i, TurnAdviceJob);
      if latest.Some? && IsPending(repository.jobs[latest.value].status) {
        return Refused(DenyPendingJob);
      }
      if TurnAttemptReserved(repository.turnLedger, i, session.matchId, session.generation, turn.number, snapshot) {
        return Refused(DenyAttemptConsumed);
      }
      if LedgerKeyTaken(repository.turnLedger, row) {
        return Refused(TurnAttemptConsumed);
      }
      repository := repository.(turnLedger := repository.turnLedger + [row]);
      InsertJob(job);
      return Done;
    }

    method RequestTurn(command: Id) returns (r: Reply)
      requires Valid()
      modifies this
      ensures Ends(old(repository), RequestTurnAdvice(old(repository), command), r)
      ensures Valid() && Guarantees.Later(old(repository), repository)
      ensures r == Done <==> MayRequestTurn(old(repository))
      ensures r == Done ==> TurnRequested(old(repository), repository, command)
    {
      hide Invariant.Inv, Guarantees.Later, TurnRequested, MayRequestTurn;
      RequestTurnPromise(repository, command);
      RequestTurnIff(repository, command);
      var required := SessionIn(repository.sessions, repository.slot, TurnReviewed);
      if required.Failure? {
        return Refused(required.error);
      }
      var i := required.value;
      var session := repository.sessions[i];
      if session.turn.None? {
        return Refused(CurrentTurnRequired);
      }
      if session.reviewedBoard.None? {
        return Refused(ReviewedFactsRequired);
      }
      if session.applied.None? {
        return Refused(AppliedSelectionRequired);
      }
      if session.turnAdvice.Some? {
        return Refused(TurnAdviceExists);
      }
      if session.turn.value !in repository.turns {
        return Refused(MissingRow);
      }
      var guard := GuardProvider(repository.jobs, LatestJob(repository.jobs, i, TurnAdviceJob));
      if guard.Fail? {
        return Refused(guard.error);
      }
      var digest := TurnRequestOf(repository, i, session.reviewedBoard.value, session.battleRevision);
      if digest.Failure? {
        return Refused(digest.error);
      }
      r := ReserveTurnAttempt(i, session.turn.value, command, FactsSnapshot(session.reviewedBoard.value), digest.value);
    }

    method RequestRichTurn(command: Id, gate: Option<nat>) returns (r: Reply)
      requires Valid()
      modifies this
      ensures Ends(old(repository), RequestRichTurnAdvice(old(repository), command, gate), r)
      ensures Valid() && Guarantees.Later(old(repository), repository)
      ensures r == Done <==> MayRequestRich(old(repository), gate)
      ensures r == Done ==> RichRequested(old(repository), repository, command, gate)
    {
      hide Invariant.Inv, Guarantees.Later, RichRequested, MayRequestRich;
      RequestRichPromise(repository, command, gate);
      RequestRichIff(repository, command, gate);
      var required := SessionIn(repository.sessions, repository.slot, TurnReviewed);
      if required.Failure? {
        return Refused(required.error);
      }
      var i := required.value;
      var session := repository.sessions[i];
      if session.turn.None? {
        return Refused(CurrentTurnRequired);
      }
      if session.applied.None? {
        return Refused(AppliedSelectionRequired);
      }
      if session.turn.value !in repository.turns {
        return Refused(MissingRow);
      }
      var state := LatestStateOf(repository, i);
      if state.None? {
        return Refused(NoConfirmedState);
      }
      if Some(state.value.identity) != IdentityNow(repository, i) {
        return Refused(StateNotCurrent);
      }
      if gate.None? {
        return Refused(RichGateDenied);
      }
      var digest := RichRequest(i, session.matchId, session.generation, session.battleRevision, state.value.stateId,
                                gate.value);
      r := ReserveTurnAttempt(i, session.turn.value, command, StateSnapshot(state.value.stateId), digest);
    }

    // ---- recording and advancing ------------------------------------------------------------

    /** The transaction of an action that passed every check. */
    method Take(i: nat, action: RecordedAction, rich: Option<RichCompletion>) returns (r: Reply)
      requires i < |repository.sessions|
      modifies this
      ensures Ends(old(repository), TakeAction(old(repository), i, action, rich), r)
    {
      var before, session := repository, repository.sessions[i];
      if rich.Some? {
        ActionsAreNoKeys(before, before.actions + [action], rich.value);
      }
      hide CompletionKeyTaken;
      repository := repository.(actions := repository.actions + [action]);
      if rich.Some? {
        if action.opponent.Some? && action.opponent.value.name == UNKNOWN_SENTINEL {
          repository := before;
          return Refused(InvalidOpponentName);
        }
        if CompletionKeyTaken(repository, rich.value) {
          repository := before;
          return Refused(IntegrityViolation);
        }
        var row := Completion(rich.value.transaction, rich.value.identity, rich.value.delta.basedOn, action,
                              rich.value.delta.deltaId);
        repository := repository.(deltas := repository.deltas + [rich.value.delta]);
        repository := repository.(completions := repository.completions + [row]);
      }
      session := session.(state := TurnRecorded);
      session := session.Bumped();
      SaveSession(i, session);
      return Done;
    }

    /** The action row goes in first; a completion that conflicts takes it out again. */
    method Record(input: ActionInput, humanConfirmed: bool, rich: Option<RichCompletion>) returns (r: Reply)
      requires Valid()
      modifies this
      ensures Ends(old(repository), RecordAction(old(repository), input, humanConfirmed, rich), r)
      ensures Valid() && Guarantees.Later(old(repository), repository)
      ensures r == Done <==> MayRecord(old(repository), input, humanConfirmed, rich)
      ensures r == Done ==> ActionTaken(old(repository), repository, input, rich)
    {
      hide Invariant.Inv, Guarantees.Later, ActionTaken, MayRecord;
      RecordPromise(repository, input, humanConfirmed, rich);
      RecordIff(repository, input, humanConfirmed, rich);
      hide Text.IsBlank, Text.Strip, LegalIn, ActionFor, CheckCompletion, OpponentAction, TakeAction;
      if !humanConfirmed {
        return Refused(ActionConfirmationRequired);
      }
      if input.opponentType.None? && input.opponentName.Some? {
        return Refused(InvalidOpponentName);
      }
      if input.opponentType.Some? && (input.opponentName.None? || Text.IsBlank(input.opponentName.value)) {
        return Refused(InvalidOpponentName);
      }
      var required := SessionIn(repository.sessions, repository.slot, TurnReviewed);
      if required.Failure? {
        return Refused(required.error);
      }
      var i := required.value;
      var session := repository.sessions[i];
      if session.turn.None? {
        return Refused(CurrentTurnRequired);
      }
      if session.reviewedBoard.None? {
        return Refused(ReviewedFactsRequired);
      }
      if session.turnAdvice.None? {
        return Refused(TurnAdviceRequired);
      }
      var turn := session.turn.value;
      if ActionFor(repository.actions, turn).Some? {
        return Refused(ActionAlreadyRecorded);
      }
      if session.reviewedBoard.value >= |repository.facts| {
        return Refused(MissingRow);
      }
      var board, name := repository.facts[session.reviewedBoard.value], Text.Strip(input.name);
      if !LegalIn(board, input.actionType, name) {
        return Refused(ActionNotLegal);
      }
      var action := RecordedAction(turn, Action(input.actionType, name), OpponentAction(input), input.order);
      if board.turn.number < 1 || Text.IsBlank(name) {
        return Refused(InvalidAction);
      }
      if rich.Some? {
        var checked := CheckCompletion(repository, turn, rich.value);
        if checked.Fail? {
          return Refused(checked.error);
        }
      }
      r := Take(i, action, rich);
    }

    /** Phase 2 of next_turn_with_action_result, for a plan its phase 1 made at some earlier time. */
    method CommitPlan(plan: NextTurnPlan) returns (r: Reply)
      requires Valid()
      modifies this
      ensures Ends(old(repository), CommitNextTurn(old(repository), plan), r)
      ensures Valid() && Guarantees.Later(old(repository), repository)
      ensures r == Done <==> MayCommit(old(repository), plan)
      ensures r == Done ==> DraftStored(old(repository), repository, plan)
    {
      hide Invariant.Inv, Guarantees.Later, DraftStored, MayCommit;
      CommitPlanPromise(repository, plan);
      CommitIff(repository, plan);
      var before := repository;
      var required := SessionIn(repository.sessions, repository.slot, TurnRecorded);
      if required.Failure? {
        return Refused(required.error);
      }
      var i := required.value;
      var session := repository.sessions[i];
      if i != plan.session || session.matchId != plan.matchId || session.generation != plan.generation
         || session.turn != Some(plan.turn) || session.battleRevision != plan.revision {
        return Refused(Phase1BindingStale);
      }
      if plan.turn !in repository.turns {
        return Refused(MissingRow);
      }
      if LatestStateOf(repository, i) != Some(plan.confirmed) {
        return Refused(Phase1BindingStale);
      }
      if LastDeltaOn(repository.deltas, plan.confirmed.stateId) != Some(plan.delta) {
        return Refused(Phase1BindingStale);
      }
      r := OpenTurn(i, plan.turn.number + 1);
      if r != Done {
        return;
      }
      var identity := plan.draft.identity;
      if repository.sessions[i].battleRevision != identity.battleRevision {
        repository := before;
        return Refused(NextTurnRevisionMismatch);
      }
      var key := DraftKey(identity.session, identity.turnId, identity.battleRevision);
      if DraftIdTaken(repository.drafts, key, plan.draft.draftId) {
        repository := before;
        return Refused(IntegrityViolation);
      }
      repository := repository.(drafts := repository.drafts[key := plan.draft]);
      return Done;
    }

    method AppendState(state: ConfirmedTurnState) returns (r: Reply)
      requires Valid()
      modifies this
      ensures Ends(old(repository), AppendConfirmedState(old(repository), state), r)
      ensures Valid() && Guarantees.Later(old(repository), repository)
      ensures r == Done <==> MayAppend(old(repository), state)
      ensures r == Done ==> StateStored(old(repository), repository, state)
    {
      hide Invariant.Inv, Guarantees.Later, StateStored, MayAppend;
      AppendStatePromise(repository, state);
      AppendIff(repository, state);
      var k := 0;
      while k < |repository.states|
        invariant 0 <= k <= |repository.states| && repository == old(repository)
        invariant forall j :: 0 <= j < k ==> !SameStateKey(repository.states[j], state)
      {
        if SameStateKey(repository.states[k], state) {
          return Refused(IntegrityViolation);
        }
        k := k + 1;
      }
      if state.previous.Some? && state.previous.value != state.stateId
         && StateRow(repository.states, state.previous.value).None? {
        return Refused(IntegrityViolation);
      }
      repository := repository.(states := repository.states + [state]);
      return Done;
    }
  }

  /** The guards of confirm_turn_facts in order, and the store it leaves when all hold. */
  lemma FactsEnd(s: Store, input: FactsInput, humanConfirmed: bool)
    ensures ConfirmTurnFacts(s, input, humanConfirmed) ==
            if !humanConfirmed then Failure(FactsConfirmationRequired)
            else if ActiveSession(s.sessions, s.slot).Failure? then Failure(NoActiveMatch)
            else
              var i := s.slot.value;
              var x := s.sessions[i];
              if !x.state.TurnCapturePending? && !x.state.TurnReviewed? then Failure(WrongState)
              else if x.turn.None? then Failure(CurrentTurnRequired)
              else if x.applied.None? then Failure(AppliedSelectionRequired)
              else if x.turn.value !in s.turns || x.applied.value >= |s.applied| then Failure(MissingRow)
              else
                var row := FactsRow(x.turn.value, input, x.reviewedBoard);
                var refusal := FactsRefusal(row, s.applied[x.applied.value].three);
                if refusal.Some? then Failure(refusal.value)
                else
                  var y := x.Bumped().(reviewedBoard := Some(|s.facts|), turnAdvice := None, state := TurnReviewed);
                  Success(Save(s, i, y).(facts := s.facts + [row],
                                         jobs := if x.reviewedBoard.Some? then CancelPending(s.jobs, i) else s.jobs))
  {
    hide FactsRefusal, FactsRow, CancelPending;
  }

  lemma DispatchEnds(s: Store, i: nat, turn: TurnId, command: Id, snapshot: SnapshotId, digest: Request,
                     row: TurnLedgerRow, job: Job)
    requires i < |s.sessions| && job == TurnJob(s.sessions[i], i, turn, command, snapshot, digest)
    requires row == TurnLedgerRow(i, s.sessions[i].matchId, s.sessions[i].generation, turn.number,
                                  s.sessions[i].battleRevision, snapshot, |s.jobs|)
    ensures var latest, x := LatestJob(s.jobs, i, TurnAdviceJob), s.sessions[i];
            DispatchTurnJob(s, i, turn, command, snapshot, digest) ==
            if latest.Some? && IsPending(s.jobs[latest.value].status) then Failure(DenyPendingJob)
            else if TurnAttemptReserved(s.turnLedger, i, x.matchId, x.generation, turn.number, snapshot)
              then Failure(DenyAttemptConsumed)
            else if LedgerKeyTaken(s.turnLedger, row) then Failure(TurnAttemptConsumed)
            else Success(s.(turnLedger := s.turnLedger + [row], jobs := s.jobs + [job]))
  {
    hide LatestJob, TurnAttemptReserved, LedgerKeyTaken, TurnJob;
  }

  /** The first of confirm_turn_facts' checks on the stripped row that fails. */
  method CheckFacts(row: TurnFacts, three: seq<Name>) returns (refusal: Option<Refusal>)
    ensures refusal == FactsRefusal(row, three)
  {
    if row.selfActive !in three {
      return Some(ActiveOutsideSelection);
    }
    var k := 0;
    while k < |row.switches|
      invariant 0 <= k <= |row.switches| && forall j :: 0 <= j < k ==> row.switches[j] in three
    {
      if row.switches[k] !in three {
        return Some(SwitchOutsideSelection);
      }
      k := k + 1;
    }
    if row.selfActive in row.switches {
      return Some(ActiveAmongSwitches);
    }
    return if ValidTurnFacts(row) then None else Some(InvalidTurnFacts);
  }

  /** The chosen three without the lead, in order. */
  method Backline(three: seq<Name>, lead: Name) returns (r: seq<Name>)
    ensures r == Without(three, lead)
  {
    r := [];
    var k := 0;
    while k < |three|
      invariant 0 <= k <= |three| && Without(three, lead) == r + Without(three[k..], lead)
    {
      assert three[k..][1..] == three[k + 1..];
      if three[k] != lead {
        r := r + [three[k]];
      }
      k := k + 1;
    }
  }
}
