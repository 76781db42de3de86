/** The other half of stale-result safety: a truthful answer to a job that still waits is not turned away. */
module Progress {
  import opened Basics
  import opened TurnState
  import opened Records
  import opened Store
  import opened Commands
  import opened Invariant
  import opened Evolution
  import opened Effects
  import opened Steps
  import opened Guarantees
  import opened Promises
  import opened Results

  /** What a truthful worker sends back: the job's own binding, and its answer. */
  function Echo(j: Job, job: nat, resultId: Id, answer: TurnPayload): ResultEnvelope {
    ResultEnvelope(CONTRACT_VERSION, resultId, job, j.commandId, j.jobType, j.session, j.matchId, j.generation, j.turnNumber,
                   j.baseRevision, j.expectedState, j.snapshot, j.digest, MalformedSelection, answer)
  }

  /** A Turn Advice job as the session is now: made for its current turn and reviewed board. */
  predicate MadeFor(s: Store, i: nat, j: Job) {
    && i < |s.sessions| && j.jobType == TurnAdviceJob && j.session == i
    && var x := s.sessions[i];
       && x.state.TurnReviewed? && x.turn.Some? && x.reviewedBoard.Some? && x.reviewedBoard.value < |s.facts|
       && j.matchId == x.matchId && j.generation == x.generation && j.turnNumber == Some(x.turn.value.number)
       && j.baseRevision == x.battleRevision && j.expectedState == x.state
       && j.snapshot == FactsSnapshot(x.reviewedBoard.value)
       && TurnRequestOf(s, i, x.reviewedBoard.value, x.battleRevision) == Success(j.digest)
  }

  lemma RequestedForNow(s: Store, command: Id, made: Store) returns (i: nat, j: Job)
    requires RequestTurnAdvice(s, command) == Success(made)
    ensures made.jobs == s.jobs + [j] && made.sessions == s.sessions && made.facts == s.facts
    ensures made.audits == s.audits && made.applied == s.applied && made.selectionFacts == s.selectionFacts
    ensures MadeFor(made, i, j)
  {
    i, j := s.slot.value, made.jobs[|s.jobs|];
    hide TurnAttemptReserved, LedgerKeyTaken, LatestJob, GuardProvider;
  }

  lemma RequestStays(s: Store, late: Store, i: nat, board: nat, revision: nat)
    requires i < |s.sessions| && i < |late.sessions| && SameCore(s.sessions[i], late.sessions[i])
    requires TurnRequestOf(s, i, board, revision).Success?
    requires |s.facts| <= |late.facts| && (forall k :: 0 <= k < |s.facts| ==> late.facts[k] == s.facts[k])
    requires TablesGrow(s, late)
    ensures TurnRequestOf(late, i, board, revision) == TurnRequestOf(s, i, board, revision)
    ensures board < |s.facts| && TurnRequestOf(s, i, board, revision).value.TurnRequest?
    ensures TurnRequestOf(s, i, board, revision).value.board == s.facts[board]
  {
  }

  /** The job fits the session for as long as the session is untouched. */
  lemma StillMadeFor(made: Store, late: Store, i: nat, j: Job)
    requires MadeFor(made, i, j) && Later(made, late) && i < |late.sessions|
    requires SameCore(made.sessions[i], late.sessions[i])
    ensures MadeFor(late, i, j)
    ensures late.facts[late.sessions[i].reviewedBoard.value] == made.facts[made.sessions[i].reviewedBoard.value]
  {
    hide TurnRequestOf;
    RequestStays(made, late, i, made.sessions[i].reviewedBoard.value, made.sessions[i].battleRevision);
  }

  /** In a sound repository a waiting job is its lane's newest, undecided, and its open session the active one. */
  lemma WaitingJobIsOpen(s: Store, i: nat, job: nat)
    requires Inv(s) && job < |s.jobs| && IsPending(s.jobs[job].status) && s.jobs[job].session == i
    requires i < |s.sessions| && s.sessions[i].state.TurnReviewed?
    ensures ActiveSession(s.sessions, s.slot) == Success(i)
    ensures LatestJob(s.jobs, i, s.jobs[job].jobType) == Some(job) && !HasApplied(s.audits, job)
  {
    hide SelectionRows, TurnRows, FactRows, AdviceRows, ActionRows, OutcomeRows, ContentInv;
    assert Blocking(s.jobs[job]);
    assert !Closed(s.sessions[i]);
  }

  predicate AppliedNow(s: Store, r: ResultEnvelope, i: nat, answer: TurnPayload) {
    && answer.Body? && ApplyTurnResult(s, r).Success?
    && var s' := ApplyTurnResult(s, r).value;
       && |s'.audits| == |s.audits| + 1 && s'.audits[|s.audits|] == Audit(r.resultId, r.jobId, Applied, BindingAccepted)
       && i < |s'.sessions| && s'.sessions[i].turnAdvice == Some(r.resultId)
       && |s'.advices| == |s.advices| + 1
       && s'.advices[|s.advices|].actionType == answer.actionType && s'.advices[|s.advices|].actionName == answer.actionName
  }

  lemma EchoIsApplied(s: Store, i: nat, job: nat, j: Job, resultId: Id, answer: TurnPayload)
    requires job < |s.jobs| && s.jobs[job] == j.(status := s.jobs[job].status, dispatchCount := s.jobs[job].dispatchCount)
    requires MadeFor(s, i, j) && IsPending(s.jobs[job].status) && ActiveSession(s.sessions, s.slot) == Success(i)
    requires LatestJob(s.jobs, i, TurnAdviceJob) == Some(job) && !HasApplied(s.audits, job)
    requires answer.Body? && answer.wellFormed
    requires LegalIn(s.facts[s.sessions[i].reviewedBoard.value], answer.actionType, answer.actionName)
    requires !AdviceKeyTaken(s.advices, resultId, job)
    ensures AppliedNow(s, Echo(j, job, resultId, answer), i, answer)
  {
    hide LatestJob, HasApplied, AdviceKeyTaken, ActiveSession, LegalIn, TurnRequestOf;
    var x := s.sessions[i];
    RequestStays(s, s, i, x.reviewedBoard.value, x.battleRevision);
  }

  /** A truthful, legal answer to a job that waits and whose match nobody touched is applied. */
  lemma TruthfulAnswerIsApplied(s: Store, command: Id, made: Store, commands: seq<Command>, late: Store, resultId: Id,
                                answer: TurnPayload)
    requires Reachable(s) && RequestTurnAdvice(s, command) == Success(made) && late == Run(made, commands)
    requires |s.jobs| < |made.jobs| && |s.jobs| < |late.jobs|
    requires made.jobs[|s.jobs|].session < |made.sessions| && made.jobs[|s.jobs|].session < |late.sessions|
    requires SameCore(made.sessions[made.jobs[|s.jobs|].session], late.sessions[made.jobs[|s.jobs|].session])
    requires IsPending(late.jobs[|s.jobs|].status)
    requires answer.Body? && answer.wellFormed && AnswerLegal(made, made.jobs[|s.jobs|], answer)
    requires !AdviceKeyTaken(late.advices, resultId, |s.jobs|)
    ensures AppliedNow(late, Echo(made.jobs[|s.jobs|], |s.jobs|, resultId, answer), made.jobs[|s.jobs|].session, answer)
  {
    hide Run, Inv, Later, RequestTurnAdvice, MadeFor, AppliedNow, Echo, AdviceKeyTaken, SameCore, LegalIn, HasApplied;
    var job := |s.jobs|;
    var i, j := RequestedForNow(s, command, made);
    assert made.jobs[job] == j;
    AnswerOnBoard(made, i, j, answer);
    ReachesOn(s, command, made, commands, late, job);
    StillMadeFor(made, late, i, j);
    OpenNow(late, i, j);
    WaitingJobIsOpen(late, i, job);
    EchoIsApplied(late, i, job, j, resultId, answer);
  }

  /** The recommended action is one of the reviewed board's legal ones. */
  predicate AnswerLegal(s: Store, j: Job, answer: TurnPayload)
    requires answer.Body?
  {
    && j.snapshot.FactsSnapshot? && j.snapshot.row < |s.facts|
    && LegalIn(s.facts[j.snapshot.row], answer.actionType, answer.actionName)
  }

  lemma AnswerOnBoard(s: Store, i: nat, j: Job, answer: TurnPayload)
    requires MadeFor(s, i, j) && answer.Body? && AnswerLegal(s, j, answer)
    ensures i < |s.sessions| && s.sessions[i].reviewedBoard.Some? && s.sessions[i].reviewedBoard.value < |s.facts|
    ensures j.session == i && j.jobType == TurnAdviceJob
    ensures LegalIn(s.facts[s.sessions[i].reviewedBoard.value], answer.actionType, answer.actionName)
  {
    hide LegalIn, TurnRequestOf;
  }

  lemma OpenNow(s: Store, i: nat, j: Job)
    requires MadeFor(s, i, j)
    ensures i < |s.sessions| && s.sessions[i].state.TurnReviewed? && j.jobType == TurnAdviceJob
  {
    hide TurnRequestOf;
  }

  lemma ReachesOn(s: Store, command: Id, made: Store, commands: seq<Command>, late: Store, job: nat)
    requires Reachable(s) && RequestTurnAdvice(s, command) == Success(made) && late == Run(made, commands)
    requires job < |made.jobs|
    ensures Inv(s) && Inv(made) && Inv(late) && Later(made, late)
    ensures job < |late.jobs| && LaterJob(made.jobs[job], late.jobs[job])
  {
    hide Run, Inv, RequestTurnAdvice, Stepped;
    ReachableIsSound(s);
    RequestTurnSteps(s, command, made);
    SteppedIsSound(s, made);
    RunKeeps(made, commands);
  }

  lemma SteppedIsSound(s: Store, s': Store)
    requires Stepped(s, s')
    ensures Inv(s')
  {
    hide Inv, Evolves;
  }

  lemma RequestIsStep(s: Store, command: Id, made: Store)
    requires RequestTurnAdvice(s, command) == Success(made)
    ensures made == Step(s, CRequestTurnAdvice(command))
  {
    hide RequestTurnAdvice;
  }

  lemma ApplyIsStep(s: Store, r: ResultEnvelope)
    requires ApplyTurnResult(s, r).Success?
    ensures Step(s, CApplyTurnResult(r)) == ApplyTurnResult(s, r).value
  {
    hide ApplyTurnResult;
  }

  /** An applied answer was well formed and named an action of the board it was asked about. */
  lemma AppliedWasLegal(made: Store, late: Store, i: nat, j: Job, job: nat, resultId: Id, answer: TurnPayload)
    requires Inv(late) && Later(made, late) && MadeFor(made, i, j)
    requires AppliedNow(late, Echo(j, job, resultId, answer), i, answer)
    ensures answer.Body? && answer.wellFormed && AnswerLegal(made, j, answer)
  {
    hide Inv, ApplyTurnResult, RequestNow, TurnRequestOf, SaysJob, AdviceTaken;
    var r := Echo(j, job, resultId, answer);
    TurnResultEnds(late, r);
    assert TurnEnds(late, ApplyTurnResult(late, r).value, r);
    assert AnswerFits(late, r) && TurnNow(late, r);
    FactsStay(made, late, j.snapshot.row);
  }

  lemma FactsStay(s: Store, s': Store, k: nat)
    requires Later(s, s') && k < |s.facts|
    ensures k < |s'.facts| && s'.facts[k] == s.facts[k]
  {
  }

  /**
   Applied exactly when untouched and legal: whatever commands, restarts and other results come between a request and
   an answer that repeats the job's binding, the answer is applied if and only if the job still waits, the match is as
   it was, and the answer is well formed and names an action of the board the request was about.
   */
  lemma AppliedIffUntouched(s: Store, command: Id, made: Store, commands: seq<Command>, late: Store, resultId: Id,
                            answer: TurnPayload)
    requires Reachable(s) && RequestTurnAdvice(s, command) == Success(made) && late == Run(made, commands)
    requires |made.jobs| == |s.jobs| + 1
    requires !AdviceKeyTaken(late.advices, resultId, |s.jobs|)
    ensures var i := made.jobs[|s.jobs|].session;
            && i < |made.sessions| && i < |late.sessions| && |s.jobs| < |late.jobs|
            && (AppliedNow(late, Echo(made.jobs[|s.jobs|], |s.jobs|, resultId, answer), i, answer) <==>
                  && IsPending(late.jobs[|s.jobs|].status) && SameCore(made.sessions[i], late.sessions[i])
                  && answer.Body? && answer.wellFormed && AnswerLegal(made, made.jobs[|s.jobs|], answer))
  {
    hide Run, Inv, Later, RequestTurnAdvice, MadeFor, AdviceKeyTaken, SameCore, AnswerLegal, Step, Reachable;
    hide ApplyTurnResult;
    var job, r := |s.jobs|, Echo(made.jobs[|s.jobs|], |s.jobs|, resultId, answer);
    var i, j := RequestedForNow(s, command, made);
    assert made.jobs[job] == j;
    OpenNow(made, i, j);
    ReachesOn(s, command, made, commands, late, job);
    LaterSessions(made, late);
    MadeSession(made, i, j);
    if AppliedNow(late, r, i, answer) {
      var end := ApplyTurnResult(late, r).value;
      RequestIsStep(s, command, made);
      ApplyIsStep(late, r);
      NothingRuns(late);
      AppliedMeansUntouched(s, CRequestTurnAdvice(command), made, commands, late, [], late, CApplyTurnResult(r), end);
      AppliedIsDecidable(late, CApplyTurnResult(r));
      AppliedWasLegal(made, late, i, j, job, resultId, answer);
    }
    if IsPending(late.jobs[job].status) && SameCore(made.sessions[i], late.sessions[i])
       && answer.Body? && answer.wellFormed && AnswerLegal(made, made.jobs[job], answer) {
      TruthfulAnswerIsApplied(s, command, made, commands, late, resultId, answer);
    }
  }

  lemma NothingRuns(s: Store)
    ensures Run(s, []) == s
  {
  }

  lemma LaterSessions(s: Store, s': Store)
    requires Later(s, s')
    ensures |s.sessions| <= |s'.sessions| && |s.jobs| <= |s'.jobs|
  {
  }

  lemma MadeSession(s: Store, i: nat, j: Job)
    requires MadeFor(s, i, j)
    ensures j.session == i && i < |s.sessions|
  {
    hide TurnRequestOf;
  }

  // ---- every lane ---------------------------------------------------------------------------

  /** The result repeats the job's own binding, whatever its payload. */
  predicate Echoes(r: ResultEnvelope, j: Job, job: nat) {
    && r.contractVersion == 1 && r.jobId == job && r.commandId == j.commandId && r.jobType == j.jobType
    && r.session == j.session && r.matchId == j.matchId && r.generation == j.generation && r.turnNumber == j.turnNumber
    && r.baseRevision == j.baseRevision && r.expectedState == j.expectedState && r.snapshot == j.snapshot
    && r.digest == j.digest
  }

  /** The job was made for its session as it is. */
  predicate MadeNow(s: Store, j: Job) {
    && j.session < |s.sessions|
    && var x := s.sessions[j.session];
       && j.matchId == x.matchId && j.generation == x.generation && j.baseRevision == x.battleRevision
       && j.expectedState == x.state && (x.state == SelectionOpen || x.state == TurnReviewed)
  }

  lemma OpenIsActive(s: Store, i: nat)
    requires Inv(s) && i < |s.sessions| && !Closed(s.sessions[i])
    ensures s.slot == Some(i)
  {
    hide SelectionRows, TurnRows, FactRows, AdviceRows, ActionRows, OutcomeRows, ContentInv, LaneInv, JobRows, Shape;
  }

  lemma PendingIsNewest(s: Store, job: nat)
    requires Inv(s) && job < |s.jobs| && IsPending(s.jobs[job].status)
    ensures LatestJob(s.jobs, s.jobs[job].session, s.jobs[job].jobType) == Some(job)
  {
    hide BattleInv, LaneInv, ContentInv;
    assert Blocking(s.jobs[job]);
  }

  lemma RevisionTells(s: Store, s': Store, i: nat)
    requires Later(s, s') && i < |s.sessions|
    ensures i < |s'.sessions|
    ensures s'.sessions[i].battleRevision == s.sessions[i].battleRevision <==> SameCore(s.sessions[i], s'.sessions[i])
  {
    assert LaterSession(s.sessions[i], s'.sessions[i]);
  }

  /**
   In any lane, a result that repeats its job's binding still fits exactly when the job waits and nobody moved
   the match.
   */
  lemma EchoFitsIff(made: Store, late: Store, job: nat, r: ResultEnvelope)
    requires Inv(late) && Later(made, late) && job < |made.jobs| && job < |late.jobs|
    requires LaterJob(made.jobs[job], late.jobs[job]) && MadeNow(made, made.jobs[job]) && Echoes(r, made.jobs[job], job)
    ensures made.jobs[job].session < |late.sessions|
    ensures SaysJob(late, r, made.jobs[job].jobType) <==>
              && IsPending(late.jobs[job].status)
              && SameCore(made.sessions[made.jobs[job].session], late.sessions[made.jobs[job].session])
  {
    hide Inv, Later;
    var i := made.jobs[job].session;
    RevisionTells(made, late, i);
    if IsPending(late.jobs[job].status) && SameCore(made.sessions[i], late.sessions[i]) {
      PendingIsNewest(late, job);
      OpenIsActive(late, i);
    }
  }

  lemma NewJobIsMadeNow(s: Store, made: Store)
    requires Inv(s) && Stepped(s, made) && |made.jobs| == |s.jobs| + 1
    ensures Inv(made) && MadeNow(made, made.jobs[|s.jobs|])
  {
    hide BattleInv, LaneInv, ContentInv, Earned, LaneFree, TurnsFrozen, TablesGrow, AuditsEvolve, SessionsEvolve;
    hide JobsEvolve;
    assert JobBound(made.jobs[|s.jobs|], made.sessions);
  }

  /** A Selection proposal that repeats its job's binding fits exactly when the job waits and nobody moved the match. */
  lemma ProposalFitsIffUntouched(s: Store, command: Id, made: Store, commands: seq<Command>, late: Store,
                                 r: ResultEnvelope)
    requires Reachable(s) && (RequestSelectionAdvice(s, command) == Success(made)
                              || ReserveSelectionAttempt(s, command) == Success(made))
    requires late == Run(made, commands) && |made.jobs| == |s.jobs| + 1 && Echoes(r, made.jobs[|s.jobs|], |s.jobs|)
    ensures var i := made.jobs[|s.jobs|].session;
            && i < |made.sessions| && i < |late.sessions| && |s.jobs| < |late.jobs|
            && (SelectionNow(late, r) <==>
                  IsPending(late.jobs[|s.jobs|].status) && SameCore(made.sessions[i], late.sessions[i]))
  {
    hide Run, Inv, Later, RequestSelectionAdvice, ReserveSelectionAttempt, Stepped, Reachable, SaysJob, MadeNow, Echoes;
    hide EndedTransiently;
    var job := |s.jobs|;
    ReachableIsSound(s);
    if RequestSelectionAdvice(s, command) == Success(made) {
      RequestSelectionSteps(s, command, made);
      RequestMakes(s, command, made);
    } else {
      ReserveSteps(s, command, made);
      ReserveMakes(s, command, made);
    }
    NewJobIsMadeNow(s, made);
    RunKeeps(made, commands);
    JobStays(made, late, job);
    EchoFitsIff(made, late, job, r);
    EchoedSnapshot(r, made.jobs[job], job);
    if SaysJob(late, r, SelectionAdviceJob) {
      SameSession(made, late, job, r);
    }
  }

  lemma JobStays(made: Store, late: Store, job: nat)
    requires Later(made, late) && job < |made.jobs|
    ensures job < |late.jobs| && LaterJob(made.jobs[job], late.jobs[job])
  {
  }

  lemma EchoedSnapshot(r: ResultEnvelope, j: Job, job: nat)
    requires Echoes(r, j, job)
    ensures r.snapshot == j.snapshot && r.turnNumber == j.turnNumber && r.jobType == j.jobType
  {
  }

  lemma SameSession(made: Store, late: Store, job: nat, r: ResultEnvelope)
    requires job < |made.jobs| && Echoes(r, made.jobs[job], job) && SaysJob(late, r, made.jobs[job].jobType)
    ensures HasActive(late) && late.slot.value == made.jobs[job].session
  {
  }

  /** The match's latest confirmed state is the one the job is about, and is of the match's turn and revision now. */
  predicate StateStill(s: Store, j: Job) {
    && j.session < |s.sessions|
    && var x := s.sessions[j.session];
       var state := LatestState(s.states, j.session, x.matchId, x.generation);
       && state.Some? && j.snapshot == StateSnapshot(state.value.stateId)
       && Some(state.value.identity) == IdentityNow(s, j.session)
  }

  /** A rich answer that does fits exactly when, besides, the state it was asked about is still the latest. */
  lemma RichFitsIffUntouched(s: Store, command: Id, gate: Option<nat>, made: Store, commands: seq<Command>, late: Store,
                             r: ResultEnvelope)
    requires Reachable(s) && RequestRichTurnAdvice(s, command, gate) == Success(made) && late == Run(made, commands)
    requires |made.jobs| == |s.jobs| + 1 && Echoes(r, made.jobs[|s.jobs|], |s.jobs|)
    ensures var i := made.jobs[|s.jobs|].session;
            && i < |made.sessions| && i < |late.sessions| && |s.jobs| < |late.jobs|
            && (RichNow(late, r) <==>
                  && IsPending(late.jobs[|s.jobs|].status) && SameCore(made.sessions[i], late.sessions[i])
                  && StateStill(late, made.jobs[|s.jobs|]))
  {
    hide Run, Inv, Later, RequestRichTurnAdvice, Stepped, Reachable, SaysJob, MadeNow, Echoes, LatestState;
    var job := |s.jobs|;
    ReachableIsSound(s);
    RequestRichSteps(s, command, gate, made);
    RequestRichMakes(s, command, gate, made);
    NewJobIsMadeNow(s, made);
    RunKeeps(made, commands);
    JobStays(made, late, job);
    EchoFitsIff(made, late, job, r);
    EchoedSnapshot(r, made.jobs[job], job);
    RichSessions(s, command, gate, made);
    if SaysJob(late, r, TurnAdviceJob) {
      SameSession(made, late, job, r);
    }
  }

  lemma RichSessions(s: Store, command: Id, gate: Option<nat>, made: Store)
    requires RequestRichTurnAdvice(s, command, gate) == Success(made)
    ensures made.sessions == s.sessions && made.slot == s.slot
  {
    hide LatestJob, TurnAttemptReserved, LedgerKeyTaken, LatestState;
  }
}
