/**
 When each command is done: exactly under conditions on its inputs and on the rows a caller can look at before the
 call. What the guards check besides is implied by the invariant, so it is not among them.
 */
module Conditions {
  import opened Basics
  import Text
  import opened TurnState
  import opened Records
  import opened Store
  import opened Commands
  import opened Invariant
  import opened Evolution
  import opened Effects
  import opened Guarantees
  import opened Promises

  predicate ActiveIn(s: Store, state: BattleState) {
    HasActive(s) && ActiveMatch(s).state == state
  }

  // ---- what the invariant says of the active match ------------------------------------------

  lemma SlotIsRow(s: Store)
    requires Inv(s)
    ensures s.slot.Some? <==> HasActive(s)
    ensures HasActive(s) ==> Shape(ActiveMatch(s)) && !ActiveMatch(s).state.Aborted?
  {
    hide SelectionRows, TurnRows, FactRows, AdviceRows, ActionRows, OutcomeRows, ContentInv, LaneInv, JobRows, Shape;
  }

  lemma ActiveOutcome(s: Store)
    requires Inv(s) && HasActive(s)
    ensures s.slot.value in s.outcomes <==> ActiveMatch(s).state.MatchEnded? || ActiveMatch(s).state.MatchExported?
    ensures s.slot.value in s.exports <==> ActiveMatch(s).state.MatchExported?
  {
    hide SessionsOk, SelectionRows, TurnRows, FactRows, AdviceRows, ActionRows, ContentInv, LaneInv, JobRows;
  }

  lemma ActiveSelection(s: Store)
    requires Inv(s) && HasActive(s)
    ensures ActiveMatch(s).reviewedSelection.Some? ==> HasReviewed(s)
    ensures ActiveMatch(s).applied.Some? ==> ActiveMatch(s).applied.value < |s.applied|
  {
    hide SessionsOk, TurnRows, FactRows, AdviceRows, ActionRows, OutcomeRows, ContentInv, LaneInv, JobRows;
    assert SelectionBound(ActiveMatch(s), s.slot.value, s.selectionFacts, s.applied);
  }

  lemma ActiveTurn(s: Store)
    requires Inv(s) && HasActive(s)
    ensures ActiveMatch(s).turn.Some? ==> ActiveMatch(s).turn.value in s.turns && ActiveMatch(s).turn.value.number >= 1
    ensures ActiveMatch(s).turn.Some? ==> ActiveMatch(s).turn.value.session == s.slot.value
    ensures TurnId(s.slot.value, TurnCount(ActiveMatch(s)) + 1) !in s.turns
    ensures ActiveMatch(s).turn.Some? && Undecided(ActiveMatch(s).state) ==>
              ActionFor(s.actions, ActiveMatch(s).turn.value).None?
  {
    hide SessionsOk, SelectionRows, FactRows, AdviceRows, OutcomeRows, ContentInv, LaneInv, JobRows;
    var x := ActiveMatch(s);
    if x.turn.Some? {
      assert HasTurn(s.turns, s.slot.value, x.turn.value.number);
    }
  }

  lemma ActiveBoard(s: Store)
    requires Inv(s) && HasActive(s) && ActiveMatch(s).reviewedBoard.Some?
    ensures ActiveMatch(s).reviewedBoard.value < |s.facts|
    ensures ValidTurnFacts(s.facts[ActiveMatch(s).reviewedBoard.value])
  {
    hide SessionsOk, SelectionRows, TurnRows, AdviceRows, ActionRows, OutcomeRows, LaneInv, JobRows, ValidTurnFacts;
  }

  // ---- match lifecycle ----------------------------------------------------------------------

  predicate MayOpen(s: Store, rules: Option<RulesPin>) {
    s.slot == None && rules.Some?
  }

  lemma NewMatchIff(s: Store, rules: Option<RulesPin>, intel: IntelPin)
    requires Inv(s)
    ensures NewMatch(s, rules, intel).Success? <==> MayOpen(s, rules)
  {
    SlotIsRow(s);
    hide Inv, InsertSession;
  }

  predicate MayAbort(s: Store, confirmed: bool) {
    confirmed && HasActive(s) && !ActiveMatch(s).state.MatchEnded? && !ActiveMatch(s).state.MatchExported?
  }

  lemma AbortIff(s: Store, confirmed: bool)
    requires Inv(s)
    ensures AbortMatch(s, confirmed).Success? <==> MayAbort(s, confirmed)
  {
    SlotIsRow(s);
    hide Inv, Shape;
  }

  lemma MetadataIff(s: Store)
    requires Inv(s)
    ensures UpdateMetadata(s).Success? <==> s.slot.Some?
  {
    SlotIsRow(s);
    hide Inv, Shape;
  }

  predicate MayEnd(s: Store, confirmed: bool) {
    confirmed && (ActiveIn(s, BattleReady) || ActiveIn(s, TurnRecorded))
  }

  lemma EndIff(s: Store, outcome: MatchOutcome, confirmed: bool)
    requires Inv(s)
    ensures EndMatch(s, outcome, confirmed).Success? <==> MayEnd(s, confirmed)
  {
    if HasActive(s) {
      ActiveOutcome(s);
    }
    hide Inv;
  }

  predicate MayRecordExport(s: Store, session: nat) {
    s.slot == Some(session) && ActiveIn(s, MatchEnded)
  }

  lemma ExportIff(s: Store, session: nat, file: ExportPayload, onDisk: Option<ExportPayload>)
    requires Inv(s)
    ensures CommitExport(s, session, file, onDisk).Success? <==> MayRecordExport(s, session)
  {
    if HasActive(s) {
      ActiveOutcome(s);
    }
    hide Inv, VerifyExport;
  }

  predicate MayOpenAfterExport(s: Store, rules: Option<RulesPin>) {
    ActiveIn(s, MatchExported) && rules.Some?
  }

  lemma NewMatchAfterExportIff(s: Store, rules: Option<RulesPin>, intel: IntelPin)
    requires Inv(s)
    ensures NewMatchAfterExport(s, rules, intel).Success? <==> MayOpenAfterExport(s, rules)
  {
    if HasActive(s) {
      ActiveOutcome(s);
    }
    hide Inv, InsertSession;
  }

  // ---- selection ----------------------------------------------------------------------------

  predicate Repeated(names: seq<Name>) {
    exists i, j :: 0 <= i < j < |names| && names[i] == names[j]
  }

  /** Six different names a side, and a build that names the own six in order. */
  predicate TeamsFit(own: seq<Name>, opponent: seq<Name>, build: Option<TeamBuild>) {
    && |own| == 6 && !Repeated(own) && |opponent| == 6 && !Repeated(opponent)
    && match build case None => true case Some(b) => b.members == own
  }

  lemma ConfirmSelectionIff(s: Store, own: seq<Name>, opponent: seq<Name>, build: Option<TeamBuild>)
    requires Inv(s)
    ensures ConfirmSelectionFacts(s, own, opponent, build).Success? <==>
              TeamsFit(own, opponent, build) && ActiveIn(s, SelectionOpen)
  {
    assert TeamsFit(own, opponent, build) <==> ValidTeams(own, opponent, build);
    hide Inv, TeamsFit, ValidTeams;
  }

  predicate MayApply(s: Store, three: seq<Name>, lead: Name, confirmed: bool) {
    && confirmed && ActiveIn(s, SelectionAdviceReady) && HasReviewed(s)
    && |three| == 3 && !Repeated(three) && lead in three
    && forall n :: n in three ==> n in s.selectionFacts[ActiveMatch(s).reviewedSelection.value].selfTeam
  }

  lemma ApplySelectionIff(s: Store, three: seq<Name>, lead: Name, confirmed: bool)
    requires Inv(s)
    ensures ApplySelection(s, three, lead, confirmed).Success? <==> MayApply(s, three, lead, confirmed)
  {
    hide Inv, Without;
    assert Text.Distinct(three) <==> !Repeated(three);
    hide Repeated, Text.Distinct;
    SlotIsRow(s);
    if HasActive(s) {
      ActiveSelection(s);
    }
  }

  /** No Selection job of the match waits or is of unknown delivery. */
  predicate SelectionLaneOpen(s: Store)
    requires HasActive(s)
  {
    forall k :: 0 <= k < |s.jobs| && s.jobs[k].session == s.slot.value && s.jobs[k].jobType == SelectionAdviceJob ==>
      s.jobs[k].status !in {Queued, InFlight, DeliveryUnknown}
  }

  lemma SelectionLaneIff(s: Store)
    requires Inv(s) && HasActive(s)
    ensures SelectionLaneOpen(s) <==> GuardProvider(s.jobs, LatestJob(s.jobs, s.slot.value, SelectionAdviceJob)).Pass?
  {
    hide BattleInv, LaneInv, ContentInv, JobBound;
    var latest := LatestJob(s.jobs, s.slot.value, SelectionAdviceJob);
    forall k | 0 <= k < |s.jobs| && IsJobOf(s.jobs[k], s.slot.value, SelectionAdviceJob) && Blocking(s.jobs[k])
      ensures latest == Some(k)
    {
    }
  }

  predicate MayRequestSelection(s: Store) {
    ActiveIn(s, SelectionOpen) && ActiveMatch(s).reviewedSelection.Some? && SelectionLaneOpen(s)
  }

  lemma RequestSelectionIff(s: Store, command: Id)
    requires Inv(s)
    ensures RequestSelectionAdvice(s, command).Success? <==> MayRequestSelection(s)
  {
    if HasActive(s) {
      ActiveSelection(s);
      SelectionLaneIff(s);
    }
    hide Inv, LatestJob, GuardProvider, SelectionLaneOpen;
  }

  /** The job's last recorded provider attempt failed for one of the reasons worth a retry. */
  predicate LastAttemptTransient(s: Store, job: nat) {
    var last := AttemptKey(job, if AttemptKey(job, 2) in s.attempts then 2 else 1);
    && last in s.attempts && s.attempts[last].outcome == AttemptFailed
    && match s.attempts[last].reason
       case Timeout => true
       case NetworkError => true
       case HttpError(Some(status)) => status in {408, 425, 429, 500, 502, 503, 504}
       case _ => false
  }

  /** A round with no reservation needs an open lane; a reserved one, a transiently failed job, the lane's newest. */
  predicate MayReserve(s: Store) {
    && ActiveIn(s, SelectionOpen) && ActiveMatch(s).reviewedSelection.Some?
    && var x := ActiveMatch(s);
       var key := SelectionKey(s.slot.value, x.matchId, x.generation, x.battleRevision, x.reviewedSelection.value);
       if key !in s.selectionLedger then SelectionLaneOpen(s)
       else
         var job := s.selectionLedger[key];
         && job < |s.jobs| && s.jobs[job].status in {Failed, TimedOut} && LastAttemptTransient(s, job)
         && forall k :: job < k < |s.jobs| ==>
              s.jobs[k].session != s.slot.value || s.jobs[k].jobType != SelectionAdviceJob
  }

  lemma ReservedIsOfRound(s: Store, key: SelectionKey)
    requires Inv(s) && key in s.selectionLedger
    ensures s.selectionLedger[key] < |s.jobs| && InRound(s.jobs[s.selectionLedger[key]], key)
    ensures s.jobs[s.selectionLedger[key]].snapshot.SelectionSnapshot?
  {
    hide BattleInv, ContentInv, AuditRows, TurnLedgerRows, Linked;
    assert JobBound(s.jobs[s.selectionLedger[key]], s.sessions);
  }

  lemma TransientIff(s: Store, job: nat)
    ensures var last := LastAttempt(s.attempts, job);
            LastAttemptTransient(s, job) <==>
              && last.Some? && last.value.outcome == AttemptFailed && last.value.reason != NoReason
              && IsTransient(last.value.reason)
  {
  }

  lemma ReserveUnfolds(s: Store, command: Id)
    requires ActiveIn(s, SelectionOpen) && HasReviewed(s)
    ensures var key := KeyOf(s, s.slot.value, ActiveMatch(s).reviewedSelection.value);
            var latest := LatestJob(s.jobs, s.slot.value, SelectionAdviceJob);
            ReserveSelectionAttempt(s, command).Success? <==>
              if key !in s.selectionLedger then GuardProvider(s.jobs, latest).Pass?
              else latest == Some(s.selectionLedger[key]) && EndedTransiently(s, s.slot.value, latest.value)
  {
    hide LatestJob, GuardProvider, EndedTransiently, SelectionJob;
  }

  lemma NewestIff(s: Store, job: nat)
    requires HasActive(s) && job < |s.jobs| && IsJobOf(s.jobs[job], s.slot.value, SelectionAdviceJob)
    ensures LatestJob(s.jobs, s.slot.value, SelectionAdviceJob) == Some(job) <==>
              forall k :: job < k < |s.jobs| ==>
                s.jobs[k].session != s.slot.value || s.jobs[k].jobType != SelectionAdviceJob
  {
    var latest := LatestJob(s.jobs, s.slot.value, SelectionAdviceJob);
    assert latest.Some? && job <= latest.value;
  }

  lemma EndedIff(s: Store, job: nat)
    requires HasReviewed(s) && job < |s.jobs|
    requires var x := ActiveMatch(s);
             && InRound(s.jobs[job], KeyOf(s, s.slot.value, x.reviewedSelection.value))
             && s.jobs[job].snapshot.SelectionSnapshot?
    ensures EndedTransiently(s, s.slot.value, job) <==>
              s.jobs[job].status in {Failed, TimedOut} && LastAttemptTransient(s, job)
  {
    TransientIff(s, job);
    hide LastAttemptTransient, LastAttempt, IsTransient;
  }

  lemma ReserveIff(s: Store, command: Id)
    requires Inv(s)
    ensures ReserveSelectionAttempt(s, command).Success? <==> MayReserve(s)
  {
    hide Inv, GuardProvider, SelectionLaneOpen, LastAttemptTransient, EndedTransiently, LatestJob;
    if ActiveIn(s, SelectionOpen) && ActiveMatch(s).reviewedSelection.Some? {
      ActiveSelection(s);
      SelectionLaneIff(s);
      ReserveUnfolds(s, command);
      var key := KeyOf(s, s.slot.value, ActiveMatch(s).reviewedSelection.value);
      hide ReserveSelectionAttempt;
      if key in s.selectionLedger {
        ReservedIsOfRound(s, key);
        EndedIff(s, s.selectionLedger[key]);
        NewestIff(s, s.selectionLedger[key]);
      }
    } else {
      NothingReserved(s, command);
    }
  }

  lemma NothingReserved(s: Store, command: Id)
    requires !(ActiveIn(s, SelectionOpen) && ActiveMatch(s).reviewedSelection.Some?)
    ensures ReserveSelectionAttempt(s, command).Failure?
  {
    hide GuardProvider, EndedTransiently, LatestJob;
  }

  // ---- attempts and dispatch ----------------------------------------------------------------

  predicate MayStart(s: Store, job: nat, ordinal: nat) {
    job < |s.jobs| && (ordinal == 1 || ordinal == 2) && AttemptKey(job, ordinal) !in s.attempts
  }

  predicate MayFinish(s: Store, job: nat, ordinal: nat) {
    AttemptKey(job, ordinal) in s.attempts && s.attempts[AttemptKey(job, ordinal)].outcome == Started
  }

  lemma AttemptsIff(s: Store, job: nat, ordinal: nat, succeeded: bool, reason: FailureReason)
    ensures StartAttempt(s, job, ordinal).Success? <==> MayStart(s, job, ordinal)
    ensures FinishAttempt(s, job, ordinal, succeeded, reason).Success? <==> MayFinish(s, job, ordinal)
  {
  }

  /** A job that is queued is its lane's newest, so it is enough that it is of this lane and of the active match. */
  predicate MayDispatch(s: Store, lane: JobType, job: nat) {
    job < |s.jobs| && s.jobs[job].jobType == lane && s.jobs[job].status == Queued && s.slot == Some(s.jobs[job].session)
  }

  lemma DispatchUnfolds(s: Store, lane: JobType, job: nat)
    ensures MarkDispatched(s, lane, job).Success? <==>
              && job < |s.jobs| && s.jobs[job].jobType == lane && s.jobs[job].status == Queued && HasActive(s)
              && LatestJob(s.jobs, s.slot.value, lane) == Some(job)
  {
    hide LatestJob;
  }

  lemma DispatchIff(s: Store, lane: JobType, job: nat)
    requires Inv(s)
    ensures MarkDispatched(s, lane, job).Success? <==> MayDispatch(s, lane, job)
  {
    hide Inv, MarkDispatched;
    SlotIsRow(s);
    DispatchUnfolds(s, lane, job);
    if job < |s.jobs| && s.jobs[job].status == Queued {
      PendingIsLatest(s, job);
    }
  }

  // ---- turns --------------------------------------------------------------------------------

  lemma StartTurnIff(s: Store)
    requires Inv(s)
    ensures StartTurnCapture(s).Success? <==> ActiveIn(s, BattleReady)
  {
    hide Inv;
    SlotIsRow(s);
    if HasActive(s) {
      ActiveTurn(s);
    }
  }

  lemma NextTurnIff(s: Store)
    requires Inv(s)
    ensures NextTurn(s).Success? <==> ActiveIn(s, TurnRecorded)
  {
    hide Inv;
    SlotIsRow(s);
    if HasActive(s) {
      ActiveTurn(s);
    }
  }

  /** No two of the typed names are the same once stripped, and none is blank. */
  predicate NamesFit(names: seq<Name>) {
    && (forall k :: 0 <= k < |names| ==> Text.Strip(names[k]) != "")
    && forall i, j :: 0 <= i < j < |names| ==> Text.Strip(names[i]) != Text.Strip(names[j])
  }

  /** The board the human typed: own active and switches among the applied three, one to four moves. */
  predicate BoardFits(input: FactsInput, three: seq<Name>) {
    && Text.Strip(input.selfActive) in three && Text.Strip(input.selfActive) != ""
    && Text.Strip(input.opponentActive) != ""
    && 1 <= |input.moves| <= 4 && NamesFit(input.moves) && NamesFit(input.switches)
    && forall k :: 0 <= k < |input.switches| ==>
         Text.Strip(input.switches[k]) in three && Text.Strip(input.switches[k]) != Text.Strip(input.selfActive)
  }

  lemma StrippedTwice(name: Name)
    ensures Text.Strip(Text.Strip(name)) == Text.Strip(name)
    ensures Text.IsBlank(Text.Strip(name)) <==> Text.Strip(name) == ""
  {
    Text.StripFixed(Text.Strip(name));
  }

  lemma NamesFitIff(names: seq<Name>)
    ensures NamesFit(names) <==> NoBlank(Stripped(names)) && Text.Distinct(Stripped(names))
  {
    var r := Stripped(names);
    forall k | 0 <= k < |names| ensures Text.IsBlank(r[k]) <==> Text.Strip(names[k]) == "" {
      StrippedTwice(names[k]);
    }
    hide Text.Strip, Text.IsBlank;
  }

  lemma BoardFitsIff(turn: TurnId, input: FactsInput, previous: Option<nat>, three: seq<Name>)
    requires turn.number >= 1
    ensures FactsRefusal(FactsRow(turn, input, previous), three).None? <==> BoardFits(input, three)
  {
    NamesFitIff(input.moves);
    NamesFitIff(input.switches);
    StrippedTwice(input.selfActive);
    StrippedTwice(input.opponentActive);
    hide Text.Strip, Text.IsBlank, NamesFit, NoBlank, Text.Distinct;
    var row := FactsRow(turn, input, previous);
    assert row.selfActive in row.switches <==>
           exists k :: 0 <= k < |input.switches| && Text.Strip(input.switches[k]) == row.selfActive;
  }

  predicate MayConfirm(s: Store, input: FactsInput, confirmed: bool) {
    && confirmed && (ActiveIn(s, TurnCapturePending) || ActiveIn(s, TurnReviewed))
    && ActiveMatch(s).applied.Some? && ActiveMatch(s).applied.value < |s.applied|
    && BoardFits(input, s.applied[ActiveMatch(s).applied.value].three)
  }

  lemma ConfirmFactsIff(s: Store, input: FactsInput, confirmed: bool)
    requires Inv(s)
    ensures ConfirmTurnFacts(s, input, confirmed).Success? <==> MayConfirm(s, input, confirmed)
  {
    SlotIsRow(s);
    if HasActive(s) {
      ActiveTurn(s);
      ActiveSelection(s);
      var x := ActiveMatch(s);
      if x.turn.Some? && x.applied.Some? {
        BoardFitsIff(x.turn.value, input, x.reviewedBoard, s.applied[x.applied.value].three);
      }
    }
    hide Inv, FactsRefusal, FactsRow, BoardFits, CancelPending;
  }

  // ---- turn advice --------------------------------------------------------------------------

  /** None of the match's Turn Advice jobs waits, and none was ever made for this snapshot of this turn. */
  predicate TurnLaneOpen(s: Store, snapshot: SnapshotId)
    requires HasActive(s) && ActiveMatch(s).turn.Some?
  {
    forall k :: 0 <= k < |s.jobs| && s.jobs[k].session == s.slot.value && s.jobs[k].jobType == TurnAdviceJob ==>
      && s.jobs[k].status !in {Queued, InFlight}
      && !(s.jobs[k].turnNumber == Some(ActiveMatch(s).turn.value.number) && s.jobs[k].snapshot == snapshot)
  }

  lemma TurnJobsHaveRows(s: Store, k: nat)
    requires Inv(s) && k < |s.jobs| && s.jobs[k].jobType == TurnAdviceJob
    ensures exists m :: 0 <= m < |s.turnLedger| && s.turnLedger[m].job == k && LedgerRowOf(s.turnLedger[m], s.jobs[k])
    ensures s.jobs[k].session < |s.sessions|
    ensures s.jobs[k].matchId == s.sessions[s.jobs[k].session].matchId
    ensures s.jobs[k].generation == s.sessions[s.jobs[k].session].generation
  {
    hide BattleInv, ContentInv, AuditRows, SelectionLedgerRows;
    assert JobBound(s.jobs[k], s.sessions);
    var m :| 0 <= m < |s.turnLedger| && s.turnLedger[m].job == k;
  }

  lemma RowsHaveTurnJobs(s: Store, m: nat)
    requires Inv(s) && m < |s.turnLedger|
    ensures s.turnLedger[m].job < |s.jobs| && LedgerRowOf(s.turnLedger[m], s.jobs[s.turnLedger[m].job])
  {
    hide BattleInv, ContentInv, AuditRows, SelectionLedgerRows, JobRows;
  }

  lemma PendingIsLatest(s: Store, k: nat)
    requires Inv(s) && k < |s.jobs| && IsPending(s.jobs[k].status)
    ensures LatestJob(s.jobs, s.jobs[k].session, s.jobs[k].jobType) == Some(k)
  {
    hide BattleInv, ContentInv, LaneInv, JobBound;
    assert Blocking(s.jobs[k]);
  }

  lemma ReservedHasJob(s: Store, snapshot: SnapshotId)
    requires Inv(s) && HasActive(s) && ActiveMatch(s).turn.Some?
    requires var x := ActiveMatch(s);
             TurnAttemptReserved(s.turnLedger, s.slot.value, x.matchId, x.generation, x.turn.value.number, snapshot)
    ensures !TurnLaneOpen(s, snapshot)
  {
    hide Inv;
    var x := ActiveMatch(s);
    var m :| 0 <= m < |s.turnLedger|
             && SameRound(s.turnLedger[m], s.slot.value, x.matchId, x.generation, x.turn.value.number, snapshot);
    RowsHaveTurnJobs(s, m);
    var k := s.turnLedger[m].job;
    assert s.jobs[k].session == s.slot.value && s.jobs[k].jobType == TurnAdviceJob;
  }

  lemma UnreservedIsOpen(s: Store, snapshot: SnapshotId)
    requires Inv(s) && HasActive(s) && ActiveMatch(s).turn.Some?
    requires var latest := LatestJob(s.jobs, s.slot.value, TurnAdviceJob);
             latest.None? || !IsPending(s.jobs[latest.value].status)
    requires var x := ActiveMatch(s);
             !TurnAttemptReserved(s.turnLedger, s.slot.value, x.matchId, x.generation, x.turn.value.number, snapshot)
    ensures TurnLaneOpen(s, snapshot)
  {
    hide Inv;
    forall k | 0 <= k < |s.jobs| && s.jobs[k].session == s.slot.value && s.jobs[k].jobType == TurnAdviceJob
      ensures s.jobs[k].status !in {Queued, InFlight}
      ensures !(s.jobs[k].turnNumber == Some(ActiveMatch(s).turn.value.number) && s.jobs[k].snapshot == snapshot)
    {
      TurnJobsHaveRows(s, k);
      if IsPending(s.jobs[k].status) {
        PendingIsLatest(s, k);
      }
      var m :| 0 <= m < |s.turnLedger| && s.turnLedger[m].job == k && LedgerRowOf(s.turnLedger[m], s.jobs[k]);
    }
  }

  lemma DispatchTurnIff(s: Store, command: Id, snapshot: SnapshotId, digest: Request)
    requires Inv(s) && HasActive(s) && ActiveMatch(s).turn.Some?
    ensures DispatchTurnJob(s, s.slot.value, ActiveMatch(s).turn.value, command, snapshot, digest).Success?
            <==> TurnLaneOpen(s, snapshot)
  {
    var x, latest := ActiveMatch(s), LatestJob(s.jobs, s.slot.value, TurnAdviceJob);
    var turn := x.turn.value;
    hide Inv, TurnLaneOpen, LatestJob;
    if TurnAttemptReserved(s.turnLedger, s.slot.value, x.matchId, x.generation, turn.number, snapshot) {
      ReservedHasJob(s, snapshot);
    } else if latest.Some? && IsPending(s.jobs[latest.value].status) {
      NewestWaits(s, snapshot);
    } else {
      UnreservedIsOpen(s, snapshot);
    }
  }

  lemma NewestWaits(s: Store, snapshot: SnapshotId)
    requires HasActive(s) && ActiveMatch(s).turn.Some? && LatestJob(s.jobs, s.slot.value, TurnAdviceJob).Some?
    requires IsPending(s.jobs[LatestJob(s.jobs, s.slot.value, TurnAdviceJob).value].status)
    ensures !TurnLaneOpen(s, snapshot)
  {
    var k := LatestJob(s.jobs, s.slot.value, TurnAdviceJob).value;
    assert s.jobs[k].session == s.slot.value && s.jobs[k].jobType == TurnAdviceJob;
  }

  /** The newest Turn Advice job of the match is not of unknown delivery. */
  predicate NewestTurnJobKnown(s: Store)
    requires HasActive(s)
  {
    forall k :: 0 <= k < |s.jobs| && IsJobOf(s.jobs[k], s.slot.value, TurnAdviceJob)
                && s.jobs[k].status == DeliveryUnknown ==>
      exists m :: k < m < |s.jobs| && IsJobOf(s.jobs[m], s.slot.value, TurnAdviceJob)
  }

  predicate MayRequestTurn(s: Store) {
    && ActiveIn(s, TurnReviewed) && ActiveMatch(s).turnAdvice == None
    && ActiveMatch(s).turn.Some? && ActiveMatch(s).reviewedBoard.Some?
    && TurnLaneOpen(s, FactsSnapshot(ActiveMatch(s).reviewedBoard.value)) && NewestTurnJobKnown(s)
  }

  lemma GuardIff(s: Store, snapshot: SnapshotId)
    requires HasActive(s) && ActiveMatch(s).turn.Some?
    ensures TurnLaneOpen(s, snapshot) ==>
              (GuardProvider(s.jobs, LatestJob(s.jobs, s.slot.value, TurnAdviceJob)).Pass? <==> NewestTurnJobKnown(s))
    ensures GuardProvider(s.jobs, LatestJob(s.jobs, s.slot.value, TurnAdviceJob)).Pass? ==> NewestTurnJobKnown(s)
  {
    var latest := LatestJob(s.jobs, s.slot.value, TurnAdviceJob);
    if latest.Some? {
      assert IsJobOf(s.jobs[latest.value], s.slot.value, TurnAdviceJob);
    }
    if GuardProvider(s.jobs, latest).Pass? {
      forall k | 0 <= k < |s.jobs| && IsJobOf(s.jobs[k], s.slot.value, TurnAdviceJob)
                 && s.jobs[k].status == DeliveryUnknown
        ensures exists m :: k < m < |s.jobs| && IsJobOf(s.jobs[m], s.slot.value, TurnAdviceJob)
      {
        assert latest.Some? && k < latest.value;
      }
    }
  }

  lemma RequestTurnIff(s: Store, command: Id)
    requires Inv(s)
    ensures RequestTurnAdvice(s, command).Success? <==> MayRequestTurn(s)
  {
    SlotIsRow(s);
    if ActiveIn(s, TurnReviewed) {
      var x := ActiveMatch(s);
      ActiveTurn(s);
      SelectionBehindTurn(s);
      RequestIsReady(s);
      GuardIff(s, FactsSnapshot(x.reviewedBoard.value));
      DispatchTurnIff(s, command, FactsSnapshot(x.reviewedBoard.value), RequestNow(s));
    }
    hide Inv, GuardProvider, LatestJob, TurnLaneOpen, NewestTurnJobKnown, TurnRequestOf, DispatchTurnJob, RequestNow;
  }

  lemma RequestIsReady(s: Store)
    requires HasBoard(s)
    ensures var x := ActiveMatch(s);
            TurnRequestOf(s, s.slot.value, x.reviewedBoard.value, x.battleRevision) == Success(RequestNow(s))
  {
  }

  /** The match's latest confirmed state is of its current turn and revision. */
  predicate StateIsCurrent(s: Store)
    requires HasActive(s) && ActiveMatch(s).turn.Some?
  {
    var x := ActiveMatch(s);
    var state := LatestState(s.states, s.slot.value, x.matchId, x.generation);
    state.Some? && state.value.identity == TurnIdentity(s.slot.value, x.matchId, x.generation, x.turn.value,
                                                        x.turn.value.number, x.battleRevision)
  }

  predicate MayRequestRich(s: Store, gate: Option<nat>) {
    && ActiveIn(s, TurnReviewed) && ActiveMatch(s).turn.Some? && StateIsCurrent(s) && gate.Some?
    && TurnLaneOpen(s, StateSnapshot(LatestStateOf(s, s.slot.value).value.stateId))
  }

  lemma RichUnfolds(s: Store, command: Id, gate: Option<nat>)
    requires ActiveIn(s, TurnReviewed) && ActiveMatch(s).turn.Some? && ActiveMatch(s).turn.value in s.turns
    requires ActiveMatch(s).applied.Some?
    ensures var x, state := ActiveMatch(s), LatestStateOf(s, s.slot.value);
            RequestRichTurnAdvice(s, command, gate).Success? <==>
              && StateIsCurrent(s) && gate.Some?
              && DispatchTurnJob(s, s.slot.value, x.turn.value, command, StateSnapshot(state.value.stateId),
                                 RichRequest(s.slot.value, x.matchId, x.generation, x.battleRevision,
                                             state.value.stateId, gate.value)).Success?
  {
    hide DispatchTurnJob, LatestState;
  }

  lemma RequestRichIff(s: Store, command: Id, gate: Option<nat>)
    requires Inv(s)
    ensures RequestRichTurnAdvice(s, command, gate).Success? <==> MayRequestRich(s, gate)
  {
    hide Inv, LatestJob, TurnLaneOpen, DispatchTurnJob, LatestState;
    SlotIsRow(s);
    if ActiveIn(s, TurnReviewed) {
      var x, state := ActiveMatch(s), LatestStateOf(s, s.slot.value);
      ActiveTurn(s);
      RichUnfolds(s, command, gate);
      if state.Some? && gate.Some? {
        DispatchTurnIff(s, command, StateSnapshot(state.value.stateId),
                        RichRequest(s.slot.value, x.matchId, x.generation, x.battleRevision, state.value.stateId,
                                    gate.value));
      }
    }
  }

  // ---- recording and advancing --------------------------------------------------------------

  /** A type comes with a name that is not blank, and no name without a type. */
  predicate OpponentFits(input: ActionInput) {
    match input.opponentType
    case None => input.opponentName == None
    case Some(_) => input.opponentName.Some? && Text.Strip(input.opponentName.value) != ""
  }

  /** The completion is of this turn, of its delta and of the delta's state, under keys nobody has. */
  predicate CompletionFits(s: Store, turn: TurnId, input: ActionInput, done: RichCompletion) {
    && done.identity.turnId == turn && done.delta.identity == done.identity
    && StateRow(s.states, done.delta.basedOn).Some?
    && StateRow(s.states, done.delta.basedOn).value.identity == done.identity
    && (input.opponentName.Some? ==> Text.Strip(input.opponentName.value) != "UNKNOWN")
    && (forall k :: 0 <= k < |s.deltas| ==> s.deltas[k].deltaId != done.delta.deltaId)
    && forall k :: 0 <= k < |s.completions| ==>
         s.completions[k].transaction != done.transaction && s.completions[k].identity.turnId != turn
  }

  predicate MayRecord(s: Store, input: ActionInput, confirmed: bool, rich: Option<RichCompletion>) {
    && confirmed && OpponentFits(input) && ActiveIn(s, TurnReviewed)
    && var x := ActiveMatch(s);
       && x.turnAdvice.Some? && x.turn.Some? && x.reviewedBoard.Some? && x.reviewedBoard.value < |s.facts|
       && var f := s.facts[x.reviewedBoard.value];
       && Text.Strip(input.name) in (if input.actionType == Move then f.moves else f.switches)
       && (rich.Some? ==> CompletionFits(s, x.turn.value, input, rich.value))
  }

  lemma ListedIsNamed(f: TurnFacts, actionType: ActionType, name: Name)
    requires ValidTurnFacts(f) && LegalIn(f, actionType, name)
    ensures !Text.IsBlank(name) && f.turn.number >= 1
  {
    hide Text.IsBlank, Text.Distinct;
  }

  lemma CompletionFitsIff(s: Store, turn: TurnId, input: ActionInput, done: RichCompletion)
    requires OpponentFits(input)
    ensures var own := Action(input.actionType, Text.Strip(input.name));
            var a := RecordedAction(turn, own, OpponentAction(input), input.order);
            CheckCompletion(s, turn, done).Pass? && AppendCompletion(s, a, Some(done)).Success?
            <==> CompletionFits(s, turn, input, done)
  {
    hide StateRow, Text.Strip;
  }

  lemma OpponentFitsIff(input: ActionInput)
    ensures OpponentFits(input) <==>
              && (input.opponentType.None? ==> input.opponentName.None?)
              && (input.opponentType.Some? ==> input.opponentName.Some? && !Text.IsBlank(input.opponentName.value))
  {
    hide Text.Strip;
  }

  /** The guards of record_action in a repository whose rows are sound. */
  lemma RecordUnfolds(s: Store, input: ActionInput, confirmed: bool, rich: Option<RichCompletion>)
    requires ActiveIn(s, TurnReviewed) && ActiveMatch(s).turn.Some? && ActiveMatch(s).reviewedBoard.Some?
    requires ActiveMatch(s).reviewedBoard.value < |s.facts| && ActionFor(s.actions, ActiveMatch(s).turn.value).None?
    requires ValidTurnFacts(s.facts[ActiveMatch(s).reviewedBoard.value])
    ensures var x, name := ActiveMatch(s), Text.Strip(input.name);
            var a := RecordedAction(x.turn.value, Action(input.actionType, name), OpponentAction(input), input.order);
            RecordAction(s, input, confirmed, rich).Success? <==>
              && confirmed && OpponentFits(input) && x.turnAdvice.Some?
              && LegalIn(s.facts[x.reviewedBoard.value], input.actionType, name)
              && (rich.Some? ==> CheckCompletion(s, x.turn.value, rich.value).Pass?)
              && AppendCompletion(s, a, rich).Success?
  {
    OpponentFitsIff(input);
    var f := s.facts[ActiveMatch(s).reviewedBoard.value];
    if LegalIn(f, input.actionType, Text.Strip(input.name)) {
      ListedIsNamed(f, input.actionType, Text.Strip(input.name));
    }
    hide OpponentFits, Text.Strip, Text.IsBlank, LegalIn, CheckCompletion, AppendCompletion, ActionFor, ValidTurnFacts;
  }

  lemma RecordsNothingElsewhere(s: Store, input: ActionInput, confirmed: bool, rich: Option<RichCompletion>)
    requires !ActiveIn(s, TurnReviewed)
    ensures RecordAction(s, input, confirmed, rich).Failure?
  {
    hide Text.Strip, Text.IsBlank, LegalIn, CheckCompletion, AppendCompletion, ActionFor;
  }

  lemma NoCompletion(s: Store, a: RecordedAction)
    ensures AppendCompletion(s, a, None).Success?
  {
  }

  lemma RecordIff(s: Store, input: ActionInput, confirmed: bool, rich: Option<RichCompletion>)
    requires Inv(s)
    ensures RecordAction(s, input, confirmed, rich).Success? <==> MayRecord(s, input, confirmed, rich)
  {
    hide Inv, RecordAction, Text.Strip, ActionFor, ValidTurnFacts, CheckCompletion, AppendCompletion, CompletionFits;
    SlotIsRow(s);
    if ActiveIn(s, TurnReviewed) {
      ActiveTurn(s);
      ActiveBoard(s);
      RecordUnfolds(s, input, confirmed, rich);
      var x := ActiveMatch(s);
      if OpponentFits(input) && rich.Some? {
        CompletionFitsIff(s, x.turn.value, input, rich.value);
      }
      NoCompletion(s, RecordedAction(x.turn.value, Action(input.actionType, Text.Strip(input.name)),
                                     OpponentAction(input), input.order));
    } else {
      RecordsNothingElsewhere(s, input, confirmed, rich);
    }
  }

  /** Nothing the plan was made from has changed, and no other draft has its draft's id. */
  predicate MayCommit(s: Store, plan: NextTurnPlan) {
    && s.slot == Some(plan.session) && ActiveIn(s, TurnRecorded)
    && var x, draft := ActiveMatch(s), plan.draft;
       && x.matchId == plan.matchId && x.generation == plan.generation && x.turn == Some(plan.turn)
       && x.battleRevision == plan.revision
       && LatestState(s.states, plan.session, x.matchId, x.generation) == Some(plan.confirmed)
       && LastDeltaOn(s.deltas, plan.confirmed.stateId) == Some(plan.delta)
       && draft.identity.battleRevision == plan.revision + 1
       && forall k :: k in s.drafts && s.drafts[k].draftId == draft.draftId ==>
            k == DraftKey(draft.identity.session, draft.identity.turnId, draft.identity.battleRevision)
  }

  lemma CommitUnfolds(s: Store, plan: NextTurnPlan)
    requires ActiveIn(s, TurnRecorded) && s.slot == Some(plan.session)
    requires ActiveMatch(s).turn == Some(plan.turn) ==>
               plan.turn in s.turns && TurnId(plan.session, plan.turn.number + 1) !in s.turns
    ensures var x, draft := ActiveMatch(s), plan.draft;
            CommitNextTurn(s, plan).Success? <==>
              && x.matchId == plan.matchId && x.generation == plan.generation && x.turn == Some(plan.turn)
              && x.battleRevision == plan.revision
              && LatestState(s.states, plan.session, x.matchId, x.generation) == Some(plan.confirmed)
              && LastDeltaOn(s.deltas, plan.confirmed.stateId) == Some(plan.delta)
              && draft.identity.battleRevision == plan.revision + 1
              && !DraftIdTaken(s.drafts, DraftKey(draft.identity.session, draft.identity.turnId,
                                                  draft.identity.battleRevision), draft.draftId)
  {
    hide LatestState, LastDeltaOn, DraftIdTaken;
  }

  lemma CommitsNothingElsewhere(s: Store, plan: NextTurnPlan)
    requires !(ActiveIn(s, TurnRecorded) && s.slot == Some(plan.session))
    ensures CommitNextTurn(s, plan).Failure?
  {
    hide LatestState, LastDeltaOn, DraftIdTaken, AppendTurn;
  }

  lemma CommitIff(s: Store, plan: NextTurnPlan)
    requires Inv(s)
    ensures CommitNextTurn(s, plan).Success? <==> MayCommit(s, plan)
  {
    hide Inv, CommitNextTurn, LatestState, LastDeltaOn;
    SlotIsRow(s);
    if ActiveIn(s, TurnRecorded) && s.slot == Some(plan.session) {
      ActiveTurn(s);
      CommitUnfolds(s, plan);
    } else {
      CommitsNothingElsewhere(s, plan);
    }
  }

  predicate MayAppend(s: Store, state: ConfirmedTurnState) {
    && (forall k :: 0 <= k < |s.states| ==>
          && s.states[k].stateId != state.stateId
          && !(s.states[k].identity.session == state.identity.session
               && s.states[k].identity.turnId == state.identity.turnId
               && s.states[k].identity.battleRevision == state.identity.battleRevision))
    && (state.previous.Some? ==>
          || state.previous.value == state.stateId
          || exists k :: 0 <= k < |s.states| && s.states[k].stateId == state.previous.value)
  }

  lemma AppendIff(s: Store, state: ConfirmedTurnState)
    ensures AppendConfirmedState(s, state).Success? <==> MayAppend(s, state)
  {
    if state.previous.Some? {
      var row := StateRow(s.states, state.previous.value);
      if row.Some? {
        var k :| 0 <= k < |s.states| && s.states[k] == row.value;
      }
    }
    assert (forall k :: 0 <= k < |s.states| ==> !SameStateKey(s.states[k], state)) <==>
           (forall k :: 0 <= k < |s.states| ==>
              && s.states[k].stateId != state.stateId
              && !(s.states[k].identity.session == state.identity.session
                   && s.states[k].identity.turnId == state.identity.turnId
                   && s.states[k].identity.battleRevision == state.identity.battleRevision));
    hide StateRow;
  }
}
