/**
 What each command promises whoever is told it is done, in a repository that satisfies the invariant: not how the
 command gets there but what holds of the repository afterwards. The methods of module Application make these
 promises; here they are shown to follow from what the command does.
 */
module Promises {
  import opened Basics
  import Text
  import opened TurnState
  import opened Records
  import opened Store
  import opened Commands
  import opened Invariant
  import opened Evolution
  import opened Effects
  import opened Steps
  import opened Guarantees

  function After(before: Store, c: Committed): Store {
    if c.Success? then c.value else before
  }

  /** Committed or refused, the command leaves a valid repository in which nothing settled was reopened. */
  ghost predicate Sound(s: Store, c: Committed) {
    Inv(After(s, c)) && Later(s, After(s, c))
  }

  lemma Sounds(s: Store, c: Committed)
    requires Inv(s) && (c.Success? ==> Stepped(s, c.value))
    ensures Sound(s, c)
  {
    hide Inv, Later, Evolves;
    if c.Success? {
      EvolvedIsLater(s, c.value);
    } else {
      SelfIsLater(s);
    }
  }

  // ---- the match moves ----------------------------------------------------------------------

  /** Whatever result still arrives, for whatever job, it cannot be applied. */
  predicate NothingDecidable(s: Store) {
    forall k :: 0 <= k < |s.jobs| ==> !Decidable(s, k)
  }

  predicate HasActive(s: Store) {
    s.slot.Some? && s.slot.value < |s.sessions|
  }

  function ActiveMatch(s: Store): Session
    requires HasActive(s)
  {
    s.sessions[s.slot.value]
  }

  /** The session one revision on, in this state, all else as it was. */
  function NextAs(x: Session, state: BattleState): Session {
    x.(state := state, battleRevision := x.battleRevision + 1)
  }

  /** The active match is now row y, one revision on and so past every job there is; no other match changed. */
  predicate MatchMoved(s: Store, s': Store, y: Session) {
    && HasActive(s) && y.battleRevision == ActiveMatch(s).battleRevision + 1
    && s'.sessions == s.sessions[s.slot.value := y]
    && NothingDecidable(s')
  }

  lemma MovedPast(s: Store, i: nat, y: Session, s': Store)
    requires Inv(s) && ActiveIs(s, i) && s'.sessions == s.sessions[i := y] && (s'.slot == None || s'.slot == s.slot)
    requires y.battleRevision == s.sessions[i].battleRevision + 1
    requires |s'.jobs| == |s.jobs|
    requires forall k :: 0 <= k < |s.jobs| ==> s'.jobs[k] == s.jobs[k].(status := s'.jobs[k].status)
    ensures MatchMoved(s, s', y)
  {
    hide BattleInv, LaneInv, ContentInv;
    forall k | 0 <= k < |s'.jobs| ensures !Decidable(s', k) {
      assert JobBound(s.jobs[k], s.sessions);
    }
  }

  /** A new match is open, alone: every match before it is over for good, and no old result can touch it. */
  predicate MatchOpened(s: Store, s': Store, rules: Option<RulesPin>, intel: IntelPin) {
    && |s'.sessions| == |s.sessions| + 1 && s'.sessions[..|s.sessions|] == s.sessions && s'.slot == Some(|s.sessions|)
    && (forall i :: 0 <= i < |s.sessions| ==> Closed(s.sessions[i]))
    && NothingDecidable(s') && s' == s.(sessions := s'.sessions, slot := s'.slot)
    && var x := s'.sessions[|s.sessions|];
       && rules.Some?
       && x == Session(|s.sessions|, |s.sessions| + 1, SelectionOpen, 1, 0, None, None, None, None, None, None, rules.value,
                       intel)
       && forall i :: 0 <= i < |s.sessions| ==>
            s.sessions[i].matchId != x.matchId && s.sessions[i].generation < x.generation
  }

  lemma InsertPromise(s: Store, rules: RulesPin, intel: IntelPin)
    requires Inv(s) && (s.slot.Some? ==> Closed(s.sessions[s.slot.value]))
    ensures MatchOpened(s, InsertSession(s, rules, intel), Some(rules), intel)
  {
    hide SelectionRows, TurnRows, FactRows, AdviceRows, ActionRows, OutcomeRows, ContentInv, LaneInv, Shape;
    var s' := InsertSession(s, rules, intel);
    forall k | 0 <= k < |s'.jobs| ensures !Decidable(s', k) {
      assert JobBound(s.jobs[k], s.sessions);
    }
  }

  lemma NewMatchPromise(s: Store, rules: Option<RulesPin>, intel: IntelPin)
    requires Inv(s)
    ensures var c := NewMatch(s, rules, intel);
            Sound(s, c) && (c.Success? ==> MatchOpened(s, c.value, rules, intel))
  {
    hide Inv, Sound, Stepped, MatchOpened, InsertSession;
    var c := NewMatch(s, rules, intel);
    if c.Success? {
      NewMatchSteps(s, rules, intel, c.value);
      SlotInRange(s);
      InsertPromise(s, rules.value, intel);
    }
    Sounds(s, c);
  }

  lemma SlotInRange(s: Store)
    requires Inv(s)
    ensures s.slot.Some? ==> s.slot.value < |s.sessions|
  {
    hide SelectionRows, TurnRows, FactRows, AdviceRows, ActionRows, OutcomeRows, ContentInv, LaneInv, JobRows, Shape;
  }

  lemma NewMatchAfterExportPromise(s: Store, rules: Option<RulesPin>, intel: IntelPin)
    requires Inv(s)
    ensures var c := NewMatchAfterExport(s, rules, intel);
            Sound(s, c) && (c.Success? ==> MatchOpened(s, c.value, rules, intel))
  {
    hide Inv, Sound, Stepped, MatchOpened, InsertSession, NewMatchAfterExport;
    var c := NewMatchAfterExport(s, rules, intel);
    if c.Success? {
      NewMatchAfterExportSteps(s, rules, intel, c.value);
      NewMatchAfterExportEffect(s, rules, intel, c.value);
      InsertPromise(s, rules.value, intel);
    }
    Sounds(s, c);
  }

  /** The active match is aborted and the slot is free: every match there is, is over. */
  predicate MatchAborted(s: Store, s': Store) {
    && HasActive(s) && MatchMoved(s, s', NextAs(ActiveMatch(s), Aborted)) && s'.slot == None
    && (forall i :: 0 <= i < |s'.sessions| ==> Closed(s'.sessions[i]))
    && s' == s.(sessions := s'.sessions, slot := None)
  }

  lemma OthersClosed(s: Store, i: nat)
    requires Inv(s) && ActiveIs(s, i)
    ensures forall j :: 0 <= j < |s.sessions| && j != i ==> Closed(s.sessions[j])
  {
    hide SelectionRows, TurnRows, FactRows, AdviceRows, ActionRows, OutcomeRows, ContentInv, LaneInv, JobRows, Shape;
  }

  lemma AbortPromise(s: Store, confirmed: bool)
    requires Inv(s)
    ensures var c := AbortMatch(s, confirmed);
            Sound(s, c) && (c.Success? ==> MatchAborted(s, c.value))
  {
    hide Inv, Sound, Stepped, MatchMoved;
    var c := AbortMatch(s, confirmed);
    if c.Success? {
      AbortSteps(s, confirmed, c.value);
      OthersClosed(s, s.slot.value);
      MovedPast(s, s.slot.value, c.value.sessions[s.slot.value], c.value);
    }
    Sounds(s, c);
  }

  /** Only the metadata counter moved: what waited can still be decided. */
  predicate OnlyMetadata(s: Store, s': Store) {
    && HasActive(s)
    && var x := ActiveMatch(s);
    && s'.sessions == s.sessions[s.slot.value := x.(metadataRevision := x.metadataRevision + 1)]
    && (forall k :: 0 <= k < |s.jobs| ==> (Decidable(s', k) <==> Decidable(s, k)))
    && s' == s.(sessions := s'.sessions)
  }

  lemma MetadataPromise(s: Store)
    requires Inv(s)
    ensures var c := UpdateMetadata(s);
            Sound(s, c) && (c.Success? ==> OnlyMetadata(s, c.value))
  {
    hide Inv, Sound, Stepped;
    var c := UpdateMetadata(s);
    if c.Success? {
      MetadataSteps(s, c.value);
    }
    Sounds(s, c);
  }

  /** The match's one outcome is on record, with the revision the match is left at. */
  predicate MatchClosed(s: Store, s': Store, outcome: MatchOutcome) {
    && HasActive(s) && MatchMoved(s, s', NextAs(ActiveMatch(s), MatchEnded)) && s.slot.value !in s.outcomes
    && s'.outcomes == s.outcomes[s.slot.value := OutcomeRecord(outcome, ActiveMatch(s).battleRevision + 1)]
    && s' == s.(sessions := s'.sessions, outcomes := s'.outcomes)
  }

  lemma EndPromise(s: Store, outcome: MatchOutcome, confirmed: bool)
    requires Inv(s)
    ensures var c := EndMatch(s, outcome, confirmed);
            Sound(s, c) && (c.Success? ==> MatchClosed(s, c.value, outcome))
  {
    hide Inv, Sound, Stepped, MatchMoved;
    var c := EndMatch(s, outcome, confirmed);
    if c.Success? {
      EndSteps(s, outcome, confirmed, c.value);
      MovedPast(s, s.slot.value, c.value.sessions[s.slot.value], c.value);
    }
    Sounds(s, c);
  }

  /** The match has its one export record: a match that has ended cannot have had one before. */
  predicate ExportRecorded(s: Store, s': Store, session: nat, file: ExportPayload) {
    && HasActive(s) && s.slot.value == session && ActiveMatch(s).state == MatchEnded
    && MatchMoved(s, s', NextAs(ActiveMatch(s), MatchExported))
    && session !in s.exports && s'.exports == s.exports[session := file]
    && s' == s.(sessions := s'.sessions, exports := s'.exports)
  }

  lemma NoRecordYet(s: Store, i: nat)
    requires Inv(s) && i < |s.sessions| && s.sessions[i].state == MatchEnded
    ensures i !in s.exports
  {
    hide SessionsOk, SelectionRows, TurnRows, FactRows, AdviceRows, ActionRows, ContentInv, LaneInv, JobRows;
  }

  lemma ExportPromise(s: Store, session: nat, file: ExportPayload, onDisk: Option<ExportPayload>)
    requires Inv(s)
    ensures var c := CommitExport(s, session, file, onDisk);
            Sound(s, c) && (c.Success? ==> ExportRecorded(s, c.value, session, file))
  {
    hide Inv, Sound, Stepped, MatchMoved, VerifyExport;
    var c := CommitExport(s, session, file, onDisk);
    if c.Success? {
      ExportSteps(s, session, file, onDisk, c.value);
      NoRecordYet(s, session);
      MovedPast(s, session, c.value.sessions[session], c.value);
    }
    Sounds(s, c);
  }

  // ---- selection ----------------------------------------------------------------------------

  /** The newest selection row is the reviewed one, is what the human confirmed, and older advice is dropped. */
  predicate SelectionReviewed(s: Store, s': Store, own: seq<Name>, opponent: seq<Name>, build: Option<TeamBuild>) {
    && HasActive(s)
    && MatchMoved(s, s', NextAs(ActiveMatch(s), SelectionOpen)
                         .(reviewedSelection := Some(|s.selectionFacts|), selectionAdvice := None))
    && s'.selectionFacts == s.selectionFacts + [SelectionFacts(s.slot.value, own, opponent, build)]
    && s' == s.(sessions := s'.sessions, selectionFacts := s'.selectionFacts)
  }

  lemma ConfirmSelectionPromise(s: Store, own: seq<Name>, opponent: seq<Name>, build: Option<TeamBuild>)
    requires Inv(s)
    ensures var c := ConfirmSelectionFacts(s, own, opponent, build);
            Sound(s, c) && (c.Success? ==> SelectionReviewed(s, c.value, own, opponent, build))
  {
    hide Inv, Sound, Stepped, MatchMoved;
    var c := ConfirmSelectionFacts(s, own, opponent, build);
    if c.Success? {
      ConfirmSelectionSteps(s, own, opponent, build, c.value);
      MovedPast(s, s.slot.value, c.value.sessions[s.slot.value], c.value);
    }
    Sounds(s, c);
  }

  /** Two back members: the chosen three are the lead and exactly these. */
  ghost predicate SplitsThree(three: seq<Name>, lead: Name, backline: seq<Name>) {
    |backline| == 2 && Text.Distinct([lead] + backline) && forall n :: n in three <==> n in [lead] + backline
  }

  lemma WithoutOne(names: seq<Name>, lead: Name)
    ensures lead !in Without(names, lead)
    ensures forall n :: n in names && n != lead ==> n in Without(names, lead)
    ensures forall n :: n in Without(names, lead) ==> n in names
  {
    if names != [] {
      WithoutOne(names[1..], lead);
      assert names == [names[0]] + names[1..];
    }
  }

  lemma WithoutThree(three: seq<Name>, lead: Name)
    requires |three| == 3 && Text.Distinct(three) && lead in three
    ensures SplitsThree(three, lead, Without(three, lead))
  {
    var r := Without(three, lead);
    assert three == [three[0], three[1], three[2]];
    WithoutOne(three, lead);
    ThreeUnrolled(three[0], three[1], three[2], lead);
    assert three[0] != three[1] && three[1] != three[2] && three[0] != three[2];
  }

  lemma ThreeUnrolled(a: Name, b: Name, c: Name, lead: Name)
    ensures Without([a, b, c], lead) == OneWithout(a, lead) + (OneWithout(b, lead) + OneWithout(c, lead))
  {
    assert [a, b, c][1..] == [b, c] && [b, c][1..] == [c] && [c][1..] == [];
    assert Without([c], lead) == OneWithout(c, lead);
    assert Without([b, c], lead) == OneWithout(b, lead) + OneWithout(c, lead);
  }

  function OneWithout(a: Name, lead: Name): seq<Name> {
    if a == lead then [] else [a]
  }

  /** The match's one applied selection: three of its own reviewed team, split into a lead and two. */
  ghost predicate SelectionApplied(s: Store, s': Store, three: seq<Name>, lead: Name) {
    && HasActive(s) && MatchMoved(s, s', NextAs(ActiveMatch(s), BattleReady).(applied := Some(|s.applied|)))
    && |s'.applied| == |s.applied| + 1 && s'.applied[..|s.applied|] == s.applied
    && (forall k :: 0 <= k < |s.applied| ==> s.applied[k].session != s.slot.value)
    && s' == s.(sessions := s'.sessions, applied := s'.applied)
    && var row := s'.applied[|s.applied|];
       && row.session == s.slot.value && row.three == three && row.lead == lead
       && SplitsThree(three, lead, row.backline) && Some(row.sourceAdvice) == ActiveMatch(s).selectionAdvice
  }

  lemma NotAppliedYet(s: Store, i: nat)
    requires Inv(s) && i < |s.sessions| && s.sessions[i].state == SelectionAdviceReady
    ensures forall k :: 0 <= k < |s.applied| ==> s.applied[k].session != i
  {
    hide TurnRows, FactRows, AdviceRows, ActionRows, OutcomeRows, ContentInv, LaneInv, JobRows;
    assert Shape(s.sessions[i]);
  }

  lemma ApplySelectionPromise(s: Store, three: seq<Name>, lead: Name, confirmed: bool)
    requires Inv(s)
    ensures var c := ApplySelection(s, three, lead, confirmed);
            Sound(s, c) && (c.Success? ==> SelectionApplied(s, c.value, three, lead))
  {
    hide Inv, Sound, Stepped, MatchMoved, Without, SplitsThree, Text.Distinct;
    var c := ApplySelection(s, three, lead, confirmed);
    if c.Success? {
      ApplySelectionSteps(s, three, lead, confirmed, c.value);
      MovedPast(s, s.slot.value, c.value.sessions[s.slot.value], c.value);
      NotAppliedYet(s, s.slot.value);
      WithoutThree(three, lead);
    }
    Sounds(s, c);
  }

  // ---- jobs ---------------------------------------------------------------------------------

  /** One more job, ready to be decided; nothing of its lane was waiting or of unknown delivery before. */
  predicate JobQueued(s: Store, s': Store, j: Job) {
    && s'.jobs == s.jobs + [j] && s'.sessions == s.sessions && s'.slot == s.slot && Decidable(s', |s.jobs|)
    && forall k :: 0 <= k < |s.jobs| && IsJobOf(s.jobs[k], j.session, j.jobType) ==> !Blocking(s.jobs[k])
  }

  /** The reviewed selection of the active match, whose six the proposal is asked about. */
  predicate HasReviewed(s: Store) {
    && HasActive(s) && ActiveMatch(s).reviewedSelection.Some?
    && ActiveMatch(s).reviewedSelection.value < |s.selectionFacts|
  }

  /** The Selection job for the match and the reviewed selection as they are now. */
  function SelectionJobNow(s: Store, command: Id, origin: Origin): Job
    requires HasReviewed(s)
  {
    var i, x, reviewed := s.slot.value, ActiveMatch(s), ActiveMatch(s).reviewedSelection.value;
    Job(command, SelectionAdviceJob, i, x.matchId, x.generation, None, x.battleRevision, SelectionOpen,
        SelectionSnapshot(reviewed),
        SelectionRequest(i, x.matchId, x.generation, x.battleRevision, reviewed, s.selectionFacts[reviewed]),
        Queued, 0, origin)
  }

  lemma FreeLane(s: Store, i: nat, lane: JobType)
    requires Inv(s) && LaneFree(s.jobs, i, lane)
    ensures forall k :: 0 <= k < |s.jobs| && IsJobOf(s.jobs[k], i, lane) ==> !Blocking(s.jobs[k])
  {
    hide BattleInv, LaneInv, ContentInv, JobBound;
  }

  predicate SelectionRequested(s: Store, s': Store, command: Id) {
    HasReviewed(s) && JobQueued(s, s', SelectionJobNow(s, command, Direct)) && s' == s.(jobs := s'.jobs)
  }

  lemma RequestMakes(s: Store, command: Id, s': Store)
    requires RequestSelectionAdvice(s, command) == Success(s')
    ensures HasReviewed(s) && s' == s.(jobs := s.jobs + [SelectionJobNow(s, command, Direct)])
  {
    hide LatestJob, GuardProvider;
  }

  lemma RequestSelectionPromise(s: Store, command: Id)
    requires Inv(s)
    ensures var c := RequestSelectionAdvice(s, command);
            Sound(s, c) && (c.Success? ==> SelectionRequested(s, c.value, command))
  {
    hide Inv, Sound, Stepped, LaneFree, RequestSelectionAdvice;
    var c := RequestSelectionAdvice(s, command);
    if c.Success? {
      RequestSelectionSteps(s, command, c.value);
      var i, j := RequestSelectionEffect(s, command, c.value);
      RequestMakes(s, command, c.value);
      FreeLane(s, i, SelectionAdviceJob);
    }
    Sounds(s, c);
  }

  /** The round names the new job, and it is the round's first or its predecessor has just failed transiently. */
  predicate AttemptReserved(s: Store, s': Store, command: Id) {
    && HasReviewed(s) && var x := ActiveMatch(s);
    var key := SelectionKey(s.slot.value, x.matchId, x.generation, x.battleRevision, x.reviewedSelection.value);
    && JobQueued(s, s', SelectionJobNow(s, command, Production(
                          if key in s.selectionLedger then Some(s.selectionLedger[key]) else None)))
    && (key in s.selectionLedger ==>
          s.selectionLedger[key] < |s.jobs| && EndedTransiently(s, s.slot.value, s.selectionLedger[key]))
    && s' == s.(jobs := s'.jobs, selectionLedger := s.selectionLedger[key := |s.jobs|])
  }

  lemma ReserveMakes(s: Store, command: Id, s': Store)
    requires ReserveSelectionAttempt(s, command) == Success(s')
    ensures HasReviewed(s)
    ensures var x := ActiveMatch(s);
            var key := SelectionKey(s.slot.value, x.matchId, x.generation, x.battleRevision, x.reviewedSelection.value);
            var j := SelectionJobNow(s, command, Production(
                       if key in s.selectionLedger then Some(s.selectionLedger[key]) else None));
            && s' == s.(jobs := s.jobs + [j], selectionLedger := s.selectionLedger[key := |s.jobs|])
            && (key in s.selectionLedger ==>
                  s.selectionLedger[key] < |s.jobs| && EndedTransiently(s, s.slot.value, s.selectionLedger[key]))
  {
    hide LatestJob, GuardProvider, EndedTransiently;
  }

  lemma ReservePromise(s: Store, command: Id)
    requires Inv(s)
    ensures var c := ReserveSelectionAttempt(s, command);
            Sound(s, c) && (c.Success? ==> AttemptReserved(s, c.value, command))
  {
    hide Inv, Sound, Stepped, LaneFree, ReserveSelectionAttempt, EndedTransiently;
    var c := ReserveSelectionAttempt(s, command);
    if c.Success? {
      ReserveSteps(s, command, c.value);
      var i, j, key := ReserveSelectionEffect(s, command, c.value);
      FreeLane(s, i, SelectionAdviceJob);
      ReserveMakes(s, command, c.value);
    }
    Sounds(s, c);
  }

  /** The turn's reviewed snapshot has its one job: none was ever made for the same snapshot of the same turn. */
  predicate TurnReserved(s: Store, s': Store, j: Job) {
    && JobQueued(s, s', j) && s' == s.(jobs := s'.jobs, turnLedger := s'.turnLedger)
    && (forall k :: 0 <= k < |s.jobs| && s.jobs[k].jobType == TurnAdviceJob ==> !SameTurnRound(s.jobs[k], j))
    && |s'.turnLedger| == |s.turnLedger| + 1 && s'.turnLedger[|s.turnLedger|].job == |s.jobs|
    && LedgerRowOf(s'.turnLedger[|s.turnLedger|], j) && s'.turnLedger[..|s.turnLedger|] == s.turnLedger
  }

  /** A Turn Advice job for the match's current turn and revision, about this snapshot, with this request. */
  function TurnJobNow(s: Store, command: Id, snapshot: SnapshotId, digest: Request): Job
    requires HasActive(s) && ActiveMatch(s).turn.Some?
  {
    var x := ActiveMatch(s);
    Job(command, TurnAdviceJob, s.slot.value, x.matchId, x.generation, Some(x.turn.value.number), x.battleRevision,
        TurnReviewed, snapshot, digest, Queued, 0, Direct)
  }

  predicate HasBoard(s: Store) {
    && HasActive(s) && ActiveMatch(s).turn.Some?
    && ActiveMatch(s).reviewedBoard.Some? && ActiveMatch(s).reviewedBoard.value < |s.facts|
    && ActiveMatch(s).applied.Some? && ActiveMatch(s).applied.value < |s.applied|
    && ActiveMatch(s).reviewedSelection.Some? && ActiveMatch(s).reviewedSelection.value < |s.selectionFacts|
  }

  /** The canonical request: the reviewed board itself, the applied three and the reviewed team's build. */
  function RequestNow(s: Store): Request
    requires HasBoard(s)
  {
    var x, board := ActiveMatch(s), ActiveMatch(s).reviewedBoard.value;
    TurnRequest(s.slot.value, x.matchId, x.generation, x.battleRevision, board, s.facts[board],
                s.applied[x.applied.value].three, s.selectionFacts[x.reviewedSelection.value].build)
  }

  predicate TurnRequested(s: Store, s': Store, command: Id) {
    && HasBoard(s)
    && TurnReserved(s, s', TurnJobNow(s, command, FactsSnapshot(ActiveMatch(s).reviewedBoard.value), RequestNow(s)))
  }

  /** The rich request is about the match's latest confirmed state, which is of this turn and revision. */
  predicate RichRequested(s: Store, s': Store, command: Id, gate: Option<nat>) {
    && HasActive(s) && ActiveMatch(s).turn.Some? && gate.Some?
    && var x := ActiveMatch(s);
       var state := LatestState(s.states, s.slot.value, x.matchId, x.generation);
       && state.Some?
       && state.value.identity == TurnIdentity(s.slot.value, x.matchId, x.generation, x.turn.value, x.turn.value.number,
                                               x.battleRevision)
       && TurnReserved(s, s', TurnJobNow(s, command, StateSnapshot(state.value.stateId),
                                         RichRequest(s.slot.value, x.matchId, x.generation, x.battleRevision,
                                                     state.value.stateId, gate.value)))
  }

  lemma FirstOfRound(s: Store, s': Store)
    requires Inv(s') && |s'.jobs| == |s.jobs| + 1 && s'.jobs[..|s.jobs|] == s.jobs
    requires s'.jobs[|s.jobs|].jobType == TurnAdviceJob
    ensures forall k :: 0 <= k < |s.jobs| && s.jobs[k].jobType == TurnAdviceJob ==>
              !SameTurnRound(s.jobs[k], s'.jobs[|s.jobs|])
  {
    hide BattleInv, JobRows, ContentInv, TurnLedgerRows, SelectionLedgerRows, AuditRows, SameTurnRound;
    forall k | 0 <= k < |s.jobs| && s.jobs[k].jobType == TurnAdviceJob
      ensures !SameTurnRound(s.jobs[k], s'.jobs[|s.jobs|])
    {
      assert s'.jobs[k] == s.jobs[k];
      if SameTurnRound(s'.jobs[k], s'.jobs[|s.jobs|]) {
        TurnJobOwnsRound(s'.jobs, s'.turnLedger, k, |s.jobs|);
      }
    }
  }

  lemma TurnJobPromise(s: Store, i: nat, j: Job, row: TurnLedgerRow, s': Store)
    requires Inv(s) && TurnJobAdded(s, i, j, row, s')
    ensures TurnReserved(s, s', j)
  {
    hide Inv, Stepped, LaneFree, LedgerRowOf, SameTurnRound;
    TurnJobSteps(s, i, j, row, s');
    FreeLane(s, i, TurnAdviceJob);
    assert Inv(s') by {
      SteppedInv(s, s');
    }
    FirstOfRound(s, s');
  }

  lemma SteppedInv(s: Store, s': Store)
    requires Stepped(s, s')
    ensures Inv(s')
  {
    hide Inv;
  }

  lemma RequestTurnPromise(s: Store, command: Id)
    requires Inv(s)
    ensures var c := RequestTurnAdvice(s, command);
            Sound(s, c) && (c.Success? ==> TurnRequested(s, c.value, command))
  {
    hide Inv, Sound, Stepped, TurnReserved, TurnJobAdded, RequestTurnAdvice, HasBoard, TurnJobNow, RequestNow;
    var c := RequestTurnAdvice(s, command);
    if c.Success? {
      RequestTurnSteps(s, command, c.value);
      var i, j, row := RequestTurnEffect(s, command, c.value);
      SelectionBehindTurn(s);
      RequestTurnMakes(s, command, c.value);
      JobOfReserved(s, i, j, row, c.value);
      TurnJobPromise(s, i, j, row, c.value);
    }
    Sounds(s, c);
  }

  lemma JobOfReserved(s: Store, i: nat, j: Job, row: TurnLedgerRow, s': Store)
    requires TurnJobAdded(s, i, j, row, s')
    ensures s'.jobs == s.jobs + [j] && s'.jobs[|s.jobs|] == j
  {
  }

  lemma SelectionBehindTurn(s: Store)
    requires Inv(s)
    ensures HasActive(s) && ActiveMatch(s).state == TurnReviewed ==> HasBoard(s)
  {
    hide TurnRows, AdviceRows, ActionRows, OutcomeRows, LaneInv, JobRows, ContentInv;
    if HasActive(s) && ActiveMatch(s).state == TurnReviewed {
      assert Shape(ActiveMatch(s)) && SelectionBound(ActiveMatch(s), s.slot.value, s.selectionFacts, s.applied);
    }
  }

  lemma RequestTurnMakes(s: Store, command: Id, s': Store)
    requires RequestTurnAdvice(s, command) == Success(s')
    requires HasActive(s) && ActiveMatch(s).state == TurnReviewed ==> HasBoard(s)
    ensures HasBoard(s) && |s'.jobs| == |s.jobs| + 1
    ensures s'.jobs[|s.jobs|] == TurnJobNow(s, command, FactsSnapshot(ActiveMatch(s).reviewedBoard.value), RequestNow(s))
  {
    hide LatestJob, GuardProvider, TurnAttemptReserved, LedgerKeyTaken;
  }

  lemma RequestRichPromise(s: Store, command: Id, gate: Option<nat>)
    requires Inv(s)
    ensures var c := RequestRichTurnAdvice(s, command, gate);
            Sound(s, c) && (c.Success? ==> RichRequested(s, c.value, command, gate))
  {
    hide Inv, Sound, Stepped, TurnReserved, TurnJobAdded, RequestRichTurnAdvice, TurnJobNow;
    var c := RequestRichTurnAdvice(s, command, gate);
    if c.Success? {
      RequestRichSteps(s, command, gate, c.value);
      var i, j, row := RequestRichEffect(s, command, gate, c.value);
      RequestRichMakes(s, command, gate, c.value);
      JobOfReserved(s, i, j, row, c.value);
      TurnJobPromise(s, i, j, row, c.value);
    }
    Sounds(s, c);
  }

  lemma RequestRichMakes(s: Store, command: Id, gate: Option<nat>, s': Store)
    requires RequestRichTurnAdvice(s, command, gate) == Success(s')
    ensures HasActive(s) && ActiveMatch(s).turn.Some? && gate.Some? && |s'.jobs| == |s.jobs| + 1
    ensures var x := ActiveMatch(s);
            var state := LatestState(s.states, s.slot.value, x.matchId, x.generation);
            && state.Some?
            && state.value.identity == TurnIdentity(s.slot.value, x.matchId, x.generation, x.turn.value,
                                                    x.turn.value.number, x.battleRevision)
            && s'.jobs[|s.jobs|] == TurnJobNow(s, command, StateSnapshot(state.value.stateId),
                                               RichRequest(s.slot.value, x.matchId, x.generation, x.battleRevision,
                                                           state.value.stateId, gate.value))
  {
    hide LatestJob, GuardProvider, TurnAttemptReserved, LedgerKeyTaken, LatestState;
  }

  /** One attempt's record is written, the first time, and no other is touched. */
  predicate AttemptOpened(s: Store, s': Store, key: AttemptKey) {
    && key.job < |s.jobs| && 1 <= key.ordinal <= 2 && key !in s.attempts
    && key in s'.attempts && s'.attempts[key] == Attempt(Started, NoReason) && s'.attempts - {key} == s.attempts
    && s' == s.(attempts := s'.attempts)
  }

  lemma StartAttemptPromise(s: Store, job: nat, ordinal: nat)
    requires Inv(s)
    ensures var c := StartAttempt(s, job, ordinal);
            Sound(s, c) && (c.Success? ==> AttemptOpened(s, c.value, AttemptKey(job, ordinal)))
  {
    hide Inv, Sound, Stepped;
    var c := StartAttempt(s, job, ordinal);
    if c.Success? {
      StartAttemptSteps(s, job, ordinal, c.value);
    }
    Sounds(s, c);
  }

  /** An attempt that was under way is over with this outcome, for good, and no other is touched. */
  predicate AttemptClosed(s: Store, s': Store, key: AttemptKey, succeeded: bool, reason: FailureReason) {
    && key in s.attempts && s.attempts[key].outcome == Started
    && key in s'.attempts && s'.attempts[key].reason == reason
    && s'.attempts[key].outcome == (if succeeded then AttemptSucceeded else AttemptFailed)
    && s'.attempts - {key} == s.attempts - {key} && s' == s.(attempts := s'.attempts)
  }

  lemma FinishAttemptPromise(s: Store, job: nat, ordinal: nat, succeeded: bool, reason: FailureReason)
    requires Inv(s)
    ensures var c := FinishAttempt(s, job, ordinal, succeeded, reason);
            Sound(s, c) && (c.Success? ==> AttemptClosed(s, c.value, AttemptKey(job, ordinal), succeeded, reason))
  {
    hide Inv, Sound, Stepped;
    var c := FinishAttempt(s, job, ordinal, succeeded, reason);
    if c.Success? {
      FinishAttemptSteps(s, job, ordinal, succeeded, reason, c.value);
    }
    Sounds(s, c);
  }

  /** The lane's newest job of the active match, never sent before, is now sent once; it stays decidable if it was. */
  predicate Dispatched(s: Store, s': Store, lane: JobType, job: nat) {
    && job < |s.jobs| == |s'.jobs| && s.slot.Some? && LatestJob(s.jobs, s.slot.value, lane) == Some(job)
    && s.jobs[job].status == Queued && s.jobs[job].dispatchCount == 0
    && s.jobs[job].jobType == lane
    && s'.jobs == s.jobs[job := s.jobs[job].(status := InFlight, dispatchCount := 1)]
    && (Decidable(s, job) <==> Decidable(s', job))
    && s' == s.(jobs := s'.jobs)
  }

  lemma QueuedIsUnsent(s: Store, job: nat)
    requires Inv(s) && job < |s.jobs| && s.jobs[job].status == Queued
    ensures s.jobs[job].dispatchCount == 0
  {
    hide BattleInv, LaneInv, ContentInv;
    assert JobBound(s.jobs[job], s.sessions);
  }

  lemma DispatchPromise(s: Store, lane: JobType, job: nat)
    requires Inv(s)
    ensures var c := MarkDispatched(s, lane, job);
            Sound(s, c) && (c.Success? ==> Dispatched(s, c.value, lane, job))
  {
    hide Inv, Sound, Stepped;
    var c := MarkDispatched(s, lane, job);
    if c.Success? {
      MarkDispatchedSteps(s, lane, job, c.value);
      QueuedIsUnsent(s, job);
    }
    Sounds(s, c);
  }

  /** A waiting job of the lane is over; a final job, another lane's job or an unknown one is left alone. */
  predicate JobFailed(s: Store, s': Store, lane: JobType, job: nat, reason: FailureReason) {
    && |s'.jobs| == |s.jobs| && (forall k :: 0 <= k < |s.jobs| && k != job ==> s'.jobs[k] == s.jobs[k])
    && (job < |s.jobs| ==>
          if s.jobs[job].jobType == lane && IsPending(s.jobs[job].status) then
            && s'.jobs[job] == s.jobs[job].(status := s'.jobs[job].status) && !Decidable(s', job)
            && s'.jobs[job].status == (if reason == Timeout then TimedOut else Failed)
          else s'.jobs[job] == s.jobs[job])
    && s' == s.(jobs := s'.jobs)
  }

  lemma FailPromise(s: Store, lane: JobType, job: nat, reason: FailureReason)
    requires Inv(s)
    ensures var c := FailJob(s, lane, job, reason);
            Sound(s, c) && (c.Success? ==> JobFailed(s, c.value, lane, job, reason))
  {
    hide Inv, Sound, Stepped;
    var c := FailJob(s, lane, job, reason);
    if c.Success? {
      FailJobSteps(s, lane, job, reason, c.value);
    }
    Sounds(s, c);
  }

  /** After a restart nothing waits: what had been sent is of unknown delivery, what had not is interrupted. */
  predicate NothingWaits(s: Store, s': Store) {
    && |s'.jobs| == |s.jobs| && s' == s.(jobs := s'.jobs) && NothingDecidable(s')
    && forall k :: 0 <= k < |s.jobs| ==>
         && s'.jobs[k] == s.jobs[k].(status := s'.jobs[k].status) && Final(s'.jobs[k].status)
         && (Final(s.jobs[k].status) ==> s'.jobs[k] == s.jobs[k])
         && (IsPending(s.jobs[k].status) ==>
               s'.jobs[k].status == if s.jobs[k].dispatchCount == 1 then DeliveryUnknown else Interrupted)
  }

  lemma RecoveredByDispatch(j: Job, sessions: seq<Session>)
    requires JobBound(j, sessions) && IsPending(j.status)
    ensures Recovered(j).status == if j.dispatchCount == 1 then DeliveryUnknown else Interrupted
  {
  }

  lemma RecoveredWaitsNot(s: Store, s': Store)
    requires JobRows(s.sessions, s.jobs) && s' == s.(jobs := RecoverJobs(s.jobs))
    ensures NothingWaits(s, s')
  {
    hide JobBound;
    forall k | 0 <= k < |s.jobs| && IsPending(s.jobs[k].status)
      ensures s'.jobs[k].status == if s.jobs[k].dispatchCount == 1 then DeliveryUnknown else Interrupted
    {
      RecoveredByDispatch(s.jobs[k], s.sessions);
    }
  }

  lemma RecoverPromise(s: Store)
    requires Inv(s)
    ensures var c := RecoverAfterRestart(s);
            Sound(s, c) && (c.Success? ==> NothingWaits(s, c.value))
  {
    hide Inv, JobRows, Sound, Stepped, NothingWaits, RecoverJobs;
    var c := RecoverAfterRestart(s);
    RecoverSteps(s, c.value);
    assert JobRows(s.sessions, s.jobs) by {
      JobsOf(s);
    }
    RecoveredWaitsNot(s, c.value);
    Sounds(s, c);
  }

  lemma JobsOf(s: Store)
    requires Inv(s)
    ensures JobRows(s.sessions, s.jobs)
  {
    hide BattleInv, LaneInv, ContentInv, JobRows;
  }

  // ---- results ------------------------------------------------------------------------------

  /**
   A result leaves exactly one audit row. It decides its job only if the job can be decided now and never was before;
   applied, it moves the match past every job there is; found invalid, it fails the job; else it changes nothing.
   */
  predicate ResultSettled(s: Store, s': Store, r: ResultEnvelope, lane: JobType) {
    && |s'.audits| == |s.audits| + 1 && s'.audits[..|s.audits|] == s.audits
    && var a := s'.audits[|s.audits|];
       && a.resultId == r.resultId && a.job == r.jobId
       && match a.disposition
          case Applied =>
            && DecidedFirst(s, lane, r.jobId) && s'.jobs == SetStatus(s.jobs, r.jobId, Succeeded)
            && HasActive(s)
            && MatchMoved(s, s', if lane == SelectionAdviceJob
                                 then NextAs(ActiveMatch(s), SelectionAdviceReady).(selectionAdvice := Some(r.resultId))
                                 else NextAs(ActiveMatch(s), TurnReviewed).(turnAdvice := Some(r.resultId)))
          case InvalidRejected =>
            && DecidedFirst(s, lane, r.jobId) && s'.jobs == SetStatus(s.jobs, r.jobId, Failed)
            && s' == s.(audits := s'.audits, jobs := s'.jobs)
          case _ => s' == s.(audits := s'.audits)
  }

  predicate DecidedFirst(s: Store, lane: JobType, job: nat) {
    && Decidable(s, job) && LatestJob(s.jobs, s.jobs[job].session, lane) == Some(job)
    && forall p :: 0 <= p < |s.audits| && s.audits[p].job == job ==> !Decisive(s.audits[p].disposition)
  }

  lemma StillUndecided(s: Store, lane: JobType, r: ResultEnvelope)
    requires Inv(s) && Expected(s, lane, r) && Current(s, r) && (lane == SelectionAdviceJob || lane == TurnAdviceJob)
    ensures DecidedFirst(s, lane, r.jobId)
    ensures s.sessions[s.slot.value].state == if lane == SelectionAdviceJob then SelectionOpen else TurnReviewed
  {
    hide BattleInv, JobRows, ContentInv, TurnLedgerRows, SelectionLedgerRows, Decidable;
    StateAtJob(s, lane, r);
  }

  lemma NotedSettles(s: Store, r: ResultEnvelope, lane: JobType, s': Store)
    requires OnlyNoted(s, r, s')
    ensures ResultSettled(s, s', r, lane)
  {
    hide DecidedFirst, MatchMoved;
  }

  lemma RefutedSettles(s: Store, r: ResultEnvelope, lane: JobType, s': Store)
    requires Refuted(s, r, s') && DecidedFirst(s, lane, r.jobId)
    ensures ResultSettled(s, s', r, lane)
  {
    hide DecidedFirst, MatchMoved;
  }

  lemma AppliedSettles(s: Store, r: ResultEnvelope, lane: JobType, y: Session, s': Store)
    requires Inv(s) && DecidedFirst(s, lane, r.jobId) && s.slot.Some? && ActiveIs(s, s.slot.value)
    requires y == if lane == SelectionAdviceJob
                  then NextAs(ActiveMatch(s), SelectionAdviceReady).(selectionAdvice := Some(r.resultId))
                  else NextAs(ActiveMatch(s), TurnReviewed).(turnAdvice := Some(r.resultId))
    requires s'.sessions == s.sessions[s.slot.value := y] && s'.slot == s.slot
    requires s'.audits == s.audits + [Audit(r.resultId, r.jobId, Applied, BindingAccepted)]
    requires s'.jobs == SetStatus(s.jobs, r.jobId, Succeeded)
    ensures ResultSettled(s, s', r, lane)
  {
    hide Inv, MatchMoved;
    MovedPast(s, s.slot.value, y, s');
  }

  lemma SelectionResultPromise(s: Store, r: ResultEnvelope)
    requires Inv(s)
    ensures var c := ApplySelectionResult(s, r);
            Sound(s, c) && (c.Success? ==> ResultSettled(s, c.value, r, SelectionAdviceJob))
  {
    hide Inv, Sound, Stepped, ApplySelectionResult, ResultSettled, OnlyNoted, Expected, Current, DecidedFirst;
    var c := ApplySelectionResult(s, r);
    if c.Success? {
      SelectionResultSteps(s, r, c.value);
      SelectionResultEffect(s, r, c.value);
      if OnlyNoted(s, r, c.value) {
        NotedSettles(s, r, SelectionAdviceJob, c.value);
      } else {
        StillUndecided(s, SelectionAdviceJob, r);
        if Refuted(s, r, c.value) {
          RefutedSettles(s, r, SelectionAdviceJob, c.value);
        } else {
          AppliedSettles(s, r, SelectionAdviceJob, c.value.sessions[s.slot.value], c.value);
        }
      }
    }
    Sounds(s, c);
  }

  lemma TurnAcceptedSettles(s: Store, r: ResultEnvelope, s': Store, a: TurnAdvice)
    requires Inv(s) && TurnAccepted(s, r, s', a) && DecidedFirst(s, TurnAdviceJob, r.jobId)
    requires s.sessions[s.slot.value].state == TurnReviewed
    ensures ResultSettled(s, s', r, TurnAdviceJob)
  {
    hide Inv, ResultSettled, DecidedFirst;
    AppliedSettles(s, r, TurnAdviceJob, s'.sessions[s.slot.value], s');
  }

  lemma TurnResultPromise(s: Store, r: ResultEnvelope)
    requires Inv(s)
    ensures var c := ApplyTurnResult(s, r);
            Sound(s, c) && (c.Success? ==> ResultSettled(s, c.value, r, TurnAdviceJob))
  {
    hide Inv, Sound, Stepped, ApplyTurnResult, ResultSettled, OnlyNoted, Expected, Current, DecidedFirst;
    var c := ApplyTurnResult(s, r);
    if c.Success? {
      TurnResultSteps(s, r, c.value);
      var a := TurnResultEffect(s, r, c.value);
      if OnlyNoted(s, r, c.value) {
        NotedSettles(s, r, TurnAdviceJob, c.value);
      } else {
        StillUndecided(s, TurnAdviceJob, r);
        if Refuted(s, r, c.value) {
          RefutedSettles(s, r, TurnAdviceJob, c.value);
        } else {
          TurnAcceptedSettles(s, r, c.value, a);
        }
      }
    }
    Sounds(s, c);
  }

  lemma RichResultPromise(s: Store, r: ResultEnvelope, rebuilt: Option<Action>)
    requires Inv(s)
    ensures var c := ApplyRichTurnResult(s, r, rebuilt);
            Sound(s, c) && (c.Success? ==> ResultSettled(s, c.value, r, TurnAdviceJob))
  {
    hide Inv, Sound, Stepped, ApplyRichTurnResult, ResultSettled, OnlyNoted, Expected, Current, DecidedFirst;
    var c := ApplyRichTurnResult(s, r, rebuilt);
    if c.Success? {
      RichResultSteps(s, r, rebuilt, c.value);
      var a := RichResultEffect(s, r, rebuilt, c.value);
      if OnlyNoted(s, r, c.value) {
        NotedSettles(s, r, TurnAdviceJob, c.value);
      } else {
        StillUndecided(s, TurnAdviceJob, r);
        if Refuted(s, r, c.value) {
          RefutedSettles(s, r, TurnAdviceJob, c.value);
        } else {
          TurnAcceptedSettles(s, r, c.value, a);
        }
      }
    }
    Sounds(s, c);
  }

  // ---- turns --------------------------------------------------------------------------------

  /** The match's next turn is open, with nothing reviewed, advised or recorded in it; the one before is recorded. */
  predicate TurnBegun(s: Store, s': Store) {
    && HasActive(s)
    && var x := ActiveMatch(s);
       var turn := TurnId(s.slot.value, if x.turn.Some? then x.turn.value.number + 1 else 1);
       && MatchMoved(s, s', NextAs(x, TurnCapturePending).(turn := Some(turn), reviewedBoard := None, turnAdvice := None))
       && turn !in s.turns && s'.turns == s.turns + [turn] && !HasAction(s.actions, turn)
       && (x.turn.Some? ==> HasAction(s.actions, x.turn.value))
       && s' == s.(sessions := s'.sessions, turns := s'.turns, drafts := s'.drafts)
  }

  /** The same, with no draft made. */
  predicate NextTurnOpened(s: Store, s': Store) {
    TurnBegun(s, s') && s'.drafts == s.drafts
  }

  lemma StartMakesNoDraft(s: Store, s': Store)
    requires StartTurnCapture(s) == Success(s') || NextTurn(s) == Success(s')
    ensures s'.drafts == s.drafts
  {
  }

  lemma TurnIsNew(s: Store, i: nat)
    requires Inv(s) && ActiveIs(s, i)
    ensures var turn := TurnId(i, TurnCount(s.sessions[i]) + 1);
            turn !in s.turns && !HasAction(s.actions, turn)
    ensures s.sessions[i].turn.Some? && Decided(s.sessions[i].state) ==> HasAction(s.actions, s.sessions[i].turn.value)
  {
    hide SessionsOk, SelectionRows, FactRows, AdviceRows, OutcomeRows, ContentInv, LaneInv, JobRows;
  }

  lemma OpenedPromise(s: Store, i: nat, turn: TurnId, s': Store)
    requires Inv(s) && TurnOpened(s, i, turn, s') && turn == TurnId(i, TurnCount(s.sessions[i]) + 1)
    requires s.sessions[i].turn.Some? ==> Decided(s.sessions[i].state)
    ensures TurnBegun(s, s')
  {
    hide Inv, MatchMoved, HasAction;
    TurnIsNew(s, i);
    MovedPast(s, i, s'.sessions[i], s');
  }

  lemma StartTurnPromise(s: Store)
    requires Inv(s)
    ensures var c := StartTurnCapture(s);
            Sound(s, c) && (c.Success? ==> NextTurnOpened(s, c.value))
  {
    hide Inv, Sound, Stepped, TurnBegun, StartTurnCapture;
    var c := StartTurnCapture(s);
    if c.Success? {
      StartTurnSteps(s, c.value);
      var i, turn := StartTurnEffect(s, c.value);
      OpenedPromise(s, i, turn, c.value);
      StartMakesNoDraft(s, c.value);
    }
    Sounds(s, c);
  }

  lemma NextTurnPromise(s: Store)
    requires Inv(s)
    ensures var c := NextTurn(s);
            Sound(s, c) && (c.Success? ==> NextTurnOpened(s, c.value))
  {
    hide Inv, Sound, Stepped, TurnBegun, NextTurn;
    var c := NextTurn(s);
    if c.Success? {
      NextTurnSteps(s, c.value);
      var i, turn := NextTurnEffect(s, c.value);
      OpenedPromise(s, i, turn, c.value);
      StartMakesNoDraft(s, c.value);
    }
    Sounds(s, c);
  }

  /** The next turn is open and the plan's draft waits under it, made from the state and delta still the last. */
  predicate DraftStored(s: Store, s': Store, plan: NextTurnPlan) {
    && TurnBegun(s, s') && s.slot == Some(plan.session)
    && LatestStateOf(s, plan.session) == Some(plan.confirmed)
    && LastDeltaOn(s.deltas, plan.confirmed.stateId) == Some(plan.delta)
    && ActiveMatch(s).battleRevision + 1 == plan.draft.identity.battleRevision
    && var key := DraftKey(plan.draft.identity.session, plan.draft.identity.turnId, plan.draft.identity.battleRevision);
       && key in s'.drafts && s'.drafts[key] == plan.draft && s'.drafts - {key} == s.drafts - {key}
       && forall k :: k in s'.drafts && k != key ==> s'.drafts[k].draftId != plan.draft.draftId
  }

  lemma DraftEffect(s: Store, plan: NextTurnPlan, s': Store)
    requires CommitNextTurn(s, plan) == Success(s')
    ensures s.slot == Some(plan.session) && plan.session < |s.sessions|
    ensures LatestStateOf(s, plan.session) == Some(plan.confirmed)
    ensures LastDeltaOn(s.deltas, plan.confirmed.stateId) == Some(plan.delta)
    ensures plan.session < |s'.sessions|
    ensures s'.sessions[plan.session].battleRevision == plan.draft.identity.battleRevision
    ensures var x := plan.draft.identity;
            var key := DraftKey(x.session, x.turnId, x.battleRevision);
            s'.drafts == s.drafts[key := plan.draft] && !DraftIdTaken(s.drafts, key, plan.draft.draftId)
  {
    hide LatestState, LastDeltaOn;
  }

  lemma CommitPlanPromise(s: Store, plan: NextTurnPlan)
    requires Inv(s)
    ensures var c := CommitNextTurn(s, plan);
            Sound(s, c) && (c.Success? ==> DraftStored(s, c.value, plan))
  {
    hide Inv, Sound, Stepped, TurnBegun, CommitNextTurn, LatestState, LastDeltaOn;
    var c := CommitNextTurn(s, plan);
    if c.Success? {
      CommitNextTurnSteps(s, plan, c.value);
      var i, turn := CommitNextTurnEffect(s, plan, c.value);
      OpenedPromise(s, i, turn, c.value);
      DraftEffect(s, plan, c.value);
    }
    Sounds(s, c);
  }

  /** The row says what the human typed, stripped, about this turn, after the board it replaces. */
  predicate FactsSay(f: TurnFacts, turn: TurnId, previous: Option<nat>, input: FactsInput) {
    && f.turn == turn && f.previous == previous
    && f.selfActive == Text.Strip(input.selfActive) && f.opponentActive == Text.Strip(input.opponentActive)
    && f.selfHp == input.selfHp && f.opponentHp == input.opponentHp && f.note == Text.Strip(input.note)
    && |f.moves| == |input.moves| && (forall k :: 0 <= k < |f.moves| ==> f.moves[k] == Text.Strip(input.moves[k]))
    && |f.switches| == |input.switches|
    && (forall k :: 0 <= k < |f.switches| ==> f.switches[k] == Text.Strip(input.switches[k]))
  }

  /** The current turn's newest facts are the reviewed board; advice for an older board is neither kept nor awaited. */
  predicate BoardConfirmed(s: Store, s': Store, input: FactsInput) {
    && HasActive(s) && ActiveMatch(s).turn.Some?
    && MatchMoved(s, s', NextAs(ActiveMatch(s), TurnReviewed).(reviewedBoard := Some(|s.facts|), turnAdvice := None))
    && s' == s.(sessions := s'.sessions, facts := s'.facts, jobs := s'.jobs)
    && |s'.facts| == |s.facts| + 1 && s'.facts[..|s.facts|] == s.facts
    && FactsSay(s'.facts[|s.facts|], ActiveMatch(s).turn.value, ActiveMatch(s).reviewedBoard, input)
    && |s'.jobs| == |s.jobs|
    && forall k :: 0 <= k < |s.jobs| ==>
         s'.jobs[k] == if ActiveMatch(s).reviewedBoard.Some? && IsPending(s.jobs[k].status)
                          && s.jobs[k].session == s.slot.value && s.jobs[k].jobType == TurnAdviceJob
                       then s.jobs[k].(status := Cancelled) else s.jobs[k]
  }

  lemma CancelledLane(s: Store, i: nat)
    requires Inv(s)
    ensures var jobs' := CancelPending(s.jobs, i);
            forall k :: 0 <= k < |jobs'| ==>
              jobs'[k] == if IsPending(s.jobs[k].status) && s.jobs[k].session == i && s.jobs[k].jobType == TurnAdviceJob
                          then s.jobs[k].(status := Cancelled) else s.jobs[k]
  {
    hide BattleInv, LaneInv, ContentInv, JobBound;
    forall k | 0 <= k < |s.jobs| && IsJobOf(s.jobs[k], i, TurnAdviceJob) && IsPending(s.jobs[k].status)
      ensures LatestJob(s.jobs, i, TurnAdviceJob) == Some(k)
    {
      assert Blocking(s.jobs[k]);
    }
  }

  lemma FactsCancel(s: Store, input: FactsInput, confirmed: bool, s': Store)
    requires ConfirmTurnFacts(s, input, confirmed) == Success(s')
    ensures s.slot.Some? && s.slot.value < |s.sessions|
    ensures s'.jobs == if s.sessions[s.slot.value].reviewedBoard.None? then s.jobs else CancelPending(s.jobs, s.slot.value)
    ensures ActiveMatch(s).turn.Some?
    ensures s'.facts == s.facts + [FactsRow(ActiveMatch(s).turn.value, input, ActiveMatch(s).reviewedBoard)]
  {
    hide FactsRefusal, FactsRow, CancelPending;
  }

  lemma RowSays(turn: TurnId, input: FactsInput, previous: Option<nat>)
    ensures FactsSay(FactsRow(turn, input, previous), turn, previous, input)
  {
    hide Text.Strip;
  }

  lemma FactsPromise(s: Store, input: FactsInput, confirmed: bool)
    requires Inv(s)
    ensures var c := ConfirmTurnFacts(s, input, confirmed);
            Sound(s, c) && (c.Success? ==> BoardConfirmed(s, c.value, input))
  {
    hide Inv, Sound, Stepped, MatchMoved, ConfirmTurnFacts, CancelPending, ValidTurnFacts, FactsRow, FactsSay;
    var c := ConfirmTurnFacts(s, input, confirmed);
    if c.Success? {
      ConfirmTurnFactsSteps(s, input, confirmed, c.value);
      var i, f := ConfirmTurnFactsEffect(s, input, confirmed, c.value);
      FactsCancel(s, input, confirmed, c.value);
      CancelledLane(s, i);
      RowSays(ActiveMatch(s).turn.value, input, ActiveMatch(s).reviewedBoard);
      MovedPast(s, i, c.value.sessions[i], c.value);
    }
    Sounds(s, c);
  }

  /** The row says what the human confirmed: names stripped, the opponent's action where a type was given. */
  predicate ActionSays(a: RecordedAction, input: ActionInput) {
    && a.own.actionType == input.actionType && a.own.name == Text.Strip(input.name) && a.order == input.order
    && (a.opponent.Some? <==> input.opponentType.Some?)
    && (a.opponent.Some? ==>
          && input.opponentName.Some? && a.opponent.value.actionType == input.opponentType.value
          && a.opponent.value.name == Text.Strip(input.opponentName.value))
  }

  /** The turn's one action is on record, legal on the reviewed board, and a rich completion stored with it. */
  predicate ActionTaken(s: Store, s': Store, input: ActionInput, rich: Option<RichCompletion>) {
    && HasActive(s) && MatchMoved(s, s', NextAs(ActiveMatch(s), TurnRecorded))
    && s' == s.(sessions := s'.sessions, actions := s'.actions, deltas := s'.deltas, completions := s'.completions)
    && |s'.actions| == |s.actions| + 1 && s'.actions[..|s.actions|] == s.actions
    && var x, a := ActiveMatch(s), s'.actions[|s.actions|];
       && x.turn == Some(a.turn) && !HasAction(s.actions, a.turn) && ActionSays(a, input)
       && x.reviewedBoard.Some? && x.reviewedBoard.value < |s.facts|
       && var f := s.facts[x.reviewedBoard.value];
       && a.own.name in (if a.own.actionType == Move then f.moves else f.switches)
       && match rich
          case None => s'.deltas == s.deltas && s'.completions == s.completions
          case Some(done) =>
            && s'.deltas == s.deltas + [done.delta]
            && s'.completions == s.completions + [Completion(done.transaction, done.identity, done.delta.basedOn, a,
                                                             done.delta.deltaId)]
  }

  lemma CompletionEffect(s: Store, input: ActionInput, confirmed: bool, rich: Option<RichCompletion>, s': Store)
    requires RecordAction(s, input, confirmed, rich) == Success(s')
    ensures |s'.actions| == |s.actions| + 1 && ActionSays(s'.actions[|s.actions|], input)
    ensures rich.None? ==> s'.deltas == s.deltas && s'.completions == s.completions
    ensures rich.Some? ==>
              && rich.value.identity.turnId == s'.actions[|s.actions|].turn
              && s'.deltas == s.deltas + [rich.value.delta]
              && s'.completions == s.completions + [Completion(rich.value.transaction, rich.value.identity,
                                                              rich.value.delta.basedOn, s'.actions[|s.actions|],
                                                              rich.value.delta.deltaId)]
  {
    hide LegalIn, ActionFor, StateRow, CompletionKeyTaken, Text.Strip, Text.IsBlank;
  }

  lemma RecordPromise(s: Store, input: ActionInput, confirmed: bool, rich: Option<RichCompletion>)
    requires Inv(s)
    ensures var c := RecordAction(s, input, confirmed, rich);
            Sound(s, c) && (c.Success? ==> ActionTaken(s, c.value, input, rich))
  {
    hide Inv, Sound, Stepped, MatchMoved, RecordAction, HasAction, ActionSays;
    var c := RecordAction(s, input, confirmed, rich);
    if c.Success? {
      RecordActionSteps(s, input, confirmed, rich, c.value);
      var i, a := RecordActionEffect(s, input, confirmed, rich, c.value);
      CompletionEffect(s, input, confirmed, rich, c.value);
      MovedPast(s, i, c.value.sessions[i], c.value);
    }
    Sounds(s, c);
  }

  /** The state is on record under an id and a turn revision no other has. */
  predicate StateStored(s: Store, s': Store, state: ConfirmedTurnState) {
    && s'.states == s.states + [state] && s' == s.(states := s'.states)
    && (forall k :: 0 <= k < |s.states| ==> !SameStateKey(s.states[k], state))
    && (state.previous.Some? ==> exists k :: 0 <= k < |s'.states| && s'.states[k].stateId == state.previous.value)
  }

  lemma PredecessorStored(states: seq<ConfirmedTurnState>, state: ConfirmedTurnState)
    requires PredecessorPresent(states, state) && state.previous.Some?
    ensures exists k :: 0 <= k < |states + [state]| && (states + [state])[k].stateId == state.previous.value
  {
    var all := states + [state];
    if state.previous.value == state.stateId {
      assert all[|states|].stateId == state.previous.value;
    } else {
      var row := StateRow(states, state.previous.value).value;
      var k :| 0 <= k < |states| && states[k] == row;
      assert all[k].stateId == state.previous.value;
    }
  }

  lemma AppendStatePromise(s: Store, state: ConfirmedTurnState)
    requires Inv(s)
    ensures var c := AppendConfirmedState(s, state);
            Sound(s, c) && (c.Success? ==> StateStored(s, c.value, state))
  {
    hide Inv, Sound, Stepped, SameStateKey;
    var c := AppendConfirmedState(s, state);
    if c.Success? {
      AppendStateSteps(s, state, c.value);
      if state.previous.Some? {
        PredecessorStored(s.states, state);
      }
    }
    Sounds(s, c);
  }
}
