/** One match played from an empty repository: the guards can all be passed, so the guarantees are about something. */
module Scenario {
  import opened Basics
  import Text
  import opened TurnState
  import opened Records
  import opened Store
  import opened Commands
  import opened Guarantees
  import opened Progress
  import opened ExportCrash
  import ExportChain

  const TEAM: seq<Name> := ["a", "b", "c", "d", "e", "f"]
  const THREE: seq<Name> := ["a", "b", "c"]
  const REVIEWED := SelectionFacts(0, TEAM, TEAM, None)
  const CHOSEN := AppliedSelection(0, THREE, "a", ["b", "c"], 10)
  const INPUT := FactsInput("a", "d", Hp100, Hp100, ["m"], ["b"], "")
  const BOARD := TurnFacts(TurnId(0, 1), "a", "d", Hp100, Hp100, ["m"], ["b"], "", None)
  const ANSWER := Body(Move, "m", true)
  const INTEL := Pinned(7, 8)
  const PLAYED := ActionInput(Move, "m", None, None, OrderUnknown)

  /** The session row, by what changes over the match. */
  function Row0(state: BattleState, revision: nat, advice: Option<Id>, applied: Option<nat>, turn: Option<TurnId>,
                board: Option<nat>, turnAdvice: Option<Id>): Session
  {
    Session(0, 1, state, revision, 0, if revision == 1 then None else Some(0), advice, applied, turn, board, turnAdvice,
            RulesPin(0, 0), INTEL)
  }

  function Opened(): Store {
    EMPTY.(sessions := [Row0(SelectionOpen, 1, None, None, None, None, None)], slot := Some(0))
  }

  function Reviewed(): Store {
    Opened().(sessions := [Row0(SelectionOpen, 2, None, None, None, None, None)], selectionFacts := [REVIEWED])
  }

  function Asked(): Job {
    Job(1, SelectionAdviceJob, 0, 0, 1, None, 2, SelectionOpen, SelectionSnapshot(0),
        SelectionRequest(0, 0, 1, 2, 0, REVIEWED), Queued, 0, Direct)
  }

  function Proposed(): ResultEnvelope {
    Echo(Asked(), 0, 10, MalformedTurn).(selectionPayload := Proposal(THREE, "a"))
  }

  function Advised(): Store {
    Reviewed().(sessions := [Row0(SelectionAdviceReady, 3, Some(10), None, None, None, None)],
                selectionAdvices := [SelectionAdvice(10, 0, 0, THREE, "a")], jobs := [Asked().(status := Succeeded)],
                audits := [Audit(10, 0, Applied, BindingAccepted)])
  }

  function Chosen(): Store {
    Advised().(sessions := [Row0(BattleReady, 4, Some(10), Some(0), None, None, None)], applied := [CHOSEN])
  }

  function Started(): Store {
    Chosen().(sessions := [Row0(TurnCapturePending, 5, Some(10), Some(0), Some(TurnId(0, 1)), None, None)],
              turns := [TurnId(0, 1)])
  }

  function FactsConfirmed(): Store {
    Started().(sessions := [Row0(TurnReviewed, 6, Some(10), Some(0), Some(TurnId(0, 1)), Some(0), None)], facts := [BOARD])
  }

  // ---- the confirmed state of turn 1 --------------------------------------------------------

  const SLOTS: set<Slot> := {
    Own(Active), Own(HpBucketField), Own(Status), Own(Attack), Own(Defense), Own(SpecialAttack), Own(SpecialDefense),
    Own(Speed), Own(Accuracy), Own(Evasion), Own(SideEffects),
    Opponent(Active), Opponent(HpBucketField), Opponent(Status), Opponent(Attack), Opponent(Defense),
    Opponent(SpecialAttack), Opponent(SpecialDefense), Opponent(Speed), Opponent(Accuracy), Opponent(Evasion),
    Opponent(SideEffects), Weather, Terrain}

  /** The two active members are known, nothing else was looked at. */
  function KnownAt(slot: Slot): Known {
    match slot
    case Own(Active) => Confirmed(Plain("a"), [HumanInput])
    case Opponent(Active) => Confirmed(Plain("d"), [HumanInput])
    case _ => Unknown([NoSource])
  }

  function FirstState(): ConfirmedTurnState {
    ConfirmedTurnState(0, TurnIdentity(0, 0, 1, TurnId(0, 1), 1, 6), None, map slot | slot in SLOTS :: KnownAt(slot),
                       Confirmation("now", "HUMAN_CONFIRMED"), None)
  }

  lemma EverySlot(slot: Slot)
    ensures slot in SLOTS
  {
    match slot
    case Own(f) => EveryField(f);
    case Opponent(f) => EveryField(f);
    case _ =>
  }

  lemma EveryField(f: Field)
    ensures Own(f) in SLOTS && Opponent(f) in SLOTS
  {
    match f
    case Active =>
    case HpBucketField =>
    case Status =>
    case Attack =>
    case Defense =>
    case SpecialAttack =>
    case SpecialDefense =>
    case Speed =>
    case Accuracy =>
    case Evasion =>
    case SideEffects =>
  }

  lemma FirstStateIsValid()
    ensures ValidState(FirstState()) && Some(FirstState().identity) == IdentityNow(FactsConfirmed(), 0)
  {
    forall slot: Slot ensures slot in FirstState().board && ValidKnown(slot, FirstState().board[slot]) {
      EverySlot(slot);
    }
  }

  function Seen(): Store {
    FactsConfirmed().(states := [FirstState()])
  }

  function Waiting(): Job {
    Job(2, TurnAdviceJob, 0, 0, 1, Some(1), 6, TurnReviewed, FactsSnapshot(0), TurnRequest(0, 0, 1, 6, 0, BOARD, THREE, None),
        Queued, 0, Direct)
  }

  function Requested(): Store {
    Seen().(jobs := [Asked().(status := Succeeded), Waiting()],
            turnLedger := [TurnLedgerRow(0, 0, 1, 1, 6, FactsSnapshot(0), 1)])
  }

  function Answered(): Store {
    Requested().(sessions := [Row0(TurnReviewed, 7, Some(10), Some(0), Some(TurnId(0, 1)), Some(0), Some(11))],
                 advices := [TurnAdvice(11, TurnId(0, 1), 1, 0, Move, "m")],
                 jobs := [Asked().(status := Succeeded), Waiting().(status := Succeeded)],
                 audits := [Audit(10, 0, Applied, BindingAccepted), Audit(11, 1, Applied, BindingAccepted)])
  }

  function RecordedStore(): Store {
    Answered().(sessions := [Row0(TurnRecorded, 8, Some(10), Some(0), Some(TurnId(0, 1)), Some(0), Some(11))],
                actions := [RecordedAction(TurnId(0, 1), Action(Move, "m"), None, OrderUnknown)])
  }

  function Ended(): Store {
    RecordedStore().(sessions := [Row0(MatchEnded, 9, Some(10), Some(0), Some(TurnId(0, 1)), Some(0), Some(11))],
                     outcomes := map[0 := OutcomeRecord(Win, 9)])
  }

  lemma OneRow<T>(x: T, y: T)
    ensures [x][0 := y] == [y] && [] + [y] == [y]
  {
  }

  lemma SelectionPlayed()
    ensures NewMatch(EMPTY, Some(RulesPin(0, 0)), INTEL) == Success(Opened())
    ensures ConfirmSelectionFacts(Opened(), TEAM, TEAM, None) == Success(Reviewed())
    ensures RequestSelectionAdvice(Reviewed(), 1) == Success(Reviewed().(jobs := [Asked()]))
  {
    OneRow(Opened().sessions[0], Opened().sessions[0]);
    OneRow(Opened().sessions[0], Reviewed().sessions[0]);
    OneRow(REVIEWED, REVIEWED);
    OneRow(Asked(), Asked());
  }

  lemma AdvicePlayed()
    ensures ApplySelectionResult(Reviewed().(jobs := [Asked()]), Proposed()) == Success(Advised())
  {
    OneRow(Reviewed().sessions[0], Advised().sessions[0]);
    OneRow(Asked(), Advised().jobs[0]);
    OneRow(Advised().audits[0], Advised().audits[0]);
    OneRow(Advised().selectionAdvices[0], Advised().selectionAdvices[0]);
  }

  lemma ChoicePlayed()
    ensures ApplySelection(Advised(), THREE, "a", true) == Success(Chosen())
  {
    assert THREE[1..] == ["b", "c"] && ["b", "c"][1..] == ["c"] && ["c"][1..] == [];
    assert Without(["b", "c"], "a") == ["b", "c"];
    OneRow(Advised().sessions[0], Chosen().sessions[0]);
    OneRow(CHOSEN, CHOSEN);
  }

  lemma TurnStarted()
    ensures StartTurnCapture(Chosen()) == Success(Started())
  {
    OneRow(Chosen().sessions[0], Started().sessions[0]);
    OneRow(TurnId(0, 1), TurnId(0, 1));
  }

  lemma TurnSeen()
    ensures ConfirmTurnFacts(Started(), INPUT, true) == Success(FactsConfirmed())
  {
    hide FirstState;
    Text.StripFixed("a");
    Text.StripFixed("b");
    Text.StripFixed("d");
    Text.StripFixed("m");
    Text.StripFixed("");
    assert Stripped(["m"]) == ["m"] && Stripped(["b"]) == ["b"];
    OneRow(Started().sessions[0], FactsConfirmed().sessions[0]);
    OneRow(BOARD, BOARD);
  }

  lemma StateConfirmed()
    ensures AppendConfirmedState(FactsConfirmed(), FirstState()) == Success(Seen())
  {
    hide FirstState;
    assert FirstState().previous == None by {
      RootState();
    }
    assert FactsConfirmed().states == [];
    OneRow(FirstState(), FirstState());
  }

  lemma RootState()
    ensures FirstState().previous == None && StateOf(FirstState(), 0, 0, 1)
  {
  }

  lemma AdviceRequested()
    ensures RequestTurnAdvice(Seen(), 2) == Success(Requested())
  {
    hide FirstState;
    OneRow(Requested().turnLedger[0], Requested().turnLedger[0]);
    assert Seen().jobs + [Waiting()] == Requested().jobs;
    assert LatestJob(Seen().jobs, 0, TurnAdviceJob).None?;
  }

  lemma AnswerApplied()
    ensures ApplyTurnResult(Requested(), Echo(Waiting(), 1, 11, ANSWER)) == Success(Answered())
  {
    hide FirstState;
    assert LatestJob(Requested().jobs, 0, TurnAdviceJob) == Some(1);
    assert !HasApplied(Requested().audits, 1);
    assert Requested().audits + [Audit(11, 1, Applied, BindingAccepted)] == Answered().audits;
    assert SetStatus(Requested().jobs, 1, Succeeded) == Answered().jobs;
    OneRow(Requested().sessions[0], Answered().sessions[0]);
    OneRow(Answered().advices[0], Answered().advices[0]);
  }

  lemma MatchFinished()
    ensures RecordAction(Answered(), PLAYED, true, None) == Success(RecordedStore())
    ensures EndMatch(RecordedStore(), Win, true) == Success(Ended())
  {
    hide FirstState;
    Text.StripFixed("m");
    OneRow(Answered().sessions[0], RecordedStore().sessions[0]);
    OneRow(RecordedStore().actions[0], RecordedStore().actions[0]);
    OneRow(RecordedStore().sessions[0], Ended().sessions[0]);
  }

  /** Played by commands alone: reachable, and so is the world with this repository and no file. */
  ghost predicate Played(s: Store) {
    Reachable(s) && Reached(World(s, map[], map[]))
  }

  lemma PlayedNext(s: Store, c: Command, s': Store)
    requires Played(s) && Execute(s, c) == Success(s') && !c.CCommitExport?
    ensures Played(s')
  {
    ReachableNext(s, c, s');
    ReachedNext(s, c, s');
  }

  lemma ReachableNext(s: Store, c: Command, s': Store)
    requires Reachable(s) && Execute(s, c) == Success(s')
    ensures Reachable(s')
  {
    hide Execute;
    var commands :| s == Run(EMPTY, commands);
    RunSplits(EMPTY, commands, [c]);
    OneCommand(s, c);
    assert s' == Run(EMPTY, commands + [c]);
  }

  lemma {:induction false} ActsSplit(w: World, first: seq<Act>, second: seq<Act>)
    ensures PerformAll(w, first + second) == PerformAll(PerformAll(w, first), second)
    decreases |first|
  {
    hide Perform;
    if first == [] {
      assert first + second == second;
    } else {
      assert (first + second)[1..] == first[1..] + second;
      ActsSplit(Perform(w, first[0]), first[1..], second);
    }
  }

  lemma ReachedNext(s: Store, c: Command, s': Store)
    requires Reached(World(s, map[], map[])) && Execute(s, c) == Success(s') && !c.CCommitExport?
    ensures Reached(World(s', map[], map[]))
  {
    hide Execute, PerformAll;
    var w := World(s, map[], map[]);
    var acts :| w == PerformAll(NEW_WORLD, acts);
    ActsSplit(NEW_WORLD, acts, [Do(c)]);
    PerformFirst(w, Do(c), []);
    assert [Do(c)] + [] == [Do(c)];
    PerformNone(Perform(w, Do(c)));
    assert World(s', map[], map[]) == PerformAll(NEW_WORLD, acts + [Do(c)]);
  }

  lemma OneCommand(s: Store, c: Command)
    ensures Run(s, [c]) == Step(s, c)
  {
    hide Step;
  }

  lemma AdvisedIsReachable()
    ensures Played(Advised())
  {
    hide Reachable, Reached, Run, NewMatch, ConfirmSelectionFacts, RequestSelectionAdvice, ApplySelectionResult;
    hide Opened, Reviewed, Asked, Proposed, Advised;
    NothingRun();
    SelectionPlayed();
    AdvicePlayed();
    PlayedNext(EMPTY, CNewMatch(Some(RulesPin(0, 0)), INTEL), Opened());
    PlayedNext(Opened(), CConfirmSelectionFacts(TEAM, TEAM, None), Reviewed());
    PlayedNext(Reviewed(), CRequestSelectionAdvice(1), Reviewed().(jobs := [Asked()]));
    PlayedNext(Reviewed().(jobs := [Asked()]), CApplySelectionResult(Proposed()), Advised());
  }

  lemma SeenIsReachable()
    ensures Played(FactsConfirmed()) && Played(Seen())
  {
    hide Reachable, Reached, Run, ApplySelection, StartTurnCapture, ConfirmTurnFacts, AppendConfirmedState;
    hide Advised, Chosen, Started, FactsConfirmed, FirstState, Seen;
    AdvisedIsReachable();
    ChoicePlayed();
    TurnStarted();
    TurnSeen();
    StateConfirmed();
    PlayedNext(Advised(), CApplySelection(THREE, "a", true), Chosen());
    PlayedNext(Chosen(), CStartTurnCapture, Started());
    PlayedNext(Started(), CConfirmTurnFacts(INPUT, true), FactsConfirmed());
    PlayedNext(FactsConfirmed(), CAppendConfirmedState(FirstState()), Seen());
  }

  lemma NothingRun()
    ensures Played(EMPTY)
  {
    assert EMPTY == Run(EMPTY, []) && NEW_WORLD == PerformAll(NEW_WORLD, []);
  }

  /** From an empty repository to MATCH_ENDED: selection advised and applied, a turn advised, recorded and ended. */
  lemma AMatchCanBePlayed()
    ensures Reachable(Seen()) && RequestTurnAdvice(Seen(), 2) == Success(Requested())
    ensures Reachable(Requested()) && ApplyTurnResult(Requested(), Echo(Waiting(), 1, 11, ANSWER)) == Success(Answered())
    ensures Played(Ended()) && Reachable(Ended()) && Ended().sessions[0].state == MatchEnded && |Ended().actions| == 1
  {
    hide Reachable, Reached, Run, RequestTurnAdvice, ApplyTurnResult, RecordAction, EndMatch, Requested, Answered;
    hide RecordedStore;
    SeenIsReachable();
    AdviceRequested();
    AnswerApplied();
    MatchFinished();
    PlayedNext(Seen(), CRequestTurnAdvice(2), Requested());
    PlayedNext(Requested(), CApplyTurnResult(Echo(Waiting(), 1, 11, ANSWER)), Answered());
    PlayedNext(Answered(), CRecordAction(PLAYED, true, None), RecordedStore());
    PlayedNext(RecordedStore(), CEndMatch(Win, true), Ended());
    EndedFacts();
  }

  lemma EndedFacts()
    ensures Ended().sessions[0].state == MatchEnded && |Ended().actions| == 1
  {
    hide FirstState;
  }

  /** The chain validators accept the match's one state, before its document is built and when it is parsed. */
  lemma EndedExports()
    ensures var h := ExportChain.Header(0, 0, 1, 9);
            && ExportChain.StatesExportable(h, [FirstState()]) && ExportChain.DeltasExportable(h, [FirstState()], [])
            && ExportChain.DocumentAccepted(h, ExportChain.Records([FirstState()], map[], [[]]))
  {
    ExportChain.ExportableRowsParseIff(ExportChain.Header(0, 0, 1, 9), [FirstState()], [], map[], [[]]);
  }

  /**
   The race between two rich exports starts from a repository that can be reached: a match with a pinned generation,
   whose one turn has a valid confirmed state, written when its facts were. One call reads the pin, the other cannot.
   */
  lemma ARaceCanHappen(blocks: Id, provenance: Id)
    ensures ValidState(FirstState()) && Ended().states == [FirstState()] && Ended().sessions[0].intelPin.Pinned?
    ensures Some(FirstState().identity) == IdentityNow(FactsConfirmed(), 0) && Played(FactsConfirmed())
    ensures var w := World(Ended(), map[], map[]);
            && Reached(w)
            && var w' := PerformAll(w, Race(0, 1, RichInput(Some(blocks), Some(provenance)), RichInput(Some(blocks), None)));
               0 in w'.store.exports && 0 in w'.files && w'.files[0] != w'.store.exports[0]
  {
    hide Reachable, Reached, PerformAll, ExportMatch, Race, Ended, FactsConfirmed, FirstState, UsesRich;
    hide RequestTurnAdvice;
    hide ApplyTurnResult, Requested, Answered, Seen, ValidState, IdentityNow;
    AMatchCanBePlayed();
    SeenIsReachable();
    FirstStateIsValid();
    EndedIsRich();
    RacingExportsDisagree(World(Ended(), map[], map[]), 0, 0, 1, RichInput(Some(blocks), Some(provenance)),
                          RichInput(Some(blocks), None));
  }

  lemma EndedIsRich()
    ensures Ended().slot == Some(0) && |Ended().sessions| == 1 && Ended().sessions[0].intelPin.Pinned?
    ensures Ended().sessions[0].state == MatchEnded && Ended().states == [FirstState()] && UsesRich(Ended(), 0)
  {
    RootState();
    hide FirstState;
    assert StateOf(Ended().states[0], 0, Ended().sessions[0].matchId, Ended().sessions[0].generation);
  }
}
