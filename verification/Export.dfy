/** The exported document of a finished match (application/match_service.py:253-394), and why it can always be built. */
module Export {
  import opened Basics
  import opened TurnState
  import opened Records
  import opened Store
  import opened Commands
  import opened Invariant
  import opened Evolution
  import opened Effects
  import opened Steps
  import opened Guarantees

  datatype ExportError = ReviewedSelectionMissing | SelectionNotApplied | RowMissing | TurnFactsMissing
    | ActualActionMissing | MemberNotInBuild

  function Fetch<T>(table: seq<T>, id: nat): Result<T, ExportError> {
    if id < |table| then Success(table[id]) else Failure(RowMissing)
  }

  function TurnPayload(s: Store, build: Option<TeamBuild>, turn: TurnId): Result<ExportedTurn, ExportError> {
    var board, advice := LatestFacts(s.facts, turn), LatestAdvice(s.advices, turn);
    var action := ActionFor(s.actions, turn);
    if board.None? then Failure(TurnFactsMissing)
    else if action.None? then Failure(ActualActionMissing)
    else
      var f := s.facts[board.value];
      if build.Some? && f.selfActive !in build.value.members then Failure(MemberNotInBuild)
      else
        Success(ExportedTurn(turn.number, f, if advice.Some? then Some(s.advices[advice.value]) else None,
                             s.actions[action.value], if build.Some? then Some(f.selfActive) else None))
  }

  function TurnPayloads(s: Store, build: Option<TeamBuild>, turns: seq<TurnId>)
    : Result<seq<ExportedTurn>, ExportError>
  {
    if turns == [] then Success([])
    else
      var first :- TurnPayload(s, build, turns[0]);
      var rest :- TurnPayloads(s, build, turns[1..]);
      Success([first] + rest)
  }

  /** The payloads a loop has collected, in front of those still to come. */
  function Collected(before: seq<ExportedTurn>, rest: Result<seq<ExportedTurn>, ExportError>)
    : Result<seq<ExportedTurn>, ExportError>
  {
    if rest.Success? then Success(before + rest.value) else rest
  }

  lemma CollectedEnds(before: seq<ExportedTurn>, rest: Result<seq<ExportedTurn>, ExportError>)
    ensures Collected([], rest) == rest && Collected(before, Success([])) == Success(before)
  {
    assert before + [] == before;
    if rest.Success? {
      assert [] + rest.value == rest.value;
    }
  }

  lemma CollectedOne(s: Store, build: Option<TeamBuild>, turns: seq<TurnId>, k: nat, before: seq<ExportedTurn>)
    requires k < |turns|
    ensures Collected(before, TurnPayloads(s, build, turns[k..])) ==
            match TurnPayload(s, build, turns[k])
            case Success(one) => Collected(before + [one], TurnPayloads(s, build, turns[k + 1..]))
            case Failure(error) => Failure(error)
  {
    assert turns[k..][1..] == turns[k + 1..];
    var one, rest := TurnPayload(s, build, turns[k]), TurnPayloads(s, build, turns[k + 1..]);
    if one.Success? && rest.Success? {
      assert before + ([one.value] + rest.value) == (before + [one.value]) + rest.value;
    }
  }

  /** _build_export_payload; the three selected builds are named by their members. */
  function BuildPayload(s: Store, i: nat, outcome: OutcomeRecord): Result<ExportPayload, ExportError>
    requires i < |s.sessions|
  {
    var x := s.sessions[i];
    if x.reviewedSelection.None? then Failure(ReviewedSelectionMissing)
    else if x.applied.None? then Failure(SelectionNotApplied)
    else
      var facts :- Fetch(s.selectionFacts, x.reviewedSelection.value);
      var applied :- Fetch(s.applied, x.applied.value);
      var turns :- TurnPayloads(s, facts.build, ListTurns(s.turns, i));
      if facts.build.Some? && !(forall k :: 0 <= k < |applied.three| ==> applied.three[k] in facts.build.value.members)
      then Failure(MemberNotInBuild)
      else
        Success(ExportPayload(i, x.matchId, x.generation, outcome, facts, applied.three, applied.lead,
                              if facts.build.Some? then Some(applied.three) else None,
                              turns, ListActions(s.actions, i), None))
  }

  // ---- the listings under the invariant -----------------------------------------------------

  function TurnsOneTo(i: nat, n: nat): (r: seq<TurnId>)
    ensures |r| == n && forall k :: 0 <= k < n ==> r[k] == TurnId(i, k + 1)
  {
    if n == 0 then [] else TurnsOneTo(i, n - 1) + [TurnId(i, n)]
  }

  lemma TurnRowIff(ss: seq<Session>, turns: seq<TurnId>, i: nat, n: nat)
    requires TurnRows(ss, turns) && i < |ss|
    ensures TurnId(i, n) in turns <==> 1 <= n <= TurnCount(ss[i])
  {
    if 1 <= n <= TurnCount(ss[i]) {
      assert HasTurn(turns, i, n);
    }
  }

  lemma {:induction false} ScanIsOneTo(ss: seq<Session>, turns: seq<TurnId>, i: nat, n: nat)
    requires TurnRows(ss, turns) && i < |ss|
    ensures TurnsUpTo(turns, i, n) == TurnsOneTo(i, if n < TurnCount(ss[i]) then n else TurnCount(ss[i]))
  {
    TurnRowIff(ss, turns, i, n);
    hide TurnRows;
    if n > 0 {
      ScanIsOneTo(ss, turns, i, n - 1);
    }
  }

  /** list_turns of a session is its turns 1..n, n being the current one. */
  lemma ListedTurns(ss: seq<Session>, turns: seq<TurnId>, i: nat)
    requires TurnRows(ss, turns) && i < |ss|
    ensures ListTurns(turns, i) == TurnsOneTo(i, TurnCount(ss[i]))
  {
    ScanIsOneTo(ss, turns, i, Highest(turns, i));
    if TurnCount(ss[i]) > 0 {
      assert HasTurn(turns, i, TurnCount(ss[i]));
      assert TurnId(i, TurnCount(ss[i])) in ListTurns(turns, i);
    }
  }

  predicate OneActionEach(actions: seq<RecordedAction>) {
    forall p, q :: 0 <= p < q < |actions| ==> actions[p].turn != actions[q].turn
  }

  lemma {:induction false} ActionsAtOne(actions: seq<RecordedAction>, turn: TurnId)
    requires OneActionEach(actions)
    ensures ActionsAt(actions, turn) ==
            (var a := ActionFor(actions, turn); if a.Some? then [actions[a.value]] else [])
  {
    if actions != [] {
      ActionsAtOne(actions[..|actions| - 1], turn);
    }
  }

  lemma ActedIff(ss: seq<Session>, turns: seq<TurnId>, actions: seq<RecordedAction>, i: nat, n: nat)
    requires TurnRows(ss, turns) && ActionRows(ss, turns, actions) && i < |ss| && Over(ss[i])
    ensures ActionFor(actions, TurnId(i, n)).Some? <==> 1 <= n <= TurnCount(ss[i])
  {
    TurnRowIff(ss, turns, i, n);
    if 1 <= n < TurnCount(ss[i]) {
      assert Recorded(actions, i, n);
    } else if 1 <= n == TurnCount(ss[i]) {
      assert HasAction(actions, ss[i].turn.value);
    } else {
      ActedHasTurn(ss, turns, actions, TurnId(i, n));
    }
  }

  lemma ActedHasTurn(ss: seq<Session>, turns: seq<TurnId>, actions: seq<RecordedAction>, turn: TurnId)
    requires ActionRows(ss, turns, actions)
    ensures ActionFor(actions, turn).Some? ==> OfTurn(turn, turns)
  {
    if ActionFor(actions, turn).Some? {
      assert OfTurn(actions[ActionFor(actions, turn).value].turn, turns);
    }
  }

  predicate ActedUpTo(actions: seq<RecordedAction>, i: nat, n: nat) {
    forall k :: 1 <= k <= n ==> ActionFor(actions, TurnId(i, k)).Some?
  }

  function ActionsOneTo(actions: seq<RecordedAction>, i: nat, n: nat): (r: seq<RecordedAction>)
    requires ActedUpTo(actions, i, n)
    ensures |r| == n && forall k :: 0 <= k < n ==> r[k] == actions[ActionFor(actions, TurnId(i, k + 1)).value]
  {
    if n == 0 then [] else ActionsOneTo(actions, i, n - 1) + [actions[ActionFor(actions, TurnId(i, n)).value]]
  }

  lemma {:induction false} ScanIsActions(actions: seq<RecordedAction>, i: nat, count: nat, n: nat)
    requires OneActionEach(actions)
    requires forall k: nat :: ActionFor(actions, TurnId(i, k)).Some? <==> 1 <= k <= count
    ensures ActionsUpTo(actions, i, n) == ActionsOneTo(actions, i, if n < count then n else count)
  {
    ActionsAtOne(actions, TurnId(i, n));
    if n > 0 {
      ScanIsActions(actions, i, count, n - 1);
    }
  }

  /** list_recorded_actions of a finished session: exactly one action a turn, in turn order. */
  lemma ListedActions(ss: seq<Session>, turns: seq<TurnId>, actions: seq<RecordedAction>, i: nat)
    requires TurnRows(ss, turns) && ActionRows(ss, turns, actions) && i < |ss| && Over(ss[i])
    ensures ActedUpTo(actions, i, TurnCount(ss[i]))
    ensures ListActions(actions, i) == ActionsOneTo(actions, i, TurnCount(ss[i]))
  {
    var count, highest := TurnCount(ss[i]), Highest(TurnsActed(actions), i);
    forall k: nat ensures ActionFor(actions, TurnId(i, k)).Some? <==> 1 <= k <= count {
      ActedIff(ss, turns, actions, i, k);
    }
    if count > 0 {
      assert TurnsActed(actions)[ActionFor(actions, TurnId(i, count)).value].number <= highest;
    }
    ScanIsActions(actions, i, count, highest);
  }

  // ---- the payload --------------------------------------------------------------------------

  lemma {:induction false} PayloadsOf(s: Store, build: Option<TeamBuild>, turns: seq<TurnId>)
    requires forall k :: 0 <= k < |turns| ==> TurnPayload(s, build, turns[k]).Success?
    ensures TurnPayloads(s, build, turns).Success? && |TurnPayloads(s, build, turns).value| == |turns|
    ensures forall k :: 0 <= k < |turns| ==>
              TurnPayloads(s, build, turns).value[k] == TurnPayload(s, build, turns[k]).value
  {
    if turns != [] {
      assert TurnPayload(s, build, turns[0]).Success?;
      PayloadsOf(s, build, turns[1..]);
    }
  }

  /** A recorded turn's entry: its board, advice and action rows, and the active member's build if there are builds. */
  predicate TurnSays(s: Store, turn: TurnId, detailed: bool, e: ExportedTurn) {
    var board, advice, action := LatestFacts(s.facts, turn), LatestAdvice(s.advices, turn), ActionFor(s.actions, turn);
    && e.number == turn.number && board.Some? && e.board == s.facts[board.value]
    && advice.Some? && e.advice == Some(s.advices[advice.value]) && e.advice.value.inputSnapshot == board.value
    && action.Some? && e.action == s.actions[action.value]
    && LegalIn(e.board, e.action.own.actionType, e.action.own.name)
    && e.activeBuild == if detailed then Some(e.board.selfActive) else None
  }

  predicate MembersFit(team: seq<Name>, build: Option<TeamBuild>) {
    build.Some? ==> build.value.members == team
  }

  lemma TurnExports(s: Store, team: seq<Name>, three: seq<Name>, build: Option<TeamBuild>, turn: TurnId, action: nat)
    requires ActionFor(s.actions, turn) == Some(action) && action < |s.actions|
    requires ActionBacked(s.actions[action], s.facts, s.advices) && MembersFit(team, build)
    requires forall k :: 0 <= k < |s.facts| && s.facts[k].turn == turn ==> s.facts[k].selfActive in three
    requires forall name :: name in three ==> name in team
    ensures TurnPayload(s, build, turn).Success? && TurnSays(s, turn, build.Some?, TurnPayload(s, build, turn).value)
  {
  }

  lemma SelectedFit(x: Session, selectionFacts: seq<SelectionFacts>, applied: seq<AppliedSelection>)
    requires x.applied.Some? && ThreeFits(x, selectionFacts, applied)
    ensures var team := selectionFacts[x.reviewedSelection.value].selfTeam;
            forall name :: name in applied[x.applied.value].three ==> name in team
  {
  }

  function BuildOf(s: Store, i: nat): Option<TeamBuild>
    requires i < |s.sessions| && s.sessions[i].reviewedSelection.Some?
    requires s.sessions[i].reviewedSelection.value < |s.selectionFacts|
  {
    s.selectionFacts[s.sessions[i].reviewedSelection.value].build
  }

  lemma SelectionPresent(s: Store, i: nat)
    requires Inv(s) && i < |s.sessions| && Over(s.sessions[i])
    ensures var x := s.sessions[i];
            && x.applied.Some? && x.reviewedSelection.Some? && x.applied.value < |s.applied|
            && x.reviewedSelection.value < |s.selectionFacts|
            && ThreeFits(x, s.selectionFacts, s.applied)
            && MembersFit(s.selectionFacts[x.reviewedSelection.value].selfTeam, BuildOf(s, i))
  {
  }

  lemma FinishedTurnExports(s: Store, i: nat, n: nat)
    requires Inv(s) && i < |s.sessions| && Over(s.sessions[i]) && 1 <= n <= TurnCount(s.sessions[i])
    requires s.sessions[i].reviewedSelection.Some? && s.sessions[i].reviewedSelection.value < |s.selectionFacts|
    ensures TurnPayload(s, BuildOf(s, i), TurnId(i, n)).Success?
    ensures TurnSays(s, TurnId(i, n), BuildOf(s, i).Some?, TurnPayload(s, BuildOf(s, i), TurnId(i, n)).value)
  {
    var x := s.sessions[i];
    var facts, three := s.selectionFacts[x.reviewedSelection.value], s.applied[x.applied.value].three;
    SelectionPresent(s, i);
    SelectedFit(x, s.selectionFacts, s.applied);
    ActedIff(s.sessions, s.turns, s.actions, i, n);
    var action := ActionFor(s.actions, TurnId(i, n)).value;
    assert ActionBacked(s.actions[action], s.facts, s.advices);
    forall k | 0 <= k < |s.facts| && s.facts[k].turn == TurnId(i, n) ensures s.facts[k].selfActive in three {
      assert ActiveFits(s.facts[k], s.sessions, s.applied);
    }
    hide Inv, ThreeFits, ActiveFits;
    TurnExports(s, facts.selfTeam, three, facts.build, TurnId(i, n), action);
  }

  lemma FinishedListings(s: Store, i: nat)
    requires Inv(s) && i < |s.sessions| && Over(s.sessions[i])
    ensures ListTurns(s.turns, i) == TurnsOneTo(i, TurnCount(s.sessions[i]))
    ensures ActedUpTo(s.actions, i, TurnCount(s.sessions[i]))
    ensures ListActions(s.actions, i) == ActionsOneTo(s.actions, i, TurnCount(s.sessions[i]))
  {
    ListedTurns(s.sessions, s.turns, i);
    ListedActions(s.sessions, s.turns, s.actions, i);
  }

  /** The turn payloads of a finished match, one per turn 1..n in order. */
  lemma FinishedTurnsExport(s: Store, i: nat)
    requires Inv(s) && i < |s.sessions| && Over(s.sessions[i])
    requires s.sessions[i].reviewedSelection.Some? && s.sessions[i].reviewedSelection.value < |s.selectionFacts|
    ensures var p := TurnPayloads(s, BuildOf(s, i), ListTurns(s.turns, i));
            && p.Success? && |p.value| == TurnCount(s.sessions[i])
            && forall k :: 0 <= k < |p.value| ==>
                 TurnSays(s, TurnId(i, k + 1), BuildOf(s, i).Some?, p.value[k])
  {
    hide Inv, TurnPayload, ListTurns, ListActions;
    var turns := ListTurns(s.turns, i);
    FinishedListings(s, i);
    forall k | 0 <= k < |turns|
      ensures TurnPayload(s, BuildOf(s, i), turns[k]).Success?
      ensures TurnSays(s, turns[k], BuildOf(s, i).Some?, TurnPayload(s, BuildOf(s, i), turns[k]).value)
    {
      FinishedTurnExports(s, i, k + 1);
    }
    PayloadsOf(s, BuildOf(s, i), turns);
  }

  /** What a finished match's document says, field by field, of the rows. */
  predicate PayloadSays(s: Store, i: nat, outcome: OutcomeRecord, p: ExportPayload)
    requires i < |s.sessions|
  {
    var x := s.sessions[i];
    && x.reviewedSelection.Some? && x.reviewedSelection.value < |s.selectionFacts|
    && x.applied.Some? && x.applied.value < |s.applied|
    && p.session == i && p.matchId == x.matchId && p.generation == x.generation && p.outcome == outcome
    && p.selection == s.selectionFacts[x.reviewedSelection.value]
    && p.three == s.applied[x.applied.value].three && p.lead == s.applied[x.applied.value].lead
    && p.builds == (if p.selection.build.Some? then Some(p.three) else None) && p.rich == None
    && |p.turns| == (if x.turn.Some? then x.turn.value.number else 0) && |p.history| == |p.turns|
    && forall k :: 0 <= k < |p.turns| ==>
         TurnSays(s, TurnId(i, k + 1), p.selection.build.Some?, p.turns[k]) && p.history[k] == p.turns[k].action
  }

  /** Whatever led here, the export of a finished match can be built, and says of every field what the rows do. */
  lemma PayloadBuilds(s: Store, i: nat, outcome: OutcomeRecord)
    requires Inv(s) && i < |s.sessions| && Over(s.sessions[i])
    ensures BuildPayload(s, i, outcome).Success? && PayloadSays(s, i, outcome, BuildPayload(s, i, outcome).value)
  {
    hide Inv, TurnPayloads, ListTurns, ListActions, ThreeFits;
    SelectionPresent(s, i);
    SelectedFit(s.sessions[i], s.selectionFacts, s.applied);
    FinishedListings(s, i);
    FinishedTurnsExport(s, i);
  }

  /** In every reachable MATCH_ENDED state the export is ready: nothing it reads is missing. */
  lemma ExportNeverSticks(s: Store, i: nat)
    requires Reachable(s) && i < |s.sessions| && s.sessions[i].state == MatchEnded
    ensures i in s.outcomes && s.outcomes[i].finalRevision == s.sessions[i].battleRevision
    ensures BuildPayload(s, i, s.outcomes[i]).Success?
    ensures PayloadSays(s, i, s.outcomes[i], BuildPayload(s, i, s.outcomes[i]).value)
  {
    hide Reachable, BuildPayload, PayloadSays;
    ReachableIsSound(s);
    PayloadBuilds(s, i, s.outcomes[i]);
  }

  // ---- what was recorded stays what is exported ---------------------------------------------

  lemma SettlesNow(s: Store, input: ActionInput, confirmed: bool, rich: Option<RichCompletion>, s': Store)
      returns (i: nat, turn: TurnId)
    requires Inv(s) && RecordAction(s, input, confirmed, rich) == Success(s')
    ensures s.slot == Some(i) && i < |s.sessions| && s.sessions[i].turn == Some(turn)
    ensures |s'.actions| == |s.actions| + 1 && s'.actions[|s.actions|].turn == turn
    ensures LatestFacts(s'.facts, turn) == s.sessions[i].reviewedBoard
    ensures var a := LatestAdvice(s'.advices, turn);
            a.Some? && Some(s'.advices[a.value].adviceId) == s.sessions[i].turnAdvice
  {
    var j, a := RecordActionEffect(s, input, confirmed, rich, s');
    i, turn := j, a.turn;
    hide RecordAction;
    assert IsCurrentAdvice(s.sessions[i], s.advices);
  }

  /** At `late`, the turn recorded between s and s' has that one action and the board and advice current at s. */
  predicate Settled(s: Store, s': Store, late: Store) {
    && s.slot.Some? && s.slot.value < |s.sessions| && s.sessions[s.slot.value].turn.Some?
    && var x, turn := s.sessions[s.slot.value], s.sessions[s.slot.value].turn.value;
       && LatestFacts(late.facts, turn) == x.reviewedBoard
       && LatestAdvice(late.advices, turn).Some?
       && Some(late.advices[LatestAdvice(late.advices, turn).value].adviceId) == x.turnAdvice
       && |s.actions| < |s'.actions| && |s.actions| < |late.actions|
       && late.actions[|s.actions|] == s'.actions[|s.actions|]
       && forall k :: 0 <= k < |late.actions| && late.actions[k].turn == turn ==> k == |s.actions|
  }

  /**
   The board and the advice a recorded turn exports are the ones current when its action was recorded,
   whatever commands, results and restarts follow.
   */
  lemma RecordedTurnSettles(s: Store, input: ActionInput, confirmed: bool, rich: Option<RichCompletion>, s': Store,
                            commands: seq<Command>, late: Store)
    requires Reachable(s) && RecordAction(s, input, confirmed, rich) == Success(s') && late == Run(s', commands)
    ensures Settled(s, s', late)
  {
    hide Reachable, Run, RecordAction, Inv, Later;
    ReachableIsSound(s);
    var i, turn := SettlesNow(s, input, confirmed, rich, s');
    assert Inv(s') by {
      RecordActionSteps(s, input, confirmed, rich, s');
    }
    assert TurnsFrozen(s', late) by {
      RunKeepsTurns(s', commands);
    }
    assert OneActionEach(late.actions) by {
      RunKeeps(s', commands);
      ActionsAreUnique(late);
    }
    assert s'.actions[|s.actions|].turn == turn;
  }

  lemma RunKeepsTurns(s: Store, commands: seq<Command>)
    requires Inv(s)
    ensures TurnsFrozen(s, Run(s, commands))
  {
    hide Run, Inv;
    RunKeeps(s, commands);
  }

  lemma ActionsAreUnique(s: Store)
    requires Inv(s)
    ensures OneActionEach(s.actions)
  {
  }

  lemma TurnPayloadSettles(s: Store, s': Store, build: Option<TeamBuild>, turn: TurnId)
    requires ActionFor(s.actions, turn).Some? && TurnsFrozen(s, s')
    requires OneActionEach(s'.actions)
    ensures TurnPayload(s', build, turn) == TurnPayload(s, build, turn)
    ensures ActionFor(s'.actions, turn) == ActionFor(s.actions, turn)
  {
    var k := ActionFor(s.actions, turn).value;
    assert s'.actions[k].turn == turn;
    var k' := ActionFor(s'.actions, turn).value;
    assert k' == k;
  }

  lemma {:induction false} TurnPayloadsSettle(s: Store, s': Store, build: Option<TeamBuild>, turns: seq<TurnId>)
    requires TurnsFrozen(s, s') && forall k :: 0 <= k < |turns| ==> ActionFor(s.actions, turns[k]).Some?
    requires OneActionEach(s'.actions)
    ensures TurnPayloads(s', build, turns) == TurnPayloads(s, build, turns)
  {
    if turns != [] {
      TurnPayloadSettles(s, s', build, turns[0]);
      TurnPayloadsSettle(s, s', build, turns[1..]);
    }
  }

  lemma {:induction false} HistorySettles(s: Store, s': Store, i: nat, n: nat)
    requires TurnsFrozen(s, s') && ActedUpTo(s.actions, i, n) && ActedUpTo(s'.actions, i, n)
    requires OneActionEach(s'.actions)
    ensures ActionsOneTo(s'.actions, i, n) == ActionsOneTo(s.actions, i, n)
  {
    if n > 0 {
      HistorySettles(s, s', i, n - 1);
      TurnPayloadSettles(s, s', None, TurnId(i, n));
    }
  }

  lemma LaterOver(s: Store, s': Store, i: nat)
    requires Later(s, s') && i < |s.sessions| && Over(s.sessions[i])
    ensures i < |s'.sessions| && Over(s'.sessions[i]) && SamePointers(s.sessions[i], s'.sessions[i])
    ensures SameIdentity(s.sessions[i], s'.sessions[i]) && TurnsFrozen(s, s') && TablesGrow(s, s')
  {
    assert LaterSession(s.sessions[i], s'.sessions[i]);
  }

  /** No command can change what a finished match exports. */
  lemma PayloadSettles(s: Store, s': Store, i: nat, outcome: OutcomeRecord)
    requires Inv(s) && Inv(s') && Later(s, s') && i < |s.sessions| && Over(s.sessions[i])
    ensures i < |s'.sessions| && BuildPayload(s', i, outcome) == BuildPayload(s, i, outcome)
  {
    hide Inv, Later, ListTurns, ListActions, ThreeFits, TurnSays;
    var n := TurnCount(s.sessions[i]);
    LaterOver(s, s', i);
    SelectionPresent(s, i);
    ActionsAreUnique(s');
    FinishedListings(s, i);
    FinishedListings(s', i);
    TurnPayloadsSettle(s, s', BuildOf(s, i), TurnsOneTo(i, n));
    HistorySettles(s, s', i, n);
  }
}
