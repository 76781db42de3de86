/**
 Turn-start states, observed result deltas and next-turn drafts (domain/turn_state.py).

 A board is a total map from the tracked slots (eleven fields a side, weather, terrain) to what is known
 of each. Knowledge and observation are sums, so "CONFIRMED without a value" or "UNCHANGED with one"
 cannot be written down.
 */
module TurnState {
  import opened Basics
  import Text

  datatype HpBucket = Hp0 | Hp1To10 | Hp11To20 | Hp21To30 | Hp31To40 | Hp41To50 | Hp51To60
    | Hp61To70 | Hp71To80 | Hp81To90 | Hp91To99 | Hp100 | HpUnknown

  datatype ActionType = Move | Switch
  datatype ActionOrder = SelfFirst | OpponentFirst | OrderUnknown

  datatype ProvenanceStep = HumanInput | OcrCandidate | HumanCorrection | CarryForward | NoSource

  datatype Value = Plain(text: string) | Bucket(bucket: HpBucket) | Stage(level: int) | Effects(names: seq<string>)

  datatype Known = Confirmed(value: Value, chain: seq<ProvenanceStep>) | Unknown(chain: seq<ProvenanceStep>)

  datatype FieldDelta =
    | Changed(after: Value, chain: seq<ProvenanceStep>)
    | Unchanged(chain: seq<ProvenanceStep>)
    | NotObserved(chain: seq<ProvenanceStep>)

  datatype Field = Active | HpBucketField | Status | Attack | Defense | SpecialAttack | SpecialDefense
    | Speed | Accuracy | Evasion | SideEffects

  /** Weather and terrain are text fields of the board; the other fields exist once per side. */
  datatype Slot = Own(field: Field) | Opponent(field: Field) | Weather | Terrain

  type Board = map<Slot, Known>
  type BoardDelta = map<Slot, FieldDelta>

  datatype TurnIdentity =
    TurnIdentity(session: Id, matchId: Id, generation: nat, turnId: TurnId, turnNumber: nat, battleRevision: nat)

  datatype Confirmation = Confirmation(confirmedAt: string, provenance: string)

  datatype ConfirmedTurnState = ConfirmedTurnState(
    stateId: Id, identity: TurnIdentity, previous: Option<Id>, board: Board, confirmation: Confirmation,
    evidence: Option<Id>)

  datatype ActionResultDelta = ActionResultDelta(
    deltaId: Id, identity: TurnIdentity, basedOn: Id, board: BoardDelta, confirmation: Confirmation)

  datatype NextTurnStateDraft = NextTurnStateDraft(
    draftId: Id, identity: TurnIdentity, basedOn: Id, sourceDelta: Id, board: Board, derivedAt: string)

  datatype TurnStateError =
    | DeltaNotBasedOnConfirmedState | SessionMismatch | MatchMismatch | GenerationMismatch | TurnMismatch
    | RevisionMismatch | TurnIdNotAdvanced | DraftNotBasedOnConfirmedState | DraftSourceDeltaMismatch
    | DerivedAtMissing

  // ---- what the constructors accept ---------------------------------------------------------

  predicate IsStage(f: Field) {
    !f.Active? && !f.Status? && !f.HpBucketField? && !f.SideEffects?
  }

  predicate ValueFits(f: Field, v: Value) {
    match f
    case Active => v.Plain? && !Text.IsBlank(v.text)
    case Status => v.Plain? && !Text.IsBlank(v.text)
    case HpBucketField => v.Bucket?
    case SideEffects => v.Effects? && forall k :: 0 <= k < |v.names| ==> !Text.IsBlank(v.names[k])
    case _ => v.Stage? && -6 <= v.level <= 6
  }

  predicate FieldText(v: Value) {
    v.Plain? && !Text.IsBlank(v.text)
  }

  predicate SlotFits(slot: Slot, v: Value) {
    match slot
    case Own(f) => ValueFits(f, v)
    case Opponent(f) => ValueFits(f, v)
    case _ => FieldText(v)
  }

  predicate ValidKnown(slot: Slot, k: Known) {
    k.chain != [] && (k.Confirmed? ==> SlotFits(slot, k.value))
  }

  predicate ValidFieldDelta(slot: Slot, d: FieldDelta) {
    d.chain != [] && (d.Changed? ==> SlotFits(slot, d.after))
  }

  ghost predicate ValidBoard(b: Board) {
    forall slot: Slot :: slot in b && ValidKnown(slot, b[slot])
  }

  ghost predicate ValidBoardDelta(d: BoardDelta) {
    forall slot: Slot :: slot in d && ValidFieldDelta(slot, d[slot])
  }

  predicate ValidIdentity(i: TurnIdentity) {
    i.turnNumber >= 1
  }

  predicate ValidConfirmation(c: Confirmation) {
    !Text.IsBlank(c.confirmedAt) && !Text.IsBlank(c.provenance)
  }

  ghost predicate ValidState(s: ConfirmedTurnState) {
    ValidIdentity(s.identity) && ValidBoard(s.board) && ValidConfirmation(s.confirmation)
  }

  ghost predicate ValidDelta(d: ActionResultDelta) {
    ValidIdentity(d.identity) && ValidBoardDelta(d.board) && ValidConfirmation(d.confirmation)
  }

  // ---- derivation ---------------------------------------------------------------------------

  function DeriveField(previous: Known, delta: FieldDelta): Known {
    match delta
    case Changed(after, chain) => Confirmed(after, chain)
    case Unchanged(_) => previous.(chain := previous.chain + [CarryForward])
    case NotObserved(_) => Unknown([NoSource])
  }

  function DeriveBoard(previous: Board, delta: BoardDelta): Board {
    map slot | slot in previous && slot in delta :: DeriveField(previous[slot], delta[slot])
  }

  function BindDelta(previous: ConfirmedTurnState, delta: ActionResultDelta): Check<TurnStateError> {
    var i, ref := delta.identity, previous.identity;
    if delta.basedOn != previous.stateId then Fail(DeltaNotBasedOnConfirmedState)
    else if i.session != ref.session then Fail(SessionMismatch)
    else if i.matchId != ref.matchId then Fail(MatchMismatch)
    else if i.generation != ref.generation then Fail(GenerationMismatch)
    else if i.turnId != ref.turnId || i.turnNumber != ref.turnNumber then Fail(TurnMismatch)
    else if i.battleRevision != ref.battleRevision then Fail(RevisionMismatch)
    else Pass
  }

  /** The revision only has to grow: it counts every accepted command, not turns. */
  function BindNextIdentity(previous: TurnIdentity, next: TurnIdentity): Check<TurnStateError> {
    if next.session != previous.session then Fail(SessionMismatch)
    else if next.matchId != previous.matchId then Fail(MatchMismatch)
    else if next.generation != previous.generation then Fail(GenerationMismatch)
    else if next.turnNumber != previous.turnNumber + 1 then Fail(TurnMismatch)
    else if next.battleRevision <= previous.battleRevision then Fail(RevisionMismatch)
    else if next.turnId == previous.turnId then Fail(TurnIdNotAdvanced)
    else Pass
  }

  function ValidateFullChain(confirmed: ConfirmedTurnState, delta: ActionResultDelta, draft: NextTurnStateDraft)
    : Check<TurnStateError>
  {
    var bound := BindDelta(confirmed, delta);
    if bound.Fail? then bound
    else if draft.basedOn != confirmed.stateId then Fail(DraftNotBasedOnConfirmedState)
    else if draft.sourceDelta != delta.deltaId then Fail(DraftSourceDeltaMismatch)
    else BindNextIdentity(confirmed.identity, draft.identity)
  }

  function DeriveNextDraft(previous: ConfirmedTurnState, delta: ActionResultDelta, draftId: Id,
                           nextIdentity: TurnIdentity, derivedAt: string): Result<NextTurnStateDraft, TurnStateError>
  {
    var bound := BindDelta(previous, delta);
    :- bound;
    :- BindNextIdentity(previous.identity, nextIdentity);
    :- Need(!Text.IsBlank(derivedAt), DerivedAtMissing);
    Success(NextTurnStateDraft(draftId, nextIdentity, previous.stateId, delta.deltaId,
                               DeriveBoard(previous.board, delta.board), derivedAt))
  }

  function ConfirmNextState(draft: NextTurnStateDraft, newStateId: Id, latest: ConfirmedTurnState,
                            sourceDelta: ActionResultDelta, confirmation: Confirmation, evidence: Option<Id>)
    : Result<ConfirmedTurnState, TurnStateError>
  {
    var chain := ValidateFullChain(latest, sourceDelta, draft);
    :- chain;
    Success(ConfirmedTurnState(newStateId, draft.identity, Some(draft.basedOn), draft.board, confirmation, evidence))
  }

  /** A delta is of the state it was observed on: it names that state and has its whole identity. */
  predicate ObservedOn(delta: ActionResultDelta, state: ConfirmedTurnState) {
    delta.basedOn == state.stateId && delta.identity == state.identity
  }

  /** The same match one turn on, under a new turn id and a later revision. */
  predicate NextTurnOf(next: TurnIdentity, now: TurnIdentity) {
    && next.session == now.session && next.matchId == now.matchId && next.generation == now.generation
    && next.turnNumber == now.turnNumber + 1 && next.turnId != now.turnId && next.battleRevision > now.battleRevision
  }

  /** A draft is derived exactly on chained inputs, names its sources, and holds of each slot what was observed last. */
  lemma DerivesIff(state: ConfirmedTurnState, delta: ActionResultDelta, draftId: Id, next: TurnIdentity, at: string,
                   draft: NextTurnStateDraft)
    ensures DeriveNextDraft(state, delta, draftId, next, at) == Success(draft) <==>
              && ObservedOn(delta, state) && NextTurnOf(next, state.identity) && !Text.IsBlank(at)
              && draft.draftId == draftId && draft.identity == next && draft.basedOn == state.stateId
              && draft.sourceDelta == delta.deltaId && draft.derivedAt == at
              && draft.board.Keys == state.board.Keys * delta.board.Keys
              && forall slot :: slot in state.board && slot in delta.board ==>
                   draft.board[slot] == match delta.board[slot]
                                        case Changed(after, chain) => Confirmed(after, chain)
                                        case Unchanged(_) =>
                                          state.board[slot].(chain := state.board[slot].chain + [CarryForward])
                                        case NotObserved(_) => Unknown([NoSource])
  {
    var board := DeriveBoard(state.board, delta.board);
    assert board.Keys == state.board.Keys * delta.board.Keys;
    if draft.board.Keys == board.Keys
       && forall slot :: slot in state.board && slot in delta.board ==> draft.board[slot] == board[slot]
    {
      assert draft.board == board;
    }
  }

  /** Any draft is confirmed exactly when it continues this state and this delta; its board is taken as it is. */
  lemma ConfirmsIff(draft: NextTurnStateDraft, newStateId: Id, state: ConfirmedTurnState, delta: ActionResultDelta,
                    confirmation: Confirmation, evidence: Option<Id>, confirmed: ConfirmedTurnState)
    ensures ConfirmNextState(draft, newStateId, state, delta, confirmation, evidence) == Success(confirmed) <==>
              && ObservedOn(delta, state) && draft.basedOn == state.stateId && draft.sourceDelta == delta.deltaId
              && NextTurnOf(draft.identity, state.identity)
              && confirmed == ConfirmedTurnState(newStateId, draft.identity, Some(state.stateId), draft.board,
                                                 confirmation, evidence)
  {
  }

  // ---- one field over a whole match ---------------------------------------------------------

  function Carried(k: Known, times: nat): Known {
    k.(chain := k.chain + seq(times, _ => CarryForward))
  }

  function FoldField(root: Known, deltas: seq<FieldDelta>): Known
    decreases |deltas|
  {
    if deltas == [] then root
    else DeriveField(FoldField(root, deltas[..|deltas| - 1]), deltas[|deltas| - 1])
  }

  ghost predicate QuietFrom(deltas: seq<FieldDelta>, from: nat) {
    forall k :: from <= k < |deltas| ==> deltas[k].Unchanged?
  }

  /** No observation touches the field: the root's knowledge is carried forward once per turn. */
  lemma {:induction false} FoldUntouched(root: Known, deltas: seq<FieldDelta>)
    requires QuietFrom(deltas, 0)
    ensures FoldField(root, deltas) == Carried(root, |deltas|)
    decreases |deltas|
  {
    if deltas != [] {
      var init := deltas[..|deltas| - 1];
      FoldUntouched(root, init);
      assert deltas[|deltas| - 1].Unchanged?;
      CarryOnce(root, |init|);
    }
  }

  lemma CarryOnce(k: Known, times: nat)
    ensures Carried(k, times + 1) == DeriveField(Carried(k, times), Unchanged([CarryForward]))
  {
    assert seq(times + 1, _ => CarryForward) == seq(times, _ => CarryForward) + [CarryForward];
    assert Carried(k, times).chain + [CarryForward] == Carried(k, times + 1).chain;
  }

  /**
   Look-back specification. `last` is the last turn whose observation was not UNCHANGED: the field
   then holds what that observation said, carried forward once for every later turn.
   */
  lemma {:induction false} FoldLooksBack(root: Known, deltas: seq<FieldDelta>, last: nat)
    requires last < |deltas| && !deltas[last].Unchanged? && QuietFrom(deltas, last + 1)
    ensures FoldField(root, deltas) ==
            Carried(match deltas[last]
                    case Changed(v, chain) => Confirmed(v, chain)
                    case _ => Unknown([NoSource]),
                    |deltas| - 1 - last)
    decreases |deltas|
  {
    var init := deltas[..|deltas| - 1];
    if last == |deltas| - 1 {
      var base := FoldField(root, deltas);
      assert Carried(base, 0).chain == base.chain;
    } else {
      FoldLooksBack(root, init, last);
      assert deltas[|deltas| - 1].Unchanged?;
      CarryOnce(match deltas[last] case Changed(v, chain) => Confirmed(v, chain) case _ => Unknown([NoSource]),
                |init| - 1 - last);
    }
  }

  // ---- a whole confirmed chain --------------------------------------------------------------

  /** What the operator supplies to take one turn forward: the observed delta and the new ids. */
  datatype Advance = Advance(delta: ActionResultDelta, draftId: Id, nextIdentity: TurnIdentity, newStateId: Id,
                             confirmation: Confirmation, evidence: Option<Id>, derivedAt: string)

  function AdvanceState(s: ConfirmedTurnState, a: Advance): Result<ConfirmedTurnState, TurnStateError> {
    var draft :- DeriveNextDraft(s, a.delta, a.draftId, a.nextIdentity, a.derivedAt);
    ConfirmNextState(draft, a.newStateId, s, a.delta, a.confirmation, a.evidence)
  }

  /** The inputs one derive-and-confirm step needs, said without running it. */
  predicate Follows(s: ConfirmedTurnState, a: Advance) {
    && a.delta.basedOn == s.stateId && a.delta.identity == s.identity
    && a.nextIdentity.session == s.identity.session && a.nextIdentity.matchId == s.identity.matchId
    && a.nextIdentity.generation == s.identity.generation
    && a.nextIdentity.turnNumber == s.identity.turnNumber + 1
    && a.nextIdentity.battleRevision > s.identity.battleRevision
    && a.nextIdentity.turnId != s.identity.turnId && !Text.IsBlank(a.derivedAt)
  }

  /** Derivation followed by confirmation never fails on chained inputs, and fails on all others. */
  lemma AdvanceSucceedsIff(s: ConfirmedTurnState, a: Advance)
    ensures AdvanceState(s, a).Success? <==> Follows(s, a)
    ensures Follows(s, a) ==>
              AdvanceState(s, a).value ==
              ConfirmedTurnState(a.newStateId, a.nextIdentity, Some(s.stateId), DeriveBoard(s.board, a.delta.board),
                                 a.confirmation, a.evidence)
  {
  }

  lemma DerivedBoardIsValid(b: Board, d: BoardDelta)
    requires ValidBoard(b) && ValidBoardDelta(d)
    ensures ValidBoard(DeriveBoard(b, d))
  {
    forall slot: Slot ensures slot in DeriveBoard(b, d) && ValidKnown(slot, DeriveBoard(b, d)[slot]) {
      assert ValidKnown(slot, b[slot]) && ValidFieldDelta(slot, d[slot]);
    }
  }

  ghost predicate ValidAdvance(a: Advance) {
    ValidDelta(a.delta) && ValidConfirmation(a.confirmation)
  }

  /** The confirmed states of a match played by derive and confirm alone: None when a step fails. */
  function Play(root: ConfirmedTurnState, steps: seq<Advance>): (r: Result<seq<ConfirmedTurnState>, TurnStateError>)
    ensures r.Success? ==> |r.value| == |steps| + 1 && r.value[0] == root
    decreases |steps|
  {
    if steps == [] then Success([root])
    else
      var before :- Play(root, steps[..|steps| - 1]);
      var next :- AdvanceState(before[|before| - 1], steps[|steps| - 1]);
      Success(before + [next])
  }

  ghost predicate ValidSteps(steps: seq<Advance>) {
    forall k :: 0 <= k < |steps| ==> ValidAdvance(steps[k])
  }

  function SlotDeltas(steps: seq<Advance>, slot: Slot): (r: seq<FieldDelta>)
    requires ValidSteps(steps)
    ensures |r| == |steps|
    decreases |steps|
  {
    if steps == [] then []
    else
      assert ValidAdvance(steps[|steps| - 1]);
      SlotDeltas(steps[..|steps| - 1], slot) + [steps[|steps| - 1].delta.board[slot]]
  }

  function LastState(root: ConfirmedTurnState, steps: seq<Advance>): ConfirmedTurnState
    requires Play(root, steps).Success?
  {
    Play(root, steps).value[|steps|]
  }

  lemma PlayStep(root: ConfirmedTurnState, steps: seq<Advance>)
    requires steps != [] && Play(root, steps).Success?
    ensures var init, last := steps[..|steps| - 1], steps[|steps| - 1];
            && Play(root, init).Success?
            && Follows(LastState(root, init), last)
            && LastState(root, steps).board == DeriveBoard(LastState(root, init).board, last.delta.board)
  {
    var init, last := steps[..|steps| - 1], steps[|steps| - 1];
    AdvanceSucceedsIff(LastState(root, init), last);
  }

  lemma {:induction false} PlayedBoardIsValid(root: ConfirmedTurnState, steps: seq<Advance>)
    requires ValidBoard(root.board) && Play(root, steps).Success? && ValidSteps(steps)
    ensures ValidBoard(LastState(root, steps).board)
    decreases |steps|
  {
    if steps != [] {
      var init, last := steps[..|steps| - 1], steps[|steps| - 1];
      PlayStep(root, steps);
      var before := LastState(root, init).board;
      assert ValidBoard(before) by {
        PlayedBoardIsValid(root, init);
      }
      assert ValidBoardDelta(last.delta.board) by {
        assert ValidAdvance(last);
      }
      DerivedBoardIsValid(before, last.delta.board);
    }
  }

  /** Over any number of turns a slot of the last confirmed board is the fold of what was observed for it. */
  lemma {:induction false} PlayedBoardIsFold(root: ConfirmedTurnState, steps: seq<Advance>, slot: Slot)
    requires ValidBoard(root.board) && Play(root, steps).Success? && ValidSteps(steps)
    ensures slot in LastState(root, steps).board
    ensures LastState(root, steps).board[slot] == FoldField(root.board[slot], SlotDeltas(steps, slot))
    decreases |steps|
  {
    if steps != [] {
      var init, last := steps[..|steps| - 1], steps[|steps| - 1];
      PlayStep(root, steps);
      PlayedBoardIsFold(root, init, slot);
      assert ValidAdvance(last);
      assert SlotDeltas(steps, slot)[..|init|] == SlotDeltas(init, slot);
    }
  }

  /** Bounded stages, spelled out: whatever was played, a known stage is between -6 and 6. */
  lemma PlayedStagesStayBounded(root: ConfirmedTurnState, steps: seq<Advance>, f: Field)
    requires ValidBoard(root.board) && Play(root, steps).Success? && ValidSteps(steps)
    requires IsStage(f)
    ensures Own(f) in LastState(root, steps).board
    ensures var k := LastState(root, steps).board[Own(f)];
            k.Confirmed? ==> k.value.Stage? && -6 <= k.value.level <= 6
  {
    assert ValidKnown(Own(f), LastState(root, steps).board[Own(f)]) by {
      PlayedBoardIsValid(root, steps);
    }
  }
}
