/**
 What the JSON of a turn's rich block holds, key by key (application/match_export_v3.py:163-228, 467-481), and that
 the strict parser (603-893) takes nothing else: an accepted block is the one its record writes.
 */
module RichContents {
  import opened Basics
  import opened TurnState
  import opened ExportChain
  import opened RichCodec

  // ---- what is written where ----------------------------------------------------------------

  predicate Holds(j: Json, key: Key, value: Json) {
    j.Obj? && key in j.fields && j.fields[key] == value
  }

  predicate ChainSays(j: Json, chain: seq<ProvenanceStep>) {
    && j.List? && |j.items| == |chain|
    && forall k :: 0 <= k < |chain| ==> j.items[k] == Atom(Step(chain[k]))
  }

  predicate ValueSays(j: Json, v: Value) {
    match v
    case Plain(text) => j == Str(text)
    case Bucket(bucket) => j == Atom(Hp(bucket))
    case Stage(level) => j == Num(level)
    case Effects(names) =>
      j.List? && |j.items| == |names| && forall k :: 0 <= k < |names| ==> j.items[k] == Str(names[k])
  }

  /** An UNKNOWN field has no value key at all. */
  predicate KnownSays(j: Json, k: Known) {
    match k
    case Confirmed(v, chain) =>
      && j.Obj? && j.fields.Keys == {StatusKey, ValueKey, ChainKey} && Holds(j, StatusKey, Atom(StatusConfirmed))
      && ValueSays(j.fields[ValueKey], v) && ChainSays(j.fields[ChainKey], chain)
    case Unknown(chain) =>
      && j.Obj? && j.fields.Keys == {StatusKey, ChainKey} && Holds(j, StatusKey, Atom(StatusUnknown))
      && ChainSays(j.fields[ChainKey], chain)
  }

  predicate FieldDeltaSays(j: Json, d: FieldDelta) {
    match d
    case Changed(after, chain) =>
      && j.Obj? && j.fields.Keys == {ObservationKey, AfterValueKey, ChainKey}
      && Holds(j, ObservationKey, Atom(ObservedChanged))
      && ValueSays(j.fields[AfterValueKey], after) && ChainSays(j.fields[ChainKey], chain)
    case Unchanged(chain) =>
      && j.Obj? && j.fields.Keys == {ObservationKey, ChainKey}
      && Holds(j, ObservationKey, Atom(ObservedUnchanged)) && ChainSays(j.fields[ChainKey], chain)
    case NotObserved(chain) =>
      && j.Obj? && j.fields.Keys == {ObservationKey, ChainKey}
      && Holds(j, ObservationKey, Atom(ObservedUnknown)) && ChainSays(j.fields[ChainKey], chain)
  }

  /** The eleven fields of the player's own side, each under its own name and nothing else. */
  predicate OwnSideSays(j: Json, board: Board) {
    && j.Obj? && (forall key :: key in j.fields ==> key.FieldKey?)
    && forall f: Field :: FieldKey(f) in j.fields && Own(f) in board && KnownSays(j.fields[FieldKey(f)], board[Own(f)])
  }

  predicate OpponentSideSays(j: Json, board: Board) {
    && j.Obj? && (forall key :: key in j.fields ==> key.FieldKey?)
    && forall f: Field ::
         FieldKey(f) in j.fields && Opponent(f) in board && KnownSays(j.fields[FieldKey(f)], board[Opponent(f)])
  }

  predicate OwnDeltaSays(j: Json, board: BoardDelta) {
    && j.Obj? && (forall key :: key in j.fields ==> key.FieldKey?)
    && forall f: Field ::
         FieldKey(f) in j.fields && Own(f) in board && FieldDeltaSays(j.fields[FieldKey(f)], board[Own(f)])
  }

  predicate OpponentDeltaSays(j: Json, board: BoardDelta) {
    && j.Obj? && (forall key :: key in j.fields ==> key.FieldKey?)
    && forall f: Field ::
         FieldKey(f) in j.fields && Opponent(f) in board && FieldDeltaSays(j.fields[FieldKey(f)], board[Opponent(f)])
  }

  predicate IdentitySays(j: Json, i: TurnIdentity) {
    && j.Obj? && j.fields.Keys == {SessionKey, MatchKey, GenerationKey, TurnIdKey, TurnNumberKey, RevisionKey}
    && Holds(j, SessionKey, IdText(i.session)) && Holds(j, MatchKey, IdText(i.matchId))
    && Holds(j, GenerationKey, Num(i.generation)) && Holds(j, TurnIdKey, TurnIdText(i.turnId))
    && Holds(j, TurnNumberKey, Num(i.turnNumber)) && Holds(j, RevisionKey, Num(i.battleRevision))
  }

  predicate ConfirmationSays(j: Json, c: Confirmation) {
    && j.Obj? && j.fields.Keys == {HumanKey, ConfirmedAtKey, ProvenanceKey} && Holds(j, HumanKey, Bool(true))
    && Holds(j, ConfirmedAtKey, Str(c.confirmedAt)) && Holds(j, ProvenanceKey, Str(c.provenance))
  }

  predicate IdOrNull(j: Json, id: Option<Id>) {
    match id
    case None => j == Null
    case Some(i) => j == IdText(i)
  }

  predicate StateSays(j: Json, s: ConfirmedTurnState) {
    && j.Obj? && Weather in s.board && Terrain in s.board
    && j.fields.Keys == {StateIdKey, PreviousKey, IdentityKey, OwnSideKey, OpponentSideKey, WeatherKey, TerrainKey,
                         ConfirmationKey, EvidenceIdKey}
    && Holds(j, StateIdKey, IdText(s.stateId)) && IdOrNull(j.fields[PreviousKey], s.previous)
    && IdentitySays(j.fields[IdentityKey], s.identity) && OwnSideSays(j.fields[OwnSideKey], s.board)
    && OpponentSideSays(j.fields[OpponentSideKey], s.board) && KnownSays(j.fields[WeatherKey], s.board[Weather])
    && KnownSays(j.fields[TerrainKey], s.board[Terrain]) && ConfirmationSays(j.fields[ConfirmationKey], s.confirmation)
    && IdOrNull(j.fields[EvidenceIdKey], s.evidence)
  }

  predicate DeltaSays(j: Json, d: ActionResultDelta) {
    && j.Obj? && Weather in d.board && Terrain in d.board
    && j.fields.Keys == {DeltaIdKey, IdentityKey, BasedOnKey, OwnSideKey, OpponentSideKey, WeatherKey, TerrainKey,
                         ConfirmationKey}
    && Holds(j, DeltaIdKey, IdText(d.deltaId)) && Holds(j, BasedOnKey, IdText(d.basedOn))
    && IdentitySays(j.fields[IdentityKey], d.identity) && OwnDeltaSays(j.fields[OwnSideKey], d.board)
    && OpponentDeltaSays(j.fields[OpponentSideKey], d.board)
    && FieldDeltaSays(j.fields[WeatherKey], d.board[Weather]) && FieldDeltaSays(j.fields[TerrainKey], d.board[Terrain])
    && ConfirmationSays(j.fields[ConfirmationKey], d.confirmation)
  }

  predicate ActionSays(j: Json, a: LegalAction) {
    && j.Obj?
    && j.fields.Keys == {ConfirmationIdKey, IdentityKey, ActionTypeKey, ActionNameKey, HumanKey, ConfirmedAtKey,
                         ProvenanceKey, PrefillKey}
    && Holds(j, ConfirmationIdKey, IdText(a.confirmationId)) && IdentitySays(j.fields[IdentityKey], a.identity)
    && Holds(j, ActionTypeKey, Atom(Kind(a.actionType))) && Holds(j, ActionNameKey, Str(a.name))
    && Holds(j, HumanKey, Bool(true)) && Holds(j, ConfirmedAtKey, Str(a.confirmation.confirmedAt))
    && Holds(j, ProvenanceKey, Str(a.confirmation.provenance)) && IdOrNull(j.fields[PrefillKey], a.prefill)
  }

  predicate EvidenceSays(j: Json, e: Evidence) {
    && j.Obj? && j.fields.Keys == {EvidenceIdKey, RelativePathKey, Sha256Key, RecordedAtKey}
    && Holds(j, EvidenceIdKey, IdText(e.evidenceId)) && Holds(j, RelativePathKey, Str(e.path))
    && Holds(j, Sha256Key, Str(e.sha256)) && Holds(j, RecordedAtKey, Str(e.recordedAt))
  }

  predicate BlockSays(j: Json, b: Block) {
    && j.Obj? && j.fields.Keys == {ContractKey, StateKey, DeltaKey, ActionsKey, EvidenceKey}
    && Holds(j, ContractKey, Atom(ContractVersion)) && StateSays(j.fields[StateKey], b.state)
    && (b.delta.None? ==> Holds(j, DeltaKey, Null)) && (b.delta.Some? ==> DeltaSays(j.fields[DeltaKey], b.delta.value))
    && j.fields[ActionsKey].List? && |j.fields[ActionsKey].items| == |b.actions|
    && (forall k :: 0 <= k < |b.actions| ==> ActionSays(j.fields[ActionsKey].items[k], b.actions[k]))
    && (b.evidence.None? ==> Holds(j, EvidenceKey, Null))
    && (b.evidence.Some? ==> EvidenceSays(j.fields[EvidenceKey], b.evidence.value))
  }

  // ---- the exporter writes this -------------------------------------------------------------

  lemma KnownSaid(k: Known)
    ensures KnownSays(WriteKnown(k), k)
  {
    assert WriteKnown(k).fields.Keys == if k.Confirmed? then {StatusKey, ValueKey, ChainKey} else {StatusKey, ChainKey};
  }

  lemma FieldDeltaSaid(d: FieldDelta)
    ensures FieldDeltaSays(WriteFieldDelta(d), d)
  {
    assert WriteFieldDelta(d).fields.Keys
        == if d.Changed? then {ObservationKey, AfterValueKey, ChainKey} else {ObservationKey, ChainKey};
  }

  lemma SidesSaid(board: Board)
    requires Complete(board)
    ensures OwnSideSays(WriteSide(board, true), board) && OpponentSideSays(WriteSide(board, false), board)
  {
    hide WriteKnown, KnownSays;
    forall k: Known ensures KnownSays(WriteKnown(k), k) {
      KnownSaid(k);
    }
  }

  lemma SideDeltasSaid(board: BoardDelta)
    requires Complete(board)
    ensures OwnDeltaSays(WriteSideDelta(board, true), board) && OpponentDeltaSays(WriteSideDelta(board, false), board)
  {
    hide WriteFieldDelta, FieldDeltaSays;
    forall d: FieldDelta ensures FieldDeltaSays(WriteFieldDelta(d), d) {
      FieldDeltaSaid(d);
    }
  }

  lemma IdentitySaid(i: TurnIdentity)
    ensures IdentitySays(WriteIdentity(i), i)
  {
    assert WriteIdentity(i).fields.Keys == {SessionKey, MatchKey, GenerationKey, TurnIdKey, TurnNumberKey, RevisionKey};
  }

  lemma ConfirmationSaid(c: Confirmation)
    ensures ConfirmationSays(WriteConfirmation(c), c)
  {
    assert WriteConfirmation(c).fields.Keys == {HumanKey, ConfirmedAtKey, ProvenanceKey};
  }

  lemma StateSaid(s: ConfirmedTurnState)
    requires Complete(s.board)
    ensures StateSays(WriteState(s), s)
  {
    StateWritten(s);
    hide WriteSide, WriteKnown, WriteIdentity, WriteConfirmation, OwnSideSays, OpponentSideSays, KnownSays;
    hide IdentitySays, ConfirmationSays;
    SidesSaid(s.board);
    KnownSaid(s.board[Weather]);
    KnownSaid(s.board[Terrain]);
    IdentitySaid(s.identity);
    ConfirmationSaid(s.confirmation);
  }

  lemma DeltaSaid(d: ActionResultDelta)
    requires Complete(d.board)
    ensures DeltaSays(WriteDelta(d), d)
  {
    DeltaWritten(d);
    hide WriteSideDelta, WriteFieldDelta, WriteIdentity, WriteConfirmation, OwnDeltaSays, OpponentDeltaSays;
    hide FieldDeltaSays, IdentitySays, ConfirmationSays;
    SideDeltasSaid(d.board);
    FieldDeltaSaid(d.board[Weather]);
    FieldDeltaSaid(d.board[Terrain]);
    IdentitySaid(d.identity);
    ConfirmationSaid(d.confirmation);
  }

  lemma ActionSaid(a: LegalAction)
    ensures ActionSays(WriteAction(a), a)
  {
    hide WriteIdentity, IdentitySays;
    IdentitySaid(a.identity);
    assert WriteAction(a).fields.Keys == ACTION_KEYS;
  }

  lemma EvidenceSaid(e: Evidence)
    ensures EvidenceSays(WriteEvidence(e), e)
  {
    assert WriteEvidence(e).fields.Keys == {EvidenceIdKey, RelativePathKey, Sha256Key, RecordedAtKey};
  }

  /** The exporter's block holds every part of the record at that part's own key. */
  lemma BlockSaid(b: Block)
    requires Complete(b.state.board) && (b.delta.Some? ==> Complete(b.delta.value.board))
    ensures BlockSays(WriteBlock(b), b)
  {
    hide WriteState, WriteDelta, WriteAction, WriteEvidence, StateSays, DeltaSays, ActionSays, EvidenceSays;
    BlockWritten(b);
    StateSaid(b.state);
    if b.delta.Some? {
      DeltaSaid(b.delta.value);
    }
    forall k | 0 <= k < |b.actions| ensures ActionSays(WriteAction(b.actions[k]), b.actions[k]) {
      ActionSaid(b.actions[k]);
    }
    if b.evidence.Some? {
      EvidenceSaid(b.evidence.value);
    }
    assert WriteBlock(b).Obj?;
    hide WriteBlock;
  }

  // ---- the parser takes nothing else --------------------------------------------------------

  lemma {:induction false} ListIsWritten<T>(items: seq<Json>, write: T -> Json, read: Json -> Parsed<T>)
    requires ReadAll(items, read).Success?
    requires forall k :: 0 <= k < |items| && read(items[k]).Success? ==> write(read(items[k]).value) == items[k]
    ensures Written(ReadAll(items, read).value, write) == items
  {
    ReadAllElements(items, read, 0);
    forall k | 0 <= k < |items| ensures write(ReadAll(items, read).value[k]) == items[k] {
      ReadAllElements(items, read, k);
    }
  }

  lemma ChainIsWritten(j: Json)
    requires ReadChain(j).Success?
    ensures WriteChain(ReadChain(j).value) == j
  {
    ListIsWritten(j.items, WriteStep, ReadStep);
  }

  lemma ValueIsWritten(slot: Slot, j: Json)
    requires ReadValue(slot, j).Success?
    ensures WriteValue(ReadValue(slot, j).value) == j
  {
    if j.List? {
      ListIsWritten(j.items, WriteText, ReadText);
    }
  }

  lemma KnownIsWritten(slot: Slot, j: Json)
    requires ReadKnown(slot, j).Success?
    ensures WriteKnown(ReadKnown(slot, j).value) == j
  {
    hide ReadChain, WriteChain, ReadValue, WriteValue;
    ChainIsWritten(j.fields[ChainKey]);
    var k := ReadKnown(slot, j).value;
    if k.Confirmed? {
      ValueIsWritten(slot, j.fields[ValueKey]);
    }
    assert WriteKnown(k).fields == j.fields;
  }

  lemma FieldDeltaIsWritten(slot: Slot, j: Json)
    requires ReadFieldDelta(slot, j).Success?
    ensures WriteFieldDelta(ReadFieldDelta(slot, j).value) == j
  {
    hide ReadChain, WriteChain, ReadValue, WriteValue;
    ChainIsWritten(j.fields[ChainKey]);
    var d := ReadFieldDelta(slot, j).value;
    if d.Changed? {
      ValueIsWritten(slot, j.fields[AfterValueKey]);
    }
    assert WriteFieldDelta(d).fields == j.fields;
  }

  lemma SideIsWritten(j: Json, own: bool, board: Board)
    requires ReadSide(j, own).Success? && Complete(board)
    requires forall f: Field :: f in ReadSide(j, own).value && board[SlotOf(own, f)] == ReadSide(j, own).value[f]
    ensures WriteSide(board, own) == j
  {
    hide ReadKnown, WriteKnown;
    forall f: Field ensures WriteKnown(board[SlotOf(own, f)]) == j.fields[FieldKey(f)] {
      KnownIsWritten(SlotOf(own, f), j.fields[FieldKey(f)]);
    }
    assert WriteSide(board, own).fields == j.fields;
  }

  lemma SideDeltaIsWritten(j: Json, own: bool, board: BoardDelta)
    requires ReadSideDelta(j, own).Success? && Complete(board)
    requires forall f: Field ::
               f in ReadSideDelta(j, own).value && board[SlotOf(own, f)] == ReadSideDelta(j, own).value[f]
    ensures WriteSideDelta(board, own) == j
  {
    hide ReadFieldDelta, WriteFieldDelta;
    forall f: Field ensures WriteFieldDelta(board[SlotOf(own, f)]) == j.fields[FieldKey(f)] {
      FieldDeltaIsWritten(SlotOf(own, f), j.fields[FieldKey(f)]);
    }
    assert WriteSideDelta(board, own).fields == j.fields;
  }

  lemma IdentityIsWritten(j: Json)
    requires ReadIdentity(j).Success?
    ensures WriteIdentity(ReadIdentity(j).value) == j
  {
    assert WriteIdentity(ReadIdentity(j).value).fields == j.fields;
  }

  lemma ConfirmationIsWritten(j: Json)
    requires ReadConfirmation(j).Success?
    ensures WriteConfirmation(ReadConfirmation(j).value) == j
  {
    assert WriteConfirmation(ReadConfirmation(j).value).fields == j.fields;
  }

  lemma StateIsWritten(j: Json)
    requires ReadState(j).Success?
    ensures Complete(ReadState(j).value.board) && WriteState(ReadState(j).value) == j
  {
    hide ReadSide, WriteSide, ReadKnown, WriteKnown, ReadIdentity, WriteIdentity, ReadConfirmation, WriteConfirmation;
    hide Assembled;
    var m, s := j.fields, ReadState(j).value;
    var own, opponent := ReadSide(m[OwnSideKey], true).value, ReadSide(m[OpponentSideKey], false).value;
    var weather, terrain := ReadKnown(Weather, m[WeatherKey]).value, ReadKnown(Terrain, m[TerrainKey]).value;
    SideIsComplete(m[OwnSideKey], true);
    SideIsComplete(m[OpponentSideKey], false);
    forall slot: Slot ensures slot in s.board {
      AssembledAt(own, opponent, weather, terrain, slot);
    }
    forall f: Field ensures s.board[Own(f)] == own[f] && s.board[Opponent(f)] == opponent[f] {
      AssembledAt(own, opponent, weather, terrain, Own(f));
      AssembledAt(own, opponent, weather, terrain, Opponent(f));
    }
    AssembledAt(own, opponent, weather, terrain, Weather);
    AssembledAt(own, opponent, weather, terrain, Terrain);
    SideIsWritten(m[OwnSideKey], true, s.board);
    SideIsWritten(m[OpponentSideKey], false, s.board);
    KnownIsWritten(Weather, m[WeatherKey]);
    KnownIsWritten(Terrain, m[TerrainKey]);
    IdentityIsWritten(m[IdentityKey]);
    ConfirmationIsWritten(m[ConfirmationKey]);
    StateWritten(s);
    assert WriteState(s).fields == j.fields;
  }

  lemma SideIsComplete(j: Json, own: bool)
    requires ReadSide(j, own).Success?
    ensures CompleteSide(ReadSide(j, own).value)
  {
    hide ReadKnown;
  }

  lemma SideDeltaIsComplete(j: Json, own: bool)
    requires ReadSideDelta(j, own).Success?
    ensures CompleteSide(ReadSideDelta(j, own).value)
  {
    hide ReadFieldDelta;
  }

  lemma DeltaIsWritten(j: Json)
    requires ReadDelta(j).Success?
    ensures Complete(ReadDelta(j).value.board) && WriteDelta(ReadDelta(j).value) == j
  {
    hide ReadSideDelta, WriteSideDelta, ReadFieldDelta, WriteFieldDelta, ReadIdentity, WriteIdentity;
    hide ReadConfirmation, WriteConfirmation, Assembled;
    var m, d := j.fields, ReadDelta(j).value;
    var own, opponent := ReadSideDelta(m[OwnSideKey], true).value, ReadSideDelta(m[OpponentSideKey], false).value;
    var weather, terrain := ReadFieldDelta(Weather, m[WeatherKey]).value, ReadFieldDelta(Terrain, m[TerrainKey]).value;
    SideDeltaIsComplete(m[OwnSideKey], true);
    SideDeltaIsComplete(m[OpponentSideKey], false);
    forall slot: Slot ensures slot in d.board {
      AssembledAt(own, opponent, weather, terrain, slot);
    }
    forall f: Field ensures d.board[Own(f)] == own[f] && d.board[Opponent(f)] == opponent[f] {
      AssembledAt(own, opponent, weather, terrain, Own(f));
      AssembledAt(own, opponent, weather, terrain, Opponent(f));
    }
    AssembledAt(own, opponent, weather, terrain, Weather);
    AssembledAt(own, opponent, weather, terrain, Terrain);
    SideDeltaIsWritten(m[OwnSideKey], true, d.board);
    SideDeltaIsWritten(m[OpponentSideKey], false, d.board);
    FieldDeltaIsWritten(Weather, m[WeatherKey]);
    FieldDeltaIsWritten(Terrain, m[TerrainKey]);
    IdentityIsWritten(m[IdentityKey]);
    ConfirmationIsWritten(m[ConfirmationKey]);
    DeltaWritten(d);
    assert WriteDelta(d).fields == j.fields;
  }

  lemma ActionIsWritten(j: Json)
    requires ReadAction(j).Success?
    ensures WriteAction(ReadAction(j).value) == j
  {
    hide ReadIdentity, WriteIdentity;
    IdentityIsWritten(j.fields[IdentityKey]);
    assert WriteAction(ReadAction(j).value).fields == j.fields;
  }

  lemma EvidenceIsWritten(j: Json)
    requires ReadEvidence(j).Success?
    ensures WriteEvidence(ReadEvidence(j).value) == j
  {
    assert WriteEvidence(ReadEvidence(j).value).fields == j.fields;
  }

  lemma PartsAreWritten(j: Json)
    requires ReadBlock(j).Success?
    ensures var m, b := j.fields, ReadBlock(j).value;
            && Complete(b.state.board) && (b.delta.Some? ==> Complete(b.delta.value.board))
            && WriteState(b.state) == m[StateKey] && WriteOptionalDelta(b.delta) == m[DeltaKey]
            && Written(b.actions, WriteAction) == m[ActionsKey].items
            && WriteOptionalEvidence(b.evidence) == m[EvidenceKey]
  {
    hide ReadState, WriteState, ReadDelta, WriteDelta, ReadAction, WriteAction, ReadEvidence, WriteEvidence;
    var m, b := j.fields, ReadBlock(j).value;
    StateIsWritten(m[StateKey]);
    if b.delta.Some? {
      DeltaIsWritten(m[DeltaKey]);
    }
    if b.evidence.Some? {
      EvidenceIsWritten(m[EvidenceKey]);
    }
    forall k | 0 <= k < |m[ActionsKey].items| && ReadAction(m[ActionsKey].items[k]).Success?
      ensures WriteAction(ReadAction(m[ActionsKey].items[k]).value) == m[ActionsKey].items[k]
    {
      ActionIsWritten(m[ActionsKey].items[k]);
    }
    ListIsWritten(m[ActionsKey].items, WriteAction, ReadAction);
  }

  /**
   The strict parser accepts exactly the blocks of valid records: a missing, misplaced or extra key anywhere in the
   block is refused. What it returns is what stands at each key.
   */
  lemma BlockReadsIff(j: Json, b: Block)
    ensures ReadBlock(j) == Success(b) ==> BlockSays(j, b)
    ensures ReadBlock(j) == Success(b) <==>
              ValidBlock(b) && Complete(b.state.board) && (b.delta.Some? ==> Complete(b.delta.value.board))
              && j == WriteBlock(b)
  {
    hide ReadState, WriteState, ReadOptionalDelta, WriteOptionalDelta, ReadAction, WriteAction, ReadOptionalEvidence;
    hide WriteOptionalEvidence, ValidBlock, BlockSays;
    if ReadBlock(j) == Success(b) {
      PartsAreWritten(j);
      ParsedBlockIsValid(j, 0);
      BlockWritten(b);
      assert WriteBlock(b).fields == j.fields;
      BlockSaid(b);
    }
    hide ReadBlock, WriteBlock;
    if ValidBlock(b) {
      BlockRoundTrip(b);
    }
  }
}
