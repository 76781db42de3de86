/**
 The JSON form of one turn's rich block: the exporter's writers (application/match_export_v3.py:163-228, 467-481)
 and the strict parser (603-893) over the field codecs of domain/turn_state.py:711-859.

 Object keys and enumeration members are atoms rather than spelled strings; text is text.
 */
module RichCodec {
  import opened Basics
  import Text
  import opened TurnState
  import opened ExportChain

  datatype Word = StatusConfirmed | StatusUnknown | ObservedChanged | ObservedUnchanged | ObservedUnknown
    | Step(step: ProvenanceStep) | Hp(bucket: HpBucket) | Kind(kind: ActionType) | ContractVersion | OtherWord(text: string)

  datatype Key = FieldKey(field: Field) | StatusKey | ValueKey | ObservationKey | AfterValueKey | ChainKey
    | SessionKey | MatchKey | GenerationKey | TurnIdKey | TurnNumberKey | RevisionKey
    | HumanKey | ConfirmedAtKey | ProvenanceKey
    | StateIdKey | PreviousKey | IdentityKey | OwnSideKey | OpponentSideKey | WeatherKey | TerrainKey
    | ConfirmationKey | EvidenceIdKey | DeltaIdKey | BasedOnKey
    | ConfirmationIdKey | ActionTypeKey | ActionNameKey | PrefillKey
    | RelativePathKey | Sha256Key | RecordedAtKey
    | ContractKey | StateKey | DeltaKey | ActionsKey | EvidenceKey | OtherKey(name: string)

  datatype Json = Null | Bool(value: bool) | Num(number: int) | Str(text: string) | Atom(word: Word) | IdText(id: Id)
    | TurnIdText(turn: TurnId) | List(items: seq<Json>) | Obj(fields: map<Key, Json>)

  datatype ParseError = NotObject | UnexpectedOrMissingKeys | InvalidStatus | InvalidObservation | EmptyProvenance
    | WrongKind | InvalidValue | InvalidIdentity | InvalidConfirmation | ContractVersionMismatch
    | DeltaIdentityMismatch | ActionsNotList | ActionIdentityMismatch | DuplicateConfirmation | ActionBoundaryRejected
    | InvalidHash | EvidenceIdMismatch | EvidenceAbsent

  datatype Evidence = Evidence(evidenceId: Id, path: string, sha256: string, recordedAt: string)

  datatype Block = Block(state: ConfirmedTurnState, delta: Option<ActionResultDelta>, actions: seq<LegalAction>,
                         evidence: Option<Evidence>)

  type Parsed<T> = Result<T, ParseError>

  // ---- lists --------------------------------------------------------------------------------

  function Written<T>(items: seq<T>, write: T -> Json): (r: seq<Json>)
    ensures |r| == |items| && forall k :: 0 <= k < |items| ==> r[k] == write(items[k])
  {
    seq(|items|, k requires 0 <= k < |items| => write(items[k]))
  }

  function ReadAll<T>(items: seq<Json>, read: Json -> Parsed<T>): Parsed<seq<T>> {
    if items == [] then Success([])
    else
      var init :- ReadAll(items[..|items| - 1], read);
      var last :- read(items[|items| - 1]);
      Success(init + [last])
  }

  lemma {:induction false} ReadAllWritten<T>(items: seq<T>, write: T -> Json, read: Json -> Parsed<T>)
    requires forall k :: 0 <= k < |items| ==> read(write(items[k])) == Success(items[k])
    ensures ReadAll(Written(items, write), read) == Success(items)
  {
    if items != [] {
      var n := |items| - 1;
      ReadAllWritten(items[..n], write, read);
      assert Written(items, write)[..n] == Written(items[..n], write);
      assert items == items[..n] + [items[n]];
    }
  }

  lemma {:induction false} ReadAllElements<T>(items: seq<Json>, read: Json -> Parsed<T>, k: nat)
    requires ReadAll(items, read).Success?
    ensures |ReadAll(items, read).value| == |items|
    ensures k < |items| ==> read(items[k]) == Success(ReadAll(items, read).value[k])
  {
    if items != [] {
      ReadAllElements(items[..|items| - 1], read, k);
    }
  }

  // ---- field values -------------------------------------------------------------------------

  function WriteText(t: string): Json {
    Str(t)
  }

  function ReadText(j: Json): Parsed<string> {
    if j.Str? then Success(j.text) else Failure(WrongKind)
  }

  function WriteStep(step: ProvenanceStep): Json {
    Atom(Step(step))
  }

  function ReadStep(j: Json): Parsed<ProvenanceStep> {
    if j.Atom? && j.word.Step? then Success(j.word.step) else Failure(WrongKind)
  }

  function WriteChain(chain: seq<ProvenanceStep>): Json {
    List(Written(chain, WriteStep))
  }

  function ReadChain(j: Json): Parsed<seq<ProvenanceStep>> {
    if !j.List? || j.items == [] then Failure(EmptyProvenance) else ReadAll(j.items, ReadStep)
  }

  function WriteValue(v: Value): Json {
    match v
    case Plain(text) => Str(text)
    case Bucket(bucket) => Atom(Hp(bucket))
    case Stage(level) => Num(level)
    case Effects(names) => List(Written(names, WriteText))
  }

  /** decode_value by field, then the side constructor's check of what was decoded. */
  function ReadValue(slot: Slot, j: Json): Parsed<Value> {
    var v :- ReadRawValue(slot, j);
    :- Need(SlotFits(slot, v), InvalidValue);
    Success(v)
  }

  function ReadRawValue(slot: Slot, j: Json): Parsed<Value> {
    var field := match slot case Own(f) => f case Opponent(f) => f case _ => Active;
    match field
    case Active => if j.Str? then Success(Plain(j.text)) else Failure(WrongKind)
    case Status => if j.Str? then Success(Plain(j.text)) else Failure(WrongKind)
    case HpBucketField => if j.Atom? && j.word.Hp? then Success(Bucket(j.word.bucket)) else Failure(WrongKind)
    case SideEffects =>
      if !j.List? then Failure(WrongKind)
      else
        var names :- ReadAll(j.items, ReadText);
        Success(Effects(names))
    case _ => if j.Num? then Success(Stage(j.number)) else Failure(WrongKind)
  }

  lemma ValueRoundTrip(slot: Slot, v: Value)
    requires SlotFits(slot, v)
    ensures ReadValue(slot, WriteValue(v)) == Success(v)
  {
    if v.Effects? {
      ReadAllWritten(v.names, WriteText, ReadText);
    }
  }

  lemma ChainRoundTrip(chain: seq<ProvenanceStep>)
    requires chain != []
    ensures ReadChain(WriteChain(chain)) == Success(chain)
  {
    ReadAllWritten(chain, WriteStep, ReadStep);
  }

  function WriteKnown(k: Known): Json {
    match k
    case Confirmed(v, chain) =>
      Obj(map[StatusKey := Atom(StatusConfirmed), ValueKey := WriteValue(v), ChainKey := WriteChain(chain)])
    case Unknown(chain) => Obj(map[StatusKey := Atom(StatusUnknown), ChainKey := WriteChain(chain)])
  }

  /** An UNKNOWN field with a value, even null, is refused; so is any key too many or too few. */
  function ReadKnown(slot: Slot, j: Json): Parsed<Known> {
    if !j.Obj? then Failure(NotObject)
    else if StatusKey !in j.fields then Failure(InvalidStatus)
    else if j.fields[StatusKey] == Atom(StatusUnknown) then
      if j.fields.Keys != {StatusKey, ChainKey} then Failure(UnexpectedOrMissingKeys)
      else
        var chain :- ReadChain(j.fields[ChainKey]);
        Success(Unknown(chain))
    else if j.fields[StatusKey] == Atom(StatusConfirmed) then
      if j.fields.Keys != {StatusKey, ValueKey, ChainKey} then Failure(UnexpectedOrMissingKeys)
      else
        var chain :- ReadChain(j.fields[ChainKey]);
        var v :- ReadValue(slot, j.fields[ValueKey]);
        Success(Confirmed(v, chain))
    else Failure(InvalidStatus)
  }

  lemma KnownRoundTrip(slot: Slot, k: Known)
    requires ValidKnown(slot, k)
    ensures ReadKnown(slot, WriteKnown(k)) == Success(k)
  {
    ChainRoundTrip(k.chain);
    var m := WriteKnown(k).fields;
    if k.Confirmed? {
      ValueRoundTrip(slot, k.value);
      assert m.Keys == {StatusKey, ValueKey, ChainKey};
    } else {
      assert m.Keys == {StatusKey, ChainKey};
    }
  }

  function WriteFieldDelta(d: FieldDelta): Json {
    match d
    case Changed(after, chain) =>
      Obj(map[ObservationKey := Atom(ObservedChanged), AfterValueKey := WriteValue(after), ChainKey := WriteChain(chain)])
    case Unchanged(chain) => Obj(map[ObservationKey := Atom(ObservedUnchanged), ChainKey := WriteChain(chain)])
    case NotObserved(chain) => Obj(map[ObservationKey := Atom(ObservedUnknown), ChainKey := WriteChain(chain)])
  }

  function ReadFieldDelta(slot: Slot, j: Json): Parsed<FieldDelta> {
    if !j.Obj? then Failure(NotObject)
    else if ObservationKey !in j.fields then Failure(InvalidObservation)
    else if j.fields[ObservationKey] == Atom(ObservedChanged) then
      if j.fields.Keys != {ObservationKey, AfterValueKey, ChainKey} then Failure(UnexpectedOrMissingKeys)
      else
        var chain :- ReadChain(j.fields[ChainKey]);
        var v :- ReadValue(slot, j.fields[AfterValueKey]);
        Success(Changed(v, chain))
    else if j.fields[ObservationKey] == Atom(ObservedUnchanged) || j.fields[ObservationKey] == Atom(ObservedUnknown) then
      if j.fields.Keys != {ObservationKey, ChainKey} then Failure(UnexpectedOrMissingKeys)
      else
        var chain :- ReadChain(j.fields[ChainKey]);
        Success(if j.fields[ObservationKey] == Atom(ObservedUnchanged) then Unchanged(chain) else NotObserved(chain))
    else Failure(InvalidObservation)
  }

  lemma FieldDeltaRoundTrip(slot: Slot, d: FieldDelta)
    requires ValidFieldDelta(slot, d)
    ensures ReadFieldDelta(slot, WriteFieldDelta(d)) == Success(d)
  {
    ChainRoundTrip(d.chain);
    var m := WriteFieldDelta(d).fields;
    if d.Changed? {
      ValueRoundTrip(slot, d.after);
      assert m.Keys == {ObservationKey, AfterValueKey, ChainKey};
    } else {
      assert m.Keys == {ObservationKey, ChainKey};
    }
  }

  // ---- boards -------------------------------------------------------------------------------

  function SlotOf(own: bool, f: Field): Slot {
    if own then Own(f) else Opponent(f)
  }

  predicate SideKeys<T>(m: map<Key, T>) {
    (forall k | k in m :: k.FieldKey?) && forall f: Field :: FieldKey(f) in m
  }

  function WriteSide(board: Board, own: bool): Json
    requires Complete(board)
  {
    Obj(map f: Field | true :: FieldKey(f) := WriteKnown(board[SlotOf(own, f)]))
  }

  predicate Complete<T>(board: map<Slot, T>) {
    (forall f: Field :: Own(f) in board && Opponent(f) in board) && Weather in board && Terrain in board
  }

  function ReadSide(j: Json, own: bool): Parsed<map<Field, Known>> {
    if !j.Obj? then Failure(NotObject)
    else if !SideKeys(j.fields) then Failure(UnexpectedOrMissingKeys)
    else if forall f: Field :: ReadKnown(SlotOf(own, f), j.fields[FieldKey(f)]).Success? then
      Success(map f: Field | true :: ReadKnown(SlotOf(own, f), j.fields[FieldKey(f)]).value)
    else Failure(InvalidValue)
  }

  lemma SideRoundTrip(board: Board, own: bool)
    requires ValidBoard(board)
    ensures Complete(board) && ReadSide(WriteSide(board, own), own).Success?
    ensures forall f: Field ::
              f in ReadSide(WriteSide(board, own), own).value
              && ReadSide(WriteSide(board, own), own).value[f] == board[SlotOf(own, f)]
  {
    forall f: Field
      ensures ReadKnown(SlotOf(own, f), WriteKnown(board[SlotOf(own, f)])) == Success(board[SlotOf(own, f)])
    {
      KnownRoundTrip(SlotOf(own, f), board[SlotOf(own, f)]);
    }
  }

  predicate CompleteSide<T>(side: map<Field, T>) {
    forall f: Field :: f in side
  }

  const SLOTS: set<Slot> := (set f: Field | true :: Own(f)) + (set f: Field | true :: Opponent(f)) + {Weather, Terrain}

  function Assembled<T>(own: map<Field, T>, opponent: map<Field, T>, weather: T, terrain: T): map<Slot, T>
    requires CompleteSide(own) && CompleteSide(opponent)
  {
    map slot | slot in SLOTS ::
      match slot
      case Own(f) => own[f]
      case Opponent(f) => opponent[f]
      case Weather => weather
      case Terrain => terrain
  }

  lemma AssembledIs<T>(board: map<Slot, T>, own: map<Field, T>, opponent: map<Field, T>, weather: T, terrain: T)
    requires forall slot: Slot :: slot in board
    requires forall f: Field :: f in own && own[f] == board[Own(f)] && f in opponent && opponent[f] == board[Opponent(f)]
    requires weather == board[Weather] && terrain == board[Terrain]
    ensures CompleteSide(own) && CompleteSide(opponent) && Assembled(own, opponent, weather, terrain) == board
  {
    var all := Assembled(own, opponent, weather, terrain);
    forall slot: Slot ensures slot in all && all[slot] == board[slot] {
      match slot {
        case Own(f) => assert slot in (set g: Field | true :: Own(g));
        case Opponent(f) => assert slot in (set g: Field | true :: Opponent(g));
        case Weather => assert slot in {Weather, Terrain};
        case Terrain => assert slot in {Weather, Terrain};
      }
    }
  }

  function WriteSideDelta(board: BoardDelta, own: bool): Json
    requires Complete(board)
  {
    Obj(map f: Field | true :: FieldKey(f) := WriteFieldDelta(board[SlotOf(own, f)]))
  }

  function ReadSideDelta(j: Json, own: bool): Parsed<map<Field, FieldDelta>> {
    if !j.Obj? then Failure(NotObject)
    else if !SideKeys(j.fields) then Failure(UnexpectedOrMissingKeys)
    else if forall f: Field :: ReadFieldDelta(SlotOf(own, f), j.fields[FieldKey(f)]).Success? then
      Success(map f: Field | true :: ReadFieldDelta(SlotOf(own, f), j.fields[FieldKey(f)]).value)
    else Failure(InvalidValue)
  }

  lemma SideDeltaRoundTrip(board: BoardDelta, own: bool)
    requires ValidBoardDelta(board)
    ensures Complete(board) && ReadSideDelta(WriteSideDelta(board, own), own).Success?
    ensures forall f: Field ::
              f in ReadSideDelta(WriteSideDelta(board, own), own).value
              && ReadSideDelta(WriteSideDelta(board, own), own).value[f] == board[SlotOf(own, f)]
  {
    forall f: Field
      ensures ReadFieldDelta(SlotOf(own, f), WriteFieldDelta(board[SlotOf(own, f)])) == Success(board[SlotOf(own, f)])
    {
      FieldDeltaRoundTrip(SlotOf(own, f), board[SlotOf(own, f)]);
    }
  }

  // ---- records ------------------------------------------------------------------------------

  function WriteIdentity(i: TurnIdentity): Json {
    Obj(map[SessionKey := IdText(i.session), MatchKey := IdText(i.matchId), GenerationKey := Num(i.generation),
            TurnIdKey := TurnIdText(i.turnId), TurnNumberKey := Num(i.turnNumber), RevisionKey := Num(i.battleRevision)])
  }

  function ReadIdentity(j: Json): Parsed<TurnIdentity> {
    if !j.Obj? then Failure(NotObject)
    else
      var m := j.fields;
      if m.Keys != {SessionKey, MatchKey, GenerationKey, TurnIdKey, TurnNumberKey, RevisionKey}
      then Failure(UnexpectedOrMissingKeys)
      else if m[SessionKey].IdText? && m[MatchKey].IdText? && m[GenerationKey].Num? && m[GenerationKey].number >= 0
              && m[TurnIdKey].TurnIdText? && m[TurnNumberKey].Num? && m[TurnNumberKey].number >= 1
              && m[RevisionKey].Num? && m[RevisionKey].number >= 0
      then Success(TurnIdentity(m[SessionKey].id, m[MatchKey].id, m[GenerationKey].number, m[TurnIdKey].turn,
                                m[TurnNumberKey].number, m[RevisionKey].number))
      else Failure(InvalidIdentity)
  }

  lemma IdentityRoundTrip(i: TurnIdentity)
    requires ValidIdentity(i)
    ensures ReadIdentity(WriteIdentity(i)) == Success(i)
  {
    assert WriteIdentity(i).fields.Keys == {SessionKey, MatchKey, GenerationKey, TurnIdKey, TurnNumberKey, RevisionKey};
  }

  function WriteConfirmation(c: Confirmation): Json {
    Obj(map[HumanKey := Bool(true), ConfirmedAtKey := Str(c.confirmedAt), ProvenanceKey := Str(c.provenance)])
  }

  function ReadConfirmation(j: Json): Parsed<Confirmation> {
    if !j.Obj? then Failure(NotObject)
    else
      var m := j.fields;
      if m.Keys != {HumanKey, ConfirmedAtKey, ProvenanceKey} then Failure(UnexpectedOrMissingKeys)
      else if m[HumanKey] == Bool(true) && m[ConfirmedAtKey].Str? && m[ProvenanceKey].Str?
              && ValidConfirmation(Confirmation(m[ConfirmedAtKey].text, m[ProvenanceKey].text))
      then Success(Confirmation(m[ConfirmedAtKey].text, m[ProvenanceKey].text))
      else Failure(InvalidConfirmation)
  }

  lemma ConfirmationRoundTrip(c: Confirmation)
    requires ValidConfirmation(c)
    ensures ReadConfirmation(WriteConfirmation(c)) == Success(c)
  {
    assert WriteConfirmation(c).fields.Keys == {HumanKey, ConfirmedAtKey, ProvenanceKey};
  }

  function WriteOptionalId(id: Option<Id>): Json {
    if id.Some? then IdText(id.value) else Null
  }

  function ReadOptionalId(j: Json): Parsed<Option<Id>> {
    if j.Null? then Success(None) else if j.IdText? then Success(Some(j.id)) else Failure(WrongKind)
  }

  function ReadId(j: Json): Parsed<Id> {
    if j.IdText? then Success(j.id) else Failure(WrongKind)
  }

  const STATE_KEYS: set<Key> := {StateIdKey, PreviousKey, IdentityKey, OwnSideKey, OpponentSideKey, WeatherKey,
                                 TerrainKey, ConfirmationKey, EvidenceIdKey}

  function WriteState(s: ConfirmedTurnState): Json
    requires Complete(s.board)
  {
    Obj(map[StateIdKey := IdText(s.stateId), PreviousKey := WriteOptionalId(s.previous),
            IdentityKey := WriteIdentity(s.identity), OwnSideKey := WriteSide(s.board, true),
            OpponentSideKey := WriteSide(s.board, false), WeatherKey := WriteKnown(s.board[Weather]),
            TerrainKey := WriteKnown(s.board[Terrain]), ConfirmationKey := WriteConfirmation(s.confirmation),
            EvidenceIdKey := WriteOptionalId(s.evidence)])
  }

  function ReadState(j: Json): Parsed<ConfirmedTurnState> {
    if !j.Obj? then Failure(NotObject)
    else if j.fields.Keys != STATE_KEYS then Failure(UnexpectedOrMissingKeys)
    else
      var m := j.fields;
      var identity :- ReadIdentity(m[IdentityKey]);
      var own :- ReadSide(m[OwnSideKey], true);
      var opponent :- ReadSide(m[OpponentSideKey], false);
      var weather :- ReadKnown(Weather, m[WeatherKey]);
      var terrain :- ReadKnown(Terrain, m[TerrainKey]);
      var confirmation :- ReadConfirmation(m[ConfirmationKey]);
      var stateId :- ReadId(m[StateIdKey]);
      var previous :- ReadOptionalId(m[PreviousKey]);
      var evidence :- ReadOptionalId(m[EvidenceIdKey]);
      Success(ConfirmedTurnState(stateId, identity, previous, Assembled(own, opponent, weather, terrain), confirmation,
                                 evidence))
  }

  lemma StateWritten(s: ConfirmedTurnState)
    requires Complete(s.board)
    ensures var m := WriteState(s).fields;
            && m.Keys == STATE_KEYS && m[StateIdKey] == IdText(s.stateId) && m[PreviousKey] == WriteOptionalId(s.previous)
            && m[IdentityKey] == WriteIdentity(s.identity) && m[OwnSideKey] == WriteSide(s.board, true)
            && m[OpponentSideKey] == WriteSide(s.board, false) && m[WeatherKey] == WriteKnown(s.board[Weather])
            && m[TerrainKey] == WriteKnown(s.board[Terrain]) && m[ConfirmationKey] == WriteConfirmation(s.confirmation)
            && m[EvidenceIdKey] == WriteOptionalId(s.evidence)
  {
    hide WriteSide, WriteKnown, WriteIdentity, WriteConfirmation;
  }

  lemma StateRoundTrip(s: ConfirmedTurnState)
    requires ValidState(s)
    ensures Complete(s.board) && ReadState(WriteState(s)) == Success(s)
  {
    hide ReadSide, WriteSide, ReadKnown, WriteKnown, ReadIdentity, WriteIdentity, ReadConfirmation, WriteConfirmation;
    hide Assembled, ValidKnown, ValidConfirmation;
    SideRoundTrip(s.board, true);
    SideRoundTrip(s.board, false);
    KnownRoundTrip(Weather, s.board[Weather]);
    KnownRoundTrip(Terrain, s.board[Terrain]);
    IdentityRoundTrip(s.identity);
    ConfirmationRoundTrip(s.confirmation);
    StateWritten(s);
    var own, opponent := ReadSide(WriteSide(s.board, true), true).value, ReadSide(WriteSide(s.board, false), false).value;
    AssembledIs(s.board, own, opponent, s.board[Weather], s.board[Terrain]);
    assert WriteState(s).Obj?;
    hide WriteState;
  }

  const DELTA_KEYS: set<Key> := {DeltaIdKey, IdentityKey, BasedOnKey, OwnSideKey, OpponentSideKey, WeatherKey,
                                 TerrainKey, ConfirmationKey}

  function WriteDelta(d: ActionResultDelta): Json
    requires Complete(d.board)
  {
    Obj(map[DeltaIdKey := IdText(d.deltaId), IdentityKey := WriteIdentity(d.identity), BasedOnKey := IdText(d.basedOn),
            OwnSideKey := WriteSideDelta(d.board, true), OpponentSideKey := WriteSideDelta(d.board, false),
            WeatherKey := WriteFieldDelta(d.board[Weather]), TerrainKey := WriteFieldDelta(d.board[Terrain]),
            ConfirmationKey := WriteConfirmation(d.confirmation)])
  }

  function ReadDelta(j: Json): Parsed<ActionResultDelta> {
    if !j.Obj? then Failure(NotObject)
    else if j.fields.Keys != DELTA_KEYS then Failure(UnexpectedOrMissingKeys)
    else
      var m := j.fields;
      var identity :- ReadIdentity(m[IdentityKey]);
      var own :- ReadSideDelta(m[OwnSideKey], true);
      var opponent :- ReadSideDelta(m[OpponentSideKey], false);
      var weather :- ReadFieldDelta(Weather, m[WeatherKey]);
      var terrain :- ReadFieldDelta(Terrain, m[TerrainKey]);
      var confirmation :- ReadConfirmation(m[ConfirmationKey]);
      var deltaId :- ReadId(m[DeltaIdKey]);
      var basedOn :- ReadId(m[BasedOnKey]);
      Success(ActionResultDelta(deltaId, identity, basedOn, Assembled(own, opponent, weather, terrain), confirmation))
  }

  lemma DeltaWritten(d: ActionResultDelta)
    requires Complete(d.board)
    ensures var m := WriteDelta(d).fields;
            && m.Keys == DELTA_KEYS && m[DeltaIdKey] == IdText(d.deltaId) && m[IdentityKey] == WriteIdentity(d.identity)
            && m[BasedOnKey] == IdText(d.basedOn) && m[OwnSideKey] == WriteSideDelta(d.board, true)
            && m[OpponentSideKey] == WriteSideDelta(d.board, false)
            && m[WeatherKey] == WriteFieldDelta(d.board[Weather]) && m[TerrainKey] == WriteFieldDelta(d.board[Terrain])
            && m[ConfirmationKey] == WriteConfirmation(d.confirmation)
  {
    hide WriteSideDelta, WriteFieldDelta, WriteIdentity, WriteConfirmation;
  }

  lemma DeltaRoundTrip(d: ActionResultDelta)
    requires ValidDelta(d)
    ensures Complete(d.board) && ReadDelta(WriteDelta(d)) == Success(d)
  {
    hide ReadSideDelta, WriteSideDelta, ReadFieldDelta, WriteFieldDelta, ReadIdentity, WriteIdentity;
    hide ReadConfirmation, WriteConfirmation, Assembled, ValidFieldDelta, ValidConfirmation;
    SideDeltaRoundTrip(d.board, true);
    SideDeltaRoundTrip(d.board, false);
    FieldDeltaRoundTrip(Weather, d.board[Weather]);
    FieldDeltaRoundTrip(Terrain, d.board[Terrain]);
    IdentityRoundTrip(d.identity);
    ConfirmationRoundTrip(d.confirmation);
    DeltaWritten(d);
    var own, opponent := ReadSideDelta(WriteSideDelta(d.board, true), true).value,
                         ReadSideDelta(WriteSideDelta(d.board, false), false).value;
    AssembledIs(d.board, own, opponent, d.board[Weather], d.board[Terrain]);
    assert WriteDelta(d).Obj?;
    hide WriteDelta;
  }

  // ---- legal actions and evidence -----------------------------------------------------------

  const ACTION_KEYS: set<Key> := {ConfirmationIdKey, IdentityKey, ActionTypeKey, ActionNameKey, HumanKey,
                                  ConfirmedAtKey, ProvenanceKey, PrefillKey}

  function WriteAction(a: LegalAction): Json {
    Obj(map[ConfirmationIdKey := IdText(a.confirmationId), IdentityKey := WriteIdentity(a.identity),
            ActionTypeKey := Atom(Kind(a.actionType)), ActionNameKey := Str(a.name), HumanKey := Bool(true),
            ConfirmedAtKey := Str(a.confirmation.confirmedAt), ProvenanceKey := Str(a.confirmation.provenance),
            PrefillKey := WriteOptionalId(a.prefill)])
  }

  function ReadAction(j: Json): Parsed<LegalAction> {
    if !j.Obj? then Failure(NotObject)
    else if j.fields.Keys != ACTION_KEYS then Failure(UnexpectedOrMissingKeys)
    else
      var m := j.fields;
      var identity :- ReadIdentity(m[IdentityKey]);
      var confirmation :- ReadConfirmation(Obj(map[HumanKey := m[HumanKey], ConfirmedAtKey := m[ConfirmedAtKey],
                                                   ProvenanceKey := m[ProvenanceKey]]));
      var confirmationId :- ReadId(m[ConfirmationIdKey]);
      var prefill :- ReadOptionalId(m[PrefillKey]);
      if m[ActionTypeKey].Atom? && m[ActionTypeKey].word.Kind? && m[ActionNameKey].Str?
         && !Text.IsBlank(m[ActionNameKey].text)
      then Success(LegalAction(confirmationId, identity, m[ActionTypeKey].word.kind, m[ActionNameKey].text,
                               confirmation, prefill))
      else Failure(InvalidValue)
  }

  predicate ValidAction(a: LegalAction) {
    ValidIdentity(a.identity) && ValidConfirmation(a.confirmation) && !Text.IsBlank(a.name)
  }

  lemma ActionRoundTrip(a: LegalAction)
    requires ValidAction(a)
    ensures ReadAction(WriteAction(a)) == Success(a)
  {
    IdentityRoundTrip(a.identity);
    ConfirmationRoundTrip(a.confirmation);
    hide ReadIdentity, WriteIdentity, ReadConfirmation, ValidConfirmation;
    var m := WriteAction(a).fields;
    assert m.Keys == ACTION_KEYS;
    assert Obj(map[HumanKey := m[HumanKey], ConfirmedAtKey := m[ConfirmedAtKey], ProvenanceKey := m[ProvenanceKey]])
        == WriteConfirmation(a.confirmation);
  }

  predicate IsHex(c: char) {
    '0' <= c <= '9' || 'a' <= c <= 'f' || 'A' <= c <= 'F'
  }

  /** validate_evidence_hash_shape: 64 hex digits; the pattern's end also lets one line feed through. */
  predicate HashShaped(s: string) {
    (|s| == 64 || (|s| == 65 && s[64] == '\n')) && forall k :: 0 <= k < 64 ==> IsHex(s[k])
  }

  predicate ValidEvidence(e: Evidence) {
    !Text.IsBlank(e.path) && HashShaped(e.sha256)
  }

  function WriteEvidence(e: Evidence): Json {
    Obj(map[EvidenceIdKey := IdText(e.evidenceId), RelativePathKey := Str(e.path), Sha256Key := Str(e.sha256),
            RecordedAtKey := Str(e.recordedAt)])
  }

  function ReadEvidence(j: Json): Parsed<Evidence> {
    if !j.Obj? then Failure(NotObject)
    else if j.fields.Keys != {EvidenceIdKey, RelativePathKey, Sha256Key, RecordedAtKey} then Failure(UnexpectedOrMissingKeys)
    else
      var m := j.fields;
      if !m[Sha256Key].Str? || !HashShaped(m[Sha256Key].text) then Failure(InvalidHash)
      else
        var evidenceId :- ReadId(m[EvidenceIdKey]);
        if m[RelativePathKey].Str? && m[RecordedAtKey].Str? && !Text.IsBlank(m[RelativePathKey].text)
        then Success(Evidence(evidenceId, m[RelativePathKey].text, m[Sha256Key].text, m[RecordedAtKey].text))
        else Failure(InvalidValue)
  }

  lemma EvidenceRoundTrip(e: Evidence)
    requires ValidEvidence(e)
    ensures ReadEvidence(WriteEvidence(e)) == Success(e)
  {
    assert WriteEvidence(e).fields.Keys == {EvidenceIdKey, RelativePathKey, Sha256Key, RecordedAtKey};
  }

  // ---- the block ----------------------------------------------------------------------------

  predicate SameChoice(a: LegalAction, b: LegalAction) {
    a.actionType == b.actionType && Text.Strip(a.name) == Text.Strip(b.name)
  }

  /** build_confirmed_legal_actions_input accepts: one identity, no choice offered twice. */
  predicate PassesBoundary(identity: TurnIdentity, actions: seq<LegalAction>) {
    && (forall k :: 0 <= k < |actions| ==> actions[k].identity == identity && !Text.IsBlank(actions[k].name))
    && forall i, j :: 0 <= i < j < |actions| ==> !SameChoice(actions[i], actions[j])
  }

  predicate DistinctConfirmations(actions: seq<LegalAction>) {
    forall i, j :: 0 <= i < j < |actions| ==> actions[i].confirmationId != actions[j].confirmationId
  }

  predicate EvidenceMatches(state: ConfirmedTurnState, evidence: Option<Evidence>) {
    state.evidence == if evidence.Some? then Some(evidence.value.evidenceId) else None
  }

  ghost predicate ValidBlock(b: Block) {
    && ValidState(b.state)
    && (b.delta.Some? ==> ValidDelta(b.delta.value) && b.delta.value.identity == b.state.identity)
    && (forall k :: 0 <= k < |b.actions| ==> ValidAction(b.actions[k]))
    && PassesBoundary(b.state.identity, b.actions) && DistinctConfirmations(b.actions)
    && (b.evidence.Some? ==> ValidEvidence(b.evidence.value)) && EvidenceMatches(b.state, b.evidence)
  }

  function WriteOptionalDelta(d: Option<ActionResultDelta>): Json
    requires d.Some? ==> Complete(d.value.board)
  {
    if d.Some? then WriteDelta(d.value) else Null
  }

  function ReadOptionalDelta(j: Json): Parsed<Option<ActionResultDelta>> {
    if j.Null? then Success(None)
    else
      var delta :- ReadDelta(j);
      Success(Some(delta))
  }

  function WriteOptionalEvidence(e: Option<Evidence>): Json {
    if e.Some? then WriteEvidence(e.value) else Null
  }

  function ReadOptionalEvidence(j: Json): Parsed<Option<Evidence>> {
    if j.Null? then Success(None)
    else
      var evidence :- ReadEvidence(j);
      Success(Some(evidence))
  }

  function WriteBlock(b: Block): Json
    requires Complete(b.state.board) && (b.delta.Some? ==> Complete(b.delta.value.board))
  {
    Obj(map[ContractKey := Atom(ContractVersion), StateKey := WriteState(b.state), DeltaKey := WriteOptionalDelta(b.delta),
            ActionsKey := List(Written(b.actions, WriteAction)), EvidenceKey := WriteOptionalEvidence(b.evidence)])
  }

  /** _validate_rich_state_block */
  function ReadBlock(j: Json): Parsed<Block> {
    if !j.Obj? then Failure(NotObject)
    else if j.fields.Keys != {ContractKey, StateKey, DeltaKey, ActionsKey, EvidenceKey} then Failure(UnexpectedOrMissingKeys)
    else
      var m := j.fields;
      if m[ContractKey] != Atom(ContractVersion) then Failure(ContractVersionMismatch)
      else
        var state :- ReadState(m[StateKey]);
        var delta :- ReadOptionalDelta(m[DeltaKey]);
        if delta.Some? && delta.value.identity != state.identity then Failure(DeltaIdentityMismatch)
        else if !m[ActionsKey].List? then Failure(ActionsNotList)
        else
          var actions :- ReadAll(m[ActionsKey].items, ReadAction);
          if exists k :: 0 <= k < |actions| && actions[k].identity != state.identity then Failure(ActionIdentityMismatch)
          else if !DistinctConfirmations(actions) then Failure(DuplicateConfirmation)
          else if actions != [] && !PassesBoundary(state.identity, actions) then Failure(ActionBoundaryRejected)
          else
            var evidence :- ReadOptionalEvidence(m[EvidenceKey]);
            if !EvidenceMatches(state, evidence)
            then Failure(if evidence.Some? then EvidenceIdMismatch else EvidenceAbsent)
            else Success(Block(state, delta, actions, evidence))
  }

  lemma BlockWritten(b: Block)
    requires Complete(b.state.board) && (b.delta.Some? ==> Complete(b.delta.value.board))
    ensures var m := WriteBlock(b).fields;
            && m.Keys == {ContractKey, StateKey, DeltaKey, ActionsKey, EvidenceKey}
            && m[ContractKey] == Atom(ContractVersion) && m[StateKey] == WriteState(b.state)
            && m[DeltaKey] == WriteOptionalDelta(b.delta) && m[ActionsKey] == List(Written(b.actions, WriteAction))
            && m[EvidenceKey] == WriteOptionalEvidence(b.evidence)
  {
    hide WriteState, WriteOptionalDelta, WriteOptionalEvidence;
  }

  lemma PartsRoundTrip(b: Block)
    requires ValidBlock(b)
    ensures Complete(b.state.board) && (b.delta.Some? ==> Complete(b.delta.value.board))
    ensures ReadState(WriteState(b.state)) == Success(b.state)
    ensures ReadOptionalDelta(WriteOptionalDelta(b.delta)) == Success(b.delta)
    ensures ReadAll(Written(b.actions, WriteAction), ReadAction) == Success(b.actions)
    ensures ReadOptionalEvidence(WriteOptionalEvidence(b.evidence)) == Success(b.evidence)
  {
    StateRoundTrip(b.state);
    if b.delta.Some? {
      DeltaRoundTrip(b.delta.value);
      assert WriteDelta(b.delta.value).Obj?;
    }
    forall k | 0 <= k < |b.actions| ensures ReadAction(WriteAction(b.actions[k])) == Success(b.actions[k]) {
      ActionRoundTrip(b.actions[k]);
    }
    ReadAllWritten(b.actions, WriteAction, ReadAction);
    if b.evidence.Some? {
      EvidenceRoundTrip(b.evidence.value);
    }
    hide ReadState, WriteState, ReadDelta, WriteDelta, ReadAction, WriteAction, ReadEvidence;
  }

  /** The strict parser takes back exactly what the exporter wrote, for every valid record. */
  lemma BlockRoundTrip(b: Block)
    requires ValidBlock(b)
    ensures Complete(b.state.board) && (b.delta.Some? ==> Complete(b.delta.value.board))
    ensures ReadBlock(WriteBlock(b)) == Success(b)
  {
    hide ReadState, WriteState, ReadOptionalDelta, WriteOptionalDelta, ReadAction, WriteAction, ReadOptionalEvidence;
    hide WriteOptionalEvidence, ValidState, ValidDelta, ValidAction, ReadAll;
    PartsRoundTrip(b);
    BlockWritten(b);
    assert WriteBlock(b).Obj?;
    hide WriteBlock;
  }

  // ---- what the parser accepts is valid -----------------------------------------------------

  lemma ParsedKnown(slot: Slot, j: Json)
    requires ReadKnown(slot, j).Success?
    ensures ValidKnown(slot, ReadKnown(slot, j).value)
  {
    ReadAllElements(j.fields[ChainKey].items, ReadStep, 0);
  }

  lemma ParsedFieldDelta(slot: Slot, j: Json)
    requires ReadFieldDelta(slot, j).Success?
    ensures ValidFieldDelta(slot, ReadFieldDelta(slot, j).value)
  {
    ReadAllElements(j.fields[ChainKey].items, ReadStep, 0);
  }

  lemma AssembledAt<T>(own: map<Field, T>, opponent: map<Field, T>, weather: T, terrain: T, slot: Slot)
    requires CompleteSide(own) && CompleteSide(opponent)
    ensures slot in Assembled(own, opponent, weather, terrain)
    ensures Assembled(own, opponent, weather, terrain)[slot] ==
            match slot case Own(f) => own[f] case Opponent(f) => opponent[f] case Weather => weather case Terrain => terrain
  {
    match slot {
      case Own(f) => assert slot in (set g: Field | true :: Own(g));
      case Opponent(f) => assert slot in (set g: Field | true :: Opponent(g));
      case Weather => assert slot in {Weather, Terrain};
      case Terrain => assert slot in {Weather, Terrain};
    }
  }

  lemma ParsedState(j: Json)
    requires ReadState(j).Success?
    ensures ValidState(ReadState(j).value)
  {
    var m := j.fields;
    var own, opponent := ReadSide(m[OwnSideKey], true).value, ReadSide(m[OpponentSideKey], false).value;
    var weather, terrain := ReadKnown(Weather, m[WeatherKey]).value, ReadKnown(Terrain, m[TerrainKey]).value;
    var board := ReadState(j).value.board;
    assert board == Assembled(own, opponent, weather, terrain);
    forall slot: Slot ensures slot in board && ValidKnown(slot, board[slot]) {
      AssembledAt(own, opponent, weather, terrain, slot);
      ParsedKnown(slot, match slot
                        case Own(f) => m[OwnSideKey].fields[FieldKey(f)]
                        case Opponent(f) => m[OpponentSideKey].fields[FieldKey(f)]
                        case Weather => m[WeatherKey]
                        case Terrain => m[TerrainKey]);
    }
  }

  lemma ParsedDelta(j: Json)
    requires ReadDelta(j).Success?
    ensures ValidDelta(ReadDelta(j).value)
  {
    var m := j.fields;
    var own, opponent := ReadSideDelta(m[OwnSideKey], true).value, ReadSideDelta(m[OpponentSideKey], false).value;
    var weather, terrain := ReadFieldDelta(Weather, m[WeatherKey]).value, ReadFieldDelta(Terrain, m[TerrainKey]).value;
    var board := ReadDelta(j).value.board;
    assert board == Assembled(own, opponent, weather, terrain);
    forall slot: Slot ensures slot in board && ValidFieldDelta(slot, board[slot]) {
      AssembledAt(own, opponent, weather, terrain, slot);
      ParsedFieldDelta(slot, match slot
                             case Own(f) => m[OwnSideKey].fields[FieldKey(f)]
                             case Opponent(f) => m[OpponentSideKey].fields[FieldKey(f)]
                             case Weather => m[WeatherKey]
                             case Terrain => m[TerrainKey]);
    }
  }

  lemma ParsedAction(j: Json)
    requires ReadAction(j).Success?
    ensures ValidAction(ReadAction(j).value)
  {
  }

  lemma ParsedParts(j: Json)
    requires ReadBlock(j).Success?
    ensures var b := ReadBlock(j).value;
            && ValidState(b.state) && (b.delta.Some? ==> ValidDelta(b.delta.value))
            && (forall k :: 0 <= k < |b.actions| ==> ValidAction(b.actions[k]))
            && (b.evidence.Some? ==> ValidEvidence(b.evidence.value))
  {
    hide ReadState, ReadDelta, ReadAction, ValidState, ValidDelta, ValidAction;
    var m, b := j.fields, ReadBlock(j).value;
    ParsedState(m[StateKey]);
    if b.delta.Some? {
      ParsedDelta(m[DeltaKey]);
    }
    forall k | 0 <= k < |b.actions| ensures ValidAction(b.actions[k]) {
      ReadAllElements(m[ActionsKey].items, ReadAction, k);
      ParsedAction(m[ActionsKey].items[k]);
    }
  }

  /** Every accepted block is a valid record with one identity throughout, as the document pass relies on. */
  lemma ParsedBlockIsValid(j: Json, legacyTurn: nat)
    requires ReadBlock(j).Success?
    ensures ValidBlock(ReadBlock(j).value)
    ensures var b := ReadBlock(j).value; BlockBound(Record(legacyTurn, b.state, b.delta, b.actions))
  {
    ParsedParts(j);
    hide ReadState, ReadOptionalDelta, ReadAll, ReadOptionalEvidence, ValidState, ValidDelta, ValidAction;
  }
}
