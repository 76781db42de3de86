/**
 The three validators a rich export goes through (application/match_export_v3.py): the confirmed states and the
 deltas before the document is built, and the whole chain again when the document is parsed back.
 */
module ExportChain {
  import opened Basics
  import opened TurnState
  import opened BattleMemory

  datatype ChainError =
    | OutcomeMismatch | OutcomeGenerationMismatch | StateForeign | DuplicateStateId | ContradictoryStateSameTurn
    | DuplicateTurnRevision | StateOrderNotIncreasing | StateBeyondFinalRevision | BrokenPreviousLinkage
    | DeltaIdDuplicate | DeltaForeign | BasedOnStateNotFound | DeltaIdentityDiffers | AmbiguousDeltaPosition
    | LegacyTurnNumberMismatch | DuplicateStateTurn | DeltaBasedOnMismatch | DeltaBeyondFinalRevision
    | LegalActionForeign | InvalidTurnProgression | InvalidRevisionProgression

  /** The exported session's identity and its outcome record's. */
  datatype Header = Header(session: Id, matchId: Id, generation: nat, finalRevision: nat)

  datatype LegalAction = LegalAction(confirmationId: Id, identity: TurnIdentity, actionType: ActionType, name: string,
                                     confirmation: Confirmation, prefill: Option<Id>)

  /** One turn of the document: its legacy turn number and the rich block under it. */
  datatype Record = Record(legacyTurn: nat, state: ConfirmedTurnState, delta: Option<ActionResultDelta>,
                           actions: seq<LegalAction>)

  predicate InMatch(h: Header, i: TurnIdentity) {
    i.session == h.session && i.matchId == h.matchId && i.generation == h.generation
  }

  // ---- the states before building -----------------------------------------------------------

  predicate RisingTurns(states: seq<ConfirmedTurnState>) {
    forall i, j :: 0 <= i < j < |states| ==> states[i].identity.turnNumber < states[j].identity.turnNumber
  }

  predicate LinkedStates(states: seq<ConfirmedTurnState>) {
    forall k :: 0 < k < |states| ==> states[k].previous == Some(states[k - 1].stateId)
  }

  predicate WithinMatch(h: Header, states: seq<ConfirmedTurnState>) {
    forall k :: 0 <= k < |states| ==>
      && states[k].identity.session == h.session && states[k].identity.matchId == h.matchId
      && states[k].identity.generation == h.generation && states[k].identity.battleRevision <= h.finalRevision
  }

  /** What validate_confirmed_states_for_export accepts, without its bookkeeping. */
  predicate StatesExportable(h: Header, states: seq<ConfirmedTurnState>) {
    WithinMatch(h, states) && DistinctStates(states) && RisingTurns(states) && LinkedStates(states)
  }

  predicate KeyBefore(a: TurnIdentity, b: TurnIdentity) {
    a.turnNumber < b.turnNumber || (a.turnNumber == b.turnNumber && a.battleRevision < b.battleRevision)
  }

  method ValidateStates(h: Header, outcome: Header, states: seq<ConfirmedTurnState>) returns (r: Check<ChainError>)
    ensures r.Pass? <==>
              && outcome.session == h.session && outcome.matchId == h.matchId && outcome.generation == h.generation
              && StatesExportable(h.(finalRevision := outcome.finalRevision), states)
  {
    if outcome.session != h.session || outcome.matchId != h.matchId {
      return Fail(OutcomeMismatch);
    }
    if outcome.generation != h.generation {
      return Fail(OutcomeGenerationMismatch);
    }
    ghost var bound := h.(finalRevision := outcome.finalRevision);
    var seenIds: set<Id>, seenTurns: set<nat>, seenKeys: set<(nat, nat)> := {}, {}, {};
    var previous: Option<ConfirmedTurnState> := None;
    var k := 0;
    while k < |states|
      invariant 0 <= k <= |states| && StatesExportable(bound, states[..k])
      invariant previous == if k == 0 then None else Some(states[k - 1])
      invariant seenIds == set j | 0 <= j < k :: states[j].stateId
      invariant seenTurns == set j | 0 <= j < k :: states[j].identity.turnNumber
      invariant seenKeys == set j | 0 <= j < k :: (states[j].identity.turnNumber, states[j].identity.battleRevision)
    {
      var state, identity := states[k], states[k].identity;
      ghost var upTo := states[..k + 1];
      assert upTo == states[..k] + [state];
      if !InMatch(h, identity) {
        assert !WithinMatch(bound, states);
        return Fail(StateForeign);
      }
      if state.stateId in seenIds {
        assert !DistinctStates(states);
        return Fail(DuplicateStateId);
      }
      seenIds := seenIds + {state.stateId};
      if identity.turnNumber in seenTurns {
        assert !RisingTurns(states);
        return Fail(ContradictoryStateSameTurn);
      }
      seenTurns := seenTurns + {identity.turnNumber};
      var key := (identity.turnNumber, identity.battleRevision);
      if key in seenKeys {
        return Fail(DuplicateTurnRevision);
      }
      seenKeys := seenKeys + {key};
      if previous.Some? && KeyBefore(identity, previous.value.identity) {
        assert !RisingTurns(states);
        return Fail(StateOrderNotIncreasing);
      }
      if identity.battleRevision > outcome.finalRevision {
        assert !WithinMatch(bound, states);
        return Fail(StateBeyondFinalRevision);
      }
      if previous.Some? && state.previous != Some(previous.value.stateId) {
        assert !LinkedStates(states);
        return Fail(BrokenPreviousLinkage);
      }
      previous := Some(state);
      k := k + 1;
    }
    assert states[..k] == states;
    return Pass;
  }

  // ---- the deltas before building -----------------------------------------------------------

  /** A later state with the same id replaces an earlier one, as in a dict comprehension. */
  function ById(states: seq<ConfirmedTurnState>): map<Id, ConfirmedTurnState> {
    if states == [] then map[]
    else ById(states[..|states| - 1])[states[|states| - 1].stateId := states[|states| - 1]]
  }

  predicate BasedInside(h: Header, byId: map<Id, ConfirmedTurnState>, d: ActionResultDelta) {
    && d.identity.session == h.session && d.identity.matchId == h.matchId && d.identity.generation == h.generation
    && d.basedOn in byId && d.identity == byId[d.basedOn].identity
  }

  predicate DistinctBases(deltas: seq<ActionResultDelta>) {
    forall i, j :: 0 <= i < j < |deltas| ==> deltas[i].basedOn != deltas[j].basedOn
  }

  /** What validate_delta_chain_for_export accepts. */
  predicate DeltasExportable(h: Header, states: seq<ConfirmedTurnState>, deltas: seq<ActionResultDelta>) {
    && DistinctDeltas(deltas) && DistinctBases(deltas)
    && forall k :: 0 <= k < |deltas| ==> BasedInside(h, ById(states), deltas[k])
  }

  predicate MapsBases(byBase: map<Id, ActionResultDelta>, deltas: seq<ActionResultDelta>) {
    && (forall k :: 0 <= k < |deltas| ==> deltas[k].basedOn in byBase && byBase[deltas[k].basedOn] == deltas[k])
    && (forall id :: id in byBase ==> byBase[id] in deltas && byBase[id].basedOn == id)
  }

  method IndexById(states: seq<ConfirmedTurnState>) returns (byId: map<Id, ConfirmedTurnState>)
    ensures byId == ById(states)
  {
    byId := map[];
    var k := 0;
    while k < |states|
      invariant 0 <= k <= |states| && byId == ById(states[..k])
    {
      assert states[..k + 1][..k] == states[..k];
      byId := byId[states[k].stateId := states[k]];
      k := k + 1;
    }
    assert states[..k] == states;
  }

  ghost predicate DeltaIds(seen: set<Id>, deltas: seq<ActionResultDelta>) {
    forall id :: id in seen <==> exists j :: 0 <= j < |deltas| && deltas[j].deltaId == id
  }

  /** A delta extends the accepted ones exactly when its id and base are new and it is based inside the match. */
  lemma DeltasGrowIff(h: Header, states: seq<ConfirmedTurnState>, s: seq<ActionResultDelta>, d: ActionResultDelta,
                      seen: set<Id>, byBase: map<Id, ActionResultDelta>)
    requires DeltasExportable(h, states, s) && DeltaIds(seen, s) && MapsBases(byBase, s)
    ensures DeltasExportable(h, states, s + [d]) <==>
              d.deltaId !in seen && BasedInside(h, ById(states), d) && d.basedOn !in byBase
    ensures DeltaIds(seen + {d.deltaId}, s + [d])
    ensures d.basedOn !in byBase ==> MapsBases(byBase[d.basedOn := d], s + [d])
  {
    var s' := s + [d];
    assert s'[|s|] == d && forall j :: 0 <= j < |s| ==> s'[j] == s[j];
    if DeltasExportable(h, states, s') {
      assert BasedInside(h, ById(states), s'[|s|]);
      forall j | 0 <= j < |s| ensures s[j].deltaId != d.deltaId && s[j].basedOn != d.basedOn {
        assert s'[j] == s[j];
      }
    }
  }

  lemma DeltasPrefix(h: Header, states: seq<ConfirmedTurnState>, deltas: seq<ActionResultDelta>, k: nat)
    requires k <= |deltas|
    ensures DeltasExportable(h, states, deltas) ==> DeltasExportable(h, states, deltas[..k])
  {
  }

  method ValidateDeltas(h: Header, states: seq<ConfirmedTurnState>, deltas: seq<ActionResultDelta>)
      returns (r: Result<map<Id, ActionResultDelta>, ChainError>)
    ensures r.Success? <==> DeltasExportable(h, states, deltas)
    ensures r.Success? ==> MapsBases(r.value, deltas)
  {
    var byId := IndexById(states);
    var seen: set<Id>, byBase: map<Id, ActionResultDelta>, k := {}, map[], 0;
    assert DeltasExportable(h, states, []) && DeltaIds(seen, []) && MapsBases(byBase, []);
    hide DeltasExportable, DeltaIds, MapsBases, ById;
    while k < |deltas|
      invariant 0 <= k <= |deltas| && DeltasExportable(h, states, deltas[..k])
      invariant DeltaIds(seen, deltas[..k]) && MapsBases(byBase, deltas[..k])
    {
      var delta := deltas[k];
      assert deltas[..k + 1] == deltas[..k] + [delta];
      DeltasGrowIff(h, states, deltas[..k], delta, seen, byBase);
      DeltasPrefix(h, states, deltas, k + 1);
      if delta.deltaId in seen {
        return Failure(DeltaIdDuplicate);
      }
      seen := seen + {delta.deltaId};
      if !InMatch(h, delta.identity) {
        return Failure(DeltaForeign);
      }
      if delta.basedOn !in byId {
        return Failure(BasedOnStateNotFound);
      }
      if delta.identity != byId[delta.basedOn].identity {
        return Failure(DeltaIdentityDiffers);
      }
      if delta.basedOn in byBase {
        return Failure(AmbiguousDeltaPosition);
      }
      byBase := byBase[delta.basedOn := delta];
      k := k + 1;
    }
    assert deltas[..k] == deltas;
    return Success(byBase);
  }

  // ---- the document -------------------------------------------------------------------------

  function TurnOf(r: Record): nat {
    r.state.identity.turnNumber
  }

  /** sorted(records, key=turn_number), which keeps equal keys in their order. */
  function InsertByTurn(sorted: seq<Record>, r: Record): (s: seq<Record>)
    ensures multiset(s) == multiset(sorted) + multiset{r}
  {
    if sorted == [] then [r]
    else
      var n := |sorted| - 1;
      assert sorted == sorted[..n] + [sorted[n]];
      if TurnOf(sorted[n]) <= TurnOf(r) then sorted + [r] else InsertByTurn(sorted[..n], r) + [sorted[n]]
  }

  lemma InsertMembers(sorted: seq<Record>, r: Record)
    ensures forall x :: x in InsertByTurn(sorted, r) ==> x in sorted || x == r
  {
    forall x | x in InsertByTurn(sorted, r) ensures x in sorted || x == r {
      assert x in multiset(InsertByTurn(sorted, r));
      assert x != r ==> x in multiset(sorted);
    }
  }

  lemma AppendAscends(s: seq<Record>, r: Record)
    requires Ascending(s) && forall x :: x in s ==> TurnOf(x) <= TurnOf(r)
    ensures Ascending(s + [r])
  {
  }

  lemma {:induction false} InsertKeepsOrder(sorted: seq<Record>, r: Record)
    requires Ascending(sorted)
    ensures Ascending(InsertByTurn(sorted, r))
  {
    if sorted != [] {
      var n := |sorted| - 1;
      if TurnOf(sorted[n]) <= TurnOf(r) {
        AppendAscends(sorted, r);
      } else {
        InsertKeepsOrder(sorted[..n], r);
        InsertMembers(sorted[..n], r);
        AppendAscends(InsertByTurn(sorted[..n], r), sorted[n]);
      }
    }
  }

  predicate Ascending(s: seq<Record>) {
    forall i, j :: 0 <= i < j < |s| ==> TurnOf(s[i]) <= TurnOf(s[j])
  }

  function SortByTurn(records: seq<Record>): (s: seq<Record>)
    ensures multiset(s) == multiset(records) && Ascending(s)
  {
    if records == [] then []
    else
      var n := |records| - 1;
      assert records == records[..n] + [records[n]];
      InsertKeepsOrder(SortByTurn(records[..n]), records[n]);
      InsertByTurn(SortByTurn(records[..n]), records[n])
  }

  predicate RecordFits(h: Header, r: Record) {
    && r.state.identity.session == h.session && r.state.identity.matchId == h.matchId
    && r.state.identity.generation == h.generation && r.state.identity.turnNumber == r.legacyTurn
    && r.state.identity.battleRevision <= h.finalRevision
    && (r.delta.Some? ==>
          && r.delta.value.identity.session == h.session && r.delta.value.identity.matchId == h.matchId
          && r.delta.value.identity.generation == h.generation && r.delta.value.basedOn == r.state.stateId
          && r.delta.value.identity.battleRevision <= h.finalRevision)
    && forall k :: 0 <= k < |r.actions| ==>
         && r.actions[k].identity.session == h.session && r.actions[k].identity.matchId == h.matchId
         && r.actions[k].identity.generation == h.generation
  }

  predicate Succeeds(a: Record, b: Record) {
    && b.state.previous == Some(a.state.stateId)
    && b.state.identity.turnNumber == a.state.identity.turnNumber + 1
    && b.state.identity.battleRevision > a.state.identity.battleRevision
  }

  predicate DistinctRecords(s: seq<Record>) {
    && (forall i, j :: 0 <= i < j < |s| ==> s[i].state.stateId != s[j].state.stateId)
    && (forall i, j :: 0 <= i < j < |s| && s[i].delta.Some? && s[j].delta.Some? ==>
          s[i].delta.value.deltaId != s[j].delta.value.deltaId)
  }

  /** A document's records, in turn order, as one chain. */
  predicate OneChain(h: Header, s: seq<Record>) {
    && (forall k :: 0 <= k < |s| ==> RecordFits(h, s[k]))
    && (forall k :: 0 < k < |s| ==> Succeeds(s[k - 1], s[k]))
    && DistinctRecords(s)
  }

  /** What _validate_full_document_rich_chain accepts. */
  predicate DocumentAccepted(h: Header, records: seq<Record>) {
    OneChain(h, SortByTurn(records))
  }

  method ValidateDocument(h: Header, records: seq<Record>) returns (r: Check<ChainError>)
    ensures r.Pass? <==> DocumentAccepted(h, records)
  {
    hide RecordFits, OneChain, SeenOf, Noted, Repeats, SortByTurn, Ascending;
    var ordered := SortByTurn(records);
    var seen := Seen({}, {}, {}, {});
    var previous: Option<Record> := None;
    var k := 0;
    EmptyChain(h);
    while k < |ordered|
      invariant 0 <= k <= |ordered| && OneChain(h, ordered[..k]) && SeenOf(seen, ordered[..k])
      invariant previous == if k == 0 then None else Some(ordered[k - 1])
    {
      var record := ordered[k];
      assert ordered[..k + 1] == ordered[..k] + [record];
      ChainGrowsIff(h, ordered[..k], record, seen);
      ChainPrefix(h, ordered, k + 1);
      var checked := CheckRecord(h, record, seen);
      if checked.Fail? {
        return checked;
      }
      if previous.Some? {
        if record.state.previous != Some(previous.value.state.stateId) {
          return Fail(BrokenPreviousLinkage);
        }
        if TurnOf(record) != TurnOf(previous.value) + 1 {
          return Fail(InvalidTurnProgression);
        }
        if record.state.identity.battleRevision <= previous.value.state.identity.battleRevision {
          return Fail(InvalidRevisionProgression);
        }
      }
      seen := Noted(seen, record);
      previous := Some(record);
      k := k + 1;
    }
    assert ordered[..k] == ordered;
    return Pass;
  }

  lemma EmptyChain(h: Header)
    ensures OneChain(h, []) && SeenOf(Seen({}, {}, {}, {}), [])
  {
  }

  lemma ChainPrefix(h: Header, s: seq<Record>, k: nat)
    requires k <= |s|
    ensures OneChain(h, s) ==> OneChain(h, s[..k])
  {
  }

  function Noted(seen: Seen, r: Record): Seen {
    Seen(seen.ids + {r.state.stateId}, seen.turns + {TurnOf(r)},
         if r.delta.Some? then seen.deltas + {r.delta.value.deltaId} else seen.deltas,
         if r.delta.Some? then seen.bases + {r.delta.value.basedOn} else seen.bases)
  }

  /** The sets hold what the records so far hold. */
  ghost predicate SeenOf(seen: Seen, s: seq<Record>) {
    && seen.bases <= seen.ids
    && (forall id :: id in seen.ids <==> exists j :: 0 <= j < |s| && s[j].state.stateId == id)
    && (forall n :: n in seen.turns <==> exists j :: 0 <= j < |s| && TurnOf(s[j]) == n)
    && (forall id :: id in seen.deltas <==> exists j :: 0 <= j < |s| && s[j].delta.Some? && s[j].delta.value.deltaId == id)
  }

  /** A record extends the chain so far exactly when it fits, repeats nothing and succeeds the last one. */
  lemma ChainGrowsIff(h: Header, s: seq<Record>, r: Record, seen: Seen)
    requires OneChain(h, s) && SeenOf(seen, s)
    ensures OneChain(h, s + [r]) <==>
              RecordFits(h, r) && !Repeats(r, seen) && (s != [] ==> Succeeds(s[|s| - 1], r))
    ensures OneChain(h, s + [r]) ==> SeenOf(Noted(seen, r), s + [r])
    ensures seen.bases <= seen.ids
  {
    var s' := s + [r];
    if RecordFits(h, r) && !Repeats(r, seen) && (s != [] ==> Succeeds(s[|s| - 1], r)) {
      NewIsDistinct(s, r, seen);
      assert OneChain(h, s');
    }
    if OneChain(h, s') {
      assert s'[|s|] == r && (s != [] ==> Succeeds(s'[|s| - 1], s'[|s|]));
      TurnsRise(h, s', |s|);
      assert RecordFits(h, s'[|s|]);
      forall j | 0 <= j < |s|
        ensures s[j].state.stateId != r.state.stateId && TurnOf(s[j]) != TurnOf(r)
        ensures s[j].delta.Some? && r.delta.Some? ==> s[j].delta.value.deltaId != r.delta.value.deltaId
      {
        assert s'[j] == s[j];
      }
      assert !Repeats(r, seen);
      NotedIsSeen(s, r, seen);
    }
  }

  lemma NewIsDistinct(s: seq<Record>, r: Record, seen: Seen)
    requires DistinctRecords(s) && SeenOf(seen, s) && !Repeats(r, seen)
    ensures DistinctRecords(s + [r])
  {
  }

  lemma NotedIsSeen(s: seq<Record>, r: Record, seen: Seen)
    requires SeenOf(seen, s) && (r.delta.Some? ==> r.delta.value.basedOn == r.state.stateId)
    ensures SeenOf(Noted(seen, r), s + [r])
  {
    var s' := s + [r];
    assert s'[|s|] == r && forall j :: 0 <= j < |s| ==> s'[j] == s[j];
  }

  /** The sets the document pass grows. */
  datatype Seen = Seen(ids: set<Id>, turns: set<nat>, deltas: set<Id>, bases: set<Id>)

  predicate Repeats(r: Record, seen: Seen) {
    || r.state.stateId in seen.ids || TurnOf(r) in seen.turns
    || (r.delta.Some? && r.delta.value.deltaId in seen.deltas)
  }

  /** Everything about one record but its link to the one before it. */
  method CheckRecord(h: Header, r: Record, seen: Seen) returns (c: Check<ChainError>)
    requires seen.bases <= seen.ids
    ensures c.Pass? <==> RecordFits(h, r) && !Repeats(r, seen)
  {
    var identity := r.state.identity;
    if !InMatch(h, identity) {
      return Fail(StateForeign);
    }
    if identity.turnNumber != r.legacyTurn {
      return Fail(LegacyTurnNumberMismatch);
    }
    if r.state.stateId in seen.ids {
      return Fail(DuplicateStateId);
    }
    if identity.turnNumber in seen.turns {
      return Fail(DuplicateStateTurn);
    }
    if identity.battleRevision > h.finalRevision {
      return Fail(StateBeyondFinalRevision);
    }
    if r.delta.Some? {
      var delta := r.delta.value;
      if !InMatch(h, delta.identity) {
        return Fail(DeltaForeign);
      }
      if delta.basedOn != r.state.stateId {
        return Fail(DeltaBasedOnMismatch);
      }
      if delta.deltaId in seen.deltas {
        return Fail(DeltaIdDuplicate);
      }
      if delta.basedOn in seen.bases {
        return Fail(AmbiguousDeltaPosition);
      }
      if delta.identity.battleRevision > h.finalRevision {
        return Fail(DeltaBeyondFinalRevision);
      }
    }
    var own := ActionsInMatch(h, r.actions);
    return if own then Pass else Fail(LegalActionForeign);
  }

  method ActionsInMatch(h: Header, actions: seq<LegalAction>) returns (r: bool)
    ensures r <==> forall k :: 0 <= k < |actions| ==> InMatch(h, actions[k].identity)
  {
    var k := 0;
    while k < |actions|
      invariant 0 <= k <= |actions| && forall j :: 0 <= j < k ==> InMatch(h, actions[j].identity)
    {
      if !InMatch(h, actions[k].identity) {
        return false;
      }
      k := k + 1;
    }
    return true;
  }

  /** In one chain the turn numbers climb by one from record to record. */
  lemma {:induction false} TurnsRise(h: Header, s: seq<Record>, k: nat)
    requires k < |s|
    ensures OneChain(h, s) ==> forall j :: 0 <= j <= k ==> TurnOf(s[k]) == TurnOf(s[j]) + (k - j)
  {
    if k > 0 {
      TurnsRise(h, s, k - 1);
      assert OneChain(h, s) ==> Succeeds(s[k - 1], s[k]);
    }
  }

  // ---- the document's verdict does not depend on the order of its turns ---------------------

  predicate StrictlyAscending(s: seq<Record>) {
    forall i, j :: 0 <= i < j < |s| ==> TurnOf(s[i]) < TurnOf(s[j])
  }

  lemma ChainAscends(h: Header, s: seq<Record>)
    requires OneChain(h, s)
    ensures StrictlyAscending(s)
  {
    forall i, j | 0 <= i < j < |s| ensures TurnOf(s[i]) < TurnOf(s[j]) {
      TurnsRise(h, s, j);
    }
  }

  lemma Front<T>(s: seq<T>)
    requires s != []
    ensures multiset(s[..|s| - 1]) == multiset(s) - multiset{s[|s| - 1]}
  {
    assert s == s[..|s| - 1] + [s[|s| - 1]];
  }

  /** A strictly ascending sequence is the only ascending one with its elements. */
  lemma {:induction false} OneSorting(a: seq<Record>, b: seq<Record>)
    requires StrictlyAscending(a) && Ascending(b) && multiset(a) == multiset(b)
    ensures a == b
  {
    assert |a| == |multiset(a)| == |multiset(b)| == |b|;
    if a != [] {
      var n := |a| - 1;
      LastIsLast(a, b);
      Front(a);
      Front(b);
      OneSorting(a[..n], b[..n]);
      assert forall k :: 0 <= k < n ==> a[..n][k] == a[k] && b[..n][k] == b[k];
    }
  }

  lemma LastIsLast(a: seq<Record>, b: seq<Record>)
    requires StrictlyAscending(a) && Ascending(b) && multiset(a) == multiset(b) && a != [] && |a| == |b|
    ensures a[|a| - 1] == b[|b| - 1]
  {
    var n := |a| - 1;
    SameElements(a, b);
    assert b[n] in b && a[n] in a;
    var i :| 0 <= i < |a| && a[i] == b[n];
    var j :| 0 <= j < |b| && b[j] == a[n];
    assert TurnOf(b[j]) <= TurnOf(b[n]);
  }

  lemma ReorderedDocument(h: Header, records: seq<Record>, other: seq<Record>)
    requires multiset(records) == multiset(other) && DocumentAccepted(h, records)
    ensures DocumentAccepted(h, other)
  {
    ChainAscends(h, SortByTurn(records));
    OneSorting(SortByTurn(records), SortByTurn(other));
  }

  lemma DocumentOrderDoesNotMatter(h: Header, records: seq<Record>, other: seq<Record>)
    requires multiset(records) == multiset(other)
    ensures DocumentAccepted(h, records) <==> DocumentAccepted(h, other)
  {
    if DocumentAccepted(h, records) {
      ReorderedDocument(h, records, other);
    }
    if DocumentAccepted(h, other) {
      ReorderedDocument(h, other, records);
    }
  }

  // ---- the validators agree -----------------------------------------------------------------

  function StatesOf(s: seq<Record>): (r: seq<ConfirmedTurnState>)
    ensures |r| == |s| && forall k :: 0 <= k < |s| ==> r[k] == s[k].state
  {
    seq(|s|, k requires 0 <= k < |s| => s[k].state)
  }

  function DeltasOf(s: seq<Record>): seq<ActionResultDelta> {
    if s == [] then []
    else
      var init, last := DeltasOf(s[..|s| - 1]), s[|s| - 1].delta;
      if last.Some? then init + [last.value] else init
  }

  /** What each rich block is checked for on its own: one identity for state, delta and legal actions. */
  predicate BlockBound(r: Record) {
    && (r.delta.Some? ==> r.delta.value.identity == r.state.identity)
    && forall k :: 0 <= k < |r.actions| ==> r.actions[k].identity == r.state.identity
  }

  lemma {:induction false} LookUp(states: seq<ConfirmedTurnState>, k: nat)
    requires DistinctStates(states) && k < |states|
    ensures states[k].stateId in ById(states) && ById(states)[states[k].stateId] == states[k]
  {
    var n := |states| - 1;
    if k < n {
      LookUp(states[..n], k);
      assert states[n].stateId != states[k].stateId;
    }
  }

  lemma {:induction false} DeltasOfChain(h: Header, s: seq<Record>, byId: map<Id, ConfirmedTurnState>)
    requires OneChain(h, s) && forall k :: 0 <= k < |s| ==> BlockBound(s[k])
    requires forall k :: 0 <= k < |s| ==> s[k].state.stateId in byId && byId[s[k].state.stateId] == s[k].state
    ensures DistinctDeltas(DeltasOf(s)) && DistinctBases(DeltasOf(s))
    ensures forall d :: d in DeltasOf(s) ==>
              BasedInside(h, byId, d) && exists k :: 0 <= k < |s| && s[k].delta == Some(d)
  {
    if s != [] {
      var n := |s| - 1;
      var init := s[..n];
      assert OneChain(h, init);
      DeltasOfChain(h, init, byId);
      forall d | d in DeltasOf(s)
        ensures BasedInside(h, byId, d) && exists k :: 0 <= k < |s| && s[k].delta == Some(d)
      {
        if d in DeltasOf(init) {
          var k :| 0 <= k < |init| && init[k].delta == Some(d);
          assert s[k].delta == Some(d);
        } else {
          assert s[n].delta == Some(d) && RecordFits(h, s[n]) && BlockBound(s[n]);
        }
      }
      if s[n].delta.Some? {
        forall d | d in DeltasOf(init) ensures d.deltaId != s[n].delta.value.deltaId && d.basedOn != s[n].delta.value.basedOn {
          var k :| 0 <= k < |init| && init[k].delta == Some(d);
          assert RecordFits(h, s[k]) && RecordFits(h, s[n]) && s[k].state.stateId != s[n].state.stateId;
        }
      }
    }
  }

  /** A document chain the parser accepts is, sorted by turn, accepted by both validators that run before building. */
  lemma AcceptedDocumentIsExportable(h: Header, records: seq<Record>)
    requires DocumentAccepted(h, records) && forall r :: r in records ==> BlockBound(r)
    ensures var s := SortByTurn(records);
            StatesExportable(h, StatesOf(s)) && DeltasExportable(h, StatesOf(s), DeltasOf(s))
  {
    var s := SortByTurn(records);
    var states := StatesOf(s);
    ChainAscends(h, s);
    SameElements(s, records);
    forall k | 0 <= k < |s| ensures InMatch(h, states[k].identity) && states[k].identity.battleRevision <= h.finalRevision {
      assert RecordFits(h, s[k]);
    }
    forall k | 0 < k < |s| ensures states[k].previous == Some(states[k - 1].stateId) {
      assert Succeeds(s[k - 1], s[k]);
    }
    forall k | 0 <= k < |s| ensures s[k].state.stateId in ById(states) && ById(states)[s[k].state.stateId] == s[k].state {
      LookUp(states, k);
    }
    DeltasOfChain(h, s, ById(states));
  }

  // ---- from the exporter's rows to a document -----------------------------------------------

  /** The records the exporter writes for states it has validated: one per state, with the delta based on it. */
  function Records(states: seq<ConfirmedTurnState>, byBase: map<Id, ActionResultDelta>, actions: seq<seq<LegalAction>>)
    : (r: seq<Record>)
    requires |actions| == |states|
    ensures |r| == |states|
    ensures forall k :: 0 <= k < |r| ==>
              r[k] == Record(states[k].identity.turnNumber, states[k],
                             if states[k].stateId in byBase then Some(byBase[states[k].stateId]) else None, actions[k])
  {
    seq(|states|, k requires 0 <= k < |states| =>
      Record(states[k].identity.turnNumber, states[k],
             if states[k].stateId in byBase then Some(byBase[states[k].stateId]) else None, actions[k]))
  }

  predicate Consecutive(states: seq<ConfirmedTurnState>) {
    forall k :: 0 < k < |states| ==>
      && states[k].identity.turnNumber == states[k - 1].identity.turnNumber + 1
      && states[k].identity.battleRevision > states[k - 1].identity.battleRevision
  }

  predicate ActionsBound(states: seq<ConfirmedTurnState>, actions: seq<seq<LegalAction>>) {
    && |actions| == |states|
    && forall k, j :: 0 <= k < |states| && 0 <= j < |actions[k]| ==> actions[k][j].identity == states[k].identity
  }

  lemma RecordsFit(h: Header, states: seq<ConfirmedTurnState>, deltas: seq<ActionResultDelta>,
                   byBase: map<Id, ActionResultDelta>, actions: seq<seq<LegalAction>>)
    requires StatesExportable(h, states) && DeltasExportable(h, states, deltas) && MapsBases(byBase, deltas)
    requires ActionsBound(states, actions)
    ensures var s := Records(states, byBase, actions);
            DistinctRecords(s) && forall k :: 0 <= k < |s| ==> RecordFits(h, s[k]) && BlockBound(s[k])
  {
    var s := Records(states, byBase, actions);
    forall k | 0 <= k < |s| ensures RecordFits(h, s[k]) && BlockBound(s[k]) {
      LookUp(states, k);
      if s[k].delta.Some? {
        assert s[k].delta.value in deltas;
        var i :| 0 <= i < |deltas| && deltas[i] == s[k].delta.value;
        assert BasedInside(h, ById(states), deltas[i]);
      }
    }
    forall i, j | 0 <= i < j < |s| && s[i].delta.Some? && s[j].delta.Some?
      ensures s[i].delta.value.deltaId != s[j].delta.value.deltaId
    {
      var a, b := s[i].delta.value, s[j].delta.value;
      assert a in deltas && b in deltas && a.basedOn == states[i].stateId != states[j].stateId == b.basedOn;
    }
  }

  lemma SortedAlready(s: seq<Record>)
    requires StrictlyAscending(s)
    ensures SortByTurn(s) == s
  {
    OneSorting(s, SortByTurn(s));
  }

  lemma RowsSucceedIff(states: seq<ConfirmedTurnState>, byBase: map<Id, ActionResultDelta>,
                       actions: seq<seq<LegalAction>>)
    requires LinkedStates(states) && |actions| == |states|
    ensures var s := Records(states, byBase, actions);
            (forall k :: 0 < k < |s| ==> Succeeds(s[k - 1], s[k])) <==> Consecutive(states)
  {
    var s := Records(states, byBase, actions);
    if forall k :: 0 < k < |s| ==> Succeeds(s[k - 1], s[k]) {
      forall k | 0 < k < |states|
        ensures states[k].identity.turnNumber == states[k - 1].identity.turnNumber + 1
        ensures states[k].identity.battleRevision > states[k - 1].identity.battleRevision
      {
        assert Succeeds(s[k - 1], s[k]);
      }
    }
  }

  lemma RowsAscend(h: Header, states: seq<ConfirmedTurnState>, byBase: map<Id, ActionResultDelta>,
                   actions: seq<seq<LegalAction>>)
    requires StatesExportable(h, states) && |actions| == |states|
    ensures LinkedStates(states) && StrictlyAscending(Records(states, byBase, actions))
  {
  }

  /**
   Rows both pre-build validators accept make a document the parser accepts exactly when turns are consecutive
   and revisions rise: the two conditions only the parser checks.
   */
  lemma ExportableRowsParseIff(h: Header, states: seq<ConfirmedTurnState>, deltas: seq<ActionResultDelta>,
                               byBase: map<Id, ActionResultDelta>, actions: seq<seq<LegalAction>>)
    requires StatesExportable(h, states) && DeltasExportable(h, states, deltas) && MapsBases(byBase, deltas)
    requires ActionsBound(states, actions)
    ensures DocumentAccepted(h, Records(states, byBase, actions)) <==> Consecutive(states)
  {
    hide RecordFits, BlockBound, DistinctRecords, SortByTurn, StatesExportable, DeltasExportable, MapsBases, Succeeds;
    hide Records, Consecutive, StrictlyAscending;
    RecordsFit(h, states, deltas, byBase, actions);
    RowsAscend(h, states, byBase, actions);
    SortedAlready(Records(states, byBase, actions));
    RowsSucceedIff(states, byBase, actions);
  }

  // ---- chains played by derive and confirm --------------------------------------------------

  function DeltasPlayed(steps: seq<Advance>): (r: seq<ActionResultDelta>)
    ensures |r| == |steps| && forall k :: 0 <= k < |steps| ==> r[k] == steps[k].delta
  {
    seq(|steps|, k requires 0 <= k < |steps| => steps[k].delta)
  }

  lemma {:induction false} PlayedSteps(root: ConfirmedTurnState, steps: seq<Advance>, k: nat)
    requires Play(root, steps).Success? && k < |steps|
    ensures Follows(Play(root, steps).value[k], steps[k])
    ensures Play(root, steps).value[k + 1].identity == steps[k].nextIdentity
    ensures Play(root, steps).value[k + 1].previous == Some(Play(root, steps).value[k].stateId)
    decreases |steps|
  {
    var n := |steps| - 1;
    var before := Play(root, steps[..n]).value;
    AdvanceSucceedsIff(before[n], steps[n]);
    if k < n {
      PlayedSteps(root, steps[..n], k);
    }
  }

  lemma {:induction false} PlayedTurns(root: ConfirmedTurnState, steps: seq<Advance>, k: nat)
    requires Play(root, steps).Success? && k <= |steps|
    ensures var s := Play(root, steps).value;
            && s[k].identity.turnNumber == root.identity.turnNumber + k
            && s[k].identity.battleRevision >= root.identity.battleRevision + k
            && SameMatch(s[k].identity, root.identity)
  {
    if k > 0 {
      PlayedSteps(root, steps, k - 1);
      PlayedTurns(root, steps, k - 1);
    }
  }

  lemma {:induction false} RevisionsBounded(root: ConfirmedTurnState, steps: seq<Advance>, k: nat)
    requires Play(root, steps).Success? && k <= |steps|
    ensures var s := Play(root, steps).value; s[k].identity.battleRevision <= s[|steps|].identity.battleRevision
    decreases |steps| - k
  {
    if k < |steps| {
      PlayedSteps(root, steps, k);
      RevisionsBounded(root, steps, k + 1);
    }
  }

  lemma PlayedStatesExport(h: Header, root: ConfirmedTurnState, steps: seq<Advance>)
    requires Play(root, steps).Success? && InMatch(h, root.identity) && DistinctStates(Play(root, steps).value)
    requires LastState(root, steps).identity.battleRevision <= h.finalRevision
    ensures StatesExportable(h, Play(root, steps).value) && Consecutive(Play(root, steps).value)
  {
    var states := Play(root, steps).value;
    forall k | 0 <= k < |states|
      ensures InMatch(h, states[k].identity) && states[k].identity.battleRevision <= h.finalRevision
      ensures states[k].identity.turnNumber == root.identity.turnNumber + k
    {
      PlayedTurns(root, steps, k);
      RevisionsBounded(root, steps, k);
    }
    forall k | 0 < k < |states|
      ensures states[k].previous == Some(states[k - 1].stateId)
      ensures states[k].identity.battleRevision > states[k - 1].identity.battleRevision
    {
      PlayedSteps(root, steps, k - 1);
    }
  }

  lemma PlayedDeltasExport(h: Header, root: ConfirmedTurnState, steps: seq<Advance>)
    requires Play(root, steps).Success? && InMatch(h, root.identity)
    requires DistinctStates(Play(root, steps).value) && DistinctDeltas(DeltasPlayed(steps))
    ensures DeltasExportable(h, Play(root, steps).value, DeltasPlayed(steps))
  {
    var states, deltas := Play(root, steps).value, DeltasPlayed(steps);
    forall k | 0 <= k < |deltas|
      ensures deltas[k].basedOn == states[k].stateId && BasedInside(h, ById(states), deltas[k])
    {
      PlayedSteps(root, steps, k);
      PlayedTurns(root, steps, k);
      LookUp(states, k);
    }
  }

  /**
   A chain built only by deriving and confirming, with fresh ids and its last revision within the final one,
   passes both pre-build validators, and the document made of it passes the parser.
   */
  lemma PlayedChainExports(h: Header, root: ConfirmedTurnState, steps: seq<Advance>,
                           byBase: map<Id, ActionResultDelta>, actions: seq<seq<LegalAction>>)
    requires Play(root, steps).Success? && InMatch(h, root.identity)
    requires DistinctStates(Play(root, steps).value) && DistinctDeltas(DeltasPlayed(steps))
    requires LastState(root, steps).identity.battleRevision <= h.finalRevision
    requires MapsBases(byBase, DeltasPlayed(steps)) && ActionsBound(Play(root, steps).value, actions)
    ensures StatesExportable(h, Play(root, steps).value)
    ensures DeltasExportable(h, Play(root, steps).value, DeltasPlayed(steps))
    ensures DocumentAccepted(h, Records(Play(root, steps).value, byBase, actions))
  {
    hide Play, StatesExportable, DeltasExportable, DocumentAccepted;
    PlayedStatesExport(h, root, steps);
    PlayedDeltasExport(h, root, steps);
    ExportableRowsParseIff(h, Play(root, steps).value, DeltasPlayed(steps), byBase, actions);
  }

  /** A turn confirmed twice, which the battle memory allows, is never exportable: not in any order or company. */
  lemma ReconfirmedTurnIsNotExportable(h: Header, states: seq<ConfirmedTurnState>, a: ConfirmedTurnState,
                                       b: ConfirmedTurnState)
    requires a in states && b in states && a != b && a.identity.turnNumber == b.identity.turnNumber
    ensures !StatesExportable(h, states)
  {
    var i :| 0 <= i < |states| && states[i] == a;
    var j :| 0 <= j < |states| && states[j] == b;
    assert i < j || j < i;
  }
}
