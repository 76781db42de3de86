/**
 Which histories that the battle memory accepts (domain/battle_memory.py) the rich export accepts too
 (application/match_export_v3.py:318-439): not all of them, and exactly these.
 */
module HistoryExport {
  import opened Basics
  import opened TurnState
  import opened BattleMemory
  import opened ExportChain

  // ---- the listing an export reads ----------------------------------------------------------

  predicate NotAfter(a: ConfirmedTurnState, b: ConfirmedTurnState) {
    !KeyBefore(b.identity, a.identity)
  }

  function InsertListed(sorted: seq<ConfirmedTurnState>, x: ConfirmedTurnState): (s: seq<ConfirmedTurnState>)
    ensures multiset(s) == multiset(sorted) + multiset{x} && |s| == |sorted| + 1
  {
    if sorted == [] then [x]
    else
      var n := |sorted| - 1;
      assert sorted == sorted[..n] + [sorted[n]];
      if NotAfter(sorted[n], x) then sorted + [x] else InsertListed(sorted[..n], x) + [sorted[n]]
  }

  predicate InOrder(s: seq<ConfirmedTurnState>) {
    forall i, j :: 0 <= i < j < |s| ==> NotAfter(s[i], s[j])
  }

  lemma InsertedMembers(sorted: seq<ConfirmedTurnState>, x: ConfirmedTurnState)
    ensures forall y :: y in InsertListed(sorted, x) ==> y in sorted || y == x
  {
    forall y | y in InsertListed(sorted, x) ensures y in sorted || y == x {
      assert y in multiset(InsertListed(sorted, x));
      assert y != x ==> y in multiset(sorted);
    }
  }

  lemma AppendInOrder(s: seq<ConfirmedTurnState>, x: ConfirmedTurnState)
    requires InOrder(s) && forall y :: y in s ==> NotAfter(y, x)
    ensures InOrder(s + [x])
  {
  }

  lemma {:induction false} InsertInOrder(sorted: seq<ConfirmedTurnState>, x: ConfirmedTurnState)
    requires InOrder(sorted)
    ensures InOrder(InsertListed(sorted, x))
  {
    if sorted != [] {
      var n := |sorted| - 1;
      if NotAfter(sorted[n], x) {
        AppendInOrder(sorted, x);
      } else {
        InsertInOrder(sorted[..n], x);
        InsertedMembers(sorted[..n], x);
        AppendInOrder(InsertListed(sorted[..n], x), sorted[n]);
      }
    }
  }

  /** list_confirmed_turn_states_for_match: ORDER BY turn_number, battle_revision, rowid. */
  function Listed(states: seq<ConfirmedTurnState>): (s: seq<ConfirmedTurnState>)
    ensures multiset(s) == multiset(states) && |s| == |states| && InOrder(s)
  {
    if states == [] then []
    else
      var n := |states| - 1;
      assert states == states[..n] + [states[n]];
      InsertInOrder(Listed(states[..n]), states[n]);
      InsertListed(Listed(states[..n]), states[n])
  }

  // ---- the conditions -----------------------------------------------------------------------

  /** No turn was confirmed twice. */
  predicate OneStateATurn(states: seq<ConfirmedTurnState>) {
    forall a, b :: a in states && b in states && a.identity.turnNumber == b.identity.turnNumber ==> a == b
  }

  predicate Holds(chain: seq<ConfirmedTurnState>, states: seq<ConfirmedTurnState>) {
    forall s :: s in states ==> s in chain
  }

  predicate WithinRevision(h: Header, states: seq<ConfirmedTurnState>) {
    forall s :: s in states ==> s.identity.battleRevision <= h.finalRevision
  }

  lemma ListedIsDistinct(states: seq<ConfirmedTurnState>)
    requires DistinctStates(states)
    ensures DistinctStates(Listed(states)) && forall s :: s in Listed(states) <==> s in states
  {
    ReorderedStates(states, Listed(states));
    SameElements(states, Listed(states));
  }

  lemma ListedRisesIff(states: seq<ConfirmedTurnState>)
    requires DistinctStates(states)
    ensures RisingTurns(Listed(states)) <==> OneStateATurn(states)
  {
    var s := Listed(states);
    ListedIsDistinct(states);
    if OneStateATurn(states) {
      forall i, j | 0 <= i < j < |s| ensures s[i].identity.turnNumber < s[j].identity.turnNumber {
        assert NotAfter(s[i], s[j]) && s[i] in states && s[j] in states;
      }
    }
    if RisingTurns(s) {
      forall a, b | a in states && b in states && a.identity.turnNumber == b.identity.turnNumber ensures a == b {
        var i :| 0 <= i < |s| && s[i] == a;
        var j :| 0 <= j < |s| && s[j] == b;
      }
    }
  }

  // ---- rising sequences ---------------------------------------------------------------------

  /** Two rising sequences of the same states are the same sequence. */
  lemma {:induction false} OneRising(a: seq<ConfirmedTurnState>, b: seq<ConfirmedTurnState>)
    requires RisingTurns(a) && RisingTurns(b) && forall s :: s in a <==> s in b
    ensures a == b
    decreases |a|
  {
    assert a == [] || a[0] in a;
    assert b == [] || b[0] in b;
    if a != [] {
      var m, n := |a| - 1, |b| - 1;
      LastOfRising(a, b);
      forall s ensures s in a[..m] <==> s in b[..n] {
        InitOfRising(a, s);
        InitOfRising(b, s);
      }
      OneRising(a[..m], b[..n]);
      assert a == a[..m] + [a[m]] && b == b[..n] + [b[n]];
    }
  }

  lemma LastOfRising(a: seq<ConfirmedTurnState>, b: seq<ConfirmedTurnState>)
    requires RisingTurns(a) && RisingTurns(b) && (forall s :: s in a <==> s in b) && a != [] && b != []
    ensures a[|a| - 1] == b[|b| - 1]
  {
    var m, n := |a| - 1, |b| - 1;
    assert a[m] in a && b[n] in b;
    var i :| 0 <= i < |b| && b[i] == a[m];
    var j :| 0 <= j < |a| && a[j] == b[n];
  }

  lemma InitOfRising(s: seq<ConfirmedTurnState>, x: ConfirmedTurnState)
    requires RisingTurns(s) && s != []
    ensures x in s[..|s| - 1] <==> x in s && x != s[|s| - 1]
  {
    assert s == s[..|s| - 1] + [s[|s| - 1]];
  }

  // ---- any history --------------------------------------------------------------------------

  /** The chain of the last listed state holds every state, in listing order. */
  ghost predicate OneLine(states: seq<ConfirmedTurnState>, last: ConfirmedTurnState) {
    exists c :: IsChain(states, last, c) && Holds(c, states) && RisingTurns(c)
  }

  lemma HistoryHasRoot(r: Rows) returns (root: ConfirmedTurnState)
    requires HistoryOk(r)
    ensures StatesOk(r) && root in r.states && root.previous == None
  {
    var memory :| IsMemory(r, memory);
    var chain, links :| && IsChain(r.states, r.current, chain) && AllLinked(r, chain, links)
                        && |links| == PriorTurns(r.identity) && RowsMatch(chain, links, memory);
    root := chain[0];
  }

  lemma ExportableIsOneLine(h: Header, r: Rows)
    requires HistoryOk(r) && StatesExportable(h, Listed(r.states))
    ensures Listed(r.states) != [] && OneLine(r.states, Listed(r.states)[|r.states| - 1])
  {
    hide HistoryOk, Listed;
    var s := Listed(r.states);
    var root := HistoryHasRoot(r);
    ListedIsDistinct(r.states);
    assert root in s;
    LinkedFromRoot(h, s, root);
    assert IsChain(r.states, s[|s| - 1], s) && Holds(s, r.states);
  }

  /** In a linked listing only the first state has no predecessor. */
  lemma LinkedFromRoot(h: Header, s: seq<ConfirmedTurnState>, root: ConfirmedTurnState)
    requires StatesExportable(h, s) && root in s && root.previous == None
    ensures s[0] == root
  {
    LinkedHavePredecessors(h, s);
    hide StatesExportable;
    var k :| 0 <= k < |s| && s[k] == root;
  }

  lemma LinkedHavePredecessors(h: Header, s: seq<ConfirmedTurnState>)
    requires StatesExportable(h, s)
    ensures forall k :: 0 < k < |s| ==> s[k].previous.Some?
  {
    forall k | 0 < k < |s| ensures s[k].previous.Some? {
      assert s[k].previous == Some(s[k - 1].stateId);
    }
  }

  lemma RisingIsOneATurn(c: seq<ConfirmedTurnState>, states: seq<ConfirmedTurnState>)
    requires Holds(c, states) && RisingTurns(c)
    ensures OneStateATurn(states)
  {
    forall a, b | a in states && b in states && a.identity.turnNumber == b.identity.turnNumber ensures a == b {
      var i :| 0 <= i < |c| && c[i] == a;
      var j :| 0 <= j < |c| && c[j] == b;
    }
  }

  lemma OneLineIsExportable(h: Header, r: Rows, last: ConfirmedTurnState)
    requires HistoryOk(r) && InMatch(h, r.identity) && OneLine(r.states, last) && WithinRevision(h, r.states)
    ensures StatesExportable(h, Listed(r.states))
  {
    hide HistoryOk, Listed, RisingTurns, OneStateATurn, InOrder;
    var s := Listed(r.states);
    var root := HistoryHasRoot(r);
    ListedIsDistinct(r.states);
    var c :| IsChain(r.states, last, c) && Holds(c, r.states) && RisingTurns(c);
    RisingIsOneATurn(c, r.states);
    ListedRisesIff(r.states);
    OneRising(s, c);
    forall k | 0 <= k < |s| ensures InMatch(h, s[k].identity) && s[k].identity.battleRevision <= h.finalRevision {
      assert s[k] in r.states;
    }
  }

  /**
   A history the memory accepts, of whatever current state: its match's states are exportable exactly when the
   ancestor chain of the last listed one holds them all, with rising turns, within the final revision.
   */
  lemma ListingExportsIff(h: Header, r: Rows)
    requires HistoryOk(r) && InMatch(h, r.identity)
    ensures Listed(r.states) != [] && |Listed(r.states)| == |r.states|
    ensures StatesExportable(h, Listed(r.states)) <==>
              OneLine(r.states, Listed(r.states)[|r.states| - 1]) && WithinRevision(h, r.states)
  {
    hide OneLine, HistoryOk, StatesExportable;
    var s := Listed(r.states);
    var root := HistoryHasRoot(r);
    if StatesExportable(h, s) {
      ExportableIsOneLine(h, r);
      ExportableIsWithin(h, r.states);
    }
    if OneLine(r.states, s[|s| - 1]) && WithinRevision(h, r.states) {
      OneLineIsExportable(h, r, s[|s| - 1]);
    }
  }

  lemma ExportableIsWithin(h: Header, states: seq<ConfirmedTurnState>)
    requires StatesExportable(h, Listed(states))
    ensures WithinRevision(h, states)
  {
    SameElements(states, Listed(states));
  }

  // ---- the history of a match's last turn ---------------------------------------------------

  lemma {:induction false} FewTurns(turns: seq<nat>, n: nat)
    requires forall k :: 0 <= k < |turns| ==> 1 <= turns[k] <= n
    requires forall i, j :: 0 <= i < j < |turns| ==> turns[i] != turns[j]
    ensures |turns| <= n
    decreases n
  {
    if turns != [] {
      assert 1 <= turns[0] <= n;
      if i :| 0 <= i < |turns| && turns[i] == n {
        var rest := turns[..i] + turns[i + 1..];
        assert forall k :: 0 <= k < |rest| ==> rest[k] == if k < i then turns[k] else turns[k + 1];
        FewTurns(rest, n - 1);
      } else {
        FewTurns(turns, n - 1);
      }
    }
  }

  lemma {:induction false} PositionsClimb(r: Rows, chain: seq<ConfirmedTurnState>, links: seq<Link>, k: nat)
    requires AllLinked(r, chain, links) && k < |links|
    ensures links[k].position >= k
  {
    if k > 0 {
      PositionsClimb(r, chain, links, k - 1);
    }
  }

  lemma {:induction false} PositionsFit(r: Rows, chain: seq<ConfirmedTurnState>, links: seq<Link>, k: nat)
    requires AllLinked(r, chain, links) && k < |links|
    ensures links[k].position + |links| - k < |chain|
    decreases |links| - k
  {
    assert Linked(r, chain, k + 1, links[k]);
    if k + 1 < |links| {
      PositionsFit(r, chain, links, k + 1);
    }
  }

  predicate TurnsOneTo(states: seq<ConfirmedTurnState>, n: nat) {
    forall s :: s in states ==> 1 <= s.identity.turnNumber <= n
  }

  /** With no turn confirmed twice, a chain up to turn N that has a link for each earlier turn is turns 1..N. */
  lemma ChainIsTurns(r: Rows, chain: seq<ConfirmedTurnState>, links: seq<Link>)
    requires StatesOk(r) && IsChain(r.states, r.current, chain) && AllLinked(r, chain, links)
    requires |links| == PriorTurns(r.identity) && TurnsOneTo(r.states, r.identity.turnNumber) && OneStateATurn(r.states)
    ensures |chain| == |links| + 1
    ensures forall k :: 0 <= k < |chain| ==> chain[k].identity.turnNumber == k + 1
    ensures forall k :: 0 <= k < |links| ==> links[k].position == k
  {
    var turns := seq(|chain|, k requires 0 <= k < |chain| => chain[k].identity.turnNumber);
    assert r.current in r.states;
    FewTurns(turns, r.identity.turnNumber);
    forall k | 0 <= k < |links| ensures links[k].position == k && chain[k].identity.turnNumber == k + 1 {
      PositionsClimb(r, chain, links, k);
      PositionsFit(r, chain, links, k);
      assert Linked(r, chain, k + 1, links[k]);
    }
    if links != [] {
      PositionsFit(r, chain, links, 0);
    }
  }

  lemma LastIsCurrent(r: Rows)
    requires StatesOk(r) && TurnsOneTo(r.states, r.identity.turnNumber) && OneStateATurn(r.states)
    ensures Listed(r.states) != [] && |Listed(r.states)| == |r.states|
    ensures Listed(r.states)[|r.states| - 1] == r.current
  {
    var s := Listed(r.states);
    ListedIsDistinct(r.states);
    assert r.current in s;
    var k :| 0 <= k < |s| && s[k] == r.current;
    ListedRisesIff(r.states);
    assert s[|s| - 1] in r.states;
  }

  /**
   A history the memory accepts at the match's last turn: its states are exportable exactly when its chain holds
   every state, no turn was confirmed twice, and every revision is within the final one.
   */
  lemma HistoryExportsIff(h: Header, r: Rows, chain: seq<ConfirmedTurnState>)
    requires HistoryOk(r) && IsChain(r.states, r.current, chain) && InMatch(h, r.identity)
    requires TurnsOneTo(r.states, r.identity.turnNumber)
    ensures StatesExportable(h, Listed(r.states)) <==>
              Holds(chain, r.states) && OneStateATurn(r.states) && WithinRevision(h, r.states)
  {
    hide HistoryOk, StatesExportable, IsChain;
    var root := HistoryHasRoot(r);
    ListingExportsIff(h, r);
    if StatesExportable(h, Listed(r.states)) {
      ExportableRises(h, r.states);
      LastIsCurrent(r);
      var c :| IsChain(r.states, r.current, c) && Holds(c, r.states) && RisingTurns(c);
      ChainIsUnique(r.states, r.current, c, chain);
    }
    if Holds(chain, r.states) && OneStateATurn(r.states) && WithinRevision(h, r.states) {
      LastIsCurrent(r);
      ChainRises(r, chain);
      assert OneLine(r.states, r.current);
    }
  }

  lemma ExportableRises(h: Header, states: seq<ConfirmedTurnState>)
    requires StatesExportable(h, Listed(states)) && DistinctStates(states)
    ensures OneStateATurn(states)
  {
    ListedRisesIff(states);
  }

  lemma LinksOf(r: Rows, chain: seq<ConfirmedTurnState>) returns (links: seq<Link>)
    requires HistoryOk(r) && IsChain(r.states, r.current, chain)
    ensures AllLinked(r, chain, links) && |links| == PriorTurns(r.identity) && StatesOk(r)
  {
    var memory :| IsMemory(r, memory);
    var c, l :| && IsChain(r.states, r.current, c) && AllLinked(r, c, l)
                && |l| == PriorTurns(r.identity) && RowsMatch(c, l, memory);
    ChainIsUnique(r.states, r.current, c, chain);
    links := l;
  }

  lemma ChainRises(r: Rows, chain: seq<ConfirmedTurnState>)
    requires HistoryOk(r) && IsChain(r.states, r.current, chain)
    requires TurnsOneTo(r.states, r.identity.turnNumber) && OneStateATurn(r.states)
    ensures RisingTurns(chain)
  {
    hide HistoryOk;
    var links := LinksOf(r, chain);
    ChainIsTurns(r, chain, links);
  }

  // ---- its deltas ---------------------------------------------------------------------------

  /** At most one delta is based on the current state, and it is of the current turn. */
  predicate LastDeltaFits(r: Rows) {
    forall d, e :: d in r.deltas && e in r.deltas && d.basedOn == r.current.stateId && e.basedOn == r.current.stateId ==>
                     d == e && d.identity == r.identity
  }

  /** The query's promise: every delta row read is based on one of the states read. */
  predicate BasedOnStates(r: Rows) {
    forall d :: d in r.deltas ==> exists s :: s in r.states && s.stateId == d.basedOn
  }

  lemma DeltaOfEarlierTurn(r: Rows, chain: seq<ConfirmedTurnState>, links: seq<Link>, d: ActionResultDelta)
    requires StatesOk(r) && IsChain(r.states, r.current, chain) && AllLinked(r, chain, links)
    requires |links| == PriorTurns(r.identity) && TurnsOneTo(r.states, r.identity.turnNumber) && OneStateATurn(r.states)
    requires Holds(chain, r.states) && d in r.deltas && BasedOnStates(r) && d.basedOn != r.current.stateId
    ensures exists s :: s in r.states && s.stateId == d.basedOn && d.identity == s.identity
    ensures forall e :: e in r.deltas && e.basedOn == d.basedOn ==> e == d
  {
    ChainIsTurns(r, chain, links);
    var s :| s in r.states && s.stateId == d.basedOn;
    var k :| 0 <= k < |chain| && chain[k] == s;
    assert k < |links|;
    assert Linked(r, chain, k + 1, links[k]);
    assert d == links[k].delta;
  }

  lemma ListedById(states: seq<ConfirmedTurnState>, s: ConfirmedTurnState)
    requires DistinctStates(states) && s in states
    ensures s.stateId in ById(Listed(states)) && ById(Listed(states))[s.stateId] == s
  {
    ListedIsDistinct(states);
    var k :| 0 <= k < |Listed(states)| && Listed(states)[k] == s;
    LookUp(Listed(states), k);
  }

  /** Once its states are exportable, the history's deltas are too, exactly when the last turn's delta fits. */
  lemma HistoryDeltasExportIff(h: Header, r: Rows, chain: seq<ConfirmedTurnState>)
    requires HistoryOk(r) && IsChain(r.states, r.current, chain) && InMatch(h, r.identity)
    requires TurnsOneTo(r.states, r.identity.turnNumber) && BasedOnStates(r)
    requires StatesExportable(h, Listed(r.states))
    ensures DeltasExportable(h, Listed(r.states), r.deltas) <==> LastDeltaFits(r)
  {
    hide HistoryOk, StatesExportable, IsChain, AllLinked, ById;
    var links := LinksOf(r, chain);
    HistoryExportsIff(h, r, chain);
    ListedById(r.states, r.current);
    DeltasAreDistinct(r);
    if LastDeltaFits(r) {
      forall d | d in r.deltas ensures BasedInside(h, ById(Listed(r.states)), d) {
        if d.basedOn != r.current.stateId {
          DeltaOfEarlierTurn(r, chain, links, d);
          var s :| s in r.states && s.stateId == d.basedOn && d.identity == s.identity;
          ListedById(r.states, s);
        }
      }
      forall i, j | 0 <= i < j < |r.deltas| ensures r.deltas[i].basedOn != r.deltas[j].basedOn {
        if r.deltas[i].basedOn != r.current.stateId {
          DeltaOfEarlierTurn(r, chain, links, r.deltas[i]);
        }
      }
    }
    if DeltasExportable(h, Listed(r.states), r.deltas) {
      forall d, e | d in r.deltas && e in r.deltas && d.basedOn == r.current.stateId && e.basedOn == r.current.stateId
        ensures d == e && d.identity == r.identity
      {
        var i :| 0 <= i < |r.deltas| && r.deltas[i] == d;
        var j :| 0 <= j < |r.deltas| && r.deltas[j] == e;
        assert BasedInside(h, ById(Listed(r.states)), r.deltas[i]);
      }
    }
  }

  lemma DeltasAreDistinct(r: Rows)
    requires HistoryOk(r)
    ensures DistinctDeltas(r.deltas)
  {
  }

  // ---- inputs that fail ---------------------------------------------------------------------

  /** Turn 1 confirmed, and confirmed again: the memory at the second confirmation is fine, the export refuses. */
  lemma ReconfirmedIsRememberedNotExported(h: Header, a: ConfirmedTurnState, b: ConfirmedTurnState)
    requires a.previous == None && b.previous == Some(a.stateId) && a.stateId != b.stateId
    requires a.identity.turnNumber == 1 && b.identity == a.identity.(battleRevision := a.identity.battleRevision + 1)
    ensures HistoryOk(Rows(b.identity, b, [a, b], [], []))
    ensures !StatesExportable(h, Listed([a, b]))
  {
    var r := Rows(b.identity, b, [a, b], [], []);
    assert IsChain(r.states, b, [a, b]) && AllLinked(r, [a, b], []) && RowsMatch([a, b], [], []);
    assert IsMemory(r, []);
    assert a in [a, b] && b in [a, b];
    ListedIsDistinct([a, b]);
    ReconfirmedTurnIsNotExportable(h, Listed([a, b]), a, b);
  }

  /** Seen from turn 1, the chain lacks the state of turn 2, and yet the match's states are exportable. */
  lemma EarlierChainDecidesNothing(h: Header, a: ConfirmedTurnState, b: ConfirmedTurnState)
    requires a.previous == None && b.previous == Some(a.stateId) && a.stateId != b.stateId
    requires a.identity.turnNumber == 1 && b.identity.turnNumber == 2 && InMatch(h, a.identity) && InMatch(h, b.identity)
    requires a.identity.battleRevision <= h.finalRevision && b.identity.battleRevision <= h.finalRevision
    ensures HistoryOk(Rows(a.identity, a, [a, b], [], [])) && IsChain([a, b], a, [a]) && !Holds([a], [a, b])
    ensures StatesExportable(h, Listed([a, b]))
  {
    var r := Rows(a.identity, a, [a, b], [], []);
    assert IsChain(r.states, a, [a]) && AllLinked(r, [a], []) && RowsMatch([a], [], []);
    assert IsMemory(r, []);
    assert b in [a, b] && b != a;
    assert IsChain(r.states, b, [a, b]) && Holds([a, b], r.states) && RisingTurns([a, b]);
    OneLineIsExportable(h, r, b);
  }

  /** Turns 1 and 3 without turn 2: both validators that run before building pass, and the parser refuses. */
  lemma GapPassesThenFails(h: Header, a: ConfirmedTurnState, b: ConfirmedTurnState)
    requires a.previous == None && b.previous == Some(a.stateId) && a.stateId != b.stateId
    requires InMatch(h, a.identity) && InMatch(h, b.identity) && a.identity.turnNumber == 1 && b.identity.turnNumber == 3
    requires a.identity.battleRevision < b.identity.battleRevision <= h.finalRevision
    ensures StatesExportable(h, [a, b]) && DeltasExportable(h, [a, b], [])
    ensures !DocumentAccepted(h, Records([a, b], map[], [[], []]))
  {
    ExportableRowsParseIff(h, [a, b], [], map[], [[], []]);
    assert [a, b][1].identity.turnNumber != [a, b][0].identity.turnNumber + 1;
  }
}
