/**
 The battle memory a turn's request carries (domain/battle_memory.py:329-494): completed turns 1..N-1 rebuilt
 from unordered rows by walking the chain of confirmed states back from the current one.
 */
module BattleMemory {
  import opened Basics
  import Text
  import opened TurnState

  /** One rich_action_completions row, as read. */
  datatype CompletionFacts = CompletionFacts(
    transaction: Id, identity: TurnIdentity, basedOn: Id, ownType: ActionType, ownName: string,
    opponentType: Option<ActionType>, opponentName: Option<string>, order: ActionOrder, deltaId: Id)

  datatype MemoryAction = KnownAction(actionType: ActionType, name: string) | UnknownAction

  datatype MemoryTurn = MemoryTurn(
    identity: TurnIdentity, reviewedState: Id, ownActive: Known, opponentActive: Known, own: MemoryAction,
    opponent: MemoryAction, order: ActionOrder, result: ActionResultDelta)

  datatype Rows = Rows(identity: TurnIdentity, current: ConfirmedTurnState, states: seq<ConfirmedTurnState>,
                       completions: seq<CompletionFacts>, deltas: seq<ActionResultDelta>)

  datatype MemoryError =
    | CurrentStateIdentityMismatch | ForeignConfirmedState | DuplicateConfirmedState | CurrentStateNotInHistory
    | ChainCycle | BrokenChain | ForeignCompletion | CurrentOrFutureCompletion | DuplicateTurnCompletion
    | DuplicateDeltaId | MissingCompletion | ReviewedStateNotFound | ReviewedStateIdentityMismatch
    | ReviewedStateOutsideChain | MissingLinkedDelta | DeltaNotBasedOnReviewedState | DeltaIdentityMismatch
    | AmbiguousDelta | ActionNameRequired

  predicate SameMatch(a: TurnIdentity, b: TurnIdentity) {
    a.session == b.session && a.matchId == b.matchId && a.generation == b.generation
  }

  // ---- the condition ------------------------------------------------------------------------

  predicate DistinctStates(s: seq<ConfirmedTurnState>) {
    forall i, j :: 0 <= i < j < |s| ==> s[i].stateId != s[j].stateId
  }

  predicate DistinctTurns(s: seq<CompletionFacts>) {
    forall i, j :: 0 <= i < j < |s| ==> s[i].identity.turnNumber != s[j].identity.turnNumber
  }

  predicate DistinctDeltas(s: seq<ActionResultDelta>) {
    forall i, j :: 0 <= i < j < |s| ==> s[i].deltaId != s[j].deltaId
  }

  predicate StatesOk(r: Rows) {
    && r.current.identity == r.identity && r.current in r.states && DistinctStates(r.states)
    && forall s :: s in r.states ==> SameMatch(s.identity, r.identity)
  }

  predicate CompletionsOk(r: Rows) {
    && DistinctTurns(r.completions)
    && forall c :: c in r.completions ==>
         SameMatch(c.identity, r.identity) && c.identity.turnNumber < r.identity.turnNumber
  }

  /** The ancestors of `current`, root first: each names its predecessor, and none comes twice. */
  predicate IsChain(states: seq<ConfirmedTurnState>, current: ConfirmedTurnState, chain: seq<ConfirmedTurnState>) {
    && chain != [] && chain[|chain| - 1] == current && chain[0].previous == None
    && (forall k :: 0 <= k < |chain| ==> chain[k] in states)
    && (forall k :: 0 < k < |chain| ==> chain[k].previous == Some(chain[k - 1].stateId))
    && DistinctStates(chain)
  }

  /** What ties one completed turn together: its completion, its reviewed state's place in the chain, its delta. */
  datatype Link = Link(completion: CompletionFacts, position: nat, delta: ActionResultDelta)

  predicate NamesOk(c: CompletionFacts) {
    && !Text.IsBlank(c.ownName)
    && (c.opponentType.Some? ==> c.opponentName.Some? && !Text.IsBlank(c.opponentName.value))
  }

  predicate Linked(r: Rows, chain: seq<ConfirmedTurnState>, turn: nat, link: Link) {
    var c, d := link.completion, link.delta;
    && c in r.completions && c.identity.turnNumber == turn && NamesOk(c)
    && link.position < |chain| - 1 && chain[link.position].stateId == c.basedOn
    && chain[link.position].identity == c.identity
    && d in r.deltas && d.deltaId == c.deltaId && d.basedOn == c.basedOn && d.identity == c.identity
    && forall e :: e in r.deltas && e.basedOn == c.basedOn ==> e == d
  }

  predicate AllLinked(r: Rows, chain: seq<ConfirmedTurnState>, links: seq<Link>) {
    && (forall k :: 0 <= k < |links| ==> Linked(r, chain, k + 1, links[k]))
    && (forall i, j :: 0 <= i < j < |links| ==> links[i].position < links[j].position)
  }

  function KnownAt(board: Board, slot: Slot): Known {
    if slot in board then board[slot] else Unknown([])
  }

  function RowOf(chain: seq<ConfirmedTurnState>, link: Link): MemoryTurn
    requires link.position < |chain|
  {
    var c, state := link.completion, chain[link.position];
    MemoryTurn(c.identity, c.basedOn, KnownAt(state.board, Own(Active)), KnownAt(state.board, Opponent(Active)),
               KnownAction(c.ownType, c.ownName),
               if c.opponentType.Some? && c.opponentName.Some?
               then KnownAction(c.opponentType.value, c.opponentName.value) else UnknownAction,
               c.order, link.delta)
  }

  predicate RowsMatch(chain: seq<ConfirmedTurnState>, links: seq<Link>, memory: seq<MemoryTurn>) {
    && |memory| == |links|
    && forall k :: 0 <= k < |links| ==> links[k].position < |chain| && memory[k] == RowOf(chain, links[k])
  }

  /** The history condition, together with the memory it determines. */
  ghost predicate IsMemory(r: Rows, memory: seq<MemoryTurn>) {
    && StatesOk(r) && CompletionsOk(r) && DistinctDeltas(r.deltas)
    && exists chain, links :: && IsChain(r.states, r.current, chain) && AllLinked(r, chain, links)
                              && |links| == PriorTurns(r.identity) && RowsMatch(chain, links, memory)
  }

  function PriorTurns(identity: TurnIdentity): nat {
    if identity.turnNumber == 0 then 0 else identity.turnNumber - 1
  }

  ghost predicate HistoryOk(r: Rows) {
    exists memory :: IsMemory(r, memory)
  }

  // ---- the condition determines the memory --------------------------------------------------

  lemma StateById(states: seq<ConfirmedTurnState>, a: ConfirmedTurnState, b: ConfirmedTurnState)
    requires DistinctStates(states) && a in states && b in states && a.stateId == b.stateId
    ensures a == b
  {
  }

  /** Two ancestor chains of one state agree from the end on. */
  lemma {:induction false} ChainsAgree(states: seq<ConfirmedTurnState>, current: ConfirmedTurnState,
                                       a: seq<ConfirmedTurnState>, b: seq<ConfirmedTurnState>, k: nat)
    requires DistinctStates(states) && IsChain(states, current, a) && IsChain(states, current, b)
    requires k < |a|
    ensures k < |b| && a[|a| - 1 - k] == b[|b| - 1 - k]
  {
    if k > 0 {
      ChainsAgree(states, current, a, b, k - 1);
      var x, y := a[|a| - 1 - k], a[|a| - k];
      assert y.previous == Some(x.stateId) && y == b[|b| - k];
      assert |b| - k > 0;
      StateById(states, x, b[|b| - 1 - k]);
    }
  }

  lemma ChainIsUnique(states: seq<ConfirmedTurnState>, current: ConfirmedTurnState, a: seq<ConfirmedTurnState>,
                      b: seq<ConfirmedTurnState>)
    requires DistinctStates(states) && IsChain(states, current, a) && IsChain(states, current, b)
    ensures a == b
  {
    ChainsAgree(states, current, a, b, |a| - 1);
    ChainsAgree(states, current, b, a, |b| - 1);
    forall k | 0 <= k < |a| ensures a[k] == b[k] {
      ChainsAgree(states, current, a, b, |a| - 1 - k);
    }
  }

  lemma LinkIsUnique(r: Rows, chain: seq<ConfirmedTurnState>, turn: nat, a: Link, b: Link)
    requires CompletionsOk(r) && DistinctDeltas(r.deltas) && DistinctStates(chain)
    requires Linked(r, chain, turn, a) && Linked(r, chain, turn, b)
    ensures a == b
  {
    var i :| 0 <= i < |r.completions| && r.completions[i] == a.completion;
    var j :| 0 <= j < |r.completions| && r.completions[j] == b.completion;
    assert i == j;
  }

  // ---- the order of the rows does not matter ------------------------------------------------

  /** The same current state and the same three tables, in any order. */
  predicate Reordered(r: Rows, q: Rows) {
    && r.identity == q.identity && r.current == q.current && multiset(r.states) == multiset(q.states)
    && multiset(r.completions) == multiset(q.completions) && multiset(r.deltas) == multiset(q.deltas)
  }

  lemma Twice<T>(s: seq<T>, i: nat, j: nat)
    requires i < j < |s| && s[i] == s[j]
    ensures multiset(s)[s[i]] >= 2
  {
    assert s == s[..j] + s[j..];
    assert s[i] in s[..j] && s[i] in s[j..] by {
      assert s[..j][i] == s[i] && s[j..][0] == s[j];
    }
  }

  lemma {:induction false} Once<T>(s: seq<T>, x: T)
    requires forall i, j :: 0 <= i < j < |s| ==> s[i] != s[j]
    ensures multiset(s)[x] <= 1
  {
    if s != [] {
      var n := |s| - 1;
      Once(s[..n], x);
      assert s == s[..n] + [s[n]];
      if x == s[n] {
        assert x !in s[..n];
      }
    }
  }

  lemma SameElements<T>(s: seq<T>, t: seq<T>)
    requires multiset(s) == multiset(t)
    ensures forall x :: x in s <==> x in t
  {
    forall x ensures x in s <==> x in t {
      assert x in s <==> x in multiset(s);
      assert x in t <==> x in multiset(t);
    }
  }

  /** No row occurs twice in one order if none does in the other. */
  lemma StillOnce<T>(s: seq<T>, t: seq<T>)
    requires multiset(s) == multiset(t) && forall i, j :: 0 <= i < j < |s| ==> s[i] != s[j]
    ensures forall i, j :: 0 <= i < j < |t| ==> t[i] != t[j]
  {
    forall i, j | 0 <= i < j < |t| ensures t[i] != t[j] {
      if t[i] == t[j] {
        Twice(t, i, j);
        Once(s, t[i]);
      }
    }
  }

  lemma ReorderedStates(s: seq<ConfirmedTurnState>, t: seq<ConfirmedTurnState>)
    requires multiset(s) == multiset(t) && DistinctStates(s)
    ensures DistinctStates(t)
  {
    SameElements(s, t);
    StillOnce(s, t);
    forall i, j | 0 <= i < j < |t| ensures t[i].stateId != t[j].stateId {
      assert t[i] in s && t[j] in s;
    }
  }

  lemma ReorderedTurns(s: seq<CompletionFacts>, t: seq<CompletionFacts>)
    requires multiset(s) == multiset(t) && DistinctTurns(s)
    ensures DistinctTurns(t)
  {
    SameElements(s, t);
    StillOnce(s, t);
    forall i, j | 0 <= i < j < |t| ensures t[i].identity.turnNumber != t[j].identity.turnNumber {
      assert t[i] in s && t[j] in s;
    }
  }

  lemma ReorderedDeltas(s: seq<ActionResultDelta>, t: seq<ActionResultDelta>)
    requires multiset(s) == multiset(t) && DistinctDeltas(s)
    ensures DistinctDeltas(t)
  {
    SameElements(s, t);
    StillOnce(s, t);
    forall i, j | 0 <= i < j < |t| ensures t[i].deltaId != t[j].deltaId {
      assert t[i] in s && t[j] in s;
    }
  }

  /** A memory of the rows in one order is their memory in every order. */
  lemma ReorderedMemory(r: Rows, q: Rows, memory: seq<MemoryTurn>)
    requires Reordered(r, q) && IsMemory(r, memory)
    ensures IsMemory(q, memory)
  {
    ReorderedStates(r.states, q.states);
    ReorderedTurns(r.completions, q.completions);
    ReorderedDeltas(r.deltas, q.deltas);
    SameElements(r.states, q.states);
    SameElements(r.completions, q.completions);
    SameElements(r.deltas, q.deltas);
    var chain, links :| && IsChain(r.states, r.current, chain) && AllLinked(r, chain, links)
                        && |links| == PriorTurns(r.identity) && RowsMatch(chain, links, memory);
    assert IsChain(q.states, q.current, chain);
    forall k | 0 <= k < |links| ensures Linked(q, chain, k + 1, links[k]) {
      assert Linked(r, chain, k + 1, links[k]);
    }
    assert AllLinked(q, chain, links);
  }

  lemma MemoryIsUnique(r: Rows, a: seq<MemoryTurn>, b: seq<MemoryTurn>)
    requires IsMemory(r, a) && IsMemory(r, b)
    ensures a == b
  {
    var ca, la :| && IsChain(r.states, r.current, ca) && AllLinked(r, ca, la)
                  && |la| == PriorTurns(r.identity) && RowsMatch(ca, la, a);
    var cb, lb :| && IsChain(r.states, r.current, cb) && AllLinked(r, cb, lb)
                  && |lb| == PriorTurns(r.identity) && RowsMatch(cb, lb, b);
    ChainIsUnique(r.states, r.current, ca, cb);
    forall k | 0 <= k < |la| ensures a[k] == b[k] {
      LinkIsUnique(r, ca, k + 1, la[k], lb[k]);
    }
  }

  /** Verdict and memory are the same whatever order the three tables arrive in. */
  lemma OrderDoesNotMatter(r: Rows, q: Rows, a: seq<MemoryTurn>, b: seq<MemoryTurn>)
    requires Reordered(r, q)
    ensures HistoryOk(r) <==> HistoryOk(q)
    ensures IsMemory(r, a) && IsMemory(q, b) ==> a == b
  {
    hide IsMemory;
    if HistoryOk(r) {
      var memory :| IsMemory(r, memory);
      ReorderedMemory(r, q, memory);
    }
    if HistoryOk(q) {
      var memory :| IsMemory(q, memory);
      ReorderedMemory(q, r, memory);
    }
    if IsMemory(r, a) && IsMemory(q, b) {
      ReorderedMemory(r, q, a);
      MemoryIsUnique(q, a, b);
    }
  }

  /**
   What one memory turn says of the rows: `c` is the turn's completion, `t` the confirmed state it was reviewed on and
   `d` the delta it names.
   */
  predicate Remembers(r: Rows, turn: nat, m: MemoryTurn, c: CompletionFacts, t: ConfirmedTurnState,
                      d: ActionResultDelta)
  {
    && c in r.completions && t in r.states && d in r.deltas
    && c.identity.turnNumber == turn && c.identity.session == r.identity.session
    && c.identity.matchId == r.identity.matchId && c.identity.generation == r.identity.generation
    && t.stateId == c.basedOn && t.identity == c.identity && t != r.current
    && d.deltaId == c.deltaId && d.basedOn == c.basedOn && d.identity == c.identity
    && m.identity == c.identity && m.reviewedState == t.stateId && m.order == c.order && m.result == d
    && (Own(Active) in t.board ==> m.ownActive == t.board[Own(Active)])
    && (Own(Active) !in t.board ==> m.ownActive == Unknown([]))
    && (Opponent(Active) in t.board ==> m.opponentActive == t.board[Opponent(Active)])
    && (Opponent(Active) !in t.board ==> m.opponentActive == Unknown([]))
    && m.own == KnownAction(c.ownType, c.ownName) && !Text.IsBlank(c.ownName)
    && (m.opponent == UnknownAction <==> c.opponentType.None?)
    && (c.opponentType.Some? ==>
          && c.opponentName.Some? && m.opponent == KnownAction(c.opponentType.value, c.opponentName.value)
          && !Text.IsBlank(c.opponentName.value))
  }

  ghost predicate RemembersRows(r: Rows, turn: nat, m: MemoryTurn) {
    exists c, t, d :: Remembers(r, turn, m, c, t, d)
  }

  /** The reviewed states come in turn order along the current state's ancestors, all before it. */
  predicate ReviewedAlong(r: Rows, memory: seq<MemoryTurn>, chain: seq<ConfirmedTurnState>, at: seq<nat>) {
    && IsChain(r.states, r.current, chain) && |at| == |memory|
    && (forall k :: 0 <= k < |at| ==> at[k] < |chain| - 1 && chain[at[k]].stateId == memory[k].reviewedState)
    && (forall j, k :: 0 <= j < k < |at| ==> at[j] < at[k])
  }

  /**
   A memory is turns 1..N-1 of the current match, in order: each says what its own completion, reviewed state and
   delta rows do, and each was reviewed on a later state of the current state's ancestry than the turn before.
   */
  lemma MemoryIsPriorTurns(r: Rows, memory: seq<MemoryTurn>)
    requires IsMemory(r, memory)
    ensures |memory| == if r.identity.turnNumber == 0 then 0 else r.identity.turnNumber - 1
    ensures forall k :: 0 <= k < |memory| ==> RemembersRows(r, k + 1, memory[k])
    ensures exists chain: seq<ConfirmedTurnState>, at: seq<nat> :: ReviewedAlong(r, memory, chain, at)
  {
    var chain: seq<ConfirmedTurnState>, links: seq<Link> :|
      && IsChain(r.states, r.current, chain) && AllLinked(r, chain, links)
      && |links| == PriorTurns(r.identity) && RowsMatch(chain, links, memory);
    hide IsMemory, IsChain, Linked, RowOf, Remembers, RemembersRows;
    forall k | 0 <= k < |memory| ensures RemembersRows(r, k + 1, memory[k]) {
      LinkSays(r, chain, k + 1, links[k]);
    }
    LinksRise(r, memory, chain, links);
  }

  lemma LinksRise(r: Rows, memory: seq<MemoryTurn>, chain: seq<ConfirmedTurnState>, links: seq<Link>)
    requires IsChain(r.states, r.current, chain) && AllLinked(r, chain, links) && RowsMatch(chain, links, memory)
    ensures exists at: seq<nat> :: ReviewedAlong(r, memory, chain, at)
  {
    hide IsChain;
    var at: seq<nat> := seq(|links|, k requires 0 <= k < |links| => links[k].position);
    forall k | 0 <= k < |at| ensures at[k] < |chain| - 1 && chain[at[k]].stateId == memory[k].reviewedState {
      assert Linked(r, chain, k + 1, links[k]);
    }
    assert ReviewedAlong(r, memory, chain, at);
  }

  lemma LinkSays(r: Rows, chain: seq<ConfirmedTurnState>, turn: nat, link: Link)
    requires CompletionsOk(r) && IsChain(r.states, r.current, chain) && Linked(r, chain, turn, link)
    ensures RemembersRows(r, turn, RowOf(chain, link))
  {
    var c, t, d := link.completion, chain[link.position], link.delta;
    assert Remembers(r, turn, RowOf(chain, link), c, t, d) by {
      assert t.stateId != chain[|chain| - 1].stateId;
    }
  }

  // ---- the builder --------------------------------------------------------------------------

  predicate IndexesStates(byId: map<Id, ConfirmedTurnState>, states: seq<ConfirmedTurnState>) {
    && (forall s :: s in states ==> s.stateId in byId && byId[s.stateId] == s)
    && (forall id :: id in byId ==> byId[id] in states && byId[id].stateId == id)
  }

  method IndexStates(identity: TurnIdentity, states: seq<ConfirmedTurnState>)
      returns (r: Result<map<Id, ConfirmedTurnState>, MemoryError>)
    ensures r.Success? <==> DistinctStates(states) && forall s :: s in states ==> SameMatch(s.identity, identity)
    ensures r.Success? ==> IndexesStates(r.value, states)
  {
    var byId: map<Id, ConfirmedTurnState> := map[];
    var k := 0;
    while k < |states|
      invariant 0 <= k <= |states| && DistinctStates(states[..k]) && IndexesStates(byId, states[..k])
      invariant forall s :: s in states[..k] ==> SameMatch(s.identity, identity)
    {
      var state := states[k];
      assert states[..k + 1] == states[..k] + [state];
      if !SameMatch(state.identity, identity) {
        return Failure(ForeignConfirmedState);
      }
      if state.stateId in byId {
        ghost var j :| 0 <= j < k && states[..k][j] == byId[state.stateId];
        assert states[j].stateId == states[k].stateId;
        return Failure(DuplicateConfirmedState);
      }
      byId := byId[state.stateId := state];
      k := k + 1;
    }
    assert states[..k] == states;
    return Success(byId);
  }

  /** How far back the walk has come: `ordered`, newest first, is the tail of every chain there is. */
  ghost predicate Followed(states: seq<ConfirmedTurnState>, current: ConfirmedTurnState,
                           ordered: seq<ConfirmedTurnState>, cursor: Option<Id>)
  {
    forall chain: seq<ConfirmedTurnState> :: IsChain(states, current, chain) ==>
      && |ordered| <= |chain| && (cursor.Some? <==> |ordered| < |chain|)
      && (forall k :: 0 <= k < |ordered| ==> ordered[k] == chain[|chain| - 1 - k])
      && (cursor.Some? ==> chain[|chain| - 1 - |ordered|].stateId == cursor.value)
  }

  function Reversed<T>(s: seq<T>): (r: seq<T>)
    ensures |r| == |s| && forall k :: 0 <= k < |s| ==> r[k] == s[|s| - 1 - k]
  {
    if s == [] then [] else Reversed(s[1..]) + [s[0]]
  }

  /** The states visited so far, newest first, each naming the next one. */
  predicate Walked(states: seq<ConfirmedTurnState>, current: ConfirmedTurnState, ordered: seq<ConfirmedTurnState>,
                   cursor: Option<Id>)
  {
    && (if ordered == [] then cursor == Some(current.stateId)
        else ordered[0] == current && cursor == ordered[|ordered| - 1].previous)
    && DistinctStates(ordered) && (forall k :: 0 <= k < |ordered| ==> ordered[k] in states)
    && (forall k :: 0 < k < |ordered| ==> ordered[k - 1].previous == Some(ordered[k].stateId))
  }

  predicate SeenIds(seen: set<Id>, ordered: seq<ConfirmedTurnState>) {
    && (forall k :: 0 <= k < |ordered| ==> ordered[k].stateId in seen)
    && (forall id :: id in seen ==> exists k :: 0 <= k < |ordered| && ordered[k].stateId == id)
  }

  lemma FollowedOn(states: seq<ConfirmedTurnState>, current: ConfirmedTurnState, ordered: seq<ConfirmedTurnState>,
                   id: Id, state: ConfirmedTurnState)
    requires DistinctStates(states) && state in states && state.stateId == id
    requires Followed(states, current, ordered, Some(id))
    ensures Followed(states, current, ordered + [state], state.previous)
  {
    forall chain: seq<ConfirmedTurnState> | IsChain(states, current, chain)
      ensures |ordered| < |chain| && chain[|chain| - 1 - |ordered|] == state
      ensures state.previous.Some? <==> |ordered| + 1 < |chain|
      ensures state.previous.Some? ==> chain[|chain| - 2 - |ordered|].stateId == state.previous.value
    {
      var m := |chain| - 1 - |ordered|;
      StateById(states, chain[m], state);
      if m > 0 {
        assert chain[m].previous == Some(chain[m - 1].stateId);
      }
    }
  }

  /** A chain goes back through the states walked and on to the one the cursor names. */
  lemma ChainGoesOn(states: seq<ConfirmedTurnState>, current: ConfirmedTurnState, ordered: seq<ConfirmedTurnState>,
                    id: Id, chain: seq<ConfirmedTurnState>)
    requires Followed(states, current, ordered, Some(id)) && IsChain(states, current, chain)
    ensures exists s :: s in states && s.stateId == id
    ensures forall k :: 0 <= k < |ordered| ==> ordered[k].stateId != id
  {
    var m := |chain| - 1 - |ordered|;
    assert chain[m].stateId == id && chain[m] in states;
    forall k | 0 <= k < |ordered| ensures ordered[k].stateId != id {
      assert chain[|chain| - 1 - k] == ordered[k];
    }
  }

  /** The walk met an id again, or one that no state has: there is no chain to find. */
  lemma NoChain(states: seq<ConfirmedTurnState>, current: ConfirmedTurnState, ordered: seq<ConfirmedTurnState>, id: Id)
    requires Followed(states, current, ordered, Some(id))
    requires || (exists k :: 0 <= k < |ordered| && ordered[k].stateId == id)
             || (forall s :: s in states ==> s.stateId != id)
    ensures !exists chain :: IsChain(states, current, chain)
  {
    hide IsChain, Followed;
    forall chain: seq<ConfirmedTurnState> ensures !IsChain(states, current, chain) {
      if IsChain(states, current, chain) {
        ChainGoesOn(states, current, ordered, id, chain);
      }
    }
  }

  lemma WalkedIsChain(states: seq<ConfirmedTurnState>, current: ConfirmedTurnState, ordered: seq<ConfirmedTurnState>)
    requires Walked(states, current, ordered, None)
    ensures IsChain(states, current, Reversed(ordered))
  {
    var chain, n := Reversed(ordered), |ordered|;
    forall k | 0 < k < n ensures chain[k].previous == Some(chain[k - 1].stateId) {
      assert ordered[n - 1 - k].previous == Some(ordered[n - k].stateId);
    }
  }

  /** _walk_confirmed_state_chain: it stops because no id is visited twice. */
  method WalkChain(states: seq<ConfirmedTurnState>, current: ConfirmedTurnState, byId: map<Id, ConfirmedTurnState>)
      returns (r: Result<seq<ConfirmedTurnState>, MemoryError>)
    requires IndexesStates(byId, states) && DistinctStates(states) && current in states
    ensures r.Success? ==> IsChain(states, current, r.value)
    ensures r.Failure? ==> !exists chain :: IsChain(states, current, chain)
  {
    hide IsChain, Followed;
    var ordered: seq<ConfirmedTurnState> := [];
    var seen: set<Id> := {};
    var cursor := Some(current.stateId);
    FollowedFirst(states, current);
    while cursor.Some?
      invariant seen <= byId.Keys && SeenIds(seen, ordered)
      invariant Walked(states, current, ordered, cursor) && Followed(states, current, ordered, cursor)
      decreases byId.Keys - seen
    {
      var id := cursor.value;
      if id in seen {
        NoChain(states, current, ordered, id);
        return Failure(ChainCycle);
      }
      if id !in byId {
        NoChain(states, current, ordered, id);
        return Failure(BrokenChain);
      }
      var state := byId[id];
      FollowedOn(states, current, ordered, id, state);
      WalkedOn(states, current, ordered, id, state, seen);
      seen := seen + {id};
      ordered := ordered + [state];
      cursor := state.previous;
    }
    WalkedIsChain(states, current, ordered);
    return Success(Reversed(ordered));
  }

  lemma FollowedFirst(states: seq<ConfirmedTurnState>, current: ConfirmedTurnState)
    ensures Followed(states, current, [], Some(current.stateId))
  {
  }

  lemma WalkedOn(states: seq<ConfirmedTurnState>, current: ConfirmedTurnState, ordered: seq<ConfirmedTurnState>,
                 id: Id, state: ConfirmedTurnState, seen: set<Id>)
    requires Walked(states, current, ordered, Some(id)) && SeenIds(seen, ordered) && id !in seen
    requires state in states && state.stateId == id && (ordered == [] ==> state == current)
    ensures Walked(states, current, ordered + [state], state.previous) && SeenIds(seen + {id}, ordered + [state])
  {
    var ordered' := ordered + [state];
    forall i | i in seen + {id} ensures exists k :: 0 <= k < |ordered'| && ordered'[k].stateId == i {
      if i == id {
        assert ordered'[|ordered|].stateId == i;
      } else {
        var k :| 0 <= k < |ordered| && ordered[k].stateId == i;
        assert ordered'[k].stateId == i;
      }
    }
  }

  predicate IndexesPositions(positions: map<Id, nat>, chain: seq<ConfirmedTurnState>) {
    && (forall k :: 0 <= k < |chain| ==> chain[k].stateId in positions && positions[chain[k].stateId] == k)
    && (forall id :: id in positions ==> positions[id] < |chain| && chain[positions[id]].stateId == id)
  }

  method IndexPositions(chain: seq<ConfirmedTurnState>) returns (positions: map<Id, nat>)
    requires DistinctStates(chain)
    ensures IndexesPositions(positions, chain)
  {
    positions := map[];
    var k := 0;
    while k < |chain|
      invariant 0 <= k <= |chain| && IndexesPositions(positions, chain[..k])
    {
      assert chain[..k + 1] == chain[..k] + [chain[k]];
      positions := positions[chain[k].stateId := k];
      k := k + 1;
    }
    assert chain[..k] == chain;
  }

  predicate IndexesTurns(byTurn: map<nat, CompletionFacts>, completions: seq<CompletionFacts>) {
    && (forall c :: c in completions ==> c.identity.turnNumber in byTurn && byTurn[c.identity.turnNumber] == c)
    && (forall n :: n in byTurn ==> byTurn[n] in completions && byTurn[n].identity.turnNumber == n)
  }

  method IndexCompletions(identity: TurnIdentity, completions: seq<CompletionFacts>)
      returns (r: Result<map<nat, CompletionFacts>, MemoryError>)
    ensures r.Success? <==>
              && DistinctTurns(completions)
              && forall c :: c in completions ==>
                   SameMatch(c.identity, identity) && c.identity.turnNumber < identity.turnNumber
    ensures r.Success? ==> IndexesTurns(r.value, completions)
  {
    var byTurn: map<nat, CompletionFacts> := map[];
    var k := 0;
    while k < |completions|
      invariant 0 <= k <= |completions| && DistinctTurns(completions[..k]) && IndexesTurns(byTurn, completions[..k])
      invariant forall c :: c in completions[..k] ==>
                  SameMatch(c.identity, identity) && c.identity.turnNumber < identity.turnNumber
    {
      var completion := completions[k];
      assert completions[..k + 1] == completions[..k] + [completion];
      if !SameMatch(completion.identity, identity) {
        return Failure(ForeignCompletion);
      }
      if completion.identity.turnNumber >= identity.turnNumber {
        return Failure(CurrentOrFutureCompletion);
      }
      if completion.identity.turnNumber in byTurn {
        ghost var j :| 0 <= j < k && completions[..k][j] == byTurn[completion.identity.turnNumber];
        assert completions[j].identity.turnNumber == completions[k].identity.turnNumber;
        return Failure(DuplicateTurnCompletion);
      }
      byTurn := byTurn[completion.identity.turnNumber := completion];
      k := k + 1;
    }
    assert completions[..k] == completions;
    return Success(byTurn);
  }

  predicate IndexesDeltas(byId: map<Id, ActionResultDelta>, deltas: seq<ActionResultDelta>) {
    && (forall d :: d in deltas ==> d.deltaId in byId && byId[d.deltaId] == d)
    && (forall id :: id in byId ==> byId[id] in deltas && byId[id].deltaId == id)
  }

  function CountOn(deltas: seq<ActionResultDelta>, state: Id): nat {
    if deltas == [] then 0
    else CountOn(deltas[..|deltas| - 1], state) + if deltas[|deltas| - 1].basedOn == state then 1 else 0
  }

  ghost predicate Counts(perState: map<Id, nat>, deltas: seq<ActionResultDelta>) {
    forall id :: (if id in perState then perState[id] else 0) == CountOn(deltas, id)
  }

  lemma CountsNext(perState: map<Id, nat>, deltas: seq<ActionResultDelta>, delta: ActionResultDelta)
    requires Counts(perState, deltas)
    ensures Counts(perState[delta.basedOn := 1 + if delta.basedOn in perState then perState[delta.basedOn] else 0],
                   deltas + [delta])
  {
    assert (deltas + [delta])[..|deltas|] == deltas;
  }

  method IndexDeltas(deltas: seq<ActionResultDelta>)
      returns (r: Result<(map<Id, ActionResultDelta>, map<Id, nat>), MemoryError>)
    ensures r.Success? <==> DistinctDeltas(deltas)
    ensures r.Success? ==> IndexesDeltas(r.value.0, deltas) && Counts(r.value.1, deltas)
  {
    var byId: map<Id, ActionResultDelta>, perState: map<Id, nat> := map[], map[];
    assert Counts(perState, deltas[..0]);
    hide Counts;
    var k := 0;
    while k < |deltas|
      invariant 0 <= k <= |deltas| && DistinctDeltas(deltas[..k])
      invariant IndexesDeltas(byId, deltas[..k]) && Counts(perState, deltas[..k])
    {
      var delta := deltas[k];
      assert deltas[..k + 1] == deltas[..k] + [delta];
      if delta.deltaId in byId {
        ghost var j :| 0 <= j < k && deltas[..k][j] == byId[delta.deltaId];
        assert deltas[j].deltaId == deltas[k].deltaId;
        return Failure(DuplicateDeltaId);
      }
      byId := byId[delta.deltaId := delta];
      CountsNext(perState, deltas[..k], delta);
      perState := perState[delta.basedOn := 1 + if delta.basedOn in perState then perState[delta.basedOn] else 0];
      k := k + 1;
    }
    assert deltas[..k] == deltas;
    return Success((byId, perState));
  }

  lemma {:induction false} NoneOn(deltas: seq<ActionResultDelta>, state: Id)
    ensures CountOn(deltas, state) == 0 <==> forall e :: e in deltas ==> e.basedOn != state
  {
    if deltas != [] {
      var n := |deltas| - 1;
      NoneOn(deltas[..n], state);
      assert deltas == deltas[..n] + [deltas[n]];
    }
  }

  /** The count over a state is one exactly when the linked delta is the only one based on it. */
  lemma {:induction false} OneOn(deltas: seq<ActionResultDelta>, d: ActionResultDelta)
    requires DistinctDeltas(deltas) && d in deltas
    ensures CountOn(deltas, d.basedOn) == 1 <==> forall e :: e in deltas && e.basedOn == d.basedOn ==> e == d
  {
    var n := |deltas| - 1;
    var init, last := deltas[..n], deltas[n];
    assert deltas == init + [last];
    NoneOn(init, d.basedOn);
    if d in init {
      OneOn(init, d);
      var j :| 0 <= j < n && deltas[j] == d;
      assert last != d;
    }
  }

  /** The indexes the main loop reads. */
  datatype Index = Index(states: map<Id, ConfirmedTurnState>, positions: map<Id, nat>,
                         completions: map<nat, CompletionFacts>, deltas: map<Id, ActionResultDelta>,
                         perState: map<Id, nat>)

  ghost predicate Indexed(r: Rows, chain: seq<ConfirmedTurnState>, x: Index) {
    && StatesOk(r) && CompletionsOk(r) && DistinctDeltas(r.deltas) && IsChain(r.states, r.current, chain)
    && IndexesStates(x.states, r.states) && IndexesPositions(x.positions, chain)
    && IndexesTurns(x.completions, r.completions) && IndexesDeltas(x.deltas, r.deltas) && Counts(x.perState, r.deltas)
  }

  /** One turn of the main loop; a failure leaves no link after `previous`, the last turn's position. */
  method LinkTurn(ghost r: Rows, ghost chain: seq<ConfirmedTurnState>, x: Index, last: nat, turn: nat, previous: int)
      returns (link: Result<Link, MemoryError>)
    requires Indexed(r, chain, x) && last == |chain| - 1
    ensures link.Success? ==> Linked(r, chain, turn, link.value) && link.value.position > previous
    ensures link.Failure? ==> forall l :: Linked(r, chain, turn, l) ==> l.position <= previous
  {
    assert forall k :: 0 <= k < |chain| ==> chain[k].stateId in x.states && x.states[chain[k].stateId] == chain[k];
    hide IsChain;
    if turn !in x.completions {
      return Failure(MissingCompletion);
    }
    var c := x.completions[turn];
    if c.basedOn !in x.states {
      return Failure(ReviewedStateNotFound);
    }
    if x.states[c.basedOn].identity != c.identity {
      return Failure(ReviewedStateIdentityMismatch);
    }
    if c.basedOn !in x.positions {
      return Failure(ReviewedStateOutsideChain);
    }
    var position := x.positions[c.basedOn];
    if position <= previous || position >= last {
      return Failure(BrokenChain);
    }
    if c.deltaId !in x.deltas {
      return Failure(MissingLinkedDelta);
    }
    var d := x.deltas[c.deltaId];
    if d.basedOn != c.basedOn {
      return Failure(DeltaNotBasedOnReviewedState);
    }
    if d.identity != c.identity {
      return Failure(DeltaIdentityMismatch);
    }
    OneOn(r.deltas, d);
    if (if c.basedOn in x.perState then x.perState[c.basedOn] else 0) != 1 {
      return Failure(AmbiguousDelta);
    }
    if !NamesOk(c) {
      return Failure(ActionNameRequired);
    }
    return Success(Link(c, position, d));
  }

  /** The three tables indexed and the chain walked; a failure means there is no memory to build. */
  method IndexRows(r: Rows) returns (indexed: Result<(seq<ConfirmedTurnState>, Index), MemoryError>)
    ensures indexed.Success? ==> indexed.value.0 != [] && Indexed(r, indexed.value.0, indexed.value.1)
    ensures indexed.Failure? ==> !HistoryOk(r)
  {
    if r.current.identity != r.identity {
      return Failure(CurrentStateIdentityMismatch);
    }
    var states :- IndexStates(r.identity, r.states);
    if r.current.stateId !in states || states[r.current.stateId] != r.current {
      return Failure(CurrentStateNotInHistory);
    }
    var chain :- WalkChain(r.states, r.current, states);
    var positions := IndexPositions(chain);
    var completions :- IndexCompletions(r.identity, r.completions);
    var deltas :- IndexDeltas(r.deltas);
    return Success((chain, Index(states, positions, completions, deltas.0, deltas.1)));
  }

  lemma OneMoreLink(r: Rows, chain: seq<ConfirmedTurnState>, links: seq<Link>, rows: seq<MemoryTurn>, link: Link)
    requires AllLinked(r, chain, links) && RowsMatch(chain, links, rows) && Linked(r, chain, |links| + 1, link)
    requires links != [] ==> link.position > links[|links| - 1].position
    ensures AllLinked(r, chain, links + [link]) && RowsMatch(chain, links + [link], rows + [RowOf(chain, link)])
  {
  }

  /** The memory a request carries, or the refusal: it is built exactly when the history condition holds. */
  method BuildBattleMemory(r: Rows) returns (memory: Result<seq<MemoryTurn>, MemoryError>)
    ensures memory.Success? <==> HistoryOk(r)
    ensures memory.Success? ==> IsMemory(r, memory.value)
    ensures memory.Success? ==> forall k :: 0 <= k < |memory.value| ==> RemembersRows(r, k + 1, memory.value[k])
  {
    hide IsChain, HistoryOk, IsMemory, AllLinked, RowsMatch, RowOf, RemembersRows, ReviewedAlong;
    var indexed :- IndexRows(r);
    var chain, x := indexed.0, indexed.1;
    var rows, turn := [], 1;
    var previous: int := -1;
    ghost var links: seq<Link> := [];
    NoLinksYet(r, chain);
    while turn < r.identity.turnNumber
      invariant 1 <= turn && (turn <= r.identity.turnNumber || turn == 1) && |links| == turn - 1
      invariant AllLinked(r, chain, links) && RowsMatch(chain, links, rows)
      invariant previous == if links == [] then -1 else links[|links| - 1].position
    {
      var link := LinkTurn(r, chain, x, |chain| - 1, turn, previous);
      if link.Failure? {
        NoMemoryPast(r, chain, links, previous);
        return Failure(link.error);
      }
      OneMoreLink(r, chain, links, rows, link.value);
      rows := rows + [RowOf(chain, link.value)];
      links := links + [link.value];
      previous := link.value.position;
      turn := turn + 1;
    }
    Assembled(r, chain, links, rows);
    MemoryIsPriorTurns(r, rows);
    return Success(rows);
  }

  lemma NoLinksYet(r: Rows, chain: seq<ConfirmedTurnState>)
    ensures AllLinked(r, chain, []) && RowsMatch(chain, [], [])
  {
  }

  lemma Assembled(r: Rows, chain: seq<ConfirmedTurnState>, links: seq<Link>, memory: seq<MemoryTurn>)
    requires StatesOk(r) && CompletionsOk(r) && DistinctDeltas(r.deltas) && IsChain(r.states, r.current, chain)
    requires AllLinked(r, chain, links) && |links| == PriorTurns(r.identity) && RowsMatch(chain, links, memory)
    ensures IsMemory(r, memory) && HistoryOk(r)
  {
    assert IsMemory(r, memory);
  }

  /** Every link there could be for the next turn lies at or before the one before it. */
  lemma NoMemoryPast(r: Rows, chain: seq<ConfirmedTurnState>, links: seq<Link>, previous: int)
    requires StatesOk(r) && CompletionsOk(r) && DistinctDeltas(r.deltas) && IsChain(r.states, r.current, chain)
    requires AllLinked(r, chain, links) && |links| < PriorTurns(r.identity)
    requires previous == if links == [] then -1 else links[|links| - 1].position
    requires forall l :: Linked(r, chain, |links| + 1, l) ==> l.position <= previous
    ensures !HistoryOk(r)
  {
    if HistoryOk(r) {
      var memory :| IsMemory(r, memory);
      var other, all :| && IsChain(r.states, r.current, other) && AllLinked(r, other, all)
                        && |all| == PriorTurns(r.identity) && RowsMatch(other, all, memory);
      ChainIsUnique(r.states, r.current, chain, other);
      assert Linked(r, chain, |links| + 1, all[|links|]);
      if links != [] {
        assert Linked(r, chain, |links|, all[|links| - 1]) && Linked(r, chain, |links|, links[|links| - 1]);
        LinkIsUnique(r, chain, |links|, all[|links| - 1], links[|links| - 1]);
      }
      assert false;
    }
  }
}
