/** What the rows say, and what an export reads of a recorded turn, under the rows a command adds. */
module Content {
  import opened Basics
  import opened TurnState
  import opened Records
  import opened Store
  import opened Commands
  import opened Invariant
  import opened Evolution

  predicate SameSelection(x: Session, y: Session) {
    y.applied == x.applied && (x.applied.Some? ==> y.reviewedSelection == x.reviewedSelection)
  }

  predicate SameRows(s: Store, s': Store) {
    && s'.selectionFacts == s.selectionFacts && s'.applied == s.applied && s'.facts == s.facts
    && s'.advices == s.advices && s'.actions == s.actions
  }

  lemma SavedContent(s: Store, i: nat, y: Session, s': Store)
    requires ContentInv(s) && SameRows(s, s') && i < |s.sessions| && s'.sessions == s.sessions[i := y]
    requires SameSelection(s.sessions[i], y)
    ensures ContentInv(s')
  {
  }

  lemma InsertedContent(s: Store, z: Session, s': Store)
    requires ContentInv(s) && SameRows(s, s') && s'.sessions == s.sessions + [z] && z.applied == None
    ensures ContentInv(s')
  {
  }

  lemma SelectionContent(s: Store, i: nat, y: Session, f: SelectionFacts)
    requires ContentInv(s) && i < |s.sessions| && s.sessions[i].applied == None && y.applied == None
    requires ValidTeams(f.selfTeam, f.opponentTeam, f.build)
    ensures ContentInv(Save(s, i, y).(selectionFacts := s.selectionFacts + [f]))
  {
  }

  lemma AppliedContent(s: Store, i: nat, y: Session, row: AppliedSelection)
    requires ContentInv(s) && i < |s.sessions| && s.sessions[i].applied == None && y.applied == Some(|s.applied|)
    requires y.reviewedSelection.Some? && y.reviewedSelection.value < |s.selectionFacts|
    requires ThreeOf(row.three, row.lead, s.selectionFacts[y.reviewedSelection.value].selfTeam)
    ensures ContentInv(Save(s, i, y).(applied := s.applied + [row]))
  {
  }

  lemma SettledByBoard(s: Store, f: TurnFacts, s': Store)
    requires !HasAction(s.actions, f.turn) && s'.facts == s.facts + [f]
    requires s'.advices == s.advices && s'.actions == s.actions
    ensures TurnsFrozen(s, s')
  {
    forall k | 0 <= k < |s.actions|
      ensures LatestFacts(s'.facts, s.actions[k].turn) == LatestFacts(s.facts, s.actions[k].turn)
    {
      LatestFactsAdded(s.facts, f, s.actions[k].turn);
    }
  }

  lemma SettledByAdvice(s: Store, a: TurnAdvice, s': Store)
    requires !HasAction(s.actions, a.turn) && s'.advices == s.advices + [a]
    requires s'.facts == s.facts && s'.actions == s.actions
    ensures TurnsFrozen(s, s')
  {
    forall k | 0 <= k < |s.actions|
      ensures LatestAdvice(s'.advices, s.actions[k].turn) == LatestAdvice(s.advices, s.actions[k].turn)
    {
      LatestAdviceAdded(s.advices, a, s.actions[k].turn);
    }
  }

  /** A settled turn's recorded action stays backed. */
  lemma StillBacked(s: Store, s': Store, k: nat)
    requires k < |s.actions| && ActionBacked(s.actions[k], s.facts, s.advices) && TurnsFrozen(s, s')
    ensures ActionBacked(s.actions[k], s'.facts, s'.advices)
  {
  }

  lemma BoardContent(s: Store, i: nat, y: Session, f: TurnFacts, s': Store)
    requires ContentInv(s) && i < |s.sessions| && y.applied.Some? && y.applied.value < |s.applied|
    requires SameSelection(s.sessions[i], y) && f.turn.session == i && ValidTurnFacts(f)
    requires f.selfActive in s.applied[y.applied.value].three && !HasAction(s.actions, f.turn)
    requires s'.sessions == s.sessions[i := y] && s'.facts == s.facts + [f] && s'.selectionFacts == s.selectionFacts
    requires s'.applied == s.applied && s'.advices == s.advices && s'.actions == s.actions
    ensures ContentInv(s') && TurnsFrozen(s, s')
  {
    SettledByBoard(s, f, s');
    forall k | 0 <= k < |s'.actions| ensures ActionBacked(s'.actions[k], s'.facts, s'.advices) {
      StillBacked(s, s', k);
    }
    assert ActiveFits(f, s'.sessions, s'.applied);
    forall k | 0 <= k < |s'.facts| ensures ValidTurnFacts(s'.facts[k]) && ActiveFits(s'.facts[k], s'.sessions, s'.applied) {
      if k < |s.facts| {
        assert ValidTurnFacts(s.facts[k]) && ActiveFits(s.facts[k], s.sessions, s.applied);
      }
    }
  }

  lemma AdviceContent(s: Store, i: nat, y: Session, a: TurnAdvice, s': Store)
    requires ContentInv(s) && i < |s.sessions| && SameSelection(s.sessions[i], y) && !HasAction(s.actions, a.turn)
    requires s'.sessions == s.sessions[i := y] && s'.advices == s.advices + [a]
    requires s'.selectionFacts == s.selectionFacts && s'.applied == s.applied
    requires s'.facts == s.facts && s'.actions == s.actions
    ensures ContentInv(s') && TurnsFrozen(s, s')
  {
    SettledByAdvice(s, a, s');
    forall k | 0 <= k < |s'.actions| ensures ActionBacked(s'.actions[k], s'.facts, s'.advices) {
      StillBacked(s, s', k);
    }
  }

  /** What RecordAction checks makes the new action backed by the session's current board and advice. */
  lemma CurrentBacked(ss: seq<Session>, i: nat, turns: seq<TurnId>, facts: seq<TurnFacts>, advices: seq<TurnAdvice>,
                      a: RecordedAction)
    requires FactRows(ss, turns, facts) && AdviceRows(ss, turns, advices) && i < |ss|
    requires ss[i].turn == Some(a.turn) && ss[i].reviewedBoard.Some? && ss[i].turnAdvice.Some?
    requires ss[i].reviewedBoard.value < |facts|
    requires LegalIn(facts[ss[i].reviewedBoard.value], a.own.actionType, a.own.name)
    ensures ActionBacked(a, facts, advices)
  {
    assert IsCurrentAdvice(ss[i], advices);
  }

  lemma ActionContent(s: Store, i: nat, y: Session, a: RecordedAction, s': Store)
    requires ContentInv(s) && i < |s.sessions| && SameSelection(s.sessions[i], y)
    requires ActionBacked(a, s.facts, s.advices)
    requires s'.sessions == s.sessions[i := y] && s'.actions == s.actions + [a]
    requires s'.selectionFacts == s.selectionFacts && s'.applied == s.applied
    requires s'.facts == s.facts && s'.advices == s.advices
    ensures ContentInv(s') && TurnsFrozen(s, s')
  {
  }
}
