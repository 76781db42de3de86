/** What holds over whole runs of commands, whatever the commands, results and restarts are. */
module Guarantees {
  import opened Basics
  import opened TurnState
  import opened Records
  import opened Store
  import opened Commands
  import opened Invariant
  import opened Evolution
  import opened Effects
  import opened Preservation
  import opened Lanes
  import opened Steps

  // ---- runs ---------------------------------------------------------------------------------

  predicate Final(status: JobStatus) {
    !IsPending(status)
  }

  predicate LaterSession(x: Session, y: Session) {
    && SameIdentity(x, y) && y.battleRevision >= x.battleRevision
    && (y.battleRevision == x.battleRevision ==> SameCore(x, y))
    && (x.applied.Some? ==> y.applied == x.applied && y.reviewedSelection == x.reviewedSelection)
    && (Over(x) ==> Over(y) && SamePointers(x, y))
  }

  predicate LaterJob(j: Job, k: Job) {
    && k == j.(status := k.status, dispatchCount := k.dispatchCount)
    && (Final(j.status) ==> k == j)
  }

  /** The job is not made yet, or not yet final. */
  predicate Open(s: Store, job: nat) {
    job < |s.jobs| ==> !Final(s.jobs[job].status)
  }

  /** What a run leaves of the repository it started from. */
  predicate Later(s: Store, s': Store) {
    && |s.sessions| <= |s'.sessions| && (forall i :: 0 <= i < |s.sessions| ==> LaterSession(s.sessions[i], s'.sessions[i]))
    && |s.jobs| <= |s'.jobs| && (forall k :: 0 <= k < |s.jobs| ==> LaterJob(s.jobs[k], s'.jobs[k]))
    && |s.audits| <= |s'.audits| && (forall p :: 0 <= p < |s.audits| ==> s'.audits[p] == s.audits[p])
    && (forall p :: |s.audits| <= p < |s'.audits| && Decisive(s'.audits[p].disposition) ==> Open(s, s'.audits[p].job))
    && TurnsFrozen(s, s') && TablesGrow(s, s')
  }

  lemma EvolvedIsLater(s: Store, s': Store)
    requires Evolves(s, s')
    ensures Later(s, s')
  {
    forall k | 0 <= k < |s.jobs| ensures LaterJob(s.jobs[k], s'.jobs[k]) {
      assert JobMoves(s.jobs[k], s'.jobs[k]);
    }
    forall i | 0 <= i < |s.sessions| ensures LaterSession(s.sessions[i], s'.sessions[i]) {
      assert Revised(s.sessions[i], s'.sessions[i]);
    }
  }

  lemma SelfIsLater(s: Store)
    ensures Later(s, s)
  {
  }

  lemma LaterChains(a: Store, b: Store, c: Store)
    requires Later(a, b) && Later(b, c)
    ensures Later(a, c)
  {
    forall i | 0 <= i < |a.sessions| ensures LaterSession(a.sessions[i], c.sessions[i]) {
      assert LaterSession(a.sessions[i], b.sessions[i]) && LaterSession(b.sessions[i], c.sessions[i]);
    }
    forall k | 0 <= k < |a.jobs| ensures LaterJob(a.jobs[k], c.jobs[k]) {
      assert LaterJob(a.jobs[k], b.jobs[k]) && LaterJob(b.jobs[k], c.jobs[k]);
    }
    forall p | |a.audits| <= p < |c.audits| && Decisive(c.audits[p].disposition) ensures Open(a, c.audits[p].job) {
      var job := c.audits[p].job;
      if job < |a.jobs| {
        assert LaterJob(a.jobs[job], b.jobs[job]);
      }
    }
    assert TurnsFrozen(a, c) && TablesGrow(a, c);
  }

  /** Every run keeps the invariant, never lowers a revision and never reopens what is final. */
  lemma {:induction false} RunKeeps(s: Store, commands: seq<Command>)
    requires Inv(s)
    ensures Inv(Run(s, commands)) && Later(s, Run(s, commands))
    decreases |commands|
  {
    hide Execute, Step, BattleInv, LaneInv, JobRows, ContentInv, Evolves, Later;
    if commands == [] {
      SelfIsLater(s);
    } else {
      var mid := Step(s, commands[0]);
      StepSteps(s, commands[0]);
      EvolvedIsLater(s, mid);
      RunKeeps(mid, commands[1..]);
      LaterChains(s, mid, Run(mid, commands[1..]));
    }
  }

  lemma {:induction false} RunSplits(s: Store, first: seq<Command>, second: seq<Command>)
    ensures Run(s, first + second) == Run(Run(s, first), second)
    decreases |first|
  {
    hide Step;
    if first == [] {
      assert first + second == second;
    } else {
      assert (first + second)[1..] == first[1..] + second;
      RunSplits(Step(s, first[0]), first[1..], second);
    }
  }

  ghost predicate Reachable(s: Store) {
    exists commands :: s == Run(EMPTY, commands)
  }

  lemma ReachableIsSound(s: Store)
    requires Reachable(s)
    ensures Inv(s)
  {
    hide Inv, Run;
    var commands :| s == Run(EMPTY, commands);
    EmptyStoreOk();
    RunKeeps(EMPTY, commands);
  }

  // ---- stale results ------------------------------------------------------------------------

  lemma NewJobIsCurrent(s: Store, c: Command)
    requires Inv(s) && |Step(s, c).jobs| == |s.jobs| + 1
    ensures NewJob(s, Step(s, c).jobs[|s.jobs|]) && Step(s, c).sessions == s.sessions
  {
    hide Execute, Step, Inv;
    StepSteps(s, c);
  }

  lemma AppliedIsDecidable(s: Store, c: Command)
    requires Inv(s) && |Step(s, c).audits| == |s.audits| + 1
    requires Step(s, c).audits[|s.audits|].disposition == Applied
    ensures Decidable(s, Step(s, c).audits[|s.audits|].job)
  {
    hide Execute, Step, Inv;
    StepSteps(s, c);
  }

  /**
   A result applied for a job proves that nothing happened to the job's match since the job was created:
   at every point between, its state, revision and every pointer were those of the creation.
   */
  lemma AppliedMeansUntouched(s: Store, create: Command, made: Store, before: seq<Command>, mid: Store,
                              after: seq<Command>, late: Store, c: Command, end: Store)
    requires Reachable(s) && made == Step(s, create) && |made.jobs| == |s.jobs| + 1
    requires mid == Run(made, before) && late == Run(mid, after) && end == Step(late, c)
    requires |end.audits| == |late.audits| + 1
    requires end.audits[|late.audits|].disposition == Applied && end.audits[|late.audits|].job == |s.jobs|
    ensures var i := made.jobs[|s.jobs|].session;
            && i < |made.sessions| && i < |mid.sessions| && i < |late.sessions|
            && SameCore(made.sessions[i], mid.sessions[i]) && SameCore(mid.sessions[i], late.sessions[i])
  {
    hide Run, Step, Inv;
    var j, i := |s.jobs|, made.jobs[|s.jobs|].session;
    ReachableIsSound(s);
    StepSteps(s, create);
    NewJobIsCurrent(s, create);
    RunKeeps(made, before);
    RunKeeps(mid, after);
    AppliedIsDecidable(late, c);
    assert LaterJob(made.jobs[j], mid.jobs[j]) && LaterJob(mid.jobs[j], late.jobs[j]);
    assert LaterSession(made.sessions[i], mid.sessions[i]) && LaterSession(mid.sessions[i], late.sessions[i]);
  }

  /** In every lane, a result for a job that is not decidable now leaves one audit row and nothing else. */
  lemma StaleResultIsOnlyNoted(s: Store, r: ResultEnvelope, rebuilt: Option<Action>, s': Store)
    requires Inv(s) && !Decidable(s, r.jobId)
    requires || ApplySelectionResult(s, r) == Success(s')
             || ApplyTurnResult(s, r) == Success(s')
             || ApplyRichTurnResult(s, r, rebuilt) == Success(s')
    ensures OnlyNoted(s, r, s')
  {
    hide Inv, ApplySelectionResult, ApplyTurnResult, ApplyRichTurnResult;
    if ApplySelectionResult(s, r) == Success(s') {
      SelectionResultEffect(s, r, s');
      if !OnlyNoted(s, r, s') {
        StateAtJob(s, SelectionAdviceJob, r);
      }
    } else {
      var a: TurnAdvice;
      if ApplyTurnResult(s, r) == Success(s') {
        a := TurnResultEffect(s, r, s');
      } else {
        a := RichResultEffect(s, r, rebuilt, s');
      }
      if !OnlyNoted(s, r, s') {
        StateAtJob(s, TurnAdviceJob, r);
      }
    }
  }

  // ---- jobs: exactly once -------------------------------------------------------------------

  function Decisions(audits: seq<Audit>, job: nat): nat {
    if audits == [] then 0
    else
      var last := audits[|audits| - 1];
      Decisions(audits[..|audits| - 1], job) + if last.job == job && Decisive(last.disposition) then 1 else 0
  }

  lemma {:induction false} NoDecision(audits: seq<Audit>, job: nat)
    requires forall p :: 0 <= p < |audits| && audits[p].job == job ==> !Decisive(audits[p].disposition)
    ensures Decisions(audits, job) == 0
  {
    if audits != [] {
      NoDecision(audits[..|audits| - 1], job);
    }
  }

  lemma {:induction false} OneDecision(jobs: seq<Job>, audits: seq<Audit>, job: nat)
    requires AuditRows(jobs, audits)
    ensures Decisions(audits, job) <= 1
  {
    if audits != [] {
      var n := |audits| - 1;
      if audits[n].job == job && Decisive(audits[n].disposition) {
        NoDecision(audits[..n], job);
      } else {
        assert AuditRows(jobs, audits[..n]);
        OneDecision(jobs, audits[..n], job);
      }
    }
  }

  /** Per job, in any reachable repository: at most one decision, and the dispatch count its status tells. */
  lemma JobsActOnce(s: Store, k: nat)
    requires Reachable(s) && k < |s.jobs|
    ensures Decisions(s.audits, k) <= 1
    ensures s.jobs[k].dispatchCount <= 1
    ensures s.jobs[k].status == Queued || s.jobs[k].status == Interrupted ==> s.jobs[k].dispatchCount == 0
    ensures s.jobs[k].status == InFlight || s.jobs[k].status == DeliveryUnknown ==> s.jobs[k].dispatchCount == 1
  {
    ReachableIsSound(s);
    OneDecision(s.jobs, s.audits, k);
    assert JobBound(s.jobs[k], s.sessions);
  }

  /** A final job never changes again and is never decided again, across restarts and late results. */
  lemma FinalJobsStayFinal(s: Store, commands: seq<Command>, k: nat, p: nat)
    requires Reachable(s) && k < |s.jobs| && Final(s.jobs[k].status)
    ensures k < |Run(s, commands).jobs| && Run(s, commands).jobs[k] == s.jobs[k]
    ensures |s.audits| <= p < |Run(s, commands).audits| && Run(s, commands).audits[p].job == k ==>
              !Decisive(Run(s, commands).audits[p].disposition)
  {
    hide Run, Inv;
    ReachableIsSound(s);
    RunKeeps(s, commands);
    assert LaterJob(s.jobs[k], Run(s, commands).jobs[k]);
  }

  /** Only the newest job of a session's lane can still be waiting. */
  lemma OnlyTheNewestWaits(s: Store, k: nat)
    requires Reachable(s) && k < |s.jobs| && IsPending(s.jobs[k].status)
    ensures forall m :: k < m < |s.jobs| ==> !IsJobOf(s.jobs[m], s.jobs[k].session, s.jobs[k].jobType)
  {
    ReachableIsSound(s);
    assert Blocking(s.jobs[k]);
  }

  /** An unknown Selection delivery: no further Selection job for that match, which can only be aborted. */
  lemma UnknownDeliverySticks(s: Store, commands: seq<Command>, k: nat)
    requires Reachable(s) && k < |s.jobs|
    requires s.jobs[k].jobType == SelectionAdviceJob && s.jobs[k].status == DeliveryUnknown
    ensures var late, i := Run(s, commands), s.jobs[k].session;
            && i < |late.sessions| && (late.sessions[i].state == SelectionOpen || late.sessions[i].state == Aborted)
            && |s.jobs| <= |late.jobs|
            && forall m :: k < m < |late.jobs| ==> !IsJobOf(late.jobs[m], i, SelectionAdviceJob)
  {
    hide Run;
    var late := Run(s, commands);
    ReachableIsSound(s);
    RunKeeps(s, commands);
    assert LaterJob(s.jobs[k], late.jobs[k]);
    assert Blocking(late.jobs[k]) && JobBound(late.jobs[k], late.sessions);
  }

  // ---- the attempt ledgers ------------------------------------------------------------------

  predicate SameTurnRound(j: Job, k: Job) {
    && j.session == k.session && j.matchId == k.matchId && j.generation == k.generation
    && j.turnNumber == k.turnNumber && j.snapshot == k.snapshot
  }

  /** At most one Turn Advice job per reviewed snapshot of a turn, though the ledger's key also has the revision. */
  lemma OneTurnJobPerSnapshot(s: Store, p: nat, q: nat)
    requires Reachable(s) && p < |s.jobs| && q < |s.jobs|
    requires s.jobs[p].jobType == TurnAdviceJob && s.jobs[q].jobType == TurnAdviceJob
    requires SameTurnRound(s.jobs[p], s.jobs[q])
    ensures p == q
  {
    ReachableIsSound(s);
    TurnJobOwnsRound(s.jobs, s.turnLedger, p, q);
  }

  lemma TurnJobOwnsRound(jobs: seq<Job>, ledger: seq<TurnLedgerRow>, p: nat, q: nat)
    requires TurnLedgerRows(jobs, ledger) && p < |jobs| && q < |jobs|
    requires jobs[p].jobType == TurnAdviceJob && jobs[q].jobType == TurnAdviceJob && SameTurnRound(jobs[p], jobs[q])
    ensures p == q
  {
    var m :| 0 <= m < |ledger| && ledger[m].job == p;
    var n :| 0 <= n < |ledger| && ledger[n].job == q;
    assert LedgerRowOf(ledger[m], jobs[p]) && LedgerRowOf(ledger[n], jobs[q]);
  }

  /**
   A round's production Selection jobs form a chain: each was created after its predecessor, the round's
   previous job, had ended in an allowlisted transient failure; and the ledger names the chain's last job.
   */
  lemma SelectionJobsFormChains(s: Store, key: SelectionKey, k: nat)
    requires Reachable(s) && k < |s.jobs| && InRound(s.jobs[k], key)
    ensures key in s.selectionLedger && k <= s.selectionLedger[key] < |s.jobs|
    ensures InRound(s.jobs[s.selectionLedger[key]], key)
    ensures forall m :: s.selectionLedger[key] < m < |s.jobs| ==> !InRound(s.jobs[m], key)
    ensures ChainLink(s.jobs, s.attempts, key, s.jobs[k].origin.replaced, k)
  {
    ReachableIsSound(s);
    assert Linked(s.jobs, s.selectionLedger, s.attempts, key, k);
  }

  /**
   The step that continues a round: a production job made while the round already has a reservation replaces the
   reserved job, the round's last, whose last provider attempt has at that moment failed transiently.
   */
  lemma SuccessorWasEarned(s: Store, c: Command, key: SelectionKey)
    requires Reachable(s) && |Step(s, c).jobs| == |s.jobs| + 1 && InRound(Step(s, c).jobs[|s.jobs|], key)
    requires key in s.selectionLedger
    ensures var p := s.selectionLedger[key];
            && p < |s.jobs| && InRound(s.jobs[p], key) && (forall m :: p < m < |s.jobs| ==> !InRound(s.jobs[m], key))
            && s.slot == Some(key.session) && key.session < |s.sessions| && EndedTransiently(s, key.session, p)
            && Step(s, c).jobs[|s.jobs|].origin == Production(Some(p))
  {
    hide Step, EndedTransiently, Inv, LaneFree;
    ReachableIsSound(s);
    LedgerNamesTheLast(s, key);
    NewJobIsCurrent(s, c);
    var j := Step(s, c).jobs[|s.jobs|];
    assert Earned(s, j) && InRound(j, key);
  }

  lemma LedgerNamesTheLast(s: Store, key: SelectionKey)
    requires Inv(s) && key in s.selectionLedger
    ensures s.selectionLedger[key] < |s.jobs| && InRound(s.jobs[s.selectionLedger[key]], key)
    ensures forall m :: s.selectionLedger[key] < m < |s.jobs| ==> !InRound(s.jobs[m], key)
  {
    hide BattleInv, JobRows, AuditRows, TurnLedgerRows, ContentInv, Linked;
  }

  /** The k-th job was made by the n-th command, right after job p of the same round had failed transiently. */
  ghost predicate EarnedAt(commands: seq<Command>, n: nat, key: SelectionKey, p: nat, k: nat) {
    && n < |commands|
    && var s := Run(EMPTY, commands[..n]);
       && |s.jobs| == k && k < |Run(EMPTY, commands[..n + 1]).jobs|
       && p < k && InRound(s.jobs[p], key) && (forall m :: p < m < k ==> !InRound(s.jobs[m], key))
       && s.slot == Some(key.session) && key.session < |s.sessions| && EndedTransiently(s, key.session, p)
  }

  lemma LastCommand(commands: seq<Command>)
    requires commands != []
    ensures Run(EMPTY, commands) == Step(Run(EMPTY, commands[..|commands| - 1]), commands[|commands| - 1])
  {
    hide Step;
    var n := |commands| - 1;
    RunSplits(EMPTY, commands[..n], [commands[n]]);
    assert commands[..n] + [commands[n]] == commands;
  }

  lemma PrefixOfPrefix(commands: seq<Command>, n: nat)
    requires n < |commands|
    ensures commands[..|commands| - 1][..n] == commands[..n]
  {
  }

  /**
   Over whole runs: wherever a round has an earlier production job, a later one was created at a moment when the
   round's job before it had ended in an allowlisted transient failure of its last provider attempt.
   */
  lemma {:induction false} EverySuccessorWasEarned(commands: seq<Command>, key: SelectionKey, m: nat, k: nat)
    requires m < k < |Run(EMPTY, commands).jobs|
    requires InRound(Run(EMPTY, commands).jobs[m], key) && InRound(Run(EMPTY, commands).jobs[k], key)
    ensures exists n, p :: m <= p && EarnedAt(commands, n, key, p, k)
    decreases |commands|
  {
    hide Step, EndedTransiently, Inv, Later;
    var late := Run(EMPTY, commands);
    if commands == [] {
      NothingMade();
    } else {
      var init := commands[..|commands| - 1];
      var s, c := Run(EMPTY, init), commands[|commands| - 1];
      LastCommand(commands);
      RunIsReachable(init);
      StepAddsOneJob(s, c);
      assert m < |s.jobs| && InRound(s.jobs[m], key) by {
        assert LaterJob(s.jobs[m], late.jobs[m]);
      }
      if k < |s.jobs| {
        assert LaterJob(s.jobs[k], late.jobs[k]);
        EverySuccessorWasEarned(init, key, m, k);
        var n, p :| m <= p && EarnedAt(init, n, key, p, k);
        PrefixOfPrefix(commands, n);
        assert init[..n + 1] == commands[..n + 1];
        assert EarnedAt(commands, n, key, p, k);
      } else {
        SelectionJobsFormChains(s, key, m);
        SuccessorWasEarned(s, c, key);
        assert commands[..|init|] == init && commands[..|init| + 1] == commands;
        assert EarnedAt(commands, |init|, key, s.selectionLedger[key], k);
      }
    }
  }

  lemma NothingMade()
    ensures Run(EMPTY, []).jobs == []
  {
  }

  lemma RunIsReachable(commands: seq<Command>)
    ensures Reachable(Run(EMPTY, commands))
  {
    hide Run;
  }

  lemma StepAddsOneJob(s: Store, c: Command)
    requires Reachable(s)
    ensures |s.jobs| <= |Step(s, c).jobs| <= |s.jobs| + 1
    ensures forall k :: 0 <= k < |s.jobs| ==> LaterJob(s.jobs[k], Step(s, c).jobs[k])
  {
    hide Step, Inv;
    ReachableIsSound(s);
    StepSteps(s, c);
    EvolvedIsLater(s, Step(s, c));
  }

  // ---- pins ---------------------------------------------------------------------------------

  /** No command changes what a match was pinned to when it was created. */
  lemma PinsNeverMove(s: Store, commands: seq<Command>, i: nat)
    requires Reachable(s) && i < |s.sessions|
    ensures i < |Run(s, commands).sessions|
    ensures Run(s, commands).sessions[i].intelPin == s.sessions[i].intelPin
    ensures Run(s, commands).sessions[i].rulesPin == s.sessions[i].rulesPin
    ensures Run(s, commands).sessions[i].matchId == s.sessions[i].matchId
    ensures Run(s, commands).sessions[i].battleRevision >= s.sessions[i].battleRevision
  {
    hide Run, Inv;
    ReachableIsSound(s);
    RunKeeps(s, commands);
    assert LaterSession(s.sessions[i], Run(s, commands).sessions[i]);
  }
}
