/** The provider lanes' tables under what a command does to jobs: status moves, a new job, a new attempt. */
module Lanes {
  import opened Basics
  import opened TurnState
  import opened Records
  import opened Store
  import opened Commands
  import opened Invariant
  import opened Evolution

  // ---- existing jobs move on ----------------------------------------------------------------

  /** The same jobs, each moved along the lifecycle or left alone. */
  predicate Moved(jobs: seq<Job>, jobs': seq<Job>) {
    |jobs'| == |jobs| && JobsEvolve(jobs, jobs')
  }

  lemma {:induction false} LatestJobMoved(jobs: seq<Job>, jobs': seq<Job>, session: nat, jobType: JobType)
    requires Moved(jobs, jobs')
    ensures LatestJob(jobs', session, jobType) == LatestJob(jobs, session, jobType)
  {
    if jobs != [] {
      var n := |jobs| - 1;
      assert JobMoves(jobs[n], jobs'[n]);
      assert Moved(jobs[..n], jobs'[..n]) by {
        forall k | 0 <= k < n ensures JobMoves(jobs[..n][k], jobs'[..n][k]) {
          assert JobMoves(jobs[k], jobs'[k]);
        }
      }
      LatestJobMoved(jobs[..n], jobs'[..n], session, jobType);
    }
  }

  lemma MovedRows(ss: seq<Session>, jobs: seq<Job>, jobs': seq<Job>)
    requires JobRows(ss, jobs) && Moved(jobs, jobs')
    ensures JobRows(ss, jobs')
  {
    forall k | 0 <= k < |jobs'|
      ensures JobBound(jobs'[k], ss)
      ensures Blocking(jobs'[k]) ==>
                && LatestJob(jobs', jobs'[k].session, jobs'[k].jobType) == Some(k)
                && (jobs'[k].jobType == SelectionAdviceJob ==> Waiting(ss[jobs'[k].session].state))
    {
      assert JobMoves(jobs[k], jobs'[k]) && JobBound(jobs[k], ss);
      LatestJobMoved(jobs, jobs', jobs[k].session, jobs[k].jobType);
    }
  }

  lemma MovedAudits(jobs: seq<Job>, jobs': seq<Job>, audits: seq<Audit>)
    requires AuditRows(jobs, audits) && Moved(jobs, jobs')
    ensures AuditRows(jobs', audits)
  {
    forall k | 0 <= k < |audits| && Decisive(audits[k].disposition)
      ensures audits[k].job < |jobs'|
      ensures jobs'[audits[k].job].status == (if audits[k].disposition == Applied then Succeeded else Failed)
    {
      assert JobMoves(jobs[audits[k].job], jobs'[audits[k].job]);
    }
  }

  lemma MovedTurnLedger(jobs: seq<Job>, jobs': seq<Job>, ledger: seq<TurnLedgerRow>)
    requires TurnLedgerRows(jobs, ledger) && Moved(jobs, jobs')
    ensures TurnLedgerRows(jobs', ledger)
  {
    forall k | 0 <= k < |ledger| ensures ledger[k].job < |jobs'| && LedgerRowOf(ledger[k], jobs'[ledger[k].job]) {
      assert JobMoves(jobs[ledger[k].job], jobs'[ledger[k].job]);
    }
    forall k | 0 <= k < |jobs'| && jobs'[k].jobType == TurnAdviceJob ensures exists m :: 0 <= m < |ledger| && ledger[m].job == k {
      assert JobMoves(jobs[k], jobs'[k]);
    }
  }

  /** An attempt that failed transiently stays on record as such. */
  predicate AttemptsGrow(attempts: map<AttemptKey, Attempt>, attempts': map<AttemptKey, Attempt>) {
    forall key :: key in attempts && attempts[key].outcome == AttemptFailed ==> key in attempts' && attempts'[key] == attempts[key]
  }

  lemma MovedLink(jobs: seq<Job>, jobs': seq<Job>, attempts: map<AttemptKey, Attempt>,
                  attempts': map<AttemptKey, Attempt>, key: SelectionKey, from: Option<nat>, to: nat)
    requires Moved(jobs, jobs') && AttemptsGrow(attempts, attempts') && ChainLink(jobs, attempts, key, from, to)
    ensures ChainLink(jobs', attempts', key, from, to)
  {
    forall m | 0 <= m < |jobs| ensures InRound(jobs'[m], key) == InRound(jobs[m], key) {
      assert JobMoves(jobs[m], jobs'[m]);
    }
    if from.Some? {
      assert JobMoves(jobs[from.value], jobs'[from.value]);
      var ordinal :| 1 <= ordinal <= 2 && AttemptKey(from.value, ordinal) in attempts
                     && attempts[AttemptKey(from.value, ordinal)].outcome == AttemptFailed
                     && IsTransient(attempts[AttemptKey(from.value, ordinal)].reason);
      assert AttemptKey(from.value, ordinal) in attempts';
    }
  }

  lemma MovedSelectionLedger(jobs: seq<Job>, jobs': seq<Job>, ledger: map<SelectionKey, nat>,
                             attempts: map<AttemptKey, Attempt>, attempts': map<AttemptKey, Attempt>)
    requires SelectionLedgerRows(jobs, ledger, attempts) && Moved(jobs, jobs') && AttemptsGrow(attempts, attempts')
    ensures SelectionLedgerRows(jobs', ledger, attempts')
  {
    forall m, key | 0 <= m < |jobs| ensures InRound(jobs'[m], key) == InRound(jobs[m], key) {
      assert JobMoves(jobs[m], jobs'[m]);
    }
    forall k: nat, key | k < |jobs'| && InRound(jobs'[k], key) ensures Linked(jobs', ledger, attempts', key, k) {
      assert JobMoves(jobs[k], jobs'[k]) && InRound(jobs[k], key) && Linked(jobs, ledger, attempts, key, k);
      MovedLink(jobs, jobs', attempts, attempts', key, jobs[k].origin.replaced, k);
    }
  }

  lemma MovedLanes(s: Store, jobs': seq<Job>)
    requires JobRows(s.sessions, s.jobs) && LaneInv(s) && Moved(s.jobs, jobs')
    ensures JobRows(s.sessions, jobs') && LaneInv(s.(jobs := jobs'))
  {
    MovedRows(s.sessions, s.jobs, jobs');
    MovedAudits(s.jobs, jobs', s.audits);
    MovedTurnLedger(s.jobs, jobs', s.turnLedger);
    MovedSelectionLedger(s.jobs, jobs', s.selectionLedger, s.attempts, s.attempts);
  }

  // ---- a job is added -----------------------------------------------------------------------

  lemma AddedRows(ss: seq<Session>, jobs: seq<Job>, j: Job)
    requires JobRows(ss, jobs) && JobBound(j, ss) && LaneFree(jobs, j.session, j.jobType)
    requires j.jobType == SelectionAdviceJob ==> Waiting(ss[j.session].state)
    ensures JobRows(ss, jobs + [j])
  {
    var jobs' := jobs + [j];
    forall k | 0 <= k < |jobs'| && Blocking(jobs'[k])
      ensures LatestJob(jobs', jobs'[k].session, jobs'[k].jobType) == Some(k)
    {
      LatestJobAdded(jobs, j, jobs'[k].session, jobs'[k].jobType);
    }
  }

  lemma AddedTurnLedger(jobs: seq<Job>, j: Job, ledger: seq<TurnLedgerRow>)
    requires TurnLedgerRows(jobs, ledger) && j.jobType != TurnAdviceJob
    ensures TurnLedgerRows(jobs + [j], ledger)
  {
    var jobs' := jobs + [j];
    assert forall k :: 0 <= k < |jobs| ==> jobs'[k] == jobs[k];
  }

  lemma AddedTurnJob(jobs: seq<Job>, j: Job, ledger: seq<TurnLedgerRow>, row: TurnLedgerRow)
    requires TurnLedgerRows(jobs, ledger) && row.job == |jobs| && LedgerRowOf(row, j)
    requires !TurnAttemptReserved(ledger, row.session, row.matchId, row.generation, row.turnNumber, row.snapshot)
    ensures TurnLedgerRows(jobs + [j], ledger + [row])
  {
    var jobs', ledger' := jobs + [j], ledger + [row];
    assert forall k :: 0 <= k < |jobs| ==> jobs'[k] == jobs[k];
    forall k | 0 <= k < |jobs'| && jobs'[k].jobType == TurnAdviceJob ensures exists m :: 0 <= m < |ledger'| && ledger'[m].job == k {
      if k == |jobs| {
        assert ledger'[|ledger|].job == k;
      } else {
        var m :| 0 <= m < |ledger| && ledger[m].job == k;
        assert ledger'[m].job == k;
      }
    }
  }

  lemma AddedLink(jobs: seq<Job>, j: Job, attempts: map<AttemptKey, Attempt>, key: SelectionKey, from: Option<nat>,
                  to: nat)
    requires to <= |jobs| && ChainLink(jobs, attempts, key, from, to)
    ensures ChainLink(jobs + [j], attempts, key, from, to)
  {
    assert forall k :: 0 <= k < |jobs| ==> (jobs + [j])[k] == jobs[k];
  }

  lemma AddedDirect(jobs: seq<Job>, j: Job, ledger: map<SelectionKey, nat>, attempts: map<AttemptKey, Attempt>)
    requires SelectionLedgerRows(jobs, ledger, attempts) && j.origin == Direct
    ensures SelectionLedgerRows(jobs + [j], ledger, attempts)
  {
    var jobs' := jobs + [j];
    forall k: nat, key | k < |jobs'| && InRound(jobs'[k], key) ensures Linked(jobs', ledger, attempts, key, k) {
      assert jobs'[k] == jobs[k] && Linked(jobs, ledger, attempts, key, k);
      AddedLink(jobs, j, attempts, key, jobs[k].origin.replaced, k);
    }
  }

  lemma AddedProduction(jobs: seq<Job>, j: Job, ledger: map<SelectionKey, nat>, attempts: map<AttemptKey, Attempt>,
                        key: SelectionKey)
    requires SelectionLedgerRows(jobs, ledger, attempts) && InRound(j, key)
    requires j.origin.replaced == (if key in ledger then Some(ledger[key]) else None)
    requires key in ledger ==>
               && ledger[key] < |jobs|
               && (jobs[ledger[key]].status == Failed || jobs[ledger[key]].status == TimedOut)
               && FailedTransiently(attempts, ledger[key])
    ensures SelectionLedgerRows(jobs + [j], ledger[key := |jobs|], attempts)
  {
    var jobs', ledger' := jobs + [j], ledger[key := |jobs|];
    forall k: nat, other | k < |jobs'| && InRound(jobs'[k], other) ensures Linked(jobs', ledger', attempts, other, k) {
      if k < |jobs| {
        assert jobs'[k] == jobs[k] && Linked(jobs, ledger, attempts, other, k);
        AddedLink(jobs, j, attempts, other, jobs[k].origin.replaced, k);
      } else {
        assert other == key && ChainLink(jobs, attempts, key, j.origin.replaced, |jobs|);
        AddedLink(jobs, j, attempts, key, j.origin.replaced, |jobs|);
      }
    }
  }

  lemma AddedAudits(jobs: seq<Job>, j: Job, audits: seq<Audit>)
    requires AuditRows(jobs, audits)
    ensures AuditRows(jobs + [j], audits)
  {
  }

  // ---- audits -------------------------------------------------------------------------------

  lemma NotedAudits(jobs: seq<Job>, audits: seq<Audit>, a: Audit)
    requires AuditRows(jobs, audits) && !Decisive(a.disposition)
    ensures AuditRows(jobs, audits + [a])
  {
  }

  /** The first decisive audit of a job ends it: no earlier one can exist for a job still pending. */
  lemma DecidedAudits(jobs: seq<Job>, audits: seq<Audit>, a: Audit)
    requires AuditRows(jobs, audits) && Decisive(a.disposition) && a.job < |jobs| && IsPending(jobs[a.job].status)
    ensures AuditRows(SetStatus(jobs, a.job, if a.disposition == Applied then Succeeded else Failed), audits + [a])
  {
  }
}
