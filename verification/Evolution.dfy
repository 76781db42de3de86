/** How one command may change sessions, jobs and recorded turns, whichever command it is. */
module Evolution {
  import opened Basics
  import opened TurnState
  import opened Records
  import opened Store
  import opened Commands
  import opened Invariant

  // ---- sessions -----------------------------------------------------------------------------

  /** Everything a session holds but its metadata counter. */
  predicate SameCore(x: Session, y: Session) {
    x.(metadataRevision := 0) == y.(metadataRevision := 0)
  }

  predicate SameIdentity(x: Session, y: Session) {
    x.matchId == y.matchId && x.generation == y.generation && x.rulesPin == y.rulesPin && x.intelPin == y.intelPin
  }

  predicate SamePointers(x: Session, y: Session) {
    && y.reviewedSelection == x.reviewedSelection && y.applied == x.applied && y.turn == x.turn
    && y.reviewedBoard == x.reviewedBoard && y.turnAdvice == x.turnAdvice
  }

  predicate Over(x: Session) {
    x.state.MatchEnded? || x.state.MatchExported?
  }

  /** A command leaves a session's core alone or raises its revision by exactly one; an applied selection stays,
      and so do the pointers of a match that is over. */
  predicate Revised(x: Session, y: Session) {
    && SameIdentity(x, y)
    && (SameCore(x, y) || y.battleRevision == x.battleRevision + 1)
    && (x.applied.Some? ==> y.applied == x.applied && y.reviewedSelection == x.reviewedSelection)
    && (Over(x) ==> Over(y) && SamePointers(x, y))
  }

  predicate SessionsEvolve(ss: seq<Session>, ss': seq<Session>) {
    |ss| <= |ss'| && forall i :: 0 <= i < |ss| ==> Revised(ss[i], ss'[i])
  }

  // ---- jobs ---------------------------------------------------------------------------------

  /** The arrows of the job lifecycle; every status that is not pending is final. */
  predicate Moves(from: JobStatus, to: JobStatus) {
    || from == to
    || (from == Queued && (to == InFlight || to == Interrupted))
    || (from == InFlight && to == DeliveryUnknown)
    || (IsPending(from) && to in {Succeeded, Failed, TimedOut, Cancelled})
  }

  predicate JobMoves(j: Job, k: Job) {
    && k == j.(status := k.status, dispatchCount := k.dispatchCount)
    && Moves(j.status, k.status)
    && k.dispatchCount == j.dispatchCount + if j.status == Queued && k.status == InFlight then 1 else 0
  }

  predicate JobsEvolve(jobs: seq<Job>, jobs': seq<Job>) {
    |jobs| <= |jobs'| && forall k :: 0 <= k < |jobs| ==> JobMoves(jobs[k], jobs'[k])
  }

  /**
   Why a production job may be made now: its round has no reservation yet, or the reserved job's last provider
   attempt, as recorded at this moment, failed transiently.
   */
  ghost predicate Earned(s: Store, j: Job) {
    j.origin.Production? ==>
      forall key :: InRound(j, key) ==>
        match j.origin.replaced
        case None => key !in s.selectionLedger
        case Some(p) => && key in s.selectionLedger && s.selectionLedger[key] == p && p < |s.jobs|
                        && j.session < |s.sessions| && EndedTransiently(s, j.session, p)
  }

  /** A job is only ever created for the active session, at its current revision, in a free lane. */
  ghost predicate NewJob(s: Store, j: Job) {
    && s.slot == Some(j.session) && j.session < |s.sessions| && j.status == Queued
    && j.baseRevision == s.sessions[j.session].battleRevision && j.expectedState == s.sessions[j.session].state
    && LaneFree(s.jobs, j.session, j.jobType) && Earned(s, j)
  }

  ghost predicate NewJobs(s: Store, s': Store) {
    || |s'.jobs| == |s.jobs|
    || (|s'.jobs| == |s.jobs| + 1 && s'.sessions == s.sessions && NewJob(s, s'.jobs[|s.jobs|]))
  }

  // ---- audits -------------------------------------------------------------------------------

  /** The job is its lane's newest, pending, and its session has not moved since the job was made. */
  predicate Decidable(s: Store, job: nat) {
    && job < |s.jobs| && s.slot == Some(s.jobs[job].session) && s.jobs[job].session < |s.sessions|
    && IsPending(s.jobs[job].status)
    && s.jobs[job].baseRevision == s.sessions[s.jobs[job].session].battleRevision
    && s.jobs[job].expectedState == s.sessions[s.jobs[job].session].state
  }

  /** At most one audit row a command, and a decisive one only for a decidable job. */
  predicate AuditsEvolve(s: Store, s': Store) {
    || s'.audits == s.audits
    || (|s'.audits| == |s.audits| + 1 && s'.audits[..|s.audits|] == s.audits
        && (Decisive(s'.audits[|s.audits|].disposition) ==> Decidable(s, s'.audits[|s.audits|].job)))
  }

  // ---- recorded turns -----------------------------------------------------------------------

  /** What an export reads of a recorded turn is settled: its action, its facts and its advice. */
  predicate TurnsFrozen(s: Store, s': Store) {
    && |s.actions| <= |s'.actions| && |s.facts| <= |s'.facts| && |s.advices| <= |s'.advices|
    && (forall k :: 0 <= k < |s.actions| ==> s'.actions[k] == s.actions[k])
    && (forall k :: 0 <= k < |s.facts| ==> s'.facts[k] == s.facts[k])
    && (forall k :: 0 <= k < |s.advices| ==> s'.advices[k] == s.advices[k])
    && (forall k :: 0 <= k < |s.actions| ==>
          && LatestFacts(s'.facts, s.actions[k].turn) == LatestFacts(s.facts, s.actions[k].turn)
          && LatestAdvice(s'.advices, s.actions[k].turn) == LatestAdvice(s.advices, s.actions[k].turn))
  }

  // ---- the other tables ---------------------------------------------------------------------

  predicate TablesGrow(s: Store, s': Store) {
    && |s.selectionFacts| <= |s'.selectionFacts| && |s.applied| <= |s'.applied| && |s.states| <= |s'.states|
    && (forall k :: 0 <= k < |s.selectionFacts| ==> s'.selectionFacts[k] == s.selectionFacts[k])
    && (forall k :: 0 <= k < |s.applied| ==> s'.applied[k] == s.applied[k])
    && (forall k :: 0 <= k < |s.states| ==> s'.states[k] == s.states[k])
    && (forall i :: i in s.outcomes ==> i in s'.outcomes && s'.outcomes[i] == s.outcomes[i])
    && (forall i :: i in s.exports ==> i in s'.exports && s'.exports[i] == s.exports[i])
  }

  ghost predicate Evolves(s: Store, s': Store) {
    && SessionsEvolve(s.sessions, s'.sessions) && JobsEvolve(s.jobs, s'.jobs) && NewJobs(s, s')
    && AuditsEvolve(s, s') && TurnsFrozen(s, s') && TablesGrow(s, s')
  }
}
