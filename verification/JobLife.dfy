/** How job rows change over a whole run of the protocol: a job waits, runs and ends, and never goes back. */
module JobLife {
  import opened Jobs
  import opened Hub
  import opened Protocol
  import Scheduler
  import CopyHistory

  ghost predicate Evolves(before: Job, after: Job, now: int) {
    after.node == before.node && after.kind == before.kind && after.scope == before.scope &&
    ((after.status == before.status && after.startedAt == before.startedAt && after.completedAt == before.completedAt) ||
     (before.status == Pending && after.status == Running && after.startedAt == Some(now) &&
      after.completedAt == before.completedAt) ||
     (!Active(after) && after.startedAt == before.startedAt))
  }

  ghost predicate AllEvolve(jobs: seq<Job>, more: seq<Job>, now: int) {
    |jobs| <= |more| && (forall i :: 0 <= i < |jobs| ==> Evolves(jobs[i], more[i], now)) &&
    forall i :: |jobs| <= i < |more| ==>
      more[i].status == Pending && more[i].startedAt.None? && more[i].completedAt.None?
  }

  lemma ActedOnEvolves(s: State, t: State, j: JobId, status: Status, now: int)
    requires 0 <= j < |s.jobs| && ActedOn(s, t, j, status, now) && (status == Completed || status == Failed)
    ensures AllEvolve(s.jobs, t.jobs, now)
  {
  }

  /** Like AllEvolve, for steps that start nothing. */
  ghost predicate OnlyEnds(jobs: seq<Job>, more: seq<Job>) {
    |jobs| <= |more| &&
    (forall i :: 0 <= i < |jobs| ==>
      more[i].node == jobs[i].node && more[i].kind == jobs[i].kind && more[i].scope == jobs[i].scope &&
      more[i].startedAt == jobs[i].startedAt && (more[i] == jobs[i] || !Active(more[i]))) &&
    forall i :: |jobs| <= i < |more| ==>
      more[i].status == Pending && more[i].startedAt.None? && more[i].completedAt.None?
  }

  lemma {:induction false} GivingUpOnlyEnds(s: State, ids: seq<JobId>, now: int)
    requires WellFormed(s) && forall a :: 0 <= a < |ids| ==> 0 <= ids[a] < |s.jobs|
    ensures OnlyEnds(s.jobs, AllGivenUp(s, ids, now).jobs)
    decreases |ids|
  {
    if ids != [] {
      var rest := ids[..|ids| - 1];
      GivingUpOnlyEnds(s, rest, now);
      CopyHistory.GivingUpGrows(s, rest, now);
      var u := AllGivenUp(s, rest, now);
      CopyHistory.GrownStaysWellFormed(s, u);
      var j := ids[|ids| - 1];
      if u.jobs[j].kind == Deploy { DeploysAreRooted(u, j); }
      GivenUpCases(u, j, now);
      EndingOneMore(s.jobs, u, GivenUp(u, j, now), j, now);
    }
  }

  lemma EndingOneMore(jobs: seq<Job>, u: State, t: State, j: JobId, now: int)
    requires 0 <= j < |jobs| && OnlyEnds(jobs, u.jobs) && ActedOn(u, t, j, Failed, now)
    ensures OnlyEnds(jobs, t.jobs)
  {
  }

  /** What one migration sweep leaves behind. */
  lemma {:induction false} AbandonedRows(s: State, ids: seq<nat>)
    requires forall a :: 0 <= a < |ids| ==> ids[a] < |s.migrations|
    ensures var t := AllAbandoned(s, ids);
      |t.jobs| == |s.jobs| &&
      (forall m :: 0 <= m < |s.migrations| ==>
        t.migrations[m] == if m in ids then s.migrations[m].(status := MigrationFailed) else s.migrations[m]) &&
      (forall m :: m in ids && 0 <= s.migrations[m].job < |s.jobs| ==> t.jobs[s.migrations[m].job].status != Pending) &&
      (forall i :: 0 <= i < |s.jobs| ==>
        t.jobs[i] == s.jobs[i] || (s.jobs[i].status == Pending && t.jobs[i] == s.jobs[i].(status := Cancelled)))
    decreases |ids|
  {
    if ids != [] { AbandonedRows(s, ids[..|ids| - 1]); }
  }

  /** A job that a migration sweep changed belongs to a migration it gave up on. */
  lemma {:induction false} ChangedBy(s: State, ids: seq<nat>, j: JobId) returns (m: nat)
    requires forall a :: 0 <= a < |ids| ==> ids[a] < |s.migrations|
    requires 0 <= j < |s.jobs| && |AllAbandoned(s, ids).jobs| == |s.jobs| && AllAbandoned(s, ids).jobs[j] != s.jobs[j]
    ensures m in ids && m < |s.migrations| && s.migrations[m].job == j
    decreases |ids|
  {
    var fewer := ids[..|ids| - 1];
    AbandonedRows(s, fewer);
    if AllAbandoned(s, fewer).jobs[j] != s.jobs[j] {
      m := ChangedBy(s, fewer, j);
    } else {
      m := ids[|ids| - 1];
    }
  }

  lemma ReportEvolves(w: World, j: JobId, status: Status)
    requires WellFormed(w.rows) && Enabled(w, Report(j, status))
    ensures AllEvolve(w.rows.jobs, Reported(w.rows, j, status, w.now).jobs, w.now)
  {
    var s := w.rows;
    if !DuplicateReport(s.jobs[j], status) {
      if s.jobs[j].kind == Deploy { DeploysAreRooted(s, j); }
      ReportedCases(s, j, status, w.now);
      ActedOnEvolves(s, Reported(s, j, status, w.now), j, status, w.now);
    }
  }

  lemma StepEvolves(w: World, e: Event)
    requires WellFormed(w.rows) && Enabled(w, e)
    ensures AllEvolve(w.rows.jobs, Step(w, e).rows.jobs, w.now)
  {
    match e
    case Report(j, status) => ReportEvolves(w, j, status);
    case SweepStuck => GivingUpOnlyEnds(w.rows, StuckIds(w.rows.jobs, w.now, |w.rows.jobs|), w.now);
    case SweepMigrations(live) => AbandonedRows(w.rows, AbandonedIds(w.rows, live, w.now, |w.rows.migrations|));
    case Claim(agent) => ClaimEvolves(w, agent);
    case _ => OthersEvolve(w, e);
  }

  lemma ClaimEvolves(w: World, agent: Node)
    requires Enabled(w, Claim(agent))
    ensures AllEvolve(w.rows.jobs, Step(w, Claim(agent)).rows.jobs, w.now)
  {
    var next := Scheduler.NextJob(w.rows.jobs, agent);
    assert next.Some? ==> PendingOn(w.rows.jobs, agent.id, next.value);
  }

  lemma OthersEvolve(w: World, e: Event)
    requires Enabled(w, e) && !e.Report? && !e.SweepStuck? && !e.SweepMigrations? && !e.Claim?
    ensures AllEvolve(w.rows.jobs, Step(w, e).rows.jobs, w.now)
  {
  }

  /** A job that was called off before it was claimed is never started, whatever happens later. */
  lemma {:induction false} CalledOffNeverStarts(w: World, es: seq<Event>, j: JobId)
    requires CopyHistory.Inv(w) && CanRun(w, es) && 0 <= j < |w.rows.jobs|
    requires w.rows.jobs[j].status != Pending && w.rows.jobs[j].startedAt.None?
    ensures j < |Run(w, es).rows.jobs| && Run(w, es).rows.jobs[j].startedAt.None?
    decreases |es|
  {
    if es != [] {
      StepEvolves(w, es[0]);
      CopyHistory.StepKeeps(w, es[0]);
      CalledOffNeverStarts(Step(w, es[0]), es[1..], j);
    }
  }
}
