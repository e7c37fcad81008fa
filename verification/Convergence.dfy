/** What the protocol is for: once a project's jobs are done, one copy of it exists, on the node the Hub names; and
    once a deleted project's jobs are done, none does. Both with the exact conditions when deploys may fail. */
module Convergence {
  import opened Jobs
  import opened Hub
  import opened Protocol
  import opened CopyHistory
  import opened JobLife
  import opened MigrationRuns
  import opened CalmRuns
  import P = Placement
  import Scheduler

  ghost predicate Inv(w: World) {
    CopyHistory.Inv(w) && MigrationsMatch(w.rows) && Reliable(w) && CopiesExplained(w) && P.Inv(w)
  }

  lemma CurrentIsDeploy(s: State, p: ProjectId)
    requires WellFormed(s)
    ensures CurrentJob(s, p).Some? ==> IsDeploy(s.jobs, CurrentJob(s, p).value, p)
  {
    if p in s.projects { CurrentIsNewest(s, p); }
  }

  // ---- one calm step keeps removals where they must be ----

  lemma ReportTouchesOne(w: World, v: World, j: JobId, status: Status, q: ProjectId)
    requires 0 <= j < |w.rows.jobs| && ActedOn(w.rows, v.rows, j, status, w.now)
    requires w.rows.jobs[j].scope != App(q) || w.rows.jobs[j].kind != Deploy
    requires v.landed == (if Lands(w.rows, j, status) then w.landed[w.rows.jobs[j].scope.project := j] else w.landed)
    requires w.spared <= v.spared && w.evicted <= v.evicted && w.calledOff <= v.calledOff
    ensures P.Untouched(w, v, q)
  {
  }

  lemma ReportPlacesOne(w: World, j: JobId, status: Status, q: ProjectId)
    requires CopyHistory.Inv(w) && P.Placed(w, q) && Enabled(w, Report(j, status))
    requires !DuplicateReport(w.rows.jobs[j], status)
    requires ActedOn(w.rows, Step(w, Report(j, status)).rows, j, status, w.now)
    requires w.rows.jobs[j].kind == Deploy ==> w.rows.jobs[j].status == Running
    ensures P.Placed(Step(w, Report(j, status)), q)
  {
    var s, v := w.rows, Step(w, Report(j, status));
    CurrentIsDeploy(s, q);
    if s.jobs[j].scope != App(q) || s.jobs[j].kind != Deploy {
      ReportTouchesOne(w, v, j, status, q);
      P.UntouchedStaysPlaced(w, v, q);
    } else if q !in s.projects || status == Failed {
      P.OtherReportPlaces(w, v, j, q, status);
    } else if CurrentJob(s, q) == Some(j) {
      P.LandingPlaces(w, v, j, q);
    } else {
      CurrentIsNewest(s, q);
      assert IsDeploy(s.jobs, j, q);
      P.SupersededPlaces(w, v, j, q, CurrentJob(s, q).value);
    }
  }

  lemma FreshReportPlaces(w: World, j: JobId, status: Status)
    requires CopyHistory.Inv(w) && Reliable(w) && P.Inv(w)
    requires Enabled(w, Report(j, status)) && Calm(w, Report(j, status)) && !DuplicateReport(w.rows.jobs[j], status)
    requires w.rows.jobs[j].kind == Deploy ==> w.rows.jobs[j].status == Running
    ensures P.Inv(Step(w, Report(j, status)))
  {
    var s, v := w.rows, Step(w, Report(j, status));
    if s.jobs[j].kind == Deploy { DeploysAreRooted(s, j); }
    ReportedCases(s, j, status, w.now);
    forall q ensures P.Placed(v, q) {
      assert P.Placed(w, q);
      ReportPlacesOne(w, j, status, q);
    }
    ReportSpares(w, v, j, status);
  }

  lemma ReportSpares(w: World, v: World, j: JobId, status: Status)
    requires WellFormed(w.rows) && P.SparedWell(w) && 0 <= j < |w.rows.jobs| && SameIdentities(w.rows, v.rows)
    requires v.spared == (if LeavesCopy(w.rows, j, status) then w.spared + {j} else w.spared)
    ensures P.SparedWell(v)
  {
    var s := w.rows;
    WitnessesStay(s.jobs, v.rows.jobs);
    if LeavesCopy(s, j, status) {
      var p := s.jobs[j].scope.project;
      CurrentIsNewest(s, p);
      assert IsDeploy(s.jobs, j, p);
      assert DeployedLater(s.jobs, p, s.jobs[j].node, j);
    }
  }

  lemma ReportPlaces(w: World, j: JobId, status: Status)
    requires CopyHistory.Inv(w) && Reliable(w) && P.Inv(w)
    requires Enabled(w, Report(j, status)) && Calm(w, Report(j, status))
    ensures P.Inv(Step(w, Report(j, status)))
  {
    assert OutcomeKnown(w, j);
    if !DuplicateReport(w.rows.jobs[j], status) {
      FreshReportPlaces(w, j, status);
    } else {
      var v := Step(w, Report(j, status));
      forall q ensures P.Placed(v, q) { assert P.Placed(w, q); }
    }
  }

  lemma OthersUntouchedByDelete(w: World, p: ProjectId, order: seq<NodeId>, q: ProjectId)
    requires WellFormed(w.rows) && Enabled(w, Delete(p, order)) && q != p
    ensures P.Untouched(w, Step(w, Delete(p, order)), q)
  {
    forall i { DeployJobsAreDeploys(w.rows, p, i); }
  }

  lemma DeletePlaces(w: World, p: ProjectId, order: seq<NodeId>)
    requires CopyHistory.Inv(w) && P.Inv(w) && Enabled(w, Delete(p, order))
    ensures P.Inv(Step(w, Delete(p, order)))
  {
    var v := Step(w, Delete(p, order));
    forall q ensures P.Placed(v, q) {
      assert P.Placed(w, q);
      if q == p {
        P.DeletingClears(w, v, p, order);
      } else {
        CurrentIsDeploy(w.rows, q);
        OthersUntouchedByDelete(w, p, order, q);
        P.UntouchedStaysPlaced(w, v, q);
      }
    }
    P.SparedStays(w, v);
  }

  lemma DispatchPlaces(w: World, v: World, p: ProjectId, n: NodeId, image: string)
    requires CopyHistory.Inv(w) && P.Inv(w) && p in w.rows.projects && v == w.(rows := v.rows)
    requires v.rows == Dispatched(w.rows, p, n, image, w.now) || v.rows == MigrationStarted(w.rows, p, n, image, w.now)
    ensures P.Inv(v)
  {
    forall q ensures P.Placed(v, q) {
      assert P.Placed(w, q);
      if q == p {
        P.DispatchPlaces(w, v, p, n, image);
      } else {
        CurrentIsDeploy(w.rows, q);
        P.UntouchedStaysPlaced(w, v, q);
      }
    }
    P.SparedStays(w, v);
  }

  lemma CreatePlaces(w: World, p: ProjectId, home: Option<NodeId>, image: string)
    requires CopyHistory.Inv(w) && P.Inv(w) && Enabled(w, Create(p, home, image))
    ensures P.Inv(Step(w, Create(p, home, image)))
  {
    var v := Step(w, Create(p, home, image));
    forall i ensures !IsDeploy(w.rows.jobs, i, p) {}
    forall q ensures P.Placed(v, q) {
      assert P.Placed(w, q);
      if q != p {
        CurrentIsDeploy(w.rows, q);
        P.UntouchedStaysPlaced(w, v, q);
      }
    }
    P.SparedStays(w, v);
  }

  lemma ClaimUntouched(w: World, agent: Node, q: ProjectId)
    requires Enabled(w, Claim(agent))
    ensures P.Untouched(w, Step(w, Claim(agent)), q)
  {
    var next := Scheduler.NextJob(w.rows.jobs, agent);
    assert next.Some? ==> PendingOn(w.rows.jobs, agent.id, next.value);
  }

  /** Steps that end or add no copy job and move no current deployment. */
  lemma OthersUntouched(w: World, e: Event, q: ProjectId)
    requires Enabled(w, e)
    requires e.SetNode? || e.SetImage? || e.SetStatus? || e.Enqueue? || e.Execute? || e.CancelStale? || e.Register? || e.Wait?
    ensures P.Untouched(w, Step(w, e), q)
  {
  }

  lemma OtherStepsPlace(w: World, e: Event)
    requires CopyHistory.Inv(w) && P.Inv(w) && Enabled(w, e)
    requires !e.Create? && !e.Dispatch? && !e.Report? && !e.Migrate? && !e.Delete? && !e.SweepMigrations? && !e.SweepStuck?
    ensures P.Inv(Step(w, e))
  {
    var v := Step(w, e);
    forall q ensures P.Untouched(w, v, q) {
      if e.Claim? { ClaimUntouched(w, e.agent, q); } else { OthersUntouched(w, e, q); }
    }
    UntouchedKeeps(w, v);
  }

  lemma UntouchedKeeps(w: World, v: World)
    requires CopyHistory.Inv(w) && P.Inv(w) && v.spared == w.spared && forall q :: P.Untouched(w, v, q)
    ensures P.Inv(v)
  {
    forall q ensures P.Placed(v, q) {
      assert P.Placed(w, q) && P.Untouched(w, v, q);
      CurrentIsDeploy(w.rows, q);
      P.UntouchedStaysPlaced(w, v, q);
    }
    assert P.Untouched(w, v, 0);
    P.SparedStays(w, v);
  }

  lemma SweepPlaces(w: World, live: set<NodeId>)
    requires CopyHistory.Inv(w) && P.Inv(w)
    ensures P.Inv(Step(w, SweepMigrations(live)))
  {
    var v := Step(w, SweepMigrations(live));
    var ids := AbandonedIds(w.rows, live, w.now, |w.rows.migrations|);
    AbandoningGrows(w.rows, ids);
    AbandonedRows(w.rows, ids);
    SweptProjects(w.rows, ids);
    forall q ensures P.Placed(v, q) {
      assert P.Placed(w, q);
      CurrentIsDeploy(w.rows, q);
      P.CallingOffPlaces(w, v, q);
    }
    P.SparedStays(w, v);
  }

  lemma {:induction false} SweptProjects(s: State, ids: seq<nat>)
    requires forall a :: 0 <= a < |ids| ==> ids[a] < |s.migrations|
    ensures AllAbandoned(s, ids).projects == s.projects && AllAbandoned(s, ids).deployments == s.deployments
    decreases |ids|
  {
    if ids != [] { SweptProjects(s, ids[..|ids| - 1]); }
  }

  lemma StuckPlaces(w: World)
    requires CopyHistory.Inv(w) && P.Inv(w) && Enabled(w, SweepStuck) && Calm(w, SweepStuck)
    ensures P.Inv(Step(w, SweepStuck))
  {
    var v := Step(w, SweepStuck);
    GivenUpRows(w.rows, StuckIds(w.rows.jobs, w.now, |w.rows.jobs|), w.now);
    forall q ensures P.Placed(v, q) {
      assert P.Placed(w, q);
      CurrentIsDeploy(w.rows, q);
      P.UntouchedStaysPlaced(w, v, q);
    }
    P.SparedStays(w, v);
  }

  lemma StepPlaces(w: World, e: Event)
    requires CopyHistory.Inv(w) && Reliable(w) && P.Inv(w) && Enabled(w, e) && Calm(w, e)
    ensures P.Inv(Step(w, e))
  {
    match e
    case Create(p, home, image) => CreatePlaces(w, p, home, image);
    case Dispatch(p, n, image) => DispatchPlaces(w, Step(w, e), p, n, image);
    case Migrate(p, target, image) => DispatchPlaces(w, Step(w, e), p, target, image);
    case Report(j, status) => ReportPlaces(w, j, status);
    case Delete(p, order) => DeletePlaces(w, p, order);
    case SweepMigrations(live) => SweepPlaces(w, live);
    case SweepStuck => StuckPlaces(w);
    case _ => OtherStepsPlace(w, e);
  }

  lemma StepKeeps(w: World, e: Event)
    requires Inv(w) && Enabled(w, e) && Calm(w, e)
    ensures Inv(Step(w, e))
  {
    CopyHistory.StepKeeps(w, e);
    StepMatches(w, e);
    ReliableStep(w, e);
    CopiesStep(w, e);
    StepPlaces(w, e);
  }

  lemma {:induction false} RunKeeps(w: World, es: seq<Event>)
    requires Inv(w) && CanRun(w, es) && CalmRun(w, es)
    ensures Inv(Run(w, es))
    decreases |es|
  {
    if es != [] {
      StepKeeps(w, es[0]);
      RunKeeps(Step(w, es[0]), es[1..]);
    }
  }

  // ---- when a project's jobs are done ----

  ghost predicate Quiet(w: World, p: ProjectId) {
    forall i, n :: IsCopyJob(w.rows.jobs, i, p, n) ==> !Active(w.rows.jobs[i])
  }

  ghost predicate OneCopyOn(w: World, p: ProjectId, n: NodeId) {
    forall m :: (p, m) in w.copies <==> m == n
  }

  ghost predicate NoCopies(w: World, p: ProjectId) {
    forall m :: (p, m) !in w.copies
  }

  /** No deploy of the project failed, nor was one called off before its node claimed it. */
  ghost predicate NoFailedDeploy(w: World, p: ProjectId) {
    forall i :: IsDeploy(w.rows.jobs, i, p) ==> w.rows.jobs[i].status != Failed && i !in w.calledOff
  }

  /** The last job to take effect on m was a superseded deploy, whose copy was left for a newer deploy on m. */
  ghost predicate LastSpared(w: World, p: ProjectId, m: NodeId) {
    exists i :: i in w.spared && LeftBy(w, p, m, i)
  }

  /** The last job to take effect on n was a removal that a superseded deploy caused on the project's own node. */
  ghost predicate LastEvicted(w: World, p: ProjectId, n: NodeId) {
    exists k :: k in w.evicted && IsStop(w.rows.jobs, k, p, n) && Effective(w, k) && LastToTakeEffect(w, p, n, k)
  }

  ghost predicate LastToTakeEffect(w: World, p: ProjectId, n: NodeId, i: JobId) {
    forall k :: k > i && IsCopyJob(w.rows.jobs, k, p, n) ==> !Effective(w, k)
  }

  lemma DoneIsEffective(w: World, p: ProjectId, n: NodeId, i: JobId)
    requires Reliable(w) && Quiet(w, p) && IsCopyJob(w.rows.jobs, i, p, n)
    ensures Effective(w, i) <==> w.rows.jobs[i].status == Completed
    ensures IsStop(w.rows.jobs, i, p, n) ==> Effective(w, i)
  {
    assert OutcomeKnown(w, i);
  }

  /** Among the jobs from i on, the last that took effect. */
  lemma {:induction false} LastExists(w: World, p: ProjectId, n: NodeId, i: JobId) returns (k: JobId)
    requires IsCopyJob(w.rows.jobs, i, p, n) && Effective(w, i)
    ensures k >= i && IsCopyJob(w.rows.jobs, k, p, n) && Effective(w, k) && LastToTakeEffect(w, p, n, k)
    decreases |w.rows.jobs| - i
  {
    if l :| l > i && IsCopyJob(w.rows.jobs, l, p, n) && Effective(w, l) {
      k := LastExists(w, p, n, l);
    } else {
      k := i;
    }
  }

  /** A copy left where it should not be was spared for a deploy that then failed. */
  lemma StrayWasSpared(w: World, p: ProjectId, m: NodeId)
    requires Inv(w) && Quiet(w, p)
    requires p in w.rows.projects ==> !LandedOn(w, p, m)
    ensures (p, m) in w.copies <==> LastSpared(w, p, m)
  {
    if (p, m) in w.copies {
      var i :| LeftBy(w, p, m, i);
      assert P.Placed(w, p);
      DoneIsEffective(w, p, m, i);
      assert p in w.rows.projects ==> P.Kept(w, p, i);
      assert p !in w.rows.projects ==> P.Cleared(w, p, i);
      forall k | k > i && IsStop(w.rows.jobs, k, p, m) ensures false { DoneIsEffective(w, p, m, k); }
      assert !StopSince(w.rows.jobs, p, m, i + 1);
    }
  }

  lemma LandedCopyStays(w: World, p: ProjectId, n: NodeId)
    requires Inv(w) && Quiet(w, p) && p in w.rows.projects && LandedOn(w, p, n)
    ensures (p, n) in w.copies <==> !LastEvicted(w, p, n)
  {
    var a := w.landed[p];
    assert P.Placed(w, p);
    assert IsDeploy(w.rows.jobs, a, p) && P.LandedIsSafe(w, p, a);
    DoneIsEffective(w, p, n, a);
    var k := LastExists(w, p, n, a);
    if IsDeploy(w.rows.jobs, k, p) {
      assert LeftBy(w, p, n, k);
      forall l | IsStop(w.rows.jobs, l, p, n) ensures !Effective(w, l) || !LastToTakeEffect(w, p, n, l) {
        assert IsCopyJob(w.rows.jobs, l, p, n);
      }
    } else {
      assert k > a && k in w.evicted;
      forall i ensures !LeftBy(w, p, n, i) { assert IsDeploy(w.rows.jobs, i, p) ==> i != k; }
    }
  }

  /** The copies the Hub's row for the project speaks of: one, on the node where a deploy of it last landed, or none if
      none ever did. */
  ghost predicate CopiesAsNamed(w: World, p: ProjectId)
    requires p in w.rows.projects
  {
    if p in w.landed then w.rows.projects[p].node.Some? && OneCopyOn(w, p, w.rows.projects[p].node.value)
    else NoCopies(w, p)
  }

  /** The project's node lost its copy to a superseded redeploy, or some node kept one spared for a deploy that did not
      come about. */
  ghost predicate WentAstray(w: World, p: ProjectId)
    requires p in w.rows.projects
  {
    (exists n :: LandedOn(w, p, n) && LastEvicted(w, p, n)) || (exists m :: !LandedOn(w, p, m) && LastSpared(w, p, m))
  }

  /** Exactly when a live project ends up with the copies the Hub names, with any of its deploys failing or called off:
      the last thing to happen on its node must not be the removal a superseded redeploy caused there, and on no other
      node may it be a deploy spared for one that failed. */
  lemma ConvergesExactlyWhen(now: int, es: seq<Event>, p: ProjectId)
    requires CanRun(Start(now), es) && CalmRun(Start(now), es)
    requires p in Run(Start(now), es).rows.projects && Quiet(Run(Start(now), es), p)
    ensures CopiesAsNamed(Run(Start(now), es), p) <==> !WentAstray(Run(Start(now), es), p)
  {
    RunKeeps(Start(now), es);
    AsNamedExactlyWhen(Run(Start(now), es), p);
  }

  lemma AsNamedExactlyWhen(w: World, p: ProjectId)
    requires Inv(w) && p in w.rows.projects && Quiet(w, p)
    ensures CopiesAsNamed(w, p) <==> !WentAstray(w, p)
  {
    forall m | !LandedOn(w, p, m) ensures (p, m) in w.copies <==> LastSpared(w, p, m) { StrayWasSpared(w, p, m); }
    if p in w.landed {
      assert IsDeploy(w.rows.jobs, w.landed[p], p);
      var n := w.rows.projects[p].node.value;
      LandedCopyStays(w, p, n);
      forall m ensures LandedOn(w, p, m) <==> m == n {}
      assert LandedOn(w, p, n);
    } else {
      forall m ensures !LandedOn(w, p, m) {}
    }
  }

  /** A spared copy does not outlast a newer deploy that succeeds, or the removal that deleting the project queues. */
  lemma SparedIsReplaced(w: World, p: ProjectId, m: NodeId, i: JobId) returns (k: JobId)
    requires Inv(w) && Quiet(w, p) && NoFailedDeploy(w, p)
    requires i in w.spared && IsDeploy(w.rows.jobs, i, p) && w.rows.jobs[i].node == m
    ensures k > i && IsCopyJob(w.rows.jobs, k, p, m) && Effective(w, k)
  {
    assert P.SparedWell(w);
    k :| i < k && IsDeploy(w.rows.jobs, k, p) && w.rows.jobs[k].node == m;
    assert IsCopyJob(w.rows.jobs, k, p, m) && !Active(w.rows.jobs[k]);
    DoneIsEffective(w, p, m, k);
    assert P.Placed(w, p);
    assert p in w.rows.projects ==> P.Kept(w, p, k);
    if p !in w.rows.projects && w.rows.jobs[k].status != Completed {
      assert P.Cleared(w, p, k);
      k :| k > i && IsStop(w.rows.jobs, k, p, m);
      DoneIsEffective(w, p, m, k);
    }
  }

  lemma NothingSpared(w: World, p: ProjectId, m: NodeId)
    requires Inv(w) && Quiet(w, p) && NoFailedDeploy(w, p)
    ensures !LastSpared(w, p, m)
  {
    forall i | i in w.spared ensures !LeftBy(w, p, m, i) {
      if IsDeploy(w.rows.jobs, i, p) && w.rows.jobs[i].node == m {
        var k := SparedIsReplaced(w, p, m, i);
      }
    }
  }

  /** Convergence: however deploys, redeploys and moves of a project overlapped, on whatever nodes, with reports
      repeated at will, if none of its deploys failed then, once its jobs are done, exactly one copy of it exists: on
      the node of its newest deploy, which is the node the Hub names. Before its first deploy there is none. */
  lemma ConvergesToOneCopy(now: int, es: seq<Event>, p: ProjectId)
    requires CanRun(Start(now), es) && CalmRun(Start(now), es)
    requires p in Run(Start(now), es).rows.projects && Quiet(Run(Start(now), es), p)
    requires NoFailedDeploy(Run(Start(now), es), p)
    ensures var w := Run(Start(now), es);
      match w.rows.projects[p].deployment
      case None => NoCopies(w, p)
      case Some(d) => (d < |w.rows.deployments| && w.rows.projects[p].node == Some(w.rows.deployments[d].node) &&
        OneCopyOn(w, p, w.rows.deployments[d].node))
  {
    RunKeeps(Start(now), es);
    var w := Run(Start(now), es);
    CurrentIsNewest(w.rows, p);
    assert P.Placed(w, p);
    assert NewestIs(w.rows, p, w.rows.projects[p].deployment);
    match w.rows.projects[p].deployment
    case None => forall m, i ensures !LeftBy(w, p, m, i) {}
    case Some(d) => {
      var c := CurrentJob(w.rows, p).value;
      assert IsDeploy(w.rows.jobs, c, p);
      var n := w.rows.jobs[c].node;
      assert P.Kept(w, p, c) && IsCopyJob(w.rows.jobs, c, p, n);
      assert w.rows.jobs[c].status == Completed;
      assert P.NewestIsSafe(w, p, c);
      LandedCopyStays(w, p, n);
      forall k | IsStop(w.rows.jobs, k, p, n) ensures k < c {
        assert !StopSince(w.rows.jobs, p, n, c);
      }
      DoneIsEffective(w, p, n, c);
      assert !LastEvicted(w, p, n);
      forall m | m != n ensures (p, m) !in w.copies {
        StrayWasSpared(w, p, m);
        NothingSpared(w, p, m);
      }
    }
  }

  /** Deletion drains: whenever a project was deleted, once its remaining jobs are done the copies still there are
      exactly those spared for a deploy that failed; if none of its deploys failed, there is none. */
  lemma DeletionDrains(now: int, es: seq<Event>, p: ProjectId)
    requires CanRun(Start(now), es) && CalmRun(Start(now), es)
    requires p !in Run(Start(now), es).rows.projects && Quiet(Run(Start(now), es), p)
    ensures var w := Run(Start(now), es);
      (forall m :: (p, m) in w.copies <==> LastSpared(w, p, m)) &&
      (NoFailedDeploy(w, p) ==> NoCopies(w, p))
  {
    RunKeeps(Start(now), es);
    var w := Run(Start(now), es);
    forall m ensures (p, m) in w.copies <==> LastSpared(w, p, m) { StrayWasSpared(w, p, m); }
    if NoFailedDeploy(w, p) {
      forall m ensures (p, m) !in w.copies { NothingSpared(w, p, m); }
    }
  }

  /** A deploy that deleting its project cancelled never starts, so it never leaves a copy. */
  lemma CancelledNeverStarts(now: int, es: seq<Event>, more: seq<Event>, j: JobId)
    requires CanRun(Start(now), es) && CalmRun(Start(now), es) && CanRun(Run(Start(now), es), more)
    requires 0 <= j < |Run(Start(now), es).rows.jobs| && Run(Start(now), es).rows.jobs[j].status == Cancelled
    ensures var v := Run(Run(Start(now), es), more); j < |v.rows.jobs| && v.rows.jobs[j].startedAt.None?
  {
    RunKeeps(Start(now), es);
    assert OutcomeKnown(Run(Start(now), es), j);
    CalledOffNeverStarts(Run(Start(now), es), more, j);
  }
}
