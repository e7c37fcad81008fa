/** Where removals are queued in calm runs: what makes every finished copy either the one that stays, or one that a
    later removal on its node takes away. */
module Placement {
  import opened Jobs
  import opened Hub
  import opened Protocol
  import opened CopyHistory
  import opened JobLife
  import opened CalmRuns

  /** A finished deploy of a live project is on the project's own node, or a later removal there was queued, or its
      copy was spared for a newer deploy; one that was cancelled was called off by the migration sweeper. */
  ghost predicate Kept(w: World, p: ProjectId, i: JobId)
    requires 0 <= i < |w.rows.jobs|
  {
    var job := w.rows.jobs[i];
    (job.status == Cancelled ==> i in w.calledOff) &&
    (job.status == Completed ==>
      LandedOn(w, p, job.node) || StopSince(w.rows.jobs, p, job.node, i + 1) || i in w.spared)
  }

  /** Nothing queued after the newest deploy removes what it starts. */
  ghost predicate NewestIsSafe(w: World, p: ProjectId, c: JobId)
    requires 0 <= c < |w.rows.jobs|
  {
    !StopSince(w.rows.jobs, p, w.rows.jobs[c].node, c) &&
    (w.rows.jobs[c].status == Completed ==> p in w.landed && w.landed[p] == c)
  }

  /** After a deploy landed, only a superseded redeploy of the project's own node queues removals there. */
  ghost predicate LandedIsSafe(w: World, p: ProjectId, a: JobId)
    requires 0 <= a < |w.rows.jobs|
  {
    w.rows.jobs[a].status == Completed &&
    forall k :: k > a && IsStop(w.rows.jobs, k, p, w.rows.jobs[a].node) ==> k in w.evicted
  }

  ghost predicate Live(w: World, p: ProjectId) {
    (forall i :: IsDeploy(w.rows.jobs, i, p) ==> Kept(w, p, i)) &&
    (CurrentJob(w.rows, p).Some? ==>
      0 <= CurrentJob(w.rows, p).value < |w.rows.jobs| && NewestIsSafe(w, p, CurrentJob(w.rows, p).value)) &&
    (p in w.landed ==> 0 <= w.landed[p] < |w.rows.jobs| && LandedIsSafe(w, p, w.landed[p]))
  }

  /** What is left of a deploy of a deleted project: cancelled or not, a later removal on its node was queued, unless
      it failed, was called off before, or its copy was spared. */
  ghost predicate Cleared(w: World, p: ProjectId, i: JobId)
    requires 0 <= i < |w.rows.jobs|
  {
    var job := w.rows.jobs[i];
    job.status != Pending &&
    (job.status != Failed ==>
      StopSince(w.rows.jobs, p, job.node, i + 1) || (job.status == Completed && i in w.spared) ||
      (job.status == Cancelled && i in w.calledOff))
  }

  ghost predicate Gone(w: World, p: ProjectId) {
    forall i :: IsDeploy(w.rows.jobs, i, p) ==> Cleared(w, p, i)
  }

  ghost predicate Placed(w: World, p: ProjectId) {
    if p in w.rows.projects then Live(w, p) else Gone(w, p)
  }

  ghost predicate SparedWell(w: World) {
    forall i :: i in w.spared ==>
      0 <= i < |w.rows.jobs| && w.rows.jobs[i].kind == Deploy && w.rows.jobs[i].scope.App? &&
      DeployedLater(w.rows.jobs, w.rows.jobs[i].scope.project, w.rows.jobs[i].node, i)
  }

  ghost predicate Inv(w: World) {
    (forall p :: Placed(w, p)) && SparedWell(w)
  }

  // ---- projects a step does not touch ----

  ghost predicate SameIdentity(before: Job, after: Job) {
    after.node == before.node && after.kind == before.kind && after.scope == before.scope
  }

  ghost predicate SameProgress(before: Job, after: Job) {
    after.status == before.status || (before.status == Pending && after.status == Running)
  }

  /** The step changes nothing that p's placement depends on. */
  ghost predicate Untouched(w: World, v: World, p: ProjectId) {
    |w.rows.jobs| <= |v.rows.jobs| && (p in v.rows.projects <==> p in w.rows.projects) &&
    CurrentJob(v.rows, p) == CurrentJob(w.rows, p) &&
    (p in v.landed <==> p in w.landed) && (p in w.landed ==> v.landed[p] == w.landed[p]) &&
    w.spared <= v.spared && w.evicted <= v.evicted && w.calledOff <= v.calledOff &&
    (forall i :: 0 <= i < |w.rows.jobs| ==> SameIdentity(w.rows.jobs[i], v.rows.jobs[i])) &&
    (forall i :: IsDeploy(w.rows.jobs, i, p) ==> SameProgress(w.rows.jobs[i], v.rows.jobs[i])) &&
    (forall i :: |w.rows.jobs| <= i < |v.rows.jobs| && v.rows.jobs[i].scope == App(p) ==>
      !MovesCopies(v.rows.jobs[i].kind))
  }

  lemma UntouchedStaysPlaced(w: World, v: World, p: ProjectId)
    requires Placed(w, p) && Untouched(w, v, p) && CopyHistory.LandedWell(w)
    requires CurrentJob(w.rows, p).Some? ==> IsDeploy(w.rows.jobs, CurrentJob(w.rows, p).value, p)
    ensures Placed(v, p)
  {
    forall i, n ensures IsStop(v.rows.jobs, i, p, n) <==> IsStop(w.rows.jobs, i, p, n) {}
    forall i ensures IsDeploy(v.rows.jobs, i, p) <==> IsDeploy(w.rows.jobs, i, p) {}
    forall n, from ensures StopSince(v.rows.jobs, p, n, from) <==> StopSince(w.rows.jobs, p, n, from) {
      StopsAgree(w.rows.jobs, v.rows.jobs, p, n, from);
    }
    forall i | IsDeploy(v.rows.jobs, i, p)
      ensures p in v.rows.projects ==> Kept(v, p, i)
      ensures p !in v.rows.projects ==> Cleared(v, p, i)
    {
      assert IsDeploy(w.rows.jobs, i, p) && SameProgress(w.rows.jobs[i], v.rows.jobs[i]);
      assert LandedOn(w, p, v.rows.jobs[i].node) ==> LandedOn(v, p, v.rows.jobs[i].node);
    }
  }

  lemma StopsAgree(jobs: seq<Job>, more: seq<Job>, p: ProjectId, n: NodeId, from: int)
    requires forall i :: IsStop(more, i, p, n) <==> IsStop(jobs, i, p, n)
    ensures StopSince(more, p, n, from) <==> StopSince(jobs, p, n, from)
  {
    if StopSince(jobs, p, n, from) {
      var k :| from <= k && IsStop(jobs, k, p, n);
      assert IsStop(more, k, p, n);
    }
  }

  lemma SparedStays(w: World, v: World)
    requires SparedWell(w) && v.spared == w.spared && |w.rows.jobs| <= |v.rows.jobs|
    requires forall i :: 0 <= i < |w.rows.jobs| ==>
      v.rows.jobs[i].node == w.rows.jobs[i].node && v.rows.jobs[i].kind == w.rows.jobs[i].kind &&
      v.rows.jobs[i].scope == w.rows.jobs[i].scope
    ensures SparedWell(v)
  {
    WitnessesStay(w.rows.jobs, v.rows.jobs);
  }

  // ---- dispatching ----

  lemma DispatchPlaces(w: World, v: World, p: ProjectId, n: NodeId, image: string)
    requires WellFormed(w.rows) && CopyHistory.LandedWell(w) && Placed(w, p) && p in w.rows.projects
    requires v == w.(rows := v.rows) && v.rows.jobs == Dispatched(w.rows, p, n, image, w.now).jobs
    requires p in v.rows.projects && CurrentJob(v.rows, p) == Some(|w.rows.jobs|)
    ensures Placed(v, p)
  {
    var jobs, more := w.rows.jobs, v.rows.jobs;
    forall i, m ensures IsStop(more, i, p, m) <==> IsStop(jobs, i, p, m) {}
    forall m, from ensures StopSince(more, p, m, from) <==> StopSince(jobs, p, m, from) {
      StopsAgree(jobs, more, p, m, from);
    }
    forall i | IsDeploy(more, i, p) ensures Kept(v, p, i) {
      if i < |jobs| {
        assert IsDeploy(jobs, i, p) && Kept(w, p, i);
        assert LandedOn(w, p, jobs[i].node) ==> LandedOn(v, p, jobs[i].node);
      }
    }
    assert !StopSince(more, p, n, |jobs|);
  }

  // ---- reports ----

  lemma LandingPlaces(w: World, v: World, j: JobId, p: ProjectId)
    requires WellFormed(w.rows) && CopyHistory.LandedWell(w) && Placed(w, p) && IsDeploy(w.rows.jobs, j, p)
    requires p in w.rows.projects && CurrentJob(w.rows, p) == Some(j)
    requires ActedOn(w.rows, v.rows, j, Completed, w.now)
    requires CurrentJob(v.rows, p) == Some(j) && v.landed == w.landed[p := j]
    requires v.spared == w.spared && v.evicted == w.evicted && v.calledOff == w.calledOff
    ensures Placed(v, p)
  {
    var jobs, more, n := w.rows.jobs, v.rows.jobs, w.rows.jobs[j].node;
    WitnessesStay(jobs, more);
    assert NewestIsSafe(w, p, j);
    forall k | IsStop(more, k, p, n) ensures k < j {
      assert IsStop(jobs, k, p, n);
      assert k >= j ==> StopSince(jobs, p, n, j);
    }
    forall i | IsDeploy(more, i, p) ensures Kept(v, p, i) {
      assert IsDeploy(jobs, i, p);
      assert Kept(w, p, i);
      var m := jobs[i].node;
      if i != j && LandedOn(w, p, m) && m != n {
        assert IsStop(more, |jobs|, p, m);
        assert StopSince(more, p, m, i + 1);
      }
    }
  }

  lemma SupersededPlaces(w: World, v: World, j: JobId, p: ProjectId, c: JobId)
    requires WellFormed(w.rows) && CopyHistory.LandedWell(w) && Placed(w, p) && IsDeploy(w.rows.jobs, j, p)
    requires p in w.rows.projects && CurrentJob(w.rows, p) == Some(c) && c != j && IsDeploy(w.rows.jobs, c, p)
    requires ActedOn(w.rows, v.rows, j, Completed, w.now) && CurrentJob(v.rows, p) == Some(c)
    requires v.landed == w.landed && v.calledOff == w.calledOff
    requires v.spared == if w.rows.jobs[c].node == w.rows.jobs[j].node then w.spared + {j} else w.spared
    requires v.evicted == if w.rows.jobs[c].node != w.rows.jobs[j].node && w.rows.projects[p].node == Some(w.rows.jobs[j].node)
      then w.evicted + {|w.rows.jobs|} else w.evicted
    ensures Placed(v, p)
  {
    var jobs, more, n := w.rows.jobs, v.rows.jobs, w.rows.jobs[j].node;
    WitnessesStay(jobs, more);
    assert NewestIsSafe(w, p, c);
    var safe := jobs[c].node;
    forall k | IsStop(more, k, p, safe) ensures k < c {
      assert IsStop(jobs, k, p, safe);
      assert k >= c ==> StopSince(jobs, p, safe, c);
    }
    if jobs[c].node != n {
      assert IsStop(more, |jobs|, p, n);
      assert StopSince(more, p, n, j + 1);
    }
    forall i | IsDeploy(more, i, p) ensures Kept(v, p, i) {
      assert IsDeploy(jobs, i, p);
      assert Kept(w, p, i);
      assert LandedOn(w, p, jobs[i].node) ==> LandedOn(v, p, jobs[i].node);
    }
    if p in w.landed {
      var a := w.landed[p];
      assert LandedIsSafe(w, p, a);
      forall k | k > a && IsStop(more, k, p, more[a].node) ensures k in v.evicted {
        assert k < |jobs| ==> IsStop(jobs, k, p, jobs[a].node);
      }
    }
  }

  /** The rest: a failed deploy, or a deploy of a deleted project. */
  lemma OtherReportPlaces(w: World, v: World, j: JobId, p: ProjectId, status: Status)
    requires WellFormed(w.rows) && CopyHistory.LandedWell(w) && Placed(w, p) && 0 <= j < |w.rows.jobs|
    requires w.rows.jobs[j].status == Running && (status == Completed || status == Failed)
    requires status == Completed ==> p !in w.rows.projects
    requires v.rows.jobs == w.rows.jobs[j := EndJob(w.rows.jobs[j], status, w.now)]
    requires (p in v.rows.projects <==> p in w.rows.projects) && CurrentJob(v.rows, p) == CurrentJob(w.rows, p)
    requires v.landed == w.landed && v.spared == w.spared && v.evicted == w.evicted && v.calledOff == w.calledOff
    ensures Placed(v, p)
  {
    var jobs, more := w.rows.jobs, v.rows.jobs;
    forall i, m ensures IsStop(more, i, p, m) <==> IsStop(jobs, i, p, m) {}
    forall m, from ensures StopSince(more, p, m, from) <==> StopSince(jobs, p, m, from) {
      StopsAgree(jobs, more, p, m, from);
    }
    forall i | IsDeploy(more, i, p)
      ensures p in v.rows.projects ==> Kept(v, p, i)
      ensures p !in v.rows.projects ==> Cleared(v, p, i)
    {
      assert IsDeploy(jobs, i, p);
      assert LandedOn(w, p, jobs[i].node) ==> LandedOn(v, p, jobs[i].node);
    }
  }

  // ---- calling off ----

  lemma CallingOffPlaces(w: World, v: World, p: ProjectId)
    requires CopyHistory.LandedWell(w) && Placed(w, p) && v.rows.projects == w.rows.projects
    requires CurrentJob(v.rows, p) == CurrentJob(w.rows, p)
    requires CurrentJob(w.rows, p).Some? ==> IsDeploy(w.rows.jobs, CurrentJob(w.rows, p).value, p)
    requires v.landed == w.landed && v.spared == w.spared && v.evicted == w.evicted && w.calledOff <= v.calledOff
    requires |v.rows.jobs| == |w.rows.jobs|
    requires forall i :: 0 <= i < |w.rows.jobs| ==>
      (v.rows.jobs[i] == w.rows.jobs[i] ||
       (w.rows.jobs[i].status == Pending && v.rows.jobs[i] == w.rows.jobs[i].(status := Cancelled) && i in v.calledOff))
    ensures Placed(v, p)
  {
    var jobs, more := w.rows.jobs, v.rows.jobs;
    forall i, m ensures IsStop(more, i, p, m) <==> IsStop(jobs, i, p, m) {}
    forall m, from ensures StopSince(more, p, m, from) <==> StopSince(jobs, p, m, from) {
      StopsAgree(jobs, more, p, m, from);
    }
    forall i | IsDeploy(more, i, p)
      ensures p in v.rows.projects ==> Kept(v, p, i)
      ensures p !in v.rows.projects ==> Cleared(v, p, i)
    {
      assert IsDeploy(jobs, i, p);
      assert LandedOn(w, p, jobs[i].node) ==> LandedOn(v, p, jobs[i].node);
    }
  }

  // ---- deleting ----

  lemma DeletingClears(w: World, v: World, p: ProjectId, order: seq<NodeId>)
    requires WellFormed(w.rows) && CopyHistory.LandedWell(w) && Placed(w, p) && p in w.rows.projects
    requires Lists(order, DeleteTargets(w.rows, p)) && v == w.(rows := Deleted(w.rows, p, order, w.now))
    ensures Placed(v, p)
  {
    var jobs, more := w.rows.jobs, v.rows.jobs;
    WitnessesStay(jobs, more);
    forall i | IsDeploy(more, i, p) ensures Cleared(v, p, i) {
      DeployJobsAreDeploys(w.rows, p, i);
      assert IsDeploy(jobs, i, p) && Kept(w, p, i);
      var n := jobs[i].node;
      if Active(jobs[i]) || w.rows.projects[p].node == Some(n) {
        assert n in DeleteTargets(w.rows, p);
        RemovalFollows(w.rows, p, order, w.now, n, i + 1);
      }
    }
  }

  /** Every node the deletion lists gets a removal behind all jobs there are. */
  lemma RemovalFollows(s: State, p: ProjectId, order: seq<NodeId>, now: int, n: NodeId, from: int)
    requires p in s.projects && n in order && from <= |s.jobs|
    ensures StopSince(Deleted(s, p, order, now).jobs, p, n, from)
  {
    var a :| 0 <= a < |order| && order[a] == n;
    var more := Deleted(s, p, order, now).jobs;
    assert more[|s.jobs| + a] == StopJob(p, n, now);
    assert IsStop(more, |s.jobs| + a, p, n);
  }
}
