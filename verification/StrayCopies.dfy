/** Why convergence needs its condition: two runs, each with one failed deploy, that end with no job left to do and
    with the wrong copies. */
module StrayCopies {
  import opened Jobs
  import opened Hub
  import opened Protocol
  import opened CalmRuns
  import opened CopyHistory
  import C = Convergence
  import Scheduler
  import QueueRuns

  const APP: ProjectId := 7

  function Agent(n: NodeId): Node {
    Node(n, None, 0, 0, 0, 0.0, false, 0)
  }

  /** es is a calm run of a new Hub that ends in w. */
  ghost predicate Reaches(es: seq<Event>, w: World) {
    CanRun(Start(0), es) && CalmRun(Start(0), es) && Run(Start(0), es) == w
  }

  lemma {:induction false} RunLonger(w: World, es: seq<Event>, e: Event)
    requires CanRun(w, es) && CalmRun(w, es) && Enabled(Run(w, es), e) && Calm(Run(w, es), e)
    ensures CanRun(w, es + [e]) && CalmRun(w, es + [e]) && Run(w, es + [e]) == Step(Run(w, es), e)
    decreases |es|
  {
    if es == [] {
      assert [e][1..] == [];
    } else {
      RunLonger(Step(w, es[0]), es[1..], e);
      assert (es + [e])[1..] == es[1..] + [e];
    }
  }

  lemma Then(es: seq<Event>, w: World, e: Event, v: World)
    requires Reaches(es, w) && Enabled(w, e) && Calm(w, e) && Step(w, e) == v
    ensures Reaches(es + [e], v)
  {
    RunLonger(Start(0), es, e);
  }

  lemma NextIsOldest(jobs: seq<Job>, n: NodeId, c: JobId)
    requires PendingOn(jobs, n, c) && forall i :: 0 <= i < c ==> !PendingOn(jobs, n, i)
    requires forall i :: 0 <= i < |jobs| && jobs[i].node == n ==> jobs[i].status != Running
    ensures Scheduler.NextJob(jobs, Agent(n)) == Some(c)
  {
    QueueRuns.IdleClaimTakesOldest(QueueRuns.Queue(jobs, map[], 0), Agent(n), c);
    var r := Scheduler.NextJob(jobs, Agent(n));
    assert PendingOn(jobs, n, r.value);
  }

  function Deploying(n: NodeId): Job { NewJob(n, Deploy, App(APP), 0, 0) }
  function Going(j: Job): Job { j.(status := Running, startedAt := Some(0)) }
  function Ended(j: Job, s: Status): Job { j.(status := s, startedAt := Some(0), completedAt := Some(0)) }
  function Dep(j: JobId, n: NodeId, image: string, s: DeploymentStatus): Deployment { Deployment(APP, j, n, image, s) }
  function Proj(node: Option<NodeId>, d: Option<nat>, image: string, s: ProjectStatus, h: Health): Project {
    Project(node, d, image, s, h, 0)
  }

  ghost function AfterServing(w: World, c: JobId, ok: bool): World
    requires 0 <= c < |w.rows.jobs|
  {
    w.(rows := w.rows.(jobs := w.rows.jobs[c := Going(w.rows.jobs[c])]), outcomes := w.outcomes[c := ok],
       copies := AfterExecution(w.copies, w.rows.jobs[c], ok))
  }

  function Told(c: JobId, ok: bool): Event { Report(c, if ok then Completed else Failed) }

  /** An agent with nothing else to do claims job c, carries it out and reports. */
  lemma Serve(es: seq<Event>, w: World, c: JobId, ok: bool, v: World) returns (fs: seq<Event>)
    requires Reaches(es, w) && w.epochs == map[] && w.now == 0 && 0 <= c < |w.rows.jobs|
    requires PendingOn(w.rows.jobs, w.rows.jobs[c].node, c) && c !in w.outcomes
    requires forall i :: 0 <= i < c ==> !PendingOn(w.rows.jobs, w.rows.jobs[c].node, i)
    requires forall i :: 0 <= i < |w.rows.jobs| ==> w.rows.jobs[i].status != Running
    requires w.rows.jobs[c].kind == FailoverStop ==> ok
    requires v == Step(AfterServing(w, c, ok), Told(c, ok))
    ensures Reaches(fs, v)
  {
    var n := w.rows.jobs[c].node;
    NextIsOldest(w.rows.jobs, n, c);
    var claimed := w.(rows := w.rows.(jobs := w.rows.jobs[c := Going(w.rows.jobs[c])]));
    Then(es, w, Claim(Agent(n)), claimed);
    var done := AfterServing(w, c, ok);
    Then(es + [Claim(Agent(n))], claimed, Execute(c, ok), done);
    fs := es + [Claim(Agent(n))] + [Execute(c, ok)];
    Then(fs, done, Told(c, ok), v);
    fs := fs + [Told(c, ok)];
  }

  ghost function Created(): World {
    Start(0).(rows := State([], [], map[APP := Proj(None, None, "a", ProjectStatus.Deploying, Unknown)], []))
  }

  ghost function Queued(): World {
    Start(0).(rows := State([Deploying(1)], [Dep(0, 1, "a", DeployPending)],
      map[APP := Proj(None, Some(0), "a", ProjectStatus.Deploying, Unknown)], []))
  }

  lemma OneDeploy() returns (es: seq<Event>)
    ensures Reaches(es, Queued())
  {
    assert Reaches([], Start(0));
    Then([], Start(0), Create(APP, None, "a"), Created());
    es := [] + [Create(APP, None, "a")];
    Then(es, Created(), Dispatch(APP, 1, "a"), Queued());
    es := es + [Dispatch(APP, 1, "a")];
  }

  // ---- a copy too many ----

  ghost function TwoQueued(): World {
    Start(0).(rows := State([Deploying(1), Deploying(1)],
      [Dep(0, 1, "a", DeployPending), Dep(1, 1, "b", DeployPending)],
      map[APP := Proj(None, Some(1), "a", ProjectStatus.Deploying, Unknown)], []))
  }

  ghost function FirstDone(): World {
    TwoQueued().(rows := State([Ended(Deploying(1), Completed), Deploying(1)],
      [Dep(0, 1, "a", DeployCompleted), Dep(1, 1, "b", DeployPending)], TwoQueued().rows.projects, []),
      outcomes := map[0 := true], copies := {(APP, 1)}, spared := {0}, since := map[0 := 2])
  }

  ghost function BothDone(): World {
    FirstDone().(rows := State([Ended(Deploying(1), Completed), Ended(Deploying(1), Failed)],
      [Dep(0, 1, "a", DeployCompleted), Dep(1, 1, "b", DeployFailed)],
      map[APP := Proj(None, Some(1), "a", Down, Unhealthy)], []), outcomes := map[0 := true, 1 := false])
  }

  lemma FirstReport()
    ensures Step(AfterServing(TwoQueued(), 0, true), Told(0, true)) == FirstDone()
  {
    assert TwoQueued().rows.deployments[..1] == [Dep(0, 1, "a", DeployPending)];
    assert DeploymentOf([Dep(0, 1, "a", DeployPending)], 0) == Some(0);
  }

  lemma SecondReport()
    ensures Step(AfterServing(FirstDone(), 1, false), Told(1, false)) == BothDone()
  {
    assert FirstDone().rows.deployments[..1] == [Dep(0, 1, "a", DeployCompleted)];
    assert DeploymentOf([Dep(0, 1, "a", DeployCompleted)], 1) == None;
  }

  lemma UntilBothDone() returns (es: seq<Event>)
    ensures Reaches(es, BothDone())
  {
    es := OneDeploy();
    Then(es, Queued(), Dispatch(APP, 1, "b"), TwoQueued());
    es := es + [Dispatch(APP, 1, "b")];
    FirstReport();
    es := Serve(es, TwoQueued(), 0, true, FirstDone());
    SecondReport();
    es := Serve(es, FirstDone(), 1, false, BothDone());
  }

  lemma StrayIsAstray(es: seq<Event>, w: World)
    requires Reaches(es, w) && C.Quiet(w, APP) && APP in w.rows.projects && APP !in w.landed && (APP, 1) in w.copies
    ensures C.LastSpared(w, APP, 1) && C.WentAstray(w, APP) && !C.CopiesAsNamed(w, APP)
  {
    C.RunKeeps(Start(0), es);
    C.StrayWasSpared(w, APP, 1);
    C.ConvergesExactlyWhen(0, es, APP);
  }

  /** A deploy of node 1 is overtaken by another of node 1 and then succeeds, so its copy is left for the other, which
      fails: the copy on node 1 stays for good, while the Hub says the project runs nowhere. */
  lemma FailedDeployLeavesStray() returns (es: seq<Event>, w: World)
    ensures Reaches(es, w) && C.Quiet(w, APP) && APP in w.rows.projects
    ensures w.rows.projects[APP].node == None && (APP, 1) in w.copies
    ensures C.LastSpared(w, APP, 1) && C.WentAstray(w, APP) && !C.CopiesAsNamed(w, APP)
  {
    es := UntilBothDone();
    w := BothDone();
    StrayIsAstray(es, w);
  }

  // ---- a copy too few ----

  ghost function Landed(): World {
    Queued().(rows := State([Ended(Deploying(1), Completed)], [Dep(0, 1, "a", DeployCompleted)],
      map[APP := Proj(Some(1), Some(0), "a", InService, Unknown)], []),
      outcomes := map[0 := true], copies := {(APP, 1)}, landed := map[APP := 0], since := map[0 := 1])
  }

  ghost function Redeployed(): World {
    Landed().(rows := State([Ended(Deploying(1), Completed), Deploying(1)],
      [Dep(0, 1, "a", DeployCompleted), Dep(1, 1, "b", DeployPending)],
      map[APP := Proj(Some(1), Some(1), "a", InService, Unknown)], []))
  }

  ghost function Moving(): World {
    Landed().(rows := State([Ended(Deploying(1), Completed), Deploying(1), Deploying(2)],
      [Dep(0, 1, "a", DeployCompleted), Dep(1, 1, "b", DeployPending), Dep(2, 2, "c", DeployPending)],
      map[APP := Proj(Some(1), Some(2), "a", InService, Unknown)], []))
  }

  ghost function Evicted(): World {
    Moving().(rows := State([Ended(Deploying(1), Completed), Ended(Deploying(1), Completed), Deploying(2), StopJob(APP, 1, 0)],
      [Dep(0, 1, "a", DeployCompleted), Dep(1, 1, "b", DeployCompleted), Dep(2, 2, "c", DeployPending)],
      Moving().rows.projects, []),
      outcomes := map[0 := true, 1 := true], evicted := {3}, since := map[0 := 1, 1 := 3])
  }

  ghost function Removed(): World {
    Evicted().(rows := Evicted().rows.(jobs := Evicted().rows.jobs[3 := Ended(StopJob(APP, 1, 0), Completed)]),
      outcomes := map[0 := true, 1 := true, 3 := true], copies := {})
  }

  ghost function MoveFailed(): World {
    Removed().(rows := State([Ended(Deploying(1), Completed), Ended(Deploying(1), Completed), Ended(Deploying(2), Failed),
        Ended(StopJob(APP, 1, 0), Completed)],
      [Dep(0, 1, "a", DeployCompleted), Dep(1, 1, "b", DeployCompleted), Dep(2, 2, "c", DeployFailed)],
      Removed().rows.projects, []),
      outcomes := map[0 := true, 1 := true, 3 := true, 2 := false])
  }

  lemma LandingReport()
    ensures Step(AfterServing(Queued(), 0, true), Told(0, true)) == Landed()
  {
    assert Queued().rows.deployments[..0] == [];
  }

  lemma EvictingReport()
    ensures Step(AfterServing(Moving(), 1, true), Told(1, true)) == Evicted()
  {
    var deps := Moving().rows.deployments;
    assert deps[..2] == [Dep(0, 1, "a", DeployCompleted), Dep(1, 1, "b", DeployPending)];
    assert deps[..2][..1] == [Dep(0, 1, "a", DeployCompleted)];
    assert DeploymentOf([Dep(0, 1, "a", DeployCompleted)], 1) == None;
    assert DeploymentOf(deps[..2], 1) == Some(1);
  }

  lemma RemovalReport()
    ensures Step(AfterServing(Evicted(), 3, true), Told(3, true)) == Removed()
  {
  }

  lemma MoveReport()
    ensures Step(AfterServing(Removed(), 2, false), Told(2, false)) == MoveFailed()
  {
    var deps := Removed().rows.deployments;
    assert deps[..2] == [Dep(0, 1, "a", DeployCompleted), Dep(1, 1, "b", DeployCompleted)];
    assert deps[..2][..1] == [Dep(0, 1, "a", DeployCompleted)];
    assert DeploymentOf([Dep(0, 1, "a", DeployCompleted)], 2) == None;
    assert DeploymentOf(deps[..2], 2) == None;
  }

  lemma UntilEvicted() returns (es: seq<Event>)
    ensures Reaches(es, Evicted())
  {
    es := OneDeploy();
    LandingReport();
    es := Serve(es, Queued(), 0, true, Landed());
    Then(es, Landed(), Dispatch(APP, 1, "b"), Redeployed());
    es := es + [Dispatch(APP, 1, "b")];
    Then(es, Redeployed(), Dispatch(APP, 2, "c"), Moving());
    es := es + [Dispatch(APP, 2, "c")];
    EvictingReport();
    es := Serve(es, Moving(), 1, true, Evicted());
  }

  lemma UntilMoveFailed() returns (es: seq<Event>)
    ensures Reaches(es, MoveFailed())
  {
    es := UntilEvicted();
    RemovalReport();
    es := Serve(es, Evicted(), 3, true, Removed());
    MoveReport();
    es := Serve(es, Removed(), 2, false, MoveFailed());
  }

  lemma LostIsAstray(es: seq<Event>, w: World)
    requires Reaches(es, w) && C.Quiet(w, APP) && APP in w.rows.projects && LandedOn(w, APP, 1) && (APP, 1) !in w.copies
    ensures C.LastEvicted(w, APP, 1) && C.WentAstray(w, APP) && !C.CopiesAsNamed(w, APP)
  {
    C.RunKeeps(Start(0), es);
    C.LandedCopyStays(w, APP, 1);
    C.ConvergesExactlyWhen(0, es, APP);
  }

  /** A redeploy of the project's own node 1 is overtaken by a move to node 2 and then succeeds, so node 1 is told to
      remove the app; then the move fails: the Hub says the project is in service on node 1, where nothing runs. */
  lemma FailedMoveLosesCopy() returns (es: seq<Event>, w: World)
    ensures Reaches(es, w) && C.Quiet(w, APP) && APP in w.rows.projects
    ensures w.rows.projects[APP].node == Some(1) && w.rows.projects[APP].status == InService && C.NoCopies(w, APP)
    ensures C.LastEvicted(w, APP, 1) && C.WentAstray(w, APP) && !C.CopiesAsNamed(w, APP)
  {
    es := UntilMoveFailed();
    w := MoveFailed();
    LostIsAstray(es, w);
  }
}
