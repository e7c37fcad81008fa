/** The Hub's handlers as steps of the protocol: each method changes the rows as the step named in its contract does, so
    whatever holds in every run holds for the service after any sequence of calls. */
module LiveHub {
  import opened Jobs
  import opened Hub
  import opened Protocol
  import CopyHistory
  import JobLife
  import M = MigrationRuns
  import Scheduler

  /** Copies are accounted for, rows belong together, and a project has at most one active migration. */
  ghost predicate Kept(w: World) {
    CopyHistory.Inv(w) && M.MigrationsMatch(w.rows) && M.OneActive(w.rows)
  }

  lemma SettlingKeepsOneActive(s: State, t: State)
    requires M.OneActive(s) && M.Settles(s, t)
    ensures M.OneActive(t)
  {
    forall a, b | 0 <= a < b < |t.migrations| && ActiveMigration(t.migrations[a]) && ActiveMigration(t.migrations[b])
      ensures t.migrations[a].project != t.migrations[b].project
    {
      assert ActiveMigration(s.migrations[a]) && ActiveMigration(s.migrations[b]);
    }
  }

  lemma SweepKeepsOneActive(s: State, ids: seq<nat>)
    requires M.OneActive(s) && forall a :: 0 <= a < |ids| ==> ids[a] < |s.migrations|
    ensures M.OneActive(AllAbandoned(s, ids))
  {
    var t := AllAbandoned(s, ids);
    JobLife.AbandonedRows(s, ids);
    forall a, b | 0 <= a < b < |t.migrations| && ActiveMigration(t.migrations[a]) && ActiveMigration(t.migrations[b])
      ensures t.migrations[a].project != t.migrations[b].project
    {
      assert t.migrations[a] == s.migrations[a] && t.migrations[b] == s.migrations[b];
    }
  }

  lemma StartKeepsOneActive(s: State, p: ProjectId, target: NodeId, image: string, now: int)
    requires M.OneActive(s) && p in s.projects && !HasActiveMigration(s.migrations, p)
    ensures M.OneActive(MigrationStarted(s, p, target, image, now))
  {
  }

  lemma StepKeeps(w: World, e: Event)
    requires Kept(w) && Enabled(w, e)
    ensures Kept(Step(w, e))
  {
    CopyHistory.StepKeeps(w, e);
    M.StepMatches(w, e);
    match e
    case Migrate(p, target, image) => StartKeepsOneActive(w.rows, p, target, image, w.now);
    case SweepMigrations(live) => SweepKeepsOneActive(w.rows, AbandonedIds(w.rows, live, w.now, |w.rows.migrations|));
    case _ => {
      M.OtherStepsSettle(w, e);
      SettlingKeepsOneActive(w.rows, Step(w, e).rows);
    }
  }

  lemma {:induction false} RunKeeps(w: World, es: seq<Event>)
    requires Kept(w) && CanRun(w, es)
    ensures Kept(Run(w, es))
    decreases |es|
  {
    if es != [] {
      StepKeeps(w, es[0]);
      RunKeeps(Step(w, es[0]), es[1..]);
    }
  }

  lemma RunOfOne(w: World, e: Event)
    requires Enabled(w, e)
    ensures CanRun(w, [e]) && Run(w, [e]) == Step(w, e)
  {
  }

  lemma RunOfTwo(w: World, e: Event, f: Event)
    requires Enabled(w, e) && Enabled(Step(w, e), f)
    ensures CanRun(w, [e, f]) && Run(w, [e, f]) == Step(Step(w, e), f)
  {
    RunOfOne(Step(w, e), f);
    assert [e, f][1..] == [f];
  }

  /** The service beside the protocol's state; now is always the time of the call. */
  class RunningHub {
    const hub: HubService
    ghost var world: World

    ghost predicate Valid()
      reads this, hub
    {
      hub.Rows() == world.rows && Kept(world)
    }

    constructor (now: int)
      ensures Valid() && fresh(hub) && world == Start(now)
    {
      hub := new HubService();
      world := Start(now);
    }

    method Dispatch(p: ProjectId, n: NodeId, image: string, now: int) returns (job: JobId)
      requires Valid() && now == world.now && Enabled(world, Event.Dispatch(p, n, image))
      modifies this, hub
      ensures Valid() && world == Step(old(world), Event.Dispatch(p, n, image)) && job == |old(world).rows.jobs|
    {
      StepKeeps(world, Event.Dispatch(p, n, image));
      job := hub.Dispatch(p, n, image, now);
      world := Step(world, Event.Dispatch(p, n, image));
    }

    method Claim(agent: Node, now: int) returns (claimed: Option<JobId>)
      requires Valid() && now == world.now && Enabled(world, Event.Claim(agent))
      modifies this, hub
      ensures Valid() && world == Step(old(world), Event.Claim(agent))
      ensures claimed == Scheduler.NextJob(old(world).rows.jobs, agent)
    {
      StepKeeps(world, Event.Claim(agent));
      var table := new Scheduler.JobTable(hub.jobs);
      claimed := table.Next(agent, now);
      hub.jobs := table.jobs;
      world := Step(world, Event.Claim(agent));
    }

    method Complete(j: JobId, status: Status, now: int)
      requires Valid() && now == world.now && Enabled(world, Report(j, status))
      modifies this, hub
      ensures Valid() && world == Step(old(world), Report(j, status))
    {
      StepKeeps(world, Report(j, status));
      hub.Complete(j, status, now);
      world := Step(world, Report(j, status));
    }

    method FailStuckJobs(now: int)
      requires Valid() && now == world.now
      modifies this, hub
      ensures Valid() && world == Step(old(world), SweepStuck)
    {
      StepKeeps(world, SweepStuck);
      hub.FailStuckJobs(now);
      world := Step(world, SweepStuck);
    }

    method CleanupStuckMigrations(live: set<NodeId>, now: int)
      requires Valid() && now == world.now
      modifies this, hub
      ensures Valid() && world == Step(old(world), SweepMigrations(live))
    {
      StepKeeps(world, SweepMigrations(live));
      hub.CleanupStuckMigrations(live, now);
      world := Step(world, SweepMigrations(live));
    }

    /** The removals are queued in some order of the nodes. */
    method DeleteProject(p: ProjectId, now: int) returns (ghost order: seq<NodeId>)
      requires Valid() && now == world.now && p in world.rows.projects
      modifies this, hub
      ensures Valid() && Enabled(old(world), Delete(p, order)) && world == Step(old(world), Delete(p, order))
    {
      order := hub.DeleteProject(p, now);
      StepKeeps(world, Delete(p, order));
      world := Step(world, Delete(p, order));
    }

    /** A refused move is no step at all; any other starts the image in the project's row on the target. */
    method MigrateToNode(p: ProjectId, target: NodeId, clash: bool, now: int) returns (ghost es: seq<Event>)
      requires Valid() && now == world.now
      modifies this, hub
      ensures Valid() && CanRun(old(world), es) && world == Run(old(world), es)
      ensures var s := old(world).rows;
        if p in s.projects && s.projects[p].node.Some? && s.projects[p].node != Some(target) && !clash &&
           s.projects[p].image != "" && !HasActiveMigration(s.migrations, p)
        then es == [Migrate(p, target, s.projects[p].image)]
        else es == []
    {
      ghost var s := world.rows;
      hub.MigrateToNode(p, target, clash, now);
      es := [];
      if !(p !in s.projects || s.projects[p].node == Some(target) || s.projects[p].node.None? || clash ||
           HasActiveMigration(s.migrations, p) || s.projects[p].image == "")
      {
        es := [Migrate(p, target, s.projects[p].image)];
        RunOfOne(world, es[0]);
      }
      RunKeeps(world, es);
      world := Run(world, es);
    }

    /** The new image is recorded first, and the move starts if nothing stands in its way. */
    method MigrateProject(p: ProjectId, target: NodeId, image: string, clash: bool, now: int)
      returns (accepted: bool, ghost es: seq<Event>)
      requires Valid() && now == world.now
      modifies this, hub
      ensures Valid() && CanRun(old(world), es) && world == Run(old(world), es)
      ensures accepted <==> exists e :: e in es && e.Migrate?
    {
      ghost var w := world;
      accepted := hub.MigrateProject(p, target, image, clash, now);
      es := [];
      if p in w.rows.projects {
        es := MoveEvents(w, p, target, image, accepted);
        MovesAsAsked(w, p, target, image, clash, accepted);
      }
      RunKeeps(world, es);
      world := Run(world, es);
    }

    /** Waiting is no step; putting an image back or starting it again is a deploy to the app's own node. */
    method FailOver(p: ProjectId, f: Finding, now: int) returns (ghost es: seq<Event>)
      requires Valid() && now == world.now && IsHomed(world.rows, p, f) && f.rollback != Some("")
      requires f.target.Some? ==> f.target != world.rows.projects[p].node
      modifies this, hub
      ensures Valid() && CanRun(old(world), es) && world == Run(old(world), es) && es == FailOverEvents(old(world), p, f)
    {
      ghost var w := world;
      hub.FailOver(p, f, now);
      es := FailOverEvents(w, p, f);
      FailsOver(w, p, f);
      RunKeeps(world, es);
      world := Run(world, es);
    }
  }

  ghost function MoveEvents(w: World, p: ProjectId, target: NodeId, image: string, accepted: bool): seq<Event>
    requires p in w.rows.projects
  {
    (if image == "" then [] else [SetImage(p, image)]) +
    if accepted then [Migrate(p, target, if image == "" then w.rows.projects[p].image else image)] else []
  }

  lemma MovesAsAsked(w: World, p: ProjectId, target: NodeId, image: string, clash: bool, accepted: bool)
    requires p in w.rows.projects
    requires var s := w.rows;
      var t := if image == "" then s else s.(projects := s.projects[p := s.projects[p].(image := image)]);
      accepted == (t.projects[p].node.Some? && t.projects[p].node != Some(target) && !clash &&
                   !HasActiveMigration(t.migrations, p) && t.projects[p].image != "")
    ensures var s, es := w.rows, MoveEvents(w, p, target, image, accepted);
      var t := if image == "" then s else s.(projects := s.projects[p := s.projects[p].(image := image)]);
      CanRun(w, es) &&
      Run(w, es).rows == if accepted then MigrationStarted(t, p, target, t.projects[p].image, w.now) else t
    ensures accepted <==> exists e :: e in MoveEvents(w, p, target, image, accepted) && e.Migrate?
  {
    var es := MoveEvents(w, p, target, image, accepted);
    if accepted {
      var move := Migrate(p, target, if image == "" then w.rows.projects[p].image else image);
      assert es[|es| - 1] == move;
      if image == "" {
        assert es == [move];
        RunOfOne(w, move);
      } else {
        assert es == [SetImage(p, image), move];
        RunOfTwo(w, SetImage(p, image), move);
      }
    } else if image != "" {
      assert es == [SetImage(p, image)];
      RunOfOne(w, SetImage(p, image));
    }
  }

  /** A deploy to the app's own node, noted in its health. */
  ghost function AtHome(w: World, p: ProjectId, image: string): seq<Event>
    requires p in w.rows.projects && w.rows.projects[p].node.Some?
  {
    var project := w.rows.projects[p];
    [Event.Dispatch(p, project.node.value, image), SetStatus(p, project.status, Degraded)]
  }

  ghost function FailOverEvents(w: World, p: ProjectId, f: Finding): seq<Event>
    requires IsHomed(w.rows, p, f)
  {
    var image := FailoverImage(w.rows.deployments, w.rows.projects[p]);
    if HasActiveMigration(w.rows.migrations, p) || f.rollingBack then []
    else if f.rollback.Some? then AtHome(w, p, f.rollback.value)
    else if image == "" then [SetStatus(p, Down, Unhealthy)]
    else if f.pinned || f.target.None? then
      match f.inPlace
      case Declined => [SetStatus(p, Down, Unhealthy)]
      case Waiting => []
      case Restarting => AtHome(w, p, image)
    else [Migrate(p, f.target.value, image)]
  }

  /** The app is being looked after already. */
  predicate InHand(s: State, p: ProjectId, f: Finding) {
    f.rollingBack ||
    (exists m :: 0 <= m < |s.migrations| && s.migrations[m].project == p &&
      (s.migrations[m].status == MigrationPending || s.migrations[m].status == MigrationRunning))
  }

  predicate MovesAway(f: Finding, image: string) {
    f.rollback.None? && image != "" && !f.pinned && f.target.Some?
  }

  predicate StaysHome(f: Finding, image: string) {
    f.rollback.Some? || (image != "" && (f.pinned || f.target.None?) && f.inPlace == Restarting)
  }

  predicate HasNoWay(f: Finding, image: string) {
    f.rollback.None? && (image == "" || ((f.pinned || f.target.None?) && f.inPlace == Declined))
  }

  /** The deploy of an image to node n that a failover adds. */
  ghost predicate Deploys(s: State, t: State, p: ProjectId, n: NodeId, image: string, now: int) {
    t.jobs == s.jobs + [Job(n, Deploy, App(p), Pending, now, 0, None, None)] &&
    t.deployments == s.deployments + [Deployment(p, |s.jobs|, n, image, DeployPending)]
  }

  /** What a failover does to an app that is not in hand, and when: it moves the app to the target as a migration, starts
      the image on the app's own node, gives the app up, or waits. */
  lemma FailOverChooses(s: State, p: ProjectId, f: Finding, now: int)
    requires IsHomed(s, p, f)
    ensures var t, project, last := FailedOver(s, p, f, now), s.projects[p], FailoverImage(s.deployments, s.projects[p]);
      if InHand(s, p, f) then t == s
      else if MovesAway(f, last) then
        Deploys(s, t, p, f.target.value, last, now) &&
        t.migrations == s.migrations + [Migration(p, project.node, f.target.value, |s.jobs|, MigrationRunning, now)] &&
        t.projects == s.projects[p := project.(deployment := Some(|s.deployments|), health := Migrating)]
      else if StaysHome(f, last) then
        Deploys(s, t, p, project.node.value, if f.rollback.Some? then f.rollback.value else last, now) &&
        t.migrations == s.migrations &&
        t.projects == s.projects[p := project.(deployment := Some(|s.deployments|), health := Degraded)]
      else if HasNoWay(f, last) then
        t == s.(projects := s.projects[p := project.(status := Down, health := Unhealthy)])
      else t == s && f.inPlace == Waiting
    ensures var last := FailoverImage(s.deployments, s.projects[p]);
      !(MovesAway(f, last) && StaysHome(f, last)) && !(MovesAway(f, last) && HasNoWay(f, last)) &&
      !(StaysHome(f, last) && HasNoWay(f, last))
  {
    assert InHand(s, p, f) <==> HasActiveMigration(s.migrations, p) || f.rollingBack;
  }

  lemma StartsAtHome(w: World, p: ProjectId, image: string)
    requires p in w.rows.projects && w.rows.projects[p].node.Some? && image != ""
    ensures CanRun(w, AtHome(w, p, image))
    ensures Run(w, AtHome(w, p, image)).rows == StartedAtHome(w.rows, p, image, w.now)
  {
    var project := w.rows.projects[p];
    RunOfTwo(w, Event.Dispatch(p, project.node.value, image), SetStatus(p, project.status, Degraded));
  }

  lemma FailsOver(w: World, p: ProjectId, f: Finding)
    requires IsHomed(w.rows, p, f) && f.rollback != Some("") && (f.target.Some? ==> f.target != w.rows.projects[p].node)
    ensures CanRun(w, FailOverEvents(w, p, f))
    ensures Run(w, FailOverEvents(w, p, f)).rows == FailedOver(w.rows, p, f, w.now)
  {
    var es := FailOverEvents(w, p, f);
    if |es| == 2 {
      StartsAtHome(w, p, es[0].image);
    } else if |es| == 1 {
      RunOfOne(w, es[0]);
    }
  }
}
