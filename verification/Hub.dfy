/** The Hub's deploy rows and the handlers that change them: dispatching a deploy, recording how it ended, removing
    copies that are no longer wanted, moving a project and deleting it. */
module Hub {
  import opened Jobs

  datatype DeploymentStatus = DeployPending | DeployCompleted | DeployFailed

  datatype Deployment = Deployment(project: ProjectId, job: JobId, node: NodeId, image: string, status: DeploymentStatus)

  datatype ProjectStatus = Stopped | Deploying | InService | Down

  datatype Health = Unknown | Degraded | Unhealthy | Migrating

  /** node is where the project runs, as far as the Hub knows; deployment is the newest deploy dispatched for it. */
  datatype Project = Project(node: Option<NodeId>, deployment: Option<nat>, image: string, status: ProjectStatus,
    health: Health, lastDeployed: int)

  datatype MigrationStatus = MigrationPending | MigrationRunning | MigrationCompleted | MigrationFailed

  datatype Migration = Migration(project: ProjectId, source: Option<NodeId>, target: NodeId, job: JobId,
    status: MigrationStatus, createdAt: int)

  datatype State = State(jobs: seq<Job>, deployments: seq<Deployment>, projects: map<ProjectId, Project>,
    migrations: seq<Migration>)

  // ---- looking rows up ----

  function DeploymentOf(deployments: seq<Deployment>, job: JobId): (r: Option<nat>)
    ensures r.Some? ==> r.value < |deployments| && deployments[r.value].job == job
    ensures forall d :: 0 <= d < (if r.Some? then r.value else |deployments|) ==> deployments[d].job != job
  {
    if deployments == [] then None
    else
      var rest := DeploymentOf(deployments[..|deployments| - 1], job);
      if rest.Some? then rest
      else if deployments[|deployments| - 1].job == job then Some(|deployments| - 1)
      else None
  }

  function MigrationOf(migrations: seq<Migration>, job: JobId): (r: Option<nat>)
    ensures r.Some? ==> r.value < |migrations| && migrations[r.value].job == job
    ensures forall m :: 0 <= m < (if r.Some? then r.value else |migrations|) ==> migrations[m].job != job
  {
    if migrations == [] then None
    else
      var rest := MigrationOf(migrations[..|migrations| - 1], job);
      if rest.Some? then rest
      else if migrations[|migrations| - 1].job == job then Some(|migrations| - 1)
      else None
  }

  predicate ActiveMigration(m: Migration) {
    m.status == MigrationPending || m.status == MigrationRunning
  }

  predicate HasActiveMigration(migrations: seq<Migration>, p: ProjectId) {
    exists m :: 0 <= m < |migrations| && migrations[m].project == p && ActiveMigration(migrations[m])
  }

  // ---- what each handler does to the rows ----

  function StopJob(p: ProjectId, n: NodeId, now: int): Job {
    NewJob(n, FailoverStop, App(p), 0, now)
  }

  function Dispatched(s: State, p: ProjectId, n: NodeId, image: string, now: int): State
    requires p in s.projects
  {
    s.(jobs := s.jobs + [NewJob(n, Deploy, App(p), 0, now)],
       deployments := s.deployments + [Deployment(p, |s.jobs|, n, image, DeployPending)],
       projects := s.projects[p := s.projects[p].(deployment := Some(|s.deployments|))])
  }

  /** Whether the copy a superseded deploy started on n is left alone, because the newest deploy goes to n as well. If
      that one is not recorded, the project's own node is left alone. */
  predicate Spares(s: State, p: ProjectId, n: NodeId)
    requires p in s.projects && s.projects[p].deployment.Some?
  {
    var newer := s.projects[p].deployment.value;
    if newer < |s.deployments| then s.deployments[newer].node == n else s.projects[p].node == Some(n)
  }

  function StrayRemoved(s: State, p: ProjectId, n: NodeId, now: int): State
    requires p in s.projects && s.projects[p].deployment.Some?
  {
    if Spares(s, p, n) then s else s.(jobs := s.jobs + [StopJob(p, n, now)])
  }

  predicate Superseded(project: Project, d: nat) {
    project.deployment.Some? && project.deployment.value != d
  }

  function DeployEnded(s: State, j: JobId, now: int): State
    requires 0 <= j < |s.jobs|
  {
    var found := DeploymentOf(s.deployments, j);
    if found.None? then s
    else
      var d := found.value;
      var succeeded := s.jobs[j].status == Completed;
      var dep := s.deployments[d];
      var t := s.(deployments := s.deployments[d := dep.(status := if succeeded then DeployCompleted else DeployFailed)]);
      if dep.project !in t.projects then t
      else
        var project := t.projects[dep.project];
        if Superseded(project, d) then
          if succeeded then StrayRemoved(t, dep.project, t.jobs[j].node, now) else t
        else if !succeeded then
          if project.node.None? then
            t.(projects := t.projects[dep.project := project.(status := Down, health := Unhealthy)])
          else
            t.(projects := t.projects[dep.project := project.(status := InService, health := Unknown)])
        else
          var u := t.(projects := t.projects[dep.project := project.(status := InService, health := Unknown,
            node := Some(t.jobs[j].node), image := dep.image, lastDeployed := now)]);
          if project.node.Some? && project.node.value != t.jobs[j].node then
            u.(jobs := u.jobs + [StopJob(dep.project, project.node.value, now)])
          else u
  }

  predicate DuplicateReport(job: Job, status: Status) {
    job.completedAt.Some? && job.status == status
  }

  function EndJob(job: Job, status: Status, now: int): Job {
    job.(status := status, completedAt := Some(now))
  }

  function MigrationSettled(s: State, j: JobId, status: Status): State {
    var m := MigrationOf(s.migrations, j);
    if m.None? then s
    else s.(migrations := s.migrations[m.value :=
      s.migrations[m.value].(status := if status == Completed then MigrationCompleted else MigrationFailed)])
  }

  function Reported(s: State, j: JobId, status: Status, now: int): State
    requires 0 <= j < |s.jobs|
  {
    if DuplicateReport(s.jobs[j], status) then s
    else
      var t := MigrationSettled(s.(jobs := s.jobs[j := EndJob(s.jobs[j], status, now)]), j, status);
      if s.jobs[j].kind == Deploy then DeployEnded(t, j, now) else t
  }

  const STUCK_JOB_AFTER := 3600

  predicate Stuck(job: Job, now: int) {
    job.status == Running && job.startedAt.Some? && job.startedAt.value < now - STUCK_JOB_AFTER &&
    now - job.startedAt.value >= job.timeout
  }

  /** The stuck-job sweeper gives up on one job. */
  function GivenUp(s: State, j: JobId, now: int): State
    requires 0 <= j < |s.jobs|
  {
    var t := s.(jobs := s.jobs[j := EndJob(s.jobs[j], Failed, now)]);
    if s.jobs[j].kind == Deploy then DeployEnded(t, j, now) else t
  }

  // ---- deleting a project ----

  function DeployJobs(deployments: seq<Deployment>, p: ProjectId): set<JobId> {
    set d | 0 <= d < |deployments| && deployments[d].project == p :: deployments[d].job
  }

  /** Where a copy can be or still appear: on the project's own node, and on those of its active deploys. */
  function DeleteTargets(s: State, p: ProjectId): set<NodeId>
    requires p in s.projects
  {
    (if s.projects[p].node.Some? then {s.projects[p].node.value} else {}) +
    (set i | 0 <= i < |s.jobs| && i in DeployJobs(s.deployments, p) && Active(s.jobs[i]) :: s.jobs[i].node)
  }

  function PendingCancelled(jobs: seq<Job>, ids: set<JobId>): (r: seq<Job>)
    ensures |r| == |jobs|
    ensures forall i :: 0 <= i < |jobs| ==>
      r[i] == if i in ids && jobs[i].status == Pending then jobs[i].(status := Cancelled) else jobs[i]
  {
    seq(|jobs|, i requires 0 <= i < |jobs| =>
      if i in ids && jobs[i].status == Pending then jobs[i].(status := Cancelled) else jobs[i])
  }

  function StopJobs(p: ProjectId, order: seq<NodeId>, now: int): (r: seq<Job>)
    ensures |r| == |order| && forall i :: 0 <= i < |r| ==> r[i] == StopJob(p, order[i], now)
  {
    seq(|order|, i requires 0 <= i < |order| => StopJob(p, order[i], now))
  }

  ghost predicate Lists(order: seq<NodeId>, nodes: set<NodeId>) {
    (forall n :: n in order <==> n in nodes) && forall a, b :: 0 <= a < b < |order| ==> order[a] != order[b]
  }

  /** The rows once p is deleted; order is the order in which the nodes' removals happen to be queued. */
  function Deleted(s: State, p: ProjectId, order: seq<NodeId>, now: int): State
    requires p in s.projects
  {
    s.(jobs := PendingCancelled(s.jobs, DeployJobs(s.deployments, p)) + StopJobs(p, order, now),
       projects := s.projects - {p})
  }

  // ---- migrations ----

  function MigrationStarted(s: State, p: ProjectId, target: NodeId, image: string, now: int): State
    requires p in s.projects
  {
    var t := Dispatched(s, p, target, image, now);
    t.(migrations := t.migrations + [Migration(p, s.projects[p].node, target, |s.jobs|, MigrationRunning, now)],
       projects := t.projects[p := t.projects[p].(health := Migrating)])
  }

  /** A deploy still under way is the newest intent; otherwise the image that last ran. */
  function FailoverImage(deployments: seq<Deployment>, project: Project): string {
    if project.deployment.Some? && project.deployment.value < |deployments| &&
       deployments[project.deployment.value].image != "" &&
       deployments[project.deployment.value].status == DeployPending
    then deployments[project.deployment.value].image
    else project.image
  }

  /** How the attempt to start an app again on its own node went. */
  datatype InPlace = Declined | Waiting | Restarting

  /** What is known when an app that does not answer is acted on: whether it is being put back to an earlier image, the
      image it should be put back to if its newest one went bad, whether it may move and where to, and the answer of a
      restart in place. */
  datatype Finding = Finding(rollingBack: bool, rollback: Option<string>, pinned: bool, target: Option<NodeId>,
    inPlace: InPlace)

  predicate IsHomed(s: State, p: ProjectId, f: Finding) {
    p in s.projects && (f.rollback.Some? || f.inPlace == Restarting ==> s.projects[p].node.Some?)
  }

  function GivenUpOnApp(s: State, p: ProjectId): State
    requires p in s.projects
  {
    s.(projects := s.projects[p := s.projects[p].(status := Down, health := Unhealthy)])
  }

  function StartedAtHome(s: State, p: ProjectId, image: string, now: int): State
    requires p in s.projects && s.projects[p].node.Some?
  {
    var t := Dispatched(s, p, s.projects[p].node.value, image, now);
    t.(projects := t.projects[p := t.projects[p].(health := Degraded)])
  }

  function FailedOver(s: State, p: ProjectId, f: Finding, now: int): State
    requires IsHomed(s, p, f)
  {
    var image := FailoverImage(s.deployments, s.projects[p]);
    if HasActiveMigration(s.migrations, p) || f.rollingBack then s
    else if f.rollback.Some? then StartedAtHome(s, p, f.rollback.value, now)
    else if image == "" then GivenUpOnApp(s, p)
    else if f.pinned || f.target.None? then
      match f.inPlace
      case Declined => GivenUpOnApp(s, p)
      case Waiting => s
      case Restarting => StartedAtHome(s, p, image, now)
    else MigrationStarted(s, p, f.target.value, image, now)
  }

  const UNCLAIMED_ON_QUIET_NODE := 60
  const UNCLAIMED_ON_LIVE_NODE := 600
  const MIGRATION_RUN_LIMIT := 300

  /** Whether a running migration has had all the time it is allowed; job is None when its row is gone. */
  function MigrationStuck(m: Migration, job: Option<Job>, targetLive: bool, now: int): (stuck: bool)
    ensures job.None? ==> (stuck <==> now - m.createdAt > MIGRATION_RUN_LIMIT)
    ensures job.Some? && job.value.status == Pending ==>
      (stuck <==> now - m.createdAt > if targetLive then UNCLAIMED_ON_LIVE_NODE else UNCLAIMED_ON_QUIET_NODE)
    ensures job.Some? && job.value.status == Running && job.value.startedAt.Some? ==>
      (stuck <==> now - job.value.startedAt.value > MIGRATION_RUN_LIMIT)
    ensures job.Some? && !Active(job.value) && now - m.createdAt > MIGRATION_RUN_LIMIT ==> stuck
    ensures job.Some? && (job.value.status == Failed || job.value.status == Cancelled) ==> stuck
  {
    var age := now - m.createdAt;
    if job.None? then age > MIGRATION_RUN_LIMIT
    else match job.value.status
      case Pending => if targetLive then age > UNCLAIMED_ON_LIVE_NODE else age > UNCLAIMED_ON_QUIET_NODE
      case Running =>
        var started := if job.value.startedAt.Some? then job.value.startedAt.value else job.value.createdAt;
        now - started > MIGRATION_RUN_LIMIT
      case ended => ended != Completed || age > MIGRATION_RUN_LIMIT
  }

  function JobRow(jobs: seq<Job>, j: JobId): Option<Job> {
    if 0 <= j < |jobs| then Some(jobs[j]) else None
  }

  /** The sweeper's query and test for migration m, when the nodes in live are answering. */
  predicate Abandons(s: State, m: nat, live: set<NodeId>, now: int)
    requires m < |s.migrations|
  {
    var mig := s.migrations[m];
    mig.status == MigrationRunning && mig.createdAt < now - UNCLAIMED_ON_QUIET_NODE &&
    MigrationStuck(mig, JobRow(s.jobs, mig.job), mig.target in live, now)
  }

  function Cancelled1(jobs: seq<Job>, j: JobId): seq<Job> {
    if 0 <= j < |jobs| && jobs[j].status == Pending then jobs[j := jobs[j].(status := Cancelled)] else jobs
  }

  function MigrationAbandoned(s: State, m: nat): State
    requires m < |s.migrations|
  {
    s.(migrations := s.migrations[m := s.migrations[m].(status := MigrationFailed)],
       jobs := Cancelled1(s.jobs, s.migrations[m].job))
  }

  /** The IDs below k of the migrations one sweep gives up on. */
  function AbandonedIds(s: State, live: set<NodeId>, now: int, k: nat): (ids: seq<nat>)
    requires k <= |s.migrations|
    ensures forall a :: 0 <= a < |ids| ==> ids[a] < k && Abandons(s, ids[a], live, now)
    ensures forall m :: 0 <= m < k && Abandons(s, m, live, now) ==> m in ids
  {
    if k == 0 then []
    else AbandonedIds(s, live, now, k - 1) + (if Abandons(s, k - 1, live, now) then [k - 1] else [])
  }

  function AllAbandoned(s: State, ids: seq<nat>): (t: State)
    requires forall a :: 0 <= a < |ids| ==> ids[a] < |s.migrations|
    ensures |t.migrations| == |s.migrations|
  {
    if ids == [] then s
    else MigrationAbandoned(AllAbandoned(s, ids[..|ids| - 1]), ids[|ids| - 1])
  }

  function StuckIds(jobs: seq<Job>, now: int, k: nat): (ids: seq<JobId>)
    requires k <= |jobs|
    ensures forall a :: 0 <= a < |ids| ==> 0 <= ids[a] < k && Stuck(jobs[ids[a]], now)
    ensures forall j :: 0 <= j < k && Stuck(jobs[j], now) ==> j in ids
  {
    if k == 0 then []
    else StuckIds(jobs, now, k - 1) + (if Stuck(jobs[k - 1], now) then [k - 1] else [])
  }

  function AllGivenUp(s: State, ids: seq<JobId>, now: int): (t: State)
    requires forall a :: 0 <= a < |ids| ==> 0 <= ids[a] < |s.jobs|
    ensures |t.jobs| >= |s.jobs|
  {
    if ids == [] then s
    else GivenUp(AllGivenUp(s, ids[..|ids| - 1], now), ids[|ids| - 1], now)
  }

  // ---- the handlers themselves ----

  class HubService {
    var jobs: seq<Job>
    var deployments: seq<Deployment>
    var projects: map<ProjectId, Project>
    var migrations: seq<Migration>

    constructor ()
      ensures Rows() == State([], [], map[], [])
    {
      jobs, deployments, projects, migrations := [], [], map[], [];
    }

    ghost function Rows(): State
      reads this
    {
      State(jobs, deployments, projects, migrations)
    }

    /** Queues a deploy of image on n and makes it the project's current deployment. */
    method Dispatch(p: ProjectId, n: NodeId, image: string, now: int) returns (job: JobId)
      requires p in projects
      modifies this
      ensures Rows() == Dispatched(old(Rows()), p, n, image, now) && job == |old(jobs)|
    {
      job := |jobs|;
      jobs := jobs + [NewJob(n, Deploy, App(p), 0, now)];
      var dep := |deployments|;
      deployments := deployments + [Deployment(p, job, n, image, DeployPending)];
      projects := projects[p := projects[p].(deployment := Some(dep))];
    }

    /** An agent's report of how a job ended. */
    method Complete(j: JobId, status: Status, now: int)
      requires 0 <= j < |jobs|
      modifies this
      ensures Rows() == Reported(old(Rows()), j, status, now)
    {
      if jobs[j].completedAt.Some? && jobs[j].status == status {
        return;
      }
      jobs := jobs[j := EndJob(jobs[j], status, now)];
      var m := MigrationOf(migrations, j);
      if m.Some? {
        var ended := if status == Completed then MigrationCompleted else MigrationFailed;
        migrations := migrations[m.value := migrations[m.value].(status := ended)];
      }
      if jobs[j].kind == Deploy {
        CompleteDeploy(j, now);
      }
    }

    method CompleteDeploy(j: JobId, now: int)
      requires 0 <= j < |jobs|
      modifies this
      ensures Rows() == DeployEnded(old(Rows()), j, now)
    {
      var succeeded := jobs[j].status == Completed;
      var found := DeploymentOf(deployments, j);
      if found.None? {
        return;
      }
      var d := found.value;
      var p := deployments[d].project;
      deployments := deployments[d := deployments[d].(status := if succeeded then DeployCompleted else DeployFailed)];
      if p !in projects {
        return;
      }
      var project := projects[p];
      if project.deployment.Some? && project.deployment.value != d {
        if succeeded {
          RemoveStrayCopy(p, jobs[j].node, now);
        }
        return;
      }
      if !succeeded {
        if project.node.None? {
          projects := projects[p := project.(status := Down, health := Unhealthy)];
        } else {
          projects := projects[p := project.(status := InService, health := Unknown)];
        }
        return;
      }
      var previous := project.node;
      projects := projects[p := project.(status := InService, health := Unknown, node := Some(jobs[j].node),
        image := deployments[d].image, lastDeployed := now)];
      if previous.Some? && previous.value != jobs[j].node {
        jobs := jobs + [StopJob(p, previous.value, now)];
      }
    }

    method RemoveStrayCopy(p: ProjectId, n: NodeId, now: int)
      requires p in projects && projects[p].deployment.Some?
      modifies this`jobs
      ensures Rows() == StrayRemoved(old(Rows()), p, n, now)
      ensures var newer := projects[p].deployment.value;
        var wanted := if newer < |deployments| then deployments[newer].node == n else projects[p].node == Some(n);
        jobs == old(jobs) + if wanted then [] else [Job(n, FailoverStop, App(p), Pending, now, 0, None, None)]
    {
      var newer := projects[p].deployment.value;
      if newer < |deployments| {
        if deployments[newer].node == n {
          return;
        }
      } else if projects[p].node == Some(n) {
        return;
      }
      jobs := jobs + [StopJob(p, n, now)];
    }

    /** Gives up on every stuck job, in order of creation. */
    method FailStuckJobs(now: int)
      modifies this
      ensures Rows() == AllGivenUp(old(Rows()), StuckIds(old(jobs), now, |old(jobs)|), now)
    {
      var ids := StuckIds(jobs, now, |jobs|);
      var i := 0;
      while i < |ids|
        invariant 0 <= i <= |ids| && |jobs| >= |old(jobs)|
        invariant Rows() == AllGivenUp(old(Rows()), ids[..i], now)
      {
        var j := ids[i];
        assert ids[..i + 1][..i] == ids[..i];
        jobs := jobs[j := EndJob(jobs[j], Failed, now)];
        if jobs[j].kind == Deploy {
          CompleteDeploy(j, now);
        }
        i := i + 1;
      }
      assert ids[..|ids|] == ids;
    }

    /** Removes a project: its deploys that have not started are cancelled, and each node on which a copy can be
        or appear gets a removal, in whatever order the set of nodes is walked. */
    method DeleteProject(p: ProjectId, now: int) returns (ghost order: seq<NodeId>)
      requires p in projects
      modifies this
      ensures Lists(order, DeleteTargets(old(Rows()), p)) && Rows() == Deleted(old(Rows()), p, order, now)
    {
      var nodes: set<NodeId> := {};
      if projects[p].node.Some? {
        nodes := nodes + {projects[p].node.value};
      }
      var ids := DeployJobs(deployments, p);
      nodes := nodes + (set i | 0 <= i < |jobs| && i in ids && Active(jobs[i]) :: jobs[i].node);
      jobs := PendingCancelled(jobs, ids);
      projects := projects - {p};
      order := QueueRemovals(p, nodes, now);
    }

    /** Queues a removal on each of the nodes. */
    method QueueRemovals(p: ProjectId, nodes: set<NodeId>, now: int) returns (ghost order: seq<NodeId>)
      modifies this`jobs
      ensures Lists(order, nodes) && jobs == old(jobs) + StopJobs(p, order, now)
      ensures forall i :: |old(jobs)| <= i < |jobs| ==>
        jobs[i] == Job(order[i - |old(jobs)|], FailoverStop, App(p), Pending, now, 0, None, None)
    {
      order := [];
      var left := nodes;
      while left != {}
        invariant left <= nodes && Lists(order, nodes - left)
        invariant jobs == old(jobs) + StopJobs(p, order, now)
        decreases left
      {
        var n := AnyOf(left);
        left := left - {n};
        jobs := jobs + [StopJob(p, n, now)];
        assert StopJobs(p, order + [n], now) == StopJobs(p, order, now) + [StopJob(p, n, now)];
        order := order + [n];
      }
    }

    /** Moves a project to another node, unless it is there, cannot be moved or is being moved already. The nodes
        exist, and clash says whether the target's fixed ports are taken. */
    method MigrateToNode(p: ProjectId, target: NodeId, clash: bool, now: int)
      modifies this
      ensures Rows() ==
        if p !in old(projects) || old(projects)[p].node == Some(target) || old(projects)[p].node.None? || clash ||
           HasActiveMigration(old(migrations), p) || old(projects)[p].image == ""
        then old(Rows()) else MigrationStarted(old(Rows()), p, target, old(projects)[p].image, now)
    {
      if p !in projects || projects[p].node == Some(target) || projects[p].node.None? || clash {
        return;
      }
      if HasActiveMigration(migrations, p) || projects[p].image == "" {
        return;
      }
      StartMigration(p, target, projects[p].image, now);
    }

    /** The dashboard's move: a new image may come with it, and is kept even when the move is refused. */
    method MigrateProject(p: ProjectId, target: NodeId, image: string, clash: bool, now: int) returns (accepted: bool)
      modifies this
      ensures p !in old(projects) ==> !accepted && Rows() == old(Rows())
      ensures p in old(projects) ==>
        var s := old(Rows());
        var t := if image == "" then s else s.(projects := s.projects[p := s.projects[p].(image := image)]);
        accepted == (t.projects[p].node.Some? && t.projects[p].node != Some(target) && !clash &&
                     !HasActiveMigration(t.migrations, p) && t.projects[p].image != "") &&
        Rows() == if accepted then MigrationStarted(t, p, target, t.projects[p].image, now) else t
    {
      accepted := false;
      if p !in projects {
        return;
      }
      if image != "" {
        projects := projects[p := projects[p].(image := image)];
      }
      if projects[p].node.None? || projects[p].node == Some(target) || clash {
        return;
      }
      if HasActiveMigration(migrations, p) || projects[p].image == "" {
        return;
      }
      StartMigration(p, target, projects[p].image, now);
      accepted := true;
    }

    /** Acts on an app that does not answer: puts an earlier image back, starts it again where it is, moves it, or gives
        up on it. */
    method FailOver(p: ProjectId, f: Finding, now: int)
      requires IsHomed(Rows(), p, f)
      modifies this
      ensures Rows() == FailedOver(old(Rows()), p, f, now)
    {
      if HasActiveMigration(migrations, p) || f.rollingBack {
        return;
      }
      if f.rollback.Some? {
        StartAtHome(p, f.rollback.value, now);
        return;
      }
      var image := FailoverImage(deployments, projects[p]);
      if image == "" {
        GiveUpOnApp(p);
        return;
      }
      if f.pinned || f.target.None? {
        if f.inPlace == Restarting {
          StartAtHome(p, image, now);
        } else if f.inPlace == Declined {
          GiveUpOnApp(p);
        }
        return;
      }
      StartMigration(p, f.target.value, image, now);
    }

    method GiveUpOnApp(p: ProjectId)
      requires p in projects
      modifies this`projects
      ensures Rows() == GivenUpOnApp(old(Rows()), p)
    {
      projects := projects[p := projects[p].(status := Down, health := Unhealthy)];
    }

    method StartAtHome(p: ProjectId, image: string, now: int)
      requires p in projects && projects[p].node.Some?
      modifies this
      ensures Rows() == StartedAtHome(old(Rows()), p, image, now)
    {
      var job := Dispatch(p, projects[p].node.value, image, now);
      projects := projects[p := projects[p].(health := Degraded)];
    }

    method StartMigration(p: ProjectId, target: NodeId, image: string, now: int)
      requires p in projects
      modifies this
      ensures Rows() == MigrationStarted(old(Rows()), p, target, image, now)
    {
      var source := projects[p].node;
      var job := Dispatch(p, target, image, now);
      migrations := migrations + [Migration(p, source, target, job, MigrationRunning, now)];
      projects := projects[p := projects[p].(health := Migrating)];
    }

    method FindStuckMigrations(live: set<NodeId>, now: int) returns (stuck: seq<nat>)
      ensures stuck == AbandonedIds(Rows(), live, now, |migrations|)
    {
      stuck := [];
      var i := 0;
      while i < |migrations|
        invariant 0 <= i <= |migrations|
        invariant stuck == AbandonedIds(Rows(), live, now, i)
      {
        var m := migrations[i];
        if m.status == MigrationRunning && m.createdAt < now - UNCLAIMED_ON_QUIET_NODE &&
           MigrationStuck(m, JobRow(jobs, m.job), m.target in live, now) {
          stuck := stuck + [i];
        }
        i := i + 1;
      }
    }

    /** Fails the migrations that have taken too long; one whose target never picked it up is cancelled too. */
    method CleanupStuckMigrations(live: set<NodeId>, now: int)
      modifies this
      ensures Rows() == AllAbandoned(old(Rows()), AbandonedIds(old(Rows()), live, now, |old(migrations)|))
    {
      var stuck := FindStuckMigrations(live, now);
      var i := 0;
      while i < |stuck|
        invariant 0 <= i <= |stuck| && |migrations| == |old(migrations)|
        invariant Rows() == AllAbandoned(old(Rows()), stuck[..i])
      {
        var m := stuck[i];
        assert stuck[..i + 1][..i] == stuck[..i];
        var j := migrations[m].job;
        migrations := migrations[m := migrations[m].(status := MigrationFailed)];
        if 0 <= j < |jobs| && jobs[j].status == Pending {
          jobs := jobs[j := jobs[j].(status := Cancelled)];
        }
        i := i + 1;
      }
      assert stuck[..|stuck|] == stuck;
    }
  }
}
