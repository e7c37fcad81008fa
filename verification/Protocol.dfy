/** The deploy protocol as a transition system: the Hub's rows, the copies that really exist on nodes, and history
    that only the proofs read. Handlers are atomic; agents, late and repeated reports, restarts and sweeps are steps. */
module Protocol {
  import opened Jobs
  import opened Hub
  import Scheduler
  import QueueRuns

  /**
   * copies: the nodes that really hold a copy of a project
   * outcomes: how each job that an agent has carried out really ended
   * spared: the deploys whose superseded copy was left for a newer deploy on the same node
   * evicted: the removals a superseded deploy caused on the project's own node
   * calledOff: the deploys the migration sweeper cancelled before they were claimed
   * landed: for each project, the deploy that last put it where it is
   * since: for each deploy that reported success, how many jobs existed when it did
   * swept: when the migration sweeper last ran
   */
  datatype World = World(rows: State, epochs: map<NodeId, int>, now: int, copies: set<(ProjectId, NodeId)>,
    outcomes: map<JobId, bool>, spared: set<JobId>, evicted: set<JobId>, calledOff: set<JobId>,
    landed: map<ProjectId, JobId>, since: map<JobId, nat>, swept: int)

  datatype Event =
    | Create(p: ProjectId, home: Option<NodeId>, image: string)
    | Dispatch(p: ProjectId, n: NodeId, image: string)
    | SetNode(p: ProjectId, n: NodeId)         // picking a node for a project that has nothing running yet
    | SetImage(p: ProjectId, image: string)
    | SetStatus(p: ProjectId, state: ProjectStatus, health: Health) // the health checker, or a person
    | Enqueue(job: Job)                        // any job that is neither a deploy nor a removal
    | Claim(agent: Node)
    | Execute(j: JobId, ok: bool)              // the agent has carried the job out
    | Report(j: JobId, status: Status)
    | SweepStuck
    | CancelStale(j: JobId)                    // an interactive job nobody waits for any more
    | Migrate(p: ProjectId, target: NodeId, image: string)
    | SweepMigrations(live: set<NodeId>)
    | Delete(p: ProjectId, order: seq<NodeId>)
    | Register(n: NodeId)
    | Wait(seconds: nat)

  function Queue(w: World): QueueRuns.Queue {
    QueueRuns.Queue(w.rows.jobs, w.epochs, w.now)
  }

  predicate IsDeploy(jobs: seq<Job>, i: JobId, p: ProjectId) {
    0 <= i < |jobs| && jobs[i].kind == Deploy && jobs[i].scope == App(p)
  }

  predicate IsStop(jobs: seq<Job>, i: JobId, p: ProjectId, n: NodeId) {
    0 <= i < |jobs| && jobs[i].kind == FailoverStop && jobs[i].scope == App(p) && jobs[i].node == n
  }

  /** The kinds of job that start or remove copies. */
  predicate MovesCopies(kind: Kind) {
    kind == Deploy || kind == FailoverStop
  }

  /** A job that starts or removes p's copy on n. */
  predicate IsCopyJob(jobs: seq<Job>, i: JobId, p: ProjectId, n: NodeId) {
    (IsDeploy(jobs, i, p) && jobs[i].node == n) || IsStop(jobs, i, p, n)
  }

  ghost predicate Unused(s: State, p: ProjectId) {
    p !in s.projects && (forall i :: 0 <= i < |s.jobs| ==> s.jobs[i].scope != App(p)) &&
    (forall d :: 0 <= d < |s.deployments| ==> s.deployments[d].project != p) &&
    (forall m :: 0 <= m < |s.migrations| ==> s.migrations[m].project != p)
  }

  ghost predicate Enabled(w: World, e: Event) {
    match e
    case Create(p, node, image) => Unused(w.rows, p) && (image != "" ==> node == None)
    case Dispatch(p, _, image) => p in w.rows.projects && image != ""
    case SetNode(p, _) => p in w.rows.projects && (w.rows.projects[p].node.None? || w.rows.projects[p].image == "")
    case SetImage(p, image) => p in w.rows.projects && image != ""
    case SetStatus(p, _, _) => p in w.rows.projects
    case Enqueue(job) => (job.kind == Command || job.kind == LogsFollow) && job.status == Pending &&
        job.startedAt.None? && job.completedAt.None?
    case Claim(node) => node.agentStartedAt == QueueRuns.Epoch(Queue(w), node.id)
    case Execute(j, ok) => 0 <= j < |w.rows.jobs| && w.rows.jobs[j].startedAt.Some? && j !in w.outcomes &&
        (w.rows.jobs[j].kind == FailoverStop ==> ok)
    case Report(j, status) => 0 <= j < |w.rows.jobs| && w.rows.jobs[j].startedAt.Some? &&
        (status == Completed || status == Failed)
    case SweepStuck => true
    case CancelStale(j) => 0 <= j < |w.rows.jobs| && w.rows.jobs[j].status == Pending &&
        (w.rows.jobs[j].kind == Command || w.rows.jobs[j].kind == LogsFollow)
    case Migrate(p, target, image) => p in w.rows.projects && image != "" && w.rows.projects[p].node != Some(target) &&
        !HasActiveMigration(w.rows.migrations, p)
    case SweepMigrations(_) => true
    case Delete(p, order) => p in w.rows.projects && Lists(order, DeleteTargets(w.rows, p))
    case Register(_) => true
    case Wait(_) => true
  }

  /** What a job does to its node once carried out: a deploy that succeeds leaves a copy there, one that fails leaves
      what was there, and a removal leaves none. */
  function AfterExecution(copies: set<(ProjectId, NodeId)>, job: Job, ok: bool): set<(ProjectId, NodeId)> {
    if !job.scope.App? || !ok then copies
    else if job.kind == Deploy then copies + {(job.scope.project, job.node)}
    else if job.kind == FailoverStop then copies - {(job.scope.project, job.node)}
    else copies
  }

  function CalledOff(jobs: seq<Job>, more: seq<Job>): set<JobId> {
    set i | 0 <= i < |jobs| && i < |more| && jobs[i].status == Pending && more[i].status == Cancelled
  }

  function CurrentJob(s: State, p: ProjectId): Option<JobId> {
    if p in s.projects && s.projects[p].deployment.Some? && s.projects[p].deployment.value < |s.deployments| then
      Some(s.deployments[s.projects[p].deployment.value].job)
    else None
  }

  /** A report that a deploy of a live project succeeded, taken for the first time. */
  predicate Succeeds(s: State, j: JobId, status: Status)
    requires 0 <= j < |s.jobs|
  {
    s.jobs[j].kind == Deploy && s.jobs[j].scope.App? && status == Completed && !DuplicateReport(s.jobs[j], status) &&
    s.jobs[j].scope.project in s.projects
  }

  predicate Lands(s: State, j: JobId, status: Status)
    requires 0 <= j < |s.jobs|
  {
    Succeeds(s, j, status) && CurrentJob(s, s.jobs[j].scope.project) == Some(j)
  }

  /** The report of a superseded deploy whose node the newer deploy uses as well. */
  predicate LeavesCopy(s: State, j: JobId, status: Status)
    requires 0 <= j < |s.jobs|
  {
    Succeeds(s, j, status) && !Lands(s, j, status) && s.projects[s.jobs[j].scope.project].deployment.Some? &&
    Spares(s, s.jobs[j].scope.project, s.jobs[j].node)
  }

  predicate Evicts(s: State, j: JobId, status: Status)
    requires 0 <= j < |s.jobs|
  {
    Succeeds(s, j, status) && !Lands(s, j, status) && !LeavesCopy(s, j, status) &&
    s.projects[s.jobs[j].scope.project].node == Some(s.jobs[j].node)
  }

  ghost function Step(w: World, e: Event): World
    requires Enabled(w, e)
  {
    var s := w.rows;
    match e
    case Create(p, node, image) =>
      w.(rows := s.(projects := s.projects[p := Project(node, None, image, if image == "" then Stopped else Deploying,
        Unknown, w.now)]))
    case Dispatch(p, n, image) => w.(rows := Dispatched(s, p, n, image, w.now))
    case SetNode(p, n) => w.(rows := s.(projects := s.projects[p := s.projects[p].(node := Some(n))]))
    case SetImage(p, image) => w.(rows := s.(projects := s.projects[p := s.projects[p].(image := image)]))
    case SetStatus(p, state, health) =>
      w.(rows := s.(projects := s.projects[p := s.projects[p].(status := state, health := health)]))
    case Enqueue(job) => w.(rows := s.(jobs := s.jobs + [job]))
    case Claim(node) => w.(rows := s.(jobs := Scheduler.Claim(s.jobs, node, w.now)))
    case Execute(j, ok) => w.(outcomes := w.outcomes[j := ok], copies := AfterExecution(w.copies, s.jobs[j], ok))
    case Report(j, status) =>
      w.(rows := Reported(s, j, status, w.now),
         landed := if Lands(s, j, status) then w.landed[s.jobs[j].scope.project := j] else w.landed,
         spared := if LeavesCopy(s, j, status) then w.spared + {j} else w.spared,
         evicted := if Evicts(s, j, status) then w.evicted + {|s.jobs|} else w.evicted,
         since := if Succeeds(s, j, status) then w.since[j := |s.jobs|] else w.since)
    case SweepStuck => w.(rows := AllGivenUp(s, StuckIds(s.jobs, w.now, |s.jobs|), w.now))
    case CancelStale(j) => w.(rows := s.(jobs := s.jobs[j := EndJob(s.jobs[j], Cancelled, w.now)]))
    case Migrate(p, target, image) => w.(rows := MigrationStarted(s, p, target, image, w.now))
    case SweepMigrations(live) =>
      var t := AllAbandoned(s, AbandonedIds(s, live, w.now, |s.migrations|));
      w.(rows := t, swept := w.now, calledOff := w.calledOff + CalledOff(s.jobs, t.jobs))
    case Delete(p, order) => w.(rows := Deleted(s, p, order, w.now))
    case Register(n) => w.(epochs := w.epochs[n := w.now])
    case Wait(seconds) => w.(now := w.now + seconds)
  }

  ghost predicate CanRun(w: World, es: seq<Event>)
    decreases |es|
  {
    es == [] || (Enabled(w, es[0]) && CanRun(Step(w, es[0]), es[1..]))
  }

  ghost function Run(w: World, es: seq<Event>): World
    requires CanRun(w, es)
    decreases |es|
  {
    if es == [] then w else Run(Step(w, es[0]), es[1..])
  }

  /** A Hub with no rows yet. */
  function Start(now: int): World {
    World(State([], [], map[], []), map[], now, {}, map[], {}, {}, {}, map[], map[], now)
  }

  // ---- rows that belong together ----

  ghost predicate HasDeployment(deployments: seq<Deployment>, j: JobId) {
    exists d :: 0 <= d < |deployments| && deployments[d].job == j
  }

  ghost predicate DeploymentsMatch(s: State) {
    forall d :: 0 <= d < |s.deployments| ==>
      IsDeploy(s.jobs, s.deployments[d].job, s.deployments[d].project) &&
      s.jobs[s.deployments[d].job].node == s.deployments[d].node && s.deployments[d].image != ""
  }

  ghost predicate DeploymentsOrdered(s: State) {
    forall c, d :: 0 <= c < d < |s.deployments| ==> s.deployments[c].job < s.deployments[d].job
  }

  ghost predicate DeploysRecorded(s: State) {
    forall i {:trigger HasDeployment(s.deployments, i)} ::
      0 <= i < |s.jobs| && s.jobs[i].kind == Deploy ==> HasDeployment(s.deployments, i)
  }

  ghost predicate NewestIs(s: State, p: ProjectId, current: Option<nat>) {
    match current
    case None => forall i :: !IsDeploy(s.jobs, i, p)
    case Some(d) => (d < |s.deployments| && s.deployments[d].project == p &&
      forall i :: IsDeploy(s.jobs, i, p) ==> i <= s.deployments[d].job)
  }

  ghost predicate CurrentNewest(s: State) {
    forall p :: p in s.projects ==> NewestIs(s, p, s.projects[p].deployment)
  }

  /** Every deploy job has one deployment, in the same order, and a project's current deployment is its newest. */
  ghost predicate WellFormed(s: State) {
    DeploymentsMatch(s) && DeploymentsOrdered(s) && DeploysRecorded(s) && CurrentNewest(s)
  }

  /** The rows of t are those of s, with jobs possibly ended or added and deployments possibly ended. */
  ghost predicate SameIdentities(s: State, t: State) {
    |s.jobs| <= |t.jobs| && |s.deployments| == |t.deployments| &&
    (forall i :: 0 <= i < |s.jobs| ==>
      t.jobs[i].node == s.jobs[i].node && t.jobs[i].kind == s.jobs[i].kind && t.jobs[i].scope == s.jobs[i].scope) &&
    (forall d :: 0 <= d < |s.deployments| ==>
      t.deployments[d] == s.deployments[d].(status := t.deployments[d].status))
  }

  /** The job of a live project's current deployment is its newest deploy job. */
  lemma CurrentIsNewest(s: State, p: ProjectId)
    requires WellFormed(s) && p in s.projects
    ensures CurrentJob(s, p).None? ==> forall i :: !IsDeploy(s.jobs, i, p)
    ensures CurrentJob(s, p).Some? ==> IsDeploy(s.jobs, CurrentJob(s, p).value, p)
    ensures CurrentJob(s, p).Some? ==> forall i :: IsDeploy(s.jobs, i, p) ==> i <= CurrentJob(s, p).value
  {
    assert NewestIs(s, p, s.projects[p].deployment);
  }

  /** A deploy job with its own deployment, whose project (if it still exists) has a current deployment. */
  ghost predicate Rooted(s: State, j: JobId) {
    0 <= j < |s.jobs| && s.jobs[j].kind == Deploy && s.jobs[j].scope.App? && DeploymentOf(s.deployments, j).Some? &&
    var p, d := s.jobs[j].scope.project, DeploymentOf(s.deployments, j).value;
    s.deployments[d].project == p && s.deployments[d].image != "" &&
    (p in s.projects ==>
      s.projects[p].deployment.Some? && s.projects[p].deployment.value < |s.deployments| &&
      var c := s.projects[p].deployment.value;
      0 <= s.deployments[c].job < |s.jobs| && s.jobs[s.deployments[c].job].node == s.deployments[c].node &&
      (c == d <==> s.deployments[c].job == j))
  }

  lemma DeploysAreRooted(s: State, j: JobId)
    requires WellFormed(s) && 0 <= j < |s.jobs| && s.jobs[j].kind == Deploy
    ensures Rooted(s, j)
  {
    assert HasDeployment(s.deployments, j);
    var d := DeploymentOf(s.deployments, j).value;
    assert s.deployments[d].job == j;
    var p := s.deployments[d].project;
    assert IsDeploy(s.jobs, j, p);
    if p in s.projects {
      assert NewestIs(s, p, s.projects[p].deployment);
      var c := s.projects[p].deployment.value;
      assert c == d <==> s.deployments[c].job == j;
    }
  }

  // ---- what ending a job does, case by case ----

  ghost predicate Ends(s: State, t: State, j: JobId, status: Status, now: int, added: seq<Job>)
    requires 0 <= j < |s.jobs|
  {
    t.jobs == s.jobs[j := EndJob(s.jobs[j], status, now)] + added
  }

  /** The rows after a deploy job ended with this status and the Hub acted on it. */
  ghost predicate ActedOn(s: State, t: State, j: JobId, status: Status, now: int)
    requires 0 <= j < |s.jobs|
  {
    SameIdentities(s, t) &&
    if s.jobs[j].kind != Deploy || !s.jobs[j].scope.App? || s.jobs[j].scope.project !in s.projects then
      Ends(s, t, j, status, now, []) && t.projects == s.projects
    else
      var p, n := s.jobs[j].scope.project, s.jobs[j].node;
      if CurrentJob(s, p) != Some(j) then
        t.projects == s.projects && CurrentJob(s, p).Some? && 0 <= CurrentJob(s, p).value < |s.jobs| &&
        Ends(s, t, j, status, now,
          if status == Completed && s.jobs[CurrentJob(s, p).value].node != n then [StopJob(p, n, now)] else [])
      else
        t.projects.Keys == s.projects.Keys && (forall q :: q in s.projects && q != p ==> t.projects[q] == s.projects[q]) &&
        t.projects[p].deployment == s.projects[p].deployment &&
        if status == Completed then
          t.projects[p].node == Some(n) && t.projects[p].image != "" &&
          Ends(s, t, j, status, now, if s.projects[p].node.Some? && s.projects[p].node.value != n
            then [StopJob(p, s.projects[p].node.value, now)] else [])
        else
          t.projects[p].node == s.projects[p].node && t.projects[p].image == s.projects[p].image &&
          Ends(s, t, j, status, now, [])
  }

  lemma DeployEndedCases(s: State, j: JobId, status: Status, now: int)
    requires Rooted(s, j)
    ensures var t := s.(jobs := s.jobs[j := EndJob(s.jobs[j], status, now)]);
      ActedOn(s, DeployEnded(t, j, now), j, status, now) && DeployEnded(t, j, now).migrations == s.migrations
  {
    var t := s.(jobs := s.jobs[j := EndJob(s.jobs[j], status, now)]);
    var u := DeployEnded(t, j, now);
    assert t.jobs == t.jobs + [];
    var p := s.jobs[j].scope.project;
    if p in s.projects && CurrentJob(s, p) == Some(j) {
      assert u.projects.Keys == s.projects.Keys;
    }
  }

  lemma MigrationsAside(s: State, migrations: seq<Migration>, t: State, j: JobId, status: Status, now: int)
    requires 0 <= j < |s.jobs| && ActedOn(s.(migrations := migrations), t, j, status, now)
    ensures ActedOn(s, t, j, status, now)
  {
    var u := s.(migrations := migrations);
    if s.jobs[j].scope.App? {
      assert CurrentJob(u, s.jobs[j].scope.project) == CurrentJob(s, s.jobs[j].scope.project);
    }
  }

  lemma ReportedCases(s: State, j: JobId, status: Status, now: int)
    requires 0 <= j < |s.jobs| && !DuplicateReport(s.jobs[j], status)
    requires s.jobs[j].kind == Deploy ==> Rooted(s, j)
    ensures ActedOn(s, Reported(s, j, status, now), j, status, now)
    ensures Reported(s, j, status, now).migrations == MigrationSettled(s, j, status).migrations
  {
    var u := MigrationSettled(s, j, status);
    if s.jobs[j].kind == Deploy {
      assert Rooted(u, j);
      DeployEndedCases(u, j, status, now);
      MigrationsAside(s, u.migrations, Reported(s, j, status, now), j, status, now);
    }
  }

  lemma GivenUpCases(s: State, j: JobId, now: int)
    requires 0 <= j < |s.jobs|
    requires s.jobs[j].kind == Deploy ==> Rooted(s, j)
    ensures ActedOn(s, GivenUp(s, j, now), j, Failed, now)
    ensures GivenUp(s, j, now).migrations == s.migrations
  {
    if s.jobs[j].kind == Deploy { DeployEndedCases(s, j, Failed, now); }
  }
}
