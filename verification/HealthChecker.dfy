/** The health checker: when an app that does not answer is acted on, and how often it is restarted in place. */
module HealthChecker {
  import opened Jobs

  const FAILOVER_THRESHOLD := 3
  const STARTUP_GRACE := 3 * 60
  const MAX_IN_PLACE_RESTARTS := 2
  const RESTART_WINDOW := 30 * 60
  const AGENT_REPORT_FRESH := 60
  const MAX_UNCONFIRMED_WAITS := 3
  const RECOVERY_CHECKS := 2

  datatype ContainerReport = ContainerReport(project: Option<ProjectId>, name: string, running: bool)

  datatype NodeReport = NodeReport(online: bool, lastHeartbeat: int, containers: seq<ContainerReport>)

  /** A running app in one round of checks: whether it answered, and what the database holds should it be acted on.
      The clock is read at now, and again at queuedAt once a restart has been queued. */
  datatype App = App(
    id: ProjectId, name: string, healthy: bool, lastDeployed: Option<int>, now: int, queuedAt: int,
    migrating: bool, rollingBack: bool, hasImage: bool, pinned: bool, hasTarget: bool,
    node: Option<NodeReport>, deploying: bool, dispatchWorks: bool)

  datatype Check = Good | Grace | Bad

  predicate InStartupGrace(lastDeployed: Option<int>, now: int) {
    lastDeployed.Some? && 0 <= now - lastDeployed.value < STARTUP_GRACE
  }

  function CheckOf(app: App): Check {
    if app.healthy then Good else if InStartupGrace(app.lastDeployed, app.now) then Grace else Bad
  }

  // ---- what the checker remembers about one app ----

  datatype Tally = Tally(failures: nat, unconfirmed: nat, restarts: seq<int>)

  const FORGOTTEN := Tally(0, 0, [])

  datatype Action = NoAction | Wait | Move | GiveUp | Restart

  function Recent(history: seq<int>, now: int): seq<int> {
    if history == [] then []
    else
      Recent(history[..|history| - 1], now) +
      if now - history[|history| - 1] < RESTART_WINDOW then [history[|history| - 1]] else []
  }

  predicate Reports(c: ContainerReport, app: App) {
    c.project == Some(app.id) || c.name == app.name
  }

  /** Whether the first container reported for the app, if any is, is not running. */
  predicate FirstReportIsDown(containers: seq<ContainerReport>, app: App) {
    containers == [] ||
    if Reports(containers[0], app) then !containers[0].running else FirstReportIsDown(containers[1..], app)
  }

  predicate ConfirmedDown(node: NodeReport, app: App) {
    app.now - node.lastHeartbeat <= AGENT_REPORT_FRESH && node.containers != [] && FirstReportIsDown(node.containers, app)
  }

  function RestartedInPlace(t: Tally, app: App): (Tally, Action) {
    if app.node.None? || !app.node.value.online then (t, GiveUp)
    else if app.deploying then (t, Wait)
    else if !ConfirmedDown(app.node.value, app) then
      if t.unconfirmed < MAX_UNCONFIRMED_WAITS then (t.(unconfirmed := t.unconfirmed + 1), Wait)
      else (t.(unconfirmed := 0), GiveUp)
    else
      var recent := Recent(t.restarts, app.now);
      if |recent| < MAX_IN_PLACE_RESTARTS && app.dispatchWorks then
        (t.(unconfirmed := 0, restarts := recent + [app.queuedAt]), Restart)
      else (t.(unconfirmed := 0, restarts := recent), GiveUp)
  }

  function Handled(t: Tally, app: App): (Tally, Action) {
    if app.migrating || app.rollingBack then (t, Wait)
    else if !app.hasImage then (t, GiveUp)
    else if app.pinned || !app.hasTarget then RestartedInPlace(t, app)
    else (t, if app.dispatchWorks then Move else Wait)
  }

  /** Whether this check makes the checker act on the app. */
  predicate ActsOn(t: Tally, app: App) {
    CheckOf(app) == Bad && t.failures + 1 >= FAILOVER_THRESHOLD
  }

  function Checked(t: Tally, app: App): (Tally, Action) {
    match CheckOf(app)
    case Good => (t.(failures := 0, unconfirmed := 0), NoAction)
    case Grace => (t, NoAction)
    case Bad =>
      if ActsOn(t, app) then Handled(t.(failures := 0), app) else (t.(failures := t.failures + 1), NoAction)
  }

  // ---- the service ----

  class HealthService {
    var failures: map<ProjectId, nat>
    var unconfirmed: map<ProjectId, nat>
    var restarts: map<ProjectId, seq<int>>
    var recovering: map<ProjectId, nat>

    function TallyOf(p: ProjectId): Tally
      reads this
    {
      Tally(if p in failures then failures[p] else 0,
            if p in unconfirmed then unconfirmed[p] else 0,
            if p in restarts then restarts[p] else [])
    }

    constructor ()
      ensures forall p :: TallyOf(p) == FORGOTTEN
      ensures recovering == map[]
    {
      failures, unconfirmed, restarts, recovering := map[], map[], map[], map[];
    }

    /** One round over the running apps: each is judged by its own history, and acted on or not. */
    method CheckAllProjects(apps: seq<App>) returns (actions: seq<Action>)
      requires forall i, j :: 0 <= i < j < |apps| ==> apps[i].id != apps[j].id
      modifies this
      ensures |actions| == |apps| && recovering == old(recovering)
      ensures forall i :: 0 <= i < |apps| ==> (TallyOf(apps[i].id), actions[i]) == Checked(old(TallyOf(apps[i].id)), apps[i])
      ensures forall p :: (forall i :: 0 <= i < |apps| ==> apps[i].id != p) ==> TallyOf(p) == old(TallyOf(p))
    {
      actions := [];
      ghost var expected := seq(|apps|, i requires 0 <= i < |apps| reads this => Checked(TallyOf(apps[i].id), apps[i]));
      var i := 0;
      while i < |apps|
        invariant 0 <= i == |actions| <= |apps| && recovering == old(recovering)
        invariant forall k :: 0 <= k < i ==> (TallyOf(apps[k].id), actions[k]) == expected[k]
        invariant forall p :: (forall k :: 0 <= k < i ==> apps[k].id != p) ==> TallyOf(p) == old(TallyOf(p))
      {
        assert expected[i] == Checked(TallyOf(apps[i].id), apps[i]);
        var action := CheckProject(apps[i]);
        actions := actions + [action];
        i := i + 1;
      }
    }

    method CheckProject(app: App) returns (action: Action)
      modifies this
      ensures (TallyOf(app.id), action) == Checked(old(TallyOf(app.id)), app) && recovering == old(recovering)
      ensures forall p :: p != app.id ==> TallyOf(p) == old(TallyOf(p))
    {
      if app.healthy {
        failures := failures - {app.id};
        unconfirmed := unconfirmed - {app.id};
        return NoAction;
      }
      if InStartupGrace(app.lastDeployed, app.now) {
        return NoAction;
      }
      failures := failures[app.id := TallyOf(app.id).failures + 1];
      if failures[app.id] < FAILOVER_THRESHOLD {
        return NoAction;
      }
      failures := failures - {app.id};
      action := HandleUnhealthyProject(app);
    }

    method HandleUnhealthyProject(app: App) returns (action: Action)
      modifies this`unconfirmed, this`restarts
      ensures (TallyOf(app.id), action) == Handled(old(TallyOf(app.id)), app)
      ensures forall p :: p != app.id ==> TallyOf(p) == old(TallyOf(p))
    {
      if app.migrating || app.rollingBack {
        return Wait;
      }
      if !app.hasImage {
        return GiveUp;
      }
      if app.pinned || !app.hasTarget {
        action := RestartInPlace(app);
        return;
      }
      return if app.dispatchWorks then Move else Wait;
    }

    method RestartInPlace(app: App) returns (action: Action)
      modifies this`unconfirmed, this`restarts
      ensures (TallyOf(app.id), action) == RestartedInPlace(old(TallyOf(app.id)), app)
      ensures forall p :: p != app.id ==> TallyOf(p) == old(TallyOf(p))
    {
      if app.node.None? || !app.node.value.online {
        return GiveUp;
      }
      if app.deploying {
        return Wait;
      }
      var down := ContainerConfirmedDown(app.node.value, app);
      if !down {
        unconfirmed := unconfirmed[app.id := TallyOf(app.id).unconfirmed + 1];
        if unconfirmed[app.id] <= MAX_UNCONFIRMED_WAITS {
          return Wait;
        }
        unconfirmed := unconfirmed - {app.id};
        return GiveUp;
      }
      unconfirmed := unconfirmed - {app.id};
      var ok, recent := RestartAllowed(TallyOf(app.id).restarts, app.now);
      restarts := restarts[app.id := recent];
      if !ok || !app.dispatchWorks {
        return GiveUp;
      }
      restarts := restarts[app.id := restarts[app.id] + [app.queuedAt]];
      return Restart;
    }

    method RecoveryReached(id: ProjectId, ok: bool) returns (reached: bool)
      modifies this`recovering
      ensures Recovering(recovering, id) == RecoveryCount(Recovering(old(recovering), id), ok)
      ensures reached == Recovers(Recovering(old(recovering), id), ok)
      ensures forall p :: p != id ==> Recovering(recovering, p) == Recovering(old(recovering), p)
    {
      if !ok {
        recovering := recovering - {id};
        return false;
      }
      recovering := recovering[id := Recovering(recovering, id) + 1];
      if recovering[id] >= RECOVERY_CHECKS {
        recovering := recovering - {id};
        return true;
      }
      return false;
    }
  }

  method RestartAllowed(history: seq<int>, now: int) returns (ok: bool, recent: seq<int>)
    ensures recent == Recent(history, now) && ok == (|recent| < MAX_IN_PLACE_RESTARTS)
  {
    recent := [];
    var i := 0;
    while i < |history|
      invariant 0 <= i <= |history| && recent == Recent(history[..i], now)
    {
      assert history[..i + 1][..i] == history[..i];
      if now - history[i] < RESTART_WINDOW {
        recent := recent + [history[i]];
      }
      i := i + 1;
    }
    assert history[..i] == history;
    ok := |recent| < MAX_IN_PLACE_RESTARTS;
  }

  method ContainerConfirmedDown(node: NodeReport, app: App) returns (down: bool)
    ensures down == ConfirmedDown(node, app)
  {
    if app.now - node.lastHeartbeat > AGENT_REPORT_FRESH || node.containers == [] {
      return false;
    }
    var i := 0;
    while i < |node.containers|
      invariant 0 <= i <= |node.containers|
      invariant FirstReportIsDown(node.containers, app) == FirstReportIsDown(node.containers[i..], app)
    {
      if Reports(node.containers[i], app) {
        return !node.containers[i].running;
      }
      i := i + 1;
    }
    return true;
  }

  // ---- over any number of rounds ----

  /** What the checker remembers of an app after these rounds. */
  function After(rounds: seq<App>): Tally {
    if rounds == [] then FORGOTTEN else Checked(After(ButLast(rounds)), Last(rounds)).0
  }

  function Last(rounds: seq<App>): App
    requires rounds != []
  {
    rounds[|rounds| - 1]
  }

  function ButLast(rounds: seq<App>): seq<App>
    requires rounds != []
  {
    rounds[..|rounds| - 1]
  }

  /** The failed checks since the last good one; those within the startup grace do not count. */
  function BadSinceGood(rounds: seq<App>): nat {
    if rounds == [] then 0
    else
      match CheckOf(Last(rounds))
      case Good => 0
      case Grace => BadSinceGood(ButLast(rounds))
      case Bad => BadSinceGood(ButLast(rounds)) + 1
  }

  lemma HandlingKeepsFailures(t: Tally, app: App)
    ensures Handled(t, app).0.failures == t.failures
  {
  }

  lemma NextCount(n: nat)
    ensures if n % FAILOVER_THRESHOLD + 1 >= FAILOVER_THRESHOLD then (n + 1) % FAILOVER_THRESHOLD == 0
            else (n + 1) % FAILOVER_THRESHOLD == n % FAILOVER_THRESHOLD + 1
  {
  }

  lemma {:induction false} FailuresAre(rounds: seq<App>)
    ensures After(rounds).failures == BadSinceGood(rounds) % FAILOVER_THRESHOLD
  {
    if rounds != [] {
      FailuresAre(ButLast(rounds));
      NextCount(BadSinceGood(ButLast(rounds)));
      HandlingKeepsFailures(After(ButLast(rounds)).(failures := 0), Last(rounds));
    }
  }

  /** The checker acts on an app at every third failed check since the last good one, and at no other time. */
  lemma ActsExactlyWhen(rounds: seq<App>)
    requires rounds != []
    ensures ActsOn(After(ButLast(rounds)), Last(rounds)) <==>
      (CheckOf(Last(rounds)) == Bad && BadSinceGood(rounds) % 3 == 0)
  {
    FailuresAre(ButLast(rounds));
    ActsOnThird(After(ButLast(rounds)), Last(rounds), BadSinceGood(ButLast(rounds)));
  }

  lemma ActsOnThird(t: Tally, app: App, bad: nat)
    requires t.failures == bad % FAILOVER_THRESHOLD
    ensures ActsOn(t, app) <==> (CheckOf(app) == Bad && (bad + 1) % FAILOVER_THRESHOLD == 0)
  {
    NextCount(bad);
  }

  // ---- restarts ----

  predicate Restarts(rounds: seq<App>)
    requires rounds != []
  {
    Checked(After(ButLast(rounds)), Last(rounds)).1 == Restart
  }

  /** When the app was restarted in place, in order. */
  function RestartTimes(rounds: seq<App>): seq<int> {
    if rounds == [] then []
    else RestartTimes(ButLast(rounds)) + if Restarts(rounds) then [Last(rounds).queuedAt] else []
  }

  /** The clock does not run backwards from one reading to the next. */
  ghost predicate ClockRuns(rounds: seq<App>) {
    (forall i :: 0 <= i < |rounds| ==> rounds[i].now <= rounds[i].queuedAt) &&
    (forall i, j :: 0 <= i < j < |rounds| ==> rounds[i].queuedAt <= rounds[j].now)
  }

  ghost predicate Sorted(times: seq<int>) {
    forall i, j :: 0 <= i < j < |times| ==> times[i] <= times[j]
  }

  ghost predicate Spaced(times: seq<int>) {
    forall i, j :: 0 <= i && i + 2 <= j < |times| ==> times[j] - times[i] >= RESTART_WINDOW
  }

  /** kept is the end of all, and everything before it is at least a window older than now. */
  ghost predicate Covers(kept: seq<int>, all: seq<int>, now: int) {
    |kept| <= |all| && kept == all[|all| - |kept|..] &&
    forall i :: 0 <= i < |all| - |kept| ==> now - all[i] >= RESTART_WINDOW
  }

  /** Of times in order, the recent ones are the last. */
  lemma {:induction false} RecentIsEnd(history: seq<int>, now: int)
    requires Sorted(history)
    ensures Covers(Recent(history, now), history, now)
  {
    if history != [] {
      var fewer, last := history[..|history| - 1], history[|history| - 1];
      if now - last >= RESTART_WINDOW {
        AllOld(history, now);
      } else {
        RecentIsEnd(fewer, now);
        CoversOneMore(Recent(fewer, now), fewer, last, now);
        assert fewer + [last] == history;
      }
    }
  }

  lemma CoversOneMore(kept: seq<int>, all: seq<int>, last: int, now: int)
    requires Covers(kept, all, now)
    ensures Covers(kept + [last], all + [last], now)
  {
    assert (all + [last])[|all| - |kept|..] == all[|all| - |kept|..] + [last];
  }

  /** Exactly the times inside the window are recent. */
  lemma {:induction false} RecentAre(history: seq<int>, now: int, t: int)
    ensures t in Recent(history, now) <==> t in history && now - t < 30 * 60
  {
    if history != [] {
      var fewer := history[..|history| - 1];
      RecentAre(fewer, now, t);
      assert history == fewer + [history[|history| - 1]];
    }
  }

  lemma {:induction false} AllOld(history: seq<int>, now: int)
    requires forall i :: 0 <= i < |history| ==> now - history[i] >= RESTART_WINDOW
    ensures Recent(history, now) == []
  {
    if history != [] { AllOld(history[..|history| - 1], now); }
  }

  lemma PruningCovers(kept: seq<int>, all: seq<int>, before: int, now: int)
    requires Covers(kept, all, before) && Sorted(all) && before <= now
    ensures Covers(Recent(kept, now), all, now)
  {
    RecentIsEnd(kept, now);
  }

  /** What restartInPlace and the checks around it do to the list of restarts. */
  lemma ListChanges(t: Tally, app: App)
    ensures var (after, action) := Checked(t, app);
      if action == Restart then
        (|Recent(t.restarts, app.now)| < MAX_IN_PLACE_RESTARTS &&
         after.restarts == Recent(t.restarts, app.now) + [app.queuedAt])
      else (after.restarts == t.restarts || after.restarts == Recent(t.restarts, app.now))
  {
  }

  ghost predicate ListKept(kept: seq<int>, all: seq<int>, now: int) {
    Sorted(all) && Spaced(all) && Covers(kept, all, now) && forall i :: 0 <= i < |all| ==> all[i] <= now
  }

  lemma Pruned(kept: seq<int>, all: seq<int>, now: int)
    requires ListKept(kept, all, now)
    ensures ListKept(Recent(kept, now), all, now)
  {
    PruningCovers(kept, all, now, now);
  }

  lemma Appended(recent: seq<int>, all: seq<int>, now: int, queuedAt: int)
    requires ListKept(recent, all, now) && |recent| < MAX_IN_PLACE_RESTARTS && now <= queuedAt
    ensures ListKept(recent + [queuedAt], all + [queuedAt], queuedAt)
  {
    var more := all + [queuedAt];
    assert recent + [queuedAt] == more[|more| - |recent| - 1..];
    forall i, j | 0 <= i && i + 2 <= j < |more| ensures more[j] - more[i] >= RESTART_WINDOW {
      assert j == |all| ==> now - all[i] >= RESTART_WINDOW;
    }
  }

  lemma ListStep(t: Tally, app: App, all: seq<int>, now: int)
    requires ListKept(t.restarts, all, app.now) && app.now <= app.queuedAt <= now
    ensures var (after, action) := Checked(t, app);
      ListKept(after.restarts, all + if action == Restart then [app.queuedAt] else [], now)
  {
    var recent, after := Recent(t.restarts, app.now), Checked(t, app).0.restarts;
    ListChanges(t, app);
    Pruned(t.restarts, all, app.now);
    if Checked(t, app).1 == Restart {
      Appended(recent, all, app.now, app.queuedAt);
      Later(after, all + [app.queuedAt], app.queuedAt, now);
    } else {
      assert all + [] == all;
      Later(after, all, app.now, now);
    }
  }

  lemma {:induction false} ListIsKept(rounds: seq<App>, now: int)
    requires ClockRuns(rounds) && forall i :: 0 <= i < |rounds| ==> rounds[i].queuedAt <= now
    ensures ListKept(After(rounds).restarts, RestartTimes(rounds), now)
  {
    if rounds != [] {
      ListIsKept(ButLast(rounds), Last(rounds).now);
      ListStep(After(ButLast(rounds)), Last(rounds), RestartTimes(ButLast(rounds)), now);
    }
  }

  lemma Later(kept: seq<int>, all: seq<int>, before: int, now: int)
    requires ListKept(kept, all, before) && before <= now
    ensures ListKept(kept, all, now)
  {
  }

  /** Of any three restarts in place of one app, the last comes at least the window after the first: no 30 minutes of
      the Hub's life hold more than two. */
  lemma AtMostTwoRestartsPerWindow(rounds: seq<App>, i: nat, j: nat, k: nat)
    requires ClockRuns(rounds) && i < j < k < |RestartTimes(rounds)|
    ensures RestartTimes(rounds)[k] - RestartTimes(rounds)[i] >= 30 * 60
  {
    ListIsKept(rounds, Last(rounds).queuedAt);
  }

  lemma {:induction false} RecentAppend(a: seq<int>, b: seq<int>, now: int)
    ensures Recent(a + b, now) == Recent(a, now) + Recent(b, now)
    decreases |b|
  {
    if b == [] {
      assert a + b == a;
    } else {
      assert (a + b)[..|a + b| - 1] == a + b[..|b| - 1];
      RecentAppend(a, b[..|b| - 1], now);
    }
  }

  /** Pruning the remembered restarts never hides one that still counts. */
  lemma RememberedIsTrue(rounds: seq<App>, now: int)
    requires ClockRuns(rounds) && forall i :: 0 <= i < |rounds| ==> rounds[i].queuedAt <= now
    ensures Recent(After(rounds).restarts, now) == Recent(RestartTimes(rounds), now)
  {
    ListIsKept(rounds, now);
    var kept, all := After(rounds).restarts, RestartTimes(rounds);
    var older := all[..|all| - |kept|];
    assert all == older + kept;
    AllOld(older, now);
    RecentAppend(older, kept, now);
  }

  /** The app has nowhere else to go and nothing is under way for it, so it is up to what its own node's agent says. */
  predicate IsUpToAgent(app: App) {
    !app.migrating && !app.rollingBack && app.hasImage && (app.pinned || !app.hasTarget) &&
    app.node.Some? && app.node.value.online && !app.deploying
  }

  predicate NeedsRestart(app: App) {
    IsUpToAgent(app) && ConfirmedDown(app.node.value, app)
  }

  lemma RestartNeeds(t: Tally, app: App)
    ensures Checked(t, app).1 == Restart <==>
      (ActsOn(t, app) && NeedsRestart(app) && |Recent(t.restarts, app.now)| < MAX_IN_PLACE_RESTARTS && app.dispatchWorks)
  {
  }

  /** An app is restarted in place exactly at a third failed check, when nothing but that is left to do, its node's
      agent confirms that it is down, and fewer than two restarts of it lie in the last 30 minutes. */
  lemma RestartsExactlyWhen(rounds: seq<App>)
    requires rounds != [] && ClockRuns(rounds)
    ensures var app := Last(rounds);
      Restarts(rounds) <==>
        (CheckOf(app) == Bad && BadSinceGood(rounds) % 3 == 0 && NeedsRestart(app) &&
         |Recent(RestartTimes(ButLast(rounds)), app.now)| < 2 && app.dispatchWorks)
  {
    ActsExactlyWhen(rounds);
    RememberedIsTrue(ButLast(rounds), Last(rounds).now);
    RestartNeeds(After(ButLast(rounds)), Last(rounds));
  }

  predicate IsThirdBad(rounds: seq<App>)
    requires rounds != []
  {
    CheckOf(Last(rounds)) == Bad && BadSinceGood(rounds) % 3 == 0
  }

  /** How often it was up to the agent, and the agent did not confirm that the app is down, since the app last answered
      or was confirmed down. */
  function UnconfirmedSince(rounds: seq<App>): nat {
    if rounds == [] || CheckOf(Last(rounds)) == Good then 0
    else
      var before := UnconfirmedSince(ButLast(rounds));
      if !IsThirdBad(rounds) || !IsUpToAgent(Last(rounds)) then before
      else if NeedsRestart(Last(rounds)) then 0
      else before + 1
  }

  lemma UnconfirmedChanges(t: Tally, app: App)
    ensures var (after, action) := Checked(t, app);
      after.unconfirmed ==
        (if CheckOf(app) == Good then 0
         else if !ActsOn(t, app) || !IsUpToAgent(app) then t.unconfirmed
         else if NeedsRestart(app) || t.unconfirmed >= MAX_UNCONFIRMED_WAITS then 0
         else t.unconfirmed + 1) &&
      (ActsOn(t, app) && IsUpToAgent(app) && !NeedsRestart(app) ==>
        action == if t.unconfirmed >= MAX_UNCONFIRMED_WAITS then GiveUp else Wait)
  {
  }

  lemma NextWait(n: nat)
    ensures if n % (MAX_UNCONFIRMED_WAITS + 1) >= MAX_UNCONFIRMED_WAITS then (n + 1) % (MAX_UNCONFIRMED_WAITS + 1) == 0
            else (n + 1) % (MAX_UNCONFIRMED_WAITS + 1) == n % (MAX_UNCONFIRMED_WAITS + 1) + 1
  {
  }

  lemma {:induction false} UnconfirmedIs(rounds: seq<App>)
    ensures After(rounds).unconfirmed == UnconfirmedSince(rounds) % (MAX_UNCONFIRMED_WAITS + 1)
  {
    if rounds != [] {
      UnconfirmedIs(ButLast(rounds));
      ActsExactlyWhen(rounds);
      UnconfirmedChanges(After(ButLast(rounds)), Last(rounds));
      NextWait(UnconfirmedSince(ButLast(rounds)));
    }
  }

  /** An app whose agent does not confirm that it is down is waited for three times and given up on at the fourth, over
      and over until it answers or is confirmed down. */
  lemma GivesUpAtEveryFourth(rounds: seq<App>)
    requires rounds != [] && IsThirdBad(rounds) && IsUpToAgent(Last(rounds)) && !NeedsRestart(Last(rounds))
    ensures Checked(After(ButLast(rounds)), Last(rounds)).1 ==
      if UnconfirmedSince(rounds) % 4 == 0 then GiveUp else Wait
  {
    UnconfirmedIs(ButLast(rounds));
    ActsExactlyWhen(rounds);
    UnconfirmedChanges(After(ButLast(rounds)), Last(rounds));
    NextWait(UnconfirmedSince(ButLast(rounds)));
  }

  // ---- each action has its condition ----

  /** A check counts as failed unless the app answered or was deployed less than three minutes ago. */
  lemma FailsExactlyWhen(app: App)
    ensures CheckOf(app) == Good <==> app.healthy
    ensures CheckOf(app) == Bad <==>
      !app.healthy && !(app.lastDeployed.Some? && 0 <= app.now - app.lastDeployed.value < 180)
  {
  }

  /** The app's node says it is down when its report is at most a minute old and not empty, and the first container in
      it that carries the app's label or name, if one does, is not running. */
  lemma {:induction false} DownExactlyWhen(containers: seq<ContainerReport>, app: App)
    ensures FirstReportIsDown(containers, app) <==>
      forall i :: 0 <= i < |containers| && IsFirstOf(containers, app, i) ==> !containers[i].running
  {
    if containers != [] {
      var rest := containers[1..];
      DownExactlyWhen(rest, app);
      if Reports(containers[0], app) {
        assert IsFirstOf(containers, app, 0);
      } else {
        forall i | 0 <= i < |rest| ensures IsFirstOf(rest, app, i) <==> IsFirstOf(containers, app, i + 1) {
          assert forall k :: 0 <= k < i ==> rest[k] == containers[k + 1];
        }
        forall i | 0 < i < |containers| ensures containers[i] == rest[i - 1] {}
      }
    }
  }

  ghost predicate IsFirstOf(containers: seq<ContainerReport>, app: App, i: int) {
    0 <= i < |containers| && (containers[i].project == Some(app.id) || containers[i].name == app.name) &&
    forall k :: 0 <= k < i ==> containers[k].project != Some(app.id) && containers[k].name != app.name
  }

  lemma ConfirmedExactlyWhen(node: NodeReport, app: App)
    ensures ConfirmedDown(node, app) <==>
      (app.now - node.lastHeartbeat <= 60 && node.containers != [] &&
       forall i :: 0 <= i < |node.containers| && IsFirstOf(node.containers, app, i) ==> !node.containers[i].running)
  {
    DownExactlyWhen(node.containers, app);
  }

  function ActionAt(rounds: seq<App>): Action
    requires rounds != []
  {
    Checked(After(ButLast(rounds)), Last(rounds)).1
  }

  predicate StaysHome(app: App) {
    app.hasImage && (app.pinned || !app.hasTarget)
  }

  lemma HandledCases(t: Tally, app: App)
    ensures ActsOn(t, app) ==> Checked(t, app).1 == Handled(t.(failures := 0), app).1
    ensures !ActsOn(t, app) ==> Checked(t, app).1 == NoAction
    ensures Handled(t, app).1 != NoAction
    ensures Handled(t, app).1 == Move <==>
      (!app.migrating && !app.rollingBack && app.hasImage && !app.pinned && app.hasTarget && app.dispatchWorks)
    ensures Handled(t, app).1 == Wait <==>
      (app.migrating || app.rollingBack || (app.hasImage && !app.pinned && app.hasTarget && !app.dispatchWorks) ||
       (StaysHome(app) && RestartedInPlace(t, app).1 == Wait))
    ensures Handled(t, app).1 == GiveUp <==>
      (!app.migrating && !app.rollingBack && (!app.hasImage || (StaysHome(app) && RestartedInPlace(t, app).1 == GiveUp)))
  {
  }

  lemma InPlaceCases(t: Tally, app: App)
    ensures RestartedInPlace(t, app).1 == Wait <==>
      (app.node.Some? && app.node.value.online &&
       (app.deploying || (!ConfirmedDown(app.node.value, app) && t.unconfirmed < 3)))
    ensures RestartedInPlace(t, app).1 == GiveUp <==>
      (app.node.None? || !app.node.value.online ||
       (!app.deploying && (if ConfirmedDown(app.node.value, app)
         then |Recent(t.restarts, app.now)| >= 2 || !app.dispatchWorks else t.unconfirmed >= 3)))
  {
  }

  /** Nothing is done about an app before its third failed check, and something always is then. */
  lemma ActsOnlyThen(rounds: seq<App>)
    requires rounds != []
    ensures ActionAt(rounds) == NoAction <==> !IsThirdBad(rounds)
  {
    ActsExactlyWhen(rounds);
    var t := After(ButLast(rounds));
    HandledCases(t, Last(rounds));
    HandledCases(t.(failures := 0), Last(rounds));
  }

  /** An app moves exactly at a third failed check with nothing under way for it, an image to start, no pin, and another
      node that takes it. */
  lemma MovesExactlyWhen(rounds: seq<App>)
    requires rounds != []
    ensures var app := Last(rounds);
      ActionAt(rounds) == Move <==>
        (IsThirdBad(rounds) && !app.migrating && !app.rollingBack && app.hasImage && !app.pinned && app.hasTarget &&
         app.dispatchWorks)
  {
    ActsExactlyWhen(rounds);
    var t := After(ButLast(rounds));
    HandledCases(t, Last(rounds));
    HandledCases(t.(failures := 0), Last(rounds));
  }

  /** It is waited for exactly while something is under way for it, while the deploy that should move it cannot be
      queued, or while its own node is up and still deploys it or has not confirmed that it is down, three times in four. */
  lemma WaitsExactlyWhen(rounds: seq<App>)
    requires rounds != []
    ensures var app := Last(rounds);
      ActionAt(rounds) == Wait <==>
        (IsThirdBad(rounds) &&
         (app.migrating || app.rollingBack || (app.hasImage && !app.pinned && app.hasTarget && !app.dispatchWorks) ||
          (StaysHome(app) && app.node.Some? && app.node.value.online &&
           (app.deploying || (!ConfirmedDown(app.node.value, app) && UnconfirmedSince(rounds) % 4 != 0)))))
  {
    ActsExactlyWhen(rounds);
    WaitsInPlace(rounds);
    var t := After(ButLast(rounds));
    HandledCases(t, Last(rounds));
    HandledCases(t.(failures := 0), Last(rounds));
    InPlaceCases(t.(failures := 0), Last(rounds));
  }

  /** The count of unconfirmed answers, where it decides, is the one before this round plus one. */
  lemma WaitsInPlace(rounds: seq<App>)
    requires rounds != []
    ensures var app, t := Last(rounds), After(ButLast(rounds));
      IsThirdBad(rounds) && IsUpToAgent(app) && !NeedsRestart(app) ==>
        (t.unconfirmed < 3 <==> UnconfirmedSince(rounds) % 4 != 0)
  {
    UnconfirmedIs(ButLast(rounds));
    NextWait(UnconfirmedSince(ButLast(rounds)));
  }

  /** It is given up on exactly when there is nothing to start, or it can only stay where it is and its node is down,
      does not confirm that it is down for the fourth time, or has restarted it twice in the last 30 minutes. */
  lemma GivesUpExactlyWhen(rounds: seq<App>)
    requires rounds != [] && ClockRuns(rounds)
    ensures var app := Last(rounds);
      ActionAt(rounds) == GiveUp <==>
        (IsThirdBad(rounds) && !app.migrating && !app.rollingBack &&
         (!app.hasImage ||
          (StaysHome(app) &&
           (app.node.None? || !app.node.value.online ||
            (!app.deploying &&
             (if ConfirmedDown(app.node.value, app)
              then |Recent(RestartTimes(ButLast(rounds)), app.now)| >= 2 || !app.dispatchWorks
              else UnconfirmedSince(rounds) % 4 == 0))))))
  {
    ActsExactlyWhen(rounds);
    WaitsInPlace(rounds);
    RememberedIsTrue(ButLast(rounds), Last(rounds).now);
    var t := After(ButLast(rounds));
    HandledCases(t, Last(rounds));
    HandledCases(t.(failures := 0), Last(rounds));
    InPlaceCases(t.(failures := 0), Last(rounds));
  }

  // ---- going back into service ----

  function Recovering(counts: map<ProjectId, nat>, id: ProjectId): nat {
    if id in counts then counts[id] else 0
  }

  predicate Recovers(count: nat, ok: bool) {
    ok && count + 1 >= RECOVERY_CHECKS
  }

  function RecoveryCount(count: nat, ok: bool): nat {
    if !ok || Recovers(count, ok) then 0 else count + 1
  }

  function CountAfter(checks: seq<bool>): nat {
    if checks == [] then 0 else RecoveryCount(CountAfter(checks[..|checks| - 1]), checks[|checks| - 1])
  }

  /** How many checks at the end were good. */
  function GoodAtEnd(checks: seq<bool>): nat {
    if checks == [] || !checks[|checks| - 1] then 0 else GoodAtEnd(checks[..|checks| - 1]) + 1
  }

  lemma {:induction false} CountIs(checks: seq<bool>)
    ensures CountAfter(checks) == GoodAtEnd(checks) % RECOVERY_CHECKS
  {
    if checks != [] { CountIs(checks[..|checks| - 1]); }
  }

  /** A failed app goes back into service at every second good check in a row. */
  lemma {:induction false} RecoversExactlyWhen(checks: seq<bool>, ok: bool)
    ensures Recovers(CountAfter(checks), ok) <==> (ok && GoodAtEnd(checks + [ok]) % 2 == 0)
  {
    CountIs(checks);
    assert (checks + [ok])[..|checks|] == checks;
  }
}
