/** The per-node job scheduler: which pending job a node may start, and what that keeps true over whole runs. */
module Scheduler {
  import opened Jobs

  // ---- what one claim may hand out ----

  ghost predicate Idle(jobs: seq<Job>, node: Node) {
    forall i :: !Counted(jobs, node.id, node.agentStartedAt, i)
  }

  ghost predicate Busy(jobs: seq<Job>, node: Node, s: Scope) {
    exists i :: Counted(jobs, node.id, node.agentStartedAt, i) && jobs[i].scope == s
  }

  ghost function CountedIds(jobs: seq<Job>, n: NodeId, epoch: Option<int>): set<JobId> {
    set i | 0 <= i < |jobs| && Counted(jobs, n, epoch, i)
  }

  ghost predicate UnscopedAhead(jobs: seq<Job>, n: NodeId, j: JobId) {
    exists i :: i < j && PendingOn(jobs, n, i) && jobs[i].kind != LogsFollow && jobs[i].scope == Unscoped
  }

  /** The scheduling rule, without the loop that applies it: a log stream may always start; any other job needs a
      free slot and either an idle node, or room beside jobs that neither share its scope nor run alone, with no
      job that runs alone waiting ahead of it. */
  ghost predicate MayStart(jobs: seq<Job>, node: Node, j: JobId) {
    PendingOn(jobs, node.id, j) && j in Window(jobs, node.id) &&
    (jobs[j].kind == LogsFollow ||
     (|CountedIds(jobs, node.id, node.agentStartedAt)| < JobLimit(node) &&
      (Idle(jobs, node) ||
       (RoomForAnotherJob(node) && jobs[j].scope != Unscoped && !Busy(jobs, node, Unscoped) &&
        !Busy(jobs, node, jobs[j].scope) && !UnscopedAhead(jobs, node.id, j)))))
  }

  /** The oldest job from k on that may start now. */
  ghost function NextFrom(jobs: seq<Job>, node: Node, k: nat): (r: Option<JobId>)
    requires k <= |jobs|
    ensures r.Some? ==> k <= r.value < |jobs| && MayStart(jobs, node, r.value)
    ensures forall i :: k <= i < (if r.Some? then r.value else |jobs|) ==> !MayStart(jobs, node, i)
    decreases |jobs| - k
  {
    if k == |jobs| then None else if MayStart(jobs, node, k) then Some(k) else NextFrom(jobs, node, k + 1)
  }

  ghost function NextJob(jobs: seq<Job>, node: Node): (r: Option<JobId>)
    ensures r.Some? ==> 0 <= r.value < |jobs| && MayStart(jobs, node, r.value)
    ensures forall i :: 0 <= i < (if r.Some? then r.value else |jobs|) ==> !MayStart(jobs, node, i)
  {
    NextFrom(jobs, node, 0)
  }

  function Started(j: Job, now: int): Job {
    j.(status := Running, startedAt := Some(now))
  }

  ghost function Claim(jobs: seq<Job>, node: Node, now: int): seq<Job> {
    var r := NextJob(jobs, node);
    if r.Some? then jobs[r.value := Started(jobs[r.value], now)] else jobs
  }

  lemma NextIsFirst(jobs: seq<Job>, node: Node, j: JobId)
    requires MayStart(jobs, node, j)
    requires forall i :: 0 <= i < j ==> !MayStart(jobs, node, i)
    ensures NextJob(jobs, node) == Some(j)
  {
  }

  // ---- the loop ----

  class JobTable {
    var jobs: seq<Job>

    constructor (jobs: seq<Job>)
      ensures this.jobs == jobs
    {
      this.jobs := jobs;
    }

    /** The `running` query: one row for each job that takes a slot. */
    method CountRunning(node: Node) returns (running: nat, busy: set<Scope>)
      ensures running == |CountedIds(jobs, node.id, node.agentStartedAt)|
      ensures forall s :: s in busy <==> Busy(jobs, node, s)
    {
      running, busy := 0, {};
      ghost var seen: set<JobId> := {};
      var i := 0;
      while i < |jobs|
        invariant 0 <= i <= |jobs|
        invariant seen == set k | 0 <= k < i && Counted(jobs, node.id, node.agentStartedAt, k)
        invariant running == |seen|
        invariant forall s :: s in busy <==>
          exists k :: k < i && Counted(jobs, node.id, node.agentStartedAt, k) && jobs[k].scope == s
      {
        if Counted(jobs, node.id, node.agentStartedAt, i) {
          running, busy := running + 1, busy + {jobs[i].scope};
          seen := seen + {i};
        }
        i := i + 1;
      }
      assert seen == CountedIds(jobs, node.id, node.agentStartedAt);
    }

    /** Hands the node its next job: the first, in order of creation, that the rule lets start. */
    method Next(node: Node, now: int) returns (claimed: Option<JobId>)
      modifies this
      ensures claimed == NextJob(old(jobs), node)
      ensures jobs == Claim(old(jobs), node, now)
    {
      var running, busy := CountRunning(node);
      var exclusive := Unscoped in busy;
      var pending := Window(jobs, node.id);
      WindowIsPrefix(jobs, node.id);
      WalkFollowsRule(jobs, node, pending, running, busy, false, 0);
      FirstAllowedIsNext(jobs, node, pending, 0);
      var limit := JobLimit(node);
      var queueBlocked := false;
      var i := 0;
      while i < |pending|
        invariant 0 <= i <= |pending| && jobs == old(jobs)
        invariant Walk(jobs, node, pending, running, busy, queueBlocked, i) == NextJob(old(jobs), node)
      {
        var id := pending[i];
        i := i + 1;
        if jobs[id].kind != LogsFollow {
          if queueBlocked || exclusive || running >= limit {
            continue;
          }
          if running > 0 {
            if jobs[id].scope == Unscoped {
              queueBlocked := true; // nothing after it may go first
              continue;
            }
            if jobs[id].scope in busy {
              continue;
            }
            if !RoomForAnotherJob(node) {
              queueBlocked := true;
              continue;
            }
          }
        }
        if jobs[id].status == Pending {
          jobs := jobs[id := Started(jobs[id], now)];
          claimed := Some(id);
          return;
        }
      }
      claimed := None;
    }
  }

  /** The candidate the loop settles on when it is at position i of its snapshot. */
  ghost function Walk(jobs: seq<Job>, node: Node, pending: seq<JobId>, running: nat, busy: set<Scope>, blocked: bool,
      i: nat): Option<JobId>
    requires i <= |pending| && forall k :: 0 <= k < |pending| ==> 0 <= pending[k] < |jobs|
    decreases |pending| - i
  {
    if i == |pending| then None
    else
      var id := pending[i];
      if jobs[id].kind != LogsFollow && (blocked || Unscoped in busy || running >= JobLimit(node)) then
        Walk(jobs, node, pending, running, busy, blocked, i + 1)
      else if jobs[id].kind != LogsFollow && running > 0 && jobs[id].scope == Unscoped then
        Walk(jobs, node, pending, running, busy, true, i + 1)
      else if jobs[id].kind != LogsFollow && running > 0 && jobs[id].scope in busy then
        Walk(jobs, node, pending, running, busy, blocked, i + 1)
      else if jobs[id].kind != LogsFollow && running > 0 && !RoomForAnotherJob(node) then
        Walk(jobs, node, pending, running, busy, true, i + 1)
      else Some(id)
  }

  ghost function FirstAllowed(jobs: seq<Job>, node: Node, pending: seq<JobId>, i: nat): Option<JobId>
    requires i <= |pending|
    decreases |pending| - i
  {
    if i == |pending| then None
    else if MayStart(jobs, node, pending[i]) then Some(pending[i])
    else FirstAllowed(jobs, node, pending, i + 1)
  }

  /** The walk, with its flag, hands out exactly the first candidate the rule allows. */
  lemma {:induction false} WalkFollowsRule(jobs: seq<Job>, node: Node, pending: seq<JobId>, running: nat,
      busy: set<Scope>, blocked: bool, i: nat)
    requires Snapshot(jobs, node, pending, running, busy) && i <= |pending|
    requires blocked ==> running > 0 && (RoomForAnotherJob(node) ==> UnscopedBefore(jobs, pending, i))
    requires UnscopedBefore(jobs, pending, i) ==>
      blocked || Unscoped in busy || running == 0 || running >= JobLimit(node)
    ensures Walk(jobs, node, pending, running, busy, blocked, i) == FirstAllowed(jobs, node, pending, i)
    decreases |pending| - i
  {
    if i < |pending| {
      RuleAt(jobs, node, pending, running, busy, i);
      UnscopedBeforeNext(jobs, pending, i);
      var job := jobs[pending[i]];
      var blocks := job.kind != LogsFollow && Unscoped !in busy && running < JobLimit(node) && running > 0 &&
        (job.scope == Unscoped || (job.scope !in busy && !RoomForAnotherJob(node)));
      if !MayStart(jobs, node, pending[i]) {
        WalkFollowsRule(jobs, node, pending, running, busy, blocked || blocks, i + 1);
      }
    }
  }

  lemma UnscopedBeforeNext(jobs: seq<Job>, pending: seq<JobId>, i: nat)
    requires i < |pending| && forall k :: 0 <= k < |pending| ==> 0 <= pending[k] < |jobs|
    ensures UnscopedBefore(jobs, pending, i + 1) <==>
      UnscopedBefore(jobs, pending, i) || (jobs[pending[i]].kind != LogsFollow && jobs[pending[i]].scope == Unscoped)
  {
  }

  /** What a claim reads before it walks its candidates. */
  ghost predicate Snapshot(jobs: seq<Job>, node: Node, pending: seq<JobId>, running: nat, busy: set<Scope>) {
    pending == Window(jobs, node.id) && (forall k :: 0 <= k < |pending| ==> 0 <= pending[k] < |jobs|) &&
    running == |CountedIds(jobs, node.id, node.agentStartedAt)| && (forall s :: s in busy <==> Busy(jobs, node, s))
  }

  ghost predicate UnscopedBefore(jobs: seq<Job>, pending: seq<JobId>, i: nat)
    requires i <= |pending| && forall k :: 0 <= k < |pending| ==> 0 <= pending[k] < |jobs|
  {
    exists k :: 0 <= k < i && jobs[pending[k]].kind != LogsFollow && jobs[pending[k]].scope == Unscoped
  }

  lemma RuleAt(jobs: seq<Job>, node: Node, pending: seq<JobId>, running: nat, busy: set<Scope>, i: nat)
    requires Snapshot(jobs, node, pending, running, busy) && i < |pending|
    ensures var job := jobs[pending[i]];
      MayStart(jobs, node, pending[i]) <==>
        job.kind == LogsFollow || (running < JobLimit(node) && (running == 0 ||
         (RoomForAnotherJob(node) && job.scope != Unscoped && Unscoped !in busy && job.scope !in busy &&
          !UnscopedBefore(jobs, pending, i))))
    ensures Unscoped in busy ==> running > 0
  {
    IdleIsEmpty(jobs, node);
    WindowIsPrefix(jobs, node.id);
    var id := pending[i];
    if UnscopedAhead(jobs, node.id, id) {
      var u :| u < id && PendingOn(jobs, node.id, u) && jobs[u].kind != LogsFollow && jobs[u].scope == Unscoped;
      assert u in pending[..i];
    }
    if UnscopedBefore(jobs, pending, i) {
      var k :| 0 <= k < i && jobs[pending[k]].kind != LogsFollow && jobs[pending[k]].scope == Unscoped;
      assert PendingOn(jobs, node.id, pending[k]);
      assert UnscopedAhead(jobs, node.id, id);
    }
  }

  lemma StartableIsLater(jobs: seq<Job>, node: Node, pending: seq<JobId>, i: nat, j: int)
    requires pending == Window(jobs, node.id) && i <= |pending| && MayStart(jobs, node, j)
    requires forall k :: 0 <= k < i ==> !MayStart(jobs, node, pending[k])
    ensures i < |pending| && pending[i] <= j
  {
    WindowIsPrefix(jobs, node.id);
    var k :| 0 <= k < |pending| && pending[k] == j;
  }

  lemma {:induction false} FirstAllowedIsNext(jobs: seq<Job>, node: Node, pending: seq<JobId>, i: nat)
    requires pending == Window(jobs, node.id) && i <= |pending|
    requires forall k :: 0 <= k < i ==> !MayStart(jobs, node, pending[k])
    ensures FirstAllowed(jobs, node, pending, i) == NextJob(jobs, node)
    decreases |pending| - i
  {
    forall j | MayStart(jobs, node, j) ensures i < |pending| && pending[i] <= j {
      StartableIsLater(jobs, node, pending, i, j);
    }
    if i < |pending| {
      if MayStart(jobs, node, pending[i]) {
        NextIsFirst(jobs, node, pending[i]);
      } else {
        FirstAllowedIsNext(jobs, node, pending, i + 1);
      }
    }
  }

  lemma IdleIsEmpty(jobs: seq<Job>, node: Node)
    ensures Idle(jobs, node) <==> |CountedIds(jobs, node.id, node.agentStartedAt)| == 0
  {
    var ids := CountedIds(jobs, node.id, node.agentStartedAt);
    if |ids| == 0 {
      assert ids == {};
      forall i ensures !Counted(jobs, node.id, node.agentStartedAt, i) { assert i !in ids; }
    }
  }
}
