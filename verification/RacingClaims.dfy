/** Claims of one node that overlap: each request reads its snapshot first and updates rows conditionally later,
    outside a transaction, with any other request and report in between. */
module RacingClaims {
  import opened Jobs
  import opened Scheduler
  import opened QueueRuns

  /** A request part-way through its loop, over the rows it read when it began. */
  datatype Reader = Reader(rows: seq<Job>, node: Node, at: nat, blocked: bool)

  datatype World = World(queue: Queue, readers: map<nat, Reader>, handed: seq<JobId>)

  datatype Event =
    | Read(request: nat, node: Node)
    | TryUpdate(request: nat)
    | Other(event: QueueRuns.Event)            // anything but a claim

  ghost function BusyScopes(rows: seq<Job>, node: Node): set<Scope> {
    set i | 0 <= i < |rows| && Counted(rows, node.id, node.agentStartedAt, i) :: rows[i].scope
  }

  ghost predicate AreRows(jobs: seq<Job>, ids: seq<JobId>) {
    forall k :: 0 <= k < |ids| ==> 0 <= ids[k] < |jobs|
  }

  /** Where the loop stops to try its next update, with the flag it carries there. */
  ghost function StopAt(jobs: seq<Job>, node: Node, pending: seq<JobId>, running: nat, busy: set<Scope>, blocked: bool,
      i: nat): (s: (nat, bool))
    requires i <= |pending| && AreRows(jobs, pending)
    ensures i <= s.0 <= |pending|
    decreases |pending| - i
  {
    if i == |pending| then (i, blocked)
    else
      var job := jobs[pending[i]];
      if job.kind == LogsFollow then (i, blocked)
      else if blocked || Unscoped in busy || running >= JobLimit(node) then
        StopAt(jobs, node, pending, running, busy, blocked, i + 1)
      else if running == 0 then (i, blocked)
      else if job.scope == Unscoped then StopAt(jobs, node, pending, running, busy, true, i + 1)
      else if job.scope in busy then StopAt(jobs, node, pending, running, busy, blocked, i + 1)
      else if !RoomForAnotherJob(node) then StopAt(jobs, node, pending, running, busy, true, i + 1)
      else (i, blocked)
  }

  ghost function NextTry(r: Reader): (s: Reader)
    ensures s.rows == r.rows && s.node == r.node && r.at <= s.at
  {
    WindowIsPrefix(r.rows, r.node.id);
    var pending, running := Window(r.rows, r.node.id), |CountedIds(r.rows, r.node.id, r.node.agentStartedAt)|;
    if r.at >= |pending| then r
    else
      var s := StopAt(r.rows, r.node, pending, running, BusyScopes(r.rows, r.node), r.blocked, r.at);
      r.(at := s.0, blocked := s.1)
  }

  lemma {:induction false} StopIsWalk(jobs: seq<Job>, node: Node, pending: seq<JobId>, running: nat, busy: set<Scope>,
      blocked: bool, i: nat)
    requires i <= |pending| && AreRows(jobs, pending)
    ensures var at := StopAt(jobs, node, pending, running, busy, blocked, i).0;
      Walk(jobs, node, pending, running, busy, blocked, i) == if at < |pending| then Some(pending[at]) else None
    decreases |pending| - i
  {
    if i < |pending| {
      StopIsWalk(jobs, node, pending, running, busy, blocked, i + 1);
      StopIsWalk(jobs, node, pending, running, busy, true, i + 1);
    }
  }

  /** A request that nothing overtakes hands out the job the scheduling rule names. */
  lemma FreshReaderFollowsRule(rows: seq<Job>, node: Node)
    ensures var pending := Window(rows, node.id);
      NextJob(rows, node) == (var at := NextTry(Reader(rows, node, 0, false)).at;
                              if at < |pending| then Some(pending[at]) else None)
  {
    var pending, running := Window(rows, node.id), |CountedIds(rows, node.id, node.agentStartedAt)|;
    var busy := BusyScopes(rows, node);
    WindowIsPrefix(rows, node.id);
    StopIsWalk(rows, node, pending, running, busy, false, 0);
    forall s ensures s in busy <==> Busy(rows, node, s) {}
    WalkFollowsRule(rows, node, pending, running, busy, false, 0);
    FirstAllowedIsNext(rows, node, pending, 0);
  }

  ghost predicate Allowed(w: World, e: Event) {
    match e
    case Read(_, node) => node.agentStartedAt == Epoch(w.queue, node.id)
    case TryUpdate(c) => c in w.readers
    case Other(event) => !event.Claim? && Enabled(w.queue, event)
  }

  /** The job that the request's next update would change, if its row is still pending. */
  ghost function Tried(w: World, c: nat): (id: Option<JobId>)
    requires c in w.readers
    ensures id.Some? ==> 0 <= id.value < |w.queue.jobs| && w.queue.jobs[id.value].status == Pending
  {
    var r := NextTry(w.readers[c]);
    WindowIsPrefix(r.rows, r.node.id);
    var pending := Window(r.rows, r.node.id);
    if r.at < |pending| && pending[r.at] < |w.queue.jobs| && w.queue.jobs[pending[r.at]].status == Pending then
      Some(pending[r.at])
    else None
  }

  ghost function HandOut(q: Queue, id: JobId): Queue
    requires 0 <= id < |q.jobs|
  {
    q.(jobs := q.jobs[id := Started(q.jobs[id], q.now)])
  }

  ghost function After(w: World, e: Event): World
    requires Allowed(w, e)
  {
    match e
    case Read(c, node) => w.(readers := w.readers[c := Reader(w.queue.jobs, node, 0, false)])
    case Other(event) => w.(queue := Step(w.queue, event))
    case TryUpdate(c) =>
      var r, id := NextTry(w.readers[c]), Tried(w, c);
      if id.Some? then World(HandOut(w.queue, id.value), w.readers - {c}, w.handed + [id.value])
      else if r.at < |Window(r.rows, r.node.id)| then w.(readers := w.readers[c := r.(at := r.at + 1)])
      else w.(readers := w.readers - {c})
  }

  ghost predicate CanInterleave(w: World, es: seq<Event>)
    decreases |es|
  {
    es == [] || (Allowed(w, es[0]) && CanInterleave(After(w, es[0]), es[1..]))
  }

  ghost function Interleave(w: World, es: seq<Event>): World
    requires CanInterleave(w, es)
    decreases |es|
  {
    if es == [] then w else Interleave(After(w, es[0]), es[1..])
  }

  const EMPTY := World(Queue([], map[], 0), map[], [])

  // ---- claimed once ----

  ghost predicate HandedOnce(w: World) {
    (forall a, b :: 0 <= a < b < |w.handed| ==> w.handed[a] != w.handed[b]) &&
    (forall a :: 0 <= a < |w.handed| ==> 0 <= w.handed[a] < |w.queue.jobs| && w.queue.jobs[w.handed[a]].status != Pending)
  }

  /** However the reads and updates of any number of requests interleave, no job is handed out twice. */
  lemma {:induction false} NoJobTwice(w: World, es: seq<Event>)
    requires HandedOnce(w) && CanInterleave(w, es)
    ensures HandedOnce(Interleave(w, es))
    decreases |es|
  {
    if es != [] {
      NoJobTwice(After(w, es[0]), es[1..]);
    }
  }

  // ---- what a request has seen ----

  /** A row as it was when a request read it, and as it is now: it has not gone back to waiting, and one that was
      running then has not been started again. */
  predicate Since(before: Job, now: Job) {
    now.node == before.node && now.kind == before.kind && now.scope == before.scope &&
    (before.status != Pending ==> now.status != Pending && now.startedAt == before.startedAt) &&
    (before.status != Pending && before.status != Running ==> now.status != Running)
  }

  ghost predicate EarlierVersion(rows: seq<Job>, jobs: seq<Job>) {
    |rows| <= |jobs| && forall i :: 0 <= i < |rows| ==> Since(rows[i], jobs[i])
  }

  /** The node's agent as the request saw it: the present one, or one that has restarted since. */
  predicate EpochSince(epoch: Option<int>, q: Queue, n: NodeId) {
    epoch.Some? ==> n in q.epochs && epoch.value <= q.epochs[n]
  }

  ghost predicate ReaderKnows(q: Queue, r: Reader) {
    EarlierVersion(r.rows, q.jobs) && EpochSince(r.node.agentStartedAt, q, r.node.id)
  }

  ghost predicate Consistent(w: World) {
    Dated(w.queue) && forall c :: c in w.readers ==> ReaderKnows(w.queue, w.readers[c])
  }

  lemma OtherStepKeeps(q: Queue, e: QueueRuns.Event, r: Reader)
    requires Dated(q) && Enabled(q, e) && !e.Claim? && ReaderKnows(q, r)
    ensures ReaderKnows(Step(q, e), r)
  {
  }

  lemma HandOutKeeps(q: Queue, id: JobId, r: Reader)
    requires ReaderKnows(q, r) && 0 <= id < |q.jobs| && q.jobs[id].status == Pending
    ensures ReaderKnows(HandOut(q, id), r)
  {
  }

  lemma StepStaysConsistent(w: World, e: Event)
    requires Consistent(w) && Allowed(w, e)
    ensures Consistent(After(w, e))
  {
    var v := After(w, e);
    forall c | c in v.readers ensures ReaderKnows(v.queue, v.readers[c]) {
      match e
      case Read(_, _) =>
      case Other(event) => OtherStepKeeps(w.queue, event, w.readers[c]);
      case TryUpdate(d) =>
        var id := Tried(w, d);
        if id.Some? { HandOutKeeps(w.queue, id.value, w.readers[c]); }
    }
  }

  // ---- when scope exclusion survives ----

  /** Job k of the request's node is running, and was not when the request read the queue. */
  ghost predicate StartedSince(w: World, r: Reader, k: JobId) {
    Occupies(w.queue, k) && w.queue.jobs[k].node == r.node.id && (k < |r.rows| ==> r.rows[k].status == Pending)
  }

  /** Nothing that started since the read must keep job id waiting: not in its scope, nor either of them alone. */
  ghost predicate NothingInTheWay(w: World, r: Reader, id: JobId)
    requires 0 <= id < |w.queue.jobs|
  {
    forall k :: StartedSince(w, r, k) ==>
      w.queue.jobs[k].scope != w.queue.jobs[id].scope && w.queue.jobs[k].scope != Unscoped &&
      w.queue.jobs[id].scope != Unscoped
  }

  /** Beside running jobs the loop stops only at one it may put there. */
  lemma {:induction false} StopIsClear(jobs: seq<Job>, node: Node, pending: seq<JobId>, running: nat, busy: set<Scope>,
      blocked: bool, i: nat, scope: Scope)
    requires i <= |pending| && AreRows(jobs, pending) && running > 0 && scope in busy
    ensures var at := StopAt(jobs, node, pending, running, busy, blocked, i).0;
      at < |pending| && jobs[pending[at]].kind != LogsFollow ==>
        scope != jobs[pending[at]].scope && scope != Unscoped && jobs[pending[at]].scope != Unscoped
    decreases |pending| - i
  {
    if i < |pending| {
      StopIsClear(jobs, node, pending, running, busy, blocked, i + 1, scope);
      StopIsClear(jobs, node, pending, running, busy, true, i + 1, scope);
    }
  }

  /** What a request has counted as running it does not put another job beside. */
  lemma TriedIsClear(r: Reader, k: JobId)
    requires var t, pending := NextTry(r), Window(r.rows, r.node.id);
      t.at < |pending| && 0 <= pending[t.at] < |r.rows| && r.rows[pending[t.at]].kind != LogsFollow
    requires Counted(r.rows, r.node.id, r.node.agentStartedAt, k)
    ensures var id := Window(r.rows, r.node.id)[NextTry(r).at];
      r.rows[k].scope != r.rows[id].scope && r.rows[k].scope != Unscoped && r.rows[id].scope != Unscoped
  {
    var pending, counted := Window(r.rows, r.node.id), CountedIds(r.rows, r.node.id, r.node.agentStartedAt);
    WindowIsPrefix(r.rows, r.node.id);
    assert k in counted;
    StopIsClear(r.rows, r.node, pending, |counted|, BusyScopes(r.rows, r.node), r.blocked, r.at, r.rows[k].scope);
  }

  /** A running job that a request did not count has started since it read. */
  lemma UncountedStartedSince(w: World, r: Reader, k: JobId)
    requires Dated(w.queue) && ReaderKnows(w.queue, r) && Occupies(w.queue, k) && w.queue.jobs[k].node == r.node.id
    ensures StartedSince(w, r, k) || Counted(r.rows, r.node.id, r.node.agentStartedAt, k)
  {
  }

  lemma OccupiedAfter(q: Queue, id: JobId)
    requires Dated(q) && 0 <= id < |q.jobs| && q.jobs[id].status == Pending
    ensures forall k :: k != id ==> (Occupies(HandOut(q, id), k) <==> Occupies(q, k))
    ensures Occupies(HandOut(q, id), id) <==> q.jobs[id].kind != LogsFollow
  {
  }

  lemma StartStaysExclusive(q: Queue, id: JobId)
    requires Dated(q) && Exclusive(q) && 0 <= id < |q.jobs| && q.jobs[id].status == Pending
    ensures Exclusive(HandOut(q, id)) <==>
      (q.jobs[id].kind == LogsFollow || forall k :: Occupies(q, k) && q.jobs[k].node == q.jobs[id].node ==>
        q.jobs[k].scope != q.jobs[id].scope && q.jobs[k].scope != Unscoped && q.jobs[id].scope != Unscoped)
  {
    var t := HandOut(q, id);
    OccupiedAfter(q, id);
    if q.jobs[id].kind != LogsFollow && Exclusive(t) {
      forall k | Occupies(q, k) && q.jobs[k].node == q.jobs[id].node
        ensures q.jobs[k].scope != q.jobs[id].scope && q.jobs[k].scope != Unscoped && q.jobs[id].scope != Unscoped
      {
        assert Occupies(t, k) && Occupies(t, id) && k != id;
      }
    }
  }

  /** The job tried is one the request read as pending on its node, and its row has changed only in status. */
  lemma TriedWasRead(w: World, c: nat)
    requires Consistent(w) && c in w.readers && Tried(w, c).Some?
    ensures var r, id := w.readers[c], Tried(w, c).value;
      PendingOn(r.rows, r.node.id, id) && w.queue.jobs[id].node == r.node.id &&
      w.queue.jobs[id].kind == r.rows[id].kind && w.queue.jobs[id].scope == r.rows[id].scope
  {
    var r, id := w.readers[c], Tried(w, c).value;
    WindowIsPrefix(r.rows, r.node.id);
    assert ReaderKnows(w.queue, r);
    assert Since(r.rows[id], w.queue.jobs[id]);
  }

  /** An update that starts a job keeps scope exclusion if and only if nothing that started since the request read the
      queue is in the way of that job. */
  lemma UpdateKeepsExclusionExactlyWhen(w: World, c: nat)
    requires Consistent(w) && Exclusive(w.queue) && c in w.readers && Tried(w, c).Some?
    ensures var id := Tried(w, c).value;
      Exclusive(After(w, TryUpdate(c)).queue) <==>
        (w.queue.jobs[id].kind == LogsFollow || NothingInTheWay(w, w.readers[c], id))
  {
    var r, id := w.readers[c], Tried(w, c).value;
    assert ReaderKnows(w.queue, r);
    TriedWasRead(w, c);
    StartStaysExclusive(w.queue, id);
    forall k | Occupies(w.queue, k) && w.queue.jobs[k].node == r.node.id && w.queue.jobs[id].kind != LogsFollow
      ensures StartedSince(w, r, k) || (w.queue.jobs[k].scope != w.queue.jobs[id].scope &&
        w.queue.jobs[k].scope != Unscoped && w.queue.jobs[id].scope != Unscoped)
    {
      UncountedStartedSince(w, r, k);
      if Counted(r.rows, r.node.id, r.node.agentStartedAt, k) {
        assert Since(r.rows[k], w.queue.jobs[k]);
        TriedIsClear(r, k);
      }
    }
  }

  /** Whether an event starts a job that something which started since its request's read should keep waiting. */
  ghost predicate Overlooks(w: World, e: Event)
    requires Allowed(w, e)
  {
    e.TryUpdate? && Tried(w, e.request).Some? && w.queue.jobs[Tried(w, e.request).value].kind != LogsFollow &&
    !NothingInTheWay(w, w.readers[e.request], Tried(w, e.request).value)
  }

  ghost predicate NothingOverlooked(w: World, es: seq<Event>)
    requires CanInterleave(w, es)
    decreases |es|
  {
    es == [] || (!Overlooks(w, es[0]) && NothingOverlooked(After(w, es[0]), es[1..]))
  }

  ghost predicate AlwaysExclusive(w: World, es: seq<Event>)
    requires CanInterleave(w, es)
    decreases |es|
  {
    Exclusive(w.queue) && (es == [] || AlwaysExclusive(After(w, es[0]), es[1..]))
  }

  lemma EventKeepsExclusionExactlyWhen(w: World, e: Event)
    requires Consistent(w) && Exclusive(w.queue) && Allowed(w, e)
    ensures Exclusive(After(w, e).queue) <==> !Overlooks(w, e)
  {
    match e
    case Read(_, _) =>
    case Other(event) => OthersKeepExclusion(w.queue, event);
    case TryUpdate(c) =>
      if Tried(w, c).Some? { UpdateKeepsExclusionExactlyWhen(w, c); }
  }

  lemma OthersKeepExclusion(q: Queue, e: QueueRuns.Event)
    requires Dated(q) && Exclusive(q) && Enabled(q, e) && !e.Claim?
    ensures Exclusive(Step(q, e))
  {
    forall i ensures Occupies(Step(q, e), i) ==> Occupies(q, i) {}
  }

  lemma {:induction false} RunStaysExclusive(w: World, es: seq<Event>)
    requires Consistent(w) && Exclusive(w.queue) && CanInterleave(w, es)
    ensures AlwaysExclusive(w, es) <==> NothingOverlooked(w, es)
    decreases |es|
  {
    if es != [] {
      EventKeepsExclusionExactlyWhen(w, es[0]);
      StepStaysConsistent(w, es[0]);
      if Exclusive(After(w, es[0]).queue) {
        RunStaysExclusive(After(w, es[0]), es[1..]);
      }
    }
  }

  /** Over every run of racing claims: no two jobs of one scope ever run together, nor any beside one without a scope,
      if and only if no update overlooked a job that had started since its request read the queue. */
  lemma ExclusionHoldsExactlyWhen(es: seq<Event>)
    requires CanInterleave(EMPTY, es)
    ensures AlwaysExclusive(EMPTY, es) <==> NothingOverlooked(EMPTY, es)
  {
    RunStaysExclusive(EMPTY, es);
  }

  // ---- a race that breaks it ----

  lemma TwoQueued(node: Node, deploy: Job, at: nat)
    requires deploy.node == node.id && deploy.kind == Deploy && deploy.status == Pending && at < 2
    ensures Window([deploy, deploy], node.id) == [0, 1]
    ensures var r := Reader([deploy, deploy], node, at, false); NextTry(r) == r
  {
    var rows := [deploy, deploy];
    assert PendingIds(rows, node.id, 0) == [];
    assert PendingIds(rows, node.id, 1) == [0];
    assert PendingIds(rows, node.id, 2) == [0, 1];
    assert CountedIds(rows, node.id, node.agentStartedAt) == {};
    assert BusyScopes(rows, node) == {};
  }

  lemma {:induction false} InterleaveMore(w: World, es: seq<Event>, e: Event)
    requires CanInterleave(w, es) && Allowed(Interleave(w, es), e)
    ensures CanInterleave(w, es + [e]) && Interleave(w, es + [e]) == After(Interleave(w, es), e)
    decreases |es|
  {
    if es == [] {
      assert [] + [e] == [e];
    } else {
      assert (es + [e])[1..] == es[1..] + [e];
      InterleaveMore(After(w, es[0]), es[1..], e);
    }
  }

  ghost predicate Reaches(es: seq<Event>, w: World) {
    CanInterleave(EMPTY, es) && Interleave(EMPTY, es) == w
  }

  lemma Then(es: seq<Event>, w: World, e: Event, v: World)
    requires Reaches(es, w) && Allowed(w, e) && After(w, e) == v
    ensures Reaches(es + [e], v)
  {
    InterleaveMore(EMPTY, es, e);
  }

  /** Two deploys of one app wait, and two requests read the queue. */
  ghost function BothRead(node: Node, deploy: Job): World {
    var r := Reader([deploy, deploy], node, 0, false);
    World(Queue([deploy, deploy], map[], 0), map[1 := r, 2 := r], [])
  }

  lemma UntilBothRead(node: Node, deploy: Job) returns (es: seq<Event>)
    requires deploy.status == Pending && deploy.startedAt.None? && node.agentStartedAt.None?
    ensures Reaches(es, BothRead(node, deploy))
  {
    var enqueue := Other(Enqueue(deploy));
    var r, w := Reader([deploy, deploy], node, 0, false), BothRead(node, deploy);
    assert [] + [deploy] == [deploy] && [deploy] + [deploy] == [deploy, deploy];
    Then([], EMPTY, enqueue, World(Queue([deploy], map[], 0), map[], []));
    Then([] + [enqueue], World(Queue([deploy], map[], 0), map[], []), enqueue, w.(readers := map[]));
    es := [] + [enqueue] + [enqueue];
    Then(es, w.(readers := map[]), Read(1, node), w.(readers := map[1 := r]));
    Then(es + [Read(1, node)], w.(readers := map[1 := r]), Read(2, node), w);
    es := es + [Read(1, node)] + [Read(2, node)];
  }

  ghost function FirstDone(node: Node, deploy: Job, at: nat): World {
    World(Queue([Started(deploy, 0), deploy], map[], 0), map[2 := Reader([deploy, deploy], node, at, false)], [0])
  }

  ghost function BothDone(deploy: Job): World {
    World(Queue([Started(deploy, 0), Started(deploy, 0)], map[], 0), map[], [0, 1])
  }

  lemma FirstUpdate(node: Node, deploy: Job)
    requires deploy.node == node.id && deploy.kind == Deploy && deploy.status == Pending
    ensures Allowed(BothRead(node, deploy), TryUpdate(1))
    ensures After(BothRead(node, deploy), TryUpdate(1)) == FirstDone(node, deploy, 0)
  {
    var w := BothRead(node, deploy);
    TriesAt(w, 1, node, deploy, 0);
    assert w.readers - {1} == FirstDone(node, deploy, 0).readers && [] + [0] == [0];
  }

  lemma SecondUpdate(node: Node, deploy: Job)
    requires deploy.node == node.id && deploy.kind == Deploy && deploy.status == Pending
    ensures Allowed(FirstDone(node, deploy, 0), TryUpdate(2))
    ensures After(FirstDone(node, deploy, 0), TryUpdate(2)) == FirstDone(node, deploy, 1)
  {
    TriesAt(FirstDone(node, deploy, 0), 2, node, deploy, 0);
  }

  lemma ThirdUpdate(node: Node, deploy: Job)
    requires deploy.node == node.id && deploy.kind == Deploy && deploy.status == Pending
    ensures Allowed(FirstDone(node, deploy, 1), TryUpdate(2))
    ensures After(FirstDone(node, deploy, 1), TryUpdate(2)) == BothDone(deploy)
  {
    TriesAt(FirstDone(node, deploy, 1), 2, node, deploy, 1);
    assert [0] + [1] == [0, 1];
  }

  lemma TriesAt(w: World, c: nat, node: Node, deploy: Job, at: nat)
    requires deploy.node == node.id && deploy.kind == Deploy && deploy.status == Pending && at < 2
    requires c in w.readers && w.readers[c] == Reader([deploy, deploy], node, at, false) && |w.queue.jobs| == 2
    ensures Allowed(w, TryUpdate(c))
    ensures After(w, TryUpdate(c)) == if w.queue.jobs[at].status == Pending
      then World(HandOut(w.queue, at), w.readers - {c}, w.handed + [at])
      else w.(readers := w.readers[c := w.readers[c].(at := at + 1)])
  {
    TwoQueued(node, deploy, at);
  }

  /** Such a run exists: of two requests that read the queue before either updates it, the second carries its stale
      list of running jobs past the row it lost, and starts the same app's next deploy. */
  lemma RaceBreaksScopeExclusion(node: Node, deploy: Job) returns (es: seq<Event>)
    requires deploy.node == node.id && deploy.kind == Deploy && deploy.status == Pending && deploy.startedAt.None?
    requires node.agentStartedAt.None?
    ensures CanInterleave(EMPTY, es) && !NothingOverlooked(EMPTY, es)
    ensures var q := Interleave(EMPTY, es).queue;
      Occupies(q, 0) && Occupies(q, 1) && q.jobs == [Started(deploy, 0), Started(deploy, 0)]
  {
    var before := UntilBothRead(node, deploy);
    var update, again := TryUpdate(1), TryUpdate(2);
    FirstUpdate(node, deploy);
    SecondUpdate(node, deploy);
    ThirdUpdate(node, deploy);
    Then(before, BothRead(node, deploy), update, FirstDone(node, deploy, 0));
    Then(before + [update], FirstDone(node, deploy, 0), again, FirstDone(node, deploy, 1));
    Then(before + [update] + [again], FirstDone(node, deploy, 1), again, BothDone(deploy));
    es := before + [update] + [again] + [again];
    assert Occupies(BothDone(deploy).queue, 0) && Occupies(BothDone(deploy).queue, 1);
    EndsExclusive(EMPTY, es);
    ExclusionHoldsExactlyWhen(es);
  }

  lemma {:induction false} EndsExclusive(w: World, es: seq<Event>)
    requires CanInterleave(w, es)
    ensures AlwaysExclusive(w, es) ==> Exclusive(Interleave(w, es).queue)
    decreases |es|
  {
    if es != [] { EndsExclusive(After(w, es[0]), es[1..]); }
  }
}
