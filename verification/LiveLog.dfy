/** A running job's output as the Hub keeps it: the recent part, how much there has been, and the browsers it is
    passed on to. */
module LiveLog {
  import opened Jobs

  newtype byte = b: int | 0 <= b < 256

  type Bytes = seq<byte>

  const MAX_LIVE_LOG := 0x10_0000
  const QUEUE_SIZE := 256

  datatype LiveEvent = Chunk(data: Bytes) | Finished(status: Status)

  /** A browser: what it was given when it subscribed (at byte `start` of the output), what it has read since, what
      still waits in its queue, and whether an event ever found that queue full. */
  datatype Subscriber = Subscriber(snapshot: Bytes, start: nat, read: seq<LiveEvent>, queue: seq<LiveEvent>, missed: bool)

  /** max is how many bytes of the output are kept. */
  datatype Log = Log(max: nat, buf: Bytes, total: nat, done: bool, status: Status, subs: map<nat, Subscriber>)

  const EMPTY := Log(MAX_LIVE_LOG, [], 0, false, Pending, map[])

  // ---- what each operation does to one job's log ----

  function LastBytes(s: Bytes, max: nat): (t: Bytes)
    ensures |t| == Min(|s|, max)
  {
    if |s| > max then s[|s| - max..] else s
  }

  function Sent(sub: Subscriber, ev: LiveEvent): Subscriber {
    if |sub.queue| < QUEUE_SIZE then sub.(queue := sub.queue + [ev]) else sub.(missed := true)
  }

  function SentAll(subs: map<nat, Subscriber>, ev: LiveEvent): map<nat, Subscriber> {
    map id | id in subs :: Sent(subs[id], ev)
  }

  function Appended(l: Log, offset: nat, chunk: Bytes): Log {
    if l.done || (offset < l.total && l.total - offset >= |chunk|) then l
    else
      var news := if offset < l.total then chunk[l.total - offset..] else chunk;
      WithNews(l, news)
  }

  function WithNews(l: Log, news: Bytes): Log {
    l.(total := l.total + |news|, buf := LastBytes(l.buf + news, l.max), subs := SentAll(l.subs, Chunk(news)))
  }

  function Ended(l: Log, status: Status): Log {
    l.(done := true, status := status, subs := SentAll(l.subs, Finished(status)))
  }

  function Subscribed(l: Log, id: nat): Log {
    if l.done then l else l.(subs := l.subs[id := Subscriber(l.buf, l.total, [], [], false)])
  }

  function Unsubscribed(l: Log, id: nat): Log {
    l.(subs := l.subs - {id})
  }

  function Received(l: Log, id: nat): Log
    requires id in l.subs && l.subs[id].queue != []
  {
    var sub := l.subs[id];
    l.(subs := l.subs[id := sub.(read := sub.read + [sub.queue[0]], queue := sub.queue[1..])])
  }

  function LogOf(jobs: map<JobId, Log>, id: JobId): Log {
    if id in jobs then jobs[id] else EMPTY
  }

  // ---- the hub ----

  class JobLogHub {
    var jobs: map<JobId, Log>

    constructor ()
      ensures jobs == map[]
    {
      jobs := map[];
    }

    /** Passes an event on to every browser, skipping those whose queue is full. */
    method Broadcast(subs: map<nat, Subscriber>, ev: LiveEvent) returns (sent: map<nat, Subscriber>)
      ensures sent == SentAll(subs, ev)
    {
      sent := map[];
      var left := subs.Keys;
      while left != {}
        invariant left <= subs.Keys && sent.Keys == subs.Keys - left
        invariant forall id :: id in sent ==> sent[id] == Sent(subs[id], ev)
        decreases left
      {
        var id := AnyOf(left);
        left := left - {id};
        sent := sent[id := if |subs[id].queue| < QUEUE_SIZE then subs[id].(queue := subs[id].queue + [ev])
                           else subs[id].(missed := true)];
      }
    }

    /** A slice of the output arrives; what the log has of it already is dropped. */
    method Append(id: JobId, offset: nat, chunk: Bytes)
      modifies this
      ensures jobs == old(jobs)[id := Appended(LogOf(old(jobs), id), offset, chunk)]
    {
      var l := LogOf(jobs, id);
      jobs := jobs[id := l];
      if l.done {
        return;
      }
      var news := chunk;
      if offset < l.total {
        var skip := l.total - offset;
        if skip >= |chunk| {
          return;
        }
        news := chunk[skip..];
      }
      var buf := l.buf + news;
      if |buf| > l.max {
        buf := buf[|buf| - l.max..];
      }
      var subs := Broadcast(l.subs, Chunk(news));
      jobs := jobs[id := l.(total := l.total + |news|, buf := buf, subs := subs)];
    }

    method Total(id: JobId) returns (total: nat)
      ensures total == LogOf(jobs, id).total
    {
      total := if id in jobs then jobs[id].total else 0;
    }

    /** Tells the browsers the job ended. */
    method Finish(id: JobId, status: Status)
      modifies this
      ensures jobs == if id in old(jobs) then old(jobs)[id := Ended(old(jobs)[id], status)] else old(jobs)
    {
      if id !in jobs {
        return;
      }
      var subs := Broadcast(jobs[id].subs, Finished(status));
      jobs := jobs[id := jobs[id].(done := true, status := status, subs := subs)];
    }

    /** A while after a job ended its output is dropped. */
    method Forget(id: JobId)
      modifies this
      ensures jobs == old(jobs) - {id} && LogOf(jobs, id) == EMPTY
    {
      jobs := jobs - {id};
    }

    /** A browser starts from the buffer and, while the job runs, gets a queue under the given number. */
    method Subscribe(id: JobId, sub: nat) returns (snapshot: Bytes, ended: Option<Status>)
      modifies this
      ensures jobs == old(jobs)[id := Subscribed(LogOf(old(jobs), id), sub)]
      ensures snapshot == LogOf(old(jobs), id).buf
      ensures ended == if LogOf(old(jobs), id).done then Some(LogOf(old(jobs), id).status) else None
    {
      var l := LogOf(jobs, id);
      snapshot, ended := l.buf, None;
      if l.done {
        ended := Some(l.status);
      } else {
        l := l.(subs := l.subs[sub := Subscriber(l.buf, l.total, [], [], false)]);
      }
      jobs := jobs[id := l];
    }
  }

  // ---- exactly once ----

  /** The output bytes among some events. */
  function Data(events: seq<LiveEvent>): Bytes {
    if events == [] then [] else Data(events[..|events| - 1]) + DataOf(events[|events| - 1])
  }

  function DataOf(ev: LiveEvent): Bytes {
    match ev case Chunk(d) => d case Finished(_) => []
  }

  /** What a browser has been given of the output, read or not: one contiguous slice that ends where the Hub is. */
  ghost predicate Follows(sub: Subscriber, out: Bytes, total: nat)
    requires total <= |out|
  {
    |sub.snapshot| <= sub.start <= total && |sub.queue| <= QUEUE_SIZE &&
    (!sub.missed ==> sub.snapshot + Data(sub.read + sub.queue) == out[sub.start - |sub.snapshot|..total])
  }

  /** l is what the Hub should hold once it has the first l.total bytes of the job's true output. */
  ghost predicate Faithful(l: Log, out: Bytes) {
    l.total <= |out| && l.buf == LastBytes(out[..l.total], l.max) && AllFollow(l.subs, out, l.total)
  }

  ghost predicate AllFollow(subs: map<nat, Subscriber>, out: Bytes, total: nat)
    requires total <= |out|
  {
    forall id :: id in subs ==> Follows(subs[id], out, total)
  }

  /** A request to append: a slice of the job's output. */
  predicate IsSlice(out: Bytes, offset: nat, chunk: Bytes) {
    offset + |chunk| <= |out| && chunk == out[offset..offset + |chunk|]
  }

  lemma LastBytesOfMore(out: Bytes, buf: Bytes, news: Bytes, total: nat, next: nat, max: nat)
    requires total <= next <= |out| && buf == LastBytes(out[..total], max) && news == out[total..next]
    ensures LastBytes(buf + news, max) == LastBytes(out[..next], max)
  {
    assert out[..next] == out[..total] + news;
    assert buf + news == out[..next][total - |buf|..];
  }

  lemma DataOfMore(events: seq<LiveEvent>, ev: LiveEvent)
    ensures Data(events + [ev]) == Data(events) + DataOf(ev)
  {
    assert (events + [ev])[..|events|] == events;
  }

  /** The event carries the output from byte total up to byte next. */
  ghost predicate Carries(ev: LiveEvent, out: Bytes, total: nat, next: nat) {
    total <= next <= |out| && DataOf(ev) == out[total..next]
  }

  lemma SendingFollows(sub: Subscriber, ev: LiveEvent, out: Bytes, total: nat, next: nat)
    requires Carries(ev, out, total, next) && Follows(sub, out, total)
    ensures Follows(Sent(sub, ev), out, next)
  {
    if !sub.missed && |sub.queue| < QUEUE_SIZE {
      DataOfMore(sub.read + sub.queue, ev);
      assert sub.read + (sub.queue + [ev]) == sub.read + sub.queue + [ev];
      SliceGrows(sub.snapshot, Data(sub.read + sub.queue), DataOf(ev), out, sub.start - |sub.snapshot|, total, next);
    }
  }

  lemma SliceGrows(snapshot: Bytes, data: Bytes, news: Bytes, out: Bytes, from: nat, total: nat, next: nat)
    requires from <= total <= next <= |out| && snapshot + data == out[from..total] && news == out[total..next]
    ensures snapshot + (data + news) == out[from..next]
  {
    assert snapshot + (data + news) == (snapshot + data) + news;
    assert out[from..next] == out[from..total] + news;
  }

  lemma SendingToAllFollows(subs: map<nat, Subscriber>, ev: LiveEvent, out: Bytes, total: nat, next: nat)
    requires Carries(ev, out, total, next) && AllFollow(subs, out, total)
    ensures AllFollow(SentAll(subs, ev), out, next)
  {
    forall id | id in subs ensures Follows(Sent(subs[id], ev), out, next) {
      SendingFollows(subs[id], ev, out, total, next);
    }
  }

  /** A slice that starts no later than what the Hub has, new, repeated or overlapping, keeps it faithful. */
  lemma AppendStaysFaithful(l: Log, out: Bytes, offset: nat, chunk: Bytes)
    requires Faithful(l, out) && IsSlice(out, offset, chunk) && offset <= l.total
    ensures Faithful(Appended(l, offset, chunk), out)
    ensures Appended(l, offset, chunk).total == if l.done then l.total else Max(l.total, offset + |chunk|)
  {
    if !l.done && (offset == l.total || offset + |chunk| > l.total) {
      var news := chunk[l.total - offset..];
      assert news == out[l.total..l.total + |news|];
      NewsStaysFaithful(l, out, news, l.total + |news|);
      assert offset == l.total ==> chunk[0..] == chunk;
      assert Appended(l, offset, chunk) ==
        WithNews(l, news);
    }
  }

  lemma NewsStaysFaithful(l: Log, out: Bytes, news: Bytes, next: nat)
    requires Faithful(l, out) && Carries(Chunk(news), out, l.total, next)
    ensures Faithful(WithNews(l, news), out) && WithNews(l, news).total == next
  {
    LastBytesOfMore(out, l.buf, news, l.total, next, l.max);
    SendingToAllFollows(l.subs, Chunk(news), out, l.total, next);
  }

  datatype Step =
    | Append(offset: nat, chunk: Bytes)
    | Subscribe(id: nat)
    | Unsubscribe(id: nat)
    | Receive(id: nat)
    | Finish(status: Status)
    | Forget

  ghost predicate Allowed(l: Log, out: Bytes, e: Step) {
    match e
    case Append(offset, chunk) => IsSlice(out, offset, chunk) && offset <= l.total
    case Receive(id) => id in l.subs && l.subs[id].queue != []
    case Forget => l.done
    case _ => true
  }

  ghost function After(l: Log, out: Bytes, e: Step): Log
    requires Allowed(l, out, e)
  {
    match e
    case Append(offset, chunk) => Appended(l, offset, chunk)
    case Subscribe(id) => Subscribed(l, id)
    case Unsubscribe(id) => Unsubscribed(l, id)
    case Receive(id) => Received(l, id)
    case Finish(status) => Ended(l, status)
    case Forget => EMPTY
  }

  ghost predicate CanRun(l: Log, out: Bytes, es: seq<Step>)
    decreases |es|
  {
    es == [] || (Allowed(l, out, es[0]) && CanRun(After(l, out, es[0]), out, es[1..]))
  }

  ghost function Run(l: Log, out: Bytes, es: seq<Step>): Log
    requires CanRun(l, out, es)
    decreases |es|
  {
    if es == [] then l else Run(After(l, out, es[0]), out, es[1..])
  }

  lemma EndStaysFaithful(l: Log, out: Bytes, status: Status)
    requires Faithful(l, out)
    ensures Faithful(Ended(l, status), out)
  {
    SendingToAllFollows(l.subs, Finished(status), out, l.total, l.total);
  }

  lemma ReadStaysFaithful(l: Log, out: Bytes, id: nat)
    requires Faithful(l, out) && id in l.subs && l.subs[id].queue != []
    ensures Faithful(Received(l, id), out)
  {
    var sub := l.subs[id];
    assert sub.read + [sub.queue[0]] + sub.queue[1..] == sub.read + sub.queue;
    assert Follows(sub, out, l.total);
  }

  lemma NewcomerFollows(out: Bytes, total: nat, max: nat)
    requires total <= |out|
    ensures Follows(Subscriber(LastBytes(out[..total], max), total, [], [], false), out, total)
  {
    var whole, t := out[..total], LastBytes(out[..total], max);
    assert t + Data([]) == whole[total - |t|..];
    assert whole[total - |t|..] == out[total - |t|..total];
  }

  lemma StepStaysFaithful(l: Log, out: Bytes, e: Step)
    requires Faithful(l, out) && Allowed(l, out, e)
    ensures Faithful(After(l, out, e), out)
  {
    match e
    case Append(offset, chunk) => AppendStaysFaithful(l, out, offset, chunk);
    case Finish(status) => EndStaysFaithful(l, out, status);
    case Receive(id) => ReadStaysFaithful(l, out, id);
    case Subscribe(id) => NewcomerFollows(out, l.total, l.max);
    case Unsubscribe(_) =>
    case Forget => NewLogIsFaithful(out);
  }

  /** Exactly once: after any run of appends (retries and overlaps included), subscriptions and reads, the Hub holds
      the last bytes of the prefix it was sent, and each browser whose queue never filled has been given one contiguous
      slice of the output up to there, with no byte lost or repeated. */
  lemma {:induction false} StaysFaithful(l: Log, out: Bytes, es: seq<Step>)
    requires Faithful(l, out) && CanRun(l, out, es)
    ensures Faithful(Run(l, out, es), out)
    decreases |es|
  {
    if es != [] {
      StepStaysFaithful(l, out, es[0]);
      StaysFaithful(After(l, out, es[0]), out, es[1..]);
    }
  }

  /** So it is for every job from its first byte on. */
  lemma FaithfulFromTheStart(out: Bytes, es: seq<Step>)
    requires CanRun(EMPTY, out, es)
    ensures Faithful(Run(EMPTY, out, es), out) && Run(EMPTY, out, es).max == 1024 * 1024
  {
    NewLogIsFaithful(out);
    StaysFaithful(EMPTY, out, es);
    MaxStays(EMPTY, out, es);
  }

  lemma {:induction false} MaxStays(l: Log, out: Bytes, es: seq<Step>)
    requires l.max == MAX_LIVE_LOG && CanRun(l, out, es)
    ensures Run(l, out, es).max == MAX_LIVE_LOG
    decreases |es|
  {
    if es != [] { MaxStays(After(l, out, es[0]), out, es[1..]); }
  }

  lemma NewLogIsFaithful(out: Bytes)
    ensures Faithful(EMPTY, out)
  {
  }

  // ---- subscribing and ending ----

  /** A browser that comes while the job runs is given all that is kept and follows from there; one that comes later is
      not followed up, and nobody else notices. */
  lemma NewcomerGetsWhatIsKept(l: Log, id: nat)
    ensures var t := Subscribed(l, id);
      t.total == l.total && t.buf == l.buf && t.done == l.done &&
      (l.done ==> t == l) &&
      (!l.done ==> id in t.subs && t.subs[id].snapshot == l.buf && t.subs[id].start == l.total &&
                   t.subs[id].read + t.subs[id].queue == [] && !t.subs[id].missed) &&
      forall other :: other != id ==>
        ((other in t.subs <==> other in l.subs) && (other in l.subs ==> t.subs[other] == l.subs[other]))
  {
  }

  /** New output reaches every browser, as long as fewer than 256 events wait for it; a browser further behind misses it
      and is known to have missed something. */
  lemma NewOutputReachesAll(l: Log, offset: nat, chunk: Bytes, id: nat)
    requires !l.done && id in l.subs && offset <= l.total < offset + |chunk|
    ensures var sub, t := l.subs[id], Appended(l, offset, chunk);
      t.total == offset + |chunk| && id in t.subs &&
      t.subs[id] == if |sub.queue| < 256 then sub.(queue := sub.queue + [Chunk(chunk[l.total - offset..])])
                    else sub.(missed := true)
  {
  }

  /** What a run of steps has made of the job: whether it is over and how it ended, and who is following it. */
  datatype Course = Course(done: bool, status: Status, watching: set<nat>)

  function CourseNext(c: Course, e: Step): Course {
    match e
    case Append(_, _) => c
    case Receive(_) => c
    case Subscribe(id) => if c.done then c else c.(watching := c.watching + {id})
    case Unsubscribe(id) => c.(watching := c.watching - {id})
    case Finish(status) => Course(true, status, c.watching)
    case Forget => Course(false, Pending, {})
  }

  function CourseOf(c: Course, es: seq<Step>): Course
    decreases |es|
  {
    if es == [] then c else CourseOf(CourseNext(c, es[0]), es[1..])
  }

  /** Every browser that missed nothing has been told, last of all, how the job ended. */
  ghost predicate EndIsTold(l: Log) {
    l.done ==> forall id :: id in l.subs && !l.subs[id].missed ==>
      EndsWithEnd(l.subs[id].read + l.subs[id].queue, l.status)
  }

  ghost predicate EndsWithEnd(events: seq<LiveEvent>, status: Status) {
    events != [] && events[|events| - 1] == Finished(status)
  }

  ghost predicate OnCourse(l: Log, c: Course) {
    l.done == c.done && l.status == c.status && l.subs.Keys == c.watching && EndIsTold(l)
  }

  lemma StepStaysOnCourse(l: Log, out: Bytes, e: Step, c: Course)
    requires OnCourse(l, c) && Allowed(l, out, e)
    ensures OnCourse(After(l, out, e), CourseNext(c, e))
  {
    match e
    case Receive(id) => {
      var sub := l.subs[id];
      assert sub.read + [sub.queue[0]] + sub.queue[1..] == sub.read + sub.queue;
    }
    case Finish(status) => {
      forall id | id in l.subs && |l.subs[id].queue| < QUEUE_SIZE
        ensures EndsWithEnd(l.subs[id].read + (l.subs[id].queue + [Finished(status)]), status) {}
    }
    case _ =>
  }

  lemma {:induction false} StaysOnCourse(l: Log, out: Bytes, es: seq<Step>, c: Course)
    requires OnCourse(l, c) && CanRun(l, out, es)
    ensures OnCourse(Run(l, out, es), CourseOf(c, es))
    decreases |es|
  {
    if es != [] {
      StepStaysOnCourse(l, out, es[0], c);
      StaysOnCourse(After(l, out, es[0]), out, es[1..], CourseNext(c, es[0]));
    }
  }

  /** A job is over exactly when it was finished and not forgotten since; exactly those who subscribed while it ran, and
      did not leave, are followed up; and each of them that missed nothing hears how it ended. */
  lemma EndReachesWatchers(out: Bytes, es: seq<Step>)
    requires CanRun(EMPTY, out, es)
    ensures var l, c := Run(EMPTY, out, es), CourseOf(Course(false, Pending, {}), es);
      l.done == c.done && l.status == c.status && l.subs.Keys == c.watching && EndIsTold(l)
  {
    StaysOnCourse(EMPTY, out, es, Course(false, Pending, {}));
  }

  // ---- the condition on offsets ----

  /** Whatever the output turns out to be, and whoever is watching, a Hub that has exactly `received` stays faithful
      when it takes the chunk. */
  ghost predicate AlwaysFaithful(received: Bytes, offset: nat, chunk: Bytes) {
    forall l, out :: IsAt(l, out, received) && IsSlice(out, offset, chunk) ==> Faithful(Appended(l, offset, chunk), out)
  }

  ghost predicate IsAt(l: Log, out: Bytes, received: Bytes) {
    l.max == MAX_LIVE_LOG && Faithful(l, out) && !l.done && received <= out && l.total == |received|
  }

  /** An output that begins with what was received, has chunk at offset, and another byte in between. */
  function WithGap(received: Bytes, offset: nat, chunk: Bytes): (out: Bytes)
    requires |received| < offset && chunk != []
    ensures |out| == offset + |chunk| && received <= out && out[offset..] == chunk
    ensures out[|received|] != chunk[0]
  {
    received + seq(offset - |received|, _ => if chunk[0] == 0 then 1 else 0) + chunk
  }

  /** An append past what the Hub has is taken as if it were contiguous, so the log can be trusted exactly when chunks
      start no later than the output received so far. */
  lemma OffsetMustLeaveNoGap(received: Bytes, offset: nat, chunk: Bytes)
    requires chunk != []
    ensures AlwaysFaithful(received, offset, chunk) <==> offset <= |received|
  {
    if offset <= |received| {
      forall l, out | IsAt(l, out, received) && IsSlice(out, offset, chunk)
        ensures Faithful(Appended(l, offset, chunk), out)
      {
        AppendStaysFaithful(l, out, offset, chunk);
      }
    } else {
      var l, out := GapBreaks(received, offset, chunk);
    }
  }

  /** A Hub with exactly `received`, and one browser that has just subscribed. */
  function Watched(received: Bytes): Log {
    var kept := LastBytes(received, MAX_LIVE_LOG);
    Log(MAX_LIVE_LOG, kept, |received|, false, Pending, map[0 := Subscriber(kept, |received|, [], [], false)])
  }

  lemma WatchedIsAt(received: Bytes, out: Bytes)
    requires received <= out
    ensures IsAt(Watched(received), out, received)
  {
    assert out[..|received|] == received;
    NewcomerFollows(out, |received|, MAX_LIVE_LOG);
  }

  lemma AppendedPastEnd(l: Log, offset: nat, chunk: Bytes, id: nat)
    requires !l.done && offset > l.total && id in l.subs
    ensures var t := Appended(l, offset, chunk);
      t.total == l.total + |chunk| && id in t.subs && t.subs[id] == Sent(l.subs[id], Chunk(chunk))
  {
  }

  lemma NotFaithful(l: Log, out: Bytes, id: nat)
    requires l.total <= |out| && id in l.subs && !Follows(l.subs[id], out, l.total)
    ensures !Faithful(l, out)
  {
  }

  lemma GapBreaks(received: Bytes, offset: nat, chunk: Bytes) returns (l: Log, out: Bytes)
    requires chunk != [] && offset > |received|
    ensures IsAt(l, out, received) && IsSlice(out, offset, chunk) && !Faithful(Appended(l, offset, chunk), out)
  {
    l, out := Watched(received), WithGap(received, offset, chunk);
    WatchedIsAt(received, out);
    GapMisleads(l, offset, chunk, out);
  }

  lemma GapMisleads(l: Log, offset: nat, chunk: Bytes, out: Bytes)
    requires chunk != [] && !l.done && l.total < offset && offset + |chunk| <= |out| && out[l.total] != chunk[0]
    requires 0 in l.subs && |l.subs[0].snapshot| <= l.total
    requires l.subs[0] == Subscriber(l.subs[0].snapshot, l.total, [], [], false)
    ensures !Faithful(Appended(l, offset, chunk), out)
  {
    AppendedPastEnd(l, offset, chunk, 0);
    ChunkMisplaced(l.subs[0], l.total, chunk, out);
    NotFaithful(Appended(l, offset, chunk), out, 0);
  }

  lemma Misplaced(t: Bytes, chunk: Bytes, out: Bytes, n: nat)
    requires |t| <= n && n + |chunk| <= |out| && chunk != [] && out[n] != chunk[0]
    ensures t + chunk != out[n - |t|..n + |chunk|]
  {
    assert (t + chunk)[|t|] == chunk[0] && out[n - |t|..n + |chunk|][|t|] == out[n];
  }

  lemma ChunkMisplaced(sub: Subscriber, total: nat, chunk: Bytes, out: Bytes)
    requires chunk != [] && total + |chunk| <= |out| && out[total] != chunk[0] && |sub.snapshot| <= total
    requires sub == Subscriber(sub.snapshot, total, [], [], false)
    ensures !Follows(Sent(sub, Chunk(chunk)), out, total + |chunk|)
  {
    assert Sent(sub, Chunk(chunk)) == Subscriber(sub.snapshot, total, [], [] + [Chunk(chunk)], false);
    assert [] + ([] + [Chunk(chunk)]) == [] + [Chunk(chunk)];
    DataOfMore([], Chunk(chunk));
    assert Data([] + [Chunk(chunk)]) == chunk;
    Misplaced(sub.snapshot, chunk, out, total);
  }
}
