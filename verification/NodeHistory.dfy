/** What a node's row and its outages say, told by what was heard from the node and when. */
module NodeHistory {
  import opened Jobs
  import opened Outages
  import opened OutageHistory
  import P = Protocol
  import QueueRuns

  // ---- the last word of each kind ----

  /** The value that the last of the events to set one has set; each event is seen with the time at which it happened. */
  ghost function Last<T>(now: int, es: seq<Event>, sets: (Event, int) -> Option<T>, before: T): T
    decreases |es|
  {
    if es == [] then before
    else
      var told := sets(es[0], now);
      Last(After(now, es[0]), es[1..], sets, if told.Some? then told.value else before)
  }

  function After(now: int, e: Event): int {
    if e.Wait? then now + e.seconds else now
  }

  function HeardFrom(n: NodeId): (Event, int) -> Option<int> {
    (e: Event, now: int) => if e == Event.Register(n) || (e.Heartbeat? && e.n == n) then Some(now) else None
  }

  function Registration(n: NodeId): (Event, int) -> Option<Option<int>> {
    (e: Event, now: int) => if e == Event.Register(n) then Some(Some(now)) else None
  }

  function Leaving(n: NodeId): (Event, int) -> Option<Option<int>> {
    (e: Event, now: int) =>
      if e == GoingAway(n) then Some(Some(now)) else if e == Event.Register(n) then Some(None) else None
  }

  function WifiTold(n: NodeId): (Event, int) -> Option<int> {
    (e: Event, _: int) => if e.Heartbeat? && e.n == n then Some(e.wifi) else None
  }

  function PingTold(n: NodeId): (Event, int) -> Option<real> {
    (e: Event, _: int) => if e.Heartbeat? && e.n == n then Some(e.ping) else None
  }

  function HubStart(): (Event, int) -> Option<int> {
    (e: Event, now: int) => if e.RestartHub? then Some(now) else None
  }

  function Told<T>(sets: (Event, int) -> Option<T>, e: Event, now: int, before: T): T {
    if sets(e, now).Some? then sets(e, now).value else before
  }

  ghost predicate RowTells(m: Machine, k: Machine, e: Event, now: int, n: NodeId) {
    k.lastHeartbeat == Told(HeardFrom(n), e, now, m.lastHeartbeat) &&
    k.agentStartedAt == Told(Registration(n), e, now, m.agentStartedAt) &&
    k.goingAwayAt == Told(Leaving(n), e, now, m.goingAwayAt) &&
    k.wifi == Told(WifiTold(n), e, now, m.wifi) && k.ping == Told(PingTold(n), e, now, m.ping)
  }

  lemma {:induction false} SweptOtherwiseSame(s: State, now: int, k: nat, n: NodeId)
    requires k <= |s.nodes| && 0 <= n < |s.nodes|
    ensures SweptUpTo(s, now, k).nodes[n] ==
      s.nodes[n].(online := s.nodes[n].online && !(n < k && now - s.nodes[n].lastHeartbeat > 90))
  {
    if k > 0 {
      SweptOtherwiseSame(s, now, k - 1, n);
      SweptOtherwiseSame(s, now, k - 1, k - 1);
    }
  }

  lemma StepTells(w: World, e: Event, n: NodeId)
    requires Enabled(w, e) && 0 <= n < |w.rows.nodes|
    ensures n < |Step(w, e).rows.nodes| && Step(w, e).now == After(w.now, e)
    ensures RowTells(w.rows.nodes[n], Step(w, e).rows.nodes[n], e, w.now, n)
    ensures Step(w, e).rows.started == Told(HubStart(), e, w.now, w.rows.started)
  {
    if e.Sweep? { SweptOtherwiseSame(SafetyNet(w.rows), w.now, |w.rows.nodes|, n); }
    if e.RestartHub? { RestartStarts(w.rows, |w.rows.nodes|, w.now); }
  }

  lemma {:induction false} RestartStarts(s: State, k: nat, now: int)
    requires k <= |s.nodes|
    ensures Restarted(s, k, now).started == now
  {
    if k > 0 { RestartStarts(s, k - 1, now); }
  }

  /** Over every run a node's row keeps the times at which the node was last heard from, at which its agent last
      registered and at which it last said that it was going away (until it registers again), and the signal and delay it
      last told; and the Hub knows when it last started. */
  lemma {:induction false} RowsTellTheLast(w: World, es: seq<Event>, n: NodeId)
    requires CanRun(w, es) && 0 <= n < |w.rows.nodes|
    ensures n < |Run(w, es).rows.nodes| && Run(w, es).rows.started == Last(w.now, es, HubStart(), w.rows.started)
    ensures var m, v := w.rows.nodes[n], Run(w, es).rows.nodes[n];
      v.lastHeartbeat == Last(w.now, es, HeardFrom(n), m.lastHeartbeat) &&
      v.agentStartedAt == Last(w.now, es, Registration(n), m.agentStartedAt) &&
      v.goingAwayAt == Last(w.now, es, Leaving(n), m.goingAwayAt) &&
      v.wifi == Last(w.now, es, WifiTold(n), m.wifi) && v.ping == Last(w.now, es, PingTold(n), m.ping)
    decreases |es|
  {
    if es != [] {
      StepTells(w, es[0], n);
      RowsTellTheLast(Step(w, es[0]), es[1..], n);
    }
  }

  /** A node is online when it has just been heard from, or was online before, unless a sweep finds, with the Hub up for
      at least two minutes, that it has not been heard from for more than 90 seconds. */
  lemma OnlineExactlyWhen(w: World, e: Event, n: NodeId)
    requires Enabled(w, e) && 0 <= n < |w.rows.nodes|
    ensures var m := w.rows.nodes[n];
      Step(w, e).rows.nodes[n].online <==>
        e == Event.Register(n) || (e.Heartbeat? && e.n == n) ||
        (m.online && (e == Sweep ==> w.now - w.rows.started < 120 || w.now - m.lastHeartbeat <= 90))
  {
    if e.Sweep? { SweptOtherwiseSame(SafetyNet(w.rows), w.now, |w.rows.nodes|, n); }
  }

  // ---- the outages that are opened ----

  /** The outage begins when the node was last heard from, knows what it last told of its link, and was planned if the
      node announced it within two minutes of that. */
  ghost predicate BeginsAsHeard(o: Outage, n: NodeId, m: Machine) {
    o.node == n && o.startedAt == m.lastHeartbeat && o.endedAt == None && o.wifi == m.wifi && o.ping == m.ping &&
    (o.planned <==>
      (m.goingAwayAt.Some? && m.goingAwayAt.value - m.lastHeartbeat < 120 && m.lastHeartbeat - m.goingAwayAt.value < 120))
  }

  ghost predicate Begun(rows: seq<Outage>, from: nat, n: NodeId, m: Machine) {
    exists i :: from <= i < |rows| && BeginsAsHeard(rows[i], n, m)
  }

  lemma OpeningBegins(rows: seq<Outage>, n: NodeId, m: Machine)
    ensures rows <= Opened(rows, n, m)
    ensures !HasOpen(rows, n) ==> BeginsAsHeard(Opened(rows, n, m)[|rows|], n, m)
    ensures forall k :: HasOpen(Opened(rows, n, m), k) ==> k == n || HasOpen(rows, k)
  {
    var t := Opened(rows, n, m);
    forall k | HasOpen(t, k) && k != n ensures HasOpen(rows, k) {
      var i :| 0 <= i < |t| && OpenFor(t[i], k);
      assert i < |rows| ==> OpenFor(rows[i], k);
    }
  }

  lemma {:induction false} SweepOpens(s: State, now: int, k: nat)
    requires k <= |s.nodes| && forall n :: 0 <= n < |s.nodes| && s.nodes[n].online ==> !HasOpen(s.outages, n)
    ensures var t := SweptUpTo(s, now, k);
      s.outages <= t.outages &&
      (forall n :: k <= n < |s.nodes| && s.nodes[n].online ==> !HasOpen(t.outages, n)) &&
      (forall n :: 0 <= n < k && s.nodes[n].online && now - s.nodes[n].lastHeartbeat > 90 ==>
        Begun(t.outages, |s.outages|, n, s.nodes[n]))
  {
    if k > 0 {
      SweepOpens(s, now, k - 1);
      var t := SweptUpTo(s, now, k - 1);
      OpeningBegins(t.outages, k - 1, s.nodes[k - 1].(online := false));
      SweptMore(s, now, k);
    }
  }

  lemma SweptMore(s: State, now: int, k: nat)
    requires 0 < k <= |s.nodes| && s.outages <= SweptUpTo(s, now, k - 1).outages
    requires !HasOpen(SweptUpTo(s, now, k - 1).outages, k - 1) || !s.nodes[k - 1].online
    ensures var t, u := SweptUpTo(s, now, k - 1), SweptUpTo(s, now, k);
      t.outages <= u.outages &&
      (forall n, m :: Begun(t.outages, |s.outages|, n, m) ==> Begun(u.outages, |s.outages|, n, m)) &&
      (s.nodes[k - 1].online && now - s.nodes[k - 1].lastHeartbeat > 90 ==>
        Begun(u.outages, |s.outages|, k - 1, s.nodes[k - 1]))
  {
    var t, u := SweptUpTo(s, now, k - 1), SweptUpTo(s, now, k);
    OpeningBegins(t.outages, k - 1, s.nodes[k - 1].(online := false));
    forall n, m | Begun(t.outages, |s.outages|, n, m) ensures Begun(u.outages, |s.outages|, n, m) {
      var i :| |s.outages| <= i < |t.outages| && BeginsAsHeard(t.outages[i], n, m);
      assert u.outages[i] == t.outages[i];
    }
  }

  /** In every reachable state a sweep leaves the recorded outages as they are and adds one for each node it takes
      offline, with what was last heard from the node. */
  lemma SweptRows(w: World, n: NodeId)
    requires Inv(w) && 0 <= n < |w.rows.nodes|
    requires w.now - w.rows.started >= 120 && w.rows.nodes[n].online && w.now - w.rows.nodes[n].lastHeartbeat > 90
    ensures var rows, t := w.rows.outages, Step(w, Sweep).rows.outages;
      rows <= t && Begun(t, |rows|, n, w.rows.nodes[n])
  {
    NetFindsNothing(w.rows, w.now, |w.rows.outages|);
    assert SafetyNet(w.rows) == w.rows;
    forall k | 0 <= k < |w.rows.nodes| && w.rows.nodes[k].online ensures !HasOpen(w.rows.outages, k) {
      OpenMeansOffline(w.rows, w.now, k);
    }
    SweepOpens(w.rows, w.now, |w.rows.nodes|);
  }

  /** A restart of the Hub adds one for each node that it finds offline with none open. */
  lemma {:induction false} RestartOpens(s: State, k: nat, now: int, n: NodeId)
    requires k <= |s.nodes| && 0 <= n < |s.nodes| && !s.nodes[n].online
    requires s.nodes[n].lastHeartbeat != 0 && !HasOpen(s.outages, n)
    ensures var t := Restarted(s, k, now).outages;
      s.outages <= t && if n < k then Begun(t, |s.outages|, n, s.nodes[n]) else !HasOpen(t, n)
  {
    if k > 0 {
      RestartOpens(s, k - 1, now, n);
      var t, u := Restarted(s, k - 1, now).outages, Restarted(s, k, now).outages;
      OpeningBegins(t, k - 1, s.nodes[k - 1]);
      if n < k - 1 {
        var i :| |s.outages| <= i < |t| && BeginsAsHeard(t[i], n, s.nodes[n]);
        assert u[i] == t[i];
      }
    }
  }

  // ---- the outages that end ----

  /** What is concluded from an outage's length and the uptime (none when negative) with which the node returned. */
  ghost predicate CauseIs(o: Outage, uptime: int) {
    (o.cause == Untold <==> uptime < 0) &&
    (o.cause == Reboot <==> 0 <= uptime < o.seconds - 30) &&
    (o.cause == WeakLink <==> uptime >= 0 && uptime >= o.seconds - 30 && ((o.wifi > 0 && o.wifi < 50) || o.ping > 100.0))
  }

  ghost predicate EndsAt(o: Outage, r: Outage, end: int, uptime: int) {
    r.node == o.node && r.startedAt == o.startedAt && r.wifi == o.wifi && r.ping == o.ping && r.planned == o.planned &&
    r.endedAt == Some(end) && r.seconds as int == (if end >= o.startedAt then end - o.startedAt else 0) &&
    CauseIs(r, uptime)
  }

  /** When a node is heard from, its open outage ends with the time it took and what is concluded from the uptime the
      node tells (a registration tells none); no other row changes and none is added. */
  lemma ReturnEnds(w: World, e: Event, i: nat)
    requires Inv(w) && Enabled(w, e) && (e.Register? || e.Heartbeat?) && i < |w.rows.outages|
    ensures var n, o, t := e.n, w.rows.outages[i], Step(w, e).rows.outages;
      |t| == |w.rows.outages| &&
      if o.node == n && o.endedAt == None then EndsAt(o, t[i], w.now, if e.Register? then -1 else e.uptime) else t[i] == o
  {
    assert RowWell(w.rows, w.rows.outages[i]);
  }

  /** Whatever the rows are, the safety net ends every outage open for an online node when the node was last heard from,
      or when the first of them began if that is later. */
  lemma {:induction false} NetEnds(s: State, k: nat, i: nat, j: nat)
    requires i < |s.outages| && j < |s.outages| && k <= |s.outages|
    requires s.outages[i].endedAt == None && s.outages[j].endedAt == None && s.outages[i].node == s.outages[j].node
    requires 0 <= s.outages[i].node < |s.nodes| && s.nodes[s.outages[i].node].online
    requires forall a :: 0 <= a < i ==> !(s.outages[a].node == s.outages[i].node && s.outages[a].endedAt == None)
    ensures var n, r := s.outages[i].node, NettedUpTo(s, k)[j];
      if i < k then
        EndsAt(s.outages[j], r, if s.nodes[n].lastHeartbeat >= s.outages[i].startedAt then s.nodes[n].lastHeartbeat
                                else s.outages[i].startedAt, -1)
      else r == s.outages[j]
  {
    if k > 0 { NetEnds(s, k - 1, i, j); }
  }

  lemma {:induction false} SweepAppends(s: State, now: int, k: nat)
    requires k <= |s.nodes|
    ensures s.outages <= SweptUpTo(s, now, k).outages
  {
    if k > 0 {
      SweepAppends(s, now, k - 1);
      OpeningBegins(SweptUpTo(s, now, k - 1).outages, k - 1, s.nodes[k - 1].(online := false));
    }
  }

  /** Whatever the rows are and however long the Hub has been up, a sweep ends what is open for nodes that are online. */
  lemma SweepEnds(s: State, now: int, i: nat)
    requires i < |s.outages| && 0 <= s.outages[i].node < |s.nodes| && s.nodes[s.outages[i].node].online
    ensures i < |Swept(s, now).outages| && Swept(s, now).outages[i].endedAt.Some?
  {
    NetCloses(s, |s.outages|, i);
    NetOnlyCloses(s, |s.outages|, i);
    SweepAppends(SafetyNet(s), now, |s.nodes|);
  }

  // ---- the agent that a claim counts jobs for ----

  /** The times at which n's agent registered. */
  ghost function Registrations(now: int, es: seq<Event>, n: NodeId): seq<int>
    decreases |es|
  {
    if es == [] then []
    else (if es[0] == Event.Register(n) then [now] else []) + Registrations(After(now, es[0]), es[1..], n)
  }

  ghost function HubRegistrations(now: int, es: seq<P.Event>, n: NodeId): seq<int>
    decreases |es|
  {
    if es == [] then []
    else
      (if es[0] == P.Register(n) then [now] else []) +
      HubRegistrations(if es[0].Wait? then now + es[0].seconds else now, es[1..], n)
  }

  function LastOf(times: seq<int>, before: Option<int>): Option<int> {
    if times == [] then before else Some(times[|times| - 1])
  }

  lemma {:induction false} StartedIsLast(w: World, es: seq<Event>, n: NodeId)
    requires CanRun(w, es) && 0 <= n < |w.rows.nodes|
    ensures n < |Run(w, es).rows.nodes|
    ensures Run(w, es).rows.nodes[n].agentStartedAt == LastOf(Registrations(w.now, es, n), w.rows.nodes[n].agentStartedAt)
    decreases |es|
  {
    if es != [] {
      StepTells(w, es[0], n);
      StartedIsLast(Step(w, es[0]), es[1..], n);
    }
  }

  lemma EpochStep(w: P.World, e: P.Event, n: NodeId)
    requires P.Enabled(w, e)
    ensures P.Step(w, e).now == if e.Wait? then w.now + e.seconds else w.now
    ensures QueueRuns.Epoch(P.Queue(P.Step(w, e)), n) ==
      if e == P.Register(n) then Some(w.now) else QueueRuns.Epoch(P.Queue(w), n)
  {
  }

  lemma {:induction false} EpochIsLast(w: P.World, es: seq<P.Event>, n: NodeId)
    requires P.CanRun(w, es)
    ensures QueueRuns.Epoch(P.Queue(P.Run(w, es)), n) ==
      LastOf(HubRegistrations(w.now, es, n), QueueRuns.Epoch(P.Queue(w), n))
    decreases |es|
  {
    if es != [] {
      EpochStep(w, es[0], n);
      EpochIsLast(P.Step(w, es[0]), es[1..], n);
    }
  }

  /** The start of the agent that a node's row keeps is the one the scheduler counts jobs from, after any two runs, of
      the nodes' rows and of the deploy protocol, in which the agent registered at the same times. */
  lemma EpochsAgree(w: World, es: seq<Event>, v: P.World, fs: seq<P.Event>, n: NodeId)
    requires CanRun(w, es) && P.CanRun(v, fs) && 0 <= n < |w.rows.nodes|
    requires w.rows.nodes[n].agentStartedAt == QueueRuns.Epoch(P.Queue(v), n)
    requires Registrations(w.now, es, n) == HubRegistrations(v.now, fs, n)
    ensures n < |Run(w, es).rows.nodes|
    ensures Run(w, es).rows.nodes[n].agentStartedAt == QueueRuns.Epoch(P.Queue(P.Run(v, fs)), n)
  {
    StartedIsLast(w, es, n);
    EpochIsLast(v, fs, n);
  }
}
