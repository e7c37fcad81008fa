/** Whole runs of registrations, heartbeats, sweeps and Hub restarts: every node's outages form a history. */
module OutageHistory {
  import opened Jobs
  import opened Outages
  import U = Uptime

  /** untracked: the nodes that were offline when outages began to be recorded, and have not been back since. */
  datatype World = World(rows: State, now: int, untracked: set<NodeId>)

  datatype Event =
    | Enroll(machine: Machine)                 // a node that has never been heard from
    | Arrive(machine: Machine)                 // the first registration of an unknown node
    | Register(n: NodeId)
    | Heartbeat(n: NodeId, uptime: int, wifi: int, ping: real)
    | GoingAway(n: NodeId)
    | Sweep
    | RestartHub
    | Wait(seconds: nat)

  predicate Enabled(w: World, e: Event) {
    match e
    case Enroll(m) => !m.online && m.lastHeartbeat == 0
    case Arrive(m) => m.online && m.lastHeartbeat == w.now
    case Register(n) => 0 <= n < |w.rows.nodes|
    case Heartbeat(n, _, _, _) => 0 <= n < |w.rows.nodes|
    case GoingAway(n) => 0 <= n < |w.rows.nodes|
    case _ => true
  }

  function Step(w: World, e: Event): World
    requires Enabled(w, e)
  {
    var s := w.rows;
    match e
    case Enroll(m) => w.(rows := s.(nodes := s.nodes + [m]))
    case Arrive(m) => w.(rows := s.(nodes := s.nodes + [m]))
    case Register(n) => w.(rows := Registered(s, n, w.now), untracked := w.untracked - {n})
    case Heartbeat(n, uptime, wifi, ping) =>
      w.(rows := Beaten(s, n, w.now, uptime, wifi, ping), untracked := w.untracked - {n})
    case GoingAway(n) => w.(rows := s.(nodes := s.nodes[n := s.nodes[n].(goingAwayAt := Some(w.now))]))
    case Sweep => w.(rows := Swept(s, w.now))
    case RestartHub => w.(rows := Restarted(s, |s.nodes|, w.now), untracked := {})
    case Wait(seconds) => w.(now := w.now + seconds)
  }

  ghost predicate CanRun(w: World, es: seq<Event>)
    decreases |es|
  {
    es == [] || (Enabled(w, es[0]) && CanRun(Step(w, es[0]), es[1..]))
  }

  ghost function Run(w: World, es: seq<Event>): World
    requires CanRun(w, es)
    decreases |es|
  {
    if es == [] then w else Run(Step(w, es[0]), es[1..])
  }

  // ---- what every state satisfies ----

  ghost predicate MachineWell(m: Machine, now: int) {
    0 <= m.lastHeartbeat <= now && (m.online ==> m.lastHeartbeat > 0)
  }

  /** An outage starts at a heartbeat; while it is open its node is offline and that heartbeat is still the last. */
  ghost predicate RowWell(s: State, o: Outage) {
    0 <= o.node < |s.nodes| && 0 < o.startedAt <= s.nodes[o.node].lastHeartbeat &&
    match o.endedAt
    case None => !s.nodes[o.node].online && o.startedAt == s.nodes[o.node].lastHeartbeat
    case Some(end) => o.startedAt <= end <= s.nodes[o.node].lastHeartbeat
  }

  /** A node's outages are disjoint and in order, and only the last may be open. */
  ghost predicate InOrder(outages: seq<Outage>) {
    forall i, j :: 0 <= i < j < |outages| && outages[i].node == outages[j].node ==>
      outages[i].endedAt.Some? && outages[i].endedAt.value <= outages[j].startedAt
  }

  ghost predicate Tracked(s: State, n: NodeId, untracked: set<NodeId>)
    requires 0 <= n < |s.nodes|
  {
    !s.nodes[n].online && s.nodes[n].lastHeartbeat != 0 ==> HasOpen(s.outages, n) || n in untracked
  }

  ghost predicate Good(s: State, now: int) {
    (forall n :: 0 <= n < |s.nodes| ==> MachineWell(s.nodes[n], now)) &&
    (forall i :: 0 <= i < |s.outages| ==> RowWell(s, s.outages[i])) && InOrder(s.outages)
  }

  ghost predicate AllTracked(s: State, untracked: set<NodeId>) {
    forall n :: 0 <= n < |s.nodes| ==> Tracked(s, n, untracked)
  }

  ghost predicate Inv(w: World) {
    w.now > 0 && Good(w.rows, w.now) && AllTracked(w.rows, w.untracked) &&
    forall n :: n in w.untracked ==> 0 <= n < |w.rows.nodes| && !w.rows.nodes[n].online
  }

  lemma OpenMeansOffline(s: State, now: int, n: NodeId)
    requires Good(s, now) && 0 <= n < |s.nodes| && s.nodes[n].online
    ensures !HasOpen(s.outages, n)
  {
  }

  /** Opening an outage for an offline node with none open puts it after all the node's earlier ones. */
  lemma OpeningKeeps(s: State, now: int, n: NodeId)
    requires Good(s, now) && 0 <= n < |s.nodes| && !s.nodes[n].online && s.nodes[n].lastHeartbeat != 0
    ensures Good(s.(outages := Opened(s.outages, n, s.nodes[n])), now)
    ensures HasOpen(Opened(s.outages, n, s.nodes[n]), n)
    ensures forall m :: HasOpen(s.outages, m) ==> HasOpen(Opened(s.outages, n, s.nodes[n]), m)
  {
    var t := Opened(s.outages, n, s.nodes[n]);
    if !HasOpen(s.outages, n) {
      assert OpenFor(t[|s.outages|], n);
      forall i | 0 <= i < |s.outages| && s.outages[i].node == n ensures s.outages[i].endedAt.Some? {
        assert !OpenFor(s.outages[i], n);
      }
      forall m | HasOpen(s.outages, m) ensures HasOpen(t, m) {
        var i :| 0 <= i < |s.outages| && OpenFor(s.outages[i], m);
        assert OpenFor(t[i], m);
      }
    }
  }

  lemma GoingOfflineKeeps(s: State, now: int, n: NodeId, untracked: set<NodeId>)
    requires Good(s, now) && AllTracked(s, untracked) && 0 <= n < |s.nodes| && s.nodes[n].online
    ensures var m := s.nodes[n].(online := false);
      var t := State(s.nodes[n := m], Opened(s.outages, n, m), s.started);
      Good(t, now) && AllTracked(t, untracked)
  {
    OpenMeansOffline(s, now, n);
    var u := s.(nodes := s.nodes[n := s.nodes[n].(online := false)]);
    forall i | 0 <= i < |u.outages| ensures RowWell(u, u.outages[i]) { assert RowWell(s, s.outages[i]); }
    OpeningKeeps(u, now, n);
    var t := u.(outages := Opened(u.outages, n, u.nodes[n]));
    forall k | 0 <= k < |t.nodes| ensures Tracked(t, k, untracked) { assert Tracked(s, k, untracked); }
  }

  /** A node heard from again: its open outage, if any, ends now. */
  lemma ReturnKeeps(s: State, now: int, n: NodeId, m: Machine, uptime: int, untracked: set<NodeId>)
    requires Good(s, now) && AllTracked(s, untracked) && now > 0 && 0 <= n < |s.nodes|
    requires m.online && m.lastHeartbeat == now
    ensures var t := State(s.nodes[n := m],
        if s.nodes[n].online then s.outages else Closed(s.outages, n, now, uptime), s.started);
      Good(t, now) && AllTracked(t, untracked - {n})
  {
    var t := State(s.nodes[n := m],
      if s.nodes[n].online then s.outages else Closed(s.outages, n, now, uptime), s.started);
    forall i | 0 <= i < |t.outages| ensures RowWell(t, t.outages[i]) { assert RowWell(s, s.outages[i]); }
    forall k | 0 <= k < |t.nodes| ensures Tracked(t, k, untracked - {n}) {
      assert Tracked(s, k, untracked);
      if k != n && HasOpen(s.outages, k) {
        var i :| 0 <= i < |s.outages| && OpenFor(s.outages[i], k);
        assert OpenFor(t.outages[i], k);
      }
    }
  }

  /** In a reachable state the safety net finds nothing to close. */
  lemma {:induction false} NetFindsNothing(s: State, now: int, k: nat)
    requires Good(s, now) && k <= |s.outages|
    ensures NettedUpTo(s, k) == s.outages
  {
    if k > 0 {
      NetFindsNothing(s, now, k - 1);
      assert RowWell(s, s.outages[k - 1]);
    }
  }

  lemma {:induction false} SweepKeeps(s: State, now: int, k: nat, untracked: set<NodeId>)
    requires Good(s, now) && AllTracked(s, untracked) && k <= |s.nodes|
    ensures Good(SweptUpTo(s, now, k), now) && AllTracked(SweptUpTo(s, now, k), untracked)
    ensures forall n :: 0 <= n < |s.nodes| && !s.nodes[n].online ==> !SweptUpTo(s, now, k).nodes[n].online
  {
    if k > 0 {
      SweepKeeps(s, now, k - 1, untracked);
      var t := SweptUpTo(s, now, k - 1);
      assert t.nodes[k - 1] == t.nodes[k - 1..][0] == s.nodes[k - 1..][0];
      if Quiet(s.nodes[k - 1], now) {
        GoingOfflineKeeps(t, now, k - 1, untracked);
      }
    }
  }

  lemma {:induction false} RestartKeeps(s: State, k: nat, now: int)
    requires Good(s, now) && k <= |s.nodes|
    ensures var t := Restarted(s, k, now);
      Good(t, now) && forall n :: 0 <= n < k && !s.nodes[n].online && s.nodes[n].lastHeartbeat != 0 ==> HasOpen(t.outages, n)
  {
    if k > 0 {
      RestartKeeps(s, k - 1, now);
      if !s.nodes[k - 1].online && s.nodes[k - 1].lastHeartbeat != 0 {
        OpeningKeeps(Restarted(s, k - 1, now), now, k - 1);
      }
    } else {
      forall i | 0 <= i < |s.outages| ensures RowWell(s.(started := now), s.outages[i]) { assert RowWell(s, s.outages[i]); }
    }
  }

  lemma GrowingKeeps(w: World, m: Machine)
    requires Inv(w) && MachineWell(m, w.now) && (m.online || m.lastHeartbeat == 0)
    ensures Inv(w.(rows := w.rows.(nodes := w.rows.nodes + [m])))
  {
    var s, t := w.rows, w.rows.(nodes := w.rows.nodes + [m]);
    forall i | 0 <= i < |t.outages| ensures RowWell(t, t.outages[i]) { assert RowWell(s, s.outages[i]); }
    forall n | 0 <= n < |t.nodes| ensures Tracked(t, n, w.untracked) {
      if n < |s.nodes| { assert Tracked(s, n, w.untracked); }
    }
  }

  lemma AnnouncingKeeps(w: World, n: NodeId)
    requires Inv(w) && Enabled(w, GoingAway(n))
    ensures Inv(Step(w, GoingAway(n)))
  {
    var s, t := w.rows, Step(w, GoingAway(n)).rows;
    forall i | 0 <= i < |t.outages| ensures RowWell(t, t.outages[i]) { assert RowWell(s, s.outages[i]); }
    forall k | 0 <= k < |t.nodes| ensures Tracked(t, k, w.untracked) { assert Tracked(s, k, w.untracked); }
  }

  lemma StepKeeps(w: World, e: Event)
    requires Inv(w) && Enabled(w, e)
    ensures Inv(Step(w, e))
  {
    match e
    case Enroll(m) => GrowingKeeps(w, m);
    case Arrive(m) => GrowingKeeps(w, m);
    case Register(n) => {
      var m := w.rows.nodes[n].(online := true, lastHeartbeat := w.now, goingAwayAt := None, agentStartedAt := Some(w.now));
      ReturnKeeps(w.rows, w.now, n, m, -1, w.untracked);
    }
    case Heartbeat(n, uptime, wifi, ping) => {
      var m := w.rows.nodes[n].(online := true, lastHeartbeat := w.now, wifi := wifi, ping := ping);
      ReturnKeeps(w.rows, w.now, n, m, uptime, w.untracked);
    }
    case GoingAway(n) => AnnouncingKeeps(w, n);
    case Sweep => {
      NetFindsNothing(w.rows, w.now, |w.rows.outages|);
      SweepKeeps(w.rows, w.now, |w.rows.nodes|, w.untracked);
    }
    case RestartHub => RestartKeeps(w.rows, |w.rows.nodes|, w.now);
    case Wait(_) =>
  }

  /** Over every run: an online node has no open outage, an offline one that has been heard from has exactly one (or
      was offline before outages were recorded, and stays unrecorded until the Hub restarts), and a node's outages are
      ordered, disjoint and start at one of its heartbeats. */
  lemma {:induction false} RunKeeps(w: World, es: seq<Event>)
    requires Inv(w) && CanRun(w, es)
    ensures Inv(Run(w, es))
    decreases |es|
  {
    if es != [] {
      StepKeeps(w, es[0]);
      RunKeeps(Step(w, es[0]), es[1..]);
    }
  }

  /** A Hub that begins to record outages; its nodes may have been offline since before. */
  function Start(nodes: seq<Machine>, now: int): World {
    World(State(nodes, [], now), now, set n | 0 <= n < |nodes| && !nodes[n].online)
  }

  /** In every state such a Hub can reach: an online node has no open outage; an offline one that was heard from has
      one, from its last heartbeat, unless it has been offline since before the record began; and of two outages of a
      node the earlier one had ended when the later one began. */
  lemma OutagesAreHistory(nodes: seq<Machine>, now: int, es: seq<Event>, n: NodeId)
    requires now > 0 && (forall k :: 0 <= k < |nodes| ==> MachineWell(nodes[k], now))
    requires CanRun(Start(nodes, now), es) && 0 <= n < |Run(Start(nodes, now), es).rows.nodes|
    ensures var v := Run(Start(nodes, now), es);
      var m := v.rows.nodes[n];
      (m.online ==> !HasOpen(v.rows.outages, n)) &&
      (!m.online && m.lastHeartbeat != 0 && n !in v.untracked ==> HasOpenSince(v.rows.outages, n, m.lastHeartbeat)) &&
      InOrder(v.rows.outages)
  {
    RunKeeps(Start(nodes, now), es);
    var v := Run(Start(nodes, now), es);
    assert Tracked(v.rows, n, v.untracked);
    if HasOpen(v.rows.outages, n) {
      var i :| 0 <= i < |v.rows.outages| && OpenFor(v.rows.outages[i], n);
      assert RowWell(v.rows, v.rows.outages[i]);
    }
  }

  /** At most one outage of a node is open. */
  lemma OpenOnce(w: World, i: nat, j: nat)
    requires Inv(w) && i < |w.rows.outages| && j < |w.rows.outages| && w.rows.outages[i].node == w.rows.outages[j].node
    ensures w.rows.outages[i].endedAt.None? && w.rows.outages[j].endedAt.None? ==> i == j
  {
  }

  ghost predicate HasOpenSince(outages: seq<Outage>, n: NodeId, start: int) {
    exists i :: 0 <= i < |outages| && OpenFor(outages[i], n) && outages[i].startedAt == start
  }

  /** A node that a sweep takes offline has one open outage, from its last heartbeat, and no other. */
  lemma SweptHasOneOutage(w: World, n: NodeId)
    requires Inv(w) && 0 <= n < |w.rows.nodes| && w.rows.nodes[n].online
    requires !Swept(w.rows, w.now).nodes[n].online
    ensures var outages := Swept(w.rows, w.now).outages;
      HasOpenSince(outages, n, w.rows.nodes[n].lastHeartbeat) &&
      forall i, j :: 0 <= i < |outages| && 0 <= j < |outages| && OpenFor(outages[i], n) && OpenFor(outages[j], n) ==> i == j
  {
    StepKeeps(w, Sweep);
    var v := Step(w, Sweep);
    SweptHeartbeats(SafetyNet(w.rows), w.now, |w.rows.nodes|);
    assert Tracked(v.rows, n, v.untracked);
    var i :| 0 <= i < |v.rows.outages| && OpenFor(v.rows.outages[i], n);
    assert RowWell(v.rows, v.rows.outages[i]);
    forall i, j | 0 <= i < |v.rows.outages| && 0 <= j < |v.rows.outages| &&
        OpenFor(v.rows.outages[i], n) && OpenFor(v.rows.outages[j], n)
      ensures i == j
    {
      OpenOnce(v, i, j);
    }
  }

  lemma {:induction false} SweptHeartbeats(s: State, now: int, k: nat)
    requires k <= |s.nodes|
    ensures forall n :: 0 <= n < |s.nodes| ==> SweptUpTo(s, now, k).nodes[n].lastHeartbeat == s.nodes[n].lastHeartbeat
  {
    if k > 0 { SweptHeartbeats(s, now, k - 1); }
  }

  // ---- the safety net, from any state ----

  /** Whatever the rows were, after the safety net no outage is open for an online node. */
  lemma {:induction false} NetCloses(s: State, k: nat, i: nat)
    requires i < k <= |s.outages|
    ensures var o := NettedUpTo(s, k)[i];
      o.endedAt.None? ==> !(0 <= o.node < |s.nodes| && s.nodes[o.node].online)
  {
    NetOnlyCloses(s, k - 1, i);
    if i < k - 1 { NetCloses(s, k - 1, i); }
  }

  lemma {:induction false} NetOnlyCloses(s: State, k: nat, i: nat)
    requires k <= |s.outages| && i < |s.outages|
    ensures NettedUpTo(s, k)[i].node == s.outages[i].node
    ensures s.outages[i].endedAt.Some? ==> NettedUpTo(s, k)[i] == s.outages[i]
    ensures NettedUpTo(s, k)[i].endedAt.None? ==> s.outages[i].endedAt.None?
  {
    if k > 0 { NetOnlyCloses(s, k - 1, i); }
  }

  // ---- uptime of a recorded history ----

  function SpanOf(o: Outage): U.Span { U.Span(o.startedAt, o.endedAt) }

  function SpansOf(outages: seq<Outage>, n: NodeId): seq<U.Span> {
    if outages == [] then []
    else
      var last := outages[|outages| - 1];
      SpansOf(outages[..|outages| - 1], n) + (if last.node == n then [SpanOf(last)] else [])
  }

  lemma {:induction false} SpansComeFromRows(outages: seq<Outage>, n: NodeId, a: nat) returns (i: nat)
    requires a < |SpansOf(outages, n)|
    ensures i < |outages| && outages[i].node == n && SpansOf(outages, n)[a] == SpanOf(outages[i])
    decreases |outages|
  {
    var rest := outages[..|outages| - 1];
    if a < |SpansOf(rest, n)| {
      i := SpansComeFromRows(rest, n, a);
    } else {
      i := |outages| - 1;
    }
  }

  lemma {:induction false} HistoryIsDisjoint(outages: seq<Outage>, n: NodeId)
    requires InOrder(outages)
    ensures U.Disjoint(SpansOf(outages, n))
    decreases |outages|
  {
    if outages != [] {
      var rest, last := outages[..|outages| - 1], outages[|outages| - 1];
      HistoryIsDisjoint(rest, n);
      var spans := SpansOf(rest, n);
      forall a, t | 0 <= a < |spans| && U.Covers(spans[a], t) && last.node == n ensures !U.Covers(SpanOf(last), t) {
        var i := SpansComeFromRows(rest, n, a);
        assert outages[i] == rest[i];
      }
    }
  }

  /** The uptime shown for a node with any recorded history: its newest rows give the rounded share of the window in
      which the node was not in an outage, if no row left unread reaches into the window (always, while there are no
      more rows than are read); and their downtime falls short exactly when one does. */
  lemma UptimeOfHistory(w: World, es: seq<Event>, n: NodeId, from: int)
    requires Inv(w) && CanRun(w, es) && from < Run(w, es).now
    ensures var v := Run(w, es);
      var spans := SpansOf(v.rows.outages, n);
      var shown, truth := U.UptimePercent(U.Read(spans), from, v.now), U.TrueUptime(spans, from, v.now);
      truth <= shown && (|spans| <= U.ROWS_READ || U.AllBefore(U.Unread(spans), from, v.now) ==> shown == truth) &&
      (U.Down(U.Read(spans), from, v.now) == |U.Covered(spans, from, v.now)| <==>
        U.AllBefore(U.Unread(spans), from, v.now))
  {
    RunKeeps(w, es);
    var v := Run(w, es);
    HistoryIsDisjoint(v.rows.outages, n);
    U.ReadIsEnoughExactlyWhen(SpansOf(v.rows.outages, n), from, v.now);
    U.ShownIsTrueOrHigher(SpansOf(v.rows.outages, n), from, v.now);
  }

  // ---- a history longer than what is read ----

  const BIRTH := 1000

  const NODE := Machine(true, BIRTH, None, None, 0, 0.0)

  function Heard(k: nat): int {
    BIRTH + OFFLINE_GRACE + 100 * k
  }

  /** The node goes quiet after every heartbeat, k times, and is marked offline each time before it registers anew. */
  function Flapping(k: nat): seq<Event> {
    if k == 0 then [Wait(OFFLINE_GRACE)] + [Register(0)]
    else Flapping(k - 1) + [Wait(100)] + [Sweep] + [Register(0)]
  }

  function Spans(k: nat): (spans: seq<U.Span>)
    ensures |spans| == k && forall i :: 0 <= i < k ==> spans[i] == U.Span(Heard(i), Some(Heard(i + 1)))
  {
    seq(k, i requires 0 <= i < k => U.Span(Heard(i), Some(Heard(i + 1))))
  }

  ghost predicate Flapped(w: World, k: nat) {
    w.now == Heard(k) && |w.rows.nodes| == 1 && w.rows.nodes[0].online && w.rows.nodes[0].lastHeartbeat == w.now &&
    w.rows.started == BIRTH && SpansOf(w.rows.outages, 0) == Spans(k)
  }

  lemma SweptOffline(s: State, now: int)
    requires Good(s, now) && |s.nodes| == 1 && Quiet(s.nodes[0], now) && now - s.started >= OFFLINE_GRACE
    ensures var m := s.nodes[0].(online := false);
      Swept(s, now) == State([m], s.outages +
        [Outage(0, m.lastHeartbeat, None, 0, Untold, m.wifi, m.ping, WentAwayOnPurpose(m))], s.started)
  {
    NetFindsNothing(s, now, |s.outages|);
    OpenMeansOffline(s, now, 0);
    assert SweptUpTo(s, now, 0) == s;
    assert s.nodes[0 := s.nodes[0].(online := false)] == [s.nodes[0].(online := false)];
  }

  lemma ClosesLast(rows: seq<Outage>, o: Outage, now: int)
    requires !HasOpen(rows, 0) && o.node == 0 && o.endedAt.None?
    ensures Closed(rows + [o], 0, now, -1) == rows + [ClosedRow(o, 0, now, -1)]
  {
    forall i | 0 <= i < |rows| ensures ClosedRow(rows[i], 0, now, -1) == rows[i] {
      assert !OpenFor(rows[i], 0);
    }
  }

  lemma OneSpanMore(rows: seq<Outage>, o: Outage, k: nat)
    requires SpansOf(rows, 0) == Spans(k) && o.node == 0 && SpanOf(o) == U.Span(Heard(k), Some(Heard(k + 1)))
    ensures SpansOf(rows + [o], 0) == Spans(k + 1)
  {
    assert (rows + [o])[..|rows|] == rows;
  }

  lemma FlapsOnce(w: World, k: nat)
    requires Inv(w) && Flapped(w, k)
    ensures Flapped(Step(Step(Step(w, Wait(100)), Sweep), Register(0)), k + 1)
  {
    var s, later := w.rows, w.now + 100;
    StepKeeps(w, Wait(100));
    SweptOffline(s, later);
    OpenMeansOffline(s, w.now, 0);
    var m := s.nodes[0];
    var o := Outage(0, m.lastHeartbeat, None, 0, Untold, m.wifi, m.ping, WentAwayOnPurpose(m));
    ClosesLast(s.outages, o, later);
    OneSpanMore(s.outages, ClosedRow(o, 0, later, -1), k);
  }

  ghost predicate RunsFlapped(es: seq<Event>, k: nat) {
    CanRun(Start([NODE], BIRTH), es) && Inv(Run(Start([NODE], BIRTH), es)) && Flapped(Run(Start([NODE], BIRTH), es), k)
  }

  lemma FlappingBegins()
    ensures RunsFlapped(Flapping(0), 0)
  {
    var w := Start([NODE], BIRTH);
    RunMore(w, [], Wait(OFFLINE_GRACE));
    RunMore(w, [] + [Wait(OFFLINE_GRACE)], Register(0));
    assert [] + [Wait(OFFLINE_GRACE)] == [Wait(OFFLINE_GRACE)];
    RunKeeps(w, Flapping(0));
  }

  lemma FlapsAgain(es: seq<Event>, k: nat)
    requires RunsFlapped(es, k)
    ensures RunsFlapped(es + [Wait(100)] + [Sweep] + [Register(0)], k + 1)
  {
    var w := Start([NODE], BIRTH);
    FlapsOnce(Run(w, es), k);
    RunMore(w, es, Wait(100));
    RunMore(w, es + [Wait(100)], Sweep);
    RunMore(w, es + [Wait(100)] + [Sweep], Register(0));
    RunKeeps(w, es + [Wait(100)] + [Sweep] + [Register(0)]);
  }

  lemma {:induction false} FlappingRuns(k: nat)
    ensures RunsFlapped(Flapping(k), k)
  {
    if k == 0 {
      FlappingBegins();
    } else {
      FlappingRuns(k - 1);
      FlapsAgain(Flapping(k - 1), k - 1);
    }
  }

  lemma {:induction false} FlappingDown(k: nat, from: int, now: int)
    requires from <= Heard(0) && Heard(k) <= now
    ensures U.Down(Spans(k), from, now) == 100 * k
  {
    if k > 0 {
      assert Spans(k)[..k - 1] == Spans(k - 1);
      FlappingDown(k - 1, from, now);
    }
  }

  lemma OneRowUnread(k: nat, from: int, now: int)
    requires k == U.ROWS_READ + 1 && from == Heard(0) && now == Heard(k)
    ensures U.Down(U.Read(Spans(k)), from, now) == 100 * (k - 1)
  {
    var unread, read := U.Unread(Spans(k)), U.Read(Spans(k));
    assert unread == Spans(1);
    U.DownAdds(unread, read, from, now);
    FlappingDown(k, from, now);
    FlappingDown(1, from, now);
  }

  lemma ShownAsUp(rows: seq<U.Span>, from: int, now: int)
    requires now - from == 50100 && U.Down(rows, from, now) == 50000
    ensures U.UptimePercent(rows, from, now) == 20
  {
    U.PercentOfDown(rows, from, now);
    assert U.Percentage(100, 50100) == 20;
  }

  lemma NeverUp(rows: seq<U.Span>, from: int, now: int)
    requires now - from == 50100 && U.Down(rows, from, now) == 50100 && U.Disjoint(rows)
    ensures U.TrueUptime(rows, from, now) == 0
  {
    U.DownCountsCovered(rows, from, now);
    U.PartsOfWindow(U.Covered(rows, from, now), from, now);
    assert U.Percentage(0, 50100) == 0;
  }

  /** Such a run exists: a node that was in an outage all the time, 501 of them, is shown as up for a fifth of a percent,
      the share of the one row left unread. */
  lemma LongHistoryShowsMore() returns (es: seq<Event>)
    ensures CanRun(Start([NODE], BIRTH), es)
    ensures var v := Run(Start([NODE], BIRTH), es);
      var spans := SpansOf(v.rows.outages, 0);
      |spans| == 501 && Heard(0) < v.now &&
      U.UptimePercent(U.Read(spans), Heard(0), v.now) == 20 && U.TrueUptime(spans, Heard(0), v.now) == 0
  {
    var k := U.ROWS_READ + 1;
    es := Flapping(k);
    FlappingRuns(k);
    var v := Run(Start([NODE], BIRTH), es);
    HistoryIsDisjoint(v.rows.outages, 0);
    OneRowUnread(k, Heard(0), v.now);
    FlappingDown(k, Heard(0), v.now);
    ShownAsUp(U.Read(Spans(k)), Heard(0), v.now);
    NeverUp(Spans(k), Heard(0), v.now);
  }

  lemma {:induction false} RunMore(w: World, es: seq<Event>, e: Event)
    requires CanRun(w, es) && Enabled(Run(w, es), e)
    ensures CanRun(w, es + [e]) && Run(w, es + [e]) == Step(Run(w, es), e)
    decreases |es|
  {
    if es == [] {
      assert [] + [e] == [e];
    } else {
      assert (es + [e])[1..] == es[1..] + [e];
      RunMore(Step(w, es[0]), es[1..], e);
    }
  }
}
