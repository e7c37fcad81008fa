/** The record of when nodes were gone: registrations, heartbeats, the offline sweeper and Hub restarts open and close
    outages. Times are seconds since the epoch; 0 means never. */
module Outages {
  import opened Jobs

  const GOING_AWAY_WINDOW := 120
  const WEAK_WIFI := 50
  const SLOW_PING_MS := 100.0
  const REBOOT_GRACE_SECS := 30
  const OFFLINE_GRACE := 120
  const HEARTBEAT_TIMEOUT := 90

  datatype Machine = Machine(online: bool, lastHeartbeat: int, goingAwayAt: Option<int>, agentStartedAt: Option<int>,
    wifi: int, ping: real)

  datatype Cause = Untold | Reboot | WeakLink | Connection

  datatype Outage = Outage(node: NodeId, startedAt: int, endedAt: Option<int>, seconds: nat, cause: Cause, wifi: int,
    ping: real, planned: bool)

  /** The Hub's rows, and when this Hub process started. A node's ID is its position. */
  datatype State = State(nodes: seq<Machine>, outages: seq<Outage>, started: int)

  predicate WentAwayOnPurpose(m: Machine) {
    m.goingAwayAt.Some? &&
    -GOING_AWAY_WINDOW < m.goingAwayAt.value - m.lastHeartbeat < GOING_AWAY_WINDOW
  }

  function OutageCause(o: Outage, seconds: int, uptime: int): Cause {
    if uptime < 0 then Untold
    else if uptime + REBOOT_GRACE_SECS < seconds then Reboot
    else if (0 < o.wifi < WEAK_WIFI) || o.ping > SLOW_PING_MS then WeakLink
    else Connection
  }

  predicate OpenFor(o: Outage, n: NodeId) {
    o.node == n && o.endedAt.None?
  }

  predicate HasOpen(outages: seq<Outage>, n: NodeId) {
    exists i :: 0 <= i < |outages| && OpenFor(outages[i], n)
  }

  function Opened(outages: seq<Outage>, n: NodeId, m: Machine): seq<Outage> {
    if HasOpen(outages, n) then outages
    else outages + [Outage(n, m.lastHeartbeat, None, 0, Untold, m.wifi, m.ping, WentAwayOnPurpose(m))]
  }

  function ClosedRow(o: Outage, n: NodeId, now: int, uptime: int): Outage {
    if OpenFor(o, n) then
      var secs := Max(now - o.startedAt, 0);
      o.(endedAt := Some(now), seconds := secs, cause := OutageCause(o, secs, uptime))
    else o
  }

  function Closed(outages: seq<Outage>, n: NodeId, now: int, uptime: int): (r: seq<Outage>)
    ensures |r| == |outages| && forall i :: 0 <= i < |r| ==> r[i] == ClosedRow(outages[i], n, now, uptime)
  {
    seq(|outages|, i requires 0 <= i < |outages| => ClosedRow(outages[i], n, now, uptime))
  }

  /** What the safety net makes of row i: an outage open for an online node ended at its last heartbeat. */
  function Netted(s: State, outages: seq<Outage>, i: nat): seq<Outage>
    requires i < |s.outages|
  {
    var o := s.outages[i];
    if o.endedAt.None? && 0 <= o.node < |s.nodes| && s.nodes[o.node].online then
      Closed(outages, o.node, Max(s.nodes[o.node].lastHeartbeat, o.startedAt), -1)
    else outages
  }

  function NettedUpTo(s: State, k: nat): (r: seq<Outage>)
    requires k <= |s.outages|
    ensures |r| == |s.outages|
  {
    if k == 0 then s.outages else Netted(s, NettedUpTo(s, k - 1), k - 1)
  }

  function SafetyNet(s: State): State {
    s.(outages := NettedUpTo(s, |s.outages|))
  }

  predicate Quiet(m: Machine, now: int) {
    m.online && now - m.lastHeartbeat > HEARTBEAT_TIMEOUT
  }

  function SweptUpTo(s: State, now: int, k: nat): (r: State)
    requires k <= |s.nodes|
    ensures |r.nodes| == |s.nodes| && r.nodes[k..] == s.nodes[k..] && r.started == s.started
  {
    if k == 0 then s
    else
      var t := SweptUpTo(s, now, k - 1);
      assert t.nodes[k - 1] == t.nodes[k - 1..][0] == s.nodes[k - 1..][0];
      if Quiet(s.nodes[k - 1], now) then
        var m := s.nodes[k - 1].(online := false);
        State(t.nodes[k - 1 := m], Opened(t.outages, k - 1, m), t.started)
      else t
  }

  function Swept(s: State, now: int): State {
    var t := SafetyNet(s);
    if now - s.started < OFFLINE_GRACE then t else SweptUpTo(t, now, |t.nodes|)
  }

  function Restarted(s: State, k: nat, now: int): (r: State)
    requires k <= |s.nodes|
    ensures r.nodes == s.nodes
  {
    if k == 0 then s.(started := now)
    else
      var t := Restarted(s, k - 1, now);
      if !s.nodes[k - 1].online && s.nodes[k - 1].lastHeartbeat != 0 then
        t.(outages := Opened(t.outages, k - 1, s.nodes[k - 1]))
      else t
  }

  function Registered(s: State, n: NodeId, now: int): State
    requires 0 <= n < |s.nodes|
  {
    var m := s.nodes[n];
    State(s.nodes[n := m.(online := true, lastHeartbeat := now, goingAwayAt := None, agentStartedAt := Some(now))],
      if m.online then s.outages else Closed(s.outages, n, now, -1), s.started)
  }

  function Beaten(s: State, n: NodeId, now: int, uptime: int, wifi: int, ping: real): State
    requires 0 <= n < |s.nodes|
  {
    var m := s.nodes[n];
    State(s.nodes[n := m.(online := true, lastHeartbeat := now, wifi := wifi, ping := ping)],
      if m.online then s.outages else Closed(s.outages, n, now, uptime), s.started)
  }

  // ---- the service ----

  class NodeService {
    var nodes: seq<Machine>
    var outages: seq<Outage>
    var started: int

    ghost function Rows(): State
      reads this
    {
      State(nodes, outages, started)
    }

    method OpenOutage(n: NodeId)
      requires 0 <= n < |nodes|
      modifies this`outages
      ensures outages == Opened(old(outages), n, nodes[n])
    {
      if HasOpen(outages, n) {
        return;
      }
      outages := outages + [Outage(n, nodes[n].lastHeartbeat, None, 0, Untold, nodes[n].wifi, nodes[n].ping,
        WentAwayOnPurpose(nodes[n]))];
    }

    method CloseOutage(n: NodeId, now: int, uptime: int)
      modifies this`outages
      ensures outages == Closed(old(outages), n, now, uptime)
    {
      var i := 0;
      while i < |outages|
        invariant 0 <= i <= |outages| == |old(outages)|
        invariant forall k :: 0 <= k < i ==> outages[k] == ClosedRow(old(outages)[k], n, now, uptime)
        invariant forall k :: i <= k < |outages| ==> outages[k] == old(outages)[k]
      {
        var o := outages[i];
        if o.node == n && o.endedAt.None? {
          var secs := now - o.startedAt;
          if secs < 0 {
            secs := 0;
          }
          outages := outages[i := o.(endedAt := Some(now), seconds := secs, cause := OutageCause(o, secs, uptime))];
        }
        i := i + 1;
      }
    }

    /** Registers the agent of a known node. */
    method Register(n: NodeId, now: int)
      requires 0 <= n < |nodes|
      modifies this
      ensures Rows() == Registered(old(Rows()), n, now)
    {
      if !nodes[n].online {
        CloseOutage(n, now, -1);
      }
      nodes := nodes[n := nodes[n].(online := true, lastHeartbeat := now, goingAwayAt := None, agentStartedAt := Some(now))];
    }

    method Heartbeat(n: NodeId, now: int, uptime: int, wifi: int, ping: real)
      requires 0 <= n < |nodes|
      modifies this
      ensures Rows() == Beaten(old(Rows()), n, now, uptime, wifi, ping)
    {
      if !nodes[n].online {
        CloseOutage(n, now, uptime);
      }
      nodes := nodes[n := nodes[n].(online := true, lastHeartbeat := now, wifi := wifi, ping := ping)];
    }

    method CloseOutagesOfOnlineNodes()
      modifies this`outages
      ensures Rows() == SafetyNet(old(Rows()))
    {
      var rows := outages;
      var i := 0;
      while i < |rows|
        invariant 0 <= i <= |rows| && rows == old(outages) && nodes == old(nodes) && started == old(started)
        invariant outages == NettedUpTo(old(Rows()), i)
      {
        var o := rows[i];
        if o.endedAt.None? && 0 <= o.node < |nodes| && nodes[o.node].online {
          var end := nodes[o.node].lastHeartbeat;
          if end < o.startedAt {
            end := o.startedAt;
          }
          CloseOutage(o.node, end, -1);
        }
        i := i + 1;
      }
    }

    method OpenOutagesForOfflineNodes(now: int)
      modifies this
      ensures Rows() == Restarted(old(Rows()), |old(nodes)|, now)
    {
      started := now;
      var i := 0;
      while i < |nodes|
        invariant 0 <= i <= |nodes| && nodes == old(nodes)
        invariant Rows() == Restarted(old(Rows()), i, now)
      {
        if !nodes[i].online && nodes[i].lastHeartbeat != 0 {
          OpenOutage(i);
        }
        i := i + 1;
      }
    }

    /** After the grace at start-up, takes every node offline that has been quiet for too long. */
    method SweepOffline(now: int)
      modifies this
      ensures Rows() == Swept(old(Rows()), now)
    {
      CloseOutagesOfOnlineNodes();
      if now - started < OFFLINE_GRACE {
        return;
      }
      ghost var netted := Rows();
      var i := 0;
      while i < |nodes|
        invariant 0 <= i <= |nodes| == |netted.nodes|
        invariant Rows() == SweptUpTo(netted, now, i)
      {
        assert nodes[i] == nodes[i..][0] == netted.nodes[i..][0];
        if nodes[i].online && now - nodes[i].lastHeartbeat > HEARTBEAT_TIMEOUT {
          nodes := nodes[i := nodes[i].(online := false)];
          OpenOutage(i);
        }
        i := i + 1;
      }
    }
  }
}
