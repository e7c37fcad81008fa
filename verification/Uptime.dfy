/** A node's uptime: the share of a window that no outage covers. Instants are integers, an outage covers those from
    its start up to but not including its end, and percentages are in hundredths of a percent. */
module Uptime {
  import opened Jobs

  /** One outage; it is still open when it has no end. */
  datatype Span = Span(start: int, end: Option<int>)

  function Start(o: Span, from: int): int { Max(o.start, from) }
  function End(o: Span, now: int): int { if o.end.Some? then Min(o.end.value, now) else now }

  function Clipped(o: Span, from: int, now: int): nat {
    if End(o, now) > Start(o, from) then End(o, now) - Start(o, from) else 0
  }

  function Down(outages: seq<Span>, from: int, now: int): nat {
    if outages == [] then 0
    else Down(outages[..|outages| - 1], from, now) + Clipped(outages[|outages| - 1], from, now)
  }

  /** part of total as hundredths of a percent, rounded to the nearest (halves up). */
  function Percentage(part: nat, total: nat): nat
    requires total > 0
  {
    (2 * 10000 * part + total) / (2 * total)
  }

  function UptimePercent(outages: seq<Span>, from: int, now: int): nat {
    if now <= from then 10000
    else Percentage(now - from - Min(Down(outages, from, now), now - from), now - from)
  }

  method ComputeUptime(outages: seq<Span>, from: int, now: int) returns (hundredths: nat)
    ensures hundredths == UptimePercent(outages, from, now)
  {
    var total := now - from;
    if total <= 0 {
      return 10000;
    }
    var down: nat := 0;
    var i := 0;
    while i < |outages|
      invariant 0 <= i <= |outages| && down == Down(outages[..i], from, now)
    {
      var start, end := outages[i].start, now;
      if outages[i].end.Some? {
        end := outages[i].end.value;
      }
      if start < from {
        start := from;
      }
      if end > now {
        end := now;
      }
      assert outages[..i + 1][..i] == outages[..i];
      if end > start {
        down := down + (end - start);
      }
      i := i + 1;
    }
    assert outages[..i] == outages;
    if down > total {
      down := total;
    }
    hundredths := Percentage(total - down, total);
  }

  // ---- what it means ----

  predicate Covers(o: Span, t: int) {
    o.start <= t && (o.end.Some? ==> t < o.end.value)
  }

  /** The instants from a up to but not including b. */
  ghost function Instants(a: int, b: int): (s: set<int>)
    ensures forall t :: t in s <==> a <= t < b
    ensures |s| == if a < b then b - a else 0
    decreases b - a
  {
    if a < b then Instants(a, b - 1) + {b - 1} else {}
  }

  ghost predicate InOutage(outages: seq<Span>, t: int) {
    exists i :: 0 <= i < |outages| && Covers(outages[i], t)
  }

  /** The instants of the window that lie in some outage. */
  ghost function Covered(outages: seq<Span>, from: int, now: int): set<int> {
    set t | t in Instants(from, now) && InOutage(outages, t)
  }

  ghost function CoveredBy(o: Span, from: int, now: int): set<int> {
    set t | t in Instants(from, now) && Covers(o, t)
  }

  ghost predicate Disjoint(outages: seq<Span>) {
    forall i, j, t :: 0 <= i < j < |outages| && Covers(outages[i], t) ==> !Covers(outages[j], t)
  }

  lemma ClippedIsCovered(o: Span, from: int, now: int)
    ensures |CoveredBy(o, from, now)| == Clipped(o, from, now)
  {
    assert CoveredBy(o, from, now) == Instants(Start(o, from), End(o, now));
  }

  lemma DisjointUnionSize(a: set<int>, b: set<int>)
    requires a !! b
    ensures |a + b| == |a| + |b|
  {
  }

  lemma LastOutage(outages: seq<Span>, from: int, now: int)
    requires outages != [] && Disjoint(outages)
    ensures var rest, last := outages[..|outages| - 1], outages[|outages| - 1];
      Disjoint(rest) && Covered(rest, from, now) !! CoveredBy(last, from, now) &&
      Covered(outages, from, now) == Covered(rest, from, now) + CoveredBy(last, from, now)
  {
    var rest, last := outages[..|outages| - 1], outages[|outages| - 1];
    forall t ensures InOutage(outages, t) <==> InOutage(rest, t) || Covers(last, t) {
      if InOutage(rest, t) {
        var i :| 0 <= i < |rest| && Covers(rest[i], t);
        assert Covers(outages[i], t);
      }
      if InOutage(outages, t) && !Covers(last, t) {
        var i :| 0 <= i < |outages| && Covers(outages[i], t);
        assert Covers(rest[i], t);
      }
    }
    forall t | InOutage(rest, t) ensures !Covers(last, t) {
      var i :| 0 <= i < |rest| && Covers(rest[i], t);
      assert outages[i] == rest[i];
    }
  }

  /** For disjoint outages, one of which may still be open, the sum of the clipped lengths is the number of instants in
      the window that some outage covers. */
  lemma {:induction false} DownCountsCovered(outages: seq<Span>, from: int, now: int)
    requires Disjoint(outages)
    ensures Down(outages, from, now) == |Covered(outages, from, now)|
    decreases |outages|
  {
    if outages == [] {
      assert Covered(outages, from, now) == {};
    } else {
      var rest, last := outages[..|outages| - 1], outages[|outages| - 1];
      LastOutage(outages, from, now);
      DownCountsCovered(rest, from, now);
      ClippedIsCovered(last, from, now);
      DisjointUnionSize(Covered(rest, from, now), CoveredBy(last, from, now));
    }
  }

  /** The rounded share of the window's instants that no outage covers. */
  ghost function TrueUptime(rows: seq<Span>, from: int, now: int): nat
    requires from < now
  {
    Percentage(|Instants(from, now) - Covered(rows, from, now)|, now - from)
  }

  /** The uptime is the rounded share of the window's instants that no outage covers, and the clamp on the downtime is
      never taken. */
  lemma UptimeIsUncoveredShare(outages: seq<Span>, from: int, now: int)
    requires Disjoint(outages) && from < now
    ensures Down(outages, from, now) <= now - from
    ensures UptimePercent(outages, from, now) == TrueUptime(outages, from, now)
  {
    DownCountsCovered(outages, from, now);
    PartsOfWindow(Covered(outages, from, now), from, now);
    LessReadShowsMore(outages, outages, from, now);
  }

  lemma PartsOfWindow(covered: set<int>, from: int, now: int)
    requires from < now && covered <= Instants(from, now)
    ensures |covered| <= now - from && |Instants(from, now) - covered| == now - from - |covered|
  {
    var all := Instants(from, now);
    DisjointUnionSize(covered, all - covered);
    assert covered + (all - covered) == all;
  }

  lemma ProductGrows(a: int, b: int, z: nat)
    ensures a <= b ==> a * z <= b * z
  {
    if a <= b {
      assert (b - a) * z >= 0;
      assert b * z == a * z + (b - a) * z;
    }
  }

  lemma QuotientAtLeast(q: int, y: int, z: int)
    requires z > 0 && q * z <= y
    ensures q <= y / z
  {
    ProductGrows(y / z + 1, q, z);
    assert y == (y / z) * z + y % z;
    assert (y / z + 1) * z == (y / z) * z + z;
  }

  lemma PercentageGrows(a: nat, b: nat, total: nat)
    requires a <= b && total > 0
    ensures Percentage(a, total) <= Percentage(b, total)
  {
    QuotientAtLeast(Percentage(a, total), 2 * 10000 * b + total, 2 * total);
  }

  lemma QuotientBelow(q: int, y: int, z: int)
    requires z > 0 && y < q * z
    ensures y / z < q
  {
    ProductGrows(q, y / z, z);
    assert y == (y / z) * z + y % z;
  }

  lemma AllUp(total: nat)
    requires total > 0
    ensures Percentage(total, total) == 10000
  {
    QuotientAtLeast(10000, 2 * 10000 * total + total, 2 * total);
    QuotientBelow(10001, 2 * 10000 * total + total, 2 * total);
  }

  /** It is between 0 and 100 percent for any outages at all, and never rises when one is added. */
  lemma UptimeBounds(outages: seq<Span>, o: Span, from: int, now: int)
    ensures 0 <= UptimePercent(outages, from, now) <= 10000
    ensures UptimePercent(outages + [o], from, now) <= UptimePercent(outages, from, now)
  {
    assert (outages + [o])[..|outages|] == outages;
    if from < now {
      var total := now - from;
      var up, less := total - Min(Down(outages, from, now), total), total - Min(Down(outages + [o], from, now), total);
      PercentageGrows(less, up, total);
      PercentageGrows(up, total, total);
      AllUp(total);
    }
  }

  // ---- the windows shown ----

  /** Where a window of the given length starts: not before tracking began or the node was created. */
  function WindowStart(now: int, length: int, trackedSince: int, createdAt: int): (from: int)
    ensures from >= now - length && from >= trackedSince && from >= createdAt
    ensures from == now - length || from == trackedSince || from == createdAt
  {
    Max(Max(now - length, trackedSince), createdAt)
  }

  const ROWS_READ := 500
  const DAY := 24 * 60 * 60

  /** The newest of a node's rows, oldest first, as many as are read. */
  function Read(rows: seq<Span>): (read: seq<Span>)
    ensures |read| == Min(|rows|, ROWS_READ) && read == rows[|rows| - |read|..]
  {
    if |rows| <= ROWS_READ then rows else rows[|rows| - ROWS_READ..]
  }

  function Unread(rows: seq<Span>): (unread: seq<Span>)
    ensures unread + Read(rows) == rows && |unread| == |rows| - |Read(rows)|
  {
    rows[..|rows| - |Read(rows)|]
  }

  /** What a node's page shows; nothing at all for one never heard from. */
  datatype NodeUptime = NodeUptime(lastOutage: Option<Span>, week: Option<nat>, month: Option<nat>, outages7d: nat)

  predicate InWeek(o: Span, now: int) {
    o.end.Some? ==> o.end.value > now - 7 * DAY
  }

  function CountInWeek(rows: seq<Span>, now: int): nat {
    if rows == [] then 0
    else CountInWeek(rows[..|rows| - 1], now) + if InWeek(rows[|rows| - 1], now) then 1 else 0
  }

  function Shown(rows: seq<Span>, heard: bool, createdAt: int, trackedSince: int, now: int): NodeUptime {
    var read := Read(rows);
    if rows == [] && !heard then NodeUptime(None, None, None, 0)
    else
      NodeUptime(if rows == [] then None else Some(rows[|rows| - 1]),
        Some(UptimePercent(read, WindowStart(now, 7 * DAY, trackedSince, createdAt), now)),
        Some(UptimePercent(read, WindowStart(now, 30 * DAY, trackedSince, createdAt), now)), CountInWeek(read, now))
  }

  method UptimeOf(rows: seq<Span>, heard: bool, createdAt: int, trackedSince: int, now: int) returns (u: NodeUptime)
    ensures u == Shown(rows, heard, createdAt, trackedSince, now)
  {
    var outages := Read(rows);
    u := NodeUptime(None, None, None, 0);
    if |outages| > 0 {
      u := u.(lastOutage := Some(outages[|outages| - 1]));
    }
    if !heard && |outages| == 0 {
      return;
    }
    var week := ComputeUptime(outages, WindowStart(now, 7 * DAY, trackedSince, createdAt), now);
    var month := ComputeUptime(outages, WindowStart(now, 30 * DAY, trackedSince, createdAt), now);
    u := u.(week := Some(week), month := Some(month));
    var i, count: nat := 0, 0;
    while i < |outages|
      invariant 0 <= i <= |outages| && count == CountInWeek(outages[..i], now)
    {
      assert outages[..i + 1][..i] == outages[..i];
      if outages[i].end.None? || outages[i].end.value > now - 7 * DAY {
        count := count + 1;
      }
      i := i + 1;
    }
    assert outages[..i] == outages;
    u := u.(outages7d := count);
  }

  // ---- what the rows that are not read would have added ----

  lemma {:induction false} DownAdds(a: seq<Span>, b: seq<Span>, from: int, now: int)
    ensures Down(a + b, from, now) == Down(a, from, now) + Down(b, from, now)
    decreases |b|
  {
    if b == [] {
      assert a + b == a;
    } else {
      assert (a + b)[..|a + b| - 1] == a + b[..|b| - 1];
      DownAdds(a, b[..|b| - 1], from, now);
    }
  }

  /** None of these rows reaches into the window. */
  predicate AllBefore(rows: seq<Span>, from: int, now: int) {
    forall i :: 0 <= i < |rows| ==> Clipped(rows[i], from, now) == 0
  }

  lemma {:induction false} DownIsZero(rows: seq<Span>, from: int, now: int)
    ensures Down(rows, from, now) == 0 <==> AllBefore(rows, from, now)
  {
    if rows != [] {
      var fewer := rows[..|rows| - 1];
      DownIsZero(fewer, from, now);
      assert AllBefore(rows, from, now) <==>
        AllBefore(fewer, from, now) && Clipped(rows[|rows| - 1], from, now) == 0;
    }
  }

  /** The rows read add up to the downtime of the whole history exactly when no row left unread reaches into the
      window; otherwise they fall short of it. */
  lemma ReadIsEnoughExactlyWhen(rows: seq<Span>, from: int, now: int)
    requires Disjoint(rows)
    ensures Down(Read(rows), from, now) <= |Covered(rows, from, now)|
    ensures Down(Read(rows), from, now) == |Covered(rows, from, now)| <==> AllBefore(Unread(rows), from, now)
  {
    DownCountsCovered(rows, from, now);
    DownAdds(Unread(rows), Read(rows), from, now);
    DownIsZero(Unread(rows), from, now);
  }

  /** So the uptime shown is never below the true one, and is the true one if no row left unread reaches into the
      window, as when there are no more rows than are read. */
  lemma ShownIsTrueOrHigher(rows: seq<Span>, from: int, now: int)
    requires Disjoint(rows) && from < now
    ensures TrueUptime(rows, from, now) <= UptimePercent(Read(rows), from, now)
    ensures AllBefore(Unread(rows), from, now) || |rows| <= ROWS_READ ==>
      UptimePercent(Read(rows), from, now) == TrueUptime(rows, from, now)
  {
    ReadIsEnoughExactlyWhen(rows, from, now);
    LessReadShowsMore(Read(rows), rows, from, now);
  }

  lemma LessReadShowsMore(read: seq<Span>, rows: seq<Span>, from: int, now: int)
    requires from < now && Down(read, from, now) <= |Covered(rows, from, now)|
    ensures TrueUptime(rows, from, now) <= UptimePercent(read, from, now)
    ensures Down(read, from, now) == |Covered(rows, from, now)| ==>
      UptimePercent(read, from, now) == TrueUptime(rows, from, now)
  {
    var covered, total := |Covered(rows, from, now)|, now - from;
    PartsOfWindow(Covered(rows, from, now), from, now);
    PercentOfDown(read, from, now);
    LessDownShowsMore(Down(read, from, now), covered, total);
  }

  lemma LessDownShowsMore(down: nat, more: nat, total: nat)
    requires down <= more <= total && total > 0
    ensures Percentage(total - more, total) <= Percentage(total - down, total)
  {
    PercentageGrows(total - more, total - down, total);
  }

  lemma PercentOfDown(rows: seq<Span>, from: int, now: int)
    requires from < now && Down(rows, from, now) <= now - from
    ensures UptimePercent(rows, from, now) == Percentage(now - from - Down(rows, from, now), now - from)
  {
  }

  lemma {:induction false} WeekCountAdds(a: seq<Span>, b: seq<Span>, now: int)
    ensures CountInWeek(a + b, now) == CountInWeek(a, now) + CountInWeek(b, now)
    decreases |b|
  {
    if b == [] {
      assert a + b == a;
    } else {
      assert (a + b)[..|a + b| - 1] == a + b[..|b| - 1];
      WeekCountAdds(a, b[..|b| - 1], now);
    }
  }

  lemma {:induction false} WeekCountIsZero(rows: seq<Span>, now: int)
    ensures CountInWeek(rows, now) == 0 <==> forall i :: 0 <= i < |rows| ==> !InWeek(rows[i], now)
  {
    if rows != [] {
      var fewer := rows[..|rows| - 1];
      WeekCountIsZero(fewer, now);
      assert forall i :: 0 <= i < |fewer| ==> fewer[i] == rows[i];
    }
  }

  /** The number of outages shown for the week is the whole history's exactly when none left unread lies in it. */
  lemma WeekIsCountedExactlyWhen(rows: seq<Span>, now: int)
    ensures CountInWeek(Read(rows), now) == CountInWeek(rows, now) <==>
      forall i :: 0 <= i < |Unread(rows)| ==> !InWeek(Unread(rows)[i], now)
  {
    WeekCountAdds(Unread(rows), Read(rows), now);
    WeekCountIsZero(Unread(rows), now);
  }

  // ---- in plain numbers ----

  /** The share shown is the nearest hundredth of a percent, and the higher of two equally near. */
  lemma ShareIsNearest(part: nat, total: nat)
    requires total > 0
    ensures var shown, exact := 2 * (Percentage(part, total) * total), 2 * (10000 * part);
      exact - total < shown <= exact + total
  {
    var n, q := 20000 * part + total, Percentage(part, total);
    assert n == q * (2 * total) + n % (2 * total);
    assert q * (2 * total) == 2 * (q * total);
  }

  ghost predicate IsWindow(from: int, earliest: int, trackedSince: int, createdAt: int) {
    from >= earliest && from >= trackedSince && from >= createdAt &&
    (from == earliest || from == trackedSince || from == createdAt)
  }

  /** The rows from k on that reach into the last seven days. */
  ghost function ThisWeek(rows: seq<Span>, now: int, k: nat): set<int> {
    set i | k <= i < |rows| && (rows[i].end.None? || rows[i].end.value > now - 604800)
  }

  lemma {:induction false} CountsTheWeek(rows: seq<Span>, now: int, k: nat)
    requires k <= |rows|
    ensures CountInWeek(rows[k..], now) == |ThisWeek(rows, now, k)|
    decreases |rows|
  {
    var last := |rows| - 1;
    if k == |rows| {
      assert ThisWeek(rows, now, k) == {};
    } else {
      CountsTheWeek(rows[..last], now, k);
      assert rows[k..][..|rows| - k - 1] == rows[..last][k..];
      assert ThisWeek(rows, now, k) == ThisWeek(rows[..last], now, k) + if InWeek(rows[last], now) then {last} else {};
    }
  }

  /** A node's page shows its newest outage, its uptime over seven and thirty days (or since its uptime is tracked, or it
      was created) and how many of the newest 500 outages reach into the last seven days; nothing for a node never heard
      from and without outages. */
  lemma PageShows(rows: seq<Span>, heard: bool, createdAt: int, trackedSince: int, now: int, week: int, month: int)
    requires IsWindow(week, now - 604800, trackedSince, createdAt)
    requires IsWindow(month, now - 2592000, trackedSince, createdAt)
    ensures var u, read := Shown(rows, heard, createdAt, trackedSince, now), if |rows| <= 500 then rows else rows[|rows| - 500..];
      if !heard && rows == [] then u == NodeUptime(None, None, None, 0)
      else
        u.lastOutage == (if rows == [] then None else Some(rows[|rows| - 1])) &&
        u.week == Some(UptimePercent(read, week, now)) && u.month == Some(UptimePercent(read, month, now)) &&
        u.outages7d == |ThisWeek(rows, now, |rows| - |read|)|
  {
    CountsTheWeek(rows, now, Max(0, |rows| - 500));
    assert rows[0..] == rows;
    assert WindowStart(now, 604800, trackedSince, createdAt) == week;
    assert WindowStart(now, 2592000, trackedSince, createdAt) == month;
  }
}
