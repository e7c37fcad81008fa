/** Snapshots of one plugin's data: the Hub keeps the newest few, numbered by generation, and a node restores the newest
    before it starts the plugin unless its own data is as new. A checksum is a function given from outside. */
module Snapshots {
  import opened Jobs

  type Bytes = string

  datatype Row = Row(generation: nat, node: NodeId, sha: string, data: Bytes)

  datatype Settings = Settings(keep: nat, maxBytes: nat, sha: Bytes -> string)

  datatype Answer = Saved(generation: nat) | NotTheHost | TooLarge | Empty | NotFound | SwitchedOff

  // ---- the table ----

  /** Rows in the order they were stored, each with a higher generation than those before it. */
  ghost predicate Ascending(rows: seq<Row>) {
    forall i, j :: 0 <= i < j < |rows| ==> rows[i].generation < rows[j].generation
  }

  function Newest(rows: seq<Row>): nat {
    if rows == [] then 0 else rows[|rows| - 1].generation
  }

  function LastRows(rows: seq<Row>, keep: nat): seq<Row> {
    if |rows| <= keep then rows else rows[|rows| - keep..]
  }

  function Stored(rows: seq<Row>, keep: nat, node: NodeId, sha: string, data: Bytes): seq<Row> {
    LastRows(rows + [Row(Newest(rows) + 1, node, sha, data)], keep)
  }

  function Verdict(s: Settings, host: NodeId, from: Option<NodeId>, body: Bytes): Option<Answer> {
    if from != Some(host) then Some(NotTheHost)
    else if |body| > s.maxBytes then Some(TooLarge)
    else if body == "" then Some(Empty)
    else None
  }

  lemma StoredAscends(rows: seq<Row>, keep: nat, node: NodeId, sha: string, data: Bytes)
    requires Ascending(rows)
    ensures Ascending(Stored(rows, keep, node, sha, data))
  {
  }

  class SnapshotService {
    const settings: Settings
    var rows: seq<Row>

    ghost predicate Valid() reads this {
      Ascending(rows)
    }

    constructor (settings: Settings)
      ensures Valid() && rows == [] && this.settings == settings
    {
      this.settings := settings;
      rows := [];
    }

    method MaxGeneration() returns (top: nat)
      requires Valid()
      ensures top == Newest(rows)
    {
      top := 0;
      var i := 0;
      while i < |rows|
        invariant 0 <= i <= |rows| && top == Newest(rows[..i])
      {
        assert i > 0 ==> rows[i - 1].generation < rows[i].generation;
        if rows[i].generation > top {
          top := rows[i].generation;
        }
        i := i + 1;
      }
      assert rows[..i] == rows;
    }

    /** Adds a row above all others, then keeps only as many rows as the setting says. */
    method Store(node: NodeId, sha: string, data: Bytes) returns (generation: nat)
      requires Valid()
      modifies this
      ensures Valid() && generation == Newest(old(rows)) + 1
      ensures rows == Stored(old(rows), settings.keep, node, sha, data)
    {
      var top := MaxGeneration();
      generation := top + 1;
      StoredAscends(rows, |rows| + 1, node, sha, data);
      rows := rows + [Row(generation, node, sha, data)];
      DeleteOld();
    }

    /** Deletes the rows beyond the retention one by one, newest first. */
    method DeleteOld()
      requires Valid()
      modifies this
      ensures Valid() && rows == LastRows(old(rows), settings.keep)
    {
      ghost var all := rows;
      var beyond := rows[..if |rows| > settings.keep then |rows| - settings.keep else 0];
      var left := |beyond|;
      while left > 0
        invariant 0 <= left <= |beyond| <= |all| && rows == all[..left] + all[|beyond|..]
      {
        left := left - 1;
        DropsOne(all, left, |beyond|);
        rows := DeleteRow(rows, beyond[left].generation);
      }
      LastAscend(all, settings.keep);
      assert rows == all[|beyond|..];
    }

    method Upload(host: NodeId, from: Option<NodeId>, body: Bytes) returns (answer: Answer)
      requires Valid()
      modifies this
      ensures Valid()
      ensures from != Some(host) ==> answer == NotTheHost && rows == old(rows)
      ensures from == Some(host) && |body| > settings.maxBytes ==> answer == TooLarge && rows == old(rows)
      ensures from == Some(host) && |body| <= settings.maxBytes && body == "" ==> answer == Empty && rows == old(rows)
      ensures from == Some(host) && 1 <= |body| <= settings.maxBytes ==>
        answer == Saved(Newest(old(rows)) + 1) &&
        rows == Stored(old(rows), settings.keep, host, settings.sha(body), body)
    {
      if from != Some(host) {
        return NotTheHost;
      }
      if |body| > settings.maxBytes {
        return TooLarge;
      }
      if body == "" {
        return Empty;
      }
      var generation := Store(from.value, settings.sha(body), body);
      answer := Saved(generation);
    }

    /** Makes a stored snapshot the newest again, if some plugin of the project still has snapshots on. */
    method Restore(i: nat, switchedOn: bool) returns (answer: Answer)
      requires Valid()
      modifies this
      ensures Valid()
      ensures if i < |old(rows)| && switchedOn then
          (answer == Saved(Newest(old(rows)) + 1) &&
           rows == Stored(old(rows), settings.keep, old(rows)[i].node, old(rows)[i].sha, old(rows)[i].data))
        else answer == (if i < |old(rows)| then SwitchedOff else NotFound) && rows == old(rows)
    {
      if i >= |rows| {
        return NotFound;
      }
      if !switchedOn {
        return SwitchedOff;
      }
      var generation := Store(rows[i].node, rows[i].sha, rows[i].data);
      answer := Saved(generation);
    }
  }

  lemma LastAscend(rows: seq<Row>, keep: nat)
    requires Ascending(rows)
    ensures Ascending(LastRows(rows, keep))
  {
  }

  function DeleteRow(rows: seq<Row>, generation: nat): seq<Row> {
    if rows == [] then []
    else (if rows[0].generation == generation then [] else [rows[0]]) + DeleteRow(rows[1..], generation)
  }

  lemma {:induction false} DeleteNone(rows: seq<Row>, generation: nat)
    requires forall i :: 0 <= i < |rows| ==> rows[i].generation != generation
    ensures DeleteRow(rows, generation) == rows
  {
    if rows != [] { DeleteNone(rows[1..], generation); }
  }

  lemma {:induction false} DeleteOne(rows: seq<Row>, k: nat)
    requires Ascending(rows) && k < |rows|
    ensures DeleteRow(rows, rows[k].generation) == rows[..k] + rows[k + 1..]
    decreases k
  {
    var tail := rows[1..];
    if k == 0 {
      DeleteNone(tail, rows[0].generation);
      assert rows[..0] + tail == tail;
    } else {
      TailAscends(rows);
      assert tail[k - 1] == rows[k];
      DeleteOne(tail, k - 1);
      AroundRow(rows, k);
    }
  }

  lemma AroundRow(rows: seq<Row>, k: nat)
    requires 0 < k < |rows|
    ensures rows[..k] + rows[k + 1..] == [rows[0]] + (rows[1..][..k - 1] + rows[1..][k..])
  {
    assert rows[..k] == [rows[0]] + rows[1..][..k - 1];
    assert rows[1..][k..] == rows[k + 1..];
  }

  lemma TailAscends(rows: seq<Row>)
    requires Ascending(rows) && rows != []
    ensures Ascending(rows[1..]) && forall i :: 0 <= i < |rows[1..]| ==> rows[1..][i].generation > rows[0].generation
  {
  }

  lemma DropsOne(all: seq<Row>, left: nat, beyond: nat)
    requires Ascending(all) && left < beyond <= |all|
    ensures DeleteRow(all[..left + 1] + all[beyond..], all[left].generation) == all[..left] + all[beyond..]
  {
    var rows := all[..left + 1] + all[beyond..];
    PartsAscend(all, left + 1, beyond);
    assert rows[left] == all[left];
    DeleteOne(rows, left);
    assert rows[..left] == all[..left] && rows[left + 1..] == all[beyond..];
  }

  lemma PartsAscend(all: seq<Row>, i: nat, j: nat)
    requires Ascending(all) && i <= j <= |all|
    ensures Ascending(all[..i] + all[j..])
  {
    var rows := all[..i] + all[j..];
    forall a, b | 0 <= a < b < |rows| ensures rows[a].generation < rows[b].generation {
      assert rows[a] == all[if a < i then a else a - i + j] && rows[b] == all[if b < i then b else b - i + j];
    }
  }

  // ---- the Hub, its nodes and their messages ----

  /** A node's copy: the data, the generation written beside it, and what the data was when that was written. */
  datatype Disk = Disk(data: Bytes, generation: nat, synced: Bytes)

  /** A deploy that has asked for the newest snapshot's generation and checksum, and what it concluded. */
  datatype Asked = Asked(node: NodeId, generation: nat, want: string, need: bool)

  /** An upload the Hub has answered. */
  datatype Reply = Reply(node: NodeId, generation: nat, body: Bytes)

  /** A snapshot as it was stored, whether or not its row is still there. */
  datatype Taken = Taken(generation: nat, data: Bytes)

  /** An upload that was stored: its place in the history, the node it came from, and the project's node at that time. */
  datatype Uploaded = Uploaded(place: nat, from: NodeId, host: NodeId, body: Bytes)

  datatype World = World(
    rows: seq<Row>, history: seq<Taken>, host: NodeId, disks: map<NodeId, Disk>, asked: seq<Asked>, replies: seq<Reply>,
    uploads: seq<Uploaded>)

  datatype Event =
    | Write(writer: NodeId, data: Bytes)
    | TakeSnapshot(from: NodeId)
    | HearReply(reply: nat)
    | RestoreRow(restored: nat)
    | DeleteAt(deleted: nat)
    | MoveTo(target: NodeId)
    | Ask(asker: NodeId)
    | Download(deploy: nat)

  function Start(host: NodeId): World {
    World([], [], host, map[], [], [], [])
  }

  function DiskOf(w: World, n: NodeId): Disk {
    if n in w.disks then w.disks[n] else Disk("", 0, "")
  }

  function Save(s: Settings, w: World, node: NodeId, sha: string, data: Bytes): World {
    w.(rows := Stored(w.rows, s.keep, node, sha, data), history := w.history + [Taken(Newest(w.rows) + 1, data)])
  }

  function Snapshot(s: Settings, w: World, from: NodeId): World {
    var body := DiskOf(w, from).data;
    if Verdict(s, w.host, Some(from), body).Some? then w
    else Save(s, w, from, s.sha(body), body).(replies := w.replies + [Reply(from, Newest(w.rows) + 1, body)],
      uploads := w.uploads + [Uploaded(|w.history|, from, w.host, body)])
  }

  /** The newest snapshot's generation and checksum, and whether the generation is higher than the node's own. */
  function Answered(w: World, n: NodeId): Asked {
    if w.rows == [] then Asked(n, 0, "", false)
    else
      var newest := w.rows[|w.rows| - 1];
      Asked(n, newest.generation, newest.sha, newest.generation > DiskOf(w, n).generation)
  }

  /** Whether the bytes downloaded are the ones asked about. */
  predicate Matches(s: Settings, w: World, a: Asked) {
    a.need && w.rows != [] && a.want != "" && s.sha(w.rows[|w.rows| - 1].data) == a.want
  }

  function Downloaded(s: Settings, w: World, a: Asked): World {
    if !Matches(s, w, a) then w
    else
      var data := w.rows[|w.rows| - 1].data;
      w.(disks := w.disks[a.node := Disk(data, a.generation, data)])
  }

  function Next(s: Settings, w: World, e: Event): World {
    match e
    case Write(n, data) => w.(disks := w.disks[n := DiskOf(w, n).(data := data)])
    case TakeSnapshot(n) => Snapshot(s, w, n)
    case HearReply(k) =>
      if k < |w.replies| then
        var r := w.replies[k];
        w.(disks := w.disks[r.node := DiskOf(w, r.node).(generation := r.generation, synced := r.body)])
      else w
    case RestoreRow(i) =>
      if i < |w.rows| then Save(s, w, w.rows[i].node, w.rows[i].sha, w.rows[i].data) else w
    case DeleteAt(i) => if i < |w.rows| then w.(rows := w.rows[..i] + w.rows[i + 1..]) else w
    case MoveTo(n) => w.(host := n)
    case Ask(n) => w.(asked := w.asked + [Answered(w, n)])
    case Download(k) => if k < |w.asked| then Downloaded(s, w, w.asked[k]) else w
  }

  function Run(s: Settings, host: NodeId, events: seq<Event>): World {
    if events == [] then Start(host)
    else Next(s, Run(s, host, events[..|events| - 1]), events[|events| - 1])
  }

  /** Whether an event deletes the newest row. */
  predicate DeletesNewest(w: World, e: Event) {
    e.DeleteAt? && e.deleted + 1 == |w.rows|
  }

  ghost predicate NewestIsKept(s: Settings, host: NodeId, events: seq<Event>) {
    events == [] ||
    (NewestIsKept(s, host, events[..|events| - 1]) &&
     !DeletesNewest(Run(s, host, events[..|events| - 1]), events[|events| - 1]))
  }

  ghost predicate NothingIsDeleted(events: seq<Event>) {
    forall i :: 0 <= i < |events| ==> !events[i].DeleteAt?
  }

  // ---- as long as the newest row is never deleted ----

  /** Generation g is the g-th snapshot ever taken, and its data is this. */
  ghost predicate Is(history: seq<Taken>, g: int, data: Bytes) {
    1 <= g <= |history| && history[g - 1] == Taken(g, data)
  }

  ghost predicate RowsMatch(s: Settings, w: World) {
    Ascending(w.rows) && Newest(w.rows) == |w.history| &&
    forall r :: r in w.rows ==> Is(w.history, r.generation, r.data) && r.sha == s.sha(r.data)
  }

  ghost predicate DisksMatch(w: World) {
    forall n :: n in w.disks && w.disks[n].generation > 0 ==> Is(w.history, w.disks[n].generation, w.disks[n].synced)
  }

  ghost predicate MessagesMatch(s: Settings, w: World) {
    (forall r :: r in w.replies ==> Is(w.history, r.generation, r.body)) &&
    (forall a :: a in w.asked && a.need ==> AskedOf(s, w.history, a))
  }

  ghost predicate AskedOf(s: Settings, history: seq<Taken>, a: Asked) {
    1 <= a.generation <= |history| && Is(history, a.generation, history[a.generation - 1].data) &&
    a.want == s.sha(history[a.generation - 1].data)
  }

  ghost predicate Inv(s: Settings, w: World) {
    RowsMatch(s, w) && DisksMatch(w) && MessagesMatch(s, w)
  }

  predicate SameSum(sha: Bytes -> string, a: Bytes, b: Bytes) {
    sha(a) == sha(b)
  }

  /** Different data have different checksums. */
  ghost predicate Injective(sha: Bytes -> string) {
    forall a, b :: SameSum(sha, a, b) ==> a == b
  }

  /** No data have an empty checksum. */
  ghost predicate NeverEmpty(sha: Bytes -> string) {
    forall b :: sha(b) != ""
  }

  lemma SaveKeeps(s: Settings, w: World, node: NodeId, sha: string, data: Bytes)
    requires Inv(s, w) && s.keep >= 1 && sha == s.sha(data)
    ensures Inv(s, Save(s, w, node, sha, data)) && Is(Save(s, w, node, sha, data).history, |w.history| + 1, data)
    ensures Newest(Save(s, w, node, sha, data).rows) == |w.history| + 1
  {
    StoredAscends(w.rows, s.keep, node, sha, data);
  }

  lemma DownloadKeeps(s: Settings, w: World, a: Asked)
    requires Inv(s, w) && Injective(s.sha) && a in w.asked
    ensures Inv(s, Downloaded(s, w, a))
    ensures Matches(s, w, a) ==> Is(w.history, a.generation, DiskOf(Downloaded(s, w, a), a.node).data)
  {
    if Matches(s, w, a) {
      assert AskedOf(s, w.history, a);
      assert SameSum(s.sha, w.rows[|w.rows| - 1].data, w.history[a.generation - 1].data);
    }
  }

  lemma AskKeeps(s: Settings, w: World, n: NodeId)
    requires Inv(s, w)
    ensures Inv(s, Next(s, w, Ask(n)))
  {
    if w.rows != [] {
      var newest := w.rows[|w.rows| - 1];
      assert newest in w.rows && Is(w.history, newest.generation, newest.data);
    }
  }

  lemma HearingKeeps(s: Settings, w: World, k: nat)
    requires Inv(s, w)
    ensures Inv(s, Next(s, w, HearReply(k)))
  {
  }

  lemma DeletingKeeps(s: Settings, w: World, i: nat)
    requires Inv(s, w) && !DeletesNewest(w, DeleteAt(i))
    ensures Inv(s, Next(s, w, DeleteAt(i)))
  {
    if i < |w.rows| {
      var fewer := w.rows[..i] + w.rows[i + 1..];
      PartsAscend(w.rows, i, i + 1);
      assert fewer[|fewer| - 1] == w.rows[|w.rows| - 1];
      forall r | r in fewer ensures r in w.rows {}
    }
  }

  lemma RestoringKeeps(s: Settings, w: World, i: nat)
    requires Inv(s, w) && s.keep >= 1 && i < |w.rows|
    ensures Inv(s, Next(s, w, RestoreRow(i)))
  {
    assert w.rows[i] in w.rows;
    SaveKeeps(s, w, w.rows[i].node, w.rows[i].sha, w.rows[i].data);
  }

  lemma TakingKeeps(s: Settings, w: World, n: NodeId)
    requires Inv(s, w) && s.keep >= 1
    ensures Inv(s, Next(s, w, TakeSnapshot(n)))
  {
    var body := DiskOf(w, n).data;
    SaveKeeps(s, w, n, s.sha(body), body);
  }

  lemma StepKeeps(s: Settings, w: World, e: Event)
    requires Inv(s, w) && s.keep >= 1 && Injective(s.sha) && !DeletesNewest(w, e)
    ensures Inv(s, Next(s, w, e))
  {
    match e
    case Write(n, data) =>
    case TakeSnapshot(n) => TakingKeeps(s, w, n);
    case HearReply(k) => HearingKeeps(s, w, k);
    case RestoreRow(i) => if i < |w.rows| { RestoringKeeps(s, w, i); }
    case DeleteAt(i) => DeletingKeeps(s, w, i);
    case MoveTo(n) =>
    case Ask(n) => AskKeeps(s, w, n);
    case Download(k) => if k < |w.asked| { DownloadKeeps(s, w, w.asked[k]); }
  }

  lemma {:induction false} RunKeeps(s: Settings, host: NodeId, events: seq<Event>)
    requires s.keep >= 1 && Injective(s.sha) && NewestIsKept(s, host, events)
    ensures Inv(s, Run(s, host, events))
  {
    if events != [] {
      RunKeeps(s, host, events[..|events| - 1]);
      StepKeeps(s, Run(s, host, events[..|events| - 1]), events[|events| - 1]);
    }
  }

  /** No node's generation is ever ahead of the Hub's. */
  lemma NodesAreNeverAhead(s: Settings, host: NodeId, events: seq<Event>, n: NodeId)
    requires s.keep >= 1 && Injective(s.sha) && NewestIsKept(s, host, events)
    ensures DiskOf(Run(s, host, events), n).generation <= Newest(Run(s, host, events).rows)
  {
    RunKeeps(s, host, events);
  }

  /** Whatever is stored between a deploy's question and its download, what it unpacks is the generation it writes
      down. */
  lemma UnpacksWhatItAskedFor(s: Settings, host: NodeId, events: seq<Event>, k: nat)
    requires s.keep >= 1 && Injective(s.sha) && NewestIsKept(s, host, events)
    requires k < |Run(s, host, events).asked| && Matches(s, Run(s, host, events), Run(s, host, events).asked[k])
    ensures var w := Run(s, host, events);
      var disk := DiskOf(Next(s, w, Download(k)), w.asked[k].node);
      disk.generation == w.asked[k].generation && Is(w.history, disk.generation, disk.data)
  {
    RunKeeps(s, host, events);
    DownloadKeeps(s, Run(s, host, events), Run(s, host, events).asked[k]);
  }

  function Deployed(s: Settings, w: World, n: NodeId): World {
    Next(s, Next(s, w, Ask(n)), Download(|w.asked|))
  }

  /** The disk is at the newest generation: untouched if it was there before, else holding that snapshot's data. */
  ghost predicate UpToDate(rows: seq<Row>, before: Disk, disk: Disk) {
    disk.generation == Newest(rows) &&
    (before.generation == Newest(rows) ==> disk == before) &&
    (before.generation < Newest(rows) ==> rows != [] && disk.data == rows[|rows| - 1].data) &&
    (rows != [] ==> disk.synced == rows[|rows| - 1].data)
  }

  /** A deploy that asks and downloads ends at the newest generation: the node was there already, or now holds exactly
      that snapshot's data. */
  lemma DeployCatchesUp(s: Settings, host: NodeId, events: seq<Event>, n: NodeId)
    requires s.keep >= 1 && Injective(s.sha) && NewestIsKept(s, host, events) && NeverEmpty(s.sha)
    ensures var w := Run(s, host, events);
      UpToDate(w.rows, DiskOf(w, n), DiskOf(Deployed(s, w, n), n))
  {
    RunKeeps(s, host, events);
    CatchesUp(s, Run(s, host, events), n);
  }

  lemma CatchesUp(s: Settings, w: World, n: NodeId)
    requires Inv(s, w) && NeverEmpty(s.sha)
    ensures UpToDate(w.rows, DiskOf(w, n), DiskOf(Deployed(s, w, n), n))
  {
    if w.rows != [] {
      var newest := w.rows[|w.rows| - 1];
      assert newest in w.rows;
      assert newest.sha == s.sha(newest.data);
    }
  }

  /** Restoring a snapshot and deploying anywhere brings back its data. */
  lemma RestoreBringsBack(s: Settings, host: NodeId, events: seq<Event>, i: nat, n: NodeId)
    requires s.keep >= 1 && Injective(s.sha) && NewestIsKept(s, host, events) && NeverEmpty(s.sha)
    requires i < |Run(s, host, events).rows|
    ensures var w := Run(s, host, events);
      DiskOf(Deployed(s, Next(s, w, RestoreRow(i)), n), n).data == w.rows[i].data
  {
    RunKeeps(s, host, events);
    var w := Run(s, host, events);
    assert w.rows[i] in w.rows;
    SaveKeeps(s, w, w.rows[i].node, w.rows[i].sha, w.rows[i].data);
    CatchesUp(s, Next(s, w, RestoreRow(i)), n);
  }

  // ---- who may upload ----

  /** A snapshot from a node that does not host the project, an empty one and one too large leave no trace; any other is
      stored once, under its sender's name, and answered. */
  lemma UploadsExactlyWhen(s: Settings, w: World, n: NodeId)
    ensures var v, body := Next(s, w, TakeSnapshot(n)), DiskOf(w, n).data;
      if n != w.host || body == "" || |body| > s.maxBytes then v == w
      else
        (v.history == w.history + [Taken(Newest(w.rows) + 1, body)] &&
         v.replies == w.replies + [Reply(n, Newest(w.rows) + 1, body)] &&
         v.rows == LastRows(w.rows + [Row(Newest(w.rows) + 1, n, s.sha(body), body)], s.keep))
  {
  }

  ghost predicate FromHosts(w: World) {
    |w.uploads| == |w.replies| &&
    forall k :: 0 <= k < |w.uploads| ==>
      w.uploads[k].from == w.uploads[k].host && w.uploads[k].place < |w.history| &&
      w.history[w.uploads[k].place].data == w.uploads[k].body && w.uploads[k].body != ""
  }

  lemma StepKeepsHosts(s: Settings, w: World, e: Event)
    requires FromHosts(w)
    ensures FromHosts(Next(s, w, e))
  {
  }

  /** Over every run, whatever the deletions and moves: each upload that was stored came from the node that hosted the
      project at that moment. */
  lemma {:induction false} UploadsComeFromTheHost(s: Settings, host: NodeId, events: seq<Event>)
    ensures FromHosts(Run(s, host, events))
  {
    if events != [] {
      UploadsComeFromTheHost(s, host, events[..|events| - 1]);
      StepKeepsHosts(s, Run(s, host, events[..|events| - 1]), events[|events| - 1]);
    }
  }

  // ---- if nothing is deleted by hand ----

  /** Row i of so many is the snapshot taken that many from the end, and carries its number. */
  ghost predicate LastOnes(rows: seq<Row>, history: seq<Taken>, keep: nat) {
    |rows| == Min(|history|, keep) &&
    forall i :: 0 <= i < |rows| ==>
      rows[i].generation == |history| - |rows| + i + 1 && rows[i].data == history[|history| - |rows| + i].data
  }

  lemma SaveKeepsLast(rows: seq<Row>, history: seq<Taken>, keep: nat, row: Row, taken: Taken)
    requires LastOnes(rows, history, keep) && keep >= 1
    requires row.generation == taken.generation == Newest(rows) + 1 && row.data == taken.data
    ensures LastOnes(LastRows(rows + [row], keep), history + [taken], keep)
  {
    var more := rows + [row];
    assert Newest(rows) == |history|;
    assert LastRows(more, keep) == if |more| <= keep then more else more[1..];
  }

  lemma StepKeepsLast(s: Settings, w: World, e: Event)
    requires LastOnes(w.rows, w.history, s.keep) && s.keep >= 1 && !e.DeleteAt?
    ensures LastOnes(Next(s, w, e).rows, Next(s, w, e).history, s.keep)
  {
    if e.TakeSnapshot? {
      var body := DiskOf(w, e.from).data;
      SavedAreLast(s, w, e.from, s.sha(body), body);
    } else if e.RestoreRow? && e.restored < |w.rows| {
      var row := w.rows[e.restored];
      SavedAreLast(s, w, row.node, row.sha, row.data);
    }
  }

  lemma SavedAreLast(s: Settings, w: World, node: NodeId, sha: string, data: Bytes)
    requires LastOnes(w.rows, w.history, s.keep) && s.keep >= 1
    ensures var v := Save(s, w, node, sha, data); LastOnes(v.rows, v.history, s.keep)
  {
    var g := Newest(w.rows) + 1;
    SaveKeepsLast(w.rows, w.history, s.keep, Row(g, node, sha, data), Taken(g, data));
  }

  /** The rows are the last snapshots taken, as many as are kept, and their generations count up to the number taken. */
  lemma {:induction false} RowsAreTheLastOnes(s: Settings, host: NodeId, events: seq<Event>)
    requires s.keep >= 1 && NothingIsDeleted(events)
    ensures LastOnes(Run(s, host, events).rows, Run(s, host, events).history, s.keep)
  {
    if events != [] {
      RowsAreTheLastOnes(s, host, events[..|events| - 1]);
      StepKeepsLast(s, Run(s, host, events[..|events| - 1]), events[|events| - 1]);
    }
  }

  // ---- what deleting does ----

  ghost predicate Signed(s: Settings, rows: seq<Row>) {
    forall i :: 0 <= i < |rows| ==> rows[i].sha == s.sha(rows[i].data)
  }

  lemma StepStaysSigned(s: Settings, w: World, e: Event)
    requires Signed(s, w.rows)
    ensures Signed(s, Next(s, w, e).rows)
  {
  }

  lemma {:induction false} AlwaysSigned(s: Settings, host: NodeId, events: seq<Event>)
    ensures Signed(s, Run(s, host, events).rows)
  {
    if events != [] {
      AlwaysSigned(s, host, events[..|events| - 1]);
      StepStaysSigned(s, Run(s, host, events[..|events| - 1]), events[|events| - 1]);
    }
  }

  /** The node is at the newest generation, and what it last took or restored under that number is the newest data. */
  ghost predicate CaughtUp(rows: seq<Row>, disk: Disk) {
    rows != [] ==> disk.generation == Newest(rows) && disk.synced == rows[|rows| - 1].data
  }

  /** Whatever was deleted before, a deploy that asks and downloads leaves the node caught up exactly when its
      generation was below the newest, or it was caught up already. */
  lemma DeployCatchesUpExactlyWhen(s: Settings, host: NodeId, events: seq<Event>, n: NodeId)
    requires NeverEmpty(s.sha)
    ensures var w := Run(s, host, events);
      CaughtUp(w.rows, DiskOf(Deployed(s, w, n), n)) <==>
        (DiskOf(w, n).generation < Newest(w.rows) || CaughtUp(w.rows, DiskOf(w, n)))
  {
    AlwaysSigned(s, host, events);
    DeployedDisk(s, Run(s, host, events), n);
  }

  lemma DeployedDisk(s: Settings, w: World, n: NodeId)
    requires Signed(s, w.rows) && NeverEmpty(s.sha)
    ensures var newest := Newest(w.rows);
      DiskOf(Deployed(s, w, n), n) ==
        if w.rows == [] || DiskOf(w, n).generation >= newest then DiskOf(w, n)
        else Disk(w.rows[|w.rows| - 1].data, newest, w.rows[|w.rows| - 1].data)
  {
    var asked := w.asked + [Answered(w, n)];
    assert asked[|w.asked|] == Answered(w, n);
  }

  function Highest(history: seq<Taken>): nat {
    if history == [] then 0
    else Max(Highest(history[..|history| - 1]), history[|history| - 1].generation)
  }

  ghost predicate Used(history: seq<Taken>, g: int) {
    exists i :: 0 <= i < |history| && history[i].generation == g
  }

  /** Generations in use ever since the start are those from 1 to the highest. */
  ghost predicate Contiguous(history: seq<Taken>) {
    forall g: int :: Used(history, g) <==> 1 <= g <= Highest(history)
  }

  ghost predicate NoGaps(rows: seq<Row>, history: seq<Taken>) {
    Ascending(rows) && Newest(rows) <= Highest(history) && Contiguous(history)
  }

  lemma OneMoreUsed(history: seq<Taken>, taken: Taken, g: int)
    ensures Used(history + [taken], g) <==> Used(history, g) || g == taken.generation
  {
    var more := history + [taken];
    if g == taken.generation { assert more[|history|].generation == g; }
    if Used(history, g) {
      var i :| 0 <= i < |history| && history[i].generation == g;
      assert more[i].generation == g;
    }
  }

  lemma StaysContiguous(history: seq<Taken>, taken: Taken)
    requires Contiguous(history) && 1 <= taken.generation <= Highest(history) + 1
    ensures Contiguous(history + [taken]) && Highest(history + [taken]) == Max(Highest(history), taken.generation)
  {
    assert (history + [taken])[..|history|] == history;
    forall g: int ensures Used(history + [taken], g) <==> 1 <= g <= Highest(history + [taken]) {
      OneMoreUsed(history, taken, g);
    }
  }

  lemma SaveLeavesNoGaps(s: Settings, w: World, node: NodeId, sha: string, data: Bytes)
    requires NoGaps(w.rows, w.history) && s.keep >= 1
    ensures var v := Save(s, w, node, sha, data); NoGaps(v.rows, v.history)
  {
    StoredAscends(w.rows, s.keep, node, sha, data);
    StaysContiguous(w.history, Taken(Newest(w.rows) + 1, data));
  }

  lemma DeletingLeavesNoGaps(rows: seq<Row>, history: seq<Taken>, i: nat)
    requires NoGaps(rows, history) && i < |rows|
    ensures NoGaps(rows[..i] + rows[i + 1..], history)
  {
    PartsAscend(rows, i, i + 1);
  }

  lemma OthersKeepRows(s: Settings, w: World, e: Event)
    requires !e.TakeSnapshot? && !e.RestoreRow? && !e.DeleteAt?
    ensures Next(s, w, e).rows == w.rows && Next(s, w, e).history == w.history
  {
  }

  lemma {:induction false} NeverAnyGaps(s: Settings, host: NodeId, events: seq<Event>)
    requires s.keep >= 1
    ensures NoGaps(Run(s, host, events).rows, Run(s, host, events).history)
  {
    if events != [] {
      var w := Run(s, host, events[..|events| - 1]);
      NeverAnyGaps(s, host, events[..|events| - 1]);
      match events[|events| - 1]
      case TakeSnapshot(n) => SaveLeavesNoGaps(s, w, n, s.sha(DiskOf(w, n).data), DiskOf(w, n).data);
      case RestoreRow(i) =>
        if i < |w.rows| { SaveLeavesNoGaps(s, w, w.rows[i].node, w.rows[i].sha, w.rows[i].data); }
      case DeleteAt(i) => if i < |w.rows| { DeletingLeavesNoGaps(w.rows, w.history, i); }
      case e => OthersKeepRows(s, w, e);
    }
  }

  /** Whatever was deleted before, the next snapshot gets a number never used exactly when the newest one ever taken is
      still stored. */
  lemma NextIsFreshExactlyWhen(s: Settings, host: NodeId, events: seq<Event>)
    requires s.keep >= 1
    ensures var w := Run(s, host, events);
      !Used(w.history, Newest(w.rows) + 1) <==> Newest(w.rows) == Highest(w.history)
  {
    NeverAnyGaps(s, host, events);
  }

  lemma SnapshotDeleted(s: Settings, m: NodeId, older: Bytes)
    requires s.keep >= 1 && 1 <= |older| <= s.maxBytes
    ensures Run(s, m, [] + [Write(m, older)] + [TakeSnapshot(m)] + [HearReply(0)] + [DeleteAt(0)]) ==
      World([], [Taken(1, older)], m, map[m := Disk(older, 1, older)], [], [Reply(m, 1, older)],
            [Uploaded(0, m, m, older)])
  {
    var w1 := Start(m).(disks := map[m := Disk(older, 0, "")]);
    var w2 := w1.(rows := [Row(1, m, s.sha(older), older)], history := [Taken(1, older)], replies := [Reply(m, 1, older)],
      uploads := [Uploaded(0, m, m, older)]);
    var w3 := w2.(disks := map[m := Disk(older, 1, older)]);
    RunOne(s, m, [], Write(m, older), w1);
    RunOne(s, m, [] + [Write(m, older)], TakeSnapshot(m), w2);
    RunOne(s, m, [] + [Write(m, older)] + [TakeSnapshot(m)], HearReply(0), w3);
    RunOne(s, m, [] + [Write(m, older)] + [TakeSnapshot(m)] + [HearReply(0)], DeleteAt(0), w3.(rows := []));
  }

  lemma NumberReused(s: Settings, w: World, m: NodeId, n: NodeId, newer: Bytes, before: seq<Event>)
    requires w == Run(s, m, before) && w.rows == [] && m != n && s.keep >= 1 && 1 <= |newer| <= s.maxBytes
    ensures var after := Run(s, m, before + [MoveTo(n)] + [Write(n, newer)] + [TakeSnapshot(n)] + [MoveTo(m)]);
      after.rows == [Row(1, n, s.sha(newer), newer)] && DiskOf(after, m) == DiskOf(w, m)
  {
    var moved := w.(host := n);
    var written := moved.(disks := w.disks[n := DiskOf(w, n).(data := newer)]);
    RunOne(s, m, before, MoveTo(n), moved);
    RunOne(s, m, before + [MoveTo(n)], Write(n, newer), written);
    var taken := Next(s, written, TakeSnapshot(n));
    assert taken.rows == [Row(1, n, s.sha(newer), newer)];
    RunOne(s, m, before + [MoveTo(n)] + [Write(n, newer)], TakeSnapshot(n), taken);
    RunOne(s, m, before + [MoveTo(n)] + [Write(n, newer)] + [TakeSnapshot(n)], MoveTo(m), taken.(host := m));
  }

  /** Once a number is used again, a node that holds the older snapshot of that number takes itself to be up to date:
      its deploy leaves it without the Hub's newest data. */
  lemma ReusedNumberIsMissed(s: Settings, m: NodeId, n: NodeId, older: Bytes, newer: Bytes)
    requires m != n && s.keep >= 1 && older != newer && 1 <= |older| <= s.maxBytes && 1 <= |newer| <= s.maxBytes
    ensures var w := Run(s, m, [Write(m, older), TakeSnapshot(m), HearReply(0), DeleteAt(0),
                               MoveTo(n), Write(n, newer), TakeSnapshot(n), MoveTo(m)]);
      w.rows == [Row(1, n, s.sha(newer), newer)] && DiskOf(Deployed(s, w, m), m) == Disk(older, 1, older)
  {
    var deleted := [] + [Write(m, older)] + [TakeSnapshot(m)] + [HearReply(0)] + [DeleteAt(0)];
    SnapshotDeleted(s, m, older);
    NumberReused(s, Run(s, m, deleted), m, n, newer, deleted);
    assert deleted + [MoveTo(n)] + [Write(n, newer)] + [TakeSnapshot(n)] + [MoveTo(m)] ==
      [Write(m, older), TakeSnapshot(m), HearReply(0), DeleteAt(0), MoveTo(n), Write(n, newer), TakeSnapshot(n), MoveTo(m)];
  }

  lemma RunOne(s: Settings, host: NodeId, events: seq<Event>, e: Event, after: World)
    requires Next(s, Run(s, host, events), e) == after
    ensures Run(s, host, events + [e]) == after
  {
    assert (events + [e])[..|events|] == events;
  }
}
