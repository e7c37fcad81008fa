/** The command line's tables: tab-separated columns aligned by what shows on screen, without color codes. */
module Table {
  import opened Text

  const ESC := '\U{1B}'

  // ---- how wide a text shows ----

  predicate IsParameter(c: char) {
    '0' <= c <= '9' || c == ';'
  }

  function ParametersEnd(s: string, k: nat): (e: nat)
    requires k <= |s|
    ensures k <= e <= |s| && (forall i :: k <= i < e ==> IsParameter(s[i])) && (e < |s| ==> !IsParameter(s[e]))
    decreases |s| - k
  {
    if k < |s| && IsParameter(s[k]) then ParametersEnd(s, k + 1) else k
  }

  /** The length of the color code s begins with, or 0. */
  function ColorCode(s: string): (n: nat)
    ensures n <= |s|
  {
    if |s| >= 2 && s[0] == ESC && s[1] == '[' then
      var e := ParametersEnd(s, 2);
      if e < |s| && s[e] == 'm' then e + 1 else 0
    else 0
  }

  /** The characters of s outside color codes. */
  function VisibleWidth(s: string): nat
    decreases |s|
  {
    if s == [] then 0
    else if ColorCode(s) > 0 then VisibleWidth(s[ColorCode(s)..])
    else 1 + VisibleWidth(s[1..])
  }

  lemma {:induction false} SameParameters(a: string, b: string, k: nat)
    requires k <= |a| && b != [] && b[0] == ' '
    ensures ParametersEnd(a + b, k) == ParametersEnd(a, k)
    decreases |a| - k
  {
    if k < |a| && IsParameter(a[k]) { SameParameters(a, b, k + 1); }
  }

  lemma SameCode(a: string, b: string)
    requires a != [] && b != [] && b[0] == ' '
    ensures ColorCode(a + b) == ColorCode(a)
  {
    if |a| >= 2 { SameParameters(a, b, 2); }
  }

  /** A space cannot be part of a color code, so the widths on either side of it add up. */
  lemma {:induction false} WidthsAdd(a: string, b: string)
    requires b != [] ==> b[0] == ' '
    ensures VisibleWidth(a + b) == VisibleWidth(a) + VisibleWidth(b)
    decreases |a|
  {
    if b == [] {
      assert a + b == a;
    } else if a == [] {
      assert a + b == b;
    } else {
      SameCode(a, b);
      var n := if ColorCode(a) > 0 then ColorCode(a) else 1;
      assert (a + b)[n..] == a[n..] + b;
      WidthsAdd(a[n..], b);
    }
  }

  lemma {:induction false} SpacesThen(n: nat, b: string)
    ensures VisibleWidth(Spaces(n) + b) == n + VisibleWidth(b)
  {
    if n == 0 {
      assert Spaces(0) + b == b;
    } else {
      var s := Spaces(n) + b;
      assert s[1..] == Spaces(n - 1) + b;
      SpacesThen(n - 1, b);
    }
  }

  /** A color code at the front: an escape, an opening bracket, digits and semicolons, and the letter m. */
  ghost predicate BeginsWithCode(s: string, params: string) {
    [ESC, '['] + params + "m" <= s && forall i :: 0 <= i < |params| ==> '0' <= params[i] <= '9' || params[i] == ';'
  }

  lemma {:induction false} ParametersAre(s: string, params: string, k: nat)
    requires BeginsWithCode(s, params) && 2 <= k <= |params| + 2
    ensures ParametersEnd(s, k) == |params| + 2
    decreases |params| + 2 - k
  {
    var code := [ESC, '['] + params + "m";
    assert s[|params| + 2] == code[|params| + 2] == 'm';
    if k < |params| + 2 {
      assert s[k] == code[k] == params[k - 2];
      ParametersAre(s, params, k + 1);
    }
  }

  lemma CodeIsFound(s: string, params: string)
    requires BeginsWithCode(s, params)
    ensures ColorCode(s) == |params| + 3
  {
    ParametersAre(s, params, 2);
    var code := [ESC, '['] + params + "m";
    assert s[0] == code[0] && s[1] == code[1] && s[|params| + 2] == code[|params| + 2];
  }

  lemma FoundIsCode(s: string)
    requires ColorCode(s) > 0
    ensures BeginsWithCode(s, s[2..ColorCode(s) - 1])
  {
    var p := s[2..ColorCode(s) - 1];
    assert [ESC, '['] + p + "m" == s[..ColorCode(s)];
  }

  /** A color code shows nothing, and any other character shows, also an escape that begins none. */
  lemma WidthIs(s: string, params: string)
    requires s != []
    ensures BeginsWithCode(s, params) ==> VisibleWidth(s) == VisibleWidth(s[|params| + 3..])
    ensures (forall p :: !BeginsWithCode(s, p)) ==> VisibleWidth(s) == 1 + VisibleWidth(s[1..])
  {
    if BeginsWithCode(s, params) { CodeIsFound(s, params); }
    if ColorCode(s) > 0 { FoundIsCode(s); }
  }

  // ---- column widths ----

  type Cells = c: seq<seq<string>> | forall i :: 0 <= i < |c| ==> c[i] != [] witness []

  /** Whether row i ends a cell in column c with a tab. */
  predicate Ends(cells: Cells, i: int, c: int) {
    0 <= i < |cells| && 0 <= c < |cells[i]| - 1
  }

  function Needed(cells: Cells, i: int, c: int): nat
    requires Ends(cells, i, c)
  {
    VisibleWidth(cells[i][c]) + 2
  }

  /** Rows i to j (in either order) all end a cell in column c. */
  ghost predicate Together(cells: Cells, c: int, i: int, j: int) {
    forall k :: i <= k <= j || j <= k <= i ==> Ends(cells, k, c)
  }

  ghost predicate Attained(cells: Cells, c: int, i: int, width: int) {
    exists j :: Ends(cells, j, c) && Together(cells, c, i, j) && Needed(cells, j, c) == width
  }

  ghost predicate Shaped(cells: Cells, widths: seq<seq<int>>) {
    |widths| == |cells| && forall i, c :: Ends(cells, i, c) ==> c < |widths[i]|
  }

  ghost predicate Enough(cells: Cells, widths: seq<seq<int>>)
    requires Shaped(cells, widths)
  {
    forall i, c :: Ends(cells, i, c) ==> widths[i][c] >= Needed(cells, i, c)
  }

  ghost predicate Shared(cells: Cells, widths: seq<seq<int>>)
    requires Shaped(cells, widths)
  {
    forall i, j, c :: j == i + 1 && Ends(cells, i, c) && Ends(cells, j, c) ==> widths[i][c] == widths[j][c]
  }

  ghost predicate Tight(cells: Cells, widths: seq<seq<int>>)
    requires Shaped(cells, widths)
  {
    forall i, c {:trigger Attained(cells, c, i, widths[i][c])} :: Ends(cells, i, c) ==> Attained(cells, c, i, widths[i][c])
  }

  /** The widths the columns must have: enough for each cell and two spaces, the same in neighbouring rows that both
      end a cell in the column, and no more than some row of that block needs. */
  ghost predicate AreWidths(cells: Cells, widths: seq<seq<int>>) {
    Shaped(cells, widths) && Enough(cells, widths) && Shared(cells, widths) && Tight(cells, widths)
  }

  lemma {:induction false} BlockSharesWidth(cells: Cells, widths: seq<seq<int>>, c: int, i: int, j: int)
    requires Shaped(cells, widths) && Shared(cells, widths) && i <= j && Together(cells, c, i, j)
    ensures Ends(cells, i, c) && Ends(cells, j, c) && widths[i][c] == widths[j][c]
    decreases j - i
  {
    assert Ends(cells, i, c) && Ends(cells, j, c);
    if i < j {
      assert Ends(cells, i + 1, c);
      BlockSharesWidth(cells, widths, c, i + 1, j);
    }
  }

  /** Those requirements fix the widths. */
  lemma WidthsAreUnique(cells: Cells, v: seq<seq<int>>, w: seq<seq<int>>, i: int, c: int)
    requires AreWidths(cells, v) && AreWidths(cells, w) && Ends(cells, i, c)
    ensures v[i][c] == w[i][c]
  {
    AtMostAs(cells, v, w, i, c);
    AtMostAs(cells, w, v, i, c);
  }

  lemma AtMostAs(cells: Cells, v: seq<seq<int>>, w: seq<seq<int>>, i: int, c: int)
    requires Shaped(cells, v) && Tight(cells, v) && Shaped(cells, w) && Enough(cells, w) && Shared(cells, w)
    requires Ends(cells, i, c)
    ensures v[i][c] <= w[i][c]
  {
    assert Attained(cells, c, i, v[i][c]);
    AtMost(cells, w, i, c, v[i][c]);
  }

  lemma AtMost(cells: Cells, w: seq<seq<int>>, i: int, c: int, width: int)
    requires Shaped(cells, w) && Enough(cells, w) && Shared(cells, w) && Ends(cells, i, c) && Attained(cells, c, i, width)
    ensures width <= w[i][c]
  {
    var j :| Ends(cells, j, c) && Together(cells, c, i, j) && Needed(cells, j, c) == width;
    if i <= j { BlockSharesWidth(cells, w, c, i, j); } else { BlockSharesWidth(cells, w, c, j, i); }
  }

  // ---- rendering ----

  ghost predicate Fits(row: seq<string>, widths: seq<int>) {
    row != [] && |row| - 1 <= |widths| && forall k :: 0 <= k < |row| - 1 ==> widths[k] >= VisibleWidth(row[k]) + 2
  }

  /** The first c cells of a row, each padded to its width. */
  ghost function Padded(row: seq<string>, widths: seq<int>, c: nat): string
    requires Fits(row, widths) && c < |row|
  {
    if c == 0 then []
    else Padded(row, widths, c - 1) + row[c - 1] + Spaces(widths[c - 1] - VisibleWidth(row[c - 1]))
  }

  ghost function Line(row: seq<string>, widths: seq<int>): string
    requires Fits(row, widths)
  {
    Padded(row, widths, |row| - 1) + row[|row| - 1]
  }

  ghost function Lines(cells: Cells, widths: seq<seq<int>>): (lines: seq<string>)
    requires AreWidths(cells, widths)
    ensures |lines| == |cells|
    ensures forall i :: 0 <= i < |cells| ==> Fits(cells[i], widths[i]) && lines[i] == Line(cells[i], widths[i])
  {
    RowsFit(cells, widths);
    seq(|cells|, i requires 0 <= i < |cells| => Line(cells[i], widths[i]))
  }

  lemma RowsFit(cells: Cells, widths: seq<seq<int>>)
    requires AreWidths(cells, widths)
    ensures forall i :: 0 <= i < |cells| ==> Fits(cells[i], widths[i])
  {
    forall i | 0 <= i < |cells| ensures Fits(cells[i], widths[i]) {
      forall k | 0 <= k < |cells[i]| - 1 ensures k < |widths[i]| && widths[i][k] >= VisibleWidth(cells[i][k]) + 2 {
        assert Ends(cells, i, k);
      }
      assert |cells[i]| > 1 ==> Ends(cells, i, |cells[i]| - 2);
    }
  }

  function Sum(widths: seq<int>, c: nat): int
    requires c <= |widths|
  {
    if c == 0 then 0 else Sum(widths, c - 1) + widths[c - 1]
  }

  /** What precedes a cell ends in a space, so no color code runs from one cell into the next. */
  lemma PrefixEndsInSpace(row: seq<string>, widths: seq<int>, c: nat, cell: string)
    requires Fits(row, widths) && c < |row|
    ensures VisibleWidth(Padded(row, widths, c) + cell) == VisibleWidth(Padded(row, widths, c)) + VisibleWidth(cell)
  {
    if c == 0 {
      assert Padded(row, widths, 0) + cell == cell;
    } else {
      var before := Padded(row, widths, c - 1) + row[c - 1];
      var pad := Spaces(widths[c - 1] - VisibleWidth(row[c - 1]));
      assert Padded(row, widths, c) + cell == before + (pad + cell);
      WidthsAdd(before, pad + cell);
      WidthsAdd(before, pad);
      SpacesThen(|pad|, cell);
      SpacesThen(|pad|, []);
      assert pad + [] == pad;
    }
  }

  lemma PadWidth(n: nat)
    ensures VisibleWidth(Spaces(n)) == n
  {
    SpacesThen(n, []);
    assert Spaces(n) + [] == Spaces(n);
  }

  lemma PaddedCell(before: string, cell: string, n: nat, sum: int)
    requires VisibleWidth(before) == sum && VisibleWidth(before + cell) == sum + VisibleWidth(cell)
    ensures VisibleWidth(before + cell + Spaces(n)) == sum + VisibleWidth(cell) + n
  {
    PadWidth(n);
    WidthsAdd(before + cell, Spaces(n));
  }

  lemma PaddedOnce(row: seq<string>, widths: seq<int>, c: nat, sum: int)
    requires Fits(row, widths) && 0 < c < |row| && VisibleWidth(Padded(row, widths, c - 1)) == sum
    ensures VisibleWidth(Padded(row, widths, c)) == sum + widths[c - 1]
  {
    assert Padded(row, widths, c) ==
      Padded(row, widths, c - 1) + row[c - 1] + Spaces(widths[c - 1] - VisibleWidth(row[c - 1]));
    PrefixEndsInSpace(row, widths, c - 1, row[c - 1]);
    PaddedCell(Padded(row, widths, c - 1), row[c - 1], widths[c - 1] - VisibleWidth(row[c - 1]), sum);
  }

  /** A row's column c starts as far in as the widths of the columns before it. */
  lemma {:induction false} PaddedWidth(row: seq<string>, widths: seq<int>, c: nat)
    requires Fits(row, widths) && c < |row|
    ensures VisibleWidth(Padded(row, widths, c)) == Sum(widths, c)
    decreases c
  {
    if c > 0 {
      PaddedWidth(row, widths, c - 1);
      PaddedOnce(row, widths, c, Sum(widths, c - 1));
    }
  }

  lemma {:induction false} SameSums(v: seq<int>, w: seq<int>, c: nat)
    requires c <= |v| && c <= |w| && forall k :: 0 <= k < c ==> v[k] == w[k]
    ensures Sum(v, c) == Sum(w, c)
    decreases c
  {
    if c > 0 { SameSums(v, w, c - 1); }
  }

  lemma {:induction false} PaddedIsPrefix(row: seq<string>, widths: seq<int>, c: nat, d: nat)
    requires Fits(row, widths) && c <= d < |row|
    ensures Padded(row, widths, c) <= Padded(row, widths, d)
    ensures c < d ==> Padded(row, widths, c) + row[c] <= Padded(row, widths, d)
    decreases d
  {
    if c < d {
      var more := Padded(row, widths, d - 1) + row[d - 1];
      assert more <= Padded(row, widths, d);
      PaddedIsPrefix(row, widths, c, d - 1);
      assert c < d - 1 ==> Padded(row, widths, c) + row[c] <= Padded(row, widths, d - 1) <= more;
    }
  }

  lemma PaddingShows(before: string, n: nat)
    requires n >= 2
    ensures EndsWith(before + Spaces(n), "  ")
  {
    var p := before + Spaces(n);
    assert p[|p| - 2..] == "  ";
  }

  lemma PaddedEndsInSpaces(row: seq<string>, widths: seq<int>, c: nat)
    requires Fits(row, widths) && 0 < c < |row|
    ensures EndsWith(Padded(row, widths, c), "  ")
  {
    PaddingShows(Padded(row, widths, c - 1) + row[c - 1], widths[c - 1] - VisibleWidth(row[c - 1]));
  }

  lemma CellIsOnLine(row: seq<string>, widths: seq<int>, c: nat)
    requires Fits(row, widths) && c < |row|
    ensures Padded(row, widths, c) + row[c] <= Line(row, widths)
  {
    PaddedIsPrefix(row, widths, c, |row| - 1);
  }

  lemma CellStarts(row: seq<string>, widths: seq<int>, c: nat)
    requires Fits(row, widths) && 0 < c < |row|
    ensures VisibleWidth(Padded(row, widths, c)) == Sum(widths, c)
    ensures EndsWith(Padded(row, widths, c), "  ")
    ensures Padded(row, widths, c) + row[c] <= Line(row, widths)
  {
    PaddedWidth(row, widths, c);
    PaddedEndsInSpaces(row, widths, c);
    CellIsOnLine(row, widths, c);
  }

  /** Alignment: wherever two neighbouring rows both end a cell in column c, the text that follows starts at the same
      place on both lines, as it shows on screen; and at least two spaces separate it from that cell. */
  lemma NeighboursAlign(cells: Cells, widths: seq<seq<int>>, i: int, c: int)
    requires AreWidths(cells, widths) && Ends(cells, i, c) && Ends(cells, i + 1, c)
    ensures Fits(cells[i], widths[i]) && Fits(cells[i + 1], widths[i + 1])
    ensures var a, b := Padded(cells[i], widths[i], c + 1), Padded(cells[i + 1], widths[i + 1], c + 1);
      VisibleWidth(a) == VisibleWidth(b) && EndsWith(a, "  ") && EndsWith(b, "  ") &&
      a + cells[i][c + 1] <= Line(cells[i], widths[i]) && b + cells[i + 1][c + 1] <= Line(cells[i + 1], widths[i + 1])
  {
    RowsFit(cells, widths);
    SharedPrefix(cells, widths, i, c + 1);
    CellStarts(cells[i], widths[i], c + 1);
    CellStarts(cells[i + 1], widths[i + 1], c + 1);
  }

  lemma SharedPrefix(cells: Cells, widths: seq<seq<int>>, i: int, c: nat)
    requires Shaped(cells, widths) && Shared(cells, widths) && c > 0 && Ends(cells, i, c - 1) && Ends(cells, i + 1, c - 1)
    ensures c <= |widths[i]| && c <= |widths[i + 1]| && Sum(widths[i], c) == Sum(widths[i + 1], c)
  {
    forall k | 0 <= k < c ensures widths[i][k] == widths[i + 1][k] {
      assert Ends(cells, i, k) && Ends(cells, i + 1, k);
    }
    SameSums(widths[i], widths[i + 1], c);
  }

  // ---- the table ----

  /** What column c must be once it has been filled for the rows below k. */
  ghost predicate Filled(cells: Cells, column: seq<int>, c: int, k: int)
    requires k <= |column|
  {
    (forall i {:trigger BlockWidth(cells, c, i, column[i])} :: 0 <= i < k && Ends(cells, i, c) ==>
      BlockWidth(cells, c, i, column[i])) &&
    (forall i, j :: 0 <= i && j == i + 1 && j < k && Ends(cells, i, c) && Ends(cells, j, c) ==> column[i] == column[j])
  }

  lemma FilledPast(cells: Cells, column: seq<int>, c: int, start: int)
    requires 0 <= start < |column| == |cells| && Filled(cells, column, c, start) && !Ends(cells, start, c)
    ensures Filled(cells, column, c, start + 1)
  {
  }

  lemma FilledFurther(cells: Cells, before: seq<int>, column: seq<int>, c: int, start: int, end: int, width: int)
    requires 0 <= start < end <= |column| == |before| == |cells| && Filled(cells, before, c, start)
    requires forall i :: 0 <= i < start ==> column[i] == before[i]
    requires start > 0 ==> !Ends(cells, start - 1, c)
    requires forall k :: start <= k < end ==> column[k] == width && BlockWidth(cells, c, k, width)
    ensures Filled(cells, column, c, end)
  {
    forall i | 0 <= i < end && Ends(cells, i, c)
      ensures BlockWidth(cells, c, i, column[i])
    {
      assert i >= start ==> BlockWidth(cells, c, i, width);
    }
  }

  /** Row k ends a cell in column c that fits in width, and some row of its block needs all of width. */
  ghost predicate BlockWidth(cells: Cells, c: int, k: int, width: int) {
    Ends(cells, k, c) && Needed(cells, k, c) <= width && Attained(cells, c, k, width)
  }

  ghost function Column(w: array2<int>, c: nat): (s: seq<int>)
    requires c < w.Length1
    reads w
    ensures |s| == w.Length0 && forall i :: 0 <= i < |s| ==> s[i] == w[i, c]
  {
    seq(w.Length0, i requires 0 <= i < w.Length0 reads w => w[i, c])
  }

  ghost function RowWidths(w: array2<int>, i: nat): (s: seq<int>)
    requires i < w.Length0
    reads w
    ensures |s| == w.Length1 && forall c :: 0 <= c < |s| ==> s[c] == w[i, c]
  {
    seq(w.Length1, c requires 0 <= c < w.Length1 reads w => w[i, c])
  }

  ghost function AllWidths(w: array2<int>): (s: seq<seq<int>>)
    reads w
    ensures |s| == w.Length0 && forall i :: 0 <= i < |s| ==> s[i] == RowWidths(w, i)
  {
    seq(w.Length0, i requires 0 <= i < w.Length0 reads w => RowWidths(w, i))
  }

  /** Sets rows start to end of column c. */
  method FillBlock(w: array2<int>, c: nat, start: nat, end: nat, width: int)
    requires start <= end <= w.Length0 && c < w.Length1
    modifies w
    ensures forall i, d :: 0 <= i < w.Length0 && 0 <= d < w.Length1 ==>
      w[i, d] == if d == c && start <= i < end then width else old(w[i, d])
  {
    var i := start;
    while i < end
      invariant start <= i <= end
      invariant forall k, d :: 0 <= k < w.Length0 && 0 <= d < w.Length1 ==>
        w[k, d] == if d == c && start <= k < i then width else old(w[k, d])
    {
      w[i, c] := width;
      i := i + 1;
    }
  }

  /** Fills one column: each block of neighbouring rows that end a cell in it gets the width its widest cell needs. */
  method FillColumn(cells: Cells, w: array2<int>, c: nat)
    requires w.Length0 == |cells| && c < w.Length1
    modifies w
    ensures Filled(cells, Column(w, c), c, |cells|)
    ensures forall i, d :: 0 <= i < w.Length0 && 0 <= d < w.Length1 && d != c ==> w[i, d] == old(w[i, d])
  {
    var start := 0;
    ghost var column := Column(w, c);
    while start < |cells|
      invariant 0 <= start <= |cells| && |column| == |cells| && Filled(cells, column, c, start)
      invariant column == Column(w, c)
      invariant 0 < start < |cells| ==> !Ends(cells, start, c) || !Ends(cells, start - 1, c)
      invariant forall i, d :: 0 <= i < w.Length0 && 0 <= d < w.Length1 && d != c ==> w[i, d] == old(w[i, d])
    {
      if |cells[start]| - 1 <= c {
        FilledPast(cells, column, c, start);
        start := start + 1;
        continue;
      }
      var end, width := Block(cells, c, start);
      FillBlock(w, c, start, end, width);
      FilledFurther(cells, column, Column(w, c), c, start, end, width);
      column := Column(w, c);
      start := end;
    }
  }

  /** The block that begins at start, and the width its widest cell needs. */
  method Block(cells: Cells, c: nat, start: nat) returns (end: nat, width: int)
    requires Ends(cells, start, c)
    ensures start < end <= |cells| && (end < |cells| ==> !Ends(cells, end, c))
    ensures forall k :: start <= k < end ==> BlockWidth(cells, c, k, width)
  {
    end, width := start, 0;
    ghost var widest := start;
    while end < |cells| && |cells[end]| - 1 > c
      invariant start <= end <= |cells| && forall k :: start <= k < end ==> Ends(cells, k, c)
      invariant forall k :: start <= k < end ==> Needed(cells, k, c) <= width
      invariant end == start ==> width == 0
      invariant end > start ==> start <= widest < end && Needed(cells, widest, c) == width
    {
      var needed := VisibleWidth(cells[end][c]) + 2;
      if needed > width {
        width := needed;
        widest := end;
      }
      end := end + 1;
    }
    forall k | start <= k < end ensures BlockWidth(cells, c, k, width) {
      assert Ends(cells, widest, c) && Together(cells, c, k, widest);
    }
  }

  lemma ColumnsAreWidths(cells: Cells, widths: seq<seq<int>>, columns: seq<seq<int>>)
    requires |widths| == |cells| && forall i :: 0 <= i < |cells| ==>
      |widths[i]| == |columns| && |cells[i]| - 1 <= |columns|
    requires forall c :: 0 <= c < |columns| ==> |columns[c]| == |cells| && Filled(cells, columns[c], c, |cells|)
    requires forall i, c :: 0 <= i < |cells| && 0 <= c < |columns| ==> widths[i][c] == columns[c][i]
    ensures AreWidths(cells, widths)
  {
    forall i, c | Ends(cells, i, c)
      ensures c < |widths[i]| && widths[i][c] >= Needed(cells, i, c) && Attained(cells, c, i, widths[i][c])
    {
      assert Filled(cells, columns[c], c, |cells|);
      assert BlockWidth(cells, c, i, columns[c][i]);
    }
    forall i, j, c | j == i + 1 && Ends(cells, i, c) && Ends(cells, j, c) ensures widths[i][c] == widths[j][c] {
      assert Filled(cells, columns[c], c, |cells|);
    }
  }

  method Widths(cells: Cells) returns (w: array2<int>)
    ensures fresh(w) && w.Length0 == |cells| && AreWidths(cells, AllWidths(w))
  {
    var columns := 0;
    var i := 0;
    while i < |cells|
      invariant 0 <= i <= |cells| && columns >= 0
      invariant forall k :: 0 <= k < i ==> |cells[k]| - 1 <= columns
    {
      if |cells[i]| - 1 > columns {
        columns := |cells[i]| - 1;
      }
      i := i + 1;
    }
    w := new int[|cells|, columns];
    var c := 0;
    while c < columns
      invariant 0 <= c <= columns
      invariant forall d :: 0 <= d < c ==> Filled(cells, Column(w, d), d, |cells|)
    {
      label Before:
      FillColumn(cells, w, c);
      assert forall d :: 0 <= d < c ==> Column(w, d) == old@Before(Column(w, d));
      c := c + 1;
    }
    ghost var all := seq(columns, d requires 0 <= d < columns reads w => Column(w, d));
    ColumnsAreWidths(cells, AllWidths(w), all);
  }

  /** The cells of a text: its lines, without the newline that ends the last, each cut at its tabs. */
  ghost function CellsOf(text: string): Cells {
    var rows := Split(WithoutNewline(text), '\n');
    seq(|rows|, i requires 0 <= i < |rows| => Split(rows[i], '\t'))
  }

  function WithoutNewline(text: string): string {
    if EndsWith(text, "\n") then text[..|text| - 1] else text
  }

  ghost function Newline(text: string): string {
    if EndsWith(text, "\n") then "\n" else ""
  }

  lemma {:induction false} JoinSnoc(parts: seq<string>, last: string, sep: string)
    requires parts != []
    ensures Join(parts + [last], sep) == Join(parts, sep) + sep + last
  {
    if |parts| == 1 {
      assert (parts + [last])[1..] == [last];
    } else {
      assert (parts + [last])[1..] == parts[1..] + [last];
      JoinSnoc(parts[1..], last, sep);
    }
  }

  /** The cells put together again, with a tab after each but a row's last and a newline after each row but the last,
      are the text without the newline at its end; and no cell holds a tab or a newline. */
  lemma CellsMakeText(text: string)
    ensures var cells := CellsOf(text);
      var rows := seq(|cells|, i requires 0 <= i < |cells| => Join(cells[i], "\t"));
      text == Join(rows, "\n") + (if text != "" && text[|text| - 1] == '\n' then "\n" else "")
    ensures forall row, cell :: row in CellsOf(text) && cell in row ==> '\t' !in cell && '\n' !in cell
  {
    var rows := Split(WithoutNewline(text), '\n');
    SplitJoins(WithoutNewline(text), '\n');
    PartsAreClean(WithoutNewline(text), '\n');
    forall i | 0 <= i < |rows|
      ensures Join(CellsOf(text)[i], "\t") == rows[i]
      ensures forall cell :: cell in CellsOf(text)[i] ==> '\t' !in cell && '\n' !in cell
    {
      SplitJoins(rows[i], '\t');
      PartsAreClean(rows[i], '\t');
      PartsComeFrom(rows[i], '\t', '\n');
    }
    var cells := CellsOf(text);
    assert seq(|cells|, i requires 0 <= i < |cells| => Join(cells[i], "\t")) == rows;
  }

  method RenderRow(row: seq<string>, w: array2<int>, i: nat, ghost widths: seq<int>) returns (line: string)
    requires i < w.Length0 && widths == RowWidths(w, i) && Fits(row, widths)
    ensures line == Line(row, widths)
  {
    line := "";
    var col := 0;
    while col < |row| - 1
      invariant 0 <= col < |row| && line == Padded(row, widths, col)
    {
      line := line + row[col] + Spaces(w[i, col] - VisibleWidth(row[col]));
      col := col + 1;
    }
    line := line + row[col];
  }

  method Render(cells: Cells, w: array2<int>, endsLine: bool, ghost lines: seq<string>) returns (text: string)
    requires 0 < |cells| == w.Length0 == |lines|
    requires forall i :: 0 <= i < |cells| ==> Fits(cells[i], RowWidths(w, i)) && lines[i] == Line(cells[i], RowWidths(w, i))
    ensures text == Join(lines, "\n") + if endsLine then "\n" else ""
  {
    text := "";
    var i := 0;
    while i < |cells|
      invariant 0 <= i <= |cells|
      invariant text == Ending(Join(lines[..i], "\n"), i > 0 && (i < |cells| || endsLine))
    {
      var line := RenderRow(cells[i], w, i, RowWidths(w, i));
      NextLine(lines, i);
      text := text + line;
      if i < |cells| - 1 || endsLine {
        text := text + "\n";
      }
      i := i + 1;
    }
    assert lines[..|cells|] == lines;
  }

  ghost function Ending(text: string, newline: bool): string {
    text + if newline then "\n" else ""
  }

  lemma NextLine(lines: seq<string>, i: nat)
    requires i < |lines|
    ensures Join(lines[..i + 1], "\n") == Ending(Join(lines[..i], "\n"), i > 0) + lines[i]
  {
    assert lines[..i + 1] == lines[..i] + [lines[i]];
    if i > 0 { JoinSnoc(lines[..i], lines[i], "\n"); }
  }

  method Layout(cells: Cells, endsLine: bool) returns (text: string, ghost widths: seq<seq<int>>)
    requires cells != []
    ensures AreWidths(cells, widths)
    ensures text == Join(Lines(cells, widths), "\n") + if endsLine then "\n" else ""
  {
    var w := Widths(cells);
    widths := AllWidths(w);
    text := Render(cells, w, endsLine, Lines(cells, widths));
  }

  /** printed is the table of text, laid out with these widths: its padded lines and nothing else. */
  ghost predicate Prints(text: string, widths: seq<seq<int>>, printed: string) {
    AreWidths(CellsOf(text), widths) && printed == Join(Lines(CellsOf(text), widths), "\n") + Newline(text)
  }

  lemma {:induction false} SamePadding(row: seq<string>, v: seq<int>, w: seq<int>, c: nat)
    requires Fits(row, v) && Fits(row, w) && c < |row| && forall k :: 0 <= k < c ==> v[k] == w[k]
    ensures Padded(row, v, c) == Padded(row, w, c)
  {
    if c > 0 { SamePadding(row, v, w, c - 1); }
  }

  lemma SameLine(cells: Cells, v: seq<seq<int>>, w: seq<seq<int>>, i: nat)
    requires AreWidths(cells, v) && AreWidths(cells, w) && i < |cells|
    requires Fits(cells[i], v[i]) && Fits(cells[i], w[i])
    ensures Line(cells[i], v[i]) == Line(cells[i], w[i])
  {
    var row := cells[i];
    forall k | 0 <= k < |row| - 1 ensures v[i][k] == w[i][k] {
      WidthsAreUnique(cells, v, w, i, k);
    }
    SamePadding(row, v[i], w[i], |row| - 1);
  }

  lemma SameLines(cells: Cells, v: seq<seq<int>>, w: seq<seq<int>>)
    requires AreWidths(cells, v) && AreWidths(cells, w)
    ensures Lines(cells, v) == Lines(cells, w)
  {
    RowsFit(cells, v);
    RowsFit(cells, w);
    forall i | 0 <= i < |cells| ensures Lines(cells, v)[i] == Lines(cells, w)[i] {
      SameLine(cells, v, w, i);
    }
  }

  /** A text has one table only: what AreWidths asks settles every printed character. */
  lemma OneTable(text: string, v: seq<seq<int>>, w: seq<seq<int>>, a: string, b: string)
    requires Prints(text, v, a) && Prints(text, w, b)
    ensures a == b
  {
    SameLines(CellsOf(text), v, w);
  }

  method Print(text: string) returns (printed: string, ghost widths: seq<seq<int>>)
    requires text != ""
    ensures Prints(text, widths, printed)
  {
    var endsLine := EndsWith(text, "\n");
    var rows := Split(WithoutNewline(text), '\n');
    var cells := CutRows(rows);
    assert cells == CellsOf(text);
    printed, widths := Layout(cells, endsLine);
  }

  method CutRows(rows: seq<string>) returns (cells: seq<seq<string>>)
    ensures |cells| == |rows| && forall i :: 0 <= i < |rows| ==> cells[i] == Split(rows[i], '\t')
  {
    cells := [];
    var i := 0;
    while i < |rows|
      invariant 0 <= i == |cells| <= |rows|
      invariant forall k :: 0 <= k < i ==> cells[k] == Split(rows[k], '\t')
    {
      cells := cells + [Split(rows[i], '\t')];
      i := i + 1;
    }
  }

  class Table {
    var buf: string
    var out: string

    constructor ()
      ensures buf == "" && out == ""
    {
      buf, out := "", "";
    }

    method Write(p: string)
      modifies this`buf
      ensures buf == old(buf) + p
    {
      buf := buf + p;
    }

    /** Prints the table written so far, with widths that meet AreWidths, and empties the buffer. */
    method Flush() returns (ghost widths: seq<seq<int>>)
      modifies this
      ensures buf == ""
      ensures old(buf) == "" ==> out == old(out)
      ensures old(buf) != "" ==> old(out) <= out && Prints(old(buf), widths, out[|old(out)|..])
    {
      var text := buf;
      buf := "";
      widths := [];
      if text == "" {
        return;
      }
      var printed;
      printed, widths := Print(text);
      out := out + printed;
      assert out[|old(out)|..] == printed;
    }
  }
}
