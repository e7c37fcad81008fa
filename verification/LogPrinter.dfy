/** Following a job's log on the command line: whole lines as they arrive, without the agent's header and footer. */
module LogPrinter {
  import opened Text

  const JOB_BANNER := Repeat('=', 36)
  const HEADER_END := JOB_BANNER + "\n\n"
  const HEADER_WAIT := 3

  // ---- what should be printed ----

  predicate Footer(line: string) {
    TrimSpace(line) == JOB_BANNER || "Completed at:" <= line
  }

  function Shown(line: string): string {
    if Footer(line) then "" else line + "\n"
  }

  function ShownLines(lines: seq<string>): string {
    Glue(lines, Shown)
  }

  function Glue(lines: seq<string>, show: string -> string): string {
    if lines == [] then "" else Glue(ButLast(lines), show) + show(Last(lines))
  }

  /** The lines of a text, the last of which may lack its newline, except footer lines. */
  function Filtered(text: string): string {
    FilteredLines(Split(text, '\n'))
  }

  function FilteredLines(lines: seq<string>): string
    requires lines != []
  {
    Glue(ButLast(lines), Shown) + if Last(lines) == "" then "" else Shown(Last(lines))
  }

  /** The agent's footer begins with a line of 36 equals signs, and nothing else but white space around them, and one
      that says when the job completed. */
  lemma FooterExactlyWhen(line: string)
    ensures Footer(line) <==>
      (exists more: string :: line == "Completed at:" + more) ||
      exists before: string, after: string :: IsRule(line, before, after)
  {
    if more: string :| line == "Completed at:" + more { assert "Completed at:" <= line; }
    if "Completed at:" <= line { assert line == "Completed at:" + line[|"Completed at:"|..]; }
    var before, after := Trims(line);
    if TrimSpace(line) == JOB_BANNER { assert IsRule(line, before, after); }
    forall b: string, a: string | IsRule(line, b, a) ensures TrimSpace(line) == JOB_BANNER { RuleIsTrimmed(line, b, a); }
  }

  ghost predicate IsRule(line: string, before: string, after: string) {
    line == before + "====================================" + after && Blank(before) && Blank(after)
  }

  lemma RuleIsTrimmed(line: string, before: string, after: string)
    requires IsRule(line, before, after)
    ensures TrimSpace(line) == JOB_BANNER
  {
    assert JOB_BANNER == "====================================";
    TrimsBefore(before, JOB_BANNER + after);
    TrimsAfter(JOB_BANNER, after);
    assert line == before + (JOB_BANNER + after);
  }

  /** Nothing is lost of a text without a footer, and its last line gets its newline. */
  lemma NothingElseIsDropped(text: string)
    requires forall line :: line in Split(text, '\n') ==> !Footer(line)
    ensures Filtered(text) == if text == "" || text[|text| - 1] == '\n' then text else text + "\n"
  {
    var last := Last(Split(text, '\n'));
    assert last in Split(text, '\n');
    PartsAreClean(text, '\n');
    WholeLines(text);
    FilteredEnds(text);
    LastLine(ShownLines(ButLast(Split(text, '\n'))), last);
  }

  lemma FilteredEnds(text: string)
    requires !Footer(Last(Split(text, '\n')))
    ensures var lines := Split(text, '\n');
      Filtered(text) == ShownLines(ButLast(lines)) + if Last(lines) == "" then "" else Last(lines) + "\n"
  {
  }

  lemma LastLine(whole: string, last: string)
    requires whole == "" || whole[|whole| - 1] == '\n'
    requires '\n' !in last
    ensures var text := whole + last;
      whole + (if last == "" then "" else last + "\n") ==
        if text == "" || text[|text| - 1] == '\n' then text else text + "\n"
  {
    var text := whole + last;
    if last == "" {
      assert text == whole;
    } else {
      assert text[|text| - 1] == last[|last| - 1];
      Associate(whole, last, "\n");
    }
  }

  lemma WholeLines(text: string)
    requires forall line :: line in Split(text, '\n') ==> !Footer(line)
    ensures var lines := Split(text, '\n');
      var whole := ShownLines(ButLast(lines));
      text == whole + Last(lines) && (whole == "" || whole[|whole| - 1] == '\n')
  {
    var lines := Split(text, '\n');
    SplitJoins(text, '\n');
    LinesAreJoined(ButLast(lines));
    JoinsLast(lines);
  }

  lemma {:induction false} LinesAreJoined(lines: seq<string>)
    requires forall line :: line in lines ==> !Footer(line)
    ensures ShownLines(lines) == Join(lines, "\n") + if lines == [] then "" else "\n"
    decreases |lines|
  {
    if lines != [] {
      LinesAreJoined(ButLast(lines));
      JoinsLast(lines);
      assert Last(lines) in lines;
    }
  }

  lemma {:induction false} JoinsLast(lines: seq<string>)
    requires lines != []
    ensures Join(lines, "\n") == Join(ButLast(lines), "\n") + (if |lines| == 1 then "" else "\n") + Last(lines)
  {
    if |lines| > 1 {
      JoinsLast(lines[1..]);
      assert ButLast(lines)[1..] == ButLast(lines[1..]);
      var rest := lines[1..];
      Associate(lines[0], "\n", Join(ButLast(rest), "\n") + (if |rest| == 1 then "" else "\n") + Last(rest));
    }
  }

  /** What follows the first line of equals signs and the empty line under it is the job's own output. */
  lemma HeaderEnds(head: string, body: string)
    requires var text := head + "====================================\n\n" + body;
      forall i :: 0 <= i < |head| ==> !At(text, "====================================\n\n", i)
    ensures BodyOf(head + "====================================\n\n" + body) == body
  {
    var text := head + "====================================\n\n" + body;
    assert JOB_BANNER == "====================================";
    assert HEADER_END == "====================================\n\n";
    assert At(text, HEADER_END, |head|);
    FindsFirst(text, HEADER_END, 0);
  }

  function Concat(chunks: seq<string>): string {
    if chunks == [] then "" else Concat(chunks[..|chunks| - 1]) + chunks[|chunks| - 1]
  }

  function FirstChunks(chunks: seq<string>): seq<string> {
    if |chunks| <= HEADER_WAIT then chunks else chunks[..HEADER_WAIT]
  }

  /** What follows the header, if its end shows within the first chunks; otherwise everything. */
  function Body(chunks: seq<string>): string
  {
    ConcatPrefix(chunks, |FirstChunks(chunks)|);
    Concat(chunks)[BodyStart(Concat(FirstChunks(chunks)))..]
  }

  function BodyStart(text: string): (i: nat)
    ensures i <= |text|
  {
    if Has(text) then Find(text, HEADER_END) + |HEADER_END| else 0
  }

  predicate Has(text: string) {
    Find(text, HEADER_END) >= 0
  }

  /** What follows the header of a whole text, however it was cut. */
  function BodyOf(text: string): string {
    text[BodyStart(text)..]
  }

  lemma {:induction false} ConcatPrefix(chunks: seq<string>, k: nat)
    requires k <= |chunks|
    ensures Concat(chunks[..k]) <= Concat(chunks)
    decreases |chunks|
  {
    if k < |chunks| {
      var fewer := chunks[..|chunks| - 1];
      assert fewer[..k] == chunks[..k];
      ConcatPrefix(fewer, k);
    } else {
      assert chunks[..k] == chunks;
    }
  }

  lemma ConcatSnoc(chunks: seq<string>, chunk: string)
    ensures Concat(chunks + [chunk]) == Concat(chunks) + chunk
  {
    assert (chunks + [chunk])[..|chunks|] == chunks;
  }

  lemma SameFirst(chunks: seq<string>, chunk: string)
    ensures FirstChunks(chunks + [chunk]) == if |chunks| >= HEADER_WAIT then FirstChunks(chunks) else chunks + [chunk]
  {
  }

  lemma SameStart(chunks: seq<string>, chunk: string)
    requires |chunks| >= HEADER_WAIT || Has(Concat(chunks))
    ensures BodyStart(Concat(FirstChunks(chunks + [chunk]))) == BodyStart(Concat(FirstChunks(chunks)))
  {
    SameFirst(chunks, chunk);
    if |chunks| < HEADER_WAIT {
      ConcatSnoc(chunks, chunk);
      StartStays(Concat(chunks), chunk);
    }
  }

  lemma StartStays(a: string, b: string)
    requires Has(a)
    ensures BodyStart(a + b) == BodyStart(a)
  {
    FindStays(a, a + b, HEADER_END);
  }

  lemma BodyFrom(chunks: seq<string>, i: nat)
    requires i == BodyStart(Concat(FirstChunks(chunks)))
    ensures i <= |Concat(chunks)| && Body(chunks) == Concat(chunks)[i..]
  {
    ConcatPrefix(chunks, |FirstChunks(chunks)|);
  }

  lemma BodyGrows(chunks: seq<string>, chunk: string)
    requires |chunks| >= HEADER_WAIT || Has(Concat(chunks))
    ensures Body(chunks + [chunk]) == Body(chunks) + chunk
  {
    var i := BodyStart(Concat(FirstChunks(chunks)));
    SameStart(chunks, chunk);
    ConcatSnoc(chunks, chunk);
    BodyFrom(chunks, i);
    BodyFrom(chunks + [chunk], i);
    DropGrows(Concat(chunks), chunk, i);
  }

  lemma DropGrows(a: string, b: string, i: nat)
    requires i <= |a|
    ensures (a + b)[i..] == a[i..] + b
  {
  }

  // ---- the printer ----

  /** The state of the printer once the chunks in received have been written to it. */
  ghost predicate Follows(received: seq<string>, rest: string, inHead: bool, seen: int, out: string) {
    inHead == (|received| < HEADER_WAIT && !Has(Concat(received))) &&
    (inHead ==> rest == Concat(received) && seen == |received| && out == "") &&
    (!inHead ==> LinesPrinted(Body(received), "", rest, out))
  }

  /** Out of a text, its whole lines have been printed after before, and rest is what follows the last newline. */
  ghost predicate LinesPrinted(text: string, before: string, rest: string, out: string) {
    var lines := Split(text, '\n');
    out == before + ShownLines(ButLast(lines)) && rest == Last(lines)
  }

  lemma LineTaken(text: string, done: seq<string>, rest: string, i: nat)
    requires Split(text, '\n') == done + Split(rest, '\n')
    requires i < |rest| && rest[i] == '\n' && '\n' !in rest[..i]
    ensures Split(text, '\n') == done + [rest[..i]] + Split(rest[i + 1..], '\n')
  {
    SplitFirst(rest, '\n', i);
  }

  class Printer {
    var rest: string
    var inHead: bool
    var seen: int
    var out: string
    ghost var received: seq<string>

    ghost predicate Valid() reads this {
      Follows(received, rest, inHead, seen, out)
    }

    constructor ()
      ensures Valid() && received == [] && out == ""
    {
      rest, inHead, seen, out, received := "", true, 0, "", [];
    }

    method Write(chunk: string)
      requires Valid()
      modifies this
      ensures Valid() && received == old(received) + [chunk]
    {
      received := received + [chunk];
      ConcatSnoc(old(received), chunk);
      rest := rest + chunk;
      if inHead {
        seen := seen + 1;
        var i := Find(rest, HEADER_END);
        if i >= 0 {
          rest, inHead := rest[i + |HEADER_END|..], false;
        } else if seen >= HEADER_WAIT {
          inHead := false;
        } else {
          return;
        }
        PrintLines();
        HeaderIsOver(received, rest, seen, out);
      } else {
        PrintLines();
        FollowsOn(old(received), old(rest), seen, old(out), chunk, rest, out);
      }
    }

    /** Prints the whole lines of rest. */
    method PrintLines()
      modifies this`rest, this`out
      ensures LinesPrinted(old(rest), old(out), rest, out)
    {
      ghost var done := [];
      assert old(out) + "" == old(out);
      while NewlineAt(rest) >= 0
        invariant Split(old(rest), '\n') == done + Split(rest, '\n')
        invariant out == old(out) + ShownLines(done)
        decreases |rest|
      {
        var i := NewlineAt(rest);
        LineTaken(old(rest), done, rest, i);
        GlueSnoc(done, rest[..i], Shown);
        Associate(old(out), ShownLines(done), Shown(rest[..i]));
        done := done + [rest[..i]];
        PrintLine(rest[..i]);
        rest := rest[i + 1..];
      }
      NoSplit(rest, '\n');
      LastOf(done, [rest]);
    }

    method PrintLine(l: string)
      modifies this`out
      ensures out == old(out) + Shown(l)
    {
      if TrimSpace(l) == JOB_BANNER || "Completed at:" <= l {
        return;
      }
      out := out + l + "\n";
    }

    /** Prints what is left; the output is then the body of what was received, without footers. */
    method Flush()
      requires Valid()
      modifies this
      ensures out == Filtered(Body(received)) && rest == "" && !inHead && received == old(received)
    {
      if inHead {
        inHead := false;
        EarlyBody(received);
        PrintLines();
      }
      PrintedSoFar(Body(received), rest, out);
      if rest != "" {
        PrintLine(rest);
        rest := "";
      }
    }
  }

  lemma PrintedSoFar(text: string, rest: string, out: string)
    requires LinesPrinted(text, "", rest, out)
    ensures Filtered(text) == out + if rest == "" then "" else Shown(rest)
  {
  }

  lemma EarlyBody(chunks: seq<string>)
    requires |chunks| <= HEADER_WAIT
    ensures Body(chunks) == BodyOf(Concat(chunks))
  {
  }

  lemma MoreLinesPrinted(text: string, held: string, shown: string, chunk: string, rest: string, out: string)
    requires LinesPrinted(text, "", held, shown) && LinesPrinted(held + chunk, shown, rest, out)
    ensures LinesPrinted(text + chunk, "", rest, out)
  {
    var lines, more := Split(text, '\n'), Split(held + chunk, '\n');
    SplitExtends(text, chunk, '\n');
    LastOf(ButLast(lines), more);
    GlueAppend(ButLast(lines), ButLast(more), Shown);
    Associate("", ShownLines(ButLast(lines)), ShownLines(ButLast(more)));
  }

  lemma LastOf(a: seq<string>, b: seq<string>)
    requires b != []
    ensures ButLast(a + b) == a + ButLast(b) && Last(a + b) == Last(b)
  {
  }

  lemma HeaderIsOver(received: seq<string>, rest: string, seen: int, out: string)
    requires |received| == HEADER_WAIT || (|received| < HEADER_WAIT && Has(Concat(received)))
    requires LinesPrinted(BodyOf(Concat(received)), "", rest, out)
    ensures Follows(received, rest, false, seen, out)
  {
    EarlyBody(received);
  }

  lemma FollowsOn(received: seq<string>, held: string, seen: int, shown: string, chunk: string, rest: string, out: string)
    requires Follows(received, held, false, seen, shown) && LinesPrinted(held + chunk, shown, rest, out)
    ensures Follows(received + [chunk], rest, false, seen, out)
  {
    HeadStaysBehind(received, chunk);
    BodyGrows(received, chunk);
    MoreLinesPrinted(Body(received), held, shown, chunk, rest, out);
  }

  lemma HeadStaysBehind(chunks: seq<string>, chunk: string)
    requires |chunks| >= HEADER_WAIT || Has(Concat(chunks))
    ensures |chunks| + 1 >= HEADER_WAIT || Has(Concat(chunks + [chunk]))
  {
    ConcatSnoc(chunks, chunk);
    if Has(Concat(chunks)) { FindStays(Concat(chunks), Concat(chunks + [chunk]), HEADER_END); }
  }

  lemma GlueSnoc(lines: seq<string>, line: string, show: string -> string)
    ensures Glue(lines + [line], show) == Glue(lines, show) + show(line)
  {
    assert ButLast(lines + [line]) == lines;
  }

  lemma {:induction false} GlueAppend(a: seq<string>, b: seq<string>, show: string -> string)
    ensures Glue(a + b, show) == Glue(a, show) + Glue(b, show)
    decreases |b|
  {
    if b == [] {
      assert a + b == a;
    } else {
      LastOf(a, b);
      GlueAppend(a, ButLast(b), show);
      Associate(Glue(a, show), Glue(ButLast(b), show), show(Last(b)));
    }
  }

  lemma Associate(a: string, b: string, c: string)
    ensures a + b + c == a + (b + c)
  {
  }

  function NewlineAt(s: string): (i: int)
    ensures i == -1 ==> '\n' !in s
    ensures i != -1 ==> 0 <= i < |s| && s[i] == '\n' && '\n' !in s[..i]
  {
    if s == [] then -1
    else if s[0] == '\n' then 0
    else
      var i := NewlineAt(s[1..]);
      assert s == [s[0]] + s[1..];
      assert i >= 0 ==> s[..i + 1] == [s[0]] + s[1..][..i];
      if i < 0 then -1 else i + 1
  }

  // ---- how much the cutting matters ----

  /** The header's end came within the first chunks, or there is no header at all. */
  predicate HeaderInTime(chunks: seq<string>) {
    Has(Concat(chunks)) ==> |chunks| <= 3 || Has(Concat(chunks[..3]))
  }

  /** A header that is not recognized shows at least its blank line. */
  lemma HeaderShows(text: string)
    requires Has(text)
    ensures |Filtered(text)| > |Filtered(BodyOf(text))|
  {
    var i := BodyStart(text);
    assert text[i - 2..i] == "\n\n" by {
      assert text[i - |HEADER_END|..i] == HEADER_END;
      assert text[i - 2..i] == HEADER_END[|HEADER_END| - 2..];
    }
    assert text == text[..i - 2] + ("\n\n" + text[i..]);
    BlankLineShows(text[..i - 2], text[i..]);
  }

  lemma BlankLineShows(head: string, body: string)
    ensures |Filtered(head + ("\n\n" + body))| > |Filtered(body)|
  {
    var before, last, after := ButLast(Split(head, '\n')), Last(Split(head, '\n')), Split(body, '\n');
    SplitAround(head, body);
    ShowsBlank();
    MoreShows(before + [last], after, Shown);
    LastOf(before + [last] + [""], after);
  }

  lemma MoreShows(before: seq<string>, after: seq<string>, show: string -> string)
    requires after != [] && show("") == "\n"
    ensures |Glue(ButLast(before + [""] + after), show)| > |Glue(ButLast(after), show)|
  {
    LastOf(before + [""], after);
    GlueAppend(before + [""], ButLast(after), show);
    GlueSnoc(before, "", show);
  }

  lemma ShowsBlank()
    ensures Shown("") == "\n"
  {
  }

  lemma SplitAround(head: string, body: string)
    ensures Split(head + ("\n\n" + body), '\n') ==
      ButLast(Split(head, '\n')) + [Last(Split(head, '\n'))] + [""] + Split(body, '\n')
  {
    SplitExtends(head, "\n\n" + body, '\n');
    PartsAreClean(head, '\n');
    LinesFromHere(Last(Split(head, '\n')), body);
    Regroup(ButLast(Split(head, '\n')), Last(Split(head, '\n')), Split(body, '\n'));
  }

  lemma Regroup(before: seq<string>, last: string, after: seq<string>)
    ensures before + ([last, ""] + after) == before + [last] + [""] + after
  {
  }

  lemma LinesFromHere(last: string, body: string)
    requires '\n' !in last
    ensures Split(last + ("\n\n" + body), '\n') == [last, ""] + Split(body, '\n')
  {
    var s := last + ("\n\n" + body);
    assert s[..|last|] == last && s[|last|] == '\n';
    SplitFirst(s, '\n', |last|);
    assert s[|last| + 1..] == "\n" + body;
    SplitFirst("\n" + body, '\n', 0);
    assert ("\n" + body)[1..] == body && ("\n" + body)[..0] == "";
  }

  /** What is printed is a function of the text alone, however it was cut, exactly when the header ends within the
      first chunks or never; a header that ends later is printed. */
  lemma CutsDoNotMatterExactlyWhen(chunks: seq<string>)
    ensures Filtered(Body(chunks)) == Filtered(BodyOf(Concat(chunks))) <==> HeaderInTime(chunks)
  {
    var text, head := Concat(chunks), Concat(FirstChunks(chunks));
    ConcatPrefix(chunks, |FirstChunks(chunks)|);
    assert chunks[..|FirstChunks(chunks)|] == FirstChunks(chunks);
    if Has(head) {
      FindStays(head, text, HEADER_END);
    } else if Has(text) {
      HeaderShows(text);
      assert Body(chunks) == text;
    }
  }
}
