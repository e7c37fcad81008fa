/** Strings as the command line handles them: splitting, trimming and searching. */
module Text {
  /** The parts of s between occurrences of sep; there is always at least one. */
  function Split(s: string, sep: char): (parts: seq<string>)
    ensures parts != []
  {
    if s == [] then [""]
    else
      var rest := Split(s[1..], sep);
      if s[0] == sep then [""] + rest else [[s[0]] + rest[0]] + rest[1..]
  }

  /** Splitting loses nothing. */
  lemma {:induction false} SplitJoins(s: string, sep: char)
    ensures Join(Split(s, sep), [sep]) == s
  {
    if s != [] {
      var rest := Split(s[1..], sep);
      SplitJoins(s[1..], sep);
      if s[0] == sep { JoinPrepend("", rest, [sep]); } else { JoinLonger(s[0], rest, [sep]); }
    }
  }

  lemma {:induction false} PartsAreClean(s: string, sep: char)
    ensures forall part :: part in Split(s, sep) ==> sep !in part
  {
    if s != [] { PartsAreClean(s[1..], sep); }
  }

  lemma {:induction false} PartsComeFrom(s: string, sep: char, c: char)
    requires c !in s
    ensures forall part :: part in Split(s, sep) ==> c !in part
  {
    if s != [] { PartsComeFrom(s[1..], sep, c); }
  }

  function Join(parts: seq<string>, sep: string): string {
    if parts == [] then [] else if |parts| == 1 then parts[0] else parts[0] + sep + Join(parts[1..], sep)
  }

  lemma JoinPrepend(p: string, parts: seq<string>, sep: string)
    requires parts != []
    ensures Join([p] + parts, sep) == p + sep + Join(parts, sep)
  {
    assert ([p] + parts)[1..] == parts;
  }

  lemma JoinLonger(c: char, parts: seq<string>, sep: string)
    requires parts != []
    ensures Join([[c] + parts[0]] + parts[1..], sep) == [c] + Join(parts, sep)
  {
    assert ([[c] + parts[0]] + parts[1..])[1..] == parts[1..];
    if |parts| > 1 {
      assert [c] + parts[0] + sep + Join(parts[1..], sep) == [c] + (parts[0] + sep + Join(parts[1..], sep));
    }
  }

  predicate EndsWith(s: string, suffix: string) {
    |suffix| <= |s| && s[|s| - |suffix|..] == suffix
  }

  predicate IsSpace(c: char) {
    c == ' ' || c == '\t' || c == '\n' || c == '\r' || c == '\U{0B}' || c == '\U{0C}' || c == '\U{85}' || c == '\U{A0}'
  }

  function TrimLeft(s: string): (t: string)
    ensures |t| <= |s|
  {
    if s != [] && IsSpace(s[0]) then TrimLeft(s[1..]) else s
  }

  function TrimRight(s: string): string {
    if s != [] && IsSpace(s[|s| - 1]) then TrimRight(s[..|s| - 1]) else s
  }

  function TrimSpace(s: string): string {
    TrimRight(TrimLeft(s))
  }

  ghost predicate Blank(s: string) {
    forall i :: 0 <= i < |s| ==> s[i] as int in {9, 10, 11, 12, 13, 32, 0x85, 0xA0}
  }

  lemma {:induction false} TrimsLeft(s: string)
    ensures |TrimLeft(s)| <= |s| && s[|s| - |TrimLeft(s)|..] == TrimLeft(s) && Blank(s[..|s| - |TrimLeft(s)|])
    ensures TrimLeft(s) != [] ==> !IsSpace(TrimLeft(s)[0])
  {
    if s != [] && IsSpace(s[0]) {
      TrimsLeft(s[1..]);
      var cut := |s[1..]| - |TrimLeft(s)|;
      assert s[..cut + 1] == [s[0]] + s[1..][..cut];
    }
  }

  lemma {:induction false} TrimsRight(s: string)
    ensures TrimRight(s) <= s && Blank(s[|TrimRight(s)|..])
    ensures TrimRight(s) != [] ==> !IsSpace(TrimRight(s)[|TrimRight(s)| - 1])
  {
    if s != [] && IsSpace(s[|s| - 1]) {
      var rest := s[..|s| - 1];
      TrimsRight(rest);
      assert s[|TrimRight(s)|..] == rest[|TrimRight(s)|..] + [s[|s| - 1]];
    }
  }

  /** Trimming takes white space off both ends, and all of it. */
  lemma Trims(s: string) returns (before: string, after: string)
    ensures s == before + TrimSpace(s) + after && Blank(before) && Blank(after)
    ensures var t := TrimSpace(s); t != [] ==> !Blank(t[..1]) && !Blank(t[|t| - 1..])
  {
    TrimsLeft(s);
    TrimsRight(TrimLeft(s));
    var t := TrimSpace(s);
    before, after := s[..|s| - |TrimLeft(s)|], TrimLeft(s)[|t|..];
    if t != [] {
      assert t[..1][0] == TrimLeft(s)[0] && t[|t| - 1..][0] == t[|t| - 1];
    }
  }

  lemma {:induction false} TrimsBefore(before: string, s: string)
    requires Blank(before)
    ensures TrimSpace(before + s) == TrimSpace(s)
  {
    if before == [] {
      assert before + s == s;
    } else {
      assert (before + s)[1..] == before[1..] + s;
      TrimsBefore(before[1..], s);
    }
  }

  lemma {:induction false} TrimsAfter(s: string, after: string)
    requires Blank(after) && (s != [] && !IsSpace(s[0]) && !IsSpace(s[|s| - 1]))
    ensures TrimSpace(s + after) == s
    decreases |after|
  {
    if after == [] {
      assert s + after == s;
    } else {
      var last := |after| - 1;
      assert (s + after)[..|s| + last] == s + after[..last];
      TrimsAfter(s, after[..last]);
    }
  }

  /** Text that begins and ends with something else is left as it is. */
  lemma NothingToTrim(s: string)
    requires s != [] ==> !IsSpace(s[0]) && !IsSpace(s[|s| - 1])
    ensures TrimSpace(s) == s
  {
  }

  function Spaces(n: nat): (s: string)
    ensures |s| == n && forall i :: 0 <= i < n ==> s[i] == ' '
  {
    seq(n, _ => ' ')
  }

  function Repeat(c: char, n: nat): (s: string)
    ensures |s| == n && forall i :: 0 <= i < n ==> s[i] == c
  {
    seq(n, _ => c)
  }

  /** Whether pat occurs in s at i. */
  predicate At(s: string, pat: string, i: int) {
    0 <= i && i + |pat| <= |s| && s[i..i + |pat|] == pat
  }

  function FindFrom(s: string, pat: string, k: nat): (i: int)
    decreases |s| - k
  {
    if k + |pat| > |s| then -1 else if At(s, pat, k) then k else FindFrom(s, pat, k + 1)
  }

  /** Where pat first occurs in s, or -1. */
  function Find(s: string, pat: string): (i: int)
    ensures i == -1 || At(s, pat, i)
  {
    FindsFirst(s, pat, 0);
    FindFrom(s, pat, 0)
  }

  lemma {:induction false} FindsFirst(s: string, pat: string, k: nat)
    ensures FindFrom(s, pat, k) == -1 ==> forall j :: k <= j ==> !At(s, pat, j)
    ensures FindFrom(s, pat, k) != -1 ==> At(s, pat, FindFrom(s, pat, k))
    ensures FindFrom(s, pat, k) != -1 ==> forall j :: k <= j < FindFrom(s, pat, k) ==> !At(s, pat, j)
    decreases |s| - k
  {
    if k + |pat| <= |s| && !At(s, pat, k) {
      FindsFirst(s, pat, k + 1);
    }
  }

  /** Text found once stays found in the same place. */
  lemma FindStays(a: string, b: string, pat: string)
    requires a <= b && Find(a, pat) >= 0
    ensures Find(b, pat) == Find(a, pat)
  {
    var i := Find(a, pat);
    FindsFirst(a, pat, 0);
    FindsFirst(b, pat, 0);
    assert At(b, pat, i);
    forall j | 0 <= j < i ensures !At(b, pat, j) {
      assert !At(a, pat, j);
      assert a[j..j + |pat|] == b[j..j + |pat|];
    }
  }

  /** Splitting more text only splits the last part further. */
  lemma {:induction false} SplitExtends(a: string, b: string, sep: char)
    ensures Split(a + b, sep) == ButLast(Split(a, sep)) + Split(Last(Split(a, sep)) + b, sep)
    decreases a
  {
    if a == [] {
      assert a + b == b && [] + b == b;
    } else {
      var rest := Split(a[1..], sep);
      assert (a + b)[1..] == a[1..] + b && (a + b)[0] == a[0];
      SplitExtends(a[1..], b, sep);
      if a[0] == sep {
        Prepended([""], rest, Split(Last(rest) + b, sep));
      } else if |rest| == 1 {
        SplitJoins(a[1..], sep);
        assert a == [a[0]] + rest[0];
      } else {
        Lengthened(a[0], rest, Split(Last(rest) + b, sep));
      }
    }
  }

  lemma Prepended(first: seq<string>, rest: seq<string>, more: seq<string>)
    requires rest != []
    ensures first + (ButLast(rest) + more) == ButLast(first + rest) + more && Last(first + rest) == Last(rest)
  {
  }

  lemma Lengthened(c: char, rest: seq<string>, more: seq<string>)
    requires |rest| > 1
    ensures var longer, all := [[c] + rest[0]] + rest[1..], ButLast(rest) + more;
      [[c] + all[0]] + all[1..] == ButLast(longer) + more && Last(longer) == Last(rest)
  {
    var longer := [[c] + rest[0]] + rest[1..];
    assert ButLast(longer) == [[c] + rest[0]] + ButLast(rest)[1..];
    assert (ButLast(rest) + more)[1..] == ButLast(rest)[1..] + more;
  }

  lemma {:induction false} NoSplit(s: string, sep: char)
    requires sep !in s
    ensures Split(s, sep) == [s]
  {
    if s != [] {
      NoSplit(s[1..], sep);
      assert [s[0]] + s[1..] == s;
    }
  }

  lemma {:induction false} SplitFirst(s: string, sep: char, i: nat)
    requires i < |s| && s[i] == sep && sep !in s[..i]
    ensures Split(s, sep) == [s[..i]] + Split(s[i + 1..], sep)
    decreases i
  {
    if i > 0 {
      assert s[..i] == [s[0]] + s[1..][..i - 1];
      assert s[1..][i..] == s[i + 1..];
      SplitFirst(s[1..], sep, i - 1);
    }
  }

  function Last<T>(parts: seq<T>): T
    requires parts != []
  {
    parts[|parts| - 1]
  }

  function ButLast<T>(parts: seq<T>): seq<T>
    requires parts != []
  {
    parts[..|parts| - 1]
  }
}
