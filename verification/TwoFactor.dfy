/** Two-factor sign-in: time-based codes (RFC 6238) and recovery codes, each good for one use. The code of a time step
    (RFC 4226) and the comparison with a stored hash are functions given from outside. */
module TwoFactor {
  import opened Jobs
  import opened Text

  const TOTP_DIGITS := 6

  type Key = int
  type Hash = string

  datatype Crypto = Crypto(hotp: (Key, int) -> string, matches: (Hash, string) -> bool)

  /** A user's second-factor columns; no key is the empty column, as is no list of recovery codes. */
  datatype User = User(key: Option<Key>, enabled: bool, lastStep: int, codes: Option<seq<Hash>>)

  /** A time step lasts 30 seconds. */
  function TotpStep(now: nat): nat {
    now / 30
  }

  // ---- checking a code ----

  /** A step whose code was typed, close enough to now and not used before. */
  predicate Fits(c: Crypto, key: Key, code: string, now: nat, lastStep: int, step: int) {
    |code| == TOTP_DIGITS && TotpStep(now) - 1 <= step <= TotpStep(now) + 1 && step > lastStep && c.hotp(key, step) == code
  }

  ghost predicate Earliest(c: Crypto, key: Key, code: string, now: nat, lastStep: int, found: Option<int>) {
    match found
    case Some(step) =>
      (Fits(c, key, code, now, lastStep, step) &&
       forall s :: s < step ==> !Fits(c, key, code, now, lastStep, s))
    case None => forall s :: !Fits(c, key, code, now, lastStep, s)
  }

  function CheckedStep(c: Crypto, key: Key, code: string, now: nat, lastStep: int): Option<int> {
    var cur := TotpStep(now);
    if Fits(c, key, code, now, lastStep, cur - 1) then Some(cur - 1)
    else if Fits(c, key, code, now, lastStep, cur) then Some(cur)
    else if Fits(c, key, code, now, lastStep, cur + 1) then Some(cur + 1)
    else None
  }

  method CheckTOTP(c: Crypto, key: Key, code: string, now: nat, lastStep: int) returns (found: Option<int>)
    ensures Earliest(c, key, TrimSpace(code), now, lastStep, found)
    ensures found == CheckedStep(c, key, TrimSpace(code), now, lastStep)
  {
    var typed := TrimSpace(code);
    if |typed| != TOTP_DIGITS {
      return None;
    }
    var cur := TotpStep(now);
    var step := cur - 1;
    while step <= cur + 1
      invariant cur - 1 <= step <= cur + 2
      invariant forall s :: s < step ==> !Fits(c, key, typed, now, lastStep, s)
    {
      if step > lastStep && c.hotp(key, step) == typed {
        return Some(step);
      }
      step := step + 1;
    }
    return None;
  }

  predicate AllDigits(code: string) {
    forall i :: 0 <= i < |code| ==> '0' <= code[i] <= '9'
  }

  function Lower(ch: char): char {
    if 'A' <= ch <= 'Z' then ch - 'A' + 'a' else ch
  }

  function Normalized(code: string): string {
    if code == [] then []
    else if code[0] == '-' || code[0] == ' ' then Normalized(code[1..])
    else [Lower(code[0])] + Normalized(code[1..])
  }

  function FirstMatch(c: Crypto, hashes: seq<Hash>, typed: string, from: nat): (i: Option<nat>)
    requires from <= |hashes|
    ensures i.Some? ==> from <= i.value < |hashes| && c.matches(hashes[i.value], typed)
    decreases |hashes| - from
  {
    if from == |hashes| then None
    else if c.matches(hashes[from], typed) then Some(from)
    else FirstMatch(c, hashes, typed, from + 1)
  }

  /** What a code is worth, judged by the user row as loaded. */
  datatype Verdict = Bad | Step(step: int) | Spend(index: nat)

  function Judged(c: Crypto, loaded: User, code: string, now: nat): (v: Verdict)
    ensures v.Spend? ==> loaded.codes.Some? && v.index < |loaded.codes.value| &&
                         c.matches(loaded.codes.value[v.index], Normalized(TrimSpace(code)))
  {
    var typed := TrimSpace(code);
    if |typed| == TOTP_DIGITS && AllDigits(typed) then
      if loaded.key.None? then Bad
      else
        match CheckedStep(c, loaded.key.value, TrimSpace(typed), now, loaded.lastStep)
        case Some(step) => Step(step)
        case None => Bad
    else if loaded.codes.None? then Bad
    else
      match FirstMatch(c, loaded.codes.value, Normalized(typed), 0)
      case Some(i) => Spend(i)
      case None => Bad
  }

  function Without(hashes: seq<Hash>, i: nat): seq<Hash>
    requires i < |hashes|
  {
    hashes[..i] + hashes[i + 1..]
  }

  /** Whether the conditional update still finds the row it was meant for. */
  predicate Wins(row: User, loaded: User, v: Verdict) {
    match v
    case Bad => false
    case Step(step) => row.lastStep < step
    case Spend(_) => row.codes == loaded.codes
  }

  function Updated(row: User, loaded: User, v: Verdict): User
    requires v.Spend? ==> loaded.codes.Some? && v.index < |loaded.codes.value|
  {
    if !Wins(row, loaded, v) then row
    else if v.Step? then row.(lastStep := v.step)
    else row.(codes := Some(Without(loaded.codes.value, v.index)))
  }

  function Begun(row: User, key: Key): User {
    if row.enabled then row else row.(key := Some(key), lastStep := 0)
  }

  function EnablingStep(c: Crypto, row: User, code: string, now: nat): Option<int> {
    if row.enabled || row.key.None? then None else CheckedStep(c, row.key.value, TrimSpace(code), now, 0)
  }

  function EnabledRow(c: Crypto, row: User, code: string, now: nat, hashes: seq<Hash>): User {
    match EnablingStep(c, row, code, now)
    case Some(step) => row.(enabled := true, lastStep := step, codes := Some(hashes))
    case None => row
  }

  const CLEARED := User(None, false, 0, None)

  class AuthService {
    const crypto: Crypto
    var row: User

    constructor (crypto: Crypto)
      ensures this.crypto == crypto && row == CLEARED
    {
      this.crypto := crypto;
      row := CLEARED;
    }

    method BeginTwoFactor(key: Key) returns (ok: bool)
      modifies this
      ensures row == Begun(old(row), key) && ok == !old(row).enabled
      ensures row == if ok then User(Some(key), false, 0, old(row).codes) else old(row)
    {
      if row.enabled {
        return false;
      }
      row := row.(key := Some(key), lastStep := 0);
      return true;
    }

    method EnableTwoFactor(code: string, now: nat, hashes: seq<Hash>) returns (ok: bool)
      modifies this
      ensures row == EnabledRow(crypto, old(row), code, now, hashes)
      ensures ok == EnablingStep(crypto, old(row), code, now).Some?
    {
      if row.enabled || row.key.None? {
        return false;
      }
      var step := CheckTOTP(crypto, row.key.value, code, now, 0);
      if step.None? {
        return false;
      }
      row := row.(enabled := true, lastStep := step.value, codes := Some(hashes));
      return true;
    }

    method ResetTwoFactor()
      modifies this
      ensures row == CLEARED
    {
      row := row.(enabled := false, key := None, lastStep := 0, codes := None);
    }

    /** Checks a code against the row as it was loaded, then updates the row as it is now if that still holds. */
    method CheckSecondFactor(loaded: User, code: string, now: nat) returns (ok: bool)
      modifies this
      ensures var v := Judged(crypto, loaded, code, now);
        ok == Wins(old(row), loaded, v) && row == Updated(old(row), loaded, v)
    {
      var typed := TrimSpace(code);
      if |typed| == TOTP_DIGITS && AllDigits(typed) {
        if loaded.key.None? {
          return false;
        }
        var step := CheckTOTP(crypto, loaded.key.value, typed, now, loaded.lastStep);
        if step.None? || row.lastStep >= step.value {
          return false;
        }
        row := row.(lastStep := step.value);
        return true;
      }
      if loaded.codes.None? {
        return false;
      }
      var hashes, norm := loaded.codes.value, Normalized(typed);
      var i := 0;
      while i < |hashes|
        invariant 0 <= i <= |hashes| && FirstMatch(crypto, hashes, norm, 0) == FirstMatch(crypto, hashes, norm, i)
      {
        if crypto.matches(hashes[i], norm) {
          if row.codes != loaded.codes {
            return false;
          }
          row := row.(codes := Some(hashes[..i] + hashes[i + 1..]));
          return true;
        }
        i := i + 1;
      }
      return false;
    }
  }

  // ---- runs ----

  datatype Use = Use(hash: Hash, typed: string)

  /** What happened between one setup and the next: the hashes given out, the time steps accepted by the setup and by
      sign-ins that loaded the row since then, the steps accepted by sign-ins that had loaded it then but finished
      after it was over, and the recovery codes spent out of its list. */
  datatype Enrolment = Enrolment(issued: seq<Hash>, steps: seq<int>, late: seq<int>, spent: seq<Use>)

  datatype Loaded = Loaded(row: User, enrolment: nat)

  datatype World = World(row: User, enrolments: seq<Enrolment>, loads: seq<Loaded>)

  datatype Event =
    | Begin(key: Key)
    | Enable(enableCode: string, enabledAt: nat, hashes: seq<Hash>)
    | Reset
    | Load
    | Check(load: nat, code: string, at: nat)

  const NEW_ENROLMENT := Enrolment([], [], [], [])
  const START := World(CLEARED, [NEW_ENROLMENT], [])

  function Current(w: World): int {
    |w.enrolments| - 1
  }

  function VerdictOf(c: Crypto, w: World, load: nat, code: string, at: nat): Verdict
    requires load < |w.loads|
  {
    Judged(c, w.loads[load].row, code, at)
  }

  predicate Accepted(c: Crypto, w: World, load: nat, code: string, at: nat)
    requires load < |w.loads|
  {
    Wins(w.row, w.loads[load].row, VerdictOf(c, w, load, code, at))
  }

  function NoteStep(e: Enrolment, step: int, late: bool): Enrolment {
    if late then e.(late := e.late + [step]) else e.(steps := e.steps + [step])
  }

  function Checked(c: Crypto, w: World, load: nat, code: string, at: nat): World
    requires load < |w.loads| && w.loads[load].enrolment < |w.enrolments|
  {
    var loaded := w.loads[load];
    var v := VerdictOf(c, w, load, code, at);
    if !Wins(w.row, loaded.row, v) then w
    else if v.Step? then
      var e := loaded.enrolment;
      w.(row := Updated(w.row, loaded.row, v),
         enrolments := w.enrolments[e := NoteStep(w.enrolments[e], v.step, e < Current(w))])
    else
      var e := Current(w);
      var use := Use(loaded.row.codes.value[v.index], Normalized(TrimSpace(code)));
      w.(row := Updated(w.row, loaded.row, v),
         enrolments := w.enrolments[e := w.enrolments[e].(spent := w.enrolments[e].spent + [use])])
  }

  function Enabled(c: Crypto, w: World, code: string, now: nat, hashes: seq<Hash>): World
    requires w.enrolments != []
  {
    match EnablingStep(c, w.row, code, now)
    case Some(step) =>
      var e := Current(w);
      w.(row := EnabledRow(c, w.row, code, now, hashes),
         enrolments := w.enrolments[e := w.enrolments[e].(issued := hashes, steps := w.enrolments[e].steps + [step])])
    case None => w
  }

  /** One step; signing in loads a row that has the second factor on, and checks against it at any later time. */
  function Next(c: Crypto, w: World, event: Event): World
    requires Sound(w)
  {
    match event
    case Begin(key) =>
      if w.row.enabled then w else w.(row := Begun(w.row, key), enrolments := w.enrolments + [NEW_ENROLMENT])
    case Enable(code, now, hashes) => Enabled(c, w, code, now, hashes)
    case Reset => w.(row := CLEARED, enrolments := w.enrolments + [NEW_ENROLMENT])
    case Load => if w.row.enabled then w.(loads := w.loads + [Loaded(w.row, Current(w))]) else w
    case Check(load, code, at) => if load < |w.loads| then Checked(c, w, load, code, at) else w
  }

  predicate Sound(w: World) {
    w.enrolments != [] && forall i :: 0 <= i < |w.loads| ==> w.loads[i].enrolment < |w.enrolments|
  }

  lemma StepStaysSound(c: Crypto, w: World, event: Event)
    requires Sound(w)
    ensures Sound(Next(c, w, event))
  {
  }

  // ---- what every run keeps ----

  function Hashes(uses: seq<Use>): (hashes: seq<Hash>)
    ensures |hashes| == |uses|
  {
    seq(|uses|, i requires 0 <= i < |uses| => uses[i].hash)
  }

  ghost predicate Increasing(steps: seq<int>) {
    forall j, k :: 0 <= j < k < |steps| ==> steps[j] < steps[k]
  }

  ghost predicate FairlySpent(e: Enrolment) {
    multiset(Hashes(e.spent)) <= multiset(e.issued)
  }

  ghost predicate Matched(c: Crypto, e: Enrolment) {
    forall i :: 0 <= i < |e.spent| ==> c.matches(e.spent[i].hash, e.spent[i].typed)
  }

  ghost predicate Kept(c: Crypto, e: Enrolment) {
    Increasing(e.steps) && FairlySpent(e) && Matched(c, e)
  }

  /** The row against the enrolment it belongs to: no step beyond the last one recorded, and every hash given out is
      either still stored or was spent. */
  ghost predicate RowAgrees(row: User, e: Enrolment) {
    e.late == [] &&
    (!row.enabled ==> row.codes.None? && e.issued == [] && e.steps == [] && e.spent == []) &&
    (row.enabled ==>
      (row.codes.Some? && (forall i :: 0 <= i < |e.steps| ==> e.steps[i] <= row.lastStep) &&
       multiset(row.codes.value) + multiset(Hashes(e.spent)) == multiset(e.issued)))
  }

  ghost predicate Inv(c: Crypto, w: World) {
    Sound(w) && RowAgrees(w.row, w.enrolments[Current(w)]) &&
    (forall e :: 0 <= e < |w.enrolments| ==> Kept(c, w.enrolments[e])) &&
    (!w.row.enabled ==> forall i :: 0 <= i < |w.loads| ==> w.loads[i].enrolment < Current(w))
  }

  lemma RemovedHash(hashes: seq<Hash>, i: nat)
    requires i < |hashes|
    ensures multiset(hashes) == multiset(Without(hashes, i)) + multiset{hashes[i]}
  {
    assert hashes == hashes[..i] + [hashes[i]] + hashes[i + 1..];
  }

  lemma MoreSpent(uses: seq<Use>, use: Use)
    ensures multiset(Hashes(uses + [use])) == multiset(Hashes(uses)) + multiset{use.hash}
  {
    assert Hashes(uses + [use]) == Hashes(uses) + [use.hash];
  }

  lemma SpendKeeps(c: Crypto, row: User, e: Enrolment, i: nat, typed: string)
    requires RowAgrees(row, e) && Kept(c, e) && row.codes.Some? && i < |row.codes.value|
    requires c.matches(row.codes.value[i], typed)
    ensures var e' := e.(spent := e.spent + [Use(row.codes.value[i], typed)]);
      RowAgrees(row.(codes := Some(Without(row.codes.value, i))), e') && Kept(c, e')
  {
    RemovedHash(row.codes.value, i);
    MoreSpent(e.spent, Use(row.codes.value[i], typed));
  }

  lemma AcceptingKeeps(c: Crypto, w: World, e: nat, step: int)
    requires Inv(c, w) && e < |w.enrolments| && w.row.lastStep < step && (!w.row.enabled ==> e < Current(w))
    ensures Inv(c, w.(row := w.row.(lastStep := step),
                      enrolments := w.enrolments[e := NoteStep(w.enrolments[e], step, e < Current(w))]))
  {
    assert Kept(c, w.enrolments[e]);
  }

  lemma SpendingKeeps(c: Crypto, w: World, i: nat, typed: string)
    requires Inv(c, w) && w.row.codes.Some? && i < |w.row.codes.value| && c.matches(w.row.codes.value[i], typed)
    ensures var e, use := Current(w), Use(w.row.codes.value[i], typed);
      Inv(c, w.(row := w.row.(codes := Some(Without(w.row.codes.value, i))),
                enrolments := w.enrolments[e := w.enrolments[e].(spent := w.enrolments[e].spent + [use])]))
  {
    assert Kept(c, w.enrolments[Current(w)]);
    SpendKeeps(c, w.row, w.enrolments[Current(w)], i, typed);
  }

  lemma CheckKeeps(c: Crypto, w: World, load: nat, code: string, at: nat)
    requires Inv(c, w) && load < |w.loads|
    ensures Inv(c, Checked(c, w, load, code, at))
  {
    var loaded := w.loads[load];
    var v := VerdictOf(c, w, load, code, at);
    if Wins(w.row, loaded.row, v) {
      if v.Step? {
        AcceptingKeeps(c, w, loaded.enrolment, v.step);
      } else {
        SpendingKeeps(c, w, v.index, Normalized(TrimSpace(code)));
      }
    }
  }

  lemma SetupKeeps(c: Crypto, w: World, event: Event)
    requires Inv(c, w) && (event.Begin? || event.Reset? || event.Load?)
    ensures Inv(c, Next(c, w, event))
  {
  }

  lemma EnablingKeeps(c: Crypto, w: World, code: string, now: nat, hashes: seq<Hash>)
    requires Inv(c, w)
    ensures Inv(c, Enabled(c, w, code, now, hashes))
  {
    assert Kept(c, w.enrolments[Current(w)]);
  }

  lemma StepKeeps(c: Crypto, w: World, event: Event)
    requires Inv(c, w)
    ensures Inv(c, Next(c, w, event))
  {
    match event
    case Enable(code, now, hashes) => EnablingKeeps(c, w, code, now, hashes);
    case Check(load, code, at) => if load < |w.loads| { CheckKeeps(c, w, load, code, at); }
    case _ => SetupKeeps(c, w, event);
  }

  function Run(c: Crypto, events: seq<Event>): (w: World)
    ensures Sound(w)
  {
    if events == [] then START
    else
      var before := Run(c, events[..|events| - 1]);
      StepStaysSound(c, before, events[|events| - 1]);
      Next(c, before, events[|events| - 1])
  }

  lemma {:induction false} RunKeeps(c: Crypto, events: seq<Event>)
    ensures Inv(c, Run(c, events))
  {
    if events != [] {
      RunKeeps(c, events[..|events| - 1]);
      StepKeeps(c, Run(c, events[..|events| - 1]), events[|events| - 1]);
    }
  }

  /** However sign-ins race, the time steps accepted within one enrolment strictly increase, so none is accepted twice
      (RFC 6238, section 5.2). */
  lemma AcceptedStepsIncrease(c: Crypto, events: seq<Event>, e: nat, j: nat, k: nat)
    requires e < |Run(c, events).enrolments| && j < k < |Run(c, events).enrolments[e].steps|
    ensures Run(c, events).enrolments[e].steps[j] < Run(c, events).enrolments[e].steps[k]
  {
    RunKeeps(c, events);
    assert Kept(c, Run(c, events).enrolments[e]);
  }

  /** Every recovery code accepted takes one hash out of the list and nothing else does. */
  lemma CodesAreConserved(c: Crypto, events: seq<Event>)
    requires Run(c, events).row.enabled
    ensures var w := Run(c, events);
      var e := w.enrolments[Current(w)];
      w.row.codes.Some? && multiset(w.row.codes.value) + multiset(Hashes(e.spent)) == multiset(e.issued) &&
      |w.row.codes.value| + |e.spent| == |e.issued|
  {
    RunKeeps(c, events);
    var w := Run(c, events);
    var e := w.enrolments[Current(w)];
    assert |multiset(w.row.codes.value) + multiset(Hashes(e.spent))| == |multiset(e.issued)|;
  }

  /** No recovery code works twice in one enrolment, if it belongs to one of the hashes given out. */
  lemma NoCodeTwice(c: Crypto, events: seq<Event>, e: nat, j: nat, k: nat)
    requires e < |Run(c, events).enrolments| && j < k < |Run(c, events).enrolments[e].spent|
    requires var issued := Run(c, events).enrolments[e].issued;
      forall a, b :: 0 <= a < b < |issued| ==>
        !(c.matches(issued[a], Run(c, events).enrolments[e].spent[j].typed) &&
          c.matches(issued[b], Run(c, events).enrolments[e].spent[j].typed))
    ensures Run(c, events).enrolments[e].spent[j].typed != Run(c, events).enrolments[e].spent[k].typed
  {
    RunKeeps(c, events);
    var en := Run(c, events).enrolments[e];
    assert Kept(c, en);
    if en.spent[j].typed == en.spent[k].typed {
      TwoOf(Hashes(en.spent), en.issued, j, k);
    }
  }

  lemma StillPart(part: seq<Hash>, whole: seq<Hash>, j: nat, a: nat)
    requires multiset(part) <= multiset(whole) && j < |part| && a < |whole| && whole[a] == part[j]
    ensures multiset(Without(part, j)) <= multiset(Without(whole, a))
  {
    RemovedHash(part, j);
    RemovedHash(whole, a);
    assert multiset(Without(part, j)) == multiset(part) - multiset{part[j]};
    assert multiset(Without(whole, a)) == multiset(whole) - multiset{part[j]};
  }

  lemma IsIn(part: seq<Hash>, whole: seq<Hash>, j: nat) returns (a: nat)
    requires multiset(part) <= multiset(whole) && j < |part|
    ensures a < |whole| && whole[a] == part[j]
  {
    assert part[j] in multiset(part);
    assert part[j] in whole;
    a :| a < |whole| && whole[a] == part[j];
  }

  lemma TwoOf(part: seq<Hash>, whole: seq<Hash>, j: nat, k: nat)
    requires multiset(part) <= multiset(whole) && j < k < |part|
    ensures exists a, b :: 0 <= a < |whole| && 0 <= b < |whole| && a != b && whole[a] == part[j] && whole[b] == part[k]
  {
    var a := IsIn(part, whole, j);
    StillPart(part, whole, j, a);
    var i := IsIn(Without(part, j), Without(whole, a), k - 1);
    var b := if i < a then i else i + 1;
    assert whole[b] == Without(whole, a)[i] == Without(part, j)[k - 1] == part[k];
  }

  predicate IsAppCode(code: string) {
    |TrimSpace(code)| == 6 && forall i :: 0 <= i < 6 ==> '0' <= TrimSpace(code)[i] <= '9'
  }

  lemma {:induction false} MatchIsFound(c: Crypto, hashes: seq<Hash>, typed: string, from: nat)
    requires from <= |hashes|
    ensures match FirstMatch(c, hashes, typed, from)
      case Some(i) => forall k :: from <= k < i ==> !c.matches(hashes[k], typed)
      case None => forall k :: from <= k < |hashes| ==> !c.matches(hashes[k], typed)
    decreases |hashes| - from
  {
    if from < |hashes| && !c.matches(hashes[from], typed) { MatchIsFound(c, hashes, typed, from + 1); }
  }

  lemma {:induction false} TrimmedStays(s: string)
    ensures TrimRight(TrimRight(s)) == TrimRight(s)
    ensures s != [] && !IsSpace(s[0]) ==> TrimRight(s) != [] && TrimRight(s)[0] == s[0]
  {
    if s != [] && IsSpace(s[|s| - 1]) { TrimmedStays(s[..|s| - 1]); }
  }

  lemma {:induction false} LeftTrimmed(s: string)
    ensures TrimLeft(s) == [] || !IsSpace(TrimLeft(s)[0])
  {
    if s != [] && IsSpace(s[0]) { LeftTrimmed(s[1..]); }
  }

  lemma TrimTwice(s: string)
    ensures TrimSpace(TrimSpace(s)) == TrimSpace(s)
  {
    LeftTrimmed(s);
    TrimmedStays(TrimLeft(s));
  }

  /** A sign-in nobody interferes with succeeds exactly when the code is that of a step close to now and after the last
      one used, or matches a hash not yet spent. */
  lemma UndisturbedSignIn(c: Crypto, row: User, code: string, now: nat)
    ensures Wins(row, row, Judged(c, row, code, now)) <==>
      if IsAppCode(code) then row.key.Some? && AnyFits(c, row.key.value, TrimSpace(code), now, row.lastStep)
      else row.codes.Some? && AnyMatches(c, row.codes.value, Normalized(TrimSpace(code)))
  {
    TrimTwice(code);
    if IsAppCode(code) {
      if row.key.Some? { StepIsFound(c, row.key.value, TrimSpace(code), now, row.lastStep); }
    } else if row.codes.Some? {
      MatchIsFound(c, row.codes.value, Normalized(TrimSpace(code)), 0);
    }
  }

  /** The code belongs to a step of 30 seconds that is after lastStep, and is the step of now or next to it. */
  ghost predicate AnyFits(c: Crypto, key: Key, code: string, now: nat, lastStep: int) {
    |code| == 6 &&
    exists step :: lastStep < step && 30 * (step - 1) <= now < 30 * (step + 2) && c.hotp(key, step) == code
  }

  ghost predicate AnyMatches(c: Crypto, hashes: seq<Hash>, typed: string) {
    exists i :: 0 <= i < |hashes| && c.matches(hashes[i], typed)
  }

  lemma StepIsFound(c: Crypto, key: Key, code: string, now: nat, lastStep: int)
    ensures Earliest(c, key, code, now, lastStep, CheckedStep(c, key, code, now, lastStep))
    ensures CheckedStep(c, key, code, now, lastStep).Some? <==> AnyFits(c, key, code, now, lastStep)
  {
    forall step | Fits(c, key, code, now, lastStep, step)
      ensures CheckedStep(c, key, code, now, lastStep).Some? && AnyFits(c, key, code, now, lastStep)
    {
      assert step == TotpStep(now) - 1 || step == TotpStep(now) || step == TotpStep(now) + 1;
    }
    if AnyFits(c, key, code, now, lastStep) {
      var step :| lastStep < step && 30 * (step - 1) <= now < 30 * (step + 2) && c.hotp(key, step) == code;
      assert Fits(c, key, code, now, lastStep, step);
    }
  }

  /** The factor can be turned on, once, by a code of the key that was set up; the code counts as used. */
  lemma EnablesExactlyWhen(c: Crypto, row: User, code: string, now: nat, hashes: seq<Hash>)
    ensures var t := EnabledRow(c, row, code, now, hashes);
      if !row.enabled && row.key.Some? && AnyFits(c, row.key.value, TrimSpace(code), now, 0) then
        t == User(row.key, true, t.lastStep, Some(hashes)) && t.lastStep > 0 &&
        c.hotp(row.key.value, t.lastStep) == TrimSpace(code) && 30 * (t.lastStep - 1) <= now < 30 * (t.lastStep + 2)
      else t == row
  {
    if row.key.Some? { StepIsFound(c, row.key.value, TrimSpace(code), now, 0); }
  }

  // ---- recovery codes as they are shown and typed ----

  function ShownCode(plain: string): string
    requires |plain| == 10
  {
    plain[..5] + "-" + plain[5..]
  }

  /** A code as it is made: ten letters, all small, and digits. */
  predicate IsPlain(code: string) {
    forall i :: 0 <= i < |code| ==> 'a' <= code[i] <= 'z' || '2' <= code[i] <= '7'
  }

  /** typed is code, in small letters or capitals. */
  predicate IsTyped(typed: string, code: string) {
    |typed| == |code| &&
    forall i :: 0 <= i < |code| ==> typed[i] == code[i] || ('A' <= typed[i] <= 'Z' && typed[i] - 'A' + 'a' == code[i])
  }

  lemma {:induction false} NormalizedAdds(a: string, b: string)
    ensures Normalized(a + b) == Normalized(a) + Normalized(b)
    decreases |a|
  {
    if a == [] {
      assert a + b == b;
    } else {
      assert (a + b)[1..] == a[1..] + b;
      NormalizedAdds(a[1..], b);
    }
  }

  lemma {:induction false} PlainIsNormal(typed: string, plain: string)
    requires IsPlain(plain) && IsTyped(typed, plain)
    ensures Normalized(typed) == plain
  {
    if plain != [] { PlainIsNormal(typed[1..], plain[1..]); }
  }

  /** A recovery code is known by its letters and digits: as shown, without the dash, with spaces for it, and in
      capitals. */
  lemma TypedAsShown(first: string, second: string, gap: string, plain: string)
    requires IsPlain(plain) && |plain| == 10 && IsTyped(first, plain[..5]) && IsTyped(second, plain[5..])
    requires gap == "" || gap == "-" || gap == " " || gap == " - "
    ensures Normalized(first + gap + second) == plain
  {
    NormalizedAdds(first + gap, second);
    NormalizedAdds(first, gap);
    NormalizedAdds(" ", "- ");
    NormalizedAdds("-", " ");
    PlainIsNormal(first, plain[..5]);
    PlainIsNormal(second, plain[5..]);
    assert " " + ("-" + " ") == " - " && Normalized(gap) == "";
  }

  /** A recovery code that is not spent lets its owner in, once, as it was shown. */
  lemma ShownCodeSignsIn(c: Crypto, row: User, plain: string, now: nat, i: nat)
    requires |plain| == 10 && IsPlain(plain)
    requires row.codes.Some? && i < |row.codes.value| && c.matches(row.codes.value[i], plain)
    ensures var v := Judged(c, row, ShownCode(plain), now);
      Wins(row, row, v) && v.Spend? && v.index <= i && c.matches(row.codes.value[v.index], plain) &&
      Updated(row, row, v) == row.(codes := Some(row.codes.value[..v.index] + row.codes.value[v.index + 1..]))
  {
    var shown := ShownCode(plain);
    assert shown[0] == plain[0] && shown[|shown| - 1] == plain[9];
    NothingToTrim(shown);
    TypedAsShown(plain[..5], plain[5..], "-", plain);
    MatchIsFound(c, row.codes.value, plain, 0);
  }

  // ---- where it fails ----

  /** A time step can be accepted twice with one secret only by a sign-in that loaded the row in an enrolment that was
      over when it finished, and whenever the row's last step is then behind, it is. */
  lemma RepeatsExactlyWhen(c: Crypto, events: seq<Event>, load: nat, code: string, at: nat)
    requires load < |Run(c, events).loads| && VerdictOf(c, Run(c, events), load, code, at).Step?
    requires var w := Run(c, events);
      var e := w.enrolments[w.loads[load].enrolment];
      VerdictOf(c, w, load, code, at).step in e.steps + e.late
    ensures var w := Run(c, events);
      Accepted(c, w, load, code, at) <==>
        (w.loads[load].enrolment < Current(w) && w.row.lastStep < VerdictOf(c, w, load, code, at).step)
  {
    RunKeeps(c, events);
    RepeatsNow(c, Run(c, events), load, VerdictOf(c, Run(c, events), load, code, at).step);
  }

  lemma RepeatsNow(c: Crypto, w: World, load: nat, step: int)
    requires Inv(c, w) && load < |w.loads|
    requires var e := w.enrolments[w.loads[load].enrolment]; step in e.steps + e.late
    ensures w.row.lastStep < step ==> w.loads[load].enrolment < Current(w)
  {
  }

  function Active(key: Key, hashes: seq<Hash>): User {
    User(Some(key), true, 1, Some(hashes))
  }

  /** One sign-in has been let in, and another loaded the same row. */
  function SignedIn(key: Key, hashes: seq<Hash>): World {
    World(Active(key, hashes).(lastStep := 2), [NEW_ENROLMENT, Enrolment(hashes, [1, 2], [], [])],
      [Loaded(Active(key, hashes), 1)])
  }

  ghost predicate AreCodes(c: Crypto, key: Key, setup: string, code: string) {
    TrimSpace(setup) == setup && TrimSpace(code) == code && |setup| == |code| == TOTP_DIGITS && AllDigits(code) &&
    c.hotp(key, 1) == setup && c.hotp(key, 2) == code && code != setup
  }

  function SwitchedOn(key: Key, hashes: seq<Hash>): World {
    World(Active(key, hashes), [NEW_ENROLMENT, Enrolment(hashes, [1], [], [])], [])
  }

  lemma Setup(c: Crypto, key: Key, setup: string, hashes: seq<Hash>)
    requires TrimSpace(setup) == setup && |setup| == TOTP_DIGITS && c.hotp(key, 1) == setup
    ensures Run(c, [] + [Begin(key)] + [Enable(setup, 30, hashes)]) == SwitchedOn(key, hashes)
  {
    var begun := World(User(Some(key), false, 0, None), [NEW_ENROLMENT, NEW_ENROLMENT], []);
    Enables(c, begun, setup, hashes);
    assert [] + [1] == [1];
    RunOne(c, [], Begin(key), START, begun);
    RunOne(c, [] + [Begin(key)], Enable(setup, 30, hashes), begun, SwitchedOn(key, hashes));
  }

  lemma FirstSignIn(c: Crypto, key: Key, code: string, hashes: seq<Hash>, before: seq<Event>)
    requires Run(c, before) == SwitchedOn(key, hashes)
    requires TrimSpace(code) == code && |code| == TOTP_DIGITS && AllDigits(code) && c.hotp(key, 2) == code
    ensures Run(c, before + [Load] + [Check(0, code, 60)]) == SignedIn(key, hashes)
  {
    var loaded := SwitchedOn(key, hashes).(loads := [Loaded(Active(key, hashes), 1)]);
    SignsIn(c, loaded, code);
    assert [1] + [2] == [1, 2];
    RunOne(c, before, Load, SwitchedOn(key, hashes), loaded);
    RunOne(c, before + [Load], Check(0, code, 60), loaded, SignedIn(key, hashes));
  }

  lemma SecondSignIn(c: Crypto, key: Key, code: string, hashes: seq<Hash>, before: seq<Event>)
    requires Run(c, before) == SignedIn(key, hashes)
    requires TrimSpace(code) == code && |code| == TOTP_DIGITS && AllDigits(code) && c.hotp(key, 2) == code
    ensures Run(c, before + [Reset] + [Check(0, code, 60)]).enrolments ==
      [NEW_ENROLMENT, Enrolment(hashes, [1, 2], [2], []), NEW_ENROLMENT]
  {
    var w := SignedIn(key, hashes);
    var cleared := World(CLEARED, w.enrolments + [NEW_ENROLMENT], w.loads);
    SignsIn(c, cleared, code);
    assert [] + [2] == [2];
    RunOne(c, before, Reset, w, cleared);
    RunOne(c, before + [Reset], Check(0, code, 60), cleared, Next(c, cleared, Check(0, code, 60)));
  }

  /** Two sign-ins load the row, one finishes, the user is reset, and the other is let in with the same code. */
  lemma StaleSignInRepeats(c: Crypto, key: Key, setup: string, code: string, hashes: seq<Hash>)
    requires AreCodes(c, key, setup, code)
    ensures var w := Run(c, [Begin(key), Enable(setup, 30, hashes), Load, Check(0, code, 60), Reset, Check(0, code, 60)]);
      |w.enrolments| == 3 && w.enrolments[1].steps == [1, 2] && w.enrolments[1].late == [2]
  {
    var enable, check := Enable(setup, 30, hashes), Check(0, code, 60);
    var before := [] + [Begin(key)] + [enable];
    Setup(c, key, setup, hashes);
    FirstSignIn(c, key, code, hashes, before);
    SecondSignIn(c, key, code, hashes, before + [Load] + [check]);
    assert before + [Load] + [check] + [Reset] + [check] == [Begin(key), enable, Load, check, Reset, check];
  }

  lemma Enables(c: Crypto, w: World, code: string, hashes: seq<Hash>)
    requires Sound(w) && !w.row.enabled && w.row.key.Some?
    requires TrimSpace(code) == code && |code| == TOTP_DIGITS && c.hotp(w.row.key.value, 1) == code
    ensures var e := Current(w);
      Next(c, w, Enable(code, 30, hashes)) == World(User(w.row.key, true, 1, Some(hashes)),
        w.enrolments[e := w.enrolments[e].(issued := hashes, steps := w.enrolments[e].steps + [1])], w.loads)
  {
  }

  lemma SignsIn(c: Crypto, w: World, code: string)
    requires Sound(w) && |w.loads| == 1 && w.row.lastStep < 2
    requires var row := w.loads[0].row; row.key.Some? && row.lastStep == 1 && c.hotp(row.key.value, 2) == code
    requires TrimSpace(code) == code && |code| == TOTP_DIGITS && AllDigits(code)
    ensures var e := w.loads[0].enrolment;
      Next(c, w, Check(0, code, 60)) == World(w.row.(lastStep := 2),
        w.enrolments[e := NoteStep(w.enrolments[e], 2, e < Current(w))], w.loads)
  {
    assert CheckedStep(c, w.loads[0].row.key.value, code, 60, 1) == Some(2);
  }

  lemma RunOne(c: Crypto, events: seq<Event>, event: Event, before: World, after: World)
    requires Sound(before) && Run(c, events) == before && Next(c, before, event) == after
    ensures Run(c, events + [event]) == after
  {
    assert (events + [event])[..|events|] == events;
  }
}
