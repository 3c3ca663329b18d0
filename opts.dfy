/** Command-line options: the expiration parser and the dispatch from flags to an
    action (src/opts.rs). */
module Opts {
  import opened Common
  import opened Expiry
  import opened Resources

  /** One match of `([0-9]+)([dhms])?`: the digit run and the unit letter after it. */
  datatype Capture = Capture(num: string, unit: Option<char>)

  predicate IsUnit(c: char) {
    c == 'd' || c == 'h' || c == 'm' || c == 's'
  }

  /** Every capture holds a non-empty digit run and, if any, a unit letter. */
  predicate WellFormed(cs: seq<Capture>) {
    forall i :: 0 <= i < |cs| ==> |cs[i].num| >= 1 && AllDigits(cs[i].num)
                                  && (cs[i].unit.Some? ==> IsUnit(cs[i].unit.value))
  }

  /** The successive non-overlapping leftmost matches of `([0-9]+)([dhms])?` in `s`:
      each maximal digit run, with the unit letter that directly follows it, if any. */
  function Captures(s: string): seq<Capture>
    decreases |s|
  {
    if s == [] then []
    else if !IsDigit(s[0]) then Captures(s[1..])
    else
      var n := DigitRun(s);
      if n < |s| && IsUnit(s[n]) then [Capture(s[..n], Some(s[n]))] + Captures(s[n + 1..])
      else [Capture(s[..n], None)] + Captures(s[n..])
  }

  /** `usize` on the 64-bit targets the tool is built for. */
  const UsizeBound: nat := 0x1_0000_0000_0000_0000

  /** `parse::<usize>().unwrap_or(0)`: a string of digits whose value fits in `usize`
      is that value; anything else, a run too large for `usize` included, gives 0. */
  function ParseUsize(digits: string): (n: nat)
    ensures n < UsizeBound
    ensures |digits| >= 1 && AllDigits(digits) && DecimalValue(digits) < UsizeBound ==> n == DecimalValue(digits)
    ensures |digits| >= 1 && AllDigits(digits) && DecimalValue(digits) >= UsizeBound ==> n == 0
  {
    if |digits| >= 1 && AllDigits(digits) && DecimalValue(digits) < UsizeBound then DecimalValue(digits) else 0
  }

  /** Seconds per unit: d = a day, h = an hour, m = a minute, s or no unit = a second. */
  function Multiplier(unit: Option<char>): nat {
    if unit == Some('d') then 60 * 60 * 24
    else if unit == Some('h') then 60 * 60
    else if unit == Some('m') then 60
    else 1
  }

  function CaptureSeconds(c: Capture): nat
  {
    ParseUsize(c.num) * Multiplier(c.unit)
  }

  /** The fold over the captures: the sum of their contributions. */
  function TotalSeconds(cs: seq<Capture>): nat
  {
    if cs == [] then 0 else CaptureSeconds(cs[0]) + TotalSeconds(cs[1..])
  }

  function ExpirationSeconds(s: string): nat {
    TotalSeconds(Captures(s))
  }

  /** `get_expiration`: "none" means no time limit; anything else is the sum of its
      number-and-unit groups, characters outside them being ignored. */
  function GetExpiration(expire: string, eor: bool): (e: Expire)
    ensures e.eor == eor
    ensures e.NoExpiration? <==> expire == "none"
    ensures e.Expire? ==> e.secs == ExpirationSeconds(expire)
  {
    if expire == "none" then NoExpiration(eor) else Expire(ExpirationSeconds(expire), eor)
  }

  lemma {:induction false} TotalSecondsAppend(a: seq<Capture>, b: seq<Capture>)
    ensures TotalSeconds(a + b) == TotalSeconds(a) + TotalSeconds(b)
    decreases |a|
  {
    if a == [] {
      assert a + b == b;
    } else {
      assert (a + b)[0] == a[0] && (a + b)[1..] == a[1..] + b;
      TotalSecondsAppend(a[1..], b);
    }
  }

  /** The scan restarts cleanly after a non-digit: the captures of `a + b` are those of
      `a` followed by those of `b`. */
  lemma {:induction false} CapturesAppend(a: string, b: string)
    requires a == [] || !IsDigit(a[|a| - 1])
    ensures Captures(a + b) == Captures(a) + Captures(b)
    decreases |a|
  {
    if a == [] {
      assert a + b == b;
    } else if !IsDigit(a[0]) {
      assert (a + b)[0] == a[0] && (a + b)[1..] == a[1..] + b;
      CapturesAppend(a[1..], b);
    } else {
      var n := DigitRun(a);
      var d, r := a[..n], a[n..];
      assert a == d + r;
      if IsUnit(r[0]) {
        var u, r2 := r[0], r[1..];
        assert a == d + [u] + r2;
        CapturesAppend(r2, b);
        UnitGroupAppend(d, u, r2, b);
      } else {
        CapturesAppend(r, b);
        BareGroupAppend(d, r, b);
      }
    }
  }

  lemma UnitGroupAppend(d: string, u: char, r: string, b: string)
    requires |d| >= 1 && AllDigits(d) && IsUnit(u)
    requires Captures(r + b) == Captures(r) + Captures(b)
    ensures Captures(d + [u] + r + b) == Captures(d + [u] + r) + Captures(b)
  {
    CapturesOfUnitGroup(d, u, r);
    CapturesOfUnitGroup(d, u, r + b);
    assert d + [u] + r + b == d + [u] + (r + b);
    ConsAssoc(Capture(d, Some(u)), Captures(r), Captures(b));
  }

  lemma BareGroupAppend(d: string, r: string, b: string)
    requires |d| >= 1 && AllDigits(d) && r != [] && !IsDigit(r[0]) && !IsUnit(r[0])
    requires Captures(r + b) == Captures(r) + Captures(b)
    ensures Captures(d + r + b) == Captures(d + r) + Captures(b)
  {
    var rb := r + b;
    assert d + r + b == d + rb;
    assert rb[0] == r[0];
    BareCaptures(d, r);
    BareCaptures(d, rb);
    ConsAssoc(Capture(d, None), Captures(r), Captures(b));
  }

  lemma ConsAssoc<T>(c: T, x: seq<T>, y: seq<T>)
    ensures [c] + (x + y) == ([c] + x) + y
  {
  }

  lemma BareCaptures(d: string, rest: string)
    requires |d| >= 1 && AllDigits(d)
    requires rest != [] && !IsDigit(rest[0]) && !IsUnit(rest[0])
    ensures Captures(d + rest) == [Capture(d, None)] + Captures(rest)
  {
    CapturesOfGroup(d, rest);
  }

  lemma {:induction false} DigitRunPrefix(a: string, b: string)
    requires DigitRun(a) < |a|
    ensures DigitRun(a + b) == DigitRun(a)
    decreases |a|
  {
    if IsDigit(a[0]) {
      assert (a + b)[1..] == a[1..] + b;
      DigitRunPrefix(a[1..], b);
    }
  }

  /** Every capture is a non-empty digit run with, if any, a unit letter. */
  lemma {:induction false} CapturesWellFormed(s: string)
    ensures WellFormed(Captures(s))
    decreases |s|
  {
    if s != [] {
      if !IsDigit(s[0]) {
        CapturesWellFormed(s[1..]);
      } else {
        var n := DigitRun(s);
        if n < |s| && IsUnit(s[n]) {
          CapturesWellFormed(s[n + 1..]);
        } else {
          CapturesWellFormed(s[n..]);
        }
      }
    }
  }

  /** Durations add up: the seconds of `a + b` are those of `a` plus those of `b` when
      `a` does not end inside a number. */
  lemma SecondsAppend(a: string, b: string)
    requires a == [] || !IsDigit(a[|a| - 1])
    ensures ExpirationSeconds(a + b) == ExpirationSeconds(a) + ExpirationSeconds(b)
  {
    CapturesAppend(a, b);
    TotalSecondsAppend(Captures(a), Captures(b));
  }

  /** A string without digits sets no duration. */
  lemma {:induction false} NoDigitsNoSeconds(s: string)
    requires forall i :: 0 <= i < |s| ==> !IsDigit(s[i])
    ensures Captures(s) == [] && ExpirationSeconds(s) == 0
    decreases |s|
  {
    if s != [] {
      NoDigitsNoSeconds(s[1..]);
    }
  }

  /** The captures of a digit run followed by a non-digit: the run, with the unit letter
      that follows it if there is one, then the captures of the rest. */
  lemma CapturesOfGroup(d: string, rest: string)
    requires |d| >= 1 && AllDigits(d)
    requires rest == [] || !IsDigit(rest[0])
    ensures rest != [] && IsUnit(rest[0]) ==>
              Captures(d + rest) == [Capture(d, Some(rest[0]))] + Captures(rest[1..])
    ensures !(rest != [] && IsUnit(rest[0])) ==>
              Captures(d + rest) == [Capture(d, None)] + Captures(rest)
  {
    DigitRunOfDigits(d, rest);
    assert (d + rest)[0] == d[0];
    assert (d + rest)[|d|..] == rest;
    if rest != [] {
      assert (d + rest)[|d|] == rest[0];
      assert (d + rest)[|d| + 1..] == rest[1..];
    }
  }

  lemma CapturesOfUnitGroup(d: string, u: char, rest: string)
    requires |d| >= 1 && AllDigits(d) && IsUnit(u)
    ensures Captures(d + [u] + rest) == [Capture(d, Some(u))] + Captures(rest)
  {
    var s := d + [u] + rest;
    DigitRunOfDigits(d, [u] + rest);
    assert s == d + ([u] + rest);
    assert s[0] == d[0] && s[..|d|] == d && s[|d|] == u && s[|d| + 1..] == rest;
  }

  lemma TotalSecondsCons(c: Capture, cs: seq<Capture>)
    ensures TotalSeconds([c] + cs) == CaptureSeconds(c) + TotalSeconds(cs)
  {
    assert ([c] + cs)[0] == c && ([c] + cs)[1..] == cs;
  }

  /** A number followed by a unit letter counts that many units. */
  lemma UnitGroup(d: string, u: char, rest: string)
    requires |d| >= 1 && AllDigits(d) && IsUnit(u)
    ensures ExpirationSeconds(d + [u] + rest) == ParseUsize(d) * Multiplier(Some(u)) + ExpirationSeconds(rest)
  {
    assert d + [u] + rest == d + ([u] + rest);
    CapturesOfGroup(d, [u] + rest);
    assert ([u] + rest)[1..] == rest;
    TotalSecondsCons(Capture(d, Some(u)), Captures(rest));
  }

  /** A number followed by anything but a digit or unit letter counts seconds. */
  lemma BareGroup(d: string, rest: string)
    requires |d| >= 1 && AllDigits(d)
    requires rest == [] || (!IsDigit(rest[0]) && !IsUnit(rest[0]))
    ensures ExpirationSeconds(d + rest) == ParseUsize(d) + ExpirationSeconds(rest)
  {
    CapturesOfGroup(d, rest);
    TotalSecondsCons(Capture(d, None), Captures(rest));
  }

  /** `n` followed by a unit letter lasts `n` units. */
  lemma NumberWithUnit(n: nat, u: char)
    requires n < UsizeBound && IsUnit(u)
    ensures ExpirationSeconds(NatToString(n) + [u]) == n * Multiplier(Some(u))
  {
    UnitGroup(NatToString(n), u, []);
    assert NatToString(n) + [u] + [] == NatToString(n) + [u];
  }

  /** A digit run too large for `usize` contributes nothing, whatever its unit. */
  lemma OversizedNumber(d: string, u: char)
    requires |d| >= 1 && AllDigits(d) && DecimalValue(d) >= UsizeBound && IsUnit(u)
    ensures ExpirationSeconds(d + [u]) == 0
  {
    UnitGroup(d, u, []);
    assert d + [u] + [] == d + [u];
  }

  lemma SmallNumbers()
    ensures AllDigits("1") && DecimalValue("1") == 1
    ensures AllDigits("2") && DecimalValue("2") == 2
    ensures AllDigits("10") && DecimalValue("10") == 10
    ensures AllDigits("200") && DecimalValue("200") == 200
  {
    assert "10"[..1] == "1";
    assert "200"[..2] == "20" && "20"[..1] == "2";
  }

  lemma OneSecond()
    ensures ExpirationSeconds("1s") == 1
  {
    SmallNumbers();
    UnitGroup("1", 's', []);
    assert "1" + ['s'] + [] == "1s";
  }

  lemma TenMinutesOneSecond()
    ensures ExpirationSeconds("10m1s") == 601
  {
    SmallNumbers();
    OneSecond();
    UnitGroup("10", 'm', "1s");
    assert "10" + ['m'] + "1s" == "10m1s";
  }

  lemma OneDayTenMinutesOneSecond(s: string)
    requires s == "1d10m1s"
    ensures ExpirationSeconds(s) == 87001
  {
    var rest := "10m1s";
    TenMinutesOneSecond();
    SmallNumbers();
    UnitGroup("1", 'd', rest);
    assert ParseUsize("1") * Multiplier(Some('d')) == 86400;
    assert "1" + ['d'] + rest == s;
  }

  lemma ColonOne()
    ensures ExpirationSeconds(":1") == 1
  {
    SmallNumbers();
    BareGroup("1", []);
    assert "1" + [] == "1";
    NoDigitsNoSeconds(":");
    SecondsAppend(":", "1");
    assert ":" + "1" == ":1";
  }

  lemma ColonTenColonOne()
    ensures ExpirationSeconds(":10:1") == 11
  {
    SmallNumbers();
    ColonOne();
    BareGroup("10", ":1");
    assert "10" + ":1" == "10:1";
    NoDigitsNoSeconds(":");
    SecondsAppend(":", "10:1");
    assert ":" + "10:1" == ":10:1";
  }

  lemma ClockLikeInput()
    ensures ExpirationSeconds("10:10:1") == 21
  {
    SmallNumbers();
    ColonTenColonOne();
    BareGroup("10", ":10:1");
    assert "10" + ":10:1" == "10:10:1";
  }

  lemma UnknownUnit()
    ensures ExpirationSeconds("200b") == 200
  {
    SmallNumbers();
    NoDigitsNoSeconds("b");
    BareGroup("200", "b");
    assert "200" + "b" == "200b";
  }

  lemma EmptyDuration()
    ensures GetExpiration("", false) == Expire(0, false)
    ensures GetExpiration("", true) == Expire(0, true)
  {
  }

  lemma TwoHours()
    ensures ExpirationSeconds(DefaultExpire) == 7200
  {
    SmallNumbers();
    UnitGroup("2", 'h', []);
    assert "2" + ['h'] + [] == DefaultExpire;
  }

  /** Flags as the command-line parser reports them: the value of each option
      that takes one, and whether each switch is present. */
  datatype Flags = Flags(
    nodes: Option<string>,
    ids: Option<string>,
    subscriptions: Option<string>,
    remove: bool,
    list: bool,
    checks: Option<string>,
    expire: Option<string>,
    expireOnResolve: bool)

  datatype SilenceOpts = SilenceOpts(resources: Option<ShushResources>, checks: Option<seq<string>>, expire: Expire)
  datatype ClearOpts = ClearOpts(resources: Option<ShushResources>, checks: Option<seq<string>>)
  datatype ListOpts = ListOpts(sub: Option<string>, chk: Option<string>)
  datatype ShushOpts = Silence(silence: SilenceOpts) | Clear(clear: ClearOpts) | List(list: ListOpts)

  /** The duration used when no `-e` is given. */
  const DefaultExpire: string := "2h"

  /** `get_match_as_vec`: a comma-separated value as the list of its pieces. */
  function GetMatchAsVec(value: Option<string>): (r: Option<seq<string>>)
    ensures r.Some? <==> value.Some?
    ensures r.Some? ==> |r.value| >= 1 && forall i :: 0 <= i < |r.value| ==> ',' !in r.value[i]
  {
    match value
    case None => None
    case Some(s) => Some(Split(s, ','))
  }

  function Expiration(f: Flags): Expire {
    GetExpiration(f.expire.GetOr(DefaultExpire), f.expireOnResolve)
  }

  function ResourceOpts(f: Flags, value: string, t: ShushResourceType): ShushOpts {
    var resources := Some(ShushResources(t, Split(value, ',')));
    if f.remove then Clear(ClearOpts(resources, GetMatchAsVec(f.checks)))
    else if f.list then List(ListOpts(Some(value), f.checks))
    else Silence(SilenceOpts(resources, GetMatchAsVec(f.checks), Expiration(f)))
  }

  /** `getopts`: the first resource flag present among nodes, ids and subscriptions
      chooses the resource list; `remove` chooses a clear, otherwise `list` a listing,
      otherwise a silence. */
  function GetOpts(f: Flags): ShushOpts {
    if f.nodes.Some? then ResourceOpts(f, f.nodes.value, Node)
    else if f.ids.Some? then ResourceOpts(f, f.ids.value, Client)
    else if f.subscriptions.Some? then ResourceOpts(f, f.subscriptions.value, Sub)
    else if f.remove then Clear(ClearOpts(None, GetMatchAsVec(f.checks)))
    else if f.list then List(ListOpts(None, f.checks))
    else Silence(SilenceOpts(None, GetMatchAsVec(f.checks), Expiration(f)))
  }

  /** The resource list an action carries; a listing carries none. */
  function ResourcesOf(o: ShushOpts): Option<ShushResources> {
    match o
    case Silence(s) => s.resources
    case Clear(c) => c.resources
    case List(_) => None
  }

  /** The first resource flag present, with its kind. */
  function FirstResourceFlag(f: Flags): Option<(string, ShushResourceType)> {
    if f.nodes.Some? then Some((f.nodes.value, Node))
    else if f.ids.Some? then Some((f.ids.value, Client))
    else if f.subscriptions.Some? then Some((f.subscriptions.value, Sub))
    else None
  }

  /** The action is chosen by `remove`, then `list`, whatever the resource flags. */
  lemma ActionPriority(f: Flags)
    ensures GetOpts(f).Clear? <==> f.remove
    ensures GetOpts(f).List? <==> !f.remove && f.list
    ensures GetOpts(f).Silence? <==> !f.remove && !f.list
  {
  }

  /** The resources of a silence or clear come from the first resource flag present,
      split on commas in order; a listing filters by that flag's raw value. */
  lemma ResourcePriority(f: Flags)
    ensures !GetOpts(f).List? ==>
              ResourcesOf(GetOpts(f)) == match FirstResourceFlag(f)
                                         case None => None
                                         case Some(p) => Some(ShushResources(p.1, Split(p.0, ',')))
    ensures GetOpts(f).List? ==>
              GetOpts(f).list.sub == match FirstResourceFlag(f)
                                     case None => None
                                     case Some(p) => Some(p.0)
    ensures GetOpts(f).List? ==> GetOpts(f).list.chk == f.checks
  {
  }

  /** Checks of a silence or clear are the comma-separated pieces of `-c`, which join
      back to the flag's value. */
  lemma ChecksFromFlag(f: Flags)
    requires f.checks.Some?
    ensures GetOpts(f).Silence? ==>
              GetOpts(f).silence.checks.Some? && Join(GetOpts(f).silence.checks.value, ",") == f.checks.value
    ensures GetOpts(f).Clear? ==>
              GetOpts(f).clear.checks.Some? && Join(GetOpts(f).clear.checks.value, ",") == f.checks.value
  {
    JoinSplit(f.checks.value, ',');
  }

  /** A silence without `-e` lasts two hours, and the `-o` switch is carried over. */
  lemma DefaultSilence(f: Flags)
    requires f.expire.None? && GetOpts(f).Silence?
    ensures GetOpts(f).silence.expire == Expire(7200, f.expireOnResolve)
  {
    TwoHours();
  }

  /** "none" lifts the time limit. */
  lemma NoneMeansNoExpiration(f: Flags)
    requires f.expire == Some("none") && GetOpts(f).Silence?
    ensures GetOpts(f).silence.expire == NoExpiration(f.expireOnResolve)
  {
  }
}
