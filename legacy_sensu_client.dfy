/** The earliest API client (src/sensu_client.rs): its own endpoint, resource, expiry
    and payload types, the payload rendered as JSON text, and the resolution of
    instance ids to client names from a client listing. */
module LegacySensuClient {
  import opened Common
  import opened Json
  import E = Endpoint
  import R = Resource
  import A = SensuApi
  import L = LegacySensu

  datatype LegacyEndpoint = Silenced | Clear | Clients

  function EndpointPath(e: LegacyEndpoint): (path: string)
    ensures |path| >= 8 && path[0] == '/'
  {
    match e
    case Silenced => "/silenced"
    case Clear => "/silenced/clear"
    case Clients => "/clients"
  }

  /** The three paths are the ones of the later endpoint type. */
  lemma EndpointPathsAgree()
    ensures EndpointPath(Silenced) == E.Path(E.Silenced)
    ensures EndpointPath(Clear) == E.Path(E.Clear)
    ensures EndpointPath(Clients) == E.Path(E.Clients)
  {
  }

  /** Distinct endpoints have distinct paths. */
  lemma EndpointPathInjective(a: LegacyEndpoint, b: LegacyEndpoint)
    requires EndpointPath(a) == EndpointPath(b)
    ensures a == b
  {
  }

  datatype LegacyResource = Sub(name: string) | Client(name: string)

  /** `Into<String>`: a subscription is its name, a client is prefixed "client:". */
  function ResourceText(r: LegacyResource): (text: string)
    ensures |text| >= |r.name| && text[|text| - |r.name|..] == r.name
  {
    match r
    case Sub(s) => s
    case Client(s) => "client:" + s
  }

  /** The conversion agrees with the later `Display` of resources. */
  lemma ResourceTextAgrees(s: string)
    ensures ResourceText(Sub(s)) == R.Display(R.Subscription(s))
    ensures ResourceText(Client(s)) == R.Display(R.Client(s))
  {
  }

  datatype LegacyExpire = NoExpiration | Expire(secs: nat) | ExpireOnResolve

  /** `Display` of the expiry; every text ends in a newline. */
  function ExpireText(e: LegacyExpire): (text: string)
    ensures |text| >= 13 && text[|text| - 1] == '\n'
    ensures e.Expire? ==> text[..10] == "expire in "
    ensures text[7] == 'i' <==> e.Expire?
    ensures text[7] == 'o' <==> e.ExpireOnResolve?
  {
    match e
    case NoExpiration => "never expire\n"
    case Expire(n) => "expire in " + NatToString(n) + " seconds\n"
    case ExpireOnResolve => "expire on resolution of the checks\n"
  }

  /** Different expiries display differently. */
  lemma ExpireTextInjective(a: LegacyExpire, b: LegacyExpire)
    requires ExpireText(a) == ExpireText(b)
    ensures a == b
  {
    if a.Expire? && b.Expire? {
      var na, nb := NatToString(a.secs), NatToString(b.secs);
      var t := ExpireText(a);
      assert t == "expire in " + (na + " seconds\n") == "expire in " + (nb + " seconds\n");
      assert t[10..] == na + " seconds\n" == nb + " seconds\n";
      DigitRunOfNumber(a.secs, " seconds\n");
      DigitRunOfNumber(b.secs, " seconds\n");
      assert na == (na + " seconds\n")[..|na|] == (nb + " seconds\n")[..|nb|] == nb;
    }
  }

  datatype LegacyPayload = LegacyPayload(res: Option<LegacyResource>, chk: Option<string>, expire: Option<LegacyExpire>)

  const DefaultCreator: string := "shush"

  /** The member names in the order serde_json's sorted map writes them. */
  const KeyOrder: seq<string> := ["check", "creator", "expire", "expire_on_resolve", "subscription"]

  /** Byte-wise lexicographic order of strings, the order of `String` keys in a
      sorted map. */
  predicate LexLess(a: string, b: string)
    decreases |a|
  {
    if b == [] then false
    else if a == [] then true
    else if a[0] != b[0] then a[0] < b[0]
    else LexLess(a[1..], b[1..])
  }

  lemma {:induction false} LexLessTransitive(a: string, b: string, c: string)
    requires LexLess(a, b) && LexLess(b, c)
    ensures LexLess(a, c)
    decreases |a|
  {
    if a != [] && a[0] == b[0] && b[0] == c[0] {
      LexLessTransitive(a[1..], b[1..], c[1..]);
    }
  }

  /** `a` sorts before `b` when they agree up to a position where `a` ends or has the
      smaller character. */
  lemma {:induction false} LexLessAt(a: string, b: string, n: nat)
    requires n <= |a| && n < |b| && a[..n] == b[..n]
    requires n == |a| || a[n] < b[n]
    ensures LexLess(a, b)
    decreases n
  {
    if n > 0 {
      assert a[0] == a[..n][0] == b[..n][0] == b[0];
      assert a[1..][..n - 1] == a[..n][1..] == b[..n][1..] == b[1..][..n - 1];
      LexLessAt(a[1..], b[1..], n - 1);
    }
  }

  /** Each member name sorts before the next. */
  lemma KeyOrderAdjacent()
    ensures forall n :: 0 <= n < |KeyOrder| - 1 ==> LexLess(KeyOrder[n], KeyOrder[n + 1])
  {
    forall n | 0 <= n < |KeyOrder| - 1 ensures LexLess(KeyOrder[n], KeyOrder[n + 1]) {
      if n == 0 {
        LexLessAt("check", "creator", 1);
      } else if n == 1 {
        LexLessAt("creator", "expire", 0);
      } else if n == 2 {
        LexLessAt("expire", "expire_on_resolve", 6);
      } else {
        LexLessAt("expire_on_resolve", "subscription", 0);
      }
    }
  }

  /** The member order is the sorted order of the member names. */
  lemma KeyOrderSorted()
    ensures forall i, j :: 0 <= i < j < |KeyOrder| ==> LexLess(KeyOrder[i], KeyOrder[j])
  {
    KeyOrderAdjacent();
    forall i, j | 0 <= i < j < |KeyOrder| ensures LexLess(KeyOrder[i], KeyOrder[j]) {
      AdjacentSorted(KeyOrder, i, j);
    }
  }

  /** A sequence whose neighbours are in order is in order. */
  lemma {:induction false} AdjacentSorted(k: seq<string>, i: nat, j: nat)
    requires forall n :: 0 <= n < |k| - 1 ==> LexLess(k[n], k[n + 1])
    requires i < j < |k|
    ensures LexLess(k[i], k[j])
    decreases j - i
  {
    if j > i + 1 {
      AdjacentSorted(k, i, j - 1);
      LexLessTransitive(k[i], k[j - 1], k[j]);
    }
  }

  /** A scalar JSON value, the only kind a payload holds. */
  predicate Scalar(v: Json) {
    v.Null? || v.Bool? || v.Int? || v.Str?
  }

  const KeySet: set<string> := {"check", "creator", "expire", "expire_on_resolve", "subscription"}

  /** The members of the payload object, added one after the other: the creator
      always, the subscription and the check when given, then `expire_on_resolve` or
      `expire` depending on the expiry. */
  function PayloadFields(p: LegacyPayload, user: Option<string>): map<string, Json> {
    var m0 := map["creator" := Str(user.GetOr(DefaultCreator))];
    var m1 := if p.res.Some? then m0["subscription" := Str(ResourceText(p.res.value))] else m0;
    var m2 := if p.chk.Some? then m1["check" := Str(p.chk.value)] else m1;
    match p.expire
    case Some(ExpireOnResolve) => m2["expire_on_resolve" := Bool(true)]
    case Some(Expire(n)) => m2["expire" := Int(n)]
    case _ => m2
  }

  /** The creator is always present; the subscription and check exactly when given;
      `expire_on_resolve` (always true) only for `ExpireOnResolve`; `expire` only for a
      timed expiry, and never both. */
  lemma PayloadFieldsSpec(p: LegacyPayload, user: Option<string>)
    ensures var m := PayloadFields(p, user);
            m.Keys <= KeySet && forall k :: k in m ==> Scalar(m[k])
    ensures var m := PayloadFields(p, user);
            "creator" in m && m["creator"] == Str(user.GetOr(DefaultCreator))
            && ("subscription" in m <==> p.res.Some?)
            && (p.res.Some? ==> m["subscription"] == Str(ResourceText(p.res.value)))
            && ("check" in m <==> p.chk.Some?)
            && (p.chk.Some? ==> m["check"] == Str(p.chk.value))
    ensures var m := PayloadFields(p, user);
            ("expire_on_resolve" in m <==> p.expire == Some(ExpireOnResolve))
            && ("expire_on_resolve" in m ==> m["expire_on_resolve"] == Bool(true))
            && ("expire" in m <==> p.expire.Some? && p.expire.value.Expire?)
            && ("expire" in m ==> m["expire"] == Int(p.expire.value.secs))
  {
    PayloadFieldsKeys(p, user);
    PayloadFieldsNamed(p, user);
    PayloadFieldsExpiry(p, user);
  }

  lemma PayloadFieldsKeys(p: LegacyPayload, user: Option<string>)
    ensures var m := PayloadFields(p, user);
            m.Keys <= KeySet && forall k :: k in m ==> Scalar(m[k])
  {
  }

  lemma PayloadFieldsNamed(p: LegacyPayload, user: Option<string>)
    ensures var m := PayloadFields(p, user);
            "creator" in m && m["creator"] == Str(user.GetOr(DefaultCreator))
            && ("subscription" in m <==> p.res.Some?)
            && (p.res.Some? ==> m["subscription"] == Str(ResourceText(p.res.value)))
            && ("check" in m <==> p.chk.Some?)
            && (p.chk.Some? ==> m["check"] == Str(p.chk.value))
  {
    PayloadCreator(p, user);
    PayloadSubscription(p, user);
    PayloadCheck(p, user);
  }

  lemma PayloadCreator(p: LegacyPayload, user: Option<string>)
    ensures var m := PayloadFields(p, user);
            "creator" in m && m["creator"] == Str(user.GetOr(DefaultCreator))
  {
    KeyLengths();
  }

  lemma PayloadSubscription(p: LegacyPayload, user: Option<string>)
    ensures var m := PayloadFields(p, user);
            ("subscription" in m <==> p.res.Some?)
            && (p.res.Some? ==> m["subscription"] == Str(ResourceText(p.res.value)))
  {
    KeyLengths();
  }

  lemma PayloadCheck(p: LegacyPayload, user: Option<string>)
    ensures var m := PayloadFields(p, user);
            ("check" in m <==> p.chk.Some?)
            && (p.chk.Some? ==> m["check"] == Str(p.chk.value))
  {
    KeyLengths();
  }

  lemma PayloadFieldsExpiry(p: LegacyPayload, user: Option<string>)
    ensures var m := PayloadFields(p, user);
            ("expire_on_resolve" in m <==> p.expire == Some(ExpireOnResolve))
            && ("expire_on_resolve" in m ==> m["expire_on_resolve"] == Bool(true))
            && ("expire" in m <==> p.expire.Some? && p.expire.value.Expire?)
            && ("expire" in m ==> m["expire"] == Int(p.expire.value.secs))
  {
    KeyLengths();
  }

  /** The member names have pairwise different lengths, so they are pairwise distinct. */
  lemma KeyLengths()
    ensures |"check"| == 5 && |"creator"| == 7 && |"expire"| == 6
    ensures |"expire_on_resolve"| == 17 && |"subscription"| == 12
  {
  }

  function HexDigit(d: nat): char
    requires d < 16
  {
    "0123456789abcdef"[d]
  }

  /** serde_json's escaping of one character of a string. */
  function EscapeChar(c: char): string {
    if c == '"' then "\\\""
    else if c == '\\' then "\\\\"
    else if c == '\n' then "\\n"
    else if c == '\r' then "\\r"
    else if c == '\t' then "\\t"
    else if c as int == 8 then "\\b"
    else if c as int == 12 then "\\f"
    else if c as int < 0x20 then "\\u00" + [HexDigit(c as int / 16), HexDigit(c as int % 16)]
    else [c]
  }

  function Escape(s: string): string
    decreases |s|
  {
    if s == [] then [] else EscapeChar(s[0]) + Escape(s[1..])
  }

  /** Characters that stand for themselves inside a JSON string. */
  predicate Plain(s: string) {
    forall i :: 0 <= i < |s| ==> s[i] != '"' && s[i] != '\\' && s[i] as int >= 0x20
  }

  /** Plain text is written unchanged. */
  lemma {:induction false} PlainUnescaped(s: string)
    requires Plain(s)
    ensures Escape(s) == s
    decreases |s|
  {
    if s != [] {
      assert s[0] != '"' && s[0] != '\\' && s[0] as int >= 0x20;
      assert EscapeChar(s[0]) == [s[0]];
      PlainUnescaped(s[1..]);
      assert [s[0]] + s[1..] == s;
    }
  }

  /** Escaped text holds no raw control character, whatever the input. */
  lemma {:induction false} EscapedIsPrintable(s: string)
    ensures forall i :: 0 <= i < |Escape(s)| ==> Escape(s)[i] as int >= 0x20
    decreases |s|
  {
    if s != [] {
      EscapedIsPrintable(s[1..]);
      var head := EscapeChar(s[0]);
      var tail := Escape(s[1..]);
      EscapeCharPrintable(s[0]);
      forall i | 0 <= i < |head + tail| ensures (head + tail)[i] as int >= 0x20 {
        if i >= |head| {
          assert (head + tail)[i] == tail[i - |head|];
        }
      }
    }
  }

  lemma EscapeCharPrintable(c: char)
    ensures forall i :: 0 <= i < |EscapeChar(c)| ==> EscapeChar(c)[i] as int >= 0x20
  {
    if c as int < 0x20 && c != '\n' && c != '\r' && c != '\t' && c as int != 8 && c as int != 12 {
      var e := EscapeChar(c);
      assert e == "\\u00" + [HexDigit(c as int / 16), HexDigit(c as int % 16)];
      assert HexDigit(c as int / 16) as int >= 0x20 && HexDigit(c as int % 16) as int >= 0x20;
    }
  }

  /** `s` between double quotes, as it stands. */
  function Quoted(s: string): string {
    "\"" + s + "\""
  }

  /** A JSON string: `s` escaped, between double quotes. */
  function Quote(s: string): string {
    Quoted(Escape(s))
  }

  function IntText(n: int): string {
    if n < 0 then "-" + NatToString(-n) else NatToString(n)
  }

  function ScalarText(v: Json): string
    requires Scalar(v)
  {
    match v
    case Null => "null"
    case Bool(b) => if b then "true" else "false"
    case Int(n) => IntText(n)
    case Str(s) => Quote(s)
  }

  /** The keys of `m`, in the order of `keys`. */
  function PresentKeys(m: map<string, Json>, keys: seq<string>): seq<string>
    decreases |keys|
  {
    if keys == [] then []
    else (if keys[0] in m then [keys[0]] else []) + PresentKeys(m, keys[1..])
  }

  /** Only keys that are both present in `m` and listed in `keys` are selected. */
  lemma {:induction false} PresentKeysPresent(m: map<string, Json>, keys: seq<string>)
    ensures forall k :: k in PresentKeys(m, keys) ==> k in m && k in keys
    decreases |keys|
  {
    if keys != [] {
      PresentKeysPresent(m, keys[1..]);
    }
  }

  /** One `"name":value` member. The names are fixed plain words (`KeyOrder`), which
      the escaping leaves unchanged (`PlainKeys`), so they are written as they are. */
  function MemberText(key: string, v: Json): string
    requires Scalar(v)
  {
    Quoted(key) + ":" + ScalarText(v)
  }

  /** The `"name":value` texts of the given keys of `m`. */
  function MemberTexts(m: map<string, Json>, keys: seq<string>): seq<string>
    requires forall k :: k in m ==> Scalar(m[k])
    requires forall k :: k in keys ==> k in m
  {
    seq(|keys|, i requires 0 <= i < |keys| => MemberText(keys[i], m[keys[i]]))
  }

  /** `Into<String>` of a payload: the JSON text of its object, members sorted by name. */
  function PayloadText(p: LegacyPayload, user: Option<string>): string {
    PayloadFieldsSpec(p, user);
    var m := PayloadFields(p, user);
    PresentKeysPresent(m, KeyOrder);
    "{" + Join(MemberTexts(m, PresentKeys(m, KeyOrder)), ",") + "}"
  }

  /** The payload text built as the source does: insert the members one by one, then
      write the object. */
  method IntoString(p: LegacyPayload, user: Option<string>) returns (text: string)
    ensures text == PayloadText(p, user)
  {
    var payload: map<string, Json> := map[];
    payload := payload["creator" := Str(user.GetOr(DefaultCreator))];
    if p.res.Some? {
      match p.res.value {
        case Sub(s) => payload := payload["subscription" := Str(s)];
        case Client(c) => payload := payload["subscription" := Str("client:" + c)];
      }
    }
    if p.chk.Some? {
      payload := payload["check" := Str(p.chk.value)];
    }
    if p.expire == Some(ExpireOnResolve) {
      payload := payload["expire_on_resolve" := Bool(true)];
    } else if p.expire.Some? && p.expire.value.Expire? {
      payload := payload["expire" := Int(p.expire.value.secs)];
    }
    assert payload == PayloadFields(p, user);
    PayloadFieldsSpec(p, user);
    PresentKeysPresent(payload, KeyOrder);
    text := "{" + Join(MemberTexts(payload, PresentKeys(payload, KeyOrder)), ",") + "}";
  }

  lemma PresentOfKeys(m: map<string, Json>, k1: string, k2: string, k3: string, k4: string, k5: string)
    ensures PresentKeys(m, [k1, k2, k3, k4, k5])
            == (if k1 in m then [k1] else []) + ((if k2 in m then [k2] else []) + ((if k3 in m then [k3] else [])
               + ((if k4 in m then [k4] else []) + (if k5 in m then [k5] else []))))
  {
    PresentCons(m, [k1, k2, k3, k4, k5]);
    PresentCons(m, [k2, k3, k4, k5]);
    PresentCons(m, [k3, k4, k5]);
    PresentCons(m, [k4, k5]);
    PresentCons(m, [k5]);
  }

  lemma PresentCons(m: map<string, Json>, keys: seq<string>)
    requires keys != []
    ensures PresentKeys(m, keys) == (if keys[0] in m then [keys[0]] else []) + PresentKeys(m, keys[1..])
    ensures |keys| == 1 ==> PresentKeys(m, keys[1..]) == []
  {
  }

  /** The members in sorted order: check, creator, expire, expire_on_resolve,
      subscription, each present as the payload's fields say. */
  lemma KeysOfPayload(p: LegacyPayload, user: Option<string>)
    ensures PresentKeys(PayloadFields(p, user), KeyOrder)
            == (if p.chk.Some? then ["check"] else [])
               + (["creator"]
               + ((if p.expire.Some? && p.expire.value.Expire? then ["expire"] else [])
               + ((if p.expire == Some(ExpireOnResolve) then ["expire_on_resolve"] else [])
               + (if p.res.Some? then ["subscription"] else []))))
  {
    PayloadFieldsSpec(p, user);
    PresentOfKeys(PayloadFields(p, user), "check", "creator", "expire", "expire_on_resolve", "subscription");
  }

  /** A member whose string value is plain text. */
  lemma PlainMember(key: string, value: string)
    requires Plain(value)
    ensures MemberText(key, Str(value)) == Quoted(key) + ":" + Quoted(value)
  {
    PlainUnescaped(value);
  }

  /** The member names are plain, so escaping them would change nothing. */
  lemma PlainKeys()
    ensures forall i :: 0 <= i < |KeyOrder| ==> Plain(KeyOrder[i]) && Escape(KeyOrder[i]) == KeyOrder[i]
  {
    forall i | 0 <= i < |KeyOrder| ensures Plain(KeyOrder[i]) && Escape(KeyOrder[i]) == KeyOrder[i] {
      PlainUnescaped(KeyOrder[i]);
    }
  }

  lemma ClientPlain(r: string)
    requires Plain(r)
    ensures Plain("client:" + r)
  {
    var t := "client:" + r;
    forall i | 0 <= i < |t| ensures t[i] != '"' && t[i] != '\\' && t[i] as int >= 0x20 {
      if i >= 7 {
        assert t[i] == r[i - 7];
      }
    }
  }

  /** The text of an object with two or more members. */
  lemma ObjectText2(a: string, b: string)
    ensures "{" + Join([a, b], ",") + "}" == "{" + a + "," + b + "}"
  {
    assert [a, b][1..] == [b];
  }

  lemma ObjectText3(a: string, b: string, c: string)
    ensures "{" + Join([a, b, c], ",") + "}" == "{" + a + "," + b + "," + c + "}"
  {
    assert [a, b, c][1..] == [b, c];
    assert [b, c][1..] == [c];
    assert Join([b, c], ",") == b + "," + c;
    assert Join([a, b, c], ",") == a + "," + (b + "," + c);
  }

  lemma ObjectText4(a: string, b: string, c: string, d: string)
    ensures "{" + Join([a, b, c, d], ",") + "}" == "{" + a + "," + b + "," + c + "," + d + "}"
  {
    assert [a, b, c, d][1..] == [b, c, d];
    assert [b, c, d][1..] == [c, d];
    assert [c, d][1..] == [d];
    assert Join([c, d], ",") == c + "," + d;
    assert Join([b, c, d], ",") == b + "," + (c + "," + d);
    assert Join([a, b, c, d], ",") == a + "," + (b + "," + (c + "," + d));
  }

  /** The members of a check-only payload without expiry, in order. */
  lemma CheckOnlyMembers(c: string, u: string)
    ensures PayloadText(LegacyPayload(None, Some(c), Some(NoExpiration)), Some(u))
            == "{" + MemberText("check", Str(c)) + "," + MemberText("creator", Str(u)) + "}"
  {
    var p := LegacyPayload(None, Some(c), Some(NoExpiration));
    var m := PayloadFields(p, Some(u));
    KeysOfPayload(p, Some(u));
    PayloadFieldsSpec(p, Some(u));
    var ks := ["check", "creator"];
    assert PresentKeys(m, KeyOrder) == ks;
    var t1, t2 := MemberText("check", Str(c)), MemberText("creator", Str(u));
    assert MemberTexts(m, ks) == [t1, t2];
    ObjectText2(t1, t2);
  }

  /** With plain check name `c` and user `u`, a check-only payload without expiry. */
  lemma CheckOnlyShape(c: string, u: string)
    requires Plain(c) && Plain(u)
    ensures PayloadText(LegacyPayload(None, Some(c), Some(NoExpiration)), Some(u))
            == "{" + (Quoted("check") + ":" + Quoted(c)) + "," + (Quoted("creator") + ":" + Quoted(u)) + "}"
  {
    CheckOnlyMembers(c, u);
    PlainMember("check", c);
    PlainMember("creator", u);
  }

  lemma ClientAndCheckMembers(r: string, c: string, u: string)
    ensures PayloadText(LegacyPayload(Some(Client(r)), Some(c), Some(NoExpiration)), Some(u))
            == "{" + MemberText("check", Str(c)) + "," + MemberText("creator", Str(u))
               + "," + MemberText("subscription", Str("client:" + r)) + "}"
  {
    var p := LegacyPayload(Some(Client(r)), Some(c), Some(NoExpiration));
    var m := PayloadFields(p, Some(u));
    KeysOfPayload(p, Some(u));
    PayloadFieldsSpec(p, Some(u));
    var ks := ["check", "creator", "subscription"];
    assert PresentKeys(m, KeyOrder) == ks;
    var t1, t2, t3 := MemberText("check", Str(c)), MemberText("creator", Str(u)), MemberText("subscription", Str("client:" + r));
    assert MemberTexts(m, ks) == [t1, t2, t3];
    ObjectText3(t1, t2, t3);
  }

  /** A client resource, a check, no expiry. */
  lemma ClientAndCheckShape(r: string, c: string, u: string)
    requires Plain(r) && Plain(c) && Plain(u)
    ensures PayloadText(LegacyPayload(Some(Client(r)), Some(c), Some(NoExpiration)), Some(u))
            == "{" + (Quoted("check") + ":" + Quoted(c)) + "," + (Quoted("creator") + ":" + Quoted(u))
               + "," + (Quoted("subscription") + ":" + Quoted("client:" + r)) + "}"
  {
    ClientAndCheckMembers(r, c, u);
    ClientPlain(r);
    PlainMember("check", c);
    PlainMember("creator", u);
    PlainMember("subscription", "client:" + r);
  }

  lemma ExpiringMembers(r: string, c: string, n: nat, u: string)
    ensures PayloadText(LegacyPayload(Some(Sub(r)), Some(c), Some(Expire(n))), Some(u))
            == "{" + MemberText("check", Str(c)) + "," + MemberText("creator", Str(u)) + ","
               + MemberText("expire", Int(n)) + "," + MemberText("subscription", Str(r)) + "}"
  {
    var p := LegacyPayload(Some(Sub(r)), Some(c), Some(Expire(n)));
    var m := PayloadFields(p, Some(u));
    KeysOfPayload(p, Some(u));
    PayloadFieldsSpec(p, Some(u));
    var ks := ["check", "creator", "expire", "subscription"];
    assert PresentKeys(m, KeyOrder) == ks;
    var t1, t2, t3, t4 := MemberText("check", Str(c)), MemberText("creator", Str(u)),
                          MemberText("expire", Int(n)), MemberText("subscription", Str(r));
    assert MemberTexts(m, ks) == [t1, t2, t3, t4];
    ObjectText4(t1, t2, t3, t4);
  }

  /** A subscription, a check and a timed expiry. */
  lemma ExpiringShape(r: string, c: string, n: nat, u: string)
    requires Plain(r) && Plain(c) && Plain(u)
    ensures PayloadText(LegacyPayload(Some(Sub(r)), Some(c), Some(Expire(n))), Some(u))
            == "{" + (Quoted("check") + ":" + Quoted(c)) + "," + (Quoted("creator") + ":" + Quoted(u)) + ","
               + (Quoted("expire") + ":" + NatToString(n)) + "," + (Quoted("subscription") + ":" + Quoted(r)) + "}"
  {
    ExpiringMembers(r, c, n, u);
    PlainMember("check", c);
    PlainMember("creator", u);
    PlainMember("subscription", r);
  }

  lemma ExpireOnResolveMembers(r: string, u: string)
    ensures PayloadText(LegacyPayload(Some(Sub(r)), None, Some(ExpireOnResolve)), Some(u))
            == "{" + MemberText("creator", Str(u)) + "," + MemberText("expire_on_resolve", Bool(true)) + ","
               + MemberText("subscription", Str(r)) + "}"
  {
    var p := LegacyPayload(Some(Sub(r)), None, Some(ExpireOnResolve));
    var m := PayloadFields(p, Some(u));
    KeysOfPayload(p, Some(u));
    PayloadFieldsSpec(p, Some(u));
    var ks := ["creator", "expire_on_resolve", "subscription"];
    assert PresentKeys(m, KeyOrder) == ks;
    var t1, t2, t3 := MemberText("creator", Str(u)), MemberText("expire_on_resolve", Bool(true)), MemberText("subscription", Str(r));
    assert MemberTexts(m, ks) == [t1, t2, t3];
    ObjectText3(t1, t2, t3);
  }

  /** A subscription, no check, expiry on resolution. */
  lemma ExpireOnResolveShape(r: string, u: string)
    requires Plain(r) && Plain(u)
    ensures PayloadText(LegacyPayload(Some(Sub(r)), None, Some(ExpireOnResolve)), Some(u))
            == "{" + (Quoted("creator") + ":" + Quoted(u)) + "," + (Quoted("expire_on_resolve") + ":" + "true") + ","
               + (Quoted("subscription") + ":" + Quoted(r)) + "}"
  {
    ExpireOnResolveMembers(r, u);
    PlainMember("creator", u);
    PlainMember("subscription", r);
  }

  lemma NoExpiryMembers(r: string, u: string)
    ensures PayloadText(LegacyPayload(Some(Client(r)), None, None), Some(u))
            == "{" + MemberText("creator", Str(u)) + "," + MemberText("subscription", Str("client:" + r)) + "}"
  {
    var p := LegacyPayload(Some(Client(r)), None, None);
    var m := PayloadFields(p, Some(u));
    KeysOfPayload(p, Some(u));
    PayloadFieldsSpec(p, Some(u));
    var ks := ["creator", "subscription"];
    assert PresentKeys(m, KeyOrder) == ks;
    var t1, t2 := MemberText("creator", Str(u)), MemberText("subscription", Str("client:" + r));
    assert MemberTexts(m, ks) == [t1, t2];
    ObjectText2(t1, t2);
  }

  /** A client resource with neither check nor expiry. */
  lemma NoExpiryShape(r: string, u: string)
    requires Plain(r) && Plain(u)
    ensures PayloadText(LegacyPayload(Some(Client(r)), None, None), Some(u))
            == "{" + (Quoted("creator") + ":" + Quoted(u)) + "," + (Quoted("subscription") + ":" + Quoted("client:" + r)) + "}"
  {
    NoExpiryMembers(r, u);
    ClientPlain(r);
    PlainMember("creator", u);
    PlainMember("subscription", "client:" + r);
  }

  // ---------------------------------------------------------------------------
  // `map_iids_to_clients`, after the request

  /** The pair of a listing item, read with `get_fold_as_str`. */
  function LegacyEntryOf(item: Json): Option<(string, string)> {
    match (GetFoldAsStr(item, "instance_id"), GetFoldAsStr(item, "name"))
    case (Some(iid), Some(name)) => Some((iid, name))
    case _ => None
  }

  /** Reading the members through dotted-path lookup finds the same pairs as the later
      revision's direct member access. */
  lemma LegacyEntryAgrees(item: Json)
    ensures LegacyEntryOf(item) == A.EntryOf(item)
  {
    PlainKey(item, "instance_id");
    PlainKey(item, "name");
  }

  const NoResponse: string := "No response from client endpoint"

  /** The client names of the instance ids: a failed request is returned, a `None`
      response is an error (the legacy request never produces one: it always wraps
      the body in `Some`), a body that is not an array resolves nothing. */
  function IidsToClients(resp: A.Response, iids: seq<string>): Result<seq<string>, A.SensuError> {
    match resp
    case Err(e) => Err(e)
    case Ok(None) => Err(A.Message(NoResponse))
    case Ok(Some(body)) =>
      match GetAsVec(body)
      case Some(items) => Ok(A.Drain(iids, A.ClientMapOf(items)))
      case None => Ok([])
  }

  /** Every name returned is the client of an instance id that was asked for. */
  lemma {:induction false} DrainedNamesAreMapped(iids: seq<string>, m: map<string, string>)
    ensures |A.Drain(iids, m)| <= |iids|
    ensures forall n :: n in A.Drain(iids, m) ==> exists i :: 0 <= i < |iids| && iids[i] in m && m[iids[i]] == n
    decreases |iids|
  {
    if iids != [] {
      var m' := if iids[0] in m then m - {iids[0]} else m;
      DrainedNamesAreMapped(iids[1..], m');
      forall n | n in A.Drain(iids, m)
        ensures exists i :: 0 <= i < |iids| && iids[i] in m && m[iids[i]] == n
      {
        if !(iids[0] in m && n == m[iids[0]]) {
          assert n in A.Drain(iids[1..], m');
          var i :| 0 <= i < |iids[1..]| && iids[1..][i] in m' && m'[iids[1..][i]] == n;
          assert iids[i + 1] in m && m[iids[i + 1]] == n;
        }
      }
    }
  }

  /** A `None` response is the "no response" error; a body that is not an array
      resolves nothing. An empty or unparsable body reaches this function as the
      empty object `{}`, so it resolves nothing too. */
  lemma IidsEdgeCases(iids: seq<string>, body: Json)
    ensures IidsToClients(Ok(None), iids) == Err(A.Message(NoResponse))
    ensures !body.Array? ==> IidsToClients(Ok(Some(body)), iids) == Ok([])
    ensures IidsToClients(Ok(Some(Object(map[]))), iids) == Ok([])
  {
  }

  /** One step of filling the map: the pair of item `k`, when it has both members, is
      inserted over whatever the earlier items put there. */
  method InsertEntry(clientMap: map<string, string>, items: seq<Json>, k: nat) returns (m: map<string, string>)
    requires k < |items| && clientMap == A.ClientMapOf(items[..k])
    ensures m == A.ClientMapOf(items[..k + 1])
  {
    assert items[..k + 1][..k] == items[..k];
    LegacyEntryAgrees(items[k]);
    var entry := LegacyEntryOf(items[k]);
    m := clientMap;
    if entry.Some? {
      m := m[entry.value.0 := entry.value.1];
    }
  }

  /** `map_iids_to_clients` after its request: fill the map item by item, then drain
      the instance ids through it. */
  method MapIidsToClients(resp: A.Response, iids: seq<string>) returns (r: Result<seq<string>, A.SensuError>)
    ensures r == IidsToClients(resp, iids)
  {
    if resp.Err? {
      return Err(resp.error);
    }
    if resp.value.None? {
      return Err(A.Message(NoResponse));
    }
    var items := GetAsVec(resp.value.value);
    if items.None? {
      return Ok([]);
    }
    var clientMap: map<string, string> := map[];
    var k := 0;
    while k < |items.value|
      invariant 0 <= k <= |items.value|
      invariant clientMap == A.ClientMapOf(items.value[..k])
    {
      clientMap := InsertEntry(clientMap, items.value, k);
      k := k + 1;
    }
    assert items.value[..|items.value|] == items.value;
    var names := L.DrainNodes(iids, clientMap);
    return Ok(names);
  }
}
