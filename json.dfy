/** JSON values of the monitoring server's responses and the dotted-path lookup
    over them (`JsonRef` in src/json.rs). */
module Json {
  import opened Common

  /** A JSON value. Integers carry their exact value; `Float` stands for a number
      that only has a floating-point representation. */
  datatype Json =
    | Null
    | Bool(b: bool)
    | Int(n: int)
    | Float(f: real)
    | Str(s: string)
    | Array(items: seq<Json>)
    | Object(fields: map<string, Json>)

  const I64Min: int := -0x8000_0000_0000_0000
  const I64Bound: int := 0x8000_0000_0000_0000
  const U64Bound: int := 0x1_0000_0000_0000_0000

  /** `Value::get` with a key: the member of an object, nothing for any other value. */
  function Member(v: Json, key: string): Option<Json> {
    if v.Object? && key in v.fields then Some(v.fields[key]) else None
  }

  /** The value reached from `v` by following `path` one object member at a time;
      once a segment is missing the lookup stays missing. */
  function GetPath(v: Json, path: seq<string>): Option<Json>
    decreases |path|
  {
    if path == [] then Some(v)
    else match Member(v, path[0])
      case None => None
      case Some(w) => GetPath(w, path[1..])
  }

  /** `get_fold`: split the key on "." and follow the segments. */
  function GetFold(v: Json, key: string): Option<Json> {
    GetPath(v, Split(key, '.'))
  }

  function AsStr(v: Json): Option<string> {
    if v.Str? then Some(v.s) else None
  }

  function AsBool(v: Json): Option<bool> {
    if v.Bool? then Some(v.b) else None
  }

  /** `as_i64`: an integer that fits in 64 signed bits. */
  function AsI64(v: Json): Option<int> {
    if v.Int? && I64Min <= v.n < I64Bound then Some(v.n) else None
  }

  /** `as_u64`: an integer that fits in 64 unsigned bits. */
  function AsU64(v: Json): Option<nat> {
    if v.Int? && 0 <= v.n < U64Bound then Some(v.n) else None
  }

  function GetFoldAsStr(v: Json, key: string): (r: Option<string>)
    ensures r.Some? <==> GetFold(v, key).Some? && GetFold(v, key).value.Str?
    ensures r.Some? ==> GetFold(v, key) == Some(Str(r.value))
  {
    match GetFold(v, key)
    case Some(w) => AsStr(w)
    case None => None
  }

  function GetFoldAsBool(v: Json, key: string): (r: Option<bool>)
    ensures r.Some? <==> GetFold(v, key).Some? && GetFold(v, key).value.Bool?
    ensures r.Some? ==> GetFold(v, key) == Some(Bool(r.value))
  {
    match GetFold(v, key)
    case Some(w) => AsBool(w)
    case None => None
  }

  function GetFoldAsI64(v: Json, key: string): (r: Option<int>)
    ensures r.Some? <==> GetFold(v, key).Some? && GetFold(v, key).value.Int?
                         && I64Min <= GetFold(v, key).value.n < I64Bound
    ensures r.Some? ==> GetFold(v, key) == Some(Int(r.value))
  {
    match GetFold(v, key)
    case Some(w) => AsI64(w)
    case None => None
  }

  function GetFoldAsStrDef(v: Json, key: string, def: string): (r: string)
    ensures GetFoldAsStr(v, key).None? ==> r == def
    ensures GetFoldAsStr(v, key).Some? ==> r == GetFoldAsStr(v, key).value
  {
    GetFoldAsStr(v, key).GetOr(def)
  }

  function GetFoldAsBoolDef(v: Json, key: string, def: bool): (r: bool)
    ensures GetFoldAsBool(v, key).None? ==> r == def
    ensures GetFoldAsBool(v, key).Some? ==> r == GetFoldAsBool(v, key).value
  {
    GetFoldAsBool(v, key).GetOr(def)
  }

  function GetFoldAsI64Def(v: Json, key: string, def: int): (r: int)
    ensures GetFoldAsI64(v, key).None? ==> r == def
    ensures GetFoldAsI64(v, key).Some? ==> r == GetFoldAsI64(v, key).value
  {
    GetFoldAsI64(v, key).GetOr(def)
  }

  /** `get_as_vec`: the elements of an array, in order, and nothing for any other value. */
  function GetAsVec(v: Json): (r: Option<seq<Json>>)
    ensures r.Some? <==> v.Array?
    ensures r.Some? ==> r.value == v.items
  {
    match v
    case Array(items) => Some(items)
    case _ => None
  }

  /** Following `p + q` is following `p`, then `q` from where `p` ended. */
  lemma {:induction false} GetPathAppend(v: Json, p: seq<string>, q: seq<string>)
    ensures GetPath(v, p + q) == match GetPath(v, p)
                                 case None => None
                                 case Some(w) => GetPath(w, q)
    decreases |p|
  {
    if p == [] {
      assert p + q == q;
    } else {
      assert (p + q)[0] == p[0] && (p + q)[1..] == p[1..] + q;
      match Member(v, p[0])
      case None =>
      case Some(w) => GetPathAppend(w, p[1..], q);
    }
  }

  /** A lookup that misses a segment stays missing, whatever follows. */
  lemma MissingSegment(v: Json, p: seq<string>, q: seq<string>)
    requires GetPath(v, p).None?
    ensures GetPath(v, p + q).None?
  {
    GetPathAppend(v, p, q);
  }

  /** A dotted key made of dot-free segments follows exactly those segments. */
  lemma DottedKey(v: Json, segments: seq<string>)
    requires |segments| >= 1
    requires forall i :: 0 <= i < |segments| ==> '.' !in segments[i]
    ensures GetFold(v, Join(segments, ".")) == GetPath(v, segments)
  {
    SplitJoin(segments, '.');
  }

  /** A key without a dot is a single member lookup. */
  lemma {:induction false} PlainKey(v: Json, key: string)
    requires '.' !in key
    ensures GetFold(v, key) == Member(v, key)
  {
    SplitJoin([key], '.');
    assert Join([key], ".") == key;
    match Member(v, key)
    case None =>
    case Some(w) => assert GetPath(w, [key][1..]) == Some(w);
  }

  /** The document of the tests in src/json.rs. */
  function TestDocument(): Json {
    Object(map["this" := Object(map["is" := Object(map[
      "a" := Str("tested thing"),
      "not" := Object(map["a" := Str("test")])])])])
  }

  lemma TestDocumentPrefix()
    ensures GetPath(TestDocument(), ["this", "is"])
            == Some(Object(map["a" := Str("tested thing"), "not" := Object(map["a" := Str("test")])]))
  {
    var doc := TestDocument();
    assert GetPath(doc, ["this", "is"]) == GetPath(doc.fields["this"], ["is"]);
  }

  lemma NotAJoined()
    ensures Join(["this", "is", "not", "a"], ".") == "this.is.not.a"
  {
    JoinCons("not", ["a"], ".");
    assert Join(["not", "a"], ".") == "not.a";
    JoinCons("is", ["not", "a"], ".");
    assert Join(["is", "not", "a"], ".") == "is.not.a";
    JoinCons("this", ["is", "not", "a"], ".");
  }

  lemma LeafJoined()
    ensures Join(["this", "is", "a"], ".") == "this.is.a"
  {
    JoinCons("is", ["a"], ".");
    assert Join(["is", "a"], ".") == "is.a";
    JoinCons("this", ["is", "a"], ".");
  }

  lemma CouldBeJoined()
    ensures Join(["this", "is", "could", "be", "a"], ".") == "this.is.could.be.a"
  {
    JoinCons("be", ["a"], ".");
    assert Join(["be", "a"], ".") == "be.a";
    JoinCons("could", ["be", "a"], ".");
    assert Join(["could", "be", "a"], ".") == "could.be.a";
    JoinCons("is", ["could", "be", "a"], ".");
    assert Join(["is", "could", "be", "a"], ".") == "is.could.be.a";
    JoinCons("this", ["is", "could", "be", "a"], ".");
  }

  /** The lookups of the `get_fold` test in src/json.rs. */
  lemma FoldExampleNested(doc: Json, key: string)
    requires doc == TestDocument() && key == "this.is.not.a"
    ensures GetFold(doc, key) == Some(Str("test"))
  {
    var segs := ["this", "is", "not", "a"];
    NotAJoined();
    DottedKey(doc, segs);
    TestDocumentPrefix();
    GetPathAppend(doc, ["this", "is"], ["not", "a"]);
    assert ["this", "is"] + ["not", "a"] == segs;
  }

  lemma FoldExampleLeaf(doc: Json, key: string)
    requires doc == TestDocument() && key == "this.is.a"
    ensures GetFold(doc, key) == Some(Str("tested thing"))
  {
    var segs := ["this", "is", "a"];
    LeafJoined();
    DottedKey(doc, segs);
    TestDocumentPrefix();
    GetPathAppend(doc, ["this", "is"], ["a"]);
    assert ["this", "is"] + ["a"] == segs;
  }

  /** The missing key of the `get_fold` and `get_fold_as_str` tests in src/json.rs. */
  lemma FoldExampleMissing(doc: Json, key: string)
    requires doc == TestDocument() && key == "this.is.could.be.a"
    ensures GetFold(doc, key) == None
    ensures GetFoldAsStrDef(doc, key, "success") == "success"
  {
    var segs := ["this", "is", "could", "be", "a"];
    CouldBeJoined();
    DottedKey(doc, segs);
    TestDocumentPrefix();
    GetPathAppend(doc, ["this", "is"], ["could", "be", "a"]);
    assert ["this", "is"] + ["could", "be", "a"] == segs;
  }
}
