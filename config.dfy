/** The configuration file: the retained keys and the `${NAME}` substitution applied
    to their values (src/config.rs). */
module Config {
  import opened Common

  /** `pat` occurs in `s` starting at index `j`. */
  predicate OccursAt(s: string, pat: string, j: nat) {
    j + |pat| <= |s| && s[j..j + |pat|] == pat
  }

  /** The first index at which `pat` occurs in `s`, if any. */
  function IndexOf(s: string, pat: string): (r: Option<nat>)
    ensures r.Some? ==> OccursAt(s, pat, r.value)
    ensures r.Some? ==> forall j: nat :: j < r.value ==> !OccursAt(s, pat, j)
    ensures r.None? ==> forall j: nat :: !OccursAt(s, pat, j)
    decreases |s|
  {
    if |s| < |pat| then None
    else if s[..|pat|] == pat then Some(0)
    else
      match IndexOf(s[1..], pat)
      case None =>
        assert forall j: nat :: !OccursAt(s, pat, j) by {
          forall j: nat ensures !OccursAt(s, pat, j) {
            if j == 0 {
              assert s[0..|pat|] == s[..|pat|];
            } else if j + |pat| <= |s| {
              assert s[1..][j - 1..j - 1 + |pat|] == s[j..j + |pat|];
              assert !OccursAt(s[1..], pat, j - 1);
            }
          }
        }
        None
      case Some(k) =>
        assert s[1..][k..k + |pat|] == s[k + 1..k + 1 + |pat|];
        assert forall j: nat :: j < k + 1 ==> !OccursAt(s, pat, j) by {
          forall j: nat | j < k + 1 ensures !OccursAt(s, pat, j) {
            if j == 0 {
              assert s[0..|pat|] == s[..|pat|];
            } else if j + |pat| <= |s| {
              assert s[1..][j - 1..j - 1 + |pat|] == s[j..j + |pat|];
              assert !OccursAt(s[1..], pat, j - 1);
            }
          }
        }
        Some(k + 1)
  }

  /** `str::contains`. */
  predicate Contains(s: string, pat: string) {
    IndexOf(s, pat).Some?
  }

  /** Why a substitution fails: the input ends before a `${` or its closing `}` (the
      streaming parser asks for more input), or a named variable is not set. */
  datatype SubstError = Incomplete | MissingVar(name: string)

  /** `get_env_var`: the text before the first `${`, followed by the value of the
      variable named between it and the next `}`; also returns the input left after
      that `}`. `env` holds the environment's variables. */
  function GetEnvVar(input: string, env: map<string, string>): (r: Result<(string, string), SubstError>)
    ensures r.Ok? ==> |r.value.0| < |input| && r.value.0 == input[|input| - |r.value.0|..]
  {
    match IndexOf(input, "${")
    case None => Err(Incomplete)
    case Some(k) =>
      var after := input[k + 2..];
      match IndexOf(after, "}")
      case None => Err(Incomplete)
      case Some(m) =>
        var name := after[..m];
        if name in env then
          assert after[m + 1..] == input[k + 2 + m + 1..];
          Ok((after[m + 1..], input[..k] + env[name]))
        else Err(MissingVar(name))
  }

  /** `sub_or_rest`: one substitution if a `${` remains, otherwise all the input verbatim. */
  function SubOrRest(input: string, env: map<string, string>): (r: Result<(string, string), SubstError>)
    ensures r.Ok? ==> |r.value.0| <= |input| && r.value.0 == input[|input| - |r.value.0|..]
    ensures r.Ok? && input != [] ==> |r.value.0| < |input|
    ensures !Contains(input, "${") ==> r == Ok(([], input))
  {
    if Contains(input, "${") then GetEnvVar(input, env) else Ok(([], input))
  }

  function Prepend(prefix: string, r: Result<string, SubstError>): Result<string, SubstError> {
    match r
    case Ok(s) => Ok(prefix + s)
    case Err(e) => Err(e)
  }

  /** What `substitute_vars` computes: step after step of `sub_or_rest` until the input
      is used up, the outputs concatenated; the first failing step fails the whole. */
  function Substituted(input: string, env: map<string, string>): Result<string, SubstError>
    decreases |input|
  {
    match SubOrRest(input, env)
    case Err(e) => Err(e)
    case Ok((rest, out)) => if rest == [] then Ok(out) else Prepend(out, Substituted(rest, env))
  }

  /** The substitution of what is left after a step; nothing is left to do once the
      input is used up. */
  function Resume(rest: string, env: map<string, string>): Result<string, SubstError> {
    if rest == [] then Ok([]) else Substituted(rest, env)
  }

  /** `substitute_vars`. */
  method SubstituteVars(input: string, env: map<string, string>) returns (r: Result<string, SubstError>)
    ensures r == Substituted(input, env)
  {
    var first := SubOrRest(input, env);
    if first.Err? {
      return Err(first.error);
    }
    var i, o := first.value.0, first.value.1;
    assert o + [] == o;
    while |i| > 0
      invariant Substituted(input, env) == Prepend(o, Resume(i, env))
      decreases |i|
    {
      var step := SubOrRest(i, env);
      if step.Err? {
        return Err(step.error);
      }
      assert step.value.1 + [] == step.value.1;
      assert Resume(i, env) == Prepend(step.value.1, Resume(step.value.0, env));
      PrependPrepend(o, step.value.1, Resume(step.value.0, env));
      i, o := step.value.0, o + step.value.1;
    }
    assert o + [] == o;
    return Ok(o);
  }

  lemma PrependPrepend(a: string, b: string, r: Result<string, SubstError>)
    ensures Prepend(a, Prepend(b, r)) == Prepend(a + b, r)
  {
    if r.Ok? {
      assert a + (b + r.value) == (a + b) + r.value;
    }
  }

  /** A literal piece followed by the variable whose value replaces `${name}`. */
  datatype Segment = Segment(lit: string, name: string)

  /** A value as written: every segment's literal then `${name}`, then the tail. */
  function Print(segs: seq<Segment>, tail: string): string
    decreases |segs|
  {
    if segs == [] then tail
    else segs[0].lit + "${" + segs[0].name + "}" + Print(segs[1..], tail)
  }

  /** A value as meant: every reference replaced by its variable's value, verbatim;
      the first variable that is not set is an error. */
  function Render(segs: seq<Segment>, tail: string, env: map<string, string>): Result<string, SubstError>
    decreases |segs|
  {
    if segs == [] then Ok(tail)
    else if segs[0].name !in env then Err(MissingVar(segs[0].name))
    else Prepend(segs[0].lit + env[segs[0].name], Render(segs[1..], tail, env))
  }

  /** Segments that print back unambiguously: literals and the tail hold no `${`, and
      names hold no `}`. */
  predicate WellFormed(segs: seq<Segment>, tail: string) {
    !Contains(tail, "${")
    && forall i :: 0 <= i < |segs| ==> !Contains(segs[i].lit, "${") && '}' !in segs[i].name
  }

  lemma FirstMarker(x: string, rest: string)
    requires !Contains(x, "${")
    ensures IndexOf(x + "${" + rest, "${") == Some(|x|)
  {
    var s := x + "${" + rest;
    assert OccursAt(s, "${", |x|) by {
      assert s[|x|..|x| + 2] == "${";
    }
    forall j: nat | j < |x| ensures !OccursAt(s, "${", j) {
      if j + 2 <= |x| {
        assert s[j..j + 2] == x[j..j + 2];
        assert !OccursAt(x, "${", j);
      } else {
        assert s[j + 1] == '$';
      }
    }
  }

  lemma FirstBrace(name: string, rest: string)
    requires '}' !in name
    ensures IndexOf(name + "}" + rest, "}") == Some(|name|)
  {
    var s := name + "}" + rest;
    assert OccursAt(s, "}", |name|) by {
      assert s[|name|..|name| + 1] == "}";
    }
    forall j: nat | j < |name| ensures !OccursAt(s, "}", j) {
      assert s[j..j + 1] == [name[j]];
    }
  }

  /** One step on a printed value consumes exactly its first reference. */
  lemma StepOnSegment(seg: Segment, rest: string, env: map<string, string>)
    requires !Contains(seg.lit, "${") && '}' !in seg.name
    ensures Contains(seg.lit + "${" + seg.name + "}" + rest, "${")
    ensures SubOrRest(seg.lit + "${" + seg.name + "}" + rest, env)
            == if seg.name in env then Ok((rest, seg.lit + env[seg.name])) else Err(MissingVar(seg.name))
  {
    var s := seg.lit + "${" + seg.name + "}" + rest;
    assert s == seg.lit + "${" + (seg.name + "}" + rest);
    FirstMarker(seg.lit, seg.name + "}" + rest);
    var k := |seg.lit|;
    assert s[k + 2..] == seg.name + "}" + rest;
    assert s[..k] == seg.lit;
    FirstBrace(seg.name, rest);
    var after := s[k + 2..];
    assert after[..|seg.name|] == seg.name;
    assert after[|seg.name| + 1..] == rest;
  }

  /** Substitution does what the syntax promises: each `${name}` is replaced by the
      variable's value, inserted verbatim and never rescanned, the literal text around
      it is kept, and scanning resumes after the closing brace. */
  lemma {:induction false} SubstitutionRenders(segs: seq<Segment>, tail: string, env: map<string, string>)
    requires WellFormed(segs, tail)
    ensures Substituted(Print(segs, tail), env) == Render(segs, tail, env)
    decreases |segs|
  {
    if segs == [] {
      assert Print(segs, tail) == tail;
      assert SubOrRest(tail, env) == Ok(([], tail));
      if tail != [] {
        assert Resume([], env) == Ok([]);
      }
      assert tail + [] == tail;
    } else {
      var rest := Print(segs[1..], tail);
      assert WellFormed(segs[1..], tail) by {
        assert forall i :: 0 <= i < |segs[1..]| ==> segs[1..][i] == segs[i + 1];
      }
      StepOnSegment(segs[0], rest, env);
      if segs[0].name in env {
        SubstitutionRenders(segs[1..], tail, env);
        var head := segs[0].lit + env[segs[0].name];
        if rest == [] {
          RenderEmpty(segs[1..], tail, env);
          assert head + [] == head;
        }
      }
    }
  }

  lemma {:induction false} RenderEmpty(segs: seq<Segment>, tail: string, env: map<string, string>)
    ensures Print(segs, tail) == [] ==> Render(segs, tail, env) == Ok([])
  {
    if segs != [] {
      assert |Print(segs, tail)| >= 3;
    }
  }

  /** Text without a `$` holds no reference. */
  lemma NoDollar(x: string)
    requires '$' !in x
    ensures !Contains(x, "${")
  {
    forall j: nat | j + 2 <= |x| ensures !OccursAt(x, "${", j) {
      assert x[j..j + 2][0] == x[j];
    }
  }

  /** Input with no `${` comes back unchanged. */
  lemma NoReferenceUnchanged(input: string, env: map<string, string>)
    requires !Contains(input, "${")
    ensures Substituted(input, env) == Ok(input)
  {
    SubstitutionRenders([], input, env);
  }

  /** A reference whose variable is not set fails the substitution. */
  lemma MissingVariable(lit: string, name: string, tail: string, env: map<string, string>)
    requires !Contains(lit, "${") && '}' !in name && !Contains(tail, "${")
    requires name !in env
    ensures Substituted(lit + "${" + name + "}" + tail, env) == Err(MissingVar(name))
  {
    var segs := [Segment(lit, name)];
    assert Print(segs[1..], tail) == tail;
    assert Print(segs, tail) == lit + "${" + name + "}" + tail;
    SubstitutionRenders(segs, tail, env);
  }

  /** A `${` that is never closed fails the substitution (the malformed-input test of
      src/config.rs is the instance `lit` = "https://localhost/", `name` = "ARG"). */
  lemma Unterminated(s: string, lit: string, name: string, env: map<string, string>)
    requires !Contains(lit, "${") && '}' !in name
    requires s == lit + "${" + name
    ensures Substituted(s, env) == Err(Incomplete)
  {
    FirstMarker(lit, name);
    assert s[|lit| + 2..] == name;
    forall j: nat ensures !OccursAt(name, "}", j) {
      if j + 1 <= |name| {
        assert name[j..j + 1] == [name[j]];
      }
    }
  }

  /** The environment of the tests in src/config.rs. */
  function TestEnv(): map<string, string> {
    map["USER" := "jbaublitz", "EXAMPLE_HOST" := "something.host.net", "ARG" := "path"]
  }

  /** Two references in a row, each after its literal text. */
  lemma TwoReferences(a: string, x: string, b: string, y: string, env: map<string, string>)
    requires !Contains(a, "${") && !Contains(b, "${") && '}' !in x && '}' !in y
    requires x in env && y in env
    ensures Substituted(a + "${" + x + "}" + (b + "${" + y + "}"), env) == Ok(a + env[x] + (b + env[y]))
  {
    var r := b + "${" + y + "}";
    StepOnSegment(Segment(b, y), [], env);
    assert r + [] == r;
    StepOnSegment(Segment(a, x), r, env);
  }

  lemma HostAndPathInput(s: string)
    requires s == "https://${EXAMPLE_HOST}/${ARG}"
    ensures s == "https://" + "${" + "EXAMPLE_HOST" + "}" + ("/" + "${" + "ARG" + "}")
  {
  }

  lemma HostAndPathOutput(t: string)
    requires t == "https://something.host.net/path"
    ensures t == "https://" + "something.host.net" + ("/" + "path")
  {
  }

  lemma HostAndPathEnv(env: map<string, string>)
    requires env == TestEnv()
    ensures "EXAMPLE_HOST" in env && env["EXAMPLE_HOST"] == "something.host.net"
    ensures "ARG" in env && env["ARG"] == "path"
  {
  }

  /** The substitution test of src/config.rs with two references. */
  lemma HostAndPathExample(input: string, env: map<string, string>)
    requires input == "https://${EXAMPLE_HOST}/${ARG}" && env == TestEnv()
    ensures Substituted(input, env) == Ok("https://something.host.net/path")
  {
    HostAndPathEnv(env);
    NoDollar("https://");
    NoDollar("/");
    TwoReferences("https://", "EXAMPLE_HOST", "/", "ARG", env);
    HostAndPathInput(input);
    HostAndPathOutput("https://something.host.net/path");
  }

  lemma NotPresentInput(s: string)
    requires s == "https://localhost/${NOT_PRESENT}"
    ensures s == "https://localhost/" + "${" + "NOT_PRESENT" + "}" + ""
  {
  }

  lemma NotPresentEnv(env: map<string, string>)
    requires env == TestEnv()
    ensures "NOT_PRESENT" !in env
  {
  }

  lemma NotPresentReference(lit: string, name: string, env: map<string, string>)
    requires lit == "https://localhost/" && name == "NOT_PRESENT" && env == TestEnv()
    ensures Substituted(lit + "${" + name + "}" + "", env) == Err(MissingVar(name))
  {
    NotPresentEnv(env);
    NoDollar(lit);
    NoDollar("");
    MissingVariable(lit, name, "", env);
  }

  /** The failing test of src/config.rs with an unset variable. */
  lemma NotPresentExample(input: string, env: map<string, string>)
    requires input == "https://localhost/${NOT_PRESENT}" && env == TestEnv()
    ensures Substituted(input, env) == Err(MissingVar("NOT_PRESENT"))
  {
    NotPresentReference("https://localhost/", "NOT_PRESENT", env);
    NotPresentInput(input);
  }

  /** The only key the tool reads from its configuration file. */
  const ApiKey: string := "api"

  /** The retained entries after inserting, in order, every property whose key is
      "api"; a later one replaces an earlier one. */
  function ApiOnly(props: seq<(string, string)>): map<string, string>
    decreases |props|
  {
    if props == [] then map[]
    else
      var m := ApiOnly(props[..|props| - 1]);
      var last := props[|props| - 1];
      if last.0 == ApiKey then m[last.0 := last.1] else m
  }

  /** Only "api" is retained, it is present iff some property has that key, and it
      holds the value of the last such property. */
  lemma {:induction false} ApiOnlyRetains(props: seq<(string, string)>)
    ensures ApiOnly(props).Keys <= {ApiKey}
    ensures ApiKey in ApiOnly(props) <==> exists i :: 0 <= i < |props| && props[i].0 == ApiKey
    ensures ApiKey in ApiOnly(props) ==>
              exists i :: 0 <= i < |props| && props[i] == (ApiKey, ApiOnly(props)[ApiKey])
                          && forall j :: i < j < |props| ==> props[j].0 != ApiKey
    decreases |props|
  {
    if props != [] {
      var init := props[..|props| - 1];
      ApiOnlyRetains(init);
      assert forall i :: 0 <= i < |init| ==> init[i] == props[i];
      if props[|props| - 1].0 != ApiKey && ApiKey in ApiOnly(props) {
        var i :| 0 <= i < |init| && init[i] == (ApiKey, ApiOnly(init)[ApiKey])
                 && forall j :: i < j < |init| ==> init[j].0 != ApiKey;
        assert props[i] == (ApiKey, ApiOnly(props)[ApiKey]);
      }
    }
  }

  /** `ShushConfig`: the retained entries of the configuration file. */
  class ShushConfig {
    var entries: map<string, string>

    /** The parsing part of `ShushConfig::new`: `props` are the key/value pairs of
        every section of the file, in the order the INI reader yields them. */
    constructor (props: seq<(string, string)>)
      ensures entries == ApiOnly(props)
    {
      var hm: map<string, string> := map[];
      var i := 0;
      while i < |props|
        invariant 0 <= i <= |props|
        invariant hm == ApiOnly(props[..i])
      {
        assert props[..i + 1][..i] == props[..i];
        if props[i].0 == ApiKey {
          hm := hm[props[i].0 := props[i].1];
        }
        i := i + 1;
      }
      assert props[..|props|] == props;
      entries := hm;
    }

    /** `get`: nothing for an absent key, otherwise the substituted value; a value
        that fails to substitute ends the process (the error outcome). */
    method Get(key: string, env: map<string, string>) returns (r: Result<Option<string>, SubstError>)
      ensures key !in entries ==> r == Ok(None)
      ensures key in entries ==> match Substituted(entries[key], env)
                                 case Ok(v) => r == Ok(Some(v))
                                 case Err(e) => r == Err(e)
    {
      if key !in entries {
        return Ok(None);
      }
      var out := SubstituteVars(entries[key], env);
      match out
      case Ok(v) => r := Ok(Some(v));
      case Err(e) => r := Err(e);
    }
  }
}
