/** The resource list handed from the command line to the resolver (src/resources.rs). */
module Resources {
  import opened Common

  /** How the names of a resource list address the monitoring server. */
  datatype ShushResourceType = Node | Client | Sub

  datatype ShushResources = ShushResources(resType: ShushResourceType, resources: seq<string>)

  /** A formatter error (`fmt::Error`). */
  datatype FmtError = FmtError

  function Prefix(t: ShushResourceType): string {
    match t
    case Node => "Instance IDs: "
    case Client => "Sensu clients: "
    case Sub => "Subscriptions: "
  }

  /** `Display`: the kind's prefix followed by the names joined with ", ";
      an empty list is a formatting error. */
  function Display(r: ShushResources): (out: Result<string, FmtError>)
    ensures out.Err? <==> r.resources == []
    ensures out.Ok? ==> |Prefix(r.resType)| <= |out.value|
                        && out.value[..|Prefix(r.resType)|] == Prefix(r.resType)
  {
    if |r.resources| > 0 then Ok(Prefix(r.resType) + Join(r.resources, ", ")) else Err(FmtError)
  }

  /** A joined list holds the separator's first character exactly when it has
      more than one name, and then first at the end of the first name. */
  lemma JoinFirstSeparator(a: seq<string>, c: char, pad: string)
    requires |a| >= 1
    requires forall i :: 0 <= i < |a| ==> c !in a[i]
    ensures |a| == 1 <==> c !in Join(a, [c] + pad)
    ensures |a| > 1 ==> Join(a, [c] + pad) == a[0] + ([c] + pad) + Join(a[1..], [c] + pad)
    ensures |a| > 1 ==> Join(a, [c] + pad)[|a[0]|] == c
    ensures forall i :: 0 <= i < |a[0]| ==> Join(a, [c] + pad)[i] == a[0][i]
  {
  }

  /** Joining with a separator that starts with a character no name contains loses nothing. */
  lemma {:induction false} JoinInjective(a: seq<string>, b: seq<string>, c: char, pad: string)
    requires |a| >= 1 && |b| >= 1
    requires forall i :: 0 <= i < |a| ==> c !in a[i]
    requires forall i :: 0 <= i < |b| ==> c !in b[i]
    requires Join(a, [c] + pad) == Join(b, [c] + pad)
    ensures a == b
    decreases |a|
  {
    var sep := [c] + pad;
    var s := Join(a, sep);
    JoinFirstSeparator(a, c, pad);
    JoinFirstSeparator(b, c, pad);
    if |a| == 1 {
      assert a[0] == s == b[0];
    } else {
      var ta, tb := Join(a[1..], sep), Join(b[1..], sep);
      assert forall i :: 0 <= i < |a[0]| ==> s[i] != c;
      assert forall i :: 0 <= i < |b[0]| ==> s[i] != c;
      assert |a[0]| == |b[0]|;
      assert a[0] == s[..|a[0]|] == b[0];
      var k := |a[0]| + |sep|;
      assert ta == s[k..] == tb;
      JoinInjective(a[1..], b[1..], c, pad);
      assert a == [a[0]] + a[1..] && b == [b[0]] + b[1..];
    }
  }

  /** Rendering loses nothing: two non-empty lists whose names hold no comma render
      alike only if they are the same list of the same kind. */
  lemma DisplayInjective(a: ShushResources, b: ShushResources)
    requires Display(a).Ok? && Display(a) == Display(b)
    requires forall i :: 0 <= i < |a.resources| ==> ',' !in a.resources[i]
    requires forall i :: 0 <= i < |b.resources| ==> ',' !in b.resources[i]
    ensures a == b
  {
    var out := Display(a).value;
    var pa, pb := Prefix(a.resType), Prefix(b.resType);
    assert out == pa + Join(a.resources, ", ") == pb + Join(b.resources, ", ");
    assert out[0] == pa[0] == pb[0] && out[1] == pa[1] == pb[1];
    assert a.resType == b.resType;
    assert Join(a.resources, ", ") == out[|pa|..] == Join(b.resources, ", ");
    assert ", " == [','] + " ";
    JoinInjective(a.resources, b.resources, ',', " ");
  }

  /** `ShushResourceIterator`, made by `into_iter`: hands out the names of a
      resource list in their original order, each exactly once. */
  class ShushResourceIterator {
    var remaining: seq<string>
    ghost var yielded: seq<string>
    ghost const original: seq<string>

    ghost predicate Valid()
      reads this
    {
      yielded + remaining == original
    }

    constructor (r: ShushResources)
      ensures Valid() && original == r.resources
      ensures yielded == [] && remaining == r.resources
    {
      remaining := r.resources;
      yielded := [];
      original := r.resources;
    }

    /** `next`: the first name not yet handed out, or nothing once all were. */
    method Next() returns (item: Option<string>)
      requires Valid()
      modifies this
      ensures Valid()
      ensures old(remaining) == [] ==> item == None && remaining == [] && yielded == old(yielded)
      ensures old(remaining) != [] ==>
                item == Some(old(remaining)[0]) && remaining == old(remaining)[1..]
                && yielded == old(yielded) + [old(remaining)[0]]
    {
      if remaining == [] {
        item := None;
      } else {
        item := Some(remaining[0]);
        yielded := yielded + [remaining[0]];
        remaining := remaining[1..];
      }
    }
  }
}
