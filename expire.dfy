/** How long a silence lasts (src/sensu/expire.rs). */
module Expiry {
  import opened Common

  /** `NoExpiration(eor)` never times out; `Expire(secs, eor)` times out after
      `secs` seconds. `eor` asks the server to lift the silence once the check resolves. */
  datatype Expire = NoExpiration(eor: bool) | Expire(secs: nat, eor: bool)

  /** `Display`: the phrase the confirmation messages use for a duration. */
  function Display(e: Expire): (text: string)
    ensures |text| >= 12
    ensures e.NoExpiration? ==> text[0] == 'n'
    ensures e.Expire? ==> text[..10] == "expire in " && text[0] == 'e'
  {
    match e
    case NoExpiration(true) => "not expire until resolution"
    case NoExpiration(false) => "never expire"
    case Expire(n, true) => "expire in " + NatToString(n) + " seconds or on resolution"
    case Expire(n, false) => "expire in " + NatToString(n) + " seconds"
  }

  /** The phrase pins down the duration: distinct durations never read alike. */
  lemma DisplayInjective(a: Expire, b: Expire)
    requires Display(a) == Display(b)
    ensures a == b
  {
    if a.Expire? && b.Expire? {
      TimedDisplayInjective(a.secs, a.eor, b.secs, b.eor);
    } else if a.NoExpiration? && b.NoExpiration? {
      assert |Display(a)| == |Display(b)|;
    }
  }

  lemma TimedDisplayInjective(m: nat, ea: bool, n: nat, eb: bool)
    requires Display(Expire(m, ea)) == Display(Expire(n, eb))
    ensures m == n && ea == eb
  {
    var ta, tb := TimedSuffix(ea), TimedSuffix(eb);
    TimedPhrase(m, ea);
    TimedPhrase(n, eb);
    SameAfterPrefix("expire in ", NatToString(m) + ta, NatToString(n) + tb);
    NumberThenText(m, n, ta, tb);
    assert |ta| == |tb|;
  }

  /** What a timed phrase says after its number. */
  function TimedSuffix(eor: bool): (t: string)
    ensures |t| >= 8 && t[0] == ' '
  {
    if eor then " seconds or on resolution" else " seconds"
  }

  lemma TimedPhrase(n: nat, eor: bool)
    ensures Display(Expire(n, eor)) == "expire in " + (NatToString(n) + TimedSuffix(eor))
  {
  }

  lemma SameAfterPrefix(p: string, x: string, y: string)
    requires p + x == p + y
    ensures x == y
  {
    assert x == (p + x)[|p|..];
  }
}
