/** A silencing target as the monitoring server names it (src/sensu/resource.rs). */
module Resource {
  import opened Common

  datatype SensuResource = Client(name: string) | Subscription(name: string)

  /** `Display`: a client is addressed through its per-client subscription
      "client:<name>", a subscription by its own name. */
  function Display(r: SensuResource): (text: string)
    ensures |Borrow(r)| <= |text| && text[|text| - |Borrow(r)|..] == Borrow(r)
    ensures text == Borrow(r) <==> r.Subscription?
    ensures r.Client? ==> text == "client:" + Borrow(r)
  {
    match r
    case Client(s) => "client:" + s
    case Subscription(s) => s
  }

  /** `Borrow<String>`: the bare name, whatever the kind. */
  function Borrow(r: SensuResource): string {
    match r
    case Client(s) => s
    case Subscription(s) => s
  }

  /** `Hash`: the name alone is fed to the hasher, which stands for any string hash. */
  function Hash(r: SensuResource, hasher: string -> int): int {
    hasher(Borrow(r))
  }

  /** The contract `Borrow` and `Hash` must keep with the derived equality:
      equal resources borrow the same name, and equal borrowed names hash alike. */
  lemma HashAgreesWithBorrow(a: SensuResource, b: SensuResource, hasher: string -> int)
    requires Borrow(a) == Borrow(b)
    ensures Hash(a, hasher) == Hash(b, hasher)
    ensures a == b ==> Borrow(a) == Borrow(b)
  {
  }

  /** A client and a subscription of the same name are different resources that
      borrow, and so hash, the same name. */
  lemma KindNotInBorrow(s: string, hasher: string -> int)
    ensures Client(s) != Subscription(s)
    ensures Borrow(Client(s)) == Borrow(Subscription(s))
    ensures Hash(Client(s), hasher) == Hash(Subscription(s), hasher)
  {
  }

  /** The rendering tells the kinds apart only by the "client:" prefix: a subscription
      whose own name starts with it reads like the client. */
  lemma DisplayCollision(s: string)
    ensures Display(Client(s)) == Display(Subscription("client:" + s))
    ensures Client(s) != Subscription("client:" + s)
  {
  }

  /** Within one kind the rendering is faithful. */
  lemma DisplayInjectiveWithinKind(a: SensuResource, b: SensuResource)
    requires a.Client? == b.Client?
    requires Display(a) == Display(b)
    ensures a == b
  {
    if a.Client? {
      assert a.name == Display(a)[7..] == Display(b)[7..] == b.name;
    }
  }
}
