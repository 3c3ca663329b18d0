/** The client of the monitoring server's HTTP API: resolving resources to
    silencing targets and issuing silence, clear and list requests
    (src/sensu/client.rs). The HTTP exchange is an oracle: `server(history, request)`
    is the response to `request` after the requests in `history`. */
module SensuApi {
  import opened Common
  import opened Json
  import X = Expiry
  import R = Resource
  import E = Endpoint
  import P = Payload
  import Rs = Resources
  import O = Opts

  datatype HttpMethod = Get | Post

  /** A failed request: a 404, or any other failure with its message. */
  datatype SensuError = NotFound | Message(msg: string)

  datatype Request = Request(verb: HttpMethod, endpoint: E.SensuEndpoint, body: Option<P.SensuPayload>)

  /** A parsed JSON body, nothing for an empty body, or the failure. */
  type Response = Result<Option<Json>, SensuError>

  type Server = (seq<Request>, Request) -> Response

  /** A result together with the request log after computing it. */
  datatype Run<T> = Run(result: T, log: seq<Request>)

  /** Why a silence or clear stops: resolving the resources failed, a POST failed
      (the process exits), or there was nothing to address (the process exits). */
  datatype RunError = ResolveFailed(cause: SensuError) | PostFailed(cause: SensuError) | NoTargets

  function ListingRequest(): Request {
    Request(Get, E.Clients, None)
  }

  function ClientRequest(name: string): Request {
    Request(Get, E.Client(name), None)
  }

  function ClientRequests(names: seq<string>): seq<Request> {
    seq(|names|, i requires 0 <= i < |names| => ClientRequest(names[i]))
  }

  function Posts(ep: E.SensuEndpoint, ps: seq<P.SensuPayload>): seq<Request> {
    seq(|ps|, i requires 0 <= i < |ps| => Request(Post, ep, Some(ps[i])))
  }

  function Clients(names: seq<string>): seq<R.SensuResource> {
    seq(|names|, i requires 0 <= i < |names| => R.Client(names[i]))
  }

  function Subscriptions(names: seq<string>): seq<R.SensuResource> {
    seq(|names|, i requires 0 <= i < |names| => R.Subscription(names[i]))
  }

  function Displays(rs: seq<R.SensuResource>): seq<string> {
    seq(|rs|, i requires 0 <= i < |rs| => R.Display(rs[i]))
  }

  // ---------------------------------------------------------------------------
  // The instance-id to client-name map (`get_node_to_client_map`)

  /** The (instance id, client name) pair of one listing item: both members must be
      strings of an object, anything else contributes nothing. */
  function EntryOf(item: Json): (e: Option<(string, string)>)
    ensures e.Some? <==> item.Object? && "instance_id" in item.fields && item.fields["instance_id"].Str?
                         && "name" in item.fields && item.fields["name"].Str?
    ensures e.Some? ==> item.fields["instance_id"] == Str(e.value.0) && item.fields["name"] == Str(e.value.1)
  {
    match (Member(item, "instance_id"), Member(item, "name"))
    case (Some(Str(iid)), Some(Str(name))) => Some((iid, name))
    case _ => None
  }

  /** The map after inserting every item's pair in listing order. */
  function ClientMapOf(items: seq<Json>): map<string, string>
    decreases |items|
  {
    if items == [] then map[]
    else
      var m := ClientMapOf(items[..|items| - 1]);
      match EntryOf(items[|items| - 1])
      case Some(e) => m[e.0 := e.1]
      case None => m
  }

  /** The map of a listing response: empty unless the body is an array. */
  function ListingMap(listing: Option<Json>): map<string, string> {
    match listing
    case Some(Array(items)) => ClientMapOf(items)
    case _ => map[]
  }

  /** An instance id is mapped exactly when some item carries it with a name, and it
      maps to the name of the last such item. */
  lemma {:induction false} ClientMapEntries(items: seq<Json>, iid: string)
    ensures iid in ClientMapOf(items) <==>
              exists i :: 0 <= i < |items| && EntryOf(items[i]).Some? && EntryOf(items[i]).value.0 == iid
    ensures iid in ClientMapOf(items) ==>
              exists i :: 0 <= i < |items| && EntryOf(items[i]) == Some((iid, ClientMapOf(items)[iid]))
                          && forall j :: i < j < |items| ==> EntryOf(items[j]).None? || EntryOf(items[j]).value.0 != iid
    decreases |items|
  {
    if items != [] {
      var init := items[..|items| - 1];
      ClientMapEntries(init, iid);
      assert forall i :: 0 <= i < |init| ==> init[i] == items[i];
      var last := EntryOf(items[|items| - 1]);
      if iid in ClientMapOf(items) && !(last.Some? && last.value.0 == iid) {
        var i :| 0 <= i < |init| && EntryOf(init[i]) == Some((iid, ClientMapOf(init)[iid]))
                 && forall j :: i < j < |init| ==> EntryOf(init[j]).None? || EntryOf(init[j]).value.0 != iid;
        assert EntryOf(items[i]) == Some((iid, ClientMapOf(items)[iid]));
      }
    }
  }

  // ---------------------------------------------------------------------------
  // Client validation (`validate_client`)

  /** The verdict of `validate_client` on a response: only a 404 rejects the client. */
  function ClientKept(resp: Response): (kept: bool)
    ensures !kept <==> resp == Err(NotFound)
  {
    match resp
    case Err(NotFound) => false
    case _ => true
  }

  /** Validating names in order: one GET per name, a name being kept as a client
      unless its GET answered 404. */
  function ValidateClientsRun(server: Server, log: seq<Request>, names: seq<string>): Run<seq<R.SensuResource>>
    decreases |names|
  {
    if names == [] then Run([], log)
    else
      var req := ClientRequest(names[0]);
      var rest := ValidateClientsRun(server, log + [req], names[1..]);
      Run((if ClientKept(server(log, req)) then [R.Client(names[0])] else []) + rest.result, rest.log)
  }

  /** Validation issues exactly one GET per name, in order, and keeps an
      order-preserving selection of the names. */
  lemma {:induction false} ValidateClientsShape(server: Server, log: seq<Request>, names: seq<string>)
    ensures ValidateClientsRun(server, log, names).log == log + ClientRequests(names)
    ensures Subsequence(ValidateClientsRun(server, log, names).result, Clients(names))
    decreases |names|
  {
    if names == [] {
      assert log + ClientRequests(names) == log;
    } else {
      var req := ClientRequest(names[0]);
      var rest := ValidateClientsRun(server, log + [req], names[1..]);
      ValidateClientsShape(server, log + [req], names[1..]);
      assert ClientRequests(names) == [req] + ClientRequests(names[1..]);
      assert Clients(names) == [R.Client(names[0])] + Clients(names[1..]);
      var c := Clients(names);
      assert c[1..] == Clients(names[1..]);
      if ClientKept(server(log, req)) {
        assert ([R.Client(names[0])] + rest.result)[1..] == rest.result;
      } else {
        assert ValidateClientsRun(server, log, names).result == rest.result;
        assert c != [] && Subsequence(rest.result, c[1..]);
        if rest.result != [] {
          assert Subsequence(rest.result, c);
        }
      }
    }
  }

  /** Only a 404 drops a client: when the server never answers 404 to a client
      lookup, every name is kept, in order. */
  lemma {:induction false} NoNotFoundKeepsAll(server: Server, log: seq<Request>, names: seq<string>)
    requires forall h, n :: server(h, ClientRequest(n)) != Err(NotFound)
    ensures ValidateClientsRun(server, log, names).result == Clients(names)
    decreases |names|
  {
    if names != [] {
      NoNotFoundKeepsAll(server, log + [ClientRequest(names[0])], names[1..]);
      assert Clients(names) == [R.Client(names[0])] + Clients(names[1..]);
    }
  }

  /** A server that answers 404 to every client lookup leaves no client. */
  lemma {:induction false} AllNotFoundKeepsNone(server: Server, log: seq<Request>, names: seq<string>)
    requires forall h, n :: server(h, ClientRequest(n)) == Err(NotFound)
    ensures ValidateClientsRun(server, log, names).result == []
    decreases |names|
  {
    if names != [] {
      AllNotFoundKeepsNone(server, log + [ClientRequest(names[0])], names[1..]);
    }
  }

  // ---------------------------------------------------------------------------
  // Instance-id resolution (the `Node` arm of `map_to_sensu_resources`)

  /** The client names the instance ids resolve to: unmapped ids are skipped and each
      mapped id is removed once used, so a repeated id resolves only once. */
  function Drain(ids: seq<string>, m: map<string, string>): seq<string>
    decreases |ids|
  {
    if ids == [] then []
    else if ids[0] in m then [m[ids[0]]] + Drain(ids[1..], m - {ids[0]})
    else Drain(ids[1..], m)
  }

  /** Resolution of instance ids as the source interleaves it: remove the id from the
      map, then validate the client it named. */
  function ResolveNodesRun(server: Server, log: seq<Request>, ids: seq<string>, m: map<string, string>)
    : Run<seq<R.SensuResource>>
    decreases |ids|
  {
    if ids == [] then Run([], log)
    else if ids[0] in m then
      var name := m[ids[0]];
      var req := ClientRequest(name);
      var rest := ResolveNodesRun(server, log + [req], ids[1..], m - {ids[0]});
      Run((if ClientKept(server(log, req)) then [R.Client(name)] else []) + rest.result, rest.log)
    else ResolveNodesRun(server, log, ids[1..], m)
  }

  /** Resolving instance ids is draining them through the map, then validating the
      resulting names. */
  lemma {:induction false} ResolveNodesIsDrainThenValidate(server: Server, log: seq<Request>, ids: seq<string>, m: map<string, string>)
    ensures ResolveNodesRun(server, log, ids, m) == ValidateClientsRun(server, log, Drain(ids, m))
    decreases |ids|
  {
    if ids != [] {
      if ids[0] in m {
        var d := Drain(ids, m);
        ResolveNodesIsDrainThenValidate(server, log + [ClientRequest(m[ids[0]])], ids[1..], m - {ids[0]});
        assert d[0] == m[ids[0]] && d[1..] == Drain(ids[1..], m - {ids[0]});
      } else {
        ResolveNodesIsDrainThenValidate(server, log, ids[1..], m);
      }
    }
  }

  /** Appending an id appends its name exactly when it is mapped and has not
      occurred before: unmapped ids are dropped, repeats resolve once, order is kept. */
  lemma {:induction false} DrainSnoc(ids: seq<string>, x: string, m: map<string, string>)
    ensures Drain(ids + [x], m) == Drain(ids, m) + (if x in m && x !in ids then [m[x]] else [])
    decreases |ids|
  {
    if ids == [] {
      assert ids + [x] == [x];
      assert [x][1..] == [];
    } else {
      assert (ids + [x])[0] == ids[0] && (ids + [x])[1..] == ids[1..] + [x];
      assert x in ids <==> x == ids[0] || x in ids[1..];
      if ids[0] in m {
        DrainSnoc(ids[1..], x, m - {ids[0]});
      } else {
        DrainSnoc(ids[1..], x, m);
      }
    }
  }

  // ---------------------------------------------------------------------------
  // Subscription validation (`validate_subscriptions`)

  /** The string elements of an array. */
  function StringsOf(arr: seq<Json>): (s: set<string>)
    ensures forall x :: x in s <==> Str(x) in arr
  {
    set j | 0 <= j < |arr| && arr[j].Str? :: arr[j].s
  }

  /** The subscriptions a listing item declares. */
  function SubscriptionsOf(item: Json): (s: set<string>)
    ensures forall x :: x in s <==> item.Object? && "subscriptions" in item.fields
                                    && item.fields["subscriptions"].Array?
                                    && Str(x) in item.fields["subscriptions"].items
  {
    match Member(item, "subscriptions")
    case Some(Array(arr)) => StringsOf(arr)
    case _ => {}
  }

  /** The union of the subscriptions of all listing items. */
  function KnownSubscriptions(items: seq<Json>): set<string>
    decreases |items|
  {
    if items == [] then {} else KnownSubscriptions(items[..|items| - 1]) + SubscriptionsOf(items[|items| - 1])
  }

  lemma {:induction false} KnownSubscriptionsUnion(items: seq<Json>, x: string)
    ensures x in KnownSubscriptions(items) <==> exists i :: 0 <= i < |items| && x in SubscriptionsOf(items[i])
    decreases |items|
  {
    if items != [] {
      var init := items[..|items| - 1];
      KnownSubscriptionsUnion(init, x);
      assert forall i :: 0 <= i < |init| ==> init[i] == items[i];
      if x in KnownSubscriptions(items) && x !in SubscriptionsOf(items[|items| - 1]) {
        var i :| 0 <= i < |init| && x in SubscriptionsOf(init[i]);
        assert x in SubscriptionsOf(items[i]);
      }
    }
  }

  /** The resources whose name is a known subscription, in their original order. */
  function KeepKnown(subs: seq<R.SensuResource>, known: set<string>): seq<R.SensuResource>
    decreases |subs|
  {
    if subs == [] then []
    else if R.Borrow(subs[0]) in known then [subs[0]] + KeepKnown(subs[1..], known)
    else KeepKnown(subs[1..], known)
  }

  /** Filtering keeps exactly the known names, as an order-preserving subsequence, and
      keeps every copy of a repeated known name. */
  lemma {:induction false} KeepKnownSpec(subs: seq<R.SensuResource>, known: set<string>)
    ensures Subsequence(KeepKnown(subs, known), subs)
    ensures forall s :: s in KeepKnown(subs, known) <==> s in subs && R.Borrow(s) in known
    ensures forall s :: multiset(KeepKnown(subs, known))[s] == if R.Borrow(s) in known then multiset(subs)[s] else 0
    decreases |subs|
  {
    if subs != [] {
      KeepKnownSpec(subs[1..], known);
      var k := KeepKnown(subs, known);
      assert subs == [subs[0]] + subs[1..];
      assert multiset(subs) == multiset([subs[0]]) + multiset(subs[1..]);
      assert forall s :: s in subs <==> s == subs[0] || s in subs[1..];
      if R.Borrow(subs[0]) in known {
        assert k[1..] == KeepKnown(subs[1..], known);
      } else if k != [] {
        assert Subsequence(k, subs[1..]);
      }
    }
  }

  /** `validate_subscriptions`: one GET of the client listing; the requested
      subscriptions are filtered by the subscriptions the clients declare, unless the
      listing failed or is not an array, in which case they are all kept. */
  function CheckSubscriptionsRun(server: Server, log: seq<Request>, subs: seq<R.SensuResource>)
    : Run<seq<R.SensuResource>>
  {
    var resp := server(log, ListingRequest());
    var log' := log + [ListingRequest()];
    match resp
    case Ok(Some(Array(items))) => Run(KeepKnown(subs, KnownSubscriptions(items)), log')
    case _ => Run(subs, log')
  }

  /** Subscription validation fails open: an error or a body that is not an array
      keeps every requested subscription. */
  lemma SubscriptionsFailOpen(server: Server, log: seq<Request>, subs: seq<R.SensuResource>)
    requires server(log, ListingRequest()).Err? || !(server(log, ListingRequest()).value.Some?
                                                     && server(log, ListingRequest()).value.value.Array?)
    ensures CheckSubscriptionsRun(server, log, subs) == Run(subs, log + [ListingRequest()])
  {
  }

  /** With an array listing, a requested subscription survives exactly when some client
      declares it, every copy of it survives, and the survivors keep their order. */
  lemma SubscriptionsFiltered(server: Server, log: seq<Request>, subs: seq<R.SensuResource>, items: seq<Json>)
    requires server(log, ListingRequest()) == Ok(Some(Array(items)))
    ensures Subsequence(CheckSubscriptionsRun(server, log, subs).result, subs)
    ensures forall s :: s in CheckSubscriptionsRun(server, log, subs).result <==>
              s in subs && exists i :: 0 <= i < |items| && R.Borrow(s) in SubscriptionsOf(items[i])
    ensures forall s :: multiset(CheckSubscriptionsRun(server, log, subs).result)[s] ==
              if exists i :: 0 <= i < |items| && R.Borrow(s) in SubscriptionsOf(items[i]) then multiset(subs)[s] else 0
  {
    KeepKnownSpec(subs, KnownSubscriptions(items));
    forall s ensures R.Borrow(s) in KnownSubscriptions(items) <==>
                     exists i :: 0 <= i < |items| && R.Borrow(s) in SubscriptionsOf(items[i]) {
      KnownSubscriptionsUnion(items, R.Borrow(s));
    }
  }

  // ---------------------------------------------------------------------------
  // Resolution (`map_to_sensu_resources`)

  /** `map_to_sensu_resources`: always fetch the client listing first, failing if that
      fails; then resolve instance ids through it, or validate clients one by one, or
      validate subscriptions against a second listing. */
  function ResolveRun(server: Server, log: seq<Request>, res: Rs.ShushResources)
    : Run<Result<seq<R.SensuResource>, SensuError>>
  {
    var listing := server(log, ListingRequest());
    var log1 := log + [ListingRequest()];
    if listing.Err? then Run(Err(listing.error), log1)
    else
      match res.resType
      case Node =>
        var r := ResolveNodesRun(server, log1, res.resources, ListingMap(listing.value));
        Run(Ok(r.result), r.log)
      case Client =>
        var r := ValidateClientsRun(server, log1, res.resources);
        Run(Ok(r.result), r.log)
      case Sub =>
        var r := CheckSubscriptionsRun(server, log1, Subscriptions(res.resources));
        Run(Ok(r.result), r.log)
  }

  /** Resolution only reads: every request it issues is a GET. */
  predicate OnlyGets(reqs: seq<Request>) {
    forall i :: 0 <= i < |reqs| ==> reqs[i].verb == Get && reqs[i].body.None?
  }

  lemma {:induction false} ValidateClientsOnlyGets(server: Server, log: seq<Request>, names: seq<string>)
    ensures |log| <= |ValidateClientsRun(server, log, names).log|
    ensures ValidateClientsRun(server, log, names).log[..|log|] == log
    ensures OnlyGets(ValidateClientsRun(server, log, names).log[|log|..])
  {
    ValidateClientsShape(server, log, names);
    var l := ValidateClientsRun(server, log, names).log;
    assert l[|log|..] == ClientRequests(names);
  }

  lemma ResolveOnlyGets(server: Server, log: seq<Request>, res: Rs.ShushResources)
    ensures |log| < |ResolveRun(server, log, res).log|
    ensures ResolveRun(server, log, res).log[..|log|] == log
    ensures ResolveRun(server, log, res).log[|log|] == ListingRequest()
    ensures OnlyGets(ResolveRun(server, log, res).log[|log|..])
  {
    var log1 := log + [ListingRequest()];
    var listing := server(log, ListingRequest());
    var l := ResolveRun(server, log, res).log;
    if listing.Ok? {
      match res.resType
      case Node =>
        ResolveNodesIsDrainThenValidate(server, log1, res.resources, ListingMap(listing.value));
        ValidateClientsOnlyGets(server, log1, Drain(res.resources, ListingMap(listing.value)));
      case Client =>
        ValidateClientsOnlyGets(server, log1, res.resources);
      case Sub =>
    }
    assert l[..|log1|] == log1;
    assert l[|log|..] == [ListingRequest()] + l[|log1|..];
  }

  /** No listing, no resolution: when the first GET of the listing fails, resolution
      fails with that error after that single request. */
  lemma ListingFailureStopsResolution(server: Server, log: seq<Request>, res: Rs.ShushResources)
    requires server(log, ListingRequest()).Err?
    ensures ResolveRun(server, log, res) == Run(Err(server(log, ListingRequest()).error), log + [ListingRequest()])
  {
  }

  // ---------------------------------------------------------------------------
  // Issuing silences and clears (`silence`, `clear`)

  /** The payloads for every resource and check pair, resource-major
      (`iproduct!(res, chk)`). */
  function Product(res: seq<string>, chk: seq<string>, expire: Option<X.Expire>): seq<P.SensuPayload>
    decreases |res|
  {
    if res == [] then []
    else
      seq(|chk|, j requires 0 <= j < |chk| => P.SensuPayload(Some(res[0]), Some(chk[j]), expire))
      + Product(res[1..], chk, expire)
  }

  lemma {:induction false} ProductLength(res: seq<string>, chk: seq<string>, expire: Option<X.Expire>)
    ensures |Product(res, chk, expire)| == |res| * |chk|
    decreases |res|
  {
    if res != [] {
      ProductLength(res[1..], chk, expire);
      var n := |res|;
      assert n * |chk| == (n - 1) * |chk| + |chk|;
    }
  }

  /** The product holds |res|·|chk| payloads, the pair (res[i], chk[j]) at i·|chk| + j. */
  lemma {:induction false} ProductShape(res: seq<string>, chk: seq<string>, expire: Option<X.Expire>, i: nat, j: nat)
    requires i < |res| && j < |chk|
    ensures |Product(res, chk, expire)| == |res| * |chk|
    ensures i * |chk| + j < |res| * |chk|
    ensures Product(res, chk, expire)[i * |chk| + j] == P.SensuPayload(Some(res[i]), Some(chk[j]), expire)
    decreases i
  {
    ProductLength(res, chk, expire);
    if i > 0 {
      ProductShape(res[1..], chk, expire, i - 1, j);
      assert i * |chk| == (i - 1) * |chk| + |chk|;
      var n := |res|;
      assert n * |chk| == (n - 1) * |chk| + |chk|;
    }
  }

  /** Every payload of the product carries the given expiry. */
  lemma {:induction false} ProductExpiry(res: seq<string>, chk: seq<string>, expire: Option<X.Expire>)
    ensures forall k :: 0 <= k < |Product(res, chk, expire)| ==> Product(res, chk, expire)[k].expire == expire
    decreases |res|
  {
    if res != [] {
      ProductExpiry(res[1..], chk, expire);
      var row: seq<P.SensuPayload> := seq(|chk|, j requires 0 <= j < |chk| => P.SensuPayload(Some(res[0]), Some(chk[j]), expire));
      var rest := Product(res[1..], chk, expire);
      assert Product(res, chk, expire) == row + rest;
      forall k | 0 <= k < |row + rest| ensures (row + rest)[k].expire == expire {
        if k >= |row| {
          assert (row + rest)[k] == rest[k - |row|];
        }
      }
    }
  }

  /** The payloads to send: the product when both resources and checks are given, one
      per resource or one per check when only one is, and nothing to do without either. */
  function Plan(targets: Option<seq<string>>, checks: Option<seq<string>>, expire: Option<X.Expire>)
    : (plan: Option<seq<P.SensuPayload>>)
    ensures plan.None? <==> targets.None? && checks.None?
  {
    match (targets, checks)
    case (Some(res), Some(chk)) => Some(Product(res, chk, expire))
    case (Some(res), None) => Some(seq(|res|, i requires 0 <= i < |res| => P.SensuPayload(Some(res[i]), None, expire)))
    case (None, Some(chk)) => Some(seq(|chk|, j requires 0 <= j < |chk| => P.SensuPayload(None, Some(chk[j]), expire)))
    case (None, None) => None
  }

  /** Every planned payload carries the given expiry. */
  lemma PlanExpiry(targets: Option<seq<string>>, checks: Option<seq<string>>, expire: Option<X.Expire>)
    requires Plan(targets, checks, expire).Some?
    ensures forall k :: 0 <= k < |Plan(targets, checks, expire).value| ==>
              Plan(targets, checks, expire).value[k].expire == expire
  {
    if targets.Some? && checks.Some? {
      ProductExpiry(targets.value, checks.value, expire);
    }
  }

  /** POSTs the payloads in order, stopping at the first failure (the process exits). */
  function PostAllRun(server: Server, log: seq<Request>, ep: E.SensuEndpoint, ps: seq<P.SensuPayload>)
    : Run<Result<(), SensuError>>
    decreases |ps|
  {
    if ps == [] then Run(Ok(()), log)
    else
      var req := Request(Post, ep, Some(ps[0]));
      var resp := server(log, req);
      if resp.Err? then Run(Err(resp.error), log + [req])
      else PostAllRun(server, log + [req], ep, ps[1..])
  }

  /** When every POST succeeds, all of them are issued, in order. */
  lemma {:induction false} PostAllSucceeds(server: Server, log: seq<Request>, ep: E.SensuEndpoint, ps: seq<P.SensuPayload>)
    requires forall i :: 0 <= i < |ps| ==> server(log + Posts(ep, ps[..i]), Request(Post, ep, Some(ps[i]))).Ok?
    ensures PostAllRun(server, log, ep, ps) == Run(Ok(()), log + Posts(ep, ps))
    decreases |ps|
  {
    if ps == [] {
      assert log + Posts(ep, ps) == log;
    } else {
      var req := Request(Post, ep, Some(ps[0]));
      assert Posts(ep, ps[..0]) == [];
      assert log + Posts(ep, ps[..0]) == log;
      forall i | 0 <= i < |ps[1..]|
        ensures server((log + [req]) + Posts(ep, ps[1..][..i]), Request(Post, ep, Some(ps[1..][i]))).Ok?
      {
        assert (log + [req]) + Posts(ep, ps[1..][..i]) == log + Posts(ep, ps[..i + 1]);
      }
      PostAllSucceeds(server, log + [req], ep, ps[1..]);
      assert (log + [req]) + Posts(ep, ps[1..]) == log + Posts(ep, ps);
    }
  }

  /** Fail-fast: when the POST of payload k fails after the earlier ones succeeded,
      the batch fails with that error and nothing after payload k is sent. */
  lemma {:induction false} PostAllStopsAtFirstFailure(server: Server, log: seq<Request>, ep: E.SensuEndpoint,
                                                      ps: seq<P.SensuPayload>, k: nat)
    requires k < |ps|
    requires forall i :: 0 <= i < k ==> server(log + Posts(ep, ps[..i]), Request(Post, ep, Some(ps[i]))).Ok?
    requires server(log + Posts(ep, ps[..k]), Request(Post, ep, Some(ps[k]))).Err?
    ensures PostAllRun(server, log, ep, ps)
            == Run(Err(server(log + Posts(ep, ps[..k]), Request(Post, ep, Some(ps[k]))).error), log + Posts(ep, ps[..k + 1]))
    decreases k
  {
    var req := Request(Post, ep, Some(ps[0]));
    assert Posts(ep, ps[..0]) == [];
    assert log + Posts(ep, ps[..0]) == log;
    if k == 0 {
      assert Posts(ep, ps[..1]) == [req];
    } else {
      forall i | 0 <= i < k - 1
        ensures server((log + [req]) + Posts(ep, ps[1..][..i]), Request(Post, ep, Some(ps[1..][i]))).Ok?
      {
        assert (log + [req]) + Posts(ep, ps[1..][..i]) == log + Posts(ep, ps[..i + 1]);
      }
      assert (log + [req]) + Posts(ep, ps[1..][..k - 1]) == log + Posts(ep, ps[..k]);
      PostAllStopsAtFirstFailure(server, log + [req], ep, ps[1..], k - 1);
      assert (log + [req]) + Posts(ep, ps[1..][..k]) == log + Posts(ep, ps[..k + 1]);
    }
  }

  /** The log of a batch of POSTs is the log before it followed by a prefix of the
      planned requests. */
  lemma {:induction false} PostAllPrefix(server: Server, log: seq<Request>, ep: E.SensuEndpoint, ps: seq<P.SensuPayload>)
    ensures exists k :: 0 <= k <= |ps| && PostAllRun(server, log, ep, ps).log == log + Posts(ep, ps[..k])
    decreases |ps|
  {
    if ps == [] {
      assert PostAllRun(server, log, ep, ps).log == log + Posts(ep, ps[..0]);
    } else {
      var req := Request(Post, ep, Some(ps[0]));
      if server(log, req).Err? {
        assert Posts(ep, ps[..1]) == [req];
      } else {
        PostAllPrefix(server, log + [req], ep, ps[1..]);
        var k :| 0 <= k <= |ps[1..]| && PostAllRun(server, log + [req], ep, ps[1..]).log == log + [req] + Posts(ep, ps[1..][..k]);
        assert log + [req] + Posts(ep, ps[1..][..k]) == log + Posts(ep, ps[..k + 1]);
      }
    }
  }

  /** The display names of the resolved resources, or nothing when no resource flag
      was given. */
  function ResolveTargetsRun(server: Server, log: seq<Request>, res: Option<Rs.ShushResources>)
    : Run<Result<Option<seq<string>>, SensuError>>
  {
    match res
    case None => Run(Ok(None), log)
    case Some(r) =>
      var resolved := ResolveRun(server, log, r);
      Run(match resolved.result
          case Err(e) => Err(e)
          case Ok(rs) => Ok(Some(Displays(rs))), resolved.log)
  }

  /** The common shape of `silence` and `clear`: resolve, plan, then POST every payload
      to `ep`, stopping at the first failure. */
  function BatchRun(server: Server, log: seq<Request>, res: Option<Rs.ShushResources>, checks: Option<seq<string>>,
                    expire: Option<X.Expire>, ep: E.SensuEndpoint): Run<Result<(), RunError>>
  {
    var targets := ResolveTargetsRun(server, log, res);
    match targets.result
    case Err(e) => Run(Err(ResolveFailed(e)), targets.log)
    case Ok(t) =>
      match Plan(t, checks, expire)
      case None => Run(Err(NoTargets), targets.log)
      case Some(ps) =>
        var posted := PostAllRun(server, targets.log, ep, ps);
        Run(match posted.result
            case Ok(_) => Ok(())
            case Err(e) => Err(PostFailed(e)), posted.log)
  }

  /** `silence`: every payload goes to /silenced with the requested expiry. */
  function SilenceRun(server: Server, log: seq<Request>, s: O.SilenceOpts): Run<Result<(), RunError>> {
    BatchRun(server, log, s.resources, s.checks, Some(s.expire), E.Silenced)
  }

  /** `clear`: every payload goes to /silenced/clear without an expiry. */
  function ClearRun(server: Server, log: seq<Request>, c: O.ClearOpts): Run<Result<(), RunError>> {
    BatchRun(server, log, c.resources, c.checks, None, E.Clear)
  }

  /** Requests that are GETs, or POSTs to `ep` whose payload carries `expire`. */
  predicate PostsOnlyTo(reqs: seq<Request>, ep: E.SensuEndpoint, expire: Option<X.Expire>) {
    forall i :: 0 <= i < |reqs| ==>
      reqs[i].verb == Get || (reqs[i].endpoint == ep && reqs[i].body.Some? && reqs[i].body.value.expire == expire)
  }

  lemma PostsOfPlan(ep: E.SensuEndpoint, ps: seq<P.SensuPayload>, expire: Option<X.Expire>, k: nat)
    requires k <= |ps|
    requires forall i :: 0 <= i < |ps| ==> ps[i].expire == expire
    ensures PostsOnlyTo(Posts(ep, ps[..k]), ep, expire)
  {
  }

  lemma PostsOnlyToAppend(a: seq<Request>, b: seq<Request>, ep: E.SensuEndpoint, expire: Option<X.Expire>)
    requires PostsOnlyTo(a, ep, expire) && PostsOnlyTo(b, ep, expire)
    ensures PostsOnlyTo(a + b, ep, expire)
  {
    forall i | 0 <= i < |a + b|
      ensures (a + b)[i].verb == Get
              || ((a + b)[i].endpoint == ep && (a + b)[i].body.Some? && (a + b)[i].body.value.expire == expire)
    {
      if i >= |a| {
        assert (a + b)[i] == b[i - |a|];
      }
    }
  }

  /** Resolving the targets only extends the log by GETs. */
  lemma TargetsOnlyGet(server: Server, log: seq<Request>, res: Option<Rs.ShushResources>)
    ensures var l := ResolveTargetsRun(server, log, res).log;
            |log| <= |l| && l[..|log|] == log && OnlyGets(l[|log|..])
  {
    if res.Some? {
      ResolveOnlyGets(server, log, res.value);
    }
  }

  /** Every POST of a batch goes to its endpoint and carries its expiry; everything
      else it sends is a GET. */
  lemma BatchPostsOnlyTo(server: Server, log: seq<Request>, res: Option<Rs.ShushResources>, checks: Option<seq<string>>,
                         expire: Option<X.Expire>, ep: E.SensuEndpoint)
    ensures var l := BatchRun(server, log, res, checks, expire, ep).log;
            |log| <= |l| && l[..|log|] == log && PostsOnlyTo(l[|log|..], ep, expire)
  {
    var targets := ResolveTargetsRun(server, log, res);
    var tl := targets.log;
    TargetsOnlyGet(server, log, res);
    assert PostsOnlyTo(tl[|log|..], ep, expire);
    if targets.result.Ok? && Plan(targets.result.value, checks, expire).Some? {
      var ps := Plan(targets.result.value, checks, expire).value;
      PostAllPrefix(server, tl, ep, ps);
      PlanExpiry(targets.result.value, checks, expire);
      var k :| 0 <= k <= |ps| && BatchRun(server, log, res, checks, expire, ep).log == tl + Posts(ep, ps[..k]);
      GetsThenPosts(log, tl, ep, ps, expire, k);
    }
  }

  /** A log that extends `log` by allowed requests, followed by posts of payloads that
      all carry `expire`, still extends `log` by allowed requests. */
  lemma GetsThenPosts(log: seq<Request>, tl: seq<Request>, ep: E.SensuEndpoint, ps: seq<P.SensuPayload>,
                      expire: Option<X.Expire>, k: nat)
    requires |log| <= |tl| && tl[..|log|] == log && PostsOnlyTo(tl[|log|..], ep, expire)
    requires k <= |ps| && forall i :: 0 <= i < |ps| ==> ps[i].expire == expire
    ensures var l := tl + Posts(ep, ps[..k]);
            |log| <= |l| && l[..|log|] == log && PostsOnlyTo(l[|log|..], ep, expire)
  {
    var l := tl + Posts(ep, ps[..k]);
    PostsOfPlan(ep, ps, expire, k);
    PostsOnlyToAppend(tl[|log|..], Posts(ep, ps[..k]), ep, expire);
    assert l[|log|..] == tl[|log|..] + Posts(ep, ps[..k]);
    assert l[..|log|] == tl[..|log|];
  }

  /** `clear` only ever posts to /silenced/clear, without an expiry. */
  lemma ClearPostsOnlyToClear(server: Server, log: seq<Request>, c: O.ClearOpts)
    ensures var l := ClearRun(server, log, c).log;
            forall i :: |log| <= i < |l| && l[i].verb == Post ==>
              l[i].endpoint == E.Clear && l[i].body.Some? && l[i].body.value.expire.None?
  {
    BatchPostsOnlyTo(server, log, c.resources, c.checks, None, E.Clear);
    var l := ClearRun(server, log, c).log;
    forall i | |log| <= i < |l| && l[i].verb == Post
      ensures l[i].endpoint == E.Clear && l[i].body.Some? && l[i].body.value.expire.None?
    {
      assert l[i] == l[|log|..][i - |log|];
    }
  }

  /** `silence` only ever posts to /silenced, with the requested expiry. */
  lemma SilencePostsOnlyToSilenced(server: Server, log: seq<Request>, s: O.SilenceOpts)
    ensures var l := SilenceRun(server, log, s).log;
            forall i :: |log| <= i < |l| && l[i].verb == Post ==>
              l[i].endpoint == E.Silenced && l[i].body.Some? && l[i].body.value.expire == Some(s.expire)
  {
    BatchPostsOnlyTo(server, log, s.resources, s.checks, Some(s.expire), E.Silenced);
    var l := SilenceRun(server, log, s).log;
    forall i | |log| <= i < |l| && l[i].verb == Post
      ensures l[i].endpoint == E.Silenced && l[i].body.Some? && l[i].body.value.expire == Some(s.expire)
    {
      assert l[i] == l[|log|..][i - |log|];
    }
  }

  /** Without resources and checks nothing is sent and the run stops. */
  lemma NoTargetsSendsNothing(server: Server, log: seq<Request>, s: O.SilenceOpts)
    requires s.resources.None? && s.checks.None?
    ensures SilenceRun(server, log, s) == Run(Err(NoTargets), log)
  {
  }

  /** When the client listing fails, a silence with resources fails before any POST. */
  lemma ListingFailureNoPost(server: Server, log: seq<Request>, s: O.SilenceOpts)
    requires s.resources.Some? && server(log, ListingRequest()).Err?
    ensures SilenceRun(server, log, s)
            == Run(Err(ResolveFailed(server(log, ListingRequest()).error)), log + [ListingRequest()])
  {
  }

  /** A silence of resources and checks whose resolution and POSTs all succeed issues
      exactly one POST per (resource, check) pair, resource-major, to /silenced. */
  lemma SilenceIssuesProduct(server: Server, log: seq<Request>, s: O.SilenceOpts,
                             resolved: seq<R.SensuResource>, rlog: seq<Request>, ps: seq<P.SensuPayload>)
    requires s.resources.Some? && s.checks.Some?
    requires ResolveRun(server, log, s.resources.value) == Run(Ok(resolved), rlog)
    requires ps == Product(Displays(resolved), s.checks.value, Some(s.expire))
    requires forall i :: 0 <= i < |ps| ==> server(rlog + Posts(E.Silenced, ps[..i]), Request(Post, E.Silenced, Some(ps[i]))).Ok?
    ensures SilenceRun(server, log, s) == Run(Ok(()), rlog + Posts(E.Silenced, ps))
    ensures |ps| == |resolved| * |s.checks.value|
  {
    BatchIssuesProduct(server, log, s.resources.value, s.checks.value, Some(s.expire), E.Silenced, resolved, rlog, ps);
  }

  /** Without resources and checks a batch sends nothing and stops. */
  lemma BatchNoTargets(server: Server, log: seq<Request>, expire: Option<X.Expire>, ep: E.SensuEndpoint)
    ensures BatchRun(server, log, None, None, expire, ep) == Run(Err(NoTargets), log)
  {
  }

  /** When the client listing fails, a batch with resources fails before any POST. */
  lemma BatchListingFailure(server: Server, log: seq<Request>, res: Rs.ShushResources, checks: Option<seq<string>>,
                            expire: Option<X.Expire>, ep: E.SensuEndpoint)
    requires server(log, ListingRequest()).Err?
    ensures BatchRun(server, log, Some(res), checks, expire, ep)
            == Run(Err(ResolveFailed(server(log, ListingRequest()).error)), log + [ListingRequest()])
  {
  }

  /** A batch of resources and checks whose resolution and POSTs all succeed posts
      exactly one payload per (resource, check) pair, resource-major, to `ep`. */
  lemma BatchIssuesProduct(server: Server, log: seq<Request>, res: Rs.ShushResources, checks: seq<string>,
                           expire: Option<X.Expire>, ep: E.SensuEndpoint,
                           resolved: seq<R.SensuResource>, rlog: seq<Request>, ps: seq<P.SensuPayload>)
    requires ResolveRun(server, log, res) == Run(Ok(resolved), rlog)
    requires ps == Product(Displays(resolved), checks, expire)
    requires forall i :: 0 <= i < |ps| ==> server(rlog + Posts(ep, ps[..i]), Request(Post, ep, Some(ps[i]))).Ok?
    ensures BatchRun(server, log, Some(res), Some(checks), expire, ep) == Run(Ok(()), rlog + Posts(ep, ps))
    ensures |ps| == |resolved| * |checks|
  {
    PostAllSucceeds(server, rlog, ep, ps);
    ProductLength(Displays(resolved), checks, expire);
  }

  /** Without resources and checks a clear sends nothing and stops. */
  lemma ClearNoTargetsSendsNothing(server: Server, log: seq<Request>, c: O.ClearOpts)
    requires c.resources.None? && c.checks.None?
    ensures ClearRun(server, log, c) == Run(Err(NoTargets), log)
  {
    BatchNoTargets(server, log, None, E.Clear);
  }

  /** When the client listing fails, a clear with resources fails before any POST. */
  lemma ClearListingFailureNoPost(server: Server, log: seq<Request>, c: O.ClearOpts)
    requires c.resources.Some? && server(log, ListingRequest()).Err?
    ensures ClearRun(server, log, c)
            == Run(Err(ResolveFailed(server(log, ListingRequest()).error)), log + [ListingRequest()])
  {
    BatchListingFailure(server, log, c.resources.value, c.checks, None, E.Clear);
  }

  /** A clear of resources and checks whose resolution and POSTs all succeed posts
      exactly one clear per (resource, check) pair, resource-major, to /silenced/clear. */
  lemma ClearIssuesProduct(server: Server, log: seq<Request>, c: O.ClearOpts,
                           resolved: seq<R.SensuResource>, rlog: seq<Request>, ps: seq<P.SensuPayload>)
    requires c.resources.Some? && c.checks.Some?
    requires ResolveRun(server, log, c.resources.value) == Run(Ok(resolved), rlog)
    requires ps == Product(Displays(resolved), c.checks.value, None)
    requires forall i :: 0 <= i < |ps| ==> server(rlog + Posts(E.Clear, ps[..i]), Request(Post, E.Clear, Some(ps[i]))).Ok?
    ensures ClearRun(server, log, c) == Run(Ok(()), rlog + Posts(E.Clear, ps))
    ensures |ps| == |resolved| * |c.checks.value|
  {
    BatchIssuesProduct(server, log, c.resources.value, c.checks.value, None, E.Clear, resolved, rlog, ps);
  }

  // ---------------------------------------------------------------------------
  // Listing silences (`list`)

  function StrMember(o: map<string, Json>, key: string): Option<string> {
    if key in o then AsStr(o[key]) else None
  }

  function BoolText(b: bool): string {
    if b then "true" else "false"
  }

  /** The lines printed for one silence entry, with the defaults for missing or
      mistyped members. */
  function EntryLines(o: map<string, Json>): (lines: seq<string>)
    ensures |lines| == 6 && lines[5] == ""
    ensures "subscription" in o && o["subscription"].Str? ==> lines[0] == "subscription:\t\t" + o["subscription"].s
    ensures !("subscription" in o && o["subscription"].Str?) ==> lines[0] == "subscription:\t\tall"
    ensures "check" in o && o["check"].Str? ==> lines[1] == "Check:\t\t\t" + o["check"].s
    ensures !("check" in o && o["check"].Str?) ==> lines[1] == "Check:\t\t\tall"
    ensures "expire" in o && o["expire"].Int? && 0 <= o["expire"].n < U64Bound ==>
              lines[2] == "Expiration:\t\t" + NatToString(o["expire"].n)
    ensures !("expire" in o && o["expire"].Int? && 0 <= o["expire"].n < U64Bound) ==> lines[2] == "Expiration:\t\tnever"
    ensures "expire_on_resolve" in o && o["expire_on_resolve"] == Bool(true) ==> lines[3] == "Expire on resolve:\ttrue"
    ensures !("expire_on_resolve" in o && o["expire_on_resolve"] == Bool(true)) ==> lines[3] == "Expire on resolve:\tfalse"
    ensures "creator" in o && o["creator"].Str? ==> lines[4] == "User:\t\t\t" + o["creator"].s
    ensures !("creator" in o && o["creator"].Str?) ==> lines[4] == "User:\t\t\tunknown"
  {
    var user := StrMember(o, "creator").GetOr("unknown");
    var subscription := StrMember(o, "subscription").GetOr("all");
    var check := StrMember(o, "check").GetOr("all");
    var expire := if "expire" in o then AsU64(o["expire"]) else None;
    var eor := if "expire_on_resolve" in o then AsBool(o["expire_on_resolve"]).GetOr(false) else false;
    ["subscription:\t\t" + subscription,
     "Check:\t\t\t" + check,
     "Expiration:\t\t" + (match expire case Some(n) => NatToString(n) case None => "never"),
     "Expire on resolve:\t" + BoolText(eor),
     "User:\t\t\t" + user,
     ""]
  }

  /** The lines for a listing: the entries that are objects, in order; other
      entries print nothing. */
  function RenderListing(items: seq<Json>): seq<string>
    decreases |items|
  {
    if items == [] then []
    else
      var init := RenderListing(items[..|items| - 1]);
      match items[|items| - 1]
      case Object(o) => init + EntryLines(o)
      case _ => init
  }

  /** `list`: one GET of /silenced; a failure is returned, a body that is not an array
      prints nothing. The listing filters are not applied. */
  function ListRun(server: Server, log: seq<Request>): Run<Result<seq<string>, SensuError>> {
    var req := Request(Get, E.Silenced, None);
    var resp := server(log, req);
    Run(if resp.Err? then Err(resp.error)
        else Ok(match resp.value
                case Some(Array(items)) => RenderListing(items)
                case _ => []),
        log + [req])
  }

  /** An entry without any of the members prints the documented defaults. */
  lemma ListDefaults()
    ensures EntryLines(map[]) == ["subscription:\t\tall", "Check:\t\t\tall", "Expiration:\t\tnever",
                                  "Expire on resolve:\tfalse", "User:\t\t\tunknown", ""]
  {
    assert "subscription:\t\t" + "all" == "subscription:\t\tall";
    assert "Check:\t\t\t" + "all" == "Check:\t\t\tall";
    assert "Expiration:\t\t" + "never" == "Expiration:\t\tnever";
    assert "Expire on resolve:\t" + "false" == "Expire on resolve:\tfalse";
    assert "User:\t\t\t" + "unknown" == "User:\t\t\tunknown";
  }

  /** Each object entry prints six lines and other entries print none. */
  lemma {:induction false} ListingLength(items: seq<Json>)
    ensures |RenderListing(items)| == 6 * |set i | 0 <= i < |items| && items[i].Object?|
    decreases |items|
  {
    if items != [] {
      var n := |items| - 1;
      ListingLength(items[..n]);
      var before := set i | 0 <= i < n && items[..n][i].Object?;
      var all := set i | 0 <= i < |items| && items[i].Object?;
      assert before == set i | 0 <= i < n && items[i].Object?;
      if items[n].Object? {
        assert all == before + {n};
      } else {
        assert all == before;
      }
    }
  }

  /** A server's listing is read once and nothing is posted. */
  lemma ListOnlyReads(server: Server, log: seq<Request>)
    ensures ListRun(server, log).log == log + [Request(Get, E.Silenced, None)]
  {
  }

  // ---------------------------------------------------------------------------
  // The client

  /** `SensuClient`: the requests it has issued so far, and the server answering them. */
  class SensuClient {
    const server: Server
    var log: seq<Request>

    constructor (server: Server)
      ensures this.server == server && log == []
    {
      this.server := server;
      log := [];
    }

    /** `request`: one exchange with the server. */
    method Send(req: Request) returns (resp: Response)
      modifies this
      ensures resp == server(old(log), req) && log == old(log) + [req]
    {
      resp := server(log, req);
      log := log + [req];
    }

    method GetNodeToClientMap() returns (r: Result<map<string, string>, SensuError>)
      modifies this
      ensures log == old(log) + [ListingRequest()]
      ensures var resp := server(old(log), ListingRequest());
              r == if resp.Err? then Err(resp.error) else Ok(ListingMap(resp.value))
    {
      var clients := Send(ListingRequest());
      if clients.Err? {
        return Err(clients.error);
      }
      var clientMap: map<string, string> := map[];
      if clients.value.Some? && clients.value.value.Array? {
        clientMap := ClientMapFromListing(clients.value.value.items);
      }
      return Ok(clientMap);
    }

    method ValidateClient(name: string) returns (ok: bool)
      modifies this
      ensures log == old(log) + [ClientRequest(name)]
      ensures ok == ClientKept(server(old(log), ClientRequest(name)))
    {
      var resp := Send(ClientRequest(name));
      ok := !(resp.Err? && resp.error == NotFound);
    }

    method ValidateSubscriptions(subs: seq<R.SensuResource>) returns (r: seq<R.SensuResource>)
      modifies this
      ensures Run(r, log) == CheckSubscriptionsRun(server, old(log), subs)
    {
      var resp := Send(ListingRequest());
      if resp.Err? || resp.value.None? || !resp.value.value.Array? {
        return subs;
      }
      var known := CollectSubscriptions(resp.value.value.items);
      r := KeepKnown(subs, known);
    }

    method MapToSensuResources(res: Rs.ShushResources) returns (r: Result<seq<R.SensuResource>, SensuError>)
      modifies this
      ensures Run(r, log) == ResolveRun(server, old(log), res)
    {
      var mapped := GetNodeToClientMap();
      if mapped.Err? {
        return Err(mapped.error);
      }
      match res.resType {
        case Node =>
          var found := ResolveNodes(res.resources, mapped.value);
          r := Ok(found);
        case Sub =>
          var kept := ValidateSubscriptions(Subscriptions(res.resources));
          r := Ok(kept);
        case Client =>
          var kept := ValidateClients(res.resources);
          r := Ok(kept);
      }
    }

    /** The `Node` arm: each instance id is removed from the map and its client
        validated. */
    method ResolveNodes(ids: seq<string>, clientMap: map<string, string>) returns (found: seq<R.SensuResource>)
      modifies this
      ensures Run(found, log) == ResolveNodesRun(server, old(log), ids, clientMap)
    {
      var m := clientMap;
      found := [];
      var k := 0;
      assert ids[k..] == ids;
      assert found + ResolveNodesRun(server, log, ids, m).result == ResolveNodesRun(server, log, ids, m).result;
      while k < |ids|
        invariant 0 <= k <= |ids|
        invariant var rest := ResolveNodesRun(server, log, ids[k..], m);
                  ResolveNodesRun(server, old(log), ids, clientMap) == Run(found + rest.result, rest.log)
      {
        assert ids[k..][0] == ids[k] && ids[k..][1..] == ids[k + 1..];
        var id := ids[k];
        if id in m {
          var name := m[id];
          ghost var before := found;
          ghost var rest := ResolveNodesRun(server, log + [ClientRequest(name)], ids[k + 1..], m - {id});
          ghost var head := if ClientKept(server(log, ClientRequest(name))) then [R.Client(name)] else [];
          assert ResolveNodesRun(server, log, ids[k..], m) == Run(head + rest.result, rest.log);
          m := m - {id};
          var ok := ValidateClient(name);
          if ok {
            found := found + [R.Client(name)];
          }
          assert found == before + head;
          assert found + rest.result == before + (head + rest.result);
        }
        k := k + 1;
      }
      assert ids[k..] == [];
      assert found + [] == found;
    }

    /** The `Client` arm: each name is validated in turn. */
    method ValidateClients(names: seq<string>) returns (kept: seq<R.SensuResource>)
      modifies this
      ensures Run(kept, log) == ValidateClientsRun(server, old(log), names)
    {
      kept := [];
      var k := 0;
      assert names[k..] == names;
      assert kept + ValidateClientsRun(server, log, names).result == ValidateClientsRun(server, log, names).result;
      while k < |names|
        invariant 0 <= k <= |names|
        invariant var rest := ValidateClientsRun(server, log, names[k..]);
                  ValidateClientsRun(server, old(log), names) == Run(kept + rest.result, rest.log)
      {
        assert names[k..][0] == names[k] && names[k..][1..] == names[k + 1..];
        ghost var rest := ValidateClientsRun(server, log + [ClientRequest(names[k])], names[k + 1..]);
        ghost var head := if ClientKept(server(log, ClientRequest(names[k]))) then [R.Client(names[k])] else [];
        ghost var before := kept;
        assert ValidateClientsRun(server, log, names[k..]) == Run(head + rest.result, rest.log);
        var ok := ValidateClient(names[k]);
        if ok {
          kept := kept + [R.Client(names[k])];
        }
        assert kept == before + head;
        assert kept + rest.result == before + (head + rest.result);
        k := k + 1;
      }
      assert names[k..] == [];
      assert kept + [] == kept;
    }

    /** The batch of POSTs: each payload in turn, stopping at the first failure. */
    method PostAll(ep: E.SensuEndpoint, ps: seq<P.SensuPayload>) returns (r: Result<(), SensuError>)
      modifies this
      ensures Run(r, log) == PostAllRun(server, old(log), ep, ps)
    {
      var k := 0;
      while k < |ps|
        invariant 0 <= k <= |ps|
        invariant PostAllRun(server, old(log), ep, ps) == PostAllRun(server, log, ep, ps[k..])
      {
        assert ps[k..][0] == ps[k] && ps[k..][1..] == ps[k + 1..];
        var resp := Send(Request(Post, ep, Some(ps[k])));
        if resp.Err? {
          return Err(resp.error);
        }
        k := k + 1;
      }
      return Ok(());
    }

    method Batch(res: Option<Rs.ShushResources>, checks: Option<seq<string>>, expire: Option<X.Expire>,
                 ep: E.SensuEndpoint) returns (r: Result<(), RunError>)
      modifies this
      ensures Run(r, log) == BatchRun(server, old(log), res, checks, expire, ep)
    {
      var targets: Option<seq<string>> := None;
      if res.Some? {
        var resolved := MapToSensuResources(res.value);
        if resolved.Err? {
          return Err(ResolveFailed(resolved.error));
        }
        targets := Some(Displays(resolved.value));
      }
      var plan := Plan(targets, checks, expire);
      if plan.None? {
        return Err(NoTargets);
      }
      var posted := PostAll(ep, plan.value);
      if posted.Err? {
        return Err(PostFailed(posted.error));
      }
      return Ok(());
    }

    method Silence(s: O.SilenceOpts) returns (r: Result<(), RunError>)
      modifies this
      ensures Run(r, log) == SilenceRun(server, old(log), s)
    {
      r := Batch(s.resources, s.checks, Some(s.expire), E.Silenced);
    }

    method Clear(c: O.ClearOpts) returns (r: Result<(), RunError>)
      modifies this
      ensures Run(r, log) == ClearRun(server, old(log), c)
    {
      r := Batch(c.resources, c.checks, None, E.Clear);
    }

    /** `list`: the printed lines. */
    method List(l: O.ListOpts) returns (r: Result<seq<string>, SensuError>)
      modifies this
      ensures Run(r, log) == ListRun(server, old(log))
    {
      var resp := Send(Request(Get, E.Silenced, None));
      if resp.Err? {
        return Err(resp.error);
      }
      var lines: seq<string> := [];
      if resp.value.Some? && resp.value.value.Array? {
        var items := resp.value.value.items;
        var k := 0;
        while k < |items|
          invariant 0 <= k <= |items|
          invariant lines == RenderListing(items[..k])
        {
          assert items[..k + 1][..k] == items[..k];
          if items[k].Object? {
            lines := lines + EntryLines(items[k].fields);
          }
          k := k + 1;
        }
        assert items[..|items|] == items;
      }
      return Ok(lines);
    }
  }

  /** The map of `get_node_to_client_map`, filled item by item; a later item with
      the same instance id overwrites an earlier one. */
  method ClientMapFromListing(items: seq<Json>) returns (clientMap: map<string, string>)
    ensures clientMap == ClientMapOf(items)
  {
    clientMap := map[];
    var k := 0;
    while k < |items|
      invariant 0 <= k <= |items|
      invariant clientMap == ClientMapOf(items[..k])
    {
      assert items[..k + 1][..k] == items[..k];
      var entry := EntryOf(items[k]);
      if entry.Some? {
        clientMap := clientMap[entry.value.0 := entry.value.1];
      }
      k := k + 1;
    }
    assert items[..|items|] == items;
  }

  /** The subscription set of `validate_subscriptions`, built by inserting every string
      of every item's `subscriptions` array. */
  method CollectSubscriptions(items: seq<Json>) returns (subs: set<string>)
    ensures subs == KnownSubscriptions(items)
  {
    subs := {};
    var i := 0;
    while i < |items|
      invariant 0 <= i <= |items|
      invariant subs == KnownSubscriptions(items[..i])
    {
      assert items[..i + 1][..i] == items[..i];
      var item := items[i];
      if item.Object? && "subscriptions" in item.fields && item.fields["subscriptions"].Array? {
        var arr := item.fields["subscriptions"].items;
        var j := 0;
        ghost var before := subs;
        while j < |arr|
          invariant 0 <= j <= |arr|
          invariant subs == before + StringsOf(arr[..j])
        {
          assert arr[..j + 1] == arr[..j] + [arr[j]];
          if arr[j].Str? {
            subs := subs + {arr[j].s};
          }
          j := j + 1;
        }
        assert arr[..|arr|] == arr;
      }
      i := i + 1;
    }
    assert items[..|items|] == items;
  }
}
