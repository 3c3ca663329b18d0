/** The earlier revision of the API client (src/sensu.rs). It resolves instance ids
    through the same client map but validates nothing, prints failures and carries
    on, and panics (`unreachable!()`) where the later revision exits with "no
    targets". Its endpoints, payload map, expiry and resource types are the ones of
    the later revision (`Endpoint`, `Payload`, `Expiry`, `Resource`). */
module LegacySensu {
  import opened Common
  import opened Json
  import R = Resource
  import E = Endpoint
  import P = Payload
  import Rs = Resources
  import O = Opts
  import A = SensuApi

  /** How a silence or clear ends: normally, or by the panic of `unreachable!()`. */
  datatype Outcome = Done | Panic

  /** `map_to_sensu_resources`: one GET of the client listing, whose failure is the
      only error; instance ids are drained through the map, names are taken as given. */
  function LegacyResolveRun(server: A.Server, log: seq<A.Request>, res: Rs.ShushResources)
    : A.Run<Result<seq<R.SensuResource>, A.SensuError>>
  {
    var listing := server(log, A.ListingRequest());
    A.Run(if listing.Err? then Err(listing.error)
          else match res.resType
               case Node => Ok(A.Clients(A.Drain(res.resources, A.ListingMap(listing.value))))
               case Sub => Ok(A.Subscriptions(res.resources))
               case Client => Ok(A.Clients(res.resources)),
          log + [A.ListingRequest()])
  }

  /** The display names of the resolved resources; a failed resolution is printed and
      treated as if no resource flag had been given. */
  function LegacyTargetsRun(server: A.Server, log: seq<A.Request>, res: Option<Rs.ShushResources>)
    : A.Run<Option<seq<string>>>
  {
    match res
    case None => A.Run(None, log)
    case Some(r) =>
      var resolved := LegacyResolveRun(server, log, r);
      A.Run(if resolved.result.Err? then None else Some(A.Displays(resolved.result.value)), resolved.log)
  }

  /** `silence`: every planned payload is posted to /silenced whatever the responses
      are; with nothing to address the process panics. */
  function LegacySilenceRun(server: A.Server, log: seq<A.Request>, s: O.SilenceOpts): A.Run<Outcome> {
    var t := LegacyTargetsRun(server, log, s.resources);
    match A.Plan(t.result, s.checks, Some(s.expire))
    case None => A.Run(Panic, t.log)
    case Some(ps) => A.Run(Done, t.log + A.Posts(E.Silenced, ps))
  }

  /** The endpoint of a legacy clear: /silenced/clear only for the product of resources
      and checks, /silenced otherwise. */
  function LegacyClearEndpoint(targets: Option<seq<string>>, checks: Option<seq<string>>): E.SensuEndpoint {
    if targets.Some? && checks.Some? then E.Clear else E.Silenced
  }

  /** `clear`: like `silence` without an expiry, to the endpoint above. */
  function LegacyClearRun(server: A.Server, log: seq<A.Request>, c: O.ClearOpts): A.Run<Outcome> {
    var t := LegacyTargetsRun(server, log, c.resources);
    match A.Plan(t.result, c.checks, None)
    case None => A.Run(Panic, t.log)
    case Some(ps) => A.Run(Done, t.log + A.Posts(LegacyClearEndpoint(t.result, c.checks), ps))
  }

  /** The later revision only narrows the earlier one's resolution: with the same
      listing, its resources are an order-preserving selection of the earlier ones, and
      the same resources when the server never answers 404 to a client lookup and no
      subscription is filtered out. */
  lemma ValidationNarrowsResolution(server: A.Server, log: seq<A.Request>, res: Rs.ShushResources)
    requires server(log, A.ListingRequest()).Ok?
    ensures A.ResolveRun(server, log, res).result.Ok? && LegacyResolveRun(server, log, res).result.Ok?
    ensures Subsequence(A.ResolveRun(server, log, res).result.value, LegacyResolveRun(server, log, res).result.value)
    ensures res.resType != Rs.Sub && (forall h, n :: server(h, A.ClientRequest(n)) != Err(A.NotFound)) ==>
              A.ResolveRun(server, log, res).result == LegacyResolveRun(server, log, res).result
  {
    var log1 := log + [A.ListingRequest()];
    var m := A.ListingMap(server(log, A.ListingRequest()).value);
    match res.resType
    case Node =>
      A.ResolveNodesIsDrainThenValidate(server, log1, res.resources, m);
      A.ValidateClientsShape(server, log1, A.Drain(res.resources, m));
      if forall h, n :: server(h, A.ClientRequest(n)) != Err(A.NotFound) {
        A.NoNotFoundKeepsAll(server, log1, A.Drain(res.resources, m));
      }
    case Client =>
      A.ValidateClientsShape(server, log1, res.resources);
      if forall h, n :: server(h, A.ClientRequest(n)) != Err(A.NotFound) {
        A.NoNotFoundKeepsAll(server, log1, res.resources);
      }
    case Sub =>
      var subs := A.Subscriptions(res.resources);
      match server(log1, A.ListingRequest())
      case Ok(Some(Array(items))) =>
        A.KeepKnownSpec(subs, A.KnownSubscriptions(items));
      case _ =>
        SubsequenceReflexive(subs);
  }

  /** Only the client listing influences a legacy silence: two servers that agree on it
      produce the same run, whatever they answer to the POSTs (no fail-fast). */
  lemma SilenceIgnoresPostResponses(s1: A.Server, s2: A.Server, log: seq<A.Request>, s: O.SilenceOpts)
    requires s1(log, A.ListingRequest()) == s2(log, A.ListingRequest())
    ensures LegacySilenceRun(s1, log, s) == LegacySilenceRun(s2, log, s)
  {
  }

  /** The same holds for a legacy clear. */
  lemma ClearIgnoresPostResponses(s1: A.Server, s2: A.Server, log: seq<A.Request>, c: O.ClearOpts)
    requires s1(log, A.ListingRequest()) == s2(log, A.ListingRequest())
    ensures LegacyClearRun(s1, log, c) == LegacyClearRun(s2, log, c)
  {
  }

  /** A failed listing drops the resources but not the checks: the silence goes on and
      posts one all-resources payload per check. */
  lemma ResolutionFailureSilencesChecks(server: A.Server, log: seq<A.Request>, s: O.SilenceOpts)
    requires s.resources.Some? && s.checks.Some? && server(log, A.ListingRequest()).Err?
    ensures var l := LegacySilenceRun(server, log, s);
            l.result == Done && |l.log| == |log| + 1 + |s.checks.value|
            && forall i :: |log| < i < |l.log| ==>
                 l.log[i] == A.Request(A.Post, E.Silenced, Some(P.SensuPayload(None, Some(s.checks.value[i - |log| - 1]), Some(s.expire))))
  {
  }

  /** As written, a clear of resources without checks posts to /silenced (creating
      silences without expiry) instead of /silenced/clear. */
  lemma ClearWithoutChecksPostsToSilenced(server: A.Server, log: seq<A.Request>, c: O.ClearOpts)
    requires c.resources.Some? && c.checks.None? && server(log, A.ListingRequest()).Ok?
    ensures var l := LegacyClearRun(server, log, c);
            l.result == Done && |l.log| > |log|
            && forall i :: |log| < i < |l.log| ==>
                 l.log[i].verb == A.Post && l.log[i].endpoint == E.Silenced && l.log[i].body.Some?
                 && l.log[i].body.value.expire.None? && l.log[i].body.value.chk.None?
  {
  }

  lemma ClientWebText()
    ensures A.Displays([R.Client("web")]) == ["client:web"]
  {
    assert R.Display(R.Client("web")) == "client:web";
  }

  /** The concrete input: clearing client "web" with no checks sends a POST to
      /silenced. */
  lemma ClearOfOneClient(server: A.Server, log: seq<A.Request>)
    requires server(log, A.ListingRequest()).Ok?
    ensures LegacyClearRun(server, log, O.ClearOpts(Some(Rs.ShushResources(Rs.Client, ["web"])), None))
            == A.Run(Done, log + [A.ListingRequest(),
                                  A.Request(A.Post, E.Silenced, Some(P.SensuPayload(Some("client:web"), None, None)))])
  {
    ClientWebText();
    var payload := P.SensuPayload(Some("client:web"), None, None);
    var plan := A.Plan(Some(["client:web"]), None, None).value;
    assert |plan| == 1 && plan[0] == payload;
    assert plan == [payload];
    assert A.Posts(E.Silenced, [payload]) == [A.Request(A.Post, E.Silenced, Some(payload))];
  }

  /** As written, `unreachable!()` is reached: a silence of resources without checks
      whose client listing fails panics. */
  lemma UnreachableIsReached(server: A.Server, log: seq<A.Request>, s: O.SilenceOpts)
    requires s.resources.Some? && s.checks.None? && server(log, A.ListingRequest()).Err?
    ensures LegacySilenceRun(server, log, s) == A.Run(Panic, log + [A.ListingRequest()])
  {
  }

  /** The instance ids that resolve, drained from the map with `remove`. */
  method DrainNodes(ids: seq<string>, clientMap: map<string, string>) returns (names: seq<string>)
    ensures names == A.Drain(ids, clientMap)
  {
    var m := clientMap;
    names := [];
    var k := 0;
    assert ids[k..] == ids;
    while k < |ids|
      invariant 0 <= k <= |ids|
      invariant A.Drain(ids, clientMap) == names + A.Drain(ids[k..], m)
    {
      assert ids[k..][0] == ids[k] && ids[k..][1..] == ids[k + 1..];
      if ids[k] in m {
        names := names + [m[ids[k]]];
        m := m - {ids[k]};
      }
      k := k + 1;
    }
    assert ids[k..] == [];
    assert names + [] == names;
  }

  /** The earlier `SensuClient`. */
  class LegacyClient {
    const server: A.Server
    var log: seq<A.Request>

    constructor (server: A.Server)
      ensures this.server == server && log == []
    {
      this.server := server;
      log := [];
    }

    method Send(req: A.Request) returns (resp: A.Response)
      modifies this
      ensures resp == server(old(log), req) && log == old(log) + [req]
    {
      resp := server(log, req);
      log := log + [req];
    }

    method MapToSensuResources(res: Rs.ShushResources) returns (r: Result<seq<R.SensuResource>, A.SensuError>)
      modifies this
      ensures A.Run(r, log) == LegacyResolveRun(server, old(log), res)
    {
      var clients := Send(A.ListingRequest());
      if clients.Err? {
        return Err(clients.error);
      }
      var clientMap: map<string, string> := map[];
      if clients.value.Some? && clients.value.value.Array? {
        clientMap := A.ClientMapFromListing(clients.value.value.items);
      }
      match res.resType {
        case Node =>
          var names := DrainNodes(res.resources, clientMap);
          r := Ok(A.Clients(names));
        case Sub =>
          r := Ok(A.Subscriptions(res.resources));
        case Client =>
          r := Ok(A.Clients(res.resources));
      }
    }

    /** Posts every payload; a failed POST is printed and the loop goes on. */
    method PostEach(ep: E.SensuEndpoint, ps: seq<P.SensuPayload>)
      modifies this
      ensures log == old(log) + A.Posts(ep, ps)
    {
      var k := 0;
      while k < |ps|
        invariant 0 <= k <= |ps|
        invariant log == old(log) + A.Posts(ep, ps[..k])
      {
        assert A.Posts(ep, ps[..k + 1]) == A.Posts(ep, ps[..k]) + [A.Request(A.Post, ep, Some(ps[k]))];
        var _ := Send(A.Request(A.Post, ep, Some(ps[k])));
        k := k + 1;
      }
      assert ps[..k] == ps;
    }

    method Targets(res: Option<Rs.ShushResources>) returns (targets: Option<seq<string>>)
      modifies this
      ensures A.Run(targets, log) == LegacyTargetsRun(server, old(log), res)
    {
      targets := None;
      if res.Some? {
        var resolved := MapToSensuResources(res.value);
        if resolved.Ok? {
          targets := Some(A.Displays(resolved.value));
        }
      }
    }

    method Silence(s: O.SilenceOpts) returns (outcome: Outcome)
      modifies this
      ensures A.Run(outcome, log) == LegacySilenceRun(server, old(log), s)
    {
      var targets := Targets(s.resources);
      var plan := A.Plan(targets, s.checks, Some(s.expire));
      if plan.None? {
        return Panic;
      }
      PostEach(E.Silenced, plan.value);
      return Done;
    }

    method Clear(c: O.ClearOpts) returns (outcome: Outcome)
      modifies this
      ensures A.Run(outcome, log) == LegacyClearRun(server, old(log), c)
    {
      var targets := Targets(c.resources);
      var plan := A.Plan(targets, c.checks, None);
      if plan.None? {
        return Panic;
      }
      PostEach(LegacyClearEndpoint(targets, c.checks), plan.value);
      return Done;
    }
  }
}
