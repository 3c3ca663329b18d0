/** The server endpoints the tool calls (src/sensu/endpoint.rs). */
module Endpoint {

  datatype SensuEndpoint = Silenced | Clear | Clients | Client(name: string) | Results

  /** `TryInto<Uri>`: the request path of each endpoint. */
  function Path(e: SensuEndpoint): (path: string)
    ensures |path| >= 8 && path[0] == '/'
    ensures e.Client? ==> |path| >= 9
    ensures e.Client? ==> path[..9] == "/clients/" && path[9..] == e.name
  {
    match e
    case Silenced => "/silenced"
    case Clear => "/silenced/clear"
    case Clients => "/clients"
    case Client(c) => "/clients/" + c
    case Results => "/results"
  }

  /** No two endpoints share a path. */
  lemma PathInjective(a: SensuEndpoint, b: SensuEndpoint)
    requires Path(a) == Path(b)
    ensures a == b
  {
    var p := Path(a);
    if a.Client? || b.Client? {
      assert p[1] == 'c';
      assert p[..9] == Path(a)[..9] == Path(b)[..9];
    } else {
      assert p[1] == Path(b)[1] && |p| == |Path(b)|;
    }
  }
}
