/**
  The decision `APIKeyAuthMiddleware.__call__` takes for each ASGI scope:
  hand the request to the wrapped app, or answer 401 itself.  This is
  bearer-token authentication in the sense of section 2.1 of RFC 6750, with
  the whole header compared case-sensitively against "Bearer <key>".
  Header names and values are the decoded strings; the configured key is the
  value of MCP_API_KEY read at construction ("" when unset).
*/
module Auth {
  import opened Wrappers
  import opened PyValues

  /** The parts of an ASGI scope the gate reads: `scope["type"]` and `scope.get("headers")`. */
  datatype Scope = Scope(kind: string, headers: Option<seq<(string, string)>>)

  /** Call the wrapped app, or send a JSON response of its own instead. */
  datatype Decision =
    | CallApp
    | Respond(status: nat, body: seq<(string, string)>)

  /** The body of the rejection response. */
  const UnauthorizedBody: seq<(string, string)> :=
    [("error", "Unauthorized"), ("message", "Invalid or missing API key")]

  /** `dict(headers)`: pairs stored in list order, so a later pair overwrites an earlier one. */
  function HeaderDict(headers: seq<(string, string)>): seq<(string, string)>
  {
    if headers == [] then []
    else
      var n := |headers| - 1;
      Store(HeaderDict(headers[..n]), headers[n].0, headers[n].1)
  }

  /** The value of the last header with the given name, if any. */
  function LastHeader(headers: seq<(string, string)>, name: string): Option<string>
  {
    if headers == [] then None
    else
      var n := |headers| - 1;
      if headers[n].0 == name then Some(headers[n].1) else LastHeader(headers[..n], name)
  }

  /**
    `LastHeader` finds a header of that name exactly when there is one, and
    what it finds is the value of a pair with no later pair of that name.
  */
  lemma {:induction false} LastHeaderSpec(headers: seq<(string, string)>, name: string)
    ensures LastHeader(headers, name).None? <==> forall i :: 0 <= i < |headers| ==> headers[i].0 != name
    ensures LastHeader(headers, name).Some? ==>
              exists i :: 0 <= i < |headers| && headers[i] == (name, LastHeader(headers, name).value)
                          && forall j :: i < j < |headers| ==> headers[j].0 != name
  {
    if headers != [] {
      var n := |headers| - 1;
      LastHeaderSpec(headers[..n], name);
      if headers[n].0 != name {
        assert forall i :: 0 <= i < n ==> headers[..n][i] == headers[i];
      }
    }
  }

  /** Building the dict keeps the last value given for each name. */
  lemma {:induction false} HeaderDictKeepsLast(headers: seq<(string, string)>, name: string)
    ensures Lookup(HeaderDict(headers), name) == LastHeader(headers, name)
  {
    if headers != [] {
      HeaderDictKeepsLast(headers[..|headers| - 1], name);
    }
  }

  /**
    `__call__(scope, receive, send)`: scopes other than http and websocket
    pass, an empty configured key lets everything pass, and otherwise the
    `authorization` header (or "" when absent) must equal "Bearer " + key.
  */
  function Authorize(scope: Scope, apiKey: string): (d: Decision)
    ensures d.CallApp? || d == Respond(401, UnauthorizedBody)
    ensures scope.kind != "http" && scope.kind != "websocket" ==> d.CallApp?
    ensures apiKey == "" ==> d.CallApp?
  {
    if scope.kind != "http" && scope.kind != "websocket" then CallApp
    else if apiKey == "" then CallApp
    else
      var headers := HeaderDict(scope.headers.GetOr([]));
      var authValue := Lookup(headers, "authorization").GetOr("");
      if authValue != "Bearer " + apiKey then Respond(401, UnauthorizedBody)
      else CallApp
  }

  /**
    The gate lets a request through exactly when its scope is not http or
    websocket, or no key is configured, or the last `authorization` header is
    "Bearer " followed by the key; every other request is answered with 401
    and the fixed body, and the wrapped app is not called.
  */
  lemma AuthorizeDecision(scope: Scope, apiKey: string)
    ensures Authorize(scope, apiKey).CallApp? <==>
              || (scope.kind != "http" && scope.kind != "websocket")
              || apiKey == ""
              || LastHeader(scope.headers.GetOr([]), "authorization") == Some("Bearer " + apiKey)
    ensures !Authorize(scope, apiKey).CallApp? ==> Authorize(scope, apiKey) == Respond(401, UnauthorizedBody)
  {
    HeaderDictKeepsLast(scope.headers.GetOr([]), "authorization");
  }

  /** A request without any `authorization` header is refused once a key is set. */
  lemma MissingHeaderRejected(kind: string, headers: seq<(string, string)>, apiKey: string)
    requires kind == "http" || kind == "websocket"
    requires apiKey != ""
    requires forall i :: 0 <= i < |headers| ==> headers[i].0 != "authorization"
    ensures Authorize(Scope(kind, Some(headers)), apiKey) == Respond(401, UnauthorizedBody)
    ensures Authorize(Scope(kind, None), apiKey) == Respond(401, UnauthorizedBody)
  {
    LastHeaderSpec(headers, "authorization");
    AuthorizeDecision(Scope(kind, Some(headers)), apiKey);
    AuthorizeDecision(Scope(kind, None), apiKey);
  }

  /** The scheme is compared case-sensitively: "bearer <key>" is refused. */
  lemma LowerCaseSchemeRejected(apiKey: string)
    requires apiKey != ""
    ensures Authorize(Scope("http", Some([("authorization", "bearer " + apiKey)])), apiKey)
         == Respond(401, UnauthorizedBody)
  {
    var h := [("authorization", "bearer " + apiKey)];
    HeaderDictKeepsLast(h, "authorization");
    assert ("bearer " + apiKey)[0] != ("Bearer " + apiKey)[0];
  }

  /** With two `authorization` headers, the later one decides. */
  lemma LaterHeaderWins(apiKey: string, other: string)
    requires apiKey != ""
    requires other != "Bearer " + apiKey
    ensures Authorize(Scope("http", Some([("authorization", "Bearer " + apiKey), ("authorization", other)])), apiKey)
         == Respond(401, UnauthorizedBody)
    ensures Authorize(Scope("http", Some([("authorization", other), ("authorization", "Bearer " + apiKey)])), apiKey)
         == CallApp
  {
    var h1 := [("authorization", "Bearer " + apiKey), ("authorization", other)];
    var h2 := [("authorization", other), ("authorization", "Bearer " + apiKey)];
    HeaderDictKeepsLast(h1, "authorization");
    HeaderDictKeepsLast(h2, "authorization");
  }
}
