/**
 * The transport core (src/api.ts): resolving a configuration into a client,
 * building the request descriptor of a call, and classifying the response.
 * The HTTP round trip itself is an input (`HttpResult`), so every operation
 * is a pure function.
 */
module Api {
  import opened Results
  import opened Json

  /** The `v` parameter sent when the configuration gives none. */
  const DefaultVParam: string := "20211028"

  const ProdHost: string := "api.yext.com"
  const SandboxHost: string := "api-sandbox.yext.com"

  /** The account segment selecting the account that owns the API key. */
  const DefaultAccountId: string := "me"

  /** The single header sent along with a JSON body. */
  const JsonContentType: (string, string) := ("Content-Type", "application/json; charset=utf-8")

  // ---------------------------------------------------------------------
  // Configuration and client construction
  // ---------------------------------------------------------------------

  /**
   * Caller configuration. Every optional field is `None` when unset; the
   * environment is an open string because nothing stops a JavaScript caller
   * from passing a value outside 'PROD' | 'SANDBOX'.
   */
  datatype Config = Config(
    apiKey: string,
    env: Option<string>,
    accountId: Option<string>,
    vParam: Option<string>,
    hostOverride: Option<string>)

  /** The resolved, immutable client state. */
  datatype Client = Client(urlBase: string, apiKey: string, vParam: string)

  /** The only error construction can raise. */
  datatype ConfigError = UnknownEnvironment(env: string)

  function ErrorMessage(e: ConfigError): string
  {
    "Unknown Yext environment: " + e.env
  }

  /** Truthiness of an optional string: set and not empty. */
  predicate IsSet(o: Option<string>)
  {
    o.Some? && o.value != ""
  }

  /** `o || fallback` on an optional string. */
  function OrElse(o: Option<string>, fallback: string): string
  {
    if IsSet(o) then o.value else fallback
  }

  /** Picks the host: a set override wins, otherwise the environment table. */
  function ResolveHost(c: Config): Result<string, ConfigError>
  {
    if IsSet(c.hostOverride) then Ok(c.hostOverride.value)
    else
      var env := OrElse(c.env, "PROD");
      if env == "PROD" then Ok(ProdHost)
      else if env == "SANDBOX" then Ok(SandboxHost)
      else Err(UnknownEnvironment(env))
  }

  /** The `Client` constructor: a client, or the unknown-environment error. */
  function NewClient(c: Config): (r: Result<Client, ConfigError>)
    ensures r.Ok? <==> IsSet(c.hostOverride) || OrElse(c.env, "PROD") in {"PROD", "SANDBOX"}
    ensures IsSet(c.hostOverride) ==>
      r.Ok? && r.value.urlBase == "https://" + c.hostOverride.value + "/v2/accounts/" + OrElse(c.accountId, DefaultAccountId) + "/"
    ensures !IsSet(c.hostOverride) && (c.env == None || c.env == Some("") || c.env == Some("PROD")) ==>
      r.Ok? && r.value.urlBase == "https://" + ProdHost + "/v2/accounts/" + OrElse(c.accountId, DefaultAccountId) + "/"
    ensures !IsSet(c.hostOverride) && c.env == Some("SANDBOX") ==>
      r.Ok? && r.value.urlBase == "https://" + SandboxHost + "/v2/accounts/" + OrElse(c.accountId, DefaultAccountId) + "/"
    ensures r.Err? ==> c.env.Some? && r.error == UnknownEnvironment(c.env.value)
    ensures r.Ok? ==> r.value.apiKey == c.apiKey
    ensures r.Ok? ==> r.value.vParam == (if IsSet(c.vParam) then c.vParam.value else DefaultVParam)
  {
    match ResolveHost(c)
    case Err(e) => Err(e)
    case Ok(host) =>
      var accountId := OrElse(c.accountId, DefaultAccountId);
      Ok(Client(
        "https://" + host + "/v2/accounts/" + accountId + "/",
        c.apiKey,
        OrElse(c.vParam, DefaultVParam)))
  }

  /** A set host override decides the client whatever the environment says. */
  lemma HostOverrideWins(c: Config, env: Option<string>)
    requires IsSet(c.hostOverride)
    ensures NewClient(c.(env := env)) == NewClient(c)
    ensures NewClient(c).Ok?
  {
  }

  /** An empty override is no override: construction falls through to the environment. */
  lemma EmptyOverrideFallsThrough(c: Config)
    ensures NewClient(c.(hostOverride := Some(""))) == NewClient(c.(hostOverride := None))
  {
  }

  /** Unset and empty optional fields take their documented defaults. */
  lemma DefaultsApply(c: Config)
    ensures NewClient(c.(env := None)) == NewClient(c.(env := Some(""))) == NewClient(c.(env := Some("PROD")))
    ensures NewClient(c.(accountId := None)) == NewClient(c.(accountId := Some(""))) == NewClient(c.(accountId := Some("me")))
    ensures NewClient(c.(vParam := None)) == NewClient(c.(vParam := Some(""))) == NewClient(c.(vParam := Some(DefaultVParam)))
  {
  }

  /** With no override, any environment other than the two known ones fails fast. */
  lemma UnknownEnvironmentFails(c: Config, env: string)
    requires !IsSet(c.hostOverride)
    requires env != "" && env != "PROD" && env != "SANDBOX"
    ensures NewClient(c.(env := Some(env))) == Err(UnknownEnvironment(env))
    ensures ErrorMessage(NewClient(c.(env := Some(env))).error) == "Unknown Yext environment: " + env
  {
  }

  /**
   * On one host, the base URL determines the account segment: two
   * configurations reaching the same host and base URL scope the same account.
   */
  lemma {:induction false} UrlBaseDeterminesAccount(c1: Config, c2: Config)
    requires NewClient(c1).Ok? && NewClient(c2).Ok?
    requires ResolveHost(c1) == ResolveHost(c2)
    requires NewClient(c1).value.urlBase == NewClient(c2).value.urlBase
    ensures OrElse(c1.accountId, DefaultAccountId) == OrElse(c2.accountId, DefaultAccountId)
  {
    var host := ResolveHost(c1).value;
    var prefix := "https://" + host + "/v2/accounts/";
    var a1 := OrElse(c1.accountId, DefaultAccountId);
    var a2 := OrElse(c2.accountId, DefaultAccountId);
    var u1 := prefix + a1 + "/";
    var u2 := prefix + a2 + "/";
    assert u1 == NewClient(c1).value.urlBase;
    assert u2 == NewClient(c2).value.urlBase;
    assert |a1| == |a2| by {
      assert |u1| == |prefix| + |a1| + 1;
      assert |u2| == |prefix| + |a2| + 1;
    }
    assert u1[|prefix|..|prefix| + |a1|] == a1;
    assert u2[|prefix|..|prefix| + |a2|] == a2;
  }

  // ---------------------------------------------------------------------
  // Query parameters
  // ---------------------------------------------------------------------

  /** A caller query value: one string or a list of strings. */
  datatype QueryValue = Single(value: string) | Multiple(values: seq<string>)

  /** The caller's query parameters, in iteration order. */
  type QueryParams = seq<(string, QueryValue)>

  /** The strings a query value contributes, in order. */
  function Values(v: QueryValue): seq<string>
  {
    match v
    case Single(s) => [s]
    case Multiple(vs) => vs
  }

  /** The entries one parameter contributes: its key repeated once per value. */
  function Entries(k: string, v: QueryValue): seq<(string, string)>
  {
    seq(|Values(v)|, n requires 0 <= n < |Values(v)| => (k, Values(v)[n]))
  }

  /** How many entries the parameters contribute altogether. */
  function TotalSize(ps: QueryParams): nat
  {
    if ps == [] then 0 else |Values(ps[0].1)| + TotalSize(ps[1..])
  }

  /** Repeated-key expansion of the caller's parameters. */
  function ExpandParams(ps: QueryParams): (q: seq<(string, string)>)
    ensures |q| == TotalSize(ps)
  {
    if ps == [] then [] else Entries(ps[0].0, ps[0].1) + ExpandParams(ps[1..])
  }

  /** Expansion distributes over concatenation of parameter lists. */
  lemma {:induction false} ExpandAppend(a: QueryParams, b: QueryParams)
    ensures ExpandParams(a + b) == ExpandParams(a) + ExpandParams(b)
    decreases |a|
  {
    if a == [] {
      assert a + b == b;
    } else {
      assert (a + b)[0] == a[0];
      assert (a + b)[1..] == a[1..] + b;
      ExpandAppend(a[1..], b);
    }
  }

  /** Appending one more parameter appends exactly its entries. */
  lemma {:induction false} ExpandSnoc(ps: QueryParams, i: nat)
    requires i < |ps|
    ensures ExpandParams(ps[..i + 1]) == ExpandParams(ps[..i]) + Entries(ps[i].0, ps[i].1)
  {
    assert ps[..i + 1] == ps[..i] + [ps[i]];
    ExpandAppend(ps[..i], [ps[i]]);
    assert ExpandParams([ps[i]]) == Entries(ps[i].0, ps[i].1) + ExpandParams([]);
  }

  /** The expansion around the i-th parameter: before it, its own entries, after it. */
  lemma {:induction false} ExpandSplit(ps: QueryParams, i: nat)
    requires i < |ps|
    ensures ExpandParams(ps) == ExpandParams(ps[..i]) + (Entries(ps[i].0, ps[i].1) + ExpandParams(ps[i + 1..]))
  {
    assert ps == ps[..i] + ps[i..];
    ExpandAppend(ps[..i], ps[i..]);
    assert ps[i..][0] == ps[i] && ps[i..][1..] == ps[i + 1..];
  }

  /**
   * Order is kept: the j-th value of the i-th parameter sits right after the
   * entries of the parameters before it.
   */
  lemma {:induction false} ExpandIndex(ps: QueryParams, i: nat, j: nat)
    requires i < |ps| && j < |Values(ps[i].1)|
    ensures |ExpandParams(ps[..i])| + j < |ExpandParams(ps)|
    ensures ExpandParams(ps)[|ExpandParams(ps[..i])| + j] == (ps[i].0, Values(ps[i].1)[j])
  {
    var pre := ExpandParams(ps[..i]);
    var own := Entries(ps[i].0, ps[i].1);
    var rest := own + ExpandParams(ps[i + 1..]);
    assert ExpandParams(ps) == pre + rest by {
      ExpandSplit(ps, i);
    }
    assert rest[j] == (ps[i].0, Values(ps[i].1)[j]) by {
      assert rest[j] == own[j];
    }
    assert (pre + rest)[|pre| + j] == rest[j];
  }

  /** Taking one more value of a list appends exactly one entry. */
  lemma EntriesSnoc(k: string, vs: seq<string>, j: nat)
    requires j < |vs|
    ensures Entries(k, Multiple(vs[..j + 1])) == Entries(k, Multiple(vs[..j])) + [(k, vs[j])]
  {
  }

  /** The inner `for…of` of `Client.call`: one entry per value of a list, in order. */
  method AppendValues(q0: seq<(string, string)>, k: string, vs: seq<string>) returns (q: seq<(string, string)>)
    ensures |q| == |q0| + |vs|
    ensures q[..|q0|] == q0
    ensures forall n :: 0 <= n < |vs| ==> q[|q0| + n] == (k, vs[n])
    ensures q == q0 + Entries(k, Multiple(vs))
  {
    q := q0;
    var j := 0;
    while j < |vs|
      invariant 0 <= j <= |vs|
      invariant q == q0 + Entries(k, Multiple(vs[..j]))
    {
      EntriesSnoc(k, vs, j);
      q := q + [(k, vs[j])];
      j := j + 1;
    }
    assert vs[..j] == vs;
  }

  /**
   * The query list of a call, built with the loops of `Client.call`: `api_key`, then
   * `v`, then every caller value under its key, in order.
   */
  method BuildQuery(apiKey: string, vParam: string, ps: QueryParams) returns (q: seq<(string, string)>)
    ensures |q| == 2 + TotalSize(ps)
    ensures q[0] == ("api_key", apiKey) && q[1] == ("v", vParam)
    ensures q[2..] == ExpandParams(ps)
  {
    var rest: seq<(string, string)> := [];
    var i := 0;
    while i < |ps|
      invariant 0 <= i <= |ps|
      invariant rest == ExpandParams(ps[..i])
    {
      var k := ps[i].0;
      match ps[i].1 {
        case Single(s) =>
          rest := rest + [(k, s)];
          assert Entries(k, Single(s)) == [(k, s)];
        case Multiple(vs) =>
          rest := AppendValues(rest, k, vs);
      }
      ExpandSnoc(ps, i);
      i := i + 1;
    }
    assert ps[..i] == ps;
    q := [("api_key", apiKey), ("v", vParam)] + rest;
    assert q[2..] == rest;
  }

  // ---------------------------------------------------------------------
  // Request descriptor
  // ---------------------------------------------------------------------

  datatype HttpMethod = DELETE | GET | POST | PUT

  /**
   * What `call` hands to `fetch`: the method, the URL before query encoding,
   * the query as key/value pairs, the body that would be serialised as JSON,
   * and the headers.
   */
  datatype Request = Request(
    verb: HttpMethod,
    url: string,
    query: seq<(string, string)>,
    payload: Option<Value>,
    headers: seq<(string, string)>)

  /** Request construction of `Client.call`. */
  function BuildRequest(client: Client, verb: HttpMethod, path: string, ps: QueryParams, body: Option<Value>): (r: Request)
    ensures r.verb == verb
    ensures r.url == client.urlBase + path
    ensures |r.query| == 2 + TotalSize(ps)
    ensures r.query[0] == ("api_key", client.apiKey) && r.query[1] == ("v", client.vParam)
    ensures r.query[2..] == ExpandParams(ps)
    ensures r.payload.Some? <==> body.Some? && Truthy(body.value)
    ensures r.payload.Some? ==> r.payload == body
    ensures r.payload.Some? ==> r.headers == [JsonContentType]
    ensures r.payload.None? ==> r.headers == []
  {
    var query := [("api_key", client.apiKey), ("v", client.vParam)] + ExpandParams(ps);
    if body.Some? && Truthy(body.value) then
      Request(verb, client.urlBase + path, query, body, [JsonContentType])
    else
      Request(verb, client.urlBase + path, query, None, [])
  }

  // ---------------------------------------------------------------------
  // Outcome classification
  // ---------------------------------------------------------------------

  /** A received response: its status and its body parsed as JSON (None if not JSON). */
  datatype Response = Response(status: int, json: Option<Value>)

  /** What the network round trip yields: a response, or a rejected fetch. */
  datatype HttpResult = Received(response: Response) | Rejected

  /** Everything a call or a wrapper can throw. */
  datatype Failure =
    | ApiError(httpResponse: Response)  // a response whose status is not 2xx
    | FetchRejected                      // fetch itself failed, no response
    | InvalidJson                        // a 2xx body that is not JSON
    | NullProperty                       // reading a property of a null envelope

  /** `response.ok`: the status is in the successful class. */
  predicate IsOk(status: int)
  {
    200 <= status <= 299
  }

  /** The request a call issues together with what it returns or throws. */
  datatype Exchange<T> = Exchange(request: Request, outcome: Result<T, Failure>)

  /** Status classification of `Client.call`. */
  function Classify(fetched: HttpResult): (r: Result<Value, Failure>)
    ensures r.Ok? <==> fetched.Received? && IsOk(fetched.response.status) && fetched.response.json.Some?
    ensures r.Ok? ==> r.value == fetched.response.json.value
    ensures (r.Err? && r.error.ApiError?) <==> fetched.Received? && !IsOk(fetched.response.status)
    ensures r.Err? && r.error.ApiError? ==> r.error.httpResponse == fetched.response
    ensures r == Err(FetchRejected) <==> fetched.Rejected?
    ensures r != Err(NullProperty)
  {
    match fetched
    case Rejected => Err(FetchRejected)
    case Received(resp) =>
      if !IsOk(resp.status) then Err(ApiError(resp))
      else if resp.json.None? then Err(InvalidJson)
      else Ok(resp.json.value)
  }

  /** `Client.call`: the request it issues and the envelope it returns or the error it throws. */
  function Call(client: Client, verb: HttpMethod, path: string, ps: QueryParams, body: Option<Value>, fetched: HttpResult): (x: Exchange<Value>)
    ensures x.request.verb == verb && x.request.url == client.urlBase + path
    ensures |x.request.query| == 2 + TotalSize(ps)
    ensures x.request.query[..2] == [("api_key", client.apiKey), ("v", client.vParam)]
    ensures x.request.query[2..] == ExpandParams(ps)
    ensures x.request.payload.Some? <==> body.Some? && Truthy(body.value)
    ensures x.request.payload.Some? ==> x.request.payload == body
    ensures x.request.headers == (if x.request.payload.Some? then [JsonContentType] else [])
    ensures x.outcome.Ok? <==> fetched.Received? && IsOk(fetched.response.status) && fetched.response.json.Some?
    ensures x.outcome.Ok? ==> x.outcome.value == fetched.response.json.value
    ensures fetched.Received? && !IsOk(fetched.response.status) ==> x.outcome == Err(ApiError(fetched.response))
    ensures x.outcome.Err? && x.outcome.error.ApiError? ==>
      fetched == Received(x.outcome.error.httpResponse) && !IsOk(x.outcome.error.httpResponse.status)
    ensures fetched.Rejected? ==> x.outcome == Err(FetchRejected)
    ensures fetched.Received? && IsOk(fetched.response.status) && fetched.response.json.None? ==>
      x.outcome == Err(InvalidJson)
  {
    Exchange(BuildRequest(client, verb, path, ps, body), Classify(fetched))
  }

  /** A 2xx response is never an error and any other status is never a success. */
  lemma ClassifyDecisionTable(status: int, json: Option<Value>)
    ensures IsOk(status) && json.Some? ==> Classify(Received(Response(status, json))) == Ok(json.value)
    ensures IsOk(status) && json.None? ==> Classify(Received(Response(status, json))) == Err(InvalidJson)
    ensures !IsOk(status) ==> Classify(Received(Response(status, json))) == Err(ApiError(Response(status, json)))
  {
  }
}
