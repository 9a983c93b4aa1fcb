/**
 * The `MarketoMonkey` REST client (marketo_monkey/__init__.py, and the same
 * class at the top of the legacy script marketo-monkey.py).
 *
 * HTTP is replaced by a `Network` object: an oracle that answers each
 * request with a decoded JSON value and keeps the log of what was sent.
 * A URL is kept as the configured service root, the path joined onto it
 * and the query map, before any encoding.
 */
module Client {
  import opened Results
  import opened Values
  import Strings

  datatype Verb = GET | POST

  datatype Url = Url(root: string, path: string, query: map<string, Value>)

  datatype Request = Request(verb: Verb, url: Url, body: Option<Value>, headers: map<string, string>)

  /** The loaded configuration file: `service_root`, `client_id`, `client_secret`. */
  datatype Config = Config(serviceRoot: string, clientId: Value, clientSecret: Value)

  const TOKEN_PATH: string := "/identity/oauth/token"
  const OBJECTS_PATH: string := "/rest/v1/customobjects.json"
  const LEADS_PATH: string := "/rest/v1/leads.json"
  const LEADS_DESCRIBE_PATH: string := "/rest/v1/leads/describe.json"
  const SNAP_OBJECT: string := "snap_c"
  const SNAPS_PATH: string := "/rest/v1/customobjects/snap_c.json"

  /** `MarketoMonkey.HEADERS`, sent with every POST. */
  const JSON_HEADERS: map<string, string> := map["Content-Type" := "application/json; charset=UTF-8"]

  /** The fields that `set_lead` forces on every lead. */
  const LEAD_OVERRIDES: map<string, Value> :=
    map["snapcraftio" := Bool(true), "snapcraftioEnvironment" := Str("staging")]

  /** The fields `get_snap` asks for. */
  const SNAP_FIELD_NAMES: seq<string> :=
    ["emailAddress", "snapName", "revision", "Confinement", "channel",
     "marketoGUID", "createdAt", "updatedAt"]

  /**
   * The `fields` parameter of `get_snap`: the names above, separated by
   * commas, which spells out the string literal at marketo_monkey/__init__.py:91-92.
   */
  const SNAP_FIELDS: string := Strings.Join(SNAP_FIELD_NAMES, ',')

  /** The query of the token request: the client-credentials grant, with both credentials from the configuration and no token. */
  function TokenQuery(config: Config): (q: map<string, Value>)
    ensures "access_token" !in q
    ensures "client_id" in q && q["client_id"] == config.clientId
    ensures "client_secret" in q && q["client_secret"] == config.clientSecret
  {
    map["grant_type" := Str("client_credentials"),
        "client_id" := config.clientId,
        "client_secret" := config.clientSecret]
  }

  /** The request `_get_access_token` sends when no token is cached. */
  function TokenRequest(config: Config): Request
  {
    Request(GET, Url(config.serviceRoot, TOKEN_PATH, TokenQuery(config)), None, map[])
  }

  /**
   * The query of every API call: `{'access_token': token}` updated with the
   * extra parameters, so it always holds `access_token` and an extra
   * parameter of that name overrides the token.
   */
  function Query(token: Value, extra: map<string, Value>): (q: map<string, Value>)
    ensures q.Keys == extra.Keys + {"access_token"}
    ensures forall k :: k in extra ==> q[k] == extra[k]
    ensures "access_token" !in extra ==> q["access_token"] == token
  {
    map["access_token" := token] + extra
  }

  /**
   * The record `set_lead` sends: the caller's fields with the overrides
   * applied on top.
   */
  function LeadRecord(fields: map<string, Value>): (lead: map<string, Value>)
    ensures lead.Keys == fields.Keys + LEAD_OVERRIDES.Keys
    ensures lead["snapcraftio"] == Bool(true)
    ensures lead["snapcraftioEnvironment"] == Str("staging")
    ensures forall k :: k in fields && k !in LEAD_OVERRIDES ==> lead[k] == fields[k]
  {
    fields + LEAD_OVERRIDES
  }

  /** The objects a body of the form `{'input': [record, ...]}` carries, if it has that form. */
  function InputRecords(body: Value): Option<seq<map<string, Value>>>
  {
    if body.Dict? && body.entries.Keys == {"input"} && body.entries["input"].List? then
      Records(body.entries["input"].items)
    else None
  }

  function Records(items: seq<Value>): Option<seq<map<string, Value>>>
  {
    if items == [] then Some([])
    else if !items[0].Dict? then None
    else match Records(items[1..])
      case None => None
      case Some(rest) => Some([items[0].entries] + rest)
  }

  /** The POST body of `set_lead` and `set_snap`: exactly one record, under `input`. */
  function Payload(record: map<string, Value>): (body: Value)
    ensures InputRecords(body) == Some([record])
  {
    var items := [Dict(record)];
    var body := Dict(map["input" := List(items)]);
    assert body.entries.Keys == {"input"} && body.entries["input"].items == items;
    assert Records(items[1..]) == Some([]);
    assert [items[0].entries] + [] == [record];
    body
  }

  function DescribeObjectPath(name: string): string
  {
    "/rest/v1/customobjects/" + name + "/describe.json"
  }

  function LeadPath(leadId: string): string
  {
    "/rest/v1/lead/" + leadId + ".json"
  }

  /** The extra query parameters of `get_snap`. */
  function SnapQuery(guid: Value): map<string, Value>
  {
    map["filterType" := Str("idField"), "filterValues" := guid, "fields" := Str(SNAP_FIELDS)]
  }

  /**
   * `get_snap` filters by the GUID as an id field and asks for the fixed
   * field list; none of its parameters displaces the token.
   */
  lemma GetSnapQuery(token: Value, guid: Value)
    ensures var q := Query(token, SnapQuery(guid));
      q.Keys == {"access_token", "filterType", "filterValues", "fields"} &&
      q["access_token"] == token && q["filterType"] == Str("idField") &&
      q["filterValues"] == guid && q["fields"] == Str(SNAP_FIELDS)
  {
  }

  /** The `fields` parameter of `get_snap` splits back into the eight names, in order. */
  lemma SnapFieldsList()
    ensures Strings.Split(SNAP_FIELDS, ',') == SNAP_FIELD_NAMES
  {
    Strings.SplitJoin(SNAP_FIELD_NAMES, ',');
  }

  /** The client's operations, by the Python method that performs them. */
  datatype Operation =
    | ListObjects
    | DescribeObject(name: string)
    | SetLead(fields: map<string, Value>)
    | GetLead(leadId: string)
    | DescribeLead
    | SetSnap(fields: map<string, Value>)
    | GetSnap(guid: Value)
    | DescribeSnap

  /** Where an operation goes, before the token is added. */
  datatype Route = Route(verb: Verb, path: string, extra: map<string, Value>, body: Option<Value>)

  function RouteOf(op: Operation): Route
  {
    match op
    case ListObjects => Route(GET, OBJECTS_PATH, map[], None)
    case DescribeObject(name) => Route(GET, DescribeObjectPath(name), map[], None)
    case SetLead(fields) => Route(POST, LEADS_PATH, map[], Some(Payload(LeadRecord(fields))))
    case GetLead(leadId) => Route(GET, LeadPath(leadId), map[], None)
    case DescribeLead => Route(GET, LEADS_DESCRIBE_PATH, map[], None)
    case SetSnap(fields) => Route(POST, SNAPS_PATH, map[], Some(Payload(fields)))
    case GetSnap(guid) => Route(GET, SNAPS_PATH, SnapQuery(guid), None)
    case DescribeSnap => Route(GET, DescribeObjectPath(SNAP_OBJECT), map[], None)
  }

  /** `describe_snap` is `describe_object('snap_c')`. */
  lemma DescribeSnapIsDescribeObject()
    ensures RouteOf(DescribeSnap) == RouteOf(DescribeObject("snap_c"))
  {
  }

  /** The request an operation sends once the token is known. */
  function Build(config: Config, token: Value, route: Route): (req: Request)
    ensures "access_token" in req.url.query
    ensures req.url.root == config.serviceRoot && req.url.path == route.path
  {
    Request(route.verb, Url(config.serviceRoot, route.path, Query(token, route.extra)),
            route.body, if route.verb == POST then JSON_HEADERS else map[])
  }

  /** The token request is never mistaken for an API request: it alone carries no token. */
  lemma TokenRequestIsNotApiRequest(config: Config, token: Value, route: Route)
    ensures TokenRequest(config) != Build(config, token, route)
  {
    assert "access_token" !in TokenRequest(config).url.query;
  }

  /** `set_lead` and `set_snap` each post one record: the caller's fields, for `set_lead` with the overrides on top. */
  lemma MutationsPostOneRecord(fields: map<string, Value>)
    ensures RouteOf(SetLead(fields)).verb == POST
    ensures RouteOf(SetLead(fields)).body.Some?
    ensures InputRecords(RouteOf(SetLead(fields)).body.value) == Some([LeadRecord(fields)])
    ensures RouteOf(SetSnap(fields)).verb == POST
    ensures RouteOf(SetSnap(fields)).body.Some?
    ensures InputRecords(RouteOf(SetSnap(fields)).body.value) == Some([fields])
  {
  }

  /** What one exchange with the service produced. */
  datatype Exchange = Exchange(response: Result<Value, PyError>, sent: seq<Request>, token: Value)

  /**
   * `_get_access_token`: the cached token when it is not None; otherwise one
   * request to the token endpoint, whose `access_token` entry becomes the
   * cached token. `at` is the number of requests sent before.
   */
  function TokenStep(config: Config, cached: Value, answer: (nat, Request) -> Value, at: nat): (x: Exchange)
    ensures cached != Null ==> x == Exchange(Ok(cached), [], cached)
    ensures cached == Null ==> x.sent == [TokenRequest(config)]
    ensures x.response.Ok? ==> x.token == x.response.value
    ensures x.response.Err? ==> x.token == Null
  {
    if cached != Null then Exchange(Ok(cached), [], cached)
    else
      var got := Subscript(answer(at, TokenRequest(config)), "access_token");
      Exchange(got, [TokenRequest(config)], if got.Ok? then got.value else Null)
  }

  /** One operation: get the token, then send the request unless getting the token raised. */
  function Call(config: Config, cached: Value, answer: (nat, Request) -> Value, at: nat, route: Route): Exchange
  {
    var t := TokenStep(config, cached, answer, at);
    if t.response.Err? then t
    else
      var req := Build(config, t.response.value, route);
      Exchange(Ok(answer(at + |t.sent|, req)), t.sent + [req], t.token)
  }

  /** With a token cached, an operation sends its own request only, with that token, and keeps the token. */
  lemma CachedCall(config: Config, cached: Value, answer: (nat, Request) -> Value, at: nat, route: Route)
    requires cached != Null
    ensures Call(config, cached, answer, at, route) ==
      Exchange(Ok(answer(at, Build(config, cached, route))), [Build(config, cached, route)], cached)
  {
  }

  /** What a run of operations produced: the requests, the final token, and the exception that ended it, if any. */
  datatype Run = Run(sent: seq<Request>, token: Value, raised: Option<PyError>)

  /** Operations performed one after another on one client; an exception ends the run. */
  function Session(config: Config, cached: Value, answer: (nat, Request) -> Value, at: nat, routes: seq<Route>): Run
    decreases |routes|
  {
    if routes == [] then Run([], cached, None)
    else
      var first := Call(config, cached, answer, at, routes[0]);
      if first.response.Err? then Run(first.sent, first.token, Some(first.response.error))
      else
        var rest := Session(config, first.token, answer, at + |first.sent|, routes[1..]);
        Run(first.sent + rest.sent, rest.token, rest.raised)
  }

  /** With a token cached, no number of operations ever requests a token again, and the token stays. */
  lemma {:induction false} CachedSessionNeverFetches(config: Config, cached: Value, answer: (nat, Request) -> Value, at: nat, routes: seq<Route>)
    requires cached != Null
    ensures TokenRequest(config) !in Session(config, cached, answer, at, routes).sent
    ensures Session(config, cached, answer, at, routes).token == cached
    decreases |routes|
  {
    if routes != [] {
      CachedCall(config, cached, answer, at, routes[0]);
      TokenRequestIsNotApiRequest(config, cached, routes[0]);
      CachedSessionNeverFetches(config, cached, answer, at + 1, routes[1..]);
    }
  }

  /** A first operation without a token: the token request, then the operation's own request, then the rest with the new token. */
  lemma FirstFetch(config: Config, answer: (nat, Request) -> Value, at: nat, routes: seq<Route>)
    requires routes != []
    ensures var t := TokenStep(config, Null, answer, at);
      Session(config, Null, answer, at, routes).sent ==
        if t.response.Err? then [TokenRequest(config)]
        else [TokenRequest(config), Build(config, t.response.value, routes[0])]
             + Session(config, t.response.value, answer, at + 2, routes[1..]).sent
  {
  }

  /**
   * Over a run of operations that ends at its first exception, the token is
   * requested at most once, provided the service never answers the token
   * request with `access_token: null`
   * (a None token is not cached, and is fetched again next time).
   */
  lemma {:induction false} SessionFetchesAtMostOnce(config: Config, cached: Value, answer: (nat, Request) -> Value, at: nat, routes: seq<Route>)
    requires forall n :: Subscript(answer(n, TokenRequest(config)), "access_token") != Ok(Null)
    ensures multiset(Session(config, cached, answer, at, routes).sent)[TokenRequest(config)]
      <= if cached == Null then 1 else 0
  {
    var tr := TokenRequest(config);
    if cached != Null {
      CachedSessionNeverFetches(config, cached, answer, at, routes);
    } else if routes != [] {
      var t := TokenStep(config, cached, answer, at);
      FirstFetch(config, answer, at, routes);
      if t.response.Ok? {
        var token := t.response.value;
        assert token != Null by {
          assert Subscript(answer(at, tr), "access_token") != Ok(Null);
        }
        var head := [tr, Build(config, token, routes[0])];
        var rest := Session(config, token, answer, at + 2, routes[1..]).sent;
        TokenRequestIsNotApiRequest(config, token, routes[0]);
        CachedSessionNeverFetches(config, token, answer, at + 2, routes[1..]);
        assert multiset(head + rest) == multiset(head) + multiset(rest);
        assert multiset(head)[tr] == 1 && multiset(rest)[tr] == 0;
      } else {
        assert multiset([tr])[tr] == 1;
      }
    }
  }

  /**
   * The remote service. `answer(n, req)` is the decoded JSON answer to
   * `req` when it is the n-th request sent; `sent` is every request so far.
   */
  class Network {
    const answer: (nat, Request) -> Value
    var sent: seq<Request>

    constructor (answer: (nat, Request) -> Value)
      ensures this.answer == answer && sent == []
    {
      this.answer := answer;
      sent := [];
    }

    /** `requests.get(url).json()` or `requests.post(url, json=body, headers=...).json()`. */
    method Send(req: Request) returns (resp: Value)
      modifies this
      ensures sent == old(sent) + [req]
      ensures resp == answer(|old(sent)|, req)
    {
      resp := answer(|sent|, req);
      sent := sent + [req];
    }
  }

  class MarketoMonkey {
    const config: Config
    var accessToken: Value

    /** A new client holds no token. */
    constructor (config: Config)
      ensures this.config == config && accessToken == Null
    {
      this.config := config;
      accessToken := Null;
    }

    /**
     * `_get_access_token`: returns the cached token without any request when
     * it is not None; otherwise requests one and caches it.
     */
    method GetAccessToken(net: Network) returns (token: Result<Value, PyError>)
      modifies this, net
      ensures old(accessToken) != Null ==>
        token == Ok(old(accessToken)) && accessToken == old(accessToken) && net.sent == old(net.sent)
      ensures var x := TokenStep(config, old(accessToken), net.answer, |old(net.sent)|);
        token == x.response && accessToken == x.token && net.sent == old(net.sent) + x.sent
    {
      if accessToken == Null {
        var params := map["grant_type" := Str("client_credentials"),
                          "client_id" := config.clientId,
                          "client_secret" := config.clientSecret];
        var resp := net.Send(Request(GET, Url(config.serviceRoot, TOKEN_PATH, params), None, map[]));
        var got := Subscript(resp, "access_token");
        if got.Err? {
          return Err(got.error);
        }
        accessToken := got.value;
      }
      token := Ok(accessToken);
    }

    /** `_prepare_url`: the token first, then the extra parameters merged over it. */
    method PrepareUrl(net: Network, path: string, extra: map<string, Value>) returns (url: Result<Url, PyError>)
      modifies this, net
      ensures var x := TokenStep(config, old(accessToken), net.answer, |old(net.sent)|);
        accessToken == x.token && net.sent == old(net.sent) + x.sent &&
        url == if x.response.Err? then Err(x.response.error)
               else Ok(Url(config.serviceRoot, path, Query(x.response.value, extra)))
    {
      var token := GetAccessToken(net);
      if token.Err? {
        return Err(token.error);
      }
      var params := map["access_token" := token.value];
      if extra != map[] {
        params := params + extra;
      }
      assert params == Query(token.value, extra);
      url := Ok(Url(config.serviceRoot, path, params));
    }

    /** Sends a GET for `path` with the extra parameters, as each getter does after `_prepare_url`. */
    method Get(net: Network, path: string, extra: map<string, Value>) returns (r: Result<Value, PyError>)
      modifies this, net
      ensures var x := Call(config, old(accessToken), net.answer, |old(net.sent)|, Route(GET, path, extra, None));
        r == x.response && accessToken == x.token && net.sent == old(net.sent) + x.sent
    {
      var url := PrepareUrl(net, path, extra);
      if url.Err? {
        return Err(url.error);
      }
      var resp := net.Send(Request(GET, url.value, None, map[]));
      r := Ok(resp);
    }

    /** Sends a POST of `{'input': [record]}`, as `set_lead` and `set_snap` do after `_prepare_url`. */
    method Post(net: Network, path: string, record: map<string, Value>) returns (r: Result<Value, PyError>)
      modifies this, net
      ensures var x := Call(config, old(accessToken), net.answer, |old(net.sent)|, Route(POST, path, map[], Some(Payload(record))));
        r == x.response && accessToken == x.token && net.sent == old(net.sent) + x.sent
    {
      var url := PrepareUrl(net, path, map[]);
      if url.Err? {
        return Err(url.error);
      }
      var payload := Dict(map["input" := List([Dict(record)])]);
      var resp := net.Send(Request(POST, url.value, Some(payload), JSON_HEADERS));
      r := Ok(resp);
    }

    method ListObjects(net: Network) returns (r: Result<Value, PyError>)
      modifies this, net
      ensures var x := Call(config, old(accessToken), net.answer, |old(net.sent)|, RouteOf(Operation.ListObjects));
        r == x.response && accessToken == x.token && net.sent == old(net.sent) + x.sent
    {
      r := Get(net, OBJECTS_PATH, map[]);
    }

    method DescribeObject(net: Network, name: string) returns (r: Result<Value, PyError>)
      modifies this, net
      ensures var x := Call(config, old(accessToken), net.answer, |old(net.sent)|, RouteOf(Operation.DescribeObject(name)));
        r == x.response && accessToken == x.token && net.sent == old(net.sent) + x.sent
    {
      r := Get(net, "/rest/v1/customobjects/" + name + "/describe.json", map[]);
    }

    /** `set_lead`: copies the caller's fields, applies the overrides on top, and posts the one record. */
    method SetLead(net: Network, fields: map<string, Value>) returns (r: Result<Value, PyError>)
      modifies this, net
      ensures var x := Call(config, old(accessToken), net.answer, |old(net.sent)|, RouteOf(Operation.SetLead(fields)));
        r == x.response && accessToken == x.token && net.sent == old(net.sent) + x.sent
    {
      var lead := fields;
      lead := lead + LEAD_OVERRIDES;
      r := Post(net, LEADS_PATH, lead);
    }

    method GetLead(net: Network, leadId: string) returns (r: Result<Value, PyError>)
      modifies this, net
      ensures var x := Call(config, old(accessToken), net.answer, |old(net.sent)|, RouteOf(Operation.GetLead(leadId)));
        r == x.response && accessToken == x.token && net.sent == old(net.sent) + x.sent
    {
      r := Get(net, "/rest/v1/lead/" + leadId + ".json", map[]);
    }

    method DescribeLead(net: Network) returns (r: Result<Value, PyError>)
      modifies this, net
      ensures var x := Call(config, old(accessToken), net.answer, |old(net.sent)|, RouteOf(Operation.DescribeLead));
        r == x.response && accessToken == x.token && net.sent == old(net.sent) + x.sent
    {
      r := Get(net, LEADS_DESCRIBE_PATH, map[]);
    }

    /** `set_snap`: posts a copy of the caller's fields, unchanged, as the one record. */
    method SetSnap(net: Network, fields: map<string, Value>) returns (r: Result<Value, PyError>)
      modifies this, net
      ensures var x := Call(config, old(accessToken), net.answer, |old(net.sent)|, RouteOf(Operation.SetSnap(fields)));
        r == x.response && accessToken == x.token && net.sent == old(net.sent) + x.sent
    {
      var snap := fields;
      r := Post(net, SNAPS_PATH, snap);
    }

    /** `get_snap`: filters the snap object by its GUID and asks for a fixed list of fields. */
    method GetSnap(net: Network, guid: Value) returns (r: Result<Value, PyError>)
      modifies this, net
      ensures var x := Call(config, old(accessToken), net.answer, |old(net.sent)|, RouteOf(Operation.GetSnap(guid)));
        r == x.response && accessToken == x.token && net.sent == old(net.sent) + x.sent
    {
      var extra := map["filterType" := Str("idField"),
                       "filterValues" := guid,
                       "fields" := Str(SNAP_FIELDS)];
      r := Get(net, SNAPS_PATH, extra);
    }

    /** `describe_snap` is `describe_object('snap_c')`. */
    method DescribeSnap(net: Network) returns (r: Result<Value, PyError>)
      modifies this, net
      ensures var x := Call(config, old(accessToken), net.answer, |old(net.sent)|, RouteOf(Operation.DescribeObject(SNAP_OBJECT)));
        r == x.response && accessToken == x.token && net.sent == old(net.sent) + x.sent
    {
      r := DescribeObject(net, SNAP_OBJECT);
    }
  }
}
