/**
 * The client of the CERN Authorization Service
 * (`invenio_cern_sync/authz/client.py`): the retry loop around one HTTP
 * request, the client-credentials token request, the query of the identity
 * and group endpoints, and the paged fetch.
 *
 * The network is a parameter: `send(k)` is what the k-th attempt of a request
 * gets back, and `fetch(c)` is what `request_with_retries` finally returns for
 * the call c. A URL is kept as its base and its list of query parameters
 * rather than as the urlencoded string. The thread pool is modelled by the
 * order in which the submitted pages complete, which is any permutation.
 */
module AuthzClient {
  import opened Results
  import opened Json
  import opened Text

  datatype ParamValue = PInt(i: int) | PStr(s: string)

  /** One `(name, value)` pair of a query string or a form body. */
  datatype Param = Param(name: string, value: ParamValue)

  /** A URL: its base and its query parameters, in order. */
  datatype Request = Request(base: string, params: seq<Param>)

  /** Request headers, in order. */
  type Headers = seq<(string, string)>

  /**
   * One call of `request_with_retries(url, method, payload, headers)`; the
   * payload and the headers are None when the caller does not pass them.
   */
  datatype Call = Call(httpMethod: string, url: Request, payload: Option<seq<Param>>, headers: Option<Headers>)

  /**
   * What one attempt puts on the wire: `requests.get(url, headers=...)`,
   * which drops the payload, or `requests.post(url, data=payload, headers=...)`.
   */
  datatype Wire = Get(url: Request, headers: Option<Headers>) | Post(url: Request, form: Option<seq<Param>>, headers: Option<Headers>)

  datatype ClientFault =
    | RequestError(url: Request, message: string)  // `RequestError(url, str(e))` after the last attempt
    | UnsupportedMethod                            // `ValueError("Unsupported HTTP method")`
    | InvalidDate(since: string)                   // `datetime.strptime` rejects `since`
    | MalformedBody                                // the JSON body lacks a field the client reads
    | NoPoolWorkers                                // `ThreadPoolExecutor(max_workers <= 0)`

  // ---------------------------------------------------------------------
  // `request_with_retries`

  /** What one attempt gets: a response with a good status, or a `RequestException`. */
  datatype Attempt = Responded(body: Value) | Failed(message: string)

  /** What `request_with_retries` returns: a response, or None when it makes no attempt. */
  datatype Reply = Response(body: Value) | NoResponse

  predicate IsSupported(httpMethod: string)
  {
    Upper(httpMethod) == "GET" || Upper(httpMethod) == "POST"
  }

  /** The first of the first n attempts that gets a response. */
  function FirstResponse(send: nat -> Attempt, n: nat): (r: Option<nat>)
    ensures r.None? <==> forall k :: 0 <= k < n ==> send(k).Failed?
    ensures r.Some? ==> r.value < n && send(r.value).Responded? && forall k :: 0 <= k < r.value ==> send(k).Failed?
  {
    if n == 0 then None
    else
      match FirstResponse(send, n - 1)
      case Some(k) => Some(k)
      case None => if send(n - 1).Responded? then Some(n - 1) else None
  }

  /** The outcome of `request_with_retries` for the call c with `retries` and any delay. */
  function Retried(c: Call, retries: int, send: nat -> Attempt): Result<Reply, ClientFault>
  {
    if retries <= 0 then Ok(NoResponse)
    else if !IsSupported(c.httpMethod) then Err(UnsupportedMethod)
    else
      match FirstResponse(send, retries)
      case Some(k) => Ok(Response(send(k).body))
      case None => Err(RequestError(c.url, send(retries - 1).message))
  }

  /** The message each attempt of a call with a supported method sends. */
  function OnWire(c: Call): Wire
  {
    if Upper(c.httpMethod) == "GET" then Get(c.url, c.headers) else Post(c.url, c.payload, c.headers)
  }

  /** How many attempts `request_with_retries` sends. */
  function AttemptsMade(httpMethod: string, retries: int, send: nat -> Attempt): nat
  {
    if retries <= 0 || !IsSupported(httpMethod) then 0
    else
      match FirstResponse(send, retries)
      case Some(k) => k + 1
      case None => retries
  }

  /**
   * At most `retries` attempts are sent; the reply is the first response, or
   * the last failure's message once every attempt failed; an unsupported
   * method fails before any attempt; and no attempt at all is made when
   * `retries` is not positive.
   */
  lemma RetriedMeaning(c: Call, retries: int, send: nat -> Attempt)
    ensures AttemptsMade(c.httpMethod, retries, send) <= if retries <= 0 then 0 else retries
    ensures retries <= 0 <==> Retried(c, retries, send) == Ok(NoResponse)
    ensures Retried(c, retries, send) == Err(UnsupportedMethod) <==> retries > 0 && !IsSupported(c.httpMethod)
    ensures Retried(c, retries, send).Ok? && Retried(c, retries, send).value.Response? ==>
      var k := AttemptsMade(c.httpMethod, retries, send) - 1;
      0 <= k < retries
      && send(k) == Responded(Retried(c, retries, send).value.body)
      && forall j :: 0 <= j < k ==> send(j).Failed?
    ensures Retried(c, retries, send).Err? && Retried(c, retries, send).error.RequestError? ==>
      AttemptsMade(c.httpMethod, retries, send) == retries
      && (forall j :: 0 <= j < retries ==> send(j).Failed?)
      && Retried(c, retries, send).error == RequestError(c.url, send(retries - 1).message)
  {
  }

  /**
   * `request_with_retries`: up to `retries` attempts, sleeping `delay`
   * between two failed attempts and never after the last. Returns the reply,
   * the message each attempt sent, and the sleeps taken.
   */
  method RequestWithRetries(c: Call, retries: int, delay: nat, send: nat -> Attempt)
    returns (r: Result<Reply, ClientFault>, sent: seq<Wire>, sleeps: seq<nat>)
    ensures r == Retried(c, retries, send)
    ensures |sent| == AttemptsMade(c.httpMethod, retries, send)
    ensures forall i :: 0 <= i < |sent| ==> sent[i] == OnWire(c)
    ensures |sleeps| == if |sent| == 0 then 0 else |sent| - 1
    ensures forall i :: 0 <= i < |sleeps| ==> sleeps[i] == delay
  {
    sent, sleeps := [], [];
    var attempt := 0;
    while attempt < retries
      invariant 0 <= attempt && (retries > 0 ==> attempt < retries) && (retries <= 0 ==> attempt == 0)
      invariant |sent| == attempt && |sleeps| == attempt
      invariant forall i :: 0 <= i < |sent| ==> sent[i] == OnWire(c)
      invariant forall i :: 0 <= i < |sleeps| ==> sleeps[i] == delay
      invariant attempt > 0 ==> IsSupported(c.httpMethod)
      invariant forall k :: 0 <= k < attempt ==> send(k).Failed?
      decreases retries - attempt
    {
      var verb := Upper(c.httpMethod);
      if verb == "GET" {
        sent := sent + [Get(c.url, c.headers)];
      } else if verb == "POST" {
        sent := sent + [Post(c.url, c.payload, c.headers)];
      } else {
        return Err(UnsupportedMethod), [], [];
      }
      var response := send(attempt);
      if response.Responded? {
        assert FirstResponse(send, retries) == Some(attempt);
        return Ok(Response(response.body)), sent, sleeps;
      }
      if attempt < retries - 1 {
        sleeps := sleeps + [delay];
      } else {
        assert forall k :: 0 <= k < retries ==> send(k).Failed?;
        return Err(RequestError(c.url, response.message)), sent, sleeps;
      }
      attempt := attempt + 1;
    }
    r := Ok(NoResponse);
  }

  // ---------------------------------------------------------------------
  // `KeycloakService.get_authz_token` and the request headers

  /** The token endpoint of the CERN realm. */
  function TokenUrl(baseUrl: string): string
  {
    baseUrl + "/auth/realms/cern/api-access/token"
  }

  /** The form body of the token request. */
  function TokenPayload(clientId: string, clientSecret: string): seq<Param>
  {
    [Param("grant_type", PStr("client_credentials")),
     Param("client_id", PStr(clientId)),
     Param("client_secret", PStr(clientSecret)),
     Param("audience", PStr("authorization-service-api"))]
  }

  /** The value of the first parameter with the given name. */
  function Lookup(params: seq<Param>, name: string): Option<ParamValue>
  {
    if params == [] then None
    else if params[0].name == name then Some(params[0].value)
    else Lookup(params[1..], name)
  }

  /**
   * The token request is a client-credentials grant (section 4.4.2 of RFC
   * 6749): grant_type is client_credentials, the client authenticates with
   * its id and secret in the body (section 2.3.1), and the audience names
   * the authorization service. No other parameter is sent.
   */
  lemma TokenPayloadIsClientCredentialsGrant(clientId: string, clientSecret: string)
    ensures Lookup(TokenPayload(clientId, clientSecret), "grant_type") == Some(PStr("client_credentials"))
    ensures Lookup(TokenPayload(clientId, clientSecret), "client_id") == Some(PStr(clientId))
    ensures Lookup(TokenPayload(clientId, clientSecret), "client_secret") == Some(PStr(clientSecret))
    ensures Lookup(TokenPayload(clientId, clientSecret), "audience") == Some(PStr("authorization-service-api"))
    ensures forall i :: 0 <= i < |TokenPayload(clientId, clientSecret)| ==>
      TokenPayload(clientId, clientSecret)[i].name in {"grant_type", "client_id", "client_secret", "audience"}
  {
    var p := TokenPayload(clientId, clientSecret);
    // the four names are told apart by their first letters, and the two
    // client names by their eighth
    assert "grant_type"[0] == 'g' && "client_id"[0] == 'c' && "audience"[0] == 'a';
    assert "client_id"[7] == 'i' && "client_secret"[7] == 's';
    LookupFirst(p, 0, "grant_type");
    LookupFirst(p, 1, "client_id");
    LookupFirst(p, 2, "client_secret");
    LookupFirst(p, 3, "audience");
  }

  /** Lookup finds the value of the first parameter with the name. */
  lemma {:induction false} LookupFirst(params: seq<Param>, k: nat, name: string)
    requires k < |params| && params[k].name == name
    requires forall j :: 0 <= j < k ==> params[j].name != name
    ensures Lookup(params, name) == Some(params[k].value)
  {
    if k > 0 {
      assert params[1..][k - 1] == params[k];
      LookupFirst(params[1..], k - 1, name);
    }
  }

  /** `resp.json()["access_token"]` on the token reply. */
  function AccessToken(reply: Result<Reply, ClientFault>): (r: Result<Value, ClientFault>)
    ensures reply.Err? ==> r == Err(reply.error)
    ensures r.Ok? <==> reply.Ok? && reply.value.Response? && reply.value.body.Object? && "access_token" in reply.value.body.fields
    ensures r.Ok? ==> r.value == reply.value.body.fields["access_token"]
  {
    match reply
    case Err(e) => Err(e)
    case Ok(NoResponse) => Err(MalformedBody)  // AttributeError on None
    case Ok(Response(body)) =>
      if body.Object? && "access_token" in body.fields then Ok(body.fields["access_token"]) else Err(MalformedBody)
  }

  /** The call `get_authz_token` makes: the client-credentials form POSTed to the token URL, without headers. */
  function TokenCall(baseUrl: string, clientId: string, clientSecret: string): Call
  {
    Call("POST", Request(TokenUrl(baseUrl), []), Some(TokenPayload(clientId, clientSecret)), None)
  }

  /**
   * `get_authz_token`: three attempts five seconds apart, each POSTing the
   * client-credentials form to the token URL; a request error means all
   * three failed.
   */
  method GetAuthzToken(baseUrl: string, clientId: string, clientSecret: string, send: nat -> Attempt)
    returns (r: Result<Value, ClientFault>, sent: seq<Wire>)
    ensures r == AccessToken(Retried(TokenCall(baseUrl, clientId, clientSecret), 3, send))
    ensures 1 <= |sent| <= 3
    ensures forall i :: 0 <= i < |sent| ==>
      sent[i] == Post(Request(TokenUrl(baseUrl), []), Some(TokenPayload(clientId, clientSecret)), None)
    ensures r.Err? && r.error.RequestError? ==> |sent| == 3 && forall k :: 0 <= k < 3 ==> send(k).Failed?
  {
    var call := TokenCall(baseUrl, clientId, clientSecret);
    assert Upper("POST") == "POST";
    var reply, wire, _ := RequestWithRetries(call, 3, 5, send);
    r, sent := AccessToken(reply), wire;
    RetriedMeaning(call, 3, send);
  }

  /** The headers of every service request: the token as a Bearer credential (section 2.1 of RFC 6750) and a JSON accept. */
  function BearerHeaders(token: string): (h: seq<(string, string)>)
    ensures |h| == 2
    ensures h[0].0 == "Authorization" && |h[0].1| == 7 + |token|
    ensures h[0].1[..7] == "Bearer " && h[0].1[7..] == token
    ensures h[1] == ("accept", "application/json")
  {
    [("Authorization", "Bearer " + token), ("accept", "application/json")]
  }

  // ---------------------------------------------------------------------
  // `get_identities` and `get_groups`

  /** The filters every identity query carries: persons with a primary CERN account, active at CERN. */
  const IdentityFilters: seq<Param> :=
    [Param("filter", PStr("type:Person")), Param("filter", PStr("source:cern")), Param("filter", PStr("activeUser:true"))]

  /** `[("field", value) for value in fields]`. */
  function FieldParams(fields: seq<string>): (r: seq<Param>)
    ensures |r| == |fields|
    ensures forall i :: 0 <= i < |fields| ==> r[i] == Param("field", PStr(fields[i]))
  {
    seq(|fields|, i requires 0 <= i < |fields| => Param("field", PStr(fields[i])))
  }

  predicate IsDigit(c: char)
  {
    '0' <= c <= '9'
  }

  function DigitValue(c: char): int
  {
    c as int - '0' as int
  }

  /** The shape `strptime(since, "%Y-%m-%d")` accepts, with two-digit month and day. */
  predicate IsDate(s: string)
  {
    && |s| == 10
    && IsDigit(s[0]) && IsDigit(s[1]) && IsDigit(s[2]) && IsDigit(s[3])
    && s[4] == '-' && IsDigit(s[5]) && IsDigit(s[6])
    && s[7] == '-' && IsDigit(s[8]) && IsDigit(s[9])
    && 1 <= 10 * DigitValue(s[5]) + DigitValue(s[6]) <= 12
    && 1 <= 10 * DigitValue(s[8]) + DigitValue(s[9]) <= 31
  }

  /** The optional modification-time filter: only for a non-empty `since`, which must be a date. */
  function SinceFilter(since: Option<string>): Result<seq<Param>, ClientFault>
  {
    if since.None? || since.value == "" then Ok([])
    else if !IsDate(since.value) then Err(InvalidDate(since.value))
    else Ok([Param("filter", PStr("modificationTime:gt:" + since.value + "T00:00:00Z"))])
  }

  /** The query parameters of `get_identities`. */
  function IdentityQuery(limit: int, fields: seq<string>, since: Option<string>): Result<seq<Param>, ClientFault>
  {
    match SinceFilter(since)
    case Err(e) => Err(e)
    case Ok(filter) => Ok([Param("limit", PInt(limit))] + IdentityFilters + FieldParams(fields) + filter)
  }

  /** The query parameters of `get_groups`. */
  function GroupQuery(limit: int, fields: seq<string>, since: Option<string>): Result<seq<Param>, ClientFault>
  {
    match SinceFilter(since)
    case Err(e) => Err(e)
    case Ok(filter) => Ok([Param("limit", PInt(limit))] + FieldParams(fields) + filter)
  }

  /**
   * The identity query: limit first, the three fixed filters, one `field`
   * per requested field in order, and a last modification-time filter
   * exactly when `since` is given; a `since` that is not a date is refused.
   */
  lemma IdentityQueryMeaning(limit: int, fields: seq<string>, since: Option<string>)
    ensures IdentityQuery(limit, fields, since).Err? <==> since.Some? && since.value != "" && !IsDate(since.value)
    ensures IdentityQuery(limit, fields, since).Ok? ==>
      var q := IdentityQuery(limit, fields, since).value;
      var n := 4 + |fields|;
      && q[0] == Param("limit", PInt(limit))
      && q[1..4] == IdentityFilters
      && (forall i :: 0 <= i < |fields| ==> q[4 + i] == Param("field", PStr(fields[i])))
      && (since.None? || since.value == "" ==> |q| == n)
      && (since.Some? && since.value != "" ==>
            |q| == n + 1 && q[n] == Param("filter", PStr("modificationTime:gt:" + since.value + "T00:00:00Z")))
  {
    var r := IdentityQuery(limit, fields, since);
    if r.Ok? {
      var filter := SinceFilter(since).value;
      assert r.value == [Param("limit", PInt(limit))] + IdentityFilters + FieldParams(fields) + filter;
      IdentityQueryLayout(limit, FieldParams(fields), filter);
      if since.Some? && since.value != "" {
        assert filter == [Param("filter", PStr("modificationTime:gt:" + since.value + "T00:00:00Z"))];
      }
    }
  }

  /** Where each part of the identity query lands in the parameter list. */
  lemma IdentityQueryLayout(limit: int, fps: seq<Param>, filter: seq<Param>)
    ensures var q := [Param("limit", PInt(limit))] + IdentityFilters + fps + filter;
      && |q| == 4 + |fps| + |filter|
      && q[0] == Param("limit", PInt(limit))
      && q[1..4] == IdentityFilters
      && (forall i :: 0 <= i < |fps| ==> q[4 + i] == fps[i])
      && (forall i :: 0 <= i < |filter| ==> q[4 + |fps| + i] == filter[i])
  {
    var head := [Param("limit", PInt(limit))] + IdentityFilters;
    var q := head + fps + filter;
    assert |head| == 4;
    assert q[1..4] == head[1..4];
  }

  /** The group query is the identity query without the three identity filters. */
  lemma GroupQueryIsIdentityQueryWithoutFilters(limit: int, fields: seq<string>, since: Option<string>)
    ensures IdentityQuery(limit, fields, since).Ok? <==> GroupQuery(limit, fields, since).Ok?
    ensures GroupQuery(limit, fields, since).Ok? ==>
      IdentityQuery(limit, fields, since).value
        == GroupQuery(limit, fields, since).value[..1] + IdentityFilters + GroupQuery(limit, fields, since).value[1..]
    ensures GroupQuery(limit, fields, since).Ok? ==>
      forall i :: 0 <= i < |GroupQuery(limit, fields, since).value| ==>
        GroupQuery(limit, fields, since).value[i] !in IdentityFilters
  {
    if GroupQuery(limit, fields, since).Ok? {
      var g := GroupQuery(limit, fields, since).value;
      var filter := SinceFilter(since).value;
      assert g[1..] == FieldParams(fields) + filter;
      assert g[..1] == [Param("limit", PInt(limit))];
    }
  }

  /** The URL `get_identities` fetches: the identity endpoint with its query. */
  function IdentitiesRequest(baseUrl: string, limit: int, fields: seq<string>, since: Option<string>): Result<Request, ClientFault>
  {
    match IdentityQuery(limit, fields, since)
    case Err(e) => Err(e)
    case Ok(q) => Ok(Request(baseUrl + "/api/v1.0/Identity", q))
  }

  /** The URL `get_groups` fetches: the group endpoint with its query. */
  function GroupsRequest(baseUrl: string, limit: int, fields: seq<string>, since: Option<string>): Result<Request, ClientFault>
  {
    match GroupQuery(limit, fields, since)
    case Err(e) => Err(e)
    case Ok(q) => Ok(Request(baseUrl + "/api/v1.0/Group", q))
  }

  // ---------------------------------------------------------------------
  // `_fetch_all`

  /** `f"{url}&offset={offset}"`. */
  function PageRequest(req: Request, offset: int): Request
  {
    req.(params := req.params + [Param("offset", PInt(offset))])
  }

  /** `request_with_retries(url=f"{url}&offset={offset}", method="GET", headers=headers)`. */
  function PageCall(req: Request, headers: Headers, offset: int): Call
  {
    Call("GET", PageRequest(req, offset), None, Some(headers))
  }

  /** The offsets the submission loop visits from `offset` on. */
  function Offsets(offset: int, total: int, limit: int): (r: seq<int>)
    requires limit > 0
    ensures forall i :: 0 <= i < |r| ==> r[i] == offset + i * limit && r[i] < total
    ensures offset + |r| * limit >= total
    decreases total - offset
  {
    if offset < total then [offset] + Offsets(offset + limit, total, limit) else []
  }

  lemma MulMonotone(a: int, b: int, c: int)
    requires 0 <= b <= a && c > 0
    ensures b * c <= a * c
  {
  }

  /** Each offset after the first page is a positive multiple of the limit below the total. */
  lemma OffsetsAreMultiples(total: int, limit: int, i: nat)
    requires limit > 0
    requires i < |Offsets(limit, total, limit)|
    ensures Offsets(limit, total, limit)[i] == (i + 1) * limit < total
  {
    assert (i + 1) * limit == limit + i * limit;
  }

  /** Every positive multiple of the limit below the total is requested. */
  lemma MultiplesAreOffsets(total: int, limit: int, k: int)
    requires limit > 0
    requires k >= 1 && k * limit < total
    ensures k - 1 < |Offsets(limit, total, limit)| && Offsets(limit, total, limit)[k - 1] == k * limit
  {
    var r := Offsets(limit, total, limit);
    if k - 1 >= |r| {
      MulMonotone(k - 1, |r|, limit);
      assert false;
    }
    assert k * limit == limit + (k - 1) * limit;
  }

  /**
   * After the first page, the offsets requested are exactly the positive
   * multiples of the limit below the total.
   */
  lemma OffsetsAreMultiplesOfLimit(total: int, limit: int)
    requires limit > 0
    ensures forall x :: x in Offsets(limit, total, limit) <==> exists k :: k >= 1 && x == k * limit && x < total
  {
    var r := Offsets(limit, total, limit);
    forall x | x in r
      ensures exists k :: k >= 1 && x == k * limit && x < total
    {
      var i :| 0 <= i < |r| && r[i] == x;
      OffsetsAreMultiples(total, limit, i);
      assert i + 1 >= 1 && x == (i + 1) * limit && x < total;
    }
    forall x | exists k :: k >= 1 && x == k * limit && x < total
      ensures x in r
    {
      var k :| k >= 1 && x == k * limit && x < total;
      MultiplesAreOffsets(total, limit, k);
    }
  }

  /** Total 2500 with limit 1000: the first page, then the pages at 1000 and 2000. */
  lemma OffsetsExample()
    ensures Offsets(1000, 2500, 1000) == [1000, 2000]
  {
  }

  /** `min(cpu_count, max_threads)`, or max_threads when the CPU count is unknown. */
  function PoolSize(cpuCount: Option<nat>, maxThreads: int): int
  {
    if cpuCount.None? || cpuCount.value == 0 || cpuCount.value > maxThreads then maxThreads else cpuCount.value
  }

  lemma PoolSizeMeaning(cpuCount: Option<nat>, maxThreads: int)
    ensures cpuCount.None? ==> PoolSize(cpuCount, maxThreads) == maxThreads
    ensures cpuCount == Some(0) ==> PoolSize(cpuCount, maxThreads) == maxThreads
    ensures cpuCount.Some? && cpuCount.value > 0 ==>
      PoolSize(cpuCount, maxThreads) <= cpuCount.value
      && PoolSize(cpuCount, maxThreads) <= maxThreads
      && (PoolSize(cpuCount, maxThreads) == cpuCount.value || PoolSize(cpuCount, maxThreads) == maxThreads)
  {
  }

  /** The first page's body: `resp.json()["pagination"]["total"]` and `resp.json()["data"]`. */
  function Envelope(body: Value): Result<(int, seq<Value>), ClientFault>
  {
    if body.Object? && "pagination" in body.fields && body.fields["pagination"].Object?
      && "total" in body.fields["pagination"].fields && body.fields["pagination"].fields["total"].Int?
      && "data" in body.fields && body.fields["data"].Array?
    then Ok((body.fields["pagination"].fields["total"].i, body.fields["data"].items))
    else Err(MalformedBody)
  }

  /** A later page's records: `resp.json()["data"]`, once `future.result()` has not raised. */
  function PageData(page: Result<Value, ClientFault>): Result<seq<Value>, ClientFault>
  {
    match page
    case Err(e) => Err(e)
    case Ok(body) => if body.Object? && "data" in body.fields && body.fields["data"].Array? then Ok(body.fields["data"].items) else Err(MalformedBody)
  }

  function Range(n: nat): (r: seq<nat>)
    ensures |r| == n && forall i :: 0 <= i < n ==> r[i] == i
  {
    seq(n, i requires 0 <= i < n => i)
  }

  /** A completion order of n submitted pages: each page exactly once. */
  predicate IsOrder(ord: seq<nat>, n: nat)
  {
    (forall j :: 0 <= j < |ord| ==> ord[j] < n) && multiset(ord) == multiset(Range(n))
  }

  /** The records yielded while draining the completed pages in the order `ord`, and the exception that stopped it. */
  function Drain(pages: seq<Result<seq<Value>, ClientFault>>, ord: seq<nat>): Yielded<Value, ClientFault>
    requires forall j :: 0 <= j < |ord| ==> ord[j] < |pages|
    decreases |ord|
  {
    if ord == [] then Yielded([], None)
    else
      var before := Drain(pages, ord[..|ord| - 1]);
      if before.raised.Some? then before
      else
        match pages[ord[|ord| - 1]]
        case Err(e) => Yielded(before.items, Some(e))
        case Ok(items) => Yielded(before.items + items, None)
  }

  function PageCalls(req: Request, headers: Headers, offsets: seq<int>): (r: seq<Call>)
    ensures |r| == |offsets| && forall i :: 0 <= i < |offsets| ==> r[i] == PageCall(req, headers, offsets[i])
  {
    seq(|offsets|, i requires 0 <= i < |offsets| => PageCall(req, headers, offsets[i]))
  }

  /** The pages after the first, as `future.result()` and `["data"]` see them. */
  function LaterPages(req: Request, headers: Headers, offsets: seq<int>, fetch: Call -> Result<Value, ClientFault>)
    : (r: seq<Result<seq<Value>, ClientFault>>)
    ensures |r| == |offsets| && forall i :: 0 <= i < |offsets| ==> r[i] == PageData(fetch(PageCall(req, headers, offsets[i])))
  {
    seq(|offsets|, i requires 0 <= i < |offsets| => PageData(fetch(PageCall(req, headers, offsets[i]))))
  }

  /**
   * `_fetch_all`: what the generator yields and raises, and the requests it
   * makes, when page requests complete in the order `order(n)` for n
   * submitted pages.
   */
  function Fetched(req: Request, headers: Headers, limit: int, maxThreads: int, cpuCount: Option<nat>,
                   fetch: Call -> Result<Value, ClientFault>, order: nat -> seq<nat>)
    : (Yielded<Value, ClientFault>, seq<Call>)
    requires limit > 0
    requires forall n :: IsOrder(order(n), n)
  {
    var first := PageCall(req, headers, 0);
    match fetch(first)
    case Err(e) => (Yielded([], Some(e)), [first])
    case Ok(body) =>
      match Envelope(body)
      case Err(e) => (Yielded([], Some(e)), [first])
      case Ok((total, data)) =>
        if PoolSize(cpuCount, maxThreads) <= 0 then (Yielded(data, Some(NoPoolWorkers)), [first])
        else
          var offsets := Offsets(limit, total, limit);
          assert IsOrder(order(|offsets|), |offsets|);
          var rest := Drain(LaterPages(req, headers, offsets, fetch), order(|offsets|));
          (Yielded(data + rest.items, rest.raised), [first] + PageCalls(req, headers, offsets))
  }

  /** The submission loop of `_fetch_all`: one page request per offset from the limit up to the total. */
  method SubmitPages(req: Request, headers: Headers, limit: int, total: int) returns (futures: seq<Call>)
    requires limit > 0
    ensures futures == PageCalls(req, headers, Offsets(limit, total, limit))
  {
    var offset := limit;
    futures := [];
    while offset < total
      invariant futures + PageCalls(req, headers, Offsets(offset, total, limit)) == PageCalls(req, headers, Offsets(limit, total, limit))
      decreases total - offset
    {
      assert PageCalls(req, headers, Offsets(offset, total, limit))
          == [PageCall(req, headers, offset)] + PageCalls(req, headers, Offsets(offset + limit, total, limit));
      futures := futures + [PageCall(req, headers, offset)];
      offset := offset + limit;
    }
  }

  /** The `as_completed` loop of `_fetch_all`: the pages' records in completion order, up to the first failure. */
  method DrainPages(futures: seq<Call>, ord: seq<nat>, fetch: Call -> Result<Value, ClientFault>)
    returns (y: Yielded<Value, ClientFault>)
    requires forall j :: 0 <= j < |ord| ==> ord[j] < |futures|
    ensures y == Drain(seq(|futures|, i requires 0 <= i < |futures| => PageData(fetch(futures[i]))), ord)
  {
    ghost var pages := seq(|futures|, i requires 0 <= i < |futures| => PageData(fetch(futures[i])));
    var items := [];
    for j := 0 to |ord|
      invariant Drain(pages, ord[..j]) == Yielded(items, None)
    {
      assert ord[..j + 1][..j] == ord[..j];
      var page := PageData(fetch(futures[ord[j]]));
      if page.Err? {
        DrainStops(pages, ord, j);
        return Yielded(items, Some(page.error));
      }
      items := items + page.value;
    }
    assert ord[..|ord|] == ord;
    y := Yielded(items, None);
  }

  /** `_fetch_all`. */
  method FetchAll(req: Request, headers: Headers, limit: int, maxThreads: int, cpuCount: Option<nat>,
                  fetch: Call -> Result<Value, ClientFault>, order: nat -> seq<nat>)
    returns (y: Yielded<Value, ClientFault>, requested: seq<Call>)
    requires limit > 0
    requires forall n :: IsOrder(order(n), n)
    ensures (y, requested) == Fetched(req, headers, limit, maxThreads, cpuCount, fetch, order)
  {
    var first := PageCall(req, headers, 0);
    requested := [first];
    var resp := fetch(first);
    if resp.Err? {
      return Yielded([], Some(resp.error)), requested;
    }
    var envelope := Envelope(resp.value);
    if envelope.Err? {
      return Yielded([], Some(envelope.error)), requested;
    }
    var (total, data) := envelope.value;
    var workers := PoolSize(cpuCount, maxThreads);
    if workers <= 0 {
      return Yielded(data, Some(NoPoolWorkers)), requested;
    }
    var futures := SubmitPages(req, headers, limit, total);
    requested := requested + futures;
    var ord := order(|futures|);
    assert IsOrder(ord, |futures|);
    var rest := DrainPages(futures, ord, fetch);
    assert seq(|futures|, i requires 0 <= i < |futures| => PageData(fetch(futures[i])))
        == LaterPages(req, headers, Offsets(limit, total, limit), fetch);
    y := Yielded(data + rest.items, rest.raised);
  }

  /**
   * Every request `_fetch_all` makes is a GET of the URL at offset i times
   * the limit, with no payload and the headers it was given.
   */
  lemma FetchedCalls(req: Request, headers: Headers, limit: int, maxThreads: int, cpuCount: Option<nat>,
                     fetch: Call -> Result<Value, ClientFault>, order: nat -> seq<nat>)
    requires limit > 0
    requires forall n :: IsOrder(order(n), n)
    ensures var calls := Fetched(req, headers, limit, maxThreads, cpuCount, fetch, order).1;
      |calls| >= 1
      && forall i :: 0 <= i < |calls| ==> calls[i] == Call("GET", PageRequest(req, i * limit), None, Some(headers))
  {
    var calls := Fetched(req, headers, limit, maxThreads, cpuCount, fetch, order).1;
    forall i | 1 <= i < |calls|
      ensures calls[i] == PageCall(req, headers, i * limit)
    {
      var total := Envelope(fetch(PageCall(req, headers, 0)).value).value.0;
      var offsets := Offsets(limit, total, limit);
      assert calls[i] == PageCalls(req, headers, offsets)[i - 1];
      assert offsets[i - 1] == limit + (i - 1) * limit;
    }
  }

  /** A `KeycloakService`: the realm's base URL and the client credentials (configuration fallbacks resolved by the caller). */
  datatype KeycloakService = KeycloakService(baseUrl: string, clientId: string, clientSecret: string)

  /** An `AuthZService`: its Keycloak service, the service's base URL, the page size and the thread cap. */
  datatype AuthzService = AuthzService(keycloak: KeycloakService, baseUrl: string, limit: int, maxThreads: int)

  /** The token request an `AuthZService` makes before every query. */
  function ServiceToken(svc: AuthzService, send: nat -> Attempt): Result<Value, ClientFault>
  {
    AccessToken(Retried(TokenCall(svc.keycloak.baseUrl, svc.keycloak.clientId, svc.keycloak.clientSecret), 3, send))
  }

  /**
   * A paged query of the service: first `get_authz_token`, whose failure
   * ends the query; then the query URL (a `since` that is not a date fails
   * there); then the paged fetch with the token as a Bearer credential.
   * `tokenText(v)` is the f-string rendering of the token `v`. The requests
   * made are the token call followed by the page calls.
   */
  function Query(svc: AuthzService, send: nat -> Attempt, tokenText: Value -> string,
                 request: Result<Request, ClientFault>, cpuCount: Option<nat>,
                 fetch: Call -> Result<Value, ClientFault>, order: nat -> seq<nat>)
    : Result<(Yielded<Value, ClientFault>, seq<Call>), ClientFault>
    requires svc.limit > 0
    requires forall n :: IsOrder(order(n), n)
  {
    match ServiceToken(svc, send)
    case Err(e) => Err(e)
    case Ok(token) =>
      match request
      case Err(e) => Err(e)
      case Ok(req) =>
        var (y, calls) := Fetched(req, BearerHeaders(tokenText(token)), svc.limit, svc.maxThreads, cpuCount, fetch, order);
        Ok((y, [TokenCall(svc.keycloak.baseUrl, svc.keycloak.clientId, svc.keycloak.clientSecret)] + calls))
  }

  /** `get_identities`: a paged query of the Identity endpoint. */
  function GetIdentities(svc: AuthzService, send: nat -> Attempt, tokenText: Value -> string,
                         fields: seq<string>, since: Option<string>, cpuCount: Option<nat>,
                         fetch: Call -> Result<Value, ClientFault>, order: nat -> seq<nat>)
    : Result<(Yielded<Value, ClientFault>, seq<Call>), ClientFault>
    requires svc.limit > 0
    requires forall n :: IsOrder(order(n), n)
  {
    Query(svc, send, tokenText, IdentitiesRequest(svc.baseUrl, svc.limit, fields, since), cpuCount, fetch, order)
  }

  /** `get_groups`: a paged query of the Group endpoint. */
  function GetGroups(svc: AuthzService, send: nat -> Attempt, tokenText: Value -> string,
                     fields: seq<string>, since: Option<string>, cpuCount: Option<nat>,
                     fetch: Call -> Result<Value, ClientFault>, order: nat -> seq<nat>)
    : Result<(Yielded<Value, ClientFault>, seq<Call>), ClientFault>
    requires svc.limit > 0
    requires forall n :: IsOrder(order(n), n)
  {
    Query(svc, send, tokenText, GroupsRequest(svc.baseUrl, svc.limit, fields, since), cpuCount, fetch, order)
  }

  /**
   * What a paged query does: a failed token request fails it first; then a
   * refused request URL; otherwise the token call comes first and every
   * later request is a GET of the endpoint, without payload, carrying the
   * token as a Bearer credential.
   */
  lemma QueryMeaning(svc: AuthzService, send: nat -> Attempt, tokenText: Value -> string,
                     request: Result<Request, ClientFault>, cpuCount: Option<nat>,
                     fetch: Call -> Result<Value, ClientFault>, order: nat -> seq<nat>)
    requires svc.limit > 0
    requires forall n :: IsOrder(order(n), n)
    ensures var q := Query(svc, send, tokenText, request, cpuCount, fetch, order);
      && (ServiceToken(svc, send).Err? ==> q == Err(ServiceToken(svc, send).error))
      && (ServiceToken(svc, send).Ok? && request.Err? ==> q == Err(request.error))
      && (q.Ok? <==> ServiceToken(svc, send).Ok? && request.Ok?)
      && (q.Ok? ==>
            |q.value.1| >= 2
            && q.value.1[0] == TokenCall(svc.keycloak.baseUrl, svc.keycloak.clientId, svc.keycloak.clientSecret)
            && forall i :: 1 <= i < |q.value.1| ==>
                 q.value.1[i].httpMethod == "GET" && q.value.1[i].payload.None?
                 && q.value.1[i].headers == Some(BearerHeaders(tokenText(ServiceToken(svc, send).value)))
                 && q.value.1[i].url.base == request.value.base)
  {
    var tok := ServiceToken(svc, send);
    if tok.Ok? && request.Ok? {
      var h := BearerHeaders(tokenText(tok.value));
      FetchedCalls(request.value, h, svc.limit, svc.maxThreads, cpuCount, fetch, order);
      var calls := Fetched(request.value, h, svc.limit, svc.maxThreads, cpuCount, fetch, order).1;
      var all := [TokenCall(svc.keycloak.baseUrl, svc.keycloak.clientId, svc.keycloak.clientSecret)] + calls;
      assert forall i :: 1 <= i < |all| ==> all[i] == calls[i - 1];
      assert forall i :: 0 <= i < |calls| ==> calls[i].url.base == request.value.base;
    }
  }

  /**
   * `get_identities` and `get_groups` first request the token, which may
   * fail them; then they fail exactly when `since` is given and is not a
   * date; otherwise every page request is a GET of their endpoint carrying
   * the token as a Bearer credential, a string token as itself.
   */
  lemma ServiceCallsCarryToken(svc: AuthzService, send: nat -> Attempt, tokenText: Value -> string,
                               fields: seq<string>, since: Option<string>, cpuCount: Option<nat>,
                               fetch: Call -> Result<Value, ClientFault>, order: nat -> seq<nat>)
    requires svc.limit > 0
    requires forall n :: IsOrder(order(n), n)
    requires forall t :: tokenText(Str(t)) == t
    ensures var tok := ServiceToken(svc, send);
      var bad := since.Some? && since.value != "" && !IsDate(since.value);
      var qi := GetIdentities(svc, send, tokenText, fields, since, cpuCount, fetch, order);
      var qg := GetGroups(svc, send, tokenText, fields, since, cpuCount, fetch, order);
      && (tok.Err? ==> qi == Err(tok.error) && qg == Err(tok.error))
      && (tok.Ok? ==> (qi.Err? <==> bad) && (qg.Err? <==> bad))
      && (qi.Ok? ==>
            qi.value.1[0].httpMethod == "POST"
            && forall i :: 1 <= i < |qi.value.1| ==>
                 qi.value.1[i].httpMethod == "GET" && qi.value.1[i].payload.None?
                 && qi.value.1[i].headers == Some(BearerHeaders(tokenText(tok.value)))
                 && qi.value.1[i].url.base == svc.baseUrl + "/api/v1.0/Identity")
      && (qg.Ok? ==>
            qg.value.1[0].httpMethod == "POST"
            && forall i :: 1 <= i < |qg.value.1| ==>
                 qg.value.1[i].httpMethod == "GET" && qg.value.1[i].payload.None?
                 && qg.value.1[i].headers == Some(BearerHeaders(tokenText(tok.value)))
                 && qg.value.1[i].url.base == svc.baseUrl + "/api/v1.0/Group")
      && (qi.Ok? && tok.value.Str? ==> forall i :: 1 <= i < |qi.value.1| ==> qi.value.1[i].headers == Some(BearerHeaders(tok.value.s)))
  {
    IdentityQueryMeaning(svc.limit, fields, since);
    GroupQueryIsIdentityQueryWithoutFilters(svc.limit, fields, since);
    var ri := IdentitiesRequest(svc.baseUrl, svc.limit, fields, since);
    var rg := GroupsRequest(svc.baseUrl, svc.limit, fields, since);
    QueryMeaning(svc, send, tokenText, ri, cpuCount, fetch, order);
    QueryMeaning(svc, send, tokenText, rg, cpuCount, fetch, order);
    var tok := ServiceToken(svc, send);
    if tok.Ok? && tok.value.Str? {
      assert tokenText(tok.value) == tok.value.s;
    }
  }

  /** Once a page raises, draining stops there, whatever completes later. */
  lemma {:induction false} DrainStops(pages: seq<Result<seq<Value>, ClientFault>>, ord: seq<nat>, j: nat)
    requires forall i :: 0 <= i < |ord| ==> ord[i] < |pages|
    requires j < |ord|
    requires Drain(pages, ord[..j]).raised.None?
    requires pages[ord[j]].Err?
    ensures Drain(pages, ord) == Yielded(Drain(pages, ord[..j]).items, Some(pages[ord[j]].error))
    decreases |ord| - j
  {
    if j + 1 == |ord| {
      assert ord[..|ord| - 1] == ord[..j];
    } else {
      assert ord[..|ord| - 1][..j] == ord[..j];
      DrainStops(pages, ord[..|ord| - 1], j);
    }
  }

  /** The first page's records come first. */
  lemma FirstPageFirst(req: Request, headers: Headers, limit: int, maxThreads: int, cpuCount: Option<nat>,
                       fetch: Call -> Result<Value, ClientFault>, order: nat -> seq<nat>)
    requires limit > 0
    requires forall n :: IsOrder(order(n), n)
    requires fetch(PageCall(req, headers, 0)).Ok? && Envelope(fetch(PageCall(req, headers, 0)).value).Ok?
    ensures var data := Envelope(fetch(PageCall(req, headers, 0)).value).value.1;
      var y := Fetched(req, headers, limit, maxThreads, cpuCount, fetch, order).0;
      |data| <= |y.items| && y.items[..|data|] == data
  {
  }

  // ---------------------------------------------------------------------
  // Order independence

  /** The records of the pages taken in the order `ord`. */
  function Flat(pages: seq<seq<Value>>, ord: seq<nat>): seq<Value>
    requires forall j :: 0 <= j < |ord| ==> ord[j] < |pages|
    decreases |ord|
  {
    if ord == [] then [] else Flat(pages, ord[..|ord| - 1]) + pages[ord[|ord| - 1]]
  }

  lemma {:induction false} FlatAppend(pages: seq<seq<Value>>, a: seq<nat>, b: seq<nat>)
    requires forall j :: 0 <= j < |a| ==> a[j] < |pages|
    requires forall j :: 0 <= j < |b| ==> b[j] < |pages|
    ensures forall j :: 0 <= j < |a + b| ==> (a + b)[j] < |pages|
    ensures Flat(pages, a + b) == Flat(pages, a) + Flat(pages, b)
    decreases |b|
  {
    if b == [] {
      assert a + b == a;
    } else {
      var b' := b[..|b| - 1];
      assert (a + b)[..|a + b| - 1] == a + b';
      FlatAppend(pages, a, b');
    }
  }

  lemma MultisetRemove(init: seq<nat>, a: nat, p: seq<nat>, q: seq<nat>)
    requires multiset(init + [a]) == multiset(p + [a] + q)
    ensures multiset(init) == multiset(p + q)
  {
    var m1, m2 := multiset(init), multiset(p + q);
    assert m1 + multiset{a} == m2 + multiset{a} by {
      assert multiset(p + [a] + q) == multiset(p) + multiset{a} + multiset(q);
    }
    forall x
      ensures m1[x] == m2[x]
    {
      assert (m1 + multiset{a})[x] == (m2 + multiset{a})[x];
    }
  }

  /** A page occurring in an order splits it around that page. */
  lemma FlatAround(pages: seq<seq<Value>>, p: seq<nat>, a: nat, q: seq<nat>)
    requires forall j :: 0 <= j < |p| ==> p[j] < |pages|
    requires forall j :: 0 <= j < |q| ==> q[j] < |pages|
    requires a < |pages|
    ensures forall j :: 0 <= j < |p + [a] + q| ==> (p + [a] + q)[j] < |pages|
    ensures forall j :: 0 <= j < |p + q| ==> (p + q)[j] < |pages|
    ensures multiset(Flat(pages, p + [a] + q)) == multiset(Flat(pages, p + q)) + multiset(pages[a])
  {
    var fp, fq := Flat(pages, p), Flat(pages, q);
    assert Flat(pages, [a]) == pages[a] by {
      assert [a][..0] == [];
    }
    FlatAppend(pages, p, [a]);
    FlatAppend(pages, p + [a], q);
    FlatAppend(pages, p, q);
    assert Flat(pages, p + [a] + q) == (fp + pages[a]) + fq;
    assert Flat(pages, p + q) == fp + fq;
    assert multiset((fp + pages[a]) + fq) == multiset(fp) + multiset(pages[a]) + multiset(fq);
  }

  /** Taking the same pages in another order yields the same records, as a multiset. */
  lemma {:induction false} FlatPermutation(pages: seq<seq<Value>>, ord1: seq<nat>, ord2: seq<nat>)
    requires forall j :: 0 <= j < |ord1| ==> ord1[j] < |pages|
    requires forall j :: 0 <= j < |ord2| ==> ord2[j] < |pages|
    requires multiset(ord1) == multiset(ord2)
    ensures multiset(Flat(pages, ord1)) == multiset(Flat(pages, ord2))
    decreases |ord1|
  {
    if ord1 != [] {
      var init, a := ord1[..|ord1| - 1], ord1[|ord1| - 1];
      assert ord1 == init + [a];
      assert a in multiset(ord2);
      var k :| 0 <= k < |ord2| && ord2[k] == a;
      var p, q := ord2[..k], ord2[k + 1..];
      assert ord2 == p + [a] + q;
      assert forall j :: 0 <= j < |p| ==> p[j] == ord2[j];
      assert forall j :: 0 <= j < |q| ==> q[j] == ord2[k + 1 + j];
      assert forall j :: 0 <= j < |init| ==> init[j] == ord1[j];
      MultisetRemove(init, a, p, q);
      FlatAround(pages, p, a, q);
      FlatPermutation(pages, init, p + q);
      assert Flat(pages, ord1) == Flat(pages, init) + pages[a];
      assert multiset(Flat(pages, ord1)) == multiset(Flat(pages, init)) + multiset(pages[a]);
    }
  }

  /** When no page fails, draining yields the pages' records in completion order. */
  lemma {:induction false} DrainAllOk(pages: seq<Result<seq<Value>, ClientFault>>, values: seq<seq<Value>>, ord: seq<nat>)
    requires |pages| == |values| && forall i :: 0 <= i < |pages| ==> pages[i] == Ok(values[i])
    requires forall j :: 0 <= j < |ord| ==> ord[j] < |pages|
    ensures Drain(pages, ord) == Yielded(Flat(values, ord), None)
    decreases |ord|
  {
    if ord != [] {
      DrainAllOk(pages, values, ord[..|ord| - 1]);
    }
  }

  /**
   * When every page arrives whole, the records yielded are the same multiset
   * whatever order the pool completes the pages in, and the same requests
   * are made.
   */
  lemma FetchedOrderIndependent(req: Request, headers: Headers, limit: int, maxThreads: int, cpuCount: Option<nat>,
                                fetch: Call -> Result<Value, ClientFault>,
                                order1: nat -> seq<nat>, order2: nat -> seq<nat>)
    requires limit > 0
    requires forall n :: IsOrder(order1(n), n)
    requires forall n :: IsOrder(order2(n), n)
    requires forall r :: PageData(fetch(r)).Ok?
    ensures Fetched(req, headers, limit, maxThreads, cpuCount, fetch, order1).1 == Fetched(req, headers, limit, maxThreads, cpuCount, fetch, order2).1
    ensures Fetched(req, headers, limit, maxThreads, cpuCount, fetch, order1).0.raised == Fetched(req, headers, limit, maxThreads, cpuCount, fetch, order2).0.raised
    ensures multiset(Fetched(req, headers, limit, maxThreads, cpuCount, fetch, order1).0.items)
         == multiset(Fetched(req, headers, limit, maxThreads, cpuCount, fetch, order2).0.items)
  {
    var first := PageCall(req, headers, 0);
    if fetch(first).Ok? && Envelope(fetch(first).value).Ok? && PoolSize(cpuCount, maxThreads) > 0 {
      var (total, data) := Envelope(fetch(first).value).value;
      var offsets := Offsets(limit, total, limit);
      var pages := LaterPages(req, headers, offsets, fetch);
      var values := seq(|pages|, i requires 0 <= i < |pages| => pages[i].value);
      var n := |offsets|;
      DrainAllOk(pages, values, order1(n));
      DrainAllOk(pages, values, order2(n));
      FlatPermutation(values, order1(n), order2(n));
    }
  }
}
