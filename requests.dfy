/**
 * The request engine (`AsyncRequests` with the base class `Requests`), the
 * request object (`HttpRequest` and its per-method subclasses) and the
 * response object (`HttpResponse`). The three refer to one another, so they
 * live in one module. The transport is not modelled: the call it would
 * execute is recorded as a `Call` value, its outcome and the clock readings
 * are parameters.
 */
module Requests {
  import opened Base
  import opened Http
  import opened Json
  import opened Config
  import L = Latency

  /** The static `AtomicInteger` from which every request takes its id. */
  class IdCounter {
    var value: Int32

    constructor ()
      ensures value == 0
    {
      value := 0;
    }

    method IncrementAndGet() returns (r: Int32)
      modifies this
      ensures value == Next32(old(value)) && r == value
    {
      value := Next32(value);
      r := value;
    }
  }

  /** The ids handed out by `n` successive `IncrementAndGet` calls on a counter holding `start`. */
  function IssuedIds(start: Int32, n: nat): (ids: seq<Int32>)
    ensures |ids| == n
    decreases n
  {
    if n == 0 then [] else [Next32(start)] + IssuedIds(Next32(start), n - 1)
  }

  /** Until the counter reaches `Integer.MAX_VALUE` it hands out start+1, start+2, ...: strictly increasing, hence unique. */
  lemma {:induction false} IssuedIdsIncrease(start: Int32, n: nat)
    requires start + n <= MAX_INT32
    ensures forall i :: 0 <= i < n ==> IssuedIds(start, n)[i] == start + 1 + i
    ensures forall i, j :: 0 <= i < j < n ==> IssuedIds(start, n)[i] < IssuedIds(start, n)[j]
    decreases n
  {
    if n > 0 {
      IssuedIdsIncrease(start + 1, n - 1);
      var ids := IssuedIds(start, n);
      assert ids == [start + 1] + IssuedIds(start + 1, n - 1);
      forall i | 0 <= i < n
        ensures ids[i] == start + 1 + i
      {
        if i > 0 {
          assert ids[i] == IssuedIds(start + 1, n - 1)[i - 1];
        }
      }
    }
  }

  /** `ProxyServer.Builder(host, port).build()`. */
  datatype ProxyServer = ProxyServer(host: string, port: Int32)

  /** Whether `setProxyServer` was called on a call, and with what (Java `null` is `None`). */
  datatype ProxyAttachment = NoProxy | ProxySet(server: Option<ProxyServer>)

  /**
   * What was attached to the transport's request builder: the verb of the
   * `prepareX` function that created it, the url, the body passed to
   * `setBody`, every `addHeader` in order, and the proxy.
   */
  datatype Call = Call(
    verb: Method,
    url: string,
    body: Option<Bytes>,
    headers: seq<(string, string)>,
    proxy: ProxyAttachment)

  /** `httpService.prepareGet(url)` and its siblings: a call with nothing attached yet. */
  function Prepare(verb: Method, url: string): (c: Call)
    ensures c.verb == verb && c.url == url
    ensures c.body == None && c.headers == [] && c.proxy == NoProxy
  {
    Call(verb, url, None, [], NoProxy)
  }

  /** The per-method dispatch table `initRequestFactories` fills: method string to prepare function. */
  function FactoryTable(): (t: map<string, Method>)
    ensures forall m: Method :: MethodName(m) in t && t[MethodName(m)] == m
    ensures t.Keys == {METHOD_GET, METHOD_POST, METHOD_DELETE, METHOD_PUT}
  {
    map[METHOD_GET := GET, METHOD_POST := POST, METHOD_DELETE := DELETE, METHOD_PUT := PUT]
  }

  /** The headers of a call are those of the map: each key once, with its value, and no other. */
  ghost predicate AddsEachHeaderOnce(added: seq<(string, string)>, headers: map<string, string>) {
    && (forall i :: 0 <= i < |added| ==> added[i].0 in headers && headers[added[i].0] == added[i].1)
    && (forall i, j :: 0 <= i < j < |added| ==> added[i].0 != added[j].0)
    && (forall k :: k in headers ==> exists i :: 0 <= i < |added| && added[i].0 == k)
  }

  /** The header map a receiver rebuilds from a sequence of `addHeader` calls. */
  function HeaderMap(added: seq<(string, string)>): map<string, string>
    decreases |added|
  {
    if added == [] then map[]
    else HeaderMap(added[..|added| - 1])[added[|added| - 1].0 := added[|added| - 1].1]
  }

  /** Header assembly loses nothing and adds nothing: the added pairs rebuild the request's map. */
  lemma {:induction false} HeaderMapOfAddedHeaders(added: seq<(string, string)>, headers: map<string, string>)
    requires AddsEachHeaderOnce(added, headers)
    ensures HeaderMap(added) == headers
    decreases |added|
  {
    if added == [] {
      assert headers == map[];
    } else {
      var n := |added|;
      var last := added[n - 1];
      var rest := headers - {last.0};
      AddsEachHeaderOnceDropLast(added, headers);
      HeaderMapOfAddedHeaders(added[..n - 1], rest);
      assert last.0 in headers && headers[last.0] == last.1;
      assert HeaderMap(added) == rest[last.0 := last.1];
    }
  }

  /** Dropping the last added pair leaves the pairs of the map without that key. */
  lemma AddsEachHeaderOnceDropLast(added: seq<(string, string)>, headers: map<string, string>)
    requires AddsEachHeaderOnce(added, headers) && |added| > 0
    ensures AddsEachHeaderOnce(added[..|added| - 1], headers - {added[|added| - 1].0})
  {
    var n := |added|;
    var init, rest := added[..n - 1], headers - {added[n - 1].0};
    forall k | k in rest
      ensures exists i :: 0 <= i < |init| && init[i].0 == k
    {
      var i :| 0 <= i < n && added[i].0 == k;
      assert i < n - 1 && init[i] == added[i];
    }
    forall i | 0 <= i < |init|
      ensures init[i].0 in rest && rest[init[i].0] == init[i].1
    {
      assert init[i] == added[i] && added[i].0 != added[n - 1].0;
    }
    forall i, j | 0 <= i < j < |init|
      ensures init[i].0 != init[j].0
    {
      assert init[i] == added[i] && init[j] == added[j];
    }
  }

  /** The transport's result for a completed call: status, header lookup, body bytes. */
  datatype TransportResponse = TransportResponse(statusCode: Int32, getHeader: string -> Option<string>, body: Bytes)

  /** What `futureResponse.get()` does: return the result or throw. */
  datatype TransportOutcome = Completed(response: TransportResponse) | Failed(cause: Error)

  /** The transport settings `initialize` passes to `asyncHttpClient`. */
  datatype ClientConfig = ClientConfig(
    maxConnections: Int32,
    maxConnectionsPerHost: Int32,
    requestTimeout: Int32,
    connectTimeout: Int32,
    ioThreadsCount: Int32)

  /** One release step of `dispose`, in the order it is issued. */
  datatype Release = ShutdownReactor | CloseClient(threw: bool) | ShutdownExecutor

  /**
   * The latencies `process` stamps: `internal` from the request's creation to
   * dispatch, `network` from dispatch to completion, each a `long` subtraction.
   */
  function Measure(createdAt: Int64, dispatchTime: Int64, completionTime: Int64): (l: L.Latency)
    ensures -TWO_63 <= dispatchTime - createdAt < TWO_63 ==> l.internal == dispatchTime - createdAt
    ensures -TWO_63 <= completionTime - dispatchTime < TWO_63 ==> l.network == completionTime - dispatchTime
    ensures 0 <= createdAt <= dispatchTime <= completionTime ==> l.internal >= 0 && l.network >= 0
  {
    L.Latency(Sub64(dispatchTime, createdAt), Sub64(completionTime, dispatchTime))
  }

  class AsyncRequests {
    const builder: Builder
    /** The process-wide request counter (shared by reference between engines). */
    const ids: IdCounter
    const platform: Platform
    /** The I/O reactor, by its thread count; `None` is Java `null`. */
    var eventLoopGroup: Option<Int32>
    var httpService: Option<ClientConfig>
    /** The completion executor, by its thread count. */
    var ioExecutorService: Option<Int32>
    var proxyServer: Option<ProxyServer>
    var requestFactories: map<string, Method>
    /** The release steps `dispose` has issued so far. */
    var released: seq<Release>

    ghost predicate Valid()
      reads this
    {
      requestFactories == if Initialized() then FactoryTable() else map[]
    }

    predicate Initialized()
      reads this
    {
      eventLoopGroup.Some?
    }

    /** `new AsyncRequests(builder)`: starts uninitialised, then runs `initialize`. */
    constructor (builder: Builder, ids: IdCounter, platform: Platform)
      ensures this.builder == builder && this.ids == ids && this.platform == platform
      ensures Valid() && Initialized()
      ensures eventLoopGroup == Some(builder.ioThreads) && ioExecutorService == Some(builder.ioThreads)
      ensures httpService == Some(ClientConfig(builder.maxConnections, builder.maxConnections,
                                               builder.timeout, builder.timeout, builder.ioThreads))
      ensures proxyServer == if builder.proxyEnabled then Some(ProxyServer(builder.proxyHost, builder.proxyPort)) else None
      ensures released == []
    {
      this.builder := builder;
      this.ids := ids;
      this.platform := platform;
      eventLoopGroup := None;
      httpService := None;
      ioExecutorService := None;
      proxyServer := None;
      requestFactories := map[];
      released := [];
      new;
      Initialize();
    }

    /** `initialize`: reactor and executor sized by `ioThreads`, one connection cap used globally and per host, one timeout for connect and request. */
    method Initialize()
      requires Valid()
      modifies this
      ensures Valid() && Initialized()
      ensures eventLoopGroup == Some(builder.ioThreads) && ioExecutorService == Some(builder.ioThreads)
      ensures httpService == Some(ClientConfig(builder.maxConnections, builder.maxConnections,
                                               builder.timeout, builder.timeout, builder.ioThreads))
      ensures proxyServer == if builder.proxyEnabled then Some(ProxyServer(builder.proxyHost, builder.proxyPort)) else old(proxyServer)
      ensures released == old(released)
    {
      eventLoopGroup := Some(builder.ioThreads);
      httpService := Some(ClientConfig(builder.maxConnections, builder.maxConnections,
                                       builder.timeout, builder.timeout, builder.ioThreads));
      ioExecutorService := Some(builder.ioThreads);
      InitializeProxy();
      InitRequestFactories();
    }

    /** `initializeProxy`: builds the proxy descriptor only when the builder enables one. */
    method InitializeProxy()
      modifies this`proxyServer
      ensures builder.proxyEnabled ==> proxyServer == Some(ProxyServer(builder.proxyHost, builder.proxyPort))
      ensures !builder.proxyEnabled ==> proxyServer == old(proxyServer)
    {
      if !builder.proxyEnabled {
        return;
      }
      proxyServer := Some(ProxyServer(builder.proxyHost, builder.proxyPort));
    }

    /** `initRequestFactories`: four `put`s into the dispatch table. */
    method InitRequestFactories()
      modifies this`requestFactories
      ensures requestFactories == old(requestFactories) + FactoryTable()
    {
      requestFactories := requestFactories[METHOD_GET := GET];
      requestFactories := requestFactories[METHOD_POST := POST];
      requestFactories := requestFactories[METHOD_DELETE := DELETE];
      requestFactories := requestFactories[METHOD_PUT := PUT];
    }

    /** The fields a request built by a factory of this engine starts with. */
    ghost predicate Created(r: HttpRequest, verb: Method, url: string, now: Int64)
      reads r, builder
    {
      && r.requests == this && r.verb == verb && r.url == url
      && r.body == None && r.headers == builder.defaultHeaders && r.timeStamp == now
    }

    /** `get(url)`: a new `HttpGetRequest`. */
    method Get(url: string, now: Int64) returns (r: HttpRequest)
      modifies ids
      ensures fresh(r) && Created(r, GET, url, now)
      ensures ids.value == Next32(old(ids.value)) && r.id == ids.value
    {
      r := new HttpRequest(this, GET, url, now);
    }

    /** `post(url)`: a new `HttpPostRequest`. */
    method Post(url: string, now: Int64) returns (r: HttpRequest)
      modifies ids
      ensures fresh(r) && Created(r, POST, url, now)
      ensures ids.value == Next32(old(ids.value)) && r.id == ids.value
    {
      r := new HttpRequest(this, POST, url, now);
    }

    /** `delete(url)`: a new `HttpDeleteRequest`. */
    method Delete(url: string, now: Int64) returns (r: HttpRequest)
      modifies ids
      ensures fresh(r) && Created(r, DELETE, url, now)
      ensures ids.value == Next32(old(ids.value)) && r.id == ids.value
    {
      r := new HttpRequest(this, DELETE, url, now);
    }

    /** `put(url)`: a new `HttpPutRequest`. */
    method Put(url: string, now: Int64) returns (r: HttpRequest)
      modifies ids
      ensures fresh(r) && Created(r, PUT, url, now)
      ensures ids.value == Next32(old(ids.value)) && r.id == ids.value
    {
      r := new HttpRequest(this, PUT, url, now);
    }

    /** `get(uriBuilder)` is `get(uriBuilder.buildString())`. */
    method GetUri(uri: UriBuilder, now: Int64) returns (r: HttpRequest)
      modifies ids
      ensures fresh(r) && Created(r, GET, platform.buildString(uri), now)
      ensures ids.value == Next32(old(ids.value)) && r.id == ids.value
    {
      r := Get(platform.buildString(uri), now);
    }

    /** `post(uriBuilder)` is `post(uriBuilder.buildString())`. */
    method PostUri(uri: UriBuilder, now: Int64) returns (r: HttpRequest)
      modifies ids
      ensures fresh(r) && Created(r, POST, platform.buildString(uri), now)
      ensures ids.value == Next32(old(ids.value)) && r.id == ids.value
    {
      r := Post(platform.buildString(uri), now);
    }

    /** `delete(uriBuilder)` is `delete(uriBuilder.buildString())`. */
    method DeleteUri(uri: UriBuilder, now: Int64) returns (r: HttpRequest)
      modifies ids
      ensures fresh(r) && Created(r, DELETE, platform.buildString(uri), now)
      ensures ids.value == Next32(old(ids.value)) && r.id == ids.value
    {
      r := Delete(platform.buildString(uri), now);
    }

    /** `put(uriBuilder)` is `put(uriBuilder.buildString())`. */
    method PutUri(uri: UriBuilder, now: Int64) returns (r: HttpRequest)
      modifies ids
      ensures fresh(r) && Created(r, PUT, platform.buildString(uri), now)
      ensures ids.value == Next32(old(ids.value)) && r.id == ids.value
    {
      r := Put(platform.buildString(uri), now);
    }

    /** `toObject(prototype, bytes)`: fails without a codec, otherwise is the codec's `deserialize`. */
    function ToObject(prototype: string, input: Option<Bytes>): (r: Result<Obj>)
      reads builder, builder.jsonCodec
      ensures builder.jsonCodec == null ==> r == Err(NoJsonCodec) && r.error.Message() == "Now JsonCodec provided"
      ensures builder.jsonCodec != null && input.None? ==> r == Err(InvalidInput)
      ensures builder.jsonCodec != null && input.Some? && prototype !in builder.jsonCodec.codec ==>
                r == Err(NotRegistered(prototype))
      ensures builder.jsonCodec != null && input.Some? && prototype in builder.jsonCodec.codec ==>
                r == builder.jsonCodec.codec[prototype].read(prototype, input.value)
    {
      if builder.jsonCodec == null then Err(NoJsonCodec)
      else builder.jsonCodec.Deserialize(prototype, input)
    }

    /** `toObject(prototype, string)` is `toObject(prototype, string.getBytes())`: the null-input guard never fires. */
    function ToObjectFromString(prototype: string, input: string): (r: Result<Obj>)
      reads builder, builder.jsonCodec
      ensures r == ToObject(prototype, Some(platform.getBytes(input)))
      ensures builder.jsonCodec != null && prototype in builder.jsonCodec.codec ==>
                r == builder.jsonCodec.codec[prototype].read(prototype, platform.getBytes(input))
    {
      ToObject(prototype, Some(platform.getBytes(input)))
    }

    /** `toJson(input)`: fails without a codec, otherwise is the codec's `serialize`. */
    function ToJson(input: Option<Obj>): (r: Result<string>)
      reads builder, builder.jsonCodec
      ensures builder.jsonCodec == null ==> r == Err(NoJsonCodec) && r.error.Message() == "Now JsonCodec provided"
      ensures builder.jsonCodec != null && input.None? ==> r == Err(InvalidInput)
      ensures builder.jsonCodec != null && input.Some? && input.value.className !in builder.jsonCodec.codec ==>
                r == Err(NotRegistered(input.value.className))
      ensures builder.jsonCodec != null && input.Some? && input.value.className in builder.jsonCodec.codec ==>
                r == builder.jsonCodec.codec[input.value.className].write(input.value)
    {
      if builder.jsonCodec == null then Err(NoJsonCodec)
      else builder.jsonCodec.Serialize(input)
    }

    /**
     * A typed body sent with `bodyJson` and echoed back reads back as the same
     * object, whenever the runtime could write it.
     */
    lemma EchoedJsonBody(o: Obj)
      requires builder.jsonCodec != null && builder.jsonCodec.Valid()
      requires RoundTrips(builder.jsonCodec.runtime, platform.getBytes)
      requires o.className in builder.jsonCodec.codec
      ensures ToJson(Some(o)).Ok? <==> builder.jsonCodec.runtime.write(o).Ok?
      ensures ToJson(Some(o)).Ok? ==> ToObject(o.className, Some(platform.getBytes(ToJson(Some(o)).value))) == Ok(o)
    {
      builder.jsonCodec.SerializeRoundTrip(o, platform.getBytes);
    }

    /** The call `getRequestBuilder` hands to the transport for `req`. */
    ghost predicate AssembledFrom(call: Call, req: HttpRequest)
      reads this, builder, req
    {
      && call.verb == req.verb && call.url == req.url && call.body == req.body
      && AddsEachHeaderOnce(call.headers, req.headers)
      && call.proxy == if builder.proxyEnabled then ProxySet(proxyServer) else NoProxy
    }

    /** `getRequestBuilder`: prepare by method, set the body, add every header, attach the proxy when enabled. */
    method GetRequestBuilder(req: HttpRequest) returns (call: Call)
      requires Valid() && Initialized()
      ensures call.verb == req.verb && call.url == req.url && call.body == req.body
      ensures AddsEachHeaderOnce(call.headers, req.headers)
      ensures call.proxy == if builder.proxyEnabled then ProxySet(proxyServer) else NoProxy
    {
      call := Prepare(requestFactories[MethodName(req.verb)], req.url);
      call := call.(body := req.body);
      var pending := req.headers.Keys;
      while pending != {}
        invariant pending <= req.headers.Keys
        invariant call.verb == req.verb && call.url == req.url && call.body == req.body
        invariant call.proxy == NoProxy
        invariant forall i :: 0 <= i < |call.headers| ==>
                    call.headers[i].0 in req.headers && call.headers[i].0 !in pending
                    && req.headers[call.headers[i].0] == call.headers[i].1
        invariant forall i, j :: 0 <= i < j < |call.headers| ==> call.headers[i].0 != call.headers[j].0
        invariant forall k :: k in req.headers && k !in pending ==>
                    exists i :: 0 <= i < |call.headers| && call.headers[i].0 == k
        decreases pending
      {
        var key :| key in pending;
        ghost var before := call.headers;
        call := call.(headers := call.headers + [(key, req.headers[key])]);
        assert forall i :: 0 <= i < |before| ==> call.headers[i] == before[i];
        assert call.headers[|before|].0 == key;
        pending := pending - {key};
      }
      if builder.proxyEnabled {
        call := call.(proxy := ProxySet(proxyServer));
      }
    }

    /**
     * `process`: assemble the call, read the clock, and on completion build
     * the success or failure response and stamp its latency. The clock
     * readings and the transport's outcome are parameters.
     */
    method Process(req: HttpRequest, dispatchTime: Int64, outcome: TransportOutcome, completionTime: Int64)
      returns (call: Call, resp: HttpResponse)
      requires Valid() && Initialized()
      ensures AssembledFrom(call, req)
      ensures fresh(resp) && resp.Valid()
      ensures resp.request == req && resp.requests == req.requests
      ensures outcome.Completed? ==> resp.isSuccess && resp.response == Some(outcome.response)
      ensures outcome.Failed? ==> !resp.isSuccess && resp.reason == Some(outcome.cause)
      ensures resp.latency == Some(Measure(req.timeStamp, dispatchTime, completionTime))
    {
      call := GetRequestBuilder(req);
      if outcome.Completed? {
        resp := new HttpResponse.Success(req, outcome.response);
      } else {
        resp := new HttpResponse.Failure(req, outcome.cause);
      }
      resp.latency := Some(Measure(req.timeStamp, dispatchTime, completionTime));
    }

    /**
     * `dispose`: nothing on an uninitialised engine; otherwise shut the
     * reactor, close the client (an `IOException` there is logged and
     * swallowed) and shut the executor.
     */
    method Dispose(closeThrows: bool)
      modifies this`released
      ensures !Initialized() ==> released == old(released)
      ensures Initialized() ==>
                released == old(released) + [ShutdownReactor, CloseClient(closeThrows), ShutdownExecutor]
    {
      if eventLoopGroup.None? {
        return;
      }
      released := released + [ShutdownReactor];
      released := released + [CloseClient(closeThrows)];
      released := released + [ShutdownExecutor];
    }
  }

  /** Two requests built one after the other take consecutive, increasing ids. */
  method ConsecutiveIds(engine: AsyncRequests, url: string, now: Int64) returns (a: HttpRequest, b: HttpRequest)
    requires engine.ids.value < MAX_INT32 - 1
    modifies engine.ids
    ensures a.id == old(engine.ids.value) + 1 && b.id == a.id + 1
    ensures a != b && a.id < b.id
  {
    a := engine.Get(url, now);
    b := engine.Post(url, now);
  }

  class HttpRequest {
    const id: Int32
    const requests: AsyncRequests
    var verb: Method
    var url: string
    var body: Option<Bytes>
    var headers: map<string, string>
    const timeStamp: Int64

    /** Takes the next id, seeds the headers with a copy of the builder's defaults, records the creation time. */
    constructor (requests: AsyncRequests, verb: Method, url: string, now: Int64)
      modifies requests.ids
      ensures requests.ids.value == Next32(old(requests.ids.value)) && id == requests.ids.value
      ensures this.requests == requests && this.verb == verb && this.url == url
      ensures body == None && headers == requests.builder.defaultHeaders && timeStamp == now
    {
      var next := requests.ids.IncrementAndGet();
      id := next;
      this.requests := requests;
      this.verb := verb;
      this.url := url;
      body := None;
      headers := requests.builder.defaultHeaders;
      timeStamp := now;
    }

    /** `method(m)` (protected). */
    method SetMethod(m: Method) returns (r: HttpRequest)
      modifies this`verb
      ensures r == this && verb == m
    {
      verb := m;
      r := this;
    }

    /** `url(url)` (protected). */
    method SetUrl(u: string) returns (r: HttpRequest)
      modifies this`url
      ensures r == this && url == u
    {
      url := u;
      r := this;
    }

    /** `url(uriBuilder)` (protected). */
    method SetUrlFrom(uri: UriBuilder) returns (r: HttpRequest)
      modifies this`url
      ensures r == this && url == requests.platform.buildString(uri)
    {
      url := requests.platform.buildString(uri);
      r := this;
    }

    /** `body(String)`: stores the string's bytes in the default charset. */
    method BodyString(s: string) returns (r: HttpRequest)
      modifies this`body
      ensures r == this && body == Some(requests.platform.getBytes(s))
    {
      body := Some(requests.platform.getBytes(s));
      r := this;
    }

    /** `body(byte[])`: stores the bytes as given. */
    method BodyBytes(b: Bytes) returns (r: HttpRequest)
      modifies this`body
      ensures r == this && body == Some(b)
    {
      body := Some(b);
      r := this;
    }

    /**
     * `bodyJson(input)`: sets the JSON content type first, then serialises
     * through the engine; when that throws, the header stays set and the
     * body is left as it was.
     */
    method BodyJson(input: Option<Obj>) returns (r: Result<HttpRequest>)
      modifies this`headers, this`body
      ensures headers == old(headers)[HEADER_CONTENT_TYPE := STRING_APPLICATION_JSON]
      ensures requests.ToJson(input).Ok? ==>
                r == Ok(this) && body == Some(requests.platform.getBytes(requests.ToJson(input).value))
      ensures requests.ToJson(input).Err? ==>
                r == Err(requests.ToJson(input).error) && body == old(body)
    {
      var _ := HeaderContentTypeJson();
      var json := requests.ToJson(input);
      if json.Err? {
        return Err(json.error);
      }
      body := Some(requests.platform.getBytes(json.value));
      r := Ok(this);
    }

    /** `headers(map)`: replaces the whole map, defaults included. */
    method Headers(m: map<string, string>) returns (r: HttpRequest)
      modifies this`headers
      ensures r == this && headers == m
    {
      headers := m;
      r := this;
    }

    /** `header(key, value)`: `put` into the header map. */
    method Header(key: string, value: string) returns (r: HttpRequest)
      modifies this`headers
      ensures r == this && headers == old(headers)[key := value]
      ensures key in headers && headers[key] == value
      ensures forall k :: k != key ==> (k in headers <==> k in old(headers))
      ensures forall k :: k != key && k in old(headers) ==> headers[k] == old(headers)[k]
    {
      headers := headers[key := value];
      r := this;
    }

    method HeaderContentType(value: string) returns (r: HttpRequest)
      modifies this`headers
      ensures r == this && headers == old(headers)[HEADER_CONTENT_TYPE := value]
    {
      r := Header(HEADER_CONTENT_TYPE, value);
    }

    method HeaderUserAgent(userAgent: string) returns (r: HttpRequest)
      modifies this`headers
      ensures r == this && headers == old(headers)[HEADER_USER_AGENT := userAgent]
    {
      r := Header(HEADER_USER_AGENT, userAgent);
    }

    method HeaderContentTypeJson() returns (r: HttpRequest)
      modifies this`headers
      ensures r == this && headers == old(headers)[HEADER_CONTENT_TYPE := STRING_APPLICATION_JSON]
    {
      r := Header(HEADER_CONTENT_TYPE, STRING_APPLICATION_JSON);
    }

    method HeaderAcceptJson() returns (r: HttpRequest)
      modifies this`headers
      ensures r == this && headers == old(headers)[HEADER_ACCEPT := STRING_APPLICATION_JSON]
    {
      r := Header(HEADER_ACCEPT, STRING_APPLICATION_JSON);
    }

    /** `basicAuth` is not implemented in the library: it changes nothing and returns the request. */
    method BasicAuth(username: string, password: string) returns (r: HttpRequest)
      ensures r == this
    {
      r := this;
    }

    /** `exec()`: hands the request to its own engine's `process`. */
    method Exec(dispatchTime: Int64, outcome: TransportOutcome, completionTime: Int64)
      returns (call: Call, resp: HttpResponse)
      requires requests.Valid() && requests.Initialized()
      ensures requests.AssembledFrom(call, this)
      ensures fresh(resp) && resp.Valid() && resp.request == this && resp.requests == requests
      ensures outcome.Completed? ==> resp.isSuccess && resp.response == Some(outcome.response)
      ensures outcome.Failed? ==> !resp.isSuccess && resp.reason == Some(outcome.cause)
      ensures resp.latency == Some(Measure(timeStamp, dispatchTime, completionTime))
    {
      call, resp := requests.Process(this, dispatchTime, outcome, completionTime);
    }
  }

  class HttpResponse {
    const request: HttpRequest
    /** The engine that built the request, reached through `request.requests`. */
    const requests: AsyncRequests
    const isSuccess: bool
    /** The transport's result; Java `null` on a failure. */
    const response: Option<TransportResponse>
    /** The captured exception; Java `null` on a success. */
    const reason: Option<Error>
    const body: Option<Bytes>
    /** Stamped by `process` after construction; Java `null` until then. */
    var latency: Option<L.Latency>

    /** The shape both constructors leave: exactly one variant populated. */
    ghost predicate Valid() {
      && (isSuccess <==> response.Some?)
      && (isSuccess ==> body == Some(response.value.body) && reason == None)
      && (!isSuccess ==> body == None && reason.Some?)
    }

    /** `new HttpResponse(request, response)`. */
    constructor Success(request: HttpRequest, response: TransportResponse)
      ensures Valid() && isSuccess
      ensures this.request == request && requests == request.requests
      ensures this.response == Some(response) && body == Some(response.body)
      ensures latency == None
    {
      this.request := request;
      requests := request.requests;
      isSuccess := true;
      this.response := Some(response);
      reason := None;
      body := Some(response.body);
      latency := None;
    }

    /** `new HttpResponse(request, exception)`: the body stays unset. */
    constructor Failure(request: HttpRequest, cause: Error)
      ensures Valid() && !isSuccess
      ensures this.request == request && requests == request.requests
      ensures reason == Some(cause) && body == None && response == None
      ensures latency == None
    {
      this.request := request;
      requests := request.requests;
      isSuccess := false;
      response := None;
      reason := Some(cause);
      body := None;
      latency := None;
    }

    /** `header(key)`: the transport's header on a success, "Invalid response" on a failure. */
    function Header(key: string): (r: Result<Option<string>>)
      requires Valid()
      ensures r.Err? <==> !isSuccess
      ensures r.Err? ==> r.error == InvalidResponse && r.error.Message() == "Invalid response"
      ensures r.Ok? ==> r.value == response.value.getHeader(key)
    {
      if !isSuccess then Err(InvalidResponse) else Ok(response.value.getHeader(key))
    }

    /** `statusCode()`: the transport's status on a success, "Invalid response" on a failure. */
    function StatusCode(): (r: Result<Int32>)
      requires Valid()
      ensures r.Err? <==> !isSuccess
      ensures r.Err? ==> r.error == InvalidResponse && r.error.Message() == "Invalid response"
      ensures r.Ok? ==> r.value == response.value.statusCode
    {
      if !isSuccess then Err(InvalidResponse) else Ok(response.value.statusCode)
    }

    /** `headerContentType()` is `header("Content-Type")`. */
    function HeaderContentType(): (r: Result<Option<string>>)
      requires Valid()
      ensures r == Header(HEADER_CONTENT_TYPE)
      ensures r.Err? <==> !isSuccess
    {
      Header(HEADER_CONTENT_TYPE)
    }

    /** `asBytes()`: the stored body, which is the transport's body on a success and null on a failure. */
    function AsBytes(): (r: Option<Bytes>)
      requires Valid()
      ensures isSuccess ==> r == Some(response.value.body)
      ensures !isSuccess ==> r == None
    {
      body
    }

    /** `asString()`: decodes the body; on a failure the body is null and `new String` throws. */
    function AsString(): (r: Result<string>)
      requires Valid()
      ensures isSuccess ==> r == Ok(requests.platform.newString(response.value.body))
      ensures !isSuccess ==> r == Err(NullPointer)
    {
      match body
      case None => Err(NullPointer)
      case Some(b) => Ok(requests.platform.newString(b))
    }

    /** `asObject(prototype)`: the owning engine's `toObject` on the body, with its failures. */
    function AsObject(prototype: string): (r: Result<Obj>)
      requires Valid()
      reads requests.builder, requests.builder.jsonCodec
      ensures r == requests.ToObject(prototype, body)
      ensures requests.builder.jsonCodec == null ==> r == Err(NoJsonCodec)
      ensures requests.builder.jsonCodec != null && !isSuccess ==> r == Err(InvalidInput)
    {
      requests.ToObject(prototype, body)
    }
  }
}
