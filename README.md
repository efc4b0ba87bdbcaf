# requests4j in Dafny

A model of the core of requests4j. requests4j is a thin asynchronous HTTP client for Java, built on asynchttpclient (the transport) and dsl-json (the JSON encoding). The model covers these parts:

- the configuration builder (`Requests.Builder`): its defaults and setters;
- the request object (`HttpRequest`): the process-wide id counter, headers seeded from the builder's defaults, the fluent setters, and `bodyJson`'s order of effects;
- the response object (`HttpResponse`): a success or failure value whose accessors guard on the variant;
- the latency value and its printed form;
- the dsl-json codec: its registration table keyed by class name, and the guards in `serialize` and `deserialize`;
- the engine (`AsyncRequests`): initialisation of its fields, the method dispatch table, call assembly in `getRequestBuilder`, the codec guards in `toObject` and `toJson`, the outcome and latency logic of `process`, and the guard in `dispose`.

Files and modules:

- `base.dfy` (`Base`): `Option` stands for a Java reference that may be null. `Result` and `Error` stand for a call that may throw. `InvalidInput`, `NotRegistered`, `NoJsonCodec` and `InvalidResponse` are the library's own exceptions, with their exact messages. `NullPointer`, `DecodeFailure` and `TransportFailure` stand for exceptions raised by the JVM, the JSON runtime and the transport. `Int32` and `Int64` are Java `int` and `long`. This module also holds `long` subtraction and `int` increment with wrap-around.
- `decimal.dfy` (`Decimal`): `Long.toString` and a parser that inverts it.
- `latency.dfy` (`Latency`): the `Latency` datatype, `toString`, and a parser showing that the printed form loses nothing.
- `http.dfy` (`Http`): the constants of `Http.java` and the four-constructor `Method` datatype. It also defines `Platform`, which bundles what the JVM and the URL builder supply: `String.getBytes`, `new String(byte[])` and `UriBuilder.buildString()`. These are given as function values, not defined here.
- `json.dfy` (`Json`): `DslJsonCodec` as a class whose `codec` map the `register` methods update. The dsl-json runtime is an `Encoder` value, a pair of uninterpreted functions, either of which may throw. The predicate `RoundTrips` is the encoder behaviour the library's tests rely on. It is a precondition of the round-trip lemmas and is never assumed anywhere else.
- `config.dfy` (`Config`): `Builder` as a class with one field per setting.
- `requests.dfy` (`Requests`): the classes `AsyncRequests`, `HttpRequest`, `HttpResponse` and `IdCounter`.
  - `IdCounter` is the static `AtomicInteger`. Engines share it by reference.
  - The transport is abstracted. A `Call` records what was attached to the request builder: verb, url, body, the `addHeader` calls in order, and the proxy.
  - `process` takes the transport's outcome and the two clock readings as parameters.

Behaviour of the code that is easy to misread:

- Request ids come from one process-wide counter. It is reached through an `IdCounter` reference, so all engines can share one counter, as in the code. Its `int` increment wraps from `Integer.MAX_VALUE` to `Integer.MIN_VALUE`. So ids increase only until that point (`IssuedIdsIncrease` requires it).
- A second `dispose` reissues all three release steps. It is not a no-op, because the code never resets `eventLoopGroup`.
- `getRequestBuilder` reads `builder.proxyEnabled` live, while `proxyServer` is built once in `initialize`. A builder changed after the engine was built can therefore attach a null proxy (`ProxySet(None)`).
- `maxConnections` is passed as both the global cap and the per-host cap, and `timeout` as both the connect and the request timeout.

## Model

| member | source | states |
|---|---|---|
| `Config.Builder.constructor` | src/main/java/com/bigsonata/requests/Requests.java:58-65 | a fresh builder has no proxy, host "", port 80, 16 connections, 8 I/O threads, a 1000 ms timeout, no codec and no default headers |
| `Config.Builder.SetProxy` | src/main/java/com/bigsonata/requests/Requests.java:80-85 | enables the proxy and stores host and port; every other field keeps its value; returns the same builder |
| `Config.Builder.SetMaxConnections` | src/main/java/com/bigsonata/requests/Requests.java:93-96 | changes only `maxConnections` and returns the same builder |
| `Config.Builder.SetTimeout` | src/main/java/com/bigsonata/requests/Requests.java:104-107 | changes only `timeout` and returns the same builder |
| `Config.Builder.SetJsonCodec` | src/main/java/com/bigsonata/requests/Requests.java:115-118 | changes only `jsonCodec` and returns the same builder |
| `Config.Builder.SetIoThreads` | src/main/java/com/bigsonata/requests/Requests.java:126-129 | changes only `ioThreads` and returns the same builder |
| `Config.Builder.SetDefaultHeader` | src/main/java/com/bigsonata/requests/Requests.java:138-141 | maps the key to the value, overwriting an earlier value; other keys and values are untouched |
| `Requests.AsyncRequests.ToObjectFromString` | src/main/java/com/bigsonata/requests/Requests.java:38-40 | equals `toObject` on the string's bytes, so the null-input guard never fires and a registered class goes straight to the reader |
| `Requests.AsyncRequests.Get` | src/main/java/com/bigsonata/requests/Requests.java:169-171 | a fresh GET request for the url, with the builder's default headers, no body, the next counter value as id and the creation time as timestamp |
| `Requests.AsyncRequests.GetUri` | src/main/java/com/bigsonata/requests/Requests.java:173-175 | the same as `Get` applied to `uriBuilder.buildString()` |
| `Requests.AsyncRequests.Post` | src/main/java/com/bigsonata/requests/Requests.java:177-179 | a fresh POST request for the url, otherwise as for `Get` |
| `Requests.AsyncRequests.PostUri` | src/main/java/com/bigsonata/requests/Requests.java:181-183 | the same as `Post` applied to `uriBuilder.buildString()` |
| `Requests.AsyncRequests.Delete` | src/main/java/com/bigsonata/requests/Requests.java:185-187 | a fresh DELETE request for the url, otherwise as for `Get` |
| `Requests.AsyncRequests.DeleteUri` | src/main/java/com/bigsonata/requests/Requests.java:189-191 | the same as `Delete` applied to `uriBuilder.buildString()` |
| `Requests.AsyncRequests.Put` | src/main/java/com/bigsonata/requests/Requests.java:193-195 | a fresh PUT request for the url, otherwise as for `Get` |
| `Requests.AsyncRequests.PutUri` | src/main/java/com/bigsonata/requests/Requests.java:197-199 | the same as `Put` applied to `uriBuilder.buildString()` |
| `Requests.IdCounter.constructor` | src/main/java/com/bigsonata/requests/HttpRequest.java:18 | the counter starts at 0, so the first id issued is 1 |
| `Base.Next32` | src/main/java/com/bigsonata/requests/HttpRequest.java:19 | `int` increment: one more below `Integer.MAX_VALUE`, and `Integer.MIN_VALUE` at it |
| `Requests.IdCounter.IncrementAndGet` | src/main/java/com/bigsonata/requests/HttpRequest.java:18-19 | the counter advances by one, wrapping at the `int` limit, and the new value is returned |
| `Requests.IssuedIdsIncrease` | src/main/java/com/bigsonata/requests/HttpRequest.java:18-19 | below the `int` limit, successive ids are start+1, start+2, …, so they strictly increase and are unique |
| `Requests.ConsecutiveIds` | src/main/java/com/bigsonata/requests/HttpRequest.java:18-19 | two requests built one after the other by an engine are distinct and get consecutive, increasing ids |
| `Requests.HttpRequest.constructor` | src/main/java/com/bigsonata/requests/HttpRequest.java:28-33 | takes the next id; method and url are as given; headers equal the builder's default headers exactly; the body is unset |
| `Requests.HttpRequest.SetMethod` | src/main/java/com/bigsonata/requests/HttpRequest.java:39-42 | replaces only the method |
| `Requests.HttpRequest.SetUrl` | src/main/java/com/bigsonata/requests/HttpRequest.java:44-47 | replaces only the url |
| `Requests.HttpRequest.SetUrlFrom` | src/main/java/com/bigsonata/requests/HttpRequest.java:49-52 | replaces only the url, with `uriBuilder.buildString()` |
| `Requests.HttpRequest.BodyString` | src/main/java/com/bigsonata/requests/HttpRequest.java:54-57 | the body becomes the string's bytes in the default charset; nothing else changes |
| `Requests.HttpRequest.BodyBytes` | src/main/java/com/bigsonata/requests/HttpRequest.java:59-62 | the body becomes the given bytes; nothing else changes |
| `Requests.HttpRequest.BodyJson` | src/main/java/com/bigsonata/requests/HttpRequest.java:64-68 | Content-Type is set to application/json first. When `toJson` succeeds, the body is its bytes. When it throws, the error is returned, the header stays set and the body is unchanged |
| `Requests.HttpRequest.Headers` | src/main/java/com/bigsonata/requests/HttpRequest.java:70-73 | the whole header map, defaults included, is replaced by the given map |
| `Requests.HttpRequest.Header` | src/main/java/com/bigsonata/requests/HttpRequest.java:75-78 | maps the key to the value; every other header, the body, the method and the url are unchanged |
| `Requests.HttpRequest.HeaderContentType` | src/main/java/com/bigsonata/requests/HttpRequest.java:80-82 | sets "Content-Type" to the given value |
| `Requests.HttpRequest.HeaderUserAgent` | src/main/java/com/bigsonata/requests/HttpRequest.java:84-86 | sets "User-Agent" to the given value |
| `Requests.HttpRequest.HeaderContentTypeJson` | src/main/java/com/bigsonata/requests/HttpRequest.java:88-90 | sets "Content-Type" to "application/json" |
| `Requests.HttpRequest.HeaderAcceptJson` | src/main/java/com/bigsonata/requests/HttpRequest.java:92-94 | sets "Accept" to "application/json" |
| `Requests.HttpRequest.BasicAuth` | src/main/java/com/bigsonata/requests/HttpRequest.java:96-99 | changes nothing (no frame) and returns the same request |
| `Requests.HttpRequest.Exec` | src/main/java/com/bigsonata/requests/HttpRequest.java:101-103 | behaves as the owning engine's `process` on this request |
| `Requests.HttpResponse.Success` | src/main/java/com/bigsonata/requests/HttpResponse.java:22-32 | success variant: `isSuccess`, the body is the transport's body, the request is the originating one, and the engine is the request's engine |
| `Requests.HttpResponse.Failure` | src/main/java/com/bigsonata/requests/HttpResponse.java:34-38 | failure variant: not `isSuccess`, stores the reason, leaves the body null |
| `Requests.HttpResponse.Header` | src/main/java/com/bigsonata/requests/HttpResponse.java:40-46 | fails with "Invalid response" exactly when the response is a failure; otherwise gives the transport's header |
| `Requests.HttpResponse.StatusCode` | src/main/java/com/bigsonata/requests/HttpResponse.java:48-53 | fails with "Invalid response" exactly when the response is a failure; otherwise gives the transport's status |
| `Requests.HttpResponse.HeaderContentType` | src/main/java/com/bigsonata/requests/HttpResponse.java:55-57 | equals `header("Content-Type")`, failing exactly on the failure variant |
| `Requests.HttpResponse.AsBytes` | src/main/java/com/bigsonata/requests/HttpResponse.java:59-61 | returns the transport's body unchanged on a success, and null on a failure |
| `Requests.HttpResponse.AsString` | src/main/java/com/bigsonata/requests/HttpResponse.java:63-65 | decodes the body on a success; on a failure the null body makes it throw |
| `Requests.HttpResponse.AsObject` | src/main/java/com/bigsonata/requests/HttpResponse.java:67-69 | equals the owning engine's `toObject` on the body. It fails without a codec, and with "Invalid input" on a failure response |
| `Latency.Latency.ToString` | src/main/java/com/bigsonata/requests/common/Latency.java:20-22 | the printed form starts with "{internal: ", ends with "}", and is longer than its fixed parts together |
| `Decimal.IntToString` | src/main/java/com/bigsonata/requests/common/Latency.java:21 | `Long.toString`: starts with '-' exactly for a negative number and never contains ',', so the separator in the printed form is unambiguous |
| `Latency.ParseToString` | src/main/java/com/bigsonata/requests/common/Latency.java:20-22 | the printed form "{internal: <i>, network: <n>}" parses back to the very same two values |
| `Latency.ToStringInjective` | src/main/java/com/bigsonata/requests/common/Latency.java:14-22 | the printed forms of two latencies are equal exactly when their `internal` and `network` fields are equal |
| `Decimal.IntToStringRoundTrip` | src/main/java/com/bigsonata/requests/common/Latency.java:20-22 | the decimal rendering of each `long` in the printed form parses back to that number |
| `Decimal.NatToString` | src/main/java/com/bigsonata/requests/common/Latency.java:20-22 | a magnitude is printed as a non-empty run of digits without leading zeros |
| `Json.DslJsonCodec.constructor` | src/main/java/com/bigsonata/requests/common/json/DslJsonCodec.java:26-39 | a new codec has registered exactly the given prototypes: the table's keys are their class names, each bound to the configured runtime |
| `Json.DslJsonCodec.RegisterAll` | src/main/java/com/bigsonata/requests/common/json/DslJsonCodec.java:41-53 | after registering a list of prototypes, the table's keys are the old keys plus every prototype's class name; entries for other names keep their values |
| `Json.DslJsonCodec.Register` | src/main/java/com/bigsonata/requests/common/json/DslJsonCodec.java:55-61 | binds the class name to a freshly configured runtime, overwriting an earlier entry and leaving other names untouched |
| `Json.DslJsonCodec.Serialize` | src/main/java/com/bigsonata/requests/common/json/DslJsonCodec.java:63-77 | null input fails with "Invalid input" and an unregistered runtime class with the register-first error. Otherwise the result is the runtime writer's, which may itself throw; so success implies a non-null, registered input. It reads the table and never changes it |
| `Json.DslJsonCodec.Deserialize` | src/main/java/com/bigsonata/requests/common/json/DslJsonCodec.java:79-90 | a null array fails with "Invalid input" and an unregistered prototype with the register-first error. Otherwise it gives the runtime's parse. It never changes the table |
| `Json.DslJsonCodec.SerializeRoundTrip` | src/test/java/com/bigsonata/requests/common/json/TestDslJson.java:60-76 | for a registered class, serialising succeeds exactly when the runtime writer does; if the runtime round-trips, deserialising the bytes of a successful serialisation gives an equal object |
| `Requests.FactoryTable` | src/main/java/com/bigsonata/requests/AsyncRequests.java:41-46 | the dispatch table has exactly the keys GET, POST, DELETE and PUT, and maps each method's string to that method's prepare function, so lookup never misses |
| `Requests.AsyncRequests.InitRequestFactories` | src/main/java/com/bigsonata/requests/AsyncRequests.java:41-46 | the four `put`s add exactly the dispatch table to the map |
| `Requests.AsyncRequests.GetRequestBuilder` | src/main/java/com/bigsonata/requests/AsyncRequests.java:48-63 | the call is prepared for the request's method and carries its url and body unchanged. Every header key is added exactly once with its mapped value, and no other. The proxy is attached if and only if the builder enables it |
| `Requests.HeaderMapOfAddedHeaders` | src/main/java/com/bigsonata/requests/AsyncRequests.java:55-57 | the added header pairs rebuild exactly the request's header map |
| `Requests.AsyncRequests.ToObject` | src/main/java/com/bigsonata/requests/AsyncRequests.java:75-80 | fails with "Now JsonCodec provided" when no codec is configured; otherwise gives the codec's `deserialize`, with its guards |
| `Requests.AsyncRequests.ToJson` | src/main/java/com/bigsonata/requests/AsyncRequests.java:91-96 | fails with "Now JsonCodec provided" when no codec is configured; otherwise gives the codec's `serialize`, with its guards |
| `Requests.AsyncRequests.EchoedJsonBody` | src/test/java/com/bigsonata/requests/TestJsonRequests.java:89-101 | for a registered object, `toJson` succeeds exactly when the runtime writer does; if the runtime round-trips, the bytes of a successful `toJson` read back through `toObject` as the same object |
| `Requests.AsyncRequests.Dispose` | src/main/java/com/bigsonata/requests/AsyncRequests.java:99-112 | on an uninitialised engine nothing is released. Otherwise reactor shutdown, client close and executor shutdown are issued in that order, and the executor shutdown happens even when close throws |
| `Requests.AsyncRequests.constructor` | src/main/java/com/bigsonata/requests/AsyncRequests.java:36-39 | an engine is built initialised, with nothing released yet |
| `Requests.AsyncRequests.Initialize` | src/main/java/com/bigsonata/requests/AsyncRequests.java:114-138 | reactor and executor are sized by `ioThreads`; `maxConnections` is the cap both globally and per host; `timeout` bounds both connect and request; the dispatch table is installed |
| `Requests.AsyncRequests.InitializeProxy` | src/main/java/com/bigsonata/requests/AsyncRequests.java:140-150 | the proxy descriptor is built from host and port only when the builder enables the proxy |
| `Requests.AsyncRequests.Process` | src/main/java/com/bigsonata/requests/AsyncRequests.java:152-179 | the call is assembled from the request. A completed transport result gives the success variant for that request; a failed one gives the failure variant carrying that exception. The latency is attached |
| `Base.Sub64` | src/main/java/com/bigsonata/requests/AsyncRequests.java:157-171 | Java `long` subtraction: the exact difference whenever it fits in a `long`, and a non-negative one when 0 <= b <= a |
| `Requests.Measure` | src/main/java/com/bigsonata/requests/AsyncRequests.java:156-172 | internal = dispatch time − request timestamp and network = completion time − dispatch time, exactly whenever the `long` differences do not overflow; both are non-negative for ordered, non-negative clock readings |

## Left out

- Transport and threads: the netty event loop, the asynchttpclient client, `execute()`, the `CompletableFuture`, and the executor on which the completion listener runs. `process` is a sequential method that takes the transport's outcome and the two `currentTimeMillis` readings as parameters. Concurrency, and the atomicity of the id counter under concurrent construction, are not modelled.
- Errors that the foreign constructors in `initialize` can raise, such as a negative thread count for `NioEventLoopGroup`. The model's engine always initialises.
- `Requests.initializeShutdownHook` (a JVM runtime hook), `Builder.build` (reflection) and all logging.
- dsl-json's actual JSON encoding. `Encoder.write` and `Encoder.read` are uninterpreted functions, and `write` includes the `ByteArrayOutputStream.toString()` decoding. A JSON `null` document, which dsl-json reads as a null reference, is not distinguished from other reader results.
- The `JsonCodec` interface: Dafny traits are not used, so `Builder.jsonCodec` has the type of its only implementation, `DslJsonCodec`.
- The two `DslJsonCodec` constructor overloads (varargs and `Iterable`) are one constructor over a sequence. Likewise the two list-taking `register` overloads are one `RegisterAll`.
- Charset behaviour of `String.getBytes` and `new String(byte[])`, and `UriBuilder.buildString()`: these are uninterpreted functions in `Platform`. `UriBuilder`'s own source is not part of this model.
- netty's case-insensitive header lookup on the transport response is the transport's `getHeader` function, a parameter of the model.
- `HttpRequest.SetMethod`: the protected `method(String)` accepts any string; the model takes one of the four methods, so a request can never carry a method outside the dispatch table.
- Java null passed as an argument (a null string to `body(String)`, a null map to `headers`, a null byte array to `body(byte[])`), and the NullPointerException it raises later, are not modelled. Null fields (the body, the response, the reason, the latency) are modelled as `Option`.
- Aliasing of byte arrays: `body(byte[])` keeps the caller's array and `asBytes()` hands out the stored one. In Java, later writes through either reference change what `getRequestBuilder` sends and what `asString` and `asObject` decode. The model holds bodies as `Bytes` values, so these writes are not captured.
- Aliasing of the map passed to `headers(map)`: Java keeps the caller's map, so later `header` calls also change it. The model holds header maps as values.
- `Requests.IssuedIdsIncrease`: states monotonicity only below `Integer.MAX_VALUE`. Past it the counter wraps (see `Next32`) and ids repeat, which the model shows but does not enumerate.
