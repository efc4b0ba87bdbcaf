/**
 * `Requests.Builder`: the tunables an engine is built from, each with a
 * default, and setters that change one field and hand the builder back.
 */
module Config {
  import opened Base
  import opened Json

  class Builder {
    var proxyEnabled: bool
    var proxyHost: string
    var proxyPort: Int32
    var maxConnections: Int32
    var ioThreads: Int32
    var timeout: Int32            // milliseconds
    var jsonCodec: DslJsonCodec?
    var defaultHeaders: map<string, string>

    /** The field initialisers of a fresh builder (`Requests.newBuilder()`). */
    predicate HasDefaults()
      reads this
    {
      && !proxyEnabled && proxyHost == "" && proxyPort == 80
      && maxConnections == 16 && ioThreads == 8 && timeout == 1000
      && jsonCodec == null && defaultHeaders == map[]
    }

    constructor ()
      ensures HasDefaults()
    {
      proxyEnabled := false;
      proxyHost := "";
      proxyPort := 80;
      maxConnections := 16;
      ioThreads := 8;
      timeout := 1000;
      jsonCodec := null;
      defaultHeaders := map[];
    }

    method SetProxy(host: string, port: Int32) returns (r: Builder)
      modifies this
      ensures r == this
      ensures proxyEnabled && proxyHost == host && proxyPort == port
      ensures maxConnections == old(maxConnections) && ioThreads == old(ioThreads) && timeout == old(timeout)
      ensures jsonCodec == old(jsonCodec) && defaultHeaders == old(defaultHeaders)
    {
      proxyEnabled := true;
      proxyHost := host;
      proxyPort := port;
      r := this;
    }

    method SetMaxConnections(n: Int32) returns (r: Builder)
      modifies this`maxConnections
      ensures r == this && maxConnections == n
    {
      maxConnections := n;
      r := this;
    }

    method SetTimeout(ms: Int32) returns (r: Builder)
      modifies this`timeout
      ensures r == this && timeout == ms
    {
      timeout := ms;
      r := this;
    }

    method SetJsonCodec(c: DslJsonCodec?) returns (r: Builder)
      modifies this`jsonCodec
      ensures r == this && jsonCodec == c
    {
      jsonCodec := c;
      r := this;
    }

    method SetIoThreads(n: Int32) returns (r: Builder)
      modifies this`ioThreads
      ensures r == this && ioThreads == n
    {
      ioThreads := n;
      r := this;
    }

    /** `defaultHeaders.put(key, value)`: overwrites an earlier value for `key`, keeps the other keys. */
    method SetDefaultHeader(key: string, value: string) returns (r: Builder)
      modifies this`defaultHeaders
      ensures r == this
      ensures defaultHeaders == old(defaultHeaders)[key := value]
      ensures key in defaultHeaders && defaultHeaders[key] == value
      ensures forall k :: k != key ==> (k in defaultHeaders <==> k in old(defaultHeaders))
      ensures forall k :: k != key && k in old(defaultHeaders) ==> defaultHeaders[k] == old(defaultHeaders)[k]
    {
      defaultHeaders := defaultHeaders[key := value];
      r := this;
    }
  }
}
