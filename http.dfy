/**
 * The string constants of `Http`, the closed set of HTTP methods, and the
 * platform behaviour the library relies on but does not define.
 */
module Http {
  import opened Base

  const METHOD_GET: string := "GET"
  const METHOD_POST: string := "POST"
  const METHOD_PUT: string := "PUT"
  const METHOD_DELETE: string := "DELETE"
  const HEADER_CONTENT_TYPE: string := "Content-Type"
  const HEADER_USER_AGENT: string := "User-Agent"
  const HEADER_ACCEPT: string := "Accept"
  const STRING_APPLICATION_JSON: string := "application/json"

  /** The four request kinds; each Java subclass of `HttpRequest` fixes one. */
  datatype Method = GET | POST | PUT | DELETE

  /** The method string a request carries (its `method` field). */
  function MethodName(m: Method): (s: string)
    ensures s in {METHOD_GET, METHOD_POST, METHOD_PUT, METHOD_DELETE}
  {
    match m
    case GET => METHOD_GET
    case POST => METHOD_POST
    case PUT => METHOD_PUT
    case DELETE => METHOD_DELETE
  }

  /** A structured URL description: scheme, host, path and ordered, repeatable query parameters. */
  datatype UriBuilder = UriBuilder(scheme: string, host: string, path: string, parameters: seq<(string, string)>)

  /**
   * What the JVM and the URL builder do on the library's behalf:
   * `String.getBytes()` and `new String(byte[])` in the default charset,
   * and `UriBuilder.buildString()`.
   */
  datatype Platform = Platform(
    getBytes: string -> Bytes,
    newString: Bytes -> string,
    buildString: UriBuilder -> string)
}
