/** The shared HTTP client (src/shared-kernel/infrastructure/http.js), seen from the
    services that call it: a request goes out and either the response's `data` comes back
    or the call rejects. */
module Http {
  import opened JsValues

  datatype Verb = GET | POST | PUT

  /** What a service hands to the client: the verb, the path under the API base URL, the
      query parameters and the JSON body (undefined when none is sent). */
  datatype Request = Request(verb: Verb, path: string, params: Bag, body: JsValue)

  /** The server as the code sees it: `Ok(response.data)` or the rejection. */
  type Client = Request -> Result<JsValue>

  /** `http.get(path)` without parameters. */
  function GetRequest(path: string): Request {
    Request(GET, path, map[], Undef)
  }

  /** A try/catch around a read: `response.data`, or `fallback` when the call rejects. */
  function BestEffortOr(response: Result<JsValue>, fallback: JsValue): (r: JsValue)
    ensures response.Err? ==> r == fallback
    ensures response.Ok? ==> r == response.value
  {
    match response
    case Ok(data) => data
    case Err(_) => fallback
  }

  /** The try/catch of a list read: `response.data`, or `[]` when the call rejects. */
  function BestEffort(response: Result<JsValue>): JsValue {
    BestEffortOr(response, Arr([]))
  }
}
