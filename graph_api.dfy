/** The boundary between the service and the outside world: the Graph API
    requests it issues, the replies it receives, URL parsing, and the
    credentials loaded once at start-up. Every remote answer is an input. */
module GraphApi {
  import opened PyJson

  datatype HttpMethod = GET | POST | DELETE

  /** Where a request goes: `https://graph.facebook.com/{version}/{node}` when
      `edge` is empty, `.../{node}/{edge}` otherwise, or the resumable upload
      host `https://rupload.facebook.com/video-upload/v22.0/{node}`. */
  datatype Endpoint =
    | Graph(version: string, node: Json, edge: string)
    | Rupload(node: Json)

  /** One HTTP call: form or query parameters and headers. */
  datatype Request = Request(verb: HttpMethod, endpoint: Endpoint, params: Dict, headers: Dict)

  /** What one `requests` call produced: the call itself raised, or a response
      with its `ok` flag, its text, and the outcome of `.json()` (Graph API
      bodies are JSON objects). */
  datatype HttpReply =
    | Failed(error: PyError)
    | Answered(ok: bool, text: string, body: Py<Dict>)

  /** The Graph API as seen by one invocation: the reply to each request. */
  type Net = Request -> HttpReply

  /** `requests.X(...).json()`: raises when the call or the decoding raised. */
  function JsonOf(reply: HttpReply): (r: Py<Dict>)
    ensures reply.Failed? ==> r == Raise(reply.error)
  {
    match reply
    case Failed(e) => Raise(e)
    case Answered(_, _, body) => body
  }

  /** The four components of `urllib.parse.urlparse` that the service reads. */
  datatype ParsedUrl = ParsedUrl(scheme: string, netloc: string, path: string, query: string)

  type UrlParser = string -> ParsedUrl

  /** The secrets loaded once from the secret store when the service is built. */
  datatype Credentials = Credentials(appId: string, appSecret: string, webhookVerifyToken: string)

  /** `verify_webhook`: the received token is exactly the configured one. */
  predicate VerifyWebhook(creds: Credentials, verifyToken: Json) {
    verifyToken == JStr(creds.webhookVerifyToken)
  }
}
