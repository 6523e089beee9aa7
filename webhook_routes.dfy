/** The two `/webhook` routes of the API Gateway handler: Meta's subscription
    handshake (GET) and the delivery of feed events (POST), whose events are
    tagged for comment replies and published to the event bus. */
module WebhookRoutes {
  import opened PyJson
  import opened GraphApi
  import opened FeedWebhook
  import WebhookPayload

  /** What a route hands back to API Gateway: a literal status and body, or the
      error response of the response helper for a message and a status. */
  datatype Response =
    | Reply(statusCode: int, body: Json)
    | ErrorReply(message: string, statusCode: int)

  const VerificationFailed: Response := ErrorReply("Webhook verification failed", 403)

  /** `GET /webhook`: echo `hub.challenge` when Meta subscribes with the
      configured verify token. A `queryStringParameters` that is present but
      not a dict (API Gateway sends `null` when there is none) raises, and the
      exception leaves the route. */
  function WebhookGet(event: Dict, creds: Credentials): Py<Response> {
    var params := Get(event, "queryStringParameters", JObj(map[]));
    match params
    case JObj(p) =>
      var mode := GetOpt(p, "hub.mode");
      var token := GetOpt(p, "hub.verify_token");
      if mode == JStr("subscribe") && Truthy(token) && VerifyWebhook(creds, token) then
        Ok(Reply(200, GetOpt(p, "hub.challenge")))
      else Ok(VerificationFailed)
    case _ => Raise(NoAttribute(params, "get"))
  }

  /** The handshake succeeds, and then echoes the challenge, exactly when the
      mode is `subscribe` and the verify token is the configured one and not
      empty; every other well-formed request is refused with 403. */
  lemma WebhookHandshake(event: Dict, creds: Credentials, p: Dict)
    requires Get(event, "queryStringParameters", JObj(map[])) == JObj(p)
    ensures WebhookGet(event, creds).Ok?
    ensures WebhookGet(event, creds).value.Reply? <==>
      && GetOpt(p, "hub.mode") == JStr("subscribe")
      && GetOpt(p, "hub.verify_token") == JStr(creds.webhookVerifyToken)
      && creds.webhookVerifyToken != ""
    ensures WebhookGet(event, creds).value.Reply? ==>
      WebhookGet(event, creds).value == Reply(200, GetOpt(p, "hub.challenge"))
    ensures !WebhookGet(event, creds).value.Reply? ==> WebhookGet(event, creds).value == VerificationFailed
  {
  }

  /** With an empty configured verify token no handshake ever succeeds. */
  lemma EmptySecretNeverVerifies(event: Dict, creds: Credentials)
    requires creds.webhookVerifyToken == ""
    ensures WebhookGet(event, creds).Ok? ==> WebhookGet(event, creds).value == VerificationFailed
  {
  }

  const ReplyAction: Json := JStr("generate_comment_reply")

  /** `event_info['action'] = "generate_comment_reply"`. */
  function Tag(ev: Dict): (t: Dict)
    ensures "action" in t && t["action"] == ReplyAction
    ensures forall k :: k in ev && k != "action" ==> k in t && t[k] == ev[k]
  {
    ev["action" := ReplyAction]
  }

  /** The publishing loop: the tagged records handed to the event bus in
      order, and the exception of the first publication that failed. `bus` is
      the EventBridge `put_events` call (`None` when it succeeded). */
  function PublishRun(events: seq<Dict>, bus: Dict -> Option<PyError>): (seq<Dict>, Option<PyError>)
    decreases |events|
  {
    if events == [] then ([], None)
    else
      var run := PublishRun(events[..|events| - 1], bus);
      if run.1.Some? then run
      else
        var t := Tag(events[|events| - 1]);
        (run.0 + [t], bus(t))
  }

  /** Every record handed to the bus is the tagged event of the same position,
      and when no publication fails, every event is handed over. */
  lemma {:induction false} PublishRunTagsInOrder(events: seq<Dict>, bus: Dict -> Option<PyError>)
    ensures var run := PublishRun(events, bus);
      && |run.0| <= |events|
      && (forall k :: 0 <= k < |run.0| ==> run.0[k] == Tag(events[k]))
      && (run.1.None? ==> |run.0| == |events|)
      && (run.1.Some? ==> |run.0| >= 1 && run.1 == bus(run.0[|run.0| - 1]))
    decreases |events|
  {
    if events != [] {
      var init := events[..|events| - 1];
      PublishRunTagsInOrder(init, bus);
      assert forall k :: 0 <= k < |init| ==> init[k] == events[k];
    }
  }

  /** `json.dumps({'success': True, 'processed_events': n})`. */
  function SuccessBody(n: nat): string {
    "{\"success\": true, \"processed_events\": " + IntToString(n) + "}"
  }

  function Failure(e: PyError): Response {
    ErrorReply("Error processing webhook: " + Describe(e), 500)
  }

  /** `json.loads(event['body'])`, where `loads` decodes a string. */
  function LoadBody(event: Dict, loads: string -> Py<Json>): Py<Json> {
    if "body" !in event then Raise(KeyError(JStr("body")))
    else match event["body"]
      case JStr(s) => loads(s)
      case b => Raise(TypeError("the JSON object must be str, bytes or bytearray, not " + TypeName(b)))
  }

  /** What `POST /webhook` answers and which records it publishes. Every
      exception, including a failed publication, becomes a 500 response. */
  function WebhookPostOutcome(event: Dict, loads: string -> Py<Json>, net: Net, store: Json -> Json,
                              bus: Dict -> Option<PyError>): (Response, seq<Dict>)
  {
    match LoadBody(event, loads)
    case Raise(e) => (Failure(e), [])
    case Ok(payload) =>
      match FeedEvents(payload, net, store)
      case Raise(e) => (Failure(e), [])
      case Ok(events) =>
        var run := PublishRun(events, bus);
        if run.1.Some? then (Failure(run.1.value), run.0)
        else (Reply(200, JStr(SuccessBody(|events|))), run.0)
  }

  /** `POST /webhook`: normalise the payload, tag and publish each event. */
  method WebhookPost(event: Dict, loads: string -> Py<Json>, net: Net, store: Json -> Json,
                     bus: Dict -> Option<PyError>)
    returns (resp: Response, published: seq<Dict>)
    ensures (resp, published) == WebhookPostOutcome(event, loads, net, store, bus)
  {
    var payload := LoadBody(event, loads);
    if payload.Raise? {
      return Failure(payload.error), [];
    }
    var processed := ProcessWebhookEvent(payload.value, net, store);
    if processed.Raise? {
      return Failure(processed.error), [];
    }
    var events := processed.value;
    published := [];
    var i := 0;
    while i < |events|
      invariant 0 <= i <= |events|
      invariant PublishRun(events[..i], bus) == (published, None)
    {
      PublishStep(events, i, bus);
      var eventInfo := Tag(events[i]);
      var failure := bus(eventInfo);
      published := published + [eventInfo];
      if failure.Some? {
        PublishStopsAtFailure(events, i + 1, bus);
        return Failure(failure.value), published;
      }
      i := i + 1;
    }
    assert events[..|events|] == events;
    return Reply(200, JStr(SuccessBody(|events|))), published;
  }

  /** One more event extends the publishing run of a prefix. */
  lemma PublishStep(events: seq<Dict>, i: nat, bus: Dict -> Option<PyError>)
    requires i < |events|
    ensures var run := PublishRun(events[..i], bus);
      PublishRun(events[..i + 1], bus)
      == if run.1.Some? then run else (run.0 + [Tag(events[i])], bus(Tag(events[i])))
  {
    assert events[..i + 1][..i] == events[..i];
  }

  /** Nothing is published after the first failure. */
  lemma {:induction false} PublishStopsAtFailure(events: seq<Dict>, n: nat, bus: Dict -> Option<PyError>)
    requires n <= |events| && PublishRun(events[..n], bus).1.Some?
    ensures PublishRun(events, bus) == PublishRun(events[..n], bus)
    decreases |events| - n
  {
    if n < |events| {
      assert events[..n + 1][..n] == events[..n];
      PublishStopsAtFailure(events, n + 1, bus);
    } else {
      assert events[..n] == events;
    }
  }

  /** A 200 answer means every event was tagged and published, and the body
      reports how many. */
  lemma WebhookPostSuccess(event: Dict, loads: string -> Py<Json>, net: Net, store: Json -> Json,
                           bus: Dict -> Option<PyError>)
    ensures var out := WebhookPostOutcome(event, loads, net, store, bus);
      out.0.Reply? ==>
        && LoadBody(event, loads).Ok?
        && FeedEvents(LoadBody(event, loads).value, net, store).Ok?
        && var events := FeedEvents(LoadBody(event, loads).value, net, store).value;
           && out.0 == Reply(200, JStr(SuccessBody(|events|)))
           && |out.1| == |events|
           && forall k :: 0 <= k < |events| ==> out.1[k] == Tag(events[k]) && out.1[k]["action"] == ReplyAction
  {
    match LoadBody(event, loads)
    case Raise(_) =>
    case Ok(payload) =>
      match FeedEvents(payload, net, store)
      case Raise(_) =>
      case Ok(events) => PublishRunTagsInOrder(events, bus);
  }

  /** A payload that is not a page webhook is answered with a 500 and
      publishes nothing. */
  lemma NonPagePayloadPublishesNothing(event: Dict, loads: string -> Py<Json>, net: Net,
                                       store: Json -> Json, bus: Dict -> Option<PyError>, m: Dict)
    requires LoadBody(event, loads) == Ok(JObj(m))
    requires !("object" in m && m["object"] == JStr("page"))
    ensures WebhookPostOutcome(event, loads, net, store, bus)
      == (Failure(WebhookPayload.NotForPage), [])
  {
  }
}
