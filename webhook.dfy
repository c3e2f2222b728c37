/** `POST /api/webhooks/coinbase`: a fixed ladder of checks (signature header,
    configured secret, signature verification, body parsing) followed by a
    switch on the event type that only logs. No state changes. */
module WebhookRoute {
  import opened Common
  import opened JsonValue

  /** What `parseWebhookEvent` (that is, `JSON.parse`) makes of the raw body. */
  datatype Parsed = Malformed | ParsedEvent(event: Json)

  datatype Reply = Reply(status: int, body: Json)

  const MissingSignature := "Missing signature"
  const SecretNotConfigured := "Webhook secret not configured"
  const InvalidSignature := "Invalid signature"
  const ProcessingFailed := "Webhook processing failed"

  function ErrorBody(message: string): Json {
    JObj(map["error" := JStr(message)])
  }

  const Received := Reply(200, JObj(map["received" := JBool(true)]))

  /** The event types the switch names; each of them reads `event.data.id`. */
  const KnownTypes: set<string> :=
    {"charge:confirmed", "charge:failed", "charge:delayed", "charge:pending", "charge:resolved"}

  /** A header or environment value, tested with `!value`. */
  predicate Present(v: Option<string>) {
    v.Some? && v.value != ""
  }

  /** `event.type` is one of the named cases. */
  predicate IsKnownType(event: Json)
    requires !event.JNull?
  {
    Get(event, "type").Some? && Get(event, "type").value.JStr? && Get(event, "type").value.s in KnownTypes
  }

  /** `event.data.id` throws when `event.data` is `undefined` or `null`. */
  predicate ReadingDataIdThrows(event: Json)
    requires !event.JNull?
  {
    Get(event, "data").None? || Get(event, "data").value.JNull?
  }

  /** The switch and the final answer, for a parsed event. Reading `event.type`
      of `null` throws; so does `event.data.id` in a named case without data. */
  function Dispatch(event: Json): (r: Reply)
    ensures r == Received || r == Reply(500, ErrorBody(ProcessingFailed))
  {
    if event.JNull? then Reply(500, ErrorBody(ProcessingFailed))
    else if IsKnownType(event) && ReadingDataIdThrows(event) then Reply(500, ErrorBody(ProcessingFailed))
    else Received
  }

  /** The route once `request.text()` has produced the body. `verify` is
      `verifyWebhookSignature` on the server, which answers rather than
      throws; `parse` is the body parser. */
  function Post(body: string, signature: Option<string>, secret: Option<string>,
                verify: (string, string, string) -> bool, parse: string -> Parsed): (r: Reply)
    ensures r.status == 400 <==> !Present(signature)
    ensures r.status == 401 <==> Present(signature) && Present(secret) && !verify(body, signature.value, secret.value)
    ensures r.status == 200 ==> Present(signature) && Present(secret) && verify(body, signature.value, secret.value)
    ensures r.status in {200, 400, 401, 500}
  {
    if !Present(signature) then Reply(400, ErrorBody(MissingSignature))
    else if !Present(secret) then Reply(500, ErrorBody(SecretNotConfigured))
    else if !verify(body, signature.value, secret.value) then Reply(401, ErrorBody(InvalidSignature))
    else
      match parse(body)
      case Malformed => Reply(500, ErrorBody(ProcessingFailed))
      case ParsedEvent(event) => Dispatch(event)
  }

  /** The whole handler: reading the body is inside the `try`, so a body that
      cannot be read (None) is answered with the generic 500 before the
      signature header is looked at; a body that is read goes down `Post`. */
  function PostRequest(body: Option<string>, signature: Option<string>, secret: Option<string>,
                       verify: (string, string, string) -> bool, parse: string -> Parsed): (r: Reply)
    ensures body.None? ==> r == Reply(500, ErrorBody(ProcessingFailed))
    ensures r.status == 400 <==> body.Some? && !Present(signature)
    ensures r.status == 401 <==>
      body.Some? && Present(signature) && Present(secret) && !verify(body.value, signature.value, secret.value)
    ensures r.status == 200 ==>
      body.Some? && Present(signature) && Present(secret) && verify(body.value, signature.value, secret.value)
  {
    match body
    case None => Reply(500, ErrorBody(ProcessingFailed))
    case Some(text) => Post(text, signature, secret, verify, parse)
  }

  /** A missing signature is answered before the secret, the verifier or the
      parser is consulted. */
  lemma SignatureCheckedFirst(body: string, signature: Option<string>,
                              secret1: Option<string>, verify1: (string, string, string) -> bool, parse1: string -> Parsed,
                              secret2: Option<string>, verify2: (string, string, string) -> bool, parse2: string -> Parsed)
    requires !Present(signature)
    ensures Post(body, signature, secret1, verify1, parse1) == Post(body, signature, secret2, verify2, parse2)
              == Reply(400, ErrorBody(MissingSignature))
  {
  }

  /** A missing secret is answered with 500 before verification is attempted. */
  lemma SecretCheckedBeforeVerify(body: string, signature: Option<string>, secret: Option<string>,
                                  verify1: (string, string, string) -> bool, parse1: string -> Parsed,
                                  verify2: (string, string, string) -> bool, parse2: string -> Parsed)
    requires Present(signature) && !Present(secret)
    ensures Post(body, signature, secret, verify1, parse1) == Post(body, signature, secret, verify2, parse2)
              == Reply(500, ErrorBody(SecretNotConfigured))
  {
  }

  /** An unverified body is never parsed: whatever the parser would do, the
      answer is 401. */
  lemma UnverifiedNeverParsed(body: string, signature: Option<string>, secret: Option<string>,
                              verify: (string, string, string) -> bool, parse1: string -> Parsed, parse2: string -> Parsed)
    requires Present(signature) && Present(secret) && !verify(body, signature.value, secret.value)
    ensures Post(body, signature, secret, verify, parse1) == Post(body, signature, secret, verify, parse2)
              == Reply(401, ErrorBody(InvalidSignature))
  {
  }

  /** After verification, an event whose type is not one of the named cases
      is acknowledged whatever else it carries. */
  lemma UnknownTypeAcknowledged(body: string, signature: Option<string>, secret: Option<string>,
                                verify: (string, string, string) -> bool, parse: string -> Parsed)
    requires Present(signature) && Present(secret) && verify(body, signature.value, secret.value)
    requires parse(body).ParsedEvent? && !parse(body).event.JNull? && !IsKnownType(parse(body).event)
    ensures Post(body, signature, secret, verify, parse) == Received
  {
  }

  /** After verification, a named event type without `data` fails with 500,
      and so does a body that does not parse. */
  lemma KnownTypeWithoutDataFails(body: string, signature: Option<string>, secret: Option<string>,
                                  verify: (string, string, string) -> bool, parse: string -> Parsed)
    requires Present(signature) && Present(secret) && verify(body, signature.value, secret.value)
    requires parse(body).Malformed?
      || (parse(body).ParsedEvent? && !parse(body).event.JNull?
          && IsKnownType(parse(body).event) && ReadingDataIdThrows(parse(body).event))
    ensures Post(body, signature, secret, verify, parse) == Reply(500, ErrorBody(ProcessingFailed))
  {
  }

  /** Once verified, the answer is 200 exactly when the body parses to an
      event that the switch can read. */
  lemma VerifiedOutcome(body: string, signature: Option<string>, secret: Option<string>,
                        verify: (string, string, string) -> bool, parse: string -> Parsed)
    requires Present(signature) && Present(secret) && verify(body, signature.value, secret.value)
    ensures Post(body, signature, secret, verify, parse).status == 200 <==>
      parse(body).ParsedEvent? && !parse(body).event.JNull?
      && !(IsKnownType(parse(body).event) && ReadingDataIdThrows(parse(body).event))
  {
  }
}
