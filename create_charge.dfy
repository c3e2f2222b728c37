/** `POST /api/checkout/create-charge`: one guard on three required fields,
    then a delegated call to the charge service, mapped to a status. */
module CreateChargeRoute {
  import opened Common
  import opened JsonValue
  import CoinbaseCommerce

  /** `await request.json()`: text that does not parse makes it throw. */
  datatype RequestBody = Unparsable | Body(value: Json)

  /** What `CoinbaseCommerceService.createCharge` does with the forwarded body
      (see `CoinbaseCommerce.Gateway.CreateCharge`). */
  type ServiceOutcome = CoinbaseCommerce.ServiceOutcome

  datatype Reply = Reply(status: int, body: Json)

  /** The route's answer, and the body it handed to the charge service, if any. */
  datatype Handled = Handled(reply: Reply, forwarded: Option<Json>)

  const MissingFields := "Missing required fields"
  const CreateFailed := "Failed to create charge"

  function ErrorBody(message: string): Json {
    JObj(map["error" := JStr(message)])
  }

  /** `body.name && body.local_price && body.metadata`; nothing else is required. */
  predicate HasRequiredFields(v: Json)
    requires !v.JNull?
  {
    HasTruthy(v, "name") && HasTruthy(v, "local_price") && HasTruthy(v, "metadata")
  }

  /** A body is forwarded when it parses, is not `null` (reading a field of
      `null` throws) and carries the three required fields. */
  predicate Forwardable(req: RequestBody) {
    req.Body? && !req.value.JNull? && HasRequiredFields(req.value)
  }

  function Post(req: RequestBody, service: Json -> ServiceOutcome): (h: Handled)
    ensures h.reply.status == 400 <==> req.Body? && !req.value.JNull? && !HasRequiredFields(req.value)
    ensures h.reply.status == 400 ==> h.reply.body == ErrorBody(MissingFields)
    ensures h.forwarded == (if Forwardable(req) then Some(req.value) else None)
    ensures h.reply.status == 200 <==> Forwardable(req) && service(req.value).Created?
    ensures h.reply.status == 200 ==> h.reply.body == JObj(map["charge" := service(req.value).charge])
    ensures h.reply.status !in {200, 400} ==> h.reply == Reply(500, ErrorBody(CreateFailed))
  {
    match req
    case Unparsable => Handled(Reply(500, ErrorBody(CreateFailed)), None)
    case Body(v) =>
      if v.JNull? then Handled(Reply(500, ErrorBody(CreateFailed)), None)
      else if !HasRequiredFields(v) then Handled(Reply(400, ErrorBody(MissingFields)), None)
      else
        var outcome := service(v);
        if outcome.Created? then Handled(Reply(200, JObj(map["charge" := outcome.charge])), Some(v))
        else Handled(Reply(500, ErrorBody(CreateFailed)), Some(v))
  }

  /** A 400 answer never depends on the charge service: it is not consulted. */
  lemma RejectionIgnoresService(req: RequestBody, s1: Json -> ServiceOutcome, s2: Json -> ServiceOutcome)
    requires Post(req, s1).reply.status == 400
    ensures Post(req, s2) == Post(req, s1)
  {
  }

  /** Fields other than the three required ones (`description`, `pricing_type`,
      the URLs) play no part in the 400 decision: setting or dropping one of
      them never turns an accepted body into a rejected one or back. */
  lemma OptionalFieldsIgnored(fields: map<string, Json>, key: string, v: Json, service: Json -> ServiceOutcome)
    requires key !in {"name", "local_price", "metadata"}
    ensures (Post(Body(JObj(fields[key := v])), service).reply.status == 400)
        == (Post(Body(JObj(fields)), service).reply.status == 400)
    ensures (Post(Body(JObj(fields - {key})), service).reply.status == 400)
        == (Post(Body(JObj(fields)), service).reply.status == 400)
  {
    assert Get(JObj(fields[key := v]), "name") == Get(JObj(fields), "name");
    assert Get(JObj(fields[key := v]), "local_price") == Get(JObj(fields), "local_price");
    assert Get(JObj(fields[key := v]), "metadata") == Get(JObj(fields), "metadata");
    assert Get(JObj(fields - {key}), "name") == Get(JObj(fields), "name");
    assert Get(JObj(fields - {key}), "local_price") == Get(JObj(fields), "local_price");
    assert Get(JObj(fields - {key}), "metadata") == Get(JObj(fields), "metadata");
  }
}
