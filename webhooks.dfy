/** PaymentWebhookController: turns a webhook body into a settlement call or a reply. The JSON body is a
    map of decoded values; the Razorpay signature check is a boolean the caller supplies. */
module Webhooks {
  import opened Model
  import opened Text
  import Payments

  /** A decoded JSON value, as Jackson hands it over inside a `Map<String, Object>`. */
  datatype Json = JNull | JBool(b: bool) | JNumber(n: int) | JString(s: string) | JArray(elems: seq<Json>)
                | JObject(fields: map<string, Json>)

  type Body = map<string, Json>

  datatype MockWebhookRequest = MockWebhookRequest(orderId: Option<string>, paymentId: Option<string>,
                                                   status: Option<string>, amount: Option<int>)

  datatype RazorpayPayment = RazorpayPayment(id: Option<string>, orderId: Option<string>, status: Option<string>,
                                             amount: Option<int>)

  datatype RazorpayPayload = RazorpayPayload(payment: Option<RazorpayPayment>)

  datatype RazorpayWebhookRequest = RazorpayWebhookRequest(event: Option<string>, payload: Option<RazorpayPayload>)

  /** The `(String)` cast: null stays null, a string passes, anything else throws. */
  function AsString(v: Json): Result<Option<string>> {
    match v
    case JNull => Ok(None)
    case JString(s) => Ok(Some(s))
    case _ => Err(ClassCast)
  }

  /** A string field is copied only when its key is present. */
  function StringField(m: Body, key: string): Result<Option<string>> {
    if key in m then AsString(m[key]) else Ok(None)
  }

  /** A numeric field is copied only when it is present and a number; anything else is ignored. */
  function NumberField(m: Body, key: string): Option<int> {
    if key in m && m[key].JNumber? then Some(m[key].n) else None
  }

  /** The `(Map<String, Object>)` cast followed by `containsKey`: a null value throws on the call. */
  function AsObject(v: Json): Result<Body> {
    match v
    case JObject(m) => Ok(m)
    case JNull => Err(NullPointer)
    case _ => Err(ClassCast)
  }

  /** A field the string casts accept: absent, null or a string. */
  predicate Castable(m: Body, key: string) {
    key !in m || m[key].JNull? || m[key].JString?
  }

  /** `parseMockWebhook`. */
  function ParseMockWebhook(body: Option<Body>): (r: Result<Option<MockWebhookRequest>>)
    ensures r == Ok(None) <==> body.None?
    ensures body.Some? ==>
              (r.Ok? <==> Castable(body.value, "orderId") && Castable(body.value, "paymentId") && Castable(body.value, "status"))
    ensures r.Err? ==> r.error == ClassCast
  {
    if body.None? then Ok(None)
    else
      var m := body.value;
      match StringField(m, "orderId")
      case Err(e) => Err(e)
      case Ok(orderId) =>
        match StringField(m, "paymentId")
        case Err(e) => Err(e)
        case Ok(paymentId) =>
          match StringField(m, "status")
          case Err(e) => Err(e)
          case Ok(status) => Ok(Some(MockWebhookRequest(orderId, paymentId, status, NumberField(m, "amount"))))
  }

  function ParseRazorpayPayment(m: Body): Result<RazorpayPayment> {
    match StringField(m, "id")
    case Err(e) => Err(e)
    case Ok(id) =>
      match StringField(m, "order_id")
      case Err(e) => Err(e)
      case Ok(orderId) =>
        match StringField(m, "status")
        case Err(e) => Err(e)
        case Ok(status) => Ok(RazorpayPayment(id, orderId, status, NumberField(m, "amount")))
  }

  /** `parseRazorpayWebhook`: a missing "payload" key leaves the payload null, and a missing "payment" key
      leaves the payment null. */
  function ParseRazorpayWebhook(body: Option<Body>): (r: Result<Option<RazorpayWebhookRequest>>)
    ensures r == Ok(None) <==> body.None?
    ensures body.Some? && r.Ok? ==> r.value.Some?
    ensures body.Some? && r.Ok? && "payload" !in body.value ==> r.value.value.payload.None?
    ensures body.Some? && r.Ok? && "payload" in body.value ==>
              && body.value["payload"].JObject?
              && r.value.value.payload.Some?
              && (r.value.value.payload.value.payment.Some? <==> "payment" in body.value["payload"].fields)
  {
    if body.None? then Ok(None)
    else
      var m := body.value;
      match StringField(m, "event")
      case Err(e) => Err(e)
      case Ok(event) =>
        if "payload" !in m then Ok(Some(RazorpayWebhookRequest(event, None)))
        else
          match AsObject(m["payload"])
          case Err(e) => Err(e)
          case Ok(payloadMap) =>
            if "payment" !in payloadMap then Ok(Some(RazorpayWebhookRequest(event, Some(RazorpayPayload(None)))))
            else
              match AsObject(payloadMap["payment"])
              case Err(e) => Err(e)
              case Ok(paymentMap) =>
                match ParseRazorpayPayment(paymentMap)
                case Err(e) => Err(e)
                case Ok(payment) => Ok(Some(RazorpayWebhookRequest(event, Some(RazorpayPayload(Some(payment))))))
  }

  /** A body that carries exactly the given fields: a reference encoding to parse against. */
  function Put(m: Body, key: string, v: Option<string>): Body {
    if v.Some? then m[key := JString(v.value)] else m
  }

  function PutNumber(m: Body, key: string, v: Option<int>): Body {
    if v.Some? then m[key := JNumber(v.value)] else m
  }

  function EncodeMock(r: MockWebhookRequest): Body {
    PutNumber(Put(Put(Put(map[], "orderId", r.orderId), "paymentId", r.paymentId), "status", r.status), "amount", r.amount)
  }

  function EncodeRazorpayPayment(p: RazorpayPayment): Body {
    PutNumber(Put(Put(Put(map[], "id", p.id), "order_id", p.orderId), "status", p.status), "amount", p.amount)
  }

  function EncodeRazorpay(r: RazorpayWebhookRequest): Body {
    var withEvent := Put(map[], "event", r.event);
    match r.payload
    case None => withEvent
    case Some(payload) =>
      match payload.payment
      case None => withEvent["payload" := JObject(map[])]
      case Some(p) => withEvent["payload" := JObject(map["payment" := JObject(EncodeRazorpayPayment(p))])]
  }

  /** Every mock webhook request survives being sent as JSON and parsed back. */
  lemma MockRoundTrip(r: MockWebhookRequest)
    ensures ParseMockWebhook(Some(EncodeMock(r))) == Ok(Some(r))
  {
    var m := EncodeMock(r);
    assert StringField(m, "orderId") == Ok(r.orderId);
    assert StringField(m, "paymentId") == Ok(r.paymentId);
    assert StringField(m, "status") == Ok(r.status);
    assert NumberField(m, "amount") == r.amount;
  }

  lemma RazorpayPaymentRoundTrip(p: RazorpayPayment)
    ensures ParseRazorpayPayment(EncodeRazorpayPayment(p)) == Ok(p)
  {
    var m := EncodeRazorpayPayment(p);
    assert StringField(m, "id") == Ok(p.id);
    assert StringField(m, "order_id") == Ok(p.orderId);
    assert StringField(m, "status") == Ok(p.status);
    assert NumberField(m, "amount") == p.amount;
  }

  /** Every Razorpay webhook request survives being sent as JSON and parsed back. */
  lemma RazorpayRoundTrip(r: RazorpayWebhookRequest)
    ensures ParseRazorpayWebhook(Some(EncodeRazorpay(r))) == Ok(Some(r))
  {
    var m := EncodeRazorpay(r);
    assert StringField(m, "event") == Ok(r.event);
    match r.payload
    case None =>
    case Some(payload) =>
      match payload.payment
      case None =>
      case Some(p) =>
        RazorpayPaymentRoundTrip(p);
  }

  /** The controller's replies: 200 with a message, 401, or 400 carrying the exception. */
  datatype WebhookResponse = Acknowledged(message: string) | Unauthorized | BadRequest(error: Error)

  const ProcessedMessage := "Webhook processed successfully"
  const RazorpayProcessedMessage := "Razorpay webhook processed successfully"
  const NotAPaymentEventMessage := "Webhook received (not a payment event)"

  /** What the controller does with a request: reply at once, or call one of the two settlements. */
  datatype Plan =
    | Reply(response: WebhookResponse)
    | SettleMock(orderId: Option<string>, paymentId: Option<string>, status: Option<string>)
    | SettleRazorpay(razorpayOrderId: Option<string>, razorpayPaymentId: Option<string>, outcome: string)

  /** The decision part of `handleRazorpayWebhook`: a present signature that fails verification is refused;
      a null request throws on `getEvent`; a captured-payment event with payload and payment settles by the
      payload's order id; anything else is acknowledged without a call. */
  function RazorpayPlan(request: Option<RazorpayWebhookRequest>, signature: Option<string>, signatureValid: bool): Plan {
    if signature.Some? && !signatureValid then Reply(Unauthorized)
    else if request.None? then Reply(BadRequest(NullPointer))
    else if request.value.event == Some("payment.captured") && request.value.payload.Some?
            && request.value.payload.value.payment.Some?
    then
      var payment := request.value.payload.value.payment.value;
      SettleRazorpay(payment.orderId, payment.id, if payment.status == Some("captured") then "SUCCESS" else "FAILED")
    else Reply(Acknowledged(NotAPaymentEventMessage))
  }

  /** The mock path of `handlePaymentWebhook`: a parse exception or a null body is a bad request. */
  function MockPlan(body: Option<Body>): Plan {
    match ParseMockWebhook(body)
    case Err(e) => Reply(BadRequest(e))
    case Ok(None) => Reply(BadRequest(InvalidWebhookRequest))
    case Ok(Some(r)) => SettleMock(r.orderId, r.paymentId, r.status)
  }

  /** `handlePaymentWebhook`'s dispatch: with the Razorpay provider (in any letter case) a body that parses as a
      Razorpay webhook goes down the Razorpay path; every other body, and every body under another
      provider, takes the mock path. */
  function Dispatch(provider: string, body: Option<Body>, signature: Option<string>, signatureValid: bool): Plan {
    if Payments.IsRazorpay(provider) then
      match ParseRazorpayWebhook(body)
      case Ok(request) => RazorpayPlan(request, signature, signatureValid)
      case Err(_) => MockPlan(body)
    else MockPlan(body)
  }


  /** Under any provider other than Razorpay the body takes the mock path: no signature is ever asked for
      and no Razorpay settlement is ever made. */
  lemma OtherProviderTakesMockPath(provider: string, body: Option<Body>, signature: Option<string>, signatureValid: bool)
    requires !Payments.IsRazorpay(provider)
    ensures Dispatch(provider, body, signature, signatureValid) == MockPlan(body)
    ensures !Dispatch(provider, body, signature, signatureValid).SettleRazorpay?
    ensures Dispatch(provider, body, signature, signatureValid) != Reply(Unauthorized)
  {
  }

  /** Under Razorpay a Razorpay-shaped body with a signature header that fails verification is refused,
      and nothing is settled. */
  lemma BadSignatureRefused(provider: string, body: Option<Body>, signature: string)
    requires Payments.IsRazorpay(provider) && ParseRazorpayWebhook(body).Ok?
    ensures Dispatch(provider, body, Some(signature), false) == Reply(Unauthorized)
  {
  }

  /** Without a signature header the verification result is never consulted. */
  lemma MissingSignatureSkipsVerification(provider: string, body: Option<Body>)
    ensures Dispatch(provider, body, None, true) == Dispatch(provider, body, None, false)
  {
  }

  /** A Razorpay settlement is made exactly for a Razorpay-shaped, captured-payment event with payload and
      payment present and no failed signature; it is keyed by the payload's order id, passes the payload's
      payment id, and maps "captured" to SUCCESS and every other status to FAILED. */
  lemma RazorpaySettlementExactly(provider: string, body: Option<Body>, signature: Option<string>, signatureValid: bool)
    ensures Dispatch(provider, body, signature, signatureValid).SettleRazorpay? <==>
              && Payments.IsRazorpay(provider)
              && ParseRazorpayWebhook(body).Ok? && ParseRazorpayWebhook(body).value.Some?
              && (signature.None? || signatureValid)
              && var request := ParseRazorpayWebhook(body).value.value;
              && request.event == Some("payment.captured")
              && request.payload.Some? && request.payload.value.payment.Some?
    ensures Dispatch(provider, body, signature, signatureValid).SettleRazorpay? ==>
              var plan := Dispatch(provider, body, signature, signatureValid);
              var payment := ParseRazorpayWebhook(body).value.value.payload.value.payment.value;
              && plan.razorpayOrderId == payment.orderId
              && plan.razorpayPaymentId == payment.id
              && (plan.outcome == "SUCCESS" <==> payment.status == Some("captured"))
              && (plan.outcome == "FAILED" <==> payment.status != Some("captured"))
  {
    var plan := Dispatch(provider, body, signature, signatureValid);
    if Payments.IsRazorpay(provider) && ParseRazorpayWebhook(body).Err? {
      assert plan == MockPlan(body);
    }
  }

  /** Under Razorpay a body that fails to parse as a Razorpay webhook falls through to the mock path, where
      no signature is checked: an invalid signature does not stop its settlement. */
  lemma ParseFailureSkipsSignature(provider: string, body: Option<Body>, signature: Option<string>, signatureValid: bool)
    requires Payments.IsRazorpay(provider) && ParseRazorpayWebhook(body).Err?
    ensures Dispatch(provider, body, signature, signatureValid) == MockPlan(body)
  {
  }

  /** A concrete such body: "payload" holds a string, so the Razorpay parse throws, and the mock fields
      settle the order although the signature header is present and wrong. */
  lemma SignatureBypassWitness()
    ensures var body := map["payload" := JString("x"), "orderId" := JString("o1"), "status" := JString("success")];
            Dispatch("razorpay", Some(body), Some("forged"), false) == SettleMock(Some("o1"), None, Some("success"))
  {
    var body := map["payload" := JString("x"), "orderId" := JString("o1"), "status" := JString("success")];
    assert EqualsIgnoreCase("razorpay", "razorpay");
    assert ParseRazorpayWebhook(Some(body)) == Err(ClassCast);
    assert StringField(body, "orderId") == Ok(Some("o1"));
    assert StringField(body, "status") == Ok(Some("success"));
  }

  /** A null body is a bad request on both paths, and nothing is settled. */
  lemma NullBodyRejected(provider: string, signature: Option<string>, signatureValid: bool)
    ensures Dispatch(provider, None, signature, signatureValid).Reply?
    ensures !Payments.IsRazorpay(provider) ==> Dispatch(provider, None, signature, signatureValid) == Reply(BadRequest(InvalidWebhookRequest))
  {
  }

  /** The response and ledger after carrying out a plan; a failed settlement changes nothing. */
  function Apply(plan: Plan, l: Payments.Ledger): (WebhookResponse, Payments.Ledger) {
    match plan
    case Reply(response) => (response, l)
    case SettleMock(orderId, paymentId, status) =>
      (match Payments.SettleByOrder(l, orderId, paymentId, status)
       case Err(e) => (BadRequest(e), l)
       case Ok(l') => (Acknowledged(ProcessedMessage), l'))
    case SettleRazorpay(razorpayOrderId, razorpayPaymentId, outcome) =>
      (match Payments.SettleByReference(l, razorpayOrderId, razorpayPaymentId, Some(outcome))
       case Err(e) => (BadRequest(e), l)
       case Ok(l') => (Acknowledged(RazorpayProcessedMessage), l'))
  }

  /** A replayed mock webhook gets the same reply and leaves the ledger as the first delivery did. */
  lemma MockWebhookReplay(provider: string, body: Option<Body>, l: Payments.Ledger)
    requires !Payments.IsRazorpay(provider)
    ensures var first := Apply(Dispatch(provider, body, None, false), l);
            Apply(Dispatch(provider, body, None, false), first.1) == first
  {
    match MockPlan(body)
    case Reply(_) =>
    case SettleMock(orderId, paymentId, status) =>
      if Payments.SettleByOrder(l, orderId, paymentId, status).Ok? {
        Payments.SettleByOrderIdempotent(l, orderId, paymentId, status);
      }
    case SettleRazorpay(_, _, _) =>
  }

  class WebhookController {
    const payments: Payments.PaymentService
    /** The `payment.provider` setting, shared with the payment service. */
    const provider: string

    ghost predicate Valid()
      reads this, payments, payments.orderService, payments.orderService.cart, payments.orderService.inventory
    {
      payments.Valid() && payments.provider == provider
    }

    constructor (payments: Payments.PaymentService)
      requires payments.Valid()
      ensures Valid() && this.payments == payments
    {
      this.payments := payments;
      this.provider := payments.provider;
    }

    /** `handlePaymentWebhook`: decides, then calls the chosen settlement; an exception it raises becomes a
        bad request. `signatureValid` stands for the gateway library's verdict on the signature. */
    method HandlePaymentWebhook(body: Option<Body>, signature: Option<string>, signatureValid: bool)
      returns (response: WebhookResponse)
      requires Valid()
      modifies payments, payments.orderService
      ensures Valid() && payments.orderService.items == old(payments.orderService.items)
      ensures (response, Payments.Ledger(payments.payments, payments.orderService.orders))
           == Apply(Dispatch(provider, body, signature, signatureValid),
                    Payments.Ledger(old(payments.payments), old(payments.orderService.orders)))
    {
      var plan := Dispatch(provider, body, signature, signatureValid);
      match plan
      case Reply(r) =>
        response := r;
      case SettleMock(orderId, paymentId, status) =>
        var settled := payments.HandlePaymentWebhook(orderId, paymentId, status);
        response := if settled.Ok? then Acknowledged(ProcessedMessage) else BadRequest(settled.error);
      case SettleRazorpay(razorpayOrderId, razorpayPaymentId, outcome) =>
        var settled := payments.HandleRazorpayWebhook(razorpayOrderId, razorpayPaymentId, Some(outcome));
        response := if settled.Ok? then Acknowledged(RazorpayProcessedMessage) else BadRequest(settled.error);
    }
  }
}
