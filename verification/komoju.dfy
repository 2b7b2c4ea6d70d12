/**
 The Komoju gateway adapter: builds the payment-creation payload from an
 amount, a payment instrument and an options hash, and normalises the parsed
 provider reply into a response record.
 */
module Komoju {
  import opened Wrappers
  import opened RubyHash
  import opened RubyValue

  const TestUrl: string := "https://sandbox.komoju.com/api/v1"
  const LiveUrl: string := "https://komoju.com/api/v1"
  const DefaultCurrency: string := "JPY"
  const SuccessMessage: string := "Transaction succeeded"

  /** Provider error codes translated into the library's standard codes. */
  const StandardErrorCodeMapping: Hash<string> := Hash(
    ["bad_verification_value", "card_expired", "card_declined", "invalid_number"],
    map[
      "bad_verification_value" := "incorrect_cvc",
      "card_expired" := "expired_card",
      "card_declined" := "card_declined",
      "invalid_number" := "invalid_number"])

  /** The keys of a card's payment details, in the order they are assigned. */
  const CardDetailKeys: seq<string> :=
    ["type", "number", "month", "year", "verification_value", "given_name", "family_name"]

  /** The keys every payload carries, in the order of the hash literal. */
  const BaseParamKeys: seq<string> := ["amount", "description", "payment_details", "currency"]

  /** Configuration fixed at construction: the API key and the test-mode flag. */
  datatype Gateway = Gateway(apiKey: Value, testMode: bool)

  /** The attributes of a credit card the adapter reads. */
  datatype CreditCard = CreditCard(
    number: Value,
    month: Value,
    year: Value,
    verificationValue: Value,
    firstName: Value,
    lastName: Value)

  /** A payment instrument: a structured card, or a details hash the caller built itself. */
  datatype Instrument = Card(card: CreditCard) | Raw(details: Hash<Value>)

  /** What the HTTP layer hands back: a body from a 2xx reply, or the body of a rejected one. */
  datatype Reply = Delivered(body: Hash<Value>) | HttpError(body: Hash<Value>)

  /** The normalised outcome of a purchase; `None` stands for `nil`. */
  datatype Response = Response(
    success: bool,
    message: Option<Value>,
    params: Hash<Value>,
    test: bool,
    errorCode: Option<Value>,
    authorization: Option<Value>)

  /** The HTTP POST, supplied by the caller: endpoint and payload in, parsed reply out. */
  type Transport = (string, Hash<Value>) -> Reply

  /** Construction: the `login` option is mandatory and becomes the API key. */
  function Initialize(options: Hash<Value>, testMode: bool): (r: Result<Gateway, RubyError>)
    ensures r.Success? <==> HasKey(options, "login")
    ensures r.Success? ==> Get(options, "login") == Some(r.value.apiKey) && r.value.testMode == testMode
    ensures r.Failure? ==> r.error.ArgumentError?
  {
    if HasKey(options, "login") then Success(Gateway(Lookup(options, "login"), testMode))
    else Failure(ArgumentError("Missing required parameter: login"))
  }

  /** The API base: sandbox in test mode, production otherwise. */
  function Url(g: Gateway): (u: string)
    ensures g.testMode ==> u == "https://sandbox.komoju.com/api/v1"
    ensures !g.testMode ==> u == "https://komoju.com/api/v1"
  {
    if g.testMode then TestUrl else LiveUrl
  }

  /** The endpoint every purchase is posted to. */
  function PaymentsUrl(g: Gateway): (u: string)
    ensures g.testMode ==> u == "https://sandbox.komoju.com/api/v1/payments"
    ensures !g.testMode ==> u == "https://komoju.com/api/v1/payments"
  {
    Url(g) + "/payments"
  }

  /** The payment details of a credit card, built key by key. */
  function CardPaymentDetails(card: CreditCard): (d: Hash<Value>)
    ensures Keys(d) == CardDetailKeys
    ensures Lookup(d, "type") == Str("credit_card")
  {
    // a fresh hash assigned seven distinct keys in turn
    Hash(CardDetailKeys, map[
      "type" := Str("credit_card"),
      "number" := card.number,
      "month" := card.month,
      "year" := card.year,
      "verification_value" := card.verificationValue,
      "given_name" := card.firstName,
      "family_name" := card.lastName])
  }

  /** The details hash before the e-mail merge: the card's, or the caller's own. */
  function BaseDetails(payment: Instrument): (d: Hash<Value>)
    ensures payment.Card? ==> d == CardPaymentDetails(payment.card)
    ensures payment.Card? ==> Keys(d) == CardDetailKeys && Lookup(d, "type") == Str("credit_card")
    ensures payment.Raw? ==> d == payment.details
  {
    match payment
    case Card(card) => CardPaymentDetails(card)
    case Raw(details) => details
  }

  /** The payment details sent to the provider, with `options[:email]` merged in when given. */
  function PaymentDetails(payment: Instrument, options: Hash<Value>): (d: Hash<Value>)
    ensures Truthy(Lookup(options, "email")) ==> Lookup(d, "email") == Lookup(options, "email")
    ensures forall k :: k != "email" ==> Get(d, k) == Get(BaseDetails(payment), k)
    ensures !Truthy(Lookup(options, "email")) ==> d == BaseDetails(payment)
    ensures Keys(d) == Keys(BaseDetails(payment)) +
      (if Truthy(Lookup(options, "email")) && !HasKey(BaseDetails(payment), "email") then ["email"] else [])
  {
    var details := BaseDetails(payment);
    var email := Lookup(options, "email");
    if Truthy(email) then Store(details, "email", email) else details
  }

  /** The hash literal every payload starts from: four keys, always present. */
  function BaseParams(money: nat, payment: Instrument, options: Hash<Value>): (p: Hash<Value>)
    ensures Keys(p) == BaseParamKeys
    ensures Lookup(p, "amount") == Int(money)
    ensures Lookup(p, "description") == Lookup(options, "description")
    ensures Lookup(p, "payment_details") == Obj(PaymentDetails(payment, options))
    ensures Truthy(Lookup(options, "currency")) ==> Lookup(p, "currency") == Lookup(options, "currency")
    ensures !Truthy(Lookup(options, "currency")) ==> Lookup(p, "currency") == Str(DefaultCurrency)
  {
    Hash(BaseParamKeys, map[
      "amount" := Int(money),
      "description" := Lookup(options, "description"),
      "payment_details" := Obj(PaymentDetails(payment, options)),
      "currency" := Or(Lookup(options, "currency"), Str(DefaultCurrency))])
  }

  /**
   The payload of a purchase of `money` minor units: the base keys, then
   `external_order_num` and `tax` only when the matching option is truthy.
   */
  function BuildParams(money: nat, payment: Instrument, options: Hash<Value>): (p: Hash<Value>)
    ensures Keys(p) == BaseParamKeys
      + (if Truthy(Lookup(options, "order_id")) then ["external_order_num"] else [])
      + (if Truthy(Lookup(options, "tax")) then ["tax"] else [])
    ensures forall k :: k in BaseParamKeys ==> Get(p, k) == Get(BaseParams(money, payment, options), k)
    ensures Truthy(Lookup(options, "order_id")) ==> Lookup(p, "external_order_num") == Lookup(options, "order_id")
    ensures Truthy(Lookup(options, "tax")) ==> Lookup(p, "tax") == Lookup(options, "tax")
  {
    var base := BaseParams(money, payment, options);
    var orderId := Lookup(options, "order_id");
    var params := if Truthy(orderId) then Store(base, "external_order_num", orderId) else base;
    assert Keys(params) == BaseParamKeys + (if Truthy(orderId) then ["external_order_num"] else []);
    assert "tax" !in Keys(params);
    var tax := Lookup(options, "tax");
    if Truthy(tax) then Store(params, "tax", tax) else params
  }

  /** The table's value for a listed provider code, otherwise the code itself, whatever its shape. */
  function ErrorCode(code: Value): (r: Value)
    ensures code == Str("bad_verification_value") ==> r == Str("incorrect_cvc")
    ensures code == Str("card_expired") ==> r == Str("expired_card")
    ensures code == Str("card_declined") ==> r == Str("card_declined")
    ensures code == Str("invalid_number") ==> r == Str("invalid_number")
    ensures !(code.Str? && code.s in {"bad_verification_value", "card_expired", "card_declined", "invalid_number"})
      ==> r == code
  {
    var mapped := if code.Str? then Get(StandardErrorCodeMapping, code.s) else None;
    match mapped
    case Some(normalized) => Str(normalized)
    case None => code
  }

  /** The normalised response for a parsed reply body; the only success test is the absence of "error". */
  function Commit(g: Gateway, body: Hash<Value>): (r: Result<Response, RubyError>)
    ensures r.Success? <==>
      !HasKey(body, "error") || Lookup(body, "error").Obj? || Lookup(body, "error").Str?
    ensures r.Success? ==> r.value.params == body && r.value.test == g.testMode
    ensures r.Success? ==> (r.value.success <==> !HasKey(body, "error"))
    ensures r.Success? && r.value.success ==>
      && r.value.message == Some(Str(SuccessMessage))
      && r.value.errorCode == None
      && r.value.authorization == Nilable(Lookup(body, "id"))
    ensures r.Success? && !r.value.success ==>
      && r.value.authorization == None
      && (Lookup(body, "error").Obj? ==>
           && r.value.message == Nilable(Lookup(Lookup(body, "error").fields, "message"))
           && r.value.errorCode == Nilable(ErrorCode(Lookup(Lookup(body, "error").fields, "code"))))
      && (Lookup(body, "error").Str? ==>
           && r.value.message == (if Occurs("message", Lookup(body, "error").s) then Some(Str("message")) else None)
           && r.value.errorCode == (if Occurs("code", Lookup(body, "error").s) then Some(Str("code")) else None))
  {
    if !HasKey(body, "error") then
      Success(Response(true, Some(Str(SuccessMessage)), body, g.testMode, None, Nilable(Lookup(body, "id"))))
    else
      var err := Lookup(body, "error");
      var message :- Index(err, "message");
      var code := Index(err, "code").value;
      Success(Response(false, Nilable(message), body, g.testMode, Nilable(ErrorCode(code)), None))
  }

  /** The body the HTTP layer returned, whatever the status: a rejected reply's body is used as is. */
  function ApiRequest(g: Gateway, transport: Transport, params: Hash<Value>): (body: Hash<Value>)
    ensures body == transport(PaymentsUrl(g), params).body
  {
    match transport(PaymentsUrl(g), params)
    case Delivered(body) => body
    case HttpError(body) => body
  }

  /** A purchase: build the payload, post it, normalise the reply. */
  function Purchase(g: Gateway, money: nat, payment: Instrument, options: Hash<Value>, transport: Transport)
    : (r: Result<Response, RubyError>)
    ensures r == Commit(g, transport(PaymentsUrl(g), BuildParams(money, payment, options)).body)
    ensures var body := transport(PaymentsUrl(g), BuildParams(money, payment, options)).body;
      && (!HasKey(body, "error") ==> r.Success? && r.value.success && r.value.params == body)
      && (r.Success? ==> r.value.test == g.testMode && (r.value.success <==> !HasKey(body, "error")))
  {
    Commit(g, ApiRequest(g, transport, BuildParams(money, payment, options)))
  }
}
