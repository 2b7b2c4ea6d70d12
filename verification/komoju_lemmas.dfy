/** Properties of the Komoju request builder and response normaliser. */
module KomojuLemmas {
  import opened Wrappers
  import opened RubyHash
  import opened RubyValue
  import opened Komoju

  /** The option keys the builder reads; every other option is ignored. */
  const RecognizedOptionKeys: set<string> := {"description", "order_id", "tax", "currency", "email"}

  /** Two option hashes that agree on every recognised key. */
  predicate SameRecognizedOptions(o1: Hash<Value>, o2: Hash<Value>) {
    forall k :: k in RecognizedOptionKeys ==> Lookup(o1, k) == Lookup(o2, k)
  }

  /** A success body as the provider sends it: no "error" key and a payment id. */
  predicate SuccessBody(body: Hash<Value>) {
    !HasKey(body, "error") && Lookup(body, "id").Str?
  }

  /** An error body as the provider sends it: an "error" object with a string code and message. */
  predicate ErrorBody(body: Hash<Value>) {
    var err := Lookup(body, "error");
    && HasKey(body, "error")
    && err.Obj?
    && Lookup(err.fields, "code").Str?
    && Lookup(err.fields, "message").Str?
  }

  /** A card's details copy its number, expiry, verification value and names under the provider's names. */
  lemma CardDetailsCopyCard(card: CreditCard)
    ensures var d := CardPaymentDetails(card);
      && Lookup(d, "number") == card.number
      && Lookup(d, "month") == card.month
      && Lookup(d, "year") == card.year
      && Lookup(d, "verification_value") == card.verificationValue
      && Lookup(d, "given_name") == card.firstName
      && Lookup(d, "family_name") == card.lastName
  {
  }

  /**
   The details sent in a card purchase's payload are the card's: its type,
   number, expiry, verification value and names, with or without the e-mail merge.
   */
  lemma CardDetailsSent(money: nat, card: CreditCard, options: Hash<Value>)
    ensures var sent := Lookup(BuildParams(money, Card(card), options), "payment_details");
      && sent.Obj?
      && Lookup(sent.fields, "type") == Str("credit_card")
      && Lookup(sent.fields, "number") == card.number
      && Lookup(sent.fields, "month") == card.month
      && Lookup(sent.fields, "year") == card.year
      && Lookup(sent.fields, "verification_value") == card.verificationValue
      && Lookup(sent.fields, "given_name") == card.firstName
      && Lookup(sent.fields, "family_name") == card.lastName
  {
    PayloadBaseValues(money, Card(card), options);
    assert Lookup(BuildParams(money, Card(card), options), "payment_details")
      == Obj(PaymentDetails(Card(card), options));
    MergedCardDetailsCopyCard(card, options);
  }

  /** The e-mail merge leaves the card's own entries as they were. */
  lemma MergedCardDetailsCopyCard(card: CreditCard, options: Hash<Value>)
    ensures var d := PaymentDetails(Card(card), options);
      && Lookup(d, "type") == Str("credit_card")
      && Lookup(d, "number") == card.number
      && Lookup(d, "month") == card.month
      && Lookup(d, "year") == card.year
      && Lookup(d, "verification_value") == card.verificationValue
      && Lookup(d, "given_name") == card.firstName
      && Lookup(d, "family_name") == card.lastName
  {
    var d := PaymentDetails(Card(card), options);
    var c := CardPaymentDetails(card);
    CardDetailsCopyCard(card);
    assert BaseDetails(Card(card)) == c;
    assert forall k :: k in CardDetailKeys ==> Get(d, k) == Get(c, k);
  }

  /** A card's details are a well-formed hash, with or without the e-mail merge. */
  lemma CardDetailsValid(card: CreditCard, options: Hash<Value>)
    ensures Valid(PaymentDetails(Card(card), options))
  {
    assert Valid(CardPaymentDetails(card));
    var email := Lookup(options, "email");
    if Truthy(email) {
      StorePreservesValid(CardPaymentDetails(card), "email", email);
    }
  }

  /** The card details after the type, number and month are assigned. */
  function CardHead(card: CreditCard): Hash<Value> {
    Hash(["type", "number", "month"],
      map["type" := Str("credit_card"), "number" := card.number, "month" := card.month])
  }

  /** The card details after the year and verification value are also assigned. */
  function CardMiddle(card: CreditCard): Hash<Value> {
    Hash(["type", "number", "month", "year", "verification_value"],
      CardHead(card).values["year" := card.year]["verification_value" := card.verificationValue])
  }

  lemma AssignCardHead(card: CreditCard)
    ensures Store(Store(Store(Empty(), "type", Str("credit_card")), "number", card.number), "month", card.month)
      == CardHead(card)
  {
    var d1 := Store(Empty(), "type", Str("credit_card"));
    var d2 := Store(d1, "number", card.number);
    assert d2.order == ["type", "number"];
  }

  lemma AssignCardMiddle(card: CreditCard)
    ensures Store(Store(CardHead(card), "year", card.year), "verification_value", card.verificationValue)
      == CardMiddle(card)
  {
    var d4 := Store(CardHead(card), "year", card.year);
    assert d4.order == ["type", "number", "month", "year"];
  }

  lemma AssignCardNames(card: CreditCard)
    ensures Store(Store(CardMiddle(card), "given_name", card.firstName), "family_name", card.lastName)
      == CardPaymentDetails(card)
  {
    var d6 := Store(CardMiddle(card), "given_name", card.firstName);
    assert d6.order == CardDetailKeys[..6];
  }

  /**
   The card's details are what seven successive assignments to a fresh hash
   produce, one per card key, in the source's order.
   */
  lemma CardDetailsAssignedInTurn(card: CreditCard)
    ensures CardPaymentDetails(card) ==
      Store(Store(Store(Store(Store(Store(Store(Empty(),
        "type", Str("credit_card")),
        "number", card.number),
        "month", card.month),
        "year", card.year),
        "verification_value", card.verificationValue),
        "given_name", card.firstName),
        "family_name", card.lastName)
  {
    AssignCardHead(card);
    AssignCardMiddle(card);
    AssignCardNames(card);
  }

  /**
   A card's details carry exactly the seven card keys, in assignment order,
   plus "email" at the end when the option is given.
   */
  lemma CardDetailsKeys(card: CreditCard, options: Hash<Value>)
    ensures Keys(PaymentDetails(Card(card), options)) ==
      CardDetailKeys + (if Truthy(Lookup(options, "email")) then ["email"] else [])
  {
    var c := CardPaymentDetails(card);
    assert !HasKey(c, "email");
  }

  /** A key is present in a card's details exactly when it is a card key, or "email" with the option given. */
  lemma CardDetailsKeySet(card: CreditCard, options: Hash<Value>, k: string)
    ensures HasKey(PaymentDetails(Card(card), options), k) <==>
      k in CardDetailKeys || (k == "email" && Truthy(Lookup(options, "email")))
  {
    CardDetailsValid(card, options);
    CardDetailsKeys(card, options);
    HasKeyIffListed(PaymentDetails(Card(card), options), k);
  }

  /**
   A caller-built instrument hash is sent as given: without an e-mail option
   it is returned unchanged, and with one only "email" is set (in place when
   the hash already has it, appended otherwise).
   */
  lemma NonCardPassthrough(details: Hash<Value>, options: Hash<Value>)
    ensures var d := PaymentDetails(Raw(details), options);
      var email := Lookup(options, "email");
      && (!Truthy(email) ==> d == details)
      && (Truthy(email) ==> Lookup(d, "email") == email)
      && (forall k :: k != "email" ==> Get(d, k) == Get(details, k))
      && (HasKey(details, "email") ==> Keys(d) == Keys(details))
      && (Valid(details) ==> Valid(d))
  {
    var email := Lookup(options, "email");
    if Truthy(email) {
      if Valid(details) {
        StorePreservesValid(details, "email", email);
      }
    }
  }

  /** An e-mail option equal to the one the instrument hash already carries changes nothing. */
  lemma NonCardSameEmailIsIdentity(details: Hash<Value>, options: Hash<Value>)
    requires Get(details, "email") == Some(Lookup(options, "email"))
    ensures PaymentDetails(Raw(details), options) == details
  {
    var email := Lookup(options, "email");
    if Truthy(email) {
      StoreSameValue(details, "email", email);
    }
  }

  /** The four-key literal every payload starts from is a well-formed hash. */
  lemma BaseParamsValid(money: nat, payment: Instrument, options: Hash<Value>)
    ensures Valid(BaseParams(money, payment, options))
  {
    var p := BaseParams(money, payment, options);
    assert p.values.Keys == {"amount", "description", "payment_details", "currency"};
    assert Distinct(p.order);
  }

  /** Every payload is a well-formed hash. */
  lemma PayloadValid(money: nat, payment: Instrument, options: Hash<Value>)
    ensures Valid(BuildParams(money, payment, options))
  {
    var base := BaseParams(money, payment, options);
    BaseParamsValid(money, payment, options);
    var orderId, tax := Lookup(options, "order_id"), Lookup(options, "tax");
    var withOrder := if Truthy(orderId) then Store(base, "external_order_num", orderId) else base;
    if Truthy(orderId) {
      StorePreservesValid(base, "external_order_num", orderId);
    }
    if Truthy(tax) {
      StorePreservesValid(withOrder, "tax", tax);
    }
  }

  /**
   A payload key is present exactly when it is one of the four base keys, or
   the order number or tax with its option given: nothing else is added.
   */
  lemma PayloadKeySet(money: nat, payment: Instrument, options: Hash<Value>, k: string)
    ensures HasKey(BuildParams(money, payment, options), k) <==>
      || k in BaseParamKeys
      || (k == "external_order_num" && Truthy(Lookup(options, "order_id")))
      || (k == "tax" && Truthy(Lookup(options, "tax")))
  {
    PayloadValid(money, payment, options);
    HasKeyIffListed(BuildParams(money, payment, options), k);
  }

  /** The four base keys carry the amount, the description as given, the details and the currency. */
  lemma PayloadBaseValues(money: nat, payment: Instrument, options: Hash<Value>)
    ensures var p := BuildParams(money, payment, options);
      && Lookup(p, "amount") == Int(money)
      && Lookup(p, "description") == Lookup(options, "description")
      && Lookup(p, "payment_details") == Obj(PaymentDetails(payment, options))
      && Lookup(p, "currency") == if Truthy(Lookup(options, "currency")) then Lookup(options, "currency") else Str("JPY")
  {
  }

  /** Options other than the five recognised ones do not influence the payload. */
  lemma UnrecognizedOptionsIgnored(money: nat, payment: Instrument, o1: Hash<Value>, o2: Hash<Value>)
    requires SameRecognizedOptions(o1, o2)
    ensures BuildParams(money, payment, o1) == BuildParams(money, payment, o2)
  {
  }

  /** Normalising a code twice is the same as normalising it once. */
  lemma ErrorCodeIdempotent(code: Value)
    ensures ErrorCode(ErrorCode(code)) == ErrorCode(code)
  {
  }

  /** Only two provider codes are renamed; every other value, listed or not, is kept. */
  lemma ErrorCodeRenames(code: Value)
    ensures ErrorCode(code) != code <==> code == Str("bad_verification_value") || code == Str("card_expired")
  {
  }

  /** The response invariant: exactly one of authorization and error code can be set. */
  lemma ResponseExclusive(g: Gateway, body: Hash<Value>)
    ensures var r := Commit(g, body);
      r.Success? ==> r.value.authorization.None? || r.value.errorCode.None?
  {
  }

  /**
   For a success body with a string id, or an error body with a string code
   and message, the normaliser never raises, and authorization is set exactly
   on success and the error code exactly on failure.
   */
  lemma WellShapedBodies(g: Gateway, body: Hash<Value>)
    requires SuccessBody(body) || ErrorBody(body)
    ensures var r := Commit(g, body);
      && r.Success?
      && (r.value.authorization.Some? <==> r.value.success)
      && (r.value.errorCode.Some? <==> !r.value.success)
      && (r.value.success ==> r.value.authorization == Some(Lookup(body, "id")))
      && (!r.value.success ==>
            && r.value.message == Some(Lookup(Lookup(body, "error").fields, "message"))
            && r.value.errorCode == Some(ErrorCode(Lookup(Lookup(body, "error").fields, "code"))))
  {
    if ErrorBody(body) {
      var code := Lookup(Lookup(body, "error").fields, "code");
      assert ErrorCode(code).Str?;
    }
  }

  /**
   The HTTP status does not matter: a body that came back with a rejected
   request yields the same purchase result as the same body delivered normally.
   */
  lemma HttpStatusIgnored(
    g: Gateway, money: nat, payment: Instrument, options: Hash<Value>, t1: Transport, t2: Transport)
    requires var sent := (PaymentsUrl(g), BuildParams(money, payment, options));
      t1(sent.0, sent.1).Delivered? && t2(sent.0, sent.1) == HttpError(t1(sent.0, sent.1).body)
    ensures Purchase(g, money, payment, options, t1) == Purchase(g, money, payment, options, t2)
  {
  }

  /**
   A purchase answered with a well-shaped body never raises. An error body gives
   a failed response carrying the provider's message and the mapped code; a
   success body gives the fixed message and the payment id as authorization.
   */
  lemma PurchaseOutcomes(g: Gateway, money: nat, payment: Instrument, options: Hash<Value>, transport: Transport)
    requires var body := transport(PaymentsUrl(g), BuildParams(money, payment, options)).body;
      SuccessBody(body) || ErrorBody(body)
    ensures var body := transport(PaymentsUrl(g), BuildParams(money, payment, options)).body;
      var r := Purchase(g, money, payment, options, transport);
      && r.Success?
      && r.value.params == body
      && (ErrorBody(body) ==>
            && !r.value.success
            && r.value.authorization == None
            && r.value.message == Some(Lookup(Lookup(body, "error").fields, "message"))
            && r.value.errorCode == Some(ErrorCode(Lookup(Lookup(body, "error").fields, "code"))))
      && (SuccessBody(body) ==>
            && r.value.success
            && r.value.message == Some(Str(SuccessMessage))
            && r.value.errorCode == None
            && r.value.authorization == Some(Lookup(body, "id")))
  {
    WellShapedBodies(g, transport(PaymentsUrl(g), BuildParams(money, payment, options)).body);
  }

  /** The endpoint is determined by, and determines, the test-mode flag. */
  lemma EndpointSelection(g1: Gateway, g2: Gateway)
    ensures PaymentsUrl(g1) == PaymentsUrl(g2) <==> g1.testMode == g2.testMode
  {
    if g1.testMode != g2.testMode {
      assert |PaymentsUrl(g1)| != |PaymentsUrl(g2)|;
    }
  }
}
