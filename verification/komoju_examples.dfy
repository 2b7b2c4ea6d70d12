/** The fixtures and expected outcomes of the gateway's remote tests, replayed on the model. */
module KomojuExamples {
  import opened Wrappers
  import opened RubyHash
  import opened RubyValue
  import opened Komoju
  import opened KomojuLemmas

  const Sandbox: Gateway := Gateway(Str("sk_test"), true)

  /** The konbini instrument hash of the remote tests. */
  const Konbini: Hash<Value> := Hash(["type", "store", "email", "phone"], map[
    "type" := Str("konbini"),
    "store" := Str("lawson"),
    "email" := Str("test@example.com"),
    "phone" := Str("09011112222")])

  /** The purchase options of the remote tests, with a fixed order id. */
  const TestOptions: Hash<Value> := Hash(["order_id", "description", "tax"], map[
    "order_id" := Str("order-1"),
    "description" := Str("Store Purchase"),
    "tax" := Str("10.0")])

  /** A success body of the payments endpoint. */
  const AcceptedBody: Hash<Value> := Hash(["id", "amount", "succeeded"], map[
    "id" := Str("pay_1"), "amount" := Int(100), "succeeded" := Bool(true)])

  /** An error body of the payments endpoint for a declined card. */
  const DeclinedBody: Hash<Value> := Hash(["error"], map["error" := Obj(Hash(["code", "message"], map[
    "code" := Str("card_declined"), "message" := Str("The card was declined.")]))])

  /** A provider that accepts every payment. */
  const Accepting: Transport := (url: string, params: Hash<Value>) => Delivered(AcceptedBody)

  /** A provider that declines every payment with an HTTP error status. */
  const Declining: Transport := (url: string, params: Hash<Value>) => HttpError(DeclinedBody)

  /** The test options name an order and a tax amount, but no e-mail and no currency. */
  lemma TestOptionsRead()
    ensures Lookup(TestOptions, "order_id") == Str("order-1")
    ensures Lookup(TestOptions, "tax") == Str("10.0")
    ensures Lookup(TestOptions, "email") == Nil
    ensures Lookup(TestOptions, "currency") == Nil
  {
  }

  /** The konbini hash is sent verbatim. */
  lemma KonbiniDetails()
    ensures PaymentDetails(Raw(Konbini), TestOptions) == Konbini
  {
    TestOptionsRead();
  }

  /** The konbini payload carries the four base keys, then the order number and the tax. */
  lemma KonbiniPayloadKeys()
    ensures Keys(BuildParams(100, Raw(Konbini), TestOptions)) ==
      ["amount", "description", "payment_details", "currency", "external_order_num", "tax"]
  {
    TestOptionsRead();
  }

  /** The konbini payload's values: the hash itself, the default currency, the order id and the tax. */
  lemma KonbiniPayloadValues()
    ensures var p := BuildParams(100, Raw(Konbini), TestOptions);
      && Lookup(p, "payment_details") == Obj(Konbini)
      && Lookup(p, "currency") == Str("JPY")
      && Lookup(p, "external_order_num") == Str("order-1")
      && Lookup(p, "tax") == Str("10.0")
  {
    TestOptionsRead();
    KonbiniDetails();
    PayloadBaseValues(100, Raw(Konbini), TestOptions);
  }

  /** Without order id or tax the payload has only the four base keys, and the description is nil. */
  lemma BarePayload(card: CreditCard)
    ensures var p := BuildParams(100, Card(card), Empty());
      && Keys(p) == ["amount", "description", "payment_details", "currency"]
      && Lookup(p, "description") == Nil
  {
    PayloadBaseValues(100, Card(card), Empty());
  }

  /** The success body normalises to a success carrying the payment id. */
  lemma AcceptedBodyNormalised()
    ensures Commit(Sandbox, AcceptedBody) ==
      Success(Response(true, Some(Str("Transaction succeeded")), AcceptedBody, true, None, Some(Str("pay_1"))))
  {
  }

  /** The declined body normalises to a failure with the card_declined code and no authorization. */
  lemma DeclinedBodyNormalised()
    ensures Commit(Sandbox, DeclinedBody) ==
      Success(Response(false, Some(Str("The card was declined.")), DeclinedBody, true, Some(Str("card_declined")), None))
  {
    var err := Lookup(DeclinedBody, "error");
    assert Lookup(err.fields, "message") == Str("The card was declined.");
    assert Lookup(err.fields, "code") == Str("card_declined");
  }

  /** A purchase against the accepting provider succeeds with the payment id as authorization. */
  lemma AcceptedPurchase(card: CreditCard)
    ensures Purchase(Sandbox, 100, Card(card), TestOptions, Accepting) ==
      Success(Response(true, Some(Str("Transaction succeeded")), AcceptedBody, true, None, Some(Str("pay_1"))))
  {
    AcceptedBodyNormalised();
  }

  /** A purchase against the declining provider fails with card_declined, despite the HTTP error status. */
  lemma DeclinedPurchase(card: CreditCard)
    ensures Purchase(Sandbox, 100, Card(card), TestOptions, Declining) ==
      Success(Response(false, Some(Str("The card was declined.")), DeclinedBody, true, Some(Str("card_declined")), None))
  {
    DeclinedBodyNormalised();
  }

  /** Table codes are translated; an unknown code passes through. */
  lemma ErrorCodeExamples()
    ensures ErrorCode(Str("bad_verification_value")) == Str("incorrect_cvc")
    ensures ErrorCode(Str("card_declined")) == Str("card_declined")
    ensures ErrorCode(Str("unknown_xyz")) == Str("unknown_xyz")
  {
  }

  /** An "error" that is a number makes the normaliser raise rather than answer. */
  lemma MalformedErrorRaises()
    ensures Commit(Sandbox, Hash(["error"], map["error" := Int(500)])) == Failure(TypeError)
  {
  }

  /**
   An "error" that is a string is searched for the words "message" and "code":
   here only "code" occurs, so the message is nil and the code is the word itself.
   */
  lemma StringErrorSearched()
    ensures var r := Commit(Sandbox, Hash(["error"], map["error" := Str("no code")]));
      && r.Success?
      && !r.value.success
      && r.value.message == None
      && r.value.errorCode == Some(Str("code"))
  {
    assert !Occurs("message", "no code") by {
      assert "no code"[0] != "message"[0];
      assert |"no code"[1..]| < |"message"|;
    }
    assert Occurs("code", "no code") by {
      assert "no code"[1..][1..][1..] == "code";
    }
  }
}
