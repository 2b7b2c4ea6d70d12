# Komoju gateway adapter, modelled in Dafny

This project models the Komoju payment-gateway adapter of ActiveMerchant
(`KomojuGateway`). The adapter does two things for a purchase:

- **Request builder.** It turns an amount in minor units, a payment
  instrument and an options hash into the payment-creation payload. The
  instrument is either a credit card or a hash the caller built itself, such as
  konbini or bank transfer.
- **Response normaliser.** It turns the parsed reply of the provider into a
  response with these parts:
  - a success flag;
  - a message;
  - the raw body;
  - the test-mode flag;
  - an error code, mapped through a fixed table;
  - an authorization, which is the payment id.

Files:

- `wrappers.dfy`: `Option` and `Result`.
- `ruby_hash.dfy`: a Ruby `Hash`, kept as its key order plus a key-to-value
  map.
  - `Store` is `Hash#[]=`. It overwrites a present key in place and appends a
    new key at the end.
  - The key order is what JSON serialisation follows.
- `ruby_value.dfy`: the Ruby values the adapter handles (`nil`, booleans,
  integers, strings, arrays, hashes).
  - `Truthy` is Ruby truthiness.
  - `Or` is `||`.
  - `Lookup` is `hash[key]`, which gives `nil` when the key is absent.
  - `Index` is `[]` sent to a value of any parsed shape.
- `komoju.dfy`: the gateway (`Komoju`): constants, instruments, payload
  building, error-code table, normalisation, purchase.
- `komoju_lemmas.dfy`: properties of the builder and the normaliser.
- `komoju_examples.dfy`: the fixtures and expected outcomes of the remote
  tests, replayed on the model.

Ruby's `nil` appears as `Nil` inside values. In the response's optional fields
it appears as `None`. An option is "given" when its value is truthy, which is
exactly what `if options[:x]` tests in the source. So an option set to `nil` or
`false` counts as not given.

The provider's API documentation and the code differ in two places. The
model follows the code:

- **Missing fields in a reply.**
  - An error body whose `error` hash has no `code` yields a `nil` error code
    (komoju.rb:83). So "error code present iff failure" holds only for error
    bodies that carry a code.
  - Likewise, a success body without `id` yields a `nil` authorization
    (komoju.rb:84). So "authorization present iff success" holds only for
    success bodies that carry an id.
  - `KomojuLemmas.WellShapedBodies` proves both for bodies that carry them.
- **Malformed error bodies.** The provider documents error bodies as carrying
  `code` and `message`. komoju.rb:80 and :83 read both without checking, and
  the model follows Ruby's `[]` on whatever `error` holds:
  - a hash is looked up;
  - a string yields the key itself when the key occurs in it, and `nil`
    otherwise;
  - any other value raises, which the model returns as a `Failure`.

## Model

| member | source | states |
|---|---|---|
| `Komoju.Initialize` | lib/active_merchant/billing/gateways/komoju.rb:22-26 | Construction succeeds exactly when a `login` option is present. The API key is the login, and a missing login is an `ArgumentError`. |
| `Komoju.Url` | lib/active_merchant/billing/gateways/komoju.rb:91-93 | The API base is `https://sandbox.komoju.com/api/v1` in test mode and `https://komoju.com/api/v1` otherwise, as komoju.rb:6-7 set them. |
| `Komoju.PaymentsUrl` | lib/active_merchant/billing/gateways/komoju.rb:69 | Payments are posted to `https://sandbox.komoju.com/api/v1/payments` in test mode and to `https://komoju.com/api/v1/payments` otherwise. |
| `KomojuLemmas.EndpointSelection` | lib/active_merchant/billing/gateways/komoju.rb:91-93 | Two gateways post to the same endpoint iff they agree on test mode. |
| `Komoju.CardPaymentDetails` | lib/active_merchant/billing/gateways/komoju.rb:54-64 | A card's details have exactly the keys type, number, month, year, verification_value, given_name, family_name, in that order. The type is `credit_card`. |
| `KomojuLemmas.CardDetailsAssignedInTurn` | lib/active_merchant/billing/gateways/komoju.rb:54-64 | A card's details equal the hash produced by assigning type, number, month, year, verification value, first name and last name, one after another, to an empty hash. |
| `KomojuLemmas.CardDetailsCopyCard` | lib/active_merchant/billing/gateways/komoju.rb:57-62 | Number, month, year and verification value are the card's own. `given_name` is the first name and `family_name` the last name. |
| `KomojuLemmas.MergedCardDetailsCopyCard` | lib/active_merchant/billing/gateways/komoju.rb:43-64 | After the e-mail merge, a card's details still hold type `credit_card` and the card's number, month, year, verification value, first name and last name. |
| `KomojuLemmas.CardDetailsSent` | lib/active_merchant/billing/gateways/komoju.rb:43-64 | In a card purchase's payload, `payment_details` (komoju.rb:32) is a hash with type `credit_card` and the card's number, month, year and verification value. `given_name` is the first name and `family_name` the last name, with or without the e-mail merge. |
| `KomojuLemmas.CardDetailsKeys` | lib/active_merchant/billing/gateways/komoju.rb:43-64 | For a card, the details' keys are the seven card keys, followed by `email` iff the e-mail option is given. |
| `KomojuLemmas.CardDetailsKeySet` | lib/active_merchant/billing/gateways/komoju.rb:43-64 | A key is present in a card's details iff it is one of the seven card keys, or it is `email` and the e-mail option is given. |
| `KomojuLemmas.CardDetailsValid` | lib/active_merchant/billing/gateways/komoju.rb:43-64 | A card's details never list a key twice, with or without the e-mail merge. |
| `Komoju.BaseDetails` | lib/active_merchant/billing/gateways/komoju.rb:44-48 | A card is turned into its card details: the seven card keys with type `credit_card`, holding the card's values. Any other instrument is used as it is. |
| `Komoju.PaymentDetails` | lib/active_merchant/billing/gateways/komoju.rb:43-52 | For either instrument kind: with an e-mail option, `email` holds the option's value; every other key keeps the value the instrument gave it; without the option, the details are the instrument's own; `email` is appended only if not already present. |
| `KomojuLemmas.NonCardPassthrough` | lib/active_merchant/billing/gateways/komoju.rb:43-52 | A caller-built hash is sent unchanged without an e-mail option. With one, only `email` changes: it is set in place when the hash already has it. Well-formed hashes stay well formed. |
| `KomojuLemmas.NonCardSameEmailIsIdentity` | lib/active_merchant/billing/gateways/komoju.rb:50 | When the hash already holds the option's e-mail, the merge leaves it identical, including key order. |
| `Komoju.BaseParams` | lib/active_merchant/billing/gateways/komoju.rb:29-34 | The payload starts with keys amount, description, payment_details, currency, in that order. The amount is unscaled, the description is the option as given (possibly nil), and the currency is the option or else `JPY`. |
| `RubyValue.Or` | lib/active_merchant/billing/gateways/komoju.rb:33 | `options[:currency] || currency(money)` gives the option when it is truthy, and the default otherwise. |
| `Komoju.BuildParams` | lib/active_merchant/billing/gateways/komoju.rb:28-37 | The payload keys are the four base keys, then `external_order_num` iff `order_id` is given, then `tax` iff `tax` is given, each holding its option's value. The base keys keep their values. |
| `KomojuLemmas.PayloadKeySet` | lib/active_merchant/billing/gateways/komoju.rb:29-36 | A key is in the payload iff it is a base key, or it is `external_order_num` with `order_id` given, or it is `tax` with `tax` given. Nothing else is added. |
| `KomojuLemmas.PayloadBaseValues` | lib/active_merchant/billing/gateways/komoju.rb:29-34 | In the final payload, amount, description, payment_details and currency hold the values komoju.rb:29-34 assigns. |
| `KomojuLemmas.BaseParamsValid` | lib/active_merchant/billing/gateways/komoju.rb:29-34 | The base payload lists each of its keys once, and lists exactly the keys it maps. |
| `KomojuLemmas.PayloadValid` | lib/active_merchant/billing/gateways/komoju.rb:29-36 | Every payload lists each of its keys once, after the optional keys are added. |
| `KomojuLemmas.UnrecognizedOptionsIgnored` | lib/active_merchant/billing/gateways/komoju.rb:28-36 | Two option hashes that agree on description, order_id, tax, currency and email produce the same payload. |
| `Komoju.ErrorCode` | lib/active_merchant/billing/gateways/komoju.rb:87-89 | The four table codes map to incorrect_cvc, expired_card, card_declined and invalid_number. Any other value, including non-strings, passes through unchanged. |
| `KomojuLemmas.ErrorCodeIdempotent` | lib/active_merchant/billing/gateways/komoju.rb:15-20 | Mapping a code twice is the same as mapping it once. |
| `KomojuLemmas.ErrorCodeRenames` | lib/active_merchant/billing/gateways/komoju.rb:15-20 | A code is changed iff it is `bad_verification_value` or `card_expired`. |
| `Komoju.Commit` | lib/active_merchant/billing/gateways/komoju.rb:77-85 | A response is produced iff the body has no `error` key, or its `error` is a hash or a string; otherwise it raises. The response succeeds iff there is no `error` key. On success the message is fixed, the authorization is the body's `id` (nil as None), and there is no error code. On failure there is no authorization. For a hash `error`, the message and mapped code are its `message` and `code` entries. For a string `error`, they are the words `message` and `code` when those occur in it, and None otherwise. The raw body and the test flag are returned unchanged. |
| `RubyValue.Nilable` | lib/active_merchant/billing/gateways/komoju.rb:80-84 | A `nil` message, error code or authorization is an absent field, and any other value is present unchanged. |
| `KomojuLemmas.ResponseExclusive` | lib/active_merchant/billing/gateways/komoju.rb:81-84 | Authorization and error code are never both set. |
| `KomojuLemmas.WellShapedBodies` | lib/active_merchant/billing/gateways/komoju.rb:79-84 | For success bodies with a string `id`, and error bodies whose `error` hash has string `code` and `message`, normalisation does not raise. The authorization is set iff success, and the error code is set iff failure. The authorization is the body's `id`, and the message and code are the `error` hash's `message` and mapped `code`. |
| `Komoju.ApiRequest` | lib/active_merchant/billing/gateways/komoju.rb:66-75 | The body handed back is the reply's body, whether the HTTP layer delivered it or rescued it from an error status. |
| `KomojuLemmas.HttpStatusIgnored` | lib/active_merchant/billing/gateways/komoju.rb:68-72 | A purchase whose reply body came with an error status gives the same result as one that received the same body normally. |
| `Komoju.Purchase` | lib/active_merchant/billing/gateways/komoju.rb:28-39 | A purchase is the normalisation of whatever body the transport returns for the built payload, posted to the payments endpoint, whatever the HTTP status. It succeeds iff that body has no `error` key, and an error-free body always yields a response carrying that body. |
| `KomojuLemmas.PurchaseOutcomes` | lib/active_merchant/billing/gateways/komoju.rb:28-39 | For any purchase answered with a well-shaped body, no exception is raised. An error body gives a failed response with the provider's message, the mapped code and no authorization. A success body gives the message "Transaction succeeded", no error code, and the payment id as authorization. |
| `RubyHash.Store` | lib/active_merchant/billing/gateways/komoju.rb:35-36 | After assignment the key maps to the new value. A key already present keeps its position, and a new key is appended. |
| `RubyHash.StorePreservesValid` | lib/active_merchant/billing/gateways/komoju.rb:50 | Assignment never lists a key twice. |
| `RubyValue.Index` | lib/active_merchant/billing/gateways/komoju.rb:80 | Reading `message` out of `error` gives an answer iff `error` is a hash or a string. A hash yields its entry, or nil. A string yields the key itself iff some suffix of the string starts with the key, and nil otherwise. nil and booleans raise `NoMethodError`; integers and arrays raise `TypeError`. |
| `RubyValue.OccursIffSomeSuffix` | lib/active_merchant/billing/gateways/komoju.rb:80 | The String#[] search used when `error` is a string finds the key iff some suffix of the string starts with it. |
| `KomojuExamples.StringErrorSearched` | lib/active_merchant/billing/gateways/komoju.rb:80-83 | An `error` string `"no code"` gives a failed response with no message and the error code `code`, because only that word occurs in it. |
| `KomojuExamples.KonbiniPayloadKeys` | test/remote/gateways/remote_komoju_test.rb:45-51 | With the test options, the konbini payload's keys are the four base keys, then `external_order_num`, then `tax`. |
| `KomojuExamples.KonbiniPayloadValues` | test/remote/gateways/remote_komoju_test.rb:11-32 | The konbini hash is sent verbatim. The currency is JPY, and the order id and tax are copied. |
| `KomojuExamples.AcceptedPurchase` | test/remote/gateways/remote_komoju_test.rb:35-43 | A purchase the provider accepts succeeds, with the payment id as authorization and message "Transaction succeeded". |
| `KomojuExamples.DeclinedPurchase` | test/remote/gateways/remote_komoju_test.rb:60-65 | A declined card fails with error code `card_declined` and no authorization, even though the reply came with an error status. |

## Left out

- HTTP transport (`ssl_post`, TLS, the `ResponseError` rescue) is a caller-supplied `Transport` function. It returns either a delivered body or the body of a rejected request.
- JSON encoding and parsing are not modelled: payloads and bodies are already-structured values. JSON floating-point numbers are not represented.
- `headers` (komoju.rb:95-102) is not modelled. It depends on Base64 encoding and on the library version string, neither of which is part of this model.
- `amount(money)` and `currency(money)` belong to the `Gateway` base class, which is not part of this model. With the `:cents` money format the amount is modelled as the integer minor-unit amount, passed through unscaled. The base class's rendering of that integer as a decimal string is left out. `currency(money)` can also take the currency from a money object; for the integer amounts modelled here it is the default `JPY` (komoju.rb:9, :33).
- Amounts are taken as natural numbers (`money: nat`). `purchase` passes `money` to `amount` without a check of its own. What the base class does with a negative amount, or with a money object, is not modelled.
- `requires!` and `test?` belong to the base class. The login check is modelled as key presence, and test mode is a field of the gateway record.
- Ruby symbols and strings are not distinguished as hash keys. The model assumes that a caller-built instrument hash uses symbol keys, as the payload does. If such a hash carried a string `"email"` key, `details[:email] = …` (komoju.rb:50) would add a second entry, and the JSON would carry `email` twice. The model overwrites the one entry in place instead.
- A non-card instrument is modelled as a hash. Another object would fail at the e-mail assignment (komoju.rb:50) when `options[:email]` is given. Without that option it would go to the JSON encoder untouched. Neither case is modelled.
- The in-place mutation of the caller's instrument hash at komoju.rb:50 is modelled as a pure assignment that returns the new hash. The payload is the same either way.
- Only the response fields the adapter sets are modelled. The other fields of ActiveMerchant's `Response` are not used by this gateway.
- The `supported_countries`, `supported_cardtypes`, `homepage_url` and `display_name` settings (komoju.rb:8-13) are metadata with no behaviour.
