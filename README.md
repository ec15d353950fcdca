# Web payment demo: merchant, wallet and bank, modelled in Dafny

This project models the core of a three-party web payment demonstration.
A merchant's checkout totals a shopping cart and starts the wallet with an
INVOKE_WALLET message that carries a signed payment request. The wallet
(the payment agent) keeps the cards that the merchant accepts and then asks
for a PIN. The bank checks the attested and encrypted request and answers
with an authorization or an error. Every message is a JSON object. Each
class parses strictly: each property has its type, and any property left
unread is an error.

Modules, one per source class, plus three support modules:

- `Wrappers`: `Option` and `Result`.
- `Json`: JSON objects as maps, the typed getters and the unread-property
  check that the core uses, signatures as opaque values, and the base
  message's type.
- `Int32`: Java `int` wrap-around.
- `Decimal`: `BigDecimal` as an unscaled value and a scale, with
  `toPlainString` and `compareTo`.
- `Currencies`, `ErrorReturn`, `PaymentRequest`, `AuthorizationData`,
  `GenericAuthorizationRequest` and `FinalizeResponse`: the message
  classes. Their encoders and parsing constructors are functions on
  objects, with strict-parse characterisations and encode/parse round
  trips.
- `PaymentServlet`: the bank's `doPost`. It is a class whose field is the
  static reference-id counter. Its method is proved equal to a function
  that lays out the checks in their order.
- `CheckoutServlet`: the merchant's `doPost`. It is a class holding the
  static counter. Its cart loop is proved against a fold, and the fold
  is related to the exact sum.
- `PaymentAgent`: reading the invoke message, the card-enumeration loop
  (a method on the static card selection, proved against a put-fold that
  equals a plain filter), the choice of the next view, the PIN outcome,
  and the wallet's copy of the card-number grouping.

## Model

| member | source | states |
|---|---|---|
| Json.GetInt | webpayment.merchant/src/org/webpki/w2nb/webpayment/merchant/CheckoutServlet.java:60 | an `int` property is read only when present, an integer and within Java's `int` range; a missing key is a missing-property error |
| Json.GetBooleanConditional | webpayment.client/src/org/webpki/w2nb/webpayment/client/PaymentAgent.java:771 | an absent boolean reads as false; a present one must be a boolean |
| Json.GetStringConditional | webpayment.client/common/org/webpki/w2nb/webpayment/common/FinalizeResponse.java:39 | an absent string reads as none; a present one must be a string and is returned |
| Json.CheckForUnread | webpayment.client/common/org/webpki/w2nb/webpayment/common/PaymentRequest.java:71 | succeeds exactly when every property of the object was read; otherwise names the unread ones |
| Json.SetSignature | webpayment.client/common/org/webpki/w2nb/webpayment/common/PaymentRequest.java:53 | adds the signature property of the given kind and keeps every other property |
| Json.ParseBaseMessage | webpayment.client/common/org/webpki/w2nb/webpayment/common/GenericAuthorizationRequest.java:77 | accepts an object exactly when its message-type property names the expected message, and returns the object itself |
| Json.BaseMessageTypesDisjoint | webpayment.client/common/org/webpki/w2nb/webpayment/common/FinalizeResponse.java:37 | a base message of one type is refused by the parser of any other type |
| Int32.Wrap | webpayment.merchant/src/org/webpki/w2nb/webpayment/merchant/CheckoutServlet.java:66 | the Java `int` kept of an exact result: in range, congruent modulo 2^32, and unchanged when already in range |
| Int32.WrapAdd | webpayment.merchant/src/org/webpki/w2nb/webpayment/merchant/CheckoutServlet.java:56-66 | wrapping an intermediate sum does not change the wrapped final sum |
| Int32.Increment | webpayment.bank/src/org/webpki/w2nb/webpayment/bank/PaymentServlet.java:137 | `x++` on an `int`: one more, except that the largest `int` wraps to the smallest |
| Decimal.NatToStringValue | webpayment.bank/src/org/webpki/w2nb/webpayment/bank/PaymentServlet.java:137 | the decimal digits of a counter value read back as that value |
| Decimal.IntToStringInjective | webpayment.bank/src/org/webpki/w2nb/webpayment/bank/PaymentServlet.java:137 | different integers are written as different decimal strings |
| Decimal.PlainStringValue | webpayment.client/common/org/webpki/w2nb/webpayment/common/Currencies.java:43 | the digits before and after the point of `toPlainString` read back as the magnitude of the unscaled value |
| Decimal.PlainStringShape | webpayment.client/common/org/webpki/w2nb/webpayment/common/Currencies.java:43 | `toPlainString` with a positive scale is an optional minus sign, digits, a point and exactly `scale` digits |
| Decimal.PlainStringExample | webpayment.client/common/org/webpki/w2nb/webpayment/common/Currencies.java:43 | 1250 at scale 2 is written "12.50" |
| Decimal.CompareToSign | webpayment.bank/src/org/webpki/w2nb/webpayment/bank/PaymentServlet.java:98 | `compareTo` is negative, zero or positive exactly as the first amount's value (unscaled / 10^scale) is below, equal to or above the second's |
| Decimal.CompareToIgnoresScale | webpayment.bank/src/org/webpki/w2nb/webpayment/bank/PaymentServlet.java:98 | adding a trailing zero to an amount does not change how it compares: values, not representations, are compared |
| Currencies.ValueOf | webpayment.client/common/org/webpki/w2nb/webpayment/common/PaymentRequest.java:60-64 | `valueOf` accepts exactly the names USD, EUR and GBP, returning the currency of that name, and fails with an unknown-currency error otherwise |
| Currencies.ValueOfName | webpayment.client/common/org/webpki/w2nb/webpayment/common/Currencies.java:23-27 | every currency is found again by its own name |
| Currencies.ConvertAmountToString | webpayment.client/common/org/webpki/w2nb/webpayment/common/Currencies.java:39-42 | fails with "Incorrect decimals" exactly when the amount's scale differs from the currency's decimals |
| Currencies.ConvertedLayout | webpayment.client/common/org/webpki/w2nb/webpayment/common/Currencies.java:25-43 | the text is the symbol and the plain string; the symbol leads for USD and GBP and trails for EUR |
| Currencies.ConvertedDecimals | webpayment.client/common/org/webpki/w2nb/webpayment/common/Currencies.java:25-43 | an accepted amount has scale 2 and shows a point followed by exactly its two fraction digits, on whichever side the symbol stands |
| Currencies.ConvertedDigitsValue | webpayment.client/common/org/webpki/w2nb/webpayment/common/Currencies.java:39-43 | the two digits shown after the point, with the integer digits, read back as the amount's magnitude |
| Currencies.UsdExample | webpayment.client/common/org/webpki/w2nb/webpayment/common/Currencies.java:25-43 | example: 12.50 USD is shown as the dollar sign, a hair space and "12.50" |
| Currencies.ThreeDecimalsRefused | webpayment.client/common/org/webpki/w2nb/webpayment/common/Currencies.java:40-41 | an amount with three decimals is refused in every currency |
| ErrorReturn.ValuesAreTheCodes | webpayment.client/common/org/webpki/w2nb/webpayment/common/ErrorReturn.java:29-34 | the four errors are listed in order with codes 0 to 3, and no two share a code |
| ErrorReturn.ErrorReturn.GetClearText | webpayment.client/common/org/webpki/w2nb/webpayment/common/ErrorReturn.java:49-51 | the clear text is the one fixed for the error, and it is never empty |
| ErrorReturn.FirstWithCode | webpayment.client/common/org/webpki/w2nb/webpayment/common/ErrorReturn.java:70-75 | the search finds a listed error with the code, and finds none exactly when no listed error has it |
| ErrorReturn.CodeIsListed | webpayment.client/common/org/webpki/w2nb/webpayment/common/ErrorReturn.java:29-75 | a code is found exactly when it is between 0 and 3 |
| ErrorReturn.FromCode | webpayment.client/common/org/webpki/w2nb/webpayment/common/ErrorReturn.java:68-77 | the constructor from a code succeeds exactly for codes 0 to 3, keeps the description, and otherwise fails with an unknown-error-code error |
| ErrorReturn.FromCodeRoundTrip | webpayment.client/common/org/webpki/w2nb/webpayment/common/ErrorReturn.java:68-77 | building from an error's own code gives back that error and description |
| ErrorReturn.Lookup | webpayment.client/common/org/webpki/w2nb/webpayment/common/ErrorReturn.java:68-77 | the loop over the errors computes the same result as `FromCode` |
| ErrorReturn.Write | webpayment.client/common/org/webpki/w2nb/webpayment/common/ErrorReturn.java:58-61 | `write` adds the error code, adds the description only when there is one, and keeps every other property |
| PaymentRequest.Encode | webpayment.client/common/org/webpki/w2nb/webpayment/common/PaymentRequest.java:39-54 | the encoded request holds exactly the payment-request properties and an asymmetric-key signature |
| PaymentRequest.Parse | webpayment.client/common/org/webpki/w2nb/webpayment/common/PaymentRequest.java:56-72 | a parsed request keeps the object as its root, and the object holds exactly the payment-request properties with the parsed values |
| PaymentRequest.ParseSucceedsIff | webpayment.client/common/org/webpki/w2nb/webpayment/common/PaymentRequest.java:56-72 | parsing succeeds exactly on well-formed objects: every property present with its type, a known currency, an asymmetric-key signature, nothing else |
| PaymentRequest.ExtraPropertyRejected | webpayment.client/common/org/webpki/w2nb/webpayment/common/PaymentRequest.java:71 | any property outside the request's own makes parsing fail |
| PaymentRequest.UnknownCurrencyRejected | webpayment.client/common/org/webpki/w2nb/webpayment/common/PaymentRequest.java:60-64 | a currency name other than USD, EUR or GBP makes parsing fail |
| PaymentRequest.CertificateSignatureRejected | webpayment.client/common/org/webpki/w2nb/webpayment/common/PaymentRequest.java:69-70 | a signature that is not an asymmetric-key signature makes parsing fail |
| PaymentRequest.EncodeParse | webpayment.client/common/org/webpki/w2nb/webpayment/common/PaymentRequest.java:39-72 | parsing an encoded request gives back its payee, amount, currency, reference id, times, software and signature |
| PaymentRequest.RequestHashOfParsed | webpayment.client/common/org/webpki/w2nb/webpayment/common/PaymentRequest.java:121-125 | the hash of a parsed request is the hash of the object it was parsed from |
| AuthorizationData.Encode | webpayment.client/common/org/webpki/w2nb/webpayment/common/AuthorizationData.java:38-52 | the encoded data holds exactly its seven properties, embeds the payment request's root and carries a certificate-path signature |
| AuthorizationData.EncodeWithKey | webpayment.client/common/org/webpki/w2nb/webpayment/common/AuthorizationData.java:54-68 | the second `encode` stamps the time `now` and signs with a certificate-path signature under the given algorithm |
| AuthorizationData.Parse | webpayment.client/common/org/webpki/w2nb/webpayment/common/AuthorizationData.java:83-92 | parsed data comes from an object holding exactly the seven properties, with the parsed values |
| AuthorizationData.ParseSucceedsIff | webpayment.client/common/org/webpki/w2nb/webpayment/common/AuthorizationData.java:83-92 | parsing succeeds exactly on well-formed objects, including a well-formed embedded payment request |
| AuthorizationData.ExtraPropertyRejected | webpayment.client/common/org/webpki/w2nb/webpayment/common/AuthorizationData.java:91 | any property outside the seven makes parsing fail |
| AuthorizationData.EmbeddedRequestRejected | webpayment.client/common/org/webpki/w2nb/webpayment/common/AuthorizationData.java:84 | a bad embedded payment request fails parsing with the embedded request's own error |
| AuthorizationData.EncodeParse | webpayment.client/common/org/webpki/w2nb/webpayment/common/AuthorizationData.java:38-92 | parsing encoded data gives back the payment request, domain, account type, account id, time stamp and the wallet's software |
| AuthorizationData.Grouped | webpayment.client/common/org/webpki/w2nb/webpayment/common/AuthorizationData.java:70-81 | the grouped number is empty for an empty number and otherwise has one space per full group after the first |
| AuthorizationData.GroupedLayout | webpayment.client/common/org/webpki/w2nb/webpayment/common/AuthorizationData.java:70-81 | every fifth character of the grouped number is a space and the others are the digits of the number in order |
| AuthorizationData.GroupedAt | webpayment.client/common/org/webpki/w2nb/webpayment/common/AuthorizationData.java:70-81 | the account number's j-th character is printed at position j + j/4, after one space per full group of four before it |
| AuthorizationData.UngroupedGrouped | webpayment.client/common/org/webpki/w2nb/webpayment/common/AuthorizationData.java:70-81 | removing the separators from the grouped number gives back the number |
| AuthorizationData.GroupedEnds | webpayment.client/common/org/webpki/w2nb/webpayment/common/AuthorizationData.java:70-81 | the grouped number starts with the first digit and ends with the last one |
| AuthorizationData.FormatCardNumber | webpayment.client/common/org/webpki/w2nb/webpayment/common/AuthorizationData.java:70-81 | the loop builds exactly the grouped number |
| GenericAuthorizationRequest.Unsigned | webpayment.client/common/org/webpki/w2nb/webpayment/common/GenericAuthorizationRequest.java:44-51 | before signing, the request holds every property but the signature, with the message type, the payment request's root and the wallet's fixed identity |
| GenericAuthorizationRequest.Encode | webpayment.client/common/org/webpki/w2nb/webpayment/common/GenericAuthorizationRequest.java:39-56 | the encoded request holds exactly its nine properties, the wallet's fixed software id and version, and a certificate-path signature under the given algorithm |
| GenericAuthorizationRequest.Parse | webpayment.client/common/org/webpki/w2nb/webpayment/common/GenericAuthorizationRequest.java:76-87 | a parsed request keeps the object as root and its values; a wrong message type fails first |
| GenericAuthorizationRequest.ParseSucceedsIff | webpayment.client/common/org/webpki/w2nb/webpayment/common/GenericAuthorizationRequest.java:76-87 | parsing succeeds exactly on well-formed objects, with a certificate-path signature |
| GenericAuthorizationRequest.MissingPropertyRejected | webpayment.client/common/org/webpki/w2nb/webpayment/common/GenericAuthorizationRequest.java:77-85 | each of the message's properties is required |
| GenericAuthorizationRequest.ExtraPropertyRejected | webpayment.client/common/org/webpki/w2nb/webpayment/common/GenericAuthorizationRequest.java:86 | any property outside the message's own makes parsing fail |
| GenericAuthorizationRequest.EncodeParse | webpayment.client/common/org/webpki/w2nb/webpayment/common/GenericAuthorizationRequest.java:39-87 | parsing an encoded request gives back the payment request, domain, card type, card number, time and the wallet's identity |
| FinalizeResponse.RequestHashObject | webpayment.client/common/org/webpki/w2nb/webpayment/common/FinalizeResponse.java:95-98 | the request-hash object holds the SHA-256 algorithm id and the hash value, nothing else |
| FinalizeResponse.ParseRequestHash | webpayment.client/common/org/webpki/w2nb/webpayment/common/FinalizeResponse.java:95-98 | the request hash is read back exactly from an object of the form the encoder writes |
| FinalizeResponse.Parse | webpayment.client/common/org/webpki/w2nb/webpayment/common/FinalizeResponse.java:36-49 | after the message type, an error code selects the error form holding only code and description; otherwise the success form holds exactly its properties |
| FinalizeResponse.EncodeError | webpayment.client/common/org/webpki/w2nb/webpayment/common/FinalizeResponse.java:85-88 | the error encoding is the base message with the error code and optional description |
| FinalizeResponse.EncodeSuccess | webpayment.client/common/org/webpki/w2nb/webpayment/common/FinalizeResponse.java:90-103 | the success encoding holds the hash of the finalize request, the reference id, the time, the software and a signature of the signer's kind |
| FinalizeResponse.ErrorFormIff | webpayment.client/common/org/webpki/w2nb/webpayment/common/FinalizeResponse.java:38-41 | the error form is accepted exactly for codes 0 to 3, a string description if any, and no property beyond code and description |
| FinalizeResponse.SuccessFormIff | webpayment.client/common/org/webpki/w2nb/webpayment/common/FinalizeResponse.java:43-48 | without an error code, every success property is required with its type and no other is allowed |
| FinalizeResponse.UnknownErrorCodeRejected | webpayment.client/common/org/webpki/w2nb/webpayment/common/FinalizeResponse.java:39 | an error code naming no error fails parsing |
| FinalizeResponse.EncodeErrorParse | webpayment.client/common/org/webpki/w2nb/webpayment/common/FinalizeResponse.java:36-88 | parsing an encoded error response gives back the same error and description |
| FinalizeResponse.EncodeSuccessParse | webpayment.client/common/org/webpki/w2nb/webpayment/common/FinalizeResponse.java:36-103 | parsing an encoded success response gives back a success with the request hash, reference id, time and the bank's software |
| PaymentServlet.Describe | webpayment.bank/src/org/webpki/w2nb/webpayment/bank/PaymentServlet.java:142-144 | a reader failure is reported with its message, a success passes through |
| PaymentServlet.CardData | webpayment.bank/src/org/webpki/w2nb/webpayment/bank/PaymentServlet.java:104-121 | the card path yields encrypted card data whenever it succeeds |
| PaymentServlet.Authorize | webpayment.bank/src/org/webpki/w2nb/webpayment/bank/PaymentServlet.java:65-124 | authorization passes only for the JSON content type and an amount not above 1000000.00 |
| PaymentServlet.ErrorResponseFor | webpayment.bank/src/org/webpki/w2nb/webpayment/bank/PaymentServlet.java:142-144 | the error response is the ERROR_RESPONSE base message with the failure's message as description |
| PaymentServlet.Respond | webpayment.bank/src/org/webpki/w2nb/webpayment/bank/PaymentServlet.java:59-146 | a failed check gives its error response and leaves the counter alone; a passed check advances the counter by one (with `int` wrap-around) even when encoding then fails |
| PaymentServlet.Bank.constructor | webpayment.bank/src/org/webpki/w2nb/webpayment/bank/PaymentServlet.java:59 | the counter starts at 164006 and the decryption keys are tagged with their algorithms |
| PaymentServlet.Bank.DoPost | webpayment.bank/src/org/webpki/w2nb/webpayment/bank/PaymentServlet.java:61-152 | the response written and the counter afterwards are those of `Respond` for the counter before the request |
| PaymentServlet.ContentTypeCheckedFirst | webpayment.bank/src/org/webpki/w2nb/webpayment/bank/PaymentServlet.java:65-68 | a wrong content type is answered with the content-type message whatever the body, and the counter is unchanged |
| PaymentServlet.FirstFailureDecides | webpayment.bank/src/org/webpki/w2nb/webpayment/bank/PaymentServlet.java:77-100 | decryption, payer signature, merchant signature and ceiling are checked in that order, the first failure being the answer |
| PaymentServlet.AmountCeilingIsValue | webpayment.bank/src/org/webpki/w2nb/webpayment/bank/PaymentServlet.java:98-100 | the ceiling check refuses exactly the amounts worth more than 1000000, whatever their scale |
| PaymentServlet.AmountCeilingByValue | webpayment.bank/src/org/webpki/w2nb/webpayment/bank/PaymentServlet.java:98-100 | 1000000.00, 1000000 and 1000000.0000 pass the ceiling, and 1000000.01 does not |
| PaymentServlet.CardDataOnlyForAcquirers | webpayment.bank/src/org/webpki/w2nb/webpayment/bank/PaymentServlet.java:103-124 | card data is present exactly for acquirer-based account types, and only after a JSON reply of the Authority |
| PaymentServlet.AuthorityContentTypeChecked | webpayment.bank/src/org/webpki/w2nb/webpayment/bank/PaymentServlet.java:112-114 | an Authority reply that is not JSON fails with the content-type message |
| PaymentServlet.AuthorizedResponse | webpayment.bank/src/org/webpki/w2nb/webpayment/bank/PaymentServlet.java:132-138 | an authorized request is encoded with reserve false, its account type and id, the card data and the counter's reference id |
| PaymentServlet.ReferenceIdInjective | webpayment.bank/src/org/webpki/w2nb/webpayment/bank/PaymentServlet.java:137 | different counter values give different reference ids |
| PaymentServlet.IssuedIncreasing | webpayment.bank/src/org/webpki/w2nb/webpayment/bank/PaymentServlet.java:137 | over any run of requests without overflow, the reference numbers issued are strictly increasing and within the counter values consumed |
| CheckoutServlet.AddItem | webpayment.merchant/src/org/webpki/w2nb/webpayment/merchant/CheckoutServlet.java:59-67 | one cart item keeps the running total a Java `int` |
| CheckoutServlet.Tally | webpayment.merchant/src/org/webpki/w2nb/webpayment/merchant/CheckoutServlet.java:55-69 | the loop over the cart keeps the total a Java `int` |
| CheckoutServlet.TallyTotal | webpayment.merchant/src/org/webpki/w2nb/webpayment/merchant/CheckoutServlet.java:56-69 | the total is the exact sum of units times price, wrapped to 32 bits, and equals it when it fits |
| CheckoutServlet.TallyPrefixFailure | webpayment.merchant/src/org/webpki/w2nb/webpayment/merchant/CheckoutServlet.java:57-68 | an item that fails ends the whole checkout with that item's error |
| CheckoutServlet.TallyItems | webpayment.merchant/src/org/webpki/w2nb/webpayment/merchant/CheckoutServlet.java:61-64 | a SKU is saved exactly when some item with nonzero units names it, with the units of its last such item |
| CheckoutServlet.ZeroUnitsIgnored | webpayment.merchant/src/org/webpki/w2nb/webpayment/merchant/CheckoutServlet.java:61 | an item with zero units changes neither the saved items nor the total |
| CheckoutServlet.DuplicateSku | webpayment.merchant/src/org/webpki/w2nb/webpayment/merchant/CheckoutServlet.java:64-66 | example: a SKU listed twice keeps the later units but the total counts both items |
| CheckoutServlet.InvokeMessage | webpayment.merchant/src/org/webpki/w2nb/webpayment/merchant/CheckoutServlet.java:80-84 | the invoke message holds the three accepted card types in order, pull payment false and the payment request |
| CheckoutServlet.CheckoutFor | webpayment.merchant/src/org/webpki/w2nb/webpayment/merchant/CheckoutServlet.java:54-84 | an unreadable cart fails with its error; otherwise the checkout succeeds exactly when the encoder and the hash do, saves the tallied cart, prices the total in cents at scale 2 under the counter's reference id, and the invoke message and saved hash are those of the encoded request |
| CheckoutServlet.CheckoutRequestCarriesTotal | webpayment.merchant/src/org/webpki/w2nb/webpayment/merchant/CheckoutServlet.java:54-84 | with `PaymentRequest.encode` as the encoder, a readable cart always checks out, and the request in the invoke message reads back as USD with the tallied total and the counter's reference id, hashed as saved |
| CheckoutServlet.AmountDisplayable | webpayment.merchant/src/org/webpki/w2nb/webpayment/merchant/CheckoutServlet.java:72-74 | the priced amount always has USD's two decimals |
| CheckoutServlet.Merchant.constructor | webpayment.merchant/src/org/webpki/w2nb/webpayment/merchant/CheckoutServlet.java:50 | the counter starts at 1000000 |
| CheckoutServlet.Merchant.DoPost | webpayment.merchant/src/org/webpki/w2nb/webpayment/merchant/CheckoutServlet.java:52-89 | the loop computes `CheckoutFor` for the counter before the request; the counter advances (with `int` wrap-around) exactly when the cart is read, also when the encoder or the hash then fails |
| PaymentAgent.ParseInvocation | webpayment.client/src/org/webpki/w2nb/webpayment/client/PaymentAgent.java:769-772 | the invoke message is read when its type is INVOKE_WALLET; pull payment holds exactly when the flag is present and true |
| PaymentAgent.PullPaymentDefaultsToFalse | webpayment.client/src/org/webpki/w2nb/webpayment/client/PaymentAgent.java:771 | without the pull flag the wallet makes a push payment |
| PaymentAgent.ReadsMerchantInvocation | webpayment.client/src/org/webpki/w2nb/webpayment/client/PaymentAgent.java:769-772 | the merchant's invoke message is read exactly when its payment request is, with the three card types and pull payment off |
| PaymentAgent.MakeCard | webpayment.client/src/org/webpki/w2nb/webpayment/client/PaymentAgent.java:797-807 | the card keeps the credential's card type and number |
| PaymentAgent.Put | webpayment.client/src/org/webpki/w2nb/webpayment/client/PaymentAgent.java:828 | `put` appends a new handle, replaces the card of a known one in place, and keeps handles distinct |
| PaymentAgent.Select | webpayment.client/src/org/webpki/w2nb/webpayment/client/PaymentAgent.java:786-833 | the selection built on a map with distinct handles keeps them distinct |
| PaymentAgent.OfferedCardsMembers | webpayment.client/src/org/webpki/w2nb/webpayment/client/PaymentAgent.java:786-833 | an entry is offered exactly when it comes from a key with the extension, an accepted card type, supported algorithms and pull capability if asked |
| PaymentAgent.OfferedHandlesFromKeys | webpayment.client/src/org/webpki/w2nb/webpayment/client/PaymentAgent.java:786-828 | no entry carries a handle that no key has |
| PaymentAgent.SelectIsOfferedCards | webpayment.client/src/org/webpki/w2nb/webpayment/client/PaymentAgent.java:786-833 | from the empty map and with distinct handles, the selection is the offered keys in enumeration order with their cards |
| PaymentAgent.NextView | webpayment.client/src/org/webpki/w2nb/webpayment/client/PaymentAgent.java:836-843 | no card gives "No matching card!", one card goes straight to its authorization, more give the selection view |
| PaymentAgent.NoMatchingCard | webpayment.client/src/org/webpki/w2nb/webpayment/client/PaymentAgent.java:786-839 | the wallet ends with "No matching card!" exactly when no enumerated key is offered |
| PaymentAgent.Agent.constructor | webpayment.client/src/org/webpki/w2nb/webpayment/client/PaymentAgent.java:154 | the card selection starts empty |
| PaymentAgent.Agent.SelectCards | webpayment.client/src/org/webpki/w2nb/webpayment/client/PaymentAgent.java:786-833 | the enumeration loop with its inner loop and breaks builds exactly `Select` of the old selection |
| PaymentAgent.FormatCardNumber | webpayment.client/src/org/webpki/w2nb/webpayment/client/PaymentAgent.java:370-381 | the wallet's own copy builds exactly the grouped number |
| PaymentAgent.UserAuthorization | webpayment.client/src/org/webpki/w2nb/webpayment/client/PaymentAgent.java:864-954 | authorized exactly when not blocked and the PIN signs; "Card blocked due to previous PIN errors!" exactly when blocked before, or blocked by this wrong PIN; the tries left exactly on a wrong PIN that leaves the key unblocked; a key-store problem exactly on any other signing failure of an unblocked key |
| PaymentAgent.IncorrectPinShowsTriesLeft | webpayment.client/src/org/webpki/w2nb/webpayment/client/PaymentAgent.java:941-948 | the dialog shows retry limit minus error count between its fixed texts, and different counts give different texts |

## Left out

- Cryptography: signing, signature verification, decryption, hashing and
  card-data encryption. These are oracle parameters (`Services`,
  `MerchantServices`, `Signer`, `hash`). A signature is an opaque value of
  a known kind.
- JSON text: parsing bytes into objects and serialising them is not
  modelled. The cart is a sequence of JSON values, and the HTTP body is
  read by an oracle.
- Unseen classes: `Messages`, `RequestHash`, `Software`, `Payee`,
  `ReserveOrDebitRequest/Response`, `Authority`, `AccountTypes`, `SKS` and
  the JSON library are not part of this model.
  - The base message is taken to be one message-type property.
  - `RequestHash.parse` is taken to read exactly what
    `FinalizeResponse.encode` writes: algorithm and value, SHA-256 only.
  - `getCertificatePath` is taken to require a certificate-path signature.
- Time: `new Date()` is an explicit `now` parameter.
- Logging, HTTP headers and the HTML page are outputs only and are not
  modelled.
- The Swing user interface of the payment agent, its timer and threads,
  and the pull-mode encryption of the result message are not modelled.
  The payment agent's result message is not modelled either: it is built
  by an inline copy of `GenericAuthorizationRequest.encode` without the
  software properties, and the wallet sends it without reading it back.
- Concurrency: the servlets' static counters are modelled as fields of one
  object, updated without interleaving.
- A `null` content type, request body or exception message is not modelled.
- PaymentAgent.Agent.SelectCards: a malformed credential extension (one
  that is not JSON, has a missing property or names an unknown signature
  algorithm) throws in the source and reaches `sksProblem`. The model's
  extension is already well-formed. A key-store error other than
  "no extension" is not modelled either.
- PaymentServlet.Respond: exception messages come from the oracles or
  from `describe`, except the ones the servlet itself writes
  (content type, "Toomuch").
- CheckoutServlet.Merchant.DoPost: the session attributes and the HTML page
  are not modelled as state. In the source the saved cart is stored in the
  session before the encoder runs, so it stays stored when the encoder or
  the hash throws, and `HTML.checkoutPage` may still throw after the
  counter has advanced. The model returns the cart and the hash only with
  a successful checkout.
- CheckoutServlet.MerchantServices: the payment request encoder is a
  parameter because the servlet calls a five-argument `encode` with the
  payee's name, while `PaymentRequest.encode` as written takes a payee
  object and an expiry time as well (CheckoutServlet.java:72-76 against
  PaymentRequest.java:39-44). `EncodingServices` builds the encoder from
  `PaymentRequest.Encode` with a fixed payee object and expiry, and
  `CheckoutRequestCarriesTotal` is stated for it.
- CheckoutServlet.AddItem: the error of a cart entry that is not an object
  is modelled as a wrong-type error; the library's message is not part of
  this model.
- PaymentServlet.IssuedIncreasing: stated only for runs that do not reach
  the `int` limit; past it the counter wraps, as `Int32.Increment` states.
