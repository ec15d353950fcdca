/** The bank's payment servlet: it receives the merchant's attested and
    encrypted reserve-or-debit request, runs a fixed sequence of checks,
    and answers either with the authorized response, numbered from a
    process-wide reference-id counter, or with an ERROR_RESPONSE message
    describing the first check that failed. */
module PaymentServlet {
  import opened Wrappers
  import opened Json
  import opened Decimal
  import Int32
  import PaymentRequest
  import AuthorizationData

  /** The counter's value when the servlet class is loaded. */
  const INITIAL_REFERENCE_ID: int := 164006

  /** The largest amount the bank authorizes: 1000000.00. */
  const AMOUNT_CEILING: Amount := Amount(100000000, 2)

  const TOO_MUCH: string := "Toomuch"

  /** The message of the exception thrown for an unexpected content type. */
  function ContentTypeMessage(found: string): string {
    "Content-Type must be \"" + JSON_CONTENT_TYPE + "\" , found: " + found
  }

  /** One of the bank's decryption keys and the key-encryption algorithm it
      is tagged with when the bank starts. */
  datatype DecryptionKey = DecryptionKey(isRsa: bool, keyEncryptionAlgorithm: string)

  /** An RSA key is tagged RSA-OAEP-256, any other key ECDH-ES. */
  predicate KeysTagged(keys: seq<DecryptionKey>) {
    forall k :: k in keys ==> k.keyEncryptionAlgorithm == if k.isRsa then RSA_OAEP_256 else ECDH_ES
  }

  /** What the servlet sees of an HTTP exchange. */
  datatype HttpMessage = HttpMessage(contentType: string, data: Bytes)

  /** The reserve-or-debit request as read from the body: the encrypted
      payload, the client's address and the acquirer's Authority URL. */
  datatype AttestedRequest = AttestedRequest(payload: Object, clientIpAddress: string, acquirerAuthorityUrl: string)

  /** The collaborators whose code is not part of this model.  Each answers
      a value or the message of the exception it throws. */
  datatype Services = Services(
    // JSON parsing of the body and the reserve-or-debit request's reader.
    readRequest: Bytes -> Result<AttestedRequest, string>,
    // Decryption of the payload with the bank's keys.
    decrypt: (AttestedRequest, seq<DecryptionKey>) -> Result<Object, string>,
    // The message a JSON reader error is reported with.
    describe: Error -> string,
    // Signature verification against the client root and the merchant root.
    verifyPayer: Signature -> Result<(), string>,
    verifyMerchant: Signature -> Result<(), string>,
    // `AccountTypes.fromType(type).isAcquirerBased()`.
    acquirerBased: string -> Result<bool, string>,
    // The GET request to the acquirer's Authority URL.
    fetch: string -> Result<HttpMessage, string>,
    // Reading the Authority and encrypting the account id for it.
    encryptCardData: (Bytes, string, string) -> Result<Object, string>,
    // `ReserveOrDebitResponse.encode`, signed with the bank's key.
    encodeResponse: (bool, PaymentRequest.PaymentRequest, string, string, Option<Object>, string) -> Result<Object, string>)

  /** A JSON reader's result, with its error turned into a message. */
  function Describe<T>(svc: Services, r: Result<T, Error>): (d: Result<T, string>)
    ensures d.Success? <==> r.Success?
    ensures d.Success? ==> d.value == r.value
    ensures d.Failure? ==> d.error == svc.describe(r.error)
  {
    match r
    case Success(v) => Success(v)
    case Failure(e) => Failure(svc.describe(e))
  }

  /** Everything gathered once all checks have passed. */
  datatype Authorization = Authorization(
    request: AttestedRequest,
    data: AuthorizationData.AuthorizationData,
    encryptedCardData: Option<Object>)

  /** The card path: fetch the Authority, insist on a JSON reply and
      encrypt the account id for it. */
  function CardData(svc: Services, request: AttestedRequest, accountId: string): (r: Result<Option<Object>, string>)
    ensures r.Success? ==> r.value.Some?
  {
    var url := request.acquirerAuthorityUrl;
    var reply :- svc.fetch(url);
    if reply.contentType != JSON_CONTENT_TYPE then Failure(ContentTypeMessage(reply.contentType))
    else
      var encrypted :- svc.encryptCardData(reply.data, url, accountId);
      Success(Some(encrypted))
  }

  /** The checks of `doPost` up to the response encoding, in their order;
      the first failure is the result. */
  function Authorize(svc: Services, keys: seq<DecryptionKey>, incoming: HttpMessage): (r: Result<Authorization, string>)
    ensures r.Success? ==> incoming.contentType == JSON_CONTENT_TYPE
    ensures r.Success? ==> CompareTo(r.value.data.paymentRequest.amount, AMOUNT_CEILING) <= 0
  {
    if incoming.contentType != JSON_CONTENT_TYPE then Failure(ContentTypeMessage(incoming.contentType))
    else
      var request :- svc.readRequest(incoming.data);
      var decrypted :- svc.decrypt(request, keys);
      var data :- Describe(svc, AuthorizationData.Parse(decrypted));
      var payerVerified :- svc.verifyPayer(data.signature);
      var paymentRequest := data.paymentRequest;
      var merchantVerified :- svc.verifyMerchant(paymentRequest.signature);
      if CompareTo(paymentRequest.amount, AMOUNT_CEILING) > 0 then Failure(TOO_MUCH)
      else
        var acquirerBased :- svc.acquirerBased(data.accountType);
        var encryptedCardData :- if acquirerBased then CardData(svc, request, data.accountId) else Success(None);
        Success(Authorization(request, data, encryptedCardData))
  }

  /** The ERROR_RESPONSE message with the failure's message as description. */
  function ErrorResponseFor(description: string): (r: Object)
    ensures r.Keys == {MESSAGE_TYPE, DESCRIPTION}
    ensures r[MESSAGE_TYPE] == Str(MessageName(Json.ErrorResponse)) && r[DESCRIPTION] == Str(description)
  {
    CreateBaseMessage(Json.ErrorResponse)[DESCRIPTION := Str(description)]
  }

  /** The reference id issued for counter value `counter`. */
  function ReferenceId(counter: int): string {
    "#" + IntToString(counter)
  }

  /** What one `doPost` answers, and the counter afterwards. */
  datatype Reply = Reply(response: Object, nextReferenceId: int)

  /** `doPost` as a value: the reference id is taken, and the counter
      advanced, exactly when every check has passed, even if encoding the
      response then fails; every failure becomes an error response. */
  function Respond(svc: Services, keys: seq<DecryptionKey>, incoming: HttpMessage, counter: int): (r: Reply)
    requires Int32.InRange(counter)
    ensures Int32.InRange(r.nextReferenceId)
    ensures Authorize(svc, keys, incoming).Failure? ==>
      r == Reply(ErrorResponseFor(Authorize(svc, keys, incoming).error), counter)
    ensures Authorize(svc, keys, incoming).Success? ==> r.nextReferenceId == Int32.Increment(counter)
  {
    match Authorize(svc, keys, incoming)
    case Failure(message) => Reply(ErrorResponseFor(message), counter)
    case Success(a) =>
      var next := Int32.Increment(counter);
      match svc.encodeResponse(false, a.data.paymentRequest, a.data.accountType, a.data.accountId,
                               a.encryptedCardData, ReferenceId(counter))
      case Success(response) => Reply(response, next)
      case Failure(message) => Reply(ErrorResponseFor(message), next)
  }

  /** The servlet, with the static counter as its one mutable field. */
  class Bank {
    const decryptionKeys: seq<DecryptionKey>
    var referenceId: int

    predicate Valid()
      reads this
    {
      Int32.InRange(referenceId) && KeysTagged(decryptionKeys)
    }

    constructor(keys: seq<DecryptionKey>)
      requires KeysTagged(keys)
      ensures Valid()
      ensures decryptionKeys == keys && referenceId == INITIAL_REFERENCE_ID
    {
      decryptionKeys := keys;
      referenceId := INITIAL_REFERENCE_ID;
    }

    /** `doPost`: the checks one after the other, leaving at the first
        failure with an error response; a response is always produced. */
    method DoPost(svc: Services, incoming: HttpMessage) returns (response: Object)
      requires Valid()
      modifies this
      ensures Valid()
      ensures response == Respond(svc, decryptionKeys, incoming, old(referenceId)).response
      ensures referenceId == Respond(svc, decryptionKeys, incoming, old(referenceId)).nextReferenceId
    {
      if incoming.contentType != JSON_CONTENT_TYPE {
        return ErrorResponseFor(ContentTypeMessage(incoming.contentType));
      }
      var request := svc.readRequest(incoming.data);
      if request.Failure? {
        return ErrorResponseFor(request.error);
      }
      var decrypted := svc.decrypt(request.value, decryptionKeys);
      if decrypted.Failure? {
        return ErrorResponseFor(decrypted.error);
      }
      var parsed := AuthorizationData.Parse(decrypted.value);
      if parsed.Failure? {
        return ErrorResponseFor(svc.describe(parsed.error));
      }
      var data := parsed.value;
      var payerVerified := svc.verifyPayer(data.signature);
      if payerVerified.Failure? {
        return ErrorResponseFor(payerVerified.error);
      }
      var paymentRequest := data.paymentRequest;
      var merchantVerified := svc.verifyMerchant(paymentRequest.signature);
      if merchantVerified.Failure? {
        return ErrorResponseFor(merchantVerified.error);
      }
      if CompareTo(paymentRequest.amount, AMOUNT_CEILING) > 0 {
        return ErrorResponseFor(TOO_MUCH);
      }
      var acquirerBased := svc.acquirerBased(data.accountType);
      if acquirerBased.Failure? {
        return ErrorResponseFor(acquirerBased.error);
      }
      var encryptedCardData: Option<Object> := None;
      if acquirerBased.value {
        var url := request.value.acquirerAuthorityUrl;
        var reply := svc.fetch(url);
        if reply.Failure? {
          return ErrorResponseFor(reply.error);
        }
        if reply.value.contentType != JSON_CONTENT_TYPE {
          return ErrorResponseFor(ContentTypeMessage(reply.value.contentType));
        }
        var encrypted := svc.encryptCardData(reply.value.data, url, data.accountId);
        if encrypted.Failure? {
          return ErrorResponseFor(encrypted.error);
        }
        encryptedCardData := Some(encrypted.value);
      }
      var id := ReferenceId(referenceId);
      referenceId := Int32.Increment(referenceId);
      var encoded := svc.encodeResponse(false, paymentRequest, data.accountType, data.accountId, encryptedCardData, id);
      if encoded.Failure? {
        return ErrorResponseFor(encoded.error);
      }
      response := encoded.value;
    }
  }

  // Properties of the decision pipeline.

  /** A request that is not JSON is refused before any other step runs,
      whatever the collaborators would answer. */
  lemma ContentTypeCheckedFirst(svc: Services, keys: seq<DecryptionKey>, incoming: HttpMessage, counter: int)
    requires Int32.InRange(counter)
    requires incoming.contentType != JSON_CONTENT_TYPE
    ensures Respond(svc, keys, incoming, counter) == Reply(ErrorResponseFor(ContentTypeMessage(incoming.contentType)), counter)
  {
  }

  /** The checks run in a fixed order and the first failure decides the
      description: decryption, then the payer's signature, then the
      merchant's, then the amount ceiling. */
  lemma FirstFailureDecides(svc: Services, keys: seq<DecryptionKey>, incoming: HttpMessage)
    requires incoming.contentType == JSON_CONTENT_TYPE && svc.readRequest(incoming.data).Success?
    ensures var request := svc.readRequest(incoming.data).value;
      var decrypted := svc.decrypt(request, keys);
      var r := Authorize(svc, keys, incoming);
      && (decrypted.Failure? ==> r == Failure(decrypted.error))
      && (decrypted.Success? && AuthorizationData.Parse(decrypted.value).Success? ==>
           var data := AuthorizationData.Parse(decrypted.value).value;
           && (svc.verifyPayer(data.signature).Failure? ==>
                 r == Failure(svc.verifyPayer(data.signature).error))
           && (svc.verifyPayer(data.signature).Success? &&
               svc.verifyMerchant(data.paymentRequest.signature).Failure? ==>
                 r == Failure(svc.verifyMerchant(data.paymentRequest.signature).error))
           && (svc.verifyPayer(data.signature).Success? &&
               svc.verifyMerchant(data.paymentRequest.signature).Success? &&
               CompareTo(data.paymentRequest.amount, AMOUNT_CEILING) > 0 ==>
                 r == Failure(TOO_MUCH)))
  {
  }

    /** The ceiling check refuses exactly the amounts worth more than one
      million, whatever their scale. */
  lemma AmountCeilingIsValue(amount: Amount)
    ensures CompareTo(amount, AMOUNT_CEILING) > 0 <==> RealValue(amount) > 1000000.0
  {
    CompareToSign(amount, AMOUNT_CEILING);
    assert Pow10(2) == 100;
    assert RealValue(AMOUNT_CEILING) == 1000000.0;
  }

/** The ceiling compares values, not representations: 1000000.00 and
      1000000 pass, one cent more does not. */
  lemma AmountCeilingByValue()
    ensures CompareTo(Amount(100000000, 2), AMOUNT_CEILING) == 0
    ensures CompareTo(Amount(1000000, 0), AMOUNT_CEILING) == 0
    ensures CompareTo(Amount(10000000000, 4), AMOUNT_CEILING) == 0
    ensures CompareTo(Amount(100000001, 2), AMOUNT_CEILING) > 0
  {
    assert Pow10(2) == 100;
    assert Pow10(4) == 10000;
  }

  /** Acquirer-based account types get encrypted card data, produced from
      a JSON reply of the Authority; other types get none. */
  lemma CardDataOnlyForAcquirers(svc: Services, keys: seq<DecryptionKey>, incoming: HttpMessage)
    requires Authorize(svc, keys, incoming).Success?
    ensures var a := Authorize(svc, keys, incoming).value;
      && svc.acquirerBased(a.data.accountType).Success?
      && (a.encryptedCardData.Some? <==> svc.acquirerBased(a.data.accountType).value)
      && (a.encryptedCardData.Some? ==>
            svc.fetch(a.request.acquirerAuthorityUrl).Success? &&
            svc.fetch(a.request.acquirerAuthorityUrl).value.contentType == JSON_CONTENT_TYPE)
  {
  }

  /** An Authority reply that is not JSON fails an acquirer-based payment. */
  lemma AuthorityContentTypeChecked(svc: Services, request: AttestedRequest, accountId: string)
    requires svc.fetch(request.acquirerAuthorityUrl).Success?
    requires svc.fetch(request.acquirerAuthorityUrl).value.contentType != JSON_CONTENT_TYPE
    ensures CardData(svc, request, accountId)
            == Failure(ContentTypeMessage(svc.fetch(request.acquirerAuthorityUrl).value.contentType))
  {
  }

  /** An authorized request goes to the encoder with the reserve flag false,
      the authorization's account and the reference id of the counter. */
  lemma AuthorizedResponse(svc: Services, keys: seq<DecryptionKey>, incoming: HttpMessage, counter: int)
    requires Int32.InRange(counter)
    requires Authorize(svc, keys, incoming).Success?
    ensures var a := Authorize(svc, keys, incoming).value;
      var encoded := svc.encodeResponse(false, a.data.paymentRequest, a.data.accountType, a.data.accountId,
                                        a.encryptedCardData, ReferenceId(counter));
      Respond(svc, keys, incoming, counter).response
        == if encoded.Success? then encoded.value else ErrorResponseFor(encoded.error)
  {
  }

  /** Distinct counter values give distinct reference ids. */
  lemma ReferenceIdInjective(c: int, d: int)
    requires ReferenceId(c) == ReferenceId(d)
    ensures c == d
  {
    assert ReferenceId(c)[1..] == IntToString(c);
    assert ReferenceId(d)[1..] == IntToString(d);
    IntToStringInjective(c, d);
  }

  /** The counter values a sequence of requests consumes, in order. */
  function Issued(svc: Services, keys: seq<DecryptionKey>, requests: seq<HttpMessage>, counter: int): seq<int>
    requires Int32.InRange(counter)
    decreases |requests|
  {
    if requests == [] then []
    else
      var next := Respond(svc, keys, requests[0], counter).nextReferenceId;
      (if Authorize(svc, keys, requests[0]).Success? then [counter] else [])
        + Issued(svc, keys, requests[1..], next)
  }

  /** Until the counter would pass `Int32.MAX`, the values consumed by
      successive requests are strictly increasing and start at the current
      counter, so no reference id is issued twice. */
  lemma {:induction false} IssuedIncreasing(svc: Services, keys: seq<DecryptionKey>, requests: seq<HttpMessage>, counter: int)
    requires Int32.InRange(counter) && counter + |requests| <= Int32.MAX
    ensures var ids := Issued(svc, keys, requests, counter);
      && |ids| <= |requests|
      && (forall i :: 0 <= i < |ids| ==> counter <= ids[i] < counter + |requests|)
      && (forall i, j :: 0 <= i < j < |ids| ==> ids[i] < ids[j])
  {
    if requests != [] {
      var next := Respond(svc, keys, requests[0], counter).nextReferenceId;
      assert next == counter || next == counter + 1;
      IssuedIncreasing(svc, keys, requests[1..], next);
    }
  }
}
