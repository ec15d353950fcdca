/** `GenericAuthorizationRequest`: the wallet's PAYER_GENERIC_AUTH_REQ
    message, which carries the merchant's payment request, the chosen card
    and the wallet's identity, signed with the card's certificate path. */
module GenericAuthorizationRequest {
  import opened Wrappers
  import opened Json
  import PaymentRequest

  const SOFTWARE_NAME: string := "WebPKI.org Wallet"
  const SOFTWARE_VERSION_NUMBER: string := "1.00"

  /** The properties of the message, its message type included. */
  const Fields: set<string> :=
    {MESSAGE_TYPE, PAYMENT_REQUEST, DOMAIN_NAME, CARD_TYPE, CARD_NUMBER, DATE_TIME, SOFTWARE_ID, SOFTWARE_VERSION, SIGNATURE}

  datatype GenericAuthorizationRequest = GenericAuthorizationRequest(
    paymentRequest: PaymentRequest.PaymentRequest,
    domainName: string,
    cardType: string,
    cardNumber: string,
    dateTime: int,
    softwareId: string,
    softwareVersion: string,
    certificatePath: Signature,
    root: Object)

  /** The request's properties before the signature is added. */
  function Unsigned(paymentRequest: PaymentRequest.PaymentRequest, domainName: string, cardType: string,
                    cardNumber: string, now: int): (u: Object)
    ensures u.Keys == Fields - {SIGNATURE}
    ensures u[MESSAGE_TYPE] == Str(MessageName(PayerGenericAuthReq))
    ensures u[PAYMENT_REQUEST] == Object(paymentRequest.root)
    ensures u[SOFTWARE_ID] == Str(SOFTWARE_NAME) && u[SOFTWARE_VERSION] == Str(SOFTWARE_VERSION_NUMBER)
  {
    CreateBaseMessage(PayerGenericAuthReq)[
      PAYMENT_REQUEST := Object(paymentRequest.root)][
      DOMAIN_NAME := Str(domainName)][
      CARD_TYPE := Str(cardType)][
      CARD_NUMBER := Str(cardNumber)][
      DATE_TIME := DateTime(now)][
      SOFTWARE_ID := Str(SOFTWARE_NAME)][
      SOFTWARE_VERSION := Str(SOFTWARE_VERSION_NUMBER)]
  }

  /** `encode`: the base message, the request's properties and a
      certificate-path signature made with `signData` under
      `signatureAlgorithm`.  `now` stands for `new Date()`. */
  function Encode(paymentRequest: PaymentRequest.PaymentRequest, domainName: string, cardType: string,
                  cardNumber: string, signatureAlgorithm: string, signData: Object -> Bytes,
                  now: int): (r: Object)
    ensures r.Keys == Fields
    ensures r[MESSAGE_TYPE] == Str(MessageName(PayerGenericAuthReq))
    ensures r[PAYMENT_REQUEST] == Object(paymentRequest.root)
    ensures r[SOFTWARE_ID] == Str(SOFTWARE_NAME) && r[SOFTWARE_VERSION] == Str(SOFTWARE_VERSION_NUMBER)
    ensures r[SIGNATURE].SignatureValue? && r[SIGNATURE].signature.kind == X509Certificate
    ensures r[SIGNATURE].signature.algorithm == signatureAlgorithm
  {
    SetSignature(Unsigned(paymentRequest, domainName, cardType, cardNumber, now), X509Certificate,
                 (o: Object) => (signatureAlgorithm, signData(o)))
  }

  /** What the parser accepts: the PAYER_GENERIC_AUTH_REQ message type, the
      eight other properties with their types, a well-formed embedded
      payment request, a certificate-path signature, and nothing else. */
  predicate WellFormed(o: Object) {
    && o.Keys == Fields
    && o[MESSAGE_TYPE] == Str(MessageName(PayerGenericAuthReq))
    && o[PAYMENT_REQUEST].Object? && PaymentRequest.WellFormed(o[PAYMENT_REQUEST].fields)
    && o[DOMAIN_NAME].Str?
    && o[CARD_TYPE].Str?
    && o[CARD_NUMBER].Str?
    && o[DATE_TIME].DateTime?
    && o[SOFTWARE_ID].Str?
    && o[SOFTWARE_VERSION].Str?
    && o[SIGNATURE].SignatureValue? && o[SIGNATURE].signature.kind == X509Certificate
  }

  /** The parsing constructor.  The certificate path is only present in a
      certificate-path signature; any other kind is refused. */
  function Parse(o: Object): (r: Result<GenericAuthorizationRequest, Error>)
    ensures r.Success? ==> o.Keys == Fields && r.value.root == o
    ensures r.Success? ==>
      && o[PAYMENT_REQUEST] == Object(r.value.paymentRequest.root)
      && o[DOMAIN_NAME] == Str(r.value.domainName)
      && o[CARD_TYPE] == Str(r.value.cardType)
      && o[CARD_NUMBER] == Str(r.value.cardNumber)
      && o[SOFTWARE_ID] == Str(r.value.softwareId)
      && o[SOFTWARE_VERSION] == Str(r.value.softwareVersion)
    ensures ParseBaseMessage(PayerGenericAuthReq, o).Failure? ==> r == Failure(WrongMessageType(MessageName(PayerGenericAuthReq)))
  {
    var root :- ParseBaseMessage(PayerGenericAuthReq, o);
    var embedded :- GetObject(o, PAYMENT_REQUEST);
    var paymentRequest :- PaymentRequest.Parse(embedded);
    var domainName :- GetString(o, DOMAIN_NAME);
    var cardType :- GetString(o, CARD_TYPE);
    var cardNumber :- GetString(o, CARD_NUMBER);
    var dateTime :- GetDateTime(o, DATE_TIME);
    var softwareId :- GetString(o, SOFTWARE_ID);
    var softwareVersion :- GetString(o, SOFTWARE_VERSION);
    var signature :- GetSignature(o);
    if signature.kind != X509Certificate then Failure(UnexpectedSignatureType)
    else
      var allRead :- CheckForUnread(o, Fields);
      Success(GenericAuthorizationRequest(paymentRequest, domainName, cardType, cardNumber, dateTime,
                                          softwareId, softwareVersion, signature, root))
  }

  /** Parsing succeeds exactly on well-formed objects. */
  lemma ParseSucceedsIff(o: Object)
    ensures Parse(o).Success? <==> WellFormed(o)
  {
    if PAYMENT_REQUEST in o && o[PAYMENT_REQUEST].Object? {
      PaymentRequest.ParseSucceedsIff(o[PAYMENT_REQUEST].fields);
    }
  }

  /** Each of the eight data properties and the signature is required. */
  lemma MissingPropertyRejected(o: Object, key: string)
    requires key in Fields && key !in o
    ensures Parse(o).Failure?
  {
    ParseSucceedsIff(o);
  }

  /** Any property outside the message's own makes parsing fail. */
  lemma ExtraPropertyRejected(o: Object, extra: string)
    requires extra in o && extra !in Fields
    ensures Parse(o).Failure?
  {
    ParseSucceedsIff(o);
  }

  /** Parsing an encoded request gives back the payment request, the domain,
      the card and the wallet's fixed identity. */
  lemma EncodeParse(received: Object, domainName: string, cardType: string, cardNumber: string,
                    signatureAlgorithm: string, signData: Object -> Bytes, now: int)
    requires PaymentRequest.Parse(received).Success?
    ensures var pr := PaymentRequest.Parse(received).value;
      var o := Encode(pr, domainName, cardType, cardNumber, signatureAlgorithm, signData, now);
      var r := Parse(o);
      && r.Success?
      && r.value.paymentRequest == pr
      && r.value.domainName == domainName
      && r.value.cardType == cardType
      && r.value.cardNumber == cardNumber
      && r.value.dateTime == now
      && r.value.softwareId == SOFTWARE_NAME
      && r.value.softwareVersion == SOFTWARE_VERSION_NUMBER
      && r.value.root == o
  {
    var pr := PaymentRequest.Parse(received).value;
    var o := Encode(pr, domainName, cardType, cardNumber, signatureAlgorithm, signData, now);
    PaymentRequest.ParseSucceedsIff(received);
    ParseSucceedsIff(o);
  }
}
