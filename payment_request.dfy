/** `PaymentRequest`: the merchant's signed, priced request.  The encoder
    writes a fixed set of eight properties; the parser reads exactly that
    set, insists on a bare-public-key signature and rejects anything else
    in the object.  The parsed object is kept verbatim as the request's
    `root`, which is what the request hash is computed over. */
module PaymentRequest {
  import opened Wrappers
  import opened Json
  import opened Decimal
  import Currencies

  const SOFTWARE_NAME: string := "WebPKI.org - Merchant"
  const SOFTWARE_VERSION: string := "1.00"

  /** The properties a payment request consists of. */
  const Fields: set<string> := {PAYEE, AMOUNT, CURRENCY, REFERENCE_ID, TIME_STAMP, EXPIRES, SOFTWARE, SIGNATURE}

  datatype PaymentRequest = PaymentRequest(
    payee: Object,
    amount: Amount,
    currency: Currencies.Currency,
    referenceId: string,
    dateTime: int,
    expires: int,
    software: Value,
    signature: Signature,
    root: Object)

  /** `encode`: the request's properties, signed with a bare-public-key
      signer.  The creation time, `new Date()` in the source, is a parameter. */
  function Encode(payee: Object, amount: Amount, currency: Currencies.Currency, referenceId: string,
                  timeStamp: int, expires: int, signer: Signer): (r: Object)
    ensures r.Keys == Fields
    ensures r[SIGNATURE].SignatureValue? && r[SIGNATURE].signature.kind == AsymmetricKey
  {
    var unsigned := map[
      PAYEE := Object(payee),
      AMOUNT := Decimal(amount.unscaled, amount.scale),
      CURRENCY := Str(Currencies.Name(currency)),
      REFERENCE_ID := Str(referenceId),
      TIME_STAMP := DateTime(timeStamp),
      EXPIRES := DateTime(expires),
      SOFTWARE := Software(SOFTWARE_NAME, SOFTWARE_VERSION)];
    SetSignature(unsigned, AsymmetricKey, signer)
  }

  /** What the parser accepts: exactly the eight properties, each of the type
      it is read as, a currency named by one of the enum's constants and a
      bare-public-key signature. */
  predicate WellFormed(o: Object) {
    && o.Keys == Fields
    && o[PAYEE].Object?
    && o[AMOUNT].Decimal?
    && o[CURRENCY].Str? && o[CURRENCY].s in {"USD", "EUR", "GBP"}
    && o[REFERENCE_ID].Str?
    && o[TIME_STAMP].DateTime?
    && o[EXPIRES].DateTime?
    && o[SOFTWARE].Software?
    && o[SIGNATURE].SignatureValue?
    && o[SIGNATURE].signature.kind == AsymmetricKey
  }

  /** The parsing constructor. */
  function Parse(o: Object): (r: Result<PaymentRequest, Error>)
    ensures r.Success? ==> r.value.root == o && o.Keys == Fields
    ensures r.Success? ==>
      && o[AMOUNT] == Decimal(r.value.amount.unscaled, r.value.amount.scale)
      && o[CURRENCY] == Str(Currencies.Name(r.value.currency))
      && o[REFERENCE_ID] == Str(r.value.referenceId)
      && o[PAYEE] == Object(r.value.payee)
      && o[SIGNATURE] == SignatureValue(r.value.signature)
  {
    var payee :- GetObject(o, PAYEE);
    var amount :- GetDecimal(o, AMOUNT);
    var currencyName :- GetString(o, CURRENCY);
    var currency :- Currencies.ValueOf(currencyName);
    var referenceId :- GetString(o, REFERENCE_ID);
    var dateTime :- GetDateTime(o, TIME_STAMP);
    var expires :- GetDateTime(o, EXPIRES);
    var software :- GetSoftware(o);
    var signature :- GetSignature(o);
    if signature.kind != AsymmetricKey then Failure(UnexpectedSignatureType)
    else
      var allRead :- CheckForUnread(o, Fields);
      Success(PaymentRequest(payee, Amount(amount.0, amount.1), currency, referenceId,
                             dateTime, expires, software, signature, o))
  }

  /** Parsing succeeds exactly on well-formed objects. */
  lemma ParseSucceedsIff(o: Object)
    ensures Parse(o).Success? <==> WellFormed(o)
  {
    if WellFormed(o) {
      assert Currencies.ValueOf(o[CURRENCY].s).Success?;
    }
  }

  /** Any property beyond the eight that are read makes parsing fail. */
  lemma ExtraPropertyRejected(o: Object, extra: string)
    requires extra in o && extra !in Fields
    ensures Parse(o).Failure?
  {
    ParseSucceedsIff(o);
  }

  /** A currency string that names no enum constant makes parsing fail. */
  lemma UnknownCurrencyRejected(o: Object)
    requires CURRENCY in o && o[CURRENCY].Str? && o[CURRENCY].s !in {"USD", "EUR", "GBP"}
    ensures Parse(o).Failure?
  {
    ParseSucceedsIff(o);
  }

  /** A signature that is not of the bare-public-key kind makes parsing fail. */
  lemma CertificateSignatureRejected(o: Object)
    requires SIGNATURE in o && o[SIGNATURE].SignatureValue? && o[SIGNATURE].signature.kind != AsymmetricKey
    ensures Parse(o).Failure?
  {
    ParseSucceedsIff(o);
  }

  /** Parsing an encoded request gives back every field that was written,
      and keeps the encoded object as the root. */
  lemma EncodeParse(payee: Object, amount: Amount, currency: Currencies.Currency, referenceId: string,
                    timeStamp: int, expires: int, signer: Signer)
    ensures var o := Encode(payee, amount, currency, referenceId, timeStamp, expires, signer);
      && Parse(o).Success?
      && Parse(o).value.payee == payee
      && Parse(o).value.amount == amount
      && Parse(o).value.currency == currency
      && Parse(o).value.referenceId == referenceId
      && Parse(o).value.dateTime == timeStamp
      && Parse(o).value.expires == expires
      && Parse(o).value.software == Software(SOFTWARE_NAME, SOFTWARE_VERSION)
      && Parse(o).value.root == o
  {
    var o := Encode(payee, amount, currency, referenceId, timeStamp, expires, signer);
    Currencies.ValueOfName(currency);
    ParseSucceedsIff(o);
  }

  /** `getRequestHash`: the (abstract) hash of the retained root object. */
  function GetRequestHash(pr: PaymentRequest, hash: Object -> Bytes): (h: Bytes)
    ensures h == hash(pr.root)
  {
    hash(pr.root)
  }

  /** The request hash of a parsed request is the hash of exactly the object
      that was received, so two requests parsed from the same object have
      the same hash whatever else differs. */
  lemma RequestHashOfParsed(o: Object, hash: Object -> Bytes)
    requires Parse(o).Success?
    ensures GetRequestHash(Parse(o).value, hash) == hash(o)
  {
  }
}
