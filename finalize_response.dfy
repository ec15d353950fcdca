/** `FinalizeResponse`: the bank's FINALIZE_RESPONSE message.  It comes in
    two forms: an error form holding only an error code and an optional
    description, and a success form holding the hash of the finalize
    request it answers, a reference id, a time stamp, the bank's software
    and a signature. */
module FinalizeResponse {
  import opened Wrappers
  import opened Json
  import ErrorReturn

  const SOFTWARE_NAME: string := "WebPKI.org - Bank"
  const SOFTWARE_VERSION_NUMBER: string := "1.00"

  /** What the error form may hold. */
  const ErrorFields: set<string> := {MESSAGE_TYPE, ERROR_CODE, DESCRIPTION}

  /** What the success form must hold. */
  const SuccessFields: set<string> := {MESSAGE_TYPE, REQUEST_HASH, REFERENCE_ID, TIME_STAMP, SOFTWARE, SIGNATURE}

  /** The properties of the `requestHash` object. */
  const HashFields: set<string> := {ALGORITHM, VALUE}

  datatype FinalizeResponse =
    | ErrorForm(errorReturn: ErrorReturn.ErrorReturn)
    | SuccessForm(requestHash: Bytes, referenceId: string, timeStamp: int, software: Value, signature: Signature)
  {
    /** `success()`: true exactly when there is no error return. */
    function Success(): (r: bool)
      ensures r <==> !ErrorForm?
    {
      SuccessForm?
    }
  }

  /** The `requestHash` object: a SHA-256 algorithm id and the hash value. */
  function RequestHashObject(value: Bytes): (r: Object)
    ensures r.Keys == HashFields
    ensures r[ALGORITHM] == Str(SHA_256) && r[VALUE] == Binary(value)
  {
    map[ALGORITHM := Str(SHA_256), VALUE := Binary(value)]
  }

  /** Reading the `requestHash` object back: the algorithm must be SHA-256,
      and nothing beyond the algorithm and the value may be present. */
  function ParseRequestHash(o: Object): (r: Result<Bytes, Error>)
    ensures r.Success? <==>
      && REQUEST_HASH in o && o[REQUEST_HASH].Object?
      && o[REQUEST_HASH].fields.Keys == HashFields
      && o[REQUEST_HASH].fields[ALGORITHM] == Str(SHA_256)
      && o[REQUEST_HASH].fields[VALUE].Binary?
    ensures r.Success? ==> o[REQUEST_HASH] == Object(RequestHashObject(r.value))
  {
    var inner :- GetObject(o, REQUEST_HASH);
    var algorithm :- GetString(inner, ALGORITHM);
    if algorithm != SHA_256 then Failure(UnknownHashAlgorithm(algorithm))
    else
      var value :- GetBinary(inner, VALUE);
      var allRead :- CheckForUnread(inner, HashFields);
      Success(value)
  }

  /** The parsing constructor: the message type first, then the error form
      when an error code is present and the success form otherwise. */
  function Parse(o: Object): (r: Result<FinalizeResponse, Error>)
    ensures ParseBaseMessage(Json.FinalizeResponse, o).Failure? ==> r.Failure?
    ensures r.Success? ==> (r.value.ErrorForm? <==> ERROR_CODE in o)
    ensures r.Success? && r.value.ErrorForm? ==>
      && o.Keys <= ErrorFields
      && o[ERROR_CODE] == Int(ErrorReturn.ErrorCode(r.value.errorReturn.error))
      && (r.value.errorReturn.optionalDescription.Some? <==> DESCRIPTION in o)
    ensures r.Success? && r.value.SuccessForm? ==>
      && o.Keys == SuccessFields
      && o[REQUEST_HASH] == Object(RequestHashObject(r.value.requestHash))
      && o[REFERENCE_ID] == Str(r.value.referenceId)
      && o[SIGNATURE] == SignatureValue(r.value.signature)
  {
    var base :- ParseBaseMessage(Json.FinalizeResponse, o);
    if ERROR_CODE in o then
      var code :- GetInt(o, ERROR_CODE);
      var description :- GetStringConditional(o, DESCRIPTION);
      var errorReturn :- ErrorReturn.FromCode(code, description);
      var allRead :- CheckForUnread(o, ErrorFields);
      Success(ErrorForm(errorReturn))
    else
      var requestHash :- ParseRequestHash(o);
      var referenceId :- GetString(o, REFERENCE_ID);
      var timeStamp :- GetDateTime(o, TIME_STAMP);
      var software :- GetSoftware(o);
      var signature :- GetSignature(o);
      var allRead :- CheckForUnread(o, SuccessFields);
      Success(SuccessForm(requestHash, referenceId, timeStamp, software, signature))
  }

  /** `encode(errorReturn)`: the base message written by the error return. */
  function EncodeError(errorReturn: ErrorReturn.ErrorReturn): (r: Object)
    ensures r.Keys <= ErrorFields && ERROR_CODE in r && MESSAGE_TYPE in r
    ensures r[MESSAGE_TYPE] == Str(MessageName(Json.FinalizeResponse))
  {
    ErrorReturn.Write(errorReturn, CreateBaseMessage(Json.FinalizeResponse))
  }

  /** The success form's properties before the signature is added. */
  function UnsignedSuccess(requestHash: Bytes, referenceId: string, now: int): (u: Object)
    ensures u.Keys == SuccessFields - {SIGNATURE}
    ensures u[REQUEST_HASH] == Object(RequestHashObject(requestHash))
    ensures u[REFERENCE_ID] == Str(referenceId) && u[TIME_STAMP] == DateTime(now)
    ensures u[SOFTWARE] == Software(SOFTWARE_NAME, SOFTWARE_VERSION_NUMBER)
  {
    CreateBaseMessage(Json.FinalizeResponse)[
      REQUEST_HASH := Object(RequestHashObject(requestHash))][
      REFERENCE_ID := Str(referenceId)][
      TIME_STAMP := DateTime(now)][
      SOFTWARE := Software(SOFTWARE_NAME, SOFTWARE_VERSION_NUMBER)]
  }

  /** `encode(finalizeRequest, referenceId, signer)`: the base message, the
      hash of the finalize request's root object, the reference id, the
      time `now`, the bank's software and a signature by `signer`, whose
      kind is `kind`. */
  function EncodeSuccess(finalizeRequestRoot: Object, referenceId: string, now: int,
                         hash: Object -> Bytes, kind: SignatureKind, signer: Signer): (r: Object)
    ensures r.Keys == SuccessFields
    ensures r[REQUEST_HASH] == Object(RequestHashObject(hash(finalizeRequestRoot)))
    ensures r[REFERENCE_ID] == Str(referenceId) && r[TIME_STAMP] == DateTime(now)
    ensures r[SIGNATURE].SignatureValue? && r[SIGNATURE].signature.kind == kind
  {
    SetSignature(UnsignedSuccess(hash(finalizeRequestRoot), referenceId, now), kind, signer)
  }

  /** The error form is accepted exactly when the error code is a known one
      read as an `int`, the description, if present, is a string, and
      nothing else is present. */
  lemma ErrorFormIff(o: Object)
    requires ParseBaseMessage(Json.FinalizeResponse, o).Success? && ERROR_CODE in o
    ensures Parse(o).Success? <==>
      && o[ERROR_CODE].Int? && 0 <= o[ERROR_CODE].i <= 3
      && (DESCRIPTION in o ==> o[DESCRIPTION].Str?)
      && o.Keys <= ErrorFields
    ensures Parse(o).Success? ==> Parse(o).value.ErrorForm? && !Parse(o).value.Success()
  {
  }

  /** Without an error code, every success property is required and no other
      property is allowed. */
  lemma SuccessFormIff(o: Object)
    requires ParseBaseMessage(Json.FinalizeResponse, o).Success? && ERROR_CODE !in o
    ensures Parse(o).Success? <==>
      && o.Keys == SuccessFields
      && o[REQUEST_HASH].Object?
      && o[REQUEST_HASH].fields.Keys == HashFields
      && o[REQUEST_HASH].fields[ALGORITHM] == Str(SHA_256)
      && o[REQUEST_HASH].fields[VALUE].Binary?
      && o[REFERENCE_ID].Str? && o[TIME_STAMP].DateTime?
      && o[SOFTWARE].Software? && o[SIGNATURE].SignatureValue?
    ensures Parse(o).Success? ==> Parse(o).value.Success()
  {
  }

  /** An error code that names no error makes parsing fail, whatever else
      the message holds. */
  lemma UnknownErrorCodeRejected(o: Object)
    requires ERROR_CODE in o && o[ERROR_CODE].Int? && !(0 <= o[ERROR_CODE].i <= 3)
    ensures Parse(o).Failure?
  {
  }

  /** Parsing an encoded error response gives back the same error and
      description. */
  lemma EncodeErrorParse(errorReturn: ErrorReturn.ErrorReturn)
    ensures Parse(EncodeError(errorReturn)) == Success(ErrorForm(errorReturn))
  {
    ErrorReturn.FromCodeRoundTrip(errorReturn.error, errorReturn.optionalDescription);
    ErrorReturn.ValuesAreTheCodes();
  }

  /** Parsing an encoded success response gives back the hash of the
      finalize request, the reference id, the time stamp and the bank's
      software. */
  lemma EncodeSuccessParse(finalizeRequestRoot: Object, referenceId: string, now: int,
                           hash: Object -> Bytes, kind: SignatureKind, signer: Signer)
    ensures var r := Parse(EncodeSuccess(finalizeRequestRoot, referenceId, now, hash, kind, signer));
      && r.Success? && r.value.Success()
      && r.value.requestHash == hash(finalizeRequestRoot)
      && r.value.referenceId == referenceId
      && r.value.timeStamp == now
      && r.value.software == Software(SOFTWARE_NAME, SOFTWARE_VERSION_NUMBER)
  {
    var o := EncodeSuccess(finalizeRequestRoot, referenceId, now, hash, kind, signer);
    SuccessFormIff(o);
  }
}
