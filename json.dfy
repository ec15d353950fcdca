/** The JSON layer the messages are built on, reduced to what the message
    classes rely on.  An object is a finite map from property names to values;
    a reader either returns the property with the expected type or fails, and
    `CheckForUnread` fails when an object holds a property that the parser
    did not read.  Canonical serialisation and the library's internal read
    tracking are not modelled: each parser states its read set explicitly. */
module Json {
  import opened Wrappers
  import Int32

  type Bytes = seq<bv8>

  /** Kind of a JSON signature: a bare public key or an X.509 certificate path. */
  datatype SignatureKind = AsymmetricKey | X509Certificate

  /** An opaque signature; its cryptographic meaning is outside the model. */
  datatype Signature = Signature(kind: SignatureKind, algorithm: string, bytes: Bytes)

  datatype Value =
    | Str(s: string)
    | Int(i: int)
    | Bool(b: bool)
    | Decimal(unscaled: int, scale: nat)
    | DateTime(instant: int)
    | Binary(bytes: Bytes)
    | Object(fields: map<string, Value>)
    | StringArray(items: seq<string>)
    | SignatureValue(signature: Signature)
    | Software(id: string, version: string)

  type Object = map<string, Value>

  /** What the JSON readers can report. */
  datatype Error =
    | MissingProperty(key: string)
    | WrongType(key: string)
    | UnreadProperties(keys: set<string>)
    | WrongMessageType(expected: string)
    | UnknownCurrency(name: string)
    | UnexpectedSignatureType
    | UnknownErrorCode(code: int)
    | UnknownHashAlgorithm(algorithm: string)
    | IncorrectDecimals

  // Property names shared by all messages (pairwise distinct).
  const PAYMENT_REQUEST: string := "paymentRequest"
  const PULL_PAYMENT: string := "pullPayment"
  const PAYEE: string := "payee"
  const AMOUNT: string := "amount"
  const CURRENCY: string := "currency"
  const REFERENCE_ID: string := "referenceId"
  const TIME_STAMP: string := "timeStamp"
  const EXPIRES: string := "expires"
  const DATE_TIME: string := "dateTime"
  const SOFTWARE: string := "software"
  const SIGNATURE: string := "signature"
  const DOMAIN_NAME: string := "domainName"
  const ACCOUNT_TYPE: string := "accountType"
  const ACCOUNT_ID: string := "accountId"
  const CARD_TYPE: string := "cardType"
  const CARD_NUMBER: string := "cardNumber"
  const SOFTWARE_ID: string := "softwareId"
  const SOFTWARE_VERSION: string := "softwareVersion"
  const ACCEPTED_CARD_TYPES: string := "acceptedCardTypes"
  const REQUEST_HASH: string := "requestHash"
  const ALGORITHM: string := "algorithm"
  const VALUE: string := "value"
  const ERROR_CODE: string := "errorCode"
  const DESCRIPTION: string := "description"
  const MESSAGE_TYPE: string := "@qualifier"

  // Algorithm identifiers.
  const RSA_OAEP_256: string := "RSA-OAEP-256"
  const ECDH_ES: string := "ECDH-ES"
  const A256CBC_HS512: string := "A256CBC-HS512"
  const SHA_256: string := "S256"

  const JSON_CONTENT_TYPE: string := "application/json"

  function GetString(o: Object, key: string): (r: Result<string, Error>)
    ensures r.Success? <==> key in o && o[key].Str?
    ensures r.Success? ==> o[key] == Str(r.value)
    ensures key !in o ==> r == Failure(MissingProperty(key))
  {
    if key !in o then Failure(MissingProperty(key))
    else if o[key].Str? then Success(o[key].s)
    else Failure(WrongType(key))
  }

  /** A string property that may be absent (Java's `null`). */
  function GetStringConditional(o: Object, key: string): (r: Result<Option<string>, Error>)
    ensures key !in o ==> r == Success(None)
    ensures key in o ==> (r.Success? <==> o[key].Str?)
    ensures r.Success? && r.value.Some? ==> key in o && o[key] == Str(r.value.value)
  {
    if key !in o then Success(None)
    else if o[key].Str? then Success(Some(o[key].s))
    else Failure(WrongType(key))
  }

  /** An integer property; a number outside Java's `int` range is refused. */
  function GetInt(o: Object, key: string): (r: Result<int, Error>)
    ensures r.Success? <==> key in o && o[key].Int? && Int32.InRange(o[key].i)
    ensures r.Success? ==> o[key] == Int(r.value)
    ensures key !in o ==> r == Failure(MissingProperty(key))
  {
    if key !in o then Failure(MissingProperty(key))
    else if o[key].Int? && Int32.InRange(o[key].i) then Success(o[key].i)
    else Failure(WrongType(key))
  }

  /** A boolean property that reads as `false` when absent. */
  function GetBooleanConditional(o: Object, key: string): (r: Result<bool, Error>)
    ensures key !in o ==> r == Success(false)
    ensures key in o ==> (r.Success? <==> o[key].Bool?)
    ensures key in o && r.Success? ==> o[key] == Bool(r.value)
  {
    if key !in o then Success(false)
    else if o[key].Bool? then Success(o[key].b)
    else Failure(WrongType(key))
  }

  function GetDecimal(o: Object, key: string): (r: Result<(int, nat), Error>)
    ensures r.Success? <==> key in o && o[key].Decimal?
    ensures r.Success? ==> o[key] == Decimal(r.value.0, r.value.1)
  {
    if key !in o then Failure(MissingProperty(key))
    else if o[key].Decimal? then Success((o[key].unscaled, o[key].scale))
    else Failure(WrongType(key))
  }

  function GetDateTime(o: Object, key: string): (r: Result<int, Error>)
    ensures r.Success? <==> key in o && o[key].DateTime?
    ensures r.Success? ==> o[key] == DateTime(r.value)
  {
    if key !in o then Failure(MissingProperty(key))
    else if o[key].DateTime? then Success(o[key].instant)
    else Failure(WrongType(key))
  }

  function GetBinary(o: Object, key: string): (r: Result<Bytes, Error>)
    ensures r.Success? <==> key in o && o[key].Binary?
    ensures r.Success? ==> o[key] == Binary(r.value)
  {
    if key !in o then Failure(MissingProperty(key))
    else if o[key].Binary? then Success(o[key].bytes)
    else Failure(WrongType(key))
  }

  function GetObject(o: Object, key: string): (r: Result<Object, Error>)
    ensures r.Success? <==> key in o && o[key].Object?
    ensures r.Success? ==> o[key] == Object(r.value)
  {
    if key !in o then Failure(MissingProperty(key))
    else if o[key].Object? then Success(o[key].fields)
    else Failure(WrongType(key))
  }

  function GetStringArray(o: Object, key: string): (r: Result<seq<string>, Error>)
    ensures r.Success? <==> key in o && o[key].StringArray?
    ensures r.Success? ==> o[key] == StringArray(r.value)
  {
    if key !in o then Failure(MissingProperty(key))
    else if o[key].StringArray? then Success(o[key].items)
    else Failure(WrongType(key))
  }

  /** Reads the `signature` property. */
  function GetSignature(o: Object): (r: Result<Signature, Error>)
    ensures r.Success? <==> SIGNATURE in o && o[SIGNATURE].SignatureValue?
    ensures r.Success? ==> o[SIGNATURE] == SignatureValue(r.value)
  {
    if SIGNATURE !in o then Failure(MissingProperty(SIGNATURE))
    else if o[SIGNATURE].SignatureValue? then Success(o[SIGNATURE].signature)
    else Failure(WrongType(SIGNATURE))
  }

  /** Reads the `software` property (the Software object is kept abstract). */
  function GetSoftware(o: Object): (r: Result<Value, Error>)
    ensures r.Success? <==> SOFTWARE in o && o[SOFTWARE].Software?
    ensures r.Success? ==> o[SOFTWARE] == r.value && r.value.Software?
  {
    if SOFTWARE !in o then Failure(MissingProperty(SOFTWARE))
    else if o[SOFTWARE].Software? then Success(o[SOFTWARE])
    else Failure(WrongType(SOFTWARE))
  }

  /** Fails when the object holds any property outside `read`. */
  function CheckForUnread(o: Object, read: set<string>): (r: Result<(), Error>)
    ensures r.Success? <==> o.Keys <= read
    ensures r.Failure? ==> r.error == UnreadProperties(o.Keys - read)
  {
    if o.Keys <= read then Success(()) else Failure(UnreadProperties(o.Keys - read))
  }

  /** A signer: given the object to sign, the signature algorithm it uses
      and the signature bytes it produces.  Keys and certificates stay
      behind this function. */
  type Signer = Object -> (string, Bytes)

  /** `setSignature`: adds the `signature` property computed over the
      object as it stands; `kind` is fixed by the kind of signer used. */
  function SetSignature(o: Object, kind: SignatureKind, signer: Signer): (r: Object)
    ensures r.Keys == o.Keys + {SIGNATURE}
    ensures r[SIGNATURE].SignatureValue? && r[SIGNATURE].signature.kind == kind
    ensures forall k :: k in o && k != SIGNATURE ==> r[k] == o[k]
  {
    o[SIGNATURE := SignatureValue(Signature(kind, signer(o).0, signer(o).1))]
  }

  // Base messages: every protocol message carries its message type.

  datatype MessageType =
    | InvokeWallet
    | PayerGenericAuthReq
    | PayerPullAuthReq
    | FinalizeRequest
    | FinalizeResponse
    | ErrorResponse

  function MessageName(t: MessageType): string {
    match t
    case InvokeWallet => "INVOKE_WALLET"
    case PayerGenericAuthReq => "PAYER_GENERIC_AUTH_REQ"
    case PayerPullAuthReq => "PAYER_PULL_AUTH_REQ"
    case FinalizeRequest => "FINALIZE_REQUEST"
    case FinalizeResponse => "FINALIZE_RESPONSE"
    case ErrorResponse => "ERROR_RESPONSE"
  }

  /** A fresh message holding only its message type. */
  function CreateBaseMessage(t: MessageType): (r: Object)
    ensures r.Keys == {MESSAGE_TYPE}
  {
    map[MESSAGE_TYPE := Str(MessageName(t))]
  }

  /** Succeeds exactly when the object declares message type `t`. */
  function ParseBaseMessage(t: MessageType, o: Object): (r: Result<Object, Error>)
    ensures r.Success? <==> MESSAGE_TYPE in o && o[MESSAGE_TYPE] == Str(MessageName(t))
    ensures r.Success? ==> r.value == o
  {
    if MESSAGE_TYPE in o && o[MESSAGE_TYPE] == Str(MessageName(t)) then Success(o)
    else Failure(WrongMessageType(MessageName(t)))
  }

  /** Different message types never accept each other's base message. */
  lemma BaseMessageTypesDisjoint(t: MessageType, u: MessageType)
    requires t != u
    ensures ParseBaseMessage(u, CreateBaseMessage(t)).Failure?
  {
  }
}
