/** `ErrorReturn`: the closed set of business errors a bank can report about
    the payer's account, each with a fixed numeric code and clear text, plus
    an optional free-text description. */
module ErrorReturn {
  import opened Wrappers
  import opened Json

  datatype Errors = InsufficientFunds | ExpiredCredential | BlockedAccount | OtherError

  function ErrorCode(e: Errors): int {
    match e
    case InsufficientFunds => 0
    case ExpiredCredential => 1
    case BlockedAccount => 2
    case OtherError => 3
  }

  function ClearText(e: Errors): string {
    match e
    case InsufficientFunds => "Insufficient Funds"
    case ExpiredCredential => "Expired Credential"
    case BlockedAccount => "Account is blocked"
    case OtherError => "Other Error"
  }

  /** `ERRORS.values()`, in declaration order. */
  const Values: seq<Errors> := [InsufficientFunds, ExpiredCredential, BlockedAccount, OtherError]

  /** Every member is listed once by `Values`, and the codes are 0, 1, 2, 3
      in that order, so no two members share a code. */
  lemma ValuesAreTheCodes()
    ensures forall e: Errors :: e in Values
    ensures forall i :: 0 <= i < |Values| ==> ErrorCode(Values[i]) == i
    ensures forall e, f: Errors :: ErrorCode(e) == ErrorCode(f) ==> e == f
  {
    forall e: Errors
      ensures e in Values
    {
      assert Values[ErrorCode(e)] == e;
    }
  }

  datatype ErrorReturn = ErrorReturn(error: Errors, optionalDescription: Option<string>) {

    /** The clear text fixed for this return's member. */
    function GetClearText(): (r: string)
      ensures r == ClearText(error)
      ensures r != ""
    {
      ClearText(error)
    }
  }

  /** The first member of `values` whose code is `code`. */
  function FirstWithCode(values: seq<Errors>, code: int): (r: Option<Errors>)
    ensures r.Some? ==> r.value in values && ErrorCode(r.value) == code
    ensures r.None? <==> forall e :: e in values ==> ErrorCode(e) != code
  {
    if values == [] then None
    else if ErrorCode(values[0]) == code then Some(values[0])
    else FirstWithCode(values[1..], code)
  }

  /** Exactly the codes 0 to 3 belong to a member. */
  lemma CodeIsListed(code: int)
    ensures FirstWithCode(Values, code).Some? <==> 0 <= code <= 3
  {
    ValuesAreTheCodes();
    if 0 <= code <= 3 {
      assert Values[code] in Values;
    }
  }

  /** The lookup constructor `ErrorReturn(int, String)` as a value: the
      member with that code, or the "Unknown errorCode" failure. */
  function FromCode(code: int, description: Option<string>): (r: Result<ErrorReturn, Error>)
    ensures r.Success? <==> 0 <= code <= 3
    ensures r.Success? ==> ErrorCode(r.value.error) == code && r.value.optionalDescription == description
    ensures r.Failure? ==> r.error == UnknownErrorCode(code)
  {
    CodeIsListed(code);
    match FirstWithCode(Values, code)
    case Some(e) => Success(ErrorReturn(e, description))
    case None => Failure(UnknownErrorCode(code))
  }

  /** Constructing from a member's own code gives back that member and the
      description unchanged. */
  lemma FromCodeRoundTrip(e: Errors, description: Option<string>)
    ensures FromCode(ErrorCode(e), description) == Success(ErrorReturn(e, description))
  {
    ValuesAreTheCodes();
  }

  /** The constructor's loop over `ERRORS.values()`: assign on the first
      match, otherwise throw. */
  method Lookup(code: int, description: Option<string>) returns (r: Result<ErrorReturn, Error>)
    ensures r == FromCode(code, description)
  {
    var i := 0;
    while i < |Values|
      invariant 0 <= i <= |Values|
      invariant FirstWithCode(Values, code) == FirstWithCode(Values[i..], code)
    {
      if ErrorCode(Values[i]) == code {
        return Success(ErrorReturn(Values[i], description));
      }
      assert Values[i..][1..] == Values[i + 1..];
      i := i + 1;
    }
    return Failure(UnknownErrorCode(code));
  }

  /** `write`: sets the error code and, only when there is one, the
      description; every other property of the writer is left alone. */
  function Write(er: ErrorReturn, wr: Object): (r: Object)
    ensures r.Keys == wr.Keys + {ERROR_CODE} + (if er.optionalDescription.Some? then {DESCRIPTION} else {})
    ensures r[ERROR_CODE] == Int(ErrorCode(er.error))
    ensures er.optionalDescription.Some? ==> r[DESCRIPTION] == Str(er.optionalDescription.value)
    ensures forall k :: k in wr && k != ERROR_CODE && k != DESCRIPTION ==> r[k] == wr[k]
    ensures er.optionalDescription.None? && DESCRIPTION in wr ==> r[DESCRIPTION] == wr[DESCRIPTION]
  {
    var wr' := wr[ERROR_CODE := Int(ErrorCode(er.error))];
    match er.optionalDescription
    case None => wr'
    case Some(d) => wr'[DESCRIPTION := Str(d)]
  }
}
