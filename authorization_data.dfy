/** `AuthorizationData`: what the payer signs for the bank.  It embeds the
    merchant's payment request verbatim, adds the payer's domain and account,
    and is signed with a certificate-path signer.  The module also holds the
    card-number grouping used to display account numbers. */
module AuthorizationData {
  import opened Wrappers
  import opened Json
  import PaymentRequest

  const SOFTWARE_NAME: string := "WebPKI.org - Wallet"
  const SOFTWARE_VERSION: string := "1.00"

  /** The properties an authorization consists of. */
  const Fields: set<string> := {PAYMENT_REQUEST, DOMAIN_NAME, ACCOUNT_TYPE, ACCOUNT_ID, TIME_STAMP, SOFTWARE, SIGNATURE}

  datatype AuthorizationData = AuthorizationData(
    paymentRequest: PaymentRequest.PaymentRequest,
    domainName: string,
    accountType: string,
    accountId: string,
    timeStamp: int,
    software: Value,
    signature: Signature)

  /** `encode` with an explicit time stamp and certificate-path signer. */
  function Encode(paymentRequest: PaymentRequest.PaymentRequest, domainName: string, accountType: string,
                  accountId: string, timeStamp: int, signer: Signer): (r: Object)
    ensures r.Keys == Fields
    ensures r[PAYMENT_REQUEST] == Object(paymentRequest.root)
    ensures r[SIGNATURE].SignatureValue? && r[SIGNATURE].signature.kind == X509Certificate
  {
    var unsigned := map[
      PAYMENT_REQUEST := Object(paymentRequest.root),
      DOMAIN_NAME := Str(domainName),
      ACCOUNT_TYPE := Str(accountType),
      ACCOUNT_ID := Str(accountId),
      TIME_STAMP := DateTime(timeStamp),
      SOFTWARE := Software(SOFTWARE_NAME, SOFTWARE_VERSION)];
    SetSignature(unsigned, X509Certificate, signer)
  }

  /** `encode` from a raw signing key: the certificate-path signer is built
      around `signData` with the given signature algorithm, and the time
      stamp is the current time `now`. */
  function EncodeWithKey(paymentRequest: PaymentRequest.PaymentRequest, domainName: string, accountType: string,
                         accountId: string, signatureAlgorithm: string, signData: Object -> Bytes,
                         now: int): (r: Object)
    ensures r.Keys == Fields
    ensures r[TIME_STAMP] == DateTime(now)
    ensures r[SIGNATURE].SignatureValue? && r[SIGNATURE].signature.kind == X509Certificate
    ensures r[SIGNATURE].signature.algorithm == signatureAlgorithm
  {
    Encode(paymentRequest, domainName, accountType, accountId, now,
           (o: Object) => (signatureAlgorithm, signData(o)))
  }

  /** What the parser accepts: exactly the seven properties, each of the type
      it is read as, with an embedded object that is itself a well-formed
      payment request.  Any signature kind is accepted. */
  predicate WellFormed(o: Object) {
    && o.Keys == Fields
    && o[PAYMENT_REQUEST].Object? && PaymentRequest.WellFormed(o[PAYMENT_REQUEST].fields)
    && o[DOMAIN_NAME].Str?
    && o[ACCOUNT_TYPE].Str?
    && o[ACCOUNT_ID].Str?
    && o[TIME_STAMP].DateTime?
    && o[SOFTWARE].Software?
    && o[SIGNATURE].SignatureValue?
  }

  /** The parsing constructor. */
  function Parse(o: Object): (r: Result<AuthorizationData, Error>)
    ensures r.Success? ==> o.Keys == Fields && o[PAYMENT_REQUEST] == Object(r.value.paymentRequest.root)
    ensures r.Success? ==>
      && o[DOMAIN_NAME] == Str(r.value.domainName)
      && o[ACCOUNT_TYPE] == Str(r.value.accountType)
      && o[ACCOUNT_ID] == Str(r.value.accountId)
      && o[SIGNATURE] == SignatureValue(r.value.signature)
  {
    var embedded :- GetObject(o, PAYMENT_REQUEST);
    var paymentRequest :- PaymentRequest.Parse(embedded);
    var domainName :- GetString(o, DOMAIN_NAME);
    var accountType :- GetString(o, ACCOUNT_TYPE);
    var accountId :- GetString(o, ACCOUNT_ID);
    var timeStamp :- GetDateTime(o, TIME_STAMP);
    var software :- GetSoftware(o);
    var signature :- GetSignature(o);
    var allRead :- CheckForUnread(o, Fields);
    Success(AuthorizationData(paymentRequest, domainName, accountType, accountId, timeStamp, software, signature))
  }

  /** Parsing succeeds exactly on well-formed objects. */
  lemma ParseSucceedsIff(o: Object)
    ensures Parse(o).Success? <==> WellFormed(o)
  {
    if PAYMENT_REQUEST in o && o[PAYMENT_REQUEST].Object? {
      PaymentRequest.ParseSucceedsIff(o[PAYMENT_REQUEST].fields);
    }
  }

  /** Any property beyond the seven that are read makes parsing fail. */
  lemma ExtraPropertyRejected(o: Object, extra: string)
    requires extra in o && extra !in Fields
    ensures Parse(o).Failure?
  {
    ParseSucceedsIff(o);
  }

  /** An embedded payment request that its own parser refuses makes the
      whole authorization fail, with that parser's error. */
  lemma EmbeddedRequestRejected(o: Object)
    requires PAYMENT_REQUEST in o && o[PAYMENT_REQUEST].Object?
    requires PaymentRequest.Parse(o[PAYMENT_REQUEST].fields).Failure?
    ensures Parse(o) == Failure(PaymentRequest.Parse(o[PAYMENT_REQUEST].fields).error)
  {
  }

  /** Encoding a parsed payment request with an authorization and parsing the
      result gives back the same payment request, domain and account. */
  lemma EncodeParse(received: Object, domainName: string, accountType: string, accountId: string,
                    timeStamp: int, signer: Signer)
    requires PaymentRequest.Parse(received).Success?
    ensures var pr := PaymentRequest.Parse(received).value;
      var r := Parse(Encode(pr, domainName, accountType, accountId, timeStamp, signer));
      && r.Success?
      && r.value.paymentRequest == pr
      && r.value.domainName == domainName
      && r.value.accountType == accountType
      && r.value.accountId == accountId
      && r.value.timeStamp == timeStamp
      && r.value.software == Software(SOFTWARE_NAME, SOFTWARE_VERSION)
  {
    var pr := PaymentRequest.Parse(received).value;
    var o := Encode(pr, domainName, accountType, accountId, timeStamp, signer);
    PaymentRequest.ParseSucceedsIff(received);
    ParseSucceedsIff(o);
  }

  // Card-number grouping.

  /** `formatCardNumber` as a value: every character of `accountId` in order,
      with one space written before the characters at 4, 8, 12, ... */
  function Grouped(accountId: string): (r: string)
    ensures |accountId| == 0 ==> r == ""
    ensures |accountId| > 0 ==> |r| == |accountId| + (|accountId| - 1) / 4
  {
    if accountId == [] then []
    else
      var q := |accountId| - 1;
      Grouped(accountId[..q]) + (if q != 0 && q % 4 == 0 then " " else "") + [accountId[q]]
  }

  /** Where the q-th input character and the separator before it land. */
  lemma Positions(q: nat)
    ensures q > 0 ==> (q - 1) / 4 == if q % 4 == 0 then q / 4 - 1 else q / 4
    ensures (q + q / 4) % 5 == q % 4 && (q + q / 4) / 5 == q / 4
    ensures q > 0 && q % 4 == 0 ==> (q + (q - 1) / 4) % 5 == 4
    ensures q > 0 && q % 4 != 0 ==> (q + (q - 1) / 4) % 5 != 4
  {
    var a := q / 4;
    var b := q % 4;
    assert q == 4 * a + b;
    assert q + q / 4 == 5 * a + b;
  }

  /** Position by position: a space at 4, 9, 14, ... and the account number's
      characters, in order, everywhere else. */
  predicate SpacedEveryFour(accountId: string, r: string) {
    && (forall i :: 0 <= i < |r| && i % 5 == 4 ==> r[i] == ' ')
    && (forall i :: 0 <= i < |r| && i % 5 != 4 ==> 0 <= i - i / 5 < |accountId| && r[i] == accountId[i - i / 5])
  }

  lemma {:induction false} GroupedLayout(accountId: string)
    ensures SpacedEveryFour(accountId, Grouped(accountId))
  {
    if accountId != [] {
      var q := |accountId| - 1;
      var shorter := accountId[..q];
      var prefix := Grouped(shorter);
      var r := Grouped(accountId);
      GroupedLayout(shorter);
      Positions(q);
      var last := |r| - 1;
      assert last == q + q / 4;
      assert last % 5 != 4 && last - last / 5 == q;
      assert r[last] == accountId[q];
      assert q != 0 && q % 4 == 0 ==> |prefix| % 5 == 4 && r[|prefix|] == ' ';
      forall i | 0 <= i < |prefix| && i % 5 == 4
        ensures r[i] == ' '
      {
        assert r[i] == prefix[i];
      }
      forall i | 0 <= i < |prefix| && i % 5 != 4
        ensures r[i] == accountId[i - i / 5]
      {
        assert r[i] == prefix[i];
        assert prefix[i] == shorter[i - i / 5];
      }
    }
  }

  /** Where the j-th character outside the separator positions of a text of
      length `m` sits. */
  lemma KeptPosition(m: nat, j: nat)
    requires j < m - m / 5
    ensures j + j / 4 < m
    ensures (j + j / 4) % 5 != 4 && (j + j / 4) - (j + j / 4) / 5 == j
  {
    var c, d := j / 4, j % 4;
    assert j + j / 4 == 5 * c + d;
    var a, b := m / 5, m % 5;
    assert m == 5 * a + b;
  }

  /** The characters of `r` outside the separator positions 4, 9, 14, ...:
      the j-th of them sits at `j + j / 4`. */
  function Ungrouped(r: string): (u: string)
    ensures |u| == |r| - |r| / 5
  {
    seq(|r| - |r| / 5, j requires 0 <= j < |r| - |r| / 5 => KeptPosition(|r|, j); r[j + j / 4])
  }

  /** A grouped number of `n > 0` characters keeps exactly `n`. */
  lemma GroupedLengthKeeps(n: nat)
    requires n > 0
    ensures var m := n + (n - 1) / 4; m - m / 5 == n
  {
    var a, b := (n - 1) / 4, (n - 1) % 4;
    assert n + (n - 1) / 4 == 5 * a + b + 1;
  }

  /** The j-th character of the account number lands at `j + j / 4`. */
  lemma GroupedAt(accountId: string, j: nat)
    requires j < |accountId|
    ensures j + j / 4 < |Grouped(accountId)| && Grouped(accountId)[j + j / 4] == accountId[j]
  {
    var r := Grouped(accountId);
    GroupedLayout(accountId);
    GroupedLengthKeeps(|accountId|);
    KeptPosition(|r|, j);
    var i := j + j / 4;
    assert r[i] == accountId[i - i / 5];
  }

  /** Taking the separators out again gives back the account number. */
  lemma UngroupedGrouped(accountId: string)
    ensures Ungrouped(Grouped(accountId)) == accountId
  {
    var r := Grouped(accountId);
    if |accountId| > 0 {
      GroupedLengthKeeps(|accountId|);
    }
    var u := Ungrouped(r);
    assert |u| == |accountId|;
    forall j | 0 <= j < |accountId|
      ensures u[j] == accountId[j]
    {
      GroupedAt(accountId, j);
    }
  }

  /** In particular the output never starts or ends with a space when the
      account number does not. */
  lemma GroupedEnds(accountId: string)
    requires |accountId| > 0
    ensures Grouped(accountId)[0] == accountId[0]
    ensures Grouped(accountId)[|Grouped(accountId)| - 1] == accountId[|accountId| - 1]
  {
    var n := |accountId|;
    var last := |Grouped(accountId)| - 1;
    GroupedLayout(accountId);
    Positions(n - 1);
    assert last == (n - 1) + (n - 1) / 4;
  }

  /** `formatCardNumber`: the string-buffer loop with its character counter. */
  method FormatCardNumber(accountId: string) returns (s: string)
    ensures s == Grouped(accountId)
  {
    s := "";
    var q := 0;
    while q < |accountId|
      invariant 0 <= q <= |accountId|
      invariant s == Grouped(accountId[..q])
    {
      if q != 0 && q % 4 == 0 {
        s := s + " ";
      }
      s := s + [accountId[q]];
      assert accountId[..q + 1][..q] == accountId[..q];
      q := q + 1;
    }
    assert accountId[..q] == accountId;
  }
}
