/** The wallet's decision logic: reading the INVOKE_WALLET message,
    choosing among the enumerated credentials the cards that the merchant
    accepts and that can carry out the requested payment mode, deciding
    which view comes next, and the PIN-error report. */
module PaymentAgent {
  import opened Wrappers
  import opened Json
  import opened Decimal
  import PaymentRequest
  import AuthorizationData
  import CheckoutServlet

  // The invoke message.

  /** What the wallet takes from the INVOKE_WALLET message. */
  datatype Invocation = Invocation(
    acceptedCardTypes: seq<string>,
    pullPayment: bool,
    paymentRequest: PaymentRequest.PaymentRequest)

  /** Reading the invoke message: its type, the accepted card types, the
      pull flag (false when absent) and the embedded payment request.
      Properties beyond these are not looked at. */
  function ParseInvocation(o: Object): (r: Result<Invocation, Error>)
    ensures r.Success? ==> ParseBaseMessage(InvokeWallet, o).Success?
    ensures r.Success? ==> ACCEPTED_CARD_TYPES in o && PAYMENT_REQUEST in o
    ensures r.Success? ==> o[ACCEPTED_CARD_TYPES] == StringArray(r.value.acceptedCardTypes)
    ensures r.Success? ==> (r.value.pullPayment <==> PULL_PAYMENT in o && o[PULL_PAYMENT] == Bool(true))
    ensures r.Success? ==> o[PAYMENT_REQUEST] == Object(r.value.paymentRequest.root)
  {
    var base :- ParseBaseMessage(InvokeWallet, o);
    var cardTypes :- GetStringArray(o, ACCEPTED_CARD_TYPES);
    var pullPayment :- GetBooleanConditional(o, PULL_PAYMENT);
    var embedded :- GetObject(o, PAYMENT_REQUEST);
    var paymentRequest :- PaymentRequest.Parse(embedded);
    Success(Invocation(cardTypes, pullPayment, paymentRequest))
  }

  /** An invoke message without the pull flag asks for a push payment. */
  lemma PullPaymentDefaultsToFalse(o: Object)
    requires PULL_PAYMENT !in o && ParseInvocation(o).Success?
    ensures !ParseInvocation(o).value.pullPayment
  {
  }

  /** The merchant's invoke message is read back with its three accepted
      card types in order and pull payment off, whenever the payment
      request it carries is itself readable. */
  lemma ReadsMerchantInvocation(paymentRequest: Object)
    ensures var r := ParseInvocation(CheckoutServlet.InvokeMessage(paymentRequest));
      && (r.Success? <==> PaymentRequest.Parse(paymentRequest).Success?)
      && (r.Success? ==>
            && r.value.acceptedCardTypes == ["NoSuchCard", "SuperCard", "CoolCard"]
            && !r.value.pullPayment
            && r.value.paymentRequest == PaymentRequest.Parse(paymentRequest).value)
  {
  }

  // Enumerated credentials.

  /** The encryption part of a credential's payment-demo extension. */
  datatype Encryption = Encryption(keyEncryptionAlgorithm: string, contentEncryptionAlgorithm: string)

  /** A credential's payment-demo extension, as properties. */
  datatype Extension = Extension(
    cardType: string,
    cardNumber: string,
    signatureAlgorithm: string,
    authUrl: string,
    encryption: Option<Encryption>)

  /** An enumerated key: its handle and its payment-demo extension, absent
      for keys that are not payment credentials. */
  datatype EnumeratedKey = EnumeratedKey(keyHandle: int, extension: Option<Extension>)

  /** The wallet's card record. */
  datatype Card = Card(
    cardNumber: string,
    cardType: string,
    signatureAlgorithm: string,
    authUrl: string,
    keyEncryptionAlgorithm: Option<string>)

  function MakeCard(e: Extension): (c: Card)
    ensures c.cardType == e.cardType && c.cardNumber == e.cardNumber
  {
    Card(e.cardNumber, e.cardType, e.signatureAlgorithm, e.authUrl,
         match e.encryption case Some(enc) => Some(enc.keyEncryptionAlgorithm) case None => None)
  }

  /** The encryption algorithms the wallet can use. */
  predicate AlgorithmsSupported(enc: Encryption) {
    && (enc.keyEncryptionAlgorithm == ECDH_ES || enc.keyEncryptionAlgorithm == RSA_OAEP_256)
    && enc.contentEncryptionAlgorithm == A256CBC_HS512
  }

  /** A key is offered when it has the extension, its card type is
      accepted, its encryption (if any) uses supported algorithms, and it
      has an encryption key when a pull payment is requested. */
  predicate Offered(k: EnumeratedKey, acceptedCardTypes: seq<string>, pullPayment: bool) {
    && k.extension.Some?
    && k.extension.value.cardType in acceptedCardTypes
    && match k.extension.value.encryption
       case Some(enc) => AlgorithmsSupported(enc)
       case None => !pullPayment
  }

  // The card selection, an insertion-ordered map from key handle to card.

  type Selection = seq<(int, Card)>

  predicate HasHandle(sel: Selection, handle: int) {
    exists i :: 0 <= i < |sel| && sel[i].0 == handle
  }

  predicate DistinctHandles(sel: Selection) {
    forall i, j :: 0 <= i < j < |sel| ==> sel[i].0 != sel[j].0
  }

  /** `LinkedHashMap.put`: afterwards the handle maps to the new card, every
      other handle keeps its entry and its place, and a new handle goes
      last. */
  function Put(sel: Selection, handle: int, card: Card): (r: Selection)
    ensures HasHandle(r, handle)
    ensures forall i :: 0 <= i < |r| && r[i].0 == handle ==> r[i].1 == card
    ensures forall h :: h != handle ==> (HasHandle(r, h) <==> HasHandle(sel, h))
    ensures |sel| <= |r| && forall i :: 0 <= i < |sel| && sel[i].0 != handle ==> r[i] == sel[i]
    ensures !HasHandle(sel, handle) ==> r == sel + [(handle, card)]
    ensures DistinctHandles(sel) ==> DistinctHandles(r)
  {
    if HasHandle(sel, handle) then
      var r := seq(|sel|, i requires 0 <= i < |sel| => if sel[i].0 == handle then (handle, card) else sel[i]);
      assert forall i :: 0 <= i < |r| ==> r[i].0 == sel[i].0;
      assert forall h :: HasHandle(r, h) <==> HasHandle(sel, h) by {
        forall h
          ensures HasHandle(r, h) <==> HasHandle(sel, h)
        {
          if HasHandle(sel, h) {
            var i :| 0 <= i < |sel| && sel[i].0 == h;
            assert r[i].0 == h;
          }
          if HasHandle(r, h) {
            var i :| 0 <= i < |r| && r[i].0 == h;
            assert sel[i].0 == h;
          }
        }
      }
      r
    else
      var r := sel + [(handle, card)];
      assert r[|sel|].0 == handle;
      forall h | h != handle
        ensures HasHandle(r, h) <==> HasHandle(sel, h)
      {
        if HasHandle(sel, h) {
          var i :| 0 <= i < |sel| && sel[i].0 == h;
          assert r[i].0 == h;
        }
        if HasHandle(r, h) {
          var i :| 0 <= i < |r| && r[i].0 == h;
          assert sel[i].0 == h;
        }
      }
      r
  }

  /** The selection the enumeration loop builds on top of `initial`. */
  function Select(initial: Selection, keys: seq<EnumeratedKey>, acceptedCardTypes: seq<string>, pullPayment: bool): (r: Selection)
    ensures DistinctHandles(initial) ==> DistinctHandles(r)
    decreases |keys|
  {
    if keys == [] then initial
    else
      var k := keys[|keys| - 1];
      var before := Select(initial, keys[..|keys| - 1], acceptedCardTypes, pullPayment);
      if Offered(k, acceptedCardTypes, pullPayment) then Put(before, k.keyHandle, MakeCard(k.extension.value)) else before
  }

  /** The offered keys in enumeration order, each with its card. */
  function OfferedCards(keys: seq<EnumeratedKey>, acceptedCardTypes: seq<string>, pullPayment: bool): (r: Selection)
    decreases |keys|
  {
    if keys == [] then []
    else
      var k := keys[|keys| - 1];
      OfferedCards(keys[..|keys| - 1], acceptedCardTypes, pullPayment)
        + if Offered(k, acceptedCardTypes, pullPayment) then [(k.keyHandle, MakeCard(k.extension.value))] else []
  }

  /** Every entry of `OfferedCards` comes from an offered key of the
      enumeration, and every offered key has its entry. */
  lemma {:induction false} OfferedCardsMembers(keys: seq<EnumeratedKey>, acceptedCardTypes: seq<string>, pullPayment: bool)
    ensures forall e :: e in OfferedCards(keys, acceptedCardTypes, pullPayment) <==>
      exists k :: k in keys && Offered(k, acceptedCardTypes, pullPayment) && e == (k.keyHandle, MakeCard(k.extension.value))
    decreases |keys|
  {
    if keys != [] {
      var prefix := keys[..|keys| - 1];
      var last := keys[|keys| - 1];
      OfferedCardsMembers(prefix, acceptedCardTypes, pullPayment);
      assert keys == prefix + [last];
      forall e | e in OfferedCards(keys, acceptedCardTypes, pullPayment)
        ensures exists k :: k in keys && Offered(k, acceptedCardTypes, pullPayment) && e == (k.keyHandle, MakeCard(k.extension.value))
      {
        if e in OfferedCards(prefix, acceptedCardTypes, pullPayment) {
          var k :| k in prefix && Offered(k, acceptedCardTypes, pullPayment) && e == (k.keyHandle, MakeCard(k.extension.value));
          assert k in keys;
        } else {
          assert last in keys;
        }
      }
    }
  }

  /** Key handles of distinct enumerated keys differ. */
  predicate DistinctKeyHandles(keys: seq<EnumeratedKey>) {
    forall i, j :: 0 <= i < j < |keys| ==> keys[i].keyHandle != keys[j].keyHandle
  }

  /** A handle that no key carries has no entry in `OfferedCards`. */
  lemma {:induction false} OfferedHandlesFromKeys(keys: seq<EnumeratedKey>, acceptedCardTypes: seq<string>, pullPayment: bool, handle: int)
    requires forall i :: 0 <= i < |keys| ==> keys[i].keyHandle != handle
    ensures !HasHandle(OfferedCards(keys, acceptedCardTypes, pullPayment), handle)
    decreases |keys|
  {
    if keys != [] {
      var prefix := keys[..|keys| - 1];
      assert forall i :: 0 <= i < |prefix| ==> prefix[i] == keys[i];
      OfferedHandlesFromKeys(prefix, acceptedCardTypes, pullPayment, handle);
      var offered := OfferedCards(prefix, acceptedCardTypes, pullPayment);
      var all := OfferedCards(keys, acceptedCardTypes, pullPayment);
      forall i | 0 <= i < |all|
        ensures all[i].0 != handle
      {
        if i < |offered| {
          assert all[i] == offered[i];
        } else {
          assert all[i].0 == keys[|keys| - 1].keyHandle;
        }
      }
    }
  }

  /** Starting from the empty map, and with the key store's handles all
      different, the selection is exactly the offered keys, in enumeration
      order, each with its card. */
  lemma {:induction false} SelectIsOfferedCards(keys: seq<EnumeratedKey>, acceptedCardTypes: seq<string>, pullPayment: bool)
    requires DistinctKeyHandles(keys)
    ensures Select([], keys, acceptedCardTypes, pullPayment) == OfferedCards(keys, acceptedCardTypes, pullPayment)
    decreases |keys|
  {
    if keys != [] {
      var prefix := keys[..|keys| - 1];
      var k := keys[|keys| - 1];
      assert DistinctKeyHandles(prefix) by {
        forall i, j | 0 <= i < j < |prefix|
          ensures prefix[i].keyHandle != prefix[j].keyHandle
        {
          assert prefix[i] == keys[i] && prefix[j] == keys[j];
        }
      }
      SelectIsOfferedCards(prefix, acceptedCardTypes, pullPayment);
      forall i | 0 <= i < |prefix|
        ensures prefix[i].keyHandle != k.keyHandle
      {
        assert prefix[i] == keys[i];
      }
      OfferedHandlesFromKeys(prefix, acceptedCardTypes, pullPayment, k.keyHandle);
    }
  }

  /** The next step once the keys have been enumerated. */
  datatype View =
    | TerminatingError(message: string)
    | AuthorizationView(keyHandle: int)
    | CardSelectionView

  const NO_MATCHING_CARD: string := "No matching card!"

  /** No card: a terminating error; one card: straight to its authorization;
      more: the selection view. */
  function NextView(sel: Selection): (v: View)
    ensures v.TerminatingError? <==> |sel| == 0
    ensures v.AuthorizationView? <==> |sel| == 1
    ensures v.AuthorizationView? ==> v.keyHandle == sel[0].0
    ensures v.TerminatingError? ==> v.message == NO_MATCHING_CARD
  {
    if |sel| == 0 then TerminatingError(NO_MATCHING_CARD)
    else if |sel| == 1 then AuthorizationView(sel[0].0)
    else CardSelectionView
  }

  /** The wallet ends with an error exactly when no key is offered. */
  lemma NoMatchingCard(keys: seq<EnumeratedKey>, acceptedCardTypes: seq<string>, pullPayment: bool)
    requires DistinctKeyHandles(keys)
    ensures NextView(Select([], keys, acceptedCardTypes, pullPayment)).TerminatingError? <==>
      forall k :: k in keys ==> !Offered(k, acceptedCardTypes, pullPayment)
  {
    SelectIsOfferedCards(keys, acceptedCardTypes, pullPayment);
    OfferedCardsMembers(keys, acceptedCardTypes, pullPayment);
    var offered := OfferedCards(keys, acceptedCardTypes, pullPayment);
    forall k | k in keys && Offered(k, acceptedCardTypes, pullPayment)
      ensures |offered| > 0
    {
      assert (k.keyHandle, MakeCard(k.extension.value)) in offered;
    }
    if |offered| > 0 {
      assert offered[0] in offered;
    }
  }

  /** The wallet's state: the static card selection. */
  class Agent {
    var cardSelection: Selection

    constructor()
      ensures cardSelection == []
    {
      cardSelection := [];
    }

    /** The enumeration loop: for every key with the extension, the first
        accepted card type equal to the key's ends the inner loop, either by
        rejecting the key's algorithms or pull capability, or by putting the
        card into the selection. */
    method SelectCards(keys: seq<EnumeratedKey>, acceptedCardTypes: seq<string>, pullPayment: bool)
      modifies this
      ensures cardSelection == Select(old(cardSelection), keys, acceptedCardTypes, pullPayment)
    {
      var i := 0;
      while i < |keys|
        invariant 0 <= i <= |keys|
        invariant cardSelection == Select(old(cardSelection), keys[..i], acceptedCardTypes, pullPayment)
      {
        var k := keys[i];
        assert keys[..i + 1][..i] == keys[..i];
        if k.extension.Some? {
          var e := k.extension.value;
          for j := 0 to |acceptedCardTypes|
            invariant e.cardType !in acceptedCardTypes[..j]
            invariant cardSelection == Select(old(cardSelection), keys[..i], acceptedCardTypes, pullPayment)
          {
            if e.cardType == acceptedCardTypes[j] {
              var card := Card(e.cardNumber, acceptedCardTypes[j], e.signatureAlgorithm, e.authUrl, None);
              if e.encryption.Some? {
                var enc := e.encryption.value;
                card := card.(keyEncryptionAlgorithm := Some(enc.keyEncryptionAlgorithm));
                if enc.keyEncryptionAlgorithm != ECDH_ES && enc.keyEncryptionAlgorithm != RSA_OAEP_256 {
                  break;
                }
                if enc.contentEncryptionAlgorithm != A256CBC_HS512 {
                  break;
                }
              } else if pullPayment {
                break;
              }
              assert card == MakeCard(e);
              cardSelection := Put(cardSelection, k.keyHandle, card);
              break;
            }
            assert acceptedCardTypes[..j + 1] == acceptedCardTypes[..j] + [acceptedCardTypes[j]];
          }
          assert acceptedCardTypes[..|acceptedCardTypes|] == acceptedCardTypes;
        }
        i := i + 1;
      }
      assert keys[..i] == keys;
    }
  }

  /** `formatCardNumber`, the wallet's own copy: the same grouping by four. */
  method FormatCardNumber(cardNumber: string) returns (s: string)
    ensures s == AuthorizationData.Grouped(cardNumber)
  {
    s := "";
    for q := 0 to |cardNumber|
      invariant s == AuthorizationData.Grouped(cardNumber[..q])
    {
      if q != 0 && q % 4 == 0 {
        s := s + " ";
      }
      s := s + [cardNumber[q]];
      assert cardNumber[..q + 1][..q] == cardNumber[..q];
    }
    assert cardNumber[..|cardNumber|] == cardNumber;
  }

  // The PIN check of the authorization view.

  /** What the key store reports about a key's PIN. */
  datatype KeyProtection = KeyProtection(pinBlocked: bool, pinRetryLimit: int, pinErrorCount: int)

  /** How the signing attempt with the entered PIN ended. */
  datatype Signing = Signed | WrongPin | OtherProblem

  datatype AuthorizationOutcome =
    | Authorized
    | CardBlocked(message: string)
    | IncorrectPin(message: string)
    | KeyStoreProblem

  const CARD_BLOCKED: string := "Card blocked due to previous PIN errors!"

  /** The number of tries the dialog reports. */
  function TriesLeft(p: KeyProtection): int {
    p.pinRetryLimit - p.pinErrorCount
  }

  /** The dialog text after a wrong PIN. */
  function IncorrectPinMessage(p: KeyProtection): string {
    "<html>Incorrect PIN.<br>There are " + IntToString(TriesLeft(p)) + " tries left.</html>"
  }

  /** `userAuthorizationSucceeded`: a key already blocked is refused; a
      signature with the right PIN authorizes; a wrong PIN reports the tries
      left, unless that error has just blocked the key. */
  function UserAuthorization(before: KeyProtection, signing: Signing, after: KeyProtection): (r: AuthorizationOutcome)
    ensures r.Authorized? <==> !before.pinBlocked && signing == Signed
    ensures r.CardBlocked? <==> before.pinBlocked || (signing == WrongPin && after.pinBlocked)
    ensures r.CardBlocked? ==> r == CardBlocked(CARD_BLOCKED)
    ensures r.KeyStoreProblem? <==> !before.pinBlocked && signing == OtherProblem
    ensures r.IncorrectPin? <==> !before.pinBlocked && signing == WrongPin && !after.pinBlocked
    ensures r.IncorrectPin? ==> r.message == IncorrectPinMessage(after)
  {
    if before.pinBlocked then CardBlocked(CARD_BLOCKED)
    else
      match signing
      case Signed => Authorized
      case OtherProblem => KeyStoreProblem
      case WrongPin =>
        if after.pinBlocked then CardBlocked(CARD_BLOCKED) else IncorrectPin(IncorrectPinMessage(after))
  }

  /** The dialog shows `pinRetryLimit - pinErrorCount`, right after the fixed
      prefix, and different counts of tries left give different texts. */
  lemma IncorrectPinShowsTriesLeft(p: KeyProtection, q: KeyProtection)
    ensures var m := IncorrectPinMessage(p);
      var prefix := "<html>Incorrect PIN.<br>There are ";
      var suffix := " tries left.</html>";
      m[..|prefix|] == prefix && m[|prefix|..|m| - |suffix|] == IntToString(TriesLeft(p)) && m[|m| - |suffix|..] == suffix
    ensures IncorrectPinMessage(p) == IncorrectPinMessage(q) ==> TriesLeft(p) == TriesLeft(q)
  {
    var prefix := "<html>Incorrect PIN.<br>There are ";
    var suffix := " tries left.</html>";
    var m := IncorrectPinMessage(p);
    var n := IncorrectPinMessage(q);
    assert m[|prefix|..|m| - |suffix|] == IntToString(TriesLeft(p));
    if m == n {
      assert n[|prefix|..|n| - |suffix|] == IntToString(TriesLeft(q));
      IntToStringInjective(TriesLeft(p), TriesLeft(q));
    }
  }
}
