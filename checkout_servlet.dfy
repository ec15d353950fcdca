/** The merchant's checkout servlet: it totals the shopping cart in cents,
    saves the cart, prices a USD payment request numbered from a
    process-wide counter, and builds the INVOKE_WALLET message that starts
    the wallet. */
module CheckoutServlet {
  import opened Wrappers
  import opened Json
  import opened Decimal
  import Int32
  import Currencies
  import PaymentRequest

  /** The counter's value when the servlet class is loaded. */
  const INITIAL_REFERENCE_ID: int := 1000000

  const PAYEE_NAME: string := "Demo Merchant"

  // Properties of one cart item.
  const UNITS: string := "units"
  const SKU: string := "sku"
  const PRICE_MULT_100: string := "price_mult_100"

  /** The card types the merchant accepts, in the order it lists them. */
  const ACCEPTED_CARD_TYPE_NAMES: seq<string> := ["NoSuchCard", "SuperCard", "CoolCard"]

  /** The cart kept in the session: units per SKU and the total in cents. */
  datatype SavedShoppingCart = SavedShoppingCart(items: map<string, int>, total: int)

  /** One turn of the cart loop.  An item with zero units is passed over
      without reading its SKU or price; otherwise the SKU's units are
      (re)placed and `units * price` is added, both in 32-bit `int`s. */
  function AddItem(saved: SavedShoppingCart, item: Value): (r: Result<SavedShoppingCart, Error>)
    requires Int32.InRange(saved.total)
    ensures r.Success? ==> Int32.InRange(r.value.total)
  {
    if !item.Object? then Failure(WrongType("shoppingcart"))
    else
      var units :- GetInt(item.fields, UNITS);
      if units == 0 then Success(saved)
      else
        var sku :- GetString(item.fields, SKU);
        var price :- GetInt(item.fields, PRICE_MULT_100);
        Success(SavedShoppingCart(saved.items[sku := units], Int32.Wrap(saved.total + Int32.Wrap(units * price))))
  }

  /** The cart loop over the whole cart, as a value. */
  function Tally(cart: seq<Value>): (r: Result<SavedShoppingCart, Error>)
    ensures r.Success? ==> Int32.InRange(r.value.total)
    decreases |cart|
  {
    if cart == [] then Success(SavedShoppingCart(map[], 0))
    else
      var saved :- Tally(cart[..|cart| - 1]);
      AddItem(saved, cart[|cart| - 1])
  }

  // An independent statement of what the loop computes.

  /** The units of an item, when it can be read. */
  function Units(item: Value): (u: Option<int>) {
    if item.Object? && UNITS in item.fields && item.fields[UNITS].Int? then Some(item.fields[UNITS].i) else None
  }

  /** What an item adds to the exact total: `units * price` for a non-zero
      number of units, nothing otherwise. */
  function Contribution(item: Value): int {
    match Units(item)
    case Some(u) =>
      if u != 0 && PRICE_MULT_100 in item.fields && item.fields[PRICE_MULT_100].Int?
      then u * item.fields[PRICE_MULT_100].i else 0
    case None => 0
  }

  /** The mathematical sum of the contributions. */
  function ExactTotal(cart: seq<Value>): int
    decreases |cart|
  {
    if cart == [] then 0 else ExactTotal(cart[..|cart| - 1]) + Contribution(cart[|cart| - 1])
  }

  /** The units of the last item with a non-zero number of units for `sku`. */
  function LastUnits(cart: seq<Value>, sku: string): Option<int>
    decreases |cart|
  {
    if cart == [] then None
    else
      var item := cart[|cart| - 1];
      if Units(item).Some? && Units(item).value != 0 && SKU in item.fields && item.fields[SKU] == Str(sku)
      then Some(Units(item).value)
      else LastUnits(cart[..|cart| - 1], sku)
  }

  /** The saved total is the exact sum of `units * price` over the items
      with non-zero units, reduced to a 32-bit `int` as Java's arithmetic
      does; when that sum fits in an `int` it is the sum itself. */
  lemma {:induction false} TallyTotal(cart: seq<Value>)
    requires Tally(cart).Success?
    ensures Tally(cart).value.total == Int32.Wrap(ExactTotal(cart))
    ensures Int32.InRange(ExactTotal(cart)) ==> Tally(cart).value.total == ExactTotal(cart)
    decreases |cart|
  {
    if cart != [] {
      var prefix := cart[..|cart| - 1];
      var item := cart[|cart| - 1];
      TallyTotal(prefix);
      var saved := Tally(prefix).value;
      var exact := ExactTotal(prefix);
      assert saved.total == Int32.Wrap(exact);
      assert AddItem(saved, item).Success?;
      var units := item.fields[UNITS].i;
      if units != 0 {
        var product := units * item.fields[PRICE_MULT_100].i;
        assert Contribution(item) == product;
        assert Tally(cart).value.total == Int32.Wrap(Int32.Wrap(exact) + Int32.Wrap(product));
        Int32.WrapAdd(exact, Int32.Wrap(product));
        Int32.WrapAdd(product, exact);
        assert exact + Int32.Wrap(product) == Int32.Wrap(product) + exact;
      } else {
        assert Contribution(item) == 0;
      }
    }
  }

  /** A failure while reading a prefix of the cart is the failure of the
      whole cart: later items are never looked at. */
  lemma {:induction false} TallyPrefixFailure(cart: seq<Value>, i: nat)
    requires i <= |cart| && Tally(cart[..i]).Failure?
    ensures Tally(cart) == Tally(cart[..i])
    decreases |cart| - i
  {
    if i < |cart| {
      var shorter := cart[..|cart| - 1];
      assert shorter[..i] == cart[..i];
      TallyPrefixFailure(shorter, i);
    } else {
      assert cart[..i] == cart;
    }
  }

  /** The saved items hold, for each SKU, the units of its last item with
      non-zero units; SKUs whose items all have zero units are absent. */
  lemma {:induction false} TallyItems(cart: seq<Value>, sku: string)
    requires Tally(cart).Success?
    ensures sku in Tally(cart).value.items <==> LastUnits(cart, sku).Some?
    ensures sku in Tally(cart).value.items ==> Tally(cart).value.items[sku] == LastUnits(cart, sku).value
    decreases |cart|
  {
    if cart != [] {
      TallyItems(cart[..|cart| - 1], sku);
    }
  }

  /** An item with zero units changes neither the items nor the total, and
      needs neither a SKU nor a price. */
  lemma ZeroUnitsIgnored(cart: seq<Value>, item: Value)
    requires item.Object? && UNITS in item.fields && item.fields[UNITS] == Int(0)
    ensures Tally(cart + [item]) == Tally(cart)
  {
    assert (cart + [item])[..|cart|] == cart;
  }

  /** With a SKU listed twice, the items keep the second units value while
      the total counts both items. */
  lemma DuplicateSku()
    ensures var first := Object(map[UNITS := Int(1), SKU := Str("A"), PRICE_MULT_100 := Int(100)]);
      var second := Object(map[UNITS := Int(2), SKU := Str("A"), PRICE_MULT_100 := Int(100)]);
      var r := Tally([first, second]);
      r.Success? && r.value.items == map["A" := 2] && r.value.total == 300
  {
    var first := Object(map[UNITS := Int(1), SKU := Str("A"), PRICE_MULT_100 := Int(100)]);
    var second := Object(map[UNITS := Int(2), SKU := Str("A"), PRICE_MULT_100 := Int(100)]);
    assert [first, second][..1] == [first];
    assert [first][..0] == [];
    assert Tally([]) == Success(SavedShoppingCart(map[], 0));
    var one := AddItem(SavedShoppingCart(map[], 0), first);
    assert GetInt(first.fields, UNITS) == Success(1);
    assert GetString(first.fields, SKU) == Success("A");
    assert GetInt(first.fields, PRICE_MULT_100) == Success(100);
    assert one == Success(SavedShoppingCart(map["A" := 1], 100));
    assert Tally([first]) == one;
    assert GetInt(second.fields, UNITS) == Success(2);
    assert GetString(second.fields, SKU) == Success("A");
    assert GetInt(second.fields, PRICE_MULT_100) == Success(100);
    assert Int32.Wrap(2 * 100) == 200 && Int32.Wrap(100 + 200) == 300;
    assert map["A" := 1]["A" := 2] == map["A" := 2];
    assert AddItem(one.value, second) == Success(SavedShoppingCart(map["A" := 2], 300));
  }

  /** The reference id issued for counter value `counter`. */
  function ReferenceId(counter: int): string {
    "#" + IntToString(counter)
  }

  /** The INVOKE_WALLET message: the accepted card types, pull payment off
      and the payment request. */
  function InvokeMessage(paymentRequest: Object): (r: Object)
    ensures r.Keys == {MESSAGE_TYPE, ACCEPTED_CARD_TYPES, PULL_PAYMENT, PAYMENT_REQUEST}
    ensures r[MESSAGE_TYPE] == Str(MessageName(InvokeWallet))
    ensures r[ACCEPTED_CARD_TYPES] == StringArray(["NoSuchCard", "SuperCard", "CoolCard"])
    ensures r[PULL_PAYMENT] == Bool(false) && r[PAYMENT_REQUEST] == Object(paymentRequest)
  {
    CreateBaseMessage(InvokeWallet)[
      ACCEPTED_CARD_TYPES := StringArray(ACCEPTED_CARD_TYPE_NAMES)][
      PULL_PAYMENT := Bool(false)][
      PAYMENT_REQUEST := Object(paymentRequest)]
  }

  /** The collaborators whose code is not part of this model: the payment
      request encoder with the merchant's key and the request hash.  Either
      may throw, which is a failure with a message. */
  datatype MerchantServices = MerchantServices(
    encodePaymentRequest: (string, Amount, Currencies.Currency, string) -> Result<Object, string>,
    requestHash: Object -> Result<Bytes, string>)

  /** Why a checkout fails: a cart entry that cannot be read, or an
      exception from one of the collaborators. */
  datatype CheckoutError = CartError(error: Error) | ServiceFailure(message: string)

  /** What one checkout produces: the saved cart and request hash for the
      session, and the invoke message for the page. */
  datatype Checkout = Checkout(savedCart: SavedShoppingCart, amount: Amount, referenceId: string,
                               requestHash: Bytes, invokeRequest: Object)

  /** `doPost` as a value, given the counter before the request. */
  function CheckoutFor(svc: MerchantServices, cart: seq<Value>, counter: int): (r: Result<Checkout, CheckoutError>)
    ensures Tally(cart).Failure? ==> r == Failure(CartError(Tally(cart).error))
    ensures r.Failure? && r.error.CartError? ==> Tally(cart).Failure?
    ensures r.Success? ==> Tally(cart).Success? && r.value.savedCart == Tally(cart).value
    ensures r.Success? ==> r.value.amount == Amount(r.value.savedCart.total, 2)
    ensures r.Success? ==> r.value.referenceId == ReferenceId(counter)
    ensures r.Success? ==>
      var request := svc.encodePaymentRequest(PAYEE_NAME, r.value.amount, Currencies.USD, r.value.referenceId);
      && request.Success?
      && svc.requestHash(request.value) == Success(r.value.requestHash)
      && r.value.invokeRequest == InvokeMessage(request.value)
    ensures Tally(cart).Success? ==>
      var request := svc.encodePaymentRequest(PAYEE_NAME, Amount(Tally(cart).value.total, 2), Currencies.USD, ReferenceId(counter));
      (r.Success? <==> request.Success? && svc.requestHash(request.value).Success?)
  {
    var tally := Tally(cart);
    if tally.Failure? then Failure(CartError(tally.error))
    else
      var saved := tally.value;
      var amount := Amount(saved.total, 2);
      var referenceId := ReferenceId(counter);
      var paymentRequest := svc.encodePaymentRequest(PAYEE_NAME, amount, Currencies.USD, referenceId);
      if paymentRequest.Failure? then Failure(ServiceFailure(paymentRequest.error))
      else
        var hash := svc.requestHash(paymentRequest.value);
        if hash.Failure? then Failure(ServiceFailure(hash.error))
        else Success(Checkout(saved, amount, referenceId, hash.value, InvokeMessage(paymentRequest.value)))
  }

  /** The collaborators as `PaymentRequest.encode` and a total hash make
      them: the merchant's payee object, the expiry, the time and the
      merchant's signer are fixed, and the payee name is not used. */
  function EncodingServices(payee: Object, now: int, expires: int, signer: Signer,
                            hash: Object -> Bytes): (svc: MerchantServices)
    ensures forall name, amount, currency, referenceId ::
              svc.encodePaymentRequest(name, amount, currency, referenceId) ==
              Success(PaymentRequest.Encode(payee, amount, currency, referenceId, now, expires, signer))
    ensures forall o :: svc.requestHash(o) == Success(hash(o))
  {
    MerchantServices(
      (name: string, amount: Amount, currency: Currencies.Currency, referenceId: string) =>
        Success(PaymentRequest.Encode(payee, amount, currency, referenceId, now, expires, signer)),
      (o: Object) => Success(hash(o)))
  }

  /** With those collaborators a readable cart always checks out, and the
      payment request inside the invoke message reads back as a USD request
      for the tallied total with the counter's reference id, whose request
      hash is the one saved in the session. */
  lemma CheckoutRequestCarriesTotal(payee: Object, now: int, expires: int, signer: Signer,
                                    hash: Object -> Bytes, cart: seq<Value>, counter: int)
    requires Tally(cart).Success?
    ensures var r := CheckoutFor(EncodingServices(payee, now, expires, signer, hash), cart, counter);
      && r.Success?
      && r.value.invokeRequest[PAYMENT_REQUEST].Object?
      && var pr := PaymentRequest.Parse(r.value.invokeRequest[PAYMENT_REQUEST].fields);
      && pr.Success?
      && pr.value.amount == Amount(Tally(cart).value.total, 2)
      && pr.value.currency == Currencies.USD
      && pr.value.referenceId == ReferenceId(counter)
      && PaymentRequest.GetRequestHash(pr.value, hash) == r.value.requestHash
  {
    var svc := EncodingServices(payee, now, expires, signer, hash);
    var amount := Amount(Tally(cart).value.total, 2);
    PaymentRequest.EncodeParse(payee, amount, Currencies.USD, ReferenceId(counter), now, expires, signer);
  }

  /** The amount always has USD's two decimals, so it can be displayed. */
  lemma AmountDisplayable(svc: MerchantServices, cart: seq<Value>, counter: int)
    requires CheckoutFor(svc, cart, counter).Success?
    ensures Currencies.ConvertAmountToString(Currencies.USD, CheckoutFor(svc, cart, counter).value.amount).Success?
  {
  }

  /** The servlet, with the static counter as its one mutable field. */
  class Merchant {
    var nextReferenceId: int

    predicate Valid()
      reads this
    {
      Int32.InRange(nextReferenceId)
    }

    constructor()
      ensures Valid() && nextReferenceId == INITIAL_REFERENCE_ID
    {
      nextReferenceId := INITIAL_REFERENCE_ID;
    }

    /** `doPost`: the cart loop, the saved cart, then the payment request
        with the next reference id.  A cart item that cannot be read ends
        the request before the counter is touched; once the cart is read the
        counter advances, whether or not the encoder and the hash succeed. */
    method DoPost(svc: MerchantServices, cart: seq<Value>) returns (r: Result<Checkout, CheckoutError>)
      requires Valid()
      modifies this
      ensures Valid()
      ensures r == CheckoutFor(svc, cart, old(nextReferenceId))
      ensures nextReferenceId == if Tally(cart).Success? then Int32.Increment(old(nextReferenceId)) else old(nextReferenceId)
    {
      var saved := SavedShoppingCart(map[], 0);
      var i := 0;
      while i < |cart|
        invariant 0 <= i <= |cart|
        invariant Int32.InRange(saved.total)
        invariant Tally(cart[..i]) == Success(saved)
      {
        var item := cart[i];
        assert cart[..i + 1][..i] == cart[..i];
        if !item.Object? {
          TallyPrefixFailure(cart, i + 1);
          return Failure(CartError(WrongType("shoppingcart")));
        }
        var units := GetInt(item.fields, UNITS);
        if units.Failure? {
          TallyPrefixFailure(cart, i + 1);
          return Failure(CartError(units.error));
        }
        if units.value != 0 {
          var sku := GetString(item.fields, SKU);
          if sku.Failure? {
            TallyPrefixFailure(cart, i + 1);
            return Failure(CartError(sku.error));
          }
          var items := saved.items[sku.value := units.value];
          var price := GetInt(item.fields, PRICE_MULT_100);
          if price.Failure? {
            TallyPrefixFailure(cart, i + 1);
            return Failure(CartError(price.error));
          }
          saved := SavedShoppingCart(items, Int32.Wrap(saved.total + Int32.Wrap(units.value * price.value)));
        }
        i := i + 1;
      }
      assert cart[..i] == cart;
      var amount := Amount(saved.total, 2);
      // The counter is post-incremented while the encoder's arguments are
      // evaluated, so it advances even when the encoder then throws.
      var referenceId := ReferenceId(nextReferenceId);
      nextReferenceId := Int32.Increment(nextReferenceId);
      var paymentRequest := svc.encodePaymentRequest(PAYEE_NAME, amount, Currencies.USD, referenceId);
      if paymentRequest.Failure? {
        return Failure(ServiceFailure(paymentRequest.error));
      }
      var hash := svc.requestHash(paymentRequest.value);
      if hash.Failure? {
        return Failure(ServiceFailure(hash.error));
      }
      r := Success(Checkout(saved, amount, referenceId, hash.value, InvokeMessage(paymentRequest.value)));
    }
  }
}
