/** The `Currencies` enum: each currency's display symbol, whether the symbol
    goes before the amount, and the number of decimals an amount must have. */
module Currencies {
  import opened Wrappers
  import opened Decimal
  import Json

  datatype Currency = USD | EUR | GBP

  const HAIR_SPACE: char := '\U{200a}'

  function Symbol(c: Currency): string {
    match c
    case USD => "$" + [HAIR_SPACE]
    case EUR => [HAIR_SPACE] + "\U{20ac}"
    case GBP => "\U{00a3}" + [HAIR_SPACE]
  }

  function SymbolFirst(c: Currency): bool {
    c != EUR
  }

  function Decimals(c: Currency): nat {
    2
  }

  /** The enum constant's name, as `toString` gives it. */
  function Name(c: Currency): string {
    match c
    case USD => "USD"
    case EUR => "EUR"
    case GBP => "GBP"
  }

  /** `Currencies.valueOf`: the constant with that exact name, if any. */
  function ValueOf(name: string): (r: Result<Currency, Json.Error>)
    ensures r.Success? <==> name in {"USD", "EUR", "GBP"}
    ensures r.Success? ==> Name(r.value) == name
    ensures r.Failure? ==> r.error == Json.UnknownCurrency(name)
  {
    if name == "USD" then Success(USD)
    else if name == "EUR" then Success(EUR)
    else if name == "GBP" then Success(GBP)
    else Failure(Json.UnknownCurrency(name))
  }

  /** Writing a currency by name and looking the name up again is the identity. */
  lemma ValueOfName(c: Currency)
    ensures ValueOf(Name(c)) == Success(c)
  {
  }

  /** `convertAmountToString`: refuses an amount whose scale is not the
      currency's, and otherwise puts the symbol before or after the plain
      rendering of the amount. */
  function ConvertAmountToString(c: Currency, amount: Amount): (r: Result<string, Json.Error>)
    ensures r.Failure? <==> amount.scale != Decimals(c)
    ensures r.Failure? ==> r.error == Json.IncorrectDecimals
  {
    if amount.scale != Decimals(c) then Failure(Json.IncorrectDecimals)
    else if SymbolFirst(c) then Success(Symbol(c) + PlainString(amount))
    else Success(PlainString(amount) + Symbol(c))
  }

  /** What an accepted amount looks like on screen: the symbol in front for
      USD and GBP, behind for EUR, and the plain rendering in one piece. */
  lemma ConvertedLayout(c: Currency, amount: Amount)
    requires ConvertAmountToString(c, amount).Success?
    ensures var r := ConvertAmountToString(c, amount).value;
      var p := PlainString(amount);
      var start := if SymbolFirst(c) then |Symbol(c)| else 0;
      && |r| == |Symbol(c)| + |p|
      && r[start..start + |p|] == p
      && (SymbolFirst(c) <==> c in {USD, GBP})
      && (SymbolFirst(c) ==> r[..|Symbol(c)|] == Symbol(c))
      && (!SymbolFirst(c) ==> r[|p|..] == Symbol(c))
  {
    var r := ConvertAmountToString(c, amount).value;
    var p := PlainString(amount);
    if SymbolFirst(c) {
      assert r == Symbol(c) + p;
      assert r[..|Symbol(c)|] == Symbol(c);
      assert r[|Symbol(c)|..|Symbol(c)| + |p|] == p;
    } else {
      assert c == EUR;
      assert r == p + Symbol(c);
      assert r[0..0 + |p|] == p;
      assert r[|p|..] == Symbol(c);
    }
  }

  /** Every currency has two decimals, so an accepted amount shows a point
      followed by exactly two digits, the amount's fraction digits. */
  lemma ConvertedDecimals(c: Currency, amount: Amount)
    requires ConvertAmountToString(c, amount).Success?
    ensures var r := ConvertAmountToString(c, amount).value;
      var p := PlainString(amount);
      var end := if SymbolFirst(c) then |r| else |p|;
      && amount.scale == 2
      && |p| >= 4 && |r| == |Symbol(c)| + |p|
      && r[end - 3] == '.'
      && r[end - 2..end] == FractionPart(amount)
  {
    var r := ConvertAmountToString(c, amount).value;
    var p := PlainString(amount);
    PlainStringShape(amount);
    assert p[|p| - 2..] == FractionPart(amount);
    assert r == if SymbolFirst(c) then Symbol(c) + p else p + Symbol(c);
    TailOfPlacement(r, p, Symbol(c), SymbolFirst(c));
  }

  /** The two digits shown after the point, with the integer digits, read
      back as the amount: the display loses nothing. */
  lemma ConvertedDigitsValue(c: Currency, amount: Amount)
    requires ConvertAmountToString(c, amount).Success?
    ensures var r := ConvertAmountToString(c, amount).value;
      var end := if SymbolFirst(c) then |r| else |PlainString(amount)|;
      && 2 <= end <= |r|
      && AllDigits(r[end - 2..end])
      && DigitsValue(IntegerPart(amount)) * 100 + DigitsValue(r[end - 2..end])
         == if amount.unscaled < 0 then -amount.unscaled else amount.unscaled
  {
    ConvertedDecimals(c, amount);
    PlainStringValue(amount);
    assert Pow10(2) == 100;
  }

  /** The last three characters of `p` stay the last three before or after
      a symbol that is written next to it. */
  lemma TailOfPlacement(r: string, p: string, symbol: string, first: bool)
    requires |p| >= 3
    requires r == if first then symbol + p else p + symbol
    ensures var end := if first then |r| else |p|;
      && |r| == |symbol| + |p|
      && r[end - 3] == p[|p| - 3]
      && r[end - 2..end] == p[|p| - 2..]
  {
    if first {
      assert r[|r| - 2..] == p[|p| - 2..];
    } else {
      assert r[|p| - 2..|p|] == p[|p| - 2..];
    }
  }

  /** Twelve dollars fifty renders as "$", a hair space, then "12.50". */
  lemma UsdExample()
    ensures ConvertAmountToString(USD, Amount(1250, 2)) == Success("$" + [HAIR_SPACE] + "12.50")
  {
    PlainStringExample();
  }

  /** An amount with three decimals is refused even when its value is fine. */
  lemma ThreeDecimalsRefused(c: Currency)
    ensures ConvertAmountToString(c, Amount(12500, 3)).Failure?
  {
  }
}
