/** Fixed-point money on decimal strings: the 18-decimal `Cost` printer, the 27-decimal price
    parser, truncation back to 18 decimals, and the gas cost composed from them, each proved
    against plain integer arithmetic. */
module Money {
  import opened Prelude
  import opened Arithmetic
  import opened Decimal

  const E9: nat := 1_000_000_000
  const E18: nat := 1_000_000_000_000_000_000
  const E27: nat := 1_000_000_000_000_000_000_000_000_000

  lemma PowersOfTen()
    ensures Pow10(9) == E9 && Pow10(18) == E18 && Pow10(27) == E27
  {
    assert Pow10(9) == E9;
    PowSum(9, 9);
    PowSum(9, 18);
  }

  // ----- printing -----

  /** What a cost should look like: whole dollars, a point, exactly eighteen decimals. */
  function Displayed(cost: nat): string {
    Print(cost / E18) + "." + Fixed(cost, 18)
  }

  /** `Cost::display`: pads the printed number in place, then inserts the decimal point. */
  method Display(cost: nat) returns (value: string)
    ensures value == Displayed(cost)
  {
    var characters := Print(cost);
    if |characters| <= 18 {
      var rem := 18 - |characters|;
      var i := 0;
      while i <= rem
        invariant 0 <= i <= rem + 1
        invariant characters == Zeros(i) + Print(cost)
      {
        characters := ['0'] + characters;
        i := i + 1;
      }
    }
    PaddedDigits(cost);
    var pointer := if |characters| >= 18 then |characters| - 18 else 0;
    assert characters == Print(cost / E18) + Fixed(cost, 18);
    FixedLength(cost, 18);
    assert characters[..pointer] == Print(cost / E18) && characters[pointer..] == Fixed(cost, 18);
    value := characters[..pointer] + ['.'] + characters[pointer..];
  }

  /** Padding to at least nineteen digits makes every number split into quotient and low digits. */
  lemma {:induction false} PaddedDigits(cost: nat)
    ensures var s := Print(cost);
            Print(cost / E18) + Fixed(cost, 18) == if |s| <= 18 then Zeros(19 - |s|) + s else s
  {
    PowersOfTen();
    if cost < E18 {
      PrintPad(cost, 18);
      DivUnique(cost, E18, 0, cost);
      PaddedSmall(Print(cost), Fixed(cost, 18));
    } else {
      PrintSplit(cost, 18);
      FixedValue(cost, 18);
      PrintValue(cost / E18);
    }
  }

  lemma PaddedSmall(s: string, padded: string)
    requires |s| <= 18 && padded == Zeros(18 - |s|) + s
    ensures "0" + padded == Zeros(19 - |s|) + s
  {
    assert Zeros(19 - |s|) == "0" + Zeros(18 - |s|);
  }

  /** A displayed cost has at least one whole digit and exactly eighteen fractional ones, and its
      digits together denote the cost. */
  lemma DisplayedShape(cost: nat)
    ensures |Print(cost / E18)| >= 1 && |Fixed(cost, 18)| == 18
    ensures AllDigits(Print(cost / E18)) && AllDigits(Fixed(cost, 18))
    ensures AllDigits(Print(cost / E18) + Fixed(cost, 18))
    ensures Value(Print(cost / E18) + Fixed(cost, 18)) == cost
  {
    PowersOfTen();
    PrintValue(cost / E18);
    FixedValue(cost, 18);
    ValueConcat(Print(cost / E18), Fixed(cost, 18));
  }

  // ----- parsing -----

  /** `str::split(".")`: one more part than there are points, so "" splits into one empty part. */
  function SplitDots(s: string): (parts: seq<string>)
    ensures |parts| >= 1
    ensures forall i :: 0 <= i < |parts| ==> '.' !in parts[i]
  {
    if s == "" then [""]
    else
      var rest := SplitDots(s[1..]);
      if s[0] == '.' then [""] + rest else [[s[0]] + rest[0]] + rest[1..]
  }

  lemma {:induction false} SplitWhole(s: string)
    requires '.' !in s
    ensures SplitDots(s) == [s]
  {
    if s != "" {
      SplitWhole(s[1..]);
      assert [s[0]] + s[1..] == s;
    }
  }

  lemma {:induction false} SplitOnce(whole: string, fraction: string)
    requires '.' !in whole && '.' !in fraction
    ensures SplitDots(whole + "." + fraction) == [whole, fraction]
  {
    var s := whole + "." + fraction;
    if whole == "" {
      assert s[1..] == fraction;
      SplitWhole(fraction);
    } else {
      assert s[1..] == whole[1..] + "." + fraction;
      SplitOnce(whole[1..], fraction);
      assert [whole[0]] + whole[1..] == whole;
    }
  }

  function Fraction(parts: seq<string>): string {
    if |parts| == 2 then parts[1] else ""
  }

  /** Digits with `decimals` of them after the point, scaled to at least 27 decimals. */
  function Scaled(digits: string, decimals: nat): Result<nat, string> {
    var zeros := SaturatingSub(27, decimals);
    if AllDigits(digits) && Value(digits) * Pow10(zeros) < U256_LIMIT
    then Ok(Value(digits) * Pow10(zeros))
    else Err("invalid decimal string")
  }

  /** The number a price string denotes, scaled to at least 27 decimals; an error for a second
      point, a non-digit, or a result over 256 bits. */
  function Parsed(value: string): Result<nat, string> {
    var parts := SplitDots(value);
    if |parts| > 2 then Err("Invalid value") else Scaled(parts[0] + Fraction(parts), |Fraction(parts)|)
  }

  lemma ParsedOnce(whole: string, fraction: string)
    requires '.' !in whole && '.' !in fraction
    ensures Parsed(whole + "." + fraction) == Scaled(whole + fraction, |fraction|)
  {
    SplitOnce(whole, fraction);
  }

  lemma ParsedWhole(whole: string)
    requires '.' !in whole
    ensures Parsed(whole) == Scaled(whole, 0)
  {
    SplitWhole(whole);
    assert whole + "" == whole;
  }

  lemma {:induction false} SplitJoined(a: string, b: string)
    ensures |SplitDots(a + "." + b)| == |SplitDots(a)| + |SplitDots(b)|
  {
    var s := a + "." + b;
    if a == "" {
      assert s[1..] == b;
    } else {
      assert s[1..] == a[1..] + "." + b;
      SplitJoined(a[1..], b);
    }
  }

  /** Two points or more are an error. */
  lemma TwoPointsRejected(a: string, b: string, c: string)
    ensures Parsed(a + "." + b + "." + c).Err?
  {
    SplitJoined(a + "." + b, c);
    SplitJoined(a, b);
  }

  /** Reading digits padded with zeros is scaling their value. */
  lemma {:induction false} PaddedIsScaled(digits: string, zeros: nat)
    ensures FromDecStr(digits + Zeros(zeros)) ==
            if AllDigits(digits) && Value(digits) * Pow10(zeros) < U256_LIMIT
            then Ok(Value(digits) * Pow10(zeros))
            else Err("invalid decimal string")
  {
    ValueZeros(zeros);
    if AllDigits(digits) {
      ValueConcat(digits, Zeros(zeros));
    } else {
      var k :| 0 <= k < |digits| && !IsDigit(digits[k]);
      assert (digits + Zeros(zeros))[k] == digits[k];
    }
  }

  /** `parse_to_27_decimals`: pads the digit string with zeros and reads it back. */
  method ParseTo27Decimals(value: string) returns (r: Result<nat, string>)
    ensures r == Parsed(value)
  {
    var parts := SplitDots(value);
    if |parts| < 1 || |parts| > 2 {
      return Err("Invalid value");
    }
    ghost var digits := parts[0] + Fraction(parts);
    var length := if |parts| == 2 then |parts[1]| else 0;
    var numOfZeros := SaturatingSub(27, length);
    var formatted := PushAll(parts + [Zeros(numOfZeros)]);
    assert formatted == digits + Zeros(numOfZeros) by {
      FlattenSnoc(parts, Zeros(numOfZeros));
      PartsJoined(parts);
    }
    PaddedIsScaled(digits, numOfZeros);
    r := FromDecStr(formatted);
  }

  lemma PartsJoined(parts: seq<string>)
    requires 1 <= |parts| <= 2
    ensures Flatten(parts) == parts[0] + Fraction(parts)
  {
    assert Flatten(parts) == parts[0] + Flatten(parts[1..]);
    if |parts| == 2 {
      assert Flatten(parts[1..]) == parts[1] + Flatten(parts[1..][1..]);
    }
  }

  /** Appends the parts to an initially empty string. */
  method PushAll(parts: seq<string>) returns (formatted: string)
    ensures formatted == Flatten(parts)
  {
    formatted := "";
    var i := 0;
    while i < |parts|
      invariant 0 <= i <= |parts|
      invariant formatted == Flatten(parts[..i])
    {
      FlattenSnoc(parts[..i], parts[i]);
      assert parts[..i + 1] == parts[..i] + [parts[i]];
      formatted := formatted + parts[i];
      i := i + 1;
    }
    assert parts[..|parts|] == parts;
  }

  /** Parsing is exact scaling by 10^27 precisely for prices of at most 27 fractional digits (or
      worth zero): with more, the digits past the 27th inflate the result. */
  lemma ParseExactIff(value: string)
    requires Parsed(value).Ok?
    ensures var parts := SplitDots(value);
            var digits := parts[0] + Fraction(parts);
            AllDigits(digits)
            && (Parsed(value).value * Pow10(|Fraction(parts)|) == Value(digits) * E27
                <==> |Fraction(parts)| <= 27 || Value(digits) == 0)
  {
    var parts := SplitDots(value);
    var k, n := |Fraction(parts)|, Value(parts[0] + Fraction(parts));
    PowersOfTen();
    if k <= 27 {
      PowSum(27 - k, k);
      Associate(n, Pow10(27 - k), Pow10(k));
    } else if n > 0 {
      PowMonotone(28, k);
      assert Pow10(28) == 10 * Pow10(27);
      MulMonotone(n, Pow10(28), Pow10(k));
      Distribute(n, 9 * E27, E27);
    }
  }

  /** 28 fractional digits: the parsed price is ten times too large. */
  lemma ParseInflates()
    ensures var s := "1." + Zeros(28); Parsed(s) == Ok(10 * E27)
  {
    ParsedOnce("1", Zeros(28));
    ValueZeros(28);
    assert Value("1") == 1 by { assert "1"[..0] == ""; }
    ValueConcat("1", Zeros(28));
    PowersOfTen();
    assert "1." + Zeros(28) == "1" + "." + Zeros(28);
    assert Pow10(28) == 10 * Pow10(27);
    assert Pow10(0) == 1;
  }

  // ----- truncation -----

  /** `convert_27_decimals_to_18_decimals`: discards the last nine characters. */
  function Convert27To18(value: nat): Result<nat, string> {
    var s := Print(value);
    FromDecStr(s[..if |s| > 9 then |s| - 9 else 0])
  }

  /** Discarding nine characters is floor division by 10^9, for every 256-bit value. */
  lemma ConvertIsFloor(value: nat)
    requires value < U256_LIMIT
    ensures Convert27To18(value) == Ok(value / E9)
  {
    PowersOfTen();
    DropIsDivision(value, 9);
  }

  lemma DisplayParses(cost: nat)
    ensures Parsed(Displayed(cost))
         == if cost * E9 < U256_LIMIT then Ok(cost * E9) else Err("invalid decimal string")
  {
    var whole, fraction := Print(cost / E18), Fixed(cost, 18);
    DisplayedShape(cost);
    ParsedOnce(whole, fraction);
    ScaledCost(whole + fraction, cost);
  }

  /** Printing a cost, parsing it to 27 decimals and truncating to 18 gives the cost back exactly
      when its 27-decimal form fits in 256 bits; otherwise the parser reports an error. */
  lemma MoneyRoundTrip(cost: nat)
    ensures cost * E9 < U256_LIMIT <==> Parsed(Displayed(cost)) == Ok(cost * E9)
    ensures cost * E9 < U256_LIMIT ==> Convert27To18(cost * E9) == Ok(cost)
    ensures cost * E9 >= U256_LIMIT ==> Parsed(Displayed(cost)).Err?
  {
    DisplayParses(cost);
    if cost * E9 < U256_LIMIT {
      ConvertIsFloor(cost * E9);
    }
  }

  lemma ScaledCost(digits: string, cost: nat)
    requires AllDigits(digits) && Value(digits) == cost
    ensures Scaled(digits, 18) == if cost * E9 < U256_LIMIT then Ok(cost * E9) else Err("invalid decimal string")
  {
    PowersOfTen();
  }

  /** Different costs never print the same, even those too large to be parsed back. */
  lemma DisplayInjective(a: nat, b: nat)
    requires Displayed(a) == Displayed(b)
    ensures a == b
  {
    DisplayedShape(a);
    DisplayedShape(b);
    SplitOnce(Print(a / E18), Fixed(a, 18));
    SplitOnce(Print(b / E18), Fixed(b, 18));
    assert [Print(a / E18), Fixed(a, 18)] == [Print(b / E18), Fixed(b, 18)];
  }

  // ----- gas cost -----

  /** How a chain prices gas: from the ether price, or directly in its stable gas token. */
  datatype Pricing = FromPrice(usd: string) | FromPriceUnreported(usd: string) | StableToken

  datatype GasBreakdown = GasBreakdown(gasPrice: nat, gasPriceCost: nat, unitWeiCost: nat)

  /** `get_cost_of_one_wei`. */
  function CostOfOneWei(ethUsd: nat): nat { ethUsd / E18 }

  /** The cost of `amount` units of gas or wei at a price of `ethUsd` (27 decimals), rounded down
      twice: once per wei, once when the product loses nine decimals. */
  function TruncatedCost(ethUsd: nat, amount: nat): nat { CostOfOneWei(ethUsd) * amount / E9 }

  /** The product can overflow 256 bits; otherwise the truncated cost comes out. */
  method CostAt(ethUsd: nat, amount: nat) returns (r: Result<nat, string>)
    ensures r.Ok? <==> CostOfOneWei(ethUsd) * amount < U256_LIMIT
    ensures r.Ok? ==> r.value == TruncatedCost(ethUsd, amount)
  {
    var product := CostOfOneWei(ethUsd) * amount;
    if product >= U256_LIMIT {
      return Err("arithmetic operation overflow");
    }
    ConvertIsFloor(product);
    r := Convert27To18(product);
  }

  /** The cost of the gas price in dollars and the reported cost of one wei. BSC's test network
      computes the latter in a shadowing variable and reports zero (`FromPriceUnreported`). */
  method PriceGas(pricing: Pricing, gasPrice: nat) returns (r: Result<(nat, nat), string>)
    ensures r.Ok? <==> Priceable(pricing, gasPrice)
    ensures r.Ok? && pricing.StableToken? ==> r.value == (gasPrice, 0)
    ensures r.Ok? && !pricing.StableToken? ==>
              && r.value.0 == TruncatedCost(Parsed(pricing.usd).value, gasPrice)
              && r.value.1 == if pricing.FromPriceUnreported? then 0
                              else CostOfOneWei(Parsed(pricing.usd).value)
  {
    if pricing.StableToken? {
      return Ok((gasPrice, 0));
    }
    var ethUsd := ParseTo27Decimals(pricing.usd);
    if ethUsd.Err? {
      return Err(ethUsd.error);
    }
    var cost := CostAt(ethUsd.value, gasPrice);
    if cost.Err? {
      return Err(cost.error);
    }
    var unit := if pricing.FromPriceUnreported? then 0 else CostOfOneWei(ethUsd.value);
    r := Ok((cost.value, unit));
  }

  function Buffer(buffer: Option<nat>, gasPrice: nat): nat {
    if buffer.Some? then buffer.value * gasPrice / 100 else 0
  }

  predicate BufferFits(buffer: Option<nat>, gasPrice: nat) {
    && (buffer.Some? ==> buffer.value * gasPrice < U256_LIMIT)
    && gasPrice + Buffer(buffer, gasPrice) < U256_LIMIT
  }

  /** The buffered price is a hundredth of the gas price taken a hundred times and once more for each percent,
      rounded down. */
  lemma BufferIff(buffer: Option<nat>, gasPrice: nat)
    requires gasPrice < U256_LIMIT
    ensures var b, p := if buffer.Some? then buffer.value else 0, gasPrice + Buffer(buffer, gasPrice);
            && 100 * p <= 100 * gasPrice + b * gasPrice < 100 * (p + 1)
            && (BufferFits(buffer, gasPrice) <==>
                b * gasPrice < U256_LIMIT && 100 * gasPrice + b * gasPrice < 100 * U256_LIMIT)
  {
    var product := (if buffer.Some? then buffer.value else 0) * gasPrice;
    assert 100 * (product / 100) <= product < 100 * (product / 100 + 1);
  }

  /** The price parses and its product with the gas price fits. */
  predicate Priceable(pricing: Pricing, gasPrice: nat) {
    pricing.StableToken?
    || (Parsed(pricing.usd).Ok? && CostOfOneWei(Parsed(pricing.usd).value) * gasPrice < U256_LIMIT)
  }

  /** `get_current_gas_cost_in_usd` after its queries: the buffer raises the gas price offered but
      not the cost the profit test sees. */
  method GasCost(pricing: Pricing, nodeGasPrice: nat, oracleGasPrice: nat, buffer: Option<nat>)
    returns (r: Result<GasBreakdown, string>)
    requires nodeGasPrice < U256_LIMIT && oracleGasPrice < U256_LIMIT
    ensures var g, b := Max(nodeGasPrice, oracleGasPrice), if buffer.Some? then buffer.value else 0;
            r.Ok? <==> Priceable(pricing, g) && b * g < U256_LIMIT && 100 * g + b * g < 100 * U256_LIMIT
    ensures var g, b := Max(nodeGasPrice, oracleGasPrice), if buffer.Some? then buffer.value else 0;
            r.Ok? ==>
              && 100 * r.value.gasPrice <= 100 * g + b * g < 100 * (r.value.gasPrice + 1)
              && (pricing.StableToken? ==> r.value.gasPriceCost == g && r.value.unitWeiCost == 0)
              && (!pricing.StableToken? ==>
                    && Parsed(pricing.usd).Ok?
                    && r.value.gasPriceCost == TruncatedCost(Parsed(pricing.usd).value, g)
                    && (pricing.FromPriceUnreported? ==> r.value.unitWeiCost == 0)
                    && (pricing.FromPrice? ==> r.value.unitWeiCost == CostOfOneWei(Parsed(pricing.usd).value)))
  {
    var gasPrice := Max(nodeGasPrice, oracleGasPrice);
    BufferIff(buffer, gasPrice);
    var priced := PriceGas(pricing, gasPrice);
    if priced.Err? {
      return Err(priced.error);
    }
    if !BufferFits(buffer, gasPrice) {
      return Err("arithmetic operation overflow");
    }
    r := Ok(GasBreakdown(gasPrice + Buffer(buffer, gasPrice), priced.value.0, priced.value.1));
  }

  /** The string-built cost never exceeds the exact product of price and amount, and falls short
      by less than one cost unit plus 10^-9 cost units for each unit of gas. */
  lemma TruncationBound(ethUsd: nat, amount: nat)
    ensures E27 * TruncatedCost(ethUsd, amount) <= ethUsd * amount
    ensures ethUsd * amount < E27 * (TruncatedCost(ethUsd, amount) + 1) + E18 * amount
  {
    var unit, r := ethUsd / E18, ethUsd % E18;
    var product := unit * amount;
    var cost := product / E9;
    assert ethUsd * amount == E18 * product + r * amount by {
      assert ethUsd == E18 * unit + r;
      assert (E18 * unit + r) * amount == (E18 * unit) * amount + r * amount;
      Associate(E18, unit, amount);
    }
    assert E18 * product == E27 * cost + E18 * (product % E9);
    assert 0 <= r * amount <= E18 * amount by {
      MulMonotone(amount, r, E18);
    }
  }

  /** The execution cost of a call (gas plus layer-one data, as `estimate_gas` composes it) never
      overstates the exact price of its gas and data, with an explicit bound on the shortfall. */
  lemma ExecutionCostBound(ethUsd: nat, gasPrice: nat, gasUsed: nat, dataWei: nat)
    ensures var cost := TruncatedCost(ethUsd, gasPrice) * gasUsed + TruncatedCost(ethUsd, dataWei);
            var wei := gasPrice * gasUsed + dataWei;
            && E27 * cost <= ethUsd * wei
            && ethUsd * wei < E27 * (cost + gasUsed + 1) + E18 * wei
  {
    var c, d := TruncatedCost(ethUsd, gasPrice), TruncatedCost(ethUsd, dataWei);
    TruncationBound(ethUsd, gasPrice);
    TruncationBound(ethUsd, dataWei);
    GasBound(ethUsd, gasPrice, gasUsed, c);
    Distribute(ethUsd, gasPrice * gasUsed, dataWei);
  }

  /** The bound for one unit of gas, for all the gas used. */
  lemma GasBound(ethUsd: nat, gasPrice: nat, gasUsed: nat, c: nat)
    requires E27 * c <= ethUsd * gasPrice <= E27 * (c + 1) + E18 * gasPrice
    ensures E27 * (c * gasUsed) <= ethUsd * (gasPrice * gasUsed)
    ensures ethUsd * (gasPrice * gasUsed) <= E27 * (c * gasUsed + gasUsed) + E18 * (gasPrice * gasUsed)
  {
    ScaleBound(ethUsd * gasPrice, E27 * c, E27 * (c + 1) + E18 * gasPrice, gasUsed);
    Associate(ethUsd, gasPrice, gasUsed);
    Associate(E27, c, gasUsed);
    Associate(E27, c + 1, gasUsed);
    Associate(E18, gasPrice, gasUsed);
    Distribute(gasUsed, E27 * (c + 1), E18 * gasPrice);
    Distribute(gasUsed, c, 1);
  }

  lemma ScaleBound(x: nat, low: nat, high: nat, k: nat)
    requires low <= x <= high
    ensures low * k <= x * k <= high * k
  {
    MulMonotone(k, low, x);
    MulMonotone(k, x, high);
  }
}
