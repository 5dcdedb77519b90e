/** Decimal arithmetic of the bridge: truncation to a sending precision, conversion between the
    decimals of the two chains, and the sixteen-digit rule for amounts on the XRP Ledger. */
module Amounts {
  import opened Types

  function Pow10(n: nat): (r: nat)
    ensures r >= 1
  {
    if n == 0 then 1 else 10 * Pow10(n - 1)
  }

  function Abs(x: int): nat { if x < 0 then -x else x }

  function CheckedPow10(e: nat): Result<Uint128> {
    if Pow10(e) <= U128_MAX then Ok(Pow10(e)) else Err(Panic)
  }

  function ValidateSendingPrecision(precision: int, decimals: nat): Result<()> {
    if !(MIN_SENDING_PRECISION <= precision <= MAX_SENDING_PRECISION) then Err(InvalidSendingPrecision)
    else if precision > decimals then Err(InvalidSendingPrecision)
    else Ok(())
  }

  function AmountAfterBridgeFees(amount: Uint128, fee: Uint128): Result<Uint128> {
    if fee <= amount then Ok(amount - fee) else Err(CannotCoverBridgingFees)
  }

  /** The truncated amount and the remainder that was cut off. */
  function TruncateAmount(precision: int, decimals: nat, amount: Uint128): (r: Result<(Uint128, Uint128)>)
    ensures r.Ok? ==>
              && r.value.0 + r.value.1 == amount
              && r.value.0 > 0
              && r.value.1 < Pow10(Abs(decimals - precision))
              && r.value.0 % Pow10(Abs(decimals - precision)) == 0
  {
    var p :- CheckedPow10(Abs(decimals - precision));
    var units := amount / p;
    if units == 0 then Err(AmountSentIsZeroAfterTruncation)
    else
      MultipleOf(units, p);
      Ok((units * p, amount - units * p))
  }

  function ConvertAmountDecimals(from: nat, to: nat, amount: Uint128): Result<Uint128> {
    if from < to then
      var p :- CheckedPow10(to - from);
      if amount * p <= U128_MAX then Ok(amount * p) else Err(OverflowError)
    else if from > to then
      var p :- CheckedPow10(from - to);
      DivShrinks(amount, p);
      Ok(amount / p)
    else
      Ok(amount)
  }

  function ConvertAndTruncateAmount(precision: int, from: nat, to: nat, amount: Uint128, fee: Uint128)
    : Result<(Uint128, Uint128)>
  {
    var converted :- ConvertAmountDecimals(from, to, amount);
    var afterFees :- AmountAfterBridgeFees(converted, fee);
    TruncateAmount(precision, to, afterFees)
  }

  function TruncateAndConvertAmount(precision: int, from: nat, to: nat, amount: Uint128, fee: Uint128)
    : Result<(Uint128, Uint128)>
  {
    var afterFees :- AmountAfterBridgeFees(amount, fee);
    var (truncated, remainder) :- TruncateAmount(precision, from, afterFees);
    var converted :- ConvertAmountDecimals(from, to, truncated);
    Ok((converted, remainder))
  }

  // ---------- facts about powers, products and quotients ----------

  lemma MultipleOf(q: nat, p: nat)
    requires p > 0
    ensures (q * p) % p == 0 && (q * p) / p == q
  {
    DivMod(q * p, p, q, 0);
  }

  lemma MulMonotone(a: int, b: int, c: int)
    requires a <= b && 0 <= c
    ensures a * c <= b * c
  {
  }

  lemma Distribute(a: int, b: int, c: int)
    ensures (a + b) * c == a * c + b * c
  {
  }

  lemma DivBounds(a: nat, p: nat)
    requires p > 0
    ensures 0 <= a / p && (a / p) * p <= a < (a / p) * p + p
  {
  }

  lemma DivShrinks(a: nat, p: nat)
    requires p > 0
    ensures 0 <= a / p <= a
  {
    DivBounds(a, p);
    MulMonotone(1, p, a / p);
  }

  /** Quotient and remainder are unique. */
  lemma DivMod(a: nat, p: nat, q: nat, r: nat)
    requires p > 0 && r < p && a == q * p + r
    ensures a / p == q && a % p == r
  {
    DivBounds(a, p);
    if a / p < q {
      MulMonotone(a / p + 1, q, p);
      assert false;
    }
    if a / p > q {
      MulMonotone(q + 1, a / p, p);
      assert false;
    }
  }

  lemma {:induction false} Pow10Add(a: nat, b: nat)
    ensures Pow10(a + b) == Pow10(a) * Pow10(b)
  {
    if a == 0 {
    } else {
      Pow10Add(a - 1, b);
      assert Pow10(a + b) == 10 * Pow10(a - 1 + b);
      MulAssoc(10, Pow10(a - 1), Pow10(b));
    }
  }

  lemma {:induction false} Pow10Monotone(a: nat, b: nat)
    requires a <= b
    ensures Pow10(a) <= Pow10(b)
    decreases b
  {
    if a < b {
      Pow10Monotone(a, b - 1);
    }
  }

  /** A multiple of `10^(a+b)` is a multiple of `10^b`. */
  lemma CoarserMultiple(x: nat, a: nat, b: nat)
    requires x % Pow10(a + b) == 0
    ensures x % Pow10(b) == 0
  {
    Pow10Add(a, b);
    var q := x / Pow10(a + b);
    assert x == q * Pow10(a + b);
    assert x == (q * Pow10(a)) * Pow10(b) by { MulAssoc(q, Pow10(a), Pow10(b)); }
    MultipleOf(q * Pow10(a), Pow10(b));
  }

  lemma MulAssoc(a: int, b: int, c: int)
    ensures a * (b * c) == (a * b) * c
  {
  }

  // ---------- lossless conversion ----------

  /** XRPL units of `amount` in units of a token with `decimals`, rounded down, without bounds. */
  function ToCosmosUnits(decimals: nat, amount: nat): nat {
    if decimals <= XRPL_TOKENS_DECIMALS then
      DivShrinks(amount, Pow10(XRPL_TOKENS_DECIMALS - decimals));
      amount / Pow10(XRPL_TOKENS_DECIMALS - decimals)
    else amount * Pow10(decimals - XRPL_TOKENS_DECIMALS)
  }

  /** `amount` XRPL units are a whole number of units of a token with `decimals`. */
  predicate WholeCosmosUnits(decimals: nat, amount: nat) {
    decimals < XRPL_TOKENS_DECIMALS ==> amount % Pow10(XRPL_TOKENS_DECIMALS - decimals) == 0
  }

  /** Whatever `send_to_xrpl` accepts for a Cosmos token is converted without loss: the converted
      amount is positive, converting it back succeeds and gives precisely the truncated amount,
      and truncated amount, remainder and fee add up to the funds. */
  lemma LosslessConversion(precision: int, decimals: nat, funds: Uint128, fee: Uint128)
    requires ValidateSendingPrecision(precision, decimals).Ok?
    requires TruncateAndConvertAmount(precision, decimals, XRPL_TOKENS_DECIMALS, funds, fee).Ok?
    ensures var (converted, remainder) :=
              TruncateAndConvertAmount(precision, decimals, XRPL_TOKENS_DECIMALS, funds, fee).value;
            var truncated := funds - fee - remainder;
            && converted > 0
            && truncated > 0
            && ConvertAmountDecimals(XRPL_TOKENS_DECIMALS, decimals, converted) == Ok(truncated)
            && ToCosmosUnits(decimals, converted) == truncated
            && WholeCosmosUnits(decimals, converted)
  {
    hide Pow10, TruncateAmount;
    var (converted, remainder) :=
      TruncateAndConvertAmount(precision, decimals, XRPL_TOKENS_DECIMALS, funds, fee).value;
    var (truncated, rem) := TruncateAmount(precision, decimals, funds - fee).value;
    if decimals > XRPL_TOKENS_DECIMALS {
      var k := decimals - XRPL_TOKENS_DECIMALS;
      assert Abs(decimals - precision) == (XRPL_TOKENS_DECIMALS - precision) + k;
      CoarserMultiple(truncated, XRPL_TOKENS_DECIMALS - precision, k);
      assert truncated == converted * Pow10(k);
    } else if decimals < XRPL_TOKENS_DECIMALS {
      var k := XRPL_TOKENS_DECIMALS - decimals;
      assert converted == truncated * Pow10(k);
      MultipleOf(truncated, Pow10(k));
      Positive(truncated, Pow10(k));
    } else {
      Pow10Zero();
      DivMod(converted, 1, converted, 0);
    }
  }

  lemma Pow10Zero()
    ensures Pow10(0) == 1
  {
  }

  lemma Positive(a: nat, b: nat)
    requires a > 0 && b > 0
    ensures a * b > 0
  {
  }

  /** Converting a whole number of token units adds exactly: issuing never rounds up. */
  lemma IssueAddsExactly(decimals: nat, outstanding: nat, amount: nat)
    requires WholeCosmosUnits(decimals, amount)
    ensures ToCosmosUnits(decimals, outstanding + amount)
         == ToCosmosUnits(decimals, outstanding) + ToCosmosUnits(decimals, amount)
  {
    if decimals <= XRPL_TOKENS_DECIMALS {
      var p := Pow10(XRPL_TOKENS_DECIMALS - decimals);
      SumOfQuotients(outstanding, amount, p);
      if decimals == XRPL_TOKENS_DECIMALS { DivMod(amount, 1, amount, 0); }
    } else {
      Distribute(outstanding, amount, Pow10(decimals - XRPL_TOKENS_DECIMALS));
    }
  }

  lemma SumOfQuotients(a: nat, b: nat, p: nat)
    requires p > 0
    ensures a / p + b / p <= (a + b) / p
    ensures b % p == 0 ==> a / p + b / p == (a + b) / p
  {
    DivBounds(a, p);
    DivBounds(b, p);
    DivBounds(a + b, p);
    var q, t, u := a / p, b / p, (a + b) / p;
    Distribute(q, t, p);
    if q + t > u {
      MulMonotone(u + 1, q + t, p);
      Distribute(u, 1, p);
      assert false;
    }
    if b % p == 0 {
      DivMod(a + b, p, q + t, a % p);
    }
  }

  /** Rounding every return down never pays out more than the outstanding amount is worth. */
  lemma ReturnPaysAtMost(decimals: nat, outstanding: nat, amount: nat)
    requires amount <= outstanding
    ensures ToCosmosUnits(decimals, outstanding - amount) + ToCosmosUnits(decimals, amount)
         <= ToCosmosUnits(decimals, outstanding)
  {
    if decimals <= XRPL_TOKENS_DECIMALS {
      SumOfQuotients(outstanding - amount, amount, Pow10(XRPL_TOKENS_DECIMALS - decimals));
    } else {
      Distribute(outstanding - amount, amount, Pow10(decimals - XRPL_TOKENS_DECIMALS));
    }
  }

  // ---------- the sixteen-digit rule ----------

  function Digit(d: nat): char
    requires d < 10
  {
    "0123456789"[d]
  }

  /** `amount.to_string()`. */
  function Print(n: nat): string {
    if n < 10 then [Digit(n)] else Print(n / 10) + [Digit(n % 10)]
  }

  function TrimEndZeroes(s: string): string {
    if s != [] && s[|s| - 1] == '0' then TrimEndZeroes(s[..|s| - 1]) else s
  }

  function ValidateXrplAmount(amount: Uint128): Result<()> {
    if |TrimEndZeroes(Print(amount))| > XRPL_MAX_TRUNCATED_AMOUNT_LENGTH then Err(InvalidXrplAmount)
    else Ok(())
  }

  /** At most sixteen significant decimal digits, the precision of a token amount on the ledger. */
  ghost predicate Representable(n: nat) {
    exists m: nat, k: nat :: m < Pow10(XRPL_MAX_TRUNCATED_AMOUNT_LENGTH) && IsScaled(n, m, k)
  }

  predicate IsScaled(n: nat, m: nat, k: nat) { n == m * Pow10(k) }

  /** The significand: `n` without its trailing decimal zeroes. */
  function Strip(n: nat): nat {
    if n > 0 && n % 10 == 0 then Strip(n / 10) else n
  }

  function TrailingZeroes(n: nat): nat {
    if n > 0 && n % 10 == 0 then 1 + TrailingZeroes(n / 10) else 0
  }

  lemma {:induction false} PrintLength(n: nat, k: nat)
    requires k >= 1
    ensures |Print(n)| <= k <==> n < Pow10(k)
    decreases k
  {
    assert Pow10(k) == 10 * Pow10(k - 1);
    if n >= 10 && k > 1 {
      PrintLength(n / 10, k - 1);
    }
    if k == 1 {
      assert Pow10(0) == 1;
      if n >= 10 { assert |Print(n / 10)| >= 1; }
    }
  }

  lemma {:induction false} TrimmedPrint(n: nat)
    requires n > 0
    ensures TrimEndZeroes(Print(n)) == Print(Strip(n))
  {
    if n >= 10 {
      var s := Print(n);
      assert s[..|s| - 1] == Print(n / 10);
      assert s[|s| - 1] == Digit(n % 10);
      if n % 10 == 0 {
        TrimmedPrint(n / 10);
      }
    }
  }

  lemma TenfoldProduct(m: int, p: int)
    ensures 10 * (m * p) == m * (10 * p)
  {
  }

  lemma {:induction false} StripScales(n: nat)
    ensures n == Strip(n) * Pow10(TrailingZeroes(n))
  {
    if n > 0 && n % 10 == 0 {
      StripScales(n / 10);
      var m, p := Strip(n), Pow10(TrailingZeroes(n / 10));
      TenfoldProduct(m, p);
      assert Pow10(TrailingZeroes(n)) == 10 * p;
    }
  }

  lemma {:induction false} StripIsLeast(m: nat, k: nat)
    ensures Strip(m * Pow10(k)) <= m
    decreases m, k
  {
    if k > 0 {
      var x := m * Pow10(k - 1);
      TenfoldProduct(m, Pow10(k - 1));
      assert m * Pow10(k) == 10 * x;
      if x > 0 {
        DivMod(10 * x, 10, x, 0);
        assert Strip(10 * x) == Strip(x);
      }
      StripIsLeast(m, k - 1);
    } else if m > 0 && m % 10 == 0 {
      StripIsLeast(m / 10, 0);
    }
  }

  /** The print-and-trim check accepts exactly the representable amounts. */
  lemma XrplAmountRule(amount: Uint128)
    ensures ValidateXrplAmount(amount).Ok? <==> Representable(amount)
  {
    hide Pow10, Strip, TrailingZeroes;
    if amount == 0 {
      assert Print(0) == ['0'];
      assert TrimEndZeroes(['0']) == TrimEndZeroes([]) == [];
      TenFits();
      assert IsScaled(0, 0, 0);
    } else {
      TrimmedPrint(amount);
      PrintLength(Strip(amount), XRPL_MAX_TRUNCATED_AMOUNT_LENGTH);
      StripScales(amount);
      if ValidateXrplAmount(amount).Ok? {
        assert IsScaled(amount, Strip(amount), TrailingZeroes(amount));
      }
      if Representable(amount) {
        var m: nat, k: nat :| m < Pow10(XRPL_MAX_TRUNCATED_AMOUNT_LENGTH) && IsScaled(amount, m, k);
        StripIsLeast(m, k);
      }
    }
  }

  /** The recommended holding limit keeps every truncated amount representable. */
  lemma TruncatedAmountsPass(precision: int, decimals: nat, amount: Uint128)
    requires ValidateSendingPrecision(precision, decimals).Ok?
    requires TruncateAmount(precision, decimals, amount).Ok?
    requires TruncateAmount(precision, decimals, amount).value.0 <= Pow10(16 - precision + decimals)
    ensures ValidateXrplAmount(TruncateAmount(precision, decimals, amount).value.0).Ok?
  {
    hide Pow10, TruncateAmount, ValidateXrplAmount;
    var truncated := TruncateAmount(precision, decimals, amount).value.0;
    var e := decimals - precision;
    assert Abs(e) == e;
    DivBounds(truncated, Pow10(e));
    assert truncated == (truncated / Pow10(e)) * Pow10(e);
    BoundedMultiple(truncated / Pow10(e), e, truncated);
    XrplAmountRule(truncated);
  }

  lemma BoundedMultiple(m: nat, e: nat, n: nat)
    requires IsScaled(n, m, e) && n <= Pow10(16 + e)
    ensures Representable(n)
  {
    hide Pow10;
    Pow10Add(16, e);
    if m > Pow10(16) {
      MulMonotone(Pow10(16) + 1, m, Pow10(e));
      Distribute(Pow10(16), 1, Pow10(e));
      assert false;
    }
    if m == Pow10(16) {
      TenFits();
      assert IsScaled(n, 1, 16 + e);
    }
  }

  lemma TenFits()
    ensures 1 < Pow10(XRPL_MAX_TRUNCATED_AMOUNT_LENGTH)
  {
    Pow10Monotone(1, XRPL_MAX_TRUNCATED_AMOUNT_LENGTH);
    assert Pow10(1) == 10 * Pow10(0);
  }
}
