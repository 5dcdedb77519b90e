/** What a token's configuration promises about an amount: the unit it is cut to, and the fee. */
module Quotes {
  import opened Types
  import opened Amounts

  /** The smallest amount of a token with so many decimals that is sent at a precision. */
  function Unit(decimals: nat, precision: int): (u: nat)
    ensures u >= 1
  {
    Pow10(Abs(decimals - precision))
  }

  /** XRP has six decimals, every other token of the ledger fifteen. */
  function LedgerDecimals(token: XrplToken): nat {
    if token.issuer == "rrrrrrrrrrrrrrrrrrrrrhoLvTp" && token.currency == "XRP" then 6 else 15
  }

  /** `x` is the largest multiple of `unit` not above `bound`. */
  predicate LargestMultiple(x: int, unit: nat, bound: int)
    requires unit > 0
  {
    x % unit == 0 && x <= bound < x + unit
  }

  /** What is charged of a value: the bridging fee, and what is cut off after it. */
  function Charge(fee: nat, unit: nat, value: nat): nat
    requires unit > 0
  {
    if fee <= value then fee + (value - fee) % unit else 0
  }

  function XrplUnit(token: XrplToken): (u: nat)
    ensures u >= 1
  {
    Unit(LedgerDecimals(token), token.sendingPrecision)
  }

  function CosmosUnit(token: CosmosToken): (u: nat)
    ensures u >= 1
  {
    Unit(token.decimals, token.sendingPrecision)
  }

  /** Truncation succeeds exactly when there is a unit to send, and then keeps the largest multiple. */
  lemma TruncationMeans(precision: int, decimals: nat, amount: Uint128)
    ensures var unit := Unit(decimals, precision);
            && (TruncateAmount(precision, decimals, amount).Ok? <==> unit <= amount)
            && (TruncateAmount(precision, decimals, amount).Ok? ==>
                  var (kept, cut) := TruncateAmount(precision, decimals, amount).value;
                  && kept > 0 && LargestMultiple(kept, unit, amount)
                  && cut == amount % unit && kept == amount - amount % unit)
  {
    hide Pow10;
    var p := Pow10(Abs(decimals - precision));
    DivBounds(amount, p);
    if p <= amount && amount / p == 0 {
      assert false;
    }
    if amount < p {
      DivMod(amount, p, 0, amount);
    }
    if TruncateAmount(precision, decimals, amount).Ok? {
      var (kept, cut) := TruncateAmount(precision, decimals, amount).value;
      DivMod(amount, p, kept / p, cut);
    }
  }

  /** What is kept of an amount that is cut to a unit. */
  function Kept(unit: nat, amount: nat): (k: nat)
    requires unit > 0
    ensures k <= amount
  {
    DivBounds(amount, unit);
    amount - amount % unit
  }

  lemma TruncationKeeps(precision: int, decimals: nat, amount: Uint128)
    ensures var unit := Unit(decimals, precision);
            && (TruncateAmount(precision, decimals, amount).Ok? <==> unit <= amount)
            && (unit <= amount ==>
                  TruncateAmount(precision, decimals, amount) == Ok((Kept(unit, amount), amount - Kept(unit, amount))))
  {
    hide Unit, TruncateAmount, LargestMultiple;
    TruncationMeans(precision, decimals, amount);
  }
}
