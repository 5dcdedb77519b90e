/** Relayer fees (fees.rs): collection shares a fee equally, claims subtract from a coin list. */
module Fees {
  import opened Types
  import opened Amounts

  /** Adds to the first coin of the denom, or appends a new coin. */
  function AddCoin(coins: seq<Coin>, denom: string, amount: Uint128): Result<seq<Coin>> {
    if coins == [] then Ok([Coin(denom, amount)])
    else if coins[0].denom == denom then
      if coins[0].amount + amount > U128_MAX then Err(Panic)
      else Ok([Coin(denom, coins[0].amount + amount)] + coins[1..])
    else
      var rest :- AddCoin(coins[1..], denom, amount);
      Ok([coins[0]] + rest)
  }

  function CreditRelayer(fees: map<Addr, seq<Coin>>, relayer: Addr, denom: string, amount: Uint128)
    : Result<map<Addr, seq<Coin>>>
  {
    var coins :- AddCoin(GetOr(fees, relayer, []), denom, amount);
    Ok(fees[relayer := coins])
  }

  function CreditAll(fees: map<Addr, seq<Coin>>, relayers: seq<Relayer>, denom: string, amount: Uint128)
    : Result<map<Addr, seq<Coin>>>
  {
    if relayers == [] then Ok(fees)
    else
      var init :- CreditAll(fees, relayers[..|relayers| - 1], denom, amount);
      CreditRelayer(init, relayers[|relayers| - 1].cosmosAddress, denom, amount)
  }

  /** What each of `n` relayers gets of a total, and what is left for the next collection. */
  function EqualShare(total: Uint128, n: nat): (r: (Uint128, Uint128))
    requires n > 0
    ensures n * r.0 + r.1 == total && r.1 < n
  {
    var each := total / n;
    DivBounds(total, n);
    DivShrinks(total, n);
    (each, total - each * n)
  }

  function CollectFees(s: State, fee: Coin): (r: Result<State>)
    ensures r.Ok? ==> OnlyFees(s, r.value)
  {
    if fee.amount == 0 then Ok(s)
    else
      var total :- CheckedAdd(fee.amount, GetOr(s.feeRemainders, fee.denom, 0));
      var n := |s.config.relayers|;
      if n == 0 then Err(DivideByZeroError)
      else
        var (each, remainder) := EqualShare(total, n);
        var fees :- if each != 0 then CreditAll(s.feesCollected, s.config.relayers, fee.denom, each)
                    else Ok(s.feesCollected);
        Ok(s.(feesCollected := fees, feeRemainders := s.feeRemainders[fee.denom := remainder]))
  }

  function HandleFeeCollection(s: State, fee: Uint128, denom: string, remainder: Uint128)
    : (r: Result<(State, Uint128)>)
    ensures r.Ok? ==> OnlyFees(s, r.value.0) && r.value.1 == fee + remainder
  {
    var collected :- CheckedAdd(fee, remainder);
    var s1 :- CollectFees(s, Coin(denom, collected));
    Ok((s1, collected))
  }

  /** Subtracts from the first coin of the denom that is large enough. */
  function SubtractCoin(coins: seq<Coin>, coin: Coin): Result<seq<Coin>> {
    if coins == [] then Err(NotEnoughFeesToClaim)
    else if coins[0].denom == coin.denom && coins[0].amount >= coin.amount then
      Ok([Coin(coin.denom, coins[0].amount - coin.amount)] + coins[1..])
    else
      var rest :- SubtractCoin(coins[1..], coin);
      Ok([coins[0]] + rest)
  }

  function SubtractAll(coins: seq<Coin>, amounts: seq<Coin>): Result<seq<Coin>> {
    if amounts == [] then Ok(coins)
    else
      var init :- SubtractAll(coins, amounts[..|amounts| - 1]);
      SubtractCoin(init, amounts[|amounts| - 1])
  }

  function NonZero(coins: seq<Coin>): seq<Coin> {
    if coins == [] then []
    else (if coins[0].amount != 0 then [coins[0]] else []) + NonZero(coins[1..])
  }

  function SubtractRelayerFees(s: State, sender: Addr, amounts: seq<Coin>): Result<State> {
    if sender !in s.feesCollected then Err(UnauthorizedSender)
    else
      var coins :- SubtractAll(s.feesCollected[sender], amounts);
      Ok(s.(feesCollected := s.feesCollected[sender := NonZero(coins)]))
  }
}
