/** The loops of the handlers that work on lists: searching and changing a coin list, dropping empty
    coins, and validating a relayer set with three hash sets. */
module Loops {
  import opened Types
  import opened Tokens
  import opened Pending
  import opened Relayers
  import opened Fees
  import opened FeeBook

  // ---------- coins ----------

  lemma {:induction false} AddCoinSkips(coins: seq<Coin>, i: nat, denom: string, amount: Uint128)
    requires i <= |coins| && forall j | 0 <= j < i :: coins[j].denom != denom
    ensures var rest := AddCoin(coins[i..], denom, amount);
            AddCoin(coins, denom, amount) == (if rest.Ok? then Ok(coins[..i] + rest.value) else Err(rest.error))
    decreases i
  {
    if i == 0 {
      assert coins[..0] == [] && coins[0..] == coins;
      var rest := AddCoin(coins, denom, amount);
      if rest.Ok? { assert [] + rest.value == rest.value; }
    } else {
      AddCoinSkips(coins[1..], i - 1, denom, amount);
      assert coins[1..][i - 1..] == coins[i..];
      var rest := AddCoin(coins[i..], denom, amount);
      if rest.Ok? {
        assert [coins[0]] + (coins[1..][..i - 1] + rest.value) == coins[..i] + rest.value;
      }
    }
  }

  /** Finds the coin of the denom and adds to it in place, or pushes a new coin. */
  method AddToCoins(coins: seq<Coin>, denom: string, amount: Uint128) returns (r: Result<seq<Coin>>)
    ensures r == AddCoin(coins, denom, amount)
  {
    var i := 0;
    while i < |coins| && coins[i].denom != denom
      invariant i <= |coins| && forall j | 0 <= j < i :: coins[j].denom != denom
    {
      i := i + 1;
    }
    AddCoinSkips(coins, i, denom, amount);
    if i == |coins| {
      assert coins[i..] == [] && coins[..i] == coins;
      return Ok(coins + [Coin(denom, amount)]);
    }
    if coins[i].amount + amount > U128_MAX { return Err(Panic); }
    assert coins[i..][1..] == coins[i + 1..];
    assert coins[i := Coin(denom, coins[i].amount + amount)]
        == coins[..i] + ([Coin(denom, coins[i].amount + amount)] + coins[i + 1..]);
    return Ok(coins[i := Coin(denom, coins[i].amount + amount)]);
  }

  lemma {:induction false} SubtractCoinSkips(coins: seq<Coin>, i: nat, coin: Coin)
    requires i <= |coins| && forall j | 0 <= j < i :: !(coins[j].denom == coin.denom && coins[j].amount >= coin.amount)
    ensures var rest := SubtractCoin(coins[i..], coin);
            SubtractCoin(coins, coin) == (if rest.Ok? then Ok(coins[..i] + rest.value) else Err(rest.error))
    decreases i
  {
    if i == 0 {
      assert coins[..0] == [] && coins[0..] == coins;
      var rest := SubtractCoin(coins, coin);
      if rest.Ok? { assert [] + rest.value == rest.value; }
    } else {
      SubtractCoinSkips(coins[1..], i - 1, coin);
      assert coins[1..][i - 1..] == coins[i..];
      var rest := SubtractCoin(coins[i..], coin);
      if rest.Ok? {
        assert [coins[0]] + (coins[1..][..i - 1] + rest.value) == coins[..i] + rest.value;
      }
    }
  }

  /** Finds a coin of the denom that is large enough and takes from it in place. On a list with one
      coin per denom it succeeds exactly when that coin covers the amount. */
  method TakeFromCoins(coins: seq<Coin>, coin: Coin) returns (r: Result<seq<Coin>>)
    ensures r == SubtractCoin(coins, coin)
  {
    var i := 0;
    while i < |coins| && !(coins[i].denom == coin.denom && coins[i].amount >= coin.amount)
      invariant i <= |coins|
      invariant forall j | 0 <= j < i :: !(coins[j].denom == coin.denom && coins[j].amount >= coin.amount)
    {
      i := i + 1;
    }
    SubtractCoinSkips(coins, i, coin);
    if i == |coins| {
      assert coins[i..] == [];
      return Err(NotEnoughFeesToClaim);
    }
    assert coins[i..][1..] == coins[i + 1..];
    assert coins[i := Coin(coin.denom, coins[i].amount - coin.amount)]
        == coins[..i] + ([Coin(coin.denom, coins[i].amount - coin.amount)] + coins[i + 1..]);
    return Ok(coins[i := Coin(coin.denom, coins[i].amount - coin.amount)]);
  }

  lemma {:induction false} NonZeroAppend(coins: seq<Coin>, c: Coin)
    ensures NonZero(coins + [c]) == NonZero(coins) + (if c.amount != 0 then [c] else [])
  {
    if coins == [] {
      assert [c][1..] == [];
      assert coins + [c] == [c];
    } else {
      assert (coins + [c])[1..] == coins[1..] + [c];
      NonZeroAppend(coins[1..], c);
    }
  }

  method RetainNonZero(coins: seq<Coin>) returns (r: seq<Coin>)
    ensures r == NonZero(coins)
  {
    r := [];
    for i := 0 to |coins|
      invariant r == NonZero(coins[..i])
    {
      assert coins[..i + 1] == coins[..i] + [coins[i]];
      NonZeroAppend(coins[..i], coins[i]);
      if coins[i].amount != 0 { r := r + [coins[i]]; }
    }
    assert coins[..|coins|] == coins;
  }

  /** A list that fails to be credited up to some relayer fails as a whole, with the same error. */
  lemma {:induction false} CreditAllStops(fees: Book, relayers: seq<Relayer>, i: nat, denom: string, amount: Uint128)
    requires i <= |relayers|
    ensures CreditAll(fees, relayers[..i], denom, amount).Err? ==>
              CreditAll(fees, relayers, denom, amount) == CreditAll(fees, relayers[..i], denom, amount)
    decreases |relayers|
  {
    if i == |relayers| {
      assert relayers[..i] == relayers;
    } else {
      var init := relayers[..|relayers| - 1];
      assert init[..i] == relayers[..i];
      CreditAllStops(fees, init, i, denom, amount);
    }
  }

  lemma {:induction false} SubtractAllStops(coins: seq<Coin>, amounts: seq<Coin>, i: nat)
    requires i <= |amounts|
    ensures SubtractAll(coins, amounts[..i]).Err? ==> SubtractAll(coins, amounts) == SubtractAll(coins, amounts[..i])
    decreases |amounts|
  {
    if i == |amounts| {
      assert amounts[..i] == amounts;
    } else {
      var init := amounts[..|amounts| - 1];
      assert init[..i] == amounts[..i];
      SubtractAllStops(coins, init, i);
    }
  }

  // ---------- relayers ----------

  lemma {:induction false} CheckRelayersStops(chain: Chain, prohibited: set<string>, relayers: seq<Relayer>, i: nat)
    requires i <= |relayers|
    ensures CheckRelayers(chain, prohibited, relayers[..i]).Err? ==>
              CheckRelayers(chain, prohibited, relayers) == CheckRelayers(chain, prohibited, relayers[..i])
    decreases |relayers|
  {
    if i == |relayers| {
      assert relayers[..i] == relayers;
    } else {
      var init := relayers[..|relayers| - 1];
      assert init[..i] == relayers[..i];
      CheckRelayersStops(chain, prohibited, init, i);
    }
  }

  /** One more relayer: what its check says is what the whole says, if it fails. */
  lemma CheckRelayersNext(chain: Chain, prohibited: set<string>, relayers: seq<Relayer>, i: nat)
    requires i < |relayers| && CheckRelayers(chain, prohibited, relayers[..i]) == Ok(())
    ensures CheckRelayers(chain, prohibited, relayers[..i + 1])
            == CheckRelayer(chain, prohibited, relayers[..i], relayers[i])
    ensures CheckRelayer(chain, prohibited, relayers[..i], relayers[i]).Err? ==>
              CheckRelayers(chain, prohibited, relayers) == CheckRelayer(chain, prohibited, relayers[..i], relayers[i])
  {
    hide CheckRelayer;
    assert relayers[..i + 1][..i] == relayers[..i];
    CheckRelayersStops(chain, prohibited, relayers, i + 1);
  }

  /** The three hash sets after a number of rounds. */
  ghost predicate Seen(relayers: seq<Relayer>, xrplAddresses: set<string>, pubKeys: set<string>,
                       cosmosAddresses: set<string>) {
    && (forall a :: a in xrplAddresses <==> exists q <- relayers :: q.xrplAddress == a)
    && (forall a :: a in pubKeys <==> exists q <- relayers :: q.xrplPubKey == a)
    && (forall a :: a in cosmosAddresses <==> exists q <- relayers :: q.cosmosAddress == a)
  }

  lemma SeenNext(relayers: seq<Relayer>, r: Relayer, xrplAddresses: set<string>, pubKeys: set<string>,
                 cosmosAddresses: set<string>)
    requires Seen(relayers, xrplAddresses, pubKeys, cosmosAddresses)
    ensures Seen(relayers + [r], xrplAddresses + {r.xrplAddress}, pubKeys + {r.xrplPubKey},
                 cosmosAddresses + {r.cosmosAddress})
  {
    var all := relayers + [r];
    assert forall q <- relayers :: q in all;
    assert r in all;
  }

  /** The validation loop with its three hash sets. */
  method CheckEach(chain: Chain, prohibited: set<string>, relayers: seq<Relayer>) returns (r: Result<()>)
    ensures r == CheckRelayers(chain, prohibited, relayers)
  {
    hide CheckRelayers, Seen;
    var xrplAddresses: set<string>, pubKeys: set<string>, cosmosAddresses: set<string> := {}, {}, {};
    NoneSeen(chain, prohibited, relayers);
    for i := 0 to |relayers|
      invariant CheckRelayers(chain, prohibited, relayers[..i]) == Ok(())
      invariant Seen(relayers[..i], xrplAddresses, pubKeys, cosmosAddresses)
    {
      var relayer := relayers[i];
      CheckRelayersNext(chain, prohibited, relayers, i);
      SeenMeans(relayers[..i], xrplAddresses, pubKeys, cosmosAddresses);
      if !chain.validCosmosAddress(relayer.cosmosAddress) { return Err(InvalidCosmosAddress); }
      var _ :- ValidateXrplAddress(chain, prohibited, relayer.xrplAddress);
      if relayer.xrplAddress in xrplAddresses { return Err(DuplicatedRelayer); }
      if relayer.xrplPubKey in pubKeys { return Err(DuplicatedRelayer); }
      if relayer.cosmosAddress in cosmosAddresses { return Err(DuplicatedRelayer); }
      SeenNext(relayers[..i], relayer, xrplAddresses, pubKeys, cosmosAddresses);
      xrplAddresses := xrplAddresses + {relayer.xrplAddress};
      pubKeys := pubKeys + {relayer.xrplPubKey};
      cosmosAddresses := cosmosAddresses + {relayer.cosmosAddress};
      assert relayers[..i + 1] == relayers[..i] + [relayer];
    }
    assert relayers[..|relayers|] == relayers;
    return Ok(());
  }

  lemma NoneSeen(chain: Chain, prohibited: set<string>, relayers: seq<Relayer>)
    ensures CheckRelayers(chain, prohibited, relayers[..0]) == Ok(()) && Seen(relayers[..0], {}, {}, {})
  {
  }

  lemma SeenMeans(relayers: seq<Relayer>, xrplAddresses: set<string>, pubKeys: set<string>,
                  cosmosAddresses: set<string>)
    requires Seen(relayers, xrplAddresses, pubKeys, cosmosAddresses)
    ensures forall a :: a in xrplAddresses <==> exists q <- relayers :: q.xrplAddress == a
    ensures forall a :: a in pubKeys <==> exists q <- relayers :: q.xrplPubKey == a
    ensures forall a :: a in cosmosAddresses <==> exists q <- relayers :: q.cosmosAddress == a
  {
  }

  /** Validation accepts exactly the relayer sets that are distinct in every field, well formed,
      allowed, and able to reach the threshold. */
  method CheckedRelayers(chain: Chain, prohibited: set<string>, relayers: seq<Relayer>, threshold: nat)
    returns (r: Result<()>)
    ensures r == ValidateRelayers(chain, prohibited, relayers, threshold)
    ensures r.Ok? <==>
              && ProperRelayers(relayers, threshold)
              && forall q <- relayers ::
                   && chain.validCosmosAddress(q.cosmosAddress)
                   && chain.validXrplAddress(q.xrplAddress) && q.xrplAddress !in prohibited
  {
    hide CheckRelayers, DistinctRelayers;
    CheckRelayersMeans(chain, prohibited, relayers);
    if threshold == 0 || threshold > |relayers| { return Err(InvalidThreshold); }
    if |relayers| > MAX_RELAYERS { return Err(TooManyRelayers); }
    r := CheckEach(chain, prohibited, relayers);
  }

  // ---------- pending operations ----------

  type Queue = map<Sequence, Operation>

  function RepricedAll(ops: Queue, fee: nat): Queue { map k | k in ops :: Repriced(ops[k], fee) }

  predicate CanReprice(op: Operation) { op.version + 1 <= U64_MAX }

  /** `todo` are the operations not yet visited; the others are saved repriced. */
  ghost predicate Repricing(ops: Queue, saved: Queue, todo: set<Sequence>, fee: nat) {
    && todo <= ops.Keys && saved.Keys == ops.Keys
    && forall k | k in ops && k !in todo :: CanReprice(ops[k]) && saved[k] == Repriced(ops[k], fee)
  }

  lemma RepricingStep(ops: Queue, saved: Queue, todo: set<Sequence>, fee: nat, k: Sequence)
    requires Repricing(ops, saved, todo, fee) && k in todo && CanReprice(ops[k])
    ensures Repricing(ops, saved[k := Repriced(ops[k], fee)], todo - {k}, fee)
  {
    hide Repriced, CanReprice;
  }

  lemma RepricingDone(ops: Queue, saved: Queue, fee: nat)
    requires Repricing(ops, saved, {}, fee)
    ensures saved == RepricedAll(ops, fee) && forall k | k in ops :: CanReprice(ops[k])
  {
    var all := RepricedAll(ops, fee);
    assert all.Keys == ops.Keys;
    assert all.Keys == saved.Keys;
    assert forall k | k in ops :: k in all && all[k] == Repriced(ops[k], fee);
    assert forall k | k in ops :: saved[k] == Repriced(ops[k], fee);
    assert forall k | k in all :: all[k] == saved[k];
  }

  method Choose<T(==)>(s: set<T>) returns (x: T)
    requires s != {}
    ensures x in s
  {
    x :| x in s;
  }

  /** Every operation in turn gets the new fee, a new version and no signature. */
  method RepriceAll(operations: Queue, fee: nat) returns (r: Result<Queue>)
    ensures r == if exists k <- operations :: !CanReprice(operations[k]) then Err(Panic)
                 else Ok(RepricedAll(operations, fee))
  {
    var saved, todo := operations, operations.Keys;
    assert Repricing(operations, saved, todo, fee) by { StartRepricing(operations, fee); }
    while todo != {}
      invariant todo <= operations.Keys && Repricing(operations, saved, todo, fee)
    {
      var k := Choose(todo);
      var operation := operations[k];
      if operation.version + 1 > U64_MAX { return Err(Panic); }
      RepricingStep(operations, saved, todo, fee, k);
      saved := saved[k := operation.(version := operation.version + 1, signatures := [], xrplBaseFee := fee)];
      todo := todo - {k};
    }
    RepricingDone(operations, saved, fee);
    return Ok(saved);
  }

  lemma StartRepricing(ops: Queue, fee: nat)
    ensures Repricing(ops, ops, ops.Keys, fee)
  {
  }
}
