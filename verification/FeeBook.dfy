/** Relayer fees over whole runs: claims refine a per-denom map, collection conserves. */
module FeeBook {
  import opened Types
  import opened Relayers
  import opened Fees
  import opened Sums

  predicate HasDenom(coins: seq<Coin>, denom: string) {
    exists c <- coins :: c.denom == denom
  }

  predicate DistinctDenoms(coins: seq<Coin>) {
    coins != [] ==> !HasDenom(coins[1..], coins[0].denom) && DistinctDenoms(coins[1..])
  }

  predicate AllPositive(coins: seq<Coin>) {
    forall c <- coins :: c.amount > 0
  }

  /** The total amount of a denom in a coin list. */
  function AmountOf(coins: seq<Coin>, denom: string): nat {
    if coins == [] then 0
    else (if coins[0].denom == denom then coins[0].amount else 0) + AmountOf(coins[1..], denom)
  }

  lemma HasDenomSplit(coins: seq<Coin>, denom: string)
    requires coins != []
    ensures HasDenom(coins, denom) <==> coins[0].denom == denom || HasDenom(coins[1..], denom)
  {
    assert coins == [coins[0]] + coins[1..];
  }

  lemma {:induction false} NoneOf(coins: seq<Coin>, denom: string)
    requires !HasDenom(coins, denom)
    ensures AmountOf(coins, denom) == 0
  {
    if coins != [] {
      HasDenomSplit(coins, denom);
      NoneOf(coins[1..], denom);
    }
  }

  lemma {:induction false} AmountOfAppend(coins: seq<Coin>, c: Coin, denom: string)
    ensures AmountOf(coins + [c], denom) == AmountOf(coins, denom) + (if c.denom == denom then c.amount else 0)
  {
    if coins == [] {
      assert coins + [c] == [c];
    } else {
      assert (coins + [c])[1..] == coins[1..] + [c];
      AmountOfAppend(coins[1..], c, denom);
    }
  }

  // ---------- collection ----------

  lemma {:induction false} AddCoinMeans(coins: seq<Coin>, denom: string, amount: Uint128, d: string)
    requires AddCoin(coins, denom, amount).Ok?
    ensures var coins' := AddCoin(coins, denom, amount).value;
            && AmountOf(coins', d) == AmountOf(coins, d) + (if d == denom then amount else 0)
            && (HasDenom(coins', d) <==> HasDenom(coins, d) || d == denom)
  {
    var coins' := AddCoin(coins, denom, amount).value;
    HasDenomSplit(coins', d);
    if coins != [] {
      HasDenomSplit(coins, d);
      assert coins'[0].denom == coins[0].denom;
      if coins[0].denom == denom {
        assert coins'[1..] == coins[1..];
      } else {
        assert coins'[1..] == AddCoin(coins[1..], denom, amount).value;
        AddCoinMeans(coins[1..], denom, amount, d);
      }
    }
  }

  lemma {:induction false} AddCoinKeepsSound(coins: seq<Coin>, denom: string, amount: Uint128)
    requires AddCoin(coins, denom, amount).Ok? && amount > 0 && DistinctDenoms(coins) && AllPositive(coins)
    ensures DistinctDenoms(AddCoin(coins, denom, amount).value) && AllPositive(AddCoin(coins, denom, amount).value)
  {
    var coins' := AddCoin(coins, denom, amount).value;
    if coins == [] {
      assert coins'[1..] == [];
    } else if coins[0].denom == denom {
      assert coins'[1..] == coins[1..];
    } else {
      assert coins'[1..] == AddCoin(coins[1..], denom, amount).value;
      assert AllPositive(coins[1..]);
      AddCoinKeepsSound(coins[1..], denom, amount);
      AddCoinMeans(coins[1..], denom, amount, coins[0].denom);
    }
  }

  type Book = map<Addr, seq<Coin>>

  /** Each relayer's fee list keeps one positive coin per denom. */
  predicate BookSound(fees: Book) {
    forall a | a in fees :: DistinctDenoms(fees[a]) && AllPositive(fees[a])
  }

  /** What each present or past relayer can still claim of a denom. */
  function Uncollected(fees: Book, denom: string): map<Addr, int> {
    map a | a in fees :: AmountOf(fees[a], denom)
  }

  lemma CreditRelayerMeans(fees: Book, relayer: Addr, denom: string, amount: Uint128, d: string)
    requires CreditRelayer(fees, relayer, denom, amount).Ok?
    ensures var fees' := CreditRelayer(fees, relayer, denom, amount).value;
            && Total(Uncollected(fees', d)) == Total(Uncollected(fees, d)) + (if d == denom then amount else 0)
            && (BookSound(fees) && amount > 0 ==> BookSound(fees'))
  {
    var coins := GetOr(fees, relayer, []);
    AddCoinMeans(coins, denom, amount, d);
    var fees' := CreditRelayer(fees, relayer, denom, amount).value;
    var u := Uncollected(fees, d);
    assert Uncollected(fees', d) == u[relayer := AmountOf(fees'[relayer], d)];
    if relayer in fees {
      TotalUpdate(u, relayer, AmountOf(fees'[relayer], d));
    } else {
      TotalInsert(u, relayer, AmountOf(fees'[relayer], d));
    }
    if BookSound(fees) && amount > 0 {
      AddCoinKeepsSound(coins, denom, amount);
    }
  }

  lemma {:induction false} CreditAllMeans(fees: Book, relayers: seq<Relayer>, denom: string, amount: Uint128, d: string)
    requires CreditAll(fees, relayers, denom, amount).Ok?
    ensures var fees' := CreditAll(fees, relayers, denom, amount).value;
            && Total(Uncollected(fees', d)) == Total(Uncollected(fees, d))
              + (if d == denom then |relayers| * amount else 0)
            && (BookSound(fees) && amount > 0 ==> BookSound(fees'))
  {
    hide Total, Uncollected, CreditRelayer, BookSound;
    if relayers != [] {
      var init := relayers[..|relayers| - 1];
      CreditAllMeans(fees, init, denom, amount, d);
      CreditRelayerMeans(CreditAll(fees, init, denom, amount).value, relayers[|relayers| - 1].cosmosAddress, denom,
                         amount, d);
      assert |relayers| * amount == |init| * amount + amount;
    }
  }

  /** Everything a denom has collected and not paid out. */
  ghost function FeesOwed(s: State, denom: string): int {
    Total(Uncollected(s.feesCollected, denom)) + GetOr(s.feeRemainders, denom, 0)
  }

  /** Collection conserves: the fee is split between the relayers and the remainder, which stays
      below the number of relayers, and other denoms are untouched. */
  lemma CollectFeesConserves(s: State, fee: Coin, d: string)
    requires CollectFees(s, fee).Ok?
    ensures var s' := CollectFees(s, fee).value;
            && FeesOwed(s', d) == FeesOwed(s, d) + (if d == fee.denom then fee.amount else 0)
            && (fee.amount > 0 ==> GetOr(s'.feeRemainders, fee.denom, 0) < |s.config.relayers|)
            && (BookSound(s.feesCollected) ==> BookSound(s'.feesCollected))
  {
    hide Total, Uncollected, CreditAll, BookSound, OnlyFees, EqualShare, CheckedAdd;
    if fee.amount != 0 {
      var total: Uint128 := fee.amount + GetOr(s.feeRemainders, fee.denom, 0);
      var (each, remainder) := EqualShare(total, |s.config.relayers|);
      CreditShare(s.feesCollected, s.config.relayers, fee.denom, each, d);
      var shared := |s.config.relayers| * each;
      assert shared + remainder == total;
    }
  }

  /** Crediting a share that may be zero. */
  lemma CreditShare(fees: Book, relayers: seq<Relayer>, denom: string, each: Uint128, d: string)
    ensures each != 0 && CreditAll(fees, relayers, denom, each).Ok? ==>
              var fees' := CreditAll(fees, relayers, denom, each).value;
              && Total(Uncollected(fees', d)) == Total(Uncollected(fees, d))
                + (if d == denom then |relayers| * each else 0)
              && (BookSound(fees) ==> BookSound(fees'))
    ensures each == 0 ==> |relayers| * each == 0
  {
    hide Total, Uncollected, CreditAll, BookSound;
    if each != 0 && CreditAll(fees, relayers, denom, each).Ok? {
      CreditAllMeans(fees, relayers, denom, each, d);
    }
  }

  // ---------- every relayer is credited equally ----------

  lemma {:induction false} CreditAllEqually(fees: Book, relayers: seq<Relayer>, denom: string, amount: Uint128, a: Addr)
    requires CreditAll(fees, relayers, denom, amount).Ok? && DistinctRelayers(relayers)
    ensures AmountOf(GetOr(CreditAll(fees, relayers, denom, amount).value, a, []), denom)
         == AmountOf(GetOr(fees, a, []), denom) + (if IsRelayer(relayers, a) then amount else 0)
  {
    hide AmountOf, AddCoin;
    if relayers == [] {
      assert !IsRelayer(relayers, a);
    } else {
      var init, last := relayers[..|relayers| - 1], relayers[|relayers| - 1];
      assert DistinctRelayers(init) by { DistinctAppend(init, last); assert relayers == init + [last]; }
      CreditAllEqually(fees, init, denom, amount, a);
      var mid := CreditAll(fees, init, denom, amount).value;
      AddCoinMeans(GetOr(mid, last.cosmosAddress, []), denom, amount, denom);
      assert relayers == init + [last];
      assert IsRelayer(relayers, a) <==> IsRelayer(init, a) || last.cosmosAddress == a;
      assert !IsRelayer(init, last.cosmosAddress) by { DistinctAppend(init, last); }
    }
  }

  // ---------- claims refine a map ----------

  lemma {:induction false} SubtractCoinMeans(coins: seq<Coin>, coin: Coin)
    requires DistinctDenoms(coins)
    ensures SubtractCoin(coins, coin).Ok? <==> HasDenom(coins, coin.denom) && coin.amount <= AmountOf(coins, coin.denom)
    ensures SubtractCoin(coins, coin).Ok? ==>
              var coins' := SubtractCoin(coins, coin).value;
              && DistinctDenoms(coins')
              && forall d ::
                   && HasDenom(coins', d) == HasDenom(coins, d)
                   && AmountOf(coins', d) == AmountOf(coins, d) - (if d == coin.denom then coin.amount else 0)
  {
    if coins != [] {
      HasDenomSplit(coins, coin.denom);
      SubtractCoinMeans(coins[1..], coin);
      if coins[0].denom == coin.denom {
        NoneOf(coins[1..], coin.denom);
      }
      if SubtractCoin(coins, coin).Ok? {
        var coins' := SubtractCoin(coins, coin).value;
        if coins[0].denom == coin.denom {
          assert coins'[1..] == coins[1..];
        } else {
          assert coins'[1..] == SubtractCoin(coins[1..], coin).value;
        }
        forall d
          ensures HasDenom(coins', d) == HasDenom(coins, d)
          ensures AmountOf(coins', d) == AmountOf(coins, d) - (if d == coin.denom then coin.amount else 0)
        {
          HasDenomSplit(coins, d);
          HasDenomSplit(coins', d);
        }
      }
    }
  }

  /** The claim loop succeeds exactly when every claimed denom is present and the total claimed of
      it fits, and it then subtracts exactly those totals. */
  lemma {:induction false} ClaimRefinesMap(coins: seq<Coin>, amounts: seq<Coin>)
    requires DistinctDenoms(coins)
    ensures SubtractAll(coins, amounts).Ok? <==>
              forall a <- amounts :: HasDenom(coins, a.denom) && AmountOf(amounts, a.denom) <= AmountOf(coins, a.denom)
    ensures SubtractAll(coins, amounts).Ok? ==>
              var coins' := SubtractAll(coins, amounts).value;
              && DistinctDenoms(coins')
              && forall d ::
                   && HasDenom(coins', d) == HasDenom(coins, d)
                   && AmountOf(coins', d) == AmountOf(coins, d) - AmountOf(amounts, d)
  {
    hide AmountOf, DistinctDenoms, SubtractCoin, HasDenom;
    if amounts == [] {
      UnclaimedDenoms(amounts);
      NoDenoms();
    } else {
      var init, last := amounts[..|amounts| - 1], amounts[|amounts| - 1];
      assert amounts == init + [last];
      ClaimRefinesMap(coins, init);
      forall d ensures AmountOf(amounts, d) == AmountOf(init, d) + (if last.denom == d then last.amount else 0) {
        AmountOfAppend(init, last, d);
      }
      assert forall a <- init :: a in amounts;
      if SubtractAll(coins, init).Ok? {
        SubtractCoinMeans(SubtractAll(coins, init).value, last);
        UnclaimedDenoms(init);
        ClaimedDenoms(init);
      }
    }
  }

  lemma NoDenoms()
    ensures forall d :: !HasDenom([], d)
  {
  }

  lemma ClaimedDenoms(amounts: seq<Coin>)
    ensures forall d :: HasDenom(amounts, d) <==> exists a <- amounts :: a.denom == d
  {
  }

  /** A denom that is not claimed has nothing claimed of it. */
  lemma UnclaimedDenoms(amounts: seq<Coin>)
    ensures forall d :: !HasDenom(amounts, d) ==> AmountOf(amounts, d) == 0
  {
    forall d | !HasDenom(amounts, d) ensures AmountOf(amounts, d) == 0 { NoneOf(amounts, d); }
  }

  lemma {:induction false} NonZeroMeans(coins: seq<Coin>, d: string)
    requires DistinctDenoms(coins)
    ensures AmountOf(NonZero(coins), d) == AmountOf(coins, d)
    ensures HasDenom(NonZero(coins), d) ==> HasDenom(coins, d)
    ensures DistinctDenoms(NonZero(coins)) && AllPositive(NonZero(coins))
  {
    if coins != [] {
      HasDenomSplit(coins, d);
      NonZeroMeans(coins[1..], d);
      NonZeroMeans(coins[1..], coins[0].denom);
      if coins[0].amount != 0 {
        assert NonZero(coins)[1..] == NonZero(coins[1..]);
        HasDenomSplit(NonZero(coins), d);
      } else {
        assert NonZero(coins) == NonZero(coins[1..]);
      }
    }
  }

  /** A successful claim lowers what is owed of each denom by exactly what it pays out. */
  lemma ClaimConserves(s: State, sender: Addr, amounts: seq<Coin>, d: string)
    requires BookSound(s.feesCollected) && SubtractRelayerFees(s, sender, amounts).Ok?
    ensures var s' := SubtractRelayerFees(s, sender, amounts).value;
            && AmountOf(amounts, d) <= FeesOwed(s, d)
            && FeesOwed(s', d) == FeesOwed(s, d) - AmountOf(amounts, d)
            && BookSound(s'.feesCollected)
  {
    hide Total, AmountOf, DistinctDenoms, AllPositive, HasDenom, SubtractAll, NonZero;
    var s' := SubtractRelayerFees(s, sender, amounts).value;
    var coins := s.feesCollected[sender];
    ClaimRefinesMap(coins, amounts);
    NonZeroMeans(SubtractAll(coins, amounts).value, d);
    var u := Uncollected(s.feesCollected, d);
    var rest := AmountOf(s'.feesCollected[sender], d);
    assert Uncollected(s'.feesCollected, d) == u[sender := rest];
    TotalUpdate(u, sender, rest);
    TotalAtLeast(u, sender);
  }
}
