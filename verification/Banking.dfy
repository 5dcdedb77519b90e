/** The bank and token factory as the contract's messages see them. */
module Banking {
  import opened Types
  import opened Handlers
  import opened FeeBook

  /** Pays coins out of the contract's holdings, in order. */
  function PayAll(held: map<string, nat>, coins: seq<Coin>): Result<map<string, nat>>
    decreases |coins|
  {
    if coins == [] then Ok(held)
    else if GetOr(held, coins[0].denom, 0) < coins[0].amount then Err(BankFailure)
    else PayAll(held[coins[0].denom := GetOr(held, coins[0].denom, 0) - coins[0].amount], coins[1..])
  }

  function Apply(contract: Addr, bank: Bank, m: BankMsg): Result<Bank> {
    match m
    case CreateDenom(d) =>
      if d in bank.supply then Err(BankFailure) else Ok(bank.(supply := bank.supply[d := 0]))
    case Mint(to, coin) =>
      var supply := bank.supply[coin.denom := SupplyOf(bank, coin.denom) + coin.amount];
      var held := if to == contract then bank.held[coin.denom := HeldOf(bank, coin.denom) + coin.amount] else bank.held;
      Ok(Bank(supply, held))
    case Burn(coin) =>
      if HeldOf(bank, coin.denom) < coin.amount || SupplyOf(bank, coin.denom) < coin.amount then Err(BankFailure)
      else Ok(Bank(bank.supply[coin.denom := SupplyOf(bank, coin.denom) - coin.amount],
                   bank.held[coin.denom := HeldOf(bank, coin.denom) - coin.amount]))
    case Send(to, coins) =>
      if to == contract then Ok(bank)
      else
        var held :- PayAll(bank.held, coins);
        Ok(bank.(held := held))
  }

  function ApplyAll(contract: Addr, bank: Bank, msgs: seq<BankMsg>): Result<Bank>
    decreases |msgs|
  {
    if msgs == [] then Ok(bank)
    else
      var b :- Apply(contract, bank, msgs[0]);
      ApplyAll(contract, b, msgs[1..])
  }

  /** What a message adds to the contract's holdings of a denom. */
  function Inflow(contract: Addr, m: BankMsg, d: string): int {
    match m
    case CreateDenom(_) => 0
    case Mint(to, coin) => if to == contract && coin.denom == d then coin.amount else 0
    case Burn(coin) => if coin.denom == d then 0 - coin.amount else 0
    case Send(to, coins) => if to == contract then 0 else 0 - AmountOf(coins, d)
  }

  function Inflows(contract: Addr, msgs: seq<BankMsg>, d: string): int {
    if msgs == [] then 0 else Inflow(contract, msgs[0], d) + Inflows(contract, msgs[1..], d)
  }

  /** What a message adds to the supply of a denom. */
  function Issued(m: BankMsg, d: string): int {
    match m
    case CreateDenom(_) => 0
    case Mint(_, coin) => if coin.denom == d then coin.amount else 0
    case Burn(coin) => if coin.denom == d then 0 - coin.amount else 0
    case Send(_, _) => 0
  }

  function AllIssued(msgs: seq<BankMsg>, d: string): int {
    if msgs == [] then 0 else Issued(msgs[0], d) + AllIssued(msgs[1..], d)
  }

  /** The contract holds no coins that do not exist. */
  ghost predicate BankSound(bank: Bank) { forall d :: HeldOf(bank, d) <= SupplyOf(bank, d) }

  lemma {:induction false} PayAllMeans(held: map<string, nat>, coins: seq<Coin>)
    ensures PayAll(held, coins).Ok? <==> forall d :: AmountOf(coins, d) <= GetOr(held, d, 0)
    ensures PayAll(held, coins).Ok? ==>
              forall d :: GetOr(PayAll(held, coins).value, d, 0) == GetOr(held, d, 0) - AmountOf(coins, d)
    decreases |coins|
  {
    if coins != [] {
      var c := coins[0];
      if GetOr(held, c.denom, 0) < c.amount {
        assert AmountOf(coins, c.denom) > GetOr(held, c.denom, 0);
      } else {
        var held' := held[c.denom := GetOr(held, c.denom, 0) - c.amount];
        PayAllMeans(held', coins[1..]);
        forall d
          ensures AmountOf(coins, d) <= GetOr(held, d, 0) <==> AmountOf(coins[1..], d) <= GetOr(held', d, 0)
          ensures GetOr(held', d, 0) - AmountOf(coins[1..], d) == GetOr(held, d, 0) - AmountOf(coins, d)
        {
        }
      }
    }
  }

  lemma ApplyMeans(contract: Addr, bank: Bank, m: BankMsg, d: string)
    requires Apply(contract, bank, m).Ok?
    ensures HeldOf(Apply(contract, bank, m).value, d) == HeldOf(bank, d) + Inflow(contract, m, d)
    ensures SupplyOf(Apply(contract, bank, m).value, d) == SupplyOf(bank, d) + Issued(m, d)
    ensures Inflow(contract, m, d) <= Issued(m, d)
    ensures forall e :: e in bank.supply ==> e in Apply(contract, bank, m).value.supply
  {
    if m.Send? && m.to != contract {
      PayAllMeans(bank.held, m.coins);
    }
  }

  lemma {:induction false} ApplyAllMeans(contract: Addr, bank: Bank, msgs: seq<BankMsg>, d: string)
    requires ApplyAll(contract, bank, msgs).Ok?
    ensures HeldOf(ApplyAll(contract, bank, msgs).value, d) == HeldOf(bank, d) + Inflows(contract, msgs, d)
    ensures SupplyOf(ApplyAll(contract, bank, msgs).value, d) == SupplyOf(bank, d) + AllIssued(msgs, d)
    ensures Inflows(contract, msgs, d) <= AllIssued(msgs, d)
    ensures forall e :: e in bank.supply ==> e in ApplyAll(contract, bank, msgs).value.supply
    decreases |msgs|
  {
    hide Apply;
    if msgs != [] {
      ApplyMeans(contract, bank, msgs[0], d);
      ApplyAllMeans(contract, Apply(contract, bank, msgs[0]).value, msgs[1..], d);
    }
  }

  /** Mints, then at most one payment or burn: the shape of a handler's payment messages. */
  predicate PaymentShape(msgs: seq<BankMsg>) {
    msgs == [] || (if msgs[0].Mint? then PaymentShape(msgs[1..]) else |msgs| == 1 && !msgs[0].CreateDenom?)
  }

  lemma CoveredPaymentSucceeds(contract: Addr, bank: Bank, m: BankMsg)
    requires BankSound(bank) && !m.CreateDenom? && forall d :: HeldOf(bank, d) + Inflow(contract, m, d) >= 0
    ensures Apply(contract, bank, m).Ok?
  {
    match m
    case Send(to, coins) =>
      if to != contract {
        forall d ensures AmountOf(coins, d) <= GetOr(bank.held, d, 0) {
          assert HeldOf(bank, d) + Inflow(contract, m, d) >= 0;
        }
        PayAllMeans(bank.held, coins);
      }
    case Burn(coin) =>
      assert HeldOf(bank, coin.denom) + Inflow(contract, m, coin.denom) >= 0;
      assert HeldOf(bank, coin.denom) <= SupplyOf(bank, coin.denom);
    case Mint(_, _) =>
  }

  /** Payments go through when no denom would be overdrawn. */
  lemma {:induction false} CoveredPaymentsSucceed(contract: Addr, bank: Bank, msgs: seq<BankMsg>)
    requires BankSound(bank) && PaymentShape(msgs)
    requires forall d :: HeldOf(bank, d) + Inflows(contract, msgs, d) >= 0
    ensures ApplyAll(contract, bank, msgs).Ok?
    decreases |msgs|
  {
    hide Apply;
    if msgs != [] {
      var m := msgs[0];
      if m.Mint? {
        MintSucceeds(contract, bank, m);
        var b := Apply(contract, bank, m).value;
        forall d ensures HeldOf(b, d) <= SupplyOf(b, d) && HeldOf(b, d) + Inflows(contract, msgs[1..], d) >= 0 {
          ApplyMeans(contract, bank, m, d);
          assert HeldOf(bank, d) <= SupplyOf(bank, d);
          assert HeldOf(bank, d) + Inflows(contract, msgs, d) >= 0;
        }
        CoveredPaymentsSucceed(contract, b, msgs[1..]);
      } else {
        assert msgs[1..] == [];
        forall d ensures HeldOf(bank, d) + Inflow(contract, m, d) >= 0 {
          assert HeldOf(bank, d) + Inflows(contract, msgs, d) >= 0;
        }
        CoveredPaymentSucceeds(contract, bank, m);
      }
    }
  }

  lemma MintSucceeds(contract: Addr, bank: Bank, m: BankMsg)
    requires m.Mint?
    ensures Apply(contract, bank, m).Ok?
  {
  }
}
