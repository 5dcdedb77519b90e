/** Whom an effective transfer evidence pays, and how much. */
module Arrivals {
  import opened Types
  import opened Amounts
  import opened Quotes
  import opened Tokens
  import Relayers
  import opened Evidences
  import opened Fees
  import opened Handlers
  import opened FeeBook
  import opened TokenTables
  import opened Soundness
  import opened TicketFlow
  import opened Escrow
  import opened Solvency

  /** What a bank message gives an address. */
  function Gives(m: BankMsg, a: Addr, d: string): nat {
    match m
    case Mint(to, coin) => if to == a && coin.denom == d then coin.amount else 0
    case Send(to, coins) => if to == a then AmountOf(coins, d) else 0
    case _ => 0
  }

  function PaidTo(msgs: seq<BankMsg>, a: Addr, d: string): nat {
    if msgs == [] then 0 else Gives(msgs[0], a, d) + PaidTo(msgs[1..], a, d)
  }

  /** Outside the contract, `net` coins of the denom go to the payee and nothing else to anyone. */
  ghost predicate PaysOnly(contract: Addr, msgs: seq<BankMsg>, payee: Addr, denom: string, net: nat) {
    forall a, d | a != contract :: PaidTo(msgs, a, d) == if a == payee && d == denom then net else 0
  }

  /** A transfer with a memo goes to the swap entry point, if there is one, any other to its recipient. */
  function Payee(s: State, ev: Evidence): Addr
    requires ev.XrplToCosmosTransfer?
  {
    if ev.memo.Some? && |ev.memo.value| > 0 && s.config.osorEntryPoint.Some? then s.config.osorEntryPoint.value
    else ev.recipient
  }

  /** `net` is what a fee and a unit leave of a value. */
  predicate NetOf(net: nat, fee: nat, unit: nat, value: nat)
    requires unit > 0
  {
    net > 0 && net == value - Charge(fee, unit, value) && LargestMultiple(net, unit, value - fee)
  }

  /** What an effective transfer promises: only an enabled token of an active bridge, and of its value all
      but the configured fee and the remainder, to the payee and to nobody else. */
  ghost predicate ArrivalPromise(env: Env, s: State, ev: Evidence, msgs: seq<BankMsg>)
    requires ev.XrplToCosmosTransfer?
  {
    && s.config.bridgeState == Active
    && env.chain.validCosmosAddress(ev.recipient) && ev.recipient != env.chain.contract
    && (if ev.issuer != s.config.bridgeXrplAddress then
          var key := ev.issuer + ev.currency;
          && key in s.xrplTokens && s.xrplTokens[key].state == Enabled
          && var token := s.xrplTokens[key];
          && ev.amount + SupplyOf(env.bank, token.cosmosDenom) <= token.maxHoldingAmount
          && exists net: nat ::
               NetOf(net, token.bridgingFee, XrplUnit(token), ev.amount)
               && PaysOnly(env.chain.contract, msgs, Payee(s, ev), token.cosmosDenom, net)
        else
          && ev.currency in s.cosmosTokenByCurrency && s.cosmosTokenByCurrency[ev.currency] in s.cosmosTokens
          && var token := s.cosmosTokens[s.cosmosTokenByCurrency[ev.currency]];
          && token.xrplCurrency == ev.currency && token.state == Enabled
          && exists net: nat ::
               NetOf(net, token.bridgingFee, CosmosUnit(token), ToCosmosUnits(token.decimals, ev.amount))
               && PaysOnly(env.chain.contract, msgs, Payee(s, ev), token.denom, net))
  }

  // ---------- messages ----------

  lemma {:induction false} PaidAppend(msgs: seq<BankMsg>, m: BankMsg, a: Addr, d: string)
    ensures PaidTo(msgs + [m], a, d) == PaidTo(msgs, a, d) + Gives(m, a, d)
  {
    if msgs == [] {
      assert msgs + [m] == [m] && [m][1..] == [];
    } else {
      assert (msgs + [m])[1..] == msgs[1..] + [m];
      PaidAppend(msgs[1..], m, a, d);
    }
  }

  lemma MintsPay(contract: Addr, recipient: Addr, fee: Coin, coin: Coin, withFee: bool, swap: Option<Addr>)
    ensures var feeMsgs := if withFee then [Mint(contract, fee)] else [];
            var msgs := if swap.Some? then feeMsgs + [Mint(contract, coin)] + [Send(swap.value, [coin])]
                        else feeMsgs + [Mint(recipient, coin)];
            PaysOnly(contract, msgs, if swap.Some? then swap.value else recipient, coin.denom, coin.amount)
  {
    hide PaidTo;
    var feeMsgs := if withFee then [Mint(contract, fee)] else [];
    assert feeMsgs == if withFee then [] + [Mint(contract, fee)] else [];
    var msgs := if swap.Some? then feeMsgs + [Mint(contract, coin)] + [Send(swap.value, [coin])]
                else feeMsgs + [Mint(recipient, coin)];
    var payee := if swap.Some? then swap.value else recipient;
    forall a, d | a != contract
      ensures PaidTo(msgs, a, d) == if a == payee && d == coin.denom then coin.amount else 0
    {
      NobodyPaid(a, d);
      PaidAppend([], Mint(contract, fee), a, d);
      PaidAppend(feeMsgs, Mint(contract, coin), a, d);
      if swap.Some? { PaidAppend(feeMsgs + [Mint(contract, coin)], Send(swap.value, [coin]), a, d); }
      PaidAppend(feeMsgs, Mint(recipient, coin), a, d);
      OneCoin(coin, d);
    }
  }

  lemma NobodyPaid(a: Addr, d: string)
    ensures PaidTo([], a, d) == 0
  {
  }

  lemma SendPays(contract: Addr, to: Addr, coin: Coin)
    ensures PaysOnly(contract, [Send(to, [coin])], to, coin.denom, coin.amount)
  {
    var m := Send(to, [coin]);
    forall a, d ensures PaidTo([m], a, d) == if a == to && d == coin.denom then coin.amount else 0 {
      assert [m][1..] == [];
      OneCoin(coin, d);
    }
  }

  // ---------- arrivals ----------

  lemma XrplArrival(env: Env, s: State, ev: Evidence)
    requires ev.XrplToCosmosTransfer? && ReceiveXrplToken(env, s, ev, true).Ok?
    ensures var key := ev.issuer + ev.currency;
            && key in s.xrplTokens && s.xrplTokens[key].state == Enabled
            && var token := s.xrplTokens[key];
            && ev.amount + SupplyOf(env.bank, token.cosmosDenom) <= token.maxHoldingAmount
            && exists net: nat ::
                 NetOf(net, token.bridgingFee, XrplUnit(token), ev.amount)
                 && PaysOnly(env.chain.contract, ReceiveXrplToken(env, s, ev, true).value.msgs, Payee(s, ev),
                             token.cosmosDenom, net)
  {
    hide TruncateAmount, HandleFeeCollection, PaysOnly, Pow10;
    var token := s.xrplTokens[BuildXrplTokenKey(ev.issuer, ev.currency)];
    var rest := ev.amount - token.bridgingFee;
    TruncationMeans(token.sendingPrecision, LedgerDecimals(token), rest);
    var collected := token.bridgingFee + rest % XrplUnit(token);
    var net := rest - rest % XrplUnit(token);
    MintsPay(env.chain.contract, ev.recipient, Coin(token.cosmosDenom, collected), Coin(token.cosmosDenom, net),
             collected != 0, if IsUniversalSwap(s, ev.memo) then s.config.osorEntryPoint else None);
    assert NetOf(net, token.bridgingFee, XrplUnit(token), ev.amount);
  }

  lemma CosmosArrival(env: Env, s: State, ev: Evidence)
    requires TablesSound(s) && ev.XrplToCosmosTransfer? && ReceiveCosmosToken(env, s, ev, true).Ok?
    ensures && ev.currency in s.cosmosTokenByCurrency && s.cosmosTokenByCurrency[ev.currency] in s.cosmosTokens
            && var token := s.cosmosTokens[s.cosmosTokenByCurrency[ev.currency]];
            && token.xrplCurrency == ev.currency && token.state == Enabled
            && exists net: nat ::
                 NetOf(net, token.bridgingFee, CosmosUnit(token), ToCosmosUnits(token.decimals, ev.amount))
                 && PaysOnly(env.chain.contract, ReceiveCosmosToken(env, s, ev, true).value.msgs, Payee(s, ev),
                             token.denom, net)
  {
    hide TruncateAmount, HandleFeeCollection, ConvertAmountDecimals, PaysOnly, Pow10, TablesSound, ToCosmosUnits;
    CurrencyEntry(s, ev.currency);
    var token := s.cosmosTokens[s.cosmosTokenByCurrency[ev.currency]];
    ConvertIsExact(token.decimals, ev.amount);
    var rest := ToCosmosUnits(token.decimals, ev.amount) - token.bridgingFee;
    TruncationMeans(token.sendingPrecision, token.decimals, rest);
    var net := rest - rest % CosmosUnit(token);
    SendPays(env.chain.contract, Payee(s, ev), Coin(token.denom, net));
    assert NetOf(net, token.bridgingFee, CosmosUnit(token), ToCosmosUnits(token.decimals, ev.amount));
  }

  /** Every effective transfer keeps the promise, and one that is only counted pays nobody. */
  lemma ArrivalMeans(env: Env, s: State, sender: Addr, ev: Evidence)
    requires Sound(s) && ev.XrplToCosmosTransfer? && Execute(env, s, SaveEvidence(sender, ev)).Ok?
    ensures var o := Execute(env, s, SaveEvidence(sender, ev)).value;
            if TakesEffect(env, s, SaveEvidence(sender, ev)) then ArrivalPromise(env, s, ev, o.msgs) else o.msgs == []
  {
    hide Sound, ReceiveXrplToken, ReceiveCosmosToken, HandleEvidence, Relayers.IsRelayer, PaysOnly, NetOf,
      ValidateBasic, XrplUnit, CosmosUnit, ToCosmosUnits, TablesSound;
    var (s1, reached) := HandleEvidence(env.chain, s, sender, ev).value;
    VoteIsSound(env.chain, s, sender, ev);
    SoundTables(s1);
    if !reached {
      UnreachedChangesNothing(env, s1, ev);
    } else if ev.issuer != s.config.bridgeXrplAddress {
      XrplArrival(env, s1, ev);
    } else {
      CosmosArrival(env, s1, ev);
    }
  }
}
