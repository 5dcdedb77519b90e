/** Exactly when sends and transfer votes are accepted. */
module Acceptance {
  import opened Types
  import opened Amounts
  import opened Quotes
  import opened Tokens
  import opened Pending
  import opened Relayers
  import opened Evidences
  import opened Fees
  import opened Handlers
  import opened FeeBook
  import opened TokenTables
  import opened Queue
  import opened Soundness
  import opened TicketFlow
  import opened Solvency
  import opened Sends
  import opened Admission
  import opened Ballots

  // ---------- fees fit ----------

  lemma {:induction false} AddCoinSucceeds(coins: seq<Coin>, denom: string, amount: Uint128)
    requires DistinctDenoms(coins)
    ensures AddCoin(coins, denom, amount).Ok? <==> AmountOf(coins, denom) + amount <= U128_MAX
  {
    if coins != [] {
      if coins[0].denom == denom {
        NoneOf(coins[1..], denom);
      } else {
        AddCoinSucceeds(coins[1..], denom, amount);
      }
    }
  }

  /** There is room for a share on the list of every relayer. */
  predicate SharesFit(fees: Book, relayers: seq<Relayer>, denom: string, share: nat) {
    forall q <- relayers :: AmountOf(GetOr(fees, q.cosmosAddress, []), denom) + share <= U128_MAX
  }

  lemma {:induction false} CreditAllSucceeds(fees: Book, relayers: seq<Relayer>, denom: string, share: Uint128)
    requires BookSound(fees) && DistinctRelayers(relayers) && share > 0
    ensures CreditAll(fees, relayers, denom, share).Ok? <==> SharesFit(fees, relayers, denom, share)
  {
    hide AmountOf, AddCoin, BookSound, DistinctDenoms;
    if relayers != [] {
      var init, last := relayers[..|relayers| - 1], relayers[|relayers| - 1];
      assert relayers == init + [last];
      assert DistinctRelayers(init) by { DistinctAppend(init, last); }
      CreditAllSucceeds(fees, init, denom, share);
      assert forall q <- init :: q in relayers;
      if CreditAll(fees, init, denom, share).Ok? {
        var mid := CreditAll(fees, init, denom, share).value;
        CreditShare(fees, init, denom, share, denom);
        CreditAllEqually(fees, init, denom, share, last.cosmosAddress);
        assert !IsRelayer(init, last.cosmosAddress) by { DistinctAppend(init, last); }
        ListIsDistinct(mid, last.cosmosAddress);
        AddCoinSucceeds(GetOr(mid, last.cosmosAddress, []), denom, share);
      }
    }
  }

  lemma ListIsDistinct(fees: Book, a: Addr)
    requires BookSound(fees)
    ensures DistinctDenoms(GetOr(fees, a, []))
  {
  }

  /** A charge, together with the stored remainder, can be shared out. */
  predicate FeesFit(s: State, denom: string, charge: nat) {
    charge > 0 ==>
      var total := charge + GetOr(s.feeRemainders, denom, 0);
      && total <= U128_MAX && |s.config.relayers| > 0
      && var share := total / |s.config.relayers|;
      && (share > 0 ==> SharesFit(s.feesCollected, s.config.relayers, denom, share))
  }

  lemma CollectionSucceeds(s: State, fee: Uint128, denom: string, remainder: Uint128)
    requires Sound(s) && fee + remainder <= U128_MAX
    ensures HandleFeeCollection(s, fee, denom, remainder).Ok? <==> FeesFit(s, denom, fee + remainder)
  {
    hide Sound, SharesFit, CreditAll, BookSound, DistinctRelayers;
    SoundBook(s);
    SoundCommittee(s);
    var charge := fee + remainder;
    var total := charge + GetOr(s.feeRemainders, denom, 0);
    if charge > 0 && total <= U128_MAX {
      DivShrinks(total, |s.config.relayers|);
      var share := total / |s.config.relayers|;
      if share > 0 { CreditAllSucceeds(s.feesCollected, s.config.relayers, denom, share); }
    }
  }

  lemma SoundCommittee(s: State)
    requires Sound(s)
    ensures |s.config.relayers| > 0 && DistinctRelayers(s.config.relayers)
  {
  }

  lemma ChargeIsCollected(s: State, fee: Uint128, denom: string, unit: nat, value: Uint128)
    requires Sound(s) && unit > 0 && fee <= value
    ensures var cut := value - fee - Kept(unit, value - fee);
            HandleFeeCollection(s, fee, denom, cut).Ok? <==> FeesFit(s, denom, Charge(fee, unit, value))
  {
    hide Sound, HandleFeeCollection, FeesFit;
    CollectionSucceeds(s, fee, denom, value - fee - Kept(unit, value - fee));
  }

  // ---------- arrivals ----------

  /** A vote for an arriving XRPL token passes: the token is enabled, the fee leaves a unit, and the
      supply with the whole amount is within the limit. */
  predicate XrplArrivalPasses(env: Env, s: State, ev: Evidence, effective: bool)
    requires ev.XrplToCosmosTransfer?
  {
    var key := ev.issuer + ev.currency;
    && key in s.xrplTokens && s.xrplTokens[key].state == Enabled
    && var token := s.xrplTokens[key];
    && token.bridgingFee + XrplUnit(token) <= ev.amount
    && ev.amount + SupplyOf(env.bank, token.cosmosDenom) <= token.maxHoldingAmount
    && (effective ==> FeesFit(s, token.cosmosDenom, Charge(token.bridgingFee, XrplUnit(token), ev.amount)))
  }

  lemma XrplArrivalIff(env: Env, s: State, ev: Evidence, reached: bool)
    requires Sound(s) && ev.XrplToCosmosTransfer?
    ensures ReceiveXrplToken(env, s, ev, reached).Ok? <==> XrplArrivalPasses(env, s, ev, reached)
  {
    hide Sound, TruncateAmount, HandleFeeCollection, FeesFit, Kept, Unit, Charge, OnlyFees;
    var key := BuildXrplTokenKey(ev.issuer, ev.currency);
    if key in s.xrplTokens && s.xrplTokens[key].bridgingFee <= ev.amount {
      var token := s.xrplTokens[key];
      TruncationKeeps(token.sendingPrecision, LedgerDecimals(token), ev.amount - token.bridgingFee);
      ChargeIsCollected(s, token.bridgingFee, token.cosmosDenom, XrplUnit(token), ev.amount);
    }
  }

  /** A vote for a returning Cosmos token passes: the token is enabled, its value is representable, and
      the fee leaves a unit. */
  predicate CosmosArrivalPasses(s: State, ev: Evidence, effective: bool)
    requires ev.XrplToCosmosTransfer?
  {
    && ev.currency in s.cosmosTokenByCurrency && s.cosmosTokenByCurrency[ev.currency] in s.cosmosTokens
    && var token := s.cosmosTokens[s.cosmosTokenByCurrency[ev.currency]];
    && token.state == Enabled
    && var value := ToCosmosUnits(token.decimals, ev.amount);
    && value <= U128_MAX && token.bridgingFee + CosmosUnit(token) <= value
    && (effective ==> FeesFit(s, token.denom, Charge(token.bridgingFee, CosmosUnit(token), value)))
  }

  lemma ConversionSucceeds(decimals: nat, amount: Uint128)
    requires amount > 0
    ensures ConvertAmountDecimals(XRPL_TOKENS_DECIMALS, decimals, amount).Ok? <==>
            ToCosmosUnits(decimals, amount) <= U128_MAX
    ensures ToCosmosUnits(decimals, amount) <= U128_MAX ==>
              ConvertAmountDecimals(XRPL_TOKENS_DECIMALS, decimals, amount) == Ok(ToCosmosUnits(decimals, amount))
  {
    if decimals > XRPL_TOKENS_DECIMALS {
      var p := Pow10(decimals - XRPL_TOKENS_DECIMALS);
      MulMonotone(1, amount, p);
    } else {
      var p := Pow10(XRPL_TOKENS_DECIMALS - decimals);
      DivShrinks(amount, p);
      Pow10Monotone(XRPL_TOKENS_DECIMALS - decimals, 15);
      assert Pow10(15) == 1_000_000_000_000_000;
      if decimals == XRPL_TOKENS_DECIMALS { DivMod(amount, 1, amount, 0); }
    }
  }

  lemma CosmosArrivalIff(env: Env, s: State, ev: Evidence, reached: bool)
    requires Sound(s) && ev.XrplToCosmosTransfer? && ev.amount > 0
    ensures ReceiveCosmosToken(env, s, ev, reached).Ok? <==> CosmosArrivalPasses(s, ev, reached)
  {
    hide Sound, TruncateAmount, HandleFeeCollection, FeesFit, Kept, Unit, Charge, OnlyFees, ConvertAmountDecimals,
      ToCosmosUnits;
    if ev.currency in s.cosmosTokenByCurrency && s.cosmosTokenByCurrency[ev.currency] in s.cosmosTokens {
      var token := s.cosmosTokens[s.cosmosTokenByCurrency[ev.currency]];
      ConversionSucceeds(token.decimals, ev.amount);
      var value := ToCosmosUnits(token.decimals, ev.amount);
      if value <= U128_MAX && token.bridgingFee <= value {
        TruncationKeeps(token.sendingPrecision, token.decimals, value - token.bridgingFee);
        ChargeIsCollected(s, token.bridgingFee, token.denom, CosmosUnit(token), value);
      }
    }
  }

  /** A vote for a transfer is accepted exactly from a current relayer who has not voted for it, for
      something not yet processed, to a valid recipient other than the contract, on an active bridge, if
      the token's own conditions hold. */
  lemma TransferVoteMeans(env: Env, s: State, sender: Addr, ev: Evidence)
    requires Sound(s) && ev.XrplToCosmosTransfer?
    ensures var effective := |VotersOf(s, ev)| + 1 >= s.config.evidenceThreshold;
            Execute(env, s, SaveEvidence(sender, ev)).Ok? <==>
              && (exists q <- s.config.relayers :: q.cosmosAddress == sender)
              && ev.amount > 0 && env.chain.toUppercase(ev.transferHash) !in s.processedTxs
              && sender !in VotersOf(s, ev)
              && s.config.bridgeState == Active
              && env.chain.validCosmosAddress(ev.recipient) && ev.recipient != env.chain.contract
              && (if ev.issuer != s.config.bridgeXrplAddress then XrplArrivalPasses(env, s, ev, effective)
                  else CosmosArrivalPasses(s, ev, effective))
  {
    hide Sound, ReceiveXrplToken, ReceiveCosmosToken, ExecuteOpening, ExecuteSetting, OnlyFees, XrplArrivalPasses,
      CosmosArrivalPasses, ResolveOperation;
    if HandleEvidence(env.chain, s, sender, ev).Ok? && IsRelayer(s.config.relayers, sender) && ev.amount > 0 {
      var (s1, reached) := HandleEvidence(env.chain, s, sender, ev).value;
      VoteIsSound(env.chain, s, sender, ev);
      XrplArrivalIff(env, s1, ev, reached);
      CosmosArrivalIff(env, s1, ev, reached);
      SamePasses(env, s, s1, ev, reached);
    }
  }

  lemma SamePasses(env: Env, s: State, s1: State, ev: Evidence, effective: bool)
    requires ev.XrplToCosmosTransfer? && OnlyVotes(s, s1)
    ensures XrplArrivalPasses(env, s1, ev, effective) == XrplArrivalPasses(env, s, ev, effective)
    ensures CosmosArrivalPasses(s1, ev, effective) == CosmosArrivalPasses(s, ev, effective)
  {
    hide XrplUnit, CosmosUnit, Charge, ToCosmosUnits, SharesFit;
  }

  // ---------- sends ----------

  predicate XrplSendPasses(s: State, token: XrplToken, c: Coin, deliver: Option<Uint128>) {
    var unit := XrplUnit(token);
    && token.state == Enabled
    && token.bridgingFee + unit <= c.amount
    && (deliver.Some? ==> !IsXrp(token) && unit <= deliver.value <= c.amount - token.bridgingFee)
    && ValidateXrplAmount(Kept(unit, c.amount - token.bridgingFee)).Ok?
    && (deliver.Some? ==> ValidateXrplAmount(Kept(unit, deliver.value)).Ok?)
    && FeesFit(s, token.cosmosDenom, Charge(token.bridgingFee, unit, c.amount))
  }

  lemma DeliverIff(token: XrplToken, rest: Uint128, deliver: Uint128)
    ensures var r := DeliverAmount(token, LedgerDecimals(token), rest, deliver);
            && (r.Ok? <==> XrplUnit(token) <= deliver <= rest)
            && (r.Ok? ==> r.value == Kept(XrplUnit(token), deliver))
  {
    hide TruncateAmount, Kept, Unit;
    TruncationKeeps(token.sendingPrecision, LedgerDecimals(token), deliver);
  }

  /** What a send of an XRPL token comes to when the fee leaves a unit. */
  lemma XrplSendValue(s: State, token: XrplToken, c: Coin, deliver: Option<Uint128>)
    requires token.state == Enabled && token.bridgingFee + XrplUnit(token) <= c.amount
    ensures var unit, rest := XrplUnit(token), c.amount - token.bridgingFee;
            var r := SendXrplToken(s, token, c, deliver);
            var fees := HandleFeeCollection(s, token.bridgingFee, token.cosmosDenom, rest - Kept(unit, rest));
            && (r.Ok? <==> fees.Ok? && (deliver.Some? ==> !IsXrp(token) && unit <= deliver.value <= rest))
            && (r.Ok? ==>
                  && r.value.amount == Kept(unit, if deliver.Some? then deliver.value else rest)
                  && r.value.maxAmount == (if IsXrp(token) then None else Some(Kept(unit, rest))))
  {
    hide TruncateAmount, HandleFeeCollection, DeliverAmount, Kept, Unit, OnlyFees, IsXrp;
    XrpIsXrp(token);
    var rest := c.amount - token.bridgingFee;
    TruncationKeeps(token.sendingPrecision, LedgerDecimals(token), c.amount);
    TruncationKeeps(token.sendingPrecision, LedgerDecimals(token), rest);
    if deliver.Some? { DeliverIff(token, rest, deliver.value); }
  }

  lemma XrplSendRefused(s: State, token: XrplToken, c: Coin, deliver: Option<Uint128>)
    requires !(token.state == Enabled && token.bridgingFee + XrplUnit(token) <= c.amount)
    ensures SendXrplToken(s, token, c, deliver).Err?
  {
    hide TruncateAmount, HandleFeeCollection, DeliverAmount, Kept, Unit, OnlyFees;
    if token.bridgingFee <= c.amount {
      TruncationKeeps(token.sendingPrecision, LedgerDecimals(token), c.amount - token.bridgingFee);
    }
  }

  /** The decision on an XRPL token, and the validation of its amounts, succeed exactly when it passes. */
  lemma XrplSendIff(s: State, token: XrplToken, c: Coin, deliver: Option<Uint128>)
    requires Sound(s)
    ensures XrplSendPasses(s, token, c, deliver) <==>
              var r := SendXrplToken(s, token, c, deliver);
              && r.Ok? && ValidateXrplAmount(r.value.amount).Ok?
              && (r.value.maxAmount.Some? ==> ValidateXrplAmount(r.value.maxAmount.value).Ok?)
  {
    hide Sound, SendXrplToken, HandleFeeCollection, FeesFit, Kept, XrplUnit, Charge, OnlyFees, ValidateXrplAmount,
      IsXrp;
    if token.state == Enabled && token.bridgingFee + XrplUnit(token) <= c.amount {
      XrplSendValue(s, token, c, deliver);
      ChargeIsCollected(s, token.bridgingFee, token.cosmosDenom, XrplUnit(token), c.amount);
    } else {
      XrplSendRefused(s, token, c, deliver);
    }
  }

  lemma XrpIsXrp(token: XrplToken)
    ensures IsTokenXrp(token.issuer, token.currency) == IsXrp(token)
    ensures DecimalsOf(token.issuer, token.currency) == LedgerDecimals(token)
  {
  }

  /** Token units in the fifteen decimals of the ledger. */
  function LedgerUnits(decimals: nat, amount: nat): nat {
    if decimals <= 15 then amount * Pow10(15 - decimals)
    else
      DivShrinks(amount, Pow10(decimals - 15));
      amount / Pow10(decimals - 15)
  }

  predicate CosmosSendPasses(bank: Bank, s: State, token: CosmosToken, c: Coin, deliver: Option<Uint128>) {
    var unit := CosmosUnit(token);
    && token.state == Enabled && deliver == None
    && token.bridgingFee + unit <= c.amount
    && var amount := LedgerUnits(token.decimals, Kept(unit, c.amount - token.bridgingFee));
    && amount <= U128_MAX && ValidateXrplAmount(amount).Ok?
    && HeldOf(bank, token.denom) <= token.maxHoldingAmount
    && FeesFit(s, token.denom, Charge(token.bridgingFee, unit, c.amount))
  }

  lemma UnitsSucceed(decimals: nat, precision: int, amount: Uint128)
    requires ValidateSendingPrecision(precision, decimals).Ok? && Unit(decimals, precision) <= U128_MAX
    ensures var r := ConvertAmountDecimals(decimals, XRPL_TOKENS_DECIMALS, amount);
            && (r.Ok? <==> LedgerUnits(decimals, amount) <= U128_MAX)
            && (r.Ok? ==> r.value == LedgerUnits(decimals, amount))
  {
    if decimals > 15 {
      assert Abs(decimals - precision) == decimals - precision;
      Pow10Monotone(decimals - 15, decimals - precision);
    } else {
      Pow10Monotone(15 - decimals, 15);
      assert Pow10(15) == 1_000_000_000_000_000;
    }
  }

  /** What a send of a Cosmos token comes to when the fee leaves a unit. */
  lemma CosmosSendValue(bank: Bank, s: State, token: CosmosToken, c: Coin, deliver: Option<Uint128>)
    requires ValidateSendingPrecision(token.sendingPrecision, token.decimals).Ok?
    requires token.state == Enabled && deliver == None && token.bridgingFee + CosmosUnit(token) <= c.amount
    ensures var unit, rest := CosmosUnit(token), c.amount - token.bridgingFee;
            var amount := LedgerUnits(token.decimals, Kept(unit, rest));
            var r := SendCosmosToken(bank, s, token, c, deliver);
            var fees := HandleFeeCollection(s, token.bridgingFee, token.denom, rest - Kept(unit, rest));
            && (r.Ok? <==> amount <= U128_MAX && fees.Ok? && HeldOf(bank, token.denom) <= token.maxHoldingAmount)
            && (r.Ok? ==> r.value.amount == amount && r.value.maxAmount == Some(r.value.amount))
  {
    hide TruncateAmount, HandleFeeCollection, Kept, OnlyFees, LedgerUnits, ConvertAmountDecimals, Unit,
      ValidateSendingPrecision;
    var rest := c.amount - token.bridgingFee;
    TruncationKeeps(token.sendingPrecision, token.decimals, c.amount);
    TruncationKeeps(token.sendingPrecision, token.decimals, rest);
    UnitsSucceed(token.decimals, token.sendingPrecision, Kept(CosmosUnit(token), rest));
  }

  lemma CosmosSendRefused(bank: Bank, s: State, token: CosmosToken, c: Coin, deliver: Option<Uint128>)
    requires !(token.state == Enabled && deliver == None && token.bridgingFee + CosmosUnit(token) <= c.amount)
    ensures SendCosmosToken(bank, s, token, c, deliver).Err?
  {
    hide TruncateAmount, HandleFeeCollection, Kept, Unit, OnlyFees, ConvertAmountDecimals;
    if token.bridgingFee <= c.amount {
      TruncationKeeps(token.sendingPrecision, token.decimals, c.amount - token.bridgingFee);
    }
  }

  lemma CosmosSendIff(bank: Bank, s: State, token: CosmosToken, c: Coin, deliver: Option<Uint128>)
    requires Sound(s) && ValidateSendingPrecision(token.sendingPrecision, token.decimals).Ok?
    ensures CosmosSendPasses(bank, s, token, c, deliver) <==>
              var r := SendCosmosToken(bank, s, token, c, deliver);
              && r.Ok? && ValidateXrplAmount(r.value.amount).Ok?
              && (r.value.maxAmount.Some? ==> ValidateXrplAmount(r.value.maxAmount.value).Ok?)
  {
    hide Sound, SendCosmosToken, HandleFeeCollection, FeesFit, Kept, CosmosUnit, Charge, OnlyFees, ValidateXrplAmount,
      LedgerUnits, ValidateSendingPrecision;
    if token.state == Enabled && deliver == None && token.bridgingFee + CosmosUnit(token) <= c.amount {
      CosmosSendValue(bank, s, token, c, deliver);
      ChargeIsCollected(s, token.bridgingFee, token.denom, CosmosUnit(token), c.amount);
    } else {
      CosmosSendRefused(bank, s, token, c, deliver);
    }
  }

  /** The token of the coin passes. */
  predicate CoinPasses(env: Env, s: State, c: Coin, deliver: Option<Uint128>) {
    if c.denom in s.xrplTokenByDenom && s.xrplTokenByDenom[c.denom] in s.xrplTokens then
      XrplSendPasses(s, s.xrplTokens[s.xrplTokenByDenom[c.denom]], c, deliver)
    else c.denom in s.cosmosTokens && CosmosSendPasses(env.bank, s, s.cosmosTokens[c.denom], c, deliver)
  }

  lemma DecideIff(env: Env, s: State, c: Coin, deliver: Option<Uint128>)
    requires Sound(s)
    ensures CoinPasses(env, s, c, deliver) <==>
              var r := DecideTransfer(env, s, c, deliver);
              && r.Ok? && ValidateXrplAmount(r.value.amount).Ok?
              && (r.value.maxAmount.Some? ==> ValidateXrplAmount(r.value.maxAmount.value).Ok?)
  {
    hide Sound, SendXrplToken, SendCosmosToken, XrplSendPasses, CosmosSendPasses, ValidateXrplAmount, TablesSound,
      OnlyFees;
    if c.denom in s.xrplTokenByDenom && s.xrplTokenByDenom[c.denom] in s.xrplTokens {
      XrplSendIff(s, s.xrplTokens[s.xrplTokenByDenom[c.denom]], c, deliver);
    } else if c.denom in s.cosmosTokens {
      SoundTables(s);
      TablesGiveCosmosEntry(s, c.denom);
      CosmosSendIff(env.bank, s, s.cosmosTokens[c.denom], c, deliver);
    }
  }

  lemma DoSendIff(env: Env, s: State, sender: Addr, funds: seq<Coin>, recipient: string, deliver: Option<Uint128>)
    requires Sound(s) && TicketsSound(s)
    ensures DoSendToXrpl(env, s, sender, funds, recipient, deliver).Ok? <==>
              && s.config.bridgeState == Active
              && |funds| == 1 && funds[0].amount > 0
              && env.chain.validXrplAddress(recipient) && recipient !in s.prohibitedXrplAddresses
              && (deliver.Some? ==> deliver.value <= funds[0].amount)
              && CoinPasses(env, s, funds[0], deliver)
              && MayAllocate(s)
  {
    hide Sound, TicketsSound, DecideTransfer, CoinPasses, ValidateXrplAmount, Opens, KeepsConfig, KeepsXrplTokens;
    if |funds| == 1 {
      DecideIff(env, s, funds[0], deliver);
      var r := DecideTransfer(env, s, funds[0], deliver);
      if r.Ok? {
        var t := r.value;
        DecidedTickets(env, s, funds[0], deliver);
        AllocationSucceeds(env.time, t.state, CosmosToXrplTransfer(t.issuer, t.currency, t.amount, t.maxAmount, sender,
                                                                   recipient));
      }
    }
  }

  lemma DecidedTickets(env: Env, s: State, c: Coin, deliver: Option<Uint128>)
    requires TicketsSound(s) && DecideTransfer(env, s, c, deliver).Ok?
    ensures var s1 := DecideTransfer(env, s, c, deliver).value.state;
            && TicketsSound(s1) && s1.availableTickets == s.availableTickets && s1.config == s.config
            && s1.pendingRotateKeys == s.pendingRotateKeys
  {
    hide DecideTransfer, TicketsSound;
    SameTicketParts(s, DecideTransfer(env, s, c, deliver).value.state);
  }

  /** A send is accepted exactly on an active bridge, with one positive coin, to a valid and allowed
      recipient, if the coin's token passes and a ticket may be taken. */
  lemma SendAcceptance(env: Env, s: State, msg: Msg)
    requires Sound(s) && TicketsSound(s) && msg.SendToXrpl?
    ensures Execute(env, s, msg).Ok? <==>
              && s.config.bridgeState == Active
              && |msg.funds| == 1 && msg.funds[0].amount > 0
              && env.chain.validXrplAddress(msg.recipient) && msg.recipient !in s.prohibitedXrplAddresses
              && (msg.deliverAmount.Some? ==> msg.deliverAmount.value <= msg.funds[0].amount)
              && CoinPasses(env, s, msg.funds[0], msg.deliverAmount)
              && MayAllocate(s)
  {
    hide Sound, TicketsSound, DoSendToXrpl, CoinPasses, ExecuteSetting, ExecuteResolving;
    DoSendIff(env, s, msg.sender, msg.funds, msg.recipient, msg.deliverAmount);
  }
}
