/** What an accepted send queues: the right amounts of the right token, for the right people. */
module Sends {
  import opened Types
  import opened Amounts
  import opened Quotes
  import opened Pending
  import opened Fees
  import opened Handlers
  import opened TokenTables
  import opened Queue
  import opened Soundness
  import opened Solvency

  predicate IsXrp(token: XrplToken) { LedgerDecimals(token) == 6 }

  /** The transfer of an XRPL-originated token: only an enabled one is sent. Its maximum, for XRP its
      amount, is the largest multiple of the unit that the fee leaves; its amount is that, or the largest
      multiple within a deliver amount, which XRP does not take. */
  predicate XrplTransferOf(token: XrplToken, funds: Coin, deliver: Option<Uint128>, t: OperationType)
    requires t.CosmosToXrplTransfer?
  {
    var lock := if t.maxAmount.Some? then t.maxAmount.value else t.amount;
    && token.state == Enabled
    && t.issuer == token.issuer && t.currency == token.currency
    && lock > 0 && LargestMultiple(lock, XrplUnit(token), funds.amount - token.bridgingFee)
    && (t.maxAmount.None? <==> IsXrp(token))
    && (deliver.None? ==> t.amount == lock)
    && (deliver.Some? ==>
          && !IsXrp(token) && deliver.value <= funds.amount - token.bridgingFee
          && t.amount > 0 && LargestMultiple(t.amount, XrplUnit(token), deliver.value))
  }

  /** The transfer of a Cosmos-originated token: the largest multiple of the unit that the fee leaves, to
      the last unit, in the fifteen decimals of the ledger; the escrow stays within its limit. */
  predicate CosmosTransferOf(bridge: string, held: nat, token: CosmosToken, funds: Coin, deliver: Option<Uint128>,
                             t: OperationType)
    requires t.CosmosToXrplTransfer?
  {
    var lock := ToCosmosUnits(token.decimals, t.amount);
    && token.state == Enabled && deliver == None
    && t.issuer == bridge && t.currency == token.xrplCurrency && t.maxAmount == Some(t.amount)
    && lock > 0 && LargestMultiple(lock, CosmosUnit(token), funds.amount - token.bridgingFee)
    && WholeCosmosUnits(token.decimals, t.amount)
    && held <= token.maxHoldingAmount
  }

  /** What an accepted send promises. */
  ghost predicate SendPromise(env: Env, s: State, sender: Addr, funds: seq<Coin>, recipient: string,
                              deliver: Option<Uint128>, s': State)
  {
    && s.config.bridgeState == Active
    && |funds| == 1 && funds[0].amount > 0
    && env.chain.validXrplAddress(recipient) && recipient !in s.prohibitedXrplAddresses
    && |s.availableTickets| >= 2
    && var k := s.availableTickets[0];
    && k !in s.pendingOperations && k in s'.pendingOperations
    && var t := s'.pendingOperations[k].operationType;
    && t.CosmosToXrplTransfer? && t.sender == sender && t.recipient == recipient
    && Decides(env, s, funds[0], deliver, t)
  }

  lemma XrplSend(s: State, token: XrplToken, funds: Coin, deliver: Option<Uint128>, sender: Addr, recipient: string)
    requires SendXrplToken(s, token, funds, deliver).Ok?
    ensures var t := SendXrplToken(s, token, funds, deliver).value;
            XrplTransferOf(token, funds, deliver,
                           CosmosToXrplTransfer(t.issuer, t.currency, t.amount, t.maxAmount, sender, recipient))
  {
    hide TruncateAmount, HandleFeeCollection, Pow10;
    TruncationMeans(token.sendingPrecision, LedgerDecimals(token), funds.amount - token.bridgingFee);
    if deliver.Some? { TruncationMeans(token.sendingPrecision, LedgerDecimals(token), deliver.value); }
  }

  lemma CosmosSend(bank: Bank, s: State, token: CosmosToken, funds: Coin, deliver: Option<Uint128>, sender: Addr,
                   recipient: string)
    requires ValidateSendingPrecision(token.sendingPrecision, token.decimals).Ok?
    requires SendCosmosToken(bank, s, token, funds, deliver).Ok?
    ensures var t := SendCosmosToken(bank, s, token, funds, deliver).value;
            CosmosTransferOf(s.config.bridgeXrplAddress, HeldOf(bank, token.denom), token, funds, deliver,
                             CosmosToXrplTransfer(t.issuer, t.currency, t.amount, t.maxAmount, sender, recipient))
  {
    hide TruncateAmount, HandleFeeCollection, ConvertAmountDecimals, Pow10, WholeCosmosUnits, ToCosmosUnits;
    LosslessConversion(token.sendingPrecision, token.decimals, funds.amount, token.bridgingFee);
    TruncationMeans(token.sendingPrecision, token.decimals, funds.amount - token.bridgingFee);
  }

  /** The transfer a send decides on. */
  ghost predicate Decides(env: Env, s: State, c: Coin, deliver: Option<Uint128>, t: OperationType)
    requires t.CosmosToXrplTransfer?
  {
    if c.denom in s.xrplTokenByDenom then
      && s.xrplTokenByDenom[c.denom] in s.xrplTokens
      && XrplTransferOf(s.xrplTokens[s.xrplTokenByDenom[c.denom]], c, deliver, t)
    else
      && c.denom in s.cosmosTokens
      && CosmosTransferOf(s.config.bridgeXrplAddress, HeldOf(env.bank, c.denom), s.cosmosTokens[c.denom], c, deliver, t)
  }

  lemma DecideMeans(env: Env, s: State, c: Coin, deliver: Option<Uint128>, sender: Addr, recipient: string)
    requires TablesSound(s) && DecideTransfer(env, s, c, deliver).Ok?
    ensures var t := DecideTransfer(env, s, c, deliver).value;
            Decides(env, s, c, deliver,
                    CosmosToXrplTransfer(t.issuer, t.currency, t.amount, t.maxAmount, sender, recipient))
  {
    hide TablesSound, SendXrplToken, SendCosmosToken, XrplTransferOf, CosmosTransferOf;
    if c.denom in s.xrplTokenByDenom {
      XrplEntryOf(s, c.denom);
      XrplSend(s, s.xrplTokens[s.xrplTokenByDenom[c.denom]], c, deliver, sender, recipient);
    } else {
      TablesGiveCosmosEntry(s, c.denom);
      CosmosSend(env.bank, s, s.cosmosTokens[c.denom], c, deliver, sender, recipient);
    }
  }

  lemma SendQueues(env: Env, s: State, sender: Addr, funds: seq<Coin>, recipient: string, deliver: Option<Uint128>)
    requires TablesSound(s) && DoSendToXrpl(env, s, sender, funds, recipient, deliver).Ok?
    ensures SendPromise(env, s, sender, funds, recipient, deliver,
                        DoSendToXrpl(env, s, sender, funds, recipient, deliver).value)
  {
    hide TablesSound, DecideTransfer, ValidateXrplAmount, XrplTransferOf, CosmosTransferOf, CheckValidOperationIfHalt;
    DecideMeans(env, s, funds[0], deliver, sender, recipient);
  }

  /** Every accepted send keeps the promise. */
  lemma SendMeans(env: Env, s: State, sender: Addr, funds: seq<Coin>, recipient: string, deliver: Option<Uint128>)
    requires Sound(s) && Execute(env, s, SendToXrpl(sender, funds, recipient, deliver)).Ok?
    ensures var o := Execute(env, s, SendToXrpl(sender, funds, recipient, deliver)).value;
            SendPromise(env, s, sender, funds, recipient, deliver, o.state) && o.msgs == []
  {
    hide Sound, TablesSound, DoSendToXrpl, SendPromise;
    SoundTables(s);
    SendQueues(env, s, sender, funds, recipient, deliver);
  }
}
