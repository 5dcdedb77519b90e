/** No message leaves the contract owing more than it has: what each message adds to the debts is
    covered by the coins it brings in. */
module Solvency {
  import opened Types
  import opened Amounts
  import opened Tokens
  import opened Pending
  import opened Tickets
  import Relayers
  import opened Evidences
  import opened Fees
  import opened Operations
  import opened Handlers
  import opened Sums
  import opened FeeBook
  import opened Flags
  import opened TokenTables
  import opened Queue
  import opened Soundness
  import opened TicketFlow
  import opened Votes
  import opened Banking
  import opened Escrow

  /** Coins the sender attaches. */
  function Attached(msg: Msg, d: string): nat {
    if msg.SendToXrpl? then AmountOf(msg.funds, d) else 0
  }

  // ---------- sending ----------

  /** A fee collection adds the fee and the truncation remainder to what relayers are owed. */
  lemma CollectionOwes(s: State, fee: Uint128, denom: string, remainder: Uint128, d: string)
    requires HandleFeeCollection(s, fee, denom, remainder).Ok?
    ensures FeesOwed(HandleFeeCollection(s, fee, denom, remainder).value.0, d)
         == FeesOwed(s, d) + (if d == denom then fee + remainder else 0)
  {
    hide CollectFees, FeesOwed;
    CollectFeesConserves(s, Coin(denom, fee + remainder), d);
  }

  lemma SendXrplMoney(s: State, token: XrplToken, funds: Coin, deliver: Option<Uint128>, d: string)
    requires SendXrplToken(s, token, funds, deliver).Ok?
    ensures var t := SendXrplToken(s, token, funds, deliver).value;
            var lock := if t.maxAmount.Some? then t.maxAmount.value else t.amount;
            && lock <= funds.amount
            && FeesOwed(t.state, d) == FeesOwed(s, d) + (if d == token.cosmosDenom then funds.amount - lock else 0)
  {
    hide TruncateAmount, HandleFeeCollection, DeliverAmount, FeesOwed;
    var (toSend, remainder) := TruncateAmount(token.sendingPrecision, DecimalsOf(token.issuer, token.currency),
                                              funds.amount - token.bridgingFee).value;
    CollectionOwes(s, token.bridgingFee, token.cosmosDenom, remainder, d);
  }

  lemma SendCosmosMoney(bank: Bank, s: State, token: CosmosToken, funds: Coin, deliver: Option<Uint128>, d: string)
    requires ValidateSendingPrecision(token.sendingPrecision, token.decimals).Ok?
    requires SendCosmosToken(bank, s, token, funds, deliver).Ok?
    ensures var t := SendCosmosToken(bank, s, token, funds, deliver).value;
            var lock := ConvertAmountDecimals(XRPL_TOKENS_DECIMALS, token.decimals, t.amount);
            && lock.Ok? && lock.value <= funds.amount
            && FeesOwed(t.state, d) == FeesOwed(s, d) + (if d == token.denom then funds.amount - lock.value else 0)
  {
    hide TruncateAmount, HandleFeeCollection, ConvertAmountDecimals, TruncateAndConvertAmount, FeesOwed;
    LosslessConversion(token.sendingPrecision, token.decimals, funds.amount, token.bridgingFee);
    var (toSend, remainder) := TruncateAndConvertAmount(token.sendingPrecision, token.decimals, XRPL_TOKENS_DECIMALS,
                                                        funds.amount, token.bridgingFee).value;
    CollectionOwes(s, token.bridgingFee, token.denom, remainder, d);
  }

  /** Locked coins and collected fees of a send add up to its funds. */
  lemma DecideMoney(env: Env, s: State, funds: Coin, deliver: Option<Uint128>, sender: Addr, recipient: string,
                    d: string)
    requires TablesSound(s) && DecideTransfer(env, s, funds, deliver).Ok?
    ensures var t := DecideTransfer(env, s, funds, deliver).value;
            var lock := LockedCoin(s, CosmosToXrplTransfer(t.issuer, t.currency, t.amount, t.maxAmount, sender,
                                                           recipient));
            && lock.Ok? && lock.value.denom == funds.denom && lock.value.amount <= funds.amount
            && FeesOwed(t.state, d) ==
                 FeesOwed(s, d) + (if d == funds.denom then funds.amount - lock.value.amount else 0)
  {
    hide SendXrplToken, SendCosmosToken, TablesSound, ConvertAmountDecimals, FeesOwed, OnlyFees;
    if funds.denom in s.xrplTokenByDenom && s.xrplTokenByDenom[funds.denom] in s.xrplTokens {
      var key := s.xrplTokenByDenom[funds.denom];
      XrplEntryOf(s, funds.denom);
      SendXrplAmounts(s, s.xrplTokens[key], funds, deliver);
      SendXrplMoney(s, s.xrplTokens[key], funds, deliver, d);
    } else {
      var token := s.cosmosTokens[funds.denom];
      TablesGiveCosmosEntry(s, funds.denom);
      SendCosmosAmounts(env.bank, s, token, funds, deliver);
      SendCosmosMoney(env.bank, s, token, funds, deliver, d);
      BridgeIssuedIsNotXrpl(s, token.xrplCurrency);
    }
  }

  lemma XrplEntryOf(s: State, denom: string)
    requires TablesSound(s) && denom in s.xrplTokenByDenom
    ensures var key := s.xrplTokenByDenom[denom];
            key in s.xrplTokens && s.xrplTokens[key].cosmosDenom == denom && XrplEntrySound(s, key)
  {
  }

  lemma SendMoney(env: Env, s: State, l: Ledger, sender: Addr, funds: seq<Coin>, recipient: string,
                  deliver: Option<Uint128>, d: string)
    requires Sound(s) && LedgerSound(s, l) && DoSendToXrpl(env, s, sender, funds, recipient, deliver).Ok?
    ensures Owed(DoSendToXrpl(env, s, sender, funds, recipient, deliver).value, l, d)
            == Owed(s, l, d) + AmountOf(funds, d)
  {
    hide TablesSound, QueueSound, LedgerSound, DecideTransfer, ValidateXrplAmount, LockedCoin, LocksIn, Total,
      FeesOwed, FlagsAgree, RefundsIn, ReturnsIn, CheckValidOperationIfHalt;
    var s' := DoSendToXrpl(env, s, sender, funds, recipient, deliver).value;
    var k := s.availableTickets[0];
    var t := DecideTransfer(env, s, funds[0], deliver).value;
    var typ := CosmosToXrplTransfer(t.issuer, t.currency, t.amount, t.maxAmount, sender, recipient);
    DecideMoney(env, s, funds[0], deliver, sender, recipient, d);
    SameFees(t.state, s', d);
    LocksOpened(s, s', l, k, s'.pendingOperations[k], d);
    assert funds == [funds[0]];
    OneCoin(funds[0], d);
    assert RefundsIn(s', d) == RefundsIn(s, d) by { SameRefunds(s, s', d); }
    SameReturns(s, s', l, d);
  }

  lemma SameFees(s: State, s': State, d: string)
    requires KeepsFees(s, s')
    ensures FeesOwed(s', d) == FeesOwed(s, d)
  {
  }

  lemma SameRefunds(s: State, s': State, d: string)
    requires KeepsRefunds(s, s')
    ensures RefundsIn(s', d) == RefundsIn(s, d)
  {
  }

  lemma SameReturns(s: State, s': State, l: Ledger, d: string)
    requires KeepsCosmosTokens(s, s') && s'.processedTxs == s.processedTxs
    requires s'.config.bridgeXrplAddress == s.config.bridgeXrplAddress
    ensures ReturnsIn(s', l, d) == ReturnsIn(s, l, d)
  {
    hide ToCosmosUnits;
  }

  lemma OneCoin(c: Coin, d: string)
    ensures AmountOf([c], d) == if c.denom == d then c.amount else 0
  {
    assert [c][1..] == [];
  }

  // ---------- receiving ----------

  lemma MsgsAppend(contract: Addr, msgs: seq<BankMsg>, m: BankMsg, d: string)
    requires forall n <- msgs :: n.Mint?
    ensures Inflows(contract, msgs + [m], d) == Inflows(contract, msgs, d) + Inflow(contract, m, d)
    ensures AllIssued(msgs + [m], d) == AllIssued(msgs, d) + Issued(m, d)
    ensures !m.CreateDenom? ==> PaymentShape(msgs + [m])
  {
    if msgs == [] {
      assert msgs + [m] == [m] && [m][1..] == [];
    } else {
      assert (msgs + [m])[1..] == msgs[1..] + [m];
      MsgsAppend(contract, msgs[1..], m, d);
    }
  }

  /** The messages of an arriving XRPL token: fee, payment, and the hand-over to a swap. */
  lemma MintInflows(contract: Addr, to: Addr, fee: Coin, coin: Coin, withFee: bool, swap: Option<Addr>, d: string)
    requires swap.None? ==> to != contract
    requires fee.denom == coin.denom
    ensures var feeMsgs := if withFee then [Mint(contract, fee)] else [];
            var msgs := if swap.Some? then feeMsgs + [Mint(contract, coin)] + [Send(swap.value, [coin])]
                        else feeMsgs + [Mint(to, coin)];
            && Inflows(contract, msgs, d) >= (if withFee && coin.denom == d then fee.amount else 0)
            && AllIssued(msgs, d) == (if coin.denom == d then coin.amount + (if withFee then fee.amount else 0) else 0)
            && PaymentShape(msgs)
  {
    hide Inflows, AllIssued, PaymentShape;
    var feeMsgs := if withFee then [Mint(contract, fee)] else [];
    NothingFlows(contract, d);
    assert feeMsgs == if withFee then [] + [Mint(contract, fee)] else [];
    MsgsAppend(contract, [], Mint(contract, fee), d);
    if swap.Some? {
      MsgsAppend(contract, feeMsgs, Mint(contract, coin), d);
      MsgsAppend(contract, feeMsgs + [Mint(contract, coin)], Send(swap.value, [coin]), d);
      OneCoin(coin, d);
    } else {
      MsgsAppend(contract, feeMsgs, Mint(to, coin), d);
    }
  }

  /** An arriving XRPL token: exactly the reported amount is minted, and the contract keeps at least
      what relayers gain. */
  lemma ReceiveXrplMoney(env: Env, s: State, ev: Evidence, d: string)
    requires ev.XrplToCosmosTransfer? && ev.recipient != env.chain.contract && ReceiveXrplToken(env, s, ev, true).Ok?
    ensures var o := ReceiveXrplToken(env, s, ev, true).value;
            var denom := s.xrplTokens[BuildXrplTokenKey(ev.issuer, ev.currency)].cosmosDenom;
            && FeesOwed(o.state, d) <= FeesOwed(s, d) + Inflows(env.chain.contract, o.msgs, d)
            && AllIssued(o.msgs, d) == (if d == denom then ev.amount else 0)
            && PaymentShape(o.msgs)
  {
    hide TruncateAmount, HandleFeeCollection, FeesOwed, CheckedAdd, Inflows, AllIssued, PaymentShape;
    var token := s.xrplTokens[BuildXrplTokenKey(ev.issuer, ev.currency)];
    var (toSend, remainder) := TruncateAmount(token.sendingPrecision, DecimalsOf(token.issuer, token.currency),
                                              ev.amount - token.bridgingFee).value;
    CollectionOwes(s, token.bridgingFee, token.cosmosDenom, remainder, d);
    var collected := token.bridgingFee + remainder;
    MintInflows(env.chain.contract, ev.recipient, Coin(token.cosmosDenom, collected), Coin(token.cosmosDenom, toSend),
                collected != 0, if IsUniversalSwap(s, ev.memo) then s.config.osorEntryPoint else None, d);
  }

  lemma SendInflows(contract: Addr, to: Addr, coins: seq<Coin>, d: string)
    ensures Inflows(contract, [Send(to, coins)], d) == (if to == contract then 0 else 0 - AmountOf(coins, d))
    ensures AllIssued([Send(to, coins)], d) == 0
  {
    assert [Send(to, coins)][1..] == [];
  }

  /** A returning Cosmos token: payment, fee and remainder add up to the converted amount. */
  lemma ReceiveCosmosMoney(env: Env, s: State, ev: Evidence, d: string)
    requires TablesSound(s) && ev.XrplToCosmosTransfer? && ReceiveCosmosToken(env, s, ev, true).Ok?
    ensures var o := ReceiveCosmosToken(env, s, ev, true).value;
            && FeesOwed(o.state, d) <= FeesOwed(s, d) + Returned(s, ev, d) + Inflows(env.chain.contract, o.msgs, d)
            && PaymentShape(o.msgs) && AllIssued(o.msgs, d) == 0
  {
    hide TruncateAmount, ConvertAmountDecimals, HandleFeeCollection, FeesOwed, Inflows, AllIssued, AmountOf,
      ToCosmosUnits, TablesSound;
    CurrencyEntry(s, ev.currency);
    var denom := s.cosmosTokenByCurrency[ev.currency];
    var token := s.cosmosTokens[denom];
    var (toSend, remainder) := ConvertAndTruncateAmount(token.sendingPrecision, XRPL_TOKENS_DECIMALS, token.decimals,
                                                        ev.amount, token.bridgingFee).value;
    var to := if IsUniversalSwap(s, ev.memo) then s.config.osorEntryPoint.value else ev.recipient;
    ConvertIsExact(token.decimals, ev.amount);
    CollectionOwes(s, token.bridgingFee, denom, remainder, d);
    SendInflows(env.chain.contract, to, [Coin(denom, toSend)], d);
    OneCoin(Coin(denom, toSend), d);
  }

  /** The value of a return in units of the denom it comes back to. */
  function Returned(s: State, ev: Evidence, d: string): nat
    requires ev.XrplToCosmosTransfer?
  {
    if ev.currency in s.cosmosTokenByCurrency && s.cosmosTokenByCurrency[ev.currency] == d && d in s.cosmosTokens then
      ToCosmosUnits(s.cosmosTokens[d].decimals, ev.amount)
    else 0
  }

  lemma CurrencyEntry(s: State, currency: string)
    requires TablesSound(s) && currency in s.cosmosTokenByCurrency
    ensures var denom := s.cosmosTokenByCurrency[currency];
            denom in s.cosmosTokens && s.cosmosTokens[denom].xrplCurrency == currency && CosmosEntrySound(s, denom)
  {
  }

  // ---------- resolving ----------

  lemma BurnInflows(contract: Addr, coin: Coin, d: string)
    ensures Inflows(contract, [Burn(coin)], d) == (if coin.denom == d then 0 - coin.amount else 0)
    ensures AllIssued([Burn(coin)], d) == (if coin.denom == d then 0 - coin.amount else 0)
  {
    assert [Burn(coin)][1..] == [];
  }

  /** The debts after a transfer is resolved: its lock becomes a burn, a refund, or the value its
      executed counterpart has on the ledger. Nothing is lost unless a refund is replaced. */
  lemma TransferCloseMoney(contract: Addr, s: State, l: Ledger, op: Operation, opResult: Option<OperationResult>,
                           result: TransactionResult, hash: Option<string>, id: Sequence, ticket: Option<Sequence>,
                           d: string)
    requires Sound(s) && LedgerSound(s, l) && IsTransfer(s.pendingOperations, id) && op == s.pendingOperations[id]
    requires HandleOperation(s, op, opResult, result, hash, id, ticket).Ok?
    requires result.Accepted? <==> id in l.settled
    ensures var o := HandleOperation(s, op, opResult, result, hash, id, ticket).value;
            var l' := l.(settled := l.settled - {id});
            var key := RefundKey(op.operationType.sender, op.id);
            && Owed(o.state, l', d) == Owed(s, l, d) + Inflows(contract, o.msgs, d)
                                       - (if result.Accepted? then 0 else RefundedUnder(s, key, d))
            && PaymentShape(o.msgs)
            && AllIssued(o.msgs, d) == Inflows(contract, o.msgs, d)
  {
    hide TablesSound, QueueSound, LedgerSound, LockedCoin, LocksIn, Total, FeesOwed, FlagsAgree, RefundsIn, ReturnsIn,
      Inflows, AllIssued, EscrowSound, TransferSound, HandleOperation;
    var o := HandleOperation(s, op, opResult, result, hash, id, ticket).value;
    var t := op.operationType;
    TransferOutcome(s, op, opResult, result, hash, id, ticket);
    var l' := l.(settled := l.settled - {id});
    LocksClosed(s, o.state, l, id, d);
    SameFees(s, o.state, d);
    SameReturns(s, o.state, l', d);
    ArrivalsDecide(s, l, l', d);
    LockIsDefined(s, id);
    NothingFlows(contract, d);
    var lock := LockedCoin(s, t).value;
    if result.Accepted? {
      SameRefunds(s, o.state, d);
      if BuildXrplTokenKey(t.issuer, t.currency) in s.xrplTokens {
        BurnInflows(contract, lock, d);
        XrplIsNotEscrow(s, t);
      } else {
        EscrowWhenNotXrpl(s, t);
      }
    } else {
      RefundStoredOver(s, o.state, RefundKey(t.sender, op.id), PendingRefund(hash, lock), d);
    }
  }

  lemma ArrivalsDecide(s: State, l: Ledger, l': Ledger, d: string)
    requires l'.arrivals == l.arrivals
    ensures ReturnsIn(s, l', d) == ReturnsIn(s, l, d)
  {
    hide ToCosmosUnits;
  }

  /** What a resolved transfer leaves behind: exactly one burn of its lock, or exactly one refund of
      its lock under its own identifier, or, accepted and escrowed, nothing. */
  predicate TransferLeaves(s: State, s': State, op: Operation, result: TransactionResult, hash: Option<string>,
                           msgs: seq<BankMsg>)
    requires op.operationType.CosmosToXrplTransfer?
  {
    var t := op.operationType;
    var lock := LockedCoin(s, t);
    var wrapped := BuildXrplTokenKey(t.issuer, t.currency) in s.xrplTokens;
    && lock.Ok?
    && msgs == (if result.Accepted? && wrapped then [Burn(lock.value)] else [])
    && s'.pendingRefunds == (if result.Accepted? then s.pendingRefunds
                             else s.pendingRefunds[RefundKey(t.sender, op.id) := PendingRefund(hash, lock.value)])
  }

  lemma TransferOutcome(s: State, op: Operation, opResult: Option<OperationResult>, result: TransactionResult,
                        hash: Option<string>, id: Sequence, ticket: Option<Sequence>)
    requires Sound(s) && IsTransfer(s.pendingOperations, id) && op == s.pendingOperations[id]
    requires HandleOperation(s, op, opResult, result, hash, id, ticket).Ok?
    ensures var o := HandleOperation(s, op, opResult, result, hash, id, ticket).value;
            && TransferLeaves(s, o.state, op, result, hash, o.msgs)
            && o.state.pendingOperations == s.pendingOperations - {id}
            && KeepsXrplTokens(s, o.state) && KeepsCosmosTokens(s, o.state) && KeepsConfig(s, o.state)
            && KeepsFees(s, o.state) && o.state.processedTxs == s.processedTxs
  {
    hide Sound, LockedCoin, ConfirmOperation, HandleOperation, Confirms, TransferSound;
    LockIsDefined(s, id);
    TransferConfirmed(s, op, opResult, result, hash, id);
    ConfirmOperationFrame(s, op, opResult, result, hash, id);
    var s1 := ConfirmOperation(s, op, opResult, result, hash, id).value.state;
    TransferFrame(s, s1, op.operationType);
    CloseKeeps(s, op, opResult, result, hash, id, ticket);
  }

  lemma TransferFrame(s: State, s': State, typ: OperationType)
    requires typ.CosmosToXrplTransfer? && Confirms(s, s', typ)
    ensures KeepsXrplTokens(s, s') && KeepsCosmosTokens(s, s') && KeepsConfig(s, s') && KeepsFees(s, s')
    ensures s'.processedTxs == s.processedTxs && s'.pendingOperations == s.pendingOperations
  {
  }

  lemma TransferConfirmed(s: State, op: Operation, opResult: Option<OperationResult>, result: TransactionResult,
                          hash: Option<string>, id: Sequence)
    requires IsTransfer(s.pendingOperations, id) && op == s.pendingOperations[id]
    requires LockedCoin(s, op.operationType).Ok?
    ensures var r := ConfirmOperation(s, op, opResult, result, hash, id);
            r.Ok? && TransferLeaves(s, r.value.state, op, result, hash, r.value.msgs)
  {
    hide LockedCoin;
  }

  /** Past the confirmation, only the queue and the deque change. */
  lemma CloseKeeps(s: State, op: Operation, opResult: Option<OperationResult>, result: TransactionResult,
                   hash: Option<string>, id: Sequence, ticket: Option<Sequence>)
    requires id in s.pendingOperations && op == s.pendingOperations[id]
    requires HandleOperation(s, op, opResult, result, hash, id, ticket).Ok?
    ensures var o1 := ConfirmOperation(s, op, opResult, result, hash, id).value;
            var o := HandleOperation(s, op, opResult, result, hash, id, ticket).value;
            && KeepsRefunds(o1.state, o.state) && KeepsXrplTokens(o1.state, o.state)
            && KeepsCosmosTokens(o1.state, o.state) && KeepsConfig(o1.state, o.state)
            && KeepsFees(o1.state, o.state) && KeepsVotes(o1.state, o.state)
            && o.state.pendingOperations == o1.state.pendingOperations - {id} && o.msgs == o1.msgs
  {
    hide ConfirmOperation;
  }

  lemma NothingFlows(contract: Addr, d: string)
    ensures Inflows(contract, [], d) == 0 && AllIssued([], d) == 0
  {
  }

  lemma LockIsDefined(s: State, id: Sequence)
    requires Sound(s) && IsTransfer(s.pendingOperations, id)
    ensures var t := s.pendingOperations[id].operationType; LockedCoin(s, t).Ok? && TransferSound(s, t)
  {
    hide FlagsAgree, ValidateXrplAmount;
    assert OperationSound(s, id, s.pendingOperations[id]);
  }

  lemma XrplIsNotEscrow(s: State, t: OperationType)
    requires t.CosmosToXrplTransfer? && BuildXrplTokenKey(t.issuer, t.currency) in s.xrplTokens
    ensures !EscrowSound(s, t)
  {
  }

  lemma EscrowWhenNotXrpl(s: State, t: OperationType)
    requires t.CosmosToXrplTransfer? && TransferSound(s, t) && BuildXrplTokenKey(t.issuer, t.currency) !in s.xrplTokens
    ensures EscrowSound(s, t)
  {
    hide ValidateXrplAmount;
  }

  /** Other resolutions move no money. */
  lemma OtherCloseMoney(contract: Addr, s: State, l: Ledger, op: Operation, opResult: Option<OperationResult>,
                        result: TransactionResult, hash: Option<string>, id: Sequence, ticket: Option<Sequence>,
                        d: string)
    requires Sound(s) && LedgerSound(s, l) && id in s.pendingOperations && op == s.pendingOperations[id]
    requires !IsTransfer(s.pendingOperations, id)
    requires HandleOperation(s, op, opResult, result, hash, id, ticket).Ok?
    ensures var o := HandleOperation(s, op, opResult, result, hash, id, ticket).value;
            && l.(settled := l.settled - {id}) == l
            && Owed(o.state, l, d) == Owed(s, l, d) && o.msgs == []
  {
    hide Owed, FlagsAgree, TablesSound, QueueSound, TablesExtend, ConfirmOperation, HandleOperation;
    var o := HandleOperation(s, op, opResult, result, hash, id, ticket).value;
    CloseIsSound(s, op, opResult, result, hash, id, ticket);
    OtherCloseFrame(s, op, opResult, result, hash, id, ticket);
    OwedKept(s, o.state, l, d);
  }

  lemma OtherCloseFrame(s: State, op: Operation, opResult: Option<OperationResult>,
                        result: TransactionResult, hash: Option<string>, id: Sequence, ticket: Option<Sequence>)
    requires id in s.pendingOperations && op == s.pendingOperations[id] && !IsTransfer(s.pendingOperations, id)
    requires HandleOperation(s, op, opResult, result, hash, id, ticket).Ok?
    ensures var o := HandleOperation(s, op, opResult, result, hash, id, ticket).value;
            && KeepsRefunds(s, o.state) && KeepsFees(s, o.state) && o.msgs == []
            && o.state.processedTxs == s.processedTxs
            && SameTransfers(s.pendingOperations, o.state.pendingOperations)
  {
    hide HandleTrustSetConfirmation, HandleTicketAllocationConfirmation;
    ConfirmOperationFrame(s, op, opResult, result, hash, id);
  }

  lemma UseMoney(time: nat, s: State, l: Ledger, d: string)
    requires Sound(s) && LedgerSound(s, l) && RegisterUsedTicket(time, s).Ok?
    ensures Owed(RegisterUsedTicket(time, s).value.0, l, d) == Owed(s, l, d)
  {
    hide Owed, FlagsAgree, TablesSound, QueueSound, TablesExtend, RegisterUsedTicket, LedgerSound;
    UseIsSound(time, s);
    OwedKept(s, RegisterUsedTicket(time, s).value.0, l, d);
  }

  // ---------- claims ----------

  lemma ClaimRefundMoney(contract: Addr, s: State, l: Ledger, sender: Addr, id: OperationId, d: string)
    requires Sound(s) && LedgerSound(s, l) && DoClaimRefund(s, sender, id).Ok?
    ensures var o := DoClaimRefund(s, sender, id).value;
            && Owed(o.state, l, d) <= Owed(s, l, d) + Inflows(contract, o.msgs, d)
            && PaymentShape(o.msgs) && AllIssued(o.msgs, d) == 0
  {
    hide TablesSound, QueueSound, LedgerSound, LocksIn, Total, FeesOwed, FlagsAgree, RefundsIn, Inflows, AllIssued,
      AmountOf, AbroadIn, ReturnsIn, TablesExtend;
    var o := DoClaimRefund(s, sender, id).value;
    var key := RefundKey(sender, id);
    RefundRemoved(s, o.state, key, d);
    SameFees(s, o.state, d);
    SameTables(s, o.state);
    LocksKept(s, o.state, l, d);
    AbroadKept(s, o.state, l, d);
    SameReturns(s, o.state, l, d);
    SendInflows(contract, sender, [s.pendingRefunds[key].coin], d);
    OneCoin(s.pendingRefunds[key].coin, d);
  }

  lemma ClaimFeesMoney(contract: Addr, s: State, l: Ledger, sender: Addr, amounts: seq<Coin>, d: string)
    requires Sound(s) && LedgerSound(s, l) && DoClaimRelayerFees(s, sender, amounts).Ok?
    ensures var o := DoClaimRelayerFees(s, sender, amounts).value;
            && Owed(o.state, l, d) <= Owed(s, l, d) + Inflows(contract, o.msgs, d)
            && PaymentShape(o.msgs) && AllIssued(o.msgs, d) == 0
  {
    hide TablesSound, QueueSound, LedgerSound, LocksIn, Total, FeesOwed, FlagsAgree, RefundsIn, Inflows, AllIssued,
      AmountOf, AbroadIn, ReturnsIn, SubtractRelayerFees, TablesExtend, BookSound;
    var o := DoClaimRelayerFees(s, sender, amounts).value;
    ClaimConserves(s, sender, amounts, d);
    SameRefunds(s, o.state, d);
    SameTables(s, o.state);
    LocksKept(s, o.state, l, d);
    AbroadKept(s, o.state, l, d);
    SameReturns(s, o.state, l, d);
    SendInflows(contract, sender, amounts, d);
  }

  // ---------- hypotheses and the ledger's side ----------

  /** An effective evidence tells the truth: a transfer is one the ledger has executed under that
      hash, and an outgoing transfer is reported accepted exactly when the ledger has executed it. */
  predicate TruthfulMoney(chain: Chain, s: State, l: Ledger, ev: Evidence) {
    match ev
    case XrplToCosmosTransfer(hash, issuer, currency, amount, _, _) =>
      var h := chain.toUppercase(hash);
      h in l.arrivals && l.arrivals[h] == Arrival(issuer, currency, amount)
    case XrplTransactionResult(_, account, ticket, result, _) =>
      (account.Some? || ticket.Some?) && IsTransfer(s.pendingOperations, SequenceOf(ev)) ==>
        (result.Accepted? <==> SequenceOf(ev) in l.settled)
  }

  /** The hypothesis on an accepted message. */
  predicate MoneyHypothesis(env: Env, s: State, l: Ledger, msg: Msg) {
    && (msg.CancelPendingOperation? ==> msg.operationId !in l.settled)
    && (TakesEffect(env, s, msg) ==> TruthfulMoney(env.chain, s, l, msg.evidence))
  }

  /** The ledger's books after an accepted message: a resolved transfer is no longer awaited. */
  function LedgerAfter(env: Env, s: State, l: Ledger, msg: Msg): Ledger {
    if msg.CancelPendingOperation? then l.(settled := l.settled - {msg.operationId})
    else if (TakesEffect(env, s, msg) && msg.evidence.XrplTransactionResult?
             && (msg.evidence.accountSequence.Some? || msg.evidence.ticketSequence.Some?)) then
      l.(settled := l.settled - {SequenceOf(msg.evidence)})
    else l
  }

  // ---------- the ledger's books stay consistent ----------

  lemma LedgerKept(s: State, s': State, l: Ledger)
    requires LedgerSound(s, l) && TablesExtend(s, s')
    requires forall k | IsTransfer(s.pendingOperations, k) :: IsTransfer(s'.pendingOperations, k)
    ensures LedgerSound(s', l)
  {
    forall c | c in l.outstanding && l.outstanding[c] > 0 ensures c in s'.cosmosTokenByCurrency {
      assert c in s.cosmosTokenByCurrency;
    }
  }

  lemma LedgerClosed(s: State, op: Operation, opResult: Option<OperationResult>, result: TransactionResult,
                     hash: Option<string>, id: Sequence, ticket: Option<Sequence>, l: Ledger)
    requires Sound(s) && LedgerSound(s, l) && id in s.pendingOperations && op == s.pendingOperations[id]
    requires HandleOperation(s, op, opResult, result, hash, id, ticket).Ok?
    ensures LedgerSound(HandleOperation(s, op, opResult, result, hash, id, ticket).value.state,
                        l.(settled := l.settled - {id}))
  {
    hide Sound, HandleOperation, TablesExtend;
    var s' := HandleOperation(s, op, opResult, result, hash, id, ticket).value.state;
    CloseIsSound(s, op, opResult, result, hash, id, ticket);
    CloseTickets(s, op, opResult, result, hash, id, ticket);
    SameBooks(s, s');
    forall j | j in l.settled - {id} ensures IsTransfer(s'.pendingOperations, j) {
      assert IsTransfer(s.pendingOperations, j);
    }
  }

  /** Growing tables keep registered currencies registered. */
  lemma SameBooks(s: State, s': State)
    requires TablesExtend(s, s')
    ensures s'.config.bridgeXrplAddress == s.config.bridgeXrplAddress
    ensures forall c | c in s.cosmosTokenByCurrency :: c in s'.cosmosTokenByCurrency
  {
  }

  // ---------- one message ----------

  /** Collecting fees changes only that debt. */
  lemma FeesOnlyOwed(s: State, s': State, l: Ledger, d: string)
    requires Sound(s) && OnlyFees(s, s')
    ensures Owed(s', l, d) == Owed(s, l, d) - FeesOwed(s, d) + FeesOwed(s', d)
  {
    hide FlagsAgree, TablesSound, QueueSound, TablesExtend, Total, RefundsIn, FeesOwed, ReturnsIn, AbroadIn, LocksIn;
    SameTables(s, s');
    LocksKept(s, s', l, d);
    SameRefunds(s, s', d);
    SameReturns(s, s', l, d);
    SameAbroad(s, s', l, d);
  }

  lemma SameAbroad(s: State, s': State, l: Ledger, d: string)
    requires KeepsCosmosTokens(s, s')
    ensures AbroadIn(s', l, d) == AbroadIn(s, l, d)
  {
    hide ToCosmosUnits;
  }

  /** The payments and mints of an arriving transfer are covered by the arrival it reports. */
  lemma TransferEvidenceMoney(env: Env, s: State, l: Ledger, ev: Evidence, d: string)
    requires Sound(s) && ev.XrplToCosmosTransfer? && ReceiveTransfer(env, s, ev, true).Ok?
    ensures var o := ReceiveTransfer(env, s, ev, true).value;
            && Owed(o.state, l, d) <= Owed(s, l, d) + Inflows(env.chain.contract, o.msgs, d)
                                      + (if ev.issuer == s.config.bridgeXrplAddress then Returned(s, ev, d) else 0)
            && PaymentShape(o.msgs)
            && AllIssued(o.msgs, d) == (if ev.issuer != s.config.bridgeXrplAddress
                                           && d == s.xrplTokens[BuildXrplTokenKey(ev.issuer, ev.currency)].cosmosDenom
                                        then ev.amount else 0)
  {
    hide Owed, Sound, ReceiveXrplToken, ReceiveCosmosToken, FeesOwed, Inflows, AllIssued, PaymentShape, OnlyFees,
      ToCosmosUnits;
    var o := ReceiveTransfer(env, s, ev, true).value;
    FeesOnlyOwed(s, o.state, l, d);
    if ev.issuer != s.config.bridgeXrplAddress {
      ReceiveXrplKey(env, s, ev);
      ReceiveXrplMoney(env, s, ev, d);
    } else {
      SoundTables(s);
      ReceiveCosmosMoney(env, s, ev, d);
    }
  }

  lemma ReceiveXrplKey(env: Env, s: State, ev: Evidence)
    requires ev.XrplToCosmosTransfer? && ReceiveXrplToken(env, s, ev, true).Ok?
    ensures BuildXrplTokenKey(ev.issuer, ev.currency) in s.xrplTokens
  {
    hide TruncateAmount, HandleFeeCollection;
  }

  lemma SettledDecides(s: State, l: Ledger, l': Ledger, d: string)
    requires l'.settled == l.settled
    ensures LocksIn(s, l', d) == LocksIn(s, l, d)
  {
    hide LockedCoin, EscrowSound;
  }

  lemma SoundTables(s: State)
    requires Sound(s)
    ensures TablesSound(s) && QueueSound(s)
  {
    hide TablesSound, QueueSound, FlagsAgree;
  }

  lemma ResolveMoney(env: Env, s: State, l: Ledger, ev: Evidence, d: string)
    requires Sound(s) && LedgerSound(s, l) && ev.XrplTransactionResult?
    requires (ev.accountSequence.Some? || ev.ticketSequence.Some?) && TruthfulMoney(env.chain, s, l, ev)
    requires ResolveOperation(env, s, ev, true).Ok?
    ensures var o := ResolveOperation(env, s, ev, true).value;
            var l' := l.(settled := l.settled - {SequenceOf(ev)});
            && LedgerSound(o.state, l')
            && Owed(o.state, l', d) <= Owed(s, l, d) + Inflows(env.chain.contract, o.msgs, d)
            && PaymentShape(o.msgs)
            && AllIssued(o.msgs, d) == Inflows(env.chain.contract, o.msgs, d)
  {
    hide Owed, Sound, HandleOperation, RegisterUsedTicket, LedgerSound, Inflows, AllIssued, RefundedUnder;
    var id := SequenceOf(ev);
    var op := s.pendingOperations[id];
    var l' := l.(settled := l.settled - {id});
    var o := HandleOperation(s, op, ev.operationResult, ev.result, ev.txHash, id, ev.ticketSequence).value;
    if IsTransfer(s.pendingOperations, id) {
      TransferCloseMoney(env.chain.contract, s, l, op, ev.operationResult, ev.result, ev.txHash, id, ev.ticketSequence,
                         d);
    } else {
      OtherCloseMoney(env.chain.contract, s, l, op, ev.operationResult, ev.result, ev.txHash, id, ev.ticketSequence, d);
      NothingFlows(env.chain.contract, d);
    }
    LedgerClosed(s, op, ev.operationResult, ev.result, ev.txHash, id, ev.ticketSequence, l);
    CloseIsSound(s, op, ev.operationResult, ev.result, ev.txHash, id, ev.ticketSequence);
    if !ev.result.Invalid? && ev.ticketSequence.Some? {
      UseMoney(env.time, o.state, l', d);
      UseLedger(env.time, o.state, l');
    }
  }

  lemma UseLedger(time: nat, s: State, l: Ledger)
    requires Sound(s) && LedgerSound(s, l) && RegisterUsedTicket(time, s).Ok?
    ensures LedgerSound(RegisterUsedTicket(time, s).value.0, l)
  {
    hide Sound, TablesExtend, RegisterUsedTicket, LedgerSound;
    UseIsSound(time, s);
    LedgerKept(s, RegisterUsedTicket(time, s).value.0, l);
  }

  /** A vote moves no money, but when it takes effect the arrival it reports is no longer awaited. */
  lemma VoteMoney(env: Env, s: State, l: Ledger, sender: Addr, ev: Evidence, d: string)
    requires Sound(s) && LedgerSound(s, l) && Relayers.IsRelayer(s.config.relayers, sender)
    requires HandleEvidence(env.chain, s, sender, ev).Ok?
    ensures var s1 := HandleEvidence(env.chain, s, sender, ev).value.0;
            && Sound(s1) && LedgerSound(s1, l)
            && Owed(s1, l, d) + Awaited(s, l, EffectiveHash(env, s, SaveEvidence(sender, ev)), d) == Owed(s, l, d)
            && KeepsConfig(s, s1) && s1.pendingOperations == s.pendingOperations && KeepsXrplTokens(s, s1)
            && KeepsCosmosTokens(s, s1)
  {
    hide Sound, TablesExtend, HandleEvidence, LedgerSound, TablesSound, QueueSound, LocksIn, RefundsIn, FeesOwed,
      AbroadIn, ReturnsIn, Total, EffectiveHash, Awaited;
    var s1 := HandleEvidence(env.chain, s, sender, ev).value.0;
    VoteIsSound(env.chain, s, sender, ev);
    SoundTables(s);
    SoundTables(s1);
    LedgerKept(s, s1, l);
    LocksKept(s, s1, l, d);
    SameRefunds(s, s1, d);
    SameFees(s, s1, d);
    SameAbroad(s, s1, l, d);
    VoteTallies(env, s, sender, ev);
    ReturnReported(s, s1, l, EffectiveHash(env, s, SaveEvidence(sender, ev)), d);
  }

  /** A truthful report of a return that takes effect pays what its arrival was owed, and no arrival is
      paid twice: its hash was not yet processed. */
  lemma ReportedReturn(env: Env, s: State, l: Ledger, sender: Addr, ev: Evidence, d: string)
    requires Sound(s) && HandleEvidence(env.chain, s, sender, ev).Ok?
    requires TakesEffect(env, s, SaveEvidence(sender, ev)) && ValidateBasic(ev).Ok?
    requires ev.XrplToCosmosTransfer? && ev.issuer == s.config.bridgeXrplAddress && TruthfulMoney(env.chain, s, l, ev)
    ensures Awaited(s, l, EffectiveHash(env, s, SaveEvidence(sender, ev)), d) == Returned(s, ev, d)
  {
    hide Sound, ToCosmosUnits, HandleEvidence, TablesSound;
    VoteTallies(env, s, sender, ev);
    SoundTables(s);
    if d in s.cosmosTokens { TablesGiveCosmosEntry(s, d); }
    if ev.currency in s.cosmosTokenByCurrency { CurrencyEntry(s, ev.currency); }
  }

  lemma EvidenceMoney(env: Env, s: State, l: Ledger, sender: Addr, ev: Evidence, d: string)
    requires Sound(s) && LedgerSound(s, l) && DoSaveEvidence(env, s, sender, ev).Ok?
    requires MoneyHypothesis(env, s, l, SaveEvidence(sender, ev))
    ensures var o := DoSaveEvidence(env, s, sender, ev).value;
            var l' := LedgerAfter(env, s, l, SaveEvidence(sender, ev));
            && LedgerSound(o.state, l')
            && Owed(o.state, l', d) <= Owed(s, l, d) + Inflows(env.chain.contract, o.msgs, d)
            && PaymentShape(o.msgs)
  {
    hide Owed, Sound, ReceiveTransfer, ResolveOperation, LedgerSound, Inflows, HandleEvidence, Relayers.IsRelayer,
      KeepsXrplTokens, TruthfulMoney, Awaited, EffectiveHash, Returned, ValidateBasic, PaymentShape;
    var (s1, reached) := HandleEvidence(env.chain, s, sender, ev).value;
    VoteMoney(env, s, l, sender, ev, d);
    NothingFlows(env.chain.contract, d);
    NoPayment();
    if reached {
      SameTruth(env.chain, s, s1, l, ev);
      if ev.XrplToCosmosTransfer? {
        TransferEvidenceMoney(env, s1, l, ev, d);
        LedgerSoundKept(s1, ReceiveTransfer(env, s1, ev, true).value.state, l);
        SameReturned(s, s1, ev, d);
        if ev.issuer == s.config.bridgeXrplAddress { ReportedReturn(env, s, l, sender, ev, d); }
      } else {
        ResolveMoney(env, s1, l, ev, d);
      }
    } else {
      UnreachedChangesNothing(env, s1, ev);
    }
  }

  lemma NoPayment()
    ensures PaymentShape([])
  {
  }

  lemma SameReturned(s: State, s': State, ev: Evidence, d: string)
    requires ev.XrplToCosmosTransfer? && KeepsCosmosTokens(s, s')
    ensures Returned(s', ev, d) == Returned(s, ev, d)
  {
    hide ToCosmosUnits;
  }

  lemma LedgerSoundKept(s: State, s': State, l: Ledger)
    requires LedgerSound(s, l) && OnlyFees(s, s')
    ensures LedgerSound(s', l)
  {
  }

  lemma SameTruth(chain: Chain, s: State, s1: State, l: Ledger, ev: Evidence)
    requires TruthfulMoney(chain, s, l, ev) && s1.pendingOperations == s.pendingOperations
    ensures TruthfulMoney(chain, s1, l, ev)
  {
  }

  /** Below the threshold an evidence is only counted. */
  lemma UnreachedChangesNothing(env: Env, s: State, ev: Evidence)
    ensures ev.XrplToCosmosTransfer? && ReceiveTransfer(env, s, ev, false).Ok? ==>
              ReceiveTransfer(env, s, ev, false).value == Outcome(s, [])
    ensures (ev.XrplTransactionResult? && (ev.accountSequence.Some? || ev.ticketSequence.Some?)
             && ResolveOperation(env, s, ev, false).Ok?) ==>
              ResolveOperation(env, s, ev, false).value == Outcome(s, [])
  {
    hide TruncateAmount, ConvertAndTruncateAmount, HandleFeeCollection, HandleOperation, RegisterUsedTicket,
      CheckedAdd, OnlyFees;
  }

  lemma OpeningMoney(env: Env, s: State, l: Ledger, msg: Msg, d: string)
    requires Lawful(env.chain) && Sound(s) && LedgerSound(s, l) && IsOpening(msg) && ExecuteOpening(env, s, msg).Ok?
    ensures var o := ExecuteOpening(env, s, msg).value;
            && LedgerSound(o.state, l)
            && Owed(o.state, l, d) == Owed(s, l, d) + Attached(msg, d) + Inflows(env.chain.contract, o.msgs, d)
            && o.msgs == (if msg.RegisterXrplToken? then [CreateDenom(msg.derivedDenom)] else [])
  {
    hide Owed, Sound, LedgerSound, Inflows, AmountOf, TablesExtend, Lawful, DoSendToXrpl, DoRecoverTickets,
      DoRecoverXrplTokenRegistration, DoRotateKeys, TablesSound, QueueSound;
    var o := ExecuteOpening(env, s, msg).value;
    var s' := o.state;
    OpeningSound(env, s, msg);
    SoundTables(s);
    SoundTables(s');
    NothingFlows(env.chain.contract, d);
    if msg.SendToXrpl? {
      SendMoney(env, s, l, msg.sender, msg.funds, msg.recipient, msg.deliverAmount, d);
      LedgerKept(s, s', l);
    } else {
      OpeningFrame(env, s, msg);
      OwedKept(s, s', l, d);
      LedgerKept(s, s', l);
      if msg.RegisterXrplToken? { NewDenomFlows(env.chain.contract, msg.derivedDenom, d); }
    }
  }

  lemma OpeningFrame(env: Env, s: State, msg: Msg)
    requires IsOpening(msg) && !msg.SendToXrpl? && ExecuteOpening(env, s, msg).Ok?
    ensures var o := ExecuteOpening(env, s, msg).value;
            && SameTransfers(s.pendingOperations, o.state.pendingOperations)
            && KeepsRefunds(s, o.state) && KeepsFees(s, o.state) && o.state.processedTxs == s.processedTxs
            && o.msgs == (if msg.RegisterXrplToken? then [CreateDenom(msg.derivedDenom)] else [])
  {
    hide DoRecoverTickets, DoRecoverXrplTokenRegistration, DoRotateKeys, ValidateXrplAddress, ValidateXrplCurrency,
      ValidateSendingPrecision;
  }

  lemma NewDenomFlows(contract: Addr, denom: string, d: string)
    ensures Inflows(contract, [CreateDenom(denom)], d) == 0 && AllIssued([CreateDenom(denom)], d) == 0
  {
    assert [CreateDenom(denom)][1..] == [];
  }

  lemma SettingMoney(env: Env, s: State, l: Ledger, msg: Msg, d: string)
    requires Sound(s) && LedgerSound(s, l) && !IsOpening(msg) && !IsResolving(msg) && ExecuteSetting(env, s, msg).Ok?
    ensures var o := ExecuteSetting(env, s, msg).value;
            && LedgerSound(o.state, l)
            && Owed(o.state, l, d) <= Owed(s, l, d) + Inflows(env.chain.contract, o.msgs, d)
            && PaymentShape(o.msgs) && AllIssued(o.msgs, d) == 0
  {
    hide Owed, Sound, LedgerSound, Inflows, TablesExtend, TablesSound, QueueSound, SubtractRelayerFees,
      RemovePendingRefund, AllIssued, DoRegisterCosmosToken, DoUpdateXrplToken, DoUpdateCosmosToken,
      DoUpdateXrplBaseFee, DoUpdateUsedTicketSequenceThreshold, DoUpdateProhibitedXrplAddresses, DoHaltBridge,
      DoResumeBridge, DoSaveSignature, AddSignature, DoClaimRefund, DoClaimRelayerFees;
    var o := ExecuteSetting(env, s, msg).value;
    if msg.RegisterCosmosToken? || msg.UpdateXrplToken? || msg.UpdateCosmosToken? {
      TokenSettingSound(env, s, msg);
    } else {
      OtherSettingSound(env, s, msg);
    }
    SettingFrame(env, s, msg);
    NothingFlows(env.chain.contract, d);
    LedgerKept(s, o.state, l);
    if msg.ClaimRefund? {
      ClaimRefundMoney(env.chain.contract, s, l, msg.sender, msg.refundId, d);
    } else if msg.ClaimRelayerFees? {
      ClaimFeesMoney(env.chain.contract, s, l, msg.sender, msg.amounts, d);
    } else {
      SoundTables(s);
      SoundTables(o.state);
      OwedKept(s, o.state, l, d);
    }
  }

  lemma SettingFrame(env: Env, s: State, msg: Msg)
    requires !IsOpening(msg) && !IsResolving(msg) && ExecuteSetting(env, s, msg).Ok?
    ensures var o := ExecuteSetting(env, s, msg).value;
            && SameTransfers(s.pendingOperations, o.state.pendingOperations)
            && o.state.processedTxs == s.processedTxs
            && (forall r | r in o.state.pendingRefunds :: r in s.pendingRefunds)
            && (!msg.ClaimRefund? && !msg.ClaimRelayerFees? ==>
                  KeepsRefunds(s, o.state) && KeepsFees(s, o.state) && o.msgs == [])
  {
    hide SubtractRelayerFees, DoRegisterCosmosToken, DoUpdateXrplToken, DoUpdateCosmosToken, DoUpdateXrplBaseFee,
      DoUpdateUsedTicketSequenceThreshold, DoUpdateProhibitedXrplAddresses, DoHaltBridge, DoResumeBridge,
      DoSaveSignature, AddSignature, SameTransfers;
    SameWorkTransfers(s.pendingOperations, ExecuteSetting(env, s, msg).value.state.pendingOperations);
  }

  lemma SameWorkTransfers(ops: OpMap, ops': OpMap)
    requires SameWork(ops, ops')
    ensures SameTransfers(ops, ops')
  {
    forall k ensures IsTransfer(ops', k) <==> IsTransfer(ops, k) {
      assert k in ops' <==> k in ops;
      assert k in ops ==> ops'[k].operationType == ops[k].operationType;
    }
  }

  lemma CancelMoney(contract: Addr, s: State, l: Ledger, sender: Addr, id: Sequence, d: string)
    requires Sound(s) && LedgerSound(s, l) && id !in l.settled && DoCancelPendingOperation(s, sender, id).Ok?
    ensures var o := DoCancelPendingOperation(s, sender, id).value;
            && l.(settled := l.settled - {id}) == l
            && LedgerSound(o.state, l)
            && Owed(o.state, l, d) <= Owed(s, l, d) + Inflows(contract, o.msgs, d)
            && PaymentShape(o.msgs) && AllIssued(o.msgs, d) == Inflows(contract, o.msgs, d)
  {
    hide Owed, Sound, HandleOperation, LedgerSound, Inflows, AllIssued, RefundedUnder;
    var op := s.pendingOperations[id];
    var opResult := if op.operationType.AllocateTickets? then Some(TicketsAllocation(None)) else None;
    assert l.settled - {id} == l.settled;
    if IsTransfer(s.pendingOperations, id) {
      TransferCloseMoney(contract, s, l, op, opResult, Invalid, None, id, op.ticketSequence, d);
    } else {
      OtherCloseMoney(contract, s, l, op, opResult, Invalid, None, id, op.ticketSequence, d);
      NothingFlows(contract, d);
    }
    LedgerClosed(s, op, opResult, Invalid, None, id, op.ticketSequence, l);
  }

  /** Solvency of one message: in every denom, what the contract owes grows by no more than the
      coins attached and the net of its bank messages. */
  lemma MoneyStep(env: Env, s: State, l: Ledger, msg: Msg, d: string)
    requires Lawful(env.chain) && Sound(s) && LedgerSound(s, l) && MoneyHypothesis(env, s, l, msg)
    requires Execute(env, s, msg).Ok?
    ensures var o := Execute(env, s, msg).value;
            var l' := LedgerAfter(env, s, l, msg);
            && LedgerSound(o.state, l')
            && Owed(o.state, l', d) <= Owed(s, l, d) + Attached(msg, d) + Inflows(env.chain.contract, o.msgs, d)
            && (PaymentShape(o.msgs) || (msg.RegisterXrplToken? && o.msgs == [CreateDenom(msg.derivedDenom)]))
  {
    hide Owed, Sound, LedgerSound, Inflows, AmountOf, ExecuteOpening, ExecuteSetting, DoSaveEvidence,
      DoCancelPendingOperation, TruthfulMoney, HandleEvidence, Lawful;
    if IsOpening(msg) {
      OpeningMoney(env, s, l, msg, d);
    } else if IsResolving(msg) {
      match msg
      case SaveEvidence(sender, ev) => EvidenceMoney(env, s, l, sender, ev, d);
      case CancelPendingOperation(sender, id) => CancelMoney(env.chain.contract, s, l, sender, id, d);
    } else {
      SettingMoney(env, s, l, msg, d);
    }
  }
}
