/** Fee conservation: what users are charged is what relayers can claim. */
module FeeFlow {
  import opened Types
  import opened Amounts
  import opened Quotes
  import opened Tokens
  import opened Pending
  import opened Tickets
  import Relayers
  import opened Evidences
  import opened Fees
  import opened Operations
  import opened Handlers
  import opened FeeBook
  import opened TokenTables
  import opened Queue
  import opened Soundness
  import opened TicketFlow
  import Escrow
  import opened Solvency

  /** What relayers are paid by a message. */
  function Claimed(msg: Msg, d: string): nat {
    if msg.ClaimRelayerFees? then AmountOf(msg.amounts, d) else 0
  }

  /** What the configured fee and precision of the token take from an accepted message: of the coins a
      sender attaches, or of the value that arrives. */
  function Charged(env: Env, s: State, msg: Msg, d: string): nat {
    if msg.SendToXrpl? then
      if |msg.funds| != 1 || msg.funds[0].denom != d then 0
      else if d in s.xrplTokenByDenom && s.xrplTokenByDenom[d] in s.xrplTokens then
        var token := s.xrplTokens[s.xrplTokenByDenom[d]];
        Charge(token.bridgingFee, XrplUnit(token), msg.funds[0].amount)
      else if d in s.cosmosTokens then
        Charge(s.cosmosTokens[d].bridgingFee, CosmosUnit(s.cosmosTokens[d]), msg.funds[0].amount)
      else 0
    else if TakesEffect(env, s, msg) && msg.evidence.XrplToCosmosTransfer? then ArrivalCharge(s, msg.evidence, d)
    else 0
  }

  function ArrivalCharge(s: State, ev: Evidence, d: string): nat
    requires ev.XrplToCosmosTransfer?
  {
    if ev.issuer != s.config.bridgeXrplAddress then
      var key := ev.issuer + ev.currency;
      if key in s.xrplTokens && s.xrplTokens[key].cosmosDenom == d then
        Charge(s.xrplTokens[key].bridgingFee, XrplUnit(s.xrplTokens[key]), ev.amount)
      else 0
    else if d in s.cosmosTokens && s.cosmosTokens[d].xrplCurrency == ev.currency then
      var token := s.cosmosTokens[d];
      Charge(token.bridgingFee, CosmosUnit(token), ToCosmosUnits(token.decimals, ev.amount))
    else 0
  }

  // ---------- sending ----------

  lemma SendXrplCharges(s: State, token: XrplToken, funds: Coin, deliver: Option<Uint128>, d: string)
    requires SendXrplToken(s, token, funds, deliver).Ok?
    ensures FeesOwed(SendXrplToken(s, token, funds, deliver).value.state, d)
         == FeesOwed(s, d) + (if d != token.cosmosDenom then 0
                              else Charge(token.bridgingFee, XrplUnit(token), funds.amount))
  {
    hide TruncateAmount, HandleFeeCollection, DeliverAmount, FeesOwed, Pow10;
    var rest := funds.amount - token.bridgingFee;
    TruncationMeans(token.sendingPrecision, LedgerDecimals(token), rest);
    CollectionOwes(s, token.bridgingFee, token.cosmosDenom, rest % XrplUnit(token), d);
  }

  lemma SendCosmosCharges(bank: Bank, s: State, token: CosmosToken, funds: Coin, deliver: Option<Uint128>, d: string)
    requires SendCosmosToken(bank, s, token, funds, deliver).Ok?
    ensures FeesOwed(SendCosmosToken(bank, s, token, funds, deliver).value.state, d)
         == FeesOwed(s, d) + (if d != token.denom then 0
                              else Charge(token.bridgingFee, CosmosUnit(token), funds.amount))
  {
    hide TruncateAmount, HandleFeeCollection, ConvertAmountDecimals, FeesOwed, Pow10;
    var rest := funds.amount - token.bridgingFee;
    TruncationMeans(token.sendingPrecision, token.decimals, rest);
    CollectionOwes(s, token.bridgingFee, token.denom, rest % CosmosUnit(token), d);
  }

  lemma SendCharges(env: Env, s: State, sender: Addr, funds: seq<Coin>, recipient: string, deliver: Option<Uint128>,
                    d: string)
    requires Sound(s) && DoSendToXrpl(env, s, sender, funds, recipient, deliver).Ok?
    ensures FeesOwed(DoSendToXrpl(env, s, sender, funds, recipient, deliver).value, d)
         == FeesOwed(s, d) + Charged(env, s, SendToXrpl(sender, funds, recipient, deliver), d)
  {
    hide Sound, TablesSound, QueueSound, SendXrplToken, SendCosmosToken, ValidateXrplAmount, FeesOwed, HandleEvidence,
      CheckValidOperationIfHalt, Charge, XrplUnit, CosmosUnit;
    var s' := DoSendToXrpl(env, s, sender, funds, recipient, deliver).value;
    var c := funds[0];
    SoundTables(s);
    SameFees(DecideTransfer(env, s, c, deliver).value.state, s', d);
    if c.denom in s.xrplTokenByDenom && s.xrplTokenByDenom[c.denom] in s.xrplTokens {
      XrplEntryOf(s, c.denom);
      SendXrplCharges(s, s.xrplTokens[s.xrplTokenByDenom[c.denom]], c, deliver, d);
    } else {
      TablesGiveCosmosEntry(s, c.denom);
      SendCosmosCharges(env.bank, s, s.cosmosTokens[c.denom], c, deliver, d);
    }
  }

  // ---------- receiving ----------

  lemma XrplArrivalCharges(env: Env, s: State, ev: Evidence, d: string)
    requires ev.XrplToCosmosTransfer? && ReceiveXrplToken(env, s, ev, true).Ok?
    requires ev.issuer != s.config.bridgeXrplAddress
    ensures FeesOwed(ReceiveXrplToken(env, s, ev, true).value.state, d) == FeesOwed(s, d) + ArrivalCharge(s, ev, d)
  {
    hide TruncateAmount, HandleFeeCollection, FeesOwed, CheckedAdd, Pow10;
    var token := s.xrplTokens[BuildXrplTokenKey(ev.issuer, ev.currency)];
    var rest := ev.amount - token.bridgingFee;
    TruncationMeans(token.sendingPrecision, LedgerDecimals(token), rest);
    CollectionOwes(s, token.bridgingFee, token.cosmosDenom, rest % XrplUnit(token), d);
  }

  lemma CosmosArrivalCharges(env: Env, s: State, ev: Evidence, d: string)
    requires TablesSound(s) && ev.XrplToCosmosTransfer?
    requires ReceiveCosmosToken(env, s, ev, true).Ok? && ev.issuer == s.config.bridgeXrplAddress
    ensures FeesOwed(ReceiveCosmosToken(env, s, ev, true).value.state, d) == FeesOwed(s, d) + ArrivalCharge(s, ev, d)
  {
    hide TruncateAmount, ConvertAmountDecimals, HandleFeeCollection, FeesOwed, ToCosmosUnits, TablesSound, Pow10;
    CurrencyEntry(s, ev.currency);
    var denom := s.cosmosTokenByCurrency[ev.currency];
    var token := s.cosmosTokens[denom];
    Escrow.ConvertIsExact(token.decimals, ev.amount);
    var rest := ToCosmosUnits(token.decimals, ev.amount) - token.bridgingFee;
    TruncationMeans(token.sendingPrecision, token.decimals, rest);
    CollectionOwes(s, token.bridgingFee, denom, rest % CosmosUnit(token), d);
    if d in s.cosmosTokens { TablesGiveCosmosEntry(s, d); }
  }

  lemma EvidenceCharges(env: Env, s: State, sender: Addr, ev: Evidence, d: string)
    requires Sound(s) && DoSaveEvidence(env, s, sender, ev).Ok?
    ensures var o := DoSaveEvidence(env, s, sender, ev).value;
            FeesOwed(o.state, d) == FeesOwed(s, d) + Charged(env, s, SaveEvidence(sender, ev), d)
  {
    hide Sound, ReceiveXrplToken, ReceiveCosmosToken, ResolveOperation, HandleEvidence, FeesOwed, Relayers.IsRelayer,
      ToCosmosUnits, Charge, XrplUnit, CosmosUnit;
    var (s1, reached) := HandleEvidence(env.chain, s, sender, ev).value;
    SameFees(s, s1, d);
    if ev.XrplTransactionResult? {
      ResolveKeepsFees(env, s1, ev, reached);
      SameFees(s1, ResolveOperation(env, s1, ev, reached).value.state, d);
    } else if reached {
      VoteIsSound(env.chain, s, sender, ev);
      SoundTables(s1);
      if ev.issuer != s.config.bridgeXrplAddress {
        XrplArrivalCharges(env, s1, ev, d);
      } else {
        CosmosArrivalCharges(env, s1, ev, d);
      }
    } else {
      UnreachedChangesNothing(env, s1, ev);
    }
  }

  lemma ResolveKeepsFees(env: Env, s: State, ev: Evidence, reached: bool)
    requires ev.XrplTransactionResult? && (ev.accountSequence.Some? || ev.ticketSequence.Some?)
    requires ResolveOperation(env, s, ev, reached).Ok?
    ensures KeepsFees(s, ResolveOperation(env, s, ev, reached).value.state)
  {
    hide HandleOperation, RegisterUsedTicket;
    if reached {
      var id := SequenceOf(ev);
      CloseKeepsFees(s, s.pendingOperations[id], ev.operationResult, ev.result, ev.txHash, id, ev.ticketSequence);
    }
  }

  lemma CloseKeepsFees(s: State, op: Operation, opResult: Option<OperationResult>, result: TransactionResult,
                       hash: Option<string>, id: Sequence, ticket: Option<Sequence>)
    requires id in s.pendingOperations && op == s.pendingOperations[id]
    requires HandleOperation(s, op, opResult, result, hash, id, ticket).Ok?
    ensures KeepsFees(s, HandleOperation(s, op, opResult, result, hash, id, ticket).value.state)
  {
    hide ConfirmOperation;
    ConfirmOperationFrame(s, op, opResult, result, hash, id);
  }

  lemma SettingCharges(env: Env, s: State, msg: Msg, d: string)
    requires Sound(s) && !IsOpening(msg) && !IsResolving(msg) && ExecuteSetting(env, s, msg).Ok?
    ensures var o := ExecuteSetting(env, s, msg).value;
            FeesOwed(o.state, d) + Claimed(msg, d) == FeesOwed(s, d)
  {
    hide Sound, FeesOwed, SubtractRelayerFees, AmountOf, DoRegisterCosmosToken, DoUpdateXrplToken, DoUpdateCosmosToken,
      DoUpdateXrplBaseFee, DoUpdateUsedTicketSequenceThreshold, DoUpdateProhibitedXrplAddresses, DoHaltBridge,
      DoResumeBridge, DoSaveSignature, AddSignature, DoClaimRefund, BookSound;
    var o := ExecuteSetting(env, s, msg).value;
    if msg.ClaimRelayerFees? {
      SoundBook(s);
      ClaimConserves(s, msg.sender, msg.amounts, d);
    } else {
      SameFees(s, o.state, d);
    }
  }

  lemma OpeningCharges(env: Env, s: State, msg: Msg, d: string)
    requires Sound(s) && IsOpening(msg) && ExecuteOpening(env, s, msg).Ok?
    ensures var o := ExecuteOpening(env, s, msg).value;
            FeesOwed(o.state, d) == FeesOwed(s, d) + Charged(env, s, msg, d)
  {
    hide Sound, FeesOwed, Charge, XrplUnit, CosmosUnit, HandleEvidence, DoSendToXrpl, DoRegisterXrplToken,
      DoRecoverTickets, DoRecoverXrplTokenRegistration, DoRotateKeys;
    var o := ExecuteOpening(env, s, msg).value;
    if msg.SendToXrpl? {
      SendCharges(env, s, msg.sender, msg.funds, msg.recipient, msg.deliverAmount, d);
    } else {
      SameFees(s, o.state, d);
    }
  }

  /** Fee conservation of one message: uncollected balances and remainder, together with what is
      claimed, grow by exactly the configured fee and what the configured precision cuts off. */
  lemma FeeStep(env: Env, s: State, msg: Msg, d: string)
    requires Sound(s) && Execute(env, s, msg).Ok?
    ensures var o := Execute(env, s, msg).value;
            FeesOwed(o.state, d) + Claimed(msg, d) == FeesOwed(s, d) + Charged(env, s, msg, d)
  {
    hide Sound, FeesOwed, AmountOf, ExecuteOpening, ExecuteSetting, DoSaveEvidence, HandleOperation, HandleEvidence,
      ArrivalCharge, Charge, XrplUnit, CosmosUnit;
    if IsOpening(msg) {
      OpeningCharges(env, s, msg, d);
    } else if IsResolving(msg) {
      match msg
      case SaveEvidence(sender, ev) => EvidenceCharges(env, s, sender, ev, d);
      case CancelPendingOperation(_, id) =>
        var op := s.pendingOperations[id];
        var opResult := if op.operationType.AllocateTickets? then Some(TicketsAllocation(None)) else None;
        CloseKeepsFees(s, op, opResult, Invalid, None, id, op.ticketSequence);
        SameFees(s, HandleOperation(s, op, opResult, Invalid, None, id, op.ticketSequence).value.state, d);
    } else {
      SettingCharges(env, s, msg, d);
    }
  }
}
