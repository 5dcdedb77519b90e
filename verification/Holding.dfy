/** The holding limit of XRPL-originated tokens: no message lifts the wrapped supply above it. */
module Holding {
  import opened Types
  import opened Amounts
  import opened Tokens
  import opened Pending
  import opened Tickets
  import opened Relayers
  import opened Evidences
  import opened Fees
  import opened Operations
  import opened Handlers
  import opened Soundness
  import opened Banking
  import opened Escrow
  import opened Solvency
  import opened Peg

  /** Every token keeps its denom and its limit. */
  ghost predicate SameLimits(s: State, s': State) {
    forall key | key in s.xrplTokens ::
      && key in s'.xrplTokens
      && s'.xrplTokens[key].cosmosDenom == s.xrplTokens[key].cosmosDenom
      && s'.xrplTokens[key].maxHoldingAmount == s.xrplTokens[key].maxHoldingAmount
  }

  predicate AllBurns(msgs: seq<BankMsg>) { forall m <- msgs :: m.Burn? }

  lemma {:induction false} BurnsOnlyShrink(msgs: seq<BankMsg>, d: string)
    requires AllBurns(msgs)
    ensures AllIssued(msgs, d) <= 0
  {
    if msgs != [] {
      assert msgs[0] in msgs && forall m <- msgs[1..] :: m in msgs;
      BurnsOnlyShrink(msgs[1..], d);
    }
  }

  // ---------- resolutions burn at most ----------

  lemma CloseLimits(s: State, op: Operation, opResult: Option<OperationResult>, result: TransactionResult,
                    hash: Option<string>, id: Sequence, ticket: Option<Sequence>)
    requires id in s.pendingOperations && op == s.pendingOperations[id]
    requires HandleOperation(s, op, opResult, result, hash, id, ticket).Ok?
    ensures var o := HandleOperation(s, op, opResult, result, hash, id, ticket).value;
            SameLimits(s, o.state) && AllBurns(o.msgs)
  {
    hide ConfirmOperation, HandleOperation;
    if IsTransfer(s.pendingOperations, id) {
      TransferLimits(s, op, opResult, result, hash, id, ticket);
    } else {
      OtherCloseFrame(s, op, opResult, result, hash, id, ticket);
      if op.operationType.TrustSet? {
        TrustSetLimits(s, op, opResult, result, hash, id, ticket);
      } else {
        KeptLimits(s, op, opResult, result, hash, id, ticket);
      }
    }
  }

  lemma TransferLimits(s: State, op: Operation, opResult: Option<OperationResult>, result: TransactionResult,
                       hash: Option<string>, id: Sequence, ticket: Option<Sequence>)
    requires IsTransfer(s.pendingOperations, id) && op == s.pendingOperations[id]
    requires HandleOperation(s, op, opResult, result, hash, id, ticket).Ok?
    ensures var o := HandleOperation(s, op, opResult, result, hash, id, ticket).value;
            SameLimits(s, o.state) && AllBurns(o.msgs)
  {
    hide LockedCoin;
  }

  lemma TrustSetLimits(s: State, op: Operation, opResult: Option<OperationResult>, result: TransactionResult,
                       hash: Option<string>, id: Sequence, ticket: Option<Sequence>)
    requires id in s.pendingOperations && op == s.pendingOperations[id] && op.operationType.TrustSet?
    requires HandleOperation(s, op, opResult, result, hash, id, ticket).Ok?
    ensures SameLimits(s, HandleOperation(s, op, opResult, result, hash, id, ticket).value.state)
  {
  }

  lemma KeptLimits(s: State, op: Operation, opResult: Option<OperationResult>, result: TransactionResult,
                   hash: Option<string>, id: Sequence, ticket: Option<Sequence>)
    requires id in s.pendingOperations && op == s.pendingOperations[id] && !op.operationType.TrustSet?
    requires HandleOperation(s, op, opResult, result, hash, id, ticket).Ok?
    ensures SameLimits(s, HandleOperation(s, op, opResult, result, hash, id, ticket).value.state)
  {
    hide ConfirmOperation;
    ConfirmOperationFrame(s, op, opResult, result, hash, id);
  }

  lemma ResolveLimits(env: Env, s: State, ev: Evidence, reached: bool)
    requires ev.XrplTransactionResult? && (ev.accountSequence.Some? || ev.ticketSequence.Some?)
    requires ResolveOperation(env, s, ev, reached).Ok?
    ensures var o := ResolveOperation(env, s, ev, reached).value;
            SameLimits(s, o.state) && AllBurns(o.msgs)
  {
    hide HandleOperation, RegisterUsedTicket;
    if reached {
      var id := SequenceOf(ev);
      CloseLimits(s, s.pendingOperations[id], ev.operationResult, ev.result, ev.txHash, id, ev.ticketSequence);
    }
  }

  // ---------- arriving tokens are checked against the limit ----------

  lemma ReceiveWithinLimit(env: Env, s: State, ev: Evidence)
    requires ev.XrplToCosmosTransfer? && ReceiveXrplToken(env, s, ev, true).Ok?
    ensures var key := BuildXrplTokenKey(ev.issuer, ev.currency);
            && key in s.xrplTokens
            && ev.amount + SupplyOf(env.bank, s.xrplTokens[key].cosmosDenom) <= s.xrplTokens[key].maxHoldingAmount
  {
    hide TruncateAmount, HandleFeeCollection;
  }

  lemma ArrivalWithinLimit(env: Env, s: State, ev: Evidence, key: string)
    requires Sound(s) && ev.XrplToCosmosTransfer? && ReceiveTransfer(env, s, ev, true).Ok? && key in s.xrplTokens
    requires SupplyOf(env.bank, s.xrplTokens[key].cosmosDenom) <= s.xrplTokens[key].maxHoldingAmount
    ensures var o := ReceiveTransfer(env, s, ev, true).value;
            && SupplyOf(env.bank, s.xrplTokens[key].cosmosDenom) + AllIssued(o.msgs, s.xrplTokens[key].cosmosDenom)
            <= s.xrplTokens[key].maxHoldingAmount
  {
    hide Sound, ReceiveXrplToken, ReceiveCosmosToken, AllIssued, OnlyFees;
    var denom := s.xrplTokens[key].cosmosDenom;
    SoundTables(s);
    if ev.issuer != s.config.bridgeXrplAddress {
      ReceiveWithinLimit(env, s, ev);
      ReceiveXrplMoney(env, s, ev, denom);
      var key' := BuildXrplTokenKey(ev.issuer, ev.currency);
      if key != key' { DifferentDenoms(s, key, key'); }
    } else {
      PaidFromEscrow(env, s, ev, denom);
    }
  }

  lemma PaidFromEscrow(env: Env, s: State, ev: Evidence, d: string)
    requires ev.XrplToCosmosTransfer? && ReceiveCosmosToken(env, s, ev, true).Ok?
    ensures AllIssued(ReceiveCosmosToken(env, s, ev, true).value.msgs, d) == 0
  {
    hide ConvertAndTruncateAmount, HandleFeeCollection, AllIssued;
    var token := s.cosmosTokens[s.cosmosTokenByCurrency[ev.currency]];
    var (toSend, _) := ConvertAndTruncateAmount(token.sendingPrecision, XRPL_TOKENS_DECIMALS, token.decimals, ev.amount,
                                                token.bridgingFee).value;
    SendInflows("", ev.recipient, [Coin(token.denom, toSend)], d);
    if IsUniversalSwap(s, ev.memo) {
      SendInflows("", s.config.osorEntryPoint.value, [Coin(token.denom, toSend)], d);
    }
  }

  lemma EvidenceWithinLimit(env: Env, s: State, sender: Addr, ev: Evidence, key: string)
    requires Sound(s) && DoSaveEvidence(env, s, sender, ev).Ok? && key in s.xrplTokens
    requires SupplyOf(env.bank, s.xrplTokens[key].cosmosDenom) <= s.xrplTokens[key].maxHoldingAmount
    ensures var o := DoSaveEvidence(env, s, sender, ev).value;
            && SameLimits(s, o.state)
            && SupplyOf(env.bank, s.xrplTokens[key].cosmosDenom) + AllIssued(o.msgs, s.xrplTokens[key].cosmosDenom)
            <= s.xrplTokens[key].maxHoldingAmount
  {
    hide Sound, ReceiveTransfer, ResolveOperation, AllIssued, HandleEvidence, IsRelayer, AllBurns;
    var (s1, reached) := HandleEvidence(env.chain, s, sender, ev).value;
    VoteIsSound(env.chain, s, sender, ev);
    var denom := s.xrplTokens[key].cosmosDenom;
    NothingFlows("", denom);
    if ev.XrplTransactionResult? {
      ResolveLimits(env, s1, ev, reached);
      BurnsOnlyShrink(ResolveOperation(env, s1, ev, reached).value.msgs, denom);
    } else if reached {
      ArrivalWithinLimit(env, s1, ev, key);
    } else {
      UnreachedChangesNothing(env, s1, ev);
    }
  }

  // ---------- the other messages ----------

  lemma OpeningLimits(env: Env, s: State, msg: Msg, d: string)
    requires IsOpening(msg) && ExecuteOpening(env, s, msg).Ok?
    ensures var o := ExecuteOpening(env, s, msg).value;
            SameLimits(s, o.state) && AllIssued(o.msgs, d) == 0
  {
    hide DoSendToXrpl, DoRecoverTickets, DoRotateKeys, ValidateXrplAddress, ValidateXrplCurrency,
      ValidateSendingPrecision, Opens, AllIssued;
    NothingFlows("", d);
    if msg.RegisterXrplToken? { NewDenomFlows("", msg.derivedDenom, d); }
  }

  lemma SettingWithinLimit(env: Env, s: State, msg: Msg, key: string)
    requires !IsOpening(msg) && !IsResolving(msg) && ExecuteSetting(env, s, msg).Ok? && key in s.xrplTokens
    requires SupplyOf(env.bank, s.xrplTokens[key].cosmosDenom) <= s.xrplTokens[key].maxHoldingAmount
    ensures var o := ExecuteSetting(env, s, msg).value;
            && key in o.state.xrplTokens && o.state.xrplTokens[key].cosmosDenom == s.xrplTokens[key].cosmosDenom
            && SupplyOf(env.bank, s.xrplTokens[key].cosmosDenom) <= o.state.xrplTokens[key].maxHoldingAmount
            && AllIssued(o.msgs, s.xrplTokens[key].cosmosDenom) == 0
  {
    hide DoRegisterCosmosToken, DoUpdateCosmosToken, DoUpdateXrplBaseFee, SubtractRelayerFees,
      ValidateSendingPrecision, DoUpdateUsedTicketSequenceThreshold, DoUpdateProhibitedXrplAddresses, DoHaltBridge,
      DoResumeBridge, DoSaveSignature, AddSignature, AllIssued, OnlyFees, OnlyTokens, OnlyConfig;
    var denom := s.xrplTokens[key].cosmosDenom;
    NothingFlows("", denom);
    if msg.ClaimRefund? {
      SendInflows("", msg.sender, [s.pendingRefunds[RefundKey(msg.sender, msg.refundId)].coin], denom);
    } else if msg.ClaimRelayerFees? {
      SendInflows("", msg.sender, msg.amounts, denom);
    }
    SettingLimits(env, s, msg, key);
  }

  lemma SettingLimits(env: Env, s: State, msg: Msg, key: string)
    requires !IsOpening(msg) && !IsResolving(msg) && ExecuteSetting(env, s, msg).Ok? && key in s.xrplTokens
    requires SupplyOf(env.bank, s.xrplTokens[key].cosmosDenom) <= s.xrplTokens[key].maxHoldingAmount
    ensures var o := ExecuteSetting(env, s, msg).value;
            && key in o.state.xrplTokens && o.state.xrplTokens[key].cosmosDenom == s.xrplTokens[key].cosmosDenom
            && SupplyOf(env.bank, s.xrplTokens[key].cosmosDenom) <= o.state.xrplTokens[key].maxHoldingAmount
  {
    hide DoRegisterCosmosToken, DoUpdateCosmosToken, DoUpdateXrplBaseFee, SubtractRelayerFees,
      ValidateSendingPrecision, DoUpdateUsedTicketSequenceThreshold, DoUpdateProhibitedXrplAddresses, DoHaltBridge,
      DoResumeBridge, DoSaveSignature, AddSignature, DoClaimRefund, DoClaimRelayerFees;
  }

  /** The holding limit of one message: a wrapped supply within its limit stays within the limit the
      message leaves, whether it mints, burns, or the owner moves the limit. */
  lemma LimitStep(env: Env, s: State, msg: Msg, key: string)
    requires Sound(s) && Execute(env, s, msg).Ok? && key in s.xrplTokens
    requires SupplyOf(env.bank, s.xrplTokens[key].cosmosDenom) <= s.xrplTokens[key].maxHoldingAmount
    ensures var o := Execute(env, s, msg).value;
            && key in o.state.xrplTokens && o.state.xrplTokens[key].cosmosDenom == s.xrplTokens[key].cosmosDenom
            && SupplyOf(env.bank, s.xrplTokens[key].cosmosDenom) + AllIssued(o.msgs, s.xrplTokens[key].cosmosDenom)
            <= o.state.xrplTokens[key].maxHoldingAmount
  {
    hide Sound, AllIssued, ExecuteOpening, ExecuteSetting, DoSaveEvidence, HandleOperation, AllBurns;
    var denom := s.xrplTokens[key].cosmosDenom;
    if IsOpening(msg) {
      OpeningLimits(env, s, msg, denom);
    } else if IsResolving(msg) {
      match msg
      case SaveEvidence(sender, ev) => EvidenceWithinLimit(env, s, sender, ev, key);
      case CancelPendingOperation(_, id) =>
        var op := s.pendingOperations[id];
        var opResult := if op.operationType.AllocateTickets? then Some(TicketsAllocation(None)) else None;
        CloseLimits(s, op, opResult, Invalid, None, id, op.ticketSequence);
        BurnsOnlyShrink(HandleOperation(s, op, opResult, Invalid, None, id, op.ticketSequence).value.msgs, denom);
    } else {
      SettingWithinLimit(env, s, msg, key);
    }
  }
}
