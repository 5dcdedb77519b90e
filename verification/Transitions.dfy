/** How one message may move token states, and how it may move operation versions and signatures. */
module Transitions {
  import opened Types
  import opened Amounts
  import opened Tokens
  import opened Pending
  import opened Tickets
  import opened Relayers
  import opened Evidences
  import opened Operations
  import opened Handlers
  import opened Flags
  import opened TicketFlow
  import Lifecycle

  // ---------- token states ----------

  type Table = map<string, XrplToken>

  /** The permitted moves of a token: owner updates move only between Enabled and Disabled, recovery
      alone leaves Inactive, and only a resolution leaves Processing. */
  predicate PermittedMove(msg: Msg, key: string, before: TokenState, after: TokenState) {
    || after == before
    || (msg.UpdateXrplToken? && BuildXrplTokenKey(msg.issuer, msg.currency) == key
        && {before, after} == {Enabled, Disabled})
    || (msg.RecoverXrplTokenRegistration? && BuildXrplTokenKey(msg.issuer, msg.currency) == key
        && before.Inactive? && after.Processing?)
    || (IsResolving(msg) && before.Processing? && (after.Enabled? || after.Inactive?))
  }

  /** Known tokens move as permitted, new tokens start Processing. */
  ghost predicate TableMoves(msg: Msg, tokens: Table, tokens': Table) {
    && (forall key | key in tokens :: key in tokens' && PermittedMove(msg, key, tokens[key].state, tokens'[key].state))
    && (forall key | key in tokens' && key !in tokens :: msg.RegisterXrplToken? && tokens'[key].state.Processing?)
  }

  lemma SameTableMoves(msg: Msg, tokens: Table)
    ensures TableMoves(msg, tokens, tokens)
  {
  }

  lemma OneTokenMoves(msg: Msg, tokens: Table, key: string, token: XrplToken)
    requires key in tokens && PermittedMove(msg, key, tokens[key].state, token.state)
    ensures TableMoves(msg, tokens, tokens[key := token])
  {
  }

  lemma NewTokenMoves(msg: Msg, tokens: Table, key: string, token: XrplToken)
    requires key !in tokens && msg.RegisterXrplToken? && token.state.Processing?
    ensures TableMoves(msg, tokens, tokens[key := token])
  {
  }

  lemma CloseMoves(msg: Msg, s: State, op: Operation, opResult: Option<OperationResult>, result: TransactionResult,
                   hash: Option<string>, id: Sequence, ticket: Option<Sequence>)
    requires IsResolving(msg) && Lifecycle.LifecycleAgrees(s.pendingOperations, s.xrplTokens)
    requires id in s.pendingOperations && op == s.pendingOperations[id]
    requires HandleOperation(s, op, opResult, result, hash, id, ticket).Ok?
    ensures TableMoves(msg, s.xrplTokens, HandleOperation(s, op, opResult, result, hash, id,
                                                          ticket).value.state.xrplTokens)
  {
    hide ConfirmOperation, TableMoves;
    ConfirmOperationFrame(s, op, opResult, result, hash, id);
    if op.operationType.TrustSet? {
      var key := Lifecycle.TrustKey(op);
      assert id in TrustSets(s.pendingOperations, key);
      assert s.xrplTokens[key].state.Processing?;
      TrustSetTable(s, op, opResult, result, hash, id);
      OneTokenMoves(msg, s.xrplTokens, key,
                    s.xrplTokens[key].(state := if result.Accepted? then Enabled else Inactive));
    } else {
      SameTableMoves(msg, s.xrplTokens);
    }
  }

  lemma TrustSetTable(s: State, op: Operation, opResult: Option<OperationResult>, result: TransactionResult,
                      hash: Option<string>, id: Sequence)
    requires id in s.pendingOperations && op == s.pendingOperations[id] && op.operationType.TrustSet?
    requires ConfirmOperation(s, op, opResult, result, hash, id).Ok?
    ensures var key := Lifecycle.TrustKey(op);
            && key in s.xrplTokens
            && ConfirmOperation(s, op, opResult, result, hash, id).value.state.xrplTokens
            == s.xrplTokens[key := s.xrplTokens[key].(state := if result.Accepted? then Enabled else Inactive)]
  {
  }

  lemma EvidenceMoves(env: Env, s: State, sender: Addr, ev: Evidence)
    requires Lifecycle.LifecycleAgrees(s.pendingOperations, s.xrplTokens) && DoSaveEvidence(env, s, sender, ev).Ok?
    ensures TableMoves(SaveEvidence(sender, ev), s.xrplTokens,
                       DoSaveEvidence(env, s, sender, ev).value.state.xrplTokens)
  {
    hide ReceiveTransfer, HandleOperation, RegisterUsedTicket, HandleEvidence, TableMoves, Lifecycle.LifecycleAgrees;
    var (s1, reached) := HandleEvidence(env.chain, s, sender, ev).value;
    var msg := SaveEvidence(sender, ev);
    SameTableMoves(msg, s.xrplTokens);
    if ev.XrplTransactionResult? && reached {
      var id := SequenceOf(ev);
      CloseMoves(msg, s1, s1.pendingOperations[id], ev.operationResult, ev.result, ev.txHash, id, ev.ticketSequence);
    }
  }

  lemma RegisterTable(env: Env, s: State, sender: Addr, issuer: string, currency: string, precision: int,
                      maxHolding: Uint128, fee: Uint128, denom: string)
    requires DoRegisterXrplToken(env, s, sender, issuer, currency, precision, maxHolding, fee, denom).Ok?
    ensures var key := BuildXrplTokenKey(issuer, currency);
            && key !in s.xrplTokens
            && DoRegisterXrplToken(env, s, sender, issuer, currency, precision, maxHolding, fee,
                                   denom).value.state.xrplTokens
            == s.xrplTokens[key := XrplToken(issuer, currency, denom, precision, maxHolding, Processing, fee)]
  {
    hide ValidateXrplAddress, ValidateXrplCurrency, ValidateSendingPrecision, CheckValidOperationIfHalt, KeepsConfig,
      KeepsVotes, KeepsFees, Opens;
  }

  lemma RecoverTable(time: nat, s: State, sender: Addr, issuer: string, currency: string)
    requires DoRecoverXrplTokenRegistration(time, s, sender, issuer, currency).Ok?
    ensures var key := BuildXrplTokenKey(issuer, currency);
            && key in s.xrplTokens && s.xrplTokens[key].state.Inactive?
            && DoRecoverXrplTokenRegistration(time, s, sender, issuer, currency).value.xrplTokens
            == s.xrplTokens[key := s.xrplTokens[key].(state := Processing)]
  {
    hide CheckValidOperationIfHalt, KeepsConfig, KeepsVotes, KeepsFees, Opens;
  }

  lemma OpeningMoves(env: Env, s: State, msg: Msg)
    requires IsOpening(msg) && ExecuteOpening(env, s, msg).Ok?
    ensures TableMoves(msg, s.xrplTokens, ExecuteOpening(env, s, msg).value.state.xrplTokens)
  {
    hide DoRegisterXrplToken, DoRecoverXrplTokenRegistration, DoSendToXrpl, DoRecoverTickets, DoRotateKeys,
      KeepsConfig, KeepsVotes, KeepsFees, Opens, TableMoves;
    SameTableMoves(msg, s.xrplTokens);
    match msg
    case RegisterXrplToken(sender, issuer, currency, precision, maxHolding, fee, denom) =>
      RegisterTable(env, s, sender, issuer, currency, precision, maxHolding, fee, denom);
      NewTokenMoves(msg, s.xrplTokens, BuildXrplTokenKey(issuer, currency),
                    XrplToken(issuer, currency, denom, precision, maxHolding, Processing, fee));
    case RecoverXrplTokenRegistration(sender, issuer, currency) =>
      RecoverTable(env.time, s, sender, issuer, currency);
      OneTokenMoves(msg, s.xrplTokens, BuildXrplTokenKey(issuer, currency),
                    s.xrplTokens[BuildXrplTokenKey(issuer, currency)].(state := Processing));
    case _ =>
  }

  lemma SettingMoves(env: Env, s: State, msg: Msg)
    requires !IsOpening(msg) && !IsResolving(msg) && ExecuteSetting(env, s, msg).Ok?
    ensures TableMoves(msg, s.xrplTokens, ExecuteSetting(env, s, msg).value.state.xrplTokens)
  {
    hide DoRegisterCosmosToken, DoUpdateCosmosToken, DoUpdateXrplBaseFee, DoClaimRefund, DoClaimRelayerFees,
      ValidateSendingPrecision, DoUpdateUsedTicketSequenceThreshold, DoUpdateProhibitedXrplAddresses, DoHaltBridge,
      DoResumeBridge, DoSaveSignature, AddSignature, KeepsVotes, KeepsFees, SetTokenState;
  }

  /** Token lifecycle of one message. */
  lemma TokenStateStep(env: Env, s: State, msg: Msg)
    requires Lifecycle.LifecycleAgrees(s.pendingOperations, s.xrplTokens) && Execute(env, s, msg).Ok?
    ensures TableMoves(msg, s.xrplTokens, Execute(env, s, msg).value.state.xrplTokens)
  {
    hide ExecuteOpening, ExecuteSetting, DoSaveEvidence, HandleOperation, TableMoves, Lifecycle.LifecycleAgrees;
    if IsOpening(msg) {
      OpeningMoves(env, s, msg);
    } else if IsResolving(msg) {
      match msg
      case SaveEvidence(sender, ev) => EvidenceMoves(env, s, sender, ev);
      case CancelPendingOperation(_, id) =>
        var op := s.pendingOperations[id];
        CloseMoves(msg, s, op, if op.operationType.AllocateTickets? then Some(TicketsAllocation(None)) else None,
                   Invalid, None, id, op.ticketSequence);
    } else {
      SettingMoves(env, s, msg);
    }
  }

  // ---------- versions and signatures ----------

  /** A kept operation keeps its version and signatures, or gains one signature given for its
      current version, or is repriced: a higher version and no signature. Any other is new. */
  predicate OperationMoves(msg: Msg, k: Sequence, ops: OpMap, op': Operation) {
    || (k in ops && op' == ops[k])
    || (k in ops && msg.SaveSignature? && msg.operationId == k && msg.operationVersion == ops[k].version
        && !HasSigned(ops[k].signatures, msg.sender)
        && op' == ops[k].(signatures := ops[k].signatures + [Signature(msg.sender, msg.signature)]))
    || (k in ops && msg.UpdateXrplBaseFee? && op' == Repriced(ops[k], msg.baseFee))
    || (op'.version == 1 && op'.signatures == [])
  }

  ghost predicate QueueMoves(msg: Msg, ops: OpMap, ops': OpMap) {
    forall k | k in ops' :: OperationMoves(msg, k, ops, ops'[k])
  }

  lemma EvidenceQueue(env: Env, s: State, sender: Addr, ev: Evidence)
    requires DoSaveEvidence(env, s, sender, ev).Ok?
    ensures QueueMoves(SaveEvidence(sender, ev), s.pendingOperations,
                       DoSaveEvidence(env, s, sender, ev).value.state.pendingOperations)
  {
    hide ReceiveTransfer, HandleOperation, RegisterUsedTicket, HandleEvidence;
    var (s1, reached) := HandleEvidence(env.chain, s, sender, ev).value;
    if ev.XrplTransactionResult? && reached {
      var id := SequenceOf(ev);
      CloseTickets(s1, s1.pendingOperations[id], ev.operationResult, ev.result, ev.txHash, id, ev.ticketSequence);
    }
  }

  lemma OpeningQueue(env: Env, s: State, msg: Msg)
    requires IsOpening(msg) && ExecuteOpening(env, s, msg).Ok?
    ensures QueueMoves(msg, s.pendingOperations, ExecuteOpening(env, s, msg).value.state.pendingOperations)
  {
    hide DoRegisterXrplToken, DoRecoverTickets, DoRecoverXrplTokenRegistration, DoSendToXrpl, DoRotateKeys,
      KeepsConfig, KeepsVotes, KeepsFees, KeepsRefunds, KeepsCosmosTokens, KeepsXrplTokens;
  }

  lemma SettingQueue(env: Env, s: State, msg: Msg)
    requires !IsOpening(msg) && !IsResolving(msg) && ExecuteSetting(env, s, msg).Ok?
    ensures QueueMoves(msg, s.pendingOperations, ExecuteSetting(env, s, msg).value.state.pendingOperations)
  {
    hide DoRegisterCosmosToken, DoUpdateXrplToken, DoUpdateCosmosToken, DoClaimRefund, DoClaimRelayerFees,
      DoUpdateUsedTicketSequenceThreshold, DoUpdateProhibitedXrplAddresses, DoHaltBridge, DoResumeBridge, KeepsConfig,
      KeepsVotes, KeepsFees, KeepsRefunds, KeepsCosmosTokens, KeepsXrplTokens, CheckValidOperationIfHalt, SameWork;
  }

  /** Versions and signatures of one message. */
  lemma VersionStep(env: Env, s: State, msg: Msg)
    requires Execute(env, s, msg).Ok?
    ensures QueueMoves(msg, s.pendingOperations, Execute(env, s, msg).value.state.pendingOperations)
  {
    hide ExecuteOpening, ExecuteSetting, DoSaveEvidence, HandleOperation;
    if IsOpening(msg) {
      OpeningQueue(env, s, msg);
    } else if IsResolving(msg) {
      match msg
      case SaveEvidence(sender, ev) => EvidenceQueue(env, s, sender, ev);
      case CancelPendingOperation(_, id) =>
        var op := s.pendingOperations[id];
        CloseTickets(s, op, if op.operationType.AllocateTickets? then Some(TicketsAllocation(None)) else None,
                     Invalid, None, id, op.ticketSequence);
    } else {
      SettingQueue(env, s, msg);
    }
  }

  /** Under the same sequence number: kept, signed once more, or repriced. */
  predicate OperationKept(msg: Msg, op: Operation, op': Operation) {
    || op' == op
    || (msg.SaveSignature? && op' == op.(signatures := op.signatures + [Signature(msg.sender, msg.signature)]))
    || (msg.UpdateXrplBaseFee? && op' == Repriced(op, msg.baseFee))
  }

  ghost predicate QueueKeeps(msg: Msg, ops: OpMap, ops': OpMap) {
    forall k | k in ops && k in ops' :: OperationKept(msg, ops[k], ops'[k])
  }

  lemma EvidenceKeeps(env: Env, s: State, sender: Addr, ev: Evidence)
    requires TicketsSound(s) && DoSaveEvidence(env, s, sender, ev).Ok?
    requires TakesEffect(env, s, SaveEvidence(sender, ev)) ==> TruthfulSequence(s, ev)
    ensures QueueKeeps(SaveEvidence(sender, ev), s.pendingOperations,
                       DoSaveEvidence(env, s, sender, ev).value.state.pendingOperations)
  {
    hide ReceiveTransfer, HandleOperation, RegisterUsedTicket, HandleEvidence, ValidateBasic, IsRelayer;
    var (s1, reached) := HandleEvidence(env.chain, s, sender, ev).value;
    if ev.XrplTransactionResult? && reached {
      var id := SequenceOf(ev);
      var op := s1.pendingOperations[id];
      CloseTickets(s1, op, ev.operationResult, ev.result, ev.txHash, id, ev.ticketSequence);
      SameGrant(s, s1, ev, op);
      var o := HandleOperation(s1, op, ev.operationResult, ev.result, ev.txHash, id, ev.ticketSequence).value;
      if !ev.result.Invalid? && ev.ticketSequence.Some? && Reallocates(o.state) {
        assert o.state.availableTickets[0] in s.availableTickets + Grant(op, ev.operationResult, ev.result);
      }
    }
  }

  lemma OpeningKeeps(env: Env, s: State, msg: Msg)
    requires IsOpening(msg) && ExecuteOpening(env, s, msg).Ok?
    ensures QueueKeeps(msg, s.pendingOperations, ExecuteOpening(env, s, msg).value.state.pendingOperations)
  {
    hide DoRegisterXrplToken, DoRecoverTickets, DoRecoverXrplTokenRegistration, DoSendToXrpl, DoRotateKeys,
      KeepsConfig, KeepsVotes, KeepsFees, KeepsRefunds, KeepsCosmosTokens, KeepsXrplTokens;
  }

  lemma SettingKeeps(env: Env, s: State, msg: Msg)
    requires !IsOpening(msg) && !IsResolving(msg) && ExecuteSetting(env, s, msg).Ok?
    ensures QueueKeeps(msg, s.pendingOperations, ExecuteSetting(env, s, msg).value.state.pendingOperations)
  {
    hide DoRegisterCosmosToken, DoUpdateXrplToken, DoUpdateCosmosToken, DoClaimRefund, DoClaimRelayerFees,
      DoUpdateUsedTicketSequenceThreshold, DoUpdateProhibitedXrplAddresses, DoHaltBridge, DoResumeBridge, KeepsConfig,
      KeepsVotes, KeepsFees, KeepsRefunds, KeepsCosmosTokens, KeepsXrplTokens, CheckValidOperationIfHalt, SameWork;
  }

  /** With tickets apart from the queue, no message replaces an operation under its own sequence
      number: its version never decreases, and rises only as its signatures are dropped. */
  lemma KeptStep(env: Env, s: State, msg: Msg)
    requires TicketsSound(s) && TicketHypothesis(env, s, msg) && Execute(env, s, msg).Ok?
    ensures QueueKeeps(msg, s.pendingOperations, Execute(env, s, msg).value.state.pendingOperations)
  {
    hide ExecuteOpening, ExecuteSetting, DoSaveEvidence, HandleOperation, TicketsSound, TruthfulSequence,
      HandleEvidence;
    if IsOpening(msg) {
      OpeningKeeps(env, s, msg);
    } else if IsResolving(msg) {
      match msg
      case SaveEvidence(sender, ev) => EvidenceKeeps(env, s, sender, ev);
      case CancelPendingOperation(_, id) =>
        var op := s.pendingOperations[id];
        CloseTickets(s, op, if op.operationType.AllocateTickets? then Some(TicketsAllocation(None)) else None,
                     Invalid, None, id, op.ticketSequence);
    } else {
      SettingKeeps(env, s, msg);
    }
  }
}
