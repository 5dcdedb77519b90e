/** What a halted bridge refuses, and what it still lets through. */
module Halting {
  import opened Types
  import opened Amounts
  import opened Tokens
  import opened Pending
  import opened Tickets
  import opened Relayers
  import opened Evidences
  import opened Fees
  import opened Operations
  import opened Handlers
  import opened TicketFlow
  import opened Holding

  /** Operations that may be queued while the bridge is halted. */
  predicate QueuedWhileHalted(typ: OperationType) { typ.AllocateTickets? || typ.RotateKeys? }

  /** Whatever a step adds to the queue is a ticket allocation or a rotation. */
  ghost predicate OnlySafeWork(ops: map<Sequence, Operation>, ops': map<Sequence, Operation>) {
    forall k | k in ops' ::
      || (k in ops && ops'[k].operationType == ops[k].operationType)
      || QueuedWhileHalted(ops'[k].operationType)
  }

  lemma OpeningWhileHalted(env: Env, s: State, msg: Msg)
    requires s.config.bridgeState.Halted? && IsOpening(msg) && ExecuteOpening(env, s, msg).Ok?
    ensures msg.RecoverTickets? || msg.RotateKeysMsg?
    ensures ExecuteOpening(env, s, msg).value.msgs == []
    ensures OnlySafeWork(s.pendingOperations, ExecuteOpening(env, s, msg).value.state.pendingOperations)
  {
    hide DoRecoverTickets, DoRotateKeys, ValidateXrplAddress, ValidateXrplCurrency, ValidateSendingPrecision,
      KeepsConfig, KeepsVotes, KeepsFees, DecideTransfer, ValidateXrplAmount;
  }

  lemma SettingWhileHalted(env: Env, s: State, msg: Msg)
    requires s.config.bridgeState.Halted? && !IsOpening(msg) && !IsResolving(msg) && ExecuteSetting(env, s, msg).Ok?
    ensures !msg.ClaimRefund? && !msg.ClaimRelayerFees? && ExecuteSetting(env, s, msg).value.msgs == []
    ensures OnlySafeWork(s.pendingOperations, ExecuteSetting(env, s, msg).value.state.pendingOperations)
  {
    hide DoRegisterCosmosToken, DoUpdateXrplToken, DoUpdateCosmosToken, DoUpdateXrplBaseFee, SubtractRelayerFees,
      DoUpdateUsedTicketSequenceThreshold, DoUpdateProhibitedXrplAddresses, DoHaltBridge, DoResumeBridge,
      DoSaveSignature, AddSignature;
  }

  lemma EvidenceWhileHalted(env: Env, s: State, sender: Addr, ev: Evidence)
    requires s.config.bridgeState.Halted? && DoSaveEvidence(env, s, sender, ev).Ok?
    ensures ev.XrplTransactionResult? && AllBurns(DoSaveEvidence(env, s, sender, ev).value.msgs)
    ensures OnlySafeWork(s.pendingOperations, DoSaveEvidence(env, s, sender, ev).value.state.pendingOperations)
  {
    hide ReceiveXrplToken, ReceiveCosmosToken, ResolveOperation, HandleEvidence, IsRelayer, AllBurns, OnlySafeWork;
    var (s1, reached) := HandleEvidence(env.chain, s, sender, ev).value;
    if ev.XrplTransactionResult? {
      ResolveLimits(env, s1, ev, reached);
      ResolveWork(env, s1, ev, reached);
    }
  }

  lemma ResolveWork(env: Env, s: State, ev: Evidence, reached: bool)
    requires ev.XrplTransactionResult? && (ev.accountSequence.Some? || ev.ticketSequence.Some?)
    requires ResolveOperation(env, s, ev, reached).Ok?
    ensures OnlySafeWork(s.pendingOperations, ResolveOperation(env, s, ev, reached).value.state.pendingOperations)
  {
    hide HandleOperation, RegisterUsedTicket;
    if reached {
      var id := SequenceOf(ev);
      CloseTickets(s, s.pendingOperations[id], ev.operationResult, ev.result, ev.txHash, id, ev.ticketSequence);
    }
  }

  /** While the bridge is halted nothing is minted or paid out: an accepted message burns at most.
      No transfer is voted on or sent, no refund or fee is claimed, and only ticket allocations and
      key rotations are queued. */
  lemma HaltedFreezesPayments(env: Env, s: State, msg: Msg)
    requires s.config.bridgeState.Halted? && Execute(env, s, msg).Ok?
    ensures AllBurns(Execute(env, s, msg).value.msgs)
    ensures !msg.ClaimRefund? && !msg.ClaimRelayerFees? && !msg.SendToXrpl? && !msg.RegisterXrplToken?
    ensures msg.SaveEvidence? ==> msg.evidence.XrplTransactionResult?
    ensures OnlySafeWork(s.pendingOperations, Execute(env, s, msg).value.state.pendingOperations)
  {
    hide ExecuteOpening, ExecuteSetting, DoSaveEvidence, HandleOperation;
    if IsOpening(msg) {
      OpeningWhileHalted(env, s, msg);
    } else if IsResolving(msg) {
      match msg
      case SaveEvidence(sender, ev) => EvidenceWhileHalted(env, s, sender, ev);
      case CancelPendingOperation(_, id) =>
        var op := s.pendingOperations[id];
        var opResult := if op.operationType.AllocateTickets? then Some(TicketsAllocation(None)) else None;
        CloseLimits(s, op, opResult, Invalid, None, id, op.ticketSequence);
        CloseTickets(s, op, opResult, Invalid, None, id, op.ticketSequence);
    } else {
      SettingWhileHalted(env, s, msg);
    }
  }
}
