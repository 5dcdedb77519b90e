/** The automatic re-allocation cycle neither creates nor loses tickets. */
module TicketCycle {
  import opened Types
  import opened Pending
  import opened Tickets
  import Relayers
  import opened Evidences
  import opened Operations
  import opened Handlers
  import opened Flags
  import opened Soundness
  import opened TicketFlow
  import opened TicketProgress

  predicate IsAutomatic(op: Operation) { op.operationType.AllocateTickets? && op.ticketSequence.Some? }

  /** A pending automatic allocation asks for no more tickets than have been used. */
  ghost predicate WithinUsed(s: State) {
    forall k | k in s.pendingOperations && IsAutomatic(s.pendingOperations[k]) ::
      s.pendingOperations[k].operationType.number <= s.usedTickets
  }

  lemma SameWithinUsed(s: State, s': State)
    requires WithinUsed(s) && SameWork(s.pendingOperations, s'.pendingOperations) && s'.usedTickets == s.usedTickets
    ensures WithinUsed(s')
  {
    forall k | k in s'.pendingOperations && IsAutomatic(s'.pendingOperations[k])
      ensures s'.pendingOperations[k].operationType.number <= s'.usedTickets
    {
      assert k in s.pendingOperations && IsAutomatic(s.pendingOperations[k]);
    }
  }

  lemma CloseWithinUsed(s: State, op: Operation, opResult: Option<OperationResult>, result: TransactionResult,
                        hash: Option<string>, id: Sequence, ticket: Option<Sequence>)
    requires FlagsAgree(s) && WithinUsed(s) && id in s.pendingOperations && op == s.pendingOperations[id]
    requires HandleOperation(s, op, opResult, result, hash, id, ticket).Ok?
    ensures WithinUsed(HandleOperation(s, op, opResult, result, hash, id, ticket).value.state)
  {
    hide HandleOperation, FlagsAgree;
    CloseTickets(s, op, opResult, result, hash, id, ticket);
    var s' := HandleOperation(s, op, opResult, result, hash, id, ticket).value.state;
    forall k | k in s'.pendingOperations && IsAutomatic(s'.pendingOperations[k])
      ensures s'.pendingOperations[k].operationType.number <= s'.usedTickets
    {
      if op.operationType.AllocateTickets? {
        OneAllocation(s, k, id);
        assert false;
      }
    }
  }

  lemma UseWithinUsed(time: nat, s: State)
    requires WithinUsed(s) && RegisterUsedTicket(time, s).Ok?
    ensures WithinUsed(RegisterUsedTicket(time, s).value.0)
  {
    hide RegisterUsedTicket;
  }

  lemma EvidenceWithinUsed(env: Env, s: State, sender: Addr, ev: Evidence)
    requires Sound(s) && WithinUsed(s) && DoSaveEvidence(env, s, sender, ev).Ok?
    ensures WithinUsed(DoSaveEvidence(env, s, sender, ev).value.state)
  {
    hide Sound, HandleOperation, RegisterUsedTicket, HandleEvidence, ReceiveTransfer, WithinUsed, Relayers.IsRelayer;
    var (s1, reached) := HandleEvidence(env.chain, s, sender, ev).value;
    VoteIsSound(env.chain, s, sender, ev);
    SoundFlags(s1);
    SameWithinUsed(s, s1);
    var s' := DoSaveEvidence(env, s, sender, ev).value.state;
    if ev.XrplToCosmosTransfer? {
      SameWithinUsed(s1, s');
    } else if reached {
      var id := SequenceOf(ev);
      var op := s1.pendingOperations[id];
      CloseWithinUsed(s1, op, ev.operationResult, ev.result, ev.txHash, id, ev.ticketSequence);
      if !ev.result.Invalid? && ev.ticketSequence.Some? {
        UseWithinUsed(env.time, HandleOperation(s1, op, ev.operationResult, ev.result, ev.txHash, id,
                                                ev.ticketSequence).value.state);
      }
    }
  }

  lemma OpeningWithinUsed(env: Env, s: State, msg: Msg)
    requires WithinUsed(s) && IsOpening(msg) && ExecuteOpening(env, s, msg).Ok?
    ensures WithinUsed(ExecuteOpening(env, s, msg).value.state)
  {
    hide DoRegisterXrplToken, DoRecoverTickets, DoRecoverXrplTokenRegistration, DoSendToXrpl, DoRotateKeys,
      KeepsConfig, KeepsVotes, KeepsFees, KeepsRefunds, KeepsCosmosTokens, KeepsXrplTokens;
  }

  lemma SettingWithinUsed(env: Env, s: State, msg: Msg)
    requires WithinUsed(s) && !IsOpening(msg) && !IsResolving(msg) && ExecuteSetting(env, s, msg).Ok?
    ensures WithinUsed(ExecuteSetting(env, s, msg).value.state)
  {
    hide DoRegisterCosmosToken, AddSignature, DoUpdateXrplToken, DoUpdateCosmosToken, DoUpdateXrplBaseFee,
      DoClaimRefund, DoClaimRelayerFees, DoUpdateUsedTicketSequenceThreshold, DoUpdateProhibitedXrplAddresses,
      DoHaltBridge, DoResumeBridge, DoSaveSignature, WithinUsed;
    SameWithinUsed(s, ExecuteSetting(env, s, msg).value.state);
  }

  lemma WithinUsedStep(env: Env, s: State, msg: Msg)
    requires Sound(s) && WithinUsed(s) && Execute(env, s, msg).Ok?
    ensures WithinUsed(Execute(env, s, msg).value.state)
  {
    hide ExecuteOpening, ExecuteSetting, DoSaveEvidence, HandleOperation, Sound, WithinUsed;
    if IsOpening(msg) {
      OpeningWithinUsed(env, s, msg);
    } else if IsResolving(msg) {
      match msg
      case SaveEvidence(sender, ev) => EvidenceWithinUsed(env, s, sender, ev);
      case CancelPendingOperation(_, id) =>
        SoundFlags(s);
        var op := s.pendingOperations[id];
        CloseWithinUsed(s, op, if op.operationType.AllocateTickets? then Some(TicketsAllocation(None)) else None,
                        Invalid, None, id, op.ticketSequence);
    } else {
      SettingWithinUsed(env, s, msg);
    }
  }

  /** The stock stays constant through every automatic re-allocation: an allocation granted in full
      adds nothing beyond the used count. Only a recovery can enlarge the stock. */
  lemma AutomaticCycleIsNeutral(env: Env, s: State, sender: Addr, ev: Evidence)
    requires Sound(s) && TicketsSound(s) && WithinUsed(s) && DoSaveEvidence(env, s, sender, ev).Ok?
    requires TakesEffect(env, s, SaveEvidence(sender, ev)) ==> TruthfulSequence(s, ev) && FullGrant(s, ev)
    requires ev.XrplTransactionResult? && ev.ticketSequence.Some?
    ensures Stock(DoSaveEvidence(env, s, sender, ev).value.state) == Stock(s)
  {
    hide Sound, TicketsSound, Stock, ValidateBasic, FreshGrant, DoSaveEvidence;
    EvidenceConserves(env, s, sender, ev);
  }
}
