/** Ticket progress: under a fixed threshold and honest grants the bridge never strands itself on a
    single ticket; one invalid or cancelled ticketed operation can strand it for ever. */
module TicketProgress {
  import opened Types
  import opened Pending
  import opened Tickets
  import opened Evidences
  import opened Operations
  import opened Handlers
  import opened Flags
  import opened Queue
  import opened Soundness
  import opened TicketFlow

  function Threshold(s: State): nat { s.config.usedTicketSequenceThreshold }

  /** Nothing reported before the first grant, and always more than a threshold's worth after it;
      without a pending allocation the used count is below the threshold, or there is no ticket
      left, or at least two tickets are available or in flight. */
  ghost predicate Progressing(s: State) {
    && Threshold(s) >= 2
    && (Stock(s) == 0 || Stock(s) > Threshold(s))
    && (s.pendingTicketUpdate || s.usedTickets < Threshold(s) || s.availableTickets == []
        || |s.availableTickets| + |Ticketed(s.pendingOperations)| >= 2)
    && (forall k | k in s.pendingOperations && s.pendingOperations[k].ticketSequence.None? ::
          Recovering(s, s.pendingOperations[k]))
  }

  /** A pending recovery asks for more than the threshold, while no ticket is available. */
  predicate Recovering(s: State, op: Operation) {
    && op.operationType.AllocateTickets?
    && op.operationType.number > Threshold(s)
    && s.availableTickets == []
  }

  /** The owner leaves the threshold alone, no ticketed operation ends invalid or cancelled, and an
      accepted allocation returns the number of tickets it asked for. Of evidences it binds only the
      vote that reaches the threshold. */
  predicate ProgressHypothesis(env: Env, s: State, msg: Msg) {
    && !msg.UpdateUsedTicketSequenceThreshold?
    && TicketHypothesis(env, s, msg)
    && (msg.CancelPendingOperation? && msg.operationId in s.pendingOperations ==>
          s.pendingOperations[msg.operationId].ticketSequence.None?)
    && (TakesEffect(env, s, msg) ==> FullGrant(s, msg.evidence))
  }

  predicate FullGrant(s: State, ev: Evidence) {
    ev.XrplTransactionResult? && ValidateBasic(ev).Ok? && SequenceOf(ev) in s.pendingOperations ==>
      var op := s.pendingOperations[SequenceOf(ev)];
      && (ev.result.Invalid? ==> op.ticketSequence.None?)
      && (op.operationType.AllocateTickets? && ev.result.Accepted? && ev.operationResult.Some?
          && ev.operationResult.value.tickets.Some? ==>
            |ev.operationResult.value.tickets.value| == op.operationType.number)
  }

  /** The promise: with nothing pending there are no tickets, and recovery is open, or at least two,
      and allocation is open; never exactly one. */
  lemma NeverExactlyOne(s: State)
    requires Sound(s) && Progressing(s) && s.pendingOperations == map[]
    ensures |s.availableTickets| != 1
    ensures |s.availableTickets| >= 2 ==> AllocateTicket(s).Ok?
    ensures s.availableTickets == [] ==> forall time: nat, account: Sequence, n: nat ::
              DoRecoverTickets(time, s, s.owner, account, Some(n)).Ok? <==> Threshold(s) < n <= MAX_TICKETS
  {
    assert Ticketed(s.pendingOperations) == {};
    assert Allocations(s.pendingOperations) == {};
  }

  // ---------- steps ----------

  lemma SameProgress(s: State, s': State)
    requires Progressing(s) && SameWork(s.pendingOperations, s'.pendingOperations) && KeepsTickets(s, s')
    requires Threshold(s') == Threshold(s)
    ensures Progressing(s')
  {
    hide Ticketed;
    TicketedSameWork(s.pendingOperations, s'.pendingOperations);
    forall k | k in s'.pendingOperations && s'.pendingOperations[k].ticketSequence.None?
      ensures Recovering(s', s'.pendingOperations[k])
    {
      assert k in s.pendingOperations && Recovering(s, s.pendingOperations[k]);
    }
  }

  lemma OpenProgress(time: nat, s: State, s': State, typ: OperationType)
    requires Progressing(s) && TicketsSound(s) && Opens(time, s, s', typ) && Threshold(s') == Threshold(s)
    ensures Progressing(s')
  {
    hide Ticketed, Stock, TicketsSound;
    OpenKeepsStock(time, s, s', typ);
    var k := s.availableTickets[0];
    TicketedInsert(s.pendingOperations, k, s'.pendingOperations[k]);
    assert forall j | j in s.pendingOperations :: s.pendingOperations[j].ticketSequence.Some?;
  }

  lemma RecoverProgress(time: nat, s: State, sender: Addr, account: Sequence, number: Option<nat>)
    requires Progressing(s) && DoRecoverTickets(time, s, sender, account, number).Ok?
    ensures Progressing(DoRecoverTickets(time, s, sender, account, number).value)
  {
    hide Ticketed, Stock, DoRecoverTickets;
    var s' := DoRecoverTickets(time, s, sender, account, number).value;
    AccountKeepsStock(s, s', account, s'.pendingOperations[account]);
    forall j | j in s'.pendingOperations && s'.pendingOperations[j].ticketSequence.None?
      ensures Recovering(s', s'.pendingOperations[j])
    {
      if j != account { assert Recovering(s, s.pendingOperations[j]); }
    }
  }

  /** After a ticketed result the allocator has either queued an allocation or has no reason to. */
  lemma UseProgress(time: nat, s: State)
    requires TicketsSound(s) && RegisterUsedTicket(time, s).Ok?
    requires Threshold(s) >= 2 && Stock(s) >= Threshold(s)
    requires forall k | k in s.pendingOperations && s.pendingOperations[k].ticketSequence.None? ::
               Recovering(s, s.pendingOperations[k])
    ensures Progressing(RegisterUsedTicket(time, s).value.0)
  {
    hide Ticketed, RegisterUsedTicket, Stock, TicketsSound;
    UseCountsOne(time, s);
    var s' := RegisterUsedTicket(time, s).value.0;
    forall j | j in s'.pendingOperations && s'.pendingOperations[j].ticketSequence.None?
      ensures Recovering(s', s'.pendingOperations[j])
    {
      assert Recovering(s, s.pendingOperations[j]);
    }
  }

  /** Only one allocation is ever pending. */
  lemma OneAllocation(s: State, i: Sequence, j: Sequence)
    requires FlagsAgree(s) && i in s.pendingOperations && j in s.pendingOperations
    requires s.pendingOperations[i].operationType.AllocateTickets?
             && s.pendingOperations[j].operationType.AllocateTickets?
    ensures i == j && s.pendingTicketUpdate
  {
    var a := Allocations(s.pendingOperations);
    assert i in a && j in a;
    assert |a - {i}| == 0;
  }

  /** What remains to be shown for the recoveries still pending after a result. */
  lemma RecoveriesLeft(s: State, s': State, id: Sequence, grant: seq<Sequence>)
    requires FlagsAgree(s) && Progressing(s) && id in s.pendingOperations
    requires s'.pendingOperations == s.pendingOperations - {id} && Threshold(s') == Threshold(s)
    requires s'.availableTickets == s.availableTickets + grant
    requires !s.pendingOperations[id].operationType.AllocateTickets? ==> grant == []
    ensures forall k | k in s'.pendingOperations && s'.pendingOperations[k].ticketSequence.None? ::
              Recovering(s', s'.pendingOperations[k])
  {
    hide Ticketed, Stock, FlagsAgree;
    forall k | k in s'.pendingOperations && s'.pendingOperations[k].ticketSequence.None?
      ensures Recovering(s', s'.pendingOperations[k])
    {
      assert Recovering(s, s.pendingOperations[k]);
      if s.pendingOperations[id].operationType.AllocateTickets? {
        OneAllocation(s, k, id);
      }
    }
  }

  lemma TicketedCloses(s: State, op: Operation, opResult: Option<OperationResult>, result: TransactionResult,
                       hash: Option<string>, id: Sequence)
    requires Sound(s) && TicketsSound(s) && Progressing(s) && id in s.pendingOperations
    requires op == s.pendingOperations[id] && op.ticketSequence.Some? && !result.Invalid?
    requires HandleOperation(s, op, opResult, result, hash, id, op.ticketSequence).Ok?
    requires FreshGrant(s, Grant(op, opResult, result))
    ensures var s' := HandleOperation(s, op, opResult, result, hash, id, op.ticketSequence).value.state;
            && TicketsSound(s') && Threshold(s') >= 2 && Stock(s') >= Threshold(s')
            && forall k | k in s'.pendingOperations && s'.pendingOperations[k].ticketSequence.None? ::
                 Recovering(s', s'.pendingOperations[k])
  {
    hide HandleOperation, Sound, TicketsSound, OperationSound, FreshGrant;
    var s' := HandleOperation(s, op, opResult, result, hash, id, op.ticketSequence).value.state;
    SoundOperation(s, id);
    CloseTickets(s, op, opResult, result, hash, id, op.ticketSequence);
    CloseConserves(s, op, opResult, result, hash, id);
    SoundFlags(s);
    RecoveriesLeft(s, s', id, Grant(op, opResult, result));
    assert id in Ticketed(s.pendingOperations);
  }

  lemma SoundFlags(s: State)
    requires Sound(s)
    ensures FlagsAgree(s)
  {
  }

  lemma RecoveryCloses(s: State, op: Operation, opResult: Option<OperationResult>, result: TransactionResult,
                       hash: Option<string>, id: Sequence)
    requires Sound(s) && TicketsSound(s) && Progressing(s) && id in s.pendingOperations
    requires op == s.pendingOperations[id] && op.ticketSequence.None?
    requires HandleOperation(s, op, opResult, result, hash, id, None).Ok?
    requires FreshGrant(s, Grant(op, opResult, result))
    requires Grant(op, opResult, result) == [] || |Grant(op, opResult, result)| == op.operationType.number
    ensures Progressing(HandleOperation(s, op, opResult, result, hash, id, None).value.state)
  {
    hide HandleOperation, Sound, TicketsSound, OperationSound, FreshGrant;
    var s' := HandleOperation(s, op, opResult, result, hash, id, None).value.state;
    assert Recovering(s, op);
    SoundOperation(s, id);
    CloseTickets(s, op, opResult, result, hash, id, None);
    CloseConserves(s, op, opResult, result, hash, id);
    SoundFlags(s);
    RecoveriesLeft(s, s', id, Grant(op, opResult, result));
  }

  lemma EvidenceProgress(env: Env, s: State, sender: Addr, ev: Evidence)
    requires Sound(s) && TicketsSound(s) && Progressing(s)
    requires TakesEffect(env, s, SaveEvidence(sender, ev)) ==> TruthfulSequence(s, ev) && FullGrant(s, ev)
    requires DoSaveEvidence(env, s, sender, ev).Ok?
    ensures Progressing(DoSaveEvidence(env, s, sender, ev).value.state)
  {
    hide Sound, HandleOperation, RegisterUsedTicket, HandleEvidence, ReceiveTransfer, TicketsSound, Stock,
      ValidateBasic, FreshGrant, OperationSound, Progressing;
    var (s1, reached) := HandleEvidence(env.chain, s, sender, ev).value;
    VoteIsSound(env.chain, s, sender, ev);
    KeptTickets(s, s1);
    SameProgress(s, s1);
    var s' := DoSaveEvidence(env, s, sender, ev).value.state;
    if ev.XrplToCosmosTransfer? {
      SameProgress(s1, s');
    } else if reached {
      var id := SequenceOf(ev);
      var op := s1.pendingOperations[id];
      SameGrant(s, s1, ev, op);
      if op.ticketSequence.Some? {
        TicketedCloses(s1, op, ev.operationResult, ev.result, ev.txHash, id);
        UseProgress(env.time, HandleOperation(s1, op, ev.operationResult, ev.result, ev.txHash, id,
                                              ev.ticketSequence).value.state);
      } else {
        RecoveryCloses(s1, op, ev.operationResult, ev.result, ev.txHash, id);
      }
    }
  }

  lemma OpeningProgress(env: Env, s: State, msg: Msg)
    requires TicketsSound(s) && Progressing(s) && IsOpening(msg) && ExecuteOpening(env, s, msg).Ok?
    ensures Progressing(ExecuteOpening(env, s, msg).value.state)
  {
    hide DoRegisterXrplToken, DoRecoverTickets, DoRecoverXrplTokenRegistration, DoSendToXrpl, DoRotateKeys,
      TicketsSound, Progressing;
    var s' := ExecuteOpening(env, s, msg).value.state;
    match msg
    case RegisterXrplToken(_, issuer, currency, _, _, _, _) =>
      OpenProgress(env.time, s, s', TrustSet(issuer, currency, s.config.trustSetLimitAmount));
    case RecoverTickets(sender, account, number) => RecoverProgress(env.time, s, sender, account, number);
    case RecoverXrplTokenRegistration(_, issuer, currency) =>
      OpenProgress(env.time, s, s', TrustSet(issuer, currency, s.config.trustSetLimitAmount));
    case SendToXrpl(_, _, _, _) =>
      OpenProgress(env.time, s, s', s'.pendingOperations[s.availableTickets[0]].operationType);
    case RotateKeysMsg(_, relayers, threshold) =>
      OpenProgress(env.time, s, s', RotateKeys(relayers, threshold));
  }

  lemma SettingProgress(env: Env, s: State, msg: Msg)
    requires Progressing(s) && !IsOpening(msg) && !IsResolving(msg) && !msg.UpdateUsedTicketSequenceThreshold?
    requires ExecuteSetting(env, s, msg).Ok?
    ensures Progressing(ExecuteSetting(env, s, msg).value.state)
  {
    hide DoRegisterCosmosToken, AddSignature, DoUpdateXrplToken, DoUpdateCosmosToken, DoUpdateXrplBaseFee,
      DoClaimRefund, DoClaimRelayerFees, DoUpdateProhibitedXrplAddresses, DoHaltBridge, DoResumeBridge,
      DoSaveSignature, Progressing;
    SameProgress(s, ExecuteSetting(env, s, msg).value.state);
  }

  lemma CancelProgress(s: State, sender: Addr, id: Sequence)
    requires Sound(s) && TicketsSound(s) && Progressing(s) && DoCancelPendingOperation(s, sender, id).Ok?
    requires s.pendingOperations[id].ticketSequence.None?
    ensures Progressing(DoCancelPendingOperation(s, sender, id).value.state)
  {
    hide Sound, HandleOperation, TicketsSound, Progressing;
    var op := s.pendingOperations[id];
    RecoveryCloses(s, op, if op.operationType.AllocateTickets? then Some(TicketsAllocation(None)) else None,
                   Invalid, None, id);
  }

  lemma ProgressStep(env: Env, s: State, msg: Msg)
    requires Sound(s) && TicketsSound(s) && Progressing(s) && ProgressHypothesis(env, s, msg)
             && Execute(env, s, msg).Ok?
    ensures Progressing(Execute(env, s, msg).value.state)
  {
    hide ExecuteOpening, ExecuteSetting, DoSaveEvidence, Sound, TicketsSound, Progressing, TruthfulSequence, FullGrant,
      HandleEvidence, HandleOperation;
    if IsOpening(msg) {
      OpeningProgress(env, s, msg);
    } else if IsResolving(msg) {
      match msg
      case SaveEvidence(sender, ev) => EvidenceProgress(env, s, sender, ev);
      case CancelPendingOperation(sender, id) => CancelProgress(s, sender, id);
    } else {
      SettingProgress(env, s, msg);
    }
  }

  // ---------- the one-ticket state ----------

  /** Exactly one ticket and nothing pending. */
  predicate Stranded(s: State) { |s.availableTickets| == 1 && s.pendingOperations == map[] }

  /** No message whatever leads out of the one-ticket state: recovery and allocation both refuse. */
  lemma StrandedForEver(env: Env, s: State, msg: Msg)
    requires Stranded(s) && Execute(env, s, msg).Ok?
    ensures !IsOpening(msg) && Stranded(Execute(env, s, msg).value.state)
    ensures Execute(env, s, msg).value.state.availableTickets == s.availableTickets
  {
    hide ExecuteOpening, ExecuteSetting, ReceiveTransfer, HandleEvidence, HandleOperation;
    if IsOpening(msg) {
      NoOpening(env, s, msg);
    } else if IsResolving(msg) {
    } else {
      StrandedSetting(env, s, msg);
    }
  }

  lemma NoOpening(env: Env, s: State, msg: Msg)
    requires Stranded(s) && IsOpening(msg)
    ensures ExecuteOpening(env, s, msg).Err?
  {
    hide DoRegisterXrplToken, DoRecoverTickets, DoRecoverXrplTokenRegistration, DoSendToXrpl, DoRotateKeys, KeepsVotes,
      KeepsCosmosTokens, KeepsRefunds, KeepsConfig, KeepsFees;
  }

  lemma StrandedSetting(env: Env, s: State, msg: Msg)
    requires Stranded(s) && !IsOpening(msg) && !IsResolving(msg) && ExecuteSetting(env, s, msg).Ok?
    ensures Stranded(ExecuteSetting(env, s, msg).value.state)
    ensures ExecuteSetting(env, s, msg).value.state.availableTickets == s.availableTickets
  {
    hide DoRegisterCosmosToken, AddSignature, DoUpdateXrplToken, DoUpdateCosmosToken, DoUpdateXrplBaseFee,
      DoClaimRefund, DoClaimRelayerFees, DoUpdateUsedTicketSequenceThreshold, DoUpdateProhibitedXrplAddresses,
      DoHaltBridge, DoResumeBridge, DoSaveSignature;
    NothingStaysNothing(s.pendingOperations, ExecuteSetting(env, s, msg).value.state.pendingOperations);
  }

  lemma NothingStaysNothing(ops: OpMap, ops': OpMap)
    requires ops == map[] && SameWork(ops, ops')
    ensures ops' == map[]
  {
    forall k ensures k !in ops' { assert k in ops' <==> k in ops; }
  }
}
