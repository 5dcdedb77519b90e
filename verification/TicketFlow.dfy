/** Tickets over whole runs: no duplicates, no overlap with the queue, nothing lost. */
module TicketFlow {
  import opened Types
  import opened Pending
  import opened Tickets
  import opened Evidences
  import opened Operations
  import opened Handlers
  import opened Flags
  import opened Queue
  import opened Soundness

  predicate NoDuplicates(tickets: seq<Sequence>) {
    forall i, j | 0 <= i < j < |tickets| :: tickets[i] != tickets[j]
  }

  /** Available tickets have no duplicates and none of them is in flight. */
  predicate TicketsSound(s: State) {
    NoDuplicates(s.availableTickets) && forall t <- s.availableTickets :: t !in s.pendingOperations
  }

  function Ticketed(ops: OpMap): set<Sequence> { set k | k in ops && ops[k].ticketSequence.Some? }

  /** Available tickets, tickets in flight, and the counter of used ones. */
  function Stock(s: State): nat {
    |s.availableTickets| + |Ticketed(s.pendingOperations)| + s.usedTickets
  }

  // ---------- hypotheses on what the ledger reports ----------

  /** Granted tickets are new: no duplicates, not available, not in flight. */
  predicate FreshGrant(s: State, tickets: seq<Sequence>) {
    && NoDuplicates(tickets)
    && (forall t <- tickets :: t !in s.availableTickets && t !in s.pendingOperations)
    && |tickets| <= U32_MAX
  }

  /** A result names the same kind of sequence as its operation, and grants only fresh tickets. */
  predicate TruthfulSequence(s: State, ev: Evidence) {
    ev.XrplTransactionResult? && ValidateBasic(ev).Ok? && SequenceOf(ev) in s.pendingOperations ==>
      var op := s.pendingOperations[SequenceOf(ev)];
      && ev.ticketSequence == op.ticketSequence
      && (op.operationType.AllocateTickets? && ev.operationResult.Some? && ev.operationResult.value.tickets.Some? ==>
            FreshGrant(s, ev.operationResult.value.tickets.value))
  }

  /** The hypothesis on an accepted message: it binds the vote that reaches the threshold, no other. */
  predicate TicketHypothesis(env: Env, s: State, msg: Msg) {
    TakesEffect(env, s, msg) ==> TruthfulSequence(s, msg.evidence)
  }

  // ---------- steps ----------

  lemma TicketedInsert(ops: OpMap, k: Sequence, op: Operation)
    requires k !in ops
    ensures |Ticketed(ops[k := op])| == |Ticketed(ops)| + Count(op.ticketSequence.Some?)
  {
    assert Ticketed(ops[k := op]) == Ticketed(ops) + (if op.ticketSequence.Some? then {k} else {});
    assert k !in Ticketed(ops);
  }

  lemma TicketedRemove(ops: OpMap, k: Sequence)
    requires k in ops
    ensures |Ticketed(ops - {k})| == |Ticketed(ops)| - Count(ops[k].ticketSequence.Some?)
  {
    assert Ticketed(ops - {k}) == Ticketed(ops) - {k};
    assert k in Ticketed(ops) <==> ops[k].ticketSequence.Some?;
  }

  lemma TicketedSameWork(ops: OpMap, ops': OpMap)
    requires SameWork(ops, ops')
    ensures Ticketed(ops') == Ticketed(ops)
  {
    forall k ensures k in Ticketed(ops') <==> k in Ticketed(ops) {
      assert k in ops' <==> k in ops;
      assert k in ops ==> ops'[k].ticketSequence == ops[k].ticketSequence;
    }
  }

  lemma TakeFirst(s: State, s': State, op: Operation)
    requires TicketsSound(s) && s.availableTickets != [] && s.availableTickets[0] !in s.pendingOperations
    requires s'.availableTickets == s.availableTickets[1..] && op.ticketSequence.Some?
    requires s'.pendingOperations == s.pendingOperations[s.availableTickets[0] := op]
    ensures TicketsSound(s')
    ensures |s'.availableTickets| + |Ticketed(s'.pendingOperations)|
         == |s.availableTickets| + |Ticketed(s.pendingOperations)|
  {
    TicketedInsert(s.pendingOperations, s.availableTickets[0], op);
    var avail := s.availableTickets;
    assert forall i | 0 <= i < |avail| - 1 :: s'.availableTickets[i] == avail[i + 1];
    forall t | t in s'.availableTickets ensures t !in s'.pendingOperations {
      var i :| 0 <= i < |s'.availableTickets| && s'.availableTickets[i] == t;
      assert avail[i + 1] == t && avail[i + 1] != avail[0];
      assert t in avail;
    }
  }

  lemma KeptTickets(s: State, s': State)
    requires TicketsSound(s) && s'.availableTickets == s.availableTickets
    requires s'.usedTickets == s.usedTickets && SameWork(s.pendingOperations, s'.pendingOperations)
    ensures TicketsSound(s') && Stock(s') == Stock(s)
  {
    TicketedSameWork(s.pendingOperations, s'.pendingOperations);
  }

  lemma OpenKeepsStock(time: nat, s: State, s': State, typ: OperationType)
    requires TicketsSound(s) && Opens(time, s, s', typ)
    ensures TicketsSound(s') && Stock(s') == Stock(s)
  {
    hide TicketsSound, Ticketed, KeepsVotes, KeepsCosmosTokens, KeepsRefunds;
    TakeFirst(s, s', s'.pendingOperations[s.availableTickets[0]]);
  }

  lemma UseCountsOne(time: nat, s: State)
    requires TicketsSound(s) && RegisterUsedTicket(time, s).Ok?
    ensures TicketsSound(RegisterUsedTicket(time, s).value.0)
    ensures Stock(RegisterUsedTicket(time, s).value.0) == Stock(s) + 1
  {
    hide RegisterUsedTicket, TicketsSound, Ticketed;
    var s' := RegisterUsedTicket(time, s).value.0;
    if Reallocates(s) {
      TakeFirst(s, s', s'.pendingOperations[s.availableTickets[0]]);
    } else {
      KeptTickets(s, s'.(usedTickets := s.usedTickets));
      SameTicketParts(s'.(usedTickets := s.usedTickets), s');
    }
  }

  lemma SameTicketParts(s: State, s': State)
    requires TicketsSound(s) && s'.availableTickets == s.availableTickets && s'.pendingOperations == s.pendingOperations
    ensures TicketsSound(s')
  {
  }

  /** The tickets an accepted allocation grants. */
  function Grant(op: Operation, opResult: Option<OperationResult>, result: TransactionResult): seq<Sequence> {
    if op.operationType.AllocateTickets? && result.Accepted? && opResult.Some? && opResult.value.tickets.Some?
    then opResult.value.tickets.value else []
  }

  lemma ConfirmTickets(s: State, op: Operation, opResult: Option<OperationResult>, result: TransactionResult,
                       hash: Option<string>, id: Sequence)
    requires id in s.pendingOperations && op == s.pendingOperations[id]
    requires ConfirmOperation(s, op, opResult, result, hash, id).Ok?
    ensures var s' := ConfirmOperation(s, op, opResult, result, hash, id).value.state;
            var grant := Grant(op, opResult, result);
            && s'.pendingOperations == s.pendingOperations
            && s'.availableTickets == s.availableTickets + grant
            && s'.usedTickets == SaturatingSub(s.usedTickets, AsU32(|grant|))
            && s'.config.usedTicketSequenceThreshold == s.config.usedTicketSequenceThreshold
            && s'.pendingTicketUpdate == (s.pendingTicketUpdate && !op.operationType.AllocateTickets?)
  {
    hide ConfirmOperation, Confirms;
    if op.operationType.AllocateTickets? {
      AllocationTickets(s, op, opResult, result, hash, id);
    } else {
      ConfirmOperationFrame(s, op, opResult, result, hash, id);
      FrameTickets(s, ConfirmOperation(s, op, opResult, result, hash, id).value.state, op.operationType);
      assert s.availableTickets + [] == s.availableTickets;
    }
  }

  lemma AllocationTickets(s: State, op: Operation, opResult: Option<OperationResult>, result: TransactionResult,
                          hash: Option<string>, id: Sequence)
    requires id in s.pendingOperations && op == s.pendingOperations[id] && op.operationType.AllocateTickets?
    requires ConfirmOperation(s, op, opResult, result, hash, id).Ok?
    ensures var s' := ConfirmOperation(s, op, opResult, result, hash, id).value.state;
            var grant := Grant(op, opResult, result);
            && s'.pendingOperations == s.pendingOperations
            && s'.availableTickets == s.availableTickets + grant
            && s'.usedTickets == SaturatingSub(s.usedTickets, AsU32(|grant|))
            && s'.config == s.config && !s'.pendingTicketUpdate
  {
    assert s.availableTickets + [] == s.availableTickets;
  }

  lemma FrameTickets(s: State, s': State, typ: OperationType)
    requires Confirms(s, s', typ)
    ensures s'.pendingOperations == s.pendingOperations
    ensures !typ.AllocateTickets? ==> KeepsTickets(s, s')
    ensures s'.config.usedTicketSequenceThreshold == s.config.usedTicketSequenceThreshold
  {
  }

  /** What a result does to the deque: a grant is appended, an unused ticket goes back to the front. */
  lemma CloseTickets(s: State, op: Operation, opResult: Option<OperationResult>, result: TransactionResult,
                     hash: Option<string>, id: Sequence, ticket: Option<Sequence>)
    requires id in s.pendingOperations && op == s.pendingOperations[id]
    requires HandleOperation(s, op, opResult, result, hash, id, ticket).Ok?
    ensures var s' := HandleOperation(s, op, opResult, result, hash, id, ticket).value.state;
            var grant := Grant(op, opResult, result);
            && s'.pendingOperations == s.pendingOperations - {id}
            && s'.availableTickets == (if result.Invalid? && ticket.Some? then [ticket.value] + s.availableTickets
                                       else s.availableTickets + grant)
            && s'.usedTickets == SaturatingSub(s.usedTickets, AsU32(|grant|))
            && s'.config.usedTicketSequenceThreshold == s.config.usedTicketSequenceThreshold
            && s'.pendingTicketUpdate == (s.pendingTicketUpdate && !op.operationType.AllocateTickets?)
  {
    hide ConfirmOperation;
    ConfirmTickets(s, op, opResult, result, hash, id);
    if result.Invalid? {
      assert s.availableTickets + [] == s.availableTickets;
    }
  }

  lemma CloseConserves(s: State, op: Operation, opResult: Option<OperationResult>, result: TransactionResult,
                       hash: Option<string>, id: Sequence)
    requires TicketsSound(s) && id in s.pendingOperations && op == s.pendingOperations[id] && OperationSound(s, id, op)
    requires HandleOperation(s, op, opResult, result, hash, id, op.ticketSequence).Ok?
    requires FreshGrant(s, Grant(op, opResult, result))
    ensures var s' := HandleOperation(s, op, opResult, result, hash, id, op.ticketSequence).value.state;
            && TicketsSound(s')
            && Stock(s') + Count(!result.Invalid? && op.ticketSequence.Some?)
            == Stock(s) + SaturatingSub(|Grant(op, opResult, result)|, s.usedTickets)
  {
    hide HandleOperation, Ticketed, OperationSound, TicketsSound, FreshGrant;
    var s' := HandleOperation(s, op, opResult, result, hash, id, op.ticketSequence).value.state;
    var grant := Grant(op, opResult, result);
    CloseTickets(s, op, opResult, result, hash, id, op.ticketSequence);
    TicketedRemove(s.pendingOperations, id);
    TicketIsItsKey(s, id, op);
    GrantFitsU32(s, grant);
    if result.Invalid? && op.ticketSequence.Some? {
      TicketReturns(s, s', id);
    } else {
      TicketsArrive(s, s', id, grant);
    }
  }

  lemma GrantFitsU32(s: State, grant: seq<Sequence>)
    requires FreshGrant(s, grant)
    ensures AsU32(|grant|) == |grant|
  {
  }

  lemma TicketReturns(s: State, s': State, id: Sequence)
    requires TicketsSound(s) && id in s.pendingOperations
    requires s'.availableTickets == [id] + s.availableTickets && s'.pendingOperations == s.pendingOperations - {id}
    ensures TicketsSound(s')
  {
    var avail := s.availableTickets;
    assert forall i | 0 < i < |s'.availableTickets| :: s'.availableTickets[i] == avail[i - 1] && avail[i - 1] in avail;
  }

  lemma TicketsArrive(s: State, s': State, id: Sequence, grant: seq<Sequence>)
    requires TicketsSound(s) && FreshGrant(s, grant)
    requires s'.availableTickets == s.availableTickets + grant && s'.pendingOperations == s.pendingOperations - {id}
    ensures TicketsSound(s')
  {
    var avail := s.availableTickets;
    assert forall i | 0 <= i < |avail| :: s'.availableTickets[i] == avail[i] && avail[i] in avail;
    assert forall i | |avail| <= i < |s'.availableTickets| ::
        s'.availableTickets[i] == grant[i - |avail|] && grant[i - |avail|] in grant;
  }

  lemma TicketIsItsKey(s: State, id: Sequence, op: Operation)
    requires OperationSound(s, id, op)
    ensures op.ticketSequence.Some? ==> op.ticketSequence == Some(id)
    ensures op.ticketSequence.None? ==> op.accountSequence == Some(id) && op.operationType.AllocateTickets?
  {
  }

  // ---------- conservation over a message ----------

  /** The message is an evidence whose vote reaches the threshold. */
  predicate TakesEffect(env: Env, s: State, msg: Msg) {
    && msg.SaveEvidence?
    && var vote := HandleEvidence(env.chain, s, msg.sender, msg.evidence);
    && vote.Ok? && vote.value.1
  }

  /** The tickets a message adds to the stock: those granted beyond the ones counted as used. */
  function Surplus(env: Env, s: State, msg: Msg): nat {
    if TakesEffect(env, s, msg) && msg.evidence.XrplTransactionResult? && ValidateBasic(msg.evidence).Ok?
       && SequenceOf(msg.evidence) in s.pendingOperations
    then
      var op := s.pendingOperations[SequenceOf(msg.evidence)];
      SaturatingSub(|Grant(op, msg.evidence.operationResult, msg.evidence.result)|, s.usedTickets)
    else 0
  }

  lemma EvidenceConserves(env: Env, s: State, sender: Addr, ev: Evidence)
    requires Sound(s) && TicketsSound(s) && DoSaveEvidence(env, s, sender, ev).Ok?
    requires TakesEffect(env, s, SaveEvidence(sender, ev)) ==> TruthfulSequence(s, ev)
    ensures TicketsSound(DoSaveEvidence(env, s, sender, ev).value.state)
    ensures Stock(DoSaveEvidence(env, s, sender, ev).value.state)
            == Stock(s) + Surplus(env, s, SaveEvidence(sender, ev))
  {
    hide Sound, HandleOperation, RegisterUsedTicket, HandleEvidence, ReceiveTransfer, TicketsSound, Stock,
      ValidateBasic, FreshGrant, OperationSound;
    var (s1, reached) := HandleEvidence(env.chain, s, sender, ev).value;
    KeptTickets(s, s1);
    var s' := DoSaveEvidence(env, s, sender, ev).value.state;
    if ev.XrplToCosmosTransfer? {
      KeptTickets(s1, s');
    } else if reached {
      var id := SequenceOf(ev);
      var op := s1.pendingOperations[id];
      SoundOperation(s, id);
      SameGrant(s, s1, ev, op);
      SameOperation(s, s1, id, op);
      CloseConserves(s1, op, ev.operationResult, ev.result, ev.txHash, id);
      var o := HandleOperation(s1, op, ev.operationResult, ev.result, ev.txHash, id, ev.ticketSequence).value;
      if !ev.result.Invalid? && ev.ticketSequence.Some? {
        UseCountsOne(env.time, o.state);
      }
    }
  }

  lemma SoundOperation(s: State, id: Sequence)
    requires Sound(s) && id in s.pendingOperations
    ensures OperationSound(s, id, s.pendingOperations[id])
  {
    hide FlagsAgree, OperationSound;
  }

  lemma SameOperation(s: State, s': State, id: Sequence, op: Operation)
    requires OperationSound(s, id, op) && OnlyVotes(s, s')
    ensures OperationSound(s', id, op)
  {
    if op.operationType.CosmosToXrplTransfer? {
      SameTablesSameTransfer(s, s', op.operationType);
    }
  }

  lemma SameGrant(s: State, s': State, ev: Evidence, op: Operation)
    requires TruthfulSequence(s, ev) && ev.XrplTransactionResult? && ValidateBasic(ev).Ok?
    requires SequenceOf(ev) in s.pendingOperations && op == s.pendingOperations[SequenceOf(ev)] && OnlyVotes(s, s')
    ensures FreshGrant(s', Grant(op, ev.operationResult, ev.result))
  {
    hide ValidateBasic;
  }

  lemma OpeningConserves(env: Env, s: State, msg: Msg)
    requires TicketsSound(s) && IsOpening(msg) && ExecuteOpening(env, s, msg).Ok?
    ensures TicketsSound(ExecuteOpening(env, s, msg).value.state)
    ensures Stock(ExecuteOpening(env, s, msg).value.state) == Stock(s)
  {
    hide DoRegisterXrplToken, DoRecoverTickets, DoRecoverXrplTokenRegistration, DoSendToXrpl, DoRotateKeys,
      TicketsSound, Stock;
    var s' := ExecuteOpening(env, s, msg).value.state;
    match msg
    case RegisterXrplToken(_, issuer, currency, _, _, _, _) =>
      OpenKeepsStock(env.time, s, s', TrustSet(issuer, currency, s.config.trustSetLimitAmount));
    case RecoverTickets(_, account, number) =>
      AccountKeepsStock(s, s', account, s'.pendingOperations[account]);
    case RecoverXrplTokenRegistration(_, issuer, currency) =>
      OpenKeepsStock(env.time, s, s', TrustSet(issuer, currency, s.config.trustSetLimitAmount));
    case SendToXrpl(_, _, _, _) =>
      OpenKeepsStock(env.time, s, s', s'.pendingOperations[s.availableTickets[0]].operationType);
    case RotateKeysMsg(_, relayers, threshold) =>
      OpenKeepsStock(env.time, s, s', RotateKeys(relayers, threshold));
  }

  lemma AccountKeepsStock(s: State, s': State, account: Sequence, op: Operation)
    requires s.availableTickets == [] && s'.availableTickets == [] && s'.usedTickets == s.usedTickets
    requires account !in s.pendingOperations && op.ticketSequence.None?
    requires s'.pendingOperations == s.pendingOperations[account := op]
    ensures TicketsSound(s') && Stock(s') == Stock(s)
  {
    TicketedInsert(s.pendingOperations, account, op);
  }

  lemma SettingConserves(env: Env, s: State, msg: Msg)
    requires TicketsSound(s) && !IsOpening(msg) && !IsResolving(msg) && ExecuteSetting(env, s, msg).Ok?
    ensures TicketsSound(ExecuteSetting(env, s, msg).value.state)
    ensures Stock(ExecuteSetting(env, s, msg).value.state) == Stock(s)
  {
    hide DoRegisterCosmosToken, AddSignature, DoUpdateXrplToken, DoUpdateCosmosToken, DoUpdateXrplBaseFee,
      DoClaimRefund, DoClaimRelayerFees, DoUpdateUsedTicketSequenceThreshold, DoUpdateProhibitedXrplAddresses,
      DoHaltBridge, DoResumeBridge, DoSaveSignature, TicketsSound, Stock;
    KeptTickets(s, ExecuteSetting(env, s, msg).value.state);
  }

  lemma CancelConserves(s: State, sender: Addr, id: Sequence)
    requires Sound(s) && TicketsSound(s) && DoCancelPendingOperation(s, sender, id).Ok?
    ensures TicketsSound(DoCancelPendingOperation(s, sender, id).value.state)
    ensures Stock(DoCancelPendingOperation(s, sender, id).value.state) == Stock(s)
  {
    hide Sound, HandleOperation, TicketsSound, Stock, OperationSound;
    var op := s.pendingOperations[id];
    SoundOperation(s, id);
    CloseConserves(s, op, if op.operationType.AllocateTickets? then Some(TicketsAllocation(None)) else None,
                   Invalid, None, id);
  }

  /** Ticket conservation: available tickets stay duplicate-free and apart from the queue, and the
      stock never shrinks; it grows only by tickets granted beyond the used count. */
  lemma TicketConservation(env: Env, s: State, msg: Msg)
    requires Sound(s) && TicketsSound(s) && TicketHypothesis(env, s, msg) && Execute(env, s, msg).Ok?
    ensures TicketsSound(Execute(env, s, msg).value.state)
    ensures Stock(Execute(env, s, msg).value.state) == Stock(s) + Surplus(env, s, msg)
  {
    hide ExecuteOpening, ExecuteSetting, DoSaveEvidence, DoCancelPendingOperation, Sound, TicketsSound, Stock,
      TruthfulSequence, HandleEvidence;
    if IsOpening(msg) {
      OpeningConserves(env, s, msg);
    } else if IsResolving(msg) {
      match msg
      case SaveEvidence(sender, ev) => EvidenceConserves(env, s, sender, ev);
      case CancelPendingOperation(sender, id) => CancelConserves(s, sender, id);
    } else {
      SettingConserves(env, s, msg);
    }
  }
}
