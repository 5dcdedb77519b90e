/** No pending operation becomes unresolvable: in every sound state a well-formed result for any
    pending operation is accepted, halted or not. */
module Resolvability {
  import opened Types
  import opened Tickets
  import opened Relayers
  import opened Evidences
  import opened Operations
  import opened Handlers
  import opened Flags
  import opened TokenTables
  import opened Queue
  import opened Lifecycle
  import opened Soundness
  import opened TicketFlow
  import opened Solvency

  /** A result that names a pending operation by its own kind of sequence, and reports an outcome of
      the operation's own kind. */
  predicate WellFormedResult(s: State, ev: Evidence) {
    && ev.XrplTransactionResult?
    && ValidateBasic(ev).Ok?
    && SequenceOf(ev) in s.pendingOperations
    && TruthfulSequence(s, ev)
    && (s.pendingOperations[SequenceOf(ev)].operationType.AllocateTickets? ==> ev.operationResult.Some?)
  }

  /** The used-ticket counter would leave its 32 bits. */
  predicate CounterExhausted(s: State, ev: Evidence)
    requires WellFormedResult(s, ev)
  {
    && !ev.result.Invalid?
    && ev.ticketSequence.Some?
    && var grant := Grant(s.pendingOperations[SequenceOf(ev)], ev.operationResult, ev.result);
    && SaturatingSub(s.usedTickets, |grant|) >= U32_MAX
  }

  lemma ConfirmationSucceeds(s: State, op: Operation, opResult: Option<OperationResult>, result: TransactionResult,
                             hash: Option<string>, id: Sequence)
    requires Sound(s) && id in s.pendingOperations && op == s.pendingOperations[id]
    requires op.operationType.AllocateTickets? ==>
               opResult.Some? && (result.Accepted? ==> opResult.value.tickets.Some?)
    ensures ConfirmOperation(s, op, opResult, result, hash, id).Ok?
  {
    hide Sound, LockedCoin, LifecycleAgrees;
    if op.operationType.CosmosToXrplTransfer? {
      LockIsDefined(s, id);
    } else if op.operationType.TrustSet? {
      TokenIsRegistered(s, id);
    }
  }

  lemma TokenIsRegistered(s: State, id: Sequence)
    requires Sound(s) && id in s.pendingOperations && s.pendingOperations[id].operationType.TrustSet?
    ensures TrustKey(s.pendingOperations[id]) in s.xrplTokens
  {
    hide FlagsAgree, TablesSound, QueueSound;
  }

  lemma AcceptedGrantsTickets(ev: Evidence)
    requires ev.XrplTransactionResult? && ValidateBasic(ev).Ok? && ev.operationResult.Some? && ev.result.Accepted?
    ensures ev.operationResult.value.tickets.Some?
  {
  }

  /** The automatic allocation finds its ticket free, and no halt stops it: only the counter can. */
  lemma UseSucceeds(time: nat, s: State)
    requires TicketsSound(s)
    ensures RegisterUsedTicket(time, s).Ok? <==> s.usedTickets < U32_MAX
  {
  }

  lemma ResolutionSucceeds(env: Env, s: State, ev: Evidence, reached: bool)
    requires Sound(s) && TicketsSound(s) && WellFormedResult(s, ev)
    ensures ResolveOperation(env, s, ev, reached).Ok? <==> !(reached && CounterExhausted(s, ev))
  {
    hide Sound, TicketsSound, ConfirmOperation, RegisterUsedTicket, OperationSound, ValidateBasic, FreshGrant;
    var id := SequenceOf(ev);
    var op := s.pendingOperations[id];
    SoundOperation(s, id);
    TicketedUnlessAllocation(s, id, op, ev);
    if reached {
      if op.operationType.AllocateTickets? && ev.result.Accepted? { AcceptedGrantsTickets(ev); }
      ConfirmationSucceeds(s, op, ev.operationResult, ev.result, ev.txHash, id);
      SameGrant(s, s, ev, op);
      CloseConserves(s, op, ev.operationResult, ev.result, ev.txHash, id);
      CloseTickets(s, op, ev.operationResult, ev.result, ev.txHash, id, ev.ticketSequence);
      GrantFitsU32(s, Grant(op, ev.operationResult, ev.result));
      UseSucceeds(env.time, HandleOperation(s, op, ev.operationResult, ev.result, ev.txHash, id,
                                            ev.ticketSequence).value.state);
    }
  }

  lemma TicketedUnlessAllocation(s: State, id: Sequence, op: Operation, ev: Evidence)
    requires WellFormedResult(s, ev) && SequenceOf(ev) == id && op == s.pendingOperations[id]
             && OperationSound(s, id, op)
    ensures !op.operationType.AllocateTickets? ==> ev.accountSequence.None?
  {
  }

  lemma SameWellFormed(s: State, s': State, ev: Evidence)
    requires WellFormedResult(s, ev) && OnlyVotes(s, s')
    ensures WellFormedResult(s', ev) && CounterExhausted(s', ev) == CounterExhausted(s, ev)
  {
    hide ValidateBasic;
  }

  /** Any vote for a well-formed result succeeds, exactly unless it reaches the threshold and the
      used-ticket counter has no room for one more. Nothing is asked of the bridge state: a halted
      bridge resolves every kind of operation. */
  lemma ResultIsAccepted(env: Env, s: State, sender: Addr, ev: Evidence)
    requires Sound(s) && TicketsSound(s) && WellFormedResult(s, ev)
    requires IsRelayer(s.config.relayers, sender) && HandleEvidence(env.chain, s, sender, ev).Ok?
    ensures DoSaveEvidence(env, s, sender, ev).Ok? <==>
              !(TakesEffect(env, s, SaveEvidence(sender, ev)) && CounterExhausted(s, ev))
  {
    hide Sound, TicketsSound, HandleEvidence, ResolveOperation, WellFormedResult, CounterExhausted, IsRelayer;
    var (s1, reached) := HandleEvidence(env.chain, s, sender, ev).value;
    VoteIsSound(env.chain, s, sender, ev);
    KeptTickets(s, s1);
    SameWellFormed(s, s1, ev);
    ResolutionSucceeds(env, s1, ev, reached);
    FormIsBasic(s, ev);
  }

  lemma FormIsBasic(s: State, ev: Evidence)
    requires WellFormedResult(s, ev)
    ensures ValidateBasic(ev).Ok? && ev.XrplTransactionResult?
  {
  }

  /** The owner can cancel every pending operation, and only the owner, and only a pending one. */
  lemma CancelIsAccepted(s: State, sender: Addr, id: Sequence)
    requires Sound(s)
    ensures DoCancelPendingOperation(s, sender, id).Ok? <==> sender == s.owner && id in s.pendingOperations
  {
    hide Sound, ConfirmOperation;
    if id in s.pendingOperations {
      var op := s.pendingOperations[id];
      ConfirmationSucceeds(s, op, if op.operationType.AllocateTickets? then Some(TicketsAllocation(None)) else None,
                           Invalid, None, id);
    }
  }

  /** A result is refused when nothing is pending under its number, when it names an account sequence for
      an operation that runs on a ticket, and when it takes effect on an allocation without saying what
      came of it. */
  lemma ResultIsRefused(env: Env, s: State, sender: Addr, ev: Evidence)
    requires ev.XrplTransactionResult? && (ev.accountSequence.Some? || ev.ticketSequence.Some?)
    requires var id := if ev.accountSequence.Some? then ev.accountSequence.value else ev.ticketSequence.value;
             || id !in s.pendingOperations
             || (ev.accountSequence.Some? && (s.pendingOperations[id].operationType.TrustSet?
                                              || s.pendingOperations[id].operationType.CosmosToXrplTransfer?))
             || (s.pendingOperations[id].operationType.AllocateTickets? && ev.operationResult == None
                 && TakesEffect(env, s, SaveEvidence(sender, ev)))
    ensures Execute(env, s, SaveEvidence(sender, ev)).Err?
  {
    hide HandleEvidence, RegisterUsedTicket, IsRelayer, ValidateBasic, ExecuteOpening, ExecuteSetting;
  }
}
