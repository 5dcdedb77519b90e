/** The queue of pending XRPL operations: creation, lookup and signatures (operation.rs and
    signatures.rs). */
module Pending {
  import opened Types

  function CheckValidOperationIfHalt(s: State, typ: OperationType): Result<()> {
    if s.config.bridgeState.Halted? then
      match typ
      case RotateKeys(_, _) => if s.pendingRotateKeys then Ok(()) else Err(BridgeHalted)
      case AllocateTickets(_) => Ok(())
      case _ => Err(BridgeHalted)
    else Ok(())
  }

  /** A fresh operation: version 1, unsigned, at the configured base fee. */
  function NewOperation(time: nat, s: State, id: Sequence, ticket: Option<Sequence>, account: Option<Sequence>,
                        typ: OperationType): Operation
  {
    Operation(OperationId(time, id), 1, ticket, account, [], typ, s.config.xrplBaseFee)
  }

  function CreatePendingOperation(time: nat, s: State, ticket: Option<Sequence>, account: Option<Sequence>,
                                  typ: OperationType): Result<State>
  {
    var _ :- CheckValidOperationIfHalt(s, typ);
    if ticket.None? && account.None? then Err(Panic)
    else
      var id := if ticket.Some? then ticket.value else account.value;
      if id in s.pendingOperations then Err(PendingOperationAlreadyExists)
      else Ok(s.(pendingOperations :=
                   s.pendingOperations[id := NewOperation(time, s, id, ticket, account, typ)]))
  }

  /** Frame of a message that queues an operation under the first available ticket: what happens
      to the ticket deque, the queue and everything no such message touches. */
  predicate Opens(time: nat, s: State, s': State, typ: OperationType) {
    && |s.availableTickets| >= 2
    && var k := s.availableTickets[0];
    && k !in s.pendingOperations
    && s'.availableTickets == s.availableTickets[1..]
    && s'.pendingOperations == s.pendingOperations[k := NewOperation(time, s, k, Some(k), None, typ)]
    && s'.usedTickets == s.usedTickets && s'.pendingTicketUpdate == s.pendingTicketUpdate
    && KeepsVotes(s, s') && KeepsCosmosTokens(s, s') && KeepsRefunds(s, s')
  }

  /** Two queues that differ only in versions, fees and signatures. */
  ghost predicate SameWork(ops: map<Sequence, Operation>, ops': map<Sequence, Operation>) {
    && (forall k :: k in ops <==> k in ops')
    && forall k | k in ops ::
      && ops'[k].operationType == ops[k].operationType
      && ops'[k].id == ops[k].id
      && ops'[k].ticketSequence == ops[k].ticketSequence
      && ops'[k].accountSequence == ops[k].accountSequence
  }

  function CheckOperationExists(s: State, id: Sequence): Result<Operation> {
    if id in s.pendingOperations then Ok(s.pendingOperations[id]) else Err(PendingOperationNotFound)
  }

  predicate HasSigned(signatures: seq<Signature>, relayer: Addr) {
    exists g <- signatures :: g.relayer == relayer
  }

  function AddSignature(s: State, id: Sequence, version: nat, sender: Addr, signature: string): (r: Result<State>)
    ensures r.Ok? ==>
              && KeepsConfig(s, r.value) && KeepsVotes(s, r.value) && KeepsXrplTokens(s, r.value)
              && KeepsCosmosTokens(s, r.value) && KeepsTickets(s, r.value) && KeepsRefunds(s, r.value)
              && KeepsFees(s, r.value) && r.value.pendingRotateKeys == s.pendingRotateKeys
    ensures r.Ok? ==> SameWork(s.pendingOperations, r.value.pendingOperations)
  {
    if |signature| > MAX_SIGNATURE_LENGTH then Err(InvalidSignatureLength)
    else
      var op :- CheckOperationExists(s, id);
      if version != op.version then Err(OperationVersionMismatch)
      else
        var _ :- CheckValidOperationIfHalt(s, op.operationType);
        if HasSigned(op.signatures, sender) then Err(SignatureAlreadyProvided)
        else
          var op' := op.(signatures := op.signatures + [Signature(sender, signature)]);
          Ok(s.(pendingOperations := s.pendingOperations[id := op']))
  }

  /** A changed base fee bumps every version and drops every signature. */
  function Repriced(op: Operation, fee: nat): Operation {
    op.(version := op.version + 1, signatures := [], xrplBaseFee := fee)
  }
}
