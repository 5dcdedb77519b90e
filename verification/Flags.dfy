/** The lifecycle flags agree with the queue of pending operations in every run. */
module Flags {
  import opened Types
  import opened Tokens
  import opened Pending
  import opened Tickets
  import opened Operations
  import opened Handlers

  type OpMap = map<Sequence, Operation>

  function Allocations(ops: OpMap): set<Sequence> { set k | k in ops && ops[k].operationType.AllocateTickets? }
  function Rotations(ops: OpMap): set<Sequence> { set k | k in ops && ops[k].operationType.RotateKeys? }
  predicate IsTrustSetFor(op: Operation, key: string) {
    op.operationType.TrustSet? && BuildXrplTokenKey(op.operationType.issuer, op.operationType.currency) == key
  }
  function TrustSets(ops: OpMap, key: string): set<Sequence> { set k | k in ops && IsTrustSetFor(ops[k], key) }

  function Count(flag: bool): nat { if flag then 1 else 0 }

  /** The ticket-update flag is up exactly when exactly one ticket allocation is pending, the
      rotate flag exactly when exactly one rotation is, and then the bridge is halted. */
  predicate FlagsAgree(s: State) {
    && |Allocations(s.pendingOperations)| == Count(s.pendingTicketUpdate)
    && |Rotations(s.pendingOperations)| == Count(s.pendingRotateKeys)
    && (s.pendingRotateKeys ==> s.config.bridgeState.Halted?)
  }

  lemma SameWorkSameSets(ops: OpMap, ops': OpMap)
    requires SameWork(ops, ops')
    ensures Allocations(ops') == Allocations(ops) && Rotations(ops') == Rotations(ops)
  {
    forall k
      ensures k in Allocations(ops') <==> k in Allocations(ops)
      ensures k in Rotations(ops') <==> k in Rotations(ops)
    {
      assert k in ops' <==> k in ops;
      assert k in ops ==> ops'[k].operationType == ops[k].operationType;
    }
  }

  lemma InsertedSets(ops: OpMap, k: Sequence, op: Operation)
    requires k !in ops
    ensures Allocations(ops[k := op]) == Allocations(ops) + (if op.operationType.AllocateTickets? then {k} else {})
    ensures Rotations(ops[k := op]) == Rotations(ops) + (if op.operationType.RotateKeys? then {k} else {})
    ensures k !in Allocations(ops) && k !in Rotations(ops)
  {
  }

  lemma RemovedSets(ops: OpMap, k: Sequence)
    ensures Allocations(ops - {k}) == Allocations(ops) - {k}
    ensures Rotations(ops - {k}) == Rotations(ops) - {k}
  {
  }

  lemma SameFlags(s: State, s': State)
    requires FlagsAgree(s)
    requires SameWork(s.pendingOperations, s'.pendingOperations)
    requires s'.pendingTicketUpdate == s.pendingTicketUpdate && s'.pendingRotateKeys == s.pendingRotateKeys
    requires s.pendingRotateKeys ==> s'.config.bridgeState.Halted?
    ensures FlagsAgree(s')
  {
    SameWorkSameSets(s.pendingOperations, s'.pendingOperations);
  }

  lemma OpenKeepsFlags(time: nat, s: State, s': State, typ: OperationType)
    requires FlagsAgree(s) && Opens(time, s, s', typ) && !typ.AllocateTickets?
    requires if typ.RotateKeys? then !s.pendingRotateKeys && s'.pendingRotateKeys && s'.config.bridgeState.Halted?
             else s'.pendingRotateKeys == s.pendingRotateKeys && s'.config == s.config
    ensures FlagsAgree(s')
  {
    var k := s.availableTickets[0];
    InsertedSets(s.pendingOperations, k, s'.pendingOperations[k]);
  }

  lemma AllocationKeepsFlags(s: State, s': State, k: Sequence, op: Operation)
    requires FlagsAgree(s) && !s.pendingTicketUpdate && op.operationType.AllocateTickets? && k !in s.pendingOperations
    requires s'.pendingOperations == s.pendingOperations[k := op] && s'.pendingTicketUpdate
    requires s'.pendingRotateKeys == s.pendingRotateKeys && s'.config == s.config
    ensures FlagsAgree(s')
  {
    InsertedSets(s.pendingOperations, k, op);
  }

  lemma RegisterUsedKeepsFlags(time: nat, s: State)
    requires FlagsAgree(s) && RegisterUsedTicket(time, s).Ok?
    ensures FlagsAgree(RegisterUsedTicket(time, s).value.0)
  {
    hide FlagsAgree, RegisterUsedTicket;
    var s' := RegisterUsedTicket(time, s).value.0;
    if Reallocates(s) {
      AllocationKeepsFlags(s, s', s.availableTickets[0], s'.pendingOperations[s.availableTickets[0]]);
    } else {
      FlagsHaltWhileRotating(s);
      SameFlags(s, s');
    }
  }

  lemma FlagsHaltWhileRotating(s: State)
    requires FlagsAgree(s)
    ensures s.pendingRotateKeys ==> s.config.bridgeState.Halted?
  {
  }

  lemma CloseKeepsFlags(s: State, s1: State, s': State, id: Sequence)
    requires FlagsAgree(s) && id in s.pendingOperations
    requires Confirms(s, s1, s.pendingOperations[id].operationType)
    requires s'.pendingOperations == s1.pendingOperations - {id} && s'.config == s1.config
    requires s'.pendingTicketUpdate == s1.pendingTicketUpdate && s'.pendingRotateKeys == s1.pendingRotateKeys
    ensures FlagsAgree(s')
  {
    var ops := s.pendingOperations;
    RemovedSets(ops, id);
    assert ops[id].operationType.AllocateTickets? <==> id in Allocations(ops);
    assert ops[id].operationType.RotateKeys? <==> id in Rotations(ops);
  }

  lemma HandleOperationKeepsFlags(s: State, op: Operation, opResult: Option<OperationResult>,
                                  result: TransactionResult, hash: Option<string>, id: Sequence,
                                  ticket: Option<Sequence>)
    requires FlagsAgree(s) && id in s.pendingOperations && op == s.pendingOperations[id]
    requires HandleOperation(s, op, opResult, result, hash, id, ticket).Ok?
    ensures FlagsAgree(HandleOperation(s, op, opResult, result, hash, id, ticket).value.state)
  {
    hide FlagsAgree, ConfirmOperation, Confirms;
    ConfirmOperationFrame(s, op, opResult, result, hash, id);
    CloseKeepsFlags(s, ConfirmOperation(s, op, opResult, result, hash, id).value.state,
                    HandleOperation(s, op, opResult, result, hash, id, ticket).value.state, id);
  }

  lemma OpeningKeepsFlags(env: Env, s: State, msg: Msg)
    requires FlagsAgree(s) && IsOpening(msg) && ExecuteOpening(env, s, msg).Ok?
    ensures FlagsAgree(ExecuteOpening(env, s, msg).value.state)
  {
    hide DoRegisterXrplToken, DoRecoverTickets, DoRecoverXrplTokenRegistration, DoSendToXrpl, DoRotateKeys, FlagsAgree;
    var s' := ExecuteOpening(env, s, msg).value.state;
    match msg
    case RegisterXrplToken(_, issuer, currency, _, _, _, _) =>
      OpenKeepsFlags(env.time, s, s', TrustSet(issuer, currency, s.config.trustSetLimitAmount));
    case RecoverTickets(_, account, number) =>
      AllocationKeepsFlags(s, s', account, NewOperation(env.time, s, account, None, Some(account),
        AllocateTickets(if number.Some? then number.value else s.usedTickets)));
    case RecoverXrplTokenRegistration(_, issuer, currency) =>
      OpenKeepsFlags(env.time, s, s', TrustSet(issuer, currency, s.config.trustSetLimitAmount));
    case SendToXrpl(_, _, _, _) =>
      OpenKeepsFlags(env.time, s, s', s'.pendingOperations[s.availableTickets[0]].operationType);
    case RotateKeysMsg(_, relayers, threshold) =>
      OpenKeepsFlags(env.time, s, s', RotateKeys(relayers, threshold));
  }

  lemma SettingKeepsFlags(env: Env, s: State, msg: Msg)
    requires FlagsAgree(s) && !IsOpening(msg) && !IsResolving(msg) && ExecuteSetting(env, s, msg).Ok?
    ensures FlagsAgree(ExecuteSetting(env, s, msg).value.state)
  {
    hide DoRegisterCosmosToken, AddSignature, DoUpdateXrplToken, DoUpdateCosmosToken, DoUpdateXrplBaseFee,
      DoClaimRefund, DoClaimRelayerFees, DoUpdateUsedTicketSequenceThreshold, DoUpdateProhibitedXrplAddresses,
      DoHaltBridge, DoResumeBridge, DoSaveSignature, FlagsAgree;
    FlagsHaltWhileRotating(s);
    SameFlags(s, ExecuteSetting(env, s, msg).value.state);
  }
}
