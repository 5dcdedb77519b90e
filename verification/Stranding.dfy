/** Exactly when the bridge is stranded on one ticket. */
module Stranding {
  import opened Types
  import opened Pending
  import opened Tickets
  import Relayers
  import opened Evidences
  import opened Operations
  import opened Handlers
  import opened Flags
  import opened Soundness
  import opened TicketFlow
  import opened TicketProgress
  import opened World
  import opened Runs

  /** Cancelling the only pending operation leaves one ticket: its own, or the only one there is. */
  predicate CancelStrands(s: State, id: Sequence) {
    && s.pendingOperations.Keys == {id}
    && |s.availableTickets| == (if s.pendingOperations[id].ticketSequence.Some? then 0 else 1)
  }

  /** A result of the only pending operation leaves one ticket, counting its grant and its own ticket if
      that comes back, and no automatic allocation takes it. */
  predicate ResultStrands(s: State, ev: Evidence)
    requires ev.XrplTransactionResult? && (ev.accountSequence.Some? || ev.ticketSequence.Some?)
  {
    var id := SequenceOf(ev);
    && s.pendingOperations.Keys == {id}
    && var grant := |Grant(s.pendingOperations[id], ev.operationResult, ev.result)|;
    && |s.availableTickets| + grant + Count(ev.result.Invalid? && ev.ticketSequence.Some?) == 1
    && (ev.ticketSequence.Some? && !ev.result.Invalid? ==>
          SaturatingSub(s.usedTickets, AsU32(grant)) + 1 < Threshold(s))
  }

  /** The message strands the bridge. */
  predicate StrandingMove(env: Env, s: State, msg: Msg) {
    || (msg.CancelPendingOperation? && CancelStrands(s, msg.operationId))
    || (TakesEffect(env, s, msg) && msg.evidence.XrplTransactionResult? && ValidateBasic(msg.evidence).Ok?
        && ResultStrands(s, msg.evidence))
  }

  // ---------- one message ----------

  lemma OneLeft(ops: OpMap, id: Sequence)
    requires id in ops
    ensures ops - {id} == map[] <==> ops.Keys == {id}
  {
    if ops - {id} == map[] {
      forall k | k in ops ensures k == id { assert k in ops - {id} <==> k != id; }
    }
  }

  lemma CloseStrands(s: State, op: Operation, opResult: Option<OperationResult>, result: TransactionResult,
                     hash: Option<string>, id: Sequence, ticket: Option<Sequence>)
    requires id in s.pendingOperations && op == s.pendingOperations[id]
    requires HandleOperation(s, op, opResult, result, hash, id, ticket).Ok?
    ensures Stranded(HandleOperation(s, op, opResult, result, hash, id, ticket).value.state) <==>
              && s.pendingOperations.Keys == {id}
              && |s.availableTickets| + |Grant(op, opResult, result)| + Count(result.Invalid? && ticket.Some?) == 1
  {
    hide HandleOperation;
    CloseTickets(s, op, opResult, result, hash, id, ticket);
    OneLeft(s.pendingOperations, id);
  }

  /** After a used ticket the bridge is stranded exactly if it was before, and no allocation follows. */
  lemma UseStrands(time: nat, s: State)
    requires FlagsAgree(s) && RegisterUsedTicket(time, s).Ok?
    ensures Stranded(RegisterUsedTicket(time, s).value.0) <==> Stranded(s) && s.usedTickets + 1 < Threshold(s)
  {
    hide RegisterUsedTicket, FlagsAgree;
    var s' := RegisterUsedTicket(time, s).value.0;
    if Reallocates(s) {
      assert s.availableTickets[0] in s'.pendingOperations;
    }
    if s.pendingOperations == map[] { NoFlagWithoutWork(s); }
  }

  lemma NoFlagWithoutWork(s: State)
    requires FlagsAgree(s) && s.pendingOperations == map[]
    ensures !s.pendingTicketUpdate
  {
    assert Allocations(s.pendingOperations) == {};
  }

  lemma ResolveStrands(env: Env, s: State, ev: Evidence)
    requires Sound(s) && ev.XrplTransactionResult? && (ev.accountSequence.Some? || ev.ticketSequence.Some?)
    requires ResolveOperation(env, s, ev, true).Ok?
    ensures Stranded(ResolveOperation(env, s, ev, true).value.state) <==> ResultStrands(s, ev)
  {
    hide Sound, HandleOperation, RegisterUsedTicket, Stranded, FlagsAgree;
    var id := SequenceOf(ev);
    var op := s.pendingOperations[id];
    CloseStrands(s, op, ev.operationResult, ev.result, ev.txHash, id, ev.ticketSequence);
    CloseTickets(s, op, ev.operationResult, ev.result, ev.txHash, id, ev.ticketSequence);
    CloseIsSound(s, op, ev.operationResult, ev.result, ev.txHash, id, ev.ticketSequence);
    var o := HandleOperation(s, op, ev.operationResult, ev.result, ev.txHash, id, ev.ticketSequence).value;
    SoundFlags(o.state);
    if !ev.result.Invalid? && ev.ticketSequence.Some? {
      UseStrands(env.time, o.state);
    }
  }

  lemma SameStranded(s: State, s': State)
    requires s'.pendingOperations == s.pendingOperations && s'.availableTickets == s.availableTickets
    ensures Stranded(s') == Stranded(s)
  {
  }

  lemma EvidenceStrands(env: Env, s: State, sender: Addr, ev: Evidence)
    requires Sound(s) && DoSaveEvidence(env, s, sender, ev).Ok?
    ensures Stranded(DoSaveEvidence(env, s, sender, ev).value.state) <==>
              Stranded(s) || StrandingMove(env, s, SaveEvidence(sender, ev))
  {
    hide Sound, ReceiveTransfer, HandleOperation, RegisterUsedTicket, HandleEvidence, Relayers.IsRelayer,
      ValidateBasic;
    var (s1, reached) := HandleEvidence(env.chain, s, sender, ev).value;
    SameStranded(s, s1);
    if ev.XrplToCosmosTransfer? {
      SameStranded(s1, DoSaveEvidence(env, s, sender, ev).value.state);
    } else if reached {
      VoteIsSound(env.chain, s, sender, ev);
      ResolveStrands(env, s1, ev);
    }
  }

  lemma OpeningStrands(env: Env, s: State, msg: Msg)
    requires IsOpening(msg) && ExecuteOpening(env, s, msg).Ok?
    ensures !Stranded(ExecuteOpening(env, s, msg).value.state) && !Stranded(s)
  {
    hide DoRegisterXrplToken, DoRecoverTickets, DoRecoverXrplTokenRegistration, DoSendToXrpl, DoRotateKeys, KeepsVotes,
      KeepsCosmosTokens, KeepsRefunds, KeepsConfig, KeepsFees;
    var s' := ExecuteOpening(env, s, msg).value.state;
    assert s'.pendingOperations != map[] by {
      if msg.RecoverTickets? {
        assert msg.accountSequence in s'.pendingOperations;
      } else {
        assert s.availableTickets[0] in s'.pendingOperations;
      }
    }
    if Stranded(s) { NoOpening(env, s, msg); }
  }

  lemma SettingStrands(env: Env, s: State, msg: Msg)
    requires !IsOpening(msg) && !IsResolving(msg) && ExecuteSetting(env, s, msg).Ok?
    ensures Stranded(ExecuteSetting(env, s, msg).value.state) == Stranded(s)
  {
    hide DoRegisterCosmosToken, AddSignature, DoUpdateXrplToken, DoUpdateCosmosToken, DoUpdateXrplBaseFee,
      DoClaimRefund, DoClaimRelayerFees, DoUpdateUsedTicketSequenceThreshold, DoUpdateProhibitedXrplAddresses,
      DoHaltBridge, DoResumeBridge, DoSaveSignature, SameWork;
    SameEmptiness(s.pendingOperations, ExecuteSetting(env, s, msg).value.state.pendingOperations);
  }

  lemma SameEmptiness(ops: OpMap, ops': OpMap)
    requires SameWork(ops, ops')
    ensures ops' == map[] <==> ops == map[]
  {
    if ops == map[] {
      forall k ensures k !in ops' { assert k in ops' <==> k in ops; }
    }
    if ops' == map[] {
      forall k ensures k !in ops { assert k in ops' <==> k in ops; }
    }
  }

  /** Exactly the stranding moves strand the bridge, and nothing frees it. */
  lemma StrandsIff(env: Env, s: State, msg: Msg)
    requires Sound(s) && Execute(env, s, msg).Ok?
    ensures Stranded(Execute(env, s, msg).value.state) <==> Stranded(s) || StrandingMove(env, s, msg)
  {
    hide Sound, ExecuteOpening, ExecuteSetting, DoSaveEvidence, HandleOperation, HandleEvidence, ValidateBasic,
      ResultStrands;
    if IsOpening(msg) {
      OpeningStrands(env, s, msg);
    } else if IsResolving(msg) {
      match msg
      case SaveEvidence(sender, ev) => EvidenceStrands(env, s, sender, ev);
      case CancelPendingOperation(_, id) =>
        var op := s.pendingOperations[id];
        CloseStrands(s, op, if op.operationType.AllocateTickets? then Some(TicketsAllocation(None)) else None,
                     Invalid, None, id, op.ticketSequence);
    } else {
      SettingStrands(env, s, msg);
    }
  }

  /** Whatever operation holds the last ticket, if it is the only one pending, cancelling it or a quorum
      reporting it invalid strands the bridge. */
  lemma LastTicketStrands(env: Env, s: State, msg: Msg, k: Sequence)
    requires Sound(s) && Execute(env, s, msg).Ok?
    requires s.availableTickets == [] && s.pendingOperations.Keys == {k} && s.pendingOperations[k].ticketSequence.Some?
    requires || (msg.CancelPendingOperation? && msg.operationId == k)
             || (TakesEffect(env, s, msg) && msg.evidence.XrplTransactionResult? && ValidateBasic(msg.evidence).Ok?
                 && msg.evidence.result.Invalid? && msg.evidence.ticketSequence == Some(k))
    ensures Stranded(Execute(env, s, msg).value.state)
  {
    hide Sound, Execute, HandleEvidence, Stranded;
    StrandsIff(env, s, msg);
  }

  // ---------- over runs ----------

  /** The action is a message that goes through and strands the bridge. */
  predicate StrandsAt(chain: Chain, w: World, a: Action) {
    && a.Message? && Deliver(chain, w, a.time, a.msg).Ok?
    && EnvOf(chain, w, a.time, a.msg).Ok?
    && StrandingMove(EnvOf(chain, w, a.time, a.msg).value, w.state, a.msg)
  }

  lemma NextStrands(chain: Chain, w: World, a: Action)
    requires Sound(w.state)
    ensures Stranded(Next(chain, w, a).state) <==> Stranded(w.state) || StrandsAt(chain, w, a)
  {
    hide Sound, Execute, Deliver, EnvOf, StrandingMove, Stranded, CanSettle, Settled, CanArrive, Arrived;
    if a.Message? && Deliver(chain, w, a.time, a.msg).Ok? {
      DeliverMeans(chain, w, a.time, a.msg);
      StrandsIff(EnvOf(chain, w, a.time, a.msg).value, w.state, a.msg);
    }
  }

  /** A run is stranded exactly when one of its messages was a stranding move. */
  lemma {:induction false} StrandedExactly(chain: Chain, u: Setup, ws: seq<World>, acts: seq<Action>, i: nat)
    requires IsRun(chain, u, ws, acts) && i < |ws|
    ensures Stranded(ws[i].state) <==> exists j | 0 <= j < i :: StrandsAt(chain, ws[j], acts[j])
  {
    hide Sound, Start, Next, Lawful, StrandsAt;
    if i == 0 {
      StartIsSound(chain, u);
    } else {
      StrandedExactly(chain, u, ws, acts, i - 1);
      SoundnessOverRuns(chain, u, ws, acts, i - 1);
      assert ws[i - 1 + 1] == Next(chain, ws[i - 1], acts[i - 1]);
      NextStrands(chain, ws[i - 1], acts[i - 1]);
      if Stranded(ws[i].state) && !Stranded(ws[i - 1].state) {
        assert StrandsAt(chain, ws[i - 1], acts[i - 1]);
      }
    }
  }
}
