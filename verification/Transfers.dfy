/** The life of a queued transfer: it leaves the queue in exactly one step, and leaves behind exactly one
    burn or exactly one refund of its lock, or the value it has on the ledger. */
module Transfers {
  import opened Types
  import opened Amounts
  import opened Tokens
  import opened Pending
  import opened Tickets
  import Relayers
  import opened Evidences
  import opened Fees
  import opened Operations
  import opened Handlers
  import opened TokenTables
  import opened Queue
  import opened Soundness
  import opened TicketFlow
  import opened Escrow
  import opened Solvency
  import opened World
  import opened Runs

  datatype Resolution = Resolution(id: Sequence, result: TransactionResult, hash: Option<string>)

  /** The operation a message resolves, if it resolves one: a cancel, or a result that takes effect. */
  function ResolvedBy(env: Env, s: State, msg: Msg): Option<Resolution> {
    if msg.CancelPendingOperation? then Some(Resolution(msg.operationId, Invalid, None))
    else if (TakesEffect(env, s, msg) && msg.evidence.XrplTransactionResult?
             && (msg.evidence.accountSequence.Some? || msg.evidence.ticketSequence.Some?)) then
      Some(Resolution(SequenceOf(msg.evidence), msg.evidence.result, msg.evidence.txHash))
    else None
  }

  /** The very transfer `op` is still queued under `k`. */
  predicate StillPending(s: State, k: Sequence, op: Operation) {
    && IsTransfer(s.pendingOperations, k)
    && s.pendingOperations[k].operationType == op.operationType
    && s.pendingOperations[k].id == op.id
  }

  ghost predicate TransfersKept(s: State, s': State) {
    forall k | IsTransfer(s.pendingOperations, k) :: StillPending(s', k, s.pendingOperations[k])
  }

  ghost predicate TransfersKeptBut(s: State, s': State, id: Sequence) {
    forall k | IsTransfer(s.pendingOperations, k) && k != id :: StillPending(s', k, s.pendingOperations[k])
  }

  predicate NoBurns(msgs: seq<BankMsg>) { forall m <- msgs :: !m.Burn? }

  ghost predicate RefundsShrink(s: State, s': State) {
    forall r | r in s'.pendingRefunds :: r in s.pendingRefunds && s'.pendingRefunds[r] == s.pendingRefunds[r]
  }

  /** What one message does to transfers: the one it resolves leaves as told, and every other stays.
      Nothing but a resolved transfer causes a burn or stores a refund. */
  ghost predicate TransferMoves(env: Env, s: State, msg: Msg, o: Outcome) {
    var r := ResolvedBy(env, s, msg);
    if r.Some? && IsTransfer(s.pendingOperations, r.value.id) then
      && TransferLeaves(s, o.state, s.pendingOperations[r.value.id], r.value.result, r.value.hash, o.msgs)
      && !IsTransfer(o.state.pendingOperations, r.value.id)
      && TransfersKeptBut(s, o.state, r.value.id)
    else
      NoBurns(o.msgs) && RefundsShrink(s, o.state) && TransfersKept(s, o.state)
  }

  // ---------- one message ----------

  lemma CloseMoves(s: State, op: Operation, opResult: Option<OperationResult>, result: TransactionResult,
                   hash: Option<string>, id: Sequence, ticket: Option<Sequence>)
    requires Sound(s) && id in s.pendingOperations && op == s.pendingOperations[id]
    requires HandleOperation(s, op, opResult, result, hash, id, ticket).Ok?
    ensures var o := HandleOperation(s, op, opResult, result, hash, id, ticket).value;
            if IsTransfer(s.pendingOperations, id) then
              && TransferLeaves(s, o.state, op, result, hash, o.msgs)
              && id !in o.state.pendingOperations
              && TransfersKeptBut(s, o.state, id)
            else NoBurns(o.msgs) && RefundsShrink(s, o.state) && TransfersKept(s, o.state)
  {
    hide Sound, HandleOperation, LockedCoin;
    if IsTransfer(s.pendingOperations, id) {
      TransferOutcome(s, op, opResult, result, hash, id, ticket);
    } else {
      OtherCloseFrame(s, op, opResult, result, hash, id, ticket);
    }
  }

  lemma UseMoves(time: nat, s: State)
    requires RegisterUsedTicket(time, s).Ok?
    ensures var s' := RegisterUsedTicket(time, s).value.0;
            && KeepsRefunds(s, s') && TransfersKept(s, s')
            && forall k :: IsTransfer(s'.pendingOperations, k) ==> IsTransfer(s.pendingOperations, k)
  {
    hide RegisterUsedTicket;
  }

  lemma ResolveMoves(env: Env, s: State, ev: Evidence)
    requires Sound(s) && ev.XrplTransactionResult? && (ev.accountSequence.Some? || ev.ticketSequence.Some?)
    requires ResolveOperation(env, s, ev, true).Ok?
    ensures var o := ResolveOperation(env, s, ev, true).value;
            var id := SequenceOf(ev);
            if IsTransfer(s.pendingOperations, id) then
              && TransferLeaves(s, o.state, s.pendingOperations[id], ev.result, ev.txHash, o.msgs)
              && !IsTransfer(o.state.pendingOperations, id)
              && TransfersKeptBut(s, o.state, id)
            else NoBurns(o.msgs) && RefundsShrink(s, o.state) && TransfersKept(s, o.state)
  {
    hide Sound, HandleOperation, RegisterUsedTicket, LockedCoin;
    var id := SequenceOf(ev);
    var op := s.pendingOperations[id];
    CloseMoves(s, op, ev.operationResult, ev.result, ev.txHash, id, ev.ticketSequence);
    if !ev.result.Invalid? && ev.ticketSequence.Some? {
      UseMoves(env.time, HandleOperation(s, op, ev.operationResult, ev.result, ev.txHash, id,
                                         ev.ticketSequence).value.state);
    }
  }

  lemma ReceiveMoves(env: Env, s: State, ev: Evidence, reached: bool)
    requires ev.XrplToCosmosTransfer? && ReceiveTransfer(env, s, ev, reached).Ok?
    ensures NoBurns(ReceiveTransfer(env, s, ev, reached).value.msgs)
  {
    hide TruncateAmount, ConvertAndTruncateAmount, HandleFeeCollection, CheckedAdd;
  }

  lemma EvidenceMoves(env: Env, s: State, sender: Addr, ev: Evidence)
    requires Sound(s) && DoSaveEvidence(env, s, sender, ev).Ok?
    ensures TransferMoves(env, s, SaveEvidence(sender, ev), DoSaveEvidence(env, s, sender, ev).value)
  {
    hide Sound, ReceiveTransfer, ResolveOperation, HandleEvidence, Relayers.IsRelayer, LockedCoin, ValidateBasic;
    var (s1, reached) := HandleEvidence(env.chain, s, sender, ev).value;
    VoteIsSound(env.chain, s, sender, ev);
    if ev.XrplToCosmosTransfer? {
      ReceiveMoves(env, s1, ev, reached);
    } else if reached {
      ResolveMoves(env, s1, ev);
      var id := SequenceOf(ev);
      if IsTransfer(s.pendingOperations, id) { SameTablesSameTransfer(s, s1, s.pendingOperations[id].operationType); }
    } else {
      UnreachedChangesNothing(env, s1, ev);
    }
  }

  lemma OpeningMoves(env: Env, s: State, msg: Msg)
    requires IsOpening(msg) && ExecuteOpening(env, s, msg).Ok?
    ensures TransferMoves(env, s, msg, ExecuteOpening(env, s, msg).value)
  {
    hide DoRecoverTickets, DoRecoverXrplTokenRegistration, DoRotateKeys, DoSendToXrpl, ValidateXrplAddress,
      ValidateXrplCurrency, ValidateSendingPrecision, KeepsConfig, KeepsVotes, KeepsFees, HandleEvidence;
  }

  lemma SettingMoves(env: Env, s: State, msg: Msg)
    requires !IsOpening(msg) && !IsResolving(msg) && ExecuteSetting(env, s, msg).Ok?
    ensures TransferMoves(env, s, msg, ExecuteSetting(env, s, msg).value)
  {
    hide SubtractRelayerFees, DoRegisterCosmosToken, DoUpdateXrplToken, DoUpdateCosmosToken, DoUpdateXrplBaseFee,
      DoUpdateUsedTicketSequenceThreshold, DoUpdateProhibitedXrplAddresses, DoHaltBridge, DoResumeBridge,
      DoSaveSignature, AddSignature, HandleEvidence, SameTransfers;
    SettingFrame(env, s, msg);
    SameTransfersKept(s, ExecuteSetting(env, s, msg).value.state);
  }

  lemma SameTransfersKept(s: State, s': State)
    requires SameTransfers(s.pendingOperations, s'.pendingOperations)
    ensures TransfersKept(s, s')
  {
  }

  /** Transfers, burns and refunds of one message. */
  lemma TransferStep(env: Env, s: State, msg: Msg)
    requires Sound(s) && Execute(env, s, msg).Ok?
    ensures TransferMoves(env, s, msg, Execute(env, s, msg).value)
  {
    hide Sound, ExecuteOpening, ExecuteSetting, DoSaveEvidence, HandleOperation, TransferLeaves, HandleEvidence;
    if IsOpening(msg) {
      OpeningMoves(env, s, msg);
    } else if IsResolving(msg) {
      match msg
      case SaveEvidence(sender, ev) => EvidenceMoves(env, s, sender, ev);
      case CancelPendingOperation(_, id) =>
        var op := s.pendingOperations[id];
        CloseMoves(s, op, if op.operationType.AllocateTickets? then Some(TicketsAllocation(None)) else None,
                   Invalid, None, id, op.ticketSequence);
    } else {
      SettingMoves(env, s, msg);
    }
  }

  // ---------- locks and refunds are positive ----------

  lemma LockIsPositive(s: State, t: OperationType)
    requires t.CosmosToXrplTransfer? && TransferSound(s, t) && LockedCoin(s, t).Ok?
    ensures LockedCoin(s, t).value.amount > 0
  {
    hide ValidateXrplAmount;
    if BuildXrplTokenKey(t.issuer, t.currency) !in s.xrplTokens {
      var decimals := s.cosmosTokens[s.cosmosTokenByCurrency[t.currency]].decimals;
      ConvertIsExact(decimals, t.amount);
      WholeUnitsArePositive(decimals, t.amount);
    }
  }

  lemma WholeUnitsArePositive(decimals: nat, amount: nat)
    requires amount > 0 && WholeCosmosUnits(decimals, amount)
    ensures ToCosmosUnits(decimals, amount) > 0
  {
    hide Pow10;
    if decimals < XRPL_TOKENS_DECIMALS {
      DivBounds(amount, Pow10(XRPL_TOKENS_DECIMALS - decimals));
    } else if decimals == XRPL_TOKENS_DECIMALS {
      Pow10Zero();
      DivMod(amount, 1, amount, 0);
    } else {
      Positive(amount, Pow10(decimals - XRPL_TOKENS_DECIMALS));
    }
  }

  /** Every pending refund is of something. */
  ghost predicate RefundsPositive(s: State) {
    forall r | r in s.pendingRefunds :: s.pendingRefunds[r].coin.amount > 0
  }

  lemma PositiveStep(env: Env, s: State, msg: Msg)
    requires Sound(s) && RefundsPositive(s) && Execute(env, s, msg).Ok?
    ensures RefundsPositive(Execute(env, s, msg).value.state)
  {
    hide Sound, Execute, LockedCoin, ResolvedBy, TransferSound, StillPending;
    TransferStep(env, s, msg);
    var r := ResolvedBy(env, s, msg);
    if r.Some? && IsTransfer(s.pendingOperations, r.value.id) {
      LockIsDefined(s, r.value.id);
      LockIsPositive(s, s.pendingOperations[r.value.id].operationType);
    }
  }

  lemma {:induction false} RefundsPositiveOverRuns(chain: Chain, u: Setup, ws: seq<World>, acts: seq<Action>, i: nat)
    requires IsRun(chain, u, ws, acts) && i < |ws|
    ensures RefundsPositive(ws[i].state)
  {
    hide Sound, Start, Next, Lawful, Deliver, Execute, EnvOf;
    if i == 0 {
      StartIsSound(chain, u);
    } else {
      RefundsPositiveOverRuns(chain, u, ws, acts, i - 1);
      SoundnessOverRuns(chain, u, ws, acts, i - 1);
      var w, a := ws[i - 1], acts[i - 1];
      assert ws[i - 1 + 1] == Next(chain, w, a);
      OnlyMessagesMatter(chain, w, a);
      if ws[i].state != w.state {
        DeliverMeans(chain, w, a.time, a.msg);
        PositiveStep(EnvOf(chain, w, a.time, a.msg).value, w.state, a.msg);
      }
    }
  }

  // ---------- identifiers of refunds are fresh ----------

  /** The refund a queued transfer may leave has an identifier of its own. */
  ghost predicate RefundIdsFresh(s: State) {
    forall k, r | IsTransfer(s.pendingOperations, k) && r in s.pendingRefunds :: s.pendingOperations[k].id != r.id
  }

  /** A ticket is re-used only after the second in which an earlier transfer took it has passed. */
  predicate ClockAdvanced(env: Env, s: State) {
    s.availableTickets != [] ==>
      forall r | r in s.pendingRefunds && r.id.sequence == s.availableTickets[0] :: r.id.timestamp < env.time
  }

  predicate ClockHypothesis(env: Env, s: State, msg: Msg) { msg.SendToXrpl? ==> ClockAdvanced(env, s) }

  /** A transfer pending after a message was pending before it, or was queued by it just now. */
  ghost predicate TransfersNamed(env: Env, s: State, msg: Msg, s': State) {
    forall k | IsTransfer(s'.pendingOperations, k) ::
      || StillPending(s, k, s'.pendingOperations[k])
      || (msg.SendToXrpl? && s.availableTickets != []
          && s'.pendingOperations[k].id == OperationId(env.time, s.availableTickets[0]))
  }

  lemma NamedStep(env: Env, s: State, msg: Msg)
    requires Sound(s) && Execute(env, s, msg).Ok?
    ensures TransfersNamed(env, s, msg, Execute(env, s, msg).value.state)
  {
    hide Sound, ExecuteOpening, ExecuteSetting, DoSaveEvidence, HandleOperation;
    if IsOpening(msg) {
      OpeningNamed(env, s, msg);
    } else if IsResolving(msg) {
      match msg
      case SaveEvidence(sender, ev) => EvidenceNamed(env, s, sender, ev);
      case CancelPendingOperation(_, id) =>
        var op := s.pendingOperations[id];
        CloseTickets(s, op, if op.operationType.AllocateTickets? then Some(TicketsAllocation(None)) else None,
                     Invalid, None, id, op.ticketSequence);
    } else {
      SettingFrame(env, s, msg);
    }
  }

  lemma OpeningNamed(env: Env, s: State, msg: Msg)
    requires IsOpening(msg) && ExecuteOpening(env, s, msg).Ok?
    ensures TransfersNamed(env, s, msg, ExecuteOpening(env, s, msg).value.state)
  {
    hide DoRegisterXrplToken, DoRecoverTickets, DoRecoverXrplTokenRegistration, DoRotateKeys, DoSendToXrpl,
      KeepsConfig, KeepsVotes, KeepsFees, KeepsRefunds, KeepsCosmosTokens, KeepsXrplTokens;
  }

  lemma EvidenceNamed(env: Env, s: State, sender: Addr, ev: Evidence)
    requires DoSaveEvidence(env, s, sender, ev).Ok?
    ensures TransfersNamed(env, s, SaveEvidence(sender, ev), DoSaveEvidence(env, s, sender, ev).value.state)
  {
    hide ReceiveTransfer, HandleOperation, RegisterUsedTicket, HandleEvidence, Relayers.IsRelayer;
    var (s1, reached) := HandleEvidence(env.chain, s, sender, ev).value;
    if ev.XrplTransactionResult? && reached {
      var id := SequenceOf(ev);
      var op := s1.pendingOperations[id];
      CloseTickets(s1, op, ev.operationResult, ev.result, ev.txHash, id, ev.ticketSequence);
      if !ev.result.Invalid? && ev.ticketSequence.Some? {
        UseNamed(env.time, HandleOperation(s1, op, ev.operationResult, ev.result, ev.txHash, id,
                                           ev.ticketSequence).value.state);
      }
    }
  }

  lemma UseNamed(time: nat, s: State)
    requires RegisterUsedTicket(time, s).Ok?
    ensures var s' := RegisterUsedTicket(time, s).value.0;
            forall k | IsTransfer(s'.pendingOperations, k) :: StillPending(s, k, s'.pendingOperations[k])
  {
    hide RegisterUsedTicket;
  }

  lemma FreshStep(env: Env, s: State, msg: Msg)
    requires Sound(s) && RefundIdsFresh(s) && ClockHypothesis(env, s, msg) && Execute(env, s, msg).Ok?
    ensures RefundIdsFresh(Execute(env, s, msg).value.state)
  {
    hide Sound, Execute, LockedCoin, ResolvedBy, TransferSound, OperationSound;
    var s' := Execute(env, s, msg).value.state;
    TransferStep(env, s, msg);
    NamedStep(env, s, msg);
    var res := ResolvedBy(env, s, msg);
    forall k, r | IsTransfer(s'.pendingOperations, k) && r in s'.pendingRefunds
      ensures s'.pendingOperations[k].id != r.id
    {
      if r in s.pendingRefunds {
        if StillPending(s, k, s'.pendingOperations[k]) { assert s.pendingOperations[k].id != r.id; }
      } else {
        ResolvingIsNotSending(env, s, msg);
        IdsDiffer(s, k, res.value.id);
      }
    }
  }

  lemma ResolvingIsNotSending(env: Env, s: State, msg: Msg)
    ensures ResolvedBy(env, s, msg).Some? ==> !msg.SendToXrpl?
  {
    hide HandleEvidence;
  }

  lemma IdsDiffer(s: State, k: Sequence, id: Sequence)
    requires Sound(s) && k in s.pendingOperations && id in s.pendingOperations && k != id
    ensures s.pendingOperations[k].id != s.pendingOperations[id].id
  {
    hide Sound, TransferSound;
    SoundOperation(s, k);
    SoundOperation(s, id);
  }

  predicate TruthfulClock(chain: Chain, w: World, a: Action) {
    IsAccepted(chain, w, a) ==> ClockHypothesis(EnvOf(chain, w, a.time, a.msg).value, w.state, a.msg)
  }

  /** As long as a ticket is not re-used within the second of a refund that carries its number, no
      queued transfer can overwrite a refund. */
  lemma {:induction false} FreshIdsOverRuns(chain: Chain, u: Setup, ws: seq<World>, acts: seq<Action>, i: nat)
    requires IsRun(chain, u, ws, acts) && i < |ws|
    requires forall j | 0 <= j < |acts| :: TruthfulClock(chain, ws[j], acts[j])
    ensures RefundIdsFresh(ws[i].state)
  {
    hide Sound, Start, Next, Lawful, Deliver, Execute, EnvOf, ClockHypothesis;
    if i == 0 {
      StartIsSound(chain, u);
    } else {
      FreshIdsOverRuns(chain, u, ws, acts, i - 1);
      SoundnessOverRuns(chain, u, ws, acts, i - 1);
      var w, a := ws[i - 1], acts[i - 1];
      assert ws[i - 1 + 1] == Next(chain, w, a);
      OnlyMessagesMatter(chain, w, a);
      if ws[i].state != w.state {
        DeliverMeans(chain, w, a.time, a.msg);
        assert TruthfulClock(chain, w, a);
        FreshStep(EnvOf(chain, w, a.time, a.msg).value, w.state, a.msg);
      }
    }
  }

  // ---------- over runs ----------

  /** From `w` to `w'` the transfer under `k` is resolved, with exactly the outcome of its result. */
  predicate LeavesAt(w: World, w': World, k: Sequence) {
    && IsTransfer(w.state.pendingOperations, k)
    && |w'.trace| == |w.trace| + 1
    && var r := w'.trace[|w.trace|];
    && var res := ResolvedBy(r.env, w.state, r.msg);
    && res.Some? && res.value.id == k
    && TransferLeaves(w.state, w'.state, w.state.pendingOperations[k], res.value.result, res.value.hash, r.outcome.msgs)
    && !IsTransfer(w'.state.pendingOperations, k)
  }

  /** At every step a queued transfer stays as it is, or is resolved. */
  lemma StaysOrLeaves(chain: Chain, u: Setup, ws: seq<World>, acts: seq<Action>, i: nat, k: Sequence)
    requires IsRun(chain, u, ws, acts) && i < |acts| && IsTransfer(ws[i].state.pendingOperations, k)
    ensures StillPending(ws[i + 1].state, k, ws[i].state.pendingOperations[k]) <==> !LeavesAt(ws[i], ws[i + 1], k)
  {
    hide Sound, Start, Next, Lawful, Deliver, Execute, EnvOf, TransferLeaves, ResolvedBy;
    SoundnessOverRuns(chain, u, ws, acts, i);
    var w, a := ws[i], acts[i];
    assert ws[i + 1] == Next(chain, w, a);
    OnlyMessagesMatter(chain, w, a);
    if !(ws[i + 1].state == w.state && ws[i + 1].trace == w.trace) {
      DeliverMeans(chain, w, a.time, a.msg);
      TransferStep(EnvOf(chain, w, a.time, a.msg).value, w.state, a.msg);
    }
  }

  /** The transfer queued under `k` at step `i` stays until step `m`, where it is resolved. */
  ghost predicate LeavesFirst(ws: seq<World>, i: nat, m: nat, k: Sequence)
    requires i <= m && m + 1 < |ws| && IsTransfer(ws[i].state.pendingOperations, k)
  {
    && (forall n | i <= n <= m :: StillPending(ws[n].state, k, ws[i].state.pendingOperations[k]))
    && LeavesAt(ws[m], ws[m + 1], k)
    && !StillPending(ws[m + 1].state, k, ws[i].state.pendingOperations[k])
  }

  /** Over every run a queued transfer that is gone has left in exactly one step, and left behind exactly
      one burn of its lock, or one refund of its lock, or, accepted and escrowed, its value abroad. */
  lemma {:induction false} TransfersOverRuns(chain: Chain, u: Setup, ws: seq<World>, acts: seq<Action>, i: nat, j: nat,
                                             k: Sequence)
    requires IsRun(chain, u, ws, acts) && i <= j < |ws| && IsTransfer(ws[i].state.pendingOperations, k)
    requires !StillPending(ws[j].state, k, ws[i].state.pendingOperations[k])
    ensures exists m | i <= m < j :: LeavesFirst(ws, i, m, k)
    ensures forall m, m' | i <= m < |acts| && i <= m' < |acts| ::
              LeavesFirst(ws, i, m, k) && LeavesFirst(ws, i, m', k) ==> m == m'
    decreases j - i
  {
    hide Start, Next, Lawful, LeavesAt;
    assert i < j;
    StaysOrLeaves(chain, u, ws, acts, i, k);
    if StillPending(ws[i + 1].state, k, ws[i].state.pendingOperations[k]) {
      TransfersOverRuns(chain, u, ws, acts, i + 1, j, k);
      var m :| i + 1 <= m < j && LeavesFirst(ws, i + 1, m, k);
      assert LeavesFirst(ws, i, m, k);
    } else {
      assert LeavesFirst(ws, i, i, k);
    }
    forall m, m' | i <= m < |acts| && i <= m' < |acts| && LeavesFirst(ws, i, m, k) && LeavesFirst(ws, i, m', k)
      ensures m == m'
    {
      LeavesOnce(ws, i, m, m', k);
    }
  }

  lemma LeavesOnce(ws: seq<World>, i: nat, m: nat, m': nat, k: Sequence)
    requires i <= m && m + 1 < |ws| && i <= m' && m' + 1 < |ws| && IsTransfer(ws[i].state.pendingOperations, k)
    requires LeavesFirst(ws, i, m, k) && LeavesFirst(ws, i, m', k)
    ensures m == m'
  {
    hide LeavesAt, StillPending;
  }

  /** With fresh identifiers the refund it leaves replaces none. */
  lemma RefundsAddOverRuns(chain: Chain, u: Setup, ws: seq<World>, acts: seq<Action>, i: nat, k: Sequence)
    requires IsRun(chain, u, ws, acts) && i < |acts| && LeavesAt(ws[i], ws[i + 1], k)
    requires forall j | 0 <= j < |acts| :: TruthfulClock(chain, ws[j], acts[j])
    ensures var op := ws[i].state.pendingOperations[k];
            RefundKey(op.operationType.sender, op.id) !in ws[i].state.pendingRefunds
  {
    hide Start, Next, Lawful, TruthfulClock, TransferLeaves, ResolvedBy;
    FreshIdsOverRuns(chain, u, ws, acts, i);
  }
}
