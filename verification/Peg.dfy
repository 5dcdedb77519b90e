/** The peg of XRPL-originated tokens: what is minted is backed by what the bridge account holds on
    the ledger, and the supply stays within the holding limit. */
module Peg {
  import opened Types
  import opened Tokens
  import opened Tickets
  import Relayers
  import opened Evidences
  import opened Operations
  import opened Handlers
  import opened Sums
  import opened Flags
  import opened TokenTables
  import opened Queue
  import opened Soundness
  import opened TicketFlow
  import opened Votes
  import opened Banking
  import opened Escrow
  import opened Solvency

  /** Transfer `k` of the token has been executed on the ledger and waits for its burn. */
  predicate AwaitsBurn(s: State, l: Ledger, k: Sequence, key: string) {
    && k in l.settled
    && IsTransfer(s.pendingOperations, k)
    && var t := s.pendingOperations[k].operationType;
    && BuildXrplTokenKey(t.issuer, t.currency) == key
    && LockedCoin(s, t).Ok?
  }

  function BurnsIn(s: State, l: Ledger, key: string): map<Sequence, int> {
    map k | k in s.pendingOperations && AwaitsBurn(s, l, k, key) ::
      LockedCoin(s, s.pendingOperations[k].operationType).value.amount
  }

  /** What backs the wrapped supply: the bridge account's holdings, and the coins already spent on
      the ledger that the contract still holds for burning. */
  ghost function Backing(s: State, l: Ledger, key: string): int {
    GetOr(l.vault, key, 0) + Total(BurnsIn(s, l, key))
  }

  lemma BurnsKept(s: State, s': State, l: Ledger, key: string)
    requires TablesSound(s) && TablesSound(s') && TablesExtend(s, s') && QueueSound(s)
    requires SameTransfers(s.pendingOperations, s'.pendingOperations)
    ensures BurnsIn(s', l, key) == BurnsIn(s, l, key)
  {
    hide LockedCoin, EscrowSound, TablesSound, TablesExtend, QueueSound;
    forall k
      ensures k in BurnsIn(s', l, key) <==> k in BurnsIn(s, l, key)
      ensures k in BurnsIn(s, l, key) ==> BurnsIn(s', l, key)[k] == BurnsIn(s, l, key)[k]
    {
      assert IsTransfer(s'.pendingOperations, k) <==> IsTransfer(s.pendingOperations, k);
      if IsTransfer(s.pendingOperations, k) {
        BindsKept(s, s', l, k, "");
      }
    }
  }

  /** A fresh transfer awaits nothing. */
  lemma BurnsOpened(s: State, s': State, l: Ledger, k: Sequence, op: Operation, key: string)
    requires TablesSound(s) && QueueSound(s) && LedgerSound(s, l) && k !in s.pendingOperations
    requires KeepsXrplTokens(s, s') && KeepsCosmosTokens(s, s') && KeepsConfig(s, s')
    requires s'.pendingOperations == s.pendingOperations[k := op]
    ensures BurnsIn(s', l, key) == BurnsIn(s, l, key)
  {
    hide LockedCoin, EscrowSound, TablesSound, TablesExtend, QueueSound;
    SameTables(s, s');
    assert k !in l.settled;
    forall j
      ensures j in BurnsIn(s', l, key) <==> j in BurnsIn(s, l, key)
      ensures j in BurnsIn(s, l, key) ==> BurnsIn(s', l, key)[j] == BurnsIn(s, l, key)[j]
    {
      if j != k && IsTransfer(s.pendingOperations, j) {
        BindsKept(s, s', l, j, "");
      }
    }
  }

  lemma BurnsClosed(s: State, s': State, l: Ledger, id: Sequence, key: string)
    requires TablesSound(s) && QueueSound(s) && IsTransfer(s.pendingOperations, id)
    requires KeepsXrplTokens(s, s') && KeepsCosmosTokens(s, s') && KeepsConfig(s, s')
    requires s'.pendingOperations == s.pendingOperations - {id}
    ensures var l' := l.(settled := l.settled - {id});
            Total(BurnsIn(s', l', key)) ==
              Total(BurnsIn(s, l, key)) -
              (if AwaitsBurn(s, l, id, key) then LockedCoin(s, s.pendingOperations[id].operationType).value.amount
               else 0)
  {
    hide LockedCoin, EscrowSound, TablesSound, TablesExtend, QueueSound, Total;
    SameTables(s, s');
    var l' := l.(settled := l.settled - {id});
    var burns := BurnsIn(s, l, key);
    forall j | j != id
      ensures j in BurnsIn(s', l', key) <==> j in burns
      ensures j in burns ==> BurnsIn(s', l', key)[j] == burns[j]
    {
      if IsTransfer(s.pendingOperations, j) {
        BindsKept(s, s', l, j, "");
      }
    }
    assert BurnsIn(s', l', key) == burns - {id};
    if id in burns {
      TotalRemove(burns, id);
    } else {
      assert burns - {id} == burns;
    }
  }

  // ---------- arrivals that are not yet reported ----------

  /** Arrival `h` of the token still has to be minted. */
  predicate AwaitsMint(s: State, l: Ledger, h: string, key: string) {
    && h in l.arrivals && h !in s.processedTxs
    && l.arrivals[h].issuer != s.config.bridgeXrplAddress
    && BuildXrplTokenKey(l.arrivals[h].issuer, l.arrivals[h].currency) == key
  }

  function MintsIn(s: State, l: Ledger, key: string): map<string, int> {
    map h | h in l.arrivals && AwaitsMint(s, l, h, key) :: l.arrivals[h].amount
  }

  /** What is to be minted for an arrival while its report is awaited. */
  function AwaitedMint(s: State, l: Ledger, h: Option<string>, key: string): (v: nat)
    ensures h.None? ==> v == 0
  {
    if h.Some? && h.value in MintsIn(s, l, key) then MintsIn(s, l, key)[h.value] else 0
  }

  lemma MintReported(s: State, s': State, l: Ledger, h: Option<string>, key: string)
    requires s'.config.bridgeXrplAddress == s.config.bridgeXrplAddress
    requires s'.processedTxs == s.processedTxs + (if h.Some? then {h.value} else {})
    ensures Total(MintsIn(s', l, key)) == Total(MintsIn(s, l, key)) - AwaitedMint(s, l, h, key)
  {
    hide Total;
    var mints := MintsIn(s, l, key);
    if h.Some? && h.value in mints {
      assert MintsIn(s', l, key) == mints - {h.value};
      TotalRemove(mints, h.value);
    } else {
      assert MintsIn(s', l, key) == mints;
    }
  }

  lemma MintsKept(s: State, s': State, l: Ledger, l': Ledger, key: string)
    requires s'.config.bridgeXrplAddress == s.config.bridgeXrplAddress && s'.processedTxs == s.processedTxs
    requires l'.arrivals == l.arrivals
    ensures MintsIn(s', l', key) == MintsIn(s, l, key)
  {
  }

  /** What backs the wrapped supply and is not promised to an arrival still to be minted. */
  ghost function Free(s: State, l: Ledger, key: string): int {
    Backing(s, l, key) - Total(MintsIn(s, l, key))
  }

  // ---------- supply follows the backing ----------

  lemma TransferClosePeg(s: State, l: Ledger, op: Operation, opResult: Option<OperationResult>,
                         result: TransactionResult, hash: Option<string>, id: Sequence, ticket: Option<Sequence>,
                         key: string)
    requires Sound(s) && IsTransfer(s.pendingOperations, id) && op == s.pendingOperations[id] && key in s.xrplTokens
    requires HandleOperation(s, op, opResult, result, hash, id, ticket).Ok?
    requires result.Accepted? <==> id in l.settled
    ensures var o := HandleOperation(s, op, opResult, result, hash, id, ticket).value;
            AllIssued(o.msgs, s.xrplTokens[key].cosmosDenom) ==
              Free(o.state, l.(settled := l.settled - {id}), key) - Free(s, l, key)
  {
    hide TablesSound, QueueSound, LockedCoin, BurnsIn, MintsIn, Total, FlagsAgree, AllIssued, TransferSound,
      EscrowSound, HandleOperation;
    var o := HandleOperation(s, op, opResult, result, hash, id, ticket).value;
    var t := op.operationType;
    TransferOutcome(s, op, opResult, result, hash, id, ticket);
    BurnsClosed(s, o.state, l, id, key);
    MintsKept(s, o.state, l, l.(settled := l.settled - {id}), key);
    LockIsDefined(s, id);
    NothingFlows("", s.xrplTokens[key].cosmosDenom);
    var key' := BuildXrplTokenKey(t.issuer, t.currency);
    if result.Accepted? && key' in s.xrplTokens {
      BurnInflows("", LockedCoin(s, t).value, s.xrplTokens[key].cosmosDenom);
      LockDenom(s, t);
      if key != key' { DifferentDenoms(s, key, key'); }
    }
  }

  lemma LockDenom(s: State, t: OperationType)
    requires t.CosmosToXrplTransfer? && BuildXrplTokenKey(t.issuer, t.currency) in s.xrplTokens
    ensures LockedCoin(s, t).Ok? && LockedCoin(s, t).value.denom
            == s.xrplTokens[BuildXrplTokenKey(t.issuer, t.currency)].cosmosDenom
  {
  }

  lemma DifferentDenoms(s: State, key: string, key': string)
    requires TablesSound(s) && key in s.xrplTokens && key' in s.xrplTokens && key != key'
    ensures s.xrplTokens[key].cosmosDenom != s.xrplTokens[key'].cosmosDenom
  {
    assert XrplEntrySound(s, key) && XrplEntrySound(s, key');
  }

  lemma KeptPeg(s: State, s': State, l: Ledger, key: string)
    requires TablesSound(s) && TablesSound(s') && TablesExtend(s, s') && QueueSound(s)
    requires SameTransfers(s.pendingOperations, s'.pendingOperations) && s'.processedTxs == s.processedTxs
    ensures Free(s', l, key) == Free(s, l, key)
  {
    hide TablesSound, TablesExtend, QueueSound, SameTransfers, BurnsIn, MintsIn, Total;
    BurnsKept(s, s', l, key);
    SameBooks(s, s');
    MintsKept(s, s', l, l, key);
  }

  /** A vote frees exactly what its arrival was promised. */
  lemma VotePeg(env: Env, s: State, l: Ledger, sender: Addr, ev: Evidence, key: string)
    requires Sound(s) && Relayers.IsRelayer(s.config.relayers, sender) && HandleEvidence(env.chain, s, sender, ev).Ok?
    ensures var s1 := HandleEvidence(env.chain, s, sender, ev).value.0;
            Free(s1, l, key) == Free(s, l, key) + AwaitedMint(s, l, EffectiveHash(env, s, SaveEvidence(sender, ev)),
                                                              key)
  {
    hide Sound, HandleEvidence, TablesSound, TablesExtend, QueueSound, SameTransfers, BurnsIn, MintsIn, Total,
      EffectiveHash, AwaitedMint;
    var s1 := HandleEvidence(env.chain, s, sender, ev).value.0;
    VoteIsSound(env.chain, s, sender, ev);
    SoundTables(s);
    SoundTables(s1);
    SameOperations(s.pendingOperations);
    BurnsKept(s, s1, l, key);
    VoteTallies(env, s, sender, ev);
    MintReported(s, s1, l, EffectiveHash(env, s, SaveEvidence(sender, ev)), key);
  }

  lemma SameOperations(ops: OpMap)
    ensures SameTransfers(ops, ops)
  {
  }

  /** A truthful arrival is minted in full, and only once: its hash was not yet processed. */
  lemma ReportedMint(env: Env, s: State, l: Ledger, sender: Addr, ev: Evidence, key: string)
    requires HandleEvidence(env.chain, s, sender, ev).Ok? && TakesEffect(env, s, SaveEvidence(sender, ev))
    requires ev.XrplToCosmosTransfer? && TruthfulMoney(env.chain, s, l, ev)
    ensures AwaitedMint(s, l, EffectiveHash(env, s, SaveEvidence(sender, ev)), key)
         == (if ev.issuer != s.config.bridgeXrplAddress && BuildXrplTokenKey(ev.issuer, ev.currency) == key
             then ev.amount else 0)
  {
    hide HandleEvidence;
    VoteTallies(env, s, sender, ev);
  }

  lemma TransferEvidencePeg(env: Env, s: State, l: Ledger, ev: Evidence, key: string)
    requires Sound(s) && ev.XrplToCosmosTransfer? && ReceiveTransfer(env, s, ev, true).Ok? && key in s.xrplTokens
    ensures var o := ReceiveTransfer(env, s, ev, true).value;
            && Free(o.state, l, key) == Free(s, l, key)
            && AllIssued(o.msgs, s.xrplTokens[key].cosmosDenom)
            == (if ev.issuer != s.config.bridgeXrplAddress && BuildXrplTokenKey(ev.issuer, ev.currency) == key
                then ev.amount else 0)
  {
    hide Sound, ReceiveXrplToken, ReceiveCosmosToken, AllIssued, Total, BurnsIn, MintsIn, TablesExtend, Owed,
      TablesSound, QueueSound, Free, SameTransfers;
    var o := ReceiveTransfer(env, s, ev, true).value;
    SoundTables(s);
    SameTables(s, o.state);
    SameOperations(s.pendingOperations);
    KeptPeg(s, o.state, l, key);
    TransferEvidenceMoney(env, s, l, ev, s.xrplTokens[key].cosmosDenom);
    if ev.issuer != s.config.bridgeXrplAddress {
      ReceiveXrplKey(env, s, ev);
      var key' := BuildXrplTokenKey(ev.issuer, ev.currency);
      if key != key' { DifferentDenoms(s, key, key'); }
    }
  }

  lemma SettledDecidesBurns(s: State, l: Ledger, l': Ledger, key: string)
    requires l'.settled == l.settled
    ensures BurnsIn(s, l', key) == BurnsIn(s, l, key)
  {
    hide LockedCoin;
  }

  lemma ResolvePeg(env: Env, s: State, l: Ledger, ev: Evidence, key: string)
    requires Sound(s) && LedgerSound(s, l) && ev.XrplTransactionResult?
    requires (ev.accountSequence.Some? || ev.ticketSequence.Some?) && TruthfulMoney(env.chain, s, l, ev)
             && key in s.xrplTokens
    requires ResolveOperation(env, s, ev, true).Ok?
    ensures var o := ResolveOperation(env, s, ev, true).value;
            var l' := l.(settled := l.settled - {SequenceOf(ev)});
            AllIssued(o.msgs, s.xrplTokens[key].cosmosDenom) == Free(o.state, l', key) - Free(s, l, key)
  {
    hide Sound, HandleOperation, RegisterUsedTicket, LedgerSound, AllIssued, Free, TablesSound, QueueSound,
      TablesExtend;
    var id := SequenceOf(ev);
    var op := s.pendingOperations[id];
    var l' := l.(settled := l.settled - {id});
    var o := HandleOperation(s, op, ev.operationResult, ev.result, ev.txHash, id, ev.ticketSequence).value;
    CloseIsSound(s, op, ev.operationResult, ev.result, ev.txHash, id, ev.ticketSequence);
    SoundTables(s);
    SoundTables(o.state);
    if IsTransfer(s.pendingOperations, id) {
      TransferClosePeg(s, l, op, ev.operationResult, ev.result, ev.txHash, id, ev.ticketSequence, key);
    } else {
      OtherClosePeg(s, l, op, ev.operationResult, ev.result, ev.txHash, id, ev.ticketSequence, key);
    }
    if !ev.result.Invalid? && ev.ticketSequence.Some? {
      UseIsSound(env.time, o.state);
      var s' := RegisterUsedTicket(env.time, o.state).value.0;
      SoundTables(s');
      KeptPeg(o.state, s', l', key);
    }
  }

  lemma OtherClosePeg(s: State, l: Ledger, op: Operation, opResult: Option<OperationResult>,
                      result: TransactionResult, hash: Option<string>, id: Sequence, ticket: Option<Sequence>,
                      key: string)
    requires Sound(s) && LedgerSound(s, l) && id in s.pendingOperations && op == s.pendingOperations[id]
    requires !IsTransfer(s.pendingOperations, id) && key in s.xrplTokens
    requires HandleOperation(s, op, opResult, result, hash, id, ticket).Ok?
    ensures var o := HandleOperation(s, op, opResult, result, hash, id, ticket).value;
            AllIssued(o.msgs, s.xrplTokens[key].cosmosDenom) ==
              Free(o.state, l.(settled := l.settled - {id}), key) - Free(s, l, key)
  {
    hide HandleOperation, AllIssued, Free, TablesSound, QueueSound, TablesExtend, FlagsAgree;
    var o := HandleOperation(s, op, opResult, result, hash, id, ticket).value;
    CloseIsSound(s, op, opResult, result, hash, id, ticket);
    OtherCloseMoney("", s, l, op, opResult, result, hash, id, ticket, "");
    OtherCloseFrame(s, op, opResult, result, hash, id, ticket);
    KeptPeg(s, o.state, l, key);
    NothingFlows("", s.xrplTokens[key].cosmosDenom);
  }

  /** What an arrival loses when a result takes effect under its hash. */
  function Forgone(env: Env, s: State, l: Ledger, msg: Msg, key: string): nat {
    if msg.SaveEvidence? && msg.evidence.XrplTransactionResult? then
      AwaitedMint(s, l, EffectiveHash(env, s, msg), key)
    else 0
  }

  lemma EvidencePeg(env: Env, s: State, l: Ledger, sender: Addr, ev: Evidence, key: string)
    requires Sound(s) && LedgerSound(s, l) && DoSaveEvidence(env, s, sender, ev).Ok? && key in s.xrplTokens
    requires MoneyHypothesis(env, s, l, SaveEvidence(sender, ev))
    ensures var o := DoSaveEvidence(env, s, sender, ev).value;
            AllIssued(o.msgs, s.xrplTokens[key].cosmosDenom) ==
              Free(o.state, LedgerAfter(env, s, l, SaveEvidence(sender, ev)), key) - Free(s, l, key)
              - Forgone(env, s, l, SaveEvidence(sender, ev), key)
  {
    hide Sound, ReceiveTransfer, ResolveOperation, LedgerSound, AllIssued, HandleEvidence, Relayers.IsRelayer,
      TruthfulMoney, Free, Owed, AwaitedMint, Awaited, EffectiveHash, ValidateBasic;
    var (s1, reached) := HandleEvidence(env.chain, s, sender, ev).value;
    VoteMoney(env, s, l, sender, ev, "");
    VotePeg(env, s, l, sender, ev, key);
    NothingFlows("", s.xrplTokens[key].cosmosDenom);
    if reached {
      SameTruth(env.chain, s, s1, l, ev);
      if ev.XrplToCosmosTransfer? {
        TransferEvidencePeg(env, s1, l, ev, key);
        ReportedMint(env, s, l, sender, ev, key);
      } else {
        ResolvePeg(env, s1, l, ev, key);
      }
    } else {
      NoEffectNoHash(env, s, SaveEvidence(sender, ev));
      UnreachedChangesNothing(env, s1, ev);
    }
  }

  lemma OpeningPeg(env: Env, s: State, l: Ledger, msg: Msg, key: string)
    requires Lawful(env.chain) && Sound(s) && LedgerSound(s, l) && IsOpening(msg) && ExecuteOpening(env, s, msg).Ok?
    requires key in s.xrplTokens
    ensures var o := ExecuteOpening(env, s, msg).value;
            AllIssued(o.msgs, s.xrplTokens[key].cosmosDenom) == 0 && Free(o.state, l, key) == Free(s, l, key)
  {
    hide Sound, LedgerSound, AllIssued, TablesExtend, Lawful, BurnsIn, MintsIn, Total, DoSendToXrpl,
      DoRegisterXrplToken, DoRecoverTickets, DoRecoverXrplTokenRegistration, DoRotateKeys, TablesSound, QueueSound;
    var o := ExecuteOpening(env, s, msg).value;
    var denom := s.xrplTokens[key].cosmosDenom;
    OpeningSound(env, s, msg);
    SoundTables(s);
    SoundTables(o.state);
    NothingFlows("", denom);
    SameBooks(s, o.state);
    OpeningHashes(env, s, msg);
    MintsKept(s, o.state, l, l, key);
    if msg.SendToXrpl? {
      var k := s.availableTickets[0];
      BurnsOpened(s, o.state, l, k, o.state.pendingOperations[k], key);
    } else {
      OpeningFrame(env, s, msg);
      BurnsKept(s, o.state, l, key);
      if msg.RegisterXrplToken? { NewDenomFlows("", msg.derivedDenom, denom); }
    }
  }

  lemma OpeningHashes(env: Env, s: State, msg: Msg)
    requires IsOpening(msg) && ExecuteOpening(env, s, msg).Ok?
    ensures ExecuteOpening(env, s, msg).value.state.processedTxs == s.processedTxs
  {
    hide DoSendToXrpl, DoRegisterXrplToken, DoRecoverTickets, DoRecoverXrplTokenRegistration, DoRotateKeys;
  }

  lemma SettingPeg(env: Env, s: State, l: Ledger, msg: Msg, key: string)
    requires Lawful(env.chain) && Sound(s) && LedgerSound(s, l) && !IsOpening(msg) && !IsResolving(msg)
    requires ExecuteSetting(env, s, msg).Ok? && key in s.xrplTokens
    ensures var o := ExecuteSetting(env, s, msg).value;
            AllIssued(o.msgs, s.xrplTokens[key].cosmosDenom) == 0 && Free(o.state, l, key) == Free(s, l, key)
  {
    hide Sound, LedgerSound, AllIssued, TablesExtend, Lawful, Free, ExecuteSetting, ExecuteOpening, TablesSound,
      QueueSound, SameTransfers;
    var o := ExecuteSetting(env, s, msg).value;
    SoundStep(env, s, msg);
    SoundTables(s);
    SoundTables(o.state);
    SettingMoney(env, s, l, msg, s.xrplTokens[key].cosmosDenom);
    SettingFrame(env, s, msg);
    KeptPeg(s, o.state, l, key);
  }

  lemma CancelPeg(s: State, l: Ledger, sender: Addr, id: Sequence, key: string)
    requires Sound(s) && LedgerSound(s, l) && id !in l.settled && DoCancelPendingOperation(s, sender, id).Ok?
    requires key in s.xrplTokens
    ensures var o := DoCancelPendingOperation(s, sender, id).value;
            AllIssued(o.msgs, s.xrplTokens[key].cosmosDenom) ==
              Free(o.state, l.(settled := l.settled - {id}), key) - Free(s, l, key)
  {
    hide Sound, HandleOperation, LedgerSound, AllIssued, Free;
    var op := s.pendingOperations[id];
    var opResult := if op.operationType.AllocateTickets? then Some(TicketsAllocation(None)) else None;
    if IsTransfer(s.pendingOperations, id) {
      TransferClosePeg(s, l, op, opResult, Invalid, None, id, op.ticketSequence, key);
    } else {
      OtherClosePeg(s, l, op, opResult, Invalid, None, id, op.ticketSequence, key);
    }
  }

  /** The peg of one message: the wrapped supply of every registered token moves by exactly as much
      as its free backing; an arrival whose hash is spent on a result is never minted. */
  lemma PegStep(env: Env, s: State, l: Ledger, msg: Msg, key: string)
    requires Lawful(env.chain) && Sound(s) && LedgerSound(s, l) && MoneyHypothesis(env, s, l, msg)
    requires Execute(env, s, msg).Ok? && key in s.xrplTokens
    ensures var o := Execute(env, s, msg).value;
            AllIssued(o.msgs, s.xrplTokens[key].cosmosDenom) ==
              Free(o.state, LedgerAfter(env, s, l, msg), key) - Free(s, l, key) - Forgone(env, s, l, msg, key)
  {
    hide Sound, LedgerSound, AllIssued, ExecuteOpening, ExecuteSetting, DoSaveEvidence, Free, DoCancelPendingOperation,
      TruthfulMoney, HandleEvidence, Lawful, AwaitedMint, EffectiveHash;
    if IsOpening(msg) {
      OpeningPeg(env, s, l, msg, key);
    } else if IsResolving(msg) {
      match msg
      case SaveEvidence(sender, ev) => EvidencePeg(env, s, l, sender, ev, key);
      case CancelPendingOperation(sender, id) => CancelPeg(s, l, sender, id, key);
    } else {
      SettingPeg(env, s, l, msg, key);
    }
  }

  lemma BackingIsNonNegative(s: State, l: Ledger, key: string)
    ensures Backing(s, l, key) >= GetOr(l.vault, key, 0)
  {
    hide Total;
    assert NonNegative(BurnsIn(s, l, key));
    TotalNonNegative(BurnsIn(s, l, key));
  }
}
