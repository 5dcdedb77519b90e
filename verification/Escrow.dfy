/** What the contract owes in each denom: locks of pending transfers, refunds, relayer fees, and the
    value of everything it has issued on the XRP Ledger. */
module Escrow {
  import opened Types
  import opened Amounts
  import opened Operations
  import opened Sums
  import opened FeeBook
  import opened Flags
  import opened TokenTables
  import opened Queue

  /** A payment to the bridge account that the ledger has executed. */
  datatype Arrival = Arrival(issuer: string, currency: string, amount: nat)

  /** The XRP Ledger as far as the bridge's money goes. `settled` are the transfers it has executed
      whose result is not yet reported, `outstanding` the bridge-issued amount of each currency that
      has not come back, `vault` what the bridge account holds of each XRPL-originated token, and
      `arrivals` every payment it has received, by upper-cased transaction hash. */
  datatype Ledger = Ledger(
    settled: set<Sequence>,
    outstanding: map<string, nat>,
    vault: map<string, nat>,
    arrivals: map<string, Arrival>)

  predicate IsTransfer(ops: OpMap, k: Sequence) { k in ops && ops[k].operationType.CosmosToXrplTransfer? }

  /** Transfer `k` still binds coins of the denom: it locks them, and it is not an escrowed transfer
      that the ledger has already executed. */
  predicate Binds(s: State, l: Ledger, k: Sequence, d: string) {
    && IsTransfer(s.pendingOperations, k)
    && var t := s.pendingOperations[k].operationType;
    && LockedCoin(s, t).Ok?
    && LockedCoin(s, t).value.denom == d
    && !(k in l.settled && EscrowSound(s, t))
  }

  function LocksIn(s: State, l: Ledger, d: string): map<Sequence, int> {
    map k | k in s.pendingOperations && Binds(s, l, k, d) ::
      LockedCoin(s, s.pendingOperations[k].operationType).value.amount
  }

  function RefundsIn(s: State, d: string): map<RefundKey, int> {
    map r | r in s.pendingRefunds && s.pendingRefunds[r].coin.denom == d :: s.pendingRefunds[r].coin.amount
  }

  /** What is outstanding on the ledger, in units of the token. */
  function AbroadIn(s: State, l: Ledger, d: string): nat {
    if d in s.cosmosTokens then
      ToCosmosUnits(s.cosmosTokens[d].decimals, GetOr(l.outstanding, s.cosmosTokens[d].xrplCurrency, 0))
    else 0
  }

  /** Arrival `h` is a return of the denom whose report has not yet taken effect. */
  predicate AwaitsPayment(s: State, l: Ledger, h: string, d: string) {
    && h in l.arrivals && h !in s.processedTxs
    && l.arrivals[h].issuer == s.config.bridgeXrplAddress && l.arrivals[h].amount > 0
    && d in s.cosmosTokens && s.cosmosTokens[d].xrplCurrency == l.arrivals[h].currency
  }

  function ReturnsIn(s: State, l: Ledger, d: string): map<string, int> {
    map h | h in l.arrivals && AwaitsPayment(s, l, h, d) ::
      ToCosmosUnits(s.cosmosTokens[d].decimals, l.arrivals[h].amount)
  }

  /** Everything the contract must be able to pay in a denom. */
  ghost function Owed(s: State, l: Ledger, d: string): int {
    Total(LocksIn(s, l, d)) + Total(RefundsIn(s, d)) + FeesOwed(s, d) + AbroadIn(s, l, d) + Total(ReturnsIn(s, l, d))
  }

  /** Only queued transfers are settled, and only registered currencies are outstanding or return. */
  ghost predicate LedgerSound(s: State, l: Ledger) {
    && (forall k | k in l.settled :: IsTransfer(s.pendingOperations, k))
    && (forall c | c in l.outstanding :: l.outstanding[c] > 0 ==> c in s.cosmosTokenByCurrency)
    && (forall h | h in l.arrivals ::
          l.arrivals[h].issuer == s.config.bridgeXrplAddress && l.arrivals[h].amount > 0 ==>
            l.arrivals[h].currency in s.cosmosTokenByCurrency)
  }

  lemma OwedIsNonNegative(s: State, l: Ledger, d: string)
    ensures Owed(s, l, d) >= 0
  {
    hide Total;
    assert NonNegative(LocksIn(s, l, d));
    TotalNonNegative(LocksIn(s, l, d));
    TotalNonNegative(RefundsIn(s, d));
    TotalNonNegative(Uncollected(s.feesCollected, d));
    TotalNonNegative(ReturnsIn(s, l, d));
  }

  // ---------- what a step keeps ----------

  ghost predicate SameTransfers(ops: OpMap, ops': OpMap) {
    && (forall k :: IsTransfer(ops', k) <==> IsTransfer(ops, k))
    && (forall k | IsTransfer(ops, k) :: ops'[k].operationType == ops[k].operationType && ops'[k].id == ops[k].id)
  }

  /** Growing tables leave the meaning of every kept transfer alone. */
  lemma BindsKept(s: State, s': State, l: Ledger, k: Sequence, d: string)
    requires TablesSound(s) && TablesSound(s') && TablesExtend(s, s') && QueueSound(s)
    requires IsTransfer(s.pendingOperations, k) && IsTransfer(s'.pendingOperations, k)
    requires s'.pendingOperations[k].operationType == s.pendingOperations[k].operationType
    ensures Binds(s', l, k, d) == Binds(s, l, k, d)
    ensures LockedCoin(s', s.pendingOperations[k].operationType) == LockedCoin(s, s.pendingOperations[k].operationType)
    ensures EscrowSound(s', s.pendingOperations[k].operationType)
            == EscrowSound(s, s.pendingOperations[k].operationType)
  {
    hide LockedCoin, EscrowSound, TablesSound, TablesExtend, TransferSound, DistinctSigners;
    assert OperationSound(s, k, s.pendingOperations[k]);
    LockIsStable(s, s', s.pendingOperations[k].operationType);
  }

  lemma LocksKept(s: State, s': State, l: Ledger, d: string)
    requires TablesSound(s) && TablesSound(s') && TablesExtend(s, s') && QueueSound(s)
    requires SameTransfers(s.pendingOperations, s'.pendingOperations)
    ensures LocksIn(s', l, d) == LocksIn(s, l, d)
  {
    hide LockedCoin, EscrowSound, TablesSound, TablesExtend, QueueSound, Binds;
    forall k
      ensures k in LocksIn(s', l, d) <==> k in LocksIn(s, l, d)
      ensures k in LocksIn(s, l, d) ==> LocksIn(s', l, d)[k] == LocksIn(s, l, d)[k]
    {
      BindsNeedTransfer(s, l, k, d);
      BindsNeedTransfer(s', l, k, d);
      assert IsTransfer(s'.pendingOperations, k) <==> IsTransfer(s.pendingOperations, k);
      if IsTransfer(s.pendingOperations, k) {
        BindsKept(s, s', l, k, d);
      }
    }
  }

  lemma BindsNeedTransfer(s: State, l: Ledger, k: Sequence, d: string)
    ensures Binds(s, l, k, d) ==> IsTransfer(s.pendingOperations, k)
  {
  }

  lemma AbroadKept(s: State, s': State, l: Ledger, d: string)
    requires TablesSound(s) && TablesSound(s') && TablesExtend(s, s') && LedgerSound(s, l)
    ensures AbroadIn(s', l, d) == AbroadIn(s, l, d)
  {
    hide ToCosmosUnits, ValidateSendingPrecision;
    if d in s.cosmosTokens {
    } else if d in s'.cosmosTokens {
      var c := s'.cosmosTokens[d].xrplCurrency;
      assert CosmosEntrySound(s', d);
      assert c !in s.cosmosTokenByCurrency;
      assert GetOr(l.outstanding, c, 0) == 0;
      NothingConverts(s'.cosmosTokens[d].decimals);
    }
  }

  lemma NothingConverts(decimals: nat)
    ensures ToCosmosUnits(decimals, 0) == 0
  {
    if decimals <= XRPL_TOKENS_DECIMALS {
      DivMod(0, Pow10(XRPL_TOKENS_DECIMALS - decimals), 0, 0);
    }
  }

  lemma ReturnsKept(s: State, s': State, l: Ledger, d: string)
    requires TablesSound(s) && TablesSound(s') && TablesExtend(s, s') && LedgerSound(s, l)
    requires s'.processedTxs == s.processedTxs
    ensures ReturnsIn(s', l, d) == ReturnsIn(s, l, d)
  {
    hide ToCosmosUnits, ValidateSendingPrecision;
    if d !in s.cosmosTokens && d in s'.cosmosTokens {
      assert CosmosEntrySound(s', d);
      assert s'.cosmosTokens[d].xrplCurrency !in s.cosmosTokenByCurrency;
    }
    forall h | h in l.arrivals ensures AwaitsPayment(s', l, h, d) == AwaitsPayment(s, l, h, d) {
    }
  }

  /** What an arrival is worth while its report is awaited. */
  function Awaited(s: State, l: Ledger, h: Option<string>, d: string): (v: nat)
    ensures h.None? ==> v == 0
  {
    if h.Some? && h.value in ReturnsIn(s, l, d) then ReturnsIn(s, l, d)[h.value] else 0
  }

  /** Once its report takes effect, an arrival is no longer awaited. */
  lemma ReturnReported(s: State, s': State, l: Ledger, h: Option<string>, d: string)
    requires KeepsCosmosTokens(s, s') && s'.config.bridgeXrplAddress == s.config.bridgeXrplAddress
    requires s'.processedTxs == s.processedTxs + (if h.Some? then {h.value} else {})
    ensures Total(ReturnsIn(s', l, d)) == Total(ReturnsIn(s, l, d)) - Awaited(s, l, h, d)
  {
    hide Total, ToCosmosUnits;
    var awaiting := ReturnsIn(s, l, d);
    if h.Some? && h.value in awaiting {
      assert ReturnsIn(s', l, d) == awaiting - {h.value};
      TotalRemove(awaiting, h.value);
    } else {
      assert ReturnsIn(s', l, d) == awaiting;
    }
  }

  lemma OwedKept(s: State, s': State, l: Ledger, d: string)
    requires TablesSound(s) && TablesSound(s') && TablesExtend(s, s') && QueueSound(s) && LedgerSound(s, l)
    requires SameTransfers(s.pendingOperations, s'.pendingOperations)
    requires KeepsRefunds(s, s') && KeepsFees(s, s') && s'.processedTxs == s.processedTxs
    ensures Owed(s', l, d) == Owed(s, l, d)
  {
    hide Total, LocksIn, AbroadIn, ReturnsIn, TablesSound, TablesExtend, QueueSound, LedgerSound, SameTransfers;
    LocksKept(s, s', l, d);
    AbroadKept(s, s', l, d);
    ReturnsKept(s, s', l, d);
  }

  // ---------- a transfer is queued ----------

  /** Queueing a transfer binds its lock. */
  lemma LocksOpened(s: State, s': State, l: Ledger, k: Sequence, op: Operation, d: string)
    requires TablesSound(s) && QueueSound(s) && LedgerSound(s, l) && k !in s.pendingOperations
    requires KeepsXrplTokens(s, s') && KeepsCosmosTokens(s, s') && KeepsConfig(s, s')
    requires s'.pendingOperations == s.pendingOperations[k := op]
    requires op.operationType.CosmosToXrplTransfer? && LockedCoin(s, op.operationType).Ok?
    ensures var coin := LockedCoin(s, op.operationType).value;
            Total(LocksIn(s', l, d)) == Total(LocksIn(s, l, d)) + (if coin.denom == d then coin.amount else 0)
  {
    hide LockedCoin, EscrowSound, TablesSound, TablesExtend, QueueSound, Total, TransferSound;
    SameTables(s, s');
    var coin := LockedCoin(s, op.operationType).value;
    SameTablesSameTransfer(s, s', op.operationType);
    var locks := LocksIn(s, l, d);
    forall j | j != k
      ensures j in LocksIn(s', l, d) <==> j in locks
      ensures j in locks ==> LocksIn(s', l, d)[j] == locks[j]
    {
      if IsTransfer(s.pendingOperations, j) {
        BindsKept(s, s', l, j, d);
      }
    }
    assert k !in l.settled;
    if coin.denom == d {
      assert LocksIn(s', l, d) == locks[k := coin.amount];
      TotalInsert(locks, k, coin.amount);
    } else {
      assert LocksIn(s', l, d) == locks;
    }
  }

  // ---------- a transfer leaves the queue ----------

  lemma LocksClosed(s: State, s': State, l: Ledger, id: Sequence, d: string)
    requires TablesSound(s) && QueueSound(s) && IsTransfer(s.pendingOperations, id)
    requires KeepsXrplTokens(s, s') && KeepsCosmosTokens(s, s') && KeepsConfig(s, s')
    requires s'.pendingOperations == s.pendingOperations - {id}
    ensures var l' := l.(settled := l.settled - {id});
            Total(LocksIn(s', l', d)) ==
              Total(LocksIn(s, l, d)) -
              (if Binds(s, l, id, d) then LockedCoin(s, s.pendingOperations[id].operationType).value.amount else 0)
  {
    hide LockedCoin, EscrowSound, TablesSound, TablesExtend, QueueSound, Total;
    SameTables(s, s');
    var l' := l.(settled := l.settled - {id});
    var locks := LocksIn(s, l, d);
    forall j | j != id
      ensures j in LocksIn(s', l', d) <==> j in locks
      ensures j in locks ==> LocksIn(s', l', d)[j] == locks[j]
    {
      if IsTransfer(s.pendingOperations, j) {
        BindsKept(s, s', l, j, d);
      }
    }
    assert LocksIn(s', l', d) == locks - {id};
    if id in locks {
      TotalRemove(locks, id);
    } else {
      assert locks - {id} == locks;
    }
  }

  // ---------- refunds ----------

  lemma RefundStored(s: State, s': State, key: RefundKey, refund: PendingRefund, d: string)
    requires key !in s.pendingRefunds && s'.pendingRefunds == s.pendingRefunds[key := refund]
    ensures Total(RefundsIn(s', d)) == Total(RefundsIn(s, d))
            + (if refund.coin.denom == d then refund.coin.amount else 0)
  {
    hide Total;
    if refund.coin.denom == d {
      assert RefundsIn(s', d) == RefundsIn(s, d)[key := refund.coin.amount];
      TotalInsert(RefundsIn(s, d), key, refund.coin.amount);
    } else {
      assert RefundsIn(s', d) == RefundsIn(s, d);
    }
  }

  lemma RefundRemoved(s: State, s': State, key: RefundKey, d: string)
    requires key in s.pendingRefunds && s'.pendingRefunds == s.pendingRefunds - {key}
    ensures var coin := s.pendingRefunds[key].coin;
            Total(RefundsIn(s', d)) == Total(RefundsIn(s, d)) - (if coin.denom == d then coin.amount else 0)
  {
    hide Total;
    if s.pendingRefunds[key].coin.denom == d {
      assert RefundsIn(s', d) == RefundsIn(s, d) - {key};
      TotalRemove(RefundsIn(s, d), key);
    } else {
      assert RefundsIn(s', d) == RefundsIn(s, d);
    }
  }

  /** Storing a refund, whether or not its key is taken: a refund already there is replaced. */
  lemma RefundStoredOver(s: State, s': State, key: RefundKey, refund: PendingRefund, d: string)
    requires s'.pendingRefunds == s.pendingRefunds[key := refund]
    ensures Total(RefundsIn(s', d)) == Total(RefundsIn(s, d))
            + (if refund.coin.denom == d then refund.coin.amount else 0)
                                       - RefundedUnder(s, key, d)
  {
    hide Total, RefundsIn;
    if key in s.pendingRefunds {
      var gone := s.(pendingRefunds := s.pendingRefunds - {key});
      RefundRemoved(s, gone, key, d);
      assert s'.pendingRefunds == gone.pendingRefunds[key := refund];
      RefundStored(gone, s', key, refund, d);
    } else {
      RefundStored(s, s', key, refund, d);
    }
  }

  /** What is refundable of a denom under a key. */
  function RefundedUnder(s: State, key: RefundKey, d: string): nat {
    if key in s.pendingRefunds && s.pendingRefunds[key].coin.denom == d then s.pendingRefunds[key].coin.amount else 0
  }

  // ---------- the ledger moves ----------

  lemma ConvertIsExact(decimals: nat, amount: Uint128)
    requires ConvertAmountDecimals(XRPL_TOKENS_DECIMALS, decimals, amount).Ok?
    ensures ConvertAmountDecimals(XRPL_TOKENS_DECIMALS, decimals, amount).value == ToCosmosUnits(decimals, amount)
  {
    if decimals == XRPL_TOKENS_DECIMALS {
      assert Pow10(0) == 1;
      DivMod(amount, 1, amount, 0);
    }
  }
}
