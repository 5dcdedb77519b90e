/** Token lifecycle: an XRPL token is Processing exactly while its one trust line is pending. */
module Lifecycle {
  import opened Types
  import opened Tokens
  import opened Flags

  type Table = map<string, XrplToken>

  function TrustKey(op: Operation): string
    requires op.operationType.TrustSet?
  {
    BuildXrplTokenKey(op.operationType.issuer, op.operationType.currency)
  }

  /** A token is Processing exactly when exactly one trust line for its key is pending, and no
      trust line is pending for an unregistered key. */
  ghost predicate LifecycleAgrees(ops: OpMap, tokens: Table) {
    && (forall k | k in ops && ops[k].operationType.TrustSet? :: TrustKey(ops[k]) in tokens)
    && (forall key | key in tokens :: |TrustSets(ops, key)| == Count(tokens[key].state.Processing?))
  }

  ghost predicate SameProcessing(tokens: Table, tokens': Table) {
    && (forall key :: key in tokens <==> key in tokens')
    && (forall key | key in tokens :: tokens'[key].state.Processing? == tokens[key].state.Processing?)
  }

  lemma LifecycleKept(ops: OpMap, ops': OpMap, tokens: Table, tokens': Table)
    requires LifecycleAgrees(ops, tokens) && SameProcessing(tokens, tokens')
    requires forall k :: (k in ops' && ops'[k].operationType.TrustSet?) <==>
             (k in ops && ops[k].operationType.TrustSet?)
    requires forall k | k in ops' && ops'[k].operationType.TrustSet? :: ops'[k].operationType == ops[k].operationType
    ensures LifecycleAgrees(ops', tokens')
  {
    forall key | key in tokens'
      ensures |TrustSets(ops', key)| == Count(tokens'[key].state.Processing?)
    {
      forall k ensures k in TrustSets(ops', key) <==> k in TrustSets(ops, key) {
        assert (k in ops' && ops'[k].operationType.TrustSet?) <==> (k in ops && ops[k].operationType.TrustSet?);
      }
      assert TrustSets(ops', key) == TrustSets(ops, key);
    }
  }

  /** Registration and recovery: the token turns Processing as its trust line is queued. */
  lemma LifecycleOpened(ops: OpMap, k: Sequence, op: Operation, tokens: Table, token: XrplToken)
    requires LifecycleAgrees(ops, tokens) && k !in ops && op.operationType.TrustSet?
    requires TrustKey(op) in tokens ==> !tokens[TrustKey(op)].state.Processing?
    requires token.state.Processing?
    ensures LifecycleAgrees(ops[k := op], tokens[TrustKey(op) := token])
  {
    var ops', tokens' := ops[k := op], tokens[TrustKey(op) := token];
    forall key | key in tokens'
      ensures |TrustSets(ops', key)| == Count(tokens'[key].state.Processing?)
    {
      if key == TrustKey(op) {
        assert TrustSets(ops, key) == {} by { if key !in tokens { NoTrustSets(ops, tokens, key); } }
        assert TrustSets(ops', key) == {k};
      } else {
        assert TrustSets(ops', key) == TrustSets(ops, key);
      }
    }
  }

  lemma NoTrustSets(ops: OpMap, tokens: Table, key: string)
    requires LifecycleAgrees(ops, tokens) && key !in tokens
    ensures TrustSets(ops, key) == {}
  {
    forall k ensures k !in TrustSets(ops, key) {
      if k in ops && ops[k].operationType.TrustSet? {
        assert TrustKey(ops[k]) in tokens;
      }
    }
  }

  /** Resolution: the trust line leaves the queue as its token leaves Processing. */
  lemma LifecycleClosed(ops: OpMap, k: Sequence, tokens: Table, token: XrplToken)
    requires LifecycleAgrees(ops, tokens) && k in ops && ops[k].operationType.TrustSet?
    requires !token.state.Processing?
    ensures LifecycleAgrees(ops - {k}, tokens[TrustKey(ops[k]) := token])
  {
    var ops', tokens' := ops - {k}, tokens[TrustKey(ops[k]) := token];
    forall key | key in tokens'
      ensures |TrustSets(ops', key)| == Count(tokens'[key].state.Processing?)
    {
      if key == TrustKey(ops[k]) {
        assert k in TrustSets(ops, key);
        assert TrustSets(ops', key) == TrustSets(ops, key) - {k};
      } else {
        assert TrustSets(ops', key) == TrustSets(ops, key);
      }
    }
  }
}
