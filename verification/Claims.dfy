/** Claims and signatures: exactly when they are accepted, whom they pay, and what they leave. */
module Claims {
  import opened Types
  import opened Pending
  import opened Fees
  import opened Handlers
  import opened FeeBook
  import opened Soundness

  /** A refund is paid on an active bridge, once, to the claimer it is stored for. */
  lemma ClaimRefundMeans(env: Env, s: State, sender: Addr, id: OperationId)
    ensures var r := Execute(env, s, ClaimRefund(sender, id));
            var key := RefundKey(sender, id);
            && (r.Ok? <==> s.config.bridgeState == Active && key in s.pendingRefunds)
            && (r.Ok? ==>
                  && r.value.msgs == [Send(sender, [s.pendingRefunds[key].coin])]
                  && r.value.state.pendingRefunds == s.pendingRefunds - {key}
                  && KeepsFees(s, r.value.state) && KeepsQueue(s, r.value.state) && KeepsTickets(s, r.value.state))
  {
    hide ExecuteOpening, ExecuteResolving;
  }

  /** Fees are paid on an active bridge to a relayer, present or past, out of that relayer's own list:
      exactly when each claimed denom is there and the total claimed of it fits. */
  lemma ClaimFeesMeans(env: Env, s: State, sender: Addr, amounts: seq<Coin>)
    requires Sound(s)
    ensures var r := Execute(env, s, ClaimRelayerFees(sender, amounts));
            && (r.Ok? <==>
                  && s.config.bridgeState == Active && sender in s.feesCollected
                  && forall a <- amounts ::
                       && HasDenom(s.feesCollected[sender], a.denom)
                       && AmountOf(amounts, a.denom) <= AmountOf(s.feesCollected[sender], a.denom))
            && (r.Ok? ==>
                  && r.value.msgs == [Send(sender, amounts)]
                  && sender in r.value.state.feesCollected
                  && (forall a | a != sender ::
                        GetOr(r.value.state.feesCollected, a, []) == GetOr(s.feesCollected, a, []))
                  && (forall d :: AmountOf(r.value.state.feesCollected[sender], d)
                                  == AmountOf(s.feesCollected[sender], d) - AmountOf(amounts, d))
                  && KeepsRefunds(s, r.value.state) && KeepsQueue(s, r.value.state))
  {
    hide Sound, ExecuteOpening, ExecuteResolving, AmountOf, HasDenom, SubtractAll, NonZero, DistinctDenoms, BookSound;
    SoundBook(s);
    if sender in s.feesCollected {
      BookList(s.feesCollected, sender);
      var coins := s.feesCollected[sender];
      ClaimRefinesMap(coins, amounts);
      if SubtractAll(coins, amounts).Ok? {
        forall d
          ensures AmountOf(NonZero(SubtractAll(coins, amounts).value), d) == AmountOf(coins, d) - AmountOf(amounts, d)
        {
          NonZeroMeans(SubtractAll(coins, amounts).value, d);
        }
      }
    }
  }

  lemma BookList(fees: Book, a: Addr)
    requires BookSound(fees) && a in fees
    ensures DistinctDenoms(fees[a])
  {
  }

  /** While the bridge is halted only allocations, and a rotation under way, may be signed. */
  predicate MaySign(s: State, typ: OperationType) {
    s.config.bridgeState == Halted ==> typ.AllocateTickets? || (typ.RotateKeys? && s.pendingRotateKeys)
  }

  /** A signature is accepted exactly from a current relayer who has not signed, for the operation's
      current version, and is then appended to that operation's signatures and to no other's. */
  lemma SignatureMeans(env: Env, s: State, sender: Addr, id: Sequence, version: nat, signature: string)
    ensures var r := Execute(env, s, SaveSignature(sender, id, version, signature));
            && (r.Ok? <==>
                  && (exists q <- s.config.relayers :: q.cosmosAddress == sender)
                  && |signature| <= 200 && id in s.pendingOperations
                  && var op := s.pendingOperations[id];
                  && version == op.version && MaySign(s, op.operationType)
                  && forall g <- op.signatures :: g.relayer != sender)
            && (r.Ok? ==>
                  && r.value.msgs == []
                  && var op := s.pendingOperations[id];
                  && r.value.state.pendingOperations == s.pendingOperations[id :=
                       op.(signatures := op.signatures + [Signature(sender, signature)])])
  {
    hide ExecuteOpening, ExecuteResolving, SameWork;
  }
}
