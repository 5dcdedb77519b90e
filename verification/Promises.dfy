/** What soundness promises a reader, spelled out for every world of every run. */
module Promises {
  import opened Types
  import opened Amounts
  import opened Tokens
  import opened Handlers
  import opened Flags
  import opened TokenTables
  import opened Queue
  import opened Lifecycle
  import opened Soundness
  import opened TicketFlow
  import opened TicketProgress
  import opened TicketCycle
  import opened Transitions
  import opened World
  import opened Runs

  ghost function Pick<T>(s: set<T>): (x: T)
    requires s != {}
    ensures x in s
  {
    var x :| x in s;
    x
  }

  lemma OneElement(s: set<Sequence>)
    ensures |s| == 1 <==> exists k :: s == {k}
    ensures |s| == 0 <==> s == {}
  {
    if |s| == 1 {
      var x := Pick(s);
      assert |s - {x}| == 0;
      assert s == {x};
    }
  }

  /** The ticket-update flag is up exactly when exactly one ticket allocation is pending, and down
      exactly when none is; the same for the rotate flag, and then the bridge is halted. */
  lemma FlagsOverRuns(chain: Chain, u: Setup, ws: seq<World>, acts: seq<Action>, i: nat)
    requires IsRun(chain, u, ws, acts) && i < |ws|
    ensures var s := ws[i].state;
            && (s.pendingTicketUpdate <==> exists k :: Allocations(s.pendingOperations) == {k})
            && (!s.pendingTicketUpdate <==> Allocations(s.pendingOperations) == {})
            && (s.pendingRotateKeys <==> exists k :: Rotations(s.pendingOperations) == {k})
            && (!s.pendingRotateKeys <==> Rotations(s.pendingOperations) == {})
            && (s.pendingRotateKeys ==> s.config.bridgeState.Halted?)
  {
    hide Sound, Start, Next, Lawful, Allocations, Rotations;
    SoundnessOverRuns(chain, u, ws, acts, i);
    SoundFlags(ws[i].state);
    OneElement(Allocations(ws[i].state.pendingOperations));
    OneElement(Rotations(ws[i].state.pendingOperations));
  }

  /** A token is Processing exactly when exactly one trust line for its key is pending; and from one
      world to the next, owner updates move a token only between Enabled and Disabled, recovery alone
      leaves Inactive, and a resolution alone leaves Processing. */
  lemma TokenLifecycleOverRuns(chain: Chain, u: Setup, ws: seq<World>, acts: seq<Action>, i: nat, key: string)
    requires IsRun(chain, u, ws, acts) && i < |acts| && key in ws[i].state.xrplTokens
    ensures var s, s' := ws[i].state, ws[i + 1].state;
            && (s.xrplTokens[key].state.Processing? <==> exists k :: TrustSets(s.pendingOperations, key) == {k})
            && key in s'.xrplTokens
            && var before, after := s.xrplTokens[key].state, s'.xrplTokens[key].state;
            && (before != after ==> acts[i].Message? && PermittedMove(acts[i].msg, key, before, after))
  {
    hide Sound, Start, Next, Lawful, TrustSets, Deliver, Execute, EnvOf;
    SoundnessOverRuns(chain, u, ws, acts, i);
    var w, a := ws[i], acts[i];
    SoundTokens(w.state);
    OneElement(TrustSets(w.state.pendingOperations, key));
    assert ws[i + 1] == Next(chain, w, a);
    OnlyMessagesMatter(chain, w, a);
    if ws[i + 1].state != w.state {
      DeliverMeans(chain, w, a.time, a.msg);
      TokenStateStep(EnvOf(chain, w, a.time, a.msg).value, w.state, a.msg);
    }
  }

  lemma SoundTokens(s: State)
    requires Sound(s)
    ensures LifecycleAgrees(s.pendingOperations, s.xrplTokens)
  {
  }

  /** Every pending transfer is positive, at most its maximum, and both amounts have at most sixteen
      significant digits. */
  lemma PendingTransfersOverRuns(chain: Chain, u: Setup, ws: seq<World>, acts: seq<Action>, i: nat, k: Sequence)
    requires IsRun(chain, u, ws, acts) && i < |ws|
    requires k in ws[i].state.pendingOperations && ws[i].state.pendingOperations[k].operationType.CosmosToXrplTransfer?
    ensures var t := ws[i].state.pendingOperations[k].operationType;
            && 0 < t.amount && Representable(t.amount)
            && (t.maxAmount.Some? ==> t.amount <= t.maxAmount.value && Representable(t.maxAmount.value))
            && (t.maxAmount.None? ==> IsTokenXrp(t.issuer, t.currency))
  {
    hide Sound, Start, Next, Lawful, Representable, OperationSound, ValidateXrplAmount;
    SoundnessOverRuns(chain, u, ws, acts, i);
    SoundOperation(ws[i].state, k);
    var t := ws[i].state.pendingOperations[k].operationType;
    SoundTransfer(ws[i].state, k);
    XrplAmountRule(t.amount);
    if t.maxAmount.Some? { XrplAmountRule(t.maxAmount.value); }
  }

  lemma SoundTransfer(s: State, k: Sequence)
    requires k in s.pendingOperations && OperationSound(s, k, s.pendingOperations[k])
    requires s.pendingOperations[k].operationType.CosmosToXrplTransfer?
    ensures TransferSound(s, s.pendingOperations[k].operationType)
  {
  }

  /** The bridge address stays prohibited, and no currency it issues is ever a key of the XRPL table:
      a Cosmos-originated transfer is never resolved as an XRPL-originated one. */
  lemma KeySeparationOverRuns(chain: Chain, u: Setup, ws: seq<World>, acts: seq<Action>, i: nat, currency: string)
    requires IsRun(chain, u, ws, acts) && i < |ws|
    ensures ws[i].state.config.bridgeXrplAddress in ws[i].state.prohibitedXrplAddresses
    ensures ValidateXrplCurrency(currency).Ok? ==>
              BuildXrplTokenKey(ws[i].state.config.bridgeXrplAddress, currency) !in ws[i].state.xrplTokens
  {
    hide Sound, Start, Next, Lawful, TablesSound, ValidateXrplCurrency;
    SoundnessOverRuns(chain, u, ws, acts, i);
    TablesOf(ws[i].state);
    BridgeIsProhibited(ws[i].state);
    if ValidateXrplCurrency(currency).Ok? {
      BridgeIssuedIsNotXrpl(ws[i].state, currency);
    }
  }

  lemma TablesOf(s: State)
    requires Sound(s)
    ensures TablesSound(s)
  {
  }

  /** All pending operations carry the configured base fee, a version of at least one, and no relayer
      signs one twice. */
  lemma BaseFeeOverRuns(chain: Chain, u: Setup, ws: seq<World>, acts: seq<Action>, i: nat, k: Sequence)
    requires IsRun(chain, u, ws, acts) && i < |ws| && k in ws[i].state.pendingOperations
    ensures var op := ws[i].state.pendingOperations[k];
            && op.xrplBaseFee == ws[i].state.config.xrplBaseFee && op.version >= 1
            && forall m, n | 0 <= m < n < |op.signatures| :: op.signatures[m].relayer != op.signatures[n].relayer
  {
    hide Sound, Start, Next, Lawful, TransferSound;
    SoundnessOverRuns(chain, u, ws, acts, i);
    SoundOperation(ws[i].state, k);
  }

  // ---------- the automatic cycle ----------

  lemma {:induction false} WithinUsedOverRuns(chain: Chain, u: Setup, ws: seq<World>, acts: seq<Action>, i: nat)
    requires IsRun(chain, u, ws, acts) && i < |ws|
    ensures WithinUsed(ws[i].state)
  {
    hide Sound, Start, Next, Lawful, Deliver, Execute, EnvOf;
    if i == 0 {
      StartIsSound(chain, u);
    } else {
      WithinUsedOverRuns(chain, u, ws, acts, i - 1);
      SoundnessOverRuns(chain, u, ws, acts, i - 1);
      var w, a := ws[i - 1], acts[i - 1];
      assert ws[i - 1 + 1] == Next(chain, w, a);
      OnlyMessagesMatter(chain, w, a);
      if ws[i].state != w.state {
        DeliverMeans(chain, w, a.time, a.msg);
        WithinUsedStep(EnvOf(chain, w, a.time, a.msg).value, w.state, a.msg);
      }
    }
  }

  /** Over every run the stock of tickets stays constant through every ticketed result whose grant, if
      any, is of the size asked for: only recoveries enlarge it. A vote that takes no effect is free. */
  lemma NeutralCycleOverRuns(chain: Chain, u: Setup, ws: seq<World>, acts: seq<Action>, i: nat)
    requires IsRun(chain, u, ws, acts) && i < |acts|
    requires forall j | 0 <= j < |acts| :: TruthfulTickets(chain, ws[j], acts[j])
    requires acts[i].Message? && acts[i].msg.SaveEvidence?
    requires acts[i].msg.evidence.XrplTransactionResult? && acts[i].msg.evidence.ticketSequence.Some?
    requires IsAccepted(chain, ws[i], acts[i])
             && TakesEffect(EnvOf(chain, ws[i], acts[i].time, acts[i].msg).value, ws[i].state, acts[i].msg) ==>
               FullGrant(ws[i].state, acts[i].msg.evidence)
    ensures Stock(ws[i + 1].state) == Stock(ws[i].state)
  {
    hide Sound, Start, Next, Lawful, Deliver, ExecuteOpening, ExecuteSetting, DoSaveEvidence, EnvOf, TicketsSound,
      Stock, FullGrant, TruthfulSequence, WithinUsed;
    var w, a := ws[i], acts[i];
    TicketsOverRuns(chain, u, ws, acts, i);
    SoundnessOverRuns(chain, u, ws, acts, i);
    WithinUsedOverRuns(chain, u, ws, acts, i);
    assert ws[i + 1] == Next(chain, w, a);
    OnlyMessagesMatter(chain, w, a);
    if ws[i + 1].state != w.state {
      DeliverMeans(chain, w, a.time, a.msg);
      assert TruthfulTickets(chain, w, a);
      AutomaticCycleIsNeutral(EnvOf(chain, w, a.time, a.msg).value, w.state, a.msg.sender, a.msg.evidence);
    }
  }
}
