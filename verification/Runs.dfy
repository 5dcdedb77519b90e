/** Theorems about whole runs, I: soundness, tickets, votes, signatures and fees. */
module Runs {
  import opened Types
  import Amounts
  import Solvency
  import opened Relayers
  import opened Evidences
  import opened Tickets
  import opened Pending
  import opened Handlers
  import opened Flags
  import opened FeeBook
  import opened TokenTables
  import opened Quorum
  import opened Soundness
  import opened TicketFlow
  import opened TicketProgress
  import opened TicketCycle
  import opened Votes
  import opened Transitions
  import opened FeeFlow
  import opened Banking
  import opened World

  /** An accepted message is an execution on the state before it, and adds one receipt. */
  lemma DeliverMeans(chain: Chain, w: World, time: nat, msg: Msg)
    requires Deliver(chain, w, time, msg).Ok?
    ensures EnvOf(chain, w, time, msg).Ok?
    ensures var env := EnvOf(chain, w, time, msg).value;
            var w' := Deliver(chain, w, time, msg).value;
            && env.chain == chain && env.time == time
            && Execute(env, w.state, msg).Ok?
            && w'.state == Execute(env, w.state, msg).value.state
            && w'.trace == w.trace + [Receipt(env, w.state, msg, Execute(env, w.state, msg).value)]
  {
    hide Execute, ApplyAll, Attach, Solvency.LedgerAfter;
  }

  // ---------- soundness ----------

  lemma NextIsSound(chain: Chain, w: World, a: Action)
    requires Lawful(chain) && Sound(w.state)
    ensures Sound(Next(chain, w, a).state) && TablesExtend(w.state, Next(chain, w, a).state)
  {
    hide Sound, TablesExtend, Execute, Deliver, Next, Lawful, EnvOf;
    OnlyMessagesMatter(chain, w, a);
    if Next(chain, w, a).state == w.state {
      ExtendsItself(w.state);
    } else {
      DeliverMeans(chain, w, a.time, a.msg);
      SoundStep(EnvOf(chain, w, a.time, a.msg).value, w.state, a.msg);
    }
  }

  lemma ExtendsItself(s: State)
    ensures TablesExtend(s, s)
  {
  }

  lemma StartIsSound(chain: Chain, u: Setup)
    requires Lawful(chain) && Start(chain, u).Ok?
    ensures var w := Start(chain, u).value;
            && Sound(w.state) && w.trace == [] && w.state.pendingOperations == map[] && w.state.availableTickets == []
            && w.state.txEvidences == map[] && w.state.processedTxs == {} && w.state.usedTickets == 0
            && w.state.feesCollected == map[] && w.state.feeRemainders == map[] && w.state.pendingRefunds == map[]
            && !w.state.pendingTicketUpdate && w.state.config.usedTicketSequenceThreshold >= 2
  {
    hide Sound, ApplyAll, Amounts.ValidateXrplAmount;
    InstantiatedIsSound(chain, u.owner, u.relayers, u.evidenceThreshold, u.ticketThreshold, u.trustSetLimit,
                        u.bridgeAddress, u.baseFee, u.xrpDenom, u.osorEntryPoint);
  }

  /** Every reachable state is sound: the flags agree with the queue, every pending operation is
      executable at the configured fee, the token tables are consistent and apart, tokens are
      Processing exactly while their trust line is pending, and tallies stay short of the threshold. */
  lemma {:induction false} SoundnessOverRuns(chain: Chain, u: Setup, ws: seq<World>, acts: seq<Action>, i: nat)
    requires IsRun(chain, u, ws, acts) && i < |ws|
    ensures Sound(ws[i].state)
  {
    hide Sound, Start, Next, Lawful, TablesExtend;
    if i == 0 {
      StartIsSound(chain, u);
    } else {
      SoundnessOverRuns(chain, u, ws, acts, i - 1);
      assert ws[i - 1 + 1] == Next(chain, ws[i - 1], acts[i - 1]);
      NextIsSound(chain, ws[i - 1], acts[i - 1]);
    }
  }

  // ---------- tickets ----------

  /** The hypothesis on tickets binds only messages the contract accepts. */
  predicate TruthfulTickets(chain: Chain, w: World, a: Action) {
    IsAccepted(chain, w, a) ==> TicketHypothesis(EnvOf(chain, w, a.time, a.msg).value, w.state, a.msg)
  }

  /** Tickets granted beyond the used count over a whole trace. */
  function TotalSurplus(trace: seq<Receipt>): nat {
    if trace == [] then 0
    else
      var r := trace[|trace| - 1];
      TotalSurplus(trace[..|trace| - 1]) + Surplus(r.env, r.before, r.msg)
  }

  lemma SurplusOfLast(trace: seq<Receipt>, r: Receipt)
    ensures TotalSurplus(trace + [r]) == TotalSurplus(trace) + Surplus(r.env, r.before, r.msg)
  {
    hide Surplus;
    assert (trace + [r])[..|trace|] == trace;
  }

  predicate TicketsBalanced(w: World) {
    TicketsSound(w.state) && Stock(w.state) == TotalSurplus(w.trace)
  }

  lemma NextBalances(chain: Chain, w: World, a: Action)
    requires Sound(w.state) && TicketsBalanced(w) && TruthfulTickets(chain, w, a)
    ensures TicketsBalanced(Next(chain, w, a)) && Stock(w.state) <= Stock(Next(chain, w, a).state)
  {
    hide Sound, Execute, Deliver, Next, EnvOf, TicketsSound, Stock, TicketHypothesis, Surplus, TotalSurplus;
    OnlyMessagesMatter(chain, w, a);
    if !(Next(chain, w, a).state == w.state && Next(chain, w, a).trace == w.trace) {
      DeliverMeans(chain, w, a.time, a.msg);
      var env := EnvOf(chain, w, a.time, a.msg).value;
      TicketConservation(env, w.state, a.msg);
      SurplusOfLast(w.trace, Receipt(env, w.state, a.msg, Execute(env, w.state, a.msg).value));
    }
  }

  /** Over every run in which the ledger grants fresh tickets and results name their own sequences,
      available tickets have no duplicates, none is in flight, and the stock of tickets is exactly
      what grants have added beyond the used count. */
  lemma {:induction false} TicketsOverRuns(chain: Chain, u: Setup, ws: seq<World>, acts: seq<Action>, i: nat)
    requires IsRun(chain, u, ws, acts) && i < |ws|
    requires forall j | 0 <= j < |acts| :: TruthfulTickets(chain, ws[j], acts[j])
    ensures TicketsSound(ws[i].state) && Stock(ws[i].state) == TotalSurplus(ws[i].trace)
    ensures i > 0 ==> Stock(ws[i - 1].state) <= Stock(ws[i].state)
  {
    hide Sound, Start, Next, Lawful, TruthfulTickets, TicketsSound, TicketHypothesis;
    if i == 0 {
      StartIsSound(chain, u);
      NoTickets(ws[0].state);
    } else {
      TicketsOverRuns(chain, u, ws, acts, i - 1);
      SoundnessOverRuns(chain, u, ws, acts, i - 1);
      assert ws[i - 1 + 1] == Next(chain, ws[i - 1], acts[i - 1]);
      NextBalances(chain, ws[i - 1], acts[i - 1]);
    }
  }

  lemma NoTickets(s: State)
    requires s.pendingOperations == map[] && s.availableTickets == [] && s.usedTickets == 0
    ensures TicketsSound(s) && Stock(s) == 0
  {
    assert Ticketed(s.pendingOperations) == {};
  }

  predicate TruthfulProgress(chain: Chain, w: World, a: Action) {
    IsAccepted(chain, w, a) ==> ProgressHypothesis(EnvOf(chain, w, a.time, a.msg).value, w.state, a.msg)
  }

  lemma NextProgresses(chain: Chain, w: World, a: Action)
    requires Sound(w.state) && TicketsSound(w.state) && Progressing(w.state) && WithinUsed(w.state)
             && TruthfulProgress(chain, w, a)
    ensures Progressing(Next(chain, w, a).state) && TicketsSound(Next(chain, w, a).state)
            && WithinUsed(Next(chain, w, a).state)
  {
    hide Sound, Execute, Deliver, Next, EnvOf, TicketsSound, Progressing, WithinUsed, Surplus, TruthfulSequence,
      FullGrant;
    OnlyMessagesMatter(chain, w, a);
    if Next(chain, w, a).state != w.state {
      DeliverMeans(chain, w, a.time, a.msg);
      var env := EnvOf(chain, w, a.time, a.msg).value;
      TicketConservation(env, w.state, a.msg);
      ProgressStep(env, w.state, a.msg);
      WithinUsedStep(env, w.state, a.msg);
    }
  }

  lemma {:induction false} ProgressInvariant(chain: Chain, u: Setup, ws: seq<World>, acts: seq<Action>, i: nat)
    requires IsRun(chain, u, ws, acts) && i < |ws|
    requires forall j | 0 <= j < |acts| :: TruthfulProgress(chain, ws[j], acts[j])
    ensures Progressing(ws[i].state) && TicketsSound(ws[i].state) && WithinUsed(ws[i].state)
  {
    hide Sound, Start, Next, Lawful, TruthfulProgress, TicketsSound, ProgressHypothesis;
    if i == 0 {
      StartIsSound(chain, u);
      NoTickets(ws[0].state);
    } else {
      ProgressInvariant(chain, u, ws, acts, i - 1);
      SoundnessOverRuns(chain, u, ws, acts, i - 1);
      assert ws[i - 1 + 1] == Next(chain, ws[i - 1], acts[i - 1]);
      NextProgresses(chain, ws[i - 1], acts[i - 1]);
    }
  }

  /** Ticket progress: with a fixed threshold, full grants and no ticketed operation ending invalid
      or cancelled, a reachable state with nothing pending has no ticket, and then recovery is open
      to the owner, or at least two, and then allocation is open. It never has exactly one. */
  lemma TicketProgressOverRuns(chain: Chain, u: Setup, ws: seq<World>, acts: seq<Action>, i: nat)
    requires IsRun(chain, u, ws, acts) && i < |ws|
    requires forall j | 0 <= j < |acts| :: TruthfulProgress(chain, ws[j], acts[j])
    requires ws[i].state.pendingOperations == map[]
    ensures |ws[i].state.availableTickets| != 1
    ensures |ws[i].state.availableTickets| >= 2 ==> AllocateTicket(ws[i].state).Ok?
    ensures ws[i].state.availableTickets == [] ==> forall time: nat, account: Sequence, n: nat ::
              DoRecoverTickets(time, ws[i].state, ws[i].state.owner, account, Some(n)).Ok? <==>
                Threshold(ws[i].state) < n <= MAX_TICKETS
  {
    hide Sound, Start, Next, Lawful, TruthfulProgress, TicketsSound, Progressing, DoRecoverTickets, AllocateTicket;
    ProgressInvariant(chain, u, ws, acts, i);
    SoundnessOverRuns(chain, u, ws, acts, i);
    NeverExactlyOne(ws[i].state);
  }

  lemma NextStaysStranded(chain: Chain, w: World, a: Action)
    requires Stranded(w.state)
    ensures Stranded(Next(chain, w, a).state) && Next(chain, w, a).state.availableTickets == w.state.availableTickets
  {
    hide Execute, Deliver, Next, EnvOf;
    OnlyMessagesMatter(chain, w, a);
    if Next(chain, w, a).state != w.state {
      DeliverMeans(chain, w, a.time, a.msg);
      StrandedForEver(EnvOf(chain, w, a.time, a.msg).value, w.state, a.msg);
    }
  }

  /** Once a run has nothing pending and exactly one ticket, it stays so: no operation is ever
      queued again, whatever anyone does. */
  lemma {:induction false} StrandedOverRuns(chain: Chain, u: Setup, ws: seq<World>, acts: seq<Action>, i: nat, j: nat)
    requires IsRun(chain, u, ws, acts) && i <= j < |ws| && Stranded(ws[i].state)
    ensures Stranded(ws[j].state) && ws[j].state.availableTickets == ws[i].state.availableTickets
    decreases j
  {
    hide Start, Next, Lawful, Stranded;
    if i < j {
      StrandedOverRuns(chain, u, ws, acts, i, j - 1);
      assert ws[j - 1 + 1] == Next(chain, ws[j - 1], acts[j - 1]);
      NextStaysStranded(chain, ws[j - 1], acts[j - 1]);
    }
  }

  // ---------- votes ----------

  predicate RotatesHere(r: Receipt) { Rotates(r.env, r.before, r.msg) }

  /** `a` has voted for exactly this evidence since the last key rotation. */
  predicate VotedSince(trace: seq<Receipt>, a: Addr, ev: Evidence) {
    && trace != []
    && var r := trace[|trace| - 1];
    && !RotatesHere(r)
    && (r.msg == SaveEvidence(a, ev) || VotedSince(trace[..|trace| - 1], a, ev))
  }

  /** Every vote in a tally was cast since the last rotation. */
  ghost predicate TalliesWitnessed(w: World) {
    forall ev, a | ev in w.state.txEvidences && a in w.state.txEvidences[ev] :: VotedSince(w.trace, a, ev)
  }

  /** The evidence was voted for, in identical form, by a quorum of distinct relayers of the set in
      force, each since the last rotation. */
  ghost predicate Authorised(past: seq<Receipt>, r: Receipt) {
    r.msg.SaveEvidence? && exists voters: seq<Addr> ::
      && Voters(r.before.config.relayers, voters)
      && |voters| >= r.before.config.evidenceThreshold
      && forall a <- voters :: a == r.msg.sender || VotedSince(past, a, r.msg.evidence)
  }

  predicate Effective(r: Receipt) { TakesEffect(r.env, r.before, r.msg) }

  ghost predicate AllAuthorised(trace: seq<Receipt>) {
    forall j | 0 <= j < |trace| && Effective(trace[j]) :: Authorised(trace[..j], trace[j])
  }

  lemma OneMoreReceipt(trace: seq<Receipt>, r: Receipt)
    requires AllAuthorised(trace) && (Effective(r) ==> Authorised(trace, r))
    ensures AllAuthorised(trace + [r])
  {
    hide Authorised, Effective;
    var all := trace + [r];
    forall j | 0 <= j < |all| && Effective(all[j]) ensures Authorised(all[..j], all[j]) {
      if j < |trace| {
        assert all[..j] == trace[..j] && all[j] == trace[j];
      } else {
        assert all[..j] == trace;
      }
    }
  }

  lemma VoteIsWitnessed(trace: seq<Receipt>, r: Receipt, a: Addr, ev: Evidence)
    requires !RotatesHere(r) && (r.msg == SaveEvidence(a, ev) || VotedSince(trace, a, ev))
    ensures VotedSince(trace + [r], a, ev)
  {
    hide RotatesHere;
    var all := trace + [r];
    assert all[..|all| - 1] == trace && all[|all| - 1] == r;
  }

  lemma QuorumOf(chain: Chain, w: World, env: Env, msg: Msg, o: Outcome)
    requires Sound(w.state) && TalliesWitnessed(w) && env.chain == chain
    requires Execute(env, w.state, msg) == Ok(o) && TakesEffect(env, w.state, msg)
    ensures Authorised(w.trace, Receipt(env, w.state, msg, o))
  {
    hide Execute, FlagsAgree, TablesSound, HandleEvidence, IsRelayer, Voters, VotedSince;
    VoteStep(env, w.state, msg);
    QuorumReached(chain, w.state, msg.sender, msg.evidence);
    var voters := TallyWith(w.state, msg.sender, msg.evidence);
    assert forall a <- voters :: a == msg.sender || VotedSince(w.trace, a, msg.evidence);
  }

  lemma NextWitnesses(chain: Chain, w: World, a: Action)
    requires Sound(w.state) && TalliesWitnessed(w) && AllAuthorised(w.trace)
    ensures TalliesWitnessed(Next(chain, w, a)) && AllAuthorised(Next(chain, w, a).trace)
  {
    hide Sound, Execute, Deliver, Next, EnvOf, AllAuthorised, Authorised, VotedSince, HashMoves, IsRelayer,
      HandleEvidence;
    OnlyMessagesMatter(chain, w, a);
    var w' := Next(chain, w, a);
    if !(w'.state == w.state && w'.trace == w.trace) {
      DeliverMeans(chain, w, a.time, a.msg);
      var env := EnvOf(chain, w, a.time, a.msg).value;
      var r := Receipt(env, w.state, a.msg, Execute(env, w.state, a.msg).value);
      VoteStep(env, w.state, a.msg);
      if Effective(r) { QuorumOf(chain, w, env, a.msg, r.outcome); }
      OneMoreReceipt(w.trace, r);
      forall ev, v | ev in w'.state.txEvidences && v in w'.state.txEvidences[ev] ensures VotedSince(w'.trace, v, ev) {
        VoteIsWitnessed(w.trace, r, v, ev);
      }
    }
  }

  /** Quorum safety over every run, across key rotations: everything that ever took effect was voted
      for, in identical form and since the last rotation, by at least the threshold of distinct
      relayers of the set then in force. */
  lemma {:induction false} QuorumOverRuns(chain: Chain, u: Setup, ws: seq<World>, acts: seq<Action>, i: nat)
    requires IsRun(chain, u, ws, acts) && i < |ws|
    ensures TalliesWitnessed(ws[i]) && AllAuthorised(ws[i].trace)
  {
    hide Sound, Start, Next, Lawful, Authorised, VotedSince;
    if i == 0 {
      StartIsSound(chain, u);
    } else {
      QuorumOverRuns(chain, u, ws, acts, i - 1);
      SoundnessOverRuns(chain, u, ws, acts, i - 1);
      assert ws[i - 1 + 1] == Next(chain, ws[i - 1], acts[i - 1]);
      NextWitnesses(chain, ws[i - 1], acts[i - 1]);
    }
  }

  // ---------- at most once ----------

  /** The upper-cased hash for which a receipt took effect, if it did. */
  function HashOf(chain: Chain, r: Receipt): Option<string> {
    if Effective(r) then ClaimedHash(chain, r.msg.evidence) else None
  }

  /** No two reports of executed transactions took effect for hashes that differ only in letter case. */
  ghost predicate AtMostOnce(chain: Chain, trace: seq<Receipt>) {
    forall i, j | 0 <= i < j < |trace| && HashOf(chain, trace[i]).Some? ::
      HashOf(chain, trace[i]) != HashOf(chain, trace[j])
  }

  /** The processed transactions are exactly the upper-cased hashes that took effect. */
  ghost predicate HashesRecorded(chain: Chain, w: World) {
    && (forall r <- w.trace :: HashOf(chain, r).Some? ==> HashOf(chain, r).value in w.state.processedTxs)
    && (forall h | h in w.state.processedTxs :: exists r <- w.trace :: HashOf(chain, r) == Some(h))
  }

  lemma OneMoreHash(chain: Chain, w: World, w': World, r: Receipt)
    requires AtMostOnce(chain, w.trace) && HashesRecorded(chain, w) && w'.trace == w.trace + [r]
    requires HashOf(chain, r).Some? ==> HashOf(chain, r).value !in w.state.processedTxs
    requires w'.state.processedTxs ==
               w.state.processedTxs + (if HashOf(chain, r).Some? then {HashOf(chain, r).value} else {})
    ensures AtMostOnce(chain, w'.trace) && HashesRecorded(chain, w')
  {
    hide HashOf;
    var all := w'.trace;
    forall i, j | 0 <= i < j < |all| && HashOf(chain, all[i]).Some?
      ensures HashOf(chain, all[i]) != HashOf(chain, all[j])
    {
      assert all[i] == w.trace[i] && all[i] in w.trace;
    }
    forall h | h in w'.state.processedTxs ensures exists q <- all :: HashOf(chain, q) == Some(h) {
      if h in w.state.processedTxs {
        var q :| q in w.trace && HashOf(chain, q) == Some(h);
        assert q in all;
      } else {
        assert r in all;
      }
    }
  }

  lemma NextOnce(chain: Chain, w: World, a: Action)
    requires AtMostOnce(chain, w.trace) && HashesRecorded(chain, w)
    ensures AtMostOnce(chain, Next(chain, w, a).trace) && HashesRecorded(chain, Next(chain, w, a))
  {
    hide Execute, Deliver, Next, EnvOf, AtMostOnce, HashesRecorded, ClaimedHash, IsRelayer, HandleEvidence, TallyMoves,
      TakesEffect;
    OnlyMessagesMatter(chain, w, a);
    var w' := Next(chain, w, a);
    if w'.state == w.state && w'.trace == w.trace {
      SameHashes(chain, w, w');
    } else {
      DeliverMeans(chain, w, a.time, a.msg);
      var env := EnvOf(chain, w, a.time, a.msg).value;
      VoteStep(env, w.state, a.msg);
      OneMoreHash(chain, w, w', Receipt(env, w.state, a.msg, Execute(env, w.state, a.msg).value));
    }
  }

  lemma SameHashes(chain: Chain, w: World, w': World)
    requires HashesRecorded(chain, w) && w'.trace == w.trace && w'.state == w.state
    ensures HashesRecorded(chain, w')
  {
    hide HashOf;
  }

  /** At-most-once execution: over every run each upper-cased transaction hash takes effect at most
      once, whatever conflicting evidences, letter cases, rotations or leftover tallies exist. */
  lemma {:induction false} AtMostOnceInvariant(chain: Chain, u: Setup, ws: seq<World>, acts: seq<Action>, i: nat)
    requires IsRun(chain, u, ws, acts) && i < |ws|
    ensures AtMostOnce(chain, ws[i].trace) && HashesRecorded(chain, ws[i])
  {
    hide Start, Next, Lawful, HashOf;
    if i == 0 {
      StartIsSound(chain, u);
    } else {
      AtMostOnceInvariant(chain, u, ws, acts, i - 1);
      assert ws[i - 1 + 1] == Next(chain, ws[i - 1], acts[i - 1]);
      NextOnce(chain, ws[i - 1], acts[i - 1]);
    }
  }

  /** The raw hash of a report that says its transaction was executed. */
  predicate Reports(r: Receipt, hash: string) {
    && Effective(r)
    && match r.msg.evidence
       case XrplToCosmosTransfer(h, _, _, _, _, _) => h == hash
       case XrplTransactionResult(h, _, _, result, _) => h == Some(hash) && result != Invalid
  }

  /** At-most-once execution, spelled out: two effective reports of executed transactions never carry the
      same hash in any letter case, and the processed set is exactly the upper-cased hashes reported. */
  lemma AtMostOnceOverRuns(chain: Chain, u: Setup, ws: seq<World>, acts: seq<Action>, i: nat)
    requires IsRun(chain, u, ws, acts) && i < |ws|
    ensures forall m, n, h, h' | 0 <= m < n < |ws[i].trace| ::
              Reports(ws[i].trace[m], h) && Reports(ws[i].trace[n], h') ==>
                chain.toUppercase(h) != chain.toUppercase(h')
    ensures forall p :: p in ws[i].state.processedTxs <==>
              exists m, h :: 0 <= m < |ws[i].trace| && Reports(ws[i].trace[m], h) && chain.toUppercase(h) == p
  {
    hide Start, Next, Lawful, Effective;
    AtMostOnceInvariant(chain, u, ws, acts, i);
    var w := ws[i];
    forall m, n, h, h' | 0 <= m < n < |w.trace| && Reports(w.trace[m], h) && Reports(w.trace[n], h')
      ensures chain.toUppercase(h) != chain.toUppercase(h')
    {
      ReportsHash(chain, w.trace[m], h);
      ReportsHash(chain, w.trace[n], h');
    }
    forall p ensures p in w.state.processedTxs <==>
        exists m, h :: 0 <= m < |w.trace| && Reports(w.trace[m], h) && chain.toUppercase(h) == p
    {
      RecordedHash(chain, w, p);
    }
  }

  lemma ReportsHash(chain: Chain, r: Receipt, h: string)
    requires Reports(r, h)
    ensures HashOf(chain, r) == Some(chain.toUppercase(h))
  {
    hide TakesEffect;
  }

  lemma RecordedHash(chain: Chain, w: World, p: string)
    requires HashesRecorded(chain, w)
    ensures p in w.state.processedTxs <==>
              exists m, h :: 0 <= m < |w.trace| && Reports(w.trace[m], h) && chain.toUppercase(h) == p
  {
    hide HandleEvidence;
    if p in w.state.processedTxs {
      var r :| r in w.trace && HashOf(chain, r) == Some(p);
      var m :| 0 <= m < |w.trace| && w.trace[m] == r;
      var ev := r.msg.evidence;
      var h := if ev.XrplToCosmosTransfer? then ev.transferHash else ev.txHash.value;
      assert Reports(w.trace[m], h);
    }
    if m, h :| 0 <= m < |w.trace| && Reports(w.trace[m], h) && chain.toUppercase(h) == p {
      ReportsHash(chain, w.trace[m], h);
      assert w.trace[m] in w.trace;
    }
  }

  // ---------- signatures ----------

  /** The signature was submitted for this operation in this version. */
  ghost predicate Submitted(trace: seq<Receipt>, k: Sequence, version: nat, g: Signature) {
    exists r <- trace :: r.msg == SaveSignature(g.relayer, k, version, g.signature)
  }

  ghost predicate SignaturesWitnessed(w: World) {
    forall k | k in w.state.pendingOperations ::
      forall g <- w.state.pendingOperations[k].signatures ::
        Submitted(w.trace, k, w.state.pendingOperations[k].version, g)
  }

  lemma SubmittedKept(trace: seq<Receipt>, r: Receipt, k: Sequence, version: nat, g: Signature)
    requires Submitted(trace, k, version, g) || r.msg == SaveSignature(g.relayer, k, version, g.signature)
    ensures Submitted(trace + [r], k, version, g)
  {
    if Submitted(trace, k, version, g) {
      var q :| q in trace && q.msg == SaveSignature(g.relayer, k, version, g.signature);
      assert q in trace + [r];
    } else {
      assert r in trace + [r];
    }
  }

  lemma NextSignatures(chain: Chain, w: World, a: Action)
    requires SignaturesWitnessed(w)
    ensures SignaturesWitnessed(Next(chain, w, a))
  {
    hide Execute, Deliver, Next, EnvOf, Submitted, HasSigned;
    OnlyMessagesMatter(chain, w, a);
    var w' := Next(chain, w, a);
    if !(w'.state == w.state && w'.trace == w.trace) {
      DeliverMeans(chain, w, a.time, a.msg);
      var env := EnvOf(chain, w, a.time, a.msg).value;
      var r := Receipt(env, w.state, a.msg, Execute(env, w.state, a.msg).value);
      VersionStep(env, w.state, a.msg);
      forall k, g | k in w'.state.pendingOperations && g in w'.state.pendingOperations[k].signatures
        ensures Submitted(w'.trace, k, w'.state.pendingOperations[k].version, g)
      {
        assert OperationMoves(a.msg, k, w.state.pendingOperations, w'.state.pendingOperations[k]);
        SubmittedKept(w.trace, r, k, w'.state.pendingOperations[k].version, g);
      }
    }
  }

  /** Over every run each signature present was submitted for its operation's current version. */
  lemma {:induction false} SignaturesOverRuns(chain: Chain, u: Setup, ws: seq<World>, acts: seq<Action>, i: nat)
    requires IsRun(chain, u, ws, acts) && i < |ws|
    ensures SignaturesWitnessed(ws[i])
  {
    hide Start, Next, Lawful, Submitted;
    if i == 0 {
      StartIsSound(chain, u);
    } else {
      SignaturesOverRuns(chain, u, ws, acts, i - 1);
      assert ws[i - 1 + 1] == Next(chain, ws[i - 1], acts[i - 1]);
      NextSignatures(chain, ws[i - 1], acts[i - 1]);
    }
  }

  /** A pending operation that stays pending never loses version, and keeps its signatures unless its
      version rises. */
  lemma VersionsOverRuns(chain: Chain, u: Setup, ws: seq<World>, acts: seq<Action>, i: nat, k: Sequence)
    requires IsRun(chain, u, ws, acts) && i < |acts|
    requires forall j | 0 <= j < |acts| :: TruthfulTickets(chain, ws[j], acts[j])
    requires k in ws[i].state.pendingOperations && k in ws[i + 1].state.pendingOperations
    ensures var op, op' := ws[i].state.pendingOperations[k], ws[i + 1].state.pendingOperations[k];
            && op.version <= op'.version
            && (op.version == op'.version ==> op.signatures <= op'.signatures && op'.xrplBaseFee == op.xrplBaseFee)
            && (op.version < op'.version ==> op'.signatures == [])
            && op'.operationType == op.operationType && op'.id == op.id
  {
    hide Start, Next, Lawful, Deliver, Execute, EnvOf, TicketHypothesis, TicketsSound;
    TicketsOverRuns(chain, u, ws, acts, i);
    var w, a := ws[i], acts[i];
    assert ws[i + 1] == Next(chain, w, a);
    OnlyMessagesMatter(chain, w, a);
    if ws[i + 1].state != w.state {
      DeliverMeans(chain, w, a.time, a.msg);
      KeptStep(EnvOf(chain, w, a.time, a.msg).value, w.state, a.msg);
      assert OperationKept(a.msg, w.state.pendingOperations[k], ws[i + 1].state.pendingOperations[k]);
    }
  }

  // ---------- fees ----------

  function TotalCharged(trace: seq<Receipt>, d: string): nat {
    if trace == [] then 0
    else
      var r := trace[|trace| - 1];
      TotalCharged(trace[..|trace| - 1], d) + Charged(r.env, r.before, r.msg, d)
  }

  function TotalClaimed(trace: seq<Receipt>, d: string): nat {
    if trace == [] then 0
    else TotalClaimed(trace[..|trace| - 1], d) + Claimed(trace[|trace| - 1].msg, d)
  }

  lemma TotalsOfLast(trace: seq<Receipt>, r: Receipt, d: string)
    ensures TotalCharged(trace + [r], d) == TotalCharged(trace, d) + Charged(r.env, r.before, r.msg, d)
    ensures TotalClaimed(trace + [r], d) == TotalClaimed(trace, d) + Claimed(r.msg, d)
  {
    hide Charged, Claimed;
    assert (trace + [r])[..|trace|] == trace;
  }

  lemma NextConservesFees(chain: Chain, w: World, a: Action, d: string)
    requires Sound(w.state) && FeesOwed(w.state, d) + TotalClaimed(w.trace, d) == TotalCharged(w.trace, d)
    ensures var w' := Next(chain, w, a);
            FeesOwed(w'.state, d) + TotalClaimed(w'.trace, d) == TotalCharged(w'.trace, d)
  {
    hide Sound, Execute, Deliver, Next, EnvOf, Charged, Claimed, FeesOwed, TotalCharged, TotalClaimed;
    OnlyMessagesMatter(chain, w, a);
    var w' := Next(chain, w, a);
    if !(w'.state == w.state && w'.trace == w.trace) {
      DeliverMeans(chain, w, a.time, a.msg);
      var env := EnvOf(chain, w, a.time, a.msg).value;
      FeeStep(env, w.state, a.msg, d);
      TotalsOfLast(w.trace, Receipt(env, w.state, a.msg, Execute(env, w.state, a.msg).value), d);
    }
  }

  /** Fee conservation: per denom, all configured fees and truncation remainders ever charged are the
      uncollected balances of all present and past relayers, the stored remainder, and everything
      claimed; rotations lose nothing. */
  lemma {:induction false} FeesOverRuns(chain: Chain, u: Setup, ws: seq<World>, acts: seq<Action>, i: nat, d: string)
    requires IsRun(chain, u, ws, acts) && i < |ws|
    ensures FeesOwed(ws[i].state, d) + TotalClaimed(ws[i].trace, d) == TotalCharged(ws[i].trace, d)
  {
    hide Sound, Start, Next, Lawful, Charged, Claimed;
    if i == 0 {
      StartIsSound(chain, u);
      assert Uncollected(ws[0].state.feesCollected, d) == map[];
    } else {
      FeesOverRuns(chain, u, ws, acts, i - 1, d);
      SoundnessOverRuns(chain, u, ws, acts, i - 1);
      assert ws[i - 1 + 1] == Next(chain, ws[i - 1], acts[i - 1]);
      NextConservesFees(chain, ws[i - 1], acts[i - 1], d);
    }
  }
}
