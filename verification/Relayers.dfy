/** The relayer set: validation and key rotation (relayer.rs). */
module Relayers {
  import opened Types
  import opened Tokens

  predicate IsRelayer(relayers: seq<Relayer>, sender: Addr) {
    exists r <- relayers :: r.cosmosAddress == sender
  }

  /** One round of the validation loop, `seen` being the relayers already passed. */
  function CheckRelayer(chain: Chain, prohibited: set<string>, seen: seq<Relayer>, relayer: Relayer): Result<()> {
    if !chain.validCosmosAddress(relayer.cosmosAddress) then Err(InvalidCosmosAddress)
    else
      var _ :- ValidateXrplAddress(chain, prohibited, relayer.xrplAddress);
      if exists q <- seen :: q.xrplAddress == relayer.xrplAddress then Err(DuplicatedRelayer)
      else if exists q <- seen :: q.xrplPubKey == relayer.xrplPubKey then Err(DuplicatedRelayer)
      else if exists q <- seen :: q.cosmosAddress == relayer.cosmosAddress then Err(DuplicatedRelayer)
      else Ok(())
  }

  function CheckRelayers(chain: Chain, prohibited: set<string>, relayers: seq<Relayer>): Result<()> {
    if relayers == [] then Ok(())
    else
      var init := relayers[..|relayers| - 1];
      var _ :- CheckRelayers(chain, prohibited, init);
      CheckRelayer(chain, prohibited, init, relayers[|relayers| - 1])
  }

  function ValidateRelayers(chain: Chain, prohibited: set<string>, relayers: seq<Relayer>, threshold: nat): Result<()> {
    if threshold == 0 || threshold > |relayers| then Err(InvalidThreshold)
    else if |relayers| > MAX_RELAYERS then Err(TooManyRelayers)
    else CheckRelayers(chain, prohibited, relayers)
  }

  /** No two entries share an address or a key. */
  predicate DistinctRelayers(relayers: seq<Relayer>) {
    forall i, j | 0 <= i < j < |relayers| ::
      && relayers[i].cosmosAddress != relayers[j].cosmosAddress
      && relayers[i].xrplAddress != relayers[j].xrplAddress
      && relayers[i].xrplPubKey != relayers[j].xrplPubKey
  }

  /** A relayer set that can reach its threshold with distinct voters. */
  predicate ProperRelayers(relayers: seq<Relayer>, threshold: nat) {
    1 <= threshold <= |relayers| <= MAX_RELAYERS && DistinctRelayers(relayers)
  }

  lemma NoRelayersAreDistinct()
    ensures DistinctRelayers([])
  {
  }

  lemma DistinctAppend(init: seq<Relayer>, last: Relayer)
    ensures DistinctRelayers(init + [last]) <==>
              && DistinctRelayers(init)
              && forall q <- init ::
                   && q.cosmosAddress != last.cosmosAddress
                   && q.xrplAddress != last.xrplAddress
                   && q.xrplPubKey != last.xrplPubKey
  {
    var all := init + [last];
    assert forall i | 0 <= i < |init| :: all[i] == init[i];
    if DistinctRelayers(all) {
      forall i, j | 0 <= i < j < |init|
        ensures init[i].cosmosAddress != init[j].cosmosAddress
        ensures init[i].xrplAddress != init[j].xrplAddress
        ensures init[i].xrplPubKey != init[j].xrplPubKey
      {
        assert all[i] == init[i] && all[j] == init[j];
      }
      forall q | q in init
        ensures q.cosmosAddress != last.cosmosAddress
        ensures q.xrplAddress != last.xrplAddress
        ensures q.xrplPubKey != last.xrplPubKey
      {
        var i :| 0 <= i < |init| && init[i] == q;
        assert all[i] == q && all[|init|] == last;
      }
    }
  }

  /** The three hash sets find exactly the duplicates: validation succeeds iff the set is proper
      and every address is well formed and allowed. */
  lemma {:induction false} CheckRelayersMeans(chain: Chain, prohibited: set<string>, relayers: seq<Relayer>)
    ensures CheckRelayers(chain, prohibited, relayers).Ok? <==>
              && DistinctRelayers(relayers)
              && forall r <- relayers ::
                   && chain.validCosmosAddress(r.cosmosAddress)
                   && chain.validXrplAddress(r.xrplAddress)
                   && r.xrplAddress !in prohibited
  {
    hide DistinctRelayers;
    if relayers == [] {
      NoRelayersAreDistinct();
    } else {
      var init, last := relayers[..|relayers| - 1], relayers[|relayers| - 1];
      CheckRelayersMeans(chain, prohibited, init);
      assert relayers == init + [last];
      assert forall i | 0 <= i < |init| :: relayers[i] == init[i] && init[i] in init;
      DistinctAppend(init, last);
    }
  }

  lemma ValidRelayersAreProper(chain: Chain, prohibited: set<string>, relayers: seq<Relayer>, threshold: nat)
    requires ValidateRelayers(chain, prohibited, relayers, threshold).Ok?
    ensures ProperRelayers(relayers, threshold)
  {
    CheckRelayersMeans(chain, prohibited, relayers);
  }

  function HandleRotateKeysConfirmation(s: State, relayers: seq<Relayer>, threshold: nat,
                                        result: TransactionResult): State {
    var s1 := if result.Accepted? then
                s.(config := s.config.(relayers := relayers, evidenceThreshold := threshold),
                   txEvidences := map[])
              else s;
    s1.(pendingRotateKeys := false)
  }
}
