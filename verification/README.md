# The XRPL bridge contract: a verified model

`contracts/cw-xrpl` bridges tokens between a Cosmos chain and the XRP Ledger. Relayers vote on what
happened on the ledger; votes that reach a threshold mint, pay out, burn, refund, move tickets, rotate
keys and change token states together. This project models the contract's stored state, all eighteen
messages that concern the bridge, the arithmetic they use, and the bank and ledger around them, and
proves what the contract is for over every run.

## Layout

- **Values and handlers.** `Types` is the vocabulary. `Amounts`, `Tokens`, `Pending`, `Tickets`,
  `Relayers`, `Evidences`, `Fees`, `Operations` and `Handlers` give each piece of the contract as a
  function from the stored state to its outcome or error, with the same order of checks as the code.
- **The program.** `Contract` is the contract as a class whose fields are the stored items and whose
  methods load, change and save them step by step; `Loops` holds its loops. Each method is proved to do
  what its function says, and `Contract.Contract.Execute` adds the host's rollback, so every theorem
  about the functions is a theorem about the program.
- **Invariants.** `Flags`, `TokenTables`, `Queue`, `Lifecycle`, `Quorum` and `FeeBook` are joined in
  `Soundness`. `TicketFlow`, `TicketCycle` and `TicketProgress` follow the tickets; `Banking`, `Escrow`,
  `Solvency`, `Peg`, `Holding` and `FeeFlow` follow the money; `Transfers` follows each queued transfer;
  `Votes`, `Transitions`, `Halting`, `Resolvability` and `Stranding` say what one message may do.
- **What each message means.** `Admission`, `Acceptance`, `Settings`, `TokenUpdates`, `Claims`, `Sends` and
  `Arrivals` (with the amounts of `Quotes`) say, without naming a handler, when messages are accepted, whom they pay, how much, and
  what they leave of configuration, tables, queue and tallies.
- **Runs.** `World` puts contract, bank and ledger together. An action is a message, coins sent to the
  contract, coins of a foreign denom appearing, the ledger executing a pending transfer, the ledger
  charging its fee, or a payment arriving at the bridge account under its transaction hash. Holdings and
  outstanding amounts move when the ledger moves, never at a report. `IsRun` is a sequence of worlds from
  instantiation on. `Runs`, `Ledgers`, `Promises`, `Transfers`, `Stranding`, `Ballots` and `Custody` hold the
  theorems over every run; `Findings`, `Witness` and `LostRefund` hold what is not true of the code.

## Hypotheses

A theorem names the ones it needs; the others hold whatever anyone does. All but the first bind only
messages that the contract accepts, and of votes only the one that reaches the threshold: relayers below the
threshold, outsiders and refused messages are free.

- `Lawful`: a valid XRPL address has 25 to 35 characters (it is base58 for 25 bytes).
- `TruthfulTickets`: granted tickets are new, and a result names the same kind of sequence as its operation.
- `TruthfulProgress`: also, the threshold is left alone, grants are full, and no ticketed operation is
  resolved as invalid or cancelled.
- `TruthfulWorld`: a transfer evidence reports a payment that arrived under its hash, with its issuer,
  currency and amount; an outgoing transfer is reported accepted exactly when the ledger executed it, and is
  not cancelled once executed. That no more of a bridge-issued currency returns than was issued is a law of
  the ledger's own moves.
- `TruthfulClock`, for the freshness of refund identifiers alone: a ticket is not re-used in the second of a
  refund that still carries its number.

## Where code and promise differ

- Instantiation accepts a ticket threshold of 250, with which tickets can never be recovered
  (`Findings.RecoveryNeedsLowerThreshold`, `Findings.DeadOverRuns`, `Witness.DeadRun`).
- Some resolutions strand the bridge on one ticket for ever, an invalid result on the last ticket among them
  (`Stranding.StrandsIff` says which, `Witness.StrandingRun` gives a run, `Runs.StrandedOverRuns`).
- Two transfers on one ticket in one second share a refund identifier, and the second refund replaces the
  first (`Findings.RefundKeptIffFresh`, `Findings.SameSecondSameId`, `LostRefund.LosingRun`).
- `update_xrpl_token` reads the decimals off the pair in the message, not off the token, so XRP can be
  given a precision above its six decimals (`Findings.PrecisionBeyondDecimals`).
- The comment at `contracts/cw-xrpl/src/contract.rs:681-683` says a halted bridge accepts only ticket and
  rotation results. The code accepts every result; the model follows the code
  (`Resolvability.ResultIsAccepted`).

## Model

| member | source | states |
|---|---|---|
| `Ledgers.SolvencyOverRuns` | contracts/cw-xrpl/src/contract.rs:734-918 | over every run, in every denom, the contract's balance covers the locks of pending transfers, pending refunds, all relayers' fees, the fee remainder, everything outstanding on the ledger, and every return that has arrived there and is not yet paid, in the token's own decimals (below, at and above 15) |
| `Ledgers.NoPaymentLacksFunds` | contracts/cw-xrpl/src/contract.rs:1524-1565 | so in every world of a run a message goes through exactly when its handler accepts it: no refund, claim, return payment or burn is refused by the bank |
| `Ledgers.PaymentsSucceed` | contracts/cw-xrpl/src/operation.rs:232-247 | the same for any solvent world: a truthful message goes through exactly when its handler accepts it, but for the creation of an existing denom |
| `Ledgers.PegOverRuns` | contracts/cw-xrpl/src/contract.rs:734-814 | for every issued token except XRP the wrapped supply, with every arrival whose hash is not yet processed, never exceeds the bridge account's holdings plus the coins still to be burned, nor the holdings alone once every executed transfer is reported; holdings grow when a payment arrives, not when it is reported |
| `Ledgers.HoldingLimitOverRuns` | contracts/cw-xrpl/src/contract.rs:752-764 | over every run, without any hypothesis on what is reported, the wrapped supply never exceeds `max_holding_amount`, across token updates |
| `Ledgers.ResolvableOverRuns` | contracts/cw-xrpl/src/contract.rs:919-984 | in every world of a run, halted or not, a vote for a well-formed truthful result of any pending operation goes through with its bank messages, exactly unless it reaches the threshold with the 32-bit used-ticket counter exhausted |
| `Runs.SoundnessOverRuns` | contracts/cw-xrpl/src/contract.rs:205-394 | every reachable state is sound: flags, tables, queue, token lifecycle, relayer set, tallies and fee book, whatever anyone sends |
| `Runs.TicketsOverRuns` | contracts/cw-xrpl/src/tickets.rs:13-115 | available tickets have no duplicates and are disjoint from pending ids; available + in flight + used equals the sum of what grants added beyond the used count, and never decreases; votes below the threshold and refused messages are unconstrained |
| `Promises.NeutralCycleOverRuns` | contracts/cw-xrpl/src/tickets.rs:31-64 | the stock of tickets is unchanged by every ticketed result whose grant, if any, is of the size asked for |
| `Promises.WithinUsedOverRuns` | contracts/cw-xrpl/src/tickets.rs:41-57 | a pending automatic allocation never asks for more tickets than are counted as used |
| `Runs.TicketProgressOverRuns` | contracts/cw-xrpl/src/tickets.rs:13-64 | with a fixed threshold, full grants and no ticketed operation resolved as invalid or cancelled: with nothing pending there are no tickets and recovery succeeds for exactly the numbers above the threshold up to 250, or at least two and allocation succeeds; never exactly one |
| `Runs.StrandedOverRuns` | contracts/cw-xrpl/src/contract.rs:1015-1047 | a run with one ticket and nothing pending keeps exactly that ticket and an empty queue for ever |
| `Stranding.StrandedExactly` | contracts/cw-xrpl/src/tickets.rs:13-28 | a run is stranded on one ticket exactly when one of its messages was a stranding move |
| `Witness.StrandingRun` | contracts/cw-xrpl/src/operation.rs:171-174 | a concrete run, truthful in every sequence, grant and payment, whose last report is invalid on the last ticket and which ends stranded: the progress hypothesis is needed |
| `Runs.QuorumOverRuns` | contracts/cw-xrpl/src/evidence.rs:150-194 | everything that ever took effect was voted for in identical form, since the last key rotation, by at least the threshold of distinct relayers of the set then in force |
| `Runs.AtMostOnceOverRuns` | contracts/cw-xrpl/src/evidence.rs:66-72 | over every run two effective reports of executed transactions never carry the same hash in any letter case, and the processed set is exactly the upper-cased hashes reported |
| `Ballots.TalliesOverRuns` | contracts/cw-xrpl/src/evidence.rs:161-193 | over every run a stored tally is exactly the votes cast for its evidence since the last rotation or its own effect: none forgotten, none invented |
| `Ballots.CommitteeOverRuns` | contracts/cw-xrpl/src/relayer.rs:73-79 | over every run the relayers in force and their threshold are those of the last accepted rotation, or of the setup |
| `Custody.EscrowLimitOverRuns` | contracts/cw-xrpl/src/contract.rs:1280-1288 | once the contract's balance of a Cosmos token is within its limit it stays so over the run, across sends, returns, claims and updates, as long as nobody deposits coins unasked |
| `Runs.SignaturesOverRuns` | contracts/cw-xrpl/src/signatures.rs:28-60 | every signature present was submitted for its operation's current version |
| `Runs.VersionsOverRuns` | contracts/cw-xrpl/src/contract.rs:1462-1488 | an operation that stays pending keeps its identity; its version never decreases, signatures only accumulate while it stands, and are all dropped when it rises |
| `Runs.FeesOverRuns` | contracts/cw-xrpl/src/fees.rs:19-79 | per denom, the configured fee and truncation remainder of every send and arrival of a run add up to the uncollected balances of all present and past relayers + remainder + everything claimed |
| `Transfers.TransfersOverRuns` | contracts/cw-xrpl/src/operation.rs:202-332 | a queued transfer that is gone has left in exactly one step of the run, leaving exactly one burn of its lock, one refund of its lock, or its value on the ledger |
| `Transfers.FreshIdsOverRuns` | contracts/cw-xrpl/src/operation.rs:95-98 | while no ticket is re-used in the second of a refund that carries its number, no queued transfer shares a refund's identifier |
| `Transfers.RefundsAddOverRuns` | contracts/cw-xrpl/src/operation.rs:334-352 | then the refund a transfer leaves replaces none |
| `Transfers.RefundsPositiveOverRuns` | contracts/cw-xrpl/src/operation.rs:250-308 | every pending refund is positive |
| `Promises.FlagsOverRuns` | contracts/cw-xrpl/src/contract.rs:1022-1057 | each flag is up exactly when exactly one operation of its kind is pending and down exactly when none is; a rotation implies Halted |
| `Promises.TokenLifecycleOverRuns` | contracts/cw-xrpl/src/operation.rs:179-200 | a token is Processing exactly when exactly one trust line for its key is pending, and changes state only as permitted to the message that ran |
| `Promises.PendingTransfersOverRuns` | contracts/cw-xrpl/src/contract.rs:1295-1321 | every pending transfer has 0 < amount ≤ max_amount, both of at most sixteen significant digits; only XRP lacks a maximum |
| `Promises.KeySeparationOverRuns` | contracts/cw-xrpl/src/contract.rs:1648-1653 | the bridge address stays prohibited and no currency it issues is ever a key of the XRPL table |
| `Promises.BaseFeeOverRuns` | contracts/cw-xrpl/src/operation.rs:97-106 | all pending operations carry the configured base fee, and no relayer signs one twice |
| `Soundness.SoundStep` | contracts/cw-xrpl/src/contract.rs:205-394 | every accepted message keeps the contract sound and never forgets or renames a token |
| `Soundness.InstantiatedIsSound` | contracts/cw-xrpl/src/contract.rs:109-202 | an instantiated contract is sound |
| `Custody.InstantiationMeans` | contracts/cw-xrpl/src/contract.rs:109-202 | exactly when an instantiation succeeds, and every item it stores |
| `Solvency.MoneyStep` | contracts/cw-xrpl/src/contract.rs:836-918 | in every denom, what is owed grows by no more than the coins attached plus the net of the message's bank messages; the ledger's books stay consistent |
| `Solvency.ReportedReturn` | contracts/cw-xrpl/src/evidence.rs:157-159 | a truthful return that takes effect was still unpaid: its report settles exactly the value awaited for its hash |
| `Solvency.DecideMoney` | contracts/cw-xrpl/src/contract.rs:1175-1293 | locked coin and collected fees of a send add up to its funds |
| `Solvency.ReceiveXrplMoney` | contracts/cw-xrpl/src/contract.rs:734-796 | an arriving XRPL token mints exactly the reported amount, and the contract keeps at least what relayers gain, whether the rest goes to the recipient or on to a swap |
| `Solvency.ReceiveCosmosMoney` | contracts/cw-xrpl/src/contract.rs:836-890 | a returning Cosmos token pays recipient or swap, fee and remainder out of no more than the converted amount |
| `Solvency.TransferCloseMoney` | contracts/cw-xrpl/src/operation.rs:202-332 | the debts after a resolved transfer: unchanged but for its burn, less a refund that its own refund replaces |
| `Solvency.TransferOutcome` | contracts/cw-xrpl/src/operation.rs:202-332 | a resolved transfer leaves exactly one burn of its lock, or exactly one refund of its lock under its own identifier, or, accepted and escrowed, neither |
| `Transfers.TransferStep` | contracts/cw-xrpl/src/operation.rs:117-177 | a message moves exactly the transfer it resolves, and nothing but a resolved transfer causes a burn or stores a refund |
| `Solvency.ClaimRefundMoney` | contracts/cw-xrpl/src/contract.rs:1548-1565 | the debts fall by at least what the claimed refund pays |
| `Peg.PegStep` | contracts/cw-xrpl/src/contract.rs:766-796 | the wrapped supply of every registered token moves by exactly as much as its backing not promised to unreported arrivals; an arrival whose hash is spent on a result is never minted |
| `Peg.ReportedMint` | contracts/cw-xrpl/src/evidence.rs:157-159 | a truthful arrival that takes effect was still unminted: it is minted in full and only once |
| `Holding.LimitStep` | contracts/cw-xrpl/src/contract.rs:1381-1391 | a supply within its limit stays within the limit the message leaves, whether it mints, burns or moves the limit |
| `Resolvability.ResultIsAccepted` | contracts/cw-xrpl/src/contract.rs:929-984 | in every sound state a vote for a well-formed result succeeds exactly unless it takes effect with the counter exhausted; the bridge state plays no part |
| `Resolvability.ResultIsRefused` | contracts/cw-xrpl/src/contract.rs:927-950 | a result is refused when nothing is pending under its number, when it names an account sequence for a trust line or a transfer, and when it takes effect on an allocation without an outcome |
| `Resolvability.CancelIsAccepted` | contracts/cw-xrpl/src/contract.rs:1670-1710 | a cancel succeeds exactly when the sender is the owner and the operation is pending |
| `TicketFlow.TicketConservation` | contracts/cw-xrpl/src/tickets.rs:66-115 | each message keeps tickets duplicate-free and apart from the queue, and adds to the stock exactly the tickets granted beyond the used count |
| `TicketCycle.AutomaticCycleIsNeutral` | contracts/cw-xrpl/src/tickets.rs:41-57 | a ticketed result with a full grant leaves the stock unchanged |
| `TicketProgress.NeverExactlyOne` | contracts/cw-xrpl/src/contract.rs:1015-1047 | a progressing state with nothing pending has no ticket and recovery open, or at least two and allocation open |
| `TicketProgress.ProgressStep` | contracts/cw-xrpl/src/tickets.rs:38-57 | each message keeps the progress invariant under its hypothesis |
| `TicketProgress.StrandedForEver` | contracts/cw-xrpl/src/tickets.rs:20-23 | in the one-ticket state no message queues anything or changes the tickets |
| `Stranding.StrandsIff` | contracts/cw-xrpl/src/operation.rs:171-174 | exactly these messages strand: a cancel of the only pending operation with no ticket left, or one if it holds none, and an effective result of it after which available, granted and returned tickets make one and the used count stays below the threshold |
| `Votes.VoteStep` | contracts/cw-xrpl/src/evidence.rs:161-189 | a message adds only its sender to a tally and exactly its effective hash to the processed set, where it was not before; a rotation leaves no tally |
| `Votes.ProcessedIsRefused` | contracts/cw-xrpl/src/evidence.rs:157-159 | a report of a processed transaction is refused in every letter case |
| `Ballots.VoteMeans` | contracts/cw-xrpl/src/evidence.rs:161-193 | a vote is added to the voters of its evidence, or, exactly when it makes the threshold, takes effect and closes the tally; a rotation closes all |
| `Quorum.QuorumReached` | contracts/cw-xrpl/src/evidence.rs:176-189 | a vote takes effect exactly when its tally, a list of distinct current relayers, reaches the threshold, and a tally never exceeds it |
| `Quorum.VoteKeepsTallies` | contracts/cw-xrpl/src/evidence.rs:161-193 | stored tallies stay duplicate-free lists of current relayers strictly shorter than the threshold |
| `Soundness.RotationCloses` | contracts/cw-xrpl/src/relayer.rs:64-84 | a rotation installs a validated set with no tally left |
| `Settings.ConfigStep` | contracts/cw-xrpl/src/relayer.rs:64-84 | the configuration after each message, item by item: an effective accepted rotation installs the queued relayers and threshold and nothing else changes them; halt, resume, base fee, ticket threshold and prohibited addresses are as sent |
| `Settings.AuthorityStep` | contracts/cw-xrpl/src/contract.rs:2237-2268 | every accepted message comes from the owner, a current relayer or anyone, as its kind demands, and from an active bridge where it demands one |
| `FeeFlow.FeeStep` | contracts/cw-xrpl/src/contract.rs:1175-1293 | uncollected fees and remainder, with what is claimed, grow by exactly the token's configured fee and what its precision cuts off, for sends and arrivals of both origins |
| `Sends.SendMeans` | contracts/cw-xrpl/src/contract.rs:1148-1344 | an accepted send queues, for its sender and recipient, an enabled token's largest multiple of the sending unit that the fee leaves, or within the deliver amount; only XRP has no maximum and no deliver amount; a Cosmos token's amount converts to the last unit and its escrow is within the limit; the recipient is valid and allowed |
| `Acceptance.SendAcceptance` | contracts/cw-xrpl/src/contract.rs:1155-1321 | a send is accepted exactly on an active bridge, with one positive coin, to a valid allowed recipient, with two tickets left, if its token is enabled, the fee leaves a unit, the amounts have sixteen digits, the deliver amount and the escrow limit are met and the charge can be shared out |
| `Arrivals.ArrivalMeans` | contracts/cw-xrpl/src/contract.rs:734-918 | an effective transfer of an enabled token pays, outside the contract, exactly its value less configured fee and remainder, to the recipient, or to the swap entry point if it has a memo and there is one, and nothing to anyone else; one that is only counted pays nobody |
| `Acceptance.TransferVoteMeans` | contracts/cw-xrpl/src/contract.rs:703-890 | a vote for a transfer is accepted exactly from a current relayer who has not voted for it, for an unprocessed hash, to a valid recipient, on an active bridge, if the token is enabled, the fee leaves a unit, the supply stays within the limit and, when it takes effect, the charge can be shared out |
| `Quotes.TruncationMeans` | contracts/cw-xrpl/src/contract.rs:2136-2156 | truncation succeeds exactly when the amount holds a unit, and keeps the largest multiple of it |
| `Claims.ClaimRefundMeans` | contracts/cw-xrpl/src/contract.rs:1548-1565 | a refund is paid exactly on an active bridge to the address it is stored for, and only once |
| `Claims.ClaimFeesMeans` | contracts/cw-xrpl/src/contract.rs:1524-1546 | a claim is accepted exactly when each claimed denom is in the sender's own list and the total claimed fits; it pays the sender and touches no other list |
| `Claims.SignatureMeans` | contracts/cw-xrpl/src/signatures.rs:18-63 | a signature is accepted exactly from a current relayer who has not signed, for the current version of an operation that may be signed, and is appended there and nowhere else |
| `FeeBook.CollectFeesConserves` | contracts/cw-xrpl/src/fees.rs:32-79 | a collection adds exactly the fee to what relayers are owed and leaves a remainder smaller than their number |
| `FeeBook.CreditAllEqually` | contracts/cw-xrpl/src/fees.rs:51-67 | every current relayer is credited the same share, everyone else nothing |
| `FeeBook.ClaimRefinesMap` | contracts/cw-xrpl/src/fees.rs:89-102 | the find-and-subtract loop succeeds exactly when every claimed denom is present and the total claimed of it fits, and subtracts exactly those totals |
| `FeeBook.ClaimConserves` | contracts/cw-xrpl/src/fees.rs:81-110 | a claim lowers what is owed of each denom by exactly what it pays, keeping one positive coin per denom |
| `Transitions.TokenStateStep` | contracts/cw-xrpl/src/token.rs:25-41 | a token changes state only as permitted: owner updates between Enabled and Disabled, recovery out of Inactive, a resolution out of Processing; new tokens start Processing |
| `TokenUpdates.TablesStep` | contracts/cw-xrpl/src/token.rs:25-86 | both token tables after each message, field by field: registrations, recoveries, updates and trust-line results put in exactly what they say, and nothing else changes them |
| `TokenUpdates.XrplUpdateMeans` | contracts/cw-xrpl/src/contract.rs:1347-1400 | an update is accepted exactly when each part given passes its own check; then each part given is the token's, each part not given stays, and no other token changes |
| `TokenUpdates.CosmosUpdateMeans` | contracts/cw-xrpl/src/contract.rs:1403-1449 | the same for a Cosmos token, the limit against the contract's balance |
| `Admission.CosmosRegistrationMeans` | contracts/cw-xrpl/src/contract.rs:512-573 | exactly when a Cosmos token is registered |
| `Admission.XrplRegistrationMeans` | contracts/cw-xrpl/src/contract.rs:576-668 | exactly when an XRPL token is registered |
| `Admission.RegistrationRecoveryMeans` | contracts/cw-xrpl/src/contract.rs:1065-1118 | exactly when a registration is recovered |
| `Admission.TicketRecoveryMeans` | contracts/cw-xrpl/src/contract.rs:1002-1063 | exactly when tickets are recovered |
| `Admission.RotationMeans` | contracts/cw-xrpl/src/contract.rs:1597-1635 | keys are rotated exactly to distinct, well-formed, allowed relayers that can reach the threshold, one rotation at a time, with two tickets left |
| `Admission.SettingMeans` | contracts/cw-xrpl/src/contract.rs:1451-1668 | exactly when halt, resume, base fee, ticket threshold and prohibited addresses are accepted |
| `Admission.WellFormedMeans` | contracts/cw-xrpl/src/evidence.rs:84-138 | a report is valid exactly when it transfers something, or names one sequence, a hash exactly if executed, and tickets exactly if accepted |
| `Admission.CurrencyMeans` | contracts/cw-xrpl/src/contract.rs:2055-2088 | exactly the currency codes of the ledger are accepted |
| `Admission.DenomMeans` | contracts/cw-xrpl/src/contract.rs:2115-2133 | exactly the denoms of the chain are accepted |
| `Transitions.VersionStep` | contracts/cw-xrpl/src/contract.rs:1471-1488 | a pending operation is unchanged, signed once more for its current version, repriced, or new |
| `Transitions.KeptStep` | contracts/cw-xrpl/src/operation.rs:108-111 | with tickets apart from the queue no message replaces an operation under its own number |
| `Halting.HaltedFreezesPayments` | contracts/cw-xrpl/src/operation.rs:369-388 | while Halted an accepted message only burns: no mint, no payment, no claim, no send, no transfer vote; only allocations and rotations are queued |
| `Flags.OpeningKeepsFlags` | contracts/cw-xrpl/src/contract.rs:1597-1635 | messages that queue an operation keep the flags in agreement with the queue |
| `Flags.HandleOperationKeepsFlags` | contracts/cw-xrpl/src/operation.rs:117-177 | a resolution keeps the flags in agreement with the queue |
| `Lifecycle.LifecycleClosed` | contracts/cw-xrpl/src/operation.rs:190-199 | a trust line leaves the queue as its token leaves Processing |
| `TokenTables.LockIsStable` | contracts/cw-xrpl/src/operation.rs:226-299 | growing tables never change a queued transfer's origin or the coin it has locked |
| `TokenTables.BridgeIssuedIsNotXrpl` | contracts/cw-xrpl/src/contract.rs:592-602 | the pair a Cosmos-originated transfer carries is never a key of the XRPL table |
| `Tokens.KeySeparation` | contracts/cw-xrpl/src/token.rs:14-17 | concatenation of issuer and currency is injective on validated pairs |
| `Amounts.LosslessConversion` | contracts/cw-xrpl/src/contract.rs:2136-2213 | whatever a send accepts converts to a positive amount, converts back to precisely the truncated amount, and truncated + remainder + fee is the funds |
| `Amounts.TruncateAmount` | contracts/cw-xrpl/src/contract.rs:2136-2156 | the two parts add up to the amount, the first is a positive multiple of the unit, the second is less than it |
| `Amounts.ReturnPaysAtMost` | contracts/cw-xrpl/src/contract.rs:2159-2175 | rounding every return down never pays out more than the outstanding amount is worth |
| `Amounts.IssueAddsExactly` | contracts/cw-xrpl/src/contract.rs:2159-2175 | issuing a whole number of token units adds exactly their value |
| `Amounts.XrplAmountRule` | contracts/cw-xrpl/src/contract.rs:2219-2229 | the print-and-trim check accepts exactly the amounts m·10^k with m < 10^16 |
| `Amounts.TruncatedAmountsPass` | contracts/cw-xrpl/src/contract.rs:77-78 | every truncated amount up to 10^(16 − precision + decimals) is accepted as an amount of at most sixteen digits |
| `Relayers.CheckRelayersMeans` | contracts/cw-xrpl/src/relayer.rs:39-53 | validation succeeds exactly when the relayers are pairwise distinct in all three fields, well formed and allowed |
| `Findings.RecoveryNeedsLowerThreshold` | contracts/cw-xrpl/src/contract.rs:1034-1047 | with no tickets, recovery is possible for some number exactly while the threshold is below 250 |
| `Findings.DeadOverRuns` | contracts/cw-xrpl/src/contract.rs:134-137 | instantiated with the permitted threshold 250, a bridge never gets a ticket or queues an operation unless the threshold is changed |
| `Witness.DeadRun` | contracts/cw-xrpl/src/contract.rs:134-137 | an instantiation with threshold 250 succeeds, so such runs exist |
| `Stranding.LastTicketStrands` | contracts/cw-xrpl/src/operation.rs:171-174 | whatever operation alone holds the last ticket, a cancel or a quorum for invalid strands the bridge |
| `Findings.RefundKeptIffFresh` | contracts/cw-xrpl/src/operation.rs:334-352 | a refused transfer keeps what is owed exactly when no refund is pending under its identifier |
| `Findings.SameSecondSameId` | contracts/cw-xrpl/src/operation.rs:95-98 | a send in the second of a cancelled one gets the very identifier of the refund the cancel left |
| `LostRefund.LosingRun` | contracts/cw-xrpl/src/operation.rs:334-352 | a concrete run, truthful in every report, in which two sends of ten in one second are cancelled and one refund of ten is left |
| `Findings.PrecisionBeyondDecimals` | contracts/cw-xrpl/src/contract.rs:1363-1376 | an update leaves a precision beyond the token's decimals exactly when the token is XRP, the pair spells its key otherwise, and the precision is above six |
| `Findings.XrpPrecisionWitness` | contracts/cw-xrpl/src/contract.rs:1363-1376 | such a pair exists and the owner's update with precision 15 succeeds |
| `Findings.MisreadXrpAmounts` | contracts/cw-xrpl/src/contract.rs:2144-2150 | at precision 15 exactly the amounts of at least 1000 XRP can be sent |
| `Contract.Contract.constructor` | contracts/cw-xrpl/src/state.rs:107-203 | the stored items hold the given state |
| `Contract.Contract.Execute` | contracts/cw-xrpl/src/contract.rs:205-394 | a message does what its function on states says, and a failed one leaves every stored item as it was |
| `Contract.Contract.Instantiate` | contracts/cw-xrpl/src/contract.rs:109-202 | a fresh contract holds the instantiated state, or the error of the first failing check |
| `Contract.Contract.ReserveTicket` | contracts/cw-xrpl/src/tickets.rs:97-106 | pops the front ticket; fails on an empty deque and then changes nothing |
| `Contract.Contract.AllocateTicket` | contracts/cw-xrpl/src/tickets.rs:13-28 | refuses an empty deque and the last ticket, by different errors |
| `Contract.Contract.ReturnTicket` | contracts/cw-xrpl/src/tickets.rs:109-115 | the ticket goes to the front |
| `Contract.Contract.RegisterUsedTicket` | contracts/cw-xrpl/src/tickets.rs:31-64 | counts the ticket and queues the automatic allocation once the threshold is reached, or reports that no ticket is left |
| `Contract.Contract.HandleTicketAllocationConfirmation` | contracts/cw-xrpl/src/tickets.rs:66-94 | clears the flag; an accepted allocation appends its tickets and lowers the counter, saturating, by their 32-bit number |
| `Contract.Contract.CreatePendingOperation` | contracts/cw-xrpl/src/operation.rs:82-114 | refuses by halt, then by an existing id; else queues an unsigned version 1 at the configured fee |
| `Contract.Contract.AddSignature` | contracts/cw-xrpl/src/signatures.rs:18-63 | appends one signature for the current version of a signable operation not yet signed by the sender |
| `Contract.Contract.HandleEvidence` | contracts/cw-xrpl/src/evidence.rs:150-194 | counts a vote, and at the threshold records the hash and drops the tally |
| `Contract.Contract.HandleRotateKeysConfirmation` | contracts/cw-xrpl/src/relayer.rs:64-84 | an accepted rotation installs relayers and threshold and clears the tallies; the flag falls either way |
| `Contract.Contract.HandleFeeCollection` | contracts/cw-xrpl/src/fees.rs:19-30 | collects fee and remainder together |
| `Contract.Contract.CreditRelayers` | contracts/cw-xrpl/src/fees.rs:51-67 | the loop credits every current relayer its share, or fails as a whole |
| `Contract.Contract.CollectFees` | contracts/cw-xrpl/src/fees.rs:32-79 | shares the fee and the stored remainder equally and stores what does not divide |
| `Contract.Contract.SubtractRelayerFees` | contracts/cw-xrpl/src/fees.rs:81-110 | the loop subtracts every claimed coin and drops empty ones, or fails |
| `Contract.Contract.HandleTrustSetConfirmation` | contracts/cw-xrpl/src/operation.rs:179-200 | the token becomes Enabled or Inactive |
| `Contract.Contract.StorePendingRefund` | contracts/cw-xrpl/src/operation.rs:334-352 | stores the refund under receiver and operation id |
| `Contract.Contract.RemovePendingRefund` | contracts/cw-xrpl/src/operation.rs:354-367 | removes the refund and returns its coin, or finds none |
| `Contract.Contract.HandleTransferConfirmation` | contracts/cw-xrpl/src/operation.rs:202-332 | burn, keep, or refund, by origin of the token and result |
| `Contract.Contract.ConfirmOperation` | contracts/cw-xrpl/src/operation.rs:130-167 | routes the result to the operation's own handler |
| `Contract.Contract.HandleOperation` | contracts/cw-xrpl/src/operation.rs:117-177 | removes the operation and returns an unused ticket |
| `Contract.Contract.ReceiveXrplToken` | contracts/cw-xrpl/src/contract.rs:734-835 | checks, fees and mints of an arriving XRPL token, to the recipient or to the contract and on to the swap entry point |
| `Contract.Contract.ReceiveCosmosToken` | contracts/cw-xrpl/src/contract.rs:836-908 | checks, fees and payment of a returning Cosmos token, to the recipient or the swap entry point |
| `Contract.Contract.ResolveOperation` | contracts/cw-xrpl/src/contract.rs:919-984 | runs the operation's handler at the threshold and registers the used ticket |
| `Contract.Contract.SaveEvidence` | contracts/cw-xrpl/src/contract.rs:670-1000 | the vote is counted first; a halted bridge then refuses transfers and only those |
| `Contract.Contract.RegisterCosmosToken` | contracts/cw-xrpl/src/contract.rs:512-573 | registers an enabled token under its denom and currency |
| `Contract.Contract.RegisterXrplToken` | contracts/cw-xrpl/src/contract.rs:576-668 | registers a processing token, takes a ticket, queues the trust line, creates the denom |
| `Contract.Contract.RecoverXrplTokenRegistration` | contracts/cw-xrpl/src/contract.rs:1065-1118 | an inactive token is processing again with a new trust line queued |
| `Contract.Contract.UpdateXrplToken` | contracts/cw-xrpl/src/contract.rs:1347-1400 | changes state, precision, fee and limit, each by its own check |
| `Contract.Contract.UpdateCosmosToken` | contracts/cw-xrpl/src/contract.rs:1403-1449 | the same for a Cosmos token, the limit against the contract's balance |
| `Contract.Contract.SendXrplToken` | contracts/cw-xrpl/src/contract.rs:1175-1238 | amount and maximum of an XRPL token transfer, fee collected |
| `Contract.Contract.SendCosmosToken` | contracts/cw-xrpl/src/contract.rs:1239-1293 | amount of a Cosmos token transfer, fee collected, escrow limit checked |
| `Contract.Contract.SendToXrpl` | contracts/cw-xrpl/src/contract.rs:1148-1344 | validates both amounts, takes a ticket and queues the transfer |
| `Contract.Contract.RecoverTickets` | contracts/cw-xrpl/src/contract.rs:1002-1063 | raises the flag and queues an allocation by account sequence |
| `Contract.Contract.SaveSignature` | contracts/cw-xrpl/src/contract.rs:1120-1146 | only a relayer signs |
| `Contract.Contract.UpdateXrplBaseFee` | contracts/cw-xrpl/src/contract.rs:1451-1494 | every pending operation gets the new fee, the next version and no signature |
| `Contract.Contract.UpdateUsedTicketSequenceThreshold` | contracts/cw-xrpl/src/contract.rs:1496-1522 | sets the threshold, unvalidated |
| `Contract.Contract.UpdateProhibitedXrplAddresses` | contracts/cw-xrpl/src/contract.rs:1637-1668 | the list becomes the bridge address and the given addresses, all well formed |
| `Contract.Contract.ClaimRefund` | contracts/cw-xrpl/src/contract.rs:1548-1565 | an active bridge pays the refund once |
| `Contract.Contract.ClaimRelayerFees` | contracts/cw-xrpl/src/contract.rs:1524-1546 | an active bridge pays the claimed fees |
| `Contract.Contract.HaltBridge` | contracts/cw-xrpl/src/contract.rs:1567-1576 | owner or relayer halts an active bridge |
| `Contract.Contract.ResumeBridge` | contracts/cw-xrpl/src/contract.rs:1578-1595 | the owner resumes unless a rotation is pending |
| `Contract.Contract.RotateKeys` | contracts/cw-xrpl/src/contract.rs:1597-1635 | raises the flag, halts, validates, takes a ticket and queues the rotation |
| `Contract.Contract.CancelPendingOperation` | contracts/cw-xrpl/src/contract.rs:1670-1710 | the owner resolves an operation as invalid |
| `Loops.AddToCoins` | contracts/cw-xrpl/src/fees.rs:57-63 | the in-place search adds to the coin of the denom or pushes a new one |
| `Loops.TakeFromCoins` | contracts/cw-xrpl/src/fees.rs:90-101 | the in-place search takes from the first coin of the denom that is large enough |
| `Loops.RetainNonZero` | contracts/cw-xrpl/src/fees.rs:104-105 | exactly the non-zero coins stay, in order |
| `Loops.CheckedRelayers` | contracts/cw-xrpl/src/relayer.rs:21-56 | accepts exactly the sets that are distinct in every field, well formed, allowed, at most 32, and able to reach the threshold |
| `Loops.RepriceAll` | contracts/cw-xrpl/src/contract.rs:1466-1488 | all operations are repriced, or some version overflows and it aborts |

## Left out

- The rate limiter: calls into another contract, whose refusal or abort is not modelled.
- Contract.Contract.ReceiveXrplToken: a swap is the hand-over of the coins to the entry point; what the entry
  point does with them is foreign. If it fails the whole message fails, because the record that `reply`
  (`contracts/cw-xrpl/src/contract.rs:397-419`) would need is never written.
- Contract.Contract.ReceiveCosmosToken: the same.
- `CreateCosmosToken`, `MintCosmosToken`, ownership transfer and the rate-limit messages: they would only add
  easy members, and owner minting of a wrapped denom is outside the peg.
- `migrate`: it overwrites the configuration, so runs start at instantiation.
- Queries, pagination, response attributes and error texts.
- Base58, SHA-256, bech32 and letter case are arbitrary functions of the host (`Chain`); hash-derived denoms
  and currencies are parameters of the registering message.
- A tally is keyed by the evidence itself instead of its hash, and a refund identifier is kept as the pair of
  second and sequence it is printed from.
- Lengths count characters, where the code counts bytes; they differ only for a signature outside ASCII.
- Instantiation without issuing the XRP denom is not part of a run; the denom is created there.
- The bank accepts any coin list: its checks for sorted, positive coins are not modelled. Coins attached to
  messages other than a send are deposits.
- The block time of a message is any number; no theorem needs it to grow, beyond the hypothesis on re-used
  tickets.
- Account and ticket sequences, fees and thresholds are unbounded integers; amounts are 128-bit, the
  used-ticket counter is 32-bit and versions are 64-bit, with the code's aborts on overflow.
- `Loops.RepriceAll` visits operations in no particular order, where the code visits them in ascending order;
  the result is the same.
