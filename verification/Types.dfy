/** The vocabulary of the bridge contract: amounts, errors, tokens, operations, evidences and
    the stored items of one contract instance. */
module Types {

  const U128_MAX: nat := 0xFFFF_FFFF_FFFF_FFFF_FFFF_FFFF_FFFF_FFFF
  const U64_MAX: nat := 0xFFFF_FFFF_FFFF_FFFF
  const U32_MAX: nat := 0xFFFF_FFFF

  const MIN_SENDING_PRECISION: int := -15
  const MAX_SENDING_PRECISION: int := 15
  const MAX_COSMOS_TOKEN_DECIMALS: nat := 100
  const MAX_TICKETS: nat := 250
  const MAX_RELAYERS: nat := 32
  const MAX_SIGNATURE_LENGTH: nat := 200
  const XRP_ISSUER: string := "rrrrrrrrrrrrrrrrrrrrrhoLvTp"
  const XRP_CURRENCY: string := "XRP"
  const XRP_DECIMALS: nat := 6
  const XRP_DEFAULT_SENDING_PRECISION: int := 6
  const XRP_DEFAULT_MAX_HOLDING_AMOUNT: Uint128 := 10_000_000_000_000_000
  const XRPL_TOKENS_DECIMALS: nat := 15
  const XRPL_MAX_TRUNCATED_AMOUNT_LENGTH: nat := 16

  type Uint128 = x: int | 0 <= x <= 0xFFFF_FFFF_FFFF_FFFF_FFFF_FFFF_FFFF_FFFF
  type Addr = string
  type Sequence = int // an XRPL account or ticket sequence number

  datatype Option<+T> = None | Some(value: T)

  datatype Error =
    | OverflowError
    | DivideByZeroError
    | Panic            // an arithmetic abort: `overflow-checks = true`
    | UniqueConstraint // a unique index of an indexed map refuses the value
    | Payment
    | InvalidThreshold
    | InvalidCosmosAddress
    | InvalidXrplAddress
    | DuplicatedRelayer
    | CosmosTokenAlreadyRegistered
    | XrplTokenAlreadyRegistered
    | RegistrationFailure
    | UnauthorizedSender
    | TokenNotRegistered
    | OperationAlreadyExecuted
    | EvidenceAlreadyProvided
    | InvalidAmount
    | InvalidUsedTicketSequenceThreshold
    | NoAvailableTickets
    | LastTicketReserved
    | StillHaveAvailableTickets
    | PendingTicketUpdate
    | InvalidTransactionResultEvidence
    | InvalidSuccessfulTransactionResultEvidence
    | InvalidFailedTransactionResultEvidence
    | InvalidTicketAllocationEvidence
    | PendingOperationNotFound
    | PendingOperationAlreadyExists
    | SignatureAlreadyProvided
    | InvalidTicketSequenceToAllocate
    | InvalidXrplCurrency
    | TokenNotEnabled
    | XrplTokenNotInactive
    | AmountSentIsZeroAfterTruncation
    | MaximumBridgedAmountReached
    | InvalidSendingPrecision
    | InvalidDecimals
    | InvalidOperationResult
    | CannotCoverBridgingFees
    | TokenStateIsImmutable
    | InvalidTargetTokenState
    | InvalidTargetMaxHoldingAmount
    | PendingRefundNotFound
    | NotEnoughFeesToClaim
    | TooManyRelayers
    | BridgeHalted
    | RotateKeysOngoing
    | OperationVersionMismatch
    | ProhibitedAddress
    | DeliverAmountIsProhibited
    | InvalidDeliverAmount
    | InvalidSignatureLength
    | InvalidXrplAmount
    | InvalidDenom
    | BankFailure      // a bank or token factory message of the transaction fails

  /** Every handler either produces a value or fails; a failure rolls the whole message back. */
  datatype Result<+T> = Ok(value: T) | Err(error: Error) {
    predicate IsFailure() { Err? }
    function PropagateFailure<U>(): (r: Result<U>)
      requires Err?
    {
      Err(error)
    }
    function Extract(): (r: T)
      requires Ok?
    {
      value
    }
  }

  datatype Coin = Coin(denom: string, amount: Uint128)
  datatype Relayer = Relayer(cosmosAddress: Addr, xrplAddress: string, xrplPubKey: string)
  datatype BridgeState = Active | Halted
  datatype TokenState = Enabled | Disabled | Processing | Inactive

  datatype Config = Config(
    relayers: seq<Relayer>,
    evidenceThreshold: nat,
    usedTicketSequenceThreshold: nat,
    trustSetLimitAmount: Uint128,
    bridgeXrplAddress: string,
    bridgeState: BridgeState,
    xrplBaseFee: nat,
    osorEntryPoint: Option<Addr>)

  datatype XrplToken = XrplToken(
    issuer: string,
    currency: string,
    cosmosDenom: string,
    sendingPrecision: int,
    maxHoldingAmount: Uint128,
    state: TokenState,
    bridgingFee: Uint128)

  datatype CosmosToken = CosmosToken(
    denom: string,
    decimals: nat,
    xrplCurrency: string,
    sendingPrecision: int,
    maxHoldingAmount: Uint128,
    state: TokenState,
    bridgingFee: Uint128)

  datatype TransactionResult = Accepted | Rejected | Invalid
  datatype OperationResult = TicketsAllocation(tickets: Option<seq<Sequence>>)

  datatype Evidence =
    | XrplToCosmosTransfer(transferHash: string, issuer: string, currency: string, amount: Uint128,
                           recipient: Addr, memo: Option<string>)
    | XrplTransactionResult(txHash: Option<string>, accountSequence: Option<Sequence>,
                            ticketSequence: Option<Sequence>, result: TransactionResult,
                            operationResult: Option<OperationResult>)

  /** The printed identifier `timestamp-sequence`, kept as the pair it is printed from. */
  datatype OperationId = OperationId(timestamp: nat, sequence: Sequence)
  datatype Signature = Signature(relayer: Addr, signature: string)

  datatype OperationType =
    | AllocateTickets(number: nat)
    | TrustSet(issuer: string, currency: string, trustSetLimitAmount: Uint128)
    | RotateKeys(newRelayers: seq<Relayer>, newEvidenceThreshold: nat)
    | CosmosToXrplTransfer(issuer: string, currency: string, amount: Uint128,
                           maxAmount: Option<Uint128>, sender: Addr, recipient: string)

  datatype Operation = Operation(
    id: OperationId,
    version: nat,
    ticketSequence: Option<Sequence>,
    accountSequence: Option<Sequence>,
    signatures: seq<Signature>,
    operationType: OperationType,
    xrplBaseFee: nat)

  datatype RefundKey = RefundKey(address: Addr, id: OperationId)
  datatype PendingRefund = PendingRefund(txHash: Option<string>, coin: Coin)

  /** One value per stored item. The two `By` maps are the unique indexes of the token tables. */
  datatype State = State(
    owner: Addr,
    config: Config,
    txEvidences: map<Evidence, seq<Addr>>,
    processedTxs: set<string>,
    xrplTokens: map<string, XrplToken>,
    xrplTokenByDenom: map<string, string>,
    cosmosTokens: map<string, CosmosToken>,
    cosmosTokenByCurrency: map<string, string>,
    availableTickets: seq<Sequence>,
    usedTickets: nat,
    pendingOperations: map<Sequence, Operation>,
    pendingTicketUpdate: bool,
    pendingRotateKeys: bool,
    pendingRefunds: map<RefundKey, PendingRefund>,
    feesCollected: map<Addr, seq<Coin>>,
    feeRemainders: map<string, Uint128>,
    prohibitedXrplAddresses: set<string>)

  /** What the contract asks of its host: address checks and letter case. Every theorem holds for
      all of them; `Lawful` is the one fact about base58 addresses that some of them use. */
  datatype Chain = Chain(
    contract: Addr,
    toUppercase: string -> string,
    validCosmosAddress: string -> bool,
    validXrplAddress: string -> bool)

  /** A base58 string that decodes to 25 bytes has between 25 and 35 characters. */
  ghost predicate Lawful(chain: Chain) {
    forall a: string :: chain.validXrplAddress(a) ==> 25 <= |a| <= 35
  }

  /** The coins that exist of each denom, and those the contract holds. */
  datatype Bank = Bank(supply: map<string, nat>, held: map<string, nat>)

  datatype BankMsg =
    | CreateDenom(denom: string)
    | Mint(to: Addr, coin: Coin)
    | Burn(coin: Coin)
    | Send(to: Addr, coins: seq<Coin>)

  datatype Env = Env(chain: Chain, time: nat, bank: Bank)
  datatype Outcome = Outcome(state: State, msgs: seq<BankMsg>)

  // ---------- frames: groups of stored items that a step leaves alone ----------

  predicate KeepsConfig(s: State, s': State) {
    s'.owner == s.owner && s'.config == s.config && s'.prohibitedXrplAddresses == s.prohibitedXrplAddresses
  }
  predicate KeepsVotes(s: State, s': State) {
    s'.txEvidences == s.txEvidences && s'.processedTxs == s.processedTxs
  }
  predicate KeepsXrplTokens(s: State, s': State) {
    s'.xrplTokens == s.xrplTokens && s'.xrplTokenByDenom == s.xrplTokenByDenom
  }
  predicate KeepsCosmosTokens(s: State, s': State) {
    s'.cosmosTokens == s.cosmosTokens && s'.cosmosTokenByCurrency == s.cosmosTokenByCurrency
  }
  predicate KeepsTickets(s: State, s': State) {
    && s'.availableTickets == s.availableTickets
    && s'.usedTickets == s.usedTickets
    && s'.pendingTicketUpdate == s.pendingTicketUpdate
  }
  predicate KeepsQueue(s: State, s': State) {
    s'.pendingOperations == s.pendingOperations && s'.pendingRotateKeys == s.pendingRotateKeys
  }
  predicate KeepsRefunds(s: State, s': State) { s'.pendingRefunds == s.pendingRefunds }
  predicate KeepsFees(s: State, s': State) {
    s'.feesCollected == s.feesCollected && s'.feeRemainders == s.feeRemainders
  }

  /** Only the relayers' fees and the fee remainders differ. */
  predicate OnlyFees(s: State, s': State) {
    && KeepsConfig(s, s') && KeepsVotes(s, s') && KeepsXrplTokens(s, s') && KeepsCosmosTokens(s, s')
    && KeepsTickets(s, s') && KeepsQueue(s, s') && KeepsRefunds(s, s')
  }

  /** Only the vote tallies and the processed transactions differ. */
  predicate OnlyVotes(s: State, s': State) {
    && KeepsConfig(s, s') && KeepsXrplTokens(s, s') && KeepsCosmosTokens(s, s')
    && KeepsTickets(s, s') && KeepsQueue(s, s') && KeepsRefunds(s, s') && KeepsFees(s, s')
  }

  /** Only the two token tables may differ. */
  predicate OnlyTokens(s: State, s': State) {
    && KeepsConfig(s, s') && KeepsVotes(s, s')
    && KeepsTickets(s, s') && KeepsQueue(s, s') && KeepsRefunds(s, s') && KeepsFees(s, s')
  }

  function GetOr<K, V>(m: map<K, V>, k: K, default: V): V {
    if k in m then m[k] else default
  }

  function CheckedAdd(a: nat, b: nat): (r: Result<Uint128>)
    ensures r.Ok? <==> a + b <= U128_MAX
    ensures r.Ok? ==> r.value == a + b
  {
    if a + b <= U128_MAX then Ok(a + b) else Err(OverflowError)
  }
}
