/** What `send_universal_tx` accepts and what it changes (instructions/deposit.rs),
    stated for the call as a whole: when it is refused, and its net effect. */
module Deposit {
  import opened Bytes
  import opened Results
  import opened Ledgers
  import opened Pricing
  import opened RateLimit
  import opened State

  /** `priceUpdate` is the oracle account passed and `oracle` the fresh price it
      holds for the SOL feed, if any; `limitMint` names the token limit account passed. */
  datatype SendArgs = SendArgs(
    user: Pubkey,
    request: UniversalTxRequest,
    nativeAmount: u64,
    priceUpdate: Pubkey,
    oracle: Option<PriceData>,
    limitMint: Pubkey,
    userToken: Option<Pubkey>,
    gatewayToken: Option<Pubkey>,
    clock: Clock)

  function FetchTxType(req: UniversalTxRequest, nativeAmount: u64): Result<TxType> {
    var hasPayload := req.payload != [];
    var fundsIsNative := req.token == DEFAULT_KEY;
    if req.amount == 0 then
      if hasPayload then Ok(GasAndPayload)
      else if nativeAmount == 0 then Err(InvalidInput)
      else Ok(Gas)
    else if hasPayload then
      if fundsIsNative && nativeAmount < req.amount then Err(InvalidAmount) else Ok(FundsAndPayload)
    else if fundsIsNative then
      if nativeAmount != req.amount then Err(InvalidAmount) else Ok(Funds)
    else
      if nativeAmount > 0 then Err(InvalidAmount) else Ok(Funds)
  }

  /** The native value that bridges as funds; the rest of the native value is gas. */
  function NativeFunds(req: UniversalTxRequest): u64 {
    if req.token == DEFAULT_KEY then req.amount else 0
  }

  /** Which requests are of which type: what the payload and the amount ask for, and
      the native value that must come with it. Everything else is refused. */
  lemma RoutingTable(req: UniversalTxRequest, native: u64)
    ensures FetchTxType(req, native) == Ok(Gas) <==> req.amount == 0 && req.payload == [] && native > 0
    ensures FetchTxType(req, native) == Ok(GasAndPayload) <==> req.amount == 0 && req.payload != []
    ensures FetchTxType(req, native) == Ok(Funds) <==> req.amount > 0 && req.payload == [] && native == NativeFunds(req)
    ensures FetchTxType(req, native) == Ok(FundsAndPayload)
       <==> req.amount > 0 && req.payload != [] && native >= NativeFunds(req)
  {
  }

  /** The oracle caps and the slot cap, which only a non-zero gas leg meets. */
  function GasCheck(config: Config, rate: RateConfig, gas: u64, oracle: Option<PriceData>,
                    slot: u64): Result<RateConfig> {
    if gas == 0 then Ok(rate)
    else
      match CheckUsdCaps(config.minCapUsd, config.maxCapUsd, config.confidenceThreshold, gas, oracle)
      case Fail(err) => Err(err)
      case Pass => ConsumeBlockCap(rate, CalculateUsdAmount(gas, oracle.value).value, slot)
  }

  /** Source and destination of a token deposit. */
  function TokenDepositCheck(e: Env, tokens: map<Pubkey, TokenAccount>, a: SendArgs): Status {
    if a.userToken.None? || a.gatewayToken.None? then Fail(InvalidAccount)
    else
      var src, dst := a.userToken.value, a.gatewayToken.value;
      if src !in tokens || tokens[src].owner != a.user then Fail(InvalidOwner)
      else if tokens[src].mint != a.request.token then Fail(InvalidMint)
      else if dst !in tokens then Fail(InvalidAccount)
      else if tokens[dst].owner != e.vault then Fail(InvalidOwner)
      else if tokens[dst].mint != a.request.token then Fail(InvalidMint)
      else if tokens[src].amount < a.request.amount then Fail(TokenTransferFailed)
      else Pass
  }

  /** The checks of the account list, made before the handler runs. */
  function SendAccounts(e: Env, w: World, a: SendArgs): Status {
    if e.isPda(a.user) then Fail(MissingSignature)
    else if a.priceUpdate != w.config.pythPriceFeed then Fail(InvalidAccount)
    else if a.limitMint !in w.limits then Fail(AccountNotInitialized)
    else Pass
  }

  /** What is left of the native value for the routes, once the fee can be paid. */
  function SendEntry(e: Env, w: World, a: SendArgs): Result<u64> {
    if SendAccounts(e, w, a).Fail? then Err(SendAccounts(e, w, a).error)
    else if w.config.paused then Err(Paused)
    else if Balance(w.ledger, a.user) < a.nativeAmount then Err(InsufficientBalance)
    else if a.nativeAmount < w.protocolFee then Err(InsufficientProtocolFee)
    else Ok(a.nativeAmount - w.protocolFee)
  }

  /** The whole call. Every refusal is decided by the state before it: none of the
      transfers in the middle needs a check of its own. */
  function Send(e: Env, w: World, a: SendArgs): Result<Outcome> {
    match SendEntry(e, w, a)
    case Err(err) => Err(err)
    case Ok(rest) =>
      match FetchTxType(a.request, rest)
      case Err(err) => Err(err)
      case Ok(txType) =>
        if a.request.revertRecipient == DEFAULT_KEY then Err(InvalidRecipient)
        else
          match GasCheck(w.config, w.rate, rest - NativeFunds(a.request), a.oracle, a.clock.slot)
          case Err(err) => Err(err)
          case Ok(rate) =>
            match FundsCheck(e, w.ledger.tokens, w.limits, w.rate.epochDuration, a)
            case Err(err) => Err(err)
            case Ok(limits) =>
              Ok(Outcome(w.(ledger := SendLedger(e, w, a), rate := rate, limits := limits), SendLog(w, a, txType)))
  }

  /** The token limit after a funds leg, which the pure gas routes do not have. */
  function FundsCheck(e: Env, tokens: map<Pubkey, TokenAccount>, limits: map<Pubkey, TokenLimit>, duration: u64,
                      a: SendArgs): Result<map<Pubkey, TokenLimit>>
    requires a.limitMint in limits
  {
    var req := a.request;
    if req.amount == 0 then Ok(limits)
    else
      match ValidateAndConsume(limits[a.limitMint], req.token, req.amount, duration, a.clock.unixTimestamp)
      case Err(err) => Err(err)
      case Ok(limit) =>
        if HasTokenLeg(req) && TokenDepositCheck(e, tokens, a).Fail? then Err(TokenDepositCheck(e, tokens, a).error)
        else Ok(limits[a.limitMint := limit])
  }

  predicate HasTokenLeg(req: UniversalTxRequest) {
    req.amount > 0 && req.token != DEFAULT_KEY
  }

  /** The ledger once the user has paid the protocol fee to the fee vault. */
  function FeePaid(e: Env, w: World, user: Pubkey): Ledger
    requires w.protocolFee <= Balance(w.ledger, user)
  {
    Move(w.ledger, user, e.feeVault, w.protocolFee)
  }

  /** The ledger once the user has paid native value and, with a token leg, the
      tokens to the vault. */
  function Deposited(e: Env, l: Ledger, a: SendArgs, native: nat): Ledger
    requires native <= Balance(l, a.user)
    requires HasTokenLeg(a.request) ==> TokenDepositCheck(e, l.tokens, a).Pass?
  {
    var paid := Move(l, a.user, e.vault, native);
    if HasTokenLeg(a.request) then MoveTokens(paid, a.userToken.value, a.gatewayToken.value, a.request.amount) else paid
  }

  function SendLedger(e: Env, w: World, a: SendArgs): Ledger
    requires w.protocolFee <= a.nativeAmount <= Balance(w.ledger, a.user)
    requires HasTokenLeg(a.request) ==> TokenDepositCheck(e, w.ledger.tokens, a).Pass?
  {
    Deposited(e, FeePaid(e, w, a.user), a, a.nativeAmount - w.protocolFee)
  }

  function GasEvent(a: SendArgs, txType: TxType, gas: u64, payload: Bytes): Event {
    UniversalTx(a.user, ZERO_ADDRESS, DEFAULT_KEY, gas, payload, a.request.revertRecipient, txType,
                a.request.signatureData, false)
  }

  function FundsEvent(a: SendArgs, txType: TxType): Event {
    var req := a.request;
    UniversalTx(a.user, if txType == Funds then req.recipient else ZERO_ADDRESS, req.token, req.amount, req.payload,
                req.revertRecipient, txType, req.signatureData, false)
  }

  function FeeLog(w: World, a: SendArgs): seq<Entry>
    requires w.protocolFee <= a.nativeAmount
  {
    if w.protocolFee == 0 then []
    else [Entry(a.clock, ProtocolFeeCollected(a.user, w.protocolFee, a.nativeAmount, a.nativeAmount - w.protocolFee))]
  }

  /** A gas route always reports its leg, a funds route only a non-zero one. */
  function LegLog(a: SendArgs, rest: u64, txType: TxType): seq<Entry>
    requires NativeFunds(a.request) <= rest
  {
    var gas := rest - NativeFunds(a.request);
    if a.request.amount == 0 then [Entry(a.clock, GasEvent(a, txType, rest, a.request.payload))]
    else if gas == 0 then [Entry(a.clock, FundsEvent(a, txType))]
    else [Entry(a.clock, GasEvent(a, Gas, gas, [])), Entry(a.clock, FundsEvent(a, txType))]
  }

  function SendLog(w: World, a: SendArgs, txType: TxType): seq<Entry>
    requires w.protocolFee <= a.nativeAmount
    requires NativeFunds(a.request) <= a.nativeAmount - w.protocolFee
  {
    FeeLog(w, a) + LegLog(a, a.nativeAmount - w.protocolFee, txType)
  }
}
