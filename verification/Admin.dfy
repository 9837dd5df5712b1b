/** The setters (instructions/admin.rs, instructions/tss.rs). */
module Admin {
  import opened Bytes
  import opened Results
  import opened Ledgers
  import opened RateLimit
  import opened State

  datatype AdminOp =
    | Pause
    | Unpause
    | SetAuthorities(newAdmin: Option<Pubkey>, newPauser: Option<Pubkey>)
    | SetCapsUsd(minCap: u128, maxCap: u128)
    | SetProtocolFee(fee: u64)
    | SetPythPriceFeed(feed: Pubkey)
    | SetPythConfidenceThreshold(threshold: u64)
    | SetBlockUsdCap(cap: u128)
    | UpdateEpochDuration(duration: u64)
    | SetTokenRateLimit(mint: Pubkey, limit: u128)
    | UpdateTss(ethAddress: Bytes20, chainId: Bytes)

  datatype AdminArgs = AdminArgs(signer: Pubkey, op: AdminOp, clock: Clock)

  /** Who may call, and which setters a pause blocks. */
  function AdminAccounts(e: Env, w: World, a: AdminArgs): Status {
    if e.isPda(a.signer) then Fail(MissingSignature)
    else
      match a.op
      case Pause => Require(a.signer == w.config.pauser || a.signer == w.config.admin, Unauthorized)
      case Unpause => Require(a.signer == w.config.pauser || a.signer == w.config.admin, Unauthorized)
      case SetAuthorities(_, _) => Require(a.signer == w.config.admin, Unauthorized)
      case SetProtocolFee(_) => Require(a.signer == w.config.admin, Unauthorized)
      case UpdateTss(_, _) => Require(a.signer == w.config.admin, Unauthorized)
      case SetTokenRateLimit(mint, _) =>
        // the account is created on first use, before the constraints are checked
        First(Require(mint in w.limits
                      || RentDue(w.ledger, e.limitAccount(mint), e.minimumBalance(TOKEN_RATE_LIMIT_LEN))
                          <= Balance(w.ledger, a.signer),
                      InsufficientLamports),
              First(Require(!w.config.paused, Paused), Require(a.signer == w.config.admin, Unauthorized)))
      case _ => First(Require(!w.config.paused, Paused), Require(a.signer == w.config.admin, Unauthorized))
  }

  /** The value checks of the setters that have any. */
  function AdminValues(op: AdminOp): Status {
    match op
    case SetAuthorities(newAdmin, newPauser) =>
      if newAdmin.None? && newPauser.None? then Fail(InvalidInput)
      else if newAdmin == Some(DEFAULT_KEY) || newPauser == Some(DEFAULT_KEY) then Fail(ZeroAddress)
      else Pass
    case SetCapsUsd(minCap, maxCap) => Require(minCap <= maxCap, InvalidCapRange)
    case SetPythPriceFeed(feed) => Require(feed != DEFAULT_KEY, ZeroAddress)
    case SetPythConfidenceThreshold(threshold) => Require(threshold > 0, InvalidAmount)
    case UpdateTss(_, chainId) => Require(0 < |chainId| <= 64, InvalidInput)
    case _ => Pass
  }

  /** Setting a token limit also forgets what its current epoch used; setting the
      slot cap or the epoch length forgets nothing. */
  function AdminWorld(e: Env, w: World, a: AdminArgs): World
    requires AdminAccounts(e, w, a).Pass?
  {
    var c := w.config;
    match a.op
    case Pause => w.(config := c.(paused := true))
    case Unpause => w.(config := c.(paused := false))
    case SetAuthorities(newAdmin, newPauser) =>
      w.(config := c.(admin := if newAdmin.Some? then newAdmin.value else c.admin,
                      pauser := if newPauser.Some? then newPauser.value else c.pauser))
    case SetCapsUsd(minCap, maxCap) => w.(config := c.(minCapUsd := minCap, maxCapUsd := maxCap))
    case SetProtocolFee(fee) => w.(protocolFee := fee)
    case SetPythPriceFeed(feed) => w.(config := c.(pythPriceFeed := feed))
    case SetPythConfidenceThreshold(threshold) => w.(config := c.(confidenceThreshold := threshold))
    case SetBlockUsdCap(cap) => w.(rate := w.rate.(blockUsdCap := cap))
    case UpdateEpochDuration(duration) => w.(rate := w.rate.(epochDuration := duration))
    case SetTokenRateLimit(mint, limit) =>
      var paid := if mint in w.limits then w.ledger
                  else PayRent(w.ledger, a.signer, e.limitAccount(mint), e.minimumBalance(TOKEN_RATE_LIMIT_LEN));
      w.(ledger := paid, limits := w.limits[mint := TokenLimit(mint, limit, 0, 0)])
    case UpdateTss(ethAddress, chainId) => w.(tss := Tss(ethAddress, chainId))
  }

  function AdminLog(a: AdminArgs): seq<Entry> {
    match a.op
    case SetCapsUsd(minCap, maxCap) => [Entry(a.clock, CapsUpdated(minCap, maxCap))]
    case SetProtocolFee(fee) => [Entry(a.clock, ProtocolFeeUpdated(fee))]
    case SetBlockUsdCap(cap) => [Entry(a.clock, BlockUsdCapUpdated(cap))]
    case UpdateEpochDuration(duration) => [Entry(a.clock, EpochDurationUpdated(duration))]
    case SetTokenRateLimit(mint, limit) => [Entry(a.clock, TokenRateLimitUpdated(mint, limit))]
    case _ => []
  }

  function AdminTx(e: Env, w: World, a: AdminArgs): Result<Outcome> {
    if AdminAccounts(e, w, a).Fail? then Err(AdminAccounts(e, w, a).error)
    else if AdminValues(a.op).Fail? then Err(AdminValues(a.op).error)
    else Ok(Outcome(AdminWorld(e, w, a), AdminLog(a)))
  }
}
