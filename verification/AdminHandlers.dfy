/** The setters step by step (instructions/admin.rs, instructions/tss.rs), proved
    to do what `AdminTx` says of the call as a whole. */
module AdminHandlers {
  import opened Bytes
  import opened Results
  import opened Ledgers
  import opened RateLimit
  import opened State
  import opened Admin
  import opened Chains

  method SetAuthorities(c: Chain, newAdmin: Option<Pubkey>, newPauser: Option<Pubkey>) returns (r: Status)
    modifies c`config
    ensures unchanged(c`lamports, c`tokens, c`tss, c`protocolFee, c`rate, c`limits, c`executed, c`log)
    ensures r == AdminValues(AdminOp.SetAuthorities(newAdmin, newPauser))
    ensures r.Pass? ==>
              c.config == old(c.config).(admin := if newAdmin.Some? then newAdmin.value else old(c.config).admin,
                                         pauser := if newPauser.Some? then newPauser.value else old(c.config).pauser)
  {
    r := Pass;
    :- Require(newAdmin.Some? || newPauser.Some?, InvalidInput);
    if newAdmin.Some? {
      :- Require(newAdmin.value != DEFAULT_KEY, ZeroAddress);
      c.config := c.config.(admin := newAdmin.value);
    }
    if newPauser.Some? {
      :- Require(newPauser.value != DEFAULT_KEY, ZeroAddress);
      c.config := c.config.(pauser := newPauser.value);
    }
  }

  /** The account is created on first use; either way the limit starts afresh. */
  method SetTokenRateLimit(c: Chain, signer: Pubkey, mint: Pubkey, threshold: u128, clock: Clock) returns (r: Status)
    modifies c`lamports, c`limits, c`log
    ensures unchanged(c`tokens, c`config, c`tss, c`protocolFee, c`rate, c`executed)
    ensures var due := RentDue(old(c.Accounts()), c.e.limitAccount(mint), c.e.minimumBalance(TOKEN_RATE_LIMIT_LEN));
            r == Require(mint in old(c.limits) || due <= Balance(old(c.Accounts()), signer), InsufficientLamports)
    ensures r.Pass? ==>
              && c.Accounts() == (if mint in old(c.limits) then old(c.Accounts())
                                  else PayRent(old(c.Accounts()), signer, c.e.limitAccount(mint),
                                               c.e.minimumBalance(TOKEN_RATE_LIMIT_LEN)))
              && c.limits == old(c.limits)[mint := TokenLimit(mint, threshold, 0, 0)]
              && c.log == old(c.log) + [Entry(clock, TokenRateLimitUpdated(mint, threshold))]
  {
    if mint !in c.limits {
      :- c.ChargeRent(signer, c.e.limitAccount(mint), c.e.minimumBalance(TOKEN_RATE_LIMIT_LEN));
    }
    c.limits := c.limits[mint := TokenLimit(mint, threshold, 0, 0)];
    c.Emit(clock, TokenRateLimitUpdated(mint, threshold));
    return Pass;
  }

  method SetCapsUsd(c: Chain, minCap: u128, maxCap: u128, clock: Clock) returns (r: Status)
    modifies c`config, c`log
    ensures unchanged(c`lamports, c`tokens, c`tss, c`protocolFee, c`rate, c`limits, c`executed)
    ensures r == Require(minCap <= maxCap, InvalidCapRange)
    ensures r.Pass? ==>
              && c.config == old(c.config).(minCapUsd := minCap, maxCapUsd := maxCap)
              && c.log == old(c.log) + [Entry(clock, CapsUpdated(minCap, maxCap))]
  {
    r := Pass;
    :- Require(minCap <= maxCap, InvalidCapRange);
    c.config := c.config.(minCapUsd := minCap, maxCapUsd := maxCap);
    c.Emit(clock, CapsUpdated(minCap, maxCap));
  }

  method UpdateTss(c: Chain, ethAddress: Bytes20, chainId: Bytes) returns (r: Status)
    modifies c`tss
    ensures unchanged(c`lamports, c`tokens, c`config, c`protocolFee, c`rate, c`limits, c`executed, c`log)
    ensures r == Require(0 < |chainId| <= 64, InvalidInput)
    ensures r.Pass? ==> c.tss == Tss(ethAddress, chainId)
  {
    r := Pass;
    :- Require(chainId != [], InvalidInput);
    :- Require(|chainId| <= 64, InvalidInput);
    c.tss := c.tss.(ethAddress := ethAddress);
    c.tss := c.tss.(chainId := chainId);
  }

  method TryAdminister(c: Chain, a: AdminArgs) returns (r: Status)
    requires AdminAccounts(c.e, c.Value(), a).Pass?
    modifies c
    ensures r == AdminValues(a.op)
    ensures r.Pass? ==> c.Value() == AdminWorld(c.e, old(c.Value()), a) && c.log == old(c.log) + AdminLog(a)
  {
    r := Pass;
    match a.op
    case Pause => c.config := c.config.(paused := true);
    case Unpause => c.config := c.config.(paused := false);
    case SetAuthorities(newAdmin, newPauser) => r := SetAuthorities(c, newAdmin, newPauser);
    case SetCapsUsd(minCap, maxCap) => r := SetCapsUsd(c, minCap, maxCap, a.clock);
    case SetProtocolFee(fee) =>
      c.protocolFee := fee;
      c.Emit(a.clock, ProtocolFeeUpdated(fee));
    case SetPythPriceFeed(feed) =>
      :- Require(feed != DEFAULT_KEY, ZeroAddress);
      c.config := c.config.(pythPriceFeed := feed);
    case SetPythConfidenceThreshold(threshold) =>
      :- Require(threshold > 0, InvalidAmount);
      c.config := c.config.(confidenceThreshold := threshold);
    case SetBlockUsdCap(cap) =>
      c.rate := c.rate.(blockUsdCap := cap);
      c.Emit(a.clock, BlockUsdCapUpdated(cap));
    case UpdateEpochDuration(duration) =>
      c.rate := c.rate.(epochDuration := duration);
      c.Emit(a.clock, EpochDurationUpdated(duration));
    case SetTokenRateLimit(mint, limit) => r := SetTokenRateLimit(c, a.signer, mint, limit, a.clock);
    case UpdateTss(ethAddress, chainId) => r := UpdateTss(c, ethAddress, chainId);
  }

  method Administer(c: Chain, a: AdminArgs) returns (r: Status)
    modifies c
    ensures match AdminTx(c.e, old(c.Value()), a)
            case Err(err) => r == Fail(err) && c.Value() == old(c.Value()) && c.log == old(c.log)
            case Ok(o) => r == Pass && c.Value() == o.world && c.log == old(c.log) + o.log
  {
    var w, log := c.Value(), c.log;
    :- AdminAccounts(c.e, c.Value(), a);
    r := TryAdminister(c, a);
    if r.Fail? {
      c.Rollback(w, log);
    }
  }
}
