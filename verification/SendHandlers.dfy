/** The deposit handlers step by step (instructions/deposit.rs), proved to do what
    `Send` says of the call as a whole. The repeated checks of the routes stand
    where the program has them; that `Send` has none of them and still agrees is
    the proof that they never fail for a type `FetchTxType` returned. */
module SendHandlers {
  import opened Bytes
  import opened Results
  import opened Ledgers
  import opened Pricing
  import opened RateLimit
  import opened State
  import opened Deposit
  import opened Effects
  import opened Chains

  method CollectProtocolFee(c: Chain, a: SendArgs) returns (r: Result<u64>)
    requires a.nativeAmount <= Balance(c.Accounts(), a.user)
    modifies c`lamports, c`log
    ensures unchanged(c`tokens, c`config, c`tss, c`protocolFee, c`rate, c`limits, c`executed)
    ensures r == (if c.protocolFee <= a.nativeAmount then Ok(a.nativeAmount - c.protocolFee)
                  else Err(InsufficientProtocolFee))
    ensures r.Ok? ==>
              && c.Accounts() == Move(old(c.Accounts()), a.user, c.e.feeVault, c.protocolFee)
              && c.log == old(c.log) + FeeLog(old(c.Value()), a)
    ensures r.Ok? && c.e.vault != a.user && c.e.vault != c.e.feeVault ==>
              Balance(c.Accounts(), c.e.vault) == Balance(old(c.Accounts()), c.e.vault)
  {
    var fee := c.protocolFee;
    if fee == 0 {
      MoveNothing(c.Accounts(), a.user, c.e.feeVault);
      return Ok(a.nativeAmount);
    }
    if a.nativeAmount < fee {
      return Err(InsufficientProtocolFee);
    }
    var paid := c.SystemTransfer(a.user, c.e.feeVault, fee);
    assert paid.Pass?;
    c.Emit(a.clock, ProtocolFeeCollected(a.user, fee, a.nativeAmount, a.nativeAmount - fee));
    return Ok(a.nativeAmount - fee);
  }

  /** What the gas route decides: the check it stops at, or the slot counter afterwards. */
  function GasRoute(config: Config, rate: RateConfig, a: SendArgs, txType: TxType, gas: u64): Result<RateConfig> {
    if txType != Gas && txType != GasAndPayload then Err(InvalidTxType)
    else if a.request.revertRecipient == DEFAULT_KEY then Err(InvalidRecipient)
    else if gas == 0 && txType == Gas then Err(InvalidAmount)
    else GasCheck(config, rate, gas, a.oracle, a.clock.slot)
  }

  method SendTxWithGasRoute(c: Chain, a: SendArgs, txType: TxType, gas: u64, payload: Bytes) returns (r: Status)
    requires gas <= Balance(c.Accounts(), a.user)
    modifies c`lamports, c`rate, c`log
    ensures unchanged(c`tokens, c`config, c`tss, c`protocolFee, c`limits, c`executed)
    ensures match GasRoute(c.config, old(c.rate), a, txType, gas)
            case Err(err) => r == Fail(err)
            case Ok(rate) =>
              && r == Pass && c.rate == rate
              && c.Accounts() == Move(old(c.Accounts()), a.user, c.e.vault, gas)
              && c.log == old(c.log) + [Entry(a.clock, GasEvent(a, txType, gas, payload))]
  {
    r := Pass;
    :- Require(txType == Gas || txType == GasAndPayload, InvalidTxType);
    :- Require(a.request.revertRecipient != DEFAULT_KEY, InvalidRecipient);
    if gas == 0 {
      :- Require(txType == GasAndPayload || txType == FundsAndPayload, InvalidAmount);
      MoveNothing(c.Accounts(), a.user, c.e.vault);
      c.Emit(a.clock, GasEvent(a, txType, 0, payload));
      return Pass;
    }
    :- CheckUsdCaps(c.config.minCapUsd, c.config.maxCapUsd, c.config.confidenceThreshold, gas, a.oracle);
    var usd := CalculateUsdAmount(gas, a.oracle.value).value;
    var limiter := new RateLimitConfig(c.rate);
    :- limiter.CheckBlockUsdCap(usd, a.clock);
    c.rate := limiter.Value();
    var paid := c.SystemTransfer(a.user, c.e.vault, gas);
    assert paid.Pass?;
    c.Emit(a.clock, GasEvent(a, txType, gas, payload));
  }

  /** The token limit account, read, charged and written back. */
  method ConsumeTokenLimit(c: Chain, limitMint: Pubkey, token: Pubkey, amount: u64, clock: Clock) returns (r: Status)
    requires limitMint in c.limits
    modifies c`limits
    ensures unchanged(c`lamports, c`tokens, c`config, c`tss, c`protocolFee, c`rate, c`executed, c`log)
    ensures match ValidateAndConsume(old(c.limits)[limitMint], token, amount, c.rate.epochDuration, clock.unixTimestamp)
            case Err(err) => r == Fail(err)
            case Ok(limit) => r == Pass && c.limits == old(c.limits)[limitMint := limit]
  {
    var limiter := new TokenRateLimit(c.limits[limitMint]);
    :- limiter.ValidateTokenAndConsume(token, amount, c.rate.epochDuration, clock);
    c.limits := c.limits[limitMint := limiter.Value()];
    return Pass;
  }

  method DepositSplToVault(c: Chain, a: SendArgs) returns (r: Status)
    modifies c`tokens
    ensures unchanged(c`lamports, c`config, c`tss, c`protocolFee, c`rate, c`limits, c`executed, c`log)
    ensures r == TokenDepositCheck(c.e, old(c.tokens), a)
    ensures r.Pass? ==>
              c.Accounts() == MoveTokens(old(c.Accounts()), a.userToken.value, a.gatewayToken.value, a.request.amount)
  {
    var vault := c.e.vault;
    :- Require(a.userToken.Some? && a.gatewayToken.Some?, InvalidAccount);
    var src, dst := a.userToken.value, a.gatewayToken.value;
    :- Require(src in c.tokens, InvalidOwner);
    :- Require(c.tokens[src].owner == a.user, InvalidOwner);
    :- Require(c.tokens[src].mint == a.request.token, InvalidMint);
    :- Require(dst in c.tokens, InvalidAccount);
    :- Require(c.tokens[dst].owner == vault, InvalidOwner);
    :- Require(c.tokens[dst].mint == a.request.token, InvalidMint);
    r := c.SplTransfer(src, dst, a.user, a.request.amount);
  }

  /** The slot counter after the gas leg of a funds route. */
  function GasLeg(config: Config, rate: RateConfig, a: SendArgs, gas: u64): Result<RateConfig> {
    if gas == 0 then Ok(rate) else GasRoute(config, rate, a, Gas, gas)
  }

  function GasLegLog(a: SendArgs, gas: u64): seq<Entry> {
    if gas == 0 then [] else [Entry(a.clock, GasEvent(a, Gas, gas, []))]
  }

  /** The gas leg of a funds route, if there is one. */
  method SendGasLeg(c: Chain, a: SendArgs, gas: u64) returns (r: Status)
    requires gas <= Balance(c.Accounts(), a.user)
    modifies c`lamports, c`rate, c`log
    ensures unchanged(c`tokens, c`config, c`tss, c`protocolFee, c`limits, c`executed)
    ensures match GasLeg(c.config, old(c.rate), a, gas)
            case Err(err) => r == Fail(err)
            case Ok(rate) =>
              && r == Pass && c.rate == rate
              && c.rate.epochDuration == old(c.rate).epochDuration
              && c.Accounts() == Move(old(c.Accounts()), a.user, c.e.vault, gas)
              && c.log == old(c.log) + GasLegLog(a, gas)
  {
    if gas == 0 {
      MoveNothing(c.Accounts(), a.user, c.e.vault);
      return Pass;
    }
    r := SendTxWithGasRoute(c, a, Gas, gas, []);
  }

  /** What the two funds handlers insist on themselves. */
  function NativeShape(req: UniversalTxRequest, native: u64, txType: TxType): Status {
    if native < req.amount then Fail(InvalidAmount)
    else if txType == Funds && native != req.amount then Fail(InvalidAmount)
    else Pass
  }

  function SplShape(native: u64, txType: TxType): Status {
    if txType == Funds && native != 0 then Fail(InvalidAmount) else Pass
  }

  /** The outcome of checks made in this order. */
  function FirstOf(shape: Status, gas: Result<RateConfig>, funds: Result<map<Pubkey, TokenLimit>>): Status {
    if shape.Fail? then shape
    else if gas.Err? then Fail(gas.error)
    else if funds.Err? then Fail(funds.error)
    else Pass
  }

  /** The part of the native value of a funds route that is gas. */
  function GasPart(req: UniversalTxRequest, native: u64): u64 {
    if native < NativeFunds(req) then 0 else native - NativeFunds(req)
  }

  lemma SecondHalf(l: Ledger, after: Ledger, src: Pubkey, dst: Pubkey, m: nat, n: nat)
    requires m + n <= Balance(l, src) && after == Move(l, src, dst, m)
    ensures n <= Balance(after, src) && Move(after, src, dst, n) == Move(l, src, dst, m + n)
  {
    MoveTwice(l, src, dst, m, n);
  }

  method HandleNativeFundsRoute(c: Chain, a: SendArgs, native: u64, txType: TxType) returns (r: Status)
    requires a.limitMint in c.limits && a.request.token == DEFAULT_KEY && a.request.amount > 0
    requires native <= Balance(c.Accounts(), a.user)
    modifies c`lamports, c`rate, c`limits, c`log
    ensures unchanged(c`tokens, c`config, c`tss, c`protocolFee, c`executed)
    ensures var gas := GasLeg(c.config, old(c.rate), a, GasPart(a.request, native));
            var funds := FundsCheck(c.e, old(c.tokens), old(c.limits), old(c.rate).epochDuration, a);
            && r == FirstOf(NativeShape(a.request, native, txType), gas, funds)
            && (r.Pass? ==> Ok(c.rate) == gas && Ok(c.limits) == funds)
    ensures r.Pass? ==>
              && c.Accounts() == Move(old(c.Accounts()), a.user, c.e.vault, native)
              && c.log == old(c.log) + GasLegLog(a, GasPart(a.request, native))
  {
    var amount := a.request.amount;
    :- Require(native >= amount, InvalidAmount);
    if txType == Funds {
      :- Require(native == amount, InvalidAmount);
    }
    var gas := native - amount;
    ghost var l := c.Accounts();
    :- SendGasLeg(c, a, gas);
    ghost var metered := c.Accounts();
    SecondHalf(l, metered, a.user, c.e.vault, gas, amount);
    r := PayNativeFunds(c, a);
  }

  /** The funds leg of the native handler. */
  method PayNativeFunds(c: Chain, a: SendArgs) returns (r: Status)
    requires a.limitMint in c.limits && a.request.token == DEFAULT_KEY
    requires 0 < a.request.amount <= Balance(c.Accounts(), a.user)
    modifies c`lamports, c`limits
    ensures unchanged(c`tokens, c`config, c`tss, c`protocolFee, c`rate, c`executed, c`log)
    ensures match FundsCheck(c.e, old(c.tokens), old(c.limits), c.rate.epochDuration, a)
            case Err(err) => r == Fail(err)
            case Ok(limits) =>
              && r == Pass && c.limits == limits
              && c.Accounts() == Move(old(c.Accounts()), a.user, c.e.vault, a.request.amount)
  {
    var amount := a.request.amount;
    :- ConsumeTokenLimit(c, a.limitMint, DEFAULT_KEY, amount, a.clock);
    r := c.SystemTransfer(a.user, c.e.vault, amount);
  }

  method HandleSplFundsRoute(c: Chain, a: SendArgs, native: u64, txType: TxType) returns (r: Status)
    requires a.limitMint in c.limits && HasTokenLeg(a.request)
    requires native <= Balance(c.Accounts(), a.user)
    modifies c`lamports, c`tokens, c`rate, c`limits, c`log
    ensures unchanged(c`config, c`tss, c`protocolFee, c`executed)
    ensures var gas := GasLeg(c.config, old(c.rate), a, native);
            var funds := FundsCheck(c.e, old(c.tokens), old(c.limits), old(c.rate).epochDuration, a);
            && r == FirstOf(SplShape(native, txType), gas, funds)
            && (r.Pass? ==> Ok(c.rate) == gas && Ok(c.limits) == funds)
    ensures r.Pass? ==>
              && TokenDepositCheck(c.e, old(c.tokens), a).Pass?
              && c.Accounts() == Deposited(c.e, old(c.Accounts()), a, native)
              && c.log == old(c.log) + GasLegLog(a, native)
  {
    if txType == Funds {
      :- Require(native == 0, InvalidAmount);
    }
    :- SendGasLeg(c, a, native);
    :- ConsumeTokenLimit(c, a.limitMint, a.request.token, a.request.amount, a.clock);
    r := DepositSplToVault(c, a);
  }

  /** What the dispatcher of the funds routes and its handlers insist on. */
  function FundsShape(req: UniversalTxRequest, native: u64, txType: TxType): Status {
    if req.revertRecipient == DEFAULT_KEY then Fail(InvalidRecipient)
    else if req.amount == 0 then Fail(InvalidAmount)
    else if (txType == Funds) != (req.payload == []) then Fail(InvalidInput)
    else if req.token == DEFAULT_KEY then NativeShape(req, native, txType)
    else SplShape(native, txType)
  }

  method SendTxWithFundsRoute(c: Chain, a: SendArgs, native: u64, txType: TxType) returns (r: Status)
    requires a.limitMint in c.limits && native <= Balance(c.Accounts(), a.user)
    modifies c`lamports, c`tokens, c`rate, c`limits, c`log
    ensures unchanged(c`config, c`tss, c`protocolFee, c`executed)
    ensures var gas := GasLeg(c.config, old(c.rate), a, GasPart(a.request, native));
            var funds := FundsCheck(c.e, old(c.tokens), old(c.limits), old(c.rate).epochDuration, a);
            && r == FirstOf(FundsShape(a.request, native, txType), gas, funds)
            && (r.Pass? ==> Ok(c.rate) == gas && Ok(c.limits) == funds)
    ensures r.Pass? ==>
              && (HasTokenLeg(a.request) ==> TokenDepositCheck(c.e, old(c.tokens), a).Pass?)
              && c.Accounts() == Deposited(c.e, old(c.Accounts()), a, native)
              && c.log == old(c.log) + GasLegLog(a, GasPart(a.request, native))
                   + [Entry(a.clock, FundsEvent(a, txType))]
  {
    r := Pass;
    :- Require(a.request.revertRecipient != DEFAULT_KEY, InvalidRecipient);
    :- Require(a.request.amount > 0, InvalidAmount);
    if txType == Funds {
      :- Require(a.request.payload == [], InvalidInput);
    } else {
      :- Require(a.request.payload != [], InvalidInput);
    }
    if a.request.token == DEFAULT_KEY {
      :- HandleNativeFundsRoute(c, a, native, txType);
    } else {
      :- HandleSplFundsRoute(c, a, native, txType);
    }
    c.Emit(a.clock, FundsEvent(a, txType));
  }

  // ---- The router ----

  /** For a funds type, the repeated shape checks of the dispatcher and its two
      handlers pass exactly when the classifier returns this type and there is a
      revert recipient: they decide nothing the classifier has not decided. */
  lemma FundsRouterSound(req: UniversalTxRequest, native: u64, txType: TxType)
    requires txType == Funds || txType == FundsAndPayload
    ensures FundsShape(req, native, txType).Pass?
       <==> FetchTxType(req, native) == Ok(txType) && req.revertRecipient != DEFAULT_KEY
    ensures FetchTxType(req, native) == Ok(txType) ==>
              && FundsShape(req, native, txType) == Require(req.revertRecipient != DEFAULT_KEY, InvalidRecipient)
              && req.amount > 0 && NativeFunds(req) <= native
  {
  }

  /** For a gas type the classifier returned, neither of the repeated type checks can fail. */
  lemma GasRouterSound(config: Config, rate: RateConfig, a: SendArgs, native: u64, txType: TxType)
    requires txType == Gas || txType == GasAndPayload
    requires FetchTxType(a.request, native) == Ok(txType)
    ensures a.request.amount == 0
    ensures GasRoute(config, rate, a, txType, native)
         == if a.request.revertRecipient == DEFAULT_KEY then Err(InvalidRecipient)
            else GasCheck(config, rate, native, a.oracle, a.clock.slot)
  {
  }

  /** What is decided once the type is known. */
  function RouteOutcome(req: UniversalTxRequest, gas: Result<RateConfig>, funds: Result<map<Pubkey,
                        TokenLimit>>): Status {
    FirstOf(Require(req.revertRecipient != DEFAULT_KEY, InvalidRecipient), gas, funds)
  }

  /** What the route decides of a classified request, and what it changes. */
  ghost predicate Routed(e: Env, w: World, log: seq<Entry>, a: SendArgs, native: u64, txType: TxType, r: Status,
                         after: World, afterLog: seq<Entry>)
    requires a.limitMint in w.limits && NativeFunds(a.request) <= native <= Balance(w.ledger, a.user)
  {
    var gas := GasCheck(w.config, w.rate, native - NativeFunds(a.request), a.oracle, a.clock.slot);
    var funds := FundsCheck(e, w.ledger.tokens, w.limits, w.rate.epochDuration, a);
    && r == RouteOutcome(a.request, gas, funds)
    && (r.Pass? ==>
          && (HasTokenLeg(a.request) ==> TokenDepositCheck(e, w.ledger.tokens, a).Pass?)
          && after == w.(ledger := Deposited(e, w.ledger, a, native), rate := gas.value, limits := funds.value)
          && afterLog == log + LegLog(a, native, txType))
  }

  /** The gas route is the routing of a request without funds. */
  lemma GasIsRouted(e: Env, w: World, log: seq<Entry>, a: SendArgs, native: u64, txType: TxType, r: Status,
                    after: World, afterLog: seq<Entry>)
    requires a.limitMint in w.limits && native <= Balance(w.ledger, a.user)
    requires (txType == Gas || txType == GasAndPayload) && FetchTxType(a.request, native) == Ok(txType)
    requires match GasRoute(w.config, w.rate, a, txType, native)
             case Err(err) => r == Fail(err)
             case Ok(rate) =>
               && r == Pass && after == w.(ledger := Move(w.ledger, a.user, e.vault, native), rate := rate)
               && afterLog == log + [Entry(a.clock, GasEvent(a, txType, native, a.request.payload))]
    ensures NativeFunds(a.request) == 0 && Routed(e, w, log, a, native, txType, r, after, afterLog)
  {
    GasRouterSound(w.config, w.rate, a, native, txType);
  }

  lemma FundsLegLog(a: SendArgs, native: u64, txType: TxType, log: seq<Entry>)
    requires a.request.amount > 0 && NativeFunds(a.request) <= native
    ensures log + GasLegLog(a, GasPart(a.request, native)) + [Entry(a.clock, FundsEvent(a, txType))]
         == log + LegLog(a, native, txType)
  {
    Associate(log, GasLegLog(a, GasPart(a.request, native)), [Entry(a.clock, FundsEvent(a, txType))]);
  }

  /** The funds route is the routing of a request with funds. */
  lemma FundsAreRouted(e: Env, w: World, log: seq<Entry>, a: SendArgs, native: u64, txType: TxType, r: Status,
                       after: World, afterLog: seq<Entry>)
    requires a.limitMint in w.limits && native <= Balance(w.ledger, a.user)
    requires (txType == Funds || txType == FundsAndPayload) && FetchTxType(a.request, native) == Ok(txType)
    requires var gas := GasLeg(w.config, w.rate, a, GasPart(a.request, native));
             var funds := FundsCheck(e, w.ledger.tokens, w.limits, w.rate.epochDuration, a);
             && r == FirstOf(FundsShape(a.request, native, txType), gas, funds)
             && (r.Pass? ==>
                   && (HasTokenLeg(a.request) ==> TokenDepositCheck(e, w.ledger.tokens, a).Pass?)
                   && after == w.(ledger := Deposited(e, w.ledger, a, native), rate := gas.value, limits := funds.value)
                   && afterLog == log + LegLog(a, native, txType))
    ensures NativeFunds(a.request) <= native && Routed(e, w, log, a, native, txType, r, after, afterLog)
  {
    FundsRouterSound(a.request, native, txType);
  }

  method RouteUniversalTx(c: Chain, a: SendArgs, native: u64, txType: TxType) returns (r: Status)
    requires a.limitMint in c.limits && native <= Balance(c.Accounts(), a.user)
    requires FetchTxType(a.request, native) == Ok(txType) && NativeFunds(a.request) <= native
    modifies c`lamports, c`tokens, c`rate, c`limits, c`log
    ensures unchanged(c`config, c`tss, c`protocolFee, c`executed)
    ensures Routed(c.e, old(c.Value()), old(c.log), a, native, txType, r, c.Value(), c.log)
  {
    match txType
    case Gas | GasAndPayload =>
      r := SendTxWithGasRoute(c, a, txType, native, a.request.payload);
      GasIsRouted(c.e, old(c.Value()), old(c.log), a, native, txType, r, c.Value(), c.log);
    case Funds | FundsAndPayload =>
      r := SendTxWithFundsRoute(c, a, native, txType);
      FundsRouterSound(a.request, native, txType);
      FundsLegLog(a, native, txType, old(c.log));
      FundsAreRouted(c.e, old(c.Value()), old(c.log), a, native, txType, r, c.Value(), c.log);
  }

  method FetchAndRoute(c: Chain, a: SendArgs, native: u64) returns (r: Status)
    requires a.limitMint in c.limits && native <= Balance(c.Accounts(), a.user)
    modifies c`lamports, c`tokens, c`rate, c`limits, c`log
    ensures unchanged(c`config, c`tss, c`protocolFee, c`executed)
    ensures match FetchTxType(a.request, native)
            case Err(err) => r == Fail(err)
            case Ok(txType) =>
              && NativeFunds(a.request) <= native
              && Routed(c.e, old(c.Value()), old(c.log), a, native, txType, r, c.Value(), c.log)
  {
    var classified := FetchTxType(a.request, native);
    if classified.Err? {
      return Fail(classified.error);
    }
    r := RouteUniversalTx(c, a, native, classified.value);
  }

  method EnterAndPayFee(c: Chain, a: SendArgs) returns (r: Result<u64>)
    modifies c`lamports, c`log
    ensures unchanged(c`tokens, c`config, c`tss, c`protocolFee, c`rate, c`limits, c`executed)
    ensures r == SendEntry(c.e, old(c.Value()), a)
    ensures r.Ok? ==>
              && r.value <= Balance(c.Accounts(), a.user)
              && c.Accounts() == FeePaid(c.e, old(c.Value()), a.user)
              && c.log == old(c.log) + FeeLog(old(c.Value()), a)
  {
    var accounts := SendAccounts(c.e, c.Value(), a);
    if accounts.Fail? {
      return Err(accounts.error);
    }
    if c.config.paused {
      return Err(Paused);
    }
    if Balance(c.Accounts(), a.user) < a.nativeAmount {
      return Err(InsufficientBalance);
    }
    r := CollectProtocolFee(c, a);
  }

  lemma FeeThenLegs(w: World, a: SendArgs, native: u64, txType: TxType, log: seq<Entry>)
    requires w.protocolFee <= a.nativeAmount && native == a.nativeAmount - w.protocolFee
    requires NativeFunds(a.request) <= native
    ensures log + FeeLog(w, a) + LegLog(a, native, txType) == log + SendLog(w, a, txType)
  {
    Associate(log, FeeLog(w, a), LegLog(a, native, txType));
  }

  /** After the fee, the route alone decides. */
  lemma RouteDecides(e: Env, w: World, a: SendArgs, native: u64, txType: TxType)
    requires SendEntry(e, w, a) == Ok(native) && FetchTxType(a.request, native) == Ok(txType)
    requires NativeFunds(a.request) <= native && a.limitMint in w.limits
    ensures var gas := GasCheck(w.config, w.rate, native - NativeFunds(a.request), a.oracle, a.clock.slot);
            var funds := FundsCheck(e, w.ledger.tokens, w.limits, w.rate.epochDuration, a);
            RouteOutcome(a.request, gas, funds)
            == match Send(e, w, a) case Err(err) => Fail(err) case Ok(_) => Pass
  {
  }

  /** A fee paid and a request routed: that is what `Send` says. */
  lemma FeeThenRoute(e: Env, w: World, a: SendArgs, native: u64, txType: TxType, r: Status, paid: World,
                     log: seq<Entry>,
                     after: World, afterLog: seq<Entry>)
    requires SendEntry(e, w, a) == Ok(native) && FetchTxType(a.request, native) == Ok(txType)
    requires NativeFunds(a.request) <= native <= Balance(paid.ledger, a.user) && a.limitMint in w.limits
    requires paid == w.(ledger := FeePaid(e, w, a.user))
    requires Routed(e, paid, log, a, native, txType, r, after, afterLog)
    ensures match Send(e, w, a)
            case Err(err) => r == Fail(err)
            case Ok(o) => r == Pass && after == o.world && o.log == SendLog(w, a, txType)
  {
    RouteDecides(e, w, a, native, txType);
    if Send(e, w, a).Ok? {
      SendAccepted(e, w, a);
    }
  }

  method TrySend(c: Chain, a: SendArgs) returns (r: Status)
    modifies c
    ensures match Send(c.e, old(c.Value()), a)
            case Err(err) => r == Fail(err)
            case Ok(o) => r == Pass && c.Value() == o.world && c.log == old(c.log) + o.log
  {
    var native := EnterAndPayFee(c, a);
    if native.Err? {
      return Fail(native.error);
    }
    ghost var paid, middle := c.Value(), c.log;
    r := FetchAndRoute(c, a, native.value);
    if FetchTxType(a.request, native.value).Ok? {
      FeeThenRoute(c.e, old(c.Value()), a, native.value, FetchTxType(a.request, native.value).value, r, paid, middle,
                   c.Value(), c.log);
      FeeThenLegs(old(c.Value()), a, native.value, FetchTxType(a.request, native.value).value, old(c.log));
    }
  }

  method SendUniversalTx(c: Chain, a: SendArgs) returns (r: Status)
    modifies c
    ensures match Send(c.e, old(c.Value()), a)
            case Err(err) => r == Fail(err) && c.Value() == old(c.Value()) && c.log == old(c.log)
            case Ok(o) => r == Pass && c.Value() == o.world && c.log == old(c.log) + o.log
  {
    var w, log := c.Value(), c.log;
    r := TrySend(c, a);
    if r.Fail? {
      c.Rollback(w, log);
    }
  }
}
