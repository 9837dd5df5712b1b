/** The settings over runs: who can change them and to what, that nothing else
    does, and that the gateway does nothing while it is paused. */
module Settings {
  import opened Bytes
  import opened Results
  import opened Ledgers
  import opened Pricing
  import opened RateLimit
  import opened State
  import opened Deposit
  import opened Finalize
  import opened Payout
  import opened Admin
  import opened Runs
  import opened Effects
  import opened Cea

  datatype Setting =
    | AdminKey
    | PauserKey
    | PauseSwitch
    | MinCap
    | MaxCap
    | PriceFeed
    | Confidence
    | DepositFee
    | SlotCap
    | EpochLength
    | TssAddress
    | TssChain
    | Threshold(mint: Pubkey)

  datatype Value = Absent | On | Off | Number(n: nat) | Text(s: Bytes)

  function ValueIn(w: World, s: Setting): Value {
    match s
    case AdminKey => Text(w.config.admin)
    case PauserKey => Text(w.config.pauser)
    case PauseSwitch => if w.config.paused then On else Off
    case MinCap => Number(w.config.minCapUsd)
    case MaxCap => Number(w.config.maxCapUsd)
    case PriceFeed => Text(w.config.pythPriceFeed)
    case Confidence => Number(w.config.confidenceThreshold)
    case DepositFee => Number(w.protocolFee)
    case SlotCap => Number(w.rate.blockUsdCap)
    case EpochLength => Number(w.rate.epochDuration)
    case TssAddress => Text(w.tss.ethAddress)
    case TssChain => Text(w.tss.chainId)
    case Threshold(mint) => if mint in w.limits then Number(w.limits[mint].limitThreshold) else Absent
  }

  // ---- One setter ----

  /** What the setter is meant to write to the setting, if anything. */
  function Writes(op: AdminOp, s: Setting): Option<Value> {
    match (op, s)
    case (Pause, PauseSwitch) => Some(On)
    case (Unpause, PauseSwitch) => Some(Off)
    case (SetAuthorities(Some(k), _), AdminKey) => Some(Text(k))
    case (SetAuthorities(_, Some(k)), PauserKey) => Some(Text(k))
    case (SetCapsUsd(n, _), MinCap) => Some(Number(n))
    case (SetCapsUsd(_, n), MaxCap) => Some(Number(n))
    case (SetProtocolFee(n), DepositFee) => Some(Number(n))
    case (SetPythPriceFeed(k), PriceFeed) => Some(Text(k))
    case (SetPythConfidenceThreshold(n), Confidence) => Some(Number(n))
    case (SetBlockUsdCap(n), SlotCap) => Some(Number(n))
    case (UpdateEpochDuration(n), EpochLength) => Some(Number(n))
    case (UpdateTss(address, _), TssAddress) => Some(Text(address))
    case (UpdateTss(_, chainId), TssChain) => Some(Text(chainId))
    case (SetTokenRateLimit(mint, n), Threshold(other)) => if mint == other then Some(Number(n)) else None
    case _ => None
  }

  function Or(v: Option<Value>, otherwise: Value): Value {
    if v.Some? then v.value else otherwise
  }

  predicate AboutPause(op: AdminOp) {
    op.Pause? || op.Unpause?
  }

  /** The setters that a pause does not block. */
  predicate WorksPaused(op: AdminOp) {
    AboutPause(op) || op.SetAuthorities? || op.SetProtocolFee? || op.UpdateTss?
  }

  /** The admin may call any setter, the pauser pause and unpause. */
  predicate MayCall(config: Config, signer: Pubkey, op: AdminOp) {
    && (signer == config.admin || (signer == config.pauser && AboutPause(op)))
    && (config.paused ==> WorksPaused(op))
  }

  /** The values a setting can take. */
  predicate Sensible(op: AdminOp) {
    && (op.SetAuthorities? ==>
          && (op.newAdmin.Some? || op.newPauser.Some?)
          && op.newAdmin != Some(DEFAULT_KEY) && op.newPauser != Some(DEFAULT_KEY))
    && (op.SetCapsUsd? ==> op.minCap <= op.maxCap)
    && (op.SetPythPriceFeed? ==> op.feed != DEFAULT_KEY)
    && (op.SetPythConfidenceThreshold? ==> op.threshold > 0)
    && (op.UpdateTss? ==> 1 <= |op.chainId| <= 64)
  }

  /** The rent of a token limit that does not exist yet. */
  function LimitRent(e: Env, w: World, op: AdminOp): nat {
    if op.SetTokenRateLimit? && op.mint !in w.limits
    then RentDue(w.ledger, e.limitAccount(op.mint), e.minimumBalance(TOKEN_RATE_LIMIT_LEN)) else 0
  }

  /** A setter is accepted iff the caller signs and may call it, the values make
      sense, and the caller has the rent of an account it opens. */
  lemma SetterExactly(e: Env, w: World, a: AdminArgs)
    ensures AdminTx(e, w, a).Ok?
       <==> && !e.isPda(a.signer) && MayCall(w.config, a.signer, a.op) && Sensible(a.op)
            && LimitRent(e, w, a.op) <= Balance(w.ledger, a.signer)
  {
  }

  /** It writes its settings and no other. */
  lemma SetterWrites(e: Env, w: World, a: AdminArgs, s: Setting)
    requires AdminTx(e, w, a).Ok?
    ensures ValueIn(AdminTx(e, w, a).value.world, s) == Or(Writes(a.op, s), ValueIn(w, s))
  {
    WorldWrites(e, w, a, s);
  }

  lemma WorldWrites(e: Env, w: World, a: AdminArgs, s: Setting)
    requires AdminAccounts(e, w, a).Pass?
    ensures ValueIn(AdminWorld(e, w, a), s) == Or(Writes(a.op, s), ValueIn(w, s))
  {
  }

  /** And it leaves the counters of the limiters alone, but for the limit it sets,
      whose epoch starts afresh. */
  lemma SetterKeepsCounters(e: Env, w: World, a: AdminArgs, token: Pubkey)
    requires AdminTx(e, w, a).Ok?
    ensures var after := AdminTx(e, w, a).value.world;
            && after.rate.lastSlot == w.rate.lastSlot && after.rate.consumedUsd == w.rate.consumedUsd
            && after.executed == w.executed
            && (a.op.SetTokenRateLimit? && a.op.mint == token ==>
                  token in after.limits && after.limits[token].tokenMint == token
                  && after.limits[token].epoch == 0 && after.limits[token].used == 0)
            && (!(a.op.SetTokenRateLimit? && a.op.mint == token) ==>
                  && (token in after.limits <==> token in w.limits)
                  && (token in w.limits ==> after.limits[token] == w.limits[token]))
  {
  }

  /** It moves the rent of an account it opens, which then has its minimum. */
  lemma SetterLamports(e: Env, w: World, a: AdminArgs, k: Pubkey)
    requires AdminTx(e, w, a).Ok?
    ensures var l, rent := AdminTx(e, w, a).value.world.ledger, LimitRent(e, w, a.op);
            var created := a.op.SetTokenRateLimit? && k == e.limitAccount(a.op.mint);
            && l.tokens == w.ledger.tokens
            && Balance(l, k) == Balance(w.ledger, k) - If(k == a.signer, rent) + If(created, rent)
            && (created && a.op.mint !in w.limits && k != a.signer ==>
                  e.minimumBalance(TOKEN_RATE_LIMIT_LEN) <= Balance(l, k))
  {
    if a.op.SetTokenRateLimit? && a.op.mint !in w.limits {
      PayRentEffect(w.ledger, a.signer, e.limitAccount(a.op.mint), e.minimumBalance(TOKEN_RATE_LIMIT_LEN));
    }
  }

  /** The setters with an event announce what is then set. */
  function Announced(after: World, op: AdminOp): seq<Event> {
    match op
    case SetCapsUsd(_, _) => [CapsUpdated(after.config.minCapUsd, after.config.maxCapUsd)]
    case SetProtocolFee(_) => [ProtocolFeeUpdated(after.protocolFee)]
    case SetBlockUsdCap(_) => [BlockUsdCapUpdated(after.rate.blockUsdCap)]
    case UpdateEpochDuration(_) => [EpochDurationUpdated(after.rate.epochDuration)]
    case SetTokenRateLimit(mint, _) =>
      if mint in after.limits then [TokenRateLimitUpdated(mint, after.limits[mint].limitThreshold)] else []
    case _ => []
  }

  lemma SetterAnnounces(e: Env, w: World, a: AdminArgs)
    requires AdminTx(e, w, a).Ok?
    ensures var o := AdminTx(e, w, a).value;
            && |o.log| == |Announced(o.world, a.op)|
            && (|o.log| == 0 <==> a.op.SetAuthorities? || a.op.SetPythPriceFeed? || a.op.SetPythConfidenceThreshold?
                                  || a.op.UpdateTss? || AboutPause(a.op))
            && forall i :: 0 <= i < |o.log| ==> o.log[i] == Entry(a.clock, Announced(o.world, a.op)[i])
  {
  }

  // ---- Runs ----

  /** What a step writes to a setting, if it succeeds. */
  function WrittenBy(act: Action, s: Setting): Option<Value> {
    if act.AdminAction? then Writes(act.admin.op, s) else None
  }

  /** Deposits, outbound calls and foreign transactions change no setting. */
  lemma StepWrites(e: Env, w: World, act: Action, s: Setting)
    requires Step(e, w, act).Ok?
    ensures ValueIn(Step(e, w, act).value.world, s) == Or(WrittenBy(act, s), ValueIn(w, s))
  {
    match act
    case SendUniversalTx(a) => DepositWritesNothing(e, w, a, s);
    case FinalizeUniversalTx(a) => CallWritesNothing(e, w, a, s);
    case RevertTx(p, instruction) => PayoutWritesNothing(e, w, p, Reverting(instruction), s);
    case RescueFunds(p) => PayoutWritesNothing(e, w, p, Rescuing, s);
    case AdminAction(a) => SetterWrites(e, w, a, s);
    case External(ledger, _) => SameValue(w, w.(ledger := ledger), s);
  }

  /** The settings are those of one world in the other. */
  predicate SameSettings(w: World, after: World) {
    && after.config == w.config && after.tss == w.tss && after.protocolFee == w.protocolFee
    && after.rate.blockUsdCap == w.rate.blockUsdCap && after.rate.epochDuration == w.rate.epochDuration
    && after.limits.Keys == w.limits.Keys
    && forall m <- w.limits.Keys :: after.limits[m].limitThreshold == w.limits[m].limitThreshold
  }

  lemma SameValue(w: World, after: World, s: Setting)
    requires SameSettings(w, after)
    ensures ValueIn(after, s) == ValueIn(w, s)
  {
    if s.Threshold? {
      assert s.mint in after.limits.Keys <==> s.mint in w.limits.Keys;
    }
  }

  lemma FundsCheckKeepsThresholds(e: Env, tokens: map<Pubkey, TokenAccount>, limits: map<Pubkey, TokenLimit>,
                                  duration: u64, a: SendArgs)
    requires a.limitMint in limits && FundsCheck(e, tokens, limits, duration, a).Ok?
    ensures var after := FundsCheck(e, tokens, limits, duration, a).value;
            after.Keys == limits.Keys && forall m <- limits.Keys :: after[m].limitThreshold == limits[m].limitThreshold
  {
  }

  lemma GasCheckKeepsRates(config: Config, rate: RateConfig, gas: u64, oracle: Option<PriceData>, slot: u64)
    requires GasCheck(config, rate, gas, oracle, slot).Ok?
    ensures var after := GasCheck(config, rate, gas, oracle, slot).value;
            after.blockUsdCap == rate.blockUsdCap && after.epochDuration == rate.epochDuration
  {
  }

  lemma PayoutWritesNothing(e: Env, w: World, p: PayoutArgs, kind: Kind, s: Setting)
    requires PayoutTx(e, w, p, kind).Ok?
    ensures ValueIn(PayoutTx(e, w, p, kind).value.world, s) == ValueIn(w, s)
  {
    PayoutReport(e, w, p, kind);
    SameValue(w, PayoutTx(e, w, p, kind).value.world, s);
  }

  /** A world that differs in its ledger and in limiters that pass their checks. */
  lemma MeteredKeepsSettings(e: Env, w: World, a: SendArgs, gas: u64, after: World)
    requires a.limitMint in w.limits && FundsCheck(e, w.ledger.tokens, w.limits, w.rate.epochDuration, a).Ok?
    requires GasCheck(w.config, w.rate, gas, a.oracle, a.clock.slot).Ok?
    requires after == w.(ledger := after.ledger,
                         rate := GasCheck(w.config, w.rate, gas, a.oracle, a.clock.slot).value,
                         limits := FundsCheck(e, w.ledger.tokens, w.limits, w.rate.epochDuration, a).value)
    ensures SameSettings(w, after)
  {
    FundsCheckKeepsThresholds(e, w.ledger.tokens, w.limits, w.rate.epochDuration, a);
    GasCheckKeepsRates(w.config, w.rate, gas, a.oracle, a.clock.slot);
  }

  lemma DepositWritesNothing(e: Env, w: World, a: SendArgs, s: Setting)
    requires Send(e, w, a).Ok?
    ensures ValueIn(Send(e, w, a).value.world, s) == ValueIn(w, s)
  {
    SendAccepted(e, w, a);
    MeteredKeepsSettings(e, w, a, a.nativeAmount - w.protocolFee - NativeFunds(a.request),
                         Send(e, w, a).value.world);
    SameValue(w, Send(e, w, a).value.world, s);
  }

  lemma CallWritesNothing(e: Env, w: World, a: FinalizeArgs, s: Setting)
    requires FinalizeTx(e, w, a).Ok?
    ensures ValueIn(FinalizeTx(e, w, a).value.world, s) == ValueIn(w, s)
  {
    FinalizeReport(e, w, a);
    if ModeOf(e, a) == UeaMode {
      SelfCallMetered(e, w, a);
    }
    SameValue(w, FinalizeTx(e, w, a).value.world, s);
  }

  /** What the last successful setter of a run wrote, if there was one. */
  ghost function LastWritten(e: Env, w: World, acts: seq<Action>, s: Setting): Option<Value> {
    if acts == [] then None
    else
      var rest, last := acts[..|acts| - 1], acts[|acts| - 1];
      if Step(e, Run(e, w, rest).world, last).Ok? && WrittenBy(last, s).Some? then WrittenBy(last, s)
      else LastWritten(e, w, rest, s)
  }

  /** After any run every setting is what the last successful setter wrote to it. */
  lemma {:induction false} SettingIsLastWritten(e: Env, w: World, acts: seq<Action>, s: Setting)
    ensures ValueIn(Run(e, w, acts).world, s) == Or(LastWritten(e, w, acts, s), ValueIn(w, s))
  {
    if acts != [] {
      var rest, last := acts[..|acts| - 1], acts[|acts| - 1];
      SettingIsLastWritten(e, w, rest, s);
      if Step(e, Run(e, w, rest).world, last).Ok? {
        StepWrites(e, Run(e, w, rest).world, last, s);
      }
    }
  }

  /** A successful setter call by whoever was entitled to it in the world it met. */
  ghost predicate SetBy(e: Env, w: World, act: Action, s: Setting, v: Value) {
    && act.AdminAction? && Step(e, w, act).Ok? && Writes(act.admin.op, s) == Some(v)
    && !e.isPda(act.admin.signer) && MayCall(w.config, act.admin.signer, act.admin.op) && Sensible(act.admin.op)
  }

  /** A setting that differs after a run was set to what it is by the admin of the
      time, or if it is the pause by the admin or the pauser of the time. */
  lemma {:induction false} ChangeWasEntitled(e: Env, w: World, acts: seq<Action>, s: Setting)
      returns (i: nat, before: World)
    requires ValueIn(Run(e, w, acts).world, s) != ValueIn(w, s)
    ensures i < |acts| && before == Run(e, w, acts[..i]).world
    ensures SetBy(e, before, acts[i], s, ValueIn(Run(e, w, acts).world, s))
  {
    var n := |acts| - 1;
    i, before := n, Run(e, w, acts[..n]).world;
    if Step(e, before, acts[n]).Ok? && WrittenBy(acts[n], s).Some? {
      StepWrites(e, before, acts[n], s);
      SetterExactly(e, before, acts[n].admin);
    } else {
      if Step(e, before, acts[n]).Ok? {
        StepWrites(e, before, acts[n], s);
      }
      i, before := ChangeWasEntitled(e, w, acts[..n], s);
      assert acts[..n][..i] == acts[..i];
    }
  }

  // ---- The pause ----

  lemma PausedSendFails(e: Env, w: World, a: SendArgs)
    requires w.config.paused
    ensures Send(e, w, a).Err?
  {
  }

  lemma PausedFinalizeFails(e: Env, w: World, a: FinalizeArgs)
    requires w.config.paused
    ensures FinalizeTx(e, w, a).Err?
  {
  }

  lemma PausedPayoutFails(e: Env, w: World, p: PayoutArgs, kind: Kind)
    requires w.config.paused
    ensures PayoutTx(e, w, p, kind).Err?
  {
  }

  /** While it is paused the program does nothing but what some setters do. */
  lemma PausedOnlySets(e: Env, w: World, act: Action)
    requires w.config.paused && Step(e, w, act).Ok?
    ensures act.External? || (act.AdminAction? && WorksPaused(act.admin.op))
  {
    match act
    case SendUniversalTx(a) => PausedSendFails(e, w, a);
    case FinalizeUniversalTx(a) => PausedFinalizeFails(e, w, a);
    case RevertTx(p, instruction) => PausedPayoutFails(e, w, p, Reverting(instruction));
    case RescueFunds(p) => PausedPayoutFails(e, w, p, Rescuing);
    case AdminAction(a) => SetterExactly(e, w, a);
    case External(_, _) =>
  }

  ghost function NobodyUnpauses(e: Env): (World, Action) -> bool {
    (w: World, act: Action) => Step(e, w, act).Ok? ==> !(act.AdminAction? && act.admin.op.Unpause?)
  }

  /** The vault, the fee vault or the CEA of a Push account: not the address of a token limit. */
  ghost predicate Guarded(e: Env, k: Pubkey) {
    e.isPda(k) && forall m: Pubkey :: k != e.limitAccount(m)
  }

  lemma PausedStep(e: Env, w: World, act: Action, k: Pubkey, asset: Pubkey)
    requires ValidEnv(e) && w.config.paused && Step(e, w, act).Ok? && Guarded(e, k)
    requires !(act.AdminAction? && act.admin.op.Unpause?)
    ensures var o := Step(e, w, act).value;
            && o.world.config.paused && o.world.executed == w.executed
            && (forall x <- o.log :: x.event.ProtocolFeeUpdated?)
            && HeldBy(w.ledger, asset, k) <= HeldBy(o.world.ledger, asset, k)
  {
    PausedOnlySets(e, w, act);
    match act
    case AdminAction(a) => AdminAtPda(e, w, a, k, asset);
    case External(ledger, _) => ExternalAtPda(e, w, ledger, k, asset);
  }

  /** Until somebody succeeds in unpausing, the gateway stays paused, executes
      nothing, reports nothing but changes of the fee, and neither the vaults nor
      any CEA end with less of anything. */
  lemma {:induction false} PauseHolds(e: Env, w: World, acts: seq<Action>, k: Pubkey, asset: Pubkey)
    requires ValidEnv(e) && w.config.paused && Throughout(e, w, acts, NobodyUnpauses(e)) && Guarded(e, k)
    ensures var o := Run(e, w, acts);
            && o.world.config.paused && o.world.executed == w.executed
            && (forall x <- o.log :: x.event.ProtocolFeeUpdated?)
            && HeldBy(w.ledger, asset, k) <= HeldBy(o.world.ledger, asset, k)
  {
    if acts != [] {
      var rest, last := acts[..|acts| - 1], acts[|acts| - 1];
      PauseHolds(e, w, rest, k, asset);
      if Step(e, Run(e, w, rest).world, last).Ok? {
        PausedStep(e, Run(e, w, rest).world, last, k, asset);
      }
    }
  }

  lemma VaultsAreGuarded(e: Env, pushAccount: Bytes20)
    requires ValidEnv(e)
    ensures Guarded(e, e.vault) && Guarded(e, e.feeVault) && Guarded(e, e.cea(pushAccount))
  {
  }
}
