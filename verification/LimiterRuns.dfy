/** The two limiters over runs of the whole program: what the event log shows of a
    token, deposited or sent back by a CEA, is a history its limit accepted, and
    the gas legs of accepted deposits are legs the slot cap accepted. */
module LimiterRuns {
  import opened Bytes
  import opened Results
  import opened Pricing
  import opened RateLimit
  import opened RateLimitHistory
  import opened State
  import opened Deposit
  import opened Finalize
  import opened Payout
  import opened Admin
  import opened Runs
  import opened Effects
  import opened Cea

  // ---- The token limit ----

  /** An event that bridges funds of this token. */
  predicate Bridges(ev: Event, token: Pubkey) {
    ev.UniversalTx? && ev.token == token && (ev.txType == Funds || ev.txType == FundsAndPayload)
  }

  /** When and how much of a token the log shows as bridged. */
  ghost function History(log: seq<Entry>, token: Pubkey): seq<Use> {
    if log == [] then []
    else
      var last := log[|log| - 1];
      History(log[..|log| - 1], token)
      + (if Bridges(last.event, token) then [Use(last.at.unixTimestamp, last.event.amount)] else [])
  }

  lemma {:induction false} HistoryConcat(a: seq<Entry>, b: seq<Entry>, token: Pubkey)
    ensures History(a + b, token) == History(a, token) + History(b, token)
  {
    if b == [] {
      assert a + b == a;
    } else {
      assert (a + b)[..|a + b| - 1] == a + b[..|b| - 1];
      HistoryConcat(a, b[..|b| - 1], token);
    }
  }

  lemma {:induction false} NoHistory(log: seq<Entry>, token: Pubkey)
    requires forall x <- log :: !Bridges(x.event, token)
    ensures History(log, token) == []
  {
    if log != [] {
      NoHistory(log[..|log| - 1], token);
    }
  }

  /** What one entry shows. */
  function UseOf(x: Entry, token: Pubkey): seq<Use> {
    if Bridges(x.event, token) then [Use(x.at.unixTimestamp, x.event.amount)] else []
  }

  lemma HistoryOne(x: Entry, token: Pubkey)
    ensures History([x], token) == UseOf(x, token)
  {
    assert [x][..0] == [];
  }

  lemma HistoryTwo(x: Entry, y: Entry, token: Pubkey)
    requires !Bridges(x.event, token)
    ensures History([x, y], token) == UseOf(y, token)
  {
    assert [x, y][..1] == [x];
    HistoryOne(x, token);
  }

  lemma HistoryAfter(front: seq<Entry>, rest: seq<Entry>, token: Pubkey)
    requires History(front, token) == []
    ensures History(front + rest, token) == History(rest, token)
  {
    HistoryConcat(front, rest, token);
  }

  /** What an action asks of the limit of a token, if anything. */
  function Asks(e: Env, act: Action, token: Pubkey): Option<u64> {
    match act
    case SendUniversalTx(a) => if a.request.amount > 0 && a.request.token == token then Some(a.request.amount) else None
    case FinalizeUniversalTx(a) =>
      if ModeOf(e, a) == UeaMode && TokenOf(a) == token then Some(UeaArgsOf(a).amount) else None
    case _ => None
  }

  function Uses(asked: Option<u64>, clock: Clock): seq<Use> {
    if asked.Some? then [Use(clock.unixTimestamp, asked.value)] else []
  }

  /** Every limit is the limit of the token it is stored under. */
  ghost predicate Keyed(w: World) {
    forall token: Pubkey :: token in w.limits ==> w.limits[token].tokenMint == token
  }

  /** Leaves the epoch length and the limit of the token alone. */
  predicate Unconfigured(act: Action, token: Pubkey) {
    act.AdminAction? ==>
      !act.admin.op.UpdateEpochDuration? && !(act.admin.op.SetTokenRateLimit? && act.admin.op.mint == token)
  }

  /** Whoever tries to, nobody changes them. */
  ghost function LimitStays(e: Env, token: Pubkey): (World, Action) -> bool {
    (w: World, act: Action) => Step(e, w, act).Ok? ==> Unconfigured(act, token)
  }

  /** Nobody changes the cap. */
  ghost function CapStays(e: Env): (World, Action) -> bool {
    (w: World, act: Action) => Step(e, w, act).Ok? ==> !(act.AdminAction? && act.admin.op.SetBlockUsdCap?)
  }

  /** The limit after a step is the limit before it, charged what the step asked. */
  ghost predicate Follows(e: Env, w: World, act: Action, o: Outcome, token: Pubkey) {
    && o.world.rate.epochDuration == w.rate.epochDuration
    && Keyed(o.world)
    && token in w.limits && token in o.world.limits
    && History(o.log, token) == Uses(Asks(e, act, token), ClockOf(act))
    && (if Asks(e, act, token).Some?
        then ValidateAndConsume(w.limits[token], token, Asks(e, act, token).value, w.rate.epochDuration,
                                ClockOf(act).unixTimestamp)
             == Ok(o.world.limits[token])
        else o.world.limits[token] == w.limits[token])
  }

  lemma FeeHistory(w: World, a: SendArgs, token: Pubkey)
    requires w.protocolFee <= a.nativeAmount
    ensures History(FeeLog(w, a), token) == []
  {
    if w.protocolFee > 0 {
      HistoryOne(FeeLog(w, a)[0], token);
    }
  }

  /** What a deposit bridges of the token. */
  function Bridged(a: SendArgs, token: Pubkey): seq<Use> {
    if a.request.amount > 0 && a.request.token == token then [Use(a.clock.unixTimestamp, a.request.amount)] else []
  }

  lemma GasRouteHistory(a: SendArgs, rest: u64, txType: TxType, token: Pubkey)
    requires NativeFunds(a.request) <= rest
    requires a.request.amount == 0 && txType != Funds && txType != FundsAndPayload
    ensures History(LegLog(a, rest, txType), token) == []
  {
    HistoryOne(Entry(a.clock, GasEvent(a, txType, rest, a.request.payload)), token);
  }

  lemma FundsHistory(a: SendArgs, txType: TxType, token: Pubkey)
    requires a.request.amount > 0 && (txType == Funds || txType == FundsAndPayload)
    ensures UseOf(Entry(a.clock, FundsEvent(a, txType)), token) == Bridged(a, token)
  {
  }

  lemma FundsRouteHistory(a: SendArgs, rest: u64, txType: TxType, token: Pubkey)
    requires NativeFunds(a.request) <= rest
    requires a.request.amount > 0 && (txType == Funds || txType == FundsAndPayload)
    ensures History(LegLog(a, rest, txType), token) == Bridged(a, token)
  {
    FundsHistory(a, txType, token);
    var funds := Entry(a.clock, FundsEvent(a, txType));
    if rest == NativeFunds(a.request) {
      HistoryOne(funds, token);
    } else {
      HistoryTwo(Entry(a.clock, GasEvent(a, Gas, rest - NativeFunds(a.request), [])), funds, token);
    }
  }

  lemma SendHistory(w: World, a: SendArgs, txType: TxType, token: Pubkey)
    requires w.protocolFee <= a.nativeAmount
    requires NativeFunds(a.request) <= a.nativeAmount - w.protocolFee
    requires a.request.amount > 0 <==> txType == Funds || txType == FundsAndPayload
    ensures History(SendLog(w, a, txType), token) == Bridged(a, token)
  {
    var rest := a.nativeAmount - w.protocolFee;
    FeeHistory(w, a, token);
    if a.request.amount == 0 {
      GasRouteHistory(a, rest, txType, token);
    } else {
      FundsRouteHistory(a, rest, txType, token);
    }
    HistoryAfter(FeeLog(w, a), LegLog(a, rest, txType), token);
  }

  lemma FundsCheckFollows(e: Env, w: World, a: SendArgs, token: Pubkey)
    requires Keyed(w) && token in w.limits && a.limitMint in w.limits
             && FundsCheck(e, w.ledger.tokens, w.limits, w.rate.epochDuration, a).Ok?
    ensures var limits := FundsCheck(e, w.ledger.tokens, w.limits, w.rate.epochDuration, a).value;
            && (forall m: Pubkey :: m in limits ==> limits[m].tokenMint == m)
            && token in limits
            && (if a.request.amount > 0 && a.request.token == token
                then ValidateAndConsume(w.limits[token], token, a.request.amount, w.rate.epochDuration,
                                        a.clock.unixTimestamp) == Ok(limits[token])
                else limits[token] == w.limits[token])
  {
  }

  /** What an accepted deposit bridges of the token is what it asks of the limit. */
  lemma SendAsks(e: Env, w: World, a: SendArgs, token: Pubkey)
    requires Send(e, w, a).Ok?
    ensures History(Send(e, w, a).value.log, token) == Uses(Asks(e, SendUniversalTx(a), token), a.clock)
  {
    SendReport(e, w, a);
    SendHistory(w, a, TypeOf(w, a), token);
  }

  /** What an accepted deposit does to the limits. */
  lemma SendLimits(e: Env, w: World, a: SendArgs)
    requires Send(e, w, a).Ok?
    ensures a.limitMint in w.limits
    ensures FundsCheck(e, w.ledger.tokens, w.limits, w.rate.epochDuration, a) == Ok(Send(e, w, a).value.world.limits)
    ensures Send(e, w, a).value.world.rate.epochDuration == w.rate.epochDuration
  {
  }

  lemma DepositFollows(e: Env, w: World, a: SendArgs, o: Outcome, token: Pubkey)
    requires Keyed(w) && token in w.limits && a.limitMint in w.limits
    requires FundsCheck(e, w.ledger.tokens, w.limits, w.rate.epochDuration, a) == Ok(o.world.limits)
    requires o.world.rate.epochDuration == w.rate.epochDuration
    requires History(o.log, token) == Uses(Asks(e, SendUniversalTx(a), token), a.clock)
    ensures Follows(e, w, SendUniversalTx(a), o, token)
  {
    FundsCheckFollows(e, w, a, token);
  }

  lemma SendFollows(e: Env, w: World, a: SendArgs, token: Pubkey)
    requires Send(e, w, a).Ok? && Keyed(w) && token in w.limits
    ensures Follows(e, w, SendUniversalTx(a), Send(e, w, a).value, token)
  {
    SendAsks(e, w, a, token);
    SendLimits(e, w, a);
    DepositFollows(e, w, a, Send(e, w, a).value, token);
  }

  lemma SelfCallHistory(e: Env, a: FinalizeArgs, token: Pubkey)
    ensures History([FinalEntry(a)], token) == []
    ensures History([Entry(a.clock, UeaEvent(e, a)), FinalEntry(a)], token)
         == if TokenOf(a) == token then [Use(a.clock.unixTimestamp, UeaArgsOf(a).amount)] else []
  {
    var first := Entry(a.clock, UeaEvent(e, a));
    HistoryOne(FinalEntry(a), token);
    HistoryOne(first, token);
    HistoryConcat([first], [FinalEntry(a)], token);
    assert [first] + [FinalEntry(a)] == [first, FinalEntry(a)];
  }

  lemma SelfCallFollows(e: Env, w: World, a: FinalizeArgs, o: Outcome, token: Pubkey)
    requires Keyed(w) && token in w.limits && o.world.rate == w.rate && ModeOf(e, a) == UeaMode
    requires o.log == [Entry(a.clock, UeaEvent(e, a)), FinalEntry(a)]
    requires a.limitMint.Some? && a.limitMint.value in w.limits && Charged(w, a).Ok?
    requires o.world.limits == w.limits[a.limitMint.value := Charged(w, a).value]
    ensures Follows(e, w, FinalizeUniversalTx(a), o, token)
  {
    SelfCallHistory(e, a, token);
  }

  /** A step that asks nothing of the limit and reports nothing bridged. */
  lemma QuietFollows(e: Env, w: World, act: Action, o: Outcome, token: Pubkey)
    requires Keyed(w) && token in w.limits && Asks(e, act, token) == None
    requires o.world.rate == w.rate && o.world.limits == w.limits && History(o.log, token) == []
    ensures Follows(e, w, act, o, token)
  {
  }

  lemma FinalizeFollows(e: Env, w: World, a: FinalizeArgs, token: Pubkey)
    requires FinalizeTx(e, w, a).Ok? && Keyed(w) && token in w.limits
    ensures Follows(e, w, FinalizeUniversalTx(a), FinalizeTx(e, w, a).value, token)
  {
    FinalizeReport(e, w, a);
    if ModeOf(e, a) == UeaMode {
      SelfCallMetered(e, w, a);
      SelfCallFollows(e, w, a, FinalizeTx(e, w, a).value, token);
    } else {
      SelfCallHistory(e, a, token);
      QuietFollows(e, w, FinalizeUniversalTx(a), FinalizeTx(e, w, a).value, token);
    }
  }

  lemma PayoutFollows(e: Env, w: World, act: Action, p: PayoutArgs, kind: Kind, token: Pubkey)
    requires act == (match kind case Reverting(instruction) => RevertTx(p, instruction) case Rescuing => RescueFunds(p))
    requires PayoutTx(e, w, p, kind).Ok? && Keyed(w) && token in w.limits
    ensures Follows(e, w, act, PayoutTx(e, w, p, kind).value, token)
  {
    PayoutReport(e, w, p, kind);
    PayoutHistory(p, kind, token);
    QuietFollows(e, w, act, PayoutTx(e, w, p, kind).value, token);
  }

  lemma PayoutHistory(p: PayoutArgs, kind: Kind, token: Pubkey)
    ensures History(PayoutLog(p, kind), token) == []
  {
    NoHistory(PayoutLog(p, kind), token);
  }

  lemma AdminFollows(e: Env, w: World, a: AdminArgs, token: Pubkey)
    requires AdminTx(e, w, a).Ok? && Keyed(w) && token in w.limits && Unconfigured(AdminAction(a), token)
    ensures Follows(e, w, AdminAction(a), AdminTx(e, w, a).value, token)
  {
    NoHistory(AdminLog(a), token);
  }

  lemma StepFollows(e: Env, w: World, act: Action, token: Pubkey)
    requires Step(e, w, act).Ok? && Keyed(w) && token in w.limits && Unconfigured(act, token)
    ensures Follows(e, w, act, Step(e, w, act).value, token)
  {
    match act
    case SendUniversalTx(a) => SendFollows(e, w, a, token);
    case FinalizeUniversalTx(a) => FinalizeFollows(e, w, a, token);
    case RevertTx(p, instruction) => PayoutFollows(e, w, act, p, Reverting(instruction), token);
    case RescueFunds(p) => PayoutFollows(e, w, act, p, Rescuing, token);
    case AdminAction(a) => AdminFollows(e, w, a, token);
    case External(_, _) =>
  }

  /** The clock never runs backwards, and starts after 1970. */
  ghost predicate ClockRuns(acts: seq<Action>) {
    && (forall i :: 0 <= i < |acts| ==> ClockOf(acts[i]).unixTimestamp >= 0)
    && (forall i, j :: 0 <= i < j < |acts| ==> ClockOf(acts[i]).unixTimestamp <= ClockOf(acts[j]).unixTimestamp)
    && (forall i, j :: 0 <= i < j < |acts| ==> ClockOf(acts[i]).slot <= ClockOf(acts[j]).slot)
  }

  /** A metered token whose limit the run does not reconfigure. */
  ghost predicate Metered(e: Env, w: World, acts: seq<Action>, token: Pubkey) {
    && Keyed(w) && token in w.limits && w.rate.epochDuration > 0
    && ClockRuns(acts)
    && Throughout(e, w, acts, LimitStays(e, token))
  }

  /** No use in the history is later than the last action. */
  ghost predicate Past(h: seq<Use>, acts: seq<Action>) {
    InTimeOrder(h) && (acts == [] ==> h == []) && forall u <- h :: u.at <= ClockOf(acts[|acts| - 1]).unixTimestamp
  }

  lemma OneStepLater(h: seq<Use>, acts: seq<Action>, asked: Option<u64>)
    requires acts != [] && ClockRuns(acts) && Past(h, acts[..|acts| - 1])
    ensures Past(h + Uses(asked, ClockOf(acts[|acts| - 1])), acts)
  {
    if |acts| > 1 {
      assert acts[..|acts| - 1][|acts| - 2] == acts[|acts| - 2];
      assert ClockOf(acts[|acts| - 2]).unixTimestamp <= ClockOf(acts[|acts| - 1]).unixTimestamp;
    }
  }

  /** The limit in `now` is what the history makes of the limit in `w`. */
  ghost predicate Accounted(w: World, token: Pubkey, h: seq<Use>, now: World)
    requires token in w.limits && w.rate.epochDuration > 0
  {
    && Keyed(now) && token in now.limits
    && now.rate.epochDuration == w.rate.epochDuration
    && Replay(w.limits[token], w.rate.epochDuration, h) == Some(now.limits[token])
  }

  lemma OneMoreUse(e: Env, w: World, token: Pubkey, h: seq<Use>, before: World, act: Action, o: Outcome)
    requires token in w.limits && w.rate.epochDuration > 0
    requires Accounted(w, token, h, before) && Follows(e, before, act, o, token)
    ensures Accounted(w, token, h + History(o.log, token), o.world)
  {
    if Asks(e, act, token).Some? {
      ReplayPush(w.limits[token], w.rate.epochDuration, h, History(o.log, token)[0]);
    } else {
      assert h + History(o.log, token) == h;
    }
  }

  /** While a token's limit and the epoch length stay, the log of any run is a
      history the limit accepts, and ends in the state the limit is in. */
  lemma {:induction false} LogIsHistory(e: Env, w: World, acts: seq<Action>, token: Pubkey)
    requires Metered(e, w, acts, token)
    ensures var o := Run(e, w, acts);
            Accounted(w, token, History(o.log, token), o.world) && Past(History(o.log, token), acts)
  {
    if acts != [] {
      var rest, last := acts[..|acts| - 1], acts[|acts| - 1];
      var before := Run(e, w, rest);
      LogIsHistory(e, w, rest, token);
      OneStepLater(History(before.log, token), acts, None);
      if Step(e, before.world, last).Ok? {
        var o := Step(e, before.world, last).value;
        StepFollows(e, before.world, last, token);
        HistoryConcat(before.log, o.log, token);
        OneMoreUse(e, w, token, History(before.log, token), before.world, last, o);
        OneStepLater(History(before.log, token), acts, Asks(e, last, token));
      } else {
        assert History(before.log, token) + Uses(None, ClockOf(last)) == History(before.log, token);
      }
    }
  }

  /** Any window of k epoch lengths lets at most k + 1 thresholds of a token across,
      deposits and CEA returns together. */
  lemma WindowBound(e: Env, w: World, acts: seq<Action>, token: Pubkey, start: int, k: nat)
    requires Metered(e, w, acts, token)
    ensures Total(History(Run(e, w, acts).log, token), Window(start, k * w.rate.epochDuration))
         <= (k + 1) * w.limits[token].limitThreshold
  {
    LogIsHistory(e, w, acts, token);
    SlidingWindow(w.limits[token], w.rate.epochDuration, History(Run(e, w, acts).log, token), start, k);
  }

  /** From a reset on, a request for a supported token passes its limit iff the log
      shows room for it in the current epoch. */
  lemma LogDecides(e: Env, w: World, acts: seq<Action>, token: Pubkey, amount: u64, now: Clock)
    requires Metered(e, w, acts, token) && Fresh(w.limits[token]) && w.limits[token].limitThreshold > 0
    requires now.unixTimestamp >= (if acts == [] then 0 else ClockOf(acts[|acts| - 1]).unixTimestamp)
    ensures var o := Run(e, w, acts);
            var D := w.rate.epochDuration;
            token in o.world.limits
            && (ValidateAndConsume(o.world.limits[token], token, amount, D, now.unixTimestamp).Ok?
                <==> Total(History(o.log, token), InEpoch(D, EpochAt(now.unixTimestamp, D))) + amount
                     <= w.limits[token].limitThreshold)
  {
    LogIsHistory(e, w, acts, token);
    HistoryDecides(w.limits[token], w.rate.epochDuration, History(Run(e, w, acts).log, token), amount,
                   now.unixTimestamp);
  }

  lemma HistoryDecides(l: TokenLimit, duration: u64, h: seq<Use>, amount: u64, now: i64)
    requires duration > 0 && Fresh(l) && l.limitThreshold > 0 && Replay(l, duration, h).Some?
    requires now >= 0 && InTimeOrder(h) && forall u <- h :: u.at <= now
    ensures ValidateAndConsume(Replay(l, duration, h).value, l.tokenMint, amount, duration, now).Ok?
       <==> Total(h, InEpoch(duration, EpochAt(now, duration))) + amount <= l.limitThreshold
  {
    CounterRefinesHistory(l, duration, h, Use(now, amount));
    CounterInvariant(l, duration, h, 0);
  }

  // ---- The USD cap per slot ----

  /** The gas leg of a deposit. */
  function GasOf(w: World, a: SendArgs): int {
    a.nativeAmount - w.protocolFee - NativeFunds(a.request)
  }

  /** The metered leg of an accepted step, if it has one. */
  ghost function LegOf(e: Env, w: World, act: Action): (legs: seq<GasLeg>)
    requires Step(e, w, act).Ok?
  {
    match act
    case SendUniversalTx(a) =>
      LegIsMetered(e, w, a);
      if GasOf(w, a) > 0 then [Leg(a.clock.slot, GasOf(w, a), a.oracle.value)] else []
    case _ => []
  }

  lemma LegIsMetered(e: Env, w: World, a: SendArgs)
    requires Send(e, w, a).Ok?
    ensures 0 <= GasOf(w, a) < TWO_64
    ensures GasOf(w, a) > 0 ==>
              && a.oracle.Some? && a.oracle.value.price > 0
              && CalculateUsdAmount(GasOf(w, a), a.oracle.value).Ok?
              && ConsumeBlockCap(w.rate, CalculateUsdAmount(GasOf(w, a), a.oracle.value).value, a.clock.slot)
                 == Ok(Send(e, w, a).value.world.rate)
    ensures GasOf(w, a) == 0 ==> Send(e, w, a).value.world.rate == w.rate
  {
    SendAccepted(e, w, a);
    if GasOf(w, a) > 0 {
      GasCheckMeters(w.config, w.rate, GasOf(w, a), a.oracle, a.clock.slot);
    }
  }

  lemma GasCheckMeters(config: Config, rate: RateConfig, gas: u64, oracle: Option<PriceData>, slot: u64)
    requires GasCheck(config, rate, gas, oracle, slot).Ok? && gas > 0
    ensures oracle.Some? && oracle.value.price > 0
    ensures CalculateUsdAmount(gas, oracle.value).Ok?
    ensures GasCheck(config, rate, gas, oracle, slot)
         == ConsumeBlockCap(rate, CalculateUsdAmount(gas, oracle.value).value, slot)
  {
  }

  /** The gas legs of a run. */
  ghost function GasLegs(e: Env, w: World, acts: seq<Action>): seq<GasLeg> {
    if acts == [] then []
    else
      var rest, last := acts[..|acts| - 1], acts[|acts| - 1];
      var before := Run(e, w, rest).world;
      GasLegs(e, w, rest) + (if Step(e, before, last).Ok? then LegOf(e, before, last) else [])
  }

  /** The slot counter after a step with these legs, whatever the step does to the epoch length. */
  ghost predicate CounterFollows(w: World, act: Action, legs: seq<GasLeg>, after: World) {
    && |legs| <= 1
    && if legs == [] then after.rate == w.rate.(epochDuration := after.rate.epochDuration)
       else
         && legs[0].slot == ClockOf(act).slot
         && ConsumeBlockCap(w.rate, MeteredValue(legs[0]), legs[0].slot) == Ok(after.rate)
  }

  lemma StepMetersGas(e: Env, w: World, act: Action)
    requires Step(e, w, act).Ok? && !(act.AdminAction? && act.admin.op.SetBlockUsdCap?)
    ensures CounterFollows(w, act, LegOf(e, w, act), Step(e, w, act).value.world)
  {
    match act
    case SendUniversalTx(a) => LegIsMetered(e, w, a);
    case FinalizeUniversalTx(a) => FinalizeReport(e, w, a);
    case RevertTx(p, instruction) => PayoutReport(e, w, p, Reverting(instruction));
    case RescueFunds(p) => PayoutReport(e, w, p, Rescuing);
    case AdminAction(a) =>
    case External(_, _) =>
  }

  lemma ReplayLeg(c: RateConfig, gs: seq<GasLeg>, g: GasLeg)
    requires ReplayLegs(c, gs).Some? && ConsumeBlockCap(ReplayLegs(c, gs).value, MeteredValue(g), g.slot).Ok?
    ensures ReplayLegs(c, gs + [g]) == Some(ConsumeBlockCap(ReplayLegs(c, gs).value, MeteredValue(g), g.slot).value)
  {
    assert (gs + [g])[..|gs|] == gs;
  }

  /** The cap does not look at the epoch length. */
  lemma CapIgnoresEpochs(c: RateConfig, duration: u64, usd: u128, slot: u64)
    requires ConsumeBlockCap(c, usd, slot).Ok?
    ensures ConsumeBlockCap(c.(epochDuration := duration), usd, slot)
         == Ok(ConsumeBlockCap(c, usd, slot).value.(epochDuration := duration))
  {
  }

  /** The slot counter in `now` is what the legs make of the counter in `w`. */
  ghost predicate LegsAccounted(w: World, legs: seq<GasLeg>, now: World) {
    ReplayLegs(w.rate, legs) == Some(now.rate.(epochDuration := w.rate.epochDuration))
  }

  lemma OneMoreLeg(w: World, legs: seq<GasLeg>, before: World, act: Action, more: seq<GasLeg>, after: World)
    requires LegsAccounted(w, legs, before) && CounterFollows(before, act, more, after)
    ensures LegsAccounted(w, legs + more, after)
  {
    if more == [] {
      assert legs + more == legs;
    } else {
      CapIgnoresEpochs(before.rate, w.rate.epochDuration, MeteredValue(more[0]), more[0].slot);
      ReplayLeg(w.rate, legs, more[0]);
      assert more == [more[0]];
    }
  }

  /** No leg is later than the last action. */
  ghost predicate PastLegs(legs: seq<GasLeg>, acts: seq<Action>) {
    InSlotOrder(legs) && (acts == [] ==> legs == []) && forall g <- legs :: g.slot <= ClockOf(acts[|acts| - 1]).slot
  }

  lemma OneLegLater(legs: seq<GasLeg>, acts: seq<Action>, more: seq<GasLeg>)
    requires acts != [] && ClockRuns(acts) && PastLegs(legs, acts[..|acts| - 1])
    requires |more| <= 1 && forall g <- more :: g.slot == ClockOf(acts[|acts| - 1]).slot
    ensures PastLegs(legs + more, acts)
  {
    if |acts| > 1 {
      assert acts[..|acts| - 1][|acts| - 2] == acts[|acts| - 2];
      assert ClockOf(acts[|acts| - 2]).slot <= ClockOf(acts[|acts| - 1]).slot;
    }
  }

  /** While the cap stays, the gas legs of any run are legs the slot counter accepts. */
  lemma {:induction false} LegsAreMetered(e: Env, w: World, acts: seq<Action>)
    requires ClockRuns(acts) && Throughout(e, w, acts, CapStays(e))
    ensures LegsAccounted(w, GasLegs(e, w, acts), Run(e, w, acts).world) && PastLegs(GasLegs(e, w, acts), acts)
  {
    if acts != [] {
      var rest, last := acts[..|acts| - 1], acts[|acts| - 1];
      var before := Run(e, w, rest).world;
      LegsAreMetered(e, w, rest);
      OneLegLater(GasLegs(e, w, rest), acts, []);
      if Step(e, before, last).Ok? {
        StepMetersGas(e, before, last);
        OneMoreLeg(w, GasLegs(e, w, rest), before, last, LegOf(e, before, last), Step(e, before, last).value.world);
        OneLegLater(GasLegs(e, w, rest), acts, LegOf(e, before, last));
      } else {
        assert GasLegs(e, w, rest) + [] == GasLegs(e, w, rest);
      }
    }
  }

  /** While a non-zero cap stays, the exact USD value of the gas deposited in one
      slot is below the cap plus 10^-8 USD for each deposit, whatever the prices. */
  lemma SlotValueBound(e: Env, w: World, acts: seq<Action>, slot: u64)
    requires ClockRuns(acts) && w.rate.blockUsdCap > 0 && Throughout(e, w, acts, CapStays(e))
    ensures RealUsd(GasLegs(e, w, acts), slot)
          < w.rate.blockUsdCap as real + LegsInSlot(GasLegs(e, w, acts), slot) as real
  {
    LegsAreMetered(e, w, acts);
    RealUsdPerSlot(w.rate, GasLegs(e, w, acts), slot);
  }

  /** The clock has not gone behind the slot counter, nor `now` behind the last action. */
  ghost predicate SlotsRun(w: World, acts: seq<Action>, now: u64) {
    && ClockRuns(acts) && w.rate.lastSlot <= now
    && (acts != [] ==> w.rate.lastSlot <= ClockOf(acts[0]).slot && ClockOf(acts[|acts| - 1]).slot <= now)
  }

  lemma {:induction false} LegsNotBefore(e: Env, w: World, acts: seq<Action>, slot: u64)
    requires ClockRuns(acts) && (acts != [] ==> slot <= ClockOf(acts[0]).slot)
    ensures forall g <- GasLegs(e, w, acts) :: slot <= g.slot
  {
    if acts != [] {
      LegsNotBefore(e, w, acts[..|acts| - 1], slot);
    }
  }

  /** While a non-zero cap stays, a gas leg passes it iff the legs of its slot leave
      room for it; the first leg of a slot iff it is within the cap by itself. */
  lemma SlotDecides(e: Env, w: World, acts: seq<Action>, usd: u128, now: u64)
    requires w.rate.blockUsdCap > 0 && Throughout(e, w, acts, CapStays(e)) && SlotsRun(w, acts, now)
    ensures var cap, legs := w.rate.blockUsdCap, GasLegs(e, w, acts);
            var room := ConsumeBlockCap(Run(e, w, acts).world.rate, usd, now).Ok?;
            && (room <==> SpentIn(w.rate, now) + MeteredUsd(legs, now) + usd <= cap)
            && (w.rate.lastSlot < now && (acts != [] ==> ClockOf(acts[|acts| - 1]).slot < now) ==>
                  (room <==> usd <= cap))
  {
    LegsAreMetered(e, w, acts);
    LegsNotBefore(e, w, acts, w.rate.lastSlot);
    LegsDecide(w, GasLegs(e, w, acts), Run(e, w, acts).world, usd, now);
  }

  /** The same from what the legs say of the counter. */
  lemma LegsDecide(w: World, legs: seq<GasLeg>, after: World, usd: u128, now: u64)
    requires w.rate.blockUsdCap > 0 && LegsAccounted(w, legs, after) && InSlotOrder(legs)
    requires w.rate.lastSlot <= now && forall g <- legs :: w.rate.lastSlot <= g.slot <= now
    ensures var room := ConsumeBlockCap(after.rate, usd, now).Ok?;
            && (room <==> SpentIn(w.rate, now) + MeteredUsd(legs, now) + usd <= w.rate.blockUsdCap)
            && (w.rate.lastSlot < now && (forall g <- legs :: g.slot < now) ==> (room <==> usd <= w.rate.blockUsdCap))
  {
    SlotRefinesHistory(w.rate, legs, usd, now);
    RoomIgnoresEpochs(after.rate, w.rate.epochDuration, usd, now);
  }

  lemma RoomIgnoresEpochs(c: RateConfig, duration: u64, usd: u128, slot: u64)
    ensures ConsumeBlockCap(c.(epochDuration := duration), usd, slot).Ok? <==> ConsumeBlockCap(c, usd, slot).Ok?
  {
  }

  // ---- The USD caps of a deposit ----

  lemma GasCheckWithinCaps(config: Config, rate: RateConfig, gas: u64, oracle: Option<PriceData>, slot: u64)
    requires GasCheck(config, rate, gas, oracle, slot).Ok? && gas > 0
    ensures Priced(config.confidenceThreshold, gas, oracle)
    ensures WithinCaps(config.minCapUsd, config.maxCapUsd, gas, oracle.value)
  {
    CapsExactly(config.minCapUsd, config.maxCapUsd, config.confidenceThreshold, gas, oracle);
  }

  /** Every gas leg of a run came with an accepted deposit, at the oracle's price,
      and was within the USD caps in force at that deposit. */
  lemma {:induction false} LegWasWithinCaps(e: Env, w: World, acts: seq<Action>, g: GasLeg)
      returns (i: nat, before: World)
    requires g in GasLegs(e, w, acts)
    ensures i < |acts| && before == Run(e, w, acts[..i]).world
    ensures acts[i].SendUniversalTx? && Step(e, before, acts[i]).Ok?
    ensures g == Leg(acts[i].send.clock.slot, GasOf(before, acts[i].send), g.price)
    ensures acts[i].send.oracle == Some(g.price)
    ensures Priced(before.config.confidenceThreshold, g.lamports, Some(g.price))
    ensures WithinCaps(before.config.minCapUsd, before.config.maxCapUsd, g.lamports, g.price)
  {
    var n := |acts| - 1;
    if g in GasLegs(e, w, acts[..n]) {
      i, before := LegWasWithinCaps(e, w, acts[..n], g);
      assert acts[..n][..i] == acts[..i];
    } else {
      i, before := n, Run(e, w, acts[..n]).world;
      DepositWithinCaps(e, before, acts[n].send);
    }
  }

  lemma DepositWithinCaps(e: Env, w: World, a: SendArgs)
    requires Send(e, w, a).Ok? && GasOf(w, a) > 0
    ensures GasOf(w, a) < TWO_64 && Priced(w.config.confidenceThreshold, GasOf(w, a), a.oracle)
    ensures WithinCaps(w.config.minCapUsd, w.config.maxCapUsd, GasOf(w, a), a.oracle.value)
  {
    SendAccepted(e, w, a);
    GasCheckWithinCaps(w.config, w.rate, GasOf(w, a), a.oracle, a.clock.slot);
  }
}
