/** The event log as the ledger of the vault: over any run, what the vault holds of
    an asset is what it held before, plus what entered according to the log, less
    what left according to the log. */
module VaultLedger {
  import opened Bytes
  import opened Ledgers
  import opened State
  import opened Deposit
  import opened Finalize
  import opened Payout
  import opened Admin
  import opened Runs
  import opened Effects
  import opened Logs

  /** The vault's lamports, or the tokens of a mint over all token accounts it owns. */
  ghost function Holdings(e: Env, l: Ledger, asset: Pubkey): int {
    HeldBy(l, asset, e.vault)
  }

  function Inflow(asset: Pubkey): Event -> int {
    (ev: Event) => match ev
      case UniversalTx(_, _, token, amount, _, _, _, _, _) => If(token == asset, amount)
      case _ => 0
  }

  function Outflow(asset: Pubkey): Event -> int {
    (ev: Event) => match ev
      case UniversalTxFinalized(_, _, gasFee, _, _, token, amount, _) => If(token == asset, amount)
          + If(asset == DEFAULT_KEY, gasFee)
      case RevertUniversalTx(_, _, _, token, amount, _) => If(token == asset, amount)
      case FundsRescued(_, _, token, amount, _) => If(token == asset, amount)
      case _ => 0
  }

  ghost function Net(log: seq<Entry>, asset: Pubkey): int {
    SumLog(log, Inflow(asset)) - SumLog(log, Outflow(asset))
  }

  /** The step credits the vault with nothing the log does not mention: it pays the
      asset out to somebody else, and other code leaves the vault as it is. */
  ghost predicate Quiet(e: Env, w: World, act: Action, asset: Pubkey) {
    match act
    case FinalizeUniversalTx(a) =>
      && (ModeOf(e, a) == WithdrawMode && TokenOf(a) == asset ==> ReceiverOf(e, w, a) != e.vault)
      && (ModeOf(e, a) == CpiMode && a.cpi.CpiReturned? && Stageable(e, w, a) ==>
            Holdings(e, a.cpi.ledger, asset) == Holdings(e, StagedLedger(e, w, a), asset))
    case RevertTx(p, _) => AssetOf(p.mint) == asset ==> p.recipient != e.vault
    case RescueFunds(p) => AssetOf(p.mint) == asset ==> p.recipient != e.vault
    case External(ledger, _) => Holdings(e, ledger, asset) == Holdings(e, w.ledger, asset)
    case _ => true
  }

  // ---- One step ----

  lemma SendVault(e: Env, w: World, a: SendArgs, asset: Pubkey)
    requires ValidEnv(e) && Send(e, w, a).Ok?
    ensures var o := Send(e, w, a).value;
            Holdings(e, o.world.ledger, asset) == Holdings(e, w.ledger, asset) + Net(o.log, asset)
  {
    SendReport(e, w, a);
    SendNet(w, a, TypeOf(w, a), asset);
    SendAtPda(e, w, a, e.vault, asset);
  }

  /** A deposit, on every route: the user pays the native amount and no more, the
      fee vault gets the fee, the vault the rest, and the events name that rest. */
  lemma SendExact(e: Env, w: World, a: SendArgs)
    requires ValidEnv(e) && Send(e, w, a).Ok?
    ensures var o := Send(e, w, a).value;
            var rest := a.nativeAmount - w.protocolFee;
            && Balance(o.world.ledger, a.user) == Balance(w.ledger, a.user) - a.nativeAmount
            && Balance(o.world.ledger, e.feeVault) == Balance(w.ledger, e.feeVault) + w.protocolFee
            && Balance(o.world.ledger, e.vault) == Balance(w.ledger, e.vault) + rest
            && SumLog(o.log, Inflow(DEFAULT_KEY)) == rest
            && forall k: Pubkey | k != a.user && k != e.feeVault && k != e.vault ::
                 Balance(o.world.ledger, k) == Balance(w.ledger, k)
  {
    SendReport(e, w, a);
    SendNet(w, a, TypeOf(w, a), DEFAULT_KEY);
    forall k: Pubkey
      ensures Balance(Send(e, w, a).value.world.ledger, k) == Balance(w.ledger, k) - If(k == a.user, a.nativeAmount)
                + If(k == e.feeVault, w.protocolFee) + If(k == e.vault, a.nativeAmount - w.protocolFee)
    {
      SendLamports(e, w, a, k);
    }
  }

  /** The native amounts in the events of a deposit add up to what is left after
      the fee, and the token amounts to the token leg. */
  lemma SendNet(w: World, a: SendArgs, txType: TxType, asset: Pubkey)
    requires w.protocolFee <= a.nativeAmount
    requires NativeFunds(a.request) <= a.nativeAmount - w.protocolFee
    ensures var log := SendLog(w, a, txType);
            && Net(log, asset) == SumLog(log, Inflow(asset))
            && Net(log, asset) == (if asset == DEFAULT_KEY then a.nativeAmount - w.protocolFee
                                   else If(a.request.token == asset, a.request.amount))
  {
    var rest := a.nativeAmount - w.protocolFee;
    LegSum(a, rest, txType, asset);
    FeeSum(w, a, asset);
    SendLogSum(w, a, txType, Inflow(asset));
    SendLogSum(w, a, txType, Outflow(asset));
  }

  lemma SendLogSum(w: World, a: SendArgs, txType: TxType, f: Event -> int)
    requires w.protocolFee <= a.nativeAmount
    requires NativeFunds(a.request) <= a.nativeAmount - w.protocolFee
    ensures SumLog(SendLog(w, a, txType), f)
         == SumLog(FeeLog(w, a), f) + SumLog(LegLog(a, a.nativeAmount - w.protocolFee, txType), f)
  {
    SumLogConcat(FeeLog(w, a), LegLog(a, a.nativeAmount - w.protocolFee, txType), f);
  }

  lemma FeeSum(w: World, a: SendArgs, asset: Pubkey)
    requires w.protocolFee <= a.nativeAmount
    ensures SumLog(FeeLog(w, a), Inflow(asset)) == SumLog(FeeLog(w, a), Outflow(asset)) == 0
  {
    SumLogZero(FeeLog(w, a), Inflow(asset));
    SumLogZero(FeeLog(w, a), Outflow(asset));
  }

  lemma LegSum(a: SendArgs, rest: u64, txType: TxType, asset: Pubkey)
    requires NativeFunds(a.request) <= rest
    ensures SumLog(LegLog(a, rest, txType), Outflow(asset)) == 0
    ensures SumLog(LegLog(a, rest, txType), Inflow(asset))
         == (if asset == DEFAULT_KEY then rest else If(a.request.token == asset, a.request.amount))
  {
    var legs := LegLog(a, rest, txType);
    if |legs| == 1 {
      SumLogOne(legs[0], Inflow(asset));
      SumLogOne(legs[0], Outflow(asset));
    } else {
      SumLogTwo(legs[0], legs[1], Inflow(asset));
      SumLogTwo(legs[0], legs[1], Outflow(asset));
    }
  }

  /** Holdings after a successful step, against holdings before and the log. */
  ghost predicate HoldingsFollow(e: Env, w: World, act: Action, o: Outcome, asset: Pubkey) {
    && Holdings(e, w.ledger, asset) + Net(o.log, asset) <= Holdings(e, o.world.ledger, asset)
    && (Quiet(e, w, act, asset)
        <==> Holdings(e, o.world.ledger, asset) == Holdings(e, w.ledger, asset) + Net(o.log, asset))
  }

  lemma WithdrawVault(e: Env, w: World, a: FinalizeArgs, asset: Pubkey)
    requires ValidEnv(e) && FinalizeTx(e, w, a).Ok? && ModeOf(e, a) == WithdrawMode
    ensures HoldingsFollow(e, w, FinalizeUniversalTx(a), FinalizeTx(e, w, a).value, asset)
  {
    SumLogOne(FinalEntry(a), Inflow(asset));
    SumLogOne(FinalEntry(a), Outflow(asset));
    WithdrawAtPda(e, w, a, e.vault, asset);
    WithdrawIsOfSomething(e, w, a);
  }

  lemma WithdrawIsOfSomething(e: Env, w: World, a: FinalizeArgs)
    requires FinalizeTx(e, w, a).Ok? && ModeOf(e, a) == WithdrawMode
    ensures a.amount > 0
  {
    FinalizeAccepted(e, w, a);
  }

  lemma SelfCallVault(e: Env, w: World, a: FinalizeArgs, asset: Pubkey)
    requires ValidEnv(e) && FinalizeTx(e, w, a).Ok? && ModeOf(e, a) == UeaMode
    ensures HoldingsFollow(e, w, FinalizeUniversalTx(a), FinalizeTx(e, w, a).value, asset)
  {
    SumLogTwo(Entry(a.clock, UeaEvent(e, a)), FinalEntry(a), Inflow(asset));
    SumLogTwo(Entry(a.clock, UeaEvent(e, a)), FinalEntry(a), Outflow(asset));
    SelfCallHoldings(e, w, a, asset);
  }

  /** What leaves for the CEA and the caller, and what comes back. */
  lemma SelfCallHoldings(e: Env, w: World, a: FinalizeArgs, asset: Pubkey)
    requires ValidEnv(e) && FinalizeTx(e, w, a).Ok? && ModeOf(e, a) == UeaMode
    ensures var o := FinalizeTx(e, w, a).value;
            && o.log == [Entry(a.clock, UeaEvent(e, a)), FinalEntry(a)]
            && Holdings(e, o.world.ledger, asset)
               == Holdings(e, w.ledger, asset) - If(TokenOf(a) == asset, a.amount)
                  - If(asset == DEFAULT_KEY, a.gasFee) + If(TokenOf(a) == asset, UeaArgsOf(a).amount)
  {
    UeaAtPda(e, w, a, e.vault, asset);
    StagedAtPda(e, w, a, e.vault, asset);
  }

  /** What leaves for the CEA and the caller; the called program may add, not take. */
  lemma CallHoldings(e: Env, w: World, a: FinalizeArgs, asset: Pubkey)
    requires ValidEnv(e) && FinalizeTx(e, w, a).Ok? && ModeOf(e, a) == CpiMode
    ensures Stageable(e, w, a)
    ensures var o := FinalizeTx(e, w, a).value;
            && o.log == [FinalEntry(a)] && a.cpi == CpiReturned(o.world.ledger)
            && Holdings(e, StagedLedger(e, w, a), asset) <= Holdings(e, o.world.ledger, asset)
            && Holdings(e, StagedLedger(e, w, a), asset)
               == Holdings(e, w.ledger, asset) - If(TokenOf(a) == asset, a.amount) - If(asset == DEFAULT_KEY, a.gasFee)
  {
    CpiAtPda(e, w, a, e.vault, asset);
    StagedAtPda(e, w, a, e.vault, asset);
  }

  lemma CallVault(e: Env, w: World, a: FinalizeArgs, asset: Pubkey)
    requires ValidEnv(e) && FinalizeTx(e, w, a).Ok? && ModeOf(e, a) == CpiMode
    ensures HoldingsFollow(e, w, FinalizeUniversalTx(a), FinalizeTx(e, w, a).value, asset)
  {
    SumLogOne(FinalEntry(a), Inflow(asset));
    SumLogOne(FinalEntry(a), Outflow(asset));
    CallHoldings(e, w, a, asset);
  }

  lemma PayoutVault(e: Env, w: World, p: PayoutArgs, kind: Kind, asset: Pubkey)
    requires ValidEnv(e) && PayoutTx(e, w, p, kind).Ok?
    ensures var o := PayoutTx(e, w, p, kind).value;
            Holdings(e, o.world.ledger, asset)
            == Holdings(e, w.ledger, asset) + Net(o.log, asset)
                + If(AssetOf(p.mint) == asset && p.recipient == e.vault, p.amount)
    ensures p.amount > 0
  {
    PayoutAccepted(e, w, p, kind);
    PayoutNet(p, kind, asset);
    PayoutAtPda(e, w, p, kind, e.vault, asset);
  }

  lemma PayoutNet(p: PayoutArgs, kind: Kind, asset: Pubkey)
    ensures Net(PayoutLog(p, kind), asset) == -If(AssetOf(p.mint) == asset, p.amount)
  {
    var first := Entry(p.clock, PayoutEvent(p, kind));
    if p.gasFee == 0 {
      assert PayoutLog(p, kind) == [first];
      SumLogOne(first, Inflow(asset));
      SumLogOne(first, Outflow(asset));
    } else {
      var second := Entry(p.clock, ProtocolFeeReimbursed(p.subTxId, p.caller, p.gasFee));
      assert PayoutLog(p, kind) == [first, second];
      SumLogTwo(first, second, Inflow(asset));
      SumLogTwo(first, second, Outflow(asset));
    }
  }

  lemma AdminVault(e: Env, w: World, a: AdminArgs, asset: Pubkey)
    requires ValidEnv(e) && AdminTx(e, w, a).Ok?
    ensures var o := AdminTx(e, w, a).value;
            Holdings(e, o.world.ledger, asset) == Holdings(e, w.ledger, asset) && Net(o.log, asset) == 0
  {
    AdminAtPda(e, w, a, e.vault, asset);
    SumLogZero(AdminLog(a), Inflow(asset));
    SumLogZero(AdminLog(a), Outflow(asset));
  }

  /** One successful step: the log never promises more than the vault holds. */
  lemma StepVault(e: Env, w: World, act: Action, asset: Pubkey)
    requires ValidEnv(e) && Step(e, w, act).Ok?
    ensures HoldingsFollow(e, w, act, Step(e, w, act).value, asset)
  {
    match act
    case SendUniversalTx(a) => SendVault(e, w, a, asset);
    case FinalizeUniversalTx(a) =>
      match ModeOf(e, a) {
        case WithdrawMode => WithdrawVault(e, w, a, asset);
        case UeaMode => SelfCallVault(e, w, a, asset);
        case CpiMode => CallVault(e, w, a, asset);
      }
    case RevertTx(p, instruction) => PayoutVault(e, w, p, Reverting(instruction), asset);
    case RescueFunds(p) => PayoutVault(e, w, p, Rescuing, asset);
    case AdminAction(a) => AdminVault(e, w, a, asset);
    case External(ledger, _) =>
      ExternalAtPda(e, w, ledger, e.vault, asset);
  }

  // ---- Runs ----

  ghost function QuietFor(e: Env, asset: Pubkey): (World, Action) -> bool {
    (w: World, act: Action) => Step(e, w, act).Ok? ==> Quiet(e, w, act, asset)
  }

  /** Whatever happens, the vault holds at least what the log says. */
  lemma {:induction false} LedgerFloor(e: Env, w: World, acts: seq<Action>, asset: Pubkey)
    requires ValidEnv(e)
    ensures var o := Run(e, w, acts);
            Holdings(e, w.ledger, asset) + Net(o.log, asset) <= Holdings(e, o.world.ledger, asset)
  {
    if acts != [] {
      var rest, last := acts[..|acts| - 1], acts[|acts| - 1];
      LedgerFloor(e, w, rest, asset);
      var before := Run(e, w, rest);
      if Step(e, before.world, last).Ok? {
        StepVault(e, before.world, last, asset);
        SumLogConcat(before.log, Step(e, before.world, last).value.log, Inflow(asset));
        SumLogConcat(before.log, Step(e, before.world, last).value.log, Outflow(asset));
      }
    }
  }

  /** And exactly that if and only if no step credits the vault behind the log's back. */
  lemma {:induction false} LedgerExact(e: Env, w: World, acts: seq<Action>, asset: Pubkey)
    requires ValidEnv(e)
    ensures var o := Run(e, w, acts);
            Holdings(e, o.world.ledger, asset) == Holdings(e, w.ledger, asset) + Net(o.log, asset)
            <==> Throughout(e, w, acts, QuietFor(e, asset))
  {
    if acts != [] {
      var rest, last := acts[..|acts| - 1], acts[|acts| - 1];
      var before := Run(e, w, rest);
      LedgerExact(e, w, rest, asset);
      LedgerFloor(e, w, rest, asset);
      if Step(e, before.world, last).Ok? {
        StepVault(e, before.world, last, asset);
        SumLogConcat(before.log, Step(e, before.world, last).value.log, Inflow(asset));
        SumLogConcat(before.log, Step(e, before.world, last).value.log, Outflow(asset));
      }
    }
  }
}
