/** The fee vault: over any run it holds what it held, plus the fees the log says
    were collected, less what the log says was reimbursed, and reimbursements
    never take it below its rent-exempt minimum. */
module FeeVault {
  import opened Bytes
  import opened Results
  import opened Ledgers
  import opened State
  import opened Deposit
  import opened Finalize
  import opened Payout
  import opened Admin
  import opened Runs
  import opened Effects
  import opened Logs
  import opened VaultLedger

  function FeeOf(ev: Event): int {
    match ev
    case ProtocolFeeCollected(_, lamports, _, _) => lamports
    case ProtocolFeeReimbursed(_, _, lamports) => 0 - lamports
    case _ => 0
  }

  ghost function Fees(log: seq<Entry>): int {
    SumLog(log, FeeOf)
  }

  ghost function Pool(e: Env, w: World): nat {
    Balance(w.ledger, e.feeVault)
  }

  /** The step credits the fee vault with nothing but a protocol fee. */
  ghost predicate NoGift(e: Env, w: World, act: Action) {
    match act
    case FinalizeUniversalTx(a) =>
      && (ModeOf(e, a) == WithdrawMode && IsNative(a) ==> TargetOf(a) != e.feeVault)
      && (ModeOf(e, a) == CpiMode && a.cpi.CpiReturned? && Stageable(e, w, a) ==>
            Balance(a.cpi.ledger, e.feeVault) == Balance(StagedLedger(e, w, a), e.feeVault))
    case RevertTx(p, _) => p.mint.None? ==> p.recipient != e.feeVault
    case RescueFunds(p) => p.mint.None? ==> p.recipient != e.feeVault
    case External(ledger, _) => Balance(ledger, e.feeVault) == Pool(e, w)
    case _ => true
  }

  /** The pool after a successful step, against the pool before and the log. */
  ghost predicate PoolFollows(e: Env, w: World, act: Action, o: Outcome) {
    && Pool(e, w) + Fees(o.log) <= Pool(e, o.world)
    && (NoGift(e, w, act) <==> Pool(e, o.world) == Pool(e, w) + Fees(o.log))
    && (Pool(e, o.world) < Pool(e, w) ==> Pool(e, o.world) >= e.minimumBalance(FEE_VAULT_LEN))
  }

  /** The fee of a reimbursement comes out of the fee vault and goes to the caller;
      the vault takes no part in it, nor in the collection of a fee. */
  lemma FeesSpareTheVault(e: Env, l: Ledger, user: Pubkey, fee: u64)
    requires ValidEnv(e) && !e.isPda(user)
    ensures Reimbursed(e, l, user, fee).Ok? ==>
              Balance(Reimbursed(e, l, user, fee).value, e.vault) == Balance(l, e.vault)
    ensures fee <= Balance(l, user) ==>
              Balance(Move(l, user, e.feeVault, fee), e.vault) == Balance(l, e.vault)
  {
    if Reimbursed(e, l, user, fee).Ok? {
      ReimbursedEffect(e, l, user, fee, e.vault);
    }
    if fee <= Balance(l, user) {
      MoveEffect(l, user, e.feeVault, fee);
    }
  }

  lemma SendFees(e: Env, w: World, a: SendArgs)
    requires ValidEnv(e) && Send(e, w, a).Ok?
    ensures PoolFollows(e, w, SendUniversalTx(a), Send(e, w, a).value)
  {
    SendReport(e, w, a);
    SendAtPda(e, w, a, e.feeVault, DEFAULT_KEY);
    SendLogFees(w, a, TypeOf(w, a));
  }

  lemma SendLogFees(w: World, a: SendArgs, txType: TxType)
    requires w.protocolFee <= a.nativeAmount
    requires NativeFunds(a.request) <= a.nativeAmount - w.protocolFee
    ensures Fees(SendLog(w, a, txType)) == w.protocolFee
  {
    SumLogZero(LegLog(a, a.nativeAmount - w.protocolFee, txType), FeeOf);
    SendLogSum(w, a, txType, FeeOf);
    if w.protocolFee > 0 {
      SumLogOne(FeeLog(w, a)[0], FeeOf);
    }
  }

  lemma WithdrawFees(e: Env, w: World, a: FinalizeArgs)
    requires ValidEnv(e) && FinalizeTx(e, w, a).Ok? && ModeOf(e, a) == WithdrawMode
    ensures PoolFollows(e, w, FinalizeUniversalTx(a), FinalizeTx(e, w, a).value)
  {
    SumLogOne(FinalEntry(a), FeeOf);
    WithdrawAtPda(e, w, a, e.feeVault, DEFAULT_KEY);
    TokenIsNotSol(e, w, a);
    WithdrawIsOfSomething(e, w, a);
  }

  lemma SelfCallFees(e: Env, w: World, a: FinalizeArgs)
    requires ValidEnv(e) && FinalizeTx(e, w, a).Ok? && ModeOf(e, a) == UeaMode
    ensures PoolFollows(e, w, FinalizeUniversalTx(a), FinalizeTx(e, w, a).value)
  {
    SumLogTwo(Entry(a.clock, UeaEvent(e, a)), FinalEntry(a), FeeOf);
    SelfCallPool(e, w, a);
  }

  lemma SelfCallPool(e: Env, w: World, a: FinalizeArgs)
    requires ValidEnv(e) && FinalizeTx(e, w, a).Ok? && ModeOf(e, a) == UeaMode
    ensures var o := FinalizeTx(e, w, a).value;
            && o.log == [Entry(a.clock, UeaEvent(e, a)), FinalEntry(a)]
            && Pool(e, o.world) == Pool(e, w)
  {
    UeaAtPda(e, w, a, e.feeVault, DEFAULT_KEY);
    StagedAtPda(e, w, a, e.feeVault, DEFAULT_KEY);
  }

  lemma CallFees(e: Env, w: World, a: FinalizeArgs)
    requires ValidEnv(e) && FinalizeTx(e, w, a).Ok? && ModeOf(e, a) == CpiMode
    ensures PoolFollows(e, w, FinalizeUniversalTx(a), FinalizeTx(e, w, a).value)
  {
    SumLogOne(FinalEntry(a), FeeOf);
    CpiAtPda(e, w, a, e.feeVault, DEFAULT_KEY);
    StagedAtPda(e, w, a, e.feeVault, DEFAULT_KEY);
  }

  /** The zero key is never the mint of an accepted call. */
  lemma TokenIsNotSol(e: Env, w: World, a: FinalizeArgs)
    requires FinalizeTx(e, w, a).Ok?
    ensures TokenOf(a) == DEFAULT_KEY <==> IsNative(a)
  {
    FinalizeAccepted(e, w, a);
  }

  lemma PayoutFees(e: Env, w: World, act: Action, p: PayoutArgs, kind: Kind)
    requires ValidEnv(e) && PayoutTx(e, w, p, kind).Ok?
    requires act == (match kind case Reverting(instruction) => RevertTx(p, instruction) case Rescuing => RescueFunds(p))
    ensures PoolFollows(e, w, act, PayoutTx(e, w, p, kind).value)
  {
    PayoutPool(e, w, p, kind);
    PayoutLogFees(p, kind);
  }

  lemma PayoutPool(e: Env, w: World, p: PayoutArgs, kind: Kind)
    requires ValidEnv(e) && PayoutTx(e, w, p, kind).Ok?
    ensures var o := PayoutTx(e, w, p, kind).value;
            && o.log == PayoutLog(p, kind)
            && Pool(e, o.world) == Pool(e, w) - p.gasFee + If(p.mint.None? && p.recipient == e.feeVault, p.amount)
            && (p.gasFee > 0 ==> Pool(e, o.world) >= e.minimumBalance(FEE_VAULT_LEN))
            && p.amount > 0 && p.mint != Some(DEFAULT_KEY)
  {
    PayoutAccepted(e, w, p, kind);
    PayoutAtPda(e, w, p, kind, e.feeVault, DEFAULT_KEY);
    ReimbursedEffect(e, Paid(e, PayoutMarked(e, w, p), p).value, p.caller, p.gasFee, e.feeVault);
  }

  lemma PayoutLogFees(p: PayoutArgs, kind: Kind)
    ensures Fees(PayoutLog(p, kind)) == 0 - p.gasFee
  {
    var first := Entry(p.clock, PayoutEvent(p, kind));
    var second := Entry(p.clock, ProtocolFeeReimbursed(p.subTxId, p.caller, p.gasFee));
    SumLogOne(first, FeeOf);
    SumLogTwo(first, second, FeeOf);
    assert PayoutLog(p, kind) == if p.gasFee > 0 then [first, second] else [first];
  }

  lemma AdminFees(e: Env, w: World, a: AdminArgs)
    requires ValidEnv(e) && AdminTx(e, w, a).Ok?
    ensures PoolFollows(e, w, AdminAction(a), AdminTx(e, w, a).value)
  {
    AdminAtPda(e, w, a, e.feeVault, DEFAULT_KEY);
    SumLogZero(AdminLog(a), FeeOf);
  }

  lemma StepFees(e: Env, w: World, act: Action)
    requires ValidEnv(e) && Step(e, w, act).Ok?
    ensures PoolFollows(e, w, act, Step(e, w, act).value)
  {
    match act
    case SendUniversalTx(a) => SendFees(e, w, a);
    case FinalizeUniversalTx(a) =>
      match ModeOf(e, a) {
        case WithdrawMode => WithdrawFees(e, w, a);
        case UeaMode => SelfCallFees(e, w, a);
        case CpiMode => CallFees(e, w, a);
      }
    case RevertTx(p, instruction) => PayoutFees(e, w, act, p, Reverting(instruction));
    case RescueFunds(p) => PayoutFees(e, w, act, p, Rescuing);
    case AdminAction(a) => AdminFees(e, w, a);
    case External(ledger, _) => ExternalAtPda(e, w, ledger, e.feeVault, DEFAULT_KEY);
  }

  ghost function NoGiftIn(e: Env): (World, Action) -> bool {
    (w: World, act: Action) => Step(e, w, act).Ok? ==> NoGift(e, w, act)
  }

  /** Over any run, the fee vault never drops below its minimum once it is there,
      or below where it started if that was less. */
  lemma {:induction false} MinimumKept(e: Env, w: World, acts: seq<Action>)
    requires ValidEnv(e)
    ensures Pool(e, Run(e, w, acts).world) >= e.minimumBalance(FEE_VAULT_LEN)
         || Pool(e, Run(e, w, acts).world) >= Pool(e, w)
  {
    if acts != [] {
      var before := Run(e, w, acts[..|acts| - 1]);
      MinimumKept(e, w, acts[..|acts| - 1]);
      if Step(e, before.world, acts[|acts| - 1]).Ok? {
        StepFees(e, before.world, acts[|acts| - 1]);
      }
    }
  }

  /** Over any run, the log accounts for the fee vault: at least, whatever happens. */
  lemma {:induction false} FeeFloor(e: Env, w: World, acts: seq<Action>)
    requires ValidEnv(e)
    ensures var o := Run(e, w, acts);
            Pool(e, w) + Fees(o.log) <= Pool(e, o.world)
  {
    if acts != [] {
      var before := Run(e, w, acts[..|acts| - 1]);
      FeeFloor(e, w, acts[..|acts| - 1]);
      if Step(e, before.world, acts[|acts| - 1]).Ok? {
        StepFees(e, before.world, acts[|acts| - 1]);
        SumLogConcat(before.log, Step(e, before.world, acts[|acts| - 1]).value.log, FeeOf);
      }
    }
  }

  /** And exactly, if and only if nobody makes it a gift. */
  lemma {:induction false} FeeExact(e: Env, w: World, acts: seq<Action>)
    requires ValidEnv(e)
    ensures var o := Run(e, w, acts);
            Pool(e, o.world) == Pool(e, w) + Fees(o.log) <==> Throughout(e, w, acts, NoGiftIn(e))
  {
    if acts != [] {
      var rest, last := acts[..|acts| - 1], acts[|acts| - 1];
      var before := Run(e, w, rest);
      FeeExact(e, w, rest);
      FeeFloor(e, w, rest);
      if Step(e, before.world, last).Ok? {
        StepFees(e, before.world, last);
        SumLogConcat(before.log, Step(e, before.world, last).value.log, FeeOf);
      }
    }
  }
}
