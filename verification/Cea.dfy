/** The accounts the program keeps for Push Chain accounts (CEAs): who can spend
    from them, what a withdrawal through one leaves there, and what a CEA that
    sends funds back is charged. */
module Cea {
  import opened Bytes
  import opened Results
  import opened Ledgers
  import opened RateLimit
  import opened State
  import opened Finalize
  import opened Payout
  import opened Runs
  import opened Effects

  /** What the CEA of a Push account holds of an asset. */
  ghost function CeaFunds(e: Env, w: World, pushAccount: Bytes20, asset: Pubkey): int {
    HeldBy(w.ledger, asset, e.cea(pushAccount))
  }

  /** An outbound call made for this Push account. */
  predicate ActsFor(act: Action, pushAccount: Bytes20) {
    act.FinalizeUniversalTx? && act.finalize.pushAccount == pushAccount
  }

  lemma FinalizeForOther(e: Env, w: World, a: FinalizeArgs, pushAccount: Bytes20, asset: Pubkey)
    requires ValidEnv(e) && FinalizeTx(e, w, a).Ok? && a.pushAccount != pushAccount
    ensures CeaFunds(e, w, pushAccount, asset) <= CeaFunds(e, FinalizeTx(e, w, a).value.world, pushAccount, asset)
  {
    match ModeOf(e, a)
    case WithdrawMode =>
      WithdrawAtPda(e, w, a, e.cea(pushAccount), asset);
    case UeaMode =>
      UeaAtPda(e, w, a, e.cea(pushAccount), asset);
      StagedAtPda(e, w, a, e.cea(pushAccount), asset);
    case CpiMode =>
      CpiAtPda(e, w, a, e.cea(pushAccount), asset);
      StagedAtPda(e, w, a, e.cea(pushAccount), asset);
  }

  /** No step takes anything from a CEA but a call made for its own Push account. */
  lemma StepSparesCea(e: Env, w: World, act: Action, pushAccount: Bytes20, asset: Pubkey)
    requires ValidEnv(e) && Step(e, w, act).Ok? && !ActsFor(act, pushAccount)
    ensures CeaFunds(e, w, pushAccount, asset) <= CeaFunds(e, Step(e, w, act).value.world, pushAccount, asset)
  {
    match act
    case SendUniversalTx(a) => SendAtPda(e, w, a, e.cea(pushAccount), asset);
    case FinalizeUniversalTx(a) => FinalizeForOther(e, w, a, pushAccount, asset);
    case RevertTx(p, instruction) => PayoutAtPda(e, w, p, Reverting(instruction), e.cea(pushAccount), asset);
    case RescueFunds(p) => PayoutAtPda(e, w, p, Rescuing, e.cea(pushAccount), asset);
    case AdminAction(a) => AdminAtPda(e, w, a, e.cea(pushAccount), asset);
    case External(ledger, _) => ExternalAtPda(e, w, ledger, e.cea(pushAccount), asset);
  }

  ghost function NoneSucceedsFor(e: Env, pushAccount: Bytes20): (World, Action) -> bool {
    (w: World, act: Action) => ActsFor(act, pushAccount) ==> Step(e, w, act).Err?
  }

  /** A run without a successful call for a Push account leaves its CEA with at
      least what it had. */
  lemma {:induction false} CeaIsolation(e: Env, w: World, acts: seq<Action>, pushAccount: Bytes20, asset: Pubkey)
    requires ValidEnv(e) && Throughout(e, w, acts, NoneSucceedsFor(e, pushAccount))
    ensures CeaFunds(e, w, pushAccount, asset) <= CeaFunds(e, Run(e, w, acts).world, pushAccount, asset)
  {
    if acts != [] {
      var rest, last := acts[..|acts| - 1], acts[|acts| - 1];
      CeaIsolation(e, w, rest, pushAccount, asset);
      if Step(e, Run(e, w, rest).world, last).Ok? {
        StepSparesCea(e, Run(e, w, rest).world, last, pushAccount, asset);
      }
    }
  }

  /** A withdrawal passes through the CEA: it leaves there the amount if the CEA is
      the receiver, and otherwise nothing and takes nothing. */
  lemma WithdrawPassesThrough(e: Env, w: World, a: FinalizeArgs, asset: Pubkey)
    requires ValidEnv(e) && FinalizeTx(e, w, a).Ok? && ModeOf(e, a) == WithdrawMode
    ensures CeaFunds(e, FinalizeTx(e, w, a).value.world, a.pushAccount, asset)
         == CeaFunds(e, w, a.pushAccount, asset)
            + If(asset == TokenOf(a) && ReceiverOf(e, w, a) == e.cea(a.pushAccount), a.amount)
    ensures TargetOf(a) == e.cea(a.pushAccount) ==> ReceiverOf(e, w, a) == e.cea(a.pushAccount)
  {
    WithdrawAtPda(e, w, a, e.cea(a.pushAccount), asset);
  }

  /** And the receiver gains exactly the amount, whoever it is; what else reaches or
      leaves its SOL is what it pays and gets as the vault, the relayer or the
      executed marker of the call. */
  lemma WithdrawDelivers(e: Env, w: World, a: FinalizeArgs)
    requires FinalizeTx(e, w, a).Ok? && ModeOf(e, a) == WithdrawMode
    ensures var k := ReceiverOf(e, w, a);
            var rent := MarkerRent(e, w, a.subTxId);
            HeldBy(FinalizeTx(e, w, a).value.world.ledger, TokenOf(a), k)
            == HeldBy(w.ledger, TokenOf(a), k) + a.amount - If(k == e.vault, a.amount)
               - If(IsNative(a) && k == e.vault, a.gasFee)
               + If(IsNative(a) && k == a.caller, a.gasFee - rent)
               + If(IsNative(a) && k == e.executedAccount(a.subTxId), rent)
  {
    FinalizeAccepted(e, w, a);
    WithdrawAccepted(e, w, a);
    if IsNative(a) {
      WithdrawLamports(e, w, a, ReceiverOf(e, w, a));
    } else {
      WithdrawTokens(e, w, a, TokenOf(a), Some(ReceiverOf(e, w, a)));
    }
  }

  /** A self-call: the amount reported from the CEA is what the CEA is debited and
      the vault credited after staging. */
  lemma SelfCallBalances(e: Env, w: World, a: FinalizeArgs)
    requires ValidEnv(e) && FinalizeTx(e, w, a).Ok? && ModeOf(e, a) == UeaMode
    ensures Stageable(e, w, a)
    ensures var o := FinalizeTx(e, w, a).value;
            var asset, cea := TokenOf(a), e.cea(a.pushAccount);
            var reported := o.log[0].event;
            && reported.UniversalTx? && reported.fromCea && reported.token == asset
            && HeldBy(o.world.ledger, asset, cea) == HeldBy(w.ledger, asset, cea) + a.amount - reported.amount
            && HeldBy(o.world.ledger, asset, e.vault) == HeldBy(StagedLedger(e, w, a), asset, e.vault) + reported.amount
  {
    UeaAtPda(e, w, a, e.cea(a.pushAccount), TokenOf(a));
    UeaAtPda(e, w, a, e.vault, TokenOf(a));
    StagedAtPda(e, w, a, e.cea(a.pushAccount), TokenOf(a));
  }

  /** What the limit of a self-call's token becomes. */
  function Charged(w: World, a: FinalizeArgs): Result<TokenLimit>
    requires a.limitMint.Some? && a.limitMint.value in w.limits
  {
    ValidateAndConsume(w.limits[a.limitMint.value], TokenOf(a), UeaArgsOf(a).amount, w.rate.epochDuration,
                       a.clock.unixTimestamp)
  }

  /** `after` is the limit of this token, charged the amount in its current epoch. */
  predicate ChargedWith(was: TokenLimit, after: TokenLimit, token: Pubkey, amount: u64, duration: u64, now: i64) {
    && was.tokenMint == after.tokenMint == token
    && after.limitThreshold == was.limitThreshold
    && if duration == 0 then after == was
       else
         && after.epoch == (if EpochOf(now, duration) > was.epoch then EpochOf(now, duration) else was.epoch)
         && after.used == amount + (if EpochOf(now, duration) > was.epoch then 0 else was.used)
         && after.used <= after.limitThreshold
  }

  lemma UeaCheckCharges(e: Env, w: World, staged: Ledger, a: FinalizeArgs)
    requires !IsNative(a) ==> a.ceaAta.Some? && a.ceaAta.value in staged.tokens
    requires a.limitMint.Some? ==> a.limitMint.value in w.limits
    requires UeaCheck(e, w.limits, w.rate.epochDuration, staged, a).Ok?
    ensures a.limitMint.Some? && UeaCheck(e, w.limits, w.rate.epochDuration, staged, a) == Charged(w, a)
    ensures ChargedWith(w.limits[a.limitMint.value], Charged(w, a).value, TokenOf(a), UeaArgsOf(a).amount,
                        w.rate.epochDuration, a.clock.unixTimestamp)
    ensures 0 < UeaArgsOf(a).amount <= CeaHeld(e, staged, a)
  {
  }

  /** It is covered by what was staged, and it is added to what the limit of that
      token, and of no other, used in the current epoch, unless metering is off. */
  lemma SelfCallMetered(e: Env, w: World, a: FinalizeArgs)
    requires FinalizeTx(e, w, a).Ok? && ModeOf(e, a) == UeaMode
    ensures Stageable(e, w, a) && a.limitMint.Some? && a.limitMint.value in w.limits
    ensures var o := FinalizeTx(e, w, a).value;
            && 0 < UeaArgsOf(a).amount <= CeaHeld(e, StagedLedger(e, w, a), a)
            && Charged(w, a).Ok?
            && o.world.limits == w.limits[a.limitMint.value := Charged(w, a).value]
            && ChargedWith(w.limits[a.limitMint.value], o.world.limits[a.limitMint.value], TokenOf(a),
                           UeaArgsOf(a).amount,
                           w.rate.epochDuration, a.clock.unixTimestamp)
  {
    FinalizeAccepted(e, w, a);
    UeaAccepted(e, w, a);
    UeaCheckCharges(e, w, StagedLedger(e, w, a), a);
  }
}
