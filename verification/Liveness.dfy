/** A signed payment cannot be blocked: while nobody succeeds with a setter or with
    its id, other transactions leave a withdrawal, a revert or a rescue acceptable,
    as long as the relayer and the paying accounts keep what it needs. */
module Liveness {
  import opened Bytes
  import opened Ledgers
  import opened State
  import opened Finalize
  import opened Payout
  import opened Runs
  import opened Effects
  import opened Authorisation
  import opened Cea
  import opened Markers

  // ---- What other transactions cannot change ----

  ghost function NoSetter(e: Env): (World, Action) -> bool {
    (w: World, act: Action) => Step(e, w, act).Ok? ==> !act.AdminAction?
  }

  /** Signatures and the pause flag stay, whatever else happens. */
  lemma {:induction false} SettingsStay(e: Env, w: World, acts: seq<Action>)
    requires Throughout(e, w, acts, NoSetter(e))
    ensures Run(e, w, acts).world.config == w.config && Run(e, w, acts).world.tss == w.tss
  {
    if acts != [] {
      var before := Run(e, w, acts[..|acts| - 1]).world;
      SettingsStay(e, w, acts[..|acts| - 1]);
      if Step(e, before, acts[|acts| - 1]).Ok? {
        StepKeepsSettings(e, before, acts[|acts| - 1]);
      }
    }
  }

  lemma StepKeepsSettings(e: Env, w: World, act: Action)
    requires Step(e, w, act).Ok? && !act.AdminAction?
    ensures Step(e, w, act).value.world.config == w.config && Step(e, w, act).value.world.tss == w.tss
  {
    match act
    case SendUniversalTx(a) => SendAccepted(e, w, a);
    case FinalizeUniversalTx(a) => FinalizeReport(e, w, a);
    case RevertTx(p, instruction) => PayoutReport(e, w, p, Reverting(instruction));
    case RescueFunds(p) => PayoutReport(e, w, p, Rescuing);
    case External(_, _) =>
  }

  // ---- Reverts and rescues ----

  /** The token account is still there, for the same mint and owner, with at least n. */
  predicate StillHolds(was: Ledger, now: Ledger, k: Pubkey, n: nat) {
    k in was.tokens && k in now.tokens && now.tokens[k].mint == was.tokens[k].mint
    && now.tokens[k].owner == was.tokens[k].owner && n <= now.tokens[k].amount
  }

  /** What a revert or rescue needs to find: the relayer's lamports, the amount and,
      for a gas fee, enough in the fee vault. */
  predicate PayoutProvided(e: Env, was: Ledger, now: Ledger, p: PayoutArgs) {
    && Balance(was, p.caller) <= Balance(now, p.caller)
    && (if p.mint.None? then p.amount <= Balance(now, e.vault)
        else
          && p.tokenVault.Some? && StillHolds(was, now, p.tokenVault.value, p.amount)
          && p.recipientToken.Some? && StillHolds(was, now, p.recipientToken.value, 0))
    && (p.gasFee > 0 ==> e.minimumBalance(FEE_VAULT_LEN) + p.gasFee <= Balance(now, e.feeVault))
  }

  lemma MarkerAffordable(e: Env, was: World, now: World, id: Bytes32, caller: Pubkey)
    requires Balance(was.ledger, caller) <= Balance(now.ledger, caller)
    requires Balance(was.ledger, e.executedAccount(id)) <= Balance(now.ledger, e.executedAccount(id))
    requires MarkerRent(e, was, id) <= Balance(was.ledger, caller)
    ensures MarkerRent(e, now, id) <= Balance(now.ledger, caller)
  {
  }

  lemma PayoutAccountsStay(e: Env, was: World, now: World, p: PayoutArgs, kind: Kind)
    requires PayoutTx(e, was, p, kind).Ok? && now.config == was.config && p.subTxId !in now.executed
    requires Balance(was.ledger, e.executedAccount(p.subTxId)) <= Balance(now.ledger, e.executedAccount(p.subTxId))
    requires PayoutProvided(e, was.ledger, now.ledger, p)
    ensures PayoutAccounts(e, now, p).Pass?
  {
    PayoutAccepted(e, was, p, kind);
    MarkerAffordable(e, was, now, p.subTxId, p.caller);
  }

  lemma PayoutWasChecked(e: Env, w: World, p: PayoutArgs, kind: Kind)
    requires PayoutTx(e, w, p, kind).Ok?
    ensures PayoutAccounts(e, w, p).Pass? && PayoutChecked(e, PayoutMarked(e, w, p), w.tss, p, kind).Pass?
  {
  }

  lemma MarkerMovesNoTokens(e: Env, w: World, p: PayoutArgs)
    requires PayoutAccounts(e, w, p).Pass?
    ensures PayoutMarked(e, w, p).tokens == w.ledger.tokens
  {
  }

  lemma CheckedStays(e: Env, l: Ledger, l': Ledger, tss: Tss, p: PayoutArgs, kind: Kind)
    requires p.tokenVault.Some? ==> p.tokenVault.value in l.tokens && p.tokenVault.value in l'.tokens
    requires p.recipientToken.Some? ==> p.recipientToken.value in l.tokens && p.recipientToken.value in l'.tokens
    requires PayoutChecked(e, l, tss, p, kind).Pass?
    requires p.mint.Some? ==>
               && p.tokenVault.Some? && StillHolds(l, l', p.tokenVault.value, 0)
               && p.recipientToken.Some? && StillHolds(l, l', p.recipientToken.value, 0)
    ensures PayoutChecked(e, l', tss, p, kind).Pass?
  {
  }

  lemma PayoutChecksStay(e: Env, was: World, now: World, p: PayoutArgs, kind: Kind)
    requires PayoutTx(e, was, p, kind).Ok? && PayoutAccounts(e, now, p).Pass?
    requires now.tss == was.tss && PayoutProvided(e, was.ledger, now.ledger, p)
    ensures PayoutChecked(e, PayoutMarked(e, now, p), now.tss, p, kind).Pass?
  {
    PayoutWasChecked(e, was, p, kind);
    MarkerMovesNoTokens(e, was, p);
    MarkerMovesNoTokens(e, now, p);
    CheckedStays(e, PayoutMarked(e, was, p), PayoutMarked(e, now, p), was.tss, p, kind);
  }

  lemma PayoutPays(e: Env, was: World, now: World, p: PayoutArgs, kind: Kind)
    requires ValidEnv(e) && PayoutAccounts(e, now, p).Pass? && PayoutProvided(e, was.ledger, now.ledger, p)
    requires PayoutChecked(e, PayoutMarked(e, now, p), now.tss, p, kind).Pass?
    ensures PaidOut(e, PayoutMarked(e, now, p), p).Ok?
  {
    var marked := PayoutMarked(e, now, p);
    PayoutMarkedEffect(e, now, p);
    PaidLamports(e, marked, p, e.feeVault);
  }

  lemma PayoutStays(e: Env, was: World, now: World, p: PayoutArgs, kind: Kind)
    requires ValidEnv(e) && PayoutTx(e, was, p, kind).Ok?
    requires now.config == was.config && now.tss == was.tss && p.subTxId !in now.executed
    requires Balance(was.ledger, e.executedAccount(p.subTxId)) <= Balance(now.ledger, e.executedAccount(p.subTxId))
    requires PayoutProvided(e, was.ledger, now.ledger, p)
    ensures PayoutTx(e, now, p, kind).Ok?
  {
    PayoutAccountsStay(e, was, now, p, kind);
    PayoutChecksStay(e, was, now, p, kind);
    PayoutPays(e, was, now, p, kind);
  }

  // ---- Withdrawals ----

  /** The CEA's token account: there and its own, or as absent as before. */
  predicate CeaAccountProvided(e: Env, was: Ledger, now: Ledger, a: FinalizeArgs) {
    && a.ceaAta.Some? && a.mint.Some?
    && if a.ceaAta.value in now.tokens
       then now.tokens[a.ceaAta.value].mint == a.mint.value && now.tokens[a.ceaAta.value].owner == e.cea(a.pushAccount)
       else a.ceaAta.value !in was.tokens && Balance(was, a.ceaAta.value) <= Balance(now, a.ceaAta.value)
  }

  /** What a withdrawal needs to find: the relayer's lamports, the amount and the gas
      fee in the vault, and for a token its accounts. */
  predicate WithdrawProvided(e: Env, was: Ledger, now: Ledger, a: FinalizeArgs) {
    && Balance(was, a.caller) <= Balance(now, a.caller)
    && (if IsNative(a) then a.amount + a.gasFee <= Balance(now, e.vault)
        else
          && a.gasFee <= Balance(now, e.vault)
          && a.vaultAta.Some? && StillHolds(was, now, a.vaultAta.value, a.amount)
          && a.recipientAta.Some? && StillHolds(was, now, a.recipientAta.value, 0)
          && CeaAccountProvided(e, was, now, a))
    && (a.recipientAta.Some? ==> a.recipientAta.value in now.tokens)
  }

  lemma FinalizeAccountsStay(e: Env, was: World, now: World, a: FinalizeArgs)
    requires FinalizeAccounts(e, was, a).Pass? && ValidateFinalizeRequest(a).Ok? && a.subTxId !in now.executed
    requires Balance(was.ledger, e.executedAccount(a.subTxId)) <= Balance(now.ledger, e.executedAccount(a.subTxId))
    requires WithdrawProvided(e, was.ledger, now.ledger, a) && was.limits.Keys <= now.limits.Keys
    ensures FinalizeAccounts(e, now, a).Pass?
  {
    MarkerAffordable(e, was, now, a.subTxId, a.caller);
  }

  /** After the marker, whoever had no less before still has no less. */
  lemma MarkedStays(e: Env, was: World, now: World, a: FinalizeArgs, k: Pubkey)
    requires FinalizeAccounts(e, was, a).Pass? && FinalizeAccounts(e, now, a).Pass?
    requires Balance(was.ledger, k) <= Balance(now.ledger, k)
    requires Balance(was.ledger, e.executedAccount(a.subTxId)) <= Balance(now.ledger, e.executedAccount(a.subTxId))
    ensures Balance(Marked(e, was, a), k) <= Balance(Marked(e, now, a), k)
    ensures Marked(e, was, a).tokens == was.ledger.tokens && Marked(e, now, a).tokens == now.ledger.tokens
  {
    MarkedEffect(e, was, a);
    MarkedEffect(e, now, a);
  }

  lemma TokenStageStays(e: Env, l: Ledger, l': Ledger, a: FinalizeArgs)
    requires a.vaultAta.Some? && a.ceaAta.Some? && a.mint.Some? && a.vaultAta.value in l.tokens
    requires TokenStageCheck(e, l, a).Pass? && StillHolds(l, l', a.vaultAta.value, a.amount)
    requires Balance(l, a.caller) <= Balance(l', a.caller) && CeaAccountProvided(e, l, l', a)
    ensures TokenStageCheck(e, l', a).Pass?
  {
  }

  lemma TokenStagingStays(e: Env, was: World, now: World, a: FinalizeArgs)
    requires Stageable(e, was, a) && FinalizeAccounts(e, now, a).Pass? && !IsNative(a)
    requires Balance(was.ledger, e.executedAccount(a.subTxId)) <= Balance(now.ledger, e.executedAccount(a.subTxId))
    requires WithdrawProvided(e, was.ledger, now.ledger, a)
    ensures TokenStageCheck(e, Marked(e, now, a), a).Pass?
  {
    MarkedStays(e, was, now, a, a.caller);
    if a.ceaAta.value !in now.ledger.tokens {
      MarkedStays(e, was, now, a, a.ceaAta.value);
    }
    TokenStageStays(e, Marked(e, was, a), Marked(e, now, a), a);
  }

  /** Opening the CEA's account costs the relayer, not the vault. */
  lemma OpeningSparesVault(e: Env, l: Ledger, a: FinalizeArgs)
    requires ValidEnv(e) && !e.isPda(a.caller) && a.ceaAta.Some? && a.mint.Some? && a.vaultAta.Some?
    requires a.vaultAta.value in l.tokens && TokenStageCheck(e, l, a).Pass?
    ensures Balance(Opened(e, l, a), e.vault) == Balance(l, e.vault)
  {
    OpenedLamports(e, l, a);
  }

  lemma NativeStagingStays(e: Env, now: World, a: FinalizeArgs)
    requires ValidEnv(e) && FinalizeAccounts(e, now, a).Pass? && AccountPresence(a) && IsNative(a)
    requires a.amount + a.gasFee <= Balance(now.ledger, e.vault)
    ensures StageCheck(e, Marked(e, now, a), a).Pass?
  {
    MarkedEffect(e, now, a);
  }

  lemma StagingStays(e: Env, was: World, now: World, a: FinalizeArgs)
    requires ValidEnv(e) && Stageable(e, was, a) && FinalizeAccounts(e, now, a).Pass?
    requires Balance(was.ledger, e.executedAccount(a.subTxId)) <= Balance(now.ledger, e.executedAccount(a.subTxId))
    requires WithdrawProvided(e, was.ledger, now.ledger, a)
    ensures StageCheck(e, Marked(e, now, a), a).Pass?
  {
    if IsNative(a) {
      NativeStagingStays(e, now, a);
    } else {
      TokenStagingStays(e, was, now, a);
      OpeningSparesVault(e, Marked(e, now, a), a);
      MarkedEffect(e, now, a);
    }
  }

  lemma WithdrawChecksStay(e: Env, was: World, now: World, a: FinalizeArgs)
    requires FinalizeAccounts(e, was, a).Pass? && FinalizeAccounts(e, now, a).Pass?
    requires ValidateFinalizeRequest(a).Ok? && IsWithdraw(a) && WithdrawProvided(e, was.ledger, now.ledger, a)
    requires WithdrawCheck(e, Marked(e, was, a), a).Pass?
    ensures WithdrawCheck(e, Marked(e, now, a), a).Pass?
  {
    MarkedEffect(e, was, a);
    MarkedEffect(e, now, a);
  }

  lemma WithdrawWasChecked(e: Env, w: World, a: FinalizeArgs)
    requires FinalizeTx(e, w, a).Ok? && IsWithdraw(a)
    ensures Stageable(e, w, a) && WithdrawCheck(e, Marked(e, w, a), a).Pass?
  {
    FinalizeAccepted(e, w, a);
  }

  lemma WithdrawStays(e: Env, was: World, now: World, a: FinalizeArgs)
    requires ValidEnv(e) && FinalizeTx(e, was, a).Ok? && IsWithdraw(a)
    requires now.config == was.config && now.tss == was.tss && a.subTxId !in now.executed
    requires Balance(was.ledger, e.executedAccount(a.subTxId)) <= Balance(now.ledger, e.executedAccount(a.subTxId))
    requires WithdrawProvided(e, was.ledger, now.ledger, a) && was.limits.Keys <= now.limits.Keys
    ensures FinalizeTx(e, now, a).Ok?
  {
    WithdrawWasChecked(e, was, a);
    FinalizePassedChecks(e, was, a);
    FinalizeAccountsStay(e, was, now, a);
    StagingStays(e, was, now, a);
    WithdrawChecksStay(e, was, now, a);
  }

  // ---- Runs ----

  lemma StepKeepsLimits(e: Env, w: World, act: Action)
    requires Step(e, w, act).Ok? && !act.AdminAction?
    ensures w.limits.Keys <= Step(e, w, act).value.world.limits.Keys
  {
    match act
    case SendUniversalTx(a) => SendAccepted(e, w, a);
    case FinalizeUniversalTx(a) =>
      FinalizeReport(e, w, a);
      if ModeOf(e, a) == UeaMode {
        SelfCallMetered(e, w, a);
      }
    case RevertTx(p, instruction) => PayoutReport(e, w, p, Reverting(instruction));
    case RescueFunds(p) => PayoutReport(e, w, p, Rescuing);
    case External(_, _) =>
  }

  lemma {:induction false} LimitsStay(e: Env, w: World, acts: seq<Action>)
    requires Throughout(e, w, acts, NoSetter(e))
    ensures w.limits.Keys <= Run(e, w, acts).world.limits.Keys
  {
    if acts != [] {
      var before := Run(e, w, acts[..|acts| - 1]).world;
      LimitsStay(e, w, acts[..|acts| - 1]);
      if Step(e, before, acts[|acts| - 1]).Ok? {
        StepKeepsLimits(e, before, acts[|acts| - 1]);
      }
    }
  }

  /** A revert or rescue that could be made stays one, through any run in which
      nobody succeeds with its id or with a setter. */
  lemma PayoutCannotBeBlocked(e: Env, w: World, acts: seq<Action>, p: PayoutArgs, kind: Kind)
    requires ValidEnv(e) && PayoutTx(e, w, p, kind).Ok?
    requires Throughout(e, w, acts, NoSetter(e)) && p.subTxId !in Ids(Run(e, w, acts).log)
    requires PayoutProvided(e, w.ledger, Run(e, w, acts).world.ledger, p)
    ensures PayoutTx(e, Run(e, w, acts).world, p, kind).Ok?
  {
    SettingsStay(e, w, acts);
    MarkerKeeps(e, w, acts, p.subTxId);
    ExecutedOnce(e, w, acts);
    PayoutReport(e, w, p, kind);
    PayoutStays(e, w, Run(e, w, acts).world, p, kind);
  }

  /** The same for a withdrawal: no limiter stands in its way either. */
  lemma WithdrawCannotBeBlocked(e: Env, w: World, acts: seq<Action>, a: FinalizeArgs)
    requires ValidEnv(e) && FinalizeTx(e, w, a).Ok? && IsWithdraw(a)
    requires Throughout(e, w, acts, NoSetter(e)) && a.subTxId !in Ids(Run(e, w, acts).log)
    requires WithdrawProvided(e, w.ledger, Run(e, w, acts).world.ledger, a)
    ensures FinalizeTx(e, Run(e, w, acts).world, a).Ok?
  {
    SettingsStay(e, w, acts);
    MarkerKeeps(e, w, acts, a.subTxId);
    LimitsStay(e, w, acts);
    ExecutedOnce(e, w, acts);
    FinalizeHasOneId(e, w, a);
    WithdrawStays(e, w, Run(e, w, acts).world, a);
  }
}
