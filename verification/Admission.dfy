/** Exactly when each instruction is accepted, as conditions a caller can check on
    the state and the arguments before the call. */
module Admission {
  import opened Bytes
  import opened Results
  import opened Ledgers
  import opened Encoding
  import opened Pricing
  import opened RateLimit
  import opened RateLimitHistory
  import opened Messages
  import opened UeaArguments
  import opened State
  import opened Deposit
  import opened Finalize
  import opened Payout
  import opened Effects
  import opened LimiterRuns

  // ---- Limiters ----

  /** The limit is one for this token, which is supported, and has room for the
      amount: all of the threshold in an epoch later than the one it counts, and
      what is left of it in that one or, should the clock go back, an earlier one. */
  predicate TokenRoom(l: TokenLimit, token: Pubkey, amount: u64, duration: u64, now: i64) {
    && l.tokenMint == token && l.limitThreshold > 0
    && (duration > 0 ==>
          amount + (if EpochOf(now, duration) > l.epoch then 0 else l.used) <= l.limitThreshold)
  }

  lemma TokenRoomExactly(l: TokenLimit, token: Pubkey, amount: u64, duration: u64, now: i64)
    ensures ValidateAndConsume(l, token, amount, duration, now).Ok? <==> TokenRoom(l, token, amount, duration, now)
  {
  }

  /** There is no cap per slot, or the exact value fits on top of what the slot has
      spent, up to the unit that rounding down forgives. */
  ghost predicate SlotRoom(c: RateConfig, slot: u64, lamports: u64, p: PriceData)
    requires p.price > 0
  {
    c.blockUsdCap == 0 || SpentIn(c, slot) as real + ExactUsd(lamports, p) < c.blockUsdCap as real + 1.0
  }

  /** The lamports can be priced, and their value fits the caps of a deposit and of the slot. */
  ghost predicate GasFits(config: Config, rate: RateConfig, gas: u64, oracle: Option<PriceData>, slot: u64) {
    && Priced(config.confidenceThreshold, gas, oracle)
    && WithinCaps(config.minCapUsd, config.maxCapUsd, gas, oracle.value)
    && SlotRoom(rate, slot, gas, oracle.value)
  }

  lemma SlotRoomExactly(c: RateConfig, slot: u64, lamports: u64, p: PriceData)
    requires p.price > 0 && CalculateUsdAmount(lamports, p).Ok?
    ensures ConsumeBlockCap(c, CalculateUsdAmount(lamports, p).value, slot).Ok? <==> SlotRoom(c, slot, lamports, p)
  {
    UsdIsSingleFloor(lamports, p);
    if c.blockUsdCap > 0 {
      var usd := CalculateUsdAmount(lamports, p).value;
      assert ConsumeBlockCap(c, usd, slot).Ok? <==> SpentIn(c, slot) + usd <= c.blockUsdCap;
    }
  }

  lemma GasFitsExactly(config: Config, rate: RateConfig, gas: u64, oracle: Option<PriceData>, slot: u64)
    ensures GasCheck(config, rate, gas, oracle, slot).Ok? <==> gas > 0 ==> GasFits(config, rate, gas, oracle, slot)
  {
    CapsExactly(config.minCapUsd, config.maxCapUsd, config.confidenceThreshold, gas, oracle);
    if Priced(config.confidenceThreshold, gas, oracle) {
      SlotRoomExactly(rate, slot, gas, oracle.value);
    }
  }

  // ---- Deposits ----

  /** A revert recipient, something asked for, the native funds covered, and without
      a payload no value besides the funds. */
  predicate WellAsked(req: UniversalTxRequest, rest: u64) {
    && req.revertRecipient != DEFAULT_KEY
    && (req.amount > 0 || req.payload != [] || rest > 0)
    && (req.token == DEFAULT_KEY ==> req.amount <= rest)
    && (req.amount > 0 && req.payload == [] ==> rest == if req.token == DEFAULT_KEY then req.amount else 0)
  }

  lemma WellAskedExactly(req: UniversalTxRequest, rest: u64)
    ensures WellAsked(req, rest) <==> FetchTxType(req, rest).Ok? && req.revertRecipient != DEFAULT_KEY
  {
  }

  /** A token account of this owner and mint, with at least n. */
  predicate HoldsTokens(tokens: map<Pubkey, TokenAccount>, k: Option<Pubkey>, owner: Pubkey, mint: Pubkey, n: nat) {
    && k.Some? && k.value in tokens
    && tokens[k.value].owner == owner && tokens[k.value].mint == mint && n <= tokens[k.value].amount
  }

  predicate TokensProvided(e: Env, tokens: map<Pubkey, TokenAccount>, a: SendArgs) {
    && HoldsTokens(tokens, a.userToken, a.user, a.request.token, a.request.amount)
    && HoldsTokens(tokens, a.gatewayToken, e.vault, a.request.token, 0)
  }

  lemma FundsExactly(e: Env, tokens: map<Pubkey, TokenAccount>, limits: map<Pubkey, TokenLimit>, duration: u64,
                     a: SendArgs)
    requires a.limitMint in limits
    ensures FundsCheck(e, tokens, limits, duration, a).Ok?
       <==> (a.request.amount > 0 ==>
               && TokenRoom(limits[a.limitMint], a.request.token, a.request.amount, duration, a.clock.unixTimestamp)
               && (a.request.token != DEFAULT_KEY ==> TokensProvided(e, tokens, a)))
  {
    TokenRoomExactly(limits[a.limitMint], a.request.token, a.request.amount, duration, a.clock.unixTimestamp);
  }

  /** The user signs, names the price feed in force and a limit that exists, the
      gateway runs, and the user has the native value, which covers the fee. */
  predicate MayEnter(e: Env, w: World, a: SendArgs) {
    && !e.isPda(a.user) && a.priceUpdate == w.config.pythPriceFeed && a.limitMint in w.limits
    && !w.config.paused
    && w.protocolFee <= a.nativeAmount <= Balance(w.ledger, a.user)
  }

  ghost predicate DepositFits(e: Env, w: World, a: SendArgs)
    requires MayEnter(e, w, a)
  {
    var req, rest := a.request, a.nativeAmount - w.protocolFee;
    && WellAsked(req, rest)
    && (GasOf(w, a) > 0 ==> GasFits(w.config, w.rate, GasOf(w, a), a.oracle, a.clock.slot))
    && (req.amount > 0 ==>
          && TokenRoom(w.limits[a.limitMint], req.token, req.amount, w.rate.epochDuration, a.clock.unixTimestamp)
          && (req.token != DEFAULT_KEY ==> TokensProvided(e, w.ledger.tokens, a)))
  }

  /** When a deposit is accepted. */
  lemma DepositExactly(e: Env, w: World, a: SendArgs)
    ensures Send(e, w, a).Ok? <==> MayEnter(e, w, a) && DepositFits(e, w, a)
  {
    if MayEnter(e, w, a) {
      var rest := a.nativeAmount - w.protocolFee;
      WellAskedExactly(a.request, rest);
      FundsExactly(e, w.ledger.tokens, w.limits, w.rate.epochDuration, a);
      if WellAsked(a.request, rest) {
        GasFitsExactly(w.config, w.rate, GasOf(w, a), a.oracle, a.clock.slot);
      }
    }
  }

  // ---- Reverts and rescues ----

  /** The relayer signs and has the rent of the executed marker, the id is free and
      the gateway runs. */
  predicate MayRelay(e: Env, w: World, caller: Pubkey, id: Bytes32) {
    && !e.isPda(caller) && id !in w.executed && !w.config.paused
    && e.minimumBalance(EXECUTED_SUB_TX_LEN) <= Balance(w.ledger, e.executedAccount(id)) + Balance(w.ledger, caller)
  }

  /** An amount, and a recipient that a revert names twice. */
  predicate WellAddressed(p: PayoutArgs, kind: Kind) {
    && p.amount > 0 && p.recipient != DEFAULT_KEY
    && (kind.Reverting? ==> kind.instruction.revertRecipient == p.recipient)
  }

  /** The vault has the amount: in SOL, with no token account involved, or in a token
      account of its own, with one of the recipient's for the same mint. */
  predicate PayoutFunded(e: Env, l: Ledger, p: PayoutArgs) {
    if p.mint.None?
    then p.tokenVault.None? && p.recipientToken.None? && !p.tokenProgram && p.amount <= Balance(l, e.vault)
    else
      && p.mint.value != DEFAULT_KEY
      && HoldsTokens(l.tokens, p.tokenVault, e.vault, p.mint.value, p.amount)
      && HoldsTokens(l.tokens, p.recipientToken, p.recipient, p.mint.value, 0)
  }

  /** The fee vault has the gas fee above its minimum, with the amount if that is where it goes. */
  predicate ReliefFunded(e: Env, l: Ledger, p: PayoutArgs) {
    p.gasFee > 0 ==>
      e.minimumBalance(FEE_VAULT_LEN) + p.gasFee
      <= Balance(l, e.feeVault) + (if p.mint.None? && p.recipient == e.feeVault then p.amount else 0)
  }

  ghost predicate PayoutSigned(e: Env, w: World, p: PayoutArgs, kind: Kind) {
    SignedByTss(e, w.tss.ethAddress, SignedBytes(w.tss.chainId, PayoutMessage(p, kind)), p.messageHash, p.signature,
                p.recoveryId)
  }

  lemma RelayExactly(e: Env, w: World, p: PayoutArgs)
    ensures PayoutAccounts(e, w, p).Pass?
       <==> && MayRelay(e, w, p.caller, p.subTxId) && p.mint != Some(DEFAULT_KEY)
            && (p.tokenVault.Some? ==> p.tokenVault.value in w.ledger.tokens)
            && (p.recipientToken.Some? ==> p.recipientToken.value in w.ledger.tokens)
  {
  }

  lemma RequestExactly(e: Env, l: Ledger, p: PayoutArgs, kind: Kind)
    requires p.tokenVault.Some? ==> p.tokenVault.value in l.tokens
    requires p.recipientToken.Some? ==> p.recipientToken.value in l.tokens
    ensures PayoutRequest(e, l, p, kind).Pass? && (p.mint.Some? ==> p.mint.value != DEFAULT_KEY) && Paid(e, l, p).Ok?
       <==> WellAddressed(p, kind) && PayoutFunded(e, l, p)
  {
  }

  lemma ReliefExactly(e: Env, l: Ledger, p: PayoutArgs)
    requires ValidEnv(e) && PayoutFunded(e, l, p)
    ensures Paid(e, l, p).Ok?
    ensures Reimbursed(e, Paid(e, l, p).value, p.caller, p.gasFee).Ok? <==> ReliefFunded(e, l, p)
  {
    PaidLamports(e, l, p, e.feeVault);
  }

  /** The marker costs neither of the vaults anything. */
  lemma MarkerSparesVaults(e: Env, w: World, p: PayoutArgs)
    requires ValidEnv(e) && PayoutAccounts(e, w, p).Pass?
    ensures var l := PayoutMarked(e, w, p);
            && l.tokens == w.ledger.tokens
            && Balance(l, e.vault) == Balance(w.ledger, e.vault)
            && Balance(l, e.feeVault) == Balance(w.ledger, e.feeVault)
  {
    PayoutMarkedEffect(e, w, p);
  }

  /** When a revert or rescue is accepted. */
  lemma PayoutExactly(e: Env, w: World, p: PayoutArgs, kind: Kind)
    requires ValidEnv(e)
    ensures PayoutTx(e, w, p, kind).Ok?
       <==> && MayRelay(e, w, p.caller, p.subTxId) && WellAddressed(p, kind) && PayoutSigned(e, w, p, kind)
            && PayoutFunded(e, w.ledger, p) && ReliefFunded(e, w.ledger, p)
  {
    RelayExactly(e, w, p);
    if PayoutAccounts(e, w, p).Pass? {
      var l := PayoutMarked(e, w, p);
      MarkerSparesVaults(e, w, p);
      RequestExactly(e, l, p, kind);
      if PayoutFunded(e, l, p) {
        ReliefExactly(e, l, p);
      }
    }
  }

  // ---- Outbound calls ----

  /** A call that is complete for its asset and mode, and signed. */
  ghost predicate CallSigned(e: Env, w: World, a: FinalizeArgs) {
    && AccountPresence(a) && (if IsWithdraw(a) then WithdrawComplete(a) else ExecuteComplete(a))
    && SignedByTss(e, w.tss.ethAddress, SignedBytes(w.tss.chainId, FinalizeMessage(a)), a.messageHash, a.signature,
                   a.recoveryId)
  }

  /** The accounts passed along that must exist by themselves. */
  predicate AccountsExist(w: World, a: FinalizeArgs) {
    && (a.recipientAta.Some? ==> a.recipientAta.value in w.ledger.tokens)
    && (a.limitMint.Some? ==> a.limitMint.value in w.limits)
  }

  /** No account signs besides the relayer, and those marked writable are. */
  predicate AccountsAsMarked(a: FinalizeArgs)
    requires |a.writableFlags| == FlagBytes(|a.remaining|)
  {
    forall i :: 0 <= i < |a.remaining| ==>
      !a.remaining[i].isSigner && (MarkSet(a.writableFlags, i) ==> a.remaining[i].isWritable)
  }

  /** What the relayer has left once the executed marker is paid. */
  function Spare(e: Env, w: World, a: FinalizeArgs): int {
    Balance(w.ledger, a.caller) - MarkerRent(e, w, a.subTxId)
  }

  /** The vault's token account has the amount, and the CEA has its associated
      account or the relayer the rent to open it. */
  predicate TokensStaged(e: Env, w: World, a: FinalizeArgs)
    requires a.ceaAta.Some? && a.mint.Some?
  {
    var cea, mint, ata := e.cea(a.pushAccount), a.mint.value, a.ceaAta.value;
    && mint != DEFAULT_KEY && ata == e.ata(cea, mint)
    && HoldsTokens(w.ledger.tokens, a.vaultAta, e.vault, mint, a.amount)
    && (if ata in w.ledger.tokens then HoldsTokens(w.ledger.tokens, a.ceaAta, cea, mint, 0)
        else e.minimumBalance(TOKEN_ACCOUNT_LEN)
             <= Spare(e, w, a) + if ata == a.caller then Spare(e, w, a) else Balance(w.ledger, ata))
  }

  /** The vault has the gas fee, and the amount of the asset. */
  predicate StagingFunded(e: Env, w: World, a: FinalizeArgs)
    requires AccountPresence(a)
  {
    if a.mint.None? then a.amount + a.gasFee <= Balance(w.ledger, e.vault)
    else a.gasFee <= Balance(w.ledger, e.vault) && TokensStaged(e, w, a)
  }

  lemma FinalizeRelayExactly(e: Env, w: World, a: FinalizeArgs)
    ensures FinalizeAccounts(e, w, a).Pass?
       <==> && !e.isPda(a.caller) && a.subTxId !in w.executed && AccountsExist(w, a) && a.mint != Some(DEFAULT_KEY)
            && e.minimumBalance(EXECUTED_SUB_TX_LEN)
               <= Balance(w.ledger, e.executedAccount(a.subTxId)) + Balance(w.ledger, a.caller)
            && (a.vaultAta.Some? ==>
                  a.vaultAta.value in w.ledger.tokens && w.ledger.tokens[a.vaultAta.value].owner == e.vault)
  {
  }

  lemma CheckedExactly(e: Env, w: World, a: FinalizeArgs)
    ensures FinalizeChecked(e, w.config, w.tss, a).Pass?
       <==> !w.config.paused && CallSigned(e, w, a)
            && (!IsWithdraw(a) ==> AccountsAsMarked(a) && a.destinationExecutable)
  {
  }

  lemma TokensStagedExactly(e: Env, w: World, a: FinalizeArgs)
    requires ValidEnv(e) && AccountPresence(a) && a.mint.Some? && FinalizeAccounts(e, w, a).Pass?
    ensures TokenStageCheck(e, Marked(e, w, a), a).Pass? <==> TokensStaged(e, w, a)
  {
    MarkedEffect(e, w, a);
  }

  lemma StagingExactly(e: Env, w: World, a: FinalizeArgs)
    requires ValidEnv(e) && AccountPresence(a) && FinalizeAccounts(e, w, a).Pass?
    ensures StageCheck(e, Marked(e, w, a), a).Pass? <==> StagingFunded(e, w, a)
  {
    MarkedEffect(e, w, a);
    if a.mint.Some? {
      TokensStagedExactly(e, w, a);
      if TokenStageCheck(e, Marked(e, w, a), a).Pass? {
        OpenedLamports(e, Marked(e, w, a), a);
      }
    }
  }

  /** Tokens go to the recipient's associated account, whatever is passed when the
      recipient is the CEA itself. */
  predicate RecipientReady(e: Env, w: World, a: FinalizeArgs) {
    a.mint.None? || a.recipient == Some(e.cea(a.pushAccount))
    || (&& a.recipient.Some? && a.recipientAta == Some(e.ata(a.recipient.value, a.mint.value))
        && a.recipientAta.value in w.ledger.tokens && w.ledger.tokens[a.recipientAta.value].mint == a.mint.value)
  }

  /** What the CEA has of the asset before the call. */
  function CeaHas(e: Env, w: World, a: FinalizeArgs): nat {
    if a.mint.None? then Balance(w.ledger, e.cea(a.pushAccount))
    else if a.ceaAta.Some? && a.ceaAta.value in w.ledger.tokens then w.ledger.tokens[a.ceaAta.value].amount
    else 0
  }

  /** The data is an encoding of arguments for the same asset, with a revert
      recipient and an amount that the CEA has together with what it is sent, and
      the limit of the asset is passed and has room. */
  predicate SelfCallFits(e: Env, w: World, a: FinalizeArgs) {
    var args := ArgsIn(a.ixData);
    && a.ixData == EncodeUeaArgs(args) && |args.payload| < TWO_32
    && args.token == AssetOf(a.mint) && args.revertRecipient != DEFAULT_KEY
    && 0 < args.amount <= CeaHas(e, w, a) + a.amount
    && a.rateLimitConfig && a.limitMint.Some? && a.limitMint.value in w.limits
    && TokenRoom(w.limits[a.limitMint.value], args.token, args.amount, w.rate.epochDuration, a.clock.unixTimestamp)
  }

  lemma ArgumentsExactly(ixData: Bytes)
    ensures ParseUeaArgs(ixData).Ok?
       <==> ixData == EncodeUeaArgs(ArgsIn(ixData)) && |ArgsIn(ixData).payload| < TWO_32
  {
    if ParseUeaArgs(ixData).Ok? {
      ParsedIsEncoded(ixData);
    }
    if |ArgsIn(ixData).payload| < TWO_32 {
      ParseEncoded(ArgsIn(ixData));
    }
  }

  /** What is staged comes on top. */
  lemma StagedAtCea(e: Env, w: World, a: FinalizeArgs)
    requires ValidEnv(e) && Stageable(e, w, a)
    ensures !IsNative(a) ==> a.ceaAta.Some? && a.ceaAta.value in StagedLedger(e, w, a).tokens
    ensures CeaHeld(e, StagedLedger(e, w, a), a) == CeaHas(e, w, a) + a.amount
  {
    if IsNative(a) {
      StagedLamports(e, w, a, e.cea(a.pushAccount));
    } else {
      TokensAtCea(e, Marked(e, w, a), a);
      MarkedEffect(e, w, a);
    }
  }

  lemma TokensAtCea(e: Env, l: Ledger, a: FinalizeArgs)
    requires ValidEnv(e) && AccountPresence(a) && !IsNative(a) && a.vaultAta.value in l.tokens
    requires l.tokens[a.vaultAta.value].owner == e.vault && StageCheck(e, l, a).Pass?
    ensures var staged := Staged(e, l, a).tokens;
            && a.ceaAta.value in staged
            && staged[a.ceaAta.value].amount
               == a.amount + if a.ceaAta.value in l.tokens then l.tokens[a.ceaAta.value].amount else 0
  {
  }

  lemma SelfCallExactly(e: Env, w: World, staged: Ledger, a: FinalizeArgs)
    requires !IsNative(a) ==> a.ceaAta.Some? && a.ceaAta.value in staged.tokens
    requires a.limitMint.Some? ==> a.limitMint.value in w.limits
    requires CeaHeld(e, staged, a) == CeaHas(e, w, a) + a.amount
    ensures UeaCheck(e, w.limits, w.rate.epochDuration, staged, a).Ok? <==> SelfCallFits(e, w, a)
  {
    ArgumentsExactly(a.ixData);
    if a.limitMint.Some? {
      TokenRoomExactly(w.limits[a.limitMint.value], TokenOf(a), ArgsIn(a.ixData).amount, w.rate.epochDuration,
                       a.clock.unixTimestamp);
    }
  }

  /** What is left to decide once the amount can be staged. */
  ghost predicate ActionFits(e: Env, w: World, a: FinalizeArgs)
    requires Stageable(e, w, a)
  {
    if IsWithdraw(a) then RecipientReady(e, w, a)
    else if a.destinationProgram == e.programId then SelfCallFits(e, w, a)
    else CpiAdmitted(e, StagedLedger(e, w, a), a)
  }

  lemma WithdrawExactly(e: Env, w: World, a: FinalizeArgs)
    requires Stageable(e, w, a) && IsWithdraw(a)
    ensures WithdrawCheck(e, Marked(e, w, a), a).Pass? <==> RecipientReady(e, w, a)
  {
    MarkedEffect(e, w, a);
  }

  lemma ExecutionExactly(e: Env, w: World, a: FinalizeArgs)
    requires ValidEnv(e) && Stageable(e, w, a) && !IsWithdraw(a)
    ensures IsNative(a) || (a.ceaAta.Some? && a.ceaAta.value in StagedLedger(e, w, a).tokens && a.vaultAta.Some?
                            && a.vaultAta.value in StagedLedger(e, w, a).tokens)
    ensures ExecuteAction(e, w, StagedLedger(e, w, a), a).Ok? <==> ActionFits(e, w, a)
  {
    StagedAtCea(e, w, a);
    if !IsNative(a) {
      StagedAccounts(e, w, a);
    }
    if a.destinationProgram == e.programId {
      SelfCallExactly(e, w, StagedLedger(e, w, a), a);
    }
  }

  /** An outbound call up to the staging of its amount. */
  ghost predicate CallFits(e: Env, w: World, a: FinalizeArgs) {
    && MayRelay(e, w, a.caller, a.subTxId) && AccountsExist(w, a) && CallSigned(e, w, a)
    && (!IsWithdraw(a) ==> AccountsAsMarked(a) && a.destinationExecutable)
    && StagingFunded(e, w, a)
  }

  /** When an outbound call is accepted. */
  lemma CallExactly(e: Env, w: World, a: FinalizeArgs)
    requires ValidEnv(e)
    ensures CallFits(e, w, a) ==> Stageable(e, w, a)
    ensures FinalizeTx(e, w, a).Ok? <==> CallFits(e, w, a) && ActionFits(e, w, a)
  {
    FinalizeRelayExactly(e, w, a);
    CheckedExactly(e, w, a);
    if FinalizeAccounts(e, w, a).Pass? && FinalizeChecked(e, w.config, w.tss, a).Pass? {
      StagingExactly(e, w, a);
      MarkedEffect(e, w, a);
      if Stageable(e, w, a) {
        if IsWithdraw(a) {
          WithdrawExactly(e, w, a);
        } else {
          ExecutionExactly(e, w, a);
        }
      }
    }
  }
}
