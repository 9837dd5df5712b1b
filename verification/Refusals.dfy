/** Refusals tell the truth: whatever error a call ends with names a condition of
    the state and the arguments that does not hold. */
module Refusals {
  import opened Bytes
  import opened Results
  import opened Ledgers
  import opened Encoding
  import opened Pricing
  import opened RateLimit
  import opened UeaArguments
  import opened Messages
  import opened State
  import opened Deposit
  import opened Finalize
  import opened Payout
  import opened Admin
  import opened Runs
  import opened Effects
  import opened LimiterRuns
  import opened Settings
  import opened Admission

  // ---- Limiters ----

  ghost predicate GasBlame(config: Config, rate: RateConfig, gas: u64, oracle: Option<PriceData>, slot: u64, err: Error)
  {
    var usable := oracle.Some? && oracle.value.price > 0;
    match err
    case InvalidPrice =>
      !usable || 0 < config.confidenceThreshold < oracle.value.confidence
    case ArithmeticPanic => usable && !(-46 <= oracle.value.exponent <= 30)
    case InvalidAmount => usable && !Convertible(gas, oracle.value)
    case BelowMinCap => usable && ExactUsd(gas, oracle.value) < config.minCapUsd as real
    case AboveMaxCap => usable && ExactUsd(gas, oracle.value) >= config.maxCapUsd as real + 1.0
    case BlockUsdCapExceeded => usable && !SlotRoom(rate, slot, gas, oracle.value)
    case _ => false
  }

  lemma UsdBlame(lamports: u64, p: PriceData)
    requires p.price > 0 && CalculateUsdAmount(lamports, p).Err?
    ensures !Convertible(lamports, p)
    ensures CalculateUsdAmount(lamports, p) == Err(ArithmeticPanic) ==> !(-46 <= p.exponent <= 30)
    ensures CalculateUsdAmount(lamports, p) == Err(ArithmeticPanic)
            || CalculateUsdAmount(lamports, p) == Err(InvalidAmount)
  {
    UsdDefined(lamports, p);
  }

  lemma GasRefusal(config: Config, rate: RateConfig, gas: u64, oracle: Option<PriceData>, slot: u64)
    requires GasCheck(config, rate, gas, oracle, slot).Err?
    ensures gas > 0 && GasBlame(config, rate, gas, oracle, slot, GasCheck(config, rate, gas, oracle, slot).error)
  {
    CapsExactly(config.minCapUsd, config.maxCapUsd, config.confidenceThreshold, gas, oracle);
    if oracle.Some? && oracle.value.price > 0 {
      if CalculateUsdAmount(gas, oracle.value).Err? {
        UsdBlame(gas, oracle.value);
      } else {
        SlotRoomExactly(rate, slot, gas, oracle.value);
      }
    }
  }

  predicate LimitBlame(l: TokenLimit, token: Pubkey, amount: u64, duration: u64, now: i64, err: Error) {
    match err
    case InvalidToken => l.tokenMint != token
    case NotSupported => l.limitThreshold == 0
    case RateLimitExceeded =>
      duration > 0 && amount + (if EpochOf(now, duration) > l.epoch then 0 else l.used) > l.limitThreshold
    case _ => false
  }

  // ---- Deposits ----

  /** The account is missing, or not one of this owner, mint and amount. */
  predicate TokenBlame(tokens: map<Pubkey, TokenAccount>, k: Option<Pubkey>, owner: Pubkey, mint: Pubkey, n: nat,
                       err: Error) {
    match err
    case InvalidAccount => k.None? || k.value !in tokens
    case InvalidOwner => k.None? || k.value !in tokens || tokens[k.value].owner != owner
    case InvalidMint => k.Some? && k.value in tokens && tokens[k.value].mint != mint
    case TokenTransferFailed => k.Some? && k.value in tokens && tokens[k.value].amount < n
    case _ => false
  }

  predicate EntryBlame(e: Env, w: World, a: SendArgs, err: Error) {
    match err
    case MissingSignature => e.isPda(a.user)
    case InvalidAccount => a.priceUpdate != w.config.pythPriceFeed
    case AccountNotInitialized => a.limitMint !in w.limits
    case Paused => w.config.paused
    case InsufficientBalance => Balance(w.ledger, a.user) < a.nativeAmount
    case InsufficientProtocolFee => a.nativeAmount < w.protocolFee
    case _ => false
  }

  /** Nothing asked for, or not the native value that goes with it. */
  predicate ShapeBlame(req: UniversalTxRequest, rest: u64, err: Error) {
    match err
    case InvalidInput => req.amount == 0 && req.payload == [] && rest == 0
    case InvalidAmount =>
      req.amount > 0 && (rest < NativeFunds(req) || (req.payload == [] && rest != NativeFunds(req)))
    case InvalidRecipient => req.revertRecipient == DEFAULT_KEY
    case _ => false
  }

  predicate FundsBlame(e: Env, tokens: map<Pubkey, TokenAccount>, limits: map<Pubkey, TokenLimit>, duration: u64,
                       a: SendArgs, err: Error)
    requires a.limitMint in limits
  {
    var req := a.request;
    && req.amount > 0
    && (|| LimitBlame(limits[a.limitMint], req.token, req.amount, duration, a.clock.unixTimestamp, err)
        || (req.token != DEFAULT_KEY
            && (TokenBlame(tokens, a.userToken, a.user, req.token, req.amount, err)
                || TokenBlame(tokens, a.gatewayToken, e.vault, req.token, 0, err))))
  }

  lemma FundsRefusal(e: Env, tokens: map<Pubkey, TokenAccount>, limits: map<Pubkey, TokenLimit>, duration: u64,
                     a: SendArgs)
    requires a.limitMint in limits && FundsCheck(e, tokens, limits, duration, a).Err?
    ensures FundsBlame(e, tokens, limits, duration, a, FundsCheck(e, tokens, limits, duration, a).error)
  {
  }

  ghost predicate DepositBlame(e: Env, w: World, a: SendArgs, err: Error) {
    if !MayEnter(e, w, a) then EntryBlame(e, w, a, err)
    else
      var rest := a.nativeAmount - w.protocolFee;
      || ShapeBlame(a.request, rest, err)
      || (GasOf(w, a) > 0 && GasBlame(w.config, w.rate, GasOf(w, a), a.oracle, a.clock.slot, err))
      || FundsBlame(e, w.ledger.tokens, w.limits, w.rate.epochDuration, a, err)
  }

  lemma ShapeRefusal(req: UniversalTxRequest, rest: u64)
    ensures FetchTxType(req, rest).Err? ==> ShapeBlame(req, rest, FetchTxType(req, rest).error)
    ensures FetchTxType(req, rest).Ok? ==> NativeFunds(req) <= rest
  {
  }

  /** Why a deposit is refused. */
  lemma DepositRefusal(e: Env, w: World, a: SendArgs)
    requires Send(e, w, a).Err?
    ensures DepositBlame(e, w, a, Send(e, w, a).error)
  {
    if MayEnter(e, w, a) {
      var rest := a.nativeAmount - w.protocolFee;
      ShapeRefusal(a.request, rest);
      if FetchTxType(a.request, rest).Ok? && a.request.revertRecipient != DEFAULT_KEY {
        if GasCheck(w.config, w.rate, GasOf(w, a), a.oracle, a.clock.slot).Err? {
          GasRefusal(w.config, w.rate, GasOf(w, a), a.oracle, a.clock.slot);
        } else {
          FundsRefusal(e, w.ledger.tokens, w.limits, w.rate.epochDuration, a);
        }
      }
    }
  }

  // ---- Signatures ----

  ghost predicate SignatureBlame(e: Env, tss: Tss, bytes: Bytes, hash: Bytes32, signature: Bytes, recoveryId: byte,
                                 err: Error) {
    match err
    case MessageHashMismatch => e.keccak(bytes) != hash
    case TssAuthFailed =>
      e.keccak(bytes) == hash && !SignedByTss(e, tss.ethAddress, bytes, hash, signature, recoveryId)
    case _ => false
  }

  lemma SignatureRefusal(e: Env, tss: Tss, bytes: Bytes, hash: Bytes32, signature: Bytes, recoveryId: byte)
    requires VerifySignature(e, tss, bytes, hash, signature, recoveryId).Fail?
    ensures SignatureBlame(e, tss, bytes, hash, signature, recoveryId,
                           VerifySignature(e, tss, bytes, hash, signature, recoveryId).error)
  {
  }

  // ---- Reverts and rescues ----

  /** Not for this relayer, not for this id, not now, or not with these accounts. */
  predicate RelayBlame(e: Env, w: World, caller: Pubkey, id: Bytes32, err: Error) {
    match err
    case MissingSignature => e.isPda(caller)
    case AccountInUse => id in w.executed
    case InsufficientLamports =>
      Balance(w.ledger, e.executedAccount(id)) + Balance(w.ledger, caller) < e.minimumBalance(EXECUTED_SUB_TX_LEN)
    case Paused => w.config.paused
    case _ => false
  }

  /** A token account that is passed does not exist. */
  predicate Dangling(tokens: map<Pubkey, TokenAccount>, k: Option<Pubkey>) {
    k.Some? && k.value !in tokens
  }

  predicate PayoutAccountsBlame(e: Env, w: World, p: PayoutArgs, err: Error) {
    || RelayBlame(e, w, p.caller, p.subTxId, err)
    || (err == AccountNotInitialized
        && (p.mint == Some(DEFAULT_KEY) || Dangling(w.ledger.tokens, p.tokenVault)
            || Dangling(w.ledger.tokens, p.recipientToken)))
  }

  lemma PayoutAccountsRefusal(e: Env, w: World, p: PayoutArgs)
    requires PayoutAccounts(e, w, p).Fail?
    ensures PayoutAccountsBlame(e, w, p, PayoutAccounts(e, w, p).error)
  {
  }

  predicate PayoutRequestBlame(e: Env, l: Ledger, p: PayoutArgs, kind: Kind, err: Error)
    requires p.tokenVault.Some? ==> p.tokenVault.value in l.tokens
    requires p.recipientToken.Some? ==> p.recipientToken.value in l.tokens
  {
    var vaultIs := p.tokenVault.Some? && l.tokens[p.tokenVault.value].owner == e.vault;
    match err
    case InvalidAmount => p.amount == 0
    case InvalidRecipient =>
      || p.recipient == DEFAULT_KEY || (kind.Reverting? && kind.instruction.revertRecipient != p.recipient)
      || (p.mint.Some? && p.recipientToken.Some? && l.tokens[p.recipientToken.value].owner != p.recipient)
    case InvalidAccount =>
      if p.mint.None? then p.tokenVault.Some? || p.recipientToken.Some? || p.tokenProgram
      else !vaultIs || p.recipientToken.None?
    case InvalidMint =>
      && p.mint.Some? && p.tokenVault.Some? && p.recipientToken.Some?
      && (l.tokens[p.tokenVault.value].mint != p.mint.value || l.tokens[p.recipientToken.value].mint != p.mint.value)
    case _ => false
  }

  lemma PayoutRequestRefusal(e: Env, l: Ledger, p: PayoutArgs, kind: Kind)
    requires p.tokenVault.Some? ==> p.tokenVault.value in l.tokens
    requires p.recipientToken.Some? ==> p.recipientToken.value in l.tokens
    requires PayoutRequest(e, l, p, kind).Fail?
    ensures PayoutRequestBlame(e, l, p, kind, PayoutRequest(e, l, p, kind).error)
  {
  }

  predicate FundsMissing(e: Env, l: Ledger, p: PayoutArgs, err: Error) {
    match err
    case InsufficientLamports => p.mint.None? && Balance(l, e.vault) < p.amount
    case TokenTransferFailed =>
      p.mint.Some? && p.tokenVault.Some? && p.tokenVault.value in l.tokens
      && l.tokens[p.tokenVault.value].amount < p.amount
    case InsufficientFeePool => !ReliefFunded(e, l, p)
    case _ => false
  }

  lemma PaymentRefusal(e: Env, l: Ledger, p: PayoutArgs, kind: Kind)
    requires ValidEnv(e) && p.mint != Some(DEFAULT_KEY)
    requires p.tokenVault.Some? ==> p.tokenVault.value in l.tokens
    requires p.recipientToken.Some? ==> p.recipientToken.value in l.tokens
    requires PayoutRequest(e, l, p, kind).Pass? && PaidOut(e, l, p).Err?
    ensures FundsMissing(e, l, p, PaidOut(e, l, p).error)
  {
    RequestExactly(e, l, p, kind);
    if PayoutFunded(e, l, p) {
      ReliefExactly(e, l, p);
    }
  }

  ghost predicate PayoutBlame(e: Env, w: World, p: PayoutArgs, kind: Kind, err: Error) {
    || PayoutAccountsBlame(e, w, p, err)
    || (&& !Dangling(w.ledger.tokens, p.tokenVault) && !Dangling(w.ledger.tokens, p.recipientToken)
        && PayoutCallBlame(e, w, p, kind, err))
  }

  ghost predicate PayoutCallBlame(e: Env, w: World, p: PayoutArgs, kind: Kind, err: Error)
    requires !Dangling(w.ledger.tokens, p.tokenVault) && !Dangling(w.ledger.tokens, p.recipientToken)
  {
    || PayoutRequestBlame(e, w.ledger, p, kind, err)
    || SignatureBlame(e, w.tss, SignedBytes(w.tss.chainId, PayoutMessage(p, kind)), p.messageHash, p.signature,
                      p.recoveryId, err)
    || FundsMissing(e, w.ledger, p, err)
  }

  lemma CheckedRefusal(e: Env, l: Ledger, tss: Tss, p: PayoutArgs, kind: Kind)
    requires p.tokenVault.Some? ==> p.tokenVault.value in l.tokens
    requires p.recipientToken.Some? ==> p.recipientToken.value in l.tokens
    requires PayoutChecked(e, l, tss, p, kind).Fail?
    ensures var err := PayoutChecked(e, l, tss, p, kind).error;
            || PayoutRequestBlame(e, l, p, kind, err)
            || SignatureBlame(e, tss, SignedBytes(tss.chainId, PayoutMessage(p, kind)), p.messageHash, p.signature,
                              p.recoveryId, err)
  {
    if PayoutRequest(e, l, p, kind).Fail? {
      PayoutRequestRefusal(e, l, p, kind);
    } else {
      SignatureRefusal(e, tss, SignedBytes(tss.chainId, PayoutMessage(p, kind)), p.messageHash, p.signature,
                       p.recoveryId);
    }
  }

  /** What the marker leaves the vaults decides as it was. */
  lemma PayoutCallRefusal(e: Env, w: World, l: Ledger, p: PayoutArgs, kind: Kind)
    requires ValidEnv(e) && p.mint != Some(DEFAULT_KEY)
    requires !Dangling(l.tokens, p.tokenVault) && !Dangling(l.tokens, p.recipientToken)
    requires l.tokens == w.ledger.tokens && Balance(l, e.vault) == Balance(w.ledger, e.vault)
    requires Balance(l, e.feeVault) == Balance(w.ledger, e.feeVault)
    ensures PayoutChecked(e, l, w.tss, p, kind).Fail? ==>
              PayoutCallBlame(e, w, p, kind, PayoutChecked(e, l, w.tss, p, kind).error)
    ensures PayoutRequest(e, l, p, kind).Pass? && PaidOut(e, l, p).Err? ==>
              PayoutCallBlame(e, w, p, kind, PaidOut(e, l, p).error)
  {
    if PayoutChecked(e, l, w.tss, p, kind).Fail? {
      CheckedRefusal(e, l, w.tss, p, kind);
    }
    if PayoutRequest(e, l, p, kind).Pass? && PaidOut(e, l, p).Err? {
      PaymentRefusal(e, l, p, kind);
    }
  }

  /** Why a revert or rescue is refused. */
  lemma PayoutRefusal(e: Env, w: World, p: PayoutArgs, kind: Kind)
    requires ValidEnv(e) && PayoutTx(e, w, p, kind).Err?
    ensures PayoutBlame(e, w, p, kind, PayoutTx(e, w, p, kind).error)
  {
    if PayoutAccounts(e, w, p).Fail? {
      PayoutAccountsRefusal(e, w, p);
    } else {
      MarkerSparesVaults(e, w, p);
      PayoutCallRefusal(e, w, PayoutMarked(e, w, p), p, kind);
    }
  }

  // ---- Outbound calls ----

  predicate CallAccountsBlame(e: Env, w: World, a: FinalizeArgs, err: Error) {
    || RelayBlame(e, w, a.caller, a.subTxId, err)
    || (err == AccountNotInitialized
        && (a.mint == Some(DEFAULT_KEY) || Dangling(w.ledger.tokens, a.vaultAta)
            || Dangling(w.ledger.tokens, a.recipientAta) || (a.limitMint.Some? && a.limitMint.value !in w.limits)))
    || (err == TokenAuthorityConstraint
        && a.vaultAta.Some? && a.vaultAta.value in w.ledger.tokens
        && w.ledger.tokens[a.vaultAta.value].owner != e.vault)
  }

  lemma CallAccountsRefusal(e: Env, w: World, a: FinalizeArgs)
    requires FinalizeAccounts(e, w, a).Fail?
    ensures CallAccountsBlame(e, w, a, FinalizeAccounts(e, w, a).error)
  {
  }

  /** The request is not complete for its mode and asset. */
  predicate RequestBlame(a: FinalizeArgs, err: Error) {
    match err
    case InvalidInstruction => a.instructionId != 1 && a.instructionId != 2
    case InvalidAmount => a.instructionId == 1 && a.amount == 0
    case InvalidInput =>
      if a.instructionId == 1
      then a.pushAccount == ZERO_ADDRESS || a.writableFlags != [] || a.ixData != [] || a.remaining != []
      else a.recipientAta.Some?
    case InvalidAccount =>
      || !AccountPresence(a) || (a.instructionId == 1 <==> a.recipient.None?)
      || (a.instructionId == 1 && a.mint.Some? && a.recipientAta.None?)
      || (a.instructionId == 2 && |a.writableFlags| != (|a.remaining| + 7) / 8)
    case _ => false
  }

  lemma RequestRefusal(a: FinalizeArgs)
    requires ValidateFinalizeRequest(a).Err?
    ensures RequestBlame(a, ValidateFinalizeRequest(a).error)
  {
  }

  /** The accounts of an execution, the signature, or the program named. */
  ghost predicate AuthorityBlame(e: Env, w: World, a: FinalizeArgs, err: Error)
    requires !IsWithdraw(a) ==> |a.writableFlags| == FlagBytes(|a.remaining|)
  {
    || SignatureBlame(e, w.tss, SignedBytes(w.tss.chainId, FinalizeMessage(a)), a.messageHash, a.signature,
                      a.recoveryId, err)
    || (!IsWithdraw(a)
        && match err
           case AccountWritableFlagMismatch => !AccountsAsMarked(a)
           case UnexpectedOuterSigner => !AccountsAsMarked(a)
           case InvalidProgram => !a.destinationExecutable
           case _ => false)
  }

  ghost predicate CheckedBlame(e: Env, w: World, a: FinalizeArgs, err: Error) {
    || (err == Paused && w.config.paused)
    || RequestBlame(a, err)
    || ((!IsWithdraw(a) ==> |a.writableFlags| == FlagBytes(|a.remaining|)) && AuthorityBlame(e, w, a, err))
  }

  lemma MarksRefusal(a: FinalizeArgs)
    requires |a.writableFlags| == FlagBytes(|a.remaining|)
    ensures var r := ValidateRemainingAccounts(ReconstructAccountsFromFlags(a.remaining, a.writableFlags), a.remaining);
            r.Fail? ==> !AccountsAsMarked(a)
                        && (r.error == AccountWritableFlagMismatch || r.error == UnexpectedOuterSigner)
  {
  }

  lemma AuthorityRefusal(e: Env, w: World, a: FinalizeArgs)
    requires !IsWithdraw(a) ==> |a.writableFlags| == FlagBytes(|a.remaining|)
    requires FinalizeAuthority(e, w.tss, a).Fail?
    ensures AuthorityBlame(e, w, a, FinalizeAuthority(e, w.tss, a).error)
  {
    var bytes := SignedBytes(w.tss.chainId, FinalizeMessage(a));
    if VerifySignature(e, w.tss, bytes, a.messageHash, a.signature, a.recoveryId).Fail? {
      SignatureRefusal(e, w.tss, bytes, a.messageHash, a.signature, a.recoveryId);
    }
    if !IsWithdraw(a) {
      MarksRefusal(a);
    }
  }

  lemma CallCheckedRefusal(e: Env, w: World, a: FinalizeArgs)
    requires FinalizeChecked(e, w.config, w.tss, a).Fail?
    ensures CheckedBlame(e, w, a, FinalizeChecked(e, w.config, w.tss, a).error)
  {
    if ValidateFinalizeRequest(a).Err? {
      RequestRefusal(a);
    } else if !w.config.paused {
      AuthorityRefusal(e, w, a);
    }
  }

  /** The vault lacks the amount or the gas fee, or the token accounts are not what they should be. */
  predicate StagingBlame(e: Env, w: World, a: FinalizeArgs, err: Error)
    requires AccountPresence(a)
  {
    var tokens, cea := w.ledger.tokens, e.cea(a.pushAccount);
    match err
    case InsufficientLamports => !StagingFunded(e, w, a)
    case InvalidMint =>
      a.mint.Some? && (TokenBlame(tokens, a.vaultAta, e.vault, a.mint.value, 0, err)
                       || TokenBlame(tokens, a.ceaAta, cea, a.mint.value, 0, err))
    case InvalidOwner => a.mint.Some? && TokenBlame(tokens, a.ceaAta, cea, a.mint.value, 0, err)
    case InvalidAccount => a.mint.Some? && a.ceaAta != Some(e.ata(cea, a.mint.value))
    case TokenTransferFailed => a.mint.Some? && TokenBlame(tokens, a.vaultAta, e.vault, a.mint.value, a.amount, err)
    case _ => false
  }

  lemma TokenStagingRefusal(e: Env, w: World, l: Ledger, a: FinalizeArgs)
    requires AccountPresence(a) && a.mint.Some? && l.tokens == w.ledger.tokens && a.vaultAta.value in l.tokens
    requires TokenStageCheck(e, l, a).Fail?
    ensures var err := TokenStageCheck(e, l, a).error;
            err != InsufficientLamports ==> StagingBlame(e, w, a, err)
  {
  }

  lemma StagingRefusal(e: Env, w: World, a: FinalizeArgs)
    requires ValidEnv(e) && AccountPresence(a) && FinalizeAccounts(e, w, a).Pass?
    requires StageCheck(e, Marked(e, w, a), a).Fail?
    ensures StagingBlame(e, w, a, StageCheck(e, Marked(e, w, a), a).error)
  {
    StagingExactly(e, w, a);
    MarkedEffect(e, w, a);
    if a.mint.Some? && TokenStageCheck(e, Marked(e, w, a), a).Fail? {
      TokenStagingRefusal(e, w, Marked(e, w, a), a);
    }
  }

  predicate WithdrawBlame(e: Env, w: World, a: FinalizeArgs, err: Error) {
    match err
    case InvalidAccount =>
      a.mint.Some? && (a.recipient.None? || a.recipientAta != Some(e.ata(a.recipient.value, a.mint.value)))
    case TokenTransferFailed =>
      a.mint.Some? && a.recipientAta.Some? && a.recipientAta.value in w.ledger.tokens
      && w.ledger.tokens[a.recipientAta.value].mint != a.mint.value
    case _ => false
  }

  lemma WithdrawRefusal(e: Env, w: World, a: FinalizeArgs)
    requires Stageable(e, w, a) && IsWithdraw(a) && WithdrawCheck(e, Marked(e, w, a), a).Fail?
    ensures WithdrawBlame(e, w, a, WithdrawCheck(e, Marked(e, w, a), a).error)
  {
    MarkedEffect(e, w, a);
  }

  predicate SelfCallBlame(e: Env, w: World, a: FinalizeArgs, err: Error) {
    var args := ArgsIn(a.ixData);
    match err
    case InvalidInput => ParseUeaArgs(a.ixData).Err?
    case InvalidMint => args.token != AssetOf(a.mint)
    case InvalidAmount => args.amount == 0
    case InvalidRecipient => args.revertRecipient == DEFAULT_KEY
    case InsufficientBalance => CeaHas(e, w, a) + a.amount < args.amount
    case InvalidAccount => !a.rateLimitConfig || a.limitMint.None?
    case _ =>
      a.limitMint.Some? && a.limitMint.value in w.limits
      && LimitBlame(w.limits[a.limitMint.value], AssetOf(a.mint), args.amount, w.rate.epochDuration,
                    a.clock.unixTimestamp, err)
  }

  lemma SelfCallRefusal(e: Env, w: World, staged: Ledger, a: FinalizeArgs)
    requires !IsNative(a) ==> a.ceaAta.Some? && a.ceaAta.value in staged.tokens
    requires a.limitMint.Some? ==> a.limitMint.value in w.limits
    requires CeaHeld(e, staged, a) == CeaHas(e, w, a) + a.amount
    requires UeaCheck(e, w.limits, w.rate.epochDuration, staged, a).Err?
    ensures SelfCallBlame(e, w, a, UeaCheck(e, w.limits, w.rate.epochDuration, staged, a).error)
  {
  }

  ghost predicate ActionBlame(e: Env, w: World, a: FinalizeArgs, err: Error) {
    if IsWithdraw(a) then WithdrawBlame(e, w, a, err)
    else if a.destinationProgram == e.programId then SelfCallBlame(e, w, a, err)
    else err == CpiFailed && (Stageable(e, w, a) ==> !CpiAdmitted(e, StagedLedger(e, w, a), a))
  }

  lemma ExecutionRefusal(e: Env, w: World, a: FinalizeArgs)
    requires ValidEnv(e) && Stageable(e, w, a) && !IsWithdraw(a)
    ensures IsNative(a) || (a.ceaAta.Some? && a.ceaAta.value in StagedLedger(e, w, a).tokens && a.vaultAta.Some?
                            && a.vaultAta.value in StagedLedger(e, w, a).tokens)
    ensures var r := ExecuteAction(e, w, StagedLedger(e, w, a), a);
            r.Err? ==> ActionBlame(e, w, a, r.error)
  {
    ExecutionExactly(e, w, a);
    if a.destinationProgram == e.programId {
      StagedAtCea(e, w, a);
      if UeaCheck(e, w.limits, w.rate.epochDuration, StagedLedger(e, w, a), a).Err? {
        SelfCallRefusal(e, w, StagedLedger(e, w, a), a);
      }
    }
  }

  lemma StagedRefusal(e: Env, w: World, a: FinalizeArgs)
    requires ValidEnv(e) && FinalizeAccounts(e, w, a).Pass? && ValidateFinalizeRequest(a).Ok?
    ensures var r := StageCheck(e, Marked(e, w, a), a); r.Fail? ==> StagingBlame(e, w, a, r.error)
    ensures StageCheck(e, Marked(e, w, a), a).Pass? ==>
              var r := if IsWithdraw(a) then WithdrawAction(e, w, Marked(e, w, a), a)
                       else ExecuteAction(e, w, Staged(e, Marked(e, w, a), a), a);
              r.Err? ==> ActionBlame(e, w, a, r.error)
  {
    if StageCheck(e, Marked(e, w, a), a).Fail? {
      StagingRefusal(e, w, a);
    } else if IsWithdraw(a) {
      if WithdrawCheck(e, Marked(e, w, a), a).Fail? {
        WithdrawRefusal(e, w, a);
      }
    } else {
      ExecutionRefusal(e, w, a);
    }
  }

  ghost predicate CallBlame(e: Env, w: World, a: FinalizeArgs, err: Error) {
    || CallAccountsBlame(e, w, a, err)
    || CheckedBlame(e, w, a, err)
    || (AccountPresence(a) && (StagingBlame(e, w, a, err) || ActionBlame(e, w, a, err)))
  }

  /** Why an outbound call is refused. */
  lemma CallRefusal(e: Env, w: World, a: FinalizeArgs)
    requires ValidEnv(e) && FinalizeTx(e, w, a).Err?
    ensures CallBlame(e, w, a, FinalizeTx(e, w, a).error)
  {
    if FinalizeAccounts(e, w, a).Fail? {
      CallAccountsRefusal(e, w, a);
    } else if FinalizeChecked(e, w.config, w.tss, a).Fail? {
      CallCheckedRefusal(e, w, a);
    } else {
      StagedRefusal(e, w, a);
    }
  }

  // ---- Setters ----

  predicate SetterBlame(e: Env, w: World, a: AdminArgs, err: Error) {
    match err
    case MissingSignature => e.isPda(a.signer)
    case InsufficientLamports => Balance(w.ledger, a.signer) < LimitRent(e, w, a.op)
    case Paused => w.config.paused && !WorksPaused(a.op)
    case Unauthorized => a.signer != w.config.admin && !(AboutPause(a.op) && a.signer == w.config.pauser)
    case InvalidCapRange => a.op.SetCapsUsd? && a.op.minCap > a.op.maxCap
    case ZeroAddress =>
      if a.op.SetAuthorities? then a.op.newAdmin == Some(DEFAULT_KEY) || a.op.newPauser == Some(DEFAULT_KEY)
      else a.op == SetPythPriceFeed(DEFAULT_KEY)
    case InvalidAmount => a.op == SetPythConfidenceThreshold(0)
    case InvalidInput =>
      if a.op.SetAuthorities? then a.op.newAdmin.None? && a.op.newPauser.None?
      else a.op.UpdateTss? && !(1 <= |a.op.chainId| <= 64)
    case _ => false
  }

  /** Why a setter is refused. */
  lemma SetterRefusal(e: Env, w: World, a: AdminArgs)
    requires AdminTx(e, w, a).Err?
    ensures SetterBlame(e, w, a, AdminTx(e, w, a).error)
  {
  }

  // ---- Any step ----

  ghost predicate Blame(e: Env, w: World, act: Action, err: Error) {
    match act
    case SendUniversalTx(a) => DepositBlame(e, w, a, err)
    case FinalizeUniversalTx(a) => CallBlame(e, w, a, err)
    case RevertTx(p, instruction) => PayoutBlame(e, w, p, Reverting(instruction), err)
    case RescueFunds(p) => PayoutBlame(e, w, p, Rescuing, err)
    case AdminAction(a) => SetterBlame(e, w, a, err)
    case External(ledger, _) => err == CpiFailed && !Shielded(e, w.ledger, ledger, None)
  }

  /** Every refusal names a condition that does not hold. */
  lemma RefusalIsTrue(e: Env, w: World, act: Action)
    requires ValidEnv(e) && Step(e, w, act).Err?
    ensures Blame(e, w, act, Step(e, w, act).error)
  {
    match act
    case SendUniversalTx(a) => DepositRefusal(e, w, a);
    case FinalizeUniversalTx(a) => CallRefusal(e, w, a);
    case RevertTx(p, instruction) => PayoutRefusal(e, w, p, Reverting(instruction));
    case RescueFunds(p) => PayoutRefusal(e, w, p, Rescuing);
    case AdminAction(a) => SetterRefusal(e, w, a);
    case External(_, _) =>
  }
}
