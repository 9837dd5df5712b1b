/** What `finalize_universal_tx` accepts and what it changes (instructions/execute.rs
    and instructions/withdraw.rs), stated for the call as a whole. */
module Finalize {
  import opened Bytes
  import opened Results
  import opened Ledgers
  import opened RateLimit
  import opened Encoding
  import opened Messages
  import opened UeaArguments
  import opened State

  /** How the target program's call ends: with an error, or with these balances. */
  datatype CpiResult = CpiError | CpiReturned(ledger: Ledger)

  datatype FinalizeArgs = FinalizeArgs(
    caller: Pubkey,
    instructionId: byte,
    subTxId: Bytes32,
    universalTxId: Bytes32,
    amount: u64,
    pushAccount: Bytes20,
    writableFlags: Bytes,
    ixData: Bytes,
    gasFee: u64,
    signature: Bytes,
    recoveryId: byte,
    messageHash: Bytes32,
    destinationProgram: Pubkey,
    destinationExecutable: bool,
    recipient: Option<Pubkey>,
    vaultAta: Option<Pubkey>,
    ceaAta: Option<Pubkey>,
    mint: Option<Pubkey>,
    tokenProgram: bool,
    rentSysvar: bool,
    ataProgram: bool,
    recipientAta: Option<Pubkey>,
    rateLimitConfig: bool,
    limitMint: Option<Pubkey>,
    remaining: seq<AccountInfo>,
    cpi: CpiResult,
    clock: Clock)

  datatype FinalizeRequest = FinalizeRequest(isWithdraw: bool, isNative: bool, token: Pubkey, target: Pubkey)

  // ---- Validation (only computes) ----

  predicate IsWithdraw(a: FinalizeArgs) {
    a.instructionId == 1
  }

  predicate IsNative(a: FinalizeArgs) {
    a.mint.None?
  }

  function TokenOf(a: FinalizeArgs): Pubkey {
    if a.mint.Some? then a.mint.value else DEFAULT_KEY
  }

  /** The recipient of a withdrawal, or the program an execute call names. */
  function TargetOf(a: FinalizeArgs): Pubkey {
    if IsWithdraw(a) && a.recipient.Some? then a.recipient.value else a.destinationProgram
  }

  /** SOL takes none of the token accounts, a token takes them all. */
  predicate AccountPresence(a: FinalizeArgs) {
    if IsNative(a)
    then a.vaultAta.None? && a.ceaAta.None? && a.mint.None? && !a.tokenProgram && !a.rentSysvar && !a.ataProgram
    else a.vaultAta.Some? && a.ceaAta.Some? && a.mint.Some? && a.tokenProgram && a.rentSysvar && a.ataProgram
  }

  /** A withdrawal names a recipient and a Push account, carries an amount and nothing
      that belongs to an execution. */
  predicate WithdrawComplete(a: FinalizeArgs) {
    && a.recipient.Some? && a.amount > 0 && a.pushAccount != ZERO_ADDRESS
    && a.writableFlags == [] && a.ixData == [] && a.remaining == []
    && (!IsNative(a) ==> a.recipientAta.Some?)
  }

  /** An execution names no recipient, and has one flag for each account. */
  predicate ExecuteComplete(a: FinalizeArgs) {
    a.instructionId == 2 && a.recipient.None? && a.recipientAta.None? && |a.writableFlags| == FlagBytes(|a.remaining|)
  }

  /** A request is accepted iff it is complete for its mode and asset, and is then
      what its arguments say. */
  function ValidateFinalizeRequest(a: FinalizeArgs): (r: Result<FinalizeRequest>)
    ensures r.Ok? <==> AccountPresence(a) && (if IsWithdraw(a) then WithdrawComplete(a) else ExecuteComplete(a))
    ensures r.Ok? ==> r.value == FinalizeRequest(IsWithdraw(a), IsNative(a), TokenOf(a), TargetOf(a))
  {
    if a.instructionId != 1 && a.instructionId != 2 then Err(InvalidInstruction)
    else
      var isWithdraw := a.instructionId == 1;
      var isNative := a.mint.None?;
      var token := if a.mint.Some? then a.mint.value else DEFAULT_KEY;
      if !AccountPresence(a) then Err(InvalidAccount)
      else if isWithdraw then
        if a.recipient.None? then Err(InvalidAccount)
        else if a.amount == 0 then Err(InvalidAmount)
        else if a.pushAccount == ZERO_ADDRESS then Err(InvalidInput)
        else if a.writableFlags != [] then Err(InvalidInput)
        else if a.ixData != [] then Err(InvalidInput)
        else if !isNative && a.recipientAta.None? then Err(InvalidAccount)
        else if a.remaining != [] then Err(InvalidInput)
        else Ok(FinalizeRequest(true, isNative, token, a.recipient.value))
      else
        if a.recipient.Some? then Err(InvalidAccount)
        else if a.recipientAta.Some? then Err(InvalidInput)
        else if |a.writableFlags| != FlagBytes(|a.remaining|) then Err(InvalidAccount)
        else Ok(FinalizeRequest(false, isNative, token, a.destinationProgram))
  }

  /** The message the TSS must have signed for this call. */
  function FinalizeMessage(a: FinalizeArgs): Message
    requires !IsWithdraw(a) ==> |a.writableFlags| == FlagBytes(|a.remaining|)
  {
    if IsWithdraw(a)
    then Withdraw(a.subTxId, a.universalTxId, a.pushAccount, TokenOf(a), a.gasFee, TargetOf(a), a.amount)
    else Execute(a.subTxId, a.universalTxId, a.pushAccount, TokenOf(a), a.gasFee, TargetOf(a), a.amount,
                 ReconstructAccountsFromFlags(a.remaining, a.writableFlags), a.ixData)
  }

  /** The checks of the account list, made before the handler runs; the executed
      marker is created among them, at the caller's cost. */
  function FinalizeAccounts(e: Env, w: World, a: FinalizeArgs): Status {
    var marker := e.executedAccount(a.subTxId);
    if e.isPda(a.caller) then Fail(MissingSignature)
    else if a.subTxId in w.executed then Fail(AccountInUse)
    else if Balance(w.ledger, a.caller) < RentDue(w.ledger, marker, e.minimumBalance(EXECUTED_SUB_TX_LEN))
    then Fail(InsufficientLamports)
    else if a.vaultAta.Some? && a.vaultAta.value !in w.ledger.tokens then Fail(AccountNotInitialized)
    else if a.mint == Some(DEFAULT_KEY) then Fail(AccountNotInitialized)
    else if a.recipientAta.Some? && a.recipientAta.value !in w.ledger.tokens then Fail(AccountNotInitialized)
    else if a.limitMint.Some? && a.limitMint.value !in w.limits then Fail(AccountNotInitialized)
    else if a.vaultAta.Some? && w.ledger.tokens[a.vaultAta.value].owner != e.vault then Fail(TokenAuthorityConstraint)
    else Pass
  }

  /** The signature and, for an execute call, the accounts it covers. */
  ghost function FinalizeAuthority(e: Env, tss: Tss, a: FinalizeArgs): Status
    requires !IsWithdraw(a) ==> |a.writableFlags| == FlagBytes(|a.remaining|)
  {
    var message := SignedBytes(tss.chainId, FinalizeMessage(a));
    var signed := VerifySignature(e, tss, message, a.messageHash, a.signature, a.recoveryId);
    if IsWithdraw(a) then signed
    else
      First(ValidateRemainingAccounts(ReconstructAccountsFromFlags(a.remaining, a.writableFlags), a.remaining),
            First(signed, Require(a.destinationExecutable, InvalidProgram)))
  }

  // ---- Staging ----

  /** The ledger once the executed marker exists. */
  function Marked(e: Env, w: World, a: FinalizeArgs): Ledger
    requires FinalizeAccounts(e, w, a).Pass?
  {
    PayRent(w.ledger, a.caller, e.executedAccount(a.subTxId), e.minimumBalance(EXECUTED_SUB_TX_LEN))
  }

  /** The ledger once the CEA has a token account for the mint, opened at the caller's cost. */
  function Opened(e: Env, l: Ledger, a: FinalizeArgs): Ledger
    requires a.ceaAta.Some? && a.mint.Some?
    requires a.ceaAta.value in l.tokens
          || RentDue(l, a.ceaAta.value, e.minimumBalance(TOKEN_ACCOUNT_LEN)) <= Balance(l, a.caller)
  {
    if a.ceaAta.value in l.tokens then l
    else
      var paid := PayRent(l, a.caller, a.ceaAta.value, e.minimumBalance(TOKEN_ACCOUNT_LEN));
      paid.(tokens := paid.tokens[a.ceaAta.value := TokenAccount(a.mint.value, e.cea(a.pushAccount), 0)])
  }

  /** Whether the vault's tokens can go to the CEA's associated account. */
  function TokenStageCheck(e: Env, l: Ledger, a: FinalizeArgs): Status
    requires a.vaultAta.Some? && a.ceaAta.Some? && a.mint.Some? && a.vaultAta.value in l.tokens
  {
    var vaultAta, ceaAta, mint := a.vaultAta.value, a.ceaAta.value, a.mint.value;
    if l.tokens[vaultAta].mint != mint then Fail(InvalidMint)
    else if ceaAta != e.ata(e.cea(a.pushAccount), mint) then Fail(InvalidAccount)
    else if ceaAta !in l.tokens && Balance(l, a.caller) < RentDue(l, ceaAta, e.minimumBalance(TOKEN_ACCOUNT_LEN))
    then Fail(InsufficientLamports)
    else if ceaAta in l.tokens && l.tokens[ceaAta].mint != mint then Fail(InvalidMint)
    else if ceaAta in l.tokens && l.tokens[ceaAta].owner != e.cea(a.pushAccount) then Fail(InvalidOwner)
    else if l.tokens[vaultAta].amount < a.amount then Fail(TokenTransferFailed)
    else Pass
  }

  /** Whether the vault can release the amount to the CEA and the gas fee to the caller. */
  function StageCheck(e: Env, l: Ledger, a: FinalizeArgs): Status
    requires AccountPresence(a)
    requires a.vaultAta.Some? ==> a.vaultAta.value in l.tokens
  {
    if IsNative(a) then Require(Balance(l, e.vault) >= a.amount + a.gasFee, InsufficientLamports)
    else if TokenStageCheck(e, l, a).Fail? then TokenStageCheck(e, l, a)
    else Require(Balance(Opened(e, l, a), e.vault) >= a.gasFee, InsufficientLamports)
  }

  /** The vault releases the amount to `dst`, a wallet or for tokens a token
      account, and the gas fee to the caller. */
  function Released(e: Env, l: Ledger, a: FinalizeArgs, dst: Pubkey): Ledger
    requires AccountPresence(a)
    requires a.vaultAta.Some? ==> a.vaultAta.value in l.tokens
    requires StageCheck(e, l, a).Pass?
    requires !IsNative(a) ==> dst in Opened(e, l, a).tokens
  {
    if IsNative(a) then Move(Move(l, e.vault, dst, a.amount), e.vault, a.caller, a.gasFee)
    else Move(MoveTokens(Opened(e, l, a), a.vaultAta.value, dst, a.amount), e.vault, a.caller, a.gasFee)
  }

  // ---- Withdraw ----

  /** Where a withdrawal ends up. The token account of a recipient that is the CEA
      itself is the CEA's own, whatever account was passed. */
  function WithdrawDestination(e: Env, a: FinalizeArgs): Pubkey
    requires !IsNative(a) ==> a.ceaAta.Some? && a.recipientAta.Some?
  {
    if IsNative(a) then TargetOf(a)
    else if TargetOf(a) == e.cea(a.pushAccount) then a.ceaAta.value
    else a.recipientAta.value
  }

  function WithdrawCheck(e: Env, l: Ledger, a: FinalizeArgs): Status
    requires !IsNative(a) ==> a.mint.Some? && a.recipientAta.Some? && a.recipientAta.value in l.tokens
  {
    if IsNative(a) || TargetOf(a) == e.cea(a.pushAccount) then Pass
    else if a.recipientAta.value != e.ata(TargetOf(a), a.mint.value) then Fail(InvalidAccount)
    else if l.tokens[a.recipientAta.value].mint != a.mint.value then Fail(TokenTransferFailed)
    else Pass
  }

  // ---- CEA to UEA ----

  /** What the CEA has of the asset: lamports, or its token account's amount. */
  function CeaHeld(e: Env, staged: Ledger, a: FinalizeArgs): nat
    requires !IsNative(a) ==> a.ceaAta.Some? && a.ceaAta.value in staged.tokens
  {
    if IsNative(a) then Balance(staged, e.cea(a.pushAccount)) else staged.tokens[a.ceaAta.value].amount
  }

  /** The arguments of a self-call, if its data parses. */
  function UeaArgsOf(a: FinalizeArgs): UeaArgs {
    ArgsIn(a.ixData)
  }

  /** The arguments of a self-call that the CEA can honour. `staged` is the ledger
      with the amount at the CEA. */
  function UeaRequest(e: Env, staged: Ledger, a: FinalizeArgs): (r: Result<UeaArgs>)
    requires !IsNative(a) ==> a.ceaAta.Some? && a.ceaAta.value in staged.tokens
    ensures r.Ok? ==> ParseUeaArgs(a.ixData) == r && r.value == UeaArgsOf(a)
    ensures r.Ok? ==> r.value.token == TokenOf(a) && 0 < r.value.amount <= CeaHeld(e, staged, a)
  {
    var args := UeaArgsOf(a);
    if ParseUeaArgs(a.ixData).Err? then Err(ParseUeaArgs(a.ixData).error)
    else if args.token != TokenOf(a) then Err(InvalidMint)
    else if args.amount == 0 then Err(InvalidAmount)
    else if args.revertRecipient == DEFAULT_KEY then Err(InvalidRecipient)
    else if CeaHeld(e, staged, a) < args.amount then Err(InsufficientBalance)
    else Ok(args)
  }

  /** The token limit after a self-call, once every check has passed. */
  function UeaCheck(e: Env, limits: map<Pubkey, TokenLimit>, duration: u64, staged: Ledger,
                    a: FinalizeArgs): (r: Result<TokenLimit>)
    requires !IsNative(a) ==> a.ceaAta.Some? && a.ceaAta.value in staged.tokens
    requires a.limitMint.Some? ==> a.limitMint.value in limits
    ensures r.Ok? ==> a.limitMint.Some? && UeaRequest(e, staged, a).Ok?
  {
    match UeaRequest(e, staged, a)
    case Err(err) => Err(err)
    case Ok(args) =>
      if !a.rateLimitConfig || a.limitMint.None? then Err(InvalidAccount)
      else ValidateAndConsume(limits[a.limitMint.value], TokenOf(a), args.amount, duration, a.clock.unixTimestamp)
  }

  /** The CEA pays the amount back to the vault. */
  function Returned(e: Env, staged: Ledger, a: FinalizeArgs, n: nat): Ledger
    requires !IsNative(a) ==> a.ceaAta.Some? && a.ceaAta.value in staged.tokens
    requires n <= CeaHeld(e, staged, a)
    requires !IsNative(a) ==> a.vaultAta.Some? && a.vaultAta.value in staged.tokens
  {
    if IsNative(a) then Move(staged, e.cea(a.pushAccount), e.vault, n)
    else MoveTokens(staged, a.ceaAta.value, a.vaultAta.value, n)
  }

  function UeaEvent(e: Env, a: FinalizeArgs): Event {
    var args := UeaArgsOf(a);
    UniversalTx(e.cea(a.pushAccount), a.pushAccount, TokenOf(a), args.amount, args.payload, args.revertRecipient,
                if args.payload == [] then Funds else FundsAndPayload, [], true)
  }

  function FinalizedEvent(a: FinalizeArgs): Event {
    UniversalTxFinalized(a.subTxId, a.universalTxId, a.gasFee, a.pushAccount, TargetOf(a), TokenOf(a), a.amount,
                         a.ixData)
  }

  // ---- The call ----

  /** What the target program may do with the staged balances: the CEA signs, and lamports are conserved. */
  ghost predicate CpiAdmitted(e: Env, staged: Ledger, a: FinalizeArgs) {
    && a.cpi.CpiReturned?
    && Shielded(e, staged, a.cpi.ledger, Some(e.cea(a.pushAccount)))
    && TotalLamports(a.cpi.ledger) == TotalLamports(staged)
  }

  /** Execute mode, from the staged ledger on. */
  ghost function ExecuteAction(e: Env, w: World, staged: Ledger, a: FinalizeArgs): Result<Outcome>
    requires IsNative(a) || (a.ceaAta.Some? && a.ceaAta.value in staged.tokens && a.vaultAta.Some?
                             && a.vaultAta.value in staged.tokens)
    requires a.limitMint.Some? ==> a.limitMint.value in w.limits
  {
    var done := w.(executed := w.executed + {a.subTxId});
    if TargetOf(a) == e.programId then
      match UeaCheck(e, w.limits, w.rate.epochDuration, staged, a)
      case Err(err) => Err(err)
      case Ok(limit) =>
        Ok(Outcome(done.(ledger := Returned(e, staged, a, UeaArgsOf(a).amount),
                         limits := w.limits[a.limitMint.value := limit]),
                   [Entry(a.clock, UeaEvent(e, a)), Entry(a.clock, FinalizedEvent(a))]))
    else if CpiAdmitted(e, staged, a) then
      Ok(Outcome(done.(ledger := a.cpi.ledger), [Entry(a.clock, FinalizedEvent(a))]))
    else Err(CpiFailed)
  }

  ghost function WithdrawAction(e: Env, w: World, marked: Ledger, a: FinalizeArgs): Result<Outcome>
    requires AccountPresence(a)
    requires !IsNative(a) ==> a.recipientAta.Some? && a.recipientAta.value in marked.tokens
    requires a.vaultAta.Some? ==> a.vaultAta.value in marked.tokens
    requires StageCheck(e, marked, a).Pass?
  {
    if WithdrawCheck(e, marked, a).Fail? then Err(WithdrawCheck(e, marked, a).error)
    else
      Ok(Outcome(w.(ledger := Released(e, marked, a, WithdrawDestination(e, a)), executed := w.executed + {a.subTxId}),
                 [Entry(a.clock, FinalizedEvent(a))]))
  }

  /** The ledger an execute call hands on: the amount at the CEA. */
  function Staged(e: Env, marked: Ledger, a: FinalizeArgs): Ledger
    requires AccountPresence(a)
    requires a.vaultAta.Some? ==> a.vaultAta.value in marked.tokens
    requires StageCheck(e, marked, a).Pass?
  {
    Released(e, marked, a, if IsNative(a) then e.cea(a.pushAccount) else a.ceaAta.value)
  }

  /** The checks between the account list and the first transfer. */
  ghost function FinalizeChecked(e: Env, config: Config, tss: Tss, a: FinalizeArgs): (r: Status)
    ensures r.Pass? ==> ValidateFinalizeRequest(a).Ok?
  {
    if config.paused then Fail(Paused)
    else if ValidateFinalizeRequest(a).Err? then Fail(ValidateFinalizeRequest(a).error)
    else FinalizeAuthority(e, tss, a)
  }

  ghost function FinalizeTx(e: Env, w: World, a: FinalizeArgs): Result<Outcome> {
    if FinalizeAccounts(e, w, a).Fail? then Err(FinalizeAccounts(e, w, a).error)
    else if FinalizeChecked(e, w.config, w.tss, a).Fail? then Err(FinalizeChecked(e, w.config, w.tss, a).error)
    else
      var marked := Marked(e, w, a);
      if StageCheck(e, marked, a).Fail? then Err(StageCheck(e, marked, a).error)
      else if IsWithdraw(a) then WithdrawAction(e, w, marked, a)
      else ExecuteAction(e, w, Staged(e, marked, a), a)
  }
}
