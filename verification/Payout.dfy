/** What `revert_universal_tx` and `rescue_funds` accept and change
    (instructions/revert.rs, instructions/rescue.rs). */
module Payout {
  import opened Bytes
  import opened Results
  import opened Ledgers
  import opened RateLimit
  import opened Messages
  import opened State

  datatype PayoutArgs = PayoutArgs(
    caller: Pubkey,
    subTxId: Bytes32,
    universalTxId: Bytes32,
    amount: u64,
    recipient: Pubkey,
    gasFee: u64,
    signature: Bytes,
    recoveryId: byte,
    messageHash: Bytes32,
    tokenVault: Option<Pubkey>,
    recipientToken: Option<Pubkey>,
    mint: Option<Pubkey>,
    tokenProgram: bool,
    clock: Clock)

  /** A revert names the recipient a second time, with a note that is not signed. */
  datatype Kind = Reverting(instruction: RevertInstructions) | Rescuing

  /** The asset of a mint, or SOL without one. */
  function AssetOf(mint: Option<Pubkey>): Pubkey {
    if mint.Some? then mint.value else DEFAULT_KEY
  }

  function PayoutMessage(p: PayoutArgs, kind: Kind): Message {
    if kind.Rescuing? then Rescue(p.subTxId, p.universalTxId, p.mint, p.recipient, p.gasFee, p.amount)
    else Revert(p.subTxId, p.universalTxId, p.mint, p.recipient, p.gasFee, p.amount)
  }

  function PayoutEvent(p: PayoutArgs, kind: Kind): Event {
    var token := AssetOf(p.mint);
    match kind
    case Reverting(instruction) =>
      RevertUniversalTx(p.subTxId, p.universalTxId, instruction.revertRecipient, token, p.amount, instruction)
    case Rescuing =>
      FundsRescued(p.subTxId, p.universalTxId, token, p.amount, RevertInstructions(p.recipient, []))
  }

  /** The checks of the account list, with the executed marker created at the caller's cost. */
  function PayoutAccounts(e: Env, w: World, p: PayoutArgs): Status {
    var marker := e.executedAccount(p.subTxId);
    if e.isPda(p.caller) then Fail(MissingSignature)
    else if p.subTxId in w.executed then Fail(AccountInUse)
    else if Balance(w.ledger, p.caller) < RentDue(w.ledger, marker, e.minimumBalance(EXECUTED_SUB_TX_LEN))
        then Fail(InsufficientLamports)
    else if p.tokenVault.Some? && p.tokenVault.value !in w.ledger.tokens then Fail(AccountNotInitialized)
    else if p.recipientToken.Some? && p.recipientToken.value !in w.ledger.tokens then Fail(AccountNotInitialized)
    else if p.mint == Some(DEFAULT_KEY) then Fail(AccountNotInitialized)
    else if w.config.paused then Fail(Paused)
    else Pass
  }

  function PayoutRequest(e: Env, l: Ledger, p: PayoutArgs, kind: Kind): Status
    requires p.tokenVault.Some? ==> p.tokenVault.value in l.tokens
    requires p.recipientToken.Some? ==> p.recipientToken.value in l.tokens
  {
    if p.amount == 0 then Fail(InvalidAmount)
    else if kind.Reverting? && kind.instruction.revertRecipient == DEFAULT_KEY then Fail(InvalidRecipient)
    else if kind.Reverting? && p.recipient != kind.instruction.revertRecipient then Fail(InvalidRecipient)
    else if kind.Rescuing? && p.recipient == DEFAULT_KEY then Fail(InvalidRecipient)
    else TokenAccountsCheck(e, l.tokens, p)
  }

  /** SOL takes no token accounts; a token takes one of the vault's and one of the recipient's. */
  function TokenAccountsCheck(e: Env, tokens: map<Pubkey, TokenAccount>, p: PayoutArgs): Status
    requires p.tokenVault.Some? ==> p.tokenVault.value in tokens
    requires p.recipientToken.Some? ==> p.recipientToken.value in tokens
  {
    if p.mint.None? then
      if p.tokenVault.Some? || p.recipientToken.Some? || p.tokenProgram then Fail(InvalidAccount) else Pass
    else
      if p.tokenVault.None? || p.recipientToken.None? then Fail(InvalidAccount)
      else if tokens[p.tokenVault.value].mint != p.mint.value then Fail(InvalidMint)
      else if tokens[p.tokenVault.value].owner != e.vault then Fail(InvalidAccount)
      else if tokens[p.recipientToken.value].mint != p.mint.value then Fail(InvalidMint)
      else if tokens[p.recipientToken.value].owner != p.recipient then Fail(InvalidRecipient)
      else Pass
  }

  /** The vault pays the recipient. */
  function Paid(e: Env, l: Ledger, p: PayoutArgs): Result<Ledger>
    requires p.mint.Some? ==> p.tokenVault.Some? && p.tokenVault.value in l.tokens
    requires p.mint.Some? ==> p.recipientToken.Some? && p.recipientToken.value in l.tokens
  {
    if p.mint.None? then
      if Balance(l, e.vault) < p.amount then Err(InsufficientLamports)
      else Ok(Move(l, e.vault, p.recipient, p.amount))
    else
      if l.tokens[p.tokenVault.value].amount < p.amount then Err(TokenTransferFailed)
      else Ok(MoveTokens(l, p.tokenVault.value, p.recipientToken.value, p.amount))
  }

  /** The fee vault pays the caller, out of what it holds above its rent-exempt minimum. */
  function Reimbursed(e: Env, l: Ledger, caller: Pubkey, gasFee: u64): Result<Ledger> {
    if gasFee == 0 then Ok(l)
    else if Balance(l, e.feeVault) < e.minimumBalance(FEE_VAULT_LEN) + gasFee then Err(InsufficientFeePool)
    else Ok(Move(l, e.feeVault, caller, gasFee))
  }

  /** The ledger once the executed marker exists. */
  function PayoutMarked(e: Env, w: World, p: PayoutArgs): Ledger
    requires PayoutAccounts(e, w, p).Pass?
  {
    PayRent(w.ledger, p.caller, e.executedAccount(p.subTxId), e.minimumBalance(EXECUTED_SUB_TX_LEN))
  }

  function PayoutLog(p: PayoutArgs, kind: Kind): seq<Entry> {
    [Entry(p.clock, PayoutEvent(p, kind))]
    + (if p.gasFee > 0 then [Entry(p.clock, ProtocolFeeReimbursed(p.subTxId, p.caller, p.gasFee))] else [])
  }

  /** The request and the signature over its message. */
  ghost function PayoutChecked(e: Env, l: Ledger, tss: Tss, p: PayoutArgs, kind: Kind): Status
    requires p.tokenVault.Some? ==> p.tokenVault.value in l.tokens
    requires p.recipientToken.Some? ==> p.recipientToken.value in l.tokens
  {
    First(PayoutRequest(e, l, p, kind),
          VerifySignature(e, tss, SignedBytes(tss.chainId, PayoutMessage(p, kind)), p.messageHash, p.signature,
                          p.recoveryId))
  }

  /** The ledger once the recipient is paid and the caller reimbursed. */
  function PaidOut(e: Env, l: Ledger, p: PayoutArgs): Result<Ledger>
    requires p.mint.Some? ==> p.tokenVault.Some? && p.tokenVault.value in l.tokens
    requires p.mint.Some? ==> p.recipientToken.Some? && p.recipientToken.value in l.tokens
  {
    match Paid(e, l, p)
    case Err(err) => Err(err)
    case Ok(paid) => Reimbursed(e, paid, p.caller, p.gasFee)
  }

  ghost function PayoutTx(e: Env, w: World, p: PayoutArgs, kind: Kind): Result<Outcome> {
    if PayoutAccounts(e, w, p).Fail? then Err(PayoutAccounts(e, w, p).error)
    else
      var marked := PayoutMarked(e, w, p);
      if PayoutChecked(e, marked, w.tss, p, kind).Fail? then Err(PayoutChecked(e, marked, w.tss, p, kind).error)
      else
        match PaidOut(e, marked, p)
        case Err(err) => Err(err)
        case Ok(after) => Ok(Outcome(w.(ledger := after, executed := w.executed + {p.subTxId}), PayoutLog(p, kind)))
  }
}
