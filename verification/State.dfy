/** The accounts the gateway keeps (state.rs), the events it emits, and the
    deployment it runs in. */
module State {
  import opened Bytes
  import opened Results
  import opened Ledgers
  import opened RateLimit

  // ---- Accounts ----

  datatype Config = Config(
    admin: Pubkey,
    pauser: Pubkey,
    minCapUsd: u128,
    maxCapUsd: u128,
    paused: bool,
    pythPriceFeed: Pubkey,
    confidenceThreshold: u64)

  datatype Tss = Tss(ethAddress: Bytes20, chainId: Bytes)

  /** Everything on chain that the gateway reads or writes. A token limit is known
      by the mint its account is derived from; a sub-transaction is executed once
      its marker account exists. */
  datatype World = World(
    ledger: Ledger,
    config: Config,
    tss: Tss,
    protocolFee: u64,
    rate: RateConfig,
    limits: map<Pubkey, TokenLimit>,
    executed: set<Bytes32>)

  // ---- Requests and events ----

  datatype TxType = Gas | GasAndPayload | Funds | FundsAndPayload

  datatype UniversalTxRequest = UniversalTxRequest(
    recipient: Bytes20,
    token: Pubkey,
    amount: u64,
    payload: Bytes,
    revertRecipient: Pubkey,
    signatureData: Bytes)

  datatype RevertInstructions = RevertInstructions(revertRecipient: Pubkey, revertMsg: Bytes)

  datatype Event =
    | UniversalTx(sender: Pubkey, recipient: Bytes20, token: Pubkey, amount: u64, payload: Bytes,
                  revertRecipient: Pubkey, txType: TxType, signatureData: Bytes, fromCea: bool)
    | UniversalTxFinalized(subTxId: Bytes32, universalTxId: Bytes32, gasFee: u64, pushAccount: Bytes20,
                           target: Pubkey, token: Pubkey, amount: u64, payload: Bytes)
    | RevertUniversalTx(subTxId: Bytes32, universalTxId: Bytes32, revertRecipient: Pubkey, token: Pubkey,
                        amount: u64, revertInstruction: RevertInstructions)
    | FundsRescued(subTxId: Bytes32, universalTxId: Bytes32, token: Pubkey, amount: u64,
                   revertInstruction: RevertInstructions)
    | ProtocolFeeCollected(payer: Pubkey, lamports: u64, nativeBefore: u64, nativeAfter: u64)
    | ProtocolFeeReimbursed(reimbursedSubTxId: Bytes32, relayer: Pubkey, lamports: u64)
    | CapsUpdated(minCapUsd: u128, maxCapUsd: u128)
    | ProtocolFeeUpdated(newFee: u64)
    | BlockUsdCapUpdated(blockUsdCap: u128)
    | EpochDurationUpdated(epochDuration: u64)
    | TokenRateLimitUpdated(tokenMint: Pubkey, limitThreshold: u128)

  /** An event in the log of a transaction, with the clock it ran under. */
  datatype Entry = Entry(at: Clock, event: Event)

  /** What a successful instruction leaves behind. */
  datatype Outcome = Outcome(world: World, log: seq<Entry>)

  // ---- Deployment ----

  /** Addresses derived from the program's seeds, the hash and the key recovery it
      verifies with, and the rent schedule. `isPda` marks the addresses derived
      from this program: no key signs for them, only the program does. */
  datatype Env = Env(
    programId: Pubkey,
    vault: Pubkey,
    feeVault: Pubkey,
    cea: Bytes20 -> Pubkey,
    executedAccount: Bytes32 -> Pubkey,
    limitAccount: Pubkey -> Pubkey,
    ata: (Pubkey, Pubkey) -> Pubkey,
    isPda: Pubkey -> bool,
    keccak: Bytes -> Bytes32,
    recover: (Bytes32, byte, Bytes) -> Option<Bytes>,
    minimumBalance: nat -> nat)

  /** One of the program's addresses, and none of the two vaults. */
  ghost predicate OwnAddress(e: Env, k: Pubkey) {
    e.isPda(k) && k != e.vault && k != e.feeVault
  }

  ghost predicate ValidEnv(e: Env) {
    && e.isPda(e.vault) && e.isPda(e.feeVault) && e.vault != e.feeVault
    && (forall p: Bytes20 :: OwnAddress(e, e.cea(p)))
    && (forall p: Bytes20, q: Bytes20 :: e.cea(p) == e.cea(q) ==> p == q)
    && (forall id: Bytes32 :: OwnAddress(e, e.executedAccount(id)))
    && (forall id: Bytes32, p: Bytes20 :: e.executedAccount(id) != e.cea(p))
    && (forall m: Pubkey :: OwnAddress(e, e.limitAccount(m)))
    && (forall m: Pubkey, p: Bytes20 :: e.limitAccount(m) != e.cea(p))
    && (forall owner: Pubkey, mint: Pubkey :: !e.isPda(e.ata(owner, mint)))
  }

  const EXECUTED_SUB_TX_LEN: nat := 8
  const FEE_VAULT_LEN: nat := 67
  const TOKEN_RATE_LIMIT_LEN: nat := 181
  const TOKEN_ACCOUNT_LEN: nat := 165

  /** Token account k is still there, with at least what it held. */
  predicate Kept(before: Ledger, after: Ledger, k: Pubkey)
    requires k in before.tokens
  {
    && k in after.tokens
    && after.tokens[k].mint == before.tokens[k].mint
    && after.tokens[k].owner == before.tokens[k].owner
    && before.tokens[k].amount <= after.tokens[k].amount
  }

  /** What the runtime guarantees of code that is not the gateway's: only `signer`
      among the gateway's addresses, if any, can be debited or have its token
      accounts touched. */
  ghost predicate Shielded(e: Env, before: Ledger, after: Ledger, signer: Option<Pubkey>) {
    && (forall k: Pubkey :: e.isPda(k) && signer != Some(k) ==> Balance(before, k) <= Balance(after, k))
    && (forall k: Pubkey |
          k in before.tokens && before.tokens[k].amount > 0
          && e.isPda(before.tokens[k].owner) && signer != Some(before.tokens[k].owner)
          :: Kept(before, after, k))
  }

  /** The TSS with this address signed these bytes: the hash presented is theirs, and
      the key recovered from it and the signature has the address. */
  ghost predicate SignedByTss(e: Env, ethAddress: Bytes20, bytes: Bytes, hash: Bytes32, signature: Bytes,
                              recoveryId: byte) {
    && e.keccak(bytes) == hash
    && exists publicKey: Bytes ::
         e.recover(hash, recoveryId, signature) == Some(publicKey) && e.keccak(publicKey)[12..] == ethAddress
  }

  /** The signature checks of `validate_message` on the rebuilt bytes. */
  function VerifySignature(e: Env, tss: Tss, message: Bytes, messageHash: Bytes32, signature: Bytes,
                           recoveryId: byte): (r: Status)
    ensures r.Pass? <==> SignedByTss(e, tss.ethAddress, message, messageHash, signature, recoveryId)
    ensures r.Fail? ==> r.error == if e.keccak(message) == messageHash then TssAuthFailed else MessageHashMismatch
  {
    if e.keccak(message) != messageHash then Fail(MessageHashMismatch)
    else
      match e.recover(messageHash, recoveryId, signature)
      case None => Fail(TssAuthFailed)
      case Some(publicKey) =>
        if e.keccak(publicKey)[12..] != tss.ethAddress then Fail(TssAuthFailed) else Pass
  }
}
