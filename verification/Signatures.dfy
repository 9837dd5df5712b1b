/** What the signature of a call decides: a call is accepted only with one of the
    TSS over its message, any such signature does, and no call that carries one is
    refused for its signature. */
module Signatures {
  import opened Bytes
  import opened Results
  import opened Ledgers
  import opened Messages
  import opened State
  import opened Finalize
  import opened Payout
  import opened Runs
  import opened Authorisation

  /** The same call with another hash, signature and recovery id. */
  function Resigned(act: Action, hash: Bytes32, signature: Bytes, recoveryId: byte): Action {
    match act
    case FinalizeUniversalTx(a) => FinalizeUniversalTx(ResignedCall(a, hash, signature, recoveryId))
    case RevertTx(p, instruction) => RevertTx(ResignedPayout(p, hash, signature, recoveryId), instruction)
    case RescueFunds(p) => RescueFunds(ResignedPayout(p, hash, signature, recoveryId))
    case _ => act
  }

  function ResignedCall(a: FinalizeArgs, hash: Bytes32, signature: Bytes, recoveryId: byte): FinalizeArgs {
    a.(messageHash := hash, signature := signature, recoveryId := recoveryId)
  }

  function ResignedPayout(p: PayoutArgs, hash: Bytes32, signature: Bytes, recoveryId: byte): PayoutArgs {
    p.(messageHash := hash, signature := signature, recoveryId := recoveryId)
  }

  predicate AboutSignature(err: Error) {
    err == MessageHashMismatch || err == TssAuthFailed
  }

  /** Refused because of the hash or the signature. */
  predicate SignatureError(r: Result<Outcome>) {
    r.Err? && AboutSignature(r.error)
  }

  // ---- Reverts and rescues ----

  lemma SamePayoutAccounts(e: Env, w: World, p: PayoutArgs, hash: Bytes32, signature: Bytes, recoveryId: byte)
    ensures var q := ResignedPayout(p, hash, signature, recoveryId);
            && PayoutAccounts(e, w, q) == PayoutAccounts(e, w, p)
            && (PayoutAccounts(e, w, p).Pass? ==> PayoutMarked(e, w, q) == PayoutMarked(e, w, p))
  {
  }

  lemma SamePayoutRequest(e: Env, l: Ledger, p: PayoutArgs, kind: Kind, hash: Bytes32, signature: Bytes,
                          recoveryId: byte)
    requires p.tokenVault.Some? ==> p.tokenVault.value in l.tokens
    requires p.recipientToken.Some? ==> p.recipientToken.value in l.tokens
    ensures var q := ResignedPayout(p, hash, signature, recoveryId);
            && PayoutRequest(e, l, q, kind) == PayoutRequest(e, l, p, kind)
            && (PayoutRequest(e, l, p, kind).Pass? ==> PaidOut(e, l, q) == PaidOut(e, l, p))
            && PayoutMessage(q, kind) == PayoutMessage(p, kind)
            && PayoutLog(q, kind) == PayoutLog(p, kind)
  {
  }

  /** Whatever passes the signature check gets the same answer. */
  lemma PayoutResigned(e: Env, w: World, p: PayoutArgs, kind: Kind, hash: Bytes32, signature: Bytes, recoveryId: byte)
    requires var bytes := SignedBytes(w.tss.chainId, PayoutMessage(p, kind));
             && SignedByTss(e, w.tss.ethAddress, bytes, p.messageHash, p.signature, p.recoveryId)
             && SignedByTss(e, w.tss.ethAddress, bytes, hash, signature, recoveryId)
    ensures PayoutTx(e, w, ResignedPayout(p, hash, signature, recoveryId), kind) == PayoutTx(e, w, p, kind)
  {
    SamePayoutAccounts(e, w, p, hash, signature, recoveryId);
    if PayoutAccounts(e, w, p).Pass? {
      SamePayoutRequest(e, PayoutMarked(e, w, p), p, kind, hash, signature, recoveryId);
    }
  }

  /** A carried signature of the TSS is not what refuses a revert or rescue. */
  lemma PayoutSignatureError(e: Env, w: World, p: PayoutArgs, kind: Kind)
    requires SignedByTss(e, w.tss.ethAddress, SignedBytes(w.tss.chainId, PayoutMessage(p, kind)), p.messageHash,
                         p.signature, p.recoveryId)
    ensures !SignatureError(PayoutTx(e, w, p, kind))
  {
  }

  // ---- Outbound calls ----

  lemma SameRequest(a: FinalizeArgs, hash: Bytes32, signature: Bytes, recoveryId: byte)
    ensures var b := ResignedCall(a, hash, signature, recoveryId);
            && ValidateFinalizeRequest(b) == ValidateFinalizeRequest(a)
            && (ValidateFinalizeRequest(a).Ok? ==> FinalizeMessage(b) == FinalizeMessage(a))
  {
  }

  lemma SameChecks(e: Env, w: World, a: FinalizeArgs, hash: Bytes32, signature: Bytes, recoveryId: byte)
    requires CarriesSignature(e, w, FinalizeUniversalTx(a))
    requires CarriesSignature(e, w, FinalizeUniversalTx(ResignedCall(a, hash, signature, recoveryId)))
    ensures FinalizeChecked(e, w.config, w.tss, ResignedCall(a, hash, signature, recoveryId))
         == FinalizeChecked(e, w.config, w.tss, a)
  {
  }

  lemma SameMarked(e: Env, w: World, a: FinalizeArgs, hash: Bytes32, signature: Bytes, recoveryId: byte)
    ensures var b := ResignedCall(a, hash, signature, recoveryId);
            && FinalizeAccounts(e, w, b) == FinalizeAccounts(e, w, a)
            && (FinalizeAccounts(e, w, a).Pass? ==> Marked(e, w, b) == Marked(e, w, a))
  {
  }

  lemma SameStageCheck(e: Env, l: Ledger, a: FinalizeArgs, hash: Bytes32, signature: Bytes, recoveryId: byte)
    requires AccountPresence(a) && (a.vaultAta.Some? ==> a.vaultAta.value in l.tokens)
    ensures var b := ResignedCall(a, hash, signature, recoveryId);
            && AccountPresence(b) && StageCheck(e, l, b) == StageCheck(e, l, a)
            && (StageCheck(e, l, a).Pass? ==> Staged(e, l, b) == Staged(e, l, a))
  {
  }

  lemma SameWithdrawal(e: Env, w: World, marked: Ledger, a: FinalizeArgs, hash: Bytes32, signature: Bytes,
                       recoveryId: byte)
    requires AccountPresence(a) && (a.vaultAta.Some? ==> a.vaultAta.value in marked.tokens)
    requires !IsNative(a) ==> a.recipientAta.Some? && a.recipientAta.value in marked.tokens
    requires StageCheck(e, marked, a).Pass?
    ensures var b := ResignedCall(a, hash, signature, recoveryId);
            StageCheck(e, marked, b).Pass? && WithdrawAction(e, w, marked, b) == WithdrawAction(e, w, marked, a)
  {
  }

  lemma SameExecution(e: Env, w: World, staged: Ledger, a: FinalizeArgs, hash: Bytes32, signature: Bytes,
                      recoveryId: byte)
    requires IsNative(a) || (a.ceaAta.Some? && a.ceaAta.value in staged.tokens && a.vaultAta.Some?
                             && a.vaultAta.value in staged.tokens)
    requires a.limitMint.Some? ==> a.limitMint.value in w.limits
    ensures ExecuteAction(e, w, staged, ResignedCall(a, hash, signature, recoveryId)) == ExecuteAction(e, w, staged, a)
  {
  }

  lemma FinalizeResigned(e: Env, w: World, a: FinalizeArgs, hash: Bytes32, signature: Bytes, recoveryId: byte)
    requires CarriesSignature(e, w, FinalizeUniversalTx(a))
    requires CarriesSignature(e, w, FinalizeUniversalTx(ResignedCall(a, hash, signature, recoveryId)))
    ensures FinalizeTx(e, w, ResignedCall(a, hash, signature, recoveryId)) == FinalizeTx(e, w, a)
  {
    SameMarked(e, w, a, hash, signature, recoveryId);
    SameChecks(e, w, a, hash, signature, recoveryId);
    if FinalizeAccounts(e, w, a).Pass? && FinalizeChecked(e, w.config, w.tss, a).Pass? {
      SameStageCheck(e, Marked(e, w, a), a, hash, signature, recoveryId);
      if StageCheck(e, Marked(e, w, a), a).Pass? {
        if IsWithdraw(a) {
          SameWithdrawal(e, w, Marked(e, w, a), a, hash, signature, recoveryId);
        } else {
          SameExecution(e, w, Staged(e, Marked(e, w, a), a), a, hash, signature, recoveryId);
        }
      }
    }
  }

  lemma CheckedSignatureError(e: Env, w: World, a: FinalizeArgs)
    requires CarriesSignature(e, w, FinalizeUniversalTx(a)) && FinalizeChecked(e, w.config, w.tss, a).Fail?
    ensures !AboutSignature(FinalizeChecked(e, w.config, w.tss, a).error)
  {
  }

  lemma OtherErrors(e: Env, w: World, l: Ledger, a: FinalizeArgs)
    requires AccountPresence(a) && (a.vaultAta.Some? ==> a.vaultAta.value in l.tokens)
    requires !IsNative(a) && a.recipientAta.Some? ==> a.recipientAta.value in l.tokens
    ensures StageCheck(e, l, a).Fail? ==> !AboutSignature(StageCheck(e, l, a).error)
    ensures StageCheck(e, l, a).Pass? && IsWithdraw(a) && (!IsNative(a) ==> a.recipientAta.Some?) ==>
              !SignatureError(WithdrawAction(e, w, l, a))
  {
  }

  lemma ExecutionErrors(e: Env, w: World, staged: Ledger, a: FinalizeArgs)
    requires IsNative(a) || (a.ceaAta.Some? && a.ceaAta.value in staged.tokens && a.vaultAta.Some?
                             && a.vaultAta.value in staged.tokens)
    requires a.limitMint.Some? ==> a.limitMint.value in w.limits
    ensures !SignatureError(ExecuteAction(e, w, staged, a))
  {
  }

  lemma FinalizeSignatureError(e: Env, w: World, a: FinalizeArgs)
    requires CarriesSignature(e, w, FinalizeUniversalTx(a))
    ensures !SignatureError(FinalizeTx(e, w, a))
  {
    if FinalizeAccounts(e, w, a).Pass? {
      if FinalizeChecked(e, w.config, w.tss, a).Fail? {
        CheckedSignatureError(e, w, a);
      } else {
        OtherErrors(e, w, Marked(e, w, a), a);
        if StageCheck(e, Marked(e, w, a), a).Pass? && !IsWithdraw(a) {
          ExecutionErrors(e, w, Staged(e, Marked(e, w, a), a), a);
        }
      }
    }
  }

  // ---- Any call ----

  /** Two signatures of the TSS over one message get the same answer, whatever it is. */
  lemma AnySignatureServes(e: Env, w: World, act: Action, hash: Bytes32, signature: Bytes, recoveryId: byte)
    requires CarriesSignature(e, w, act) && CarriesSignature(e, w, Resigned(act, hash, signature, recoveryId))
    ensures Step(e, w, Resigned(act, hash, signature, recoveryId)) == Step(e, w, act)
  {
    match act
    case FinalizeUniversalTx(a) => FinalizeResigned(e, w, a, hash, signature, recoveryId);
    case RevertTx(p, instruction) => PayoutResigned(e, w, p, Reverting(instruction), hash, signature, recoveryId);
    case RescueFunds(p) => PayoutResigned(e, w, p, Rescuing, hash, signature, recoveryId);
  }

  /** A call with a signature of the TSS is never refused for its signature. */
  lemma SignatureDoesNotRefuse(e: Env, w: World, act: Action)
    requires CarriesSignature(e, w, act)
    ensures !SignatureError(Step(e, w, act))
  {
    match act
    case FinalizeUniversalTx(a) => FinalizeSignatureError(e, w, a);
    case RevertTx(p, instruction) => PayoutSignatureError(e, w, p, Reverting(instruction));
    case RescueFunds(p) => PayoutSignatureError(e, w, p, Rescuing);
  }

  /** A call that some signature makes acceptable is accepted with exactly the
      signatures of the TSS over its message, and then does the same. */
  lemma SignatureDecides(e: Env, w: World, act: Action, hash: Bytes32, signature: Bytes, recoveryId: byte)
    requires ValidEnv(e) && MessageOf(act).Some? && Step(e, w, Resigned(act, hash, signature, recoveryId)).Ok?
    ensures Step(e, w, act).Ok? <==> CarriesSignature(e, w, act)
    ensures Step(e, w, act).Ok? ==> Step(e, w, act) == Step(e, w, Resigned(act, hash, signature, recoveryId))
  {
    var other := Resigned(act, hash, signature, recoveryId);
    if act.FinalizeUniversalTx? {
      SameRequest(act.finalize, hash, signature, recoveryId);
    }
    StepReleases(e, w, other, DEFAULT_KEY);
    if Step(e, w, act).Ok? {
      StepReleases(e, w, act, DEFAULT_KEY);
    }
    if CarriesSignature(e, w, act) {
      AnySignatureServes(e, w, act, hash, signature, recoveryId);
    }
  }
}
