/** What each successful instruction does to every balance at once. Each effect is
    a sum of contributions, so it holds however caller, recipient, user and the
    program's own addresses coincide. */
module Effects {
  import opened Bytes
  import opened Results
  import opened Sums
  import opened Ledgers
  import opened Messages
  import opened State
  import opened Deposit
  import opened Finalize
  import opened Payout
  import opened Admin

  /** n if the condition holds. */
  function If(condition: bool, n: int): int {
    if condition then n else 0
  }

  predicate Matches(t: TokenAccount, mint: Pubkey, owner: Option<Pubkey>) {
    t.mint == mint && (owner.None? || t.owner == owner.value)
  }

  // ---- Deposits ----

  lemma LamportsOnly(l: Ledger, l': Ledger)
    requires l.lamports == l'.lamports
    ensures TotalLamports(l) == TotalLamports(l')
  {
    SumEqual(l.lamports.Keys, k => Balance(l, k), k => Balance(l', k));
  }

  /** What an accepted deposit has passed, check by check, and what it leaves. */
  lemma SendAccepted(e: Env, w: World, a: SendArgs)
    requires Send(e, w, a).Ok?
    ensures !e.isPda(a.user) && a.limitMint in w.limits
    ensures w.protocolFee <= a.nativeAmount <= Balance(w.ledger, a.user)
    ensures FundsCheck(e, w.ledger.tokens, w.limits, w.rate.epochDuration, a).Ok?
    ensures HasTokenLeg(a.request) ==> TokenDepositCheck(e, w.ledger.tokens, a).Pass?
    ensures var rest := a.nativeAmount - w.protocolFee;
            var o := Send(e, w, a).value;
            && FetchTxType(a.request, rest).Ok?
            && NativeFunds(a.request) <= rest
            && GasCheck(w.config, w.rate, rest - NativeFunds(a.request), a.oracle, a.clock.slot).Ok?
            && o.world == w.(ledger := SendLedger(e, w, a),
                             rate := GasCheck(w.config, w.rate, rest - NativeFunds(a.request), a.oracle,
                                              a.clock.slot).value,
                             limits := FundsCheck(e, w.ledger.tokens, w.limits, w.rate.epochDuration, a).value)
            && o.log == SendLog(w, a, FetchTxType(a.request, rest).value)
  {
  }

  /** The type of an accepted deposit. */
  function TypeOf(w: World, a: SendArgs): TxType
    requires w.protocolFee <= a.nativeAmount && FetchTxType(a.request, a.nativeAmount - w.protocolFee).Ok?
  {
    FetchTxType(a.request, a.nativeAmount - w.protocolFee).value
  }

  /** What an accepted deposit reports. */
  lemma SendReport(e: Env, w: World, a: SendArgs)
    requires Send(e, w, a).Ok?
    ensures w.protocolFee <= a.nativeAmount && FetchTxType(a.request, a.nativeAmount - w.protocolFee).Ok?
    ensures NativeFunds(a.request) <= a.nativeAmount - w.protocolFee
    ensures a.request.amount > 0 <==> TypeOf(w, a) == Funds || TypeOf(w, a) == FundsAndPayload
    ensures Send(e, w, a).value.log == SendLog(w, a, TypeOf(w, a))
  {
  }

  /** The user pays exactly the native amount, the fee vault gets exactly the fee
      and the vault exactly the rest, on every route. */
  lemma SendLamports(e: Env, w: World, a: SendArgs, k: Pubkey)
    requires Send(e, w, a).Ok?
    ensures var l := Send(e, w, a).value.world.ledger;
            && TotalLamports(l) == TotalLamports(w.ledger)
            && Balance(l, k) == Balance(w.ledger, k) - If(k == a.user, a.nativeAmount)
                 + If(k == e.feeVault, w.protocolFee) + If(k == e.vault, a.nativeAmount - w.protocolFee)
  {
    SendAccepted(e, w, a);
    SendLedgerLamports(e, w, a, k);
  }

  /** Two payments of one payer. */
  lemma TwoPayments(l: Ledger, payer: Pubkey, first: Pubkey, second: Pubkey, m: nat, n: nat, k: Pubkey)
    requires m + n <= Balance(l, payer)
    ensures n <= Balance(Move(l, payer, first, m), payer)
    ensures var paid := Move(Move(l, payer, first, m), payer, second, n);
            && paid.tokens == l.tokens
            && TotalLamports(paid) == TotalLamports(l)
            && Balance(paid, k) == Balance(l, k) - If(k == payer, m + n) + If(k == first, m) + If(k == second, n)
  {
    MoveEffect(l, payer, first, m);
    MoveEffect(Move(l, payer, first, m), payer, second, n);
  }

  /** Tokens moved on top of payments change no lamports. */
  lemma DepositedLamports(e: Env, l: Ledger, a: SendArgs, native: nat)
    requires native <= Balance(l, a.user)
    requires HasTokenLeg(a.request) ==> TokenDepositCheck(e, l.tokens, a).Pass?
    ensures Deposited(e, l, a, native).lamports == Move(l, a.user, e.vault, native).lamports
  {
  }

  lemma SendLedgerLamports(e: Env, w: World, a: SendArgs, k: Pubkey)
    requires w.protocolFee <= a.nativeAmount <= Balance(w.ledger, a.user)
    requires HasTokenLeg(a.request) ==> TokenDepositCheck(e, w.ledger.tokens, a).Pass?
    ensures var l := SendLedger(e, w, a);
            && TotalLamports(l) == TotalLamports(w.ledger)
            && Balance(l, k) == Balance(w.ledger, k) - If(k == a.user, a.nativeAmount)
                 + If(k == e.feeVault, w.protocolFee) + If(k == e.vault, a.nativeAmount - w.protocolFee)
  {
    var rest := a.nativeAmount - w.protocolFee;
    TwoPayments(w.ledger, a.user, e.feeVault, e.vault, w.protocolFee, rest, k);
    DepositedLamports(e, FeePaid(e, w, a.user), a, rest);
    LamportsOnly(Move(FeePaid(e, w, a.user), a.user, e.vault, rest), SendLedger(e, w, a));
  }

  /** A token leg moves its tokens from the user to the vault; nothing else moves tokens. */
  lemma SendTokens(e: Env, w: World, a: SendArgs, mint: Pubkey, owner: Option<Pubkey>)
    requires Send(e, w, a).Ok?
    ensures var n := If(a.request.token == mint && mint != DEFAULT_KEY, a.request.amount);
            Held(Send(e, w, a).value.world.ledger, mint, owner)
            == Held(w.ledger, mint, owner) - If(owner.None? || owner.value == a.user, n)
                + If(owner.None? || owner.value == e.vault, n)
  {
    SendAccepted(e, w, a);
    SendLedgerTokens(e, w, a, mint, owner);
  }

  lemma SendLedgerTokens(e: Env, w: World, a: SendArgs, mint: Pubkey, owner: Option<Pubkey>)
    requires w.protocolFee <= a.nativeAmount <= Balance(w.ledger, a.user)
    requires HasTokenLeg(a.request) ==> TokenDepositCheck(e, w.ledger.tokens, a).Pass?
    ensures var n := If(a.request.token == mint && mint != DEFAULT_KEY, a.request.amount);
            Held(SendLedger(e, w, a), mint, owner)
            == Held(w.ledger, mint, owner) - If(owner.None? || owner.value == a.user, n)
                + If(owner.None? || owner.value == e.vault, n)
  {
    var rest := a.nativeAmount - w.protocolFee;
    var paid := Move(FeePaid(e, w, a.user), a.user, e.vault, rest);
    HeldTokensOnly(w.ledger, paid, mint, owner);
    if HasTokenLeg(a.request) {
      MoveTokensEffect(paid, a.userToken.value, a.gatewayToken.value, a.request.amount, mint, owner);
    }
  }

  // ---- Outbound calls ----

  lemma PayRentEffect(l: Ledger, payer: Pubkey, account: Pubkey, minimum: nat)
    requires RentDue(l, account, minimum) <= Balance(l, payer)
    ensures var l' := PayRent(l, payer, account, minimum);
            && TotalLamports(l') == TotalLamports(l)
            && l'.tokens == l.tokens
            && forall k :: Balance(l', k) == Balance(l, k) - If(k == payer, RentDue(l, account, minimum))
                                             + If(k == account, RentDue(l, account, minimum))
  {
    MoveEffect(l, payer, account, RentDue(l, account, minimum));
  }

  /** The rent a caller pays for the executed marker, and for opening the CEA's token account. */
  function MarkerRent(e: Env, w: World, subTxId: Bytes32): nat {
    RentDue(w.ledger, e.executedAccount(subTxId), e.minimumBalance(EXECUTED_SUB_TX_LEN))
  }

  function AtaRent(e: Env, l: Ledger, a: FinalizeArgs): nat {
    if a.ceaAta.Some? && a.ceaAta.value !in l.tokens
    then RentDue(l, a.ceaAta.value, e.minimumBalance(TOKEN_ACCOUNT_LEN)) else 0
  }

  lemma OpenedLamports(e: Env, l: Ledger, a: FinalizeArgs)
    requires a.ceaAta.Some? && a.mint.Some?
    requires AtaRent(e, l, a) <= Balance(l, a.caller)
    ensures var l' := Opened(e, l, a);
            && TotalLamports(l') == TotalLamports(l)
            && forall k :: Balance(l', k) == Balance(l, k) - If(k == a.caller, AtaRent(e, l, a))
                                             + If(a.ceaAta == Some(k), AtaRent(e, l, a))
  {
    if a.ceaAta.value !in l.tokens {
      PayRentEffect(l, a.caller, a.ceaAta.value, e.minimumBalance(TOKEN_ACCOUNT_LEN));
      LamportsOnly(PayRent(l, a.caller, a.ceaAta.value, e.minimumBalance(TOKEN_ACCOUNT_LEN)), Opened(e, l, a));
    }
  }

  lemma OpenedTokens(e: Env, l: Ledger, a: FinalizeArgs, mint: Pubkey, owner: Option<Pubkey>)
    requires a.ceaAta.Some? && a.mint.Some?
    requires AtaRent(e, l, a) <= Balance(l, a.caller)
    ensures Held(Opened(e, l, a), mint, owner) == Held(l, mint, owner)
  {
    if a.ceaAta.value !in l.tokens {
      PayRentEffect(l, a.caller, a.ceaAta.value, e.minimumBalance(TOKEN_ACCOUNT_LEN));
      var paid := PayRent(l, a.caller, a.ceaAta.value, e.minimumBalance(TOKEN_ACCOUNT_LEN));
      HeldTokensOnly(l, paid, mint, owner);
      OpenTokenEffect(paid, a.ceaAta.value, TokenAccount(a.mint.value, e.cea(a.pushAccount), 0), mint, owner);
    }
  }

  lemma ReleasedLamports(e: Env, l: Ledger, a: FinalizeArgs, dst: Pubkey, k: Pubkey)
    requires AccountPresence(a)
    requires a.vaultAta.Some? ==> a.vaultAta.value in l.tokens
    requires StageCheck(e, l, a).Pass?
    requires !IsNative(a) ==> dst in Opened(e, l, a).tokens
    ensures var l' := Released(e, l, a, dst);
            && TotalLamports(l') == TotalLamports(l)
            && Balance(l', k) == Balance(l, k)
                 - If(k == e.vault, If(IsNative(a), a.amount) + a.gasFee) + If(IsNative(a) && k == dst, a.amount)
                 + If(k == a.caller, a.gasFee - AtaRent(e, l, a)) + If(a.ceaAta == Some(k), AtaRent(e, l, a))
  {
    if IsNative(a) {
      MoveEffect(l, e.vault, dst, a.amount);
      MoveEffect(Move(l, e.vault, dst, a.amount), e.vault, a.caller, a.gasFee);
    } else {
      OpenedLamports(e, l, a);
      var l1 := Opened(e, l, a);
      var l2 := MoveTokens(l1, a.vaultAta.value, dst, a.amount);
      LamportsOnly(l1, l2);
      MoveEffect(l2, e.vault, a.caller, a.gasFee);
    }
  }

  lemma ReleasedTokens(e: Env, l: Ledger, a: FinalizeArgs, dst: Pubkey, mint: Pubkey, owner: Option<Pubkey>)
    requires AccountPresence(a)
    requires a.vaultAta.Some? ==> a.vaultAta.value in l.tokens
    requires StageCheck(e, l, a).Pass?
    requires !IsNative(a) ==> dst in Opened(e, l, a).tokens
    ensures Held(Released(e, l, a, dst), mint, owner) == Held(l, mint, owner)
              - If(!IsNative(a) && Matches(l.tokens[a.vaultAta.value], mint, owner), a.amount)
              + If(!IsNative(a) && Matches(Opened(e, l, a).tokens[dst], mint, owner), a.amount)
  {
    if IsNative(a) {
      MoveEffect(l, e.vault, dst, a.amount);
      MoveEffect(Move(l, e.vault, dst, a.amount), e.vault, a.caller, a.gasFee);
      HeldTokensOnly(l, Released(e, l, a, dst), mint, owner);
    } else {
      OpenedTokens(e, l, a, mint, owner);
      var l1 := Opened(e, l, a);
      MoveTokensEffect(l1, a.vaultAta.value, dst, a.amount, mint, owner);
      var l2 := MoveTokens(l1, a.vaultAta.value, dst, a.amount);
      MoveEffect(l2, e.vault, a.caller, a.gasFee);
      HeldTokensOnly(l2, Released(e, l, a, dst), mint, owner);
    }
  }

  lemma MarkedEffect(e: Env, w: World, a: FinalizeArgs)
    requires FinalizeAccounts(e, w, a).Pass?
    ensures var l := Marked(e, w, a);
            && TotalLamports(l) == TotalLamports(w.ledger)
            && l.tokens == w.ledger.tokens
            && (forall k :: Balance(l, k) == Balance(w.ledger, k) - If(k == a.caller, MarkerRent(e, w, a.subTxId))
                                             + If(k == e.executedAccount(a.subTxId), MarkerRent(e, w, a.subTxId)))
            && forall mint, owner :: Held(l, mint, owner) == Held(w.ledger, mint, owner)
  {
    PayRentEffect(w.ledger, a.caller, e.executedAccount(a.subTxId), e.minimumBalance(EXECUTED_SUB_TX_LEN));
    forall mint, owner
      ensures Held(Marked(e, w, a), mint, owner) == Held(w.ledger, mint, owner)
    {
      HeldTokensOnly(w.ledger, Marked(e, w, a), mint, owner);
    }
  }

  /** A call the account list and the request allow, and whose amount the vault can release. */
  ghost predicate Stageable(e: Env, w: World, a: FinalizeArgs) {
    && FinalizeAccounts(e, w, a).Pass?
    && ValidateFinalizeRequest(a).Ok?
    && StageCheck(e, Marked(e, w, a), a).Pass?
  }

  lemma FinalizeAccepted(e: Env, w: World, a: FinalizeArgs)
    requires FinalizeTx(e, w, a).Ok?
    ensures Stageable(e, w, a)
    ensures FinalizeTx(e, w, a) == (if IsWithdraw(a) then WithdrawAction(e, w, Marked(e, w, a), a)
                                    else ExecuteAction(e, w, Staged(e, Marked(e, w, a), a), a))
  {
  }

  /** Who ends up with the tokens of a withdrawal. */
  ghost function ReceiverOf(e: Env, w: World, a: FinalizeArgs): Pubkey {
    if IsNative(a) || TargetOf(a) == e.cea(a.pushAccount) then TargetOf(a)
    else if a.recipientAta.Some? && a.recipientAta.value in w.ledger.tokens
    then w.ledger.tokens[a.recipientAta.value].owner
    else TargetOf(a)
  }

  lemma WithdrawAccepted(e: Env, w: World, a: FinalizeArgs)
    requires Stageable(e, w, a) && IsWithdraw(a) && WithdrawAction(e, w, Marked(e, w, a), a).Ok?
    ensures var dst := WithdrawDestination(e, a);
            && (!IsNative(a) ==>
                  && dst in Opened(e, Marked(e, w, a), a).tokens
                  && Opened(e, Marked(e, w, a), a).tokens[dst].mint == TokenOf(a)
                  && Opened(e, Marked(e, w, a), a).tokens[dst].owner == ReceiverOf(e, w, a)
                  && Marked(e, w, a).tokens[a.vaultAta.value].mint == TokenOf(a)
                  && Marked(e, w, a).tokens[a.vaultAta.value].owner == e.vault
                  && TokenOf(a) != DEFAULT_KEY)
            && WithdrawAction(e, w, Marked(e, w, a), a)
               == Ok(Outcome(w.(ledger := Released(e, Marked(e, w, a), a, dst), executed := w.executed + {a.subTxId}),
                             [Entry(a.clock, FinalizedEvent(a))]))
  {
  }

  /** Lamports after a withdrawal, at any address: the vault pays the recipient
      and the caller, the CEA in between is left as it was. */
  lemma WithdrawLamports(e: Env, w: World, a: FinalizeArgs, k: Pubkey)
    requires Stageable(e, w, a) && IsWithdraw(a) && WithdrawAction(e, w, Marked(e, w, a), a).Ok?
    ensures var l := WithdrawAction(e, w, Marked(e, w, a), a).value.world.ledger;
            var marker, ata := MarkerRent(e, w, a.subTxId), AtaRent(e, Marked(e, w, a), a);
            && TotalLamports(l) == TotalLamports(w.ledger)
            && Balance(l, k) == Balance(w.ledger, k)
                 - If(k == e.vault, If(IsNative(a), a.amount) + a.gasFee)
                 + If(IsNative(a) && k == TargetOf(a), a.amount)
                 + If(k == a.caller, a.gasFee - marker - ata)
                 + If(k == e.executedAccount(a.subTxId), marker) + If(a.ceaAta == Some(k), ata)
  {
    WithdrawAccepted(e, w, a);
    MarkedEffect(e, w, a);
    ReleasedLamports(e, Marked(e, w, a), a, WithdrawDestination(e, a), k);
  }

  lemma WithdrawTokens(e: Env, w: World, a: FinalizeArgs, mint: Pubkey, owner: Option<Pubkey>)
    requires Stageable(e, w, a) && IsWithdraw(a) && WithdrawAction(e, w, Marked(e, w, a), a).Ok?
    ensures var n := If(!IsNative(a) && TokenOf(a) == mint, a.amount);
            Held(WithdrawAction(e, w, Marked(e, w, a), a).value.world.ledger, mint, owner)
            == Held(w.ledger, mint, owner) - If(owner.None? || owner.value == e.vault, n)
               + If(owner.None? || owner.value == ReceiverOf(e, w, a), n)
  {
    WithdrawAccepted(e, w, a);
    MarkedEffect(e, w, a);
    ReleasedTokens(e, Marked(e, w, a), a, WithdrawDestination(e, a), mint, owner);
  }

  /** Lamports once an execute call is staged, at any address. */
  lemma StagedLamports(e: Env, w: World, a: FinalizeArgs, k: Pubkey)
    requires Stageable(e, w, a)
    ensures var l := Staged(e, Marked(e, w, a), a);
            var marker, ata := MarkerRent(e, w, a.subTxId), AtaRent(e, Marked(e, w, a), a);
            && TotalLamports(l) == TotalLamports(w.ledger)
            && Balance(l, k) == Balance(w.ledger, k)
                 - If(k == e.vault, If(IsNative(a), a.amount) + a.gasFee)
                 + If(IsNative(a) && k == e.cea(a.pushAccount), a.amount)
                 + If(k == a.caller, a.gasFee - marker - ata)
                 + If(k == e.executedAccount(a.subTxId), marker) + If(a.ceaAta == Some(k), ata)
  {
    MarkedEffect(e, w, a);
    ReleasedLamports(e, Marked(e, w, a), a, if IsNative(a) then e.cea(a.pushAccount) else a.ceaAta.value, k);
  }

  lemma StagedTokens(e: Env, w: World, a: FinalizeArgs, mint: Pubkey, owner: Option<Pubkey>)
    requires Stageable(e, w, a)
    ensures var n := If(!IsNative(a) && TokenOf(a) == mint, a.amount);
            Held(Staged(e, Marked(e, w, a), a), mint, owner)
            == Held(w.ledger, mint, owner) - If(owner.None? || owner.value == e.vault, n)
               + If(owner.None? || owner.value == e.cea(a.pushAccount), n)
  {
    MarkedEffect(e, w, a);
    ReleasedTokens(e, Marked(e, w, a), a, if IsNative(a) then e.cea(a.pushAccount) else a.ceaAta.value, mint, owner);
  }

  /** The token accounts of a staged transfer are what their names say. */
  lemma StagedAccounts(e: Env, w: World, a: FinalizeArgs)
    requires Stageable(e, w, a) && !IsNative(a)
    ensures var staged := Staged(e, Marked(e, w, a), a);
            && a.vaultAta.value in staged.tokens && a.ceaAta.value in staged.tokens
            && staged.tokens[a.vaultAta.value].mint == TokenOf(a) && staged.tokens[a.vaultAta.value].owner == e.vault
            && staged.tokens[a.ceaAta.value].mint == TokenOf(a)
            && staged.tokens[a.ceaAta.value].owner == e.cea(a.pushAccount)
  {
  }

  lemma ReturnedLamports(e: Env, staged: Ledger, a: FinalizeArgs, n: nat, k: Pubkey)
    requires !IsNative(a) ==> a.ceaAta.Some? && a.ceaAta.value in staged.tokens
    requires !IsNative(a) ==> a.vaultAta.Some? && a.vaultAta.value in staged.tokens
    requires n <= CeaHeld(e, staged, a)
    ensures var l := Returned(e, staged, a, n);
            && TotalLamports(l) == TotalLamports(staged)
            && Balance(l, k) == Balance(staged, k) - If(IsNative(a) && k == e.cea(a.pushAccount), n)
                 + If(IsNative(a) && k == e.vault, n)
  {
    if IsNative(a) {
      MoveEffect(staged, e.cea(a.pushAccount), e.vault, n);
    } else {
      LamportsOnly(staged, Returned(e, staged, a, n));
    }
  }

  lemma ReturnedTokens(e: Env, staged: Ledger, a: FinalizeArgs, n: nat, mint: Pubkey, owner: Option<Pubkey>)
    requires !IsNative(a) ==> a.ceaAta.Some? && a.ceaAta.value in staged.tokens
    requires !IsNative(a) ==> a.vaultAta.Some? && a.vaultAta.value in staged.tokens
    requires n <= CeaHeld(e, staged, a)
    ensures Held(Returned(e, staged, a, n), mint, owner) == Held(staged, mint, owner)
              - If(!IsNative(a) && Matches(staged.tokens[a.ceaAta.value], mint, owner), n)
              + If(!IsNative(a) && Matches(staged.tokens[a.vaultAta.value], mint, owner), n)
  {
    if IsNative(a) {
      MoveEffect(staged, e.cea(a.pushAccount), e.vault, n);
      HeldTokensOnly(staged, Returned(e, staged, a, n), mint, owner);
    } else {
      MoveTokensEffect(staged, a.ceaAta.value, a.vaultAta.value, n, mint, owner);
    }
  }

  /** What a successful self-call has passed, and what it leaves. */
  lemma UeaAccepted(e: Env, w: World, a: FinalizeArgs)
    requires Stageable(e, w, a) && !IsWithdraw(a) && TargetOf(a) == e.programId
    requires ExecuteAction(e, w, Staged(e, Marked(e, w, a), a), a).Ok?
    ensures var staged := Staged(e, Marked(e, w, a), a);
            && (!IsNative(a) ==> a.ceaAta.value in staged.tokens && a.vaultAta.value in staged.tokens)
            && UeaCheck(e, w.limits, w.rate.epochDuration, staged, a).Ok?
            && ExecuteAction(e, w, staged, a)
               == Ok(Outcome(w.(ledger := Returned(e, staged, a, UeaArgsOf(a).amount),
                                executed := w.executed + {a.subTxId},
                                limits := w.limits[a.limitMint.value :=
                                            UeaCheck(e, w.limits, w.rate.epochDuration, staged, a).value]),
                             [Entry(a.clock, UeaEvent(e, a)), Entry(a.clock, FinalizedEvent(a))]))
  {
  }

  /** Lamports after a self-call, at any address: what is staged at the CEA, less what goes back. */
  lemma UeaLamports(e: Env, w: World, a: FinalizeArgs, k: Pubkey)
    requires Stageable(e, w, a) && !IsWithdraw(a) && TargetOf(a) == e.programId
    requires ExecuteAction(e, w, Staged(e, Marked(e, w, a), a), a).Ok?
    ensures var staged := Staged(e, Marked(e, w, a), a);
            var l := ExecuteAction(e, w, staged, a).value.world.ledger;
            var n := If(IsNative(a), UeaArgsOf(a).amount);
            && TotalLamports(l) == TotalLamports(staged)
            && Balance(l, k) == Balance(staged, k) - If(k == e.cea(a.pushAccount), n) + If(k == e.vault, n)
  {
    UeaAccepted(e, w, a);
    var staged := Staged(e, Marked(e, w, a), a);
    ReturnedLamports(e, staged, a, UeaArgsOf(a).amount, k);
  }

  lemma UeaTokens(e: Env, w: World, a: FinalizeArgs, mint: Pubkey, owner: Option<Pubkey>)
    requires Stageable(e, w, a) && !IsWithdraw(a) && TargetOf(a) == e.programId
    requires ExecuteAction(e, w, Staged(e, Marked(e, w, a), a), a).Ok?
    ensures var staged := Staged(e, Marked(e, w, a), a);
            var n := If(!IsNative(a) && TokenOf(a) == mint, UeaArgsOf(a).amount);
            Held(ExecuteAction(e, w, staged, a).value.world.ledger, mint, owner)
            == Held(staged, mint, owner) - If(owner.None? || owner.value == e.cea(a.pushAccount), n)
               + If(owner.None? || owner.value == e.vault, n)
  {
    UeaAccepted(e, w, a);
    var staged := Staged(e, Marked(e, w, a), a);
    if !IsNative(a) {
      StagedAccounts(e, w, a);
    }
    ReturnedTokens(e, staged, a, UeaArgsOf(a).amount, mint, owner);
  }

  // ---- Reverts and rescues ----

  /** What a successful revert or rescue has passed, and the ledger it ends in. */
  lemma PayoutAccepted(e: Env, w: World, p: PayoutArgs, kind: Kind)
    requires PayoutTx(e, w, p, kind).Ok?
    ensures PayoutAccounts(e, w, p).Pass?
    ensures var marked := PayoutMarked(e, w, p);
            var o := PayoutTx(e, w, p, kind).value;
            && PayoutRequest(e, marked, p, kind).Pass?
            && VerifySignature(e, w.tss, SignedBytes(w.tss.chainId, PayoutMessage(p, kind)), p.messageHash,
                               p.signature, p.recoveryId).Pass?
            && Paid(e, marked, p).Ok?
            && Reimbursed(e, Paid(e, marked, p).value, p.caller, p.gasFee) == Ok(o.world.ledger)
            && o.world == w.(ledger := o.world.ledger, executed := w.executed + {p.subTxId})
            && o.log == PayoutLog(p, kind)
  {
  }

  /** What a successful revert or rescue reports, and what it leaves of the rest of the world. */
  lemma PayoutReport(e: Env, w: World, p: PayoutArgs, kind: Kind)
    requires PayoutTx(e, w, p, kind).Ok?
    ensures p.subTxId !in w.executed
    ensures var o := PayoutTx(e, w, p, kind).value;
            && o.log == PayoutLog(p, kind)
            && o.world == w.(ledger := o.world.ledger, executed := w.executed + {p.subTxId})
  {
  }

  lemma PayoutMarkedEffect(e: Env, w: World, p: PayoutArgs)
    requires PayoutAccounts(e, w, p).Pass?
    ensures var l := PayoutMarked(e, w, p);
            && TotalLamports(l) == TotalLamports(w.ledger)
            && l.tokens == w.ledger.tokens
            && (forall k :: Balance(l, k) == Balance(w.ledger, k) - If(k == p.caller, MarkerRent(e, w, p.subTxId))
                                             + If(k == e.executedAccount(p.subTxId), MarkerRent(e, w, p.subTxId)))
  {
    PayRentEffect(w.ledger, p.caller, e.executedAccount(p.subTxId), e.minimumBalance(EXECUTED_SUB_TX_LEN));
  }

  lemma PaidLamports(e: Env, l: Ledger, p: PayoutArgs, k: Pubkey)
    requires p.mint.Some? ==> p.tokenVault.Some? && p.tokenVault.value in l.tokens
    requires p.mint.Some? ==> p.recipientToken.Some? && p.recipientToken.value in l.tokens
    requires Paid(e, l, p).Ok?
    ensures var l' := Paid(e, l, p).value;
            && TotalLamports(l') == TotalLamports(l)
            && Balance(l', k) == Balance(l, k) - If(k == e.vault && p.mint.None?, p.amount)
                 + If(k == p.recipient && p.mint.None?, p.amount)
  {
    if p.mint.None? {
      MoveEffect(l, e.vault, p.recipient, p.amount);
    } else {
      LamportsOnly(l, Paid(e, l, p).value);
    }
  }

  lemma ReimbursedEffect(e: Env, l: Ledger, caller: Pubkey, gasFee: u64, k: Pubkey)
    requires Reimbursed(e, l, caller, gasFee).Ok?
    ensures var l' := Reimbursed(e, l, caller, gasFee).value;
            && TotalLamports(l') == TotalLamports(l)
            && l'.tokens == l.tokens
            && Balance(l', k) == Balance(l, k) - If(k == e.feeVault, gasFee) + If(k == caller, gasFee)
  {
    if gasFee > 0 {
      MoveEffect(l, e.feeVault, caller, gasFee);
    }
  }

  /** Lamports after a revert or rescue: the vault pays the recipient when the
      asset is SOL, the fee vault pays the caller, the caller pays the marker's rent. */
  lemma PayoutLamports(e: Env, w: World, p: PayoutArgs, kind: Kind, k: Pubkey)
    requires PayoutTx(e, w, p, kind).Ok?
    ensures var l := PayoutTx(e, w, p, kind).value.world.ledger;
            && TotalLamports(l) == TotalLamports(w.ledger)
            && Balance(l, k) == Balance(w.ledger, k)
                 - If(k == e.vault && p.mint.None?, p.amount) + If(k == p.recipient && p.mint.None?, p.amount)
                 - If(k == e.feeVault, p.gasFee) + If(k == p.caller, p.gasFee - MarkerRent(e, w, p.subTxId))
                 + If(k == e.executedAccount(p.subTxId), MarkerRent(e, w, p.subTxId))
  {
    PayoutAccepted(e, w, p, kind);
    PayoutMarkedEffect(e, w, p);
    var marked := PayoutMarked(e, w, p);
    PaidLamports(e, marked, p, k);
    ReimbursedEffect(e, Paid(e, marked, p).value, p.caller, p.gasFee, k);
  }

  lemma PaidTokens(e: Env, l: Ledger, p: PayoutArgs, kind: Kind, mint: Pubkey, owner: Option<Pubkey>)
    requires p.tokenVault.Some? ==> p.tokenVault.value in l.tokens
    requires p.recipientToken.Some? ==> p.recipientToken.value in l.tokens
    requires PayoutRequest(e, l, p, kind).Pass? && Paid(e, l, p).Ok?
    ensures var n := If(p.mint == Some(mint), p.amount);
            Held(Paid(e, l, p).value, mint, owner)
            == Held(l, mint, owner) - If(owner.None? || owner.value == e.vault, n)
                + If(owner.None? || owner.value == p.recipient, n)
  {
    if p.mint.None? {
      MoveEffect(l, e.vault, p.recipient, p.amount);
      HeldTokensOnly(l, Paid(e, l, p).value, mint, owner);
    } else {
      MoveTokensEffect(l, p.tokenVault.value, p.recipientToken.value, p.amount, mint, owner);
    }
  }

  lemma PayoutTokens(e: Env, w: World, p: PayoutArgs, kind: Kind, mint: Pubkey, owner: Option<Pubkey>)
    requires PayoutTx(e, w, p, kind).Ok?
    ensures var n := If(p.mint == Some(mint), p.amount);
            Held(PayoutTx(e, w, p, kind).value.world.ledger, mint, owner)
            == Held(w.ledger, mint, owner) - If(owner.None? || owner.value == e.vault, n)
                + If(owner.None? || owner.value == p.recipient, n)
  {
    PayoutAccepted(e, w, p, kind);
    PayoutMarkedEffect(e, w, p);
    var marked := PayoutMarked(e, w, p);
    var paid := Paid(e, marked, p).value;
    HeldTokensOnly(w.ledger, marked, mint, owner);
    PaidTokens(e, marked, p, kind, mint, owner);
    ReimbursedEffect(e, paid, p.caller, p.gasFee, p.caller);
    HeldTokensOnly(paid, PayoutTx(e, w, p, kind).value.world.ledger, mint, owner);
  }

  // ---- Setters ----

  /** A setter moves nothing but the rent of a token limit it creates. */
  lemma AdminEffect(e: Env, w: World, a: AdminArgs)
    requires AdminTx(e, w, a).Ok?
    ensures var l := AdminTx(e, w, a).value.world.ledger;
            && TotalLamports(l) == TotalLamports(w.ledger)
            && l.tokens == w.ledger.tokens
            && !e.isPda(a.signer)
            && forall k :: k != a.signer && !(a.op.SetTokenRateLimit? && k == e.limitAccount(a.op.mint)) ==>
                 Balance(l, k) == Balance(w.ledger, k)
  {
    if a.op.SetTokenRateLimit? && a.op.mint !in w.limits {
      PayRentEffect(w.ledger, a.signer, e.limitAccount(a.op.mint), e.minimumBalance(TOKEN_RATE_LIMIT_LEN));
    }
  }

  // ---- Code that is not the gateway's ----

  /** An address the other code cannot sign for never holds less afterwards. */
  lemma ShieldedHeld(e: Env, before: Ledger, after: Ledger, signer: Option<Pubkey>, mint: Pubkey, owner: Pubkey)
    requires Shielded(e, before, after, signer) && e.isPda(owner) && signer != Some(owner)
    ensures Held(before, mint, Some(owner)) <= Held(after, mint, Some(owner))
  {
    var was, now := k => Weight(before, mint, Some(owner), k), k => Weight(after, mint, Some(owner), k);
    forall k | k in before.tokens.Keys
      ensures was(k) <= now(k)
    {
      if was(k) > 0 {
        assert Kept(before, after, k);
      }
    }
    SumMonotone(before.tokens.Keys, was, now);
    var all := before.tokens.Keys + after.tokens.Keys;
    SumExtend(before.tokens.Keys, all, now);
    SumExtend(after.tokens.Keys, all, now);
  }

  // ---- Outbound calls, seen from the program's own addresses ----

  datatype Mode = WithdrawMode | UeaMode | CpiMode

  function ModeOf(e: Env, a: FinalizeArgs): Mode {
    if IsWithdraw(a) then WithdrawMode else if a.destinationProgram == e.programId then UeaMode else CpiMode
  }

  function FinalEntry(a: FinalizeArgs): Entry {
    Entry(a.clock, FinalizedEvent(a))
  }

  /** The amount if it is of this asset and the holder is the one meant. */
  function Share(a: FinalizeArgs, asset: Pubkey, mine: bool): int {
    If(mine && TokenOf(a) == asset, a.amount)
  }

  /** What an address holds of an asset: lamports, or tokens over its token accounts. */
  ghost function HeldBy(l: Ledger, asset: Pubkey, owner: Pubkey): int {
    if asset == DEFAULT_KEY then Balance(l, owner) else Held(l, asset, Some(owner))
  }

  /** What an accepted call reports, and what it leaves of the rest of the world. */
  lemma FinalizeReport(e: Env, w: World, a: FinalizeArgs)
    requires FinalizeTx(e, w, a).Ok?
    ensures Stageable(e, w, a)
    ensures var o := FinalizeTx(e, w, a).value;
            && o.log == (if ModeOf(e, a) == UeaMode then [Entry(a.clock, UeaEvent(e, a)), FinalEntry(a)]
                         else [FinalEntry(a)])
            && o.world == w.(ledger := o.world.ledger, limits := o.world.limits, executed := w.executed + {a.subTxId})
            && (ModeOf(e, a) != UeaMode ==> o.world.limits == w.limits)
  {
    FinalizeAccepted(e, w, a);
  }

  /** A withdrawal, for any asset at any of the program's addresses: the vault
      loses the amount and the gas fee, the receiver gains the amount, and the CEA
      it passed through is left as it was unless it is the receiver. */
  lemma WithdrawAtPda(e: Env, w: World, a: FinalizeArgs, k: Pubkey, asset: Pubkey)
    requires ValidEnv(e) && FinalizeTx(e, w, a).Ok? && ModeOf(e, a) == WithdrawMode
    requires e.isPda(k) && k != e.executedAccount(a.subTxId)
    ensures var o := FinalizeTx(e, w, a).value;
            && o.log == [FinalEntry(a)]
            && HeldBy(o.world.ledger, asset, k) == HeldBy(w.ledger, asset, k)
                 - Share(a, asset, k == e.vault) - If(k == e.vault && asset == DEFAULT_KEY, a.gasFee)
                 + Share(a, asset, k == ReceiverOf(e, w, a))
  {
    FinalizeAccepted(e, w, a);
    WithdrawAccepted(e, w, a);
    if asset == DEFAULT_KEY {
      WithdrawLamports(e, w, a, k);
    } else {
      WithdrawTokens(e, w, a, asset, Some(k));
    }
  }

  /** The ledger an accepted execute call hands to its action. */
  ghost function StagedLedger(e: Env, w: World, a: FinalizeArgs): Ledger
    requires Stageable(e, w, a)
  {
    Staged(e, Marked(e, w, a), a)
  }

  lemma StagedSol(e: Env, w: World, a: FinalizeArgs, k: Pubkey)
    requires ValidEnv(e) && Stageable(e, w, a)
    requires e.isPda(k) && k != e.executedAccount(a.subTxId)
    ensures Balance(StagedLedger(e, w, a), k) == Balance(w.ledger, k)
              - Share(a, DEFAULT_KEY, k == e.vault) - If(k == e.vault, a.gasFee)
              + Share(a, DEFAULT_KEY, k == e.cea(a.pushAccount))
  {
    StagedLamports(e, w, a, k);
  }

  lemma StagedToken(e: Env, w: World, a: FinalizeArgs, k: Pubkey, mint: Pubkey)
    requires Stageable(e, w, a) && mint != DEFAULT_KEY
    ensures Held(StagedLedger(e, w, a), mint, Some(k)) == Held(w.ledger, mint, Some(k))
              - Share(a, mint, k == e.vault) + Share(a, mint, k == e.cea(a.pushAccount))
  {
    StagedTokens(e, w, a, mint, Some(k));
  }

  /** The staged ledger of an execute call, at any of the program's addresses. */
  lemma StagedAtPda(e: Env, w: World, a: FinalizeArgs, k: Pubkey, asset: Pubkey)
    requires ValidEnv(e) && Stageable(e, w, a)
    requires e.isPda(k) && k != e.executedAccount(a.subTxId)
    ensures HeldBy(StagedLedger(e, w, a), asset, k) == HeldBy(w.ledger, asset, k)
              - Share(a, asset, k == e.vault) - If(k == e.vault && asset == DEFAULT_KEY, a.gasFee)
              + Share(a, asset, k == e.cea(a.pushAccount))
  {
    if asset == DEFAULT_KEY {
      StagedSol(e, w, a, k);
    } else {
      StagedToken(e, w, a, k, asset);
    }
  }

  lemma UeaActionAtPda(e: Env, w: World, a: FinalizeArgs, k: Pubkey, asset: Pubkey)
    requires Stageable(e, w, a) && ModeOf(e, a) == UeaMode && ExecuteAction(e, w, StagedLedger(e, w, a), a).Ok?
    ensures var o := ExecuteAction(e, w, StagedLedger(e, w, a), a).value;
            var back := If(TokenOf(a) == asset, UeaArgsOf(a).amount);
            && o.log == [Entry(a.clock, UeaEvent(e, a)), FinalEntry(a)]
            && HeldBy(o.world.ledger, asset, k) == HeldBy(StagedLedger(e, w, a), asset, k)
                 - If(k == e.cea(a.pushAccount), back) + If(k == e.vault, back)
  {
    UeaAccepted(e, w, a);
    if asset == DEFAULT_KEY {
      UeaLamports(e, w, a, k);
    } else {
      UeaTokens(e, w, a, asset, Some(k));
    }
  }

  /** A self-call: the staged amount is at the CEA, and the amount named in its
      data goes from the CEA to the vault. */
  lemma UeaAtPda(e: Env, w: World, a: FinalizeArgs, k: Pubkey, asset: Pubkey)
    requires FinalizeTx(e, w, a).Ok? && ModeOf(e, a) == UeaMode
    ensures Stageable(e, w, a)
    ensures var o := FinalizeTx(e, w, a).value;
            var back := If(TokenOf(a) == asset, UeaArgsOf(a).amount);
            && o.log == [Entry(a.clock, UeaEvent(e, a)), FinalEntry(a)]
            && HeldBy(o.world.ledger, asset, k) == HeldBy(StagedLedger(e, w, a), asset, k)
                 - If(k == e.cea(a.pushAccount), back) + If(k == e.vault, back)
  {
    FinalizeAccepted(e, w, a);
    UeaActionAtPda(e, w, a, k, asset);
  }

  /** A call into another program: whatever it does, only the CEA that signs may end with less than staged. */
  lemma CpiAtPda(e: Env, w: World, a: FinalizeArgs, k: Pubkey, asset: Pubkey)
    requires FinalizeTx(e, w, a).Ok? && ModeOf(e, a) == CpiMode && e.isPda(k)
    ensures Stageable(e, w, a)
    ensures var o := FinalizeTx(e, w, a).value;
            && o.log == [FinalEntry(a)]
            && a.cpi == CpiReturned(o.world.ledger)
            && TotalLamports(o.world.ledger) == TotalLamports(StagedLedger(e, w, a))
            && (k != e.cea(a.pushAccount) ==>
                  HeldBy(StagedLedger(e, w, a), asset, k) <= HeldBy(o.world.ledger, asset, k))
  {
    FinalizeAccepted(e, w, a);
    if asset != DEFAULT_KEY && k != e.cea(a.pushAccount) {
      ShieldedHeld(e, StagedLedger(e, w, a), a.cpi.ledger, Some(e.cea(a.pushAccount)), asset, k);
    }
  }

  /** A deposit, at any of the program's addresses. */
  lemma SendAtPda(e: Env, w: World, a: SendArgs, k: Pubkey, asset: Pubkey)
    requires ValidEnv(e) && Send(e, w, a).Ok? && e.isPda(k)
    ensures HeldBy(Send(e, w, a).value.world.ledger, asset, k) == HeldBy(w.ledger, asset, k)
              + If(k == e.feeVault && asset == DEFAULT_KEY, w.protocolFee)
              + If(k == e.vault, if asset == DEFAULT_KEY then a.nativeAmount - w.protocolFee
                                 else If(a.request.token == asset, a.request.amount))
  {
    SendAccepted(e, w, a);
    if asset == DEFAULT_KEY {
      SendLamports(e, w, a, k);
    } else {
      SendTokens(e, w, a, asset, Some(k));
    }
  }

  lemma PayoutSol(e: Env, w: World, p: PayoutArgs, kind: Kind, k: Pubkey)
    requires ValidEnv(e) && PayoutTx(e, w, p, kind).Ok?
    requires e.isPda(k) && k != e.executedAccount(p.subTxId)
    ensures Balance(PayoutTx(e, w, p, kind).value.world.ledger, k) == Balance(w.ledger, k)
              - If(p.mint.None? && k == e.vault, p.amount) + If(p.mint.None? && k == p.recipient, p.amount)
              - If(k == e.feeVault, p.gasFee)
    ensures p.mint != Some(DEFAULT_KEY)
  {
    PayoutAccepted(e, w, p, kind);
    PayoutLamports(e, w, p, kind, k);
  }

  /** A revert or rescue, at any of the program's addresses. */
  lemma PayoutAtPda(e: Env, w: World, p: PayoutArgs, kind: Kind, k: Pubkey, asset: Pubkey)
    requires ValidEnv(e) && PayoutTx(e, w, p, kind).Ok?
    requires e.isPda(k) && k != e.executedAccount(p.subTxId)
    ensures var n := If(AssetOf(p.mint) == asset, p.amount);
            HeldBy(PayoutTx(e, w, p, kind).value.world.ledger, asset, k) == HeldBy(w.ledger, asset, k)
              - If(k == e.vault, n) + If(k == p.recipient, n) - If(k == e.feeVault && asset == DEFAULT_KEY, p.gasFee)
  {
    if asset == DEFAULT_KEY {
      PayoutSol(e, w, p, kind, k);
    } else {
      PayoutTokens(e, w, p, kind, asset, Some(k));
    }
  }

  lemma AdminAtPda(e: Env, w: World, a: AdminArgs, k: Pubkey, asset: Pubkey)
    requires ValidEnv(e) && AdminTx(e, w, a).Ok?
    requires e.isPda(k) && forall m: Pubkey :: k != e.limitAccount(m)
    ensures HeldBy(AdminTx(e, w, a).value.world.ledger, asset, k) == HeldBy(w.ledger, asset, k)
  {
    AdminEffect(e, w, a);
    HeldTokensOnly(w.ledger, AdminTx(e, w, a).value.world.ledger, asset, Some(k));
  }

  lemma ExternalAtPda(e: Env, w: World, after: Ledger, k: Pubkey, asset: Pubkey)
    requires Shielded(e, w.ledger, after, None) && e.isPda(k)
    ensures HeldBy(w.ledger, asset, k) <= HeldBy(after, asset, k)
  {
    if asset != DEFAULT_KEY {
      ShieldedHeld(e, w.ledger, after, None, asset, k);
    }
  }
}
