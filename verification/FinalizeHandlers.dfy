/** The outbound call step by step (instructions/execute.rs, instructions/withdraw.rs),
    proved to do what `FinalizeTx` says of the call as a whole. */
module FinalizeHandlers {
  import opened Bytes
  import opened Results
  import opened Ledgers
  import opened Encoding
  import opened Messages
  import opened UeaArguments
  import opened State
  import opened Finalize
  import opened Effects
  import opened Chains
  import opened SendHandlers

  // ---- Signatures ----

  method VerifyWithdraw(c: Chain, a: FinalizeArgs) returns (r: Status)
    requires IsWithdraw(a)
    ensures r == FinalizeAuthority(c.e, c.tss, a)
  {
    r := c.ValidateMessage(1, a.amount,
                           [a.subTxId, a.universalTxId, a.pushAccount, TokenOf(a), EncodeU64(a.gasFee), TargetOf(a)],
                           a.messageHash, a.signature, a.recoveryId);
  }

  method VerifyExecute(c: Chain, a: FinalizeArgs) returns (r: Status)
    requires !IsWithdraw(a) && |a.writableFlags| == FlagBytes(|a.remaining|)
    ensures r == FinalizeAuthority(c.e, c.tss, a)
  {
    var accounts := ReconstructAccountsFromFlags(a.remaining, a.writableFlags);
    :- ValidateRemainingAccounts(accounts, a.remaining);
    var accountsBuf := SerializeGatewayAccounts(accounts);
    var additional := [a.subTxId, a.universalTxId, a.pushAccount, TokenOf(a), EncodeU64(a.gasFee), TargetOf(a),
                       accountsBuf, SerializeIxData(a.ixData)];
    :- c.ValidateMessage(2, a.amount, additional, a.messageHash, a.signature, a.recoveryId);
    :- Require(a.destinationExecutable, InvalidProgram);
    return Pass;
  }

  // ---- Staging ----

  /** The CEA's token account, opened when it is missing. */
  method OpenCeaAccount(c: Chain, a: FinalizeArgs) returns (r: Status)
    requires a.ceaAta.Some? && a.mint.Some?
    modifies c`lamports, c`tokens
    ensures r == Require(a.ceaAta.value in old(c.tokens)
                         || RentDue(old(c.Accounts()), a.ceaAta.value, c.e.minimumBalance(TOKEN_ACCOUNT_LEN))
                             <= Balance(old(c.Accounts()), a.caller),
                         InsufficientLamports)
    ensures r.Pass? ==> c.Accounts() == Opened(c.e, old(c.Accounts()), a) && a.ceaAta.value in c.tokens
  {
    if a.ceaAta.value !in c.tokens {
      :- c.ChargeRent(a.caller, a.ceaAta.value, c.e.minimumBalance(TOKEN_ACCOUNT_LEN));
      c.tokens := c.tokens[a.ceaAta.value := TokenAccount(a.mint.value, c.e.cea(a.pushAccount), 0)];
    }
    return Pass;
  }

  method ProcessSplVaultToCeaTransfer(c: Chain, a: FinalizeArgs) returns (r: Status)
    requires a.vaultAta.Some? && a.ceaAta.Some? && a.mint.Some? && a.vaultAta.value in c.tokens
    requires c.tokens[a.vaultAta.value].owner == c.e.vault
    modifies c`lamports, c`tokens
    ensures r == TokenStageCheck(c.e, old(c.Accounts()), a)
    ensures r.Pass? ==>
              c.Accounts() == MoveTokens(Opened(c.e, old(c.Accounts()), a), a.vaultAta.value, a.ceaAta.value, a.amount)
  {
    var vaultAta, ceaAta, mint := a.vaultAta.value, a.ceaAta.value, a.mint.value;
    :- Require(c.tokens[vaultAta].mint == mint, InvalidMint);
    :- Require(ceaAta == c.e.ata(c.e.cea(a.pushAccount), mint), InvalidAccount);
    :- OpenCeaAccount(c, a);
    :- Require(c.tokens[ceaAta].mint == mint, InvalidMint);
    :- Require(c.tokens[ceaAta].owner == c.e.cea(a.pushAccount), InvalidOwner);
    r := c.PdaSplTransfer(vaultAta, ceaAta, c.e.vault, a.amount);
  }

  method StageAssetsToCea(c: Chain, a: FinalizeArgs) returns (r: Status)
    requires c.e.cea(a.pushAccount) != c.e.vault && AccountPresence(a)
    requires a.vaultAta.Some? ==> a.vaultAta.value in c.tokens && c.tokens[a.vaultAta.value].owner == c.e.vault
    modifies c`lamports, c`tokens
    ensures unchanged(c`config, c`tss, c`protocolFee, c`rate, c`limits, c`executed, c`log)
    ensures r == StageCheck(c.e, old(c.Accounts()), a)
    ensures r.Pass? ==> c.Accounts() == Staged(c.e, old(c.Accounts()), a)
  {
    if IsNative(a) {
      ghost var l := c.Accounts();
      :- c.PdaSystemTransfer(c.e.vault, c.e.cea(a.pushAccount), a.amount);
      MoveEffect(l, c.e.vault, c.e.cea(a.pushAccount), a.amount);
    } else {
      :- ProcessSplVaultToCeaTransfer(c, a);
    }
    r := c.PdaSystemTransfer(c.e.vault, a.caller, a.gasFee);
  }

  // ---- Withdraw ----

  /** Everything a staged call rests on: `l` is the ledger it was staged from. */
  ghost predicate StagedFrom(c: Chain, a: FinalizeArgs, l: Ledger)
    reads c
  {
    && c.e.cea(a.pushAccount) != c.e.vault && a.mint != Some(DEFAULT_KEY)
    && AccountPresence(a)
    && (a.vaultAta.Some? ==> a.vaultAta.value in l.tokens && l.tokens[a.vaultAta.value].owner == c.e.vault)
    && StageCheck(c.e, l, a).Pass?
    && c.Accounts() == Staged(c.e, l, a)
  }

  method InternalWithdraw(c: Chain, a: FinalizeArgs, ghost l: Ledger) returns (r: Status)
    requires StagedFrom(c, a, l) && IsWithdraw(a) && a.recipient.Some? && a.amount > 0
    requires !IsNative(a) ==> a.recipientAta.Some? && a.recipientAta.value in l.tokens
    modifies c`lamports, c`tokens
    ensures unchanged(c`config, c`tss, c`protocolFee, c`rate, c`limits, c`executed, c`log)
    ensures r == WithdrawCheck(c.e, l, a)
    ensures r.Pass? ==> c.Accounts() == Released(c.e, l, a, WithdrawDestination(c.e, a))
  {
    var target, cea := a.recipient.value, c.e.cea(a.pushAccount);
    if target == cea {
      return Pass;
    }
    if TokenOf(a) == DEFAULT_KEY {
      MoveThrough(l, c.e.vault, cea, target, a.amount, a.caller, a.gasFee);
      r := c.PdaSystemTransfer(cea, target, a.amount);
    } else {
      :- Require(a.recipientAta.value == c.e.ata(target, a.mint.value), InvalidAccount);
      TokensThrough(Opened(c.e, l, a), a.vaultAta.value, a.ceaAta.value, a.recipientAta.value, a.amount, c.e.vault,
                    a.caller, a.gasFee);
      r := c.PdaSplTransfer(a.ceaAta.value, a.recipientAta.value, cea, a.amount);
    }
  }

  // ---- CEA to UEA ----

  /** The checks of the arguments against the call and the CEA's balance. */
  method CheckUeaArgs(c: Chain, a: FinalizeArgs) returns (r: Result<UeaArgs>)
    requires TokenOf(a) != DEFAULT_KEY ==> a.ceaAta.Some? && a.ceaAta.value in c.tokens
    requires a.mint != Some(DEFAULT_KEY)
    ensures r == UeaRequest(c.e, c.Accounts(), a)
  {
    var args :- ParseUeaArgs(a.ixData);
    if args.token != TokenOf(a) {
      return Err(InvalidMint);
    }
    if args.amount == 0 {
      return Err(InvalidAmount);
    }
    if args.revertRecipient == DEFAULT_KEY {
      return Err(InvalidRecipient);
    }
    var held := if TokenOf(a) == DEFAULT_KEY then Balance(c.Accounts(), c.e.cea(a.pushAccount))
        else c.tokens[a.ceaAta.value].amount;
    if args.amount > held {
      return Err(InsufficientBalance);
    }
    return Ok(args);
  }

  /** The CEA pays the vault back, which it can once its balance is checked. */
  method ReturnToVault(c: Chain, a: FinalizeArgs, n: u64, ghost l: Ledger) returns (r: Status)
    requires StagedFrom(c, a, l) && n <= CeaHeld(c.e, c.Accounts(), a)
    modifies c`lamports, c`tokens
    ensures unchanged(c`config, c`tss, c`protocolFee, c`rate, c`limits, c`executed, c`log)
    ensures r == Pass && c.Accounts() == Returned(c.e, old(c.Accounts()), a, n)
  {
    var cea := c.e.cea(a.pushAccount);
    if TokenOf(a) == DEFAULT_KEY {
      r := c.PdaSystemTransfer(cea, c.e.vault, n);
    } else {
      r := c.PdaSplTransfer(a.ceaAta.value, a.vaultAta.value, cea, n);
    }
  }

  /** The arguments, checked and charged to the token limit. */
  method MeterUeaArgs(c: Chain, a: FinalizeArgs) returns (r: Result<UeaArgs>)
    requires TokenOf(a) != DEFAULT_KEY ==> a.ceaAta.Some? && a.ceaAta.value in c.tokens
    requires a.mint != Some(DEFAULT_KEY) && (a.limitMint.Some? ==> a.limitMint.value in c.limits)
    modifies c`limits
    ensures unchanged(c`lamports, c`tokens, c`config, c`tss, c`protocolFee, c`rate, c`executed, c`log)
    ensures match UeaCheck(c.e, old(c.limits), c.rate.epochDuration, c.Accounts(), a)
            case Err(err) => r == Err(err)
            case Ok(limit) =>
              r == UeaRequest(c.e, c.Accounts(), a) && c.limits == old(c.limits)[a.limitMint.value := limit]
  {
    r := CheckUeaArgs(c, a);
    if r.Err? {
      return r;
    }
    if !a.rateLimitConfig || a.limitMint.None? {
      return Err(InvalidAccount);
    }
    var charged := ConsumeTokenLimit(c, a.limitMint.value, TokenOf(a), r.value.amount, a.clock);
    if charged.Fail? {
      return Err(charged.error);
    }
  }

  /** The event of the funds sent back. */
  method ReportReturn(c: Chain, a: FinalizeArgs, args: UeaArgs)
    requires args == UeaArgsOf(a)
    modifies c`log
    ensures unchanged(c`lamports, c`tokens, c`config, c`tss, c`protocolFee, c`rate, c`limits, c`executed)
    ensures c.log == old(c.log) + [Entry(a.clock, UeaEvent(c.e, a))]
  {
    var txType := if args.payload == [] then Funds else FundsAndPayload;
    c.Emit(a.clock, UniversalTx(c.e.cea(a.pushAccount), a.pushAccount, TokenOf(a), args.amount, args.payload,
                               args.revertRecipient, txType, [], true));
  }

  method SendUniversalTxToUea(c: Chain, a: FinalizeArgs, ghost l: Ledger) returns (r: Status)
    requires StagedFrom(c, a, l)
    requires a.limitMint.Some? ==> a.limitMint.value in c.limits
    modifies c`lamports, c`tokens, c`limits, c`log
    ensures unchanged(c`config, c`tss, c`protocolFee, c`rate, c`executed)
    ensures match UeaCheck(c.e, old(c.limits), c.rate.epochDuration, old(c.Accounts()), a)
            case Err(err) => r == Fail(err)
            case Ok(limit) =>
              && r == Pass
              && c.Accounts() == Returned(c.e, old(c.Accounts()), a, UeaArgsOf(a).amount)
              && c.limits == old(c.limits)[a.limitMint.value := limit]
              && c.log == old(c.log) + [Entry(a.clock, UeaEvent(c.e, a))]
  {
    var metered := MeterUeaArgs(c, a);
    if metered.Err? {
      return Fail(metered.error);
    }
    var args := metered.value;
    r := ReturnToVault(c, a, args.amount, l);
    ReportReturn(c, a, args);
  }

  // ---- The call ----

  /** The target program's call ends as it will: with an error, or with new balances. */
  method InvokeTarget(c: Chain, a: FinalizeArgs) returns (r: Status)
    modifies c`lamports, c`tokens
    ensures unchanged(c`config, c`tss, c`protocolFee, c`rate, c`limits, c`executed, c`log)
    ensures r == Require(a.cpi.CpiReturned?, CpiFailed)
    ensures r.Pass? ==> c.Accounts() == a.cpi.ledger
  {
    r := Pass;
    :- Require(a.cpi.CpiReturned?, CpiFailed);
    c.lamports, c.tokens := a.cpi.ledger.lamports, a.cpi.ledger.tokens;
  }

  /** What the runtime guarantees of the program an execute call runs. */
  ghost predicate TargetIsConfined(e: Env, staged: Ledger, a: FinalizeArgs) {
    ModeOf(e, a) == CpiMode && a.cpi.CpiReturned? ==> CpiAdmitted(e, staged, a)
  }

  /** Execute mode from the staged balances on, with the event that closes the call. */
  method ExecuteAndReport(c: Chain, a: FinalizeArgs, ghost l: Ledger, ghost w: World) returns (r: Status)
    requires StagedFrom(c, a, l) && !IsWithdraw(a) && TargetIsConfined(c.e, c.Accounts(), a)
    requires a.limitMint.Some? ==> a.limitMint.value in w.limits
    requires c.Value() == w.(ledger := c.Accounts(), executed := w.executed + {a.subTxId})
    modifies c`lamports, c`tokens, c`limits, c`log
    ensures unchanged(c`config, c`tss, c`protocolFee, c`rate, c`executed)
    ensures match ExecuteAction(c.e, w, Staged(c.e, l, a), a)
            case Err(err) => r == Fail(err)
            case Ok(o) => r == Pass && c.Value() == o.world && c.log == old(c.log) + o.log
  {
    if a.destinationProgram == c.e.programId {
      :- SendUniversalTxToUea(c, a, l);
    } else {
      :- InvokeTarget(c, a);
    }
    c.Emit(a.clock, FinalizedEvent(a));
    return Pass;
  }

  /** Withdraw mode from the staged balances on, with the event that closes the call. */
  method WithdrawAndReport(c: Chain, a: FinalizeArgs, ghost l: Ledger, ghost w: World) returns (r: Status)
    requires StagedFrom(c, a, l) && IsWithdraw(a) && a.recipient.Some? && a.amount > 0
    requires !IsNative(a) ==> a.recipientAta.Some? && a.recipientAta.value in l.tokens
    requires c.Value() == w.(ledger := c.Accounts(), executed := w.executed + {a.subTxId})
    modifies c`lamports, c`tokens, c`log
    ensures unchanged(c`config, c`tss, c`protocolFee, c`rate, c`limits, c`executed)
    ensures match WithdrawAction(c.e, w, l, a)
            case Err(err) => r == Fail(err)
            case Ok(o) => r == Pass && c.Value() == o.world && c.log == old(c.log) + o.log
  {
    r := Pass;
    :- InternalWithdraw(c, a, l);
    c.Emit(a.clock, FinalizedEvent(a));
  }

  /** The account list: its constraints, and the executed marker, which is created
      before anything else is looked at. */
  method OpenFinalizeMarker(c: Chain, a: FinalizeArgs) returns (r: Status)
    modifies c`lamports, c`executed
    ensures unchanged(c`tokens, c`config, c`tss, c`protocolFee, c`rate, c`limits, c`log)
    ensures r == FinalizeAccounts(c.e, old(c.Value()), a)
    ensures r.Pass? ==> c.Accounts() == Marked(c.e, old(c.Value()), a) && c.executed == old(c.executed) + {a.subTxId}
  {
    var marker := c.e.executedAccount(a.subTxId);
    :- FinalizeAccounts(c.e, c.Value(), a);
    r := c.ChargeRent(a.caller, marker, c.e.minimumBalance(EXECUTED_SUB_TX_LEN));
    c.executed := c.executed + {a.subTxId};
  }

  /** The checks that read and change nothing. */
  method CheckFinalize(c: Chain, a: FinalizeArgs) returns (r: Status)
    ensures r == FinalizeChecked(c.e, c.config, c.tss, a)
  {
    var request := ValidateFinalizeRequest(a);
    :- Require(!c.config.paused, Paused);
    if request.Err? {
      return Fail(request.error);
    }
    if request.value.isWithdraw {
      r := VerifyWithdraw(c, a);
    } else {
      r := VerifyExecute(c, a);
    }
  }

  /** Staging and the action, on the balances that the marker left. */
  method StageAndDispatch(c: Chain, a: FinalizeArgs, ghost w: World) returns (r: Status)
    requires ValidEnv(c.e) && FinalizeAccounts(c.e, w, a).Pass? && ValidateFinalizeRequest(a).Ok?
    requires c.Value() == w.(ledger := Marked(c.e, w, a), executed := w.executed + {a.subTxId})
    requires StageCheck(c.e, c.Accounts(), a).Pass? ==> TargetIsConfined(c.e, Staged(c.e, c.Accounts(), a), a)
    modifies c`lamports, c`tokens, c`limits, c`log
    ensures unchanged(c`config, c`tss, c`protocolFee, c`rate, c`executed)
    ensures var marked := old(c.Accounts());
            if StageCheck(c.e, marked, a).Fail? then r == StageCheck(c.e, marked, a)
            else
              match if IsWithdraw(a) then WithdrawAction(c.e, w, marked, a)
                  else ExecuteAction(c.e, w, Staged(c.e, marked, a), a)
              case Err(err) => r == Fail(err)
              case Ok(o) => r == Pass && c.Value() == o.world && c.log == old(c.log) + o.log
  {
    ghost var marked := c.Accounts();
    :- StageAssetsToCea(c, a);
    if IsWithdraw(a) {
      r := WithdrawAndReport(c, a, marked, w);
    } else {
      r := ExecuteAndReport(c, a, marked, w);
    }
  }

  method TryFinalize(c: Chain, a: FinalizeArgs) returns (r: Status)
    requires ValidEnv(c.e)
    requires Stageable(c.e, c.Value(), a) ==> TargetIsConfined(c.e, StagedLedger(c.e, c.Value(), a), a)
    modifies c
    ensures match FinalizeTx(c.e, old(c.Value()), a)
            case Err(err) => r == Fail(err)
            case Ok(o) => r == Pass && c.Value() == o.world && c.log == old(c.log) + o.log
  {
    ghost var w := c.Value();
    :- OpenFinalizeMarker(c, a);
    :- CheckFinalize(c, a);
    r := StageAndDispatch(c, a, w);
  }

  method FinalizeUniversalTx(c: Chain, a: FinalizeArgs) returns (r: Status)
    requires ValidEnv(c.e)
    requires Stageable(c.e, c.Value(), a) ==> TargetIsConfined(c.e, StagedLedger(c.e, c.Value(), a), a)
    modifies c
    ensures match FinalizeTx(c.e, old(c.Value()), a)
            case Err(err) => r == Fail(err) && c.Value() == old(c.Value()) && c.log == old(c.log)
            case Ok(o) => r == Pass && c.Value() == o.world && c.log == old(c.log) + o.log
  {
    var w, log := c.Value(), c.log;
    r := TryFinalize(c, a);
    if r.Fail? {
      c.Rollback(w, log);
    }
  }
}
