/** Reverts and rescues step by step (instructions/revert.rs, instructions/rescue.rs),
    proved to do what `PayoutTx` says of the call as a whole. */
module PayoutHandlers {
  import opened Bytes
  import opened Results
  import opened Messages
  import opened State
  import opened Payout
  import opened Chains

  /** The account list: its constraints, and the executed marker, which is created
      before anything else is looked at. */
  method OpenMarker(c: Chain, p: PayoutArgs) returns (r: Status)
    modifies c`lamports, c`executed
    ensures unchanged(c`tokens, c`config, c`tss, c`protocolFee, c`rate, c`limits, c`log)
    ensures r == PayoutAccounts(c.e, old(c.Value()), p)
    ensures r.Pass? ==>
              c.Accounts() == PayoutMarked(c.e, old(c.Value()), p) && c.executed == old(c.executed) + {p.subTxId}
  {
    var marker := c.e.executedAccount(p.subTxId);
    :- PayoutAccounts(c.e, c.Value(), p);
    r := c.ChargeRent(p.caller, marker, c.e.minimumBalance(EXECUTED_SUB_TX_LEN));
    c.executed := c.executed + {p.subTxId};
  }

  /** SOL takes no token accounts; a token takes consistent ones. */
  method CheckTokenAccounts(c: Chain, p: PayoutArgs) returns (r: Status)
    requires p.tokenVault.Some? ==> p.tokenVault.value in c.tokens
    requires p.recipientToken.Some? ==> p.recipientToken.value in c.tokens
    ensures r == TokenAccountsCheck(c.e, c.tokens, p)
  {
    if p.mint.None? {
      :- Require(p.tokenVault.None? && p.recipientToken.None? && !p.tokenProgram, InvalidAccount);
    } else {
      :- Require(p.tokenVault.Some?, InvalidAccount);
      :- Require(p.recipientToken.Some?, InvalidAccount);
      var vault, recipient := c.tokens[p.tokenVault.value], c.tokens[p.recipientToken.value];
      :- Require(vault.mint == p.mint.value, InvalidMint);
      :- Require(vault.owner == c.e.vault, InvalidAccount);
      :- Require(recipient.mint == p.mint.value, InvalidMint);
      :- Require(recipient.owner == p.recipient, InvalidRecipient);
    }
    return Pass;
  }

  /** The signature over the message of this instruction. */
  method CheckSignature(c: Chain, p: PayoutArgs, instructionId: byte, ghost kind: Kind) returns (r: Status)
    requires instructionId == InstructionId(PayoutMessage(p, kind))
    ensures r == VerifySignature(c.e, c.tss, SignedBytes(c.tss.chainId, PayoutMessage(p, kind)), p.messageHash,
                                 p.signature, p.recoveryId)
  {
    if p.mint.None? {
      r := c.ValidateMessage(instructionId, p.amount, [p.subTxId, p.universalTxId, p.recipient, EncodeU64(p.gasFee)],
                             p.messageHash, p.signature, p.recoveryId);
    } else {
      r := c.ValidateMessage(instructionId, p.amount,
                             [p.subTxId, p.universalTxId, p.mint.value, p.recipient, EncodeU64(p.gasFee)],
                             p.messageHash, p.signature, p.recoveryId);
    }
  }

  /** The vault pays, the event is emitted, the relayer is paid back. */
  method PayOut(c: Chain, p: PayoutArgs, event: Event, ghost kind: Kind) returns (r: Status)
    requires p.tokenVault.Some? ==> p.tokenVault.value in c.tokens
    requires p.recipientToken.Some? ==> p.recipientToken.value in c.tokens
    requires TokenAccountsCheck(c.e, c.tokens, p).Pass? && event == PayoutEvent(p, kind)
    modifies c`lamports, c`tokens, c`log
    ensures unchanged(c`config, c`tss, c`protocolFee, c`rate, c`limits, c`executed)
    ensures match PaidOut(c.e, old(c.Accounts()), p)
            case Err(err) => r == Fail(err)
            case Ok(l) => r == Pass && c.Accounts() == l && c.log == old(c.log) + PayoutLog(p, kind)
  {
    if p.mint.None? {
      :- c.PdaSystemTransfer(c.e.vault, p.recipient, p.amount);
    } else {
      :- c.PdaSplTransfer(p.tokenVault.value, p.recipientToken.value, c.e.vault, p.amount);
    }
    c.Emit(p.clock, event);
    r := c.ReimburseRelayer(p.caller, p.subTxId, p.gasFee, p.clock);
  }

  method CheckRevert(c: Chain, p: PayoutArgs, instruction: RevertInstructions) returns (r: Status)
    requires p.tokenVault.Some? ==> p.tokenVault.value in c.tokens
    requires p.recipientToken.Some? ==> p.recipientToken.value in c.tokens
    ensures r == PayoutChecked(c.e, c.Accounts(), c.tss, p, Reverting(instruction))
    ensures r.Pass? ==> TokenAccountsCheck(c.e, c.tokens, p).Pass?
  {
    ghost var kind := Reverting(instruction);
    :- Require(p.amount > 0, InvalidAmount);
    :- Require(instruction.revertRecipient != DEFAULT_KEY, InvalidRecipient);
    :- Require(p.recipient == instruction.revertRecipient, InvalidRecipient);
    :- CheckTokenAccounts(c, p);
    r := CheckSignature(c, p, 3, kind);
  }

  method CheckRescue(c: Chain, p: PayoutArgs) returns (r: Status)
    requires p.tokenVault.Some? ==> p.tokenVault.value in c.tokens
    requires p.recipientToken.Some? ==> p.recipientToken.value in c.tokens
    ensures r == PayoutChecked(c.e, c.Accounts(), c.tss, p, Rescuing)
    ensures r.Pass? ==> TokenAccountsCheck(c.e, c.tokens, p).Pass?
  {
    ghost var kind := Rescuing;
    :- Require(p.amount > 0, InvalidAmount);
    :- Require(p.recipient != DEFAULT_KEY, InvalidRecipient);
    :- CheckTokenAccounts(c, p);
    r := CheckSignature(c, p, 4, kind);
  }

  method TryRevert(c: Chain, p: PayoutArgs, instruction: RevertInstructions) returns (r: Status)
    modifies c
    ensures match PayoutTx(c.e, old(c.Value()), p, Reverting(instruction))
            case Err(err) => r == Fail(err)
            case Ok(o) => r == Pass && c.Value() == o.world && c.log == old(c.log) + o.log
  {
    var token := AssetOf(p.mint);
    :- OpenMarker(c, p);
    :- CheckRevert(c, p, instruction);
    r := PayOut(c, p, Event.RevertUniversalTx(p.subTxId, p.universalTxId, instruction.revertRecipient, token,
                                              p.amount, instruction),
                Reverting(instruction));
  }

  method TryRescue(c: Chain, p: PayoutArgs) returns (r: Status)
    modifies c
    ensures match PayoutTx(c.e, old(c.Value()), p, Rescuing)
            case Err(err) => r == Fail(err)
            case Ok(o) => r == Pass && c.Value() == o.world && c.log == old(c.log) + o.log
  {
    var token := AssetOf(p.mint);
    :- OpenMarker(c, p);
    :- CheckRescue(c, p);
    r := PayOut(c, p, FundsRescued(p.subTxId, p.universalTxId, token, p.amount, RevertInstructions(p.recipient, [])),
                Rescuing);
  }

  method RevertUniversalTx(c: Chain, p: PayoutArgs, instruction: RevertInstructions) returns (r: Status)
    modifies c
    ensures match PayoutTx(c.e, old(c.Value()), p, Reverting(instruction))
            case Err(err) => r == Fail(err) && c.Value() == old(c.Value()) && c.log == old(c.log)
            case Ok(o) => r == Pass && c.Value() == o.world && c.log == old(c.log) + o.log
  {
    var w, log := c.Value(), c.log;
    r := TryRevert(c, p, instruction);
    if r.Fail? {
      c.Rollback(w, log);
    }
  }

  method RescueFunds(c: Chain, p: PayoutArgs) returns (r: Status)
    modifies c
    ensures match PayoutTx(c.e, old(c.Value()), p, Rescuing)
            case Err(err) => r == Fail(err) && c.Value() == old(c.Value()) && c.log == old(c.log)
            case Ok(o) => r == Pass && c.Value() == o.world && c.log == old(c.log) + o.log
  {
    var w, log := c.Value(), c.log;
    r := TryRescue(c, p);
    if r.Fail? {
      c.Rollback(w, log);
    }
  }
}
