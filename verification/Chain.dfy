/** The accounts as the program updates them: one object whose fields are the
    balances, the program's own accounts and the log, and the transfers every
    handler is made of (utils/transfers.rs, tss.rs). A handler that fails leaves
    the object anyhow; the instruction around it puts everything back. */
module Chains {
  import opened Bytes
  import opened Results
  import opened Ledgers
  import opened RateLimit
  import opened Messages
  import opened State
  import opened Payout

  class Chain {
    const e: Env
    var lamports: map<Pubkey, Positive>
    var tokens: map<Pubkey, TokenAccount>
    var config: Config
    var tss: Tss
    var protocolFee: u64
    var rate: RateConfig
    var limits: map<Pubkey, TokenLimit>
    var executed: set<Bytes32>
    var log: seq<Entry>

    constructor (e: Env, w: World)
      ensures this.e == e && Value() == w && log == []
    {
      this.e, log := e, [];
      lamports, tokens := w.ledger.lamports, w.ledger.tokens;
      config, tss, protocolFee := w.config, w.tss, w.protocolFee;
      rate, limits, executed := w.rate, w.limits, w.executed;
    }

    function Accounts(): Ledger
      reads this
    {
      Ledger(lamports, tokens)
    }

    function Value(): World
      reads this
    {
      World(Accounts(), config, tss, protocolFee, rate, limits, executed)
    }

    /** The runtime discards what a failed instruction did. */
    method Rollback(w: World, log: seq<Entry>)
      modifies this
      ensures Value() == w && this.log == log
    {
      this.log := log;
      lamports, tokens := w.ledger.lamports, w.ledger.tokens;
      config, tss, protocolFee := w.config, w.tss, w.protocolFee;
      rate, limits, executed := w.rate, w.limits, w.executed;
    }

    method Emit(clock: Clock, event: Event)
      modifies this`log
      ensures log == old(log) + [Entry(clock, event)]
    {
      log := log + [Entry(clock, event)];
    }

    // ---- Transfers ----

    method SetLamportsOf(k: Pubkey, n: nat)
      modifies this`lamports
      ensures Accounts() == WithBalance(old(Accounts()), k, n)
    {
      if n == 0 {
        lamports := lamports - {k};
      } else {
        lamports := lamports[k := n];
      }
    }

    /** The System program's transfer. */
    method SystemTransfer(src: Pubkey, dst: Pubkey, n: nat) returns (r: Status)
      modifies this`lamports
      ensures r == Require(n <= Balance(old(Accounts()), src), InsufficientLamports)
      ensures r.Pass? ==> Accounts() == Move(old(Accounts()), src, dst, n)
    {
      r := Pass;
      :- Require(n <= Balance(Accounts(), src), InsufficientLamports);
      SetLamportsOf(src, Balance(Accounts(), src) - n);
      SetLamportsOf(dst, Balance(Accounts(), dst) + n);
    }

    /** The Token program's transfer. */
    method SplTransfer(src: Pubkey, dst: Pubkey, authority: Pubkey, n: nat) returns (r: Status)
      modifies this`tokens
      ensures var l := old(Accounts());
              r == Require(Transferable(l, src, dst, authority, n), TokenTransferFailed)
      ensures r.Pass? ==> Accounts() == MoveTokens(old(Accounts()), src, dst, n)
    {
      r := Pass;
      :- Require(Transferable(Accounts(), src, dst, authority, n), TokenTransferFailed);
      tokens := tokens[src := tokens[src].(amount := tokens[src].amount - n)];
      tokens := tokens[dst := tokens[dst].(amount := tokens[dst].amount + n)];
    }

    method PdaSystemTransfer(src: Pubkey, dst: Pubkey, n: nat) returns (r: Status)
      modifies this`lamports
      ensures r == Require(n <= Balance(old(Accounts()), src), InsufficientLamports)
      ensures r.Pass? ==> Accounts() == Move(old(Accounts()), src, dst, n)
    {
      if n == 0 {
        MoveNothing(Accounts(), src, dst);
        return Pass;
      }
      r := SystemTransfer(src, dst, n);
    }

    method PdaSplTransfer(src: Pubkey, dst: Pubkey, authority: Pubkey, n: nat) returns (r: Status)
      modifies this`tokens
      ensures r == Require(n == 0 || Transferable(old(Accounts()), src, dst, authority, n), TokenTransferFailed)
      ensures r.Pass? && src in old(tokens) && dst in old(tokens)
              ==> Accounts() == MoveTokens(old(Accounts()), src, dst, n)
      ensures n == 0 ==> tokens == old(tokens)
    {
      if n == 0 {
        if src in tokens && dst in tokens {
          MoveNoTokens(Accounts(), src, dst);
        }
        return Pass;
      }
      r := SplTransfer(src, dst, authority, n);
    }

    /** What Anchor and the token programs charge for a new account. */
    method ChargeRent(payer: Pubkey, account: Pubkey, minimum: nat) returns (r: Status)
      modifies this`lamports
      ensures r == Require(RentDue(old(Accounts()), account, minimum) <= Balance(old(Accounts()), payer),
                           InsufficientLamports)
      ensures r.Pass? ==> Accounts() == PayRent(old(Accounts()), payer, account, minimum)
    {
      r := SystemTransfer(payer, account, RentDue(Accounts(), account, minimum));
    }

    /** The fee vault pays the caller by direct debit and credit. */
    method ReimburseRelayer(caller: Pubkey, subTxId: Bytes32, gasFee: u64, clock: Clock) returns (r: Status)
      modifies this`lamports, this`log
      ensures match Reimbursed(e, old(Accounts()), caller, gasFee)
              case Err(err) => r == Fail(err)
              case Ok(l) =>
                && r == Pass && Accounts() == l
                && log == old(log)
                          + (if gasFee > 0 then [Entry(clock, ProtocolFeeReimbursed(subTxId, caller, gasFee))] else [])
      ensures r.Pass? && e.vault != caller && e.vault != e.feeVault
              ==> Balance(Accounts(), e.vault) == Balance(old(Accounts()), e.vault)
    {
      if gasFee == 0 {
        return Pass;
      }
      var minBalance := e.minimumBalance(FEE_VAULT_LEN);
      :- Require(Balance(Accounts(), e.feeVault) >= minBalance, InsufficientFeePool);
      var available := Balance(Accounts(), e.feeVault) - minBalance;
      :- Require(available >= gasFee, InsufficientFeePool);
      SetLamportsOf(e.feeVault, Balance(Accounts(), e.feeVault) - gasFee);
      SetLamportsOf(caller, Balance(Accounts(), caller) + gasFee);
      Emit(clock, ProtocolFeeReimbursed(subTxId, caller, gasFee));
      return Pass;
    }

    // ---- Signatures ----

    /** Rebuilds the message and checks that the TSS signed it. */
    method ValidateMessage(instructionId: byte, amount: u64, additional: seq<Bytes>,
                           messageHash: Bytes32, signature: Bytes, recoveryId: byte) returns (r: Status)
      ensures r == VerifySignature(e, tss,
                                   Header(tss.chainId, instructionId) + (EncodeU64(amount) + Flatten(additional)),
                                   messageHash, signature, recoveryId)
      ensures r.Pass? <==> SignedByTss(e, tss.ethAddress,
                                       Header(tss.chainId, instructionId) + (EncodeU64(amount) + Flatten(additional)),
                                       messageHash, signature, recoveryId)
    {
      var message := BuildMessage(tss.chainId, instructionId, Some(amount), additional);
      :- Require(e.keccak(message) == messageHash, MessageHashMismatch);
      var publicKey := e.recover(messageHash, recoveryId, signature);
      :- Require(publicKey.Some?, TssAuthFailed);
      var address := e.keccak(publicKey.value)[12..];
      :- Require(address == tss.ethAddress, TssAuthFailed);
      return Pass;
    }
  }

  /** What the Token program checks of a transfer. */
  predicate Transferable(l: Ledger, src: Pubkey, dst: Pubkey, authority: Pubkey, n: nat) {
    && src in l.tokens && dst in l.tokens
    && l.tokens[src].mint == l.tokens[dst].mint
    && l.tokens[src].owner == authority
    && n <= l.tokens[src].amount
  }

  // ---- Transfers in sequence ----

  lemma MoveNothing(l: Ledger, src: Pubkey, dst: Pubkey)
    ensures Move(l, src, dst, 0) == l
  {
    MoveEffect(l, src, dst, 0);
    SameBalances(l, Move(l, src, dst, 0));
  }

  lemma MoveNoTokens(l: Ledger, src: Pubkey, dst: Pubkey)
    requires src in l.tokens && dst in l.tokens
    ensures MoveTokens(l, src, dst, 0) == l
  {
    assert MoveTokens(l, src, dst, 0).tokens == l.tokens;
  }

  /** Two payments along one route are one payment of the sum. */
  lemma MoveTwice(l: Ledger, src: Pubkey, dst: Pubkey, m: nat, n: nat)
    requires m + n <= Balance(l, src)
    ensures n <= Balance(Move(l, src, dst, m), src)
    ensures Move(Move(l, src, dst, m), src, dst, n) == Move(l, src, dst, m + n)
  {
    MoveEffect(l, src, dst, m);
    MoveEffect(Move(l, src, dst, m), src, dst, n);
    MoveEffect(l, src, dst, m + n);
    SameBalances(Move(Move(l, src, dst, m), src, dst, n), Move(l, src, dst, m + n));
  }

  /** A payment that passes through an account, with another payment made from the
      first account in between, leaves nothing behind in the middle. */
  lemma MoveThrough(l: Ledger, src: Pubkey, mid: Pubkey, dst: Pubkey, n: nat, other: Pubkey, fee: nat)
    requires src != mid && n + fee <= Balance(l, src)
    ensures fee <= Balance(Move(l, src, mid, n), src)
    ensures n <= Balance(Move(Move(l, src, mid, n), src, other, fee), mid)
    ensures fee <= Balance(Move(l, src, dst, n), src)
    ensures Move(Move(Move(l, src, mid, n), src, other, fee), mid, dst, n)
         == Move(Move(l, src, dst, n), src, other, fee)
  {
    var staged := Move(l, src, mid, n);
    var paid := Move(staged, src, other, fee);
    MoveEffect(l, src, mid, n);
    MoveEffect(staged, src, other, fee);
    MoveEffect(paid, mid, dst, n);
    MoveEffect(l, src, dst, n);
    MoveEffect(Move(l, src, dst, n), src, other, fee);
    SameBalances(Move(paid, mid, dst, n), Move(Move(l, src, dst, n), src, other, fee));
  }

  /** The same for tokens, with a payment of lamports in between. */
  lemma TokensThrough(l: Ledger, src: Pubkey, mid: Pubkey, dst: Pubkey, n: nat, payer: Pubkey, other: Pubkey, fee: nat)
    requires src in l.tokens && mid in l.tokens && dst in l.tokens && src != mid
    requires n <= l.tokens[src].amount && fee <= Balance(l, payer)
    ensures fee <= Balance(MoveTokens(l, src, mid, n), payer) && fee <= Balance(MoveTokens(l, src, dst, n), payer)
    ensures var paid := Move(MoveTokens(l, src, mid, n), payer, other, fee);
            && mid in paid.tokens && dst in paid.tokens && n <= paid.tokens[mid].amount
            && MoveTokens(paid, mid, dst, n) == Move(MoveTokens(l, src, dst, n), payer, other, fee)
  {
    var paid := Move(MoveTokens(l, src, mid, n), payer, other, fee);
    assert MoveTokens(paid, mid, dst, n).tokens == MoveTokens(l, src, dst, n).tokens;
  }
}
