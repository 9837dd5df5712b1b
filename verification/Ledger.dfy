/** Lamport balances and SPL token accounts, and what a transfer does to them
    (utils/transfers.rs and the System and Token programs it calls). */
module Ledgers {
  import opened Bytes
  import opened Results
  import opened Sums

  datatype TokenAccount = TokenAccount(mint: Pubkey, owner: Pubkey, amount: nat)

  type Positive = n: int | n > 0 witness 1

  /** An account without lamports does not exist. */
  datatype Ledger = Ledger(lamports: map<Pubkey, Positive>, tokens: map<Pubkey, TokenAccount>)

  function Balance(l: Ledger, k: Pubkey): nat {
    if k in l.lamports then l.lamports[k] else 0
  }

  function WithBalance(l: Ledger, k: Pubkey, n: nat): Ledger {
    l.(lamports := if n == 0 then l.lamports - {k} else l.lamports[k := n])
  }

  function Move(l: Ledger, src: Pubkey, dst: Pubkey, n: nat): Ledger
    requires n <= Balance(l, src)
  {
    var debited := WithBalance(l, src, Balance(l, src) - n);
    WithBalance(debited, dst, Balance(debited, dst) + n)
  }

  function MoveTokens(l: Ledger, src: Pubkey, dst: Pubkey, n: nat): Ledger
    requires src in l.tokens && dst in l.tokens && n <= l.tokens[src].amount
  {
    var s := l.tokens[src];
    var debited := l.tokens[src := s.(amount := s.amount - n)];
    var d := debited[dst];
    l.(tokens := debited[dst := d.(amount := d.amount + n)])
  }

  /** What the payer owes when a program-derived account is created: the
      rent-exempt minimum, less what the address already holds. */
  function RentDue(l: Ledger, account: Pubkey, minimum: nat): nat {
    if Balance(l, account) >= minimum then 0 else minimum - Balance(l, account)
  }

  function PayRent(l: Ledger, payer: Pubkey, account: Pubkey, minimum: nat): Ledger
    requires RentDue(l, account, minimum) <= Balance(l, payer)
  {
    Move(l, payer, account, RentDue(l, account, minimum))
  }

  // ---- Totals ----

  ghost function TotalLamports(l: Ledger): int {
    Sum(l.lamports.Keys, k => Balance(l, k))
  }

  /** The tokens of `mint` in account k, if an owner is named only when it owns k. */
  function Weight(l: Ledger, mint: Pubkey, owner: Option<Pubkey>, k: Pubkey): nat {
    if k in l.tokens && l.tokens[k].mint == mint && (owner.None? || l.tokens[k].owner == owner.value)
    then l.tokens[k].amount
    else 0
  }

  /** All tokens of a mint, or those in the accounts of one owner. */
  ghost function Held(l: Ledger, mint: Pubkey, owner: Option<Pubkey>): int {
    Sum(l.tokens.Keys, k => Weight(l, mint, owner, k))
  }

  lemma SetLamports(l: Ledger, k: Pubkey, n: nat)
    ensures TotalLamports(WithBalance(l, k, n)) == TotalLamports(l) - Balance(l, k) + n
  {
    var l' := WithBalance(l, k, n);
    var was, now := a => Balance(l, a), a => Balance(l', a);
    SumUpdate(l.lamports.Keys, was, now, k);
    assert l.lamports.Keys + {k} == l'.lamports.Keys + {k};
    SumExtend(l'.lamports.Keys, l'.lamports.Keys + {k}, now);
  }

  lemma SetToken(l: Ledger, k: Pubkey, t: TokenAccount, mint: Pubkey, owner: Option<Pubkey>)
    ensures var l' := l.(tokens := l.tokens[k := t]);
            Held(l', mint, owner) == Held(l, mint, owner) - Weight(l, mint, owner, k) + Weight(l', mint, owner, k)
  {
    var l' := l.(tokens := l.tokens[k := t]);
    SumUpdate(l.tokens.Keys, k => Weight(l, mint, owner, k), k => Weight(l', mint, owner, k), k);
    assert l'.tokens.Keys == l.tokens.Keys + {k};
  }

  // ---- What a transfer changes ----

  lemma MoveEffect(l: Ledger, src: Pubkey, dst: Pubkey, n: nat)
    requires n <= Balance(l, src)
    ensures var l' := Move(l, src, dst, n);
            && TotalLamports(l') == TotalLamports(l)
            && l'.tokens == l.tokens
            && forall k :: Balance(l', k) == Balance(l, k) - (if k == src then n else 0) + (if k == dst then n else 0)
  {
    var debited := WithBalance(l, src, Balance(l, src) - n);
    SetLamports(l, src, Balance(l, src) - n);
    SetLamports(debited, dst, Balance(debited, dst) + n);
  }

  /** A token transfer between accounts of one mint, seen from any mint and owner. */
  lemma MoveTokensEffect(l: Ledger, src: Pubkey, dst: Pubkey, n: nat, mint: Pubkey, owner: Option<Pubkey>)
    requires src in l.tokens && dst in l.tokens && n <= l.tokens[src].amount
    ensures MoveTokens(l, src, dst, n).lamports == l.lamports
    ensures Held(MoveTokens(l, src, dst, n), mint, owner)
         == Held(l, mint, owner)
            - (if l.tokens[src].mint == mint && (owner.None? || l.tokens[src].owner == owner.value) then n else 0)
            + (if l.tokens[dst].mint == mint && (owner.None? || l.tokens[dst].owner == owner.value) then n else 0)
  {
    var s := l.tokens[src];
    var debited := l.(tokens := l.tokens[src := s.(amount := s.amount - n)]);
    var d := debited.tokens[dst];
    SetToken(l, src, s.(amount := s.amount - n), mint, owner);
    SetToken(debited, dst, d.(amount := d.amount + n), mint, owner);
    assert MoveTokens(l, src, dst, n) == debited.(tokens := debited.tokens[dst := d.(amount := d.amount + n)]);
  }

  /** An empty token account adds nothing to any holding. */
  lemma OpenTokenEffect(l: Ledger, k: Pubkey, t: TokenAccount, mint: Pubkey, owner: Option<Pubkey>)
    requires k !in l.tokens && t.amount == 0
    ensures Held(l.(tokens := l.tokens[k := t]), mint, owner) == Held(l, mint, owner)
  {
    SetToken(l, k, t, mint, owner);
  }

  /** Holdings depend on the token accounts alone. */
  lemma HeldTokensOnly(l: Ledger, l': Ledger, mint: Pubkey, owner: Option<Pubkey>)
    requires l.tokens == l'.tokens
    ensures Held(l, mint, owner) == Held(l', mint, owner)
  {
    SumEqual(l.tokens.Keys, k => Weight(l, mint, owner, k), k => Weight(l', mint, owner, k));
  }

  /** Balances determine a ledger: what cannot be told apart by them is equal. */
  lemma SameBalances(l: Ledger, l': Ledger)
    requires l.tokens == l'.tokens && forall k :: Balance(l, k) == Balance(l', k)
    ensures l == l'
  {
    forall k
      ensures k in l.lamports <==> k in l'.lamports
    {
      assert Balance(l, k) == Balance(l', k);
    }
    forall k | k in l.lamports
      ensures l.lamports[k] == l'.lamports[k]
    {
      assert Balance(l, k) == Balance(l', k);
    }
    assert l.lamports == l'.lamports;
  }
}
