/** The on-chain side of the account list: unpacking the writable flags, checking
    the accounts, and the two length-prefixed buffers that are signed
    (utils/encoding.rs, utils/validation.rs, reconstruct_accounts_from_flags). */
module Encoding {
  import opened Bytes
  import opened Results
  import opened Arithmetic

  datatype AccountMeta = AccountMeta(pubkey: Pubkey, isWritable: bool)

  /** An account as it arrives with the transaction. */
  datatype AccountInfo = AccountInfo(key: Pubkey, isSigner: bool, isWritable: bool)

  // ---- Bits ----

  function Pow2(n: nat): (p: nat)
    ensures p > 0
  {
    if n == 0 then 1 else 2 * Pow2(n - 1)
  }

  /** `(b >> shift) & 1 == 1` */
  predicate BitAt(b: nat, shift: nat)
    decreases shift
  {
    if shift == 0 then b % 2 == 1 else BitAt(b / 2, shift - 1)
  }

  /** Shifting is dividing: bit `shift` is the one of weight 2^shift. */
  lemma {:induction false} BitWeight(b: nat, shift: nat)
    ensures BitAt(b, shift) <==> b / Pow2(shift) % 2 == 1
    decreases shift
  {
    if shift > 0 {
      BitWeight(b / 2, shift - 1);
      NestedQuotient(b, 2, Pow2(shift - 1));
      assert Quotient(Quotient(b, 2), Pow2(shift - 1)) == b / 2 / Pow2(shift - 1);
      assert Quotient(b, Product(2, Pow2(shift - 1))) == b / Pow2(shift);
    }
  }

  /** `b | (1 << shift)`, bit by bit */
  function SetBitAt(b: nat, shift: nat, width: nat): (r: nat)
    requires shift < width && b < Pow2(width)
    ensures r < Pow2(width)
    decreases shift
  {
    assert b / 2 < Pow2(width - 1);
    if shift == 0 then 2 * (b / 2) + 1 else 2 * SetBitAt(b / 2, shift - 1, width - 1) + b % 2
  }

  lemma {:induction false} SetBitEffect(b: nat, shift: nat, width: nat, t: nat)
    requires shift < width && b < Pow2(width)
    ensures BitAt(SetBitAt(b, shift, width), t) == (t == shift || BitAt(b, t))
    decreases shift
  {
    var r := SetBitAt(b, shift, width);
    if shift == 0 {
      assert r / 2 == b / 2;
    } else {
      assert r / 2 == SetBitAt(b / 2, shift - 1, width - 1) && r % 2 == b % 2;
      if t > 0 {
        SetBitEffect(b / 2, shift - 1, width - 1, t - 1);
      }
    }
  }

  lemma {:induction false} ZeroHasNoBits(shift: nat)
    ensures !BitAt(0, shift)
  {
    if shift > 0 {
      ZeroHasNoBits(shift - 1);
    }
  }

  /** Bit j of a byte, most significant first. */
  predicate Bit(b: byte, j: int)
    requires 0 <= j < 8
  {
    BitAt(b, 7 - j)
  }

  function WithBit(b: byte, j: int): (r: byte)
    requires 0 <= j < 8
  {
    assert Pow2(8) == 256;
    SetBitAt(b, 7 - j, 8)
  }

  lemma WithBitEffect(b: byte, j: int, k: int)
    requires 0 <= j < 8 && 0 <= k < 8
    ensures Bit(WithBit(b, j), k) == (k == j || Bit(b, k))
  {
    assert Pow2(8) == 256;
    SetBitEffect(b, 7 - j, 8, 7 - k);
  }

  predicate Flag(flags: Bytes, i: nat)
    requires i < 8 * |flags|
  {
    Bit(flags[i / 8], i % 8)
  }

  /** Account i is marked by the bit of weight 2^(7 - i % 8) of byte i / 8. */
  predicate MarkSet(flags: Bytes, i: nat)
    requires i < 8 * |flags|
  {
    flags[i / 8] / Pow2(7 - i % 8) % 2 == 1
  }

  lemma FlagsAreMarks(flags: Bytes)
    ensures forall i: nat | i < 8 * |flags| :: Flag(flags, i) == MarkSet(flags, i)
  {
    forall i: nat | i < 8 * |flags|
      ensures Flag(flags, i) == MarkSet(flags, i)
    {
      BitWeight(flags[i / 8], 7 - i % 8);
    }
  }

  /** `(n + 7) / 8`: the flag bytes needed for n accounts. */
  function FlagBytes(n: nat): nat {
    (n + 7) / 8
  }

  function ReconstructAccountsFromFlags(remaining: seq<AccountInfo>, flags: Bytes): (metas: seq<AccountMeta>)
    requires |flags| == FlagBytes(|remaining|)
    ensures |metas| == |remaining|
    ensures forall i :: 0 <= i < |metas| ==> metas[i] == AccountMeta(remaining[i].key, MarkSet(flags, i))
  {
    FlagsAreMarks(flags);
    seq(|remaining|, i requires 0 <= i < |remaining| => AccountMeta(remaining[i].key, Flag(flags, i)))
  }

  /** The zip loop of validate_remaining_accounts. Lengths and keys agree because
      the metas were just rebuilt from the same accounts. */
  function ValidateRemainingAccounts(metas: seq<AccountMeta>, remaining: seq<AccountInfo>): (r: Status)
    requires |metas| == |remaining|
    ensures r.Pass? <==> forall i :: 0 <= i < |metas| ==>
              !remaining[i].isSigner && (metas[i].isWritable ==> remaining[i].isWritable)
    ensures r.Fail? ==> r.error == AccountWritableFlagMismatch || r.error == UnexpectedOuterSigner
  {
    if metas == [] then Pass
    else if metas[0].isWritable && !remaining[0].isWritable then Fail(AccountWritableFlagMismatch)
    else if remaining[0].isSigner then Fail(UnexpectedOuterSigner)
    else
      var rest := ValidateRemainingAccounts(metas[1..], remaining[1..]);
      assert rest.Pass? ==> forall i :: 0 < i < |metas| ==>
        metas[1..][i - 1] == metas[i] && remaining[1..][i - 1] == remaining[i];
      assert (forall i :: 0 <= i < |metas| ==>
                !remaining[i].isSigner && (metas[i].isWritable ==> remaining[i].isWritable))
        ==> rest.Pass?;
      rest
  }

  // ---- Signed buffers ----

  /** A boolean as the byte that is signed. */
  function FlagByte(b: bool): byte {
    if b then 1 else 0
  }

  ghost function AccountRows(accounts: seq<AccountMeta>): (s: Bytes)
    ensures |s| == 33 * |accounts|
  {
    if accounts == [] then []
    else
      var last := accounts[|accounts| - 1];
      AccountRows(accounts[..|accounts| - 1]) + last.pubkey + [FlagByte(last.isWritable)]
  }

  ghost function SerializedAccounts(accounts: seq<AccountMeta>): Bytes {
    BigEndian(|accounts|, 4) + AccountRows(accounts)
  }

  method SerializeGatewayAccounts(accounts: seq<AccountMeta>) returns (buf: Bytes)
    ensures buf == SerializedAccounts(accounts)
  {
    buf := BigEndian(|accounts|, 4);
    for i := 0 to |accounts|
      invariant buf == BigEndian(|accounts|, 4) + AccountRows(accounts[..i])
    {
      assert accounts[..i + 1][..i] == accounts[..i];
      buf := buf + accounts[i].pubkey;
      buf := buf + [FlagByte(accounts[i].isWritable)];
    }
    assert accounts[..|accounts|] == accounts;
  }

  function SerializeIxData(ixData: Bytes): Bytes {
    BigEndian(|ixData|, 4) + ixData
  }

  lemma {:induction false} AccountRowsPrepend(a: AccountMeta, rest: seq<AccountMeta>)
    ensures AccountRows([a] + rest) == a.pubkey + [FlagByte(a.isWritable)] + AccountRows(rest)
  {
    if rest == [] {
      assert ([a] + rest)[..0] == [];
    } else {
      var n := |rest|;
      assert ([a] + rest)[..n] == [a] + rest[..n - 1];
      AccountRowsPrepend(a, rest[..n - 1]);
    }
  }
}
