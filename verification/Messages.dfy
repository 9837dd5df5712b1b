/** The messages the TSS signs: their bytes (instructions/tss.rs and its callers)
    and a decoder that shows they cannot be confused. */
module Messages {
  import opened Bytes
  import opened Results
  import opened Encoding

  /** A signed message. Revert and rescue carry a mint only when they release tokens. */
  datatype Message =
    | Withdraw(subTxId: Bytes32, universalTxId: Bytes32, pushAccount: Bytes20, token: Pubkey,
               gasFee: u64, target: Pubkey, amount: u64)
    | Execute(subTxId: Bytes32, universalTxId: Bytes32, pushAccount: Bytes20, token: Pubkey,
              gasFee: u64, target: Pubkey, amount: u64, accounts: seq<AccountMeta>, ixData: Bytes)
    | Revert(subTxId: Bytes32, universalTxId: Bytes32, mint: Option<Pubkey>, recipient: Pubkey,
             gasFee: u64, amount: u64)
    | Rescue(subTxId: Bytes32, universalTxId: Bytes32, mint: Option<Pubkey>, recipient: Pubkey,
             gasFee: u64, amount: u64)

  /** "PUSH_CHAIN_SVM" */
  const PREFIX: Bytes := [80, 85, 83, 72, 95, 67, 72, 65, 73, 78, 95, 83, 86, 77]

  function InstructionId(m: Message): byte {
    match m
    case Withdraw(_, _, _, _, _, _, _) => 1
    case Execute(_, _, _, _, _, _, _, _, _) => 2
    case Revert(_, _, _, _, _, _) => 3
    case Rescue(_, _, _, _, _, _) => 4
  }

  function EncodeU64(n: u64): Bytes {
    BigEndian(n, 8)
  }

  /** The fields each caller hands to the validator, in signing order. */
  ghost function AdditionalData(m: Message): seq<Bytes> {
    match m
    case Withdraw(sub, utx, push, token, gasFee, target, _) =>
      [sub, utx, push, token, EncodeU64(gasFee), target]
    case Execute(sub, utx, push, token, gasFee, target, _, accounts, ixData) =>
      [sub, utx, push, token, EncodeU64(gasFee), target, SerializedAccounts(accounts), SerializeIxData(ixData)]
    case Revert(sub, utx, None, recipient, gasFee, _) => [sub, utx, recipient, EncodeU64(gasFee)]
    case Revert(sub, utx, Some(mint), recipient, gasFee, _) => [sub, utx, mint, recipient, EncodeU64(gasFee)]
    case Rescue(sub, utx, None, recipient, gasFee, _) => [sub, utx, recipient, EncodeU64(gasFee)]
    case Rescue(sub, utx, Some(mint), recipient, gasFee, _) => [sub, utx, mint, recipient, EncodeU64(gasFee)]
  }

  ghost function Flatten(parts: seq<Bytes>): Bytes {
    if parts == [] then [] else Flatten(parts[..|parts| - 1]) + parts[|parts| - 1]
  }

  ghost function Header(chainId: Bytes, instructionId: byte): Bytes {
    PREFIX + [instructionId] + chainId
  }

  /** What is signed behind the chain id. */
  ghost function Body(m: Message): Bytes {
    EncodeU64(m.amount) + Flatten(AdditionalData(m))
  }

  ghost function SignedBytes(chainId: Bytes, m: Message): Bytes {
    Header(chainId, InstructionId(m)) + Body(m)
  }

  /** The buffer validate_message grows. */
  method BuildMessage(chainId: Bytes, instructionId: byte, amount: Option<u64>, additional: seq<Bytes>)
      returns (buf: Bytes)
    ensures buf == Header(chainId, instructionId)
                   + ((if amount.Some? then EncodeU64(amount.value) else []) + Flatten(additional))
  {
    buf := BuildHeader(chainId, instructionId);
    ghost var head, value: Bytes := buf, [];
    if amount.Some? {
      value := EncodeU64(amount.value);
      buf := buf + EncodeU64(amount.value);
    } else {
      assert head + value == head;
    }
    var parts := BuildParts(buf, additional);
    Associate(head, value, Flatten(additional));
    return parts;
  }

  /** The prefix, the instruction and the chain id. */
  method BuildHeader(chainId: Bytes, instructionId: byte) returns (buf: Bytes)
    ensures buf == Header(chainId, instructionId)
  {
    buf := PREFIX;
    buf := buf + [instructionId];
    buf := buf + chainId;
  }

  /** The loop over the additional parts. */
  method BuildParts(head: Bytes, additional: seq<Bytes>) returns (buf: Bytes)
    ensures buf == head + Flatten(additional)
  {
    buf := head;
    for i := 0 to |additional|
      invariant buf == head + Flatten(additional[..i])
    {
      assert additional[..i + 1] == additional[..i] + [additional[i]];
      FlattenPush(additional[..i], additional[i]);
      Associate(head, Flatten(additional[..i]), additional[i]);
      buf := buf + additional[i];
    }
    assert additional[..|additional|] == additional;
  }

  // ---- Decoding ----

  function U64At(s: Bytes): u64
    requires |s| == 8
  {
    FromBigEndianBound(s);
    Pow256Values();
    FromBigEndian(s)
  }

  function DecodeRows(rows: Bytes): (accounts: seq<AccountMeta>)
    requires |rows| % 33 == 0
    decreases |rows|
  {
    if rows == [] then []
    else
      var n := |rows| - 33;
      DecodeRows(rows[..n]) + [AccountMeta(rows[n..n + 32], rows[n + 32] == 1)]
  }

  function DecodeWithdraw(amount: u64, s: Bytes): (m: Message)
    requires |s| == 156
    ensures m.Withdraw?
  {
    Withdraw(s[..32], s[32..64], s[64..84], s[84..116], U64At(s[116..124]), s[124..], amount)
  }

  function DecodeExecute(amount: u64, s: Bytes): Option<Message> {
    if |s| < 160 then None
    else
      var n := FromBigEndian(s[156..160]);
      var at := 160 + 33 * n;
      if |s| < at + 4 then None
      else
        var w := DecodeWithdraw(amount, s[..156]);
        Some(Execute(w.subTxId, w.universalTxId, w.pushAccount, w.token, w.gasFee, w.target, amount,
                     DecodeRows(s[160..at]), s[at + 4..]))
  }

  /** The parameters of a revert or a rescue: 104 bytes for SOL, 136 for a token. */
  function DecodePayout(rescue: bool, amount: u64, s: Bytes): Option<Message> {
    if |s| == 104 then
      if rescue then Some(Rescue(s[..32], s[32..64], None, s[64..96], U64At(s[96..]), amount))
      else Some(Revert(s[..32], s[32..64], None, s[64..96], U64At(s[96..]), amount))
    else if |s| == 136 then
      if rescue then Some(Rescue(s[..32], s[32..64], Some(s[64..96]), s[96..128], U64At(s[128..]), amount))
      else Some(Revert(s[..32], s[32..64], Some(s[64..96]), s[96..128], U64At(s[128..]), amount))
    else None
  }

  function DecodeBody(instructionId: byte, body: Bytes): Option<Message> {
    if |body| < 8 then None
    else
      var amount := U64At(body[..8]);
      var rest := body[8..];
      if instructionId == 1 then (if |rest| == 156 then Some(DecodeWithdraw(amount, rest)) else None)
      else if instructionId == 2 then DecodeExecute(amount, rest)
      else if instructionId == 3 then DecodePayout(false, amount, rest)
      else if instructionId == 4 then DecodePayout(true, amount, rest)
      else None
  }

  /** Reads a signed message back, given how long the chain id is. */
  function Decode(chainIdLength: nat, s: Bytes): Option<Message> {
    if |s| < 15 + chainIdLength then None else DecodeBody(s[14], s[15 + chainIdLength..])
  }

  predicate Fits(m: Message) {
    m.Execute? ==> |m.accounts| < TWO_32 && |m.ixData| < TWO_32
  }

  lemma U64RoundTrip(n: u64)
    ensures U64At(EncodeU64(n)) == n
  {
    Pow256Values();
    BigEndianRoundTrip(n, 8);
  }

  /** Where the last row lies. */
  lemma LastRow(front: Bytes, key: Pubkey, flag: byte)
    ensures var rows := front + key + [flag];
            rows[..|rows| - 33] == front && rows[|rows| - 33..|rows| - 1] == key && rows[|rows| - 1] == flag
  {
  }

  lemma {:induction false} RowsRoundTrip(accounts: seq<AccountMeta>)
    ensures |AccountRows(accounts)| % 33 == 0
    ensures DecodeRows(AccountRows(accounts)) == accounts
  {
    if accounts != [] {
      var front, last := accounts[..|accounts| - 1], accounts[|accounts| - 1];
      RowsRoundTrip(front);
      LastRow(AccountRows(front), last.pubkey, FlagByte(last.isWritable));
      assert accounts == front + [last];
    }
  }

  lemma FlattenPush(parts: seq<Bytes>, part: Bytes)
    ensures Flatten(parts + [part]) == Flatten(parts) + part
  {
    assert (parts + [part])[..|parts|] == parts;
  }

  lemma FlattenTwo(a: Bytes, b: Bytes)
    ensures Flatten([a, b]) == a + b
  {
    assert [a, b][..1] == [a] && [a][..0] == [];
    assert Flatten([a]) == [] + a == a;
  }

  lemma FlattenThree(a: Bytes, b: Bytes, c: Bytes)
    ensures Flatten([a, b, c]) == a + b + c
  {
    FlattenTwo(a, b);
    assert [a, b, c][..2] == [a, b];
  }

  lemma FlattenFour(a: Bytes, b: Bytes, c: Bytes, d: Bytes)
    ensures Flatten([a, b, c, d]) == a + b + c + d
  {
    FlattenThree(a, b, c);
    assert [a, b, c, d][..3] == [a, b, c];
  }

  lemma FlattenFive(a: Bytes, b: Bytes, c: Bytes, d: Bytes, e: Bytes)
    ensures Flatten([a, b, c, d, e]) == a + b + c + d + e
  {
    FlattenFour(a, b, c, d);
    assert [a, b, c, d, e][..4] == [a, b, c, d];
  }

  lemma FlattenSix(a: Bytes, b: Bytes, c: Bytes, d: Bytes, e: Bytes, f: Bytes)
    ensures Flatten([a, b, c, d, e, f]) == a + b + c + d + e + f
  {
    FlattenFive(a, b, c, d, e);
    assert [a, b, c, d, e, f][..5] == [a, b, c, d, e];
  }

  lemma FlattenSeven(a: Bytes, b: Bytes, c: Bytes, d: Bytes, e: Bytes, f: Bytes, g: Bytes)
    ensures Flatten([a, b, c, d, e, f, g]) == a + b + c + d + e + f + g
  {
    FlattenSix(a, b, c, d, e, f);
    assert [a, b, c, d, e, f, g][..6] == [a, b, c, d, e, f];
  }

  lemma FlattenEight(a: Bytes, b: Bytes, c: Bytes, d: Bytes, e: Bytes, f: Bytes, g: Bytes, h: Bytes)
    ensures Flatten([a, b, c, d, e, f, g, h]) == a + b + c + d + e + f + g + h
  {
    FlattenSeven(a, b, c, d, e, f, g);
    assert [a, b, c, d, e, f, g, h][..7] == [a, b, c, d, e, f, g];
  }

  ghost function WithdrawFields(sub: Bytes32, utx: Bytes32, push: Bytes20, token: Pubkey, gasFee: u64,
                                target: Pubkey): (s: Bytes)
    ensures |s| == 156
  {
    sub + utx + push + token + EncodeU64(gasFee) + target
  }

  lemma DecodeWithdrawFields(sub: Bytes32, utx: Bytes32, push: Bytes20, token: Pubkey, gasFee: u64, target: Pubkey,
                             amount: u64)
    ensures DecodeWithdraw(amount, WithdrawFields(sub, utx, push, token, gasFee, target))
         == Withdraw(sub, utx, push, token, gasFee, target, amount)
  {
    SixParts(sub, utx, push, token, EncodeU64(gasFee), target);
    U64RoundTrip(gasFee);
  }

  lemma DecodeExecuteParts(s: Bytes, head: Bytes, count: Bytes, rows: Bytes, length: Bytes, ixData: Bytes, amount: u64)
    requires |head| == 156 && |count| == 4 && |length| == 4 && |rows| == 33 * FromBigEndian(count)
    requires s == head + count + rows + length + ixData + []
    ensures var w := DecodeWithdraw(amount, head);
            DecodeExecute(amount, s) == Some(Execute(w.subTxId, w.universalTxId, w.pushAccount, w.token, w.gasFee,
                                                     w.target,
                                                     amount, DecodeRows(rows), ixData))
  {
    SixParts(head, count, rows, length, ixData, []);
    assert s[164 + |rows|..] == s[164 + |rows|..164 + |rows| + |ixData|];
  }

  lemma DecodeExecuteFields(head: Bytes, accounts: seq<AccountMeta>, ixData: Bytes, amount: u64)
    requires |head| == 156 && |accounts| < TWO_32
    ensures var w := DecodeWithdraw(amount, head);
            DecodeExecute(amount, head + SerializedAccounts(accounts) + SerializeIxData(ixData))
            == Some(Execute(w.subTxId, w.universalTxId, w.pushAccount, w.token, w.gasFee, w.target, amount, accounts,
                            ixData))
  {
    var count, rows, length := BigEndian(|accounts|, 4), AccountRows(accounts), BigEndian(|ixData|, 4);
    RowsRoundTrip(accounts);
    Pow256Values();
    BigEndianRoundTrip(|accounts|, 4);
    assert head + (count + rows) + (length + ixData) == head + count + rows + length + ixData + [];
    DecodeExecuteParts(head + (count + rows) + (length + ixData), head, count, rows, length, ixData, amount);
  }

  lemma DecodeSolPayout(rescue: bool, sub: Bytes32, utx: Bytes32, recipient: Pubkey, gasFee: u64, amount: u64)
    ensures DecodePayout(rescue, amount, Flatten([sub, utx, recipient, EncodeU64(gasFee)]))
         == Some(if rescue then Rescue(sub, utx, None, recipient, gasFee, amount)
                 else Revert(sub, utx, None, recipient, gasFee, amount))
  {
    FlattenFour(sub, utx, recipient, EncodeU64(gasFee));
    FourParts(sub, utx, recipient, EncodeU64(gasFee));
    U64RoundTrip(gasFee);
  }

  lemma DecodeSplPayout(rescue: bool, sub: Bytes32, utx: Bytes32, mint: Pubkey, recipient: Pubkey, gasFee: u64,
                        amount: u64)
    ensures DecodePayout(rescue, amount, Flatten([sub, utx, mint, recipient, EncodeU64(gasFee)]))
         == Some(if rescue then Rescue(sub, utx, Some(mint), recipient, gasFee, amount)
                 else Revert(sub, utx, Some(mint), recipient, gasFee, amount))
  {
    FlattenFive(sub, utx, mint, recipient, EncodeU64(gasFee));
    var s := sub + utx + mint + recipient + EncodeU64(gasFee);
    assert s == sub + utx + mint + recipient + EncodeU64(gasFee) + [];
    SixParts(sub, utx, mint, recipient, EncodeU64(gasFee), []);
    assert s[128..] == s[128..136];
    U64RoundTrip(gasFee);
  }

  /** Every shape is read back whole from behind its amount. */
  lemma DecodeFields(m: Message)
    requires Fits(m)
    ensures var rest := Flatten(AdditionalData(m));
            match m
            case Withdraw(_, _, _, _, _, _, amount) => |rest| == 156 && DecodeWithdraw(amount, rest) == m
            case Execute(_, _, _, _, _, _, amount, _, _) => DecodeExecute(amount, rest) == Some(m)
            case Revert(_, _, _, _, _, amount) => DecodePayout(false, amount, rest) == Some(m)
            case Rescue(_, _, _, _, _, amount) => DecodePayout(true, amount, rest) == Some(m)
  {
    match m
    case Withdraw(sub, utx, push, token, gasFee, target, amount) =>
      FlattenSix(sub, utx, push, token, EncodeU64(gasFee), target);
      DecodeWithdrawFields(sub, utx, push, token, gasFee, target, amount);
    case Execute(sub, utx, push, token, gasFee, target, amount, accounts, ixData) =>
      FlattenEight(sub, utx, push, token, EncodeU64(gasFee), target, SerializedAccounts(accounts),
                   SerializeIxData(ixData));
      DecodeWithdrawFields(sub, utx, push, token, gasFee, target, amount);
      DecodeExecuteFields(WithdrawFields(sub, utx, push, token, gasFee, target), accounts, ixData, amount);
    case Revert(sub, utx, None, recipient, gasFee, amount) =>
      DecodeSolPayout(false, sub, utx, recipient, gasFee, amount);
    case Revert(sub, utx, Some(mint), recipient, gasFee, amount) =>
      DecodeSplPayout(false, sub, utx, mint, recipient, gasFee, amount);
    case Rescue(sub, utx, None, recipient, gasFee, amount) =>
      DecodeSolPayout(true, sub, utx, recipient, gasFee, amount);
    case Rescue(sub, utx, Some(mint), recipient, gasFee, amount) =>
      DecodeSplPayout(true, sub, utx, mint, recipient, gasFee, amount);
  }

  lemma DecodeSigned(chainId: Bytes, m: Message)
    requires Fits(m)
    ensures Decode(|chainId|, SignedBytes(chainId, m)) == Some(m)
  {
    var rest := Flatten(AdditionalData(m));
    Seam(Header(chainId, InstructionId(m)), EncodeU64(m.amount) + rest);
    assert Header(chainId, InstructionId(m))[14] == InstructionId(m);
    Seam(EncodeU64(m.amount), rest);
    U64RoundTrip(m.amount);
    DecodeFields(m);
  }

  /** Equal bytes under chain ids of equal length: same chain, same instruction, same fields. */
  lemma SignedBytesInjective(c: Bytes, m: Message, c': Bytes, m': Message)
    requires Fits(m) && Fits(m') && |c| == |c'|
    requires SignedBytes(c, m) == SignedBytes(c', m')
    ensures c == c' && m == m'
  {
    DecodeSigned(c, m);
    DecodeSigned(c', m');
    Seam(Header(c, InstructionId(m)), EncodeU64(m.amount) + Flatten(AdditionalData(m)));
    Seam(Header(c', InstructionId(m')), EncodeU64(m'.amount) + Flatten(AdditionalData(m')));
    Seam(PREFIX + [InstructionId(m)], c);
    Seam(PREFIX + [InstructionId(m')], c');
  }

  /** The chain id carries no length: the bytes of every token revert are also
      those of a SOL revert under a chain id 32 bytes longer, so injectivity needs
      chain ids of equal length. */
  lemma ChainIdIsNotDelimited(c: Bytes, sub: Bytes32, utx: Bytes32, mint: Pubkey, recipient: Pubkey, gasFee: u64,
                              amount: u64)
    ensures SignedBytes(c, Revert(sub, utx, Some(mint), recipient, gasFee, amount))
         == SignedBytes(c + (EncodeU64(amount) + sub[..24]),
                        Revert(utx, mint, None, recipient, gasFee, U64At(sub[24..])))
  {
    FlattenFive(sub, utx, mint, recipient, EncodeU64(gasFee));
    FlattenFour(utx, mint, recipient, EncodeU64(gasFee));
    BigEndianCanonical(sub[24..]);
    assert sub == sub[..24] + sub[24..];
    Shift(PREFIX + [3], c, EncodeU64(amount), sub[..24], sub[24..], utx, mint, recipient, EncodeU64(gasFee));
  }

  lemma Shift(p: Bytes, c: Bytes, a: Bytes, s: Bytes, t: Bytes, u: Bytes, m: Bytes, r: Bytes, g: Bytes)
    ensures p + c + (a + (s + t + u + m + r + g)) == p + (c + (a + s)) + (t + (u + m + r + g))
  {
    assert s + t + u + m + r + g == s + (t + (u + m + r + g));
    assert p + c + (a + (s + (t + (u + m + r + g)))) == p + (c + (a + s)) + (t + (u + m + r + g));
  }
}
