/** Where each field of a signed message lies in its bytes. */
module SignedLayout {
  import opened Bytes
  import opened Results
  import opened Encoding
  import opened Messages

  /** The digit of weight 256^k. */
  function Digit(n: nat, k: nat): byte {
    n / Pow256(k) % 256
  }

  /** n as the eight bytes s, most significant first. */
  predicate IsU64(s: Bytes, n: u64) {
    |s| == 8 && forall i :: 0 <= i < 8 ==> s[i] == Digit(n, 7 - i)
  }

  /** The prefix, the instruction and the chain id. */
  ghost predicate HeaderAt(s: Bytes, instructionId: byte, chainId: Bytes) {
    && |s| >= 15 + |chainId|
    && s[..14] == PREFIX && s[14] == instructionId && s[15..15 + |chainId|] == chainId
  }

  predicate CallFields(t: Bytes, push: Bytes20, token: Pubkey, gasFee: u64, target: Pubkey) {
    && |t| >= 156
    && t[64..84] == push && t[84..116] == token && IsU64(t[116..124], gasFee) && t[124..156] == target
  }

  /** A mint only for tokens, then the recipient and the gas fee, and nothing more. */
  predicate PayoutFields(t: Bytes, mint: Option<Pubkey>, recipient: Pubkey, gasFee: u64) {
    if mint.Some?
    then |t| == 136 && t[64..96] == mint.value && t[96..128] == recipient && IsU64(t[128..136], gasFee)
    else |t| == 104 && t[64..96] == recipient && IsU64(t[96..104], gasFee)
  }

  predicate IdFields(t: Bytes, sub: Bytes32, utx: Bytes32) {
    |t| >= 64 && t[..32] == sub && t[32..64] == utx
  }

  /** What lies behind the amount. */
  ghost predicate Fields(t: Bytes, m: Message) {
    && IdFields(t, m.subTxId, m.universalTxId)
    && match m
       case Withdraw(_, _, push, token, gasFee, target, _) => |t| == 156 && CallFields(t, push, token, gasFee, target)
       case Execute(_, _, push, token, gasFee, target, _, accounts, ixData) =>
         && CallFields(t, push, token, gasFee, target)
         && t[156..] == SerializedAccounts(accounts) + SerializeIxData(ixData)
       case Revert(_, _, mint, recipient, gasFee, _) => PayoutFields(t, mint, recipient, gasFee)
       case Rescue(_, _, mint, recipient, gasFee, _) => PayoutFields(t, mint, recipient, gasFee)
  }

  lemma U64Digits(n: u64)
    ensures IsU64(EncodeU64(n), n)
  {
    forall i | 0 <= i < 8
      ensures EncodeU64(n)[i] == Digit(n, 7 - i)
    {
      BigEndianDigit(n, 8, i);
    }
  }

  lemma CallLies(sub: Bytes32, utx: Bytes32, push: Bytes20, token: Pubkey, fee: Bytes, target: Pubkey, tail: Bytes)
    requires |fee| == 8
    ensures var t := sub + utx + push + token + fee + target + tail;
            && |t| == 156 + |tail| && IdFields(t, sub, utx)
            && t[64..84] == push && t[84..116] == token && t[116..124] == fee && t[124..156] == target
            && t[156..] == tail
  {
    var head := sub + utx + push + token + fee;
    Associate(head, target, tail);
    SixParts(sub, utx, push, token, fee, target + tail);
    Seam(head + target, tail);
    TargetLies(head, target, tail);
  }

  lemma TargetLies(head: Bytes, target: Bytes, tail: Bytes)
    ensures (head + target + tail)[|head|..|head| + |target|] == target
  {
  }

  lemma SolPayoutLies(sub: Bytes32, utx: Bytes32, recipient: Pubkey, fee: Bytes)
    requires |fee| == 8
    ensures var t := sub + utx + recipient + fee;
            |t| == 104 && IdFields(t, sub, utx) && t[64..96] == recipient && t[96..104] == fee
  {
    FourParts(sub, utx, recipient, fee);
  }

  lemma TokenPayoutLies(sub: Bytes32, utx: Bytes32, mint: Pubkey, recipient: Pubkey, fee: Bytes)
    requires |fee| == 8
    ensures var t := sub + utx + mint + recipient + fee;
            && |t| == 136 && IdFields(t, sub, utx)
            && t[64..96] == mint && t[96..128] == recipient && t[128..136] == fee
  {
    var t := sub + utx + mint + recipient + fee;
    assert t == t + [];
    SixParts(sub, utx, mint, recipient, fee, []);
  }

  lemma PayoutLies(m: Message)
    requires m.Revert? || m.Rescue?
    ensures var t := Flatten(AdditionalData(m));
            IdFields(t, m.subTxId, m.universalTxId) && PayoutFields(t, m.mint, m.recipient, m.gasFee)
  {
    var fee := EncodeU64(m.gasFee);
    U64Digits(m.gasFee);
    if m.mint.Some? {
      FlattenFive(m.subTxId, m.universalTxId, m.mint.value, m.recipient, fee);
      TokenPayoutLies(m.subTxId, m.universalTxId, m.mint.value, m.recipient, fee);
    } else {
      FlattenFour(m.subTxId, m.universalTxId, m.recipient, fee);
      SolPayoutLies(m.subTxId, m.universalTxId, m.recipient, fee);
    }
  }

  lemma FieldsLie(m: Message)
    ensures Fields(Flatten(AdditionalData(m)), m)
  {
    var fee := EncodeU64(m.gasFee);
    U64Digits(m.gasFee);
    match m
    case Withdraw(sub, utx, push, token, gasFee, target, _) =>
      FlattenSix(sub, utx, push, token, fee, target);
      CallLies(sub, utx, push, token, fee, target, []);
      assert sub + utx + push + token + fee + target == sub + utx + push + token + fee + target + [];
    case Execute(sub, utx, push, token, gasFee, target, _, accounts, ixData) =>
      var rows, data := SerializedAccounts(accounts), SerializeIxData(ixData);
      FlattenEight(sub, utx, push, token, fee, target, rows, data);
      Associate(sub + utx + push + token + fee + target, rows, data);
      CallLies(sub, utx, push, token, fee, target, rows + data);
    case Revert(_, _, _, _, _, _) => PayoutLies(m);
    case Rescue(_, _, _, _, _, _) => PayoutLies(m);
  }

  lemma HeaderLies(chainId: Bytes, instructionId: byte, rest: Bytes)
    ensures var s := Header(chainId, instructionId) + rest;
            HeaderAt(s, instructionId, chainId) && s[15 + |chainId|..] == rest
  {
    Seam(Header(chainId, instructionId), rest);
  }

  /** The number of the instruction that a message is for. */
  function NumberOf(m: Message): byte {
    if m.Withdraw? then 1 else if m.Execute? then 2 else if m.Revert? then 3 else 4
  }

  /** The signed bytes of any message: the header, the amount, and every field at its offset. */
  lemma SignedBytesAreLaidOut(chainId: Bytes, m: Message)
    ensures var s, at := SignedBytes(chainId, m), 15 + |chainId|;
            && |s| >= at + 8
            && HeaderAt(s, NumberOf(m), chainId) && IsU64(s[at..][..8], m.amount) && Fields(s[at..][8..], m)
  {
    FieldsLie(m);
    U64Digits(m.amount);
    Seam(EncodeU64(m.amount), Flatten(AdditionalData(m)));
    HeaderLies(chainId, InstructionId(m), Body(m));
  }
}
