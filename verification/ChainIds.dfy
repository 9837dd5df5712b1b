/** The chain id is signed without its length. When that matters: two chain ids can
    be confused if and only if one is a proper prefix of the other. */
module ChainIds {
  import opened Bytes
  import opened Results
  import opened Encoding
  import opened Messages

  predicate IsPrefix(c: Bytes, c': Bytes) {
    |c| <= |c'| && c == c'[..|c|]
  }

  /** One is a proper prefix of the other. */
  predicate Overlap(c: Bytes, c': Bytes) {
    c != c' && (IsPrefix(c, c') || IsPrefix(c', c))
  }

  /** The bytes of one message under one chain id are those of another message, or
      of another chain. */
  ghost predicate Confusable(c: Bytes, c': Bytes) {
    exists m: Message, m': Message ::
      && Fits(m) && Fits(m')
      && SignedBytes(c, m) == SignedBytes(c', m')
      && (c != c' || m != m')
  }

  // ---- Chain ids that do not overlap are told apart ----

  lemma SameHeader(c: Bytes, m: Message, c': Bytes, m': Message)
    requires SignedBytes(c, m) == SignedBytes(c', m') && |c| <= |c'|
    ensures IsPrefix(c, c') && InstructionId(m) == InstructionId(m')
  {
    var s := SignedBytes(c, m);
    Seam(Header(c, InstructionId(m)), Body(m));
    Seam(Header(c', InstructionId(m')), Body(m'));
    assert s[14] == InstructionId(m) && s[14] == InstructionId(m');
    assert s[15..15 + |c|] == c;
    assert s[15..15 + |c'|] == c';
    SliceOfSlice(s, 15, 15 + |c'|, 0, |c|);
  }

  /** Equal bytes under chain ids that do not overlap: the same chain, the same
      instruction, the same fields. */
  lemma SignedBytesDetermine(c: Bytes, m: Message, c': Bytes, m': Message)
    requires Fits(m) && Fits(m') && !Overlap(c, c')
    requires SignedBytes(c, m) == SignedBytes(c', m')
    ensures c == c' && m == m'
  {
    if |c| <= |c'| {
      SameHeader(c, m, c', m');
    } else {
      SameHeader(c', m', c, m);
    }
    SignedBytesInjective(c, m, c', m');
  }

  // ---- Chain ids that overlap are confused ----

  function Zeros(n: nat): (s: Bytes)
    ensures |s| == n
  {
    seq(n, _ => 0)
  }

  lemma ZerosAdd(m: nat, n: nat)
    ensures Zeros(m) + Zeros(n) == Zeros(m + n)
  {
  }

  /** The execute message whose fixed fields are these 164 bytes. */
  ghost function ExecuteOf(head: Bytes, accounts: seq<AccountMeta>, ixData: Bytes): Message
    requires |head| == 164
  {
    Execute(head[8..40], head[40..72], head[72..92], head[92..124], U64At(head[124..132]), head[132..164],
            U64At(head[..8]),
            accounts, ixData)
  }

  lemma ExecuteBody(head: Bytes, accounts: seq<AccountMeta>, ixData: Bytes)
    requires |head| == 164
    ensures Body(ExecuteOf(head, accounts, ixData)) == head + (SerializedAccounts(accounts) + SerializeIxData(ixData))
  {
    var m := ExecuteOf(head, accounts, ixData);
    FlattenEight(head[8..40], head[40..72], head[72..92], head[92..124], EncodeU64(m.gasFee), head[132..164],
                 SerializedAccounts(accounts), SerializeIxData(ixData));
    BigEndianCanonical(head[..8]);
    BigEndianCanonical(head[124..132]);
    HeadParts(head, SerializedAccounts(accounts), SerializeIxData(ixData));
  }

  lemma HeadParts(head: Bytes, a: Bytes, b: Bytes)
    requires |head| == 164
    ensures head[..8] + (head[8..40] + head[40..72] + head[72..92] + head[92..124] + head[124..132] + head[132..164]
                         + a + b)
         == head + (a + b)
  {
    var middle := head[8..40] + head[40..72] + head[72..92] + head[92..124] + head[124..132] + head[132..164];
    assert middle == head[8..];
    assert head[..8] + head[8..] == head;
  }

  lemma ShiftTail(p: Bytes, c: Bytes, x: Bytes, body: Bytes)
    ensures p + c + (x + body) == p + (c + x) + body
  {
    Associate(p, c, x);
    Associate(p + c, x, body);
  }

  /** Bodies that differ by the tail of the chain id make one signed message. */
  lemma ShiftedBodies(c: Bytes, x: Bytes, m: Message, m': Message)
    requires InstructionId(m) == InstructionId(m') && Body(m) == x + Body(m')
    ensures SignedBytes(c, m) == SignedBytes(c + x, m')
  {
    ShiftTail(PREFIX + [InstructionId(m)], c, x, Body(m'));
  }

  lemma SmallCounts()
    ensures BigEndian(0, 4) == Zeros(4) && BigEndian(1, 4) == [0, 0, 0, 1]
  {
    assert BigEndian(0, 1) == [0] && BigEndian(0, 2) == [0, 0] && BigEndian(0, 3) == [0, 0, 0];
    assert BigEndian(0, 4) == [0, 0, 0, 0];
  }

  lemma NoAccountsBytes(ixData: Bytes)
    ensures SerializedAccounts([]) + SerializeIxData(ixData) == Zeros(4) + (BigEndian(|ixData|, 4) + ixData)
  {
    NoRows();
  }

  lemma NoRows()
    ensures SerializedAccounts([]) == Zeros(4)
  {
    SmallCounts();
  }

  lemma OneRow(key: Pubkey)
    ensures SerializedAccounts([AccountMeta(key, false)]) == [0, 0, 0, 1] + (key + [0])
  {
    var row := AccountMeta(key, false);
    SmallCounts();
    assert [row][..0] == [];
    assert AccountRows([row]) == [] + key + [0] == key + [0];
  }

  lemma OneAccountBytes(key: Pubkey, ixData: Bytes)
    ensures SerializedAccounts([AccountMeta(key, false)]) + SerializeIxData(ixData)
         == [0, 0, 0, 1] + (key + [0]) + (BigEndian(|ixData|, 4) + ixData)
  {
    OneRow(key);
  }

  /** An execute message with these 164 bytes of amount and fixed fields. */
  ghost predicate Heads(m: Message, head: Bytes) {
    |head| == 164 && m.Execute? && Fits(m) && m == ExecuteOf(head, m.accounts, m.ixData)
  }

  /** How many accounts and how much data it carries. */
  ghost predicate Sized(m: Message, accounts: nat, data: nat) {
    m.Execute? && |m.accounts| == accounts && |m.ixData| == data
  }

  /** Without accounts. */
  lemma NoAccounts(head: Bytes, ixData: Bytes, length: Bytes) returns (m: Message)
    requires |head| == 164 && |ixData| < TWO_32 && length == BigEndian(|ixData|, 4)
    ensures Heads(m, head) && Body(m) == head + (Zeros(4) + (length + ixData))
    ensures Sized(m, 0, |ixData|)
  {
    m := ExecuteOf(head, [], ixData);
    ExecuteBody(head, [], ixData);
    NoAccountsBytes(ixData);
  }

  /** And with one read-only account. */
  lemma OneAccount(head: Bytes, key: Pubkey, ixData: Bytes, one: Bytes, length: Bytes) returns (m: Message)
    requires |head| == 164 && |ixData| < TWO_32 && one == BigEndian(1, 4) && length == BigEndian(|ixData|, 4)
    ensures Heads(m, head) && Body(m) == head + (one + (key + [0]) + (length + ixData))
    ensures Sized(m, 1, |ixData|)
  {
    m := ExecuteOf(head, [AccountMeta(key, false)], ixData);
    ExecuteBody(head, [AccountMeta(key, false)], ixData);
    OneAccountBytes(key, ixData);
    SmallCounts();
  }

  /** Two messages whose bodies differ by x, over fields of our choice: those of the
      first begin with x and t, those of the second with t. */
  ghost predicate Twins(x: Bytes, t: Bytes, m: Message, m': Message) {
    && |x| + |t| == 164
    && Heads(m, x + t)
    && (exists rest: Bytes :: |rest| == |x| && Heads(m', t + rest))
    && Body(m) == x + Body(m')
  }

  lemma MakeTwins(x: Bytes, t: Bytes, rest: Bytes, body: Bytes, body': Bytes, m: Message, m': Message)
    requires |x| + |t| == 164 && |rest| == |x|
    requires Heads(m, x + t) && Body(m) == x + t + body
    requires Heads(m', t + rest) && Body(m') == t + rest + body'
    requires x + t + body == x + (t + rest + body')
    ensures Twins(x, t, m, m')
  {
  }

  lemma FarBytes(x: Bytes, t: Bytes, z: Bytes, length: Bytes, b: Bytes, end: Bytes, tail: Bytes)
    requires b + end == tail
    ensures x + t + (z + (length + tail)) == x + (t + (z + length + b) + end)
  {
    Associate(t, z + length + b, end);
    Associate(z + length, b, end);
    Associate(z, length, tail);
    Associate(x, t, z + (length + tail));
  }

  /** Eight bytes and more: the second message's lengths lie in the first one's data. */
  lemma FarApart(x: Bytes, t: Bytes) returns (m: Message, m': Message)
    requires 8 <= |x| <= 64 && |t| == 164 - |x|
    ensures Twins(x, t, m, m')
    ensures Sized(m, 0, |x|) && Sized(m', 0, 0)
  {
    var d := |x|;
    var length, b, end := BigEndian(d, 4), Zeros(d - 8), Zeros(4) + (Zeros(4) + []);
    FarZeros(d);
    var rest := Zeros(4) + length + b;
    var head, head': Bytes := x + t, t + rest;
    FarBytes(x, t, Zeros(4), length, b, end, Zeros(d));
    SmallCounts();
    m := NoAccounts(head, Zeros(d), length);
    m' := NoAccounts(head', [], Zeros(4));
    MakeTwins(x, t, rest, Zeros(4) + (length + Zeros(d)), end, m, m');
  }

  lemma FarZeros(d: nat)
    requires d >= 8
    ensures Zeros(d - 8) + (Zeros(4) + (Zeros(4) + [])) == Zeros(d)
  {
    assert Zeros(4) + (Zeros(4) + []) == Zeros(8);
    ZerosAdd(d - 8, 8);
  }

  lemma NearBytes(x: Bytes, t: Bytes, one: Bytes, b: Bytes, z: Bytes, length: Bytes, r: Bytes, flag: Bytes, end: Bytes)
    ensures x + t + (one + (b + z + length + r + flag) + end)
         == x + (t + (one + b) + (z + (length + (r + (flag + end)))))
  {
    var key := b + z + length + r;
    Associate(b, z, length + (r + (flag + end)));
    Associate(b + z, length, r + (flag + end));
    Associate(b + z + length, r, flag + end);
    Associate(key, flag, end);
    Associate(one, b, z + (length + (r + (flag + end))));
    Associate(t, one + b, z + (length + (r + (flag + end))));
    Associate(one, key + flag, end);
    Associate(x, t, one + (key + flag + end));
  }

  lemma NearKey(d: nat, length: Bytes) returns (key: Pubkey)
    requires 4 <= d <= 28 && |length| == 4
    ensures key == Zeros(d - 4) + Zeros(4) + length + Zeros(28 - d)
  {
    key := Zeros(d - 4) + Zeros(4) + length + Zeros(28 - d);
  }

  lemma NearZeros(d: nat)
    requires d <= 28
    ensures Zeros(28 - d) + ([0] + (Zeros(4) + [])) == Zeros(33 - d)
  {
    assert [0] + (Zeros(4) + []) == Zeros(5);
    ZerosAdd(28 - d, 5);
  }

  lemma NearFirst(head: Bytes, d: nat, one: Bytes, length: Bytes) returns (m: Message)
    requires |head| == 164 && 4 <= d <= 28 && |length| == 4 && one == BigEndian(1, 4)
    ensures Heads(m, head)
    ensures Body(m) == head + (one + (Zeros(d - 4) + Zeros(4) + length + Zeros(28 - d) + [0]) + (Zeros(4) + []))
    ensures Sized(m, 1, 0)
  {
    var key := NearKey(d, length);
    SmallCounts();
    m := OneAccount(head, key, [], one, Zeros(4));
  }

  lemma NearSecond(t: Bytes, d: nat, one: Bytes, length: Bytes) returns (m: Message)
    requires 4 <= d <= 28 && |t| == 164 - d && |one| == 4 && length == BigEndian(33 - d, 4)
    ensures Heads(m, t + (one + Zeros(d - 4)))
    ensures Body(m) == t + (one + Zeros(d - 4)) + (Zeros(4) + (length + Zeros(33 - d)))
    ensures Sized(m, 0, 33 - d)
  {
    m := NoAccounts(t + (one + Zeros(d - 4)), Zeros(33 - d), length);
  }

  lemma NearTwins(x: Bytes, t: Bytes, one: Bytes, b: Bytes, z: Bytes, length: Bytes, r: Bytes, flag: Bytes, end: Bytes,
                  data: Bytes, m: Message, m': Message)
    requires |x| + |t| == 164 && |one| + |b| == |x| && data == r + (flag + end)
    requires Heads(m, x + t) && Body(m) == x + t + (one + (b + z + length + r + flag) + end)
    requires Heads(m', t + (one + b)) && Body(m') == t + (one + b) + (z + (length + data))
    ensures Twins(x, t, m, m')
  {
    NearBytes(x, t, one, b, z, length, r, flag, end);
    MakeTwins(x, t, one + b, one + (b + z + length + r + flag) + end, z + (length + data), m, m');
  }

  /** Four to seven bytes: they lie in the key of the first one's only account. */
  lemma Near(x: Bytes, t: Bytes) returns (m: Message, m': Message)
    requires 4 <= |x| <= 28 && |t| == 164 - |x|
    ensures Twins(x, t, m, m')
    ensures Sized(m, 1, 0) && Sized(m', 0, 33 - |x|)
  {
    var d := |x|;
    var one, length := BigEndian(1, 4), BigEndian(33 - d, 4);
    m := NearFirst(x + t, d, one, length);
    m' := NearSecond(t, d, one, length);
    NearZeros(d);
    NearTwins(x, t, one, Zeros(d - 4), Zeros(4), length, Zeros(28 - d), [0], Zeros(4) + [], Zeros(33 - d), m, m');
  }

  lemma VeryNearBytes(x: Bytes, t: Bytes, zd: Bytes, one: Bytes, u: Bytes, v: Bytes, flag: Bytes, tail: Bytes,
                      z: Bytes, size: Bytes)
    requires zd + one + u == z + size
    ensures x + t + (z + (size + (v + flag + tail))) == x + (t + zd + (one + (u + v + flag) + tail))
  {
    var data := v + flag + tail;
    Associate(u, v, flag);
    Associate(u, v + flag, tail);
    Associate(one, u + v + flag, tail);
    Associate(t, zd, one + (u + v + flag) + tail);
    Associate(zd, one, u + data);
    Associate(zd + one, u, data);
    Associate(z, size, data);
    Associate(x, t, z + (size + data));
  }

  /** The four bytes of a size that has a single one in them. */
  function SizeBytes(d: nat): Bytes
    requires 1 <= d <= 3
  {
    Zeros(d - 1) + [1] + Zeros(4 - d)
  }

  lemma SizeShift(d: nat, one: Bytes)
    requires 1 <= d <= 3 && one == BigEndian(1, 4)
    ensures Zeros(d) + one + Zeros(4 - d) == Zeros(4) + SizeBytes(d)
  {
    SmallCounts();
  }

  lemma VeryNearTwins(x: Bytes, t: Bytes, zd: Bytes, one: Bytes, u: Bytes, v: Bytes, flag: Bytes, tail: Bytes,
                      z: Bytes, size: Bytes, m: Message, m': Message)
    requires |x| + |t| == 164 && |zd| == |x| && zd + one + u == z + size
    requires Heads(m, x + t) && Body(m) == x + t + (z + (size + (v + flag + tail)))
    requires Heads(m', t + zd) && Body(m') == t + zd + (one + (u + v + flag) + tail)
    ensures Twins(x, t, m, m')
  {
    VeryNearBytes(x, t, zd, one, u, v, flag, tail, z, size);
    MakeTwins(x, t, zd, z + (size + (v + flag + tail)), one + (u + v + flag) + tail, m, m');
  }

  lemma VeryNearFirst(head: Bytes, d: nat, size: nat, tail: Bytes) returns (m: Message)
    requires |head| == 164 && 1 <= d <= 3 && size == 29 + d + |tail| && size < TWO_32
    requires BigEndian(size, 4) == SizeBytes(d)
    ensures Heads(m, head) && Body(m) == head + (Zeros(4) + (SizeBytes(d) + (Zeros(28 + d) + [0] + tail)))
    ensures Sized(m, 0, size)
  {
    m := NoAccounts(head, Zeros(28 + d) + [0] + tail, SizeBytes(d));
  }

  lemma VeryNearSecond(t: Bytes, d: nat, one: Bytes, rest: nat) returns (m: Message)
    requires 1 <= d <= 3 && |t| == 164 - d && one == BigEndian(1, 4) && rest < TWO_32
    ensures Heads(m, t + Zeros(d))
    ensures Body(m) == t + Zeros(d) + (one + (Zeros(4 - d) + Zeros(28 + d) + [0]) + (BigEndian(rest, 4) + Zeros(rest)))
    ensures Sized(m, 1, rest)
  {
    var key: Pubkey := Zeros(4 - d) + Zeros(28 + d);
    m := OneAccount(t + Zeros(d), key, Zeros(rest), one, BigEndian(rest, 4));
  }

  /** One to three bytes: the first one's data length reads as the second one's
      account count. */
  lemma VeryNear(x: Bytes, t: Bytes, size: nat) returns (m: Message, m': Message)
    requires 1 <= |x| <= 3 && |t| == 164 - |x|
    requires 36 <= size < TWO_32 && BigEndian(size, 4) == SizeBytes(|x|)
    ensures Twins(x, t, m, m')
    ensures Sized(m, 0, size) && Sized(m', 1, size - 33 - |x|)
  {
    var d := |x|;
    var rest := size - 33 - d;
    var one, tail := BigEndian(1, 4), BigEndian(rest, 4) + Zeros(rest);
    m := VeryNearFirst(x + t, d, size, tail);
    m' := VeryNearSecond(t, d, one, rest);
    SizeShift(d, one);
    VeryNearTwins(x, t, Zeros(d), one, Zeros(4 - d), Zeros(28 + d), [0], tail, Zeros(4), SizeBytes(d), m, m');
  }

  /** 256^(4 - d), in four bytes. */
  lemma PowerSizes()
    ensures BigEndian(0x100_0000, 4) == [1, 0, 0, 0]
    ensures BigEndian(0x1_0000, 4) == [0, 1, 0, 0]
    ensures BigEndian(0x100, 4) == [0, 0, 1, 0]
  {
    assert BigEndian(1, 1) == [1] && BigEndian(0, 1) == [0] && BigEndian(0, 2) == [0, 0];
    assert BigEndian(0x100, 2) == [1, 0] && BigEndian(1, 2) == [0, 1] && BigEndian(1, 3) == [0, 0, 1];
    assert BigEndian(0x1_0000, 3) == [1, 0, 0] && BigEndian(0x100, 3) == [0, 1, 0];
  }

  lemma SizesInBytes()
    ensures SizeBytes(1) == [1, 0, 0, 0] && SizeBytes(2) == [0, 1, 0, 0] && SizeBytes(3) == [0, 0, 1, 0]
  {
  }

  /** Whatever follows the shorter chain id in the longer one, and whatever else the
      fixed fields are to be, some two messages share their bytes. */
  lemma ExtensionTwins(x: Bytes, t: Bytes) returns (m: Message, m': Message)
    requires 1 <= |x| <= 64 && |t| == 164 - |x|
    ensures Twins(x, t, m, m')
  {
    if |x| <= 3 {
      PowerSizes();
      SizesInBytes();
      m, m' := VeryNear(x, t, if |x| == 1 then 0x100_0000 else if |x| == 2 then 0x1_0000 else 0x100);
    } else if |x| <= 7 {
      m, m' := Near(x, t);
    } else {
      m, m' := FarApart(x, t);
    }
  }

  lemma ExtensionConfuses(c: Bytes, x: Bytes)
    requires 1 <= |x| <= 64
    ensures Confusable(c, c + x) && Confusable(c + x, c)
  {
    var m, m' := ExtensionTwins(x, Zeros(164 - |x|));
    ShiftedBodies(c, x, m, m');
    assert c != c + x;
  }

  /** For the chain ids `update_tss` accepts: confusion is possible exactly when one
      is a proper prefix of the other. */
  lemma ChainIdsConfusedExactly(c: Bytes, c': Bytes)
    requires 1 <= |c| <= 64 && 1 <= |c'| <= 64
    ensures Confusable(c, c') <==> Overlap(c, c')
  {
    if Overlap(c, c') {
      if IsPrefix(c, c') {
        assert c' == c + c'[|c|..];
        ExtensionConfuses(c, c'[|c|..]);
      } else {
        assert c == c' + c[|c'|..];
        ExtensionConfuses(c', c[|c'|..]);
      }
    } else if Confusable(c, c') {
      var m: Message, m': Message :|
        Fits(m) && Fits(m') && SignedBytes(c, m) == SignedBytes(c', m') && (c != c' || m != m');
      SignedBytesDetermine(c, m, c', m');
    }
  }

  // ---- Several chain ids at once ----

  /** No two of these chain ids can be confused. */
  ghost predicate PrefixFree(chains: set<Bytes>) {
    forall c: Bytes, c': Bytes :: c in chains && c' in chains ==> !Overlap(c, c')
  }

  ghost predicate Encodes(chains: set<Bytes>, bytes: Bytes, m: Message) {
    Fits(m) && exists c <- chains :: bytes == SignedBytes(c, m)
  }

  /** The message that bytes signed for one of these chains encode. */
  ghost function MessageIn(chains: set<Bytes>, bytes: Bytes): Option<Message> {
    if exists m: Message :: Encodes(chains, bytes, m) then
      var m: Message :| Encodes(chains, bytes, m);
      Some(m)
    else None
  }

  lemma MessageInEncodes(chains: set<Bytes>, bytes: Bytes, m: Message)
    requires Encodes(chains, bytes, m)
    ensures MessageIn(chains, bytes).Some? && Encodes(chains, bytes, MessageIn(chains, bytes).value)
  {
  }

  /** There is only one. */
  lemma MessageInIs(chains: set<Bytes>, c: Bytes, m: Message)
    requires PrefixFree(chains) && c in chains && Fits(m)
    ensures MessageIn(chains, SignedBytes(c, m)) == Some(m)
  {
    MessageInEncodes(chains, SignedBytes(c, m), m);
    var m' := MessageIn(chains, SignedBytes(c, m)).value;
    var c' :| c' in chains && SignedBytes(c, m) == SignedBytes(c', m');
    SignedBytesDetermine(c, m, c', m');
  }
}
