/** Chain ids and messages that a transaction can hold: fewer than 256 accounts and
    less than 65536 bytes of data. Among these, chain ids can be confused if and
    only if one extends the other by three bytes or more. */
module ShortMessages {
  import opened Bytes
  import opened Encoding
  import opened Messages
  import opened ChainIds

  predicate Short(m: Message) {
    m.Execute? ==> |m.accounts| < 0x100 && |m.ixData| < 0x1_0000
  }

  ghost predicate ShortConfusable(c: Bytes, c': Bytes) {
    exists m: Message, m': Message ::
      && Short(m) && Short(m')
      && SignedBytes(c, m) == SignedBytes(c', m')
      && (c != c' || m != m')
  }

  function Distance(c: Bytes, c': Bytes): nat {
    if |c| <= |c'| then |c'| - |c| else |c| - |c'|
  }

  // ---- Where the counts lie ----

  lemma SmallWord(n: nat)
    requires n < 0x1_0000
    ensures BigEndian(n, 4) == [0, 0, n / 256, n % 256]
  {
    assert BigEndian(n, 4) == BigEndian(n / 256, 3) + [n % 256];
    assert n / 256 / 256 == 0;
    assert BigEndian(n / 256, 3) == BigEndian(0, 2) + [n / 256];
    assert BigEndian(0, 2) == BigEndian(0, 1) + [0] && BigEndian(0, 1) == [] + [0];
  }

  lemma WordAt(front: Bytes, word: Bytes, rest: Bytes, j: nat)
    requires j < |word|
    ensures (front + (word + rest))[|front| + j] == word[j]
  {
  }

  /** The fixed fields of an execute message. */
  ghost function Front(m: Message): (s: Bytes)
    requires m.Execute?
    ensures |s| == 164
  {
    EncodeU64(m.amount) + WithdrawFields(m.subTxId, m.universalTxId, m.pushAccount, m.token, m.gasFee, m.target)
  }

  lemma ExecuteLayout(m: Message)
    requires m.Execute?
    ensures Body(m) == Front(m) + (BigEndian(|m.accounts|, 4) + (AccountRows(m.accounts) + SerializeIxData(m.ixData)))
    ensures |Body(m)| == 172 + 33 * |m.accounts| + |m.ixData|
  {
    FlattenEight(m.subTxId, m.universalTxId, m.pushAccount, m.token, EncodeU64(m.gasFee), m.target,
                 SerializedAccounts(m.accounts), SerializeIxData(m.ixData));
    var fields := WithdrawFields(m.subTxId, m.universalTxId, m.pushAccount, m.token, m.gasFee, m.target);
    Layout(EncodeU64(m.amount), fields, BigEndian(|m.accounts|, 4), AccountRows(m.accounts), SerializeIxData(m.ixData));
  }

  lemma Layout(a: Bytes, f: Bytes, n: Bytes, rows: Bytes, data: Bytes)
    ensures a + (f + (n + rows) + data) == a + f + (n + (rows + data))
  {
    Associate(f, n + rows, data);
    Associate(n, rows, data);
    Associate(a, f, n + (rows + data));
  }

  /** The bytes of the account count, and without accounts those of the data length. */
  lemma CountBytes(m: Message, j: nat)
    requires m.Execute? && j < 4
    ensures |Body(m)| == 172 + 33 * |m.accounts| + |m.ixData|
    ensures Body(m)[164 + j] == BigEndian(|m.accounts|, 4)[j]
    ensures |m.accounts| == 0 ==> Body(m)[168 + j] == BigEndian(|m.ixData|, 4)[j]
  {
    ExecuteLayout(m);
    var count, rows, length := BigEndian(|m.accounts|, 4), AccountRows(m.accounts), BigEndian(|m.ixData|, 4);
    WordAt(Front(m), count, rows + SerializeIxData(m.ixData), j);
    if |m.accounts| == 0 {
      assert rows + SerializeIxData(m.ixData) == length + m.ixData;
      Associate(Front(m), count, length + m.ixData);
      WordAt(Front(m) + count, length, m.ixData, j);
    }
  }

  /** The bodies of the other messages have fixed lengths. */
  lemma FixedLength(m: Message)
    requires !m.Execute?
    ensures m.Withdraw? ==> |Body(m)| == 164
    ensures !m.Withdraw? ==> |Body(m)| == (if m.mint.Some? then 144 else 112)
  {
    match m
    case Withdraw(sub, utx, push, token, gasFee, target, amount) =>
      FlattenSix(sub, utx, push, token, EncodeU64(gasFee), target);
    case Revert(sub, utx, None, recipient, gasFee, amount) => FlattenFour(sub, utx, recipient, EncodeU64(gasFee));
    case Revert(sub, utx, Some(mint), recipient, gasFee, amount) => FlattenFive(sub, utx, mint, recipient,
                                                                                EncodeU64(gasFee));
    case Rescue(sub, utx, None, recipient, gasFee, amount) => FlattenFour(sub, utx, recipient, EncodeU64(gasFee));
    case Rescue(sub, utx, Some(mint), recipient, gasFee, amount) => FlattenFive(sub, utx, mint, recipient,
                                                                                EncodeU64(gasFee));
  }

  // ---- One or two bytes are too few ----

  /** What a shift by d bytes makes of the counts, byte by byte. */
  lemma ShiftedCounts(x: Bytes, m: Message, m': Message, j: nat)
    requires m.Execute? && m'.Execute? && Body(m) == x + Body(m') && j < 4 && |x| <= 2
    ensures |m.ixData| + 33 * |m.accounts| == |x| + |m'.ixData| + 33 * |m'.accounts|
    ensures |x| + j < 4 ==> BigEndian(|m'.accounts|, 4)[j] == BigEndian(|m.accounts|, 4)[|x| + j]
    ensures |m.accounts| == 0 && |x| + j >= 4
            ==> BigEndian(|m'.accounts|, 4)[j] == BigEndian(|m.ixData|, 4)[|x| + j - 4]
    ensures |m.accounts| == |m'.accounts| == 0 && |x| + j < 4 ==>
              BigEndian(|m'.ixData|, 4)[j] == BigEndian(|m.ixData|, 4)[|x| + j]
  {
    var d := |x|;
    CountBytes(m', j);
    assert Body(m)[164 + d + j] == Body(m')[164 + j];
    if d + j < 4 {
      CountBytes(m, d + j);
      assert Body(m)[168 + d + j] == Body(m')[168 + j];
    } else {
      CountBytes(m, d + j - 4);
    }
  }

  /** Both counts are zero, so the data lengths meet, and those cannot match. */
  lemma OneIsTooNear(x: Bytes, m: Message, m': Message)
    requires |x| == 1 && Short(m) && Short(m') && m.Execute? && m'.Execute?
    ensures Body(m) != x + Body(m')
  {
    if Body(m) == x + Body(m') {
      SmallWord(|m.accounts|);
      SmallWord(|m'.accounts|);
      SmallWord(|m.ixData|);
      SmallWord(|m'.ixData|);
      ShiftedCounts(x, m, m', 1);
      ShiftedCounts(x, m, m', 2);
      ShiftedCounts(x, m, m', 3);
      assert false;
    }
  }

  lemma TwoAreTooNear(x: Bytes, m: Message, m': Message)
    requires |x| == 2 && Short(m) && Short(m') && m.Execute? && m'.Execute?
    ensures Body(m) != x + Body(m')
  {
    if Body(m) == x + Body(m') {
      SmallWord(|m.accounts|);
      SmallWord(|m'.accounts|);
      SmallWord(|m.ixData|);
      SmallWord(|m'.ixData|);
      ShiftedCounts(x, m, m', 0);
      ShiftedCounts(x, m, m', 1);
      ShiftedCounts(x, m, m', 2);
      ShiftedCounts(x, m, m', 3);
      assert false;
    }
  }

  lemma NotTooNear(x: Bytes, m: Message, m': Message)
    requires Short(m) && Short(m') && InstructionId(m) == InstructionId(m') && Body(m) == x + Body(m') && |x| > 0
    ensures |x| >= 3
  {
    if m.Execute? {
      if |x| == 1 {
        OneIsTooNear(x, m, m');
      } else if |x| == 2 {
        TwoAreTooNear(x, m, m');
      }
    } else {
      FixedLength(m);
      FixedLength(m');
    }
  }

  /** Equal bytes under a chain id and an extension of it: the extension is part of the body. */
  lemma ExtensionInBody(c: Bytes, x: Bytes, m: Message, m': Message)
    requires SignedBytes(c, m) == SignedBytes(c + x, m')
    ensures InstructionId(m) == InstructionId(m') && Body(m) == x + Body(m')
  {
    SameHeader(c, m, c + x, m');
    var p := PREFIX + [InstructionId(m)];
    ShiftTail(p, c, x, Body(m'));
    Seam(p + c, Body(m));
    Seam(p + c, x + Body(m'));
  }

  // ---- Three bytes are enough ----

  lemma ShortTwins(x: Bytes, t: Bytes) returns (m: Message, m': Message)
    requires 3 <= |x| <= 64 && |t| == 164 - |x|
    ensures Twins(x, t, m, m') && Short(m) && Short(m')
  {
    if |x| == 3 {
      PowerSizes();
      SizesInBytes();
      m, m' := VeryNear(x, t, 0x100);
    } else if |x| <= 7 {
      m, m' := Near(x, t);
    } else {
      m, m' := FarApart(x, t);
    }
  }

  lemma ShortExtensionConfuses(c: Bytes, x: Bytes)
    requires 3 <= |x| <= 64
    ensures ShortConfusable(c, c + x) && ShortConfusable(c + x, c)
  {
    var m, m' := ShortTwins(x, Zeros(164 - |x|));
    ShiftedBodies(c, x, m, m');
    assert c != c + x;
  }

  /** For the chain ids `update_tss` accepts and messages a transaction can hold. */
  lemma ShortConfusedExactly(c: Bytes, c': Bytes)
    requires 1 <= |c| <= 64 && 1 <= |c'| <= 64
    ensures ShortConfusable(c, c') <==> Overlap(c, c') && Distance(c, c') >= 3
  {
    if ShortConfusable(c, c') {
      var m: Message, m': Message :|
        Short(m) && Short(m') && SignedBytes(c, m) == SignedBytes(c', m') && (c != c' || m != m');
      ShortPairFarApart(c, m, c', m');
    }
    if Overlap(c, c') && Distance(c, c') >= 3 {
      if IsPrefix(c, c') {
        assert c' == c + c'[|c|..];
        ShortExtensionConfuses(c, c'[|c|..]);
      } else {
        assert c == c' + c[|c'|..];
        ShortExtensionConfuses(c', c[|c'|..]);
      }
    }
  }

  lemma ExtensionPair(c: Bytes, c': Bytes, m: Message, m': Message)
    requires Short(m) && Short(m') && SignedBytes(c, m) == SignedBytes(c', m') && IsPrefix(c, c') && c != c'
    ensures |c'| - |c| >= 3
  {
    var x := c'[|c|..];
    assert c' == c + x;
    ExtensionInBody(c, x, m, m');
    NotTooNear(x, m, m');
  }

  lemma ShortPairFarApart(c: Bytes, m: Message, c': Bytes, m': Message)
    requires Short(m) && Short(m') && SignedBytes(c, m) == SignedBytes(c', m') && (c != c' || m != m')
    ensures Overlap(c, c') && Distance(c, c') >= 3
  {
    if !Overlap(c, c') {
      SignedBytesDetermine(c, m, c', m');
    } else if IsPrefix(c, c') {
      ExtensionPair(c, c', m, m');
    } else {
      ExtensionPair(c', c, m', m);
    }
  }
}
