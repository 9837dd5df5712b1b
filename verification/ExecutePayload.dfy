/** The off-chain execute payload (app/execute-payload.ts) and its agreement with
    what the program rebuilds and signs. */
module ExecutePayload {
  import opened Bytes
  import opened Results
  import opened Encoding

  datatype Payload = Payload(targetProgram: Pubkey, accounts: seq<AccountMeta>, ixData: Bytes, instructionId: byte)

  predicate Fits(p: Payload) {
    |p.accounts| < TWO_32 && |p.ixData| < TWO_32
  }

  /** `accounts.map(...)` spread into `Buffer.concat`. */
  function AccountBuffers(accounts: seq<AccountMeta>): (s: Bytes)
    ensures |s| == 33 * |accounts|
  {
    if accounts == [] then []
    else accounts[0].pubkey + [FlagByte(accounts[0].isWritable)] + AccountBuffers(accounts[1..])
  }

  /** `writeUInt32BE` throws on a count or length that does not fit. */
  function EncodeExecutePayload(p: Payload): Option<Bytes> {
    if !Fits(p) then None
    else Some(BigEndian(|p.accounts|, 4) + AccountBuffers(p.accounts)
              + BigEndian(|p.ixData|, 4) + p.ixData + [p.instructionId] + p.targetProgram)
  }

  /** The buffer holds the payload, field by field at its offset. */
  ghost predicate Holds(buf: Bytes, p: Payload) {
    var n, m := |p.accounts|, |p.ixData|;
    var at := 4 + 33 * n;
    && |buf| == 41 + 33 * n + m
    && FromBigEndian(buf[0..4]) == n
    && (forall i :: 0 <= i < n ==>
          && p.accounts[i].pubkey == buf[4 + 33 * i..36 + 33 * i]
          && p.accounts[i].isWritable == (buf[36 + 33 * i] == 1))
    && FromBigEndian(buf[at..at + 4]) == m
    && p.ixData == buf[at + 4..at + 4 + m]
    && p.instructionId == buf[at + 4 + m]
    && p.targetProgram == buf[at + 5 + m..]
  }

  /** None is a thrown error. Slices are clamped at the end of the buffer, reads are not. */
  method DecodeExecutePayload(buf: Bytes) returns (r: Option<Payload>)
    ensures r.Some? ==> Holds(buf, r.value)
    ensures r.None? ==> forall p :: !Holds(buf, p)
  {
    var offset := 0;
    if |buf| < offset + 4 {
      return None;
    }
    var accountsLen := FromBigEndian(buf[offset..offset + 4]);
    offset := offset + 4;
    var accounts: seq<AccountMeta> := [];
    for i := 0 to accountsLen
      invariant offset == 4 + 33 * i <= |buf|
      invariant |accounts| == i
      invariant forall k :: 0 <= k < i ==>
        && accounts[k].pubkey == buf[4 + 33 * k..36 + 33 * k]
        && accounts[k].isWritable == (buf[36 + 33 * k] == 1)
    {
      if |buf| <= offset + 32 {
        return None;
      }
      var pubkey: Pubkey := buf[offset..offset + 32];
      offset := offset + 32;
      var isWritable := buf[offset] == 1;
      offset := offset + 1;
      accounts := accounts + [AccountMeta(pubkey, isWritable)];
    }
    if |buf| < offset + 4 {
      return None;
    }
    var ixDataLen := FromBigEndian(buf[offset..offset + 4]);
    offset := offset + 4;
    if |buf| <= offset + ixDataLen {
      return None;
    }
    var ixData := buf[offset..offset + ixDataLen];
    offset := offset + ixDataLen;
    var instructionId := buf[offset];
    offset := offset + 1;
    if |buf| - offset != 32 {
      return None;
    }
    return Some(Payload(buf[offset..], accounts, ixData, instructionId));
  }

  /** A buffer holds at most one payload. */
  lemma HoldsUnique(buf: Bytes, p: Payload, q: Payload)
    requires Holds(buf, p) && Holds(buf, q)
    ensures p == q
  {
    assert p.accounts == q.accounts by {
      forall i | 0 <= i < |p.accounts|
        ensures p.accounts[i] == q.accounts[i]
      {
      }
    }
  }

  lemma {:induction false} AccountBuffersAt(accounts: seq<AccountMeta>, i: nat)
    requires i < |accounts|
    ensures AccountBuffers(accounts)[33 * i..33 * i + 32] == accounts[i].pubkey
    ensures AccountBuffers(accounts)[33 * i + 32] == FlagByte(accounts[i].isWritable)
  {
    var rest := AccountBuffers(accounts[1..]);
    var row := accounts[0].pubkey + [FlagByte(accounts[0].isWritable)];
    assert AccountBuffers(accounts) == row + rest;
    if i > 0 {
      AccountBuffersAt(accounts[1..], i - 1);
      assert (row + rest)[33 * i..33 * i + 32] == rest[33 * (i - 1)..33 * (i - 1) + 32];
    }
  }

  lemma RowInBuffer(buf: Bytes, rows: Bytes, i: nat, n: nat)
    requires i < n && |rows| == 33 * n && |buf| >= 4 + 33 * n && buf[4..4 + 33 * n] == rows
    ensures buf[4 + 33 * i..36 + 33 * i] == rows[33 * i..33 * i + 32]
    ensures buf[36 + 33 * i] == rows[33 * i + 32]
  {
    SliceOfSlice(buf, 4, 4 + 33 * n, 33 * i, 33 * i + 32);
  }

  lemma HoldsParts(buf: Bytes, p: Payload, count: Bytes, rows: Bytes, length: Bytes)
    requires |count| == 4 && |length| == 4 && rows == AccountBuffers(p.accounts)
    requires FromBigEndian(count) == |p.accounts| && FromBigEndian(length) == |p.ixData|
    requires buf == count + rows + length + p.ixData + [p.instructionId] + p.targetProgram
    ensures Holds(buf, p)
  {
    SixParts(count, rows, length, p.ixData, [p.instructionId], p.targetProgram);
    var at := 4 + |rows| + 4 + |p.ixData|;
    assert buf[at] == buf[at..at + 1][0];
    forall i | 0 <= i < |p.accounts|
      ensures p.accounts[i].pubkey == buf[4 + 33 * i..36 + 33 * i]
      ensures p.accounts[i].isWritable == (buf[36 + 33 * i] == 1)
    {
      AccountBuffersAt(p.accounts, i);
      RowInBuffer(buf, rows, i, |p.accounts|);
    }
  }

  /** Decoding an encoding gives the payload back; by HoldsUnique nothing else. */
  lemma EncodingHolds(p: Payload)
    requires Fits(p)
    ensures Holds(EncodeExecutePayload(p).value, p)
  {
    Pow256Values();
    BigEndianRoundTrip(|p.accounts|, 4);
    BigEndianRoundTrip(|p.ixData|, 4);
    HoldsParts(EncodeExecutePayload(p).value, p, BigEndian(|p.accounts|, 4), AccountBuffers(p.accounts),
               BigEndian(|p.ixData|, 4));
  }

  method RoundTrip(p: Payload) returns (r: Option<Payload>)
    ensures Fits(p) ==> r == Some(p)
    ensures !Fits(p) ==> r == None
  {
    var encoded := EncodeExecutePayload(p);
    if encoded.None? {
      return None;
    }
    r := DecodeExecutePayload(encoded.value);
    EncodingHolds(p);
    if r.Some? {
      HoldsUnique(encoded.value, p, r.value);
    }
  }

  lemma {:induction false} RowsFromBytes(accounts: seq<AccountMeta>, rows: Bytes)
    requires |rows| == 33 * |accounts|
    requires forall i :: 0 <= i < |accounts| ==>
               rows[33 * i..33 * i + 32] == accounts[i].pubkey && rows[33 * i + 32] == FlagByte(accounts[i].isWritable)
    ensures AccountBuffers(accounts) == rows
  {
    if accounts != [] {
      var rest := rows[33..];
      forall i | 0 <= i < |accounts| - 1
        ensures rest[33 * i..33 * i + 32] == accounts[1..][i].pubkey
        ensures rest[33 * i + 32] == FlagByte(accounts[1..][i].isWritable)
      {
        assert rows[33 * (i + 1)..33 * (i + 1) + 32] == accounts[i + 1].pubkey;
        assert rest[33 * i..33 * i + 32] == rows[33 * (i + 1)..33 * (i + 1) + 32];
      }
      RowsFromBytes(accounts[1..], rest);
      assert rows == rows[0..32] + [rows[32]] + rest;
      assert rows[33 * 0..33 * 0 + 32] == accounts[0].pubkey;
    }
  }

  /** The flag bytes of a buffer are what the encoder writes. */
  ghost predicate CanonicalFlags(buf: Bytes, n: nat)
    requires |buf| >= 4 + 33 * n
  {
    forall i :: 0 <= i < n ==> buf[36 + 33 * i] <= 1
  }

  /** Encoding is not a left inverse of decoding: an accepted buffer is the
      encoding of its payload iff every flag byte in it is 0 or 1. */
  lemma ReencodesExactly(buf: Bytes, p: Payload)
    requires Holds(buf, p)
    ensures EncodeExecutePayload(p) == Some(buf) <==> CanonicalFlags(buf, |p.accounts|)
  {
    if EncodeExecutePayload(p) == Some(buf) {
      EncodedIsCanonical(p, BigEndian(|p.accounts|, 4),
                         BigEndian(|p.ixData|, 4) + p.ixData + [p.instructionId] + p.targetProgram);
      JoinTail(BigEndian(|p.accounts|, 4) + AccountBuffers(p.accounts), BigEndian(|p.ixData|, 4), p.ixData,
               [p.instructionId], p.targetProgram);
    }
    if CanonicalFlags(buf, |p.accounts|) {
      PayloadFits(buf, p);
      CanonicalIsEncoded(buf, p);
    }
  }

  lemma PayloadFits(buf: Bytes, p: Payload)
    requires Holds(buf, p)
    ensures Fits(p)
  {
    var at := 4 + 33 * |p.accounts|;
    FromBigEndianBound(buf[0..4]);
    FromBigEndianBound(buf[at..at + 4]);
    Pow256Values();
  }

  lemma JoinTail(a: Bytes, b: Bytes, c: Bytes, d: Bytes, e: Bytes)
    ensures a + b + c + d + e == a + (b + c + d + e)
  {
    Associate(a, b, c);
    Associate(a, b + c, d);
    Associate(a, b + c + d, e);
  }

  lemma EncodedIsCanonical(p: Payload, count: Bytes, tail: Bytes)
    requires |count| == 4
    ensures CanonicalFlags(count + AccountBuffers(p.accounts) + tail, |p.accounts|)
  {
    var n := |p.accounts|;
    var buf := count + AccountBuffers(p.accounts) + tail;
    assert buf[4..4 + 33 * n] == AccountBuffers(p.accounts);
    forall i | 0 <= i < n
      ensures buf[36 + 33 * i] <= 1
    {
      AccountBuffersAt(p.accounts, i);
      RowInBuffer(buf, AccountBuffers(p.accounts), i, n);
    }
  }

  lemma CanonicalRows(buf: Bytes, p: Payload)
    requires Holds(buf, p) && CanonicalFlags(buf, |p.accounts|)
    ensures AccountBuffers(p.accounts) == buf[4..4 + 33 * |p.accounts|]
  {
    var n := |p.accounts|;
    var rows := buf[4..4 + 33 * n];
    forall i | 0 <= i < n
      ensures rows[33 * i..33 * i + 32] == p.accounts[i].pubkey
      ensures rows[33 * i + 32] == FlagByte(p.accounts[i].isWritable)
    {
      RowInBuffer(buf, rows, i, n);
    }
    RowsFromBytes(p.accounts, rows);
  }

  lemma JoinCut(buf: Bytes, at: nat, end: nat)
    requires 4 <= at && at + 4 <= end < |buf|
    ensures buf[0..4] + buf[4..at] + buf[at..at + 4] + buf[at + 4..end] + [buf[end]] + buf[end + 1..] == buf
  {
    Reassemble(buf, 4, at, at + 4, end, end + 1);
    assert buf[..4] == buf[0..4];
    assert buf[end..end + 1] == [buf[end]];
  }

  lemma CanonicalWord(word: Bytes, n: nat)
    requires |word| == 4 && FromBigEndian(word) == n
    ensures BigEndian(n, 4) == word
  {
    BigEndianCanonical(word);
  }

  lemma Assembled(buf: Bytes, p: Payload, at: nat, end: nat)
    requires Fits(p) && 4 <= at && at + 4 <= end < |buf|
    requires BigEndian(|p.accounts|, 4) == buf[0..4] && AccountBuffers(p.accounts) == buf[4..at]
    requires BigEndian(|p.ixData|, 4) == buf[at..at + 4] && p.ixData == buf[at + 4..end]
    requires p.instructionId == buf[end] && p.targetProgram == buf[end + 1..]
    ensures EncodeExecutePayload(p) == Some(buf)
  {
    JoinCut(buf, at, end);
  }

  lemma CanonicalIsEncoded(buf: Bytes, p: Payload)
    requires Holds(buf, p) && CanonicalFlags(buf, |p.accounts|) && Fits(p)
    ensures EncodeExecutePayload(p) == Some(buf)
  {
    var at := 4 + 33 * |p.accounts|;
    CanonicalRows(buf, p);
    CanonicalWord(buf[0..4], |p.accounts|);
    CanonicalWord(buf[at..at + 4], |p.ixData|);
    Assembled(buf, p, at, at + 4 + |p.ixData|);
  }

  // ---- Writable flags ----

  /** Of the bits, most significant first, those of the writable accounts are set. */
  ghost predicate Packs(flags: Bytes, accounts: seq<AccountMeta>) {
    && |flags| == FlagBytes(|accounts|)
    && forall i :: 0 <= i < 8 * |flags| ==> MarkSet(flags, i) == (i < |accounts| && accounts[i].isWritable)
  }

  method AccountsToWritableFlags(accounts: seq<AccountMeta>) returns (flags: array<byte>)
    ensures fresh(flags) && Packs(flags[..], accounts)
  {
    var len := FlagBytes(|accounts|);
    flags := new byte[len](_ => 0);
    forall j | 0 <= j < 8 * len
      ensures !Bit(flags[j / 8], j % 8)
    {
      ZeroHasNoBits(7 - j % 8);
    }
    for i := 0 to |accounts|
      invariant forall j :: 0 <= j < 8 * len ==> Bit(flags[j / 8], j % 8) == (j < i && accounts[j].isWritable)
    {
      if accounts[i].isWritable {
        var byteIdx := i / 8;
        forall k | 0 <= k < 8
          ensures Bit(WithBit(flags[byteIdx], i % 8), k) == (k == i % 8 || Bit(flags[byteIdx], k))
        {
          WithBitEffect(flags[byteIdx], i % 8, k);
        }
        flags[byteIdx] := WithBit(flags[byteIdx], i % 8);
      }
    }
    FlagsAreMarks(flags[..]);
    assert forall j :: 0 <= j < 8 * len ==> Flag(flags[..], j) == Bit(flags[j / 8], j % 8);
  }

  /** The accounts a relayer passes on, in the payload's order. */
  predicate SameKeys(remaining: seq<AccountInfo>, accounts: seq<AccountMeta>) {
    && |remaining| == |accounts|
    && forall i :: 0 <= i < |accounts| ==> remaining[i].key == accounts[i].pubkey
  }

  /** Unpacking what was packed gives the account list back. */
  lemma UnpackPacked(accounts: seq<AccountMeta>, flags: Bytes, remaining: seq<AccountInfo>)
    requires Packs(flags, accounts) && SameKeys(remaining, accounts)
    ensures ReconstructAccountsFromFlags(remaining, flags) == accounts
  {
    var metas := ReconstructAccountsFromFlags(remaining, flags);
    forall i | 0 <= i < |accounts|
      ensures metas[i] == accounts[i]
    {
    }
  }

  lemma {:induction false} RowsAgree(accounts: seq<AccountMeta>)
    ensures AccountRows(accounts) == AccountBuffers(accounts)
  {
    if accounts != [] {
      RowsAgree(accounts[1..]);
      AccountRowsPrepend(accounts[0], accounts[1..]);
      assert [accounts[0]] + accounts[1..] == accounts;
    }
  }

  /** Encode, decode, pack, unpack, serialise: what the program signs over is the
      encoded payload without its last 33 bytes. */
  lemma SignedBytesAreThePayload(p: Payload, decoded: Payload, flags: Bytes, remaining: seq<AccountInfo>)
    requires Fits(p) && Holds(EncodeExecutePayload(p).value, decoded)
    requires Packs(flags, decoded.accounts) && SameKeys(remaining, decoded.accounts)
    ensures var buf := EncodeExecutePayload(p).value;
            SerializedAccounts(ReconstructAccountsFromFlags(remaining, flags)) + SerializeIxData(decoded.ixData)
            == buf[..|buf| - 33]
  {
    EncodingHolds(p);
    HoldsUnique(EncodeExecutePayload(p).value, p, decoded);
    UnpackPacked(decoded.accounts, flags, remaining);
    RowsAgree(p.accounts);
    CutTail(BigEndian(|p.accounts|, 4), AccountBuffers(p.accounts), BigEndian(|p.ixData|, 4), p.ixData,
            [p.instructionId], p.targetProgram);
  }

  lemma CutTail(a: Bytes, b: Bytes, c: Bytes, d: Bytes, e: Bytes, f: Bytes)
    ensures var s := a + b + c + d + e + f;
            s[..|s| - |e| - |f|] == a + b + (c + d)
  {
  }
}
