/** The arguments of the CEA to UEA route: an eight-byte discriminator and a Borsh
    structure (instructions/withdraw.rs). */
module UeaArguments {
  import opened Bytes
  import opened Results

  datatype UeaArgs = UeaArgs(token: Pubkey, amount: u64, payload: Bytes, revertRecipient: Pubkey)

  /** The first eight bytes of SHA-256 of "global:send_universal_tx_to_uea". */
  const DISCRIMINATOR: Bytes := [117, 224, 33, 123, 150, 129, 129, 162]

  function EncodeUeaArgs(a: UeaArgs): Bytes {
    DISCRIMINATOR + a.token + LittleEndian(a.amount, 8) + LittleEndian(|a.payload|, 4) + a.payload + a.revertRecipient
  }

  /** Borsh reads the fields in order and insists that nothing is left over. */
  function ParseUeaArgs(ixData: Bytes): Result<UeaArgs> {
    if |ixData| < 8 || ixData[..8] != DISCRIMINATOR then Err(InvalidInput)
    else if |ixData| < 52 then Err(InvalidInput)
    else
      var payloadLen := FromLittleEndian(ixData[48..52]);
      if |ixData| != 52 + payloadLen + 32 then Err(InvalidInput)
      else
        AmountFits(ixData[40..48]);
        Ok(UeaArgs(ixData[8..40], FromLittleEndian(ixData[40..48]), ixData[52..52 + payloadLen],
                   ixData[52 + payloadLen..]))
  }

  /** The arguments in the data, if it parses. */
  function ArgsIn(ixData: Bytes): UeaArgs {
    match ParseUeaArgs(ixData)
    case Ok(args) => args
    case Err(_) => UeaArgs(DEFAULT_KEY, 0, [], DEFAULT_KEY)
  }

  lemma AmountFits(s: Bytes)
    requires |s| == 8
    ensures FromLittleEndian(s) < TWO_64
  {
    FromLittleEndianBound(s);
    Pow256Values();
  }

  lemma ParseParts(ixData: Bytes, token: Pubkey, amount: Bytes, length: Bytes, payload: Bytes, revertRecipient: Pubkey)
    requires |amount| == 8 && |length| == 4 && FromLittleEndian(length) == |payload|
    requires ixData == DISCRIMINATOR + token + amount + length + payload + revertRecipient
    ensures ParseUeaArgs(ixData).Ok?
    ensures var a := ParseUeaArgs(ixData).value;
            a.token == token && a.amount == FromLittleEndian(amount) && a.payload == payload
                && a.revertRecipient == revertRecipient
  {
    SixParts(DISCRIMINATOR, token, amount, length, payload, revertRecipient);
  }

  lemma ParseEncoded(a: UeaArgs)
    requires |a.payload| < TWO_32
    ensures ParseUeaArgs(EncodeUeaArgs(a)) == Ok(a)
  {
    Pow256Values();
    LittleEndianRoundTrip(a.amount, 8);
    LittleEndianRoundTrip(|a.payload|, 4);
    ParseParts(EncodeUeaArgs(a), a.token, LittleEndian(a.amount, 8), LittleEndian(|a.payload|, 4), a.payload,
               a.revertRecipient);
  }

  lemma LowByte(low: byte, high: nat)
    ensures (low + 256 * high) % 256 == low && (low + 256 * high) / 256 == high
  {
  }

  lemma {:induction false} LittleEndianCanonical(s: Bytes)
    ensures LittleEndian(FromLittleEndian(s), |s|) == s
  {
    if s != [] {
      LittleEndianCanonical(s[1..]);
      LowByte(s[0], FromLittleEndian(s[1..]));
      assert s == [s[0]] + s[1..];
    }
  }

  /** Only encodings parse: the accepted data is the one encoding of its
      arguments, 84 bytes longer than the payload. */
  lemma ParsedIsEncoded(ixData: Bytes)
    requires ParseUeaArgs(ixData).Ok?
    ensures var a := ParseUeaArgs(ixData).value;
            && EncodeUeaArgs(a) == ixData
            && |ixData| == 84 + |a.payload|
            && |a.payload| < TWO_32
  {
    LittleEndianCanonical(ixData[40..48]);
    LittleEndianCanonical(ixData[48..52]);
    FromLittleEndianBound(ixData[48..52]);
    Pow256Values();
    Reassemble(ixData, 8, 40, 48, 52, 52 + FromLittleEndian(ixData[48..52]));
  }
}
