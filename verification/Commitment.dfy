/** What a signature commits to: the signed bytes fix the events of an accepted call
    and what it does to every holding, up to the relayer that presents it, the
    clock, which of the vault's token accounts pays, and the note of a revert. */
module Commitment {
  import opened Bytes
  import opened Results
  import opened Ledgers
  import opened Encoding
  import opened Messages
  import opened ChainIds
  import opened UeaArguments
  import opened State
  import opened Finalize
  import opened Payout
  import opened Runs
  import opened Effects
  import opened Authorisation
  import opened Destinations

  // ---- Events ----

  /** An event without what the signature does not cover. */
  function Covered(ev: Event): Event {
    match ev
    case RevertUniversalTx(sub, utx, recipient, token, amount, _) =>
      Event.RevertUniversalTx(sub, utx, recipient, token, amount, RevertInstructions(recipient, []))
    case ProtocolFeeReimbursed(sub, _, lamports) => ProtocolFeeReimbursed(sub, DEFAULT_KEY, lamports)
    case _ => ev
  }

  ghost function Report(log: seq<Entry>): seq<Event> {
    if log == [] then [] else Report(log[..|log| - 1]) + [Covered(log[|log| - 1].event)]
  }

  function ReturnEvent(e: Env, push: Bytes20, token: Pubkey, args: UeaArgs): Event {
    UniversalTx(e.cea(push), push, token, args.amount, args.payload, args.revertRecipient,
                if args.payload == [] then Funds else FundsAndPayload, [], true)
  }

  function Reimbursement(sub: Bytes32, gasFee: u64): seq<Event> {
    if gasFee > 0 then [ProtocolFeeReimbursed(sub, DEFAULT_KEY, gasFee)] else []
  }

  /** The events a message stands for. */
  function EventsOf(e: Env, m: Message): seq<Event> {
    match m
    case Withdraw(sub, utx, push, token, gasFee, target, amount) =>
      [UniversalTxFinalized(sub, utx, gasFee, push, target, token, amount, [])]
    case Execute(sub, utx, push, token, gasFee, target, amount, _, ixData) =>
      (if target == e.programId then [ReturnEvent(e, push, token, ArgsIn(ixData))] else [])
      + [UniversalTxFinalized(sub, utx, gasFee, push, target, token, amount, ixData)]
    case Revert(sub, utx, mint, recipient, gasFee, amount) =>
      [Event.RevertUniversalTx(sub, utx, recipient, AssetOf(mint), amount, RevertInstructions(recipient, []))]
      + Reimbursement(sub, gasFee)
    case Rescue(sub, utx, mint, recipient, gasFee, amount) =>
      [FundsRescued(sub, utx, AssetOf(mint), amount, RevertInstructions(recipient, []))] + Reimbursement(sub, gasFee)
  }

  lemma ReportOne(x: Entry)
    ensures Report([x]) == [Covered(x.event)]
  {
    assert [x][..0] == [];
  }

  lemma ReportTwo(x: Entry, y: Entry)
    ensures Report([x, y]) == [Covered(x.event), Covered(y.event)]
  {
    assert [x, y][..1] == [x];
    ReportOne(x);
  }

  lemma FinalizeEvents(e: Env, w: World, a: FinalizeArgs)
    requires FinalizeTx(e, w, a).Ok?
    ensures ValidateFinalizeRequest(a).Ok?
    ensures Report(FinalizeTx(e, w, a).value.log) == EventsOf(e, FinalizeMessage(a))
  {
    FinalizeReport(e, w, a);
    ReportOne(FinalEntry(a));
    ReportTwo(Entry(a.clock, UeaEvent(e, a)), FinalEntry(a));
  }

  lemma PayoutLogEvents(e: Env, p: PayoutArgs, kind: Kind)
    requires kind.Reverting? ==> p.recipient == kind.instruction.revertRecipient
    ensures Report(PayoutLog(p, kind)) == EventsOf(e, PayoutMessage(p, kind))
  {
    var first := Entry(p.clock, PayoutEvent(p, kind));
    var second := Entry(p.clock, ProtocolFeeReimbursed(p.subTxId, p.caller, p.gasFee));
    ReportOne(first);
    ReportTwo(first, second);
    assert PayoutLog(p, kind) == if p.gasFee > 0 then [first, second] else [first];
  }

  lemma PayoutEvents(e: Env, w: World, p: PayoutArgs, kind: Kind)
    requires PayoutTx(e, w, p, kind).Ok?
    ensures Report(PayoutTx(e, w, p, kind).value.log) == EventsOf(e, PayoutMessage(p, kind))
  {
    PayoutAccepted(e, w, p, kind);
    PayoutLogEvents(e, p, kind);
  }

  /** The events of an accepted call are those its message stands for. */
  lemma EventsAreSigned(e: Env, w: World, act: Action)
    requires Step(e, w, act).Ok? && MessageOf(act).Some?
    ensures Report(Step(e, w, act).value.log) == EventsOf(e, MessageOf(act).value)
  {
    match act
    case FinalizeUniversalTx(a) => FinalizeEvents(e, w, a);
    case RevertTx(p, instruction) => PayoutEvents(e, w, p, Reverting(instruction));
    case RescueFunds(p) => PayoutEvents(e, w, p, Rescuing);
  }

  // ---- Holdings ----

  /** What a message adds to what an address holds of an asset, or takes from it. */
  ghost function Effect(e: Env, m: Message, k: Pubkey, asset: Pubkey): int {
    match m
    case Withdraw(_, _, _, token, gasFee, target, amount) =>
      If(token == asset && k == target, amount) - If(token == asset && k == e.vault, amount)
      - If(asset == DEFAULT_KEY && k == e.vault, gasFee)
    case Execute(_, _, push, token, gasFee, target, amount, _, ixData) =>
      var back := if target == e.programId then ArgsIn(ixData).amount else 0;
      If(token == asset && k == e.cea(push), amount - back) - If(token == asset && k == e.vault, amount - back)
      - If(asset == DEFAULT_KEY && k == e.vault, gasFee)
    case Revert(_, _, mint, recipient, gasFee, amount) => PayoutEffect(e, mint, recipient, gasFee, amount, k, asset)
    case Rescue(_, _, mint, recipient, gasFee, amount) => PayoutEffect(e, mint, recipient, gasFee, amount, k, asset)
  }

  ghost function PayoutEffect(e: Env, mint: Option<Pubkey>, recipient: Pubkey, gasFee: u64, amount: u64, k: Pubkey,
                              asset: Pubkey): int {
    If(AssetOf(mint) == asset && k == recipient, amount) - If(AssetOf(mint) == asset && k == e.vault, amount)
    - If(asset == DEFAULT_KEY && k == e.feeVault, gasFee)
  }

  /** Somebody else than the relayer, and for SOL not an account the call creates. */
  predicate Uninvolved(e: Env, act: Action, k: Pubkey, asset: Pubkey) {
    asset == DEFAULT_KEY ==> RelayerOf(act) != Some(k) && !Opens(e, act, k)
  }

  lemma WithdrawEffect(e: Env, w: World, a: FinalizeArgs, k: Pubkey, asset: Pubkey)
    requires FinalizeTx(e, w, a).Ok? && ModeOf(e, a) == WithdrawMode && ReceiverOf(e, w, a) == TargetOf(a)
    requires Uninvolved(e, FinalizeUniversalTx(a), k, asset)
    ensures HeldBy(FinalizeTx(e, w, a).value.world.ledger, asset, k) == HeldBy(w.ledger, asset, k)
              + Share(a, asset, k == TargetOf(a)) - Share(a, asset, k == e.vault)
              - If(asset == DEFAULT_KEY && k == e.vault, a.gasFee)
  {
    FinalizeAccepted(e, w, a);
    WithdrawAccepted(e, w, a);
    if asset == DEFAULT_KEY {
      WithdrawLamports(e, w, a, k);
    } else {
      WithdrawTokens(e, w, a, asset, Some(k));
    }
  }

  /** What staging does; a call into another program starts from there. */
  lemma StagingEffect(e: Env, w: World, a: FinalizeArgs, k: Pubkey, asset: Pubkey)
    requires Stageable(e, w, a) && Uninvolved(e, FinalizeUniversalTx(a), k, asset)
    ensures HeldBy(StagedLedger(e, w, a), asset, k) == HeldBy(w.ledger, asset, k)
              + Share(a, asset, k == e.cea(a.pushAccount)) - Share(a, asset, k == e.vault)
              - If(asset == DEFAULT_KEY && k == e.vault, a.gasFee)
  {
    if asset == DEFAULT_KEY {
      StagedLamports(e, w, a, k);
    } else {
      StagedTokens(e, w, a, asset, Some(k));
    }
  }

  lemma SelfCallEffect(e: Env, w: World, a: FinalizeArgs, k: Pubkey, asset: Pubkey)
    requires FinalizeTx(e, w, a).Ok? && ModeOf(e, a) == UeaMode && Uninvolved(e, FinalizeUniversalTx(a), k, asset)
    ensures var back := If(TokenOf(a) == asset, ArgsIn(a.ixData).amount);
            HeldBy(FinalizeTx(e, w, a).value.world.ledger, asset, k) == HeldBy(w.ledger, asset, k)
              + Share(a, asset, k == e.cea(a.pushAccount)) - If(k == e.cea(a.pushAccount), back)
              - Share(a, asset, k == e.vault) + If(k == e.vault, back)
              - If(asset == DEFAULT_KEY && k == e.vault, a.gasFee)
  {
    UeaAtPda(e, w, a, k, asset);
    StagingEffect(e, w, a, k, asset);
  }

  lemma PayoutEffectIs(e: Env, w: World, p: PayoutArgs, kind: Kind, act: Action, k: Pubkey, asset: Pubkey)
    requires act == (match kind case Reverting(instruction) => RevertTx(p, instruction) case Rescuing => RescueFunds(p))
    requires PayoutTx(e, w, p, kind).Ok? && Uninvolved(e, act, k, asset)
    ensures HeldBy(PayoutTx(e, w, p, kind).value.world.ledger, asset, k)
         == HeldBy(w.ledger, asset, k) + PayoutEffect(e, p.mint, p.recipient, p.gasFee, p.amount, k, asset)
  {
    PayoutAccepted(e, w, p, kind);
    if asset == DEFAULT_KEY {
      PayoutLamports(e, w, p, kind, k);
    } else {
      PayoutTokens(e, w, p, kind, asset, Some(k));
    }
  }

  lemma FinalizeEffect(e: Env, w: World, a: FinalizeArgs, k: Pubkey, asset: Pubkey)
    requires FinalizeTx(e, w, a).Ok? && ModeOf(e, a) != CpiMode && Uninvolved(e, FinalizeUniversalTx(a), k, asset)
    requires ModeOf(e, a) == WithdrawMode ==> ReceiverOf(e, w, a) == TargetOf(a)
    ensures ValidateFinalizeRequest(a).Ok?
    ensures HeldBy(FinalizeTx(e, w, a).value.world.ledger, asset, k)
         == HeldBy(w.ledger, asset, k) + Effect(e, FinalizeMessage(a), k, asset)
  {
    FinalizeReport(e, w, a);
    if ModeOf(e, a) == WithdrawMode {
      WithdrawEffect(e, w, a, k, asset);
    } else {
      SelfCallEffect(e, w, a, k, asset);
    }
  }

  /** The program's own part of a call: all of it, or for a call into another
      program what is done before that program runs. */
  ghost function OwnPart(e: Env, w: World, act: Action): Ledger
    requires Step(e, w, act).Ok?
  {
    if act.FinalizeUniversalTx? && ModeOf(e, act.finalize) == CpiMode && Stageable(e, w, act.finalize)
    then StagedLedger(e, w, act.finalize)
    else Step(e, w, act).value.world.ledger
  }

  /** A token recipient still owns its associated account. */
  ghost predicate OwnsItsAccount(e: Env, w: World, act: Action) {
    act.FinalizeUniversalTx? && ModeOf(e, act.finalize) == WithdrawMode ==>
      ReceiverOf(e, w, act.finalize) == TargetOf(act.finalize)
  }

  lemma CallEffect(e: Env, w: World, a: FinalizeArgs, k: Pubkey, asset: Pubkey)
    requires FinalizeTx(e, w, a).Ok? && ModeOf(e, a) == CpiMode && Uninvolved(e, FinalizeUniversalTx(a), k, asset)
    ensures Stageable(e, w, a)
    ensures HeldBy(StagedLedger(e, w, a), asset, k)
         == HeldBy(w.ledger, asset, k) + Effect(e, FinalizeMessage(a), k, asset)
  {
    FinalizeReport(e, w, a);
    StagingEffect(e, w, a, k, asset);
  }

  /** What an accepted call does to any holding is what its message says. */
  lemma EffectIsSigned(e: Env, w: World, act: Action, k: Pubkey, asset: Pubkey)
    requires Step(e, w, act).Ok? && MessageOf(act).Some?
    requires Uninvolved(e, act, k, asset) && OwnsItsAccount(e, w, act)
    ensures HeldBy(OwnPart(e, w, act), asset, k)
         == HeldBy(w.ledger, asset, k) + Effect(e, MessageOf(act).value, k, asset)
  {
    match act
    case FinalizeUniversalTx(a) =>
      if ModeOf(e, a) == CpiMode {
        CallEffect(e, w, a, k, asset);
      } else {
        FinalizeEffect(e, w, a, k, asset);
      }
    case RevertTx(p, instruction) => PayoutEffectIs(e, w, p, Reverting(instruction), act, k, asset);
    case RescueFunds(p) => PayoutEffectIs(e, w, p, Rescuing, act, k, asset);
  }

  // ---- One signature, one call ----

  /** Whoever presents the same signed bytes, wherever and whenever they are
      accepted: the same events, and the same change to every holding. */
  lemma SameBytesSameCall(e: Env, w: World, act: Action, w': World, act': Action, k: Pubkey, asset: Pubkey)
    requires Step(e, w, act).Ok? && MessageOf(act).Some? && Step(e, w', act').Ok? && MessageOf(act').Some?
    requires Fits(MessageOf(act).value) && Fits(MessageOf(act').value) && !Overlap(w.tss.chainId, w'.tss.chainId)
    requires SignedBytes(w.tss.chainId, MessageOf(act).value) == SignedBytes(w'.tss.chainId, MessageOf(act').value)
    requires Uninvolved(e, act, k, asset) && OwnsItsAccount(e, w, act)
    requires Uninvolved(e, act', k, asset) && OwnsItsAccount(e, w', act')
    ensures Report(Step(e, w, act).value.log) == Report(Step(e, w', act').value.log)
    ensures HeldBy(OwnPart(e, w, act), asset, k) - HeldBy(w.ledger, asset, k)
         == HeldBy(OwnPart(e, w', act'), asset, k) - HeldBy(w'.ledger, asset, k)
  {
    SignedBytesDetermine(w.tss.chainId, MessageOf(act).value, w'.tss.chainId, MessageOf(act').value);
    EventsAreSigned(e, w, act);
    EventsAreSigned(e, w', act');
    EffectIsSigned(e, w, act, k, asset);
    EffectIsSigned(e, w', act', k, asset);
  }

  // ---- What the bytes say of a call ----

  /** The same sub-transaction, user, asset, fee and amount. */
  predicate SameTerms(a: FinalizeArgs, b: FinalizeArgs) {
    && a.instructionId == b.instructionId && a.subTxId == b.subTxId && a.universalTxId == b.universalTxId
    && a.pushAccount == b.pushAccount && a.gasFee == b.gasFee && a.amount == b.amount
    && AssetOf(a.mint) == AssetOf(b.mint)
  }

  /** The same accounts in the same order, of which the same are marked writable. */
  predicate SameAccounts(a: FinalizeArgs, b: FinalizeArgs)
    requires |a.writableFlags| == FlagBytes(|a.remaining|) && |b.writableFlags| == FlagBytes(|b.remaining|)
  {
    && |a.remaining| == |b.remaining|
    && forall i :: 0 <= i < |a.remaining| ==>
         a.remaining[i].key == b.remaining[i].key && (MarkSet(a.writableFlags, i) <==> MarkSet(b.writableFlags, i))
  }

  lemma SameMetas(a: FinalizeArgs, b: FinalizeArgs)
    requires |a.writableFlags| == FlagBytes(|a.remaining|) && |b.writableFlags| == FlagBytes(|b.remaining|)
    requires ReconstructAccountsFromFlags(a.remaining, a.writableFlags)
          == ReconstructAccountsFromFlags(b.remaining, b.writableFlags)
    ensures SameAccounts(a, b)
  {
    var s, t := ReconstructAccountsFromFlags(a.remaining, a.writableFlags),
        ReconstructAccountsFromFlags(b.remaining, b.writableFlags);
    forall i | 0 <= i < |a.remaining|
      ensures a.remaining[i].key == b.remaining[i].key
      ensures MarkSet(a.writableFlags, i) <==> MarkSet(b.writableFlags, i)
    {
      assert s[i] == t[i];
    }
  }

  /** Signed bytes leave a relayer no choice in a call: recipient of a withdrawal,
      program, data and accounts of an execution are the same in any two calls that
      are signed with them. */
  lemma BytesFixTheCall(c: Bytes, a: FinalizeArgs, c': Bytes, b: FinalizeArgs)
    requires ValidateFinalizeRequest(a).Ok? && ValidateFinalizeRequest(b).Ok?
    requires Fits(FinalizeMessage(a)) && Fits(FinalizeMessage(b)) && !Overlap(c, c')
    requires SignedBytes(c, FinalizeMessage(a)) == SignedBytes(c', FinalizeMessage(b))
    ensures c == c' && SameTerms(a, b)
    ensures a.instructionId == 1 ==> a.recipient == b.recipient
    ensures a.instructionId == 2 ==>
              a.destinationProgram == b.destinationProgram && a.ixData == b.ixData && SameAccounts(a, b)
  {
    SignedBytesDetermine(c, FinalizeMessage(a), c', FinalizeMessage(b));
    if a.instructionId == 2 {
      SameMetas(a, b);
    }
  }

  /** And in a revert or a rescue. */
  lemma BytesFixThePayout(c: Bytes, p: PayoutArgs, kind: Kind, c': Bytes, q: PayoutArgs, kind': Kind)
    requires Fits(PayoutMessage(p, kind)) && Fits(PayoutMessage(q, kind')) && !Overlap(c, c')
    requires SignedBytes(c, PayoutMessage(p, kind)) == SignedBytes(c', PayoutMessage(q, kind'))
    ensures c == c' && (kind.Rescuing? <==> kind'.Rescuing?)
    ensures p.subTxId == q.subTxId && p.universalTxId == q.universalTxId && p.mint == q.mint
    ensures p.recipient == q.recipient && p.gasFee == q.gasFee && p.amount == q.amount
  {
    SignedBytesDetermine(c, PayoutMessage(p, kind), c', PayoutMessage(q, kind'));
  }

  lemma PayoutRest(p: PayoutArgs, kind: Kind)
    ensures var log := PayoutLog(p, kind);
            && (forall x <- log :: x.at == p.clock && (x.event.ProtocolFeeReimbursed? ==> x.event.relayer == p.caller))
            && (kind.Reverting? ==> log != [] && log[0].event.RevertUniversalTx?
                                    && log[0].event.revertInstruction == kind.instruction)
  {
  }

  lemma CallRest(e: Env, w: World, a: FinalizeArgs)
    requires FinalizeTx(e, w, a).Ok?
    ensures forall x <- FinalizeTx(e, w, a).value.log :: x.at == a.clock && !x.event.ProtocolFeeReimbursed?
  {
    FinalizeReport(e, w, a);
  }

  /** What no signature covers is reported as it is: the clock, who relayed the call
      and got the gas fee, and the note of a revert. */
  lemma TheRestIsReported(e: Env, w: World, act: Action)
    requires Step(e, w, act).Ok? && MessageOf(act).Some?
    ensures var log := Step(e, w, act).value.log;
            && (forall x <- log :: x.at == ClockOf(act))
            && (forall x <- log :: x.event.ProtocolFeeReimbursed? ==> RelayerOf(act) == Some(x.event.relayer))
            && (act.RevertTx? ==> log != [] && log[0].event.RevertUniversalTx?
                                  && log[0].event.revertInstruction == act.instruction)
  {
    match act
    case FinalizeUniversalTx(a) => CallRest(e, w, a);
    case RevertTx(p, instruction) =>
      PayoutReport(e, w, p, Reverting(instruction));
      PayoutRest(p, Reverting(instruction));
    case RescueFunds(p) =>
      PayoutReport(e, w, p, Rescuing);
      PayoutRest(p, Rescuing);
  }
}
