/** Replay and authorisation: over any run each sub-transaction takes effect at
    most once, and what leaves the vault is exactly what distinct messages, each
    of which passed the TSS signature check, say may leave. */
module Authorisation {
  import opened Bytes
  import opened Results
  import opened Sums
  import opened Messages
  import opened ChainIds
  import opened State
  import opened Deposit
  import opened Finalize
  import opened Payout
  import opened Admin
  import opened Runs
  import opened Effects
  import opened Logs
  import opened VaultLedger

  // ---- Sub-transactions ----

  function IdOf(ev: Event): Option<Bytes32> {
    match ev
    case UniversalTxFinalized(id, _, _, _, _, _, _, _) => Some(id)
    case RevertUniversalTx(id, _, _, _, _, _) => Some(id)
    case FundsRescued(id, _, _, _, _) => Some(id)
    case _ => None
  }

  /** The sub-transactions a log reports, in order. */
  ghost function Ids(log: seq<Entry>): seq<Bytes32> {
    if log == [] then []
    else
      var id := IdOf(log[|log| - 1].event);
      Ids(log[..|log| - 1]) + (if id.Some? then [id.value] else [])
  }

  lemma {:induction false} IdsConcat(a: seq<Entry>, b: seq<Entry>)
    ensures Ids(a + b) == Ids(a) + Ids(b)
  {
    if b == [] {
      assert a + b == a;
    } else {
      assert (a + b)[..|a + b| - 1] == a + b[..|b| - 1];
      IdsConcat(a, b[..|b| - 1]);
    }
  }

  ghost predicate Distinct<T>(s: seq<T>) {
    forall i, j :: 0 <= i < j < |s| ==> s[i] != s[j]
  }

  /** The sub-transaction an action wants to execute. */
  function Wants(act: Action): Option<Bytes32> {
    match act
    case FinalizeUniversalTx(a) => Some(a.subTxId)
    case RevertTx(p, _) => Some(p.subTxId)
    case RescueFunds(p) => Some(p.subTxId)
    case _ => None
  }

  function AsSeq<T>(o: Option<T>): seq<T> {
    if o.Some? then [o.value] else []
  }

  lemma IdsOne(x: Entry)
    ensures Ids([x]) == AsSeq(IdOf(x.event))
  {
    assert [x][..0] == [];
  }

  lemma IdsTwo(x: Entry, y: Entry)
    ensures Ids([x, y]) == AsSeq(IdOf(x.event)) + AsSeq(IdOf(y.event))
  {
    assert [x, y] == [x] + [y];
    IdsConcat([x], [y]);
    IdsOne(x);
    IdsOne(y);
  }

  lemma {:induction false} NoIds(log: seq<Entry>)
    requires forall x <- log :: IdOf(x.event) == None
    ensures Ids(log) == []
  {
    if log != [] {
      NoIds(log[..|log| - 1]);
    }
  }

  lemma SendHasNoId(e: Env, w: World, a: SendArgs)
    requires Send(e, w, a).Ok?
    ensures Ids(Send(e, w, a).value.log) == []
    ensures Send(e, w, a).value.world.executed == w.executed
  {
    SendReport(e, w, a);
    SendLogHasNoId(w, a, TypeOf(w, a));
  }

  lemma SendLogHasNoId(w: World, a: SendArgs, txType: TxType)
    requires w.protocolFee <= a.nativeAmount
    requires NativeFunds(a.request) <= a.nativeAmount - w.protocolFee
    ensures Ids(SendLog(w, a, txType)) == []
  {
    NoIds(SendLog(w, a, txType));
  }

  lemma FinalizeHasOneId(e: Env, w: World, a: FinalizeArgs)
    requires FinalizeTx(e, w, a).Ok?
    ensures a.subTxId !in w.executed
    ensures Ids(FinalizeTx(e, w, a).value.log) == [a.subTxId]
    ensures FinalizeTx(e, w, a).value.world.executed == w.executed + {a.subTxId}
  {
    FinalizeReport(e, w, a);
    IdsOne(FinalEntry(a));
    IdsTwo(Entry(a.clock, UeaEvent(e, a)), FinalEntry(a));
  }

  lemma PayoutHasOneId(e: Env, w: World, p: PayoutArgs, kind: Kind)
    requires PayoutTx(e, w, p, kind).Ok?
    ensures p.subTxId !in w.executed
    ensures Ids(PayoutTx(e, w, p, kind).value.log) == [p.subTxId]
    ensures PayoutTx(e, w, p, kind).value.world.executed == w.executed + {p.subTxId}
  {
    PayoutReport(e, w, p, kind);
    PayoutLogIds(p, kind);
  }

  lemma PayoutLogIds(p: PayoutArgs, kind: Kind)
    ensures Ids(PayoutLog(p, kind)) == [p.subTxId]
  {
    var first := Entry(p.clock, PayoutEvent(p, kind));
    var second := Entry(p.clock, ProtocolFeeReimbursed(p.subTxId, p.caller, p.gasFee));
    IdsOne(first);
    IdsTwo(first, second);
    assert PayoutLog(p, kind) == if p.gasFee > 0 then [first, second] else [first];
  }

  lemma AdminHasNoId(e: Env, w: World, a: AdminArgs)
    requires AdminTx(e, w, a).Ok?
    ensures Ids(AdminTx(e, w, a).value.log) == []
    ensures AdminTx(e, w, a).value.world.executed == w.executed
  {
    NoIds(AdminLog(a));
  }

  /** A successful step executes just the sub-transaction it wants, if any, which
      was not executed before, and reports it once. */
  lemma StepExecutes(e: Env, w: World, act: Action)
    requires Step(e, w, act).Ok?
    ensures var o := Step(e, w, act).value;
            && Ids(o.log) == AsSeq(Wants(act))
            && o.world.executed == w.executed + (set id <- AsSeq(Wants(act)))
            && (Wants(act).Some? ==> Wants(act).value !in w.executed)
  {
    match act
    case SendUniversalTx(a) => SendHasNoId(e, w, a);
    case FinalizeUniversalTx(a) => FinalizeHasOneId(e, w, a);
    case RevertTx(p, instruction) => PayoutHasOneId(e, w, p, Reverting(instruction));
    case RescueFunds(p) => PayoutHasOneId(e, w, p, Rescuing);
    case AdminAction(a) => AdminHasNoId(e, w, a);
    case External(_, _) =>
  }

  /** The executed set is what it was plus exactly these ids, each new and listed once. */
  ghost predicate ExactlyExecuted(was: set<Bytes32>, ids: seq<Bytes32>, now: set<Bytes32>) {
    && Distinct(ids)
    && (forall id <- ids :: id !in was)
    && now == was + (set id <- ids)
  }

  lemma OneMoreId(was: set<Bytes32>, ids: seq<Bytes32>, now: set<Bytes32>, more: Option<Bytes32>)
    requires ExactlyExecuted(was, ids, now) && (more.Some? ==> more.value !in now)
    ensures ExactlyExecuted(was, ids + AsSeq(more), now + (set id <- AsSeq(more)))
  {
    assert forall id <- ids :: id in now;
  }

  /** Over any run, the executed set grows by exactly the ids the log reports, each
      reported once and none of them executed before. A failed attempt reports
      nothing and so leaves its id free. */
  lemma {:induction false} ExecutedOnce(e: Env, w: World, acts: seq<Action>)
    ensures var o := Run(e, w, acts);
            ExactlyExecuted(w.executed, Ids(o.log), o.world.executed)
  {
    if acts != [] {
      var rest, last := acts[..|acts| - 1], acts[|acts| - 1];
      var before := Run(e, w, rest);
      ExecutedOnce(e, w, rest);
      if Step(e, before.world, last).Ok? {
        StepExecutes(e, before.world, last);
        OneMoreId(w.executed, Ids(before.log), before.world.executed, Wants(last));
        IdsConcat(before.log, Step(e, before.world, last).value.log);
      }
    }
  }

  // ---- Signed messages ----

  /** The message whose signature an action is checked against. */
  function MessageOf(act: Action): Option<Message> {
    match act
    case FinalizeUniversalTx(a) => if ValidateFinalizeRequest(a).Ok? then Some(FinalizeMessage(a)) else None
    case RevertTx(p, instruction) => Some(PayoutMessage(p, Reverting(instruction)))
    case RescueFunds(p) => Some(PayoutMessage(p, Rescuing))
    case _ => None
  }

  /** What the message lets out of the vault: its amount, and for a withdrawal or
      an execution the gas fee in SOL. */
  function AmountReleased(m: Message, asset: Pubkey): nat {
    match m
    case Withdraw(_, _, _, token, gasFee, _, amount) =>
      (if token == asset then amount else 0) + (if asset == DEFAULT_KEY then gasFee else 0)
    case Execute(_, _, _, token, gasFee, _, amount, _, _) =>
      (if token == asset then amount else 0) + (if asset == DEFAULT_KEY then gasFee else 0)
    case Revert(_, _, mint, _, _, amount) => if AssetOf(mint) == asset then amount else 0
    case Rescue(_, _, mint, _, _, amount) => if AssetOf(mint) == asset then amount else 0
  }

  /** The hash, signature and recovery id an action carries are the TSS's, over its
      message, under the address and chain id of the world it acts in. */
  ghost predicate CarriesSignature(e: Env, w: World, act: Action) {
    MessageOf(act).Some?
    && var bytes := SignedBytes(w.tss.chainId, MessageOf(act).value);
       match act
       case FinalizeUniversalTx(a) =>
         SignedByTss(e, w.tss.ethAddress, bytes, a.messageHash, a.signature, a.recoveryId)
       case RevertTx(p, _) => SignedByTss(e, w.tss.ethAddress, bytes, p.messageHash, p.signature, p.recoveryId)
       case RescueFunds(p) => SignedByTss(e, w.tss.ethAddress, bytes, p.messageHash, p.signature, p.recoveryId)
       case _ => false
  }

  /** A step releases what its own message says, and only if the signature it
      carries is one over that message. */
  lemma StepReleases(e: Env, w: World, act: Action, asset: Pubkey)
    requires ValidEnv(e) && Step(e, w, act).Ok?
    ensures MessageOf(act).Some? <==> Wants(act).Some?
    ensures SumLog(Step(e, w, act).value.log, Outflow(asset))
         == (if MessageOf(act).Some? then AmountReleased(MessageOf(act).value, asset) else 0)
    ensures MessageOf(act).Some? ==> MessageOf(act).value.subTxId == Wants(act).value && CarriesSignature(e, w, act)
  {
    match act
    case SendUniversalTx(a) => SendReleases(e, w, a, asset);
    case FinalizeUniversalTx(a) =>
      FinalizeReleases(e, w, a, asset);
      FinalizePassedChecks(e, w, a);
      CheckedIsSigned(e, w, a);
    case RevertTx(p, instruction) => PayoutReleases(e, w, p, Reverting(instruction), asset);
    case RescueFunds(p) => PayoutReleases(e, w, p, Rescuing, asset);
    case AdminAction(a) => AdminReleases(e, w, a, asset);
    case External(_, _) =>
  }

  lemma SendReleases(e: Env, w: World, a: SendArgs, asset: Pubkey)
    requires Send(e, w, a).Ok?
    ensures SumLog(Send(e, w, a).value.log, Outflow(asset)) == 0
  {
    SendReport(e, w, a);
    SendNet(w, a, TypeOf(w, a), asset);
  }

  lemma AdminReleases(e: Env, w: World, a: AdminArgs, asset: Pubkey)
    requires AdminTx(e, w, a).Ok?
    ensures SumLog(AdminTx(e, w, a).value.log, Outflow(asset)) == 0
  {
    SumLogZero(AdminLog(a), Outflow(asset));
  }

  lemma FinalizePassedChecks(e: Env, w: World, a: FinalizeArgs)
    requires FinalizeTx(e, w, a).Ok?
    ensures FinalizeChecked(e, w.config, w.tss, a).Pass?
  {
  }

  lemma CheckedIsSigned(e: Env, w: World, a: FinalizeArgs)
    requires FinalizeChecked(e, w.config, w.tss, a).Pass?
    ensures CarriesSignature(e, w, FinalizeUniversalTx(a))
  {
  }

  lemma FinalizeReleases(e: Env, w: World, a: FinalizeArgs, asset: Pubkey)
    requires FinalizeTx(e, w, a).Ok?
    ensures Stageable(e, w, a)
    ensures SumLog(FinalizeTx(e, w, a).value.log, Outflow(asset)) == AmountReleased(FinalizeMessage(a), asset)
  {
    FinalizeReport(e, w, a);
    SumLogOne(FinalEntry(a), Outflow(asset));
    SumLogTwo(Entry(a.clock, UeaEvent(e, a)), FinalEntry(a), Outflow(asset));
  }

  lemma PayoutReleases(e: Env, w: World, p: PayoutArgs, kind: Kind, asset: Pubkey)
    requires PayoutTx(e, w, p, kind).Ok?
    ensures SumLog(PayoutTx(e, w, p, kind).value.log, Outflow(asset)) == AmountReleased(PayoutMessage(p, kind), asset)
    ensures SignedByTss(e, w.tss.ethAddress, SignedBytes(w.tss.chainId, PayoutMessage(p, kind)), p.messageHash,
                        p.signature, p.recoveryId)
  {
    PayoutAccepted(e, w, p, kind);
    PayoutLogReleases(p, kind, asset);
  }

  lemma PayoutLogReleases(p: PayoutArgs, kind: Kind, asset: Pubkey)
    ensures SumLog(PayoutLog(p, kind), Outflow(asset)) == AmountReleased(PayoutMessage(p, kind), asset)
  {
    var first := Entry(p.clock, PayoutEvent(p, kind));
    var second := Entry(p.clock, ProtocolFeeReimbursed(p.subTxId, p.caller, p.gasFee));
    SumLogOne(first, Outflow(asset));
    SumLogTwo(first, second, Outflow(asset));
    assert PayoutLog(p, kind) == if p.gasFee > 0 then [first, second] else [first];
  }

  // ---- Accepted messages ----

  /** The bytes of the message an action presents. */
  ghost function Presented(w: World, act: Action): set<Bytes> {
    if MessageOf(act).Some? then {SignedBytes(w.tss.chainId, MessageOf(act).value)} else {}
  }

  /** The bytes of the messages a run accepts. */
  ghost function Accepted(e: Env, w: World, acts: seq<Action>): set<Bytes> {
    if acts == [] then {}
    else
      var rest, last := acts[..|acts| - 1], acts[|acts| - 1];
      var before := Run(e, w, rest).world;
      Accepted(e, w, rest) + (if Step(e, before, last).Ok? then Presented(before, last) else {})
  }

  /** The step succeeds with this message, and carries a passing signature over it. */
  ghost predicate AcceptedBy(e: Env, w: World, act: Action, bytes: Bytes) {
    Step(e, w, act).Ok? && bytes in Presented(w, act) && CarriesSignature(e, w, act)
  }

  lemma StepAcceptsBytes(e: Env, w: World, act: Action, bytes: Bytes)
    requires ValidEnv(e) && Step(e, w, act).Ok? && bytes in Presented(w, act)
    ensures AcceptedBy(e, w, act, bytes)
  {
    StepReleases(e, w, act, DEFAULT_KEY);
  }

  /** Every accepted message was presented, with a signature over it that passed
      under the key in force, by a step of the run. */
  lemma {:induction false} AcceptedCarriedSignature(e: Env, w: World, acts: seq<Action>, bytes: Bytes)
      returns (i: nat, before: World)
    requires ValidEnv(e) && bytes in Accepted(e, w, acts)
    ensures i < |acts| && before == Run(e, w, acts[..i]).world && AcceptedBy(e, before, acts[i], bytes)
  {
    var n := |acts| - 1;
    if bytes in Accepted(e, w, acts[..n]) {
      i, before := AcceptedCarriedSignature(e, w, acts[..n], bytes);
      assert acts[..n][..i] == acts[..i];
    } else {
      i, before := n, Run(e, w, acts[..n]).world;
      StepAcceptsBytes(e, before, acts[n], bytes);
    }
  }

  /** What a successful step's message must be like for its bytes to be read back:
      lengths within their fields, and a chain id among these. */
  ghost function Legible(e: Env, chains: set<Bytes>): (World, Action) -> bool {
    (w: World, act: Action) =>
      Step(e, w, act).Ok? && MessageOf(act).Some? ==> Fits(MessageOf(act).value) && w.tss.chainId in chains
  }

  /** A valuation of messages, read off their bytes. */
  ghost function Valued(chains: set<Bytes>, value: Message -> nat): Bytes -> int {
    (bytes: Bytes) => match MessageIn(chains, bytes) case Some(m) => value(m) case None => 0
  }

  /** The message of an executed sub-transaction. */
  ghost predicate Spent(chains: set<Bytes>, executed: set<Bytes32>, bytes: Bytes) {
    MessageIn(chains, bytes).Some? && MessageIn(chains, bytes).value.subTxId in executed
  }

  ghost predicate AllSpent(chains: set<Bytes>, executed: set<Bytes32>, accepted: set<Bytes>) {
    forall bytes <- accepted :: Spent(chains, executed, bytes)
  }

  lemma SumInsert<T(!new)>(s: set<T>, f: T -> int, x: T)
    requires x !in s
    ensures Sum(s + {x}, f) == Sum(s, f) + f(x)
  {
    SumRemove(s + {x}, f, x);
    assert s + {x} - {x} == s;
  }

  /** A message for a sub-transaction not executed yet is not among the accepted ones. */
  lemma NewMessage(chains: set<Bytes>, accepted: set<Bytes>, executed: set<Bytes32>, c: Bytes, m: Message,
                   value: Message -> nat)
    requires PrefixFree(chains) && c in chains && Fits(m) && m.subTxId !in executed
    requires AllSpent(chains, executed, accepted)
    ensures Sum(accepted + {SignedBytes(c, m)}, Valued(chains, value))
         == Sum(accepted, Valued(chains, value)) + value(m)
  {
    MessageInIs(chains, c, m);
    SumInsert(accepted, Valued(chains, value), SignedBytes(c, m));
  }

  /** A successful step executes the sub-transaction of its message, if it has one. */
  lemma StepAccepts(e: Env, w: World, act: Action)
    requires ValidEnv(e) && Step(e, w, act).Ok?
    ensures var m := MessageOf(act);
            && (m.Some? ==> m.value.subTxId !in w.executed)
            && Step(e, w, act).value.world.executed == w.executed + (if m.Some? then {m.value.subTxId} else {})
  {
    StepReleases(e, w, act, DEFAULT_KEY);
    StepExecutes(e, w, act);
  }

  lemma StaySpent(chains: set<Bytes>, accepted: set<Bytes>, before: World, act: Action, after: set<Bytes32>)
    requires PrefixFree(chains) && AllSpent(chains, before.executed, accepted)
    requires MessageOf(act).Some? ==> Fits(MessageOf(act).value) && before.tss.chainId in chains
    requires after == before.executed + (if MessageOf(act).Some? then {MessageOf(act).value.subTxId} else {})
    ensures AllSpent(chains, after, accepted + Presented(before, act))
  {
    if MessageOf(act).Some? {
      MessageInIs(chains, before.tss.chainId, MessageOf(act).value);
    }
  }

  ghost function ValueOf(m: Option<Message>, value: Message -> nat): nat {
    if m.Some? then value(m.value) else 0
  }

  /** Any valuation of the accepted messages grows by the value of the one a step adds. */
  lemma OneMoreMessage(chains: set<Bytes>, accepted: set<Bytes>, before: World, act: Action, value: Message -> nat)
    requires PrefixFree(chains) && AllSpent(chains, before.executed, accepted)
    requires MessageOf(act).Some? ==>
               && Fits(MessageOf(act).value) && before.tss.chainId in chains
               && MessageOf(act).value.subTxId !in before.executed
    ensures Sum(accepted + Presented(before, act), Valued(chains, value))
         == Sum(accepted, Valued(chains, value)) + ValueOf(MessageOf(act), value)
  {
    if MessageOf(act).Some? {
      NewMessage(chains, accepted, before.executed, before.tss.chainId, MessageOf(act).value, value);
    } else {
      assert accepted + Presented(before, act) == accepted;
    }
  }

  /** What a run's accepted messages amount to, one step further. */
  lemma AcceptedGrows(e: Env, w: World, acts: seq<Action>, chains: set<Bytes>, value: Message -> nat)
    requires ValidEnv(e) && PrefixFree(chains) && Throughout(e, w, acts, Legible(e, chains)) && acts != []
    ensures var rest, last := acts[..|acts| - 1], acts[|acts| - 1];
            Sum(Accepted(e, w, acts), Valued(chains, value))
            == Sum(Accepted(e, w, rest), Valued(chains, value))
               + (if Step(e, Run(e, w, rest).world, last).Ok? then ValueOf(MessageOf(last), value) else 0)
  {
    var rest, last := acts[..|acts| - 1], acts[|acts| - 1];
    var before := Run(e, w, rest).world;
    if Step(e, before, last).Ok? {
      AcceptedAreSpent(e, w, rest, chains);
      StepAccepts(e, before, last);
      OneMoreMessage(chains, Accepted(e, w, rest), before, last, value);
      assert Accepted(e, w, acts) == Accepted(e, w, rest) + Presented(before, last);
    } else {
      assert Accepted(e, w, acts) == Accepted(e, w, rest);
    }
  }

  /** Every accepted message belongs to an executed sub-transaction. */
  lemma {:induction false} AcceptedAreSpent(e: Env, w: World, acts: seq<Action>, chains: set<Bytes>)
    requires ValidEnv(e) && PrefixFree(chains) && Throughout(e, w, acts, Legible(e, chains))
    ensures AllSpent(chains, Run(e, w, acts).world.executed, Accepted(e, w, acts))
  {
    if acts != [] {
      var rest, last := acts[..|acts| - 1], acts[|acts| - 1];
      var before := Run(e, w, rest).world;
      AcceptedAreSpent(e, w, rest, chains);
      if Step(e, before, last).Ok? {
        StepAccepts(e, before, last);
        StaySpent(chains, Accepted(e, w, rest), before, last, Step(e, before, last).value.world.executed);
      }
    }
  }

  ghost function Releases(asset: Pubkey): Message -> nat {
    (m: Message) => AmountReleased(m, asset)
  }

  /** What a run takes out of the vault is exactly the sum, over the distinct
      messages it accepted, of what each releases. Keys and chain ids may be
      rotated on the way, as long as no chain id in use is a prefix of another. */
  lemma {:induction false} OutflowIsSigned(e: Env, w: World, acts: seq<Action>, asset: Pubkey, chains: set<Bytes>)
    requires ValidEnv(e) && PrefixFree(chains) && Throughout(e, w, acts, Legible(e, chains))
    ensures SumLog(Run(e, w, acts).log, Outflow(asset)) == Sum(Accepted(e, w, acts), Valued(chains, Releases(asset)))
  {
    if acts != [] {
      var rest, last := acts[..|acts| - 1], acts[|acts| - 1];
      var before := Run(e, w, rest);
      OutflowIsSigned(e, w, rest, asset, chains);
      AcceptedGrows(e, w, acts, chains, Releases(asset));
      if Step(e, before.world, last).Ok? {
        StepReleases(e, before.world, last, asset);
        SumLogConcat(before.log, Step(e, before.world, last).value.log, Outflow(asset));
      }
    }
  }

  /** Nobody presents a signature that passes over a message that was not signed.
      Presenting any other signature is allowed. */
  ghost function Unforged(e: Env, signed: set<Bytes>): (World, Action) -> bool {
    (w: World, act: Action) => CarriesSignature(e, w, act)
        ==> SignedBytes(w.tss.chainId, MessageOf(act).value) in signed
  }

  lemma {:induction false} AcceptedWereSigned(e: Env, w: World, acts: seq<Action>, signed: set<Bytes>)
    requires ValidEnv(e) && Throughout(e, w, acts, Unforged(e, signed))
    ensures Accepted(e, w, acts) <= signed
  {
    if acts != [] {
      var rest, last := acts[..|acts| - 1], acts[|acts| - 1];
      AcceptedWereSigned(e, w, rest, signed);
      if Step(e, Run(e, w, rest).world, last).Ok? {
        StepReleases(e, Run(e, w, rest).world, last, DEFAULT_KEY);
      }
    }
  }

  lemma CoveredBySigned(accepted: set<Bytes>, signed: set<Bytes>, chains: set<Bytes>, value: Message -> nat)
    requires accepted <= signed
    ensures Sum(accepted, Valued(chains, value)) <= Sum(signed, Valued(chains, value))
  {
    forall bytes: Bytes
      ensures Valued(chains, value)(bytes) >= 0
    {
      if MessageIn(chains, bytes).Some? {
        assert value(MessageIn(chains, bytes).value) >= 0;
      }
    }
    SumExtend(accepted, signed, Valued(chains, value));
  }

  /** Whoever runs what: the vault keeps what it had and what came in, less at most
      what the messages signed so far release, each counted once. */
  lemma VaultKeepsTheUnsigned(e: Env, w: World, acts: seq<Action>, asset: Pubkey, chains: set<Bytes>,
                              signed: set<Bytes>)
    requires ValidEnv(e) && PrefixFree(chains)
    requires Throughout(e, w, acts, Legible(e, chains)) && Throughout(e, w, acts, Unforged(e, signed))
    ensures var o := Run(e, w, acts);
            var released := Sum(signed, Valued(chains, Releases(asset)));
            && SumLog(o.log, Outflow(asset)) <= released
            && Holdings(e, o.world.ledger, asset)
               >= Holdings(e, w.ledger, asset) + SumLog(o.log, Inflow(asset)) - released
  {
    OutflowIsSigned(e, w, acts, asset, chains);
    AcceptedWereSigned(e, w, acts, signed);
    CoveredBySigned(Accepted(e, w, acts), signed, chains, Releases(asset));
    LedgerFloor(e, w, acts, asset);
  }
}
