/** Why chain ids must not extend one another: a rotation to an extension of the
    chain id lets one signed message be executed twice, as two different
    sub-transactions, and both times paid. */
module Rotation {
  import opened Bytes
  import opened Results
  import opened Sums
  import opened Ledgers
  import opened Encoding
  import opened Messages
  import opened ChainIds
  import opened RateLimit
  import opened State
  import opened Finalize
  import opened Admin
  import opened Runs
  import opened Effects
  import opened Logs
  import opened VaultLedger
  import opened Authorisation

  // ---- Two paying messages with the same bytes ----

  /** The fields the two messages share, x bytes apart: the amount of the second, one
      byte that tells their sub-transactions apart, zeros for token and gas fee,
      and p in what is left of the target. */
  function SharedFields(amount: u64, b: byte, p: byte, rest: nat): Bytes {
    EncodeU64(amount) + ([b] + (Zeros(123) + seq(rest, _ => p)))
  }

  lemma SharedFieldsAt(amount: u64, b: byte, p: byte, rest: nat)
    ensures var t := SharedFields(amount, b, p, rest);
            && |t| == 132 + rest
            && t[..8] == EncodeU64(amount) && t[8] == b
            && (forall i :: 9 <= i < 132 ==> t[i] == 0)
            && (forall i :: 132 <= i < |t| ==> t[i] == p)
  {
  }

  lemma ZeroSlice(s: Bytes, i: nat, j: nat)
    requires i <= j <= |s| && forall k :: i <= k < j ==> s[k] == 0
    ensures s[i..j] == Zeros(j - i)
  {
  }

  lemma ZeroAmount()
    ensures U64At(Zeros(8)) == 0 && DEFAULT_KEY == Zeros(32)
  {
    U64RoundTrip(0);
    ZeroBytes(8);
  }

  lemma {:induction false} ZeroBytes(width: nat)
    ensures BigEndian(0, width) == Zeros(width)
  {
    if width > 0 {
      ZeroBytes(width - 1);
    }
  }

  /** An execute call on SOL without a gas fee. */
  predicate PlainCall(m: Message, amount: u64) {
    m.Execute? && m.accounts == [] && m.token == DEFAULT_KEY && m.gasFee == 0 && m.amount == amount
  }

  /** The fields of a message over 164 bytes that are zero from the token to the gas fee. */
  lemma PlainHead(m: Message, head: Bytes, amount: u64)
    requires Heads(m, head) && m.accounts == [] && U64At(head[..8]) == amount
    requires forall i :: 92 <= i < 132 ==> head[i] == 0
    ensures PlainCall(m, amount) && m.subTxId == head[8..40] && m.target == head[132..164]
  {
    ZeroAmount();
    ZeroSlice(head, 92, 124);
    ZeroSlice(head, 124, 132);
  }

  /** A byte that is neither of two. */
  function Another(a: byte, b: byte): (p: byte)
    ensures p != a && p != b
  {
    if a != 0 && b != 0 then 0 else if a != 1 && b != 1 then 1 else 2
  }

  /** For every extension x of 8 to 31 bytes and every amount: two calls on SOL with
      the same bytes under c and under c + x. The first pays the number that x
      begins with, the second the amount. */
  lemma PayingTwins(x: Bytes, amount: u64, program: Pubkey) returns (m: Message, m': Message)
    requires 8 <= |x| <= 31
    ensures Fits(m) && Fits(m') && Body(m) == x + Body(m')
    ensures PlainCall(m, U64At(x[..8])) && PlainCall(m', amount)
    ensures m.subTxId != m'.subTxId && m.target != program && m'.target != program
  {
    var d := |x|;
    var other := (x + EncodeU64(amount))[8];
    var b, p := Another(other, other), Another(program[0], program[31]);
    var t := SharedFields(amount, b, p, 32 - d);
    SharedFieldsAt(amount, b, p, 32 - d);
    m, m' := FarApart(x, t);
    var rest: Bytes :| |rest| == d && Heads(m', t + rest);
    FirstTwin(x, t, m);
    SecondTwin(t, rest, m', amount);
    TwinsDiffer(x, t, rest, other, b, p, program);
  }

  lemma TwinsDiffer(x: Bytes, t: Bytes, rest: Bytes, other: byte, b: byte, p: byte, program: Pubkey)
    requires 8 <= |x| <= 31 && |t| == 164 - |x| && |rest| == |x|
    requires (x + t)[8] == other && t[8] == b && b != other
    requires forall i :: 132 <= i < |t| ==> t[i] == p
    requires p != program[0] && p != program[31]
    ensures (x + t)[8..40] != (t + rest)[8..40]
    ensures (x + t)[132..164] != program && (t + rest)[132..164] != program
  {
    assert (x + t)[8..40][0] == other && (t + rest)[8..40][0] == b;
    assert (x + t)[132..164][31] == (x + t)[163] == t[163 - |x|];
    assert (t + rest)[132..164][0] == t[132];
  }

  lemma FirstTwin(x: Bytes, t: Bytes, m: Message)
    requires 8 <= |x| <= 31 && |t| == 164 - |x| && Heads(m, x + t) && m.accounts == []
    requires forall i :: 9 <= i < 132 ==> t[i] == 0
    ensures PlainCall(m, U64At(x[..8])) && m.subTxId == (x + t)[8..40] && m.target == (x + t)[132..164]
  {
    assert (x + t)[..8] == x[..8];
    PlainHead(m, x + t, U64At(x[..8]));
  }

  lemma SecondTwin(t: Bytes, rest: Bytes, m: Message, amount: u64)
    requires |t| >= 133 && |t| + |rest| == 164 && Heads(m, t + rest) && m.accounts == []
    requires t[..8] == EncodeU64(amount) && forall i :: 9 <= i < 132 ==> t[i] == 0
    ensures PlainCall(m, amount) && m.subTxId == (t + rest)[8..40] && m.target == (t + rest)[132..164]
  {
    assert (t + rest)[..8] == t[..8];
    U64RoundTrip(amount);
    PlainHead(m, t + rest, amount);
  }

  // ---- The calls ----

  /** The call of such a message, whose target leaves the balances as they are. */
  function CallOf(m: Message, caller: Pubkey, hash: Bytes32, signature: Bytes, recoveryId: byte, clock: Clock,
                  cpi: CpiResult): FinalizeArgs
    requires m.Execute?
  {
    FinalizeArgs(caller, 2, m.subTxId, m.universalTxId, m.amount, m.pushAccount, [], m.ixData, m.gasFee, signature,
                 recoveryId, hash, m.target, true, None, None, None, None, false, false, false, None, false, None, [],
                     cpi,
                 clock)
  }

  lemma CallMessage(m: Message, amount: u64, a: FinalizeArgs)
    requires PlainCall(m, amount)
    requires a == CallOf(m, a.caller, a.messageHash, a.signature, a.recoveryId, a.clock, a.cpi)
    ensures ValidateFinalizeRequest(a).Ok? && FinalizeMessage(a) == m
    ensures MessageOf(FinalizeUniversalTx(a)) == Some(m)
  {
    assert ReconstructAccountsFromFlags([], []) == [];
  }

  /** What it takes for such a call to be accepted. */
  ghost predicate Acceptable(e: Env, w: World, m: Message, a: FinalizeArgs)
    requires m.Execute?
  {
    && !e.isPda(a.caller) && !w.config.paused && m.subTxId !in w.executed
    && MarkerRent(e, w, m.subTxId) <= Balance(w.ledger, a.caller)
    && m.amount <= Balance(w.ledger, e.vault)
    && m.target != e.programId
    && SignedByTss(e, w.tss.ethAddress, SignedBytes(w.tss.chainId, m), a.messageHash, a.signature, a.recoveryId)
  }

  lemma CallAccountsPass(e: Env, w: World, m: Message, amount: u64, a: FinalizeArgs)
    requires ValidEnv(e) && PlainCall(m, amount) && Acceptable(e, w, m, a)
    requires a == CallOf(m, a.caller, a.messageHash, a.signature, a.recoveryId, a.clock, a.cpi)
    ensures Stageable(e, w, a) && ModeOf(e, a) == CpiMode && FinalizeChecked(e, w.config, w.tss, a).Pass?
  {
    CallMessage(m, amount, a);
    MarkedEffect(e, w, a);
  }

  lemma SameStaging(e: Env, w: World, m: Message, amount: u64, a: FinalizeArgs, cpi: CpiResult)
    requires ValidEnv(e) && PlainCall(m, amount) && Acceptable(e, w, m, a)
    requires a == CallOf(m, a.caller, a.messageHash, a.signature, a.recoveryId, a.clock, a.cpi)
    ensures Stageable(e, w, a) && Stageable(e, w, a.(cpi := cpi))
    ensures StagedLedger(e, w, a) == StagedLedger(e, w, a.(cpi := cpi))
  {
    CallAccountsPass(e, w, m, amount, a);
    CallAccountsPass(e, w, m, amount, a.(cpi := cpi));
  }

  /** An acceptable call is accepted, and pays the amount out of the vault. */
  lemma CallSucceeds(e: Env, w: World, m: Message, amount: u64, caller: Pubkey, hash: Bytes32, signature: Bytes,
                     recoveryId: byte, clock: Clock) returns (a: FinalizeArgs)
    requires ValidEnv(e) && PlainCall(m, amount)
    requires Acceptable(e, w, m, CallOf(m, caller, hash, signature, recoveryId, clock, CpiError))
    ensures a.caller == caller && FinalizeTx(e, w, a).Ok? && MessageOf(FinalizeUniversalTx(a)) == Some(m)
    ensures var after := FinalizeTx(e, w, a).value.world;
            && after == w.(ledger := after.ledger, executed := w.executed + {m.subTxId})
            && Balance(after.ledger, e.vault) == Balance(w.ledger, e.vault) - amount
            && Balance(after.ledger, caller) == Balance(w.ledger, caller) - MarkerRent(e, w, m.subTxId)
  {
    var call := CallOf(m, caller, hash, signature, recoveryId, clock, CpiError);
    CallAccountsPass(e, w, m, amount, call);
    a := call.(cpi := CpiReturned(StagedLedger(e, w, call)));
    SameStaging(e, w, m, amount, call, a.cpi);
    CallAccountsPass(e, w, m, amount, a);
    CallMessage(m, amount, a);
    CallReturns(e, w, a);
    StagedLamports(e, w, a, e.vault);
    StagedLamports(e, w, a, caller);
  }

  lemma CallReturns(e: Env, w: World, a: FinalizeArgs)
    requires Stageable(e, w, a) && ModeOf(e, a) == CpiMode && FinalizeChecked(e, w.config, w.tss, a).Pass?
    requires a.cpi == CpiReturned(StagedLedger(e, w, a))
    ensures FinalizeTx(e, w, a) == Ok(Outcome(w.(ledger := StagedLedger(e, w, a), executed := w.executed + {a.subTxId}),
                                              [FinalEntry(a)]))
  {
    SelfShielded(e, StagedLedger(e, w, a), Some(e.cea(a.pushAccount)));
  }

  lemma SelfShielded(e: Env, l: Ledger, signer: Option<Pubkey>)
    ensures Shielded(e, l, l, signer)
  {
  }

  // ---- The run ----

  lemma RunPush(e: Env, w: World, acts: seq<Action>, act: Action)
    requires Step(e, Run(e, w, acts).world, act).Ok?
    ensures var o := Step(e, Run(e, w, acts).world, act).value;
            Run(e, w, acts + [act]) == Outcome(o.world, Run(e, w, acts).log + o.log)
    ensures Accepted(e, w, acts + [act]) == Accepted(e, w, acts) + Presented(Run(e, w, acts).world, act)
  {
    assert (acts + [act])[..|acts|] == acts;
  }

  /** A step more of a run that pays: what it accepted and what left the vault. */
  lemma PayPush(e: Env, w: World, acts: seq<Action>, act: Action, asset: Pubkey)
    requires ValidEnv(e) && Step(e, Run(e, w, acts).world, act).Ok?
    ensures Accepted(e, w, acts + [act]) == Accepted(e, w, acts) + Presented(Run(e, w, acts).world, act)
    ensures Run(e, w, acts + [act]).world == Step(e, Run(e, w, acts).world, act).value.world
    ensures SumLog(Run(e, w, acts + [act]).log, Outflow(asset))
         == SumLog(Run(e, w, acts).log, Outflow(asset)) + ValueOf(MessageOf(act), Releases(asset))
  {
    RunPush(e, w, acts, act);
    StepReleases(e, Run(e, w, acts).world, act, asset);
    SumLogConcat(Run(e, w, acts).log, Step(e, Run(e, w, acts).world, act).value.log, Outflow(asset));
  }

  /** The TSS can sign whatever it wants to. */
  ghost predicate CanSign(e: Env, tss: Tss) {
    forall bytes: Bytes :: Signable(e, tss, bytes)
  }

  ghost predicate Signable(e: Env, tss: Tss, bytes: Bytes) {
    exists hash: Bytes32, signature: Bytes, recoveryId: byte ::
      SignedByTss(e, tss.ethAddress, bytes, hash, signature, recoveryId)
  }

  /** A world in which both calls can be made. */
  ghost predicate Funded(e: Env, w: World, caller: Pubkey, total: nat) {
    && !w.config.paused && !e.isPda(w.config.admin) && !e.isPda(caller) && w.executed == {}
    && 2 * e.minimumBalance(EXECUTED_SUB_TX_LEN) <= Balance(w.ledger, caller)
    && total <= Balance(w.ledger, e.vault)
  }

  function Rotate(w: World, chainId: Bytes, clock: Clock): AdminArgs {
    AdminArgs(w.config.admin, UpdateTss(w.tss.ethAddress, chainId), clock)
  }

  lemma RotationSucceeds(e: Env, w: World, admin: AdminArgs, chainId: Bytes)
    requires !e.isPda(w.config.admin) && 1 <= |chainId| <= 64
    requires admin == Rotate(w, chainId, admin.clock)
    ensures AdminTx(e, w, admin).Ok? && AdminTx(e, w, admin).value.world == w.(tss := Tss(w.tss.ethAddress, chainId))
  {
  }

  lemma RentAtMost(e: Env, w: World, id: Bytes32)
    ensures MarkerRent(e, w, id) <= e.minimumBalance(EXECUTED_SUB_TX_LEN)
  {
  }

  /** One of the calls, with the lamports it leaves for another. */
  lemma FundedCall(e: Env, w: World, m: Message, v: u64, caller: Pubkey, hash: Bytes32, signature: Bytes,
                   recoveryId: byte, clock: Clock) returns (a: FinalizeArgs, after: World)
    requires ValidEnv(e) && PlainCall(m, v) && m.target != e.programId && m.subTxId !in w.executed
    requires !w.config.paused && !e.isPda(caller)
    requires e.minimumBalance(EXECUTED_SUB_TX_LEN) <= Balance(w.ledger, caller) && v <= Balance(w.ledger, e.vault)
    requires SignedByTss(e, w.tss.ethAddress, SignedBytes(w.tss.chainId, m), hash, signature, recoveryId)
    ensures FinalizeTx(e, w, a).Ok? && after == FinalizeTx(e, w, a).value.world
    ensures MessageOf(FinalizeUniversalTx(a)) == Some(m)
    ensures after == w.(ledger := after.ledger, executed := w.executed + {m.subTxId})
    ensures Balance(after.ledger, e.vault) == Balance(w.ledger, e.vault) - v
    ensures Balance(after.ledger, caller) >= Balance(w.ledger, caller) - e.minimumBalance(EXECUTED_SUB_TX_LEN)
  {
    RentAtMost(e, w, m.subTxId);
    a := CallSucceeds(e, w, m, v, caller, hash, signature, recoveryId, clock);
    after := FinalizeTx(e, w, a).value.world;
  }

  /** Where a run is: the world, the messages accepted and the SOL paid out so far. */
  ghost predicate At(e: Env, w: World, acts: seq<Action>, now: World, accepted: set<Bytes>, paid: int) {
    && Run(e, w, acts).world == now
    && Accepted(e, w, acts) == accepted
    && SumLog(Run(e, w, acts).log, Outflow(DEFAULT_KEY)) == paid
  }

  lemma AtCall(e: Env, w: World, acts: seq<Action>, now: World, accepted: set<Bytes>, paid: int, a: FinalizeArgs,
               m: Message, v: u64)
    requires ValidEnv(e) && At(e, w, acts, now, accepted, paid)
    requires FinalizeTx(e, now, a).Ok? && MessageOf(FinalizeUniversalTx(a)) == Some(m) && PlainCall(m, v)
    ensures At(e, w, acts + [FinalizeUniversalTx(a)], FinalizeTx(e, now, a).value.world,
               accepted + {SignedBytes(now.tss.chainId, m)}, paid + v)
  {
    PayPush(e, w, acts, FinalizeUniversalTx(a), DEFAULT_KEY);
  }

  lemma AtRotation(e: Env, w: World, acts: seq<Action>, now: World, accepted: set<Bytes>, paid: int, a: AdminArgs)
    requires ValidEnv(e) && At(e, w, acts, now, accepted, paid) && AdminTx(e, now, a).Ok?
    ensures At(e, w, acts + [AdminAction(a)], AdminTx(e, now, a).value.world, accepted, paid)
  {
    PayPush(e, w, acts, AdminAction(a), DEFAULT_KEY);
    assert accepted + {} == accepted;
  }

  /** One more step of the run: a funded call. */
  lemma PayStep(e: Env, w: World, acts: seq<Action>, now: World, accepted: set<Bytes>, paid: int, m: Message, v: u64,
                bytes: Bytes, caller: Pubkey, hash: Bytes32, signature: Bytes, recoveryId: byte, clock: Clock)
      returns (act: Action, after: World)
    requires bytes == SignedBytes(now.tss.chainId, m)
    requires ValidEnv(e) && At(e, w, acts, now, accepted, paid)
    requires PlainCall(m, v) && m.target != e.programId && m.subTxId !in now.executed
    requires !now.config.paused && !e.isPda(caller)
    requires e.minimumBalance(EXECUTED_SUB_TX_LEN) <= Balance(now.ledger, caller) && v <= Balance(now.ledger, e.vault)
    requires SignedByTss(e, now.tss.ethAddress, bytes, hash, signature, recoveryId)
    ensures At(e, w, acts + [act], after, accepted + {bytes}, paid + v)
    ensures after == now.(ledger := after.ledger, executed := now.executed + {m.subTxId})
    ensures Balance(after.ledger, e.vault) == Balance(now.ledger, e.vault) - v
    ensures Balance(after.ledger, caller) >= Balance(now.ledger, caller) - e.minimumBalance(EXECUTED_SUB_TX_LEN)
  {
    var a;
    a, after := FundedCall(e, now, m, v, caller, hash, signature, recoveryId, clock);
    AtCall(e, w, acts, now, accepted, paid, a, m, v);
    act := FinalizeUniversalTx(a);
  }

  /** One more step of the run: the rotation. */
  lemma RotateStep(e: Env, w: World, acts: seq<Action>, now: World, accepted: set<Bytes>, paid: int,
                   rotation: AdminArgs,
                   chainId: Bytes) returns (after: World)
    requires ValidEnv(e) && At(e, w, acts, now, accepted, paid)
    requires !e.isPda(now.config.admin) && 1 <= |chainId| <= 64 && rotation == Rotate(now, chainId, rotation.clock)
    ensures At(e, w, acts + [AdminAction(rotation)], after, accepted, paid)
    ensures after == now.(tss := Tss(now.tss.ethAddress, chainId))
  {
    RotationSucceeds(e, now, rotation, chainId);
    AtRotation(e, w, acts, now, accepted, paid, rotation);
    after := AdminTx(e, now, rotation).value.world;
  }

  lemma AtStart(e: Env, w: World)
    ensures At(e, w, [], w, {}, 0)
  {
  }

  /** The first call and the rotation. */
  lemma PayAndRotate(e: Env, w: World, longer: Bytes, bytes: Bytes, m: Message, v: u64, rest: nat, caller: Pubkey,
                     hash: Bytes32, signature: Bytes, recoveryId: byte, clock: Clock)
                         returns (first: Action, now: World)
    requires ValidEnv(e) && Funded(e, w, caller, v + rest) && 1 <= |longer| <= 64
    requires bytes == SignedBytes(w.tss.chainId, m) && PlainCall(m, v) && m.target != e.programId
    requires SignedByTss(e, w.tss.ethAddress, bytes, hash, signature, recoveryId)
    ensures At(e, w, [] + [first] + [AdminAction(Rotate(w, longer, clock))], now, {} + {bytes}, 0 + v)
    ensures now.executed == {m.subTxId} && now.tss == Tss(w.tss.ethAddress, longer) && now.config == w.config
    ensures rest <= Balance(now.ledger, e.vault) && e.minimumBalance(EXECUTED_SUB_TX_LEN) <= Balance(now.ledger, caller)
  {
    AtStart(e, w);
    var w1;
    first, w1 := PayStep(e, w, [], w, {}, 0, m, v, bytes, caller, hash, signature, recoveryId, clock);
    now := RotateStep(e, w, [] + [first], w1, {} + {bytes}, 0 + v, Rotate(w, longer, clock), longer);
  }

  /** Two calls with one signature over the same bytes, and the rotation between them. */
  lemma SignedRun(e: Env, w: World, longer: Bytes, bytes: Bytes, m: Message, m': Message, v: u64, v': u64,
                  caller: Pubkey, hash: Bytes32, signature: Bytes, recoveryId: byte, clock: Clock)
      returns (front: seq<Action>, third: Action, w3: World)
    requires ValidEnv(e) && Funded(e, w, caller, v + v') && 1 <= |longer| <= 64
    requires bytes == SignedBytes(w.tss.chainId, m) && bytes == SignedBytes(longer, m')
    requires SignedByTss(e, w.tss.ethAddress, bytes, hash, signature, recoveryId)
    requires PlainCall(m, v) && PlainCall(m', v') && m.subTxId != m'.subTxId
    requires m.target != e.programId && m'.target != e.programId
    ensures |front| == 2 && front[1] == AdminAction(Rotate(w, longer, clock))
    ensures At(e, w, front + [third], w3, {} + {bytes} + {bytes}, 0 + v + v')
  {
    var first, now := PayAndRotate(e, w, longer, bytes, m, v, v', caller, hash, signature, recoveryId, clock);
    front := [] + [first] + [AdminAction(Rotate(w, longer, clock))];
    third, w3 := PayAgain(e, w, front, now, {} + {bytes}, 0 + v, m.subTxId, m', v', bytes, longer, caller, hash,
                          signature,
                          recoveryId, clock);
  }

  /** The second call. */
  lemma PayAgain(e: Env, w: World, acts: seq<Action>, now: World, accepted: set<Bytes>, paid: int, id: Bytes32,
                 m: Message,
                 v: u64, bytes: Bytes, longer: Bytes, caller: Pubkey, hash: Bytes32, signature: Bytes, recoveryId: byte,
                 clock: Clock) returns (act: Action, after: World)
    requires ValidEnv(e) && At(e, w, acts, now, accepted, paid)
    requires now.executed == {id} && m.subTxId != id && now.tss.chainId == longer && bytes == SignedBytes(longer, m)
    requires PlainCall(m, v) && m.target != e.programId && !now.config.paused && !e.isPda(caller)
    requires e.minimumBalance(EXECUTED_SUB_TX_LEN) <= Balance(now.ledger, caller) && v <= Balance(now.ledger, e.vault)
    requires SignedByTss(e, now.tss.ethAddress, bytes, hash, signature, recoveryId)
    ensures At(e, w, acts + [act], after, accepted + {bytes}, paid + v)
  {
    act, after := PayStep(e, w, acts, now, accepted, paid, m, v, bytes, caller, hash, signature, recoveryId, clock);
  }

  lemma Twice<T>(x: T)
    ensures {} + {x} + {x} == {x}
  {
  }

  /** One signature, two payments. */
  lemma TwoPaymentsRun(e: Env, w: World, longer: Bytes, bytes: Bytes, m: Message, m': Message, v: u64, v': u64,
                       caller: Pubkey, clock: Clock) returns (acts: seq<Action>)
    requires ValidEnv(e) && Signable(e, w.tss, bytes) && Funded(e, w, caller, v + v') && 1 <= |longer| <= 64
    requires bytes == SignedBytes(w.tss.chainId, m) && bytes == SignedBytes(longer, m')
    requires PlainCall(m, v) && PlainCall(m', v') && m.subTxId != m'.subTxId
    requires m.target != e.programId && m'.target != e.programId
    ensures |acts| == 3 && acts[1] == AdminAction(Rotate(w, longer, clock))
    ensures Accepted(e, w, acts) == {bytes}
    ensures SumLog(Run(e, w, acts).log, Outflow(DEFAULT_KEY)) == v + v'
  {
    var hash: Bytes32, signature: Bytes, recoveryId: byte :|
      SignedByTss(e, w.tss.ethAddress, bytes, hash, signature, recoveryId);
    var front, third, w3 := SignedRun(e, w, longer, bytes, m, m', v, v', caller, hash, signature, recoveryId, clock);
    acts := front + [third];
    Twice(bytes);
  }

  // ---- The theorem ----

  lemma ReadUnder(bytes: Bytes, c: Bytes, m: Message, read: Message)
    requires Fits(m) && Fits(read) && bytes == SignedBytes(c, m) && bytes == SignedBytes(c, read)
    ensures read == m
  {
    SignedBytesInjective(c, m, c, read);
  }

  /** A message read from shared bytes is one of the two they were made of. */
  lemma OneOfTwo(chains: set<Bytes>, bytes: Bytes, c: Bytes, c': Bytes, m: Message, m': Message, read: Message)
    requires Fits(m) && Fits(m') && bytes == SignedBytes(c, m) && bytes == SignedBytes(c', m')
    requires chains == {c, c'} && Encodes(chains, bytes, read)
    ensures read == m || read == m'
  {
    var under :| under in chains && bytes == SignedBytes(under, read);
    if under == c {
      ReadUnder(bytes, c, m, read);
    } else {
      ReadUnder(bytes, c', m', read);
    }
  }

  lemma ReadBack(chains: set<Bytes>, c: Bytes, c': Bytes, m: Message, m': Message)
    requires Fits(m) && Fits(m') && SignedBytes(c, m) == SignedBytes(c', m') && chains == {c, c'}
    ensures MessageIn(chains, SignedBytes(c, m)) == Some(m) || MessageIn(chains, SignedBytes(c, m)) == Some(m')
  {
    MessageInEncodes(chains, SignedBytes(c, m), m);
    OneOfTwo(chains, SignedBytes(c, m), c, c', m, m', MessageIn(chains, SignedBytes(c, m)).value);
  }

  /** Read under either chain id, the shared bytes stand for one payment. */
  lemma ReadAsOne(c: Bytes, c': Bytes, m: Message, m': Message, v: u64, v': u64)
    requires Fits(m) && Fits(m') && PlainCall(m, v) && PlainCall(m', v')
    requires SignedBytes(c, m) == SignedBytes(c', m')
    ensures var value := Valued({c, c'}, Releases(DEFAULT_KEY))(SignedBytes(c, m));
            value == v || value == v'
  {
    ReadBack({c, c'}, c, c', m, m');
  }

  /** No two chain ids of a run may overlap for its outflow to be what was signed:
      for every chain id and every extension of it by 8 to 31 bytes, within the
      64 that `update_tss` allows, there is a run with one rotation in which a
      single signed message pays twice. */
  lemma OverlapPaysTwice(e: Env, w: World, x: Bytes, amount: u64, caller: Pubkey, clock: Clock)
      returns (acts: seq<Action>)
    requires ValidEnv(e) && CanSign(e, w.tss) && 8 <= |x| <= 31 && |w.tss.chainId + x| <= 64
    requires Funded(e, w, caller, U64At(x[..8]) + amount)
    ensures |acts| == 3 && acts[1] == AdminAction(Rotate(w, w.tss.chainId + x, clock))
    ensures |Accepted(e, w, acts)| == 1
    ensures SumLog(Run(e, w, acts).log, Outflow(DEFAULT_KEY)) == U64At(x[..8]) + amount
    ensures U64At(x[..8]) > 0 && amount > 0 ==>
              SumLog(Run(e, w, acts).log, Outflow(DEFAULT_KEY))
              != Sum(Accepted(e, w, acts), Valued({w.tss.chainId, w.tss.chainId + x}, Releases(DEFAULT_KEY)))
  {
    var c := w.tss.chainId;
    var m, m' := PayingTwins(x, amount, e.programId);
    ShiftedBodies(c, x, m, m');
    assert Signable(e, w.tss, SignedBytes(c, m));
    acts := TwoPaymentsRun(e, w, c + x, SignedBytes(c, m), m, m', U64At(x[..8]), amount, caller, clock);
    ReadAsOne(c, c + x, m, m', U64At(x[..8]), amount);
    SumOfOne(SignedBytes(c, m), Valued({c, c + x}, Releases(DEFAULT_KEY)));
  }

  lemma SumOfOne(b: Bytes, f: Bytes -> int)
    ensures Sum({b}, f) == f(b)
  {
    SumRemove({b}, f, b);
    assert {b} - {b} == {};
  }
}
