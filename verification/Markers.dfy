/** The accounts that mark a sub-transaction as executed: nothing takes lamports
    from them, and they have the rent-exempt minimum from the call that creates
    them on, so the runtime never removes one and its id stays used. */
module Markers {
  import opened Bytes
  import opened Ledgers
  import opened State
  import opened Finalize
  import opened Payout
  import opened Runs
  import opened Effects
  import opened Authorisation
  import opened Settings

  /** Lamports sent ahead to the address of an executed marker stay there. */
  lemma StepKeepsMarker(e: Env, w: World, act: Action, id: Bytes32)
    requires ValidEnv(e) && Step(e, w, act).Ok?
    ensures Balance(w.ledger, e.executedAccount(id))
            <= Balance(Step(e, w, act).value.world.ledger, e.executedAccount(id))
  {
    match act
    case SendUniversalTx(a) => SendLamports(e, w, a, e.executedAccount(id));
    case FinalizeUniversalTx(a) =>
      match ModeOf(e, a) {
        case WithdrawMode => WithdrawKeepsMarker(e, w, a, id);
        case UeaMode => SelfCallKeepsMarker(e, w, a, id);
        case CpiMode => CallKeepsMarker(e, w, a, id);
      }
    case RevertTx(p, instruction) => PayoutKeepsMarker(e, w, p, Reverting(instruction), id);
    case RescueFunds(p) => PayoutKeepsMarker(e, w, p, Rescuing, id);
    case AdminAction(a) => SetterLamports(e, w, a, e.executedAccount(id));
    case External(_, _) =>
  }

  lemma WithdrawKeepsMarker(e: Env, w: World, a: FinalizeArgs, id: Bytes32)
    requires ValidEnv(e) && FinalizeTx(e, w, a).Ok? && ModeOf(e, a) == WithdrawMode
    ensures Balance(w.ledger, e.executedAccount(id))
            <= Balance(FinalizeTx(e, w, a).value.world.ledger, e.executedAccount(id))
  {
    FinalizeAccepted(e, w, a);
    WithdrawLamports(e, w, a, e.executedAccount(id));
  }

  lemma StagingKeepsMarker(e: Env, w: World, a: FinalizeArgs, id: Bytes32)
    requires ValidEnv(e) && Stageable(e, w, a)
    ensures Balance(w.ledger, e.executedAccount(id)) <= Balance(StagedLedger(e, w, a), e.executedAccount(id))
  {
    StagedLamports(e, w, a, e.executedAccount(id));
  }

  lemma SelfCallKeepsMarker(e: Env, w: World, a: FinalizeArgs, id: Bytes32)
    requires ValidEnv(e) && FinalizeTx(e, w, a).Ok? && ModeOf(e, a) == UeaMode
    ensures Balance(w.ledger, e.executedAccount(id))
            <= Balance(FinalizeTx(e, w, a).value.world.ledger, e.executedAccount(id))
  {
    UeaAtPda(e, w, a, e.executedAccount(id), DEFAULT_KEY);
    StagingKeepsMarker(e, w, a, id);
  }

  lemma CallKeepsMarker(e: Env, w: World, a: FinalizeArgs, id: Bytes32)
    requires ValidEnv(e) && FinalizeTx(e, w, a).Ok? && ModeOf(e, a) == CpiMode
    ensures Balance(w.ledger, e.executedAccount(id))
            <= Balance(FinalizeTx(e, w, a).value.world.ledger, e.executedAccount(id))
  {
    CpiAtPda(e, w, a, e.executedAccount(id), DEFAULT_KEY);
    StagingKeepsMarker(e, w, a, id);
  }

  lemma PayoutKeepsMarker(e: Env, w: World, p: PayoutArgs, kind: Kind, id: Bytes32)
    requires ValidEnv(e) && PayoutTx(e, w, p, kind).Ok?
    ensures Balance(w.ledger, e.executedAccount(id))
            <= Balance(PayoutTx(e, w, p, kind).value.world.ledger, e.executedAccount(id))
  {
    PayoutAccepted(e, w, p, kind);
    PayoutLamports(e, w, p, kind, e.executedAccount(id));
  }

  lemma {:induction false} MarkerKeeps(e: Env, w: World, acts: seq<Action>, id: Bytes32)
    requires ValidEnv(e)
    ensures Balance(w.ledger, e.executedAccount(id)) <= Balance(Run(e, w, acts).world.ledger, e.executedAccount(id))
  {
    if acts != [] {
      var before := Run(e, w, acts[..|acts| - 1]).world;
      MarkerKeeps(e, w, acts[..|acts| - 1], id);
      if Step(e, before, acts[|acts| - 1]).Ok? {
        StepKeepsMarker(e, before, acts[|acts| - 1], id);
      }
    }
  }

  // ---- The minimum ----

  /** The marker of this id exists and cannot be removed. */
  ghost predicate RentExempt(e: Env, l: Ledger, id: Bytes32) {
    e.minimumBalance(EXECUTED_SUB_TX_LEN) <= Balance(l, e.executedAccount(id))
  }

  lemma WithdrawMarks(e: Env, w: World, a: FinalizeArgs)
    requires ValidEnv(e) && FinalizeTx(e, w, a).Ok? && ModeOf(e, a) == WithdrawMode
    ensures RentExempt(e, FinalizeTx(e, w, a).value.world.ledger, a.subTxId)
  {
    FinalizeAccepted(e, w, a);
    WithdrawLamports(e, w, a, e.executedAccount(a.subTxId));
  }

  lemma StagingMarks(e: Env, w: World, a: FinalizeArgs)
    requires ValidEnv(e) && Stageable(e, w, a)
    ensures RentExempt(e, StagedLedger(e, w, a), a.subTxId)
  {
    StagedLamports(e, w, a, e.executedAccount(a.subTxId));
  }

  lemma SelfCallMarks(e: Env, w: World, a: FinalizeArgs)
    requires ValidEnv(e) && FinalizeTx(e, w, a).Ok? && ModeOf(e, a) == UeaMode
    ensures RentExempt(e, FinalizeTx(e, w, a).value.world.ledger, a.subTxId)
  {
    UeaAtPda(e, w, a, e.executedAccount(a.subTxId), DEFAULT_KEY);
    StagingMarks(e, w, a);
  }

  lemma CallMarks(e: Env, w: World, a: FinalizeArgs)
    requires ValidEnv(e) && FinalizeTx(e, w, a).Ok? && ModeOf(e, a) == CpiMode
    ensures RentExempt(e, FinalizeTx(e, w, a).value.world.ledger, a.subTxId)
  {
    CpiAtPda(e, w, a, e.executedAccount(a.subTxId), DEFAULT_KEY);
    StagingMarks(e, w, a);
  }

  lemma PayoutMarks(e: Env, w: World, p: PayoutArgs, kind: Kind)
    requires ValidEnv(e) && PayoutTx(e, w, p, kind).Ok?
    ensures RentExempt(e, PayoutTx(e, w, p, kind).value.world.ledger, p.subTxId)
  {
    PayoutLamports(e, w, p, kind, e.executedAccount(p.subTxId));
  }

  /** Whatever a successful step executes, its marker has the minimum afterwards. */
  lemma StepMarks(e: Env, w: World, act: Action)
    requires ValidEnv(e) && Step(e, w, act).Ok? && Wants(act).Some?
    ensures RentExempt(e, Step(e, w, act).value.world.ledger, Wants(act).value)
  {
    match act
    case FinalizeUniversalTx(a) =>
      match ModeOf(e, a) {
        case WithdrawMode => WithdrawMarks(e, w, a);
        case UeaMode => SelfCallMarks(e, w, a);
        case CpiMode => CallMarks(e, w, a);
      }
    case RevertTx(p, instruction) => PayoutMarks(e, w, p, Reverting(instruction));
    case RescueFunds(p) => PayoutMarks(e, w, p, Rescuing);
  }

  /** After any run, every sub-transaction in the log has a marker with the minimum. */
  lemma {:induction false} MarkersStay(e: Env, w: World, acts: seq<Action>, id: Bytes32)
    requires ValidEnv(e) && id in Ids(Run(e, w, acts).log)
    ensures RentExempt(e, Run(e, w, acts).world.ledger, id)
  {
    if acts != [] {
      var rest, last := acts[..|acts| - 1], acts[|acts| - 1];
      var before := Run(e, w, rest);
      if Step(e, before.world, last).Ok? {
        IdsConcat(before.log, Step(e, before.world, last).value.log);
        StepExecutes(e, before.world, last);
        if id in Ids(before.log) {
          MarkersStay(e, w, rest, id);
          StepKeepsMarker(e, before.world, last, id);
        } else {
          StepMarks(e, before.world, last);
        }
      } else {
        MarkersStay(e, w, rest, id);
      }
    }
  }
}
