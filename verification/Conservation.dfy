/** Nothing is created or lost: every instruction conserves the lamports of all
    accounts together, rent included, and the supply of every mint, whichever of
    caller, recipient, user and CEA coincide. */
module Conservation {
  import opened Bytes
  import opened Results
  import opened Ledgers
  import opened State
  import opened Finalize
  import opened Payout
  import opened Admin
  import opened Runs
  import opened Effects

  ghost function Supply(l: Ledger, mint: Pubkey): int {
    Held(l, mint, None)
  }

  /** The code that is not the gateway's keeps the totals: other transactions do,
      and the program an execute call runs neither mints nor burns. (That it
      conserves lamports is the runtime's own guarantee.) */
  ghost predicate ForeignCodeConserves(e: Env, w: World, act: Action, mint: Pubkey) {
    match act
    case FinalizeUniversalTx(a) =>
      ModeOf(e, a) == CpiMode && Stageable(e, w, a) && a.cpi.CpiReturned? ==>
        Supply(a.cpi.ledger, mint) == Supply(StagedLedger(e, w, a), mint)
    case External(ledger, _) =>
      TotalLamports(ledger) == TotalLamports(w.ledger) && Supply(ledger, mint) == Supply(w.ledger, mint)
    case _ => true
  }

  lemma WithdrawConserves(e: Env, w: World, a: FinalizeArgs, mint: Pubkey)
    requires FinalizeTx(e, w, a).Ok? && ModeOf(e, a) == WithdrawMode
    ensures var l := FinalizeTx(e, w, a).value.world.ledger;
            TotalLamports(l) == TotalLamports(w.ledger) && Supply(l, mint) == Supply(w.ledger, mint)
  {
    FinalizeAccepted(e, w, a);
    WithdrawLamports(e, w, a, a.caller);
    WithdrawTokens(e, w, a, mint, None);
  }

  lemma StagingConserves(e: Env, w: World, a: FinalizeArgs, mint: Pubkey)
    requires Stageable(e, w, a)
    ensures var l := StagedLedger(e, w, a);
            TotalLamports(l) == TotalLamports(w.ledger) && Supply(l, mint) == Supply(w.ledger, mint)
  {
    StagedLamports(e, w, a, a.caller);
    StagedTokens(e, w, a, mint, None);
  }

  lemma SelfCallConserves(e: Env, w: World, a: FinalizeArgs, mint: Pubkey)
    requires FinalizeTx(e, w, a).Ok? && ModeOf(e, a) == UeaMode
    ensures var l := FinalizeTx(e, w, a).value.world.ledger;
            TotalLamports(l) == TotalLamports(w.ledger) && Supply(l, mint) == Supply(w.ledger, mint)
  {
    FinalizeAccepted(e, w, a);
    StagingConserves(e, w, a, mint);
    UeaLamports(e, w, a, a.caller);
    UeaTokens(e, w, a, mint, None);
  }

  lemma CallConserves(e: Env, w: World, a: FinalizeArgs, mint: Pubkey)
    requires FinalizeTx(e, w, a).Ok? && ModeOf(e, a) == CpiMode
    requires ForeignCodeConserves(e, w, FinalizeUniversalTx(a), mint)
    ensures var l := FinalizeTx(e, w, a).value.world.ledger;
            TotalLamports(l) == TotalLamports(w.ledger) && Supply(l, mint) == Supply(w.ledger, mint)
  {
    FinalizeAccepted(e, w, a);
    StagingConserves(e, w, a, mint);
  }

  /** One successful step. */
  lemma StepConserves(e: Env, w: World, act: Action, mint: Pubkey)
    requires Step(e, w, act).Ok? && ForeignCodeConserves(e, w, act, mint)
    ensures var l := Step(e, w, act).value.world.ledger;
            TotalLamports(l) == TotalLamports(w.ledger) && Supply(l, mint) == Supply(w.ledger, mint)
  {
    match act
    case SendUniversalTx(a) =>
      SendLamports(e, w, a, a.user);
      SendTokens(e, w, a, mint, None);
    case FinalizeUniversalTx(a) =>
      match ModeOf(e, a) {
        case WithdrawMode => WithdrawConserves(e, w, a, mint);
        case UeaMode => SelfCallConserves(e, w, a, mint);
        case CpiMode => CallConserves(e, w, a, mint);
      }
    case RevertTx(p, instruction) =>
      PayoutLamports(e, w, p, Reverting(instruction), p.caller);
      PayoutTokens(e, w, p, Reverting(instruction), mint, None);
    case RescueFunds(p) =>
      PayoutLamports(e, w, p, Rescuing, p.caller);
      PayoutTokens(e, w, p, Rescuing, mint, None);
    case AdminAction(a) =>
      AdminEffect(e, w, a);
      HeldTokensOnly(w.ledger, AdminTx(e, w, a).value.world.ledger, mint, None);
    case External(_, _) =>
  }

  ghost function ConservingFor(e: Env, mint: Pubkey): (World, Action) -> bool {
    (w: World, act: Action) => Step(e, w, act).Ok? ==> ForeignCodeConserves(e, w, act, mint)
  }

  /** Over any run, the totals at the end are the totals at the start. */
  lemma {:induction false} RunConserves(e: Env, w: World, acts: seq<Action>, mint: Pubkey)
    requires Throughout(e, w, acts, ConservingFor(e, mint))
    ensures var l := Run(e, w, acts).world.ledger;
            TotalLamports(l) == TotalLamports(w.ledger) && Supply(l, mint) == Supply(w.ledger, mint)
  {
    if acts != [] {
      var rest, last := acts[..|acts| - 1], acts[|acts| - 1];
      RunConserves(e, w, rest, mint);
      if Step(e, Run(e, w, rest).world, last).Ok? {
        StepConserves(e, Run(e, w, rest).world, last, mint);
      }
    }
  }
}
