/** Runs: any sequence of transactions, the gateway's own and everybody else's,
    each of which either takes effect as a whole or changes nothing. */
module Runs {
  import opened Results
  import opened Ledgers
  import opened RateLimit
  import opened State
  import opened Deposit
  import opened Finalize
  import opened Payout
  import opened Admin

  /** `External` is any other transaction, with the balances it ends in. */
  datatype Action =
    | SendUniversalTx(send: SendArgs)
    | FinalizeUniversalTx(finalize: FinalizeArgs)
    | RevertTx(payout: PayoutArgs, instruction: RevertInstructions)
    | RescueFunds(payout: PayoutArgs)
    | AdminAction(admin: AdminArgs)
    | External(ledger: Ledger, clock: Clock)

  function ClockOf(a: Action): Clock {
    match a
    case SendUniversalTx(s) => s.clock
    case FinalizeUniversalTx(f) => f.clock
    case RevertTx(p, _) => p.clock
    case RescueFunds(p) => p.clock
    case AdminAction(s) => s.clock
    case External(_, clock) => clock
  }

  ghost function Step(e: Env, w: World, a: Action): Result<Outcome> {
    match a
    case SendUniversalTx(s) => Send(e, w, s)
    case FinalizeUniversalTx(f) => FinalizeTx(e, w, f)
    case RevertTx(p, instruction) => PayoutTx(e, w, p, Reverting(instruction))
    case RescueFunds(p) => PayoutTx(e, w, p, Rescuing)
    case AdminAction(s) => AdminTx(e, w, s)
    case External(ledger, _) =>
      if Shielded(e, w.ledger, ledger, None) then Ok(Outcome(w.(ledger := ledger), [])) else Err(CpiFailed)
  }

  /** A run, one action further. */
  ghost function Extended(before: Outcome, step: Result<Outcome>): Outcome {
    match step
    case Ok(o) => Outcome(o.world, before.log + o.log)
    case Err(_) => before
  }

  /** The world after a run and the log of the run. */
  ghost function Run(e: Env, w: World, acts: seq<Action>): Outcome {
    if acts == [] then Outcome(w, [])
    else
      var before := Run(e, w, acts[..|acts| - 1]);
      Extended(before, Step(e, before.world, acts[|acts| - 1]))
  }

  lemma RunNext(e: Env, w: World, acts: seq<Action>, i: nat)
    requires i < |acts|
    ensures Run(e, w, acts[..i + 1]) == Extended(Run(e, w, acts[..i]), Step(e, Run(e, w, acts[..i]).world, acts[i]))
  {
    assert acts[..i + 1][..i] == acts[..i];
  }

  /** A property of every step of a run, in the world where it takes place. */
  ghost predicate Throughout(e: Env, w: World, acts: seq<Action>, p: (World, Action) -> bool) {
    acts == []
    || (Throughout(e, w, acts[..|acts| - 1], p) && p(Run(e, w, acts[..|acts| - 1]).world, acts[|acts| - 1]))
  }

  lemma {:induction false} ThroughoutAt(e: Env, w: World, acts: seq<Action>, p: (World, Action) -> bool, i: nat)
    requires Throughout(e, w, acts, p) && i < |acts|
    ensures p(Run(e, w, acts[..i]).world, acts[i])
  {
    if i < |acts| - 1 {
      ThroughoutAt(e, w, acts[..|acts| - 1], p, i);
      assert acts[..|acts| - 1][..i] == acts[..i];
    }
  }
}
