/** The program under a stream of transactions: the handlers, run one after the
    other on the same accounts, end where `Run` says, so that every theorem about
    runs is one about them. */
module Programs {
  import opened Results
  import opened State
  import opened Runs
  import opened Effects
  import opened Chains
  import opened SendHandlers
  import opened FinalizeHandlers
  import opened PayoutHandlers
  import opened AdminHandlers

  /** The runtime holds other programs to what it guarantees of them. */
  ghost function ConfinedIn(e: Env): (World, Action) -> bool {
    (w: World, act: Action) => match act
      case FinalizeUniversalTx(a) => Stageable(e, w, a) ==> TargetIsConfined(e, StagedLedger(e, w, a), a)
      case External(ledger, _) => Shielded(e, w.ledger, ledger, None)
      case _ => true
  }

  method Process(c: Chain, act: Action) returns (r: Status)
    requires ValidEnv(c.e) && ConfinedIn(c.e)(c.Value(), act)
    modifies c
    ensures match Step(c.e, old(c.Value()), act)
            case Err(err) => r == Fail(err) && c.Value() == old(c.Value()) && c.log == old(c.log)
            case Ok(o) => r == Pass && c.Value() == o.world && c.log == old(c.log) + o.log
  {
    match act
    case SendUniversalTx(a) => r := SendHandlers.SendUniversalTx(c, a);
    case FinalizeUniversalTx(a) => r := FinalizeHandlers.FinalizeUniversalTx(c, a);
    case RevertTx(p, instruction) => r := PayoutHandlers.RevertUniversalTx(c, p, instruction);
    case RescueFunds(p) => r := PayoutHandlers.RescueFunds(c, p);
    case AdminAction(a) => r := Administer(c, a);
    case External(ledger, _) =>
      c.lamports, c.tokens := ledger.lamports, ledger.tokens;
      r := Pass;
  }

  method ProcessAll(c: Chain, acts: seq<Action>)
    requires ValidEnv(c.e) && c.log == [] && Throughout(c.e, c.Value(), acts, ConfinedIn(c.e))
    modifies c
    ensures Outcome(c.Value(), c.log) == Run(c.e, old(c.Value()), acts)
  {
    ghost var w := c.Value();
    for i := 0 to |acts|
      invariant Outcome(c.Value(), c.log) == Run(c.e, w, acts[..i])
    {
      ThroughoutAt(c.e, w, acts, ConfinedIn(c.e), i);
      RunNext(c.e, w, acts, i);
      ProcessNext(c, acts[i]);
    }
    assert acts[..|acts|] == acts;
  }

  /** One action, whether it succeeds or not. */
  method ProcessNext(c: Chain, act: Action)
    requires ValidEnv(c.e) && ConfinedIn(c.e)(c.Value(), act)
    modifies c
    ensures Outcome(c.Value(), c.log) == Extended(old(Outcome(c.Value(), c.log)), Step(c.e, old(c.Value()), act))
  {
    var r := Process(c, act);
  }
}
