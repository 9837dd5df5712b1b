/** Where the vault's money can go: what an address gains from the program over a
    run is covered by the accepted messages that name it. */
module Destinations {
  import opened Bytes
  import opened Results
  import opened Sums
  import opened Ledgers
  import opened Messages
  import opened ChainIds
  import opened State
  import opened Deposit
  import opened Finalize
  import opened Payout
  import opened Admin
  import opened Runs
  import opened Effects
  import opened Authorisation

  /** What a message gives this address: a withdrawal, a revert or a rescue to it,
      or an execution by the CEA it is. */
  ghost function Grant(e: Env, k: Pubkey, asset: Pubkey, m: Message): nat {
    match m
    case Withdraw(_, _, _, token, _, target, amount) => if token == asset && target == k then amount else 0
    case Execute(_, _, push, token, _, _, amount, _, _) => if token == asset && e.cea(push) == k then amount else 0
    case Revert(_, _, mint, recipient, _, amount) => if AssetOf(mint) == asset && recipient == k then amount else 0
    case Rescue(_, _, mint, recipient, _, amount) => if AssetOf(mint) == asset && recipient == k then amount else 0
  }

  ghost function Grants(e: Env, k: Pubkey, asset: Pubkey): Message -> nat {
    (m: Message) => Grant(e, k, asset, m)
  }

  /** An account the call creates for its caller's lamports. */
  predicate Opens(e: Env, act: Action, k: Pubkey) {
    match act
    case FinalizeUniversalTx(a) => k == e.executedAccount(a.subTxId) || a.ceaAta == Some(k)
    case RevertTx(p, _) => k == e.executedAccount(p.subTxId)
    case RescueFunds(p) => k == e.executedAccount(p.subTxId)
    case AdminAction(a) => a.op.SetTokenRateLimit? && k == e.limitAccount(a.op.mint)
    case _ => false
  }

  function RelayerOf(act: Action): Option<Pubkey> {
    match act
    case FinalizeUniversalTx(a) => Some(a.caller)
    case RevertTx(p, _) => Some(p.caller)
    case RescueFunds(p) => Some(p.caller)
    case _ => None
  }

  /** The gas fee of a call, which in SOL is its relayer's. */
  function RelayFee(act: Action, k: Pubkey, asset: Pubkey): nat {
    if asset != DEFAULT_KEY || RelayerOf(act) != Some(k) then 0
    else
      match act
      case FinalizeUniversalTx(a) => a.gasFee
      case RevertTx(p, _) => p.gasFee
      case RescueFunds(p) => p.gasFee
      case _ => 0
  }

  /** What an address earned over a run as the relayer of calls that succeeded. */
  ghost function Earned(e: Env, w: World, acts: seq<Action>, k: Pubkey, asset: Pubkey): nat {
    if acts == [] then 0
    else
      var rest, last := acts[..|acts| - 1], acts[|acts| - 1];
      Earned(e, w, rest, k, asset)
      + (if Step(e, Run(e, w, rest).world, last).Ok? then RelayFee(last, k, asset) else 0)
  }

  /** A step that can give this address something only by a message or a gas fee: it
      is not an account being created; a token recipient still owns its associated
      account; other code gives it nothing. */
  ghost predicate Bystander(e: Env, w: World, act: Action, k: Pubkey, asset: Pubkey) {
    && (asset == DEFAULT_KEY ==> !Opens(e, act, k))
    && match act
       case FinalizeUniversalTx(a) =>
         && (ModeOf(e, a) == WithdrawMode ==> ReceiverOf(e, w, a) == TargetOf(a))
         && (ModeOf(e, a) == CpiMode && a.cpi.CpiReturned? && Stageable(e, w, a) ==>
               HeldBy(a.cpi.ledger, asset, k) <= HeldBy(StagedLedger(e, w, a), asset, k))
       case External(ledger, _) => HeldBy(ledger, asset, k) <= HeldBy(w.ledger, asset, k)
       case _ => true
  }

  ghost function BystanderIn(e: Env, k: Pubkey, asset: Pubkey): (World, Action) -> bool {
    (w: World, act: Action) => Step(e, w, act).Ok? ==> Bystander(e, w, act, k, asset)
  }

  /** Addresses this is about: any but the vault and, for SOL, the fee vault. */
  predicate Outside(e: Env, k: Pubkey, asset: Pubkey) {
    k != e.vault && (asset == DEFAULT_KEY ==> k != e.feeVault)
  }

  // ---- One step ----

  lemma SendGrantsNothing(e: Env, w: World, a: SendArgs, k: Pubkey, asset: Pubkey)
    requires Send(e, w, a).Ok? && Outside(e, k, asset)
    ensures HeldBy(Send(e, w, a).value.world.ledger, asset, k) <= HeldBy(w.ledger, asset, k)
  {
    if asset == DEFAULT_KEY {
      SendLamports(e, w, a, k);
    } else {
      SendTokens(e, w, a, asset, Some(k));
    }
  }

  lemma WithdrawGrants(e: Env, w: World, a: FinalizeArgs, k: Pubkey, asset: Pubkey)
    requires FinalizeTx(e, w, a).Ok? && ModeOf(e, a) == WithdrawMode
    requires Outside(e, k, asset) && Bystander(e, w, FinalizeUniversalTx(a), k, asset)
    ensures HeldBy(FinalizeTx(e, w, a).value.world.ledger, asset, k)
         <= HeldBy(w.ledger, asset, k) + Share(a, asset, TargetOf(a) == k) + RelayFee(FinalizeUniversalTx(a), k, asset)
  {
    FinalizeAccepted(e, w, a);
    WithdrawAccepted(e, w, a);
    if asset == DEFAULT_KEY {
      WithdrawLamports(e, w, a, k);
    } else {
      WithdrawTokens(e, w, a, asset, Some(k));
    }
  }

  lemma StagingGrants(e: Env, w: World, a: FinalizeArgs, k: Pubkey, asset: Pubkey)
    requires Stageable(e, w, a) && Outside(e, k, asset)
    requires asset == DEFAULT_KEY ==> !Opens(e, FinalizeUniversalTx(a), k)
    ensures HeldBy(StagedLedger(e, w, a), asset, k)
         <= HeldBy(w.ledger, asset, k) + Share(a, asset, e.cea(a.pushAccount) == k)
            + RelayFee(FinalizeUniversalTx(a), k, asset)
  {
    if asset == DEFAULT_KEY {
      StagedLamports(e, w, a, k);
    } else {
      StagedTokens(e, w, a, asset, Some(k));
    }
  }

  lemma SelfCallGrants(e: Env, w: World, a: FinalizeArgs, k: Pubkey, asset: Pubkey)
    requires FinalizeTx(e, w, a).Ok? && ModeOf(e, a) == UeaMode
    requires Outside(e, k, asset) && Bystander(e, w, FinalizeUniversalTx(a), k, asset)
    ensures HeldBy(FinalizeTx(e, w, a).value.world.ledger, asset, k)
         <= HeldBy(w.ledger, asset, k) + Share(a, asset, e.cea(a.pushAccount) == k)
            + RelayFee(FinalizeUniversalTx(a), k, asset)
  {
    UeaAtPda(e, w, a, k, asset);
    StagingGrants(e, w, a, k, asset);
  }

  lemma CallGrants(e: Env, w: World, a: FinalizeArgs, k: Pubkey, asset: Pubkey)
    requires ValidEnv(e) && FinalizeTx(e, w, a).Ok? && ModeOf(e, a) == CpiMode
    requires Outside(e, k, asset) && Bystander(e, w, FinalizeUniversalTx(a), k, asset)
    ensures HeldBy(FinalizeTx(e, w, a).value.world.ledger, asset, k)
         <= HeldBy(w.ledger, asset, k) + Share(a, asset, e.cea(a.pushAccount) == k)
            + RelayFee(FinalizeUniversalTx(a), k, asset)
  {
    CpiAtPda(e, w, a, e.vault, asset);
    StagingGrants(e, w, a, k, asset);
  }

  lemma PayoutGrants(e: Env, w: World, act: Action, p: PayoutArgs, kind: Kind, k: Pubkey, asset: Pubkey)
    requires act == (match kind case Reverting(instruction) => RevertTx(p, instruction) case Rescuing => RescueFunds(p))
    requires PayoutTx(e, w, p, kind).Ok?
    requires Outside(e, k, asset) && Bystander(e, w, act, k, asset)
    ensures HeldBy(PayoutTx(e, w, p, kind).value.world.ledger, asset, k)
         <= HeldBy(w.ledger, asset, k) + If(AssetOf(p.mint) == asset && p.recipient == k, p.amount)
            + RelayFee(act, k, asset)
  {
    PayoutAccepted(e, w, p, kind);
    if asset == DEFAULT_KEY {
      PayoutLamports(e, w, p, kind, k);
    } else {
      PayoutTokens(e, w, p, kind, asset, Some(k));
    }
  }

  lemma AdminGrantsNothing(e: Env, w: World, a: AdminArgs, k: Pubkey, asset: Pubkey)
    requires AdminTx(e, w, a).Ok? && Bystander(e, w, AdminAction(a), k, asset)
    ensures HeldBy(AdminTx(e, w, a).value.world.ledger, asset, k) <= HeldBy(w.ledger, asset, k)
  {
    AdminEffect(e, w, a);
    if asset != DEFAULT_KEY {
      HeldTokensOnly(w.ledger, AdminTx(e, w, a).value.world.ledger, asset, Some(k));
    }
  }

  /** What a message's action grants, as the message says it. */
  lemma FinalizeGrants(e: Env, w: World, a: FinalizeArgs, k: Pubkey, asset: Pubkey)
    requires ValidEnv(e) && FinalizeTx(e, w, a).Ok?
    requires Outside(e, k, asset) && Bystander(e, w, FinalizeUniversalTx(a), k, asset)
    ensures ValidateFinalizeRequest(a).Ok?
    ensures HeldBy(FinalizeTx(e, w, a).value.world.ledger, asset, k)
         <= HeldBy(w.ledger, asset, k) + Grant(e, k, asset, FinalizeMessage(a))
            + RelayFee(FinalizeUniversalTx(a), k, asset)
  {
    FinalizeReport(e, w, a);
    match ModeOf(e, a)
    case WithdrawMode => WithdrawGrants(e, w, a, k, asset);
    case UeaMode => SelfCallGrants(e, w, a, k, asset);
    case CpiMode => CallGrants(e, w, a, k, asset);
  }

  /** A successful step gives an address at most what its message grants it and the
      gas fee if it relays the call. */
  lemma StepGrants(e: Env, w: World, act: Action, k: Pubkey, asset: Pubkey)
    requires ValidEnv(e) && Step(e, w, act).Ok?
    requires Outside(e, k, asset) && Bystander(e, w, act, k, asset)
    ensures HeldBy(Step(e, w, act).value.world.ledger, asset, k)
         <= HeldBy(w.ledger, asset, k) + (if MessageOf(act).Some? then Grant(e, k, asset, MessageOf(act).value) else 0)
            + RelayFee(act, k, asset)
  {
    match act
    case SendUniversalTx(a) => SendGrantsNothing(e, w, a, k, asset);
    case FinalizeUniversalTx(a) => FinalizeGrants(e, w, a, k, asset);
    case RevertTx(p, instruction) => PayoutGrants(e, w, act, p, Reverting(instruction), k, asset);
    case RescueFunds(p) => PayoutGrants(e, w, act, p, Rescuing, k, asset);
    case AdminAction(a) => AdminGrantsNothing(e, w, a, k, asset);
    case External(_, _) =>
  }

  // ---- Runs ----

  /** Over any run, what an address gains is covered by the distinct accepted
      messages that name it and the gas fees it earned. */
  lemma {:induction false} GainsAreGranted(e: Env, w: World, acts: seq<Action>, k: Pubkey, asset: Pubkey,
                                           chains: set<Bytes>)
    requires ValidEnv(e) && PrefixFree(chains) && Outside(e, k, asset)
    requires Throughout(e, w, acts, Legible(e, chains)) && Throughout(e, w, acts, BystanderIn(e, k, asset))
    ensures HeldBy(Run(e, w, acts).world.ledger, asset, k)
         <= HeldBy(w.ledger, asset, k) + Sum(Accepted(e, w, acts), Valued(chains, Grants(e, k, asset)))
            + Earned(e, w, acts, k, asset)
  {
    if acts != [] {
      var rest, last := acts[..|acts| - 1], acts[|acts| - 1];
      var before := Run(e, w, rest).world;
      GainsAreGranted(e, w, rest, k, asset, chains);
      AcceptedGrows(e, w, acts, chains, Grants(e, k, asset));
      if Step(e, before, last).Ok? {
        StepGrants(e, before, last, k, asset);
      }
    }
  }

  /** And so, whoever relays what, by the messages signed so far: an address that
      none of them names gains nothing but its gas fees. */
  lemma GainsAreSigned(e: Env, w: World, acts: seq<Action>, k: Pubkey, asset: Pubkey, chains: set<Bytes>,
                       signed: set<Bytes>)
    requires ValidEnv(e) && PrefixFree(chains) && Outside(e, k, asset)
    requires Throughout(e, w, acts, Legible(e, chains)) && Throughout(e, w, acts, BystanderIn(e, k, asset))
    requires Throughout(e, w, acts, Unforged(e, signed))
    ensures HeldBy(Run(e, w, acts).world.ledger, asset, k)
         <= HeldBy(w.ledger, asset, k) + Sum(signed, Valued(chains, Grants(e, k, asset)))
            + Earned(e, w, acts, k, asset)
  {
    GainsAreGranted(e, w, acts, k, asset, chains);
    AcceptedWereSigned(e, w, acts, signed);
    CoveredBySigned(Accepted(e, w, acts), signed, chains, Grants(e, k, asset));
  }
}
