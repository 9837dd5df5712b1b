/** What a deposit reports: the events of every accepted call, field by field from
    the request and the value that came with it, and what they tell of the request. */
module DepositEvents {
  import opened Bytes
  import opened Results
  import opened RateLimit
  import opened State
  import opened Deposit
  import opened Effects
  import opened LimiterRuns

  /** One event of a deposit, which is never from a CEA. */
  function Report(a: SendArgs, recipient: Bytes20, token: Pubkey, amount: u64, payload: Bytes, txType: TxType): Event {
    UniversalTx(a.user, recipient, token, amount, payload, a.request.revertRecipient, txType, a.request.signatureData,
                false)
  }

  /** The gas of a deposit without funds, in SOL to the sender's own account, with its payload. */
  function GasReport(a: SendArgs, gas: u64): Event {
    Report(a, ZERO_ADDRESS, DEFAULT_KEY, gas, a.request.payload,
           if a.request.payload == [] then Gas else GasAndPayload)
  }

  /** The gas that comes with funds leaves the payload to them. */
  function TopUpReport(a: SendArgs, gas: u64): Event {
    Report(a, ZERO_ADDRESS, DEFAULT_KEY, gas, [], Gas)
  }

  /** Plain funds go to the recipient named; with a payload they go to the sender's own account. */
  function FundsReport(a: SendArgs): Event {
    var req := a.request;
    if req.payload == [] then Report(a, req.recipient, req.token, req.amount, [], Funds)
    else Report(a, ZERO_ADDRESS, req.token, req.amount, req.payload, FundsAndPayload)
  }

  function FeeReport(w: World, a: SendArgs): seq<Event>
    requires w.protocolFee <= a.nativeAmount
  {
    if w.protocolFee == 0 then []
    else [ProtocolFeeCollected(a.user, w.protocolFee, a.nativeAmount, a.nativeAmount - w.protocolFee)]
  }

  /** The gas, if there is any or nothing else, then the funds. */
  function LegReports(a: SendArgs, gas: u64): seq<Event> {
    if a.request.amount == 0 then [GasReport(a, gas)]
    else if gas == 0 then [FundsReport(a)]
    else [TopUpReport(a, gas), FundsReport(a)]
  }

  /** The events, all of one transaction. */
  function Stamped(clock: Clock, events: seq<Event>): (log: seq<Entry>)
    ensures |log| == |events|
  {
    seq(|events|, i requires 0 <= i < |events| => Entry(clock, events[i]))
  }

  lemma StampedConcat(clock: Clock, a: seq<Event>, b: seq<Event>)
    ensures Stamped(clock, a + b) == Stamped(clock, a) + Stamped(clock, b)
  {
  }

  lemma LegsAreReported(a: SendArgs, rest: u64, txType: TxType)
    requires NativeFunds(a.request) <= rest && FetchTxType(a.request, rest) == Ok(txType)
    ensures LegLog(a, rest, txType) == Stamped(a.clock, LegReports(a, rest - NativeFunds(a.request)))
  {
    RoutingTable(a.request, rest);
  }

  lemma FeeIsReported(w: World, a: SendArgs)
    requires w.protocolFee <= a.nativeAmount
    ensures FeeLog(w, a) == Stamped(a.clock, FeeReport(w, a))
  {
  }

  lemma SendLogIsReported(w: World, a: SendArgs, txType: TxType, rest: u64)
    requires w.protocolFee <= a.nativeAmount && rest == a.nativeAmount - w.protocolFee
    requires NativeFunds(a.request) <= rest && FetchTxType(a.request, rest) == Ok(txType)
    ensures SendLog(w, a, txType)
         == Stamped(a.clock, FeeReport(w, a) + LegReports(a, rest - NativeFunds(a.request)))
  {
    FeeIsReported(w, a);
    LegsAreReported(a, rest, txType);
    StampedConcat(a.clock, FeeReport(w, a), LegReports(a, rest - NativeFunds(a.request)));
  }

  /** What every accepted deposit reports, and in which order: the fee, the gas, the funds. */
  lemma DepositIsReported(e: Env, w: World, a: SendArgs)
    requires Send(e, w, a).Ok?
    ensures w.protocolFee <= a.nativeAmount && 0 <= GasOf(w, a) < TWO_64
    ensures Send(e, w, a).value.log == Stamped(a.clock, FeeReport(w, a) + LegReports(a, GasOf(w, a)))
  {
    SendReport(e, w, a);
    SendLogIsReported(w, a, TypeOf(w, a), a.nativeAmount - w.protocolFee);
  }

  // ---- What the events tell ----

  /** The requests agree in all that is acted on: without funds the token named says
      nothing, and only plain funds go to the recipient named. */
  predicate SameRequest(a: SendArgs, b: SendArgs) {
    && a.user == b.user
    && a.request.amount == b.request.amount && a.request.payload == b.request.payload
    && a.request.revertRecipient == b.request.revertRecipient
    && a.request.signatureData == b.request.signatureData
    && (a.request.amount > 0 ==> a.request.token == b.request.token)
    && (a.request.amount > 0 && a.request.payload == [] ==> a.request.recipient == b.request.recipient)
  }

  lemma SameLegs(a: SendArgs, b: SendArgs, gas: u64, gas': u64)
    requires LegReports(a, gas) == LegReports(b, gas')
    ensures SameRequest(a, b) && gas == gas'
  {
    var x, y := LegReports(a, gas), LegReports(b, gas');
    assert x[|x| - 1] == y[|y| - 1] && x[0] == y[0];
  }

  lemma SameReports(a: SendArgs, b: SendArgs, w: World, w': World, gas: u64, gas': u64)
    requires w.protocolFee <= a.nativeAmount && w'.protocolFee <= b.nativeAmount
    requires FeeReport(w, a) + LegReports(a, gas) == FeeReport(w', b) + LegReports(b, gas')
    ensures FeeReport(w, a) == FeeReport(w', b) && LegReports(a, gas) == LegReports(b, gas')
  {
    var x, y := FeeReport(w, a) + LegReports(a, gas), FeeReport(w', b) + LegReports(b, gas');
    assert x[0] == y[0];
    assert x[|FeeReport(w, a)|..] == LegReports(a, gas) && y[|FeeReport(w', b)|..] == LegReports(b, gas');
    assert x[..|FeeReport(w, a)|] == FeeReport(w, a) && y[..|FeeReport(w', b)|] == FeeReport(w', b);
  }

  lemma StampedIsInjective(clock: Clock, clock': Clock, a: seq<Event>, b: seq<Event>)
    requires Stamped(clock, a) == Stamped(clock', b)
    ensures a == b
  {
    assert |a| == |Stamped(clock, a)| == |b|;
    forall i | 0 <= i < |a|
      ensures a[i] == b[i]
    {
      assert Stamped(clock, a)[i].event == Stamped(clock', b)[i].event;
    }
  }

  /** Push Chain can tell a deposit from its log alone: two accepted deposits with the
      same log, in whatever states, asked for the same and paid the same fee and gas. */
  lemma LogTellsTheDeposit(e: Env, w: World, a: SendArgs, w': World, b: SendArgs)
    requires Send(e, w, a).Ok? && Send(e, w', b).Ok?
    requires Send(e, w, a).value.log == Send(e, w', b).value.log
    ensures SameRequest(a, b)
    ensures w.protocolFee == w'.protocolFee && a.nativeAmount == b.nativeAmount
  {
    DepositIsReported(e, w, a);
    DepositIsReported(e, w', b);
    StampedIsInjective(a.clock, b.clock, FeeReport(w, a) + LegReports(a, GasOf(w, a)),
                       FeeReport(w', b) + LegReports(b, GasOf(w', b)));
    SameReports(a, b, w, w', GasOf(w, a), GasOf(w', b));
    SameLegs(a, b, GasOf(w, a), GasOf(w', b));
    SameFee(w, a, w', b);
  }

  lemma SameFee(w: World, a: SendArgs, w': World, b: SendArgs)
    requires w.protocolFee <= a.nativeAmount && w'.protocolFee <= b.nativeAmount
    requires FeeReport(w, a) == FeeReport(w', b)
    requires SameRequest(a, b) && GasOf(w, a) == GasOf(w', b)
    ensures w.protocolFee == w'.protocolFee && a.nativeAmount == b.nativeAmount
  {
    if w.protocolFee > 0 {
      assert FeeReport(w, a)[0] == FeeReport(w', b)[0];
    }
  }
}
