/** The one-slot counters of the two limiters against the full history of what
    they let through. */
module RateLimitHistory {
  import opened Bytes
  import opened Results
  import opened Arithmetic
  import opened Pricing
  import opened RateLimit

  // ---- The token limit ----

  /** An accepted request: when, and how much. */
  datatype Use = Use(at: i64, amount: u128)

  /** The amounts accepted at the selected times. */
  ghost function Total(h: seq<Use>, sel: int -> bool): nat {
    if h == [] then 0
    else Total(h[..|h| - 1], sel) + (if sel(h[|h| - 1].at) then h[|h| - 1].amount else 0)
  }

  ghost predicate InTimeOrder(h: seq<Use>) {
    && (forall i :: 0 <= i < |h| ==> h[i].at >= 0)
    && (forall i, j :: 0 <= i < j < |h| ==> h[i].at <= h[j].at)
  }

  /** Running the counter over a history, all of whose requests it accepts. */
  ghost function Replay(l: TokenLimit, duration: u64, h: seq<Use>): Option<TokenLimit>
    requires duration > 0
  {
    if h == [] then Some(l)
    else
      var last := h[|h| - 1];
      match Replay(l, duration, h[..|h| - 1])
      case None => None
      case Some(m) =>
        match Consume(m, last.amount, duration, last.at)
        case Ok(n) => Some(n)
        case Err(_) => None
  }

  /** The requests of epoch e. */
  ghost function InEpoch(duration: u64, e: int): int -> bool
    requires duration > 0
  {
    t => EpochAt(t, duration) == e
  }

  lemma {:induction false} TotalMonotone(h: seq<Use>, p: int -> bool, q: int -> bool)
    requires forall i :: 0 <= i < |h| && p(h[i].at) ==> q(h[i].at)
    ensures Total(h, p) <= Total(h, q)
  {
    if h != [] {
      TotalMonotone(h[..|h| - 1], p, q);
    }
  }

  lemma {:induction false} TotalUnion(h: seq<Use>, p: int -> bool, q: int -> bool, r: int -> bool)
    requires forall t: int :: p(t) ==> q(t) || r(t)
    ensures Total(h, p) <= Total(h, q) + Total(h, r)
  {
    if h != [] {
      TotalUnion(h[..|h| - 1], p, q, r);
    }
  }

  /** What the counter knows about the history behind it, whatever state it started in. */
  lemma {:induction false} CounterInvariant(l: TokenLimit, duration: u64, h: seq<Use>, e: int)
    requires duration > 0 && InTimeOrder(h) && Replay(l, duration, h).Some?
    ensures var m := Replay(l, duration, h).value;
            && m.limitThreshold == l.limitThreshold
            && m.tokenMint == l.tokenMint
            && Total(h, InEpoch(duration, e)) <= l.limitThreshold
            && (e > m.epoch ==> Total(h, InEpoch(duration, e)) == 0)
            && (h != [] && e >= EpochAt(h[|h| - 1].at, duration) ==> Total(h, InEpoch(duration, e)) <= m.used)
  {
    if h != [] {
      var rest := h[..|h| - 1];
      var last := h[|h| - 1];
      CounterInvariant(l, duration, rest, e);
      if rest != [] {
        DivisionMonotone(rest[|rest| - 1].at, last.at, duration);
      }
    }
  }

  /** The times of a window. */
  ghost function Window(start: int, length: int): int -> bool {
    t => start <= t < start + length
  }

  /** Any window of k epoch lengths lets at most k + 1 thresholds through, wherever it starts. */
  lemma SlidingWindow(l: TokenLimit, duration: u64, h: seq<Use>, start: int, k: nat)
    requires duration > 0 && InTimeOrder(h) && Replay(l, duration, h).Some?
    ensures Total(h, Window(start, k * duration)) <= (k + 1) * l.limitThreshold
  {
    var first := EpochAt(start, duration);
    forall t | start <= t < start + k * duration
      ensures first <= EpochAt(t, duration) < first + (k + 1)
    {
      DivisionMonotone(start, t, duration);
      WindowEpoch(start, t, k, duration);
    }
    TotalMonotone(h, Window(start, k * duration), EpochRange(duration, first, k + 1));
    EpochRangeBound(l, duration, h, first, k + 1);
  }

  /** With epochs of one second a window of k of them holds just k epochs. */
  lemma SlidingWindowOfSeconds(l: TokenLimit, h: seq<Use>, start: int, k: nat)
    requires InTimeOrder(h) && Replay(l, 1, h).Some?
    ensures Total(h, Window(start, k)) <= k * l.limitThreshold
  {
    TotalMonotone(h, Window(start, k), EpochRange(1, start, k));
    EpochRangeBound(l, 1, h, start, k);
  }

  ghost function EpochRange(duration: u64, first: int, n: nat): int -> bool
    requires duration > 0
  {
    t => first <= EpochAt(t, duration) < first + n
  }

  lemma WindowEpoch(start: int, t: int, k: nat, d: int)
    requires d > 0 && t < start + k * d
    ensures t / d < start / d + (k + 1)
  {
    var q := start / d;
    assert start < d * q + d;
    assert t == d * (t / d) + t % d;
    assert (q + (k + 1)) * d == d * q + k * d + d;
    if t / d >= q + (k + 1) {
      MulMonotone(q + (k + 1), t / d, d);
    }
  }

  lemma {:induction false} EpochRangeBound(l: TokenLimit, duration: u64, h: seq<Use>, first: int, n: nat)
    requires duration > 0 && InTimeOrder(h) && Replay(l, duration, h).Some?
    ensures Total(h, EpochRange(duration, first, n)) <= n * l.limitThreshold
    decreases n
  {
    if n == 0 {
      TotalUnion(h, EpochRange(duration, first, 0), t => false, t => false);
      NothingSelected(h);
    } else {
      EpochRangeBound(l, duration, h, first, n - 1);
      CounterInvariant(l, duration, h, first + (n - 1));
      TotalUnion(h, EpochRange(duration, first, n), EpochRange(duration, first, n - 1),
                 InEpoch(duration, first + (n - 1)));
      assert n * l.limitThreshold == (n - 1) * l.limitThreshold + l.limitThreshold;
    }
  }

  lemma {:induction false} NothingSelected(h: seq<Use>)
    ensures Total(h, t => false) == 0
  {
    if h != [] {
      NothingSelected(h[..|h| - 1]);
    }
  }

  /** The state `set_token_rate_limit` leaves. */
  predicate Fresh(l: TokenLimit) {
    l.epoch == 0 && l.used == 0
  }

  /** From a reset on, the counter is exactly the sum of the history in its epoch. */
  lemma {:induction false} CounterIsHistory(l: TokenLimit, duration: u64, h: seq<Use>)
    requires duration > 0 && InTimeOrder(h) && Fresh(l) && Replay(l, duration, h).Some?
    ensures var m := Replay(l, duration, h).value;
            && m.used == Total(h, InEpoch(duration, m.epoch))
            && m.epoch <= (if h == [] then 0 else EpochAt(h[|h| - 1].at, duration))
  {
    if h != [] {
      var rest := h[..|h| - 1];
      var last := h[|h| - 1];
      CounterIsHistory(l, duration, rest);
      if rest != [] {
        DivisionMonotone(rest[|rest| - 1].at, last.at, duration);
      }
      DivisionMonotone(0, last.at, duration);
      CounterInvariant(l, duration, rest, EpochAt(last.at, duration));
    }
  }

  /** The one-slot counter refines the limiter that remembers everything: after a
      reset a request is accepted iff what its epoch already accepted leaves room. */
  lemma CounterRefinesHistory(l: TokenLimit, duration: u64, h: seq<Use>, request: Use)
    requires duration > 0 && Fresh(l) && InTimeOrder(h + [request]) && Replay(l, duration, h).Some?
    ensures Consume(Replay(l, duration, h).value, request.amount, duration, request.at).Ok?
       <==> Total(h, InEpoch(duration, EpochAt(request.at, duration))) + request.amount <= l.limitThreshold
  {
    assert (h + [request])[|h|] == request;
    forall i | 0 <= i < |h|
      ensures h[i].at == (h + [request])[i].at
    {
    }
    CounterIsHistory(l, duration, h);
    CounterInvariant(l, duration, h, EpochAt(request.at, duration));
    if h != [] {
      DivisionMonotone(h[|h| - 1].at, request.at, duration);
    }
    DivisionMonotone(0, request.at, duration);
  }

  /** The first second of epoch k. */
  ghost function EpochStart(duration: u64, k: nat): nat {
    if k == 0 then 0 else EpochStart(duration, k - 1) + duration
  }

  lemma {:induction false} EpochStartIs(duration: u64, k: nat)
    requires duration > 0
    ensures EpochStart(duration, k) == k * duration && EpochAt(EpochStart(duration, k), duration) == k
    ensures EpochStart(duration, k) >= k
  {
    if k > 0 {
      EpochStartIs(duration, k - 1);
      assert k * duration == (k - 1) * duration + duration;
    }
    QuotientUnique(EpochStart(duration, k), duration, k);
  }

  /** k + 1 uses of the whole threshold: the last second of epoch 0, then the first
      second of every epoch up to k. */
  ghost function Burst(duration: u64, threshold: u128, k: nat): seq<Use>
    requires 0 < duration < TWO_63 && EpochStart(duration, k) < TWO_63
    decreases k
  {
    if k == 0 then [Use(duration - 1, threshold)]
    else Burst(duration, threshold, k - 1) + [Use(EpochStart(duration, k), threshold)]
  }

  lemma ReplayPush(l: TokenLimit, duration: u64, h: seq<Use>, u: Use)
    requires duration > 0 && Replay(l, duration, h).Some?
             && Consume(Replay(l, duration, h).value, u.amount, duration, u.at).Ok?
    ensures Replay(l, duration, h + [u]) == Some(Consume(Replay(l, duration, h).value, u.amount, duration, u.at).value)
  {
    assert (h + [u])[..|h|] == h;
  }

  lemma {:induction false} BurstTimes(duration: u64, threshold: u128, k: nat)
    requires 1 < duration < TWO_63 && EpochStart(duration, k) < TWO_63
    ensures var h := Burst(duration, threshold, k);
            && InTimeOrder(h)
            && forall u <- h :: duration - 1 <= u.at < duration + EpochStart(duration, k)
                 && (k > 0 ==> u.at <= EpochStart(duration, k))
    decreases k
  {
    if k > 0 {
      EpochStartIs(duration, k - 1);
      BurstTimes(duration, threshold, k - 1);
    }
  }

  lemma NextEpoch(l: TokenLimit, duration: u64, time: i64, epoch: u64)
    requires duration > 0 && time >= 0 && EpochAt(time, duration) == epoch
             && (epoch > l.epoch || (epoch == l.epoch && l.used == 0))
    ensures Consume(l, l.limitThreshold, duration, time) == Ok(l.(epoch := epoch, used := l.limitThreshold))
  {
  }

  /** The counter lets the whole burst through. */
  lemma {:induction false} BurstPasses(l: TokenLimit, duration: u64, k: nat)
    requires 1 < duration < TWO_63 && EpochStart(duration, k) < TWO_63 && Fresh(l)
    ensures k < TWO_64 && Replay(l, duration, Burst(duration, l.limitThreshold, k))
         == Some(l.(epoch := k, used := l.limitThreshold))
    decreases k
  {
    EpochStartIs(duration, k);
    if k == 0 {
      QuotientUnique(duration - 1, duration, 0);
      NextEpoch(l, duration, duration - 1, 0);
      ReplayPush(l, duration, [], Use(duration - 1, l.limitThreshold));
      assert [] + [Use(duration - 1, l.limitThreshold)] == [Use(duration - 1, l.limitThreshold)];
    } else {
      BurstPasses(l, duration, k - 1);
      NextEpoch(l.(epoch := k - 1, used := l.limitThreshold), duration, EpochStart(duration, k), k);
      ReplayPush(l, duration, Burst(duration, l.limitThreshold, k - 1), Use(EpochStart(duration, k), l.limitThreshold));
    }
  }

  lemma {:induction false} BurstTotal(duration: u64, threshold: u128, k: nat, sel: int -> bool)
    requires 0 < duration < TWO_63 && EpochStart(duration, k) < TWO_63
    requires forall u <- Burst(duration, threshold, k) :: sel(u.at)
    ensures Total(Burst(duration, threshold, k), sel) == (k + 1) * threshold
    decreases k
  {
    var h := Burst(duration, threshold, k);
    if k == 0 {
      assert h[..0] == [];
    } else {
      assert h[..|h| - 1] == Burst(duration, threshold, k - 1);
      BurstTotal(duration, threshold, k - 1, sel);
      assert (k + 1) * threshold == k * threshold + threshold;
    }
  }

  /** The sliding-window bound is attained: after a reset, the k epoch lengths that
      start in the last second of an epoch can let exactly k + 1 thresholds through,
      unless an epoch has only one second. */
  lemma SlidingWindowIsTight(l: TokenLimit, duration: u64, k: nat)
    requires 1 < duration < TWO_63 && 0 < k && EpochStart(duration, k) < TWO_63 && Fresh(l)
    ensures var h := Burst(duration, l.limitThreshold, k);
            && InTimeOrder(h) && Replay(l, duration, h).Some?
            && Total(h, Window(duration - 1, k * duration)) == (k + 1) * l.limitThreshold
  {
    EpochStartIs(duration, k);
    BurstPasses(l, duration, k);
    BurstTimes(duration, l.limitThreshold, k);
    BurstTotal(duration, l.limitThreshold, k, Window(duration - 1, k * duration));
  }

  /** When a limit stands in nobody's way. A zero threshold is not the way to get
      there, whatever the setter's comment says: it refuses every amount. */
  lemma NoLimitExactly(l: TokenLimit, mint: Pubkey, duration: u64, now: i64)
    ensures (forall amount: u64 :: ValidateAndConsume(l, mint, amount, duration, now).Ok?)
       <==> && l.tokenMint == mint && l.limitThreshold > 0
            && (duration == 0 || Carried(l, duration, now) + (TWO_64 - 1) <= l.limitThreshold)
    ensures l.limitThreshold == 0 ==> forall amount: u64 :: ValidateAndConsume(l, mint, amount, duration, now).Err?
  {
    assert ValidateAndConsume(l, mint, TWO_64 - 1, duration, now).Ok? ==>
      l.tokenMint == mint && l.limitThreshold > 0
      && (duration == 0 || Carried(l, duration, now) + (TWO_64 - 1) <= l.limitThreshold);
  }

  // ---- The USD cap per slot ----

  /** A gas leg and the price it was metered at. */
  datatype Leg = Leg(slot: u64, lamports: u64, price: PriceData)

  /** A leg that passed the oracle and conversion checks. */
  type GasLeg = g: Leg | g.price.price > 0 && CalculateUsdAmount(g.lamports, g.price).Ok?
    witness Leg(0, 0, PriceData(1, -8, 0))

  ghost predicate InSlotOrder(gs: seq<GasLeg>) {
    forall i, j :: 0 <= i < j < |gs| ==> gs[i].slot <= gs[j].slot
  }

  /** The metered and the exact value of a leg, in units of 10^-8 USD. */
  function MeteredValue(g: GasLeg): u128 {
    CalculateUsdAmount(g.lamports, g.price).value
  }

  ghost function RealValue(g: GasLeg): real {
    ExactUsd(g.lamports, g.price)
  }

  /** Running the slot counter over gas legs that it all accepts. */
  ghost function ReplayLegs(c: RateConfig, gs: seq<GasLeg>): Option<RateConfig> {
    if gs == [] then Some(c)
    else
      var last := gs[|gs| - 1];
      match ReplayLegs(c, gs[..|gs| - 1])
      case None => None
      case Some(d) =>
        match ConsumeBlockCap(d, MeteredValue(last), last.slot)
        case Ok(d') => Some(d')
        case Err(_) => None
  }

  ghost function MeteredUsd(gs: seq<GasLeg>, slot: u64): nat {
    if gs == [] then 0
    else MeteredUsd(gs[..|gs| - 1], slot) + (if gs[|gs| - 1].slot == slot then MeteredValue(gs[|gs| - 1]) else 0)
  }

  ghost function RealUsd(gs: seq<GasLeg>, slot: u64): real {
    if gs == [] then 0.0
    else RealUsd(gs[..|gs| - 1], slot) + (if gs[|gs| - 1].slot == slot then RealValue(gs[|gs| - 1]) else 0.0)
  }

  ghost function LegsInSlot(gs: seq<GasLeg>, slot: u64): nat {
    if gs == [] then 0
    else LegsInSlot(gs[..|gs| - 1], slot) + (if gs[|gs| - 1].slot == slot then 1 else 0)
  }

  lemma {:induction false} SlotCounter(c: RateConfig, gs: seq<GasLeg>, slot: u64)
    requires c.blockUsdCap > 0 && InSlotOrder(gs) && ReplayLegs(c, gs).Some?
    ensures var d := ReplayLegs(c, gs).value;
            && d.blockUsdCap == c.blockUsdCap
            && (gs != [] ==> d.lastSlot == gs[|gs| - 1].slot)
            && MeteredUsd(gs, slot) <= c.blockUsdCap
            && (gs != [] && slot > d.lastSlot ==> MeteredUsd(gs, slot) == 0)
            && (slot == d.lastSlot ==> MeteredUsd(gs, slot) <= d.consumedUsd)
  {
    if gs != [] {
      SlotCounter(c, gs[..|gs| - 1], slot);
      SlotCounter(c, gs[..|gs| - 1], gs[|gs| - 1].slot);
    }
  }

  /** What the counter holds against the cap in this slot. */
  function SpentIn(c: RateConfig, slot: u64): u128 {
    if slot == c.lastSlot then c.consumedUsd else 0
  }

  /** The slot is not before the counter's, nor before any leg. */
  ghost predicate NotBefore(c: RateConfig, gs: seq<GasLeg>, slot: u64) {
    && InSlotOrder(gs) && c.lastSlot <= slot
    && (gs != [] ==> c.lastSlot <= gs[0].slot && gs[|gs| - 1].slot <= slot)
  }

  /** The counter holds what the legs of the slot were metered at, after what it
      started with if it started in that slot. */
  lemma {:induction false} SlotIsHistory(c: RateConfig, gs: seq<GasLeg>, slot: u64)
    requires c.blockUsdCap > 0 && ReplayLegs(c, gs).Some? && NotBefore(c, gs, slot)
    ensures SpentIn(ReplayLegs(c, gs).value, slot) == SpentIn(c, slot) + MeteredUsd(gs, slot)
  {
    if gs != [] {
      var rest, last := gs[..|gs| - 1], gs[|gs| - 1];
      SlotCounter(c, gs, slot);
      SlotCounter(c, rest, last.slot);
      SlotIsHistory(c, rest, last.slot);
    }
  }

  /** The one-slot counter refines the cap that remembers every leg: a further leg
      is accepted iff what its slot already accepted leaves room. So every new slot
      has the whole cap. */
  lemma SlotRefinesHistory(c: RateConfig, gs: seq<GasLeg>, usd: u128, slot: u64)
    requires c.blockUsdCap > 0 && ReplayLegs(c, gs).Some? && NotBefore(c, gs, slot)
    ensures var room := ConsumeBlockCap(ReplayLegs(c, gs).value, usd, slot).Ok?;
            && (room <==> SpentIn(c, slot) + MeteredUsd(gs, slot) + usd <= c.blockUsdCap)
            && (c.lastSlot < slot && (gs != [] ==> gs[|gs| - 1].slot < slot) ==> (room <==> usd <= c.blockUsdCap))
  {
    SlotIsHistory(c, gs, slot);
    SlotCounter(c, gs, slot);
  }

  lemma {:induction false} RoundingLoss(gs: seq<GasLeg>, slot: u64)
    ensures RealUsd(gs, slot) <= MeteredUsd(gs, slot) as real + LegsInSlot(gs, slot) as real
  {
    if gs != [] {
      RoundingLoss(gs[..|gs| - 1], slot);
      UsdIsSingleFloor(gs[|gs| - 1].lamports, gs[|gs| - 1].price);
    }
  }

  lemma {:induction false} RoundingLossStrict(gs: seq<GasLeg>, slot: u64)
    requires LegsInSlot(gs, slot) > 0
    ensures RealUsd(gs, slot) < MeteredUsd(gs, slot) as real + LegsInSlot(gs, slot) as real
  {
    var last := gs[|gs| - 1];
    RoundingLoss(gs[..|gs| - 1], slot);
    UsdIsSingleFloor(last.lamports, last.price);
    if last.slot != slot {
      RoundingLossStrict(gs[..|gs| - 1], slot);
    }
  }

  lemma {:induction false} NoLegs(gs: seq<GasLeg>, slot: u64)
    requires LegsInSlot(gs, slot) == 0
    ensures RealUsd(gs, slot) == 0.0
  {
    if gs != [] {
      NoLegs(gs[..|gs| - 1], slot);
    }
  }

  /** Whatever prices the legs used, the exact value let in per slot stays below
      the cap plus one unit of 10^-8 USD for each leg. */
  lemma RealUsdPerSlot(c: RateConfig, gs: seq<GasLeg>, slot: u64)
    requires c.blockUsdCap > 0 && InSlotOrder(gs) && ReplayLegs(c, gs).Some?
    ensures RealUsd(gs, slot) < c.blockUsdCap as real + LegsInSlot(gs, slot) as real
  {
    SlotCounter(c, gs, slot);
    if LegsInSlot(gs, slot) > 0 {
      RoundingLossStrict(gs, slot);
    } else {
      NoLegs(gs, slot);
    }
  }
}
