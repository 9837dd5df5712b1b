/** The per-slot USD cap and the per-epoch token limit (utils/rate_limit.rs): the
    two accounts as mutable objects, and one pure step for each. */
module RateLimit {
  import opened Bytes
  import opened Results
  import opened Arithmetic

  /** What `Clock::get()` returns. */
  datatype Clock = Clock(slot: u64, unixTimestamp: i64)

  datatype RateConfig = RateConfig(blockUsdCap: u128, epochDuration: u64, lastSlot: u64, consumedUsd: u128)

  datatype TokenLimit = TokenLimit(tokenMint: Pubkey, limitThreshold: u128, epoch: u64, used: u128)

  /** The epoch a time falls in. */
  function EpochAt(time: int, duration: u64): int
    requires duration > 0
  {
    time / duration
  }

  /** `unix_timestamp as u64 / epoch_duration_sec`: a negative timestamp wraps. */
  function EpochOf(timestamp: i64, duration: u64): (epoch: u64)
    requires duration > 0
    ensures epoch == EpochAt(if timestamp >= 0 then timestamp else timestamp + TWO_64, duration)
  {
    Quotient(if timestamp >= 0 then timestamp else timestamp + TWO_64, duration)
  }

  /** What the stored epoch used counts unless a later epoch has begun. */
  function Carried(l: TokenLimit, duration: u64, timestamp: i64): u128
    requires duration > 0
  {
    if EpochOf(timestamp, duration) > l.epoch then 0 else l.used
  }

  /** One request against the limit of a token. */
  function Consume(l: TokenLimit, amount: u128, duration: u64, timestamp: i64): Result<TokenLimit>
    requires duration > 0
  {
    var now := EpochOf(timestamp, duration);
    var carried := Carried(l, duration, timestamp);
    if carried + amount > l.limitThreshold then Err(RateLimitExceeded)
    else Ok(l.(epoch := if now > l.epoch then now else l.epoch, used := carried + amount))
  }

  /** A zero threshold means the token is unsupported; a zero duration switches metering off. */
  function ValidateAndConsume(l: TokenLimit, mint: Pubkey, amount: u128, duration: u64,
                              timestamp: i64): Result<TokenLimit> {
    if l.tokenMint != mint then Err(InvalidToken)
    else if l.limitThreshold == 0 then Err(NotSupported)
    else if duration > 0 then Consume(l, amount, duration, timestamp)
    else Ok(l)
  }

  /** One gas leg against the cap of the current slot; a zero cap switches it off. */
  function ConsumeBlockCap(c: RateConfig, usd: u128, slot: u64): Result<RateConfig> {
    var carried := if slot != c.lastSlot then 0 else c.consumedUsd;
    if c.blockUsdCap == 0 then Ok(c)
    else if carried + usd > c.blockUsdCap then Err(BlockUsdCapExceeded)
    else Ok(c.(lastSlot := slot, consumedUsd := carried + usd))
  }

  class RateLimitConfig {
    var blockUsdCap: u128
    var epochDuration: u64
    var lastSlot: u64
    var consumedUsd: u128

    function Value(): RateConfig
      reads this
    {
      RateConfig(blockUsdCap, epochDuration, lastSlot, consumedUsd)
    }

    constructor (c: RateConfig)
      ensures Value() == c
    {
      blockUsdCap, epochDuration, lastSlot, consumedUsd := c.blockUsdCap, c.epochDuration, c.lastSlot, c.consumedUsd;
    }

    method CheckBlockUsdCap(usd: u128, clock: Clock) returns (r: Status)
      modifies this
      ensures match ConsumeBlockCap(old(Value()), usd, clock.slot)
              case Ok(c) => r == Pass && Value() == c
              case Err(e) => r == Fail(e)
      ensures r.Pass? <==> old(blockUsdCap) == 0
                           || usd + (if clock.slot == old(lastSlot) then old(consumedUsd) else 0) <= old(blockUsdCap)
    {
      if blockUsdCap == 0 {
        return Pass;
      }
      if clock.slot != lastSlot {
        consumedUsd := 0;
        lastSlot := clock.slot;
      }
      // the u128 addition is checked
      :- Require(consumedUsd + usd < TWO_128, BlockUsdCapExceeded);
      var newConsumed := consumedUsd + usd;
      :- Require(newConsumed <= blockUsdCap, BlockUsdCapExceeded);
      consumedUsd := newConsumed;
      return Pass;
    }
  }

  class TokenRateLimit {
    var tokenMint: Pubkey
    var limitThreshold: u128
    var epoch: u64
    var used: u128

    function Value(): TokenLimit
      reads this
    {
      TokenLimit(tokenMint, limitThreshold, epoch, used)
    }

    constructor (l: TokenLimit)
      ensures Value() == l
    {
      tokenMint, limitThreshold, epoch, used := l.tokenMint, l.limitThreshold, l.epoch, l.used;
    }

    method ConsumeRateLimit(amount: u128, duration: u64, clock: Clock) returns (r: Status)
      requires duration > 0
      modifies this
      ensures match Consume(old(Value()), amount, duration, clock.unixTimestamp)
              case Ok(l) => r == Pass && Value() == l
              case Err(e) => r == Fail(e)
    {
      var currentEpoch := EpochOf(clock.unixTimestamp, duration);
      if currentEpoch > epoch {
        epoch := currentEpoch;
        used := 0;
      }
      // the u128 addition is checked
      :- Require(used + amount < TWO_128, RateLimitExceeded);
      var newUsed := used + amount;
      :- Require(newUsed <= limitThreshold, RateLimitExceeded);
      used := newUsed;
      return Pass;
    }

    method ValidateTokenAndConsume(mint: Pubkey, amount: u128, duration: u64, clock: Clock) returns (r: Status)
      modifies this
      ensures match ValidateAndConsume(old(Value()), mint, amount, duration, clock.unixTimestamp)
              case Ok(l) => r == Pass && Value() == l
              case Err(e) => r == Fail(e)
    {
      r := Pass;
      :- Require(tokenMint == mint, InvalidToken);
      :- Require(limitThreshold > 0, NotSupported);
      if duration > 0 {
        :- ConsumeRateLimit(amount, duration, clock);
      }
    }
  }
}
