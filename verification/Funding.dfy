/** Velocity funding: the index integrator and the payments it implies (stellax-funding/src/lib.rs). */
module Funding {
  import opened Int128
  import opened Host
  import opened FixedPoint
  import opened Pricing

  const SECS_PER_HOUR: nat := 3600
  const MAX_RATE: nat := 1_000_000_000_000_000
  const MAX_VELOCITY: nat := 1_000_000_000_000_000

  datatype FundingError = MathOverflow

  datatype IndexState = IndexState(long: i128, short: i128, lastUpdate: u64, lastRate: i128)

  datatype VelocityState = VelocityState(velocity: i128, rate: i128)

  datatype FundingBook = FundingBook(indices: map<u32, IndexState>, velocities: map<u32, VelocityState>)

  /** `read_or_default_state`: a market without a record starts now, at index zero. */
  function IndexOf(b: FundingBook, market: u32, now: u64): IndexState {
    if market in b.indices then b.indices[market] else IndexState(0, 0, now, 0)
  }

  function VelocityOf(b: FundingBook, market: u32): VelocityState {
    if market in b.velocities then b.velocities[market] else VelocityState(0, 0)
  }

  function Clamp(x: int, bound: nat): int { Max(Neg(bound), Min(bound, x)) }

  /** (mark - index) / index, weighted by the funding factor. */
  function WeightedPremium(mark: i128, index: i128, factor: i128): Option<i128> {
    var gap :- Checked(mark - index);
    var premium :- DivPrecision(gap, index);
    MulPrecision(premium, factor)
  }

  /** `prorated_funding_delta`. */
  function Prorated(rate: i128, elapsed: u64): Option<i128> {
    var scaled :- Checked(rate * elapsed);
    Checked(TruncDiv(scaled, SECS_PER_HOUR))
  }

  /** The velocity integrates the premium and the rate integrates the velocity, each inside its clamp. */
  function Drift(v: VelocityState, delta: i128, elapsed: u64): Option<VelocityState> {
    var drifted :- Checked(v.velocity + delta);
    var velocity := Clamp(drifted, MAX_VELOCITY);
    var rateDelta :- Checked(velocity * elapsed);
    var moved :- Checked(v.rate + rateDelta);
    Some(VelocityState(velocity, Clamp(moved, MAX_RATE)))
  }

  /** What one index gains the other loses. */
  function Accrue(s: IndexState, rate: i128, now: u64): Option<IndexState>
    requires now > s.lastUpdate
  {
    var step :- Prorated(rate, now - s.lastUpdate);
    var long :- Checked(s.long + step);
    var short :- Checked(s.short - step);
    Some(IndexState(long, short, now, rate))
  }

  /** One integration step; None is MathOverflow. */
  function Tick(s: IndexState, v: VelocityState, now: u64, mark: i128, index: i128, factor: i128)
    : Option<(IndexState, VelocityState)>
    requires now > s.lastUpdate
  {
    var delta :- WeightedPremium(mark, index, factor);
    var velocity :- Drift(v, delta, now - s.lastUpdate);
    var state :- Accrue(s, velocity.rate, now);
    Some((state, velocity))
  }

  function UpdateFunding(b: FundingBook, market: u32, now: u64, mark: i128, index: i128, factor: i128)
    : Result<FundingBook, FundingError>
  {
    var s, v := IndexOf(b, market, now), VelocityOf(b, market);
    if now <= s.lastUpdate then
      Ok(FundingBook(b.indices[market := s], b.velocities[market := v]))
    else
      var next := Tick(s, v, now, mark, index, factor);
      if next.None? then Err(MathOverflow)
      else Ok(FundingBook(b.indices[market := next.value.0], b.velocities[market := next.value.1]))
  }

  class FundingContract {
    var factor: i128
    var indices: map<u32, IndexState>
    var velocities: map<u32, VelocityState>

    ghost function Model(): FundingBook
      reads this
    {
      FundingBook(indices, velocities)
    }

    constructor (factor: i128)
      ensures Model() == FundingBook(map[], map[]) && this.factor == factor
    {
      this.factor, indices, velocities := factor, map[], map[];
    }

    method DoUpdateFunding(market: u32, now: u64, mark: i128, index: i128) returns (r: Result<(), FundingError>)
      modifies this
      ensures factor == old(factor)
      ensures r == Status(UpdateFunding(old(Model()), market, now, mark, index, factor))
      ensures Model() == After(old(Model()), UpdateFunding(old(Model()), market, now, mark, index, factor))
    {
      var state, velocity := IndexState(0, 0, now, 0), VelocityState(0, 0);
      if market in indices {
        state := indices[market];
      }
      if market in velocities {
        velocity := velocities[market];
      }
      if now <= state.lastUpdate {
        indices, velocities := indices[market := state], velocities[market := velocity];
        return Ok(());
      }
      var delta := WeightedPremium(mark, index, factor);
      if delta.None? {
        return Err(MathOverflow);
      }
      var drift := Integrate(velocity, delta.value, now - state.lastUpdate);
      if drift.None? {
        return Err(MathOverflow);
      }
      var step := Prorated(drift.value.rate, now - state.lastUpdate);
      if step.None? || !InI128(state.long + step.value) || !InI128(state.short - step.value) {
        return Err(MathOverflow);
      }
      state := state.(long := state.long + step.value);
      state := state.(short := state.short - step.value);
      state := state.(lastUpdate := now, lastRate := drift.value.rate);
      indices, velocities := indices[market := state], velocities[market := drift.value];
      return Ok(());
    }

    method Integrate(v: VelocityState, delta: i128, elapsed: u64) returns (r: Option<VelocityState>)
      ensures r == Drift(v, delta, elapsed)
    {
      if !InI128(v.velocity + delta) {
        return None;
      }
      var velocity: i128 := Clamp(v.velocity + delta, MAX_VELOCITY);
      var rateDelta := velocity * elapsed;
      if !InI128(rateDelta) || !InI128(v.rate + rateDelta) {
        return None;
      }
      return Some(VelocityState(velocity, Clamp(v.rate + rateDelta, MAX_RATE)));
    }
  }

  // ----- runs -----

  datatype FundingOp = FundingOp(market: u32, now: u64, mark: i128, index: i128, factor: i128)

  /** Updates of any markets at any times and prices, with any funding factors; a failed one changes nothing. */
  function Run(b: FundingBook, ops: seq<FundingOp>): FundingBook
    decreases |ops|
  {
    if ops == [] then b
    else
      var o := ops[0];
      Run(After(b, UpdateFunding(b, o.market, o.now, o.mark, o.index, o.factor)), ops[1..])
  }

  /** The indices mirror each other, velocity and rate are inside their clamps, and the index is no larger than
      the top rate could have made it since time zero. */
  ghost predicate SoundMarket(s: IndexState, v: VelocityState) {
    && s.long + s.short == 0
    && Abs(v.velocity) <= MAX_VELOCITY && Abs(v.rate) <= MAX_RATE && s.lastRate == v.rate
    && Abs(s.long) * SECS_PER_HOUR <= MAX_RATE * s.lastUpdate
  }

  ghost predicate Sound(b: FundingBook) {
    && b.indices.Keys == b.velocities.Keys
    && forall m :: m in b.indices ==> SoundMarket(b.indices[m], b.velocities[m])
  }

  lemma {:induction false} ClampedProduct(x: int, bound: nat, elapsed: u64)
    requires Abs(x) <= bound
    ensures Abs(x * elapsed) <= bound * elapsed
  {
    MagnitudeOfProduct(x, elapsed);
    MulMonotone(Abs(x), elapsed, bound, elapsed);
  }

  /** One step moves the index by at most the top hourly rate over the elapsed time, and never overflows. */
  lemma {:induction false} StepBounded(rate: i128, elapsed: u64)
    requires Abs(rate) <= MAX_RATE
    ensures Prorated(rate, elapsed).Some?
    ensures Abs(Prorated(rate, elapsed).value) * SECS_PER_HOUR <= MAX_RATE * elapsed
  {
    ClampedProduct(rate, MAX_RATE, elapsed);
    TruncDivRemainder(rate * elapsed, SECS_PER_HOUR);
  }

  lemma {:induction false} DriftSound(v: VelocityState, delta: i128, elapsed: u64)
    requires Abs(v.velocity) <= MAX_VELOCITY && Abs(v.rate) <= MAX_RATE
    ensures var next := Drift(v, delta, elapsed);
            && (next.Some? <==> InI128(v.velocity + delta))
            && (next.Some? ==> Abs(next.value.velocity) <= MAX_VELOCITY && Abs(next.value.rate) <= MAX_RATE)
  {
    var velocity := Clamp(v.velocity + delta, MAX_VELOCITY);
    ClampedProduct(velocity, MAX_VELOCITY, elapsed);
  }

  lemma {:induction false} AccrueSound(s: IndexState, v: VelocityState, rate: i128, now: u64)
    requires SoundMarket(s, v) && now > s.lastUpdate && Abs(rate) <= MAX_RATE
    ensures Accrue(s, rate, now).Some?
    ensures var t := Accrue(s, rate, now).value;
            && t.long + t.short == 0 && t.lastRate == rate && Moved(s, t)
            && Abs(t.long) * SECS_PER_HOUR <= MAX_RATE * t.lastUpdate
  {
    var elapsed: u64 := now - s.lastUpdate;
    StepBounded(rate, elapsed);
    assert MAX_RATE * s.lastUpdate + MAX_RATE * elapsed == MAX_RATE * now;
  }

  lemma {:induction false} TickSound(s: IndexState, v: VelocityState, now: u64, mark: i128, index: i128, factor: i128)
    requires SoundMarket(s, v) && now > s.lastUpdate
    ensures var next := Tick(s, v, now, mark, index, factor);
            var delta := WeightedPremium(mark, index, factor);
            && (next.Some? <==> delta.Some? && InI128(v.velocity + delta.value))
            && (next.Some? ==> SoundMarket(next.value.0, next.value.1) && Moved(s, next.value.0))
  {
    var delta := WeightedPremium(mark, index, factor);
    if delta.Some? {
      DriftSound(v, delta.value, now - s.lastUpdate);
      var drift := Drift(v, delta.value, now - s.lastUpdate);
      if drift.Some? {
        AccrueSound(s, v, drift.value.rate, now);
      }
    }
  }

  /** From s to t the index moved by at most the top hourly rate over the time between their updates. */
  ghost predicate Moved(s: IndexState, t: IndexState) {
    && s.lastUpdate <= t.lastUpdate
    && Abs(t.long - s.long) * SECS_PER_HOUR <= MAX_RATE * (t.lastUpdate - s.lastUpdate)
  }

  /** The books stay sound, and every index moves within the bound. */
  lemma {:induction false} UpdateKeepsSound(b: FundingBook, o: FundingOp)
    requires Sound(b)
    ensures var a := After(b, UpdateFunding(b, o.market, o.now, o.mark, o.index, o.factor));
            Sound(a) && forall m :: m in b.indices ==> m in a.indices && Moved(b.indices[m], a.indices[m])
  {
    var s, v := IndexOf(b, o.market, o.now), VelocityOf(b, o.market);
    if o.now > s.lastUpdate {
      TickSound(s, v, o.now, o.mark, o.index, o.factor);
    }
  }

  /** An update of a sound book can fail in one way only: the premium, or the velocity it moves, overflows. No
      elapsed time and no history of updates makes the integrator itself overflow. */
  lemma {:induction false} UpdateFailsOnlyOnPremium(b: FundingBook, o: FundingOp)
    requires Sound(b)
    ensures var delta := WeightedPremium(o.mark, o.index, o.factor);
            UpdateFunding(b, o.market, o.now, o.mark, o.index, o.factor).Ok? <==>
              || o.now <= IndexOf(b, o.market, o.now).lastUpdate
              || (delta.Some? && InI128(VelocityOf(b, o.market).velocity + delta.value))
  {
    var s, v := IndexOf(b, o.market, o.now), VelocityOf(b, o.market);
    if o.now > s.lastUpdate {
      TickSound(s, v, o.now, o.mark, o.index, o.factor);
    }
  }

  lemma {:induction false} MovedTransitive(r: IndexState, s: IndexState, t: IndexState)
    requires Moved(r, s) && Moved(s, t)
    ensures Moved(r, t)
  {
    assert MAX_RATE * (s.lastUpdate - r.lastUpdate) + MAX_RATE * (t.lastUpdate - s.lastUpdate)
        == MAX_RATE * (t.lastUpdate - r.lastUpdate);
  }

  /** Over every run of updates the two indices of a market sum to zero, velocity and rate stay in their clamps,
      and an index moves by at most the top hourly rate times the elapsed time. */
  lemma {:induction false} RunKeepsSound(b: FundingBook, ops: seq<FundingOp>)
    requires Sound(b)
    ensures Sound(Run(b, ops))
    ensures forall m :: m in b.indices ==> m in Run(b, ops).indices && Moved(b.indices[m], Run(b, ops).indices[m])
    decreases |ops|
  {
    if ops == [] {
    } else {
      var o := ops[0];
      var next := After(b, UpdateFunding(b, o.market, o.now, o.mark, o.index, o.factor));
      UpdateKeepsSound(b, o);
      RunKeepsSound(next, ops[1..]);
      forall m | m in b.indices
        ensures m in Run(b, ops).indices && Moved(b.indices[m], Run(b, ops).indices[m])
      {
        MovedTransitive(b.indices[m], next.indices[m], Run(b, ops).indices[m]);
      }
    }
  }

  // ----- payments -----

  lemma {:induction false} TruncDivOdd(a: int, b: int)
    requires b > 0
    ensures TruncDiv(-a, b) == -TruncDiv(a, b)
  {
    if a == 0 {
      DivUnique(0, b, 0);
    }
  }

  /** A long and a short of one size, opened together and settled together after any run of updates, pay exactly
      opposite amounts; the second payment exists because the first and its opposite do. */
  lemma {:induction false} MirrorsPayOppositeAmounts(b: FundingBook, ops: seq<FundingOp>, market: u32, size: i128)
    requires Sound(b) && market in b.indices
    ensures var before := b.indices[market];
            market in Run(b, ops).indices &&
            var after := Run(b, ops).indices[market];
            var longPays := FundingPnl(before.long, after.long, size);
            var shortPays := FundingPnl(before.short, after.short, size);
            longPays.Some? && shortPays.Some? ==> longPays.value + shortPays.value == 0
  {
    RunKeepsSound(b, ops);
    var before, after := b.indices[market], Run(b, ops).indices[market];
    var d := after.long - before.long;
    assert after.short - before.short == -d;
    assert (-d) * size == -(d * size);
    TruncDivOdd(d * size, PRECISION);
  }

  /** The payments of a position that is settled at each index in turn. */
  ghost function Checkpointed(start: int, indices: seq<int>, size: int): int
    decreases |indices|
  {
    if indices == [] then 0
    else -TruncDiv((indices[0] - start) * size, PRECISION) + Checkpointed(indices[0], indices[1..], size)
  }

  /** What truncation keeps back over the settlements, in units of 10^-18 of a unit. */
  lemma {:induction false} CheckpointResidue(start: int, indices: seq<int>, last: int, size: int)
    requires last == if indices == [] then start else indices[|indices| - 1]
    ensures Abs(Checkpointed(start, indices, size) * PRECISION + (last - start) * size) <= |indices| * (PRECISION - 1)
    decreases |indices|
  {
    if indices == [] {
    } else {
      var next := indices[0];
      CheckpointResidue(next, indices[1..], last, size);
      TruncDivRemainder((next - start) * size, PRECISION);
      assert (last - start) * size == (next - start) * size + (last - next) * size;
    }
  }

  /** n checkpointed settlements differ from one settlement over the whole span by at most n units. */
  lemma {:induction false} CheckpointsCostAtMostOneUnitEach(start: int, indices: seq<int>, size: int)
    requires indices != []
    ensures Abs(Checkpointed(start, indices, size) - Checkpointed(start, [indices[|indices| - 1]], size)) <= |indices|
  {
    var last := indices[|indices| - 1];
    CheckpointResidue(start, indices, last, size);
    CheckpointResidue(start, [last], last, size);
    CloseMultiples(Checkpointed(start, indices, size), Checkpointed(start, [last], size), (last - start) * size,
        |indices|);
  }

  lemma {:induction false} CloseMultiples(a: int, b: int, x: int, n: nat)
    requires Abs(a * PRECISION + x) <= n * (PRECISION - 1) && Abs(b * PRECISION + x) <= PRECISION - 1
    ensures Abs(a - b) <= n
  {
  }

  /** Each payment the code makes is the corresponding term. */
  lemma {:induction false} PaymentIsTerm(start: i128, next: i128, size: i128)
    ensures FundingPnl(start, next, size).Some? ==>
              FundingPnl(start, next, size).value == Checkpointed(start, [next], size)
  {
  }

  // ----- which side pays -----

  /** The update of one market in plain arithmetic: premium over the index price, weighted; velocity and rate clamped at
      a tenth of a percent; the index moves by the rate over the elapsed part of an hour. */
  lemma {:induction false} UpdateOutcome(
    b: FundingBook, market: u32, now: u64, mark: i128, index: i128, factor: i128, b': FundingBook)
    requires UpdateFunding(b, market, now, mark, index, factor) == Ok(b') && now > IndexOf(b, market, now).lastUpdate
    ensures market in b'.indices && market in b'.velocities && index != 0
    ensures var s, v, elapsed :=
        IndexOf(b, market, now), VelocityOf(b, market), now - IndexOf(b, market, now).lastUpdate;
            var pull := TruncDiv(
              TruncDiv((mark - index) * 1_000_000_000_000_000_000, index) * factor, 1_000_000_000_000_000_000);
            var velocity := Max(-1_000_000_000_000_000, Min(1_000_000_000_000_000, v.velocity + pull));
            var rate := Max(-1_000_000_000_000_000, Min(1_000_000_000_000_000, v.rate + velocity * elapsed));
            var step := TruncDiv(rate * elapsed, 3_600);
            && b'.velocities[market] == VelocityState(velocity, rate)
            && b'.indices[market] == IndexState(s.long + step, s.short - step, now, rate)
  {
  }

  function LongIndex(b: FundingBook, market: u32): int { if market in b.indices then b.indices[market].long else 0 }

  /** Every update of the market finds its mark price on one side of a positive index price. */
  predicate OneSided(ops: seq<FundingOp>, market: u32, above: bool) {
    forall i :: 0 <= i < |ops| && ops[i].market == market ==>
      ops[i].index > 0 && ops[i].factor >= 0
          && if above then ops[i].mark >= ops[i].index else ops[i].mark <= ops[i].index
  }

  /** Velocity and rate of the market do not point the other way. */
  predicate Leaning(v: VelocityState, above: bool) {
    if above then v.velocity >= 0 && v.rate >= 0 else v.velocity <= 0 && v.rate <= 0
  }

  lemma {:induction false} PremiumLeans(mark: i128, index: i128, factor: i128)
    requires index > 0 && factor >= 0 && WeightedPremium(mark, index, factor).Some?
    ensures mark >= index ==> WeightedPremium(mark, index, factor).value >= 0
    ensures mark <= index ==> WeightedPremium(mark, index, factor).value <= 0
  {
    var gap: i128 := mark - index;
    var premium := DivPrecision(gap, index).value;
    TruncDivRemainder(gap * PRECISION, index);
    QuotientBelow(Abs(gap * PRECISION), index, 0);
    SignOfProduct(premium, factor);
    TruncDivRemainder(premium * factor, PRECISION);
    QuotientBelow(Abs(premium * factor), PRECISION, 0);
  }

  lemma {:induction false} SignOfProduct(a: int, b: nat)
    ensures a >= 0 ==> a * b >= 0
    ensures a <= 0 ==> a * b <= 0
  {
    MulMonotone(0, 0, Abs(a), b);
  }

  lemma {:induction false} TickLeans(
    s: IndexState, v: VelocityState, now: u64, mark: i128, index: i128, factor: i128, above: bool, next: IndexState,
    drift: VelocityState)
    requires now > s.lastUpdate && Tick(s, v, now, mark, index, factor) == Some((next, drift))
    requires index > 0 && factor >= 0 && (if above then mark >= index else mark <= index) && Leaning(v, above)
    ensures Leaning(drift, above) && if above then next.long >= s.long else next.long <= s.long
  {
    PremiumLeans(mark, index, factor);
    var elapsed := now - s.lastUpdate;
    SignOfProduct(drift.velocity, elapsed);
    SignOfProduct(drift.rate, elapsed);
    TruncDivRemainder(drift.rate * elapsed, SECS_PER_HOUR);
    QuotientBelow(Abs(drift.rate * elapsed), SECS_PER_HOUR, 0);
  }

  lemma {:induction false} UpdateLeans(b: FundingBook, o: FundingOp, market: u32, above: bool, b': FundingBook)
    requires b' == After(b, UpdateFunding(b, o.market, o.now, o.mark, o.index, o.factor))
    requires o.market == market ==>
               o.index > 0 && o.factor >= 0 && if above then o.mark >= o.index else o.mark <= o.index
    requires Leaning(VelocityOf(b, market), above)
    ensures Leaning(VelocityOf(b', market), above)
    ensures if above then LongIndex(b', market) >= LongIndex(b, market)
        else LongIndex(b', market) <= LongIndex(b, market)
  {
    var s, v := IndexOf(b, market, o.now), VelocityOf(b, market);
    if o.market == market && o.now > s.lastUpdate {
      var next := Tick(s, v, o.now, o.mark, o.index, o.factor);
      if next.Some? {
        TickLeans(s, v, o.now, o.mark, o.index, o.factor, above, next.value.0, next.value.1);
      }
    }
  }

  /** From a market at rest, as long as every update finds the mark at or above the index price the long index never
      falls, so longs never receive funding; at or below it never rises, so longs never pay. */
  lemma {:induction false} PremiumDecidesWhoPays(b: FundingBook, ops: seq<FundingOp>, market: u32, above: bool)
    requires OneSided(ops, market, above) && Leaning(VelocityOf(b, market), above)
    ensures if above then LongIndex(Run(b, ops), market) >= LongIndex(b, market)
            else LongIndex(Run(b, ops), market) <= LongIndex(b, market)
    decreases |ops|
  {
    if ops != [] {
      var o := ops[0];
      var next := After(b, UpdateFunding(b, o.market, o.now, o.mark, o.index, o.factor));
      UpdateLeans(b, o, market, above, next);
      assert forall i :: 0 <= i < |ops[1..]| ==> ops[1..][i] == ops[i + 1];
      PremiumDecidesWhoPays(next, ops[1..], market, above);
    }
  }
}
