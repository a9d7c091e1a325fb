// Anti-spam pacing of a campaign run: the arithmetic of the delays and what it
// guarantees about how close together main sends can be. Times are in
// milliseconds. Random draws are reals in [0, 1); engine latency, follow-up
// links and late timers only ever add time.

module Pacing {
  import opened Common

  const MIN_DELAY_MS := 1500
  const REST_EVERY := 20
  const REST_MIN_MS := 8000
  const REST_MAX_MS := 15000
  const JITTER_FACTOR := 0.4
  const DEFAULT_RATE := 30

  function RandInt(u: real, min: int, max: int): int {
    (u * (max - min + 1) as real).Floor + min
  }

  // `rateLimitPerMin || 30`: zero counts as absent.
  function BaseDelay(rate: int): int {
    (60000.0 / (if rate == 0 then DEFAULT_RATE else rate) as real).Floor
  }

  function Jitter(base: int): int {
    (base as real * JITTER_FACTOR).Floor
  }

  function JitteredDelay(base: int, u: real): int {
    var raw := base + RandInt(u, -Jitter(base), Jitter(base));
    if raw < MIN_DELAY_MS then MIN_DELAY_MS else raw
  }

  // What happens between the start of one main send and the start of the next:
  // work (engine call, row updates, follow-up links), the draws, and timer lateness.
  datatype Iteration = Iteration(work: nat, rest: real, jitter: real, late: nat)

  ghost predicate Valid(draws: nat -> Iteration) {
    forall k :: 0.0 <= draws(k).rest < 1.0 && 0.0 <= draws(k).jitter < 1.0
  }

  /** The rest pause after attempt number `sent`, if one is due. */
  function Rest(sent: nat, u: real): int {
    if sent % REST_EVERY == 0 then RandInt(u, REST_MIN_MS, REST_MAX_MS) else 0
  }

  function Gap(rate: int, k: nat, d: Iteration): int {
    d.work + Rest(k + 1, d.rest) + JitteredDelay(BaseDelay(rate), d.jitter) + d.late
  }

  /** When main send k of a run starts, counting from send 0. */
  function StartOf(rate: int, draws: nat -> Iteration, k: nat): int {
    if k == 0 then 0 else StartOf(rate, draws, k - 1) + Gap(rate, k - 1, draws(k - 1))
  }

  /** One iteration: the work, the counter, the rest pause when due, the jittered delay. */
  method Iterate(now: int, sent: nat, rate: int, d: Iteration) returns (now': int, sent': nat)
    ensures now' == now + Gap(rate, sent, d) && sent' == sent + 1
  {
    now' := now + d.work;
    sent' := sent + 1;
    if sent' % REST_EVERY == 0 {
      now' := now' + RandInt(d.rest, REST_MIN_MS, REST_MAX_MS);
    }
    now' := now' + JitteredDelay(BaseDelay(rate), d.jitter) + d.late;
  }

  lemma StartStep(rate: int, draws: nat -> Iteration, k: nat)
    ensures StartOf(rate, draws, k + 1) == StartOf(rate, draws, k) + Gap(rate, k, draws(k))
  {
  }

  function Starts(rate: int, draws: nat -> Iteration, n: nat): (r: seq<int>)
    ensures |r| == n
  {
    if n == 0 then [] else Starts(rate, draws, n - 1) + [StartOf(rate, draws, n - 1)]
  }

  /** The send loop's clock: the counter grows on every attempt and every twentieth attempt rests. */
  method SendLoop(rate: int, draws: nat -> Iteration, n: nat) returns (starts: seq<int>)
    ensures starts == Starts(rate, draws, n)
  {
    var now, messagesSentThisBatch: nat := 0, 0;
    starts := [];
    while messagesSentThisBatch < n
      invariant messagesSentThisBatch <= n
      invariant now == StartOf(rate, draws, messagesSentThisBatch)
      invariant starts == Starts(rate, draws, messagesSentThisBatch)
    {
      StartStep(rate, draws, messagesSentThisBatch);
      starts := starts + [now];
      now, messagesSentThisBatch := Iterate(now, messagesSentThisBatch, rate, draws(messagesSentThisBatch));
    }
  }

  // ── Draws ────────────────────────────────────────────────────────────────

  lemma RandIntRange(u: real, min: int, max: int)
    requires 0.0 <= u < 1.0 && min <= max
    ensures min <= RandInt(u, min, max) <= max
  {
    var width := (max - min + 1) as real;
    assert 0.0 <= u * width < width;
  }

  // Every integer of the range can be drawn.
  lemma RandIntReaches(min: int, max: int, v: int)
    requires min <= v <= max
    ensures exists u: real :: 0.0 <= u < 1.0 && RandInt(u, min, max) == v
  {
    var width := (max - min + 1) as real;
    var u := (v - min) as real / width;
    assert u * width == (v - min) as real;
    assert 0.0 <= u < 1.0;
    assert RandInt(u, min, max) == v;
  }

  lemma DelayRange(base: int, u: real)
    requires 0.0 <= u < 1.0
    ensures MIN_DELAY_MS <= JitteredDelay(base, u)
    ensures 0 <= base ==> base - Jitter(base) <= JitteredDelay(base, u)
    ensures 0 <= base ==>
              var top := base + Jitter(base);
              JitteredDelay(base, u) <= if top < MIN_DELAY_MS then MIN_DELAY_MS else top
  {
    if 0 <= base { RandIntRange(u, -Jitter(base), Jitter(base)); }
  }

  // At the default 30 messages a minute the delay is 1500 to 2800 ms, and both ends occur;
  // the 1200 ms named in the source's comment is cut off by the floor.
  lemma DefaultDelayRange(u: real)
    requires 0.0 <= u < 1.0
    ensures 1500 <= JitteredDelay(BaseDelay(30), u) <= 2800 && BaseDelay(0) == BaseDelay(30)
    ensures JitteredDelay(BaseDelay(30), 0.0) == 1500
    ensures exists v: real :: 0.0 <= v < 1.0 && JitteredDelay(BaseDelay(30), v) == 2800
  {
    assert BaseDelay(30) == 2000 && Jitter(2000) == 800;
    DelayRange(2000, u);
    RandIntReaches(-800, 800, 800);
    var v: real :| 0.0 <= v < 1.0 && RandInt(v, -800, 800) == 800;
    assert JitteredDelay(BaseDelay(30), v) == 2800;
  }

  // ── Spacing ──────────────────────────────────────────────────────────────

  lemma GapAtLeast(rate: int, k: nat, d: Iteration)
    requires 0.0 <= d.rest < 1.0 && 0.0 <= d.jitter < 1.0
    ensures Gap(rate, k, d) >= MIN_DELAY_MS + (if (k + 1) % REST_EVERY == 0 then REST_MIN_MS else 0)
  {
    DelayRange(BaseDelay(rate), d.jitter);
    RandIntRange(d.rest, REST_MIN_MS, REST_MAX_MS);
  }

  lemma RestsStep(m: nat)
    ensures (m + 1) / REST_EVERY == m / REST_EVERY + (if (m + 1) % REST_EVERY == 0 then 1 else 0)
  {
  }

  // Main sends k and m start at least 1500 ms per message apart, plus 8000 ms for every rest between them,
  // whatever the configured rate and whatever is drawn.
  lemma {:induction false} SendsSpaced(rate: int, draws: nat -> Iteration, k: nat, m: nat)
    requires Valid(draws) && k <= m
    ensures StartOf(rate, draws, m) - StartOf(rate, draws, k) >= (m - k) * 1500 + (m / 20 - k / 20) * 8000
    decreases m - k
  {
    if k < m {
      SendsSpaced(rate, draws, k, m - 1);
      GapAtLeast(rate, m - 1, draws(m - 1));
      RestsStep(m - 1);
    }
  }

  // A rest follows every twentieth attempt and no other, and lasts 8 to 15 seconds; both can be drawn.
  lemma RestPause(sent: nat, u: real)
    requires 0.0 <= u < 1.0
    ensures if sent % 20 == 0 then 8000 <= Rest(sent, u) <= 15000 else Rest(sent, u) == 0
    ensures sent % 20 == 0 ==> Rest(sent, 0.0) == 8000 && exists v: real :: 0.0 <= v < 1.0 && Rest(sent, v) == 15000
  {
    RandIntRange(u, REST_MIN_MS, REST_MAX_MS);
    RandIntReaches(REST_MIN_MS, REST_MAX_MS, 15000);
    var v: real :| 0.0 <= v < 1.0 && RandInt(v, REST_MIN_MS, REST_MAX_MS) == 15000;
    assert sent % 20 == 0 ==> Rest(sent, v) == 15000;
  }

  lemma JitterAtMost(base: int, exact: real)
    requires 0 <= base && base as real <= exact
    ensures (base + Jitter(base)) as real <= exact * 1.4
  {
    assert Jitter(base) as real <= base as real * 0.4;
    assert base as real * 1.4 <= exact * 1.4;
  }

  // The delay is at most four tenths over the even spacing, unless the floor is higher.
  lemma DelayAtMost(rate: int, u: real)
    requires 1 <= rate && 0.0 <= u < 1.0
    ensures var delay := JitteredDelay(BaseDelay(rate), u);
            delay == 1500 || delay as real <= 60000.0 / rate as real * 1.4
  {
    var base := BaseDelay(rate);
    assert 60000.0 / rate as real >= 0.0;
    DelayRange(base, u);
    JitterAtMost(base, 60000.0 / rate as real);
  }

  // The draws of a run that loses no time: no engine latency, no late timer.
  ghost predicate Prompt(draws: nat -> Iteration) {
    forall k :: draws(k).work == 0 && draws(k).late == 0
  }

  function WithoutDelay(d: Iteration): Iteration {
    d.(work := 0, late := 0)
  }

  // What the first n iterations lose to work and late timers.
  ghost function Lost(draws: nat -> Iteration, n: nat): nat {
    if n == 0 then 0 else Lost(draws, n - 1) + draws(n - 1).work + draws(n - 1).late
  }

  // Engine latency, follow-up links and late timers are added in full: a run starts its sends as much
  // later than the same draws without them as it has lost before.
  lemma {:induction false} LatencyAdds(rate: int, draws: nat -> Iteration, n: nat)
    ensures StartOf(rate, draws, n) == StartOf(rate, (k: nat) => WithoutDelay(draws(k)), n) + Lost(draws, n)
  {
    if n > 0 { LatencyAdds(rate, draws, n - 1); }
  }

  // Such a run takes at most `delay` per message and 15 seconds per rest, where no delay is longer.
  lemma {:induction false} SendsNoSlower(rate: int, draws: nat -> Iteration, k: nat, m: nat, delay: nat)
    requires Valid(draws) && Prompt(draws) && k <= m
    requires forall u: real :: 0.0 <= u < 1.0 ==> JitteredDelay(BaseDelay(rate), u) <= delay
    ensures StartOf(rate, draws, m) - StartOf(rate, draws, k) <= (m - k) * delay + (m / 20 - k / 20) * 15000
    decreases m - k
  {
    if k < m {
      SendsNoSlower(rate, draws, k, m - 1, delay);
      RestPause(m, draws(m - 1).rest);
      RestsStep(m - 1);
      assert (m - k) * delay == (m - 1 - k) * delay + delay;
    }
  }

  // At the default rate twenty messages and the rest after them take between 38 and 71 seconds.
  lemma DefaultBatch(draws: nat -> Iteration)
    requires Valid(draws) && Prompt(draws)
    ensures 38000 <= StartOf(30, draws, 20) <= 71000
  {
    forall u: real | 0.0 <= u < 1.0 ensures JitteredDelay(BaseDelay(30), u) <= 2800 { DefaultDelayRange(u); }
    SendsSpaced(30, draws, 0, 20);
    SendsNoSlower(30, draws, 0, 20, 2800);
  }

  // ── Sends in a window ────────────────────────────────────────────────────

  /** The main sends among the first n that start from `from` to `from + length`, ends included. */
  ghost function SendsIn(rate: int, draws: nat -> Iteration, n: nat, from: int, length: int): set<nat> {
    set k: nat | k < n && from <= StartOf(rate, draws, k) <= from + length
  }

  ghost predicate Fits(rate: int, draws: nat -> Iteration, n: nat, from: int, length: int, m: nat) {
    |SendsIn(rate, draws, n, from, length)| <= m
  }

  // Sends k and k + m start more than `length` apart.
  ghost predicate Far(rate: int, draws: nat -> Iteration, k: nat, m: nat, length: int) {
    StartOf(rate, draws, k + m) - StartOf(rate, draws, k) > length
  }

  function Range(lo: nat, m: nat): (r: set<nat>)
    ensures |r| == m && forall i: nat :: i in r <==> lo <= i < lo + m
  {
    if m == 0 then {} else Range(lo, m - 1) + {lo + m - 1}
  }

  lemma FirstIn(w: set<nat>, n: nat) returns (first: nat)
    requires w != {} && forall i :: i in w ==> i < n
    ensures first in w && forall i :: i in w ==> first <= i
  {
    first := 0;
    while first !in w
      invariant forall i :: i in w ==> first <= i
      decreases n - first
    {
      var i :| i in w;
      first := first + 1;
    }
  }

  lemma FarApart(rate: int, draws: nat -> Iteration, first: nat, k: nat, m: nat, length: int)
    requires Valid(draws) && Far(rate, draws, first, m, length) && first + m <= k
    ensures StartOf(rate, draws, k) - StartOf(rate, draws, first) > length
  {
    SendsSpaced(rate, draws, first + m, k);
  }

  // If every m + 1 consecutive sends take longer than the window, the window holds at most m.
  lemma WindowHolds(rate: int, draws: nat -> Iteration, n: nat, from: int, length: int, m: nat)
    requires Valid(draws) && forall k: nat :: Far(rate, draws, k, m, length)
    ensures Fits(rate, draws, n, from, length, m)
  {
    var w := SendsIn(rate, draws, n, from, length);
    if w != {} {
      var first := FirstIn(w, n);
      assert Far(rate, draws, first, m, length);
      forall k | k in w ensures k in Range(first, m) {
        if first + m <= k { FarApart(rate, draws, first, k, m, length); }
      }
      SubsetSize(w, Range(first, m));
    }
  }

  lemma ThirtyFiveFar(rate: int, draws: nat -> Iteration, k: nat)
    requires Valid(draws)
    ensures Far(rate, draws, k, 35, 60000)
  {
    SendsSpaced(rate, draws, k, k + 35);
    assert (k + 35) / REST_EVERY >= k / REST_EVERY + 1;
  }

  // No 60-second window of a run, ends included, contains more than 35 main sends.
  lemma AtMost35PerMinute(rate: int, draws: nat -> Iteration, n: nat, from: int)
    requires Valid(draws)
    ensures Fits(rate, draws, n, from, 60000, 35)
  {
    forall k: nat ensures Far(rate, draws, k, 35, 60000) { ThirtyFiveFar(rate, draws, k); }
    WindowHolds(rate, draws, n, from, 60000, 35);
  }

  // ── Is the configured rate a cap? ────────────────────────────────────────

  // The fastest run: no latency, every draw at its lower end.
  const FASTEST := (k: nat) => Iteration(0, 0.0, 0.0, 0)

  function FastestDelay(rate: int): int {
    JitteredDelay(BaseDelay(rate), 0.0)
  }

  lemma {:induction false} FastestStart(rate: int, k: nat)
    ensures StartOf(rate, FASTEST, k) == k * FastestDelay(rate) + k / REST_EVERY * REST_MIN_MS
  {
    if k > 0 {
      FastestStart(rate, k - 1);
      RestsStep(k - 1);
    }
  }

  // The configured rate bounds the main sends of every 60-second window, end excluded.
  ghost predicate RateIsCap(rate: nat) {
    forall draws: nat -> Iteration, n: nat, from: int ::
      Valid(draws) ==> Fits(rate, draws, n, from, 59999, rate)
  }

  // Six tenths of the even spacing, rounded up, unless the floor is higher.
  lemma FastestDelayIs(rate: int)
    requires 1 <= rate
    ensures FastestDelay(rate) == MIN_DELAY_MS || FastestDelay(rate) as real < 60000.0 / rate as real * 0.6 + 1.0
  {
    var base := BaseDelay(rate);
    assert RandInt(0.0, -Jitter(base), Jitter(base)) == -Jitter(base);
    assert Jitter(base) as real > base as real * 0.4 - 1.0;
    assert base as real <= 60000.0 / rate as real;
  }

  lemma {:induction false} RealTimes(a: nat, b: int)
    ensures (a * b) as real == a as real * b as real
  {
    if a > 0 {
      RealTimes(a - 1, b);
      assert a * b == (a - 1) * b + b;
      assert (a - 1) as real * b as real + b as real == a as real * b as real;
    }
  }

  lemma RealOrder(r: real, d: real, bound: real)
    requires r > 0.0 && d < bound
    ensures r * d < r * bound
  {
  }

  lemma ScaledBelow(r: real, d: real, exact: real)
    requires r > 0.0 && exact * r == 60000.0 && d < exact * 0.6 + 1.0
    ensures r * d < 36000.0 + r
  {
    var bound, p := exact * 0.6 + 1.0, exact * r;
    assert p * 0.6 == 36000.0;
    assert r * bound == p * 0.6 + r;
    RealOrder(r, d, bound);
  }

  lemma ProductBelow(rate: nat, d: int)
    requires 1 <= rate && d as real < 60000.0 / rate as real * 0.6 + 1.0
    ensures rate * d < 36000 + rate
  {
    ScaledBelow(rate as real, d as real, 60000.0 / rate as real);
    RealTimes(rate, d);
  }

  lemma FastestDelayAtMost(rate: int)
    requires 1 <= rate < 35
    ensures rate < 20 ==> rate * FastestDelay(rate) < 60000
    ensures 20 <= rate ==> rate * FastestDelay(rate) + REST_MIN_MS < 60000
  {
    FastestDelayIs(rate);
    var d := FastestDelay(rate);
    if d != MIN_DELAY_MS { ProductBelow(rate, d); }
  }

  lemma MinuteArithmetic(rate: nat, k: nat, d: nat)
    requires 1 <= rate < 35 && k <= rate
    requires rate * d + rate / REST_EVERY * REST_MIN_MS < 60000
    ensures 0 <= k * d + k / REST_EVERY * REST_MIN_MS <= 59999
  {
    var more: nat := rate - k;
    assert more * d >= 0 && k * d >= 0;
    assert rate * d == k * d + more * d;
    assert k / REST_EVERY <= rate / REST_EVERY;
  }

  lemma FastestInMinute(rate: nat, k: nat)
    requires 1 <= rate < 35 && k <= rate
    ensures 0 <= StartOf(rate, FASTEST, k) <= 59999
  {
    FastestDelayAtMost(rate);
    FastestStart(rate, k);
    DelayRange(BaseDelay(rate), 0.0);
    var d: nat := FastestDelay(rate);
    assert rate / REST_EVERY == if rate < 20 then 0 else 1;
    MinuteArithmetic(rate, k, d);
  }

  lemma FastestRunFits(rate: nat)
    requires 1 <= rate < 35
    ensures Range(0, rate + 1) <= SendsIn(rate, FASTEST, rate + 1, 0, 59999)
  {
    forall k: nat | k <= rate ensures 0 <= StartOf(rate, FASTEST, k) <= 59999 {
      FastestInMinute(rate, k);
    }
  }

  lemma BelowThirtyFiveExceeded(rate: nat)
    requires 1 <= rate < 35
    ensures !RateIsCap(rate)
  {
    FastestRunFits(rate);
    SubsetSize(Range(0, rate + 1), SendsIn(rate, FASTEST, rate + 1, 0, 59999));
    assert Valid(FASTEST) && !Fits(rate, FASTEST, rate + 1, 0, 59999, rate);
  }

  // rateLimitPerMin caps the main sends of every minute exactly when it is at least 35:
  // below that the jitter can outrun it, from there on the floor and the rests do the capping.
  lemma RateIsCapFrom35(rate: nat)
    requires 1 <= rate
    ensures RateIsCap(rate) <==> rate >= 35
  {
    if rate < 35 {
      BelowThirtyFiveExceeded(rate);
    } else {
      forall draws: nat -> Iteration, n: nat, from: int | Valid(draws)
        ensures Fits(rate, draws, n, from, 59999, rate)
      {
        AtMost35PerMinute(rate, draws, n, from);
        SubsetSize(SendsIn(rate, draws, n, from, 59999), SendsIn(rate, draws, n, from, 60000));
      }
    }
  }

  // The bound of 35 is reached: at the highest configurable rate the fastest run starts 35 sends in 59 seconds.
  lemma ThirtyFiveReached()
    ensures Valid(FASTEST) && |SendsIn(60, FASTEST, 35, 0, 60000)| == 35
  {
    assert BaseDelay(60) == 1000 && Jitter(1000) == 400 && FastestDelay(60) == 1500;
    forall k: nat | k < 35 ensures 0 <= StartOf(60, FASTEST, k) <= 60000 {
      FastestStart(60, k);
    }
    assert SendsIn(60, FASTEST, 35, 0, 60000) == Range(0, 35);
  }
}
