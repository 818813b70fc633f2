/** Exponential backoff and the retries of a job, in nanoseconds. */
module Retrying {
  import opened RealArithmetic

  const DEFAULT_MIN := 100_000_000
  const DEFAULT_MAX := 10_000_000_000
  const DEFAULT_FACTOR := 2.0
  const MAX_DURATION := 9223372036854774784.0  // the float64 nearest to the largest int64 less 512

  datatype Params = Params(factor: real, jitter: bool, min: int, max: int)

  function MinOf(p: Params): (lo: int)
    ensures lo > 0
  { if p.min <= 0 then DEFAULT_MIN else p.min }

  function MaxOf(p: Params): (hi: int)
    ensures hi > 0
  { if p.max <= 0 then DEFAULT_MAX else p.max }

  function FactorOf(p: Params): (f: real)
    ensures f > 0.0
  { if p.factor <= 0.0 then DEFAULT_FACTOR else p.factor }

  function Pow(f: real, n: nat): real {
    if n == 0 then 1.0 else f * Pow(f, n - 1)
  }

  /** Without jitter the duration grows by the factor; with jitter it is drawn between the minimum and that. */
  function Raw(p: Params, attempt: nat, random: real): real {
    if p.jitter then Jittered(MinOf(p) as real, Grown(p, attempt), random) else Grown(p, attempt)
  }

  function Jittered(lo: real, grown: real, random: real): real { random * (grown - lo) + lo }

  function Grown(p: Params, attempt: nat): real { Pow(FactorOf(p), attempt) * MinOf(p) as real }

  /** Truncates to whole nanoseconds and keeps within the bounds. */
  function Bounded(raw: real, lo: int, hi: int): int {
    if raw > MAX_DURATION then hi
    else if raw.Floor < lo then lo
    else if raw.Floor > hi then hi
    else raw.Floor
  }

  function ForAttempt(p: Params, attempt: nat, random: real): int {
    if MinOf(p) >= MaxOf(p) then MaxOf(p) else Bounded(Raw(p, attempt, random), MinOf(p), MaxOf(p))
  }

  /** The shortest delay that can occur. */
  function Shortest(p: Params): (d: int)
    ensures d > 0
  { if MinOf(p) >= MaxOf(p) then MaxOf(p) else MinOf(p) }

  /* ---------- bounds ---------- */

  /** Whatever the parameters, the attempt and the random draw, the delay stays within the bounds. */
  lemma DelayWithinBounds(p: Params, attempt: nat, random: real)
    ensures Shortest(p) <= ForAttempt(p, attempt, random) <= MaxOf(p)
  {
  }

  lemma {:induction false} PowGrows(f: real, n: nat, m: nat)
    requires f >= 1.0 && n <= m
    ensures 1.0 <= Pow(f, n) <= Pow(f, m)
    decreases m
  {
    if m == 0 {
    } else if n == m {
      PowGrows(f, m - 1, m - 1);
      MulMono(1.0, f, Pow(f, m - 1));
    } else {
      PowGrows(f, n, m - 1);
      MulMono(1.0, f, Pow(f, m - 1));
    }
  }

  /** Without jitter and with a factor of at least one, later attempts never wait less. */
  lemma DelayIsMonotone(p: Params, n: nat, m: nat, random: real)
    requires !p.jitter && FactorOf(p) >= 1.0 && n <= m
    ensures ForAttempt(p, n, random) <= ForAttempt(p, m, random)
  {
    PowGrows(FactorOf(p), n, m);
    MulMono(Pow(FactorOf(p), n), Pow(FactorOf(p), m), MinOf(p) as real);
    if MinOf(p) < MaxOf(p) {
      BoundedIsMonotone(Raw(p, n, random), Raw(p, m, random), MinOf(p), MaxOf(p));
    }
  }

  /** Delay d is x cut to whole nanoseconds and to the bounds; an x past the range of a duration is the maximum. */
  predicate Clamps(d: int, x: real, lo: int, hi: int) {
    && lo <= d <= hi
    && (x > 9223372036854774784.0 || x >= hi as real ==> d == hi)
    && (x <= 9223372036854774784.0 ==>
          && (x < (lo + 1) as real ==> d == lo)
          && (lo as real <= x < (hi + 1) as real ==> d as real <= x < d as real + 1.0))
  }

  /** The delays form a geometric sequence that starts at the minimum, 100 ms unless it is given, and grows by the
      factor, 2 unless it is given, up to the maximum, 10 s unless it is given.  With jitter each is drawn between
      the minimum and that: by `JitterIsProportional`, the random number's share of the way up. */
  lemma DelaysAreGeometric(p: Params, terms: seq<real>, random: real, n: nat, x: real)
    requires n < |terms| && terms[0] == (if p.min > 0 then p.min as real else 100_000_000.0)
    requires forall i :: 0 <= i < n ==> terms[i + 1] == (if p.factor > 0.0 then p.factor else 2.0) * terms[i]
    requires x == if p.jitter then Jittered(terms[0], terms[n], random) else terms[n]
    ensures var lo := if p.min > 0 then p.min else 100_000_000;
            var hi := if p.max > 0 then p.max else 10_000_000_000;
            var d := ForAttempt(p, n, random);
            && (lo >= hi ==> d == hi)
            && (lo < hi ==> Clamps(d, x, lo, hi))
  {
    hide Pow, Bounded, Clamps, Jittered;
    GrownIsGeometric(p, terms, n);
    hide Grown;
    if MinOf(p) < MaxOf(p) { BoundedClamps(x, MinOf(p), MaxOf(p)); }
  }

  /** A draw divides the way from the minimum to the term in the ratio of the random number. */
  lemma JitterIsProportional(lo: real, grown: real, random: real)
    ensures Jittered(lo, grown, random) - lo == random * (grown - lo)
  {
  }

  lemma BoundedClamps(x: real, lo: int, hi: int)
    requires lo <= hi
    ensures Clamps(Bounded(x, lo, hi), x, lo, hi)
  {
  }

  lemma {:induction false} GrownIsGeometric(p: Params, terms: seq<real>, n: nat)
    requires n < |terms| && terms[0] == MinOf(p) as real
    requires forall i :: 0 <= i < n ==> terms[i + 1] == FactorOf(p) * terms[i]
    ensures Grown(p, n) == terms[n]
  {
    hide MinOf, FactorOf;
    if n == 0 {
    } else {
      GrownIsGeometric(p, terms, n - 1);
      assert terms[n - 1 + 1] == FactorOf(p) * terms[n - 1];
      GrowsOnce(FactorOf(p), Pow(FactorOf(p), n - 1), MinOf(p) as real);
    }
  }

  lemma GrowsOnce(f: real, pow: real, lo: real)
    ensures (f * pow) * lo == f * (pow * lo)
  {
  }

  lemma BoundedIsMonotone(a: real, b: real, lo: int, hi: int)
    requires a <= b && lo <= hi
    ensures Bounded(a, lo, hi) <= Bounded(b, lo, hi)
  {
  }

  lemma {:induction false} PowShrinks(f: real, n: nat)
    requires 0.0 < f <= 1.0
    ensures 0.0 < Pow(f, n) <= 1.0
  {
    if n == 0 {
    } else {
      var p := Pow(f, n - 1);
      PowShrinks(f, n - 1);
      AtMostWhole(f, p);
      MulPositive(f, p);
    }
  }

  /** A factor of at most one, without jitter, never waits longer than the shortest delay, unless the minimum
      itself lies in the last nanoseconds of the range, where it is taken for an overflow. */
  lemma SmallFactorNeverGrows(p: Params, n: nat, random: real)
    requires !p.jitter && FactorOf(p) <= 1.0
    requires MinOf(p) as real <= MAX_DURATION
    ensures ForAttempt(p, n, random) == Shortest(p)
  {
    var lo := MinOf(p) as real;
    PowShrinks(FactorOf(p), n);
    assert Grown(p, n) <= lo by { AtMostWhole(Pow(FactorOf(p), n), lo); }
    if MinOf(p) < MaxOf(p) {
      BoundedBelow(Raw(p, n, random), MinOf(p), MaxOf(p));
    }
  }

  lemma BoundedBelow(raw: real, lo: int, hi: int)
    requires raw <= lo as real <= MAX_DURATION && lo <= hi
    ensures Bounded(raw, lo, hi) == lo
  {
  }

  /** The first delay is the minimum, with or without jitter, exactly when the minimum is not taken for an
      overflow; otherwise it is the maximum. */
  lemma FirstDelay(p: Params, random: real)
    ensures ForAttempt(p, 0, random) ==
            if MinOf(p) < MaxOf(p) && MinOf(p) as real <= MAX_DURATION then MinOf(p) else MaxOf(p)
  {
    hide Jittered;
    NoSpread(MinOf(p) as real, random);
    assert Raw(p, 0, random) == MinOf(p) as real;
  }

  lemma NoSpread(lo: real, random: real)
    ensures Jittered(lo, lo, random) == lo
  {
    assert random * 0.0 == 0.0;
  }

  /** With jitter and a factor of at least one, a draw from [0, 1) never waits longer than without, and the
      lowest draw waits the shortest. */
  lemma JitterShortens(p: Params, n: nat, random: real)
    requires FactorOf(p) >= 1.0 && 0.0 <= random < 1.0
    ensures ForAttempt(p.(jitter := true), n, random) <= ForAttempt(p.(jitter := false), n, random)
    ensures ForAttempt(p.(jitter := true), n, 0.0) == ForAttempt(p, 0, random)
  {
    hide Raw, Pow;
    RawWithJitter(p, n, random);
    FirstDelay(p, random);
    if MinOf(p) < MaxOf(p) {
      BoundedIsMonotone(Raw(p.(jitter := true), n, random), Raw(p.(jitter := false), n, random), MinOf(p), MaxOf(p));
    }
  }

  lemma RawWithJitter(p: Params, n: nat, random: real)
    requires FactorOf(p) >= 1.0 && 0.0 <= random < 1.0
    ensures Raw(p.(jitter := true), n, random) <= Raw(p.(jitter := false), n, random)
    ensures Raw(p.(jitter := true), n, 0.0) == MinOf(p) as real
  {
    hide Grown, Jittered, MinOf, FactorOf;
    GrowthIgnoresJitter(p, n, true);
    GrowthIgnoresJitter(p, n, false);
    JitterBetween(MinOf(p) as real, Grown(p, n), random);
    JitterBetween(MinOf(p) as real, Grown(p, n), 0.0);
  }

  lemma JitterBetween(lo: real, grown: real, random: real)
    requires lo <= grown && 0.0 <= random < 1.0
    ensures lo <= Jittered(lo, grown, random) <= grown
    ensures random == 0.0 || lo == grown ==> Jittered(lo, grown, random) == lo
  {
    MulMono(random, 1.0, grown - lo);
    MulMono(0.0, random, grown - lo);
  }

  lemma GrowthIgnoresJitter(p: Params, n: nat, jitter: bool)
    requires FactorOf(p) >= 1.0
    ensures MinOf(p.(jitter := jitter)) == MinOf(p) && Grown(p.(jitter := jitter), n) == Grown(p, n)
    ensures Grown(p, n) >= MinOf(p) as real
  {
    PowGrows(FactorOf(p), n, n);
    AtLeast(Pow(FactorOf(p), n), MinOf(p) as real);
  }

  lemma AtLeast(x: real, lo: real)
    requires x >= 1.0 && lo >= 0.0
    ensures x * lo >= lo
  {
    MulMono(1.0, x, lo);
  }

  lemma AtMostWhole(part: real, d: real)
    requires 0.0 <= part <= 1.0 && d >= 0.0
    ensures part * d <= d
  {
    MulMono(part, 1.0, d);
  }

  /** Bernoulli's inequality. */
  lemma {:induction false} PowAtLeastLinear(f: real, n: nat)
    requires f >= 1.0
    ensures Pow(f, n) >= 1.0 + n as real * (f - 1.0)
  {
    if n == 0 {
    } else {
      var p := Pow(f, n - 1);
      PowAtLeastLinear(f, n - 1);
      PowGrows(f, n - 1, n - 1);
      MulMono(1.0, p, f - 1.0);
      Distribute(f, p);
      OneMore(n, f - 1.0);
    }
  }

  lemma Distribute(f: real, p: real)
    ensures f * p == p + p * (f - 1.0)
  {
  }

  lemma OneMore(n: nat, d: real)
    requires n > 0
    ensures n as real * d == (n - 1) as real * d + d
  {
  }

  /** Enough attempts to reach the maximum. */
  function AttemptsToMax(p: Params): nat
    requires FactorOf(p) > 1.0
  {
    var need := (MaxOf(p) as real / MinOf(p) as real - 1.0) / (FactorOf(p) - 1.0);
    if need <= 0.0 then 0 else need.Floor + 1
  }

  lemma ReachesMax(p: Params, n: nat, random: real)
    requires !p.jitter && FactorOf(p) > 1.0 && n >= AttemptsToMax(p)
    ensures ForAttempt(p, n, random) == MaxOf(p)
  {
    var lo, hi, f := MinOf(p) as real, MaxOf(p) as real, FactorOf(p);
    CoversNeed((hi / lo - 1.0) / (f - 1.0), n);
    GrowsPast(f, n, hi / lo);
    Scaled(Pow(f, n), lo, hi);
    if MinOf(p) < MaxOf(p) {
      BoundedAbove(Raw(p, n, random), MinOf(p), MaxOf(p));
    }
  }

  lemma CoversNeed(need: real, n: nat)
    requires n >= if need <= 0.0 then 0 else need.Floor + 1
    ensures n as real >= need
  {
  }

  lemma GrowsPast(f: real, n: nat, target: real)
    requires f > 1.0 && n as real >= (target - 1.0) / (f - 1.0)
    ensures Pow(f, n) >= target
  {
    hide *;
    PowAtLeastLinear(f, n);
    DivLess(target - 1.0, f - 1.0, n as real);
  }

  lemma Scaled(x: real, lo: real, hi: real)
    requires lo > 0.0 && x >= hi / lo
    ensures x * lo >= hi
  {
  }

  lemma BoundedAbove(raw: real, lo: int, hi: int)
    requires lo < hi && raw >= hi as real
    ensures Bounded(raw, lo, hi) == hi
  {
  }

  /* ---------- the counter ---------- */

  class Backoff {
    const params: Params
    var attempt: nat

    constructor (params: Params)
      ensures this.params == params && attempt == 0
    {
      this.params, attempt := params, 0;
    }

    method Duration(random: real) returns (d: int)
      modifies this
      ensures d == ForAttempt(params, old(attempt), random) && attempt == old(attempt) + 1
    {
      attempt := attempt + 1;
      d := ForAttempt(params, attempt - 1, random);
    }

    method Reset()
      modifies this
      ensures attempt == 0
    {
      attempt := 0;
    }
  }

  /* ---------- retries ---------- */

  datatype Outcome = Released(delay: int) | Buried

  /** A job as its queue sees it. */
  class Job {
    var age: int
    var releases: nat
    var buried: bool

    /** jobRetry. */
    method Retry(p: Params, maxAge: int, random: real) returns (o: Outcome)
      modifies this`releases, this`buried
      ensures o == RetryOutcome(p, maxAge, age, old(releases), random)
      ensures o == if age > maxAge then Buried else Released(ForAttempt(p, old(releases), random))
      ensures o.Buried? ==> buried && releases == old(releases)
      ensures o.Released? ==> buried == old(buried) && releases == old(releases) + 1
    {
      if age > maxAge {
        buried := true;
        return Buried;
      }
      o := Released(ForAttempt(p, releases, random));
      releases := releases + 1;
    }
  }

  function RetryOutcome(p: Params, maxAge: int, age: int, releases: nat, random: real): Outcome {
    if age > maxAge then Buried else Released(ForAttempt(p, releases, random))
  }

  /** The ages at which a job is released one time after the other: the queue delivers it again no earlier than
      the delay it was released with. */
  ghost predicate ReleasedAt(p: Params, maxAge: int, ages: seq<int>, randoms: seq<real>) {
    && |ages| == |randoms|
    && (ages != [] ==> ages[0] >= 0)
    && (forall i :: 0 <= i < |ages| ==> RetryOutcome(p, maxAge, ages[i], i, randoms[i]).Released?)
    && (forall i :: 0 <= i < |ages| - 1 ==> ages[i + 1] >= ages[i] + RetryOutcome(p, maxAge, ages[i], i, randoms[i]).delay)
  }

  /** Total delay of the first n releases. */
  function TotalDelay(p: Params, randoms: seq<real>, n: nat): int
    requires n <= |randoms|
  {
    if n == 0 then 0 else TotalDelay(p, randoms, n - 1) + ForAttempt(p, n - 1, randoms[n - 1])
  }

  lemma {:induction false} AgeCoversDelays(p: Params, maxAge: int, ages: seq<int>, randoms: seq<real>, n: nat)
    requires ReleasedAt(p, maxAge, ages, randoms) && n < |ages|
    ensures n * Shortest(p) <= TotalDelay(p, randoms, n) <= ages[n]
  {
    if n == 0 {
    } else {
      AgeCoversDelays(p, maxAge, ages, randoms, n - 1);
      DelayWithinBounds(p, n - 1, randoms[n - 1]);
      assert ages[(n - 1) + 1] >= ages[n - 1] + RetryOutcome(p, maxAge, ages[n - 1], n - 1, randoms[n - 1]).delay;
      assert n * Shortest(p) == (n - 1) * Shortest(p) + Shortest(p);
    }
  }

  /** Retries end: the delays of all releases but the last fit into the maximal age, and there are at most
      maxAge / Shortest + 1 of them before the job is buried or deleted. */
  lemma RetriesTerminate(p: Params, maxAge: nat, ages: seq<int>, randoms: seq<real>)
    requires ReleasedAt(p, maxAge, ages, randoms)
    ensures |ages| <= maxAge / Shortest(p) + 1
    ensures ages != [] ==> TotalDelay(p, randoms, |ages| - 1) <= maxAge
  {
    if ages != [] {
      var n := |ages| - 1;
      AgeCoversDelays(p, maxAge, ages, randoms, n);
      assert ages[n] <= maxAge by { assert RetryOutcome(p, maxAge, ages[n], n, randoms[n]).Released?; }
      AtMost(n, maxAge, Shortest(p));
    }
  }

  /** A job that is tried again past its maximal age is buried, and only then. */
  lemma BuriedIffTooOld(p: Params, maxAge: int, age: int, releases: nat, random: real)
    ensures var o := RetryOutcome(p, maxAge, age, releases, random);
            && (o.Buried? <==> age > maxAge)
            && (o.Released? ==> Shortest(p) <= o.delay <= MaxOf(p))
  {
    DelayWithinBounds(p, releases, random);
  }

  lemma AtMost(n: nat, total: nat, each: int)
    requires each > 0 && n * each <= total
    ensures n <= total / each
  {
    var q := total / each;
    QuotientBound(total, each);
    ProductLess(n, q + 1, each);
  }

  lemma QuotientBound(total: nat, each: int)
    requires each > 0
    ensures total < (total / each + 1) * each
  {
  }

  lemma ProductLess(a: int, b: int, k: int)
    requires k > 0 && a * k < b * k
    ensures a < b
  {
  }
}
