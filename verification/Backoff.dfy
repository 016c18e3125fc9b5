// ReconnectBackoff: capped geometric delays, over the reals.

module Backoff {
  datatype Jitter = NoJitter | Full | Equal

  datatype ReconnectSettings = ReconnectSettings(
    enabled: bool,
    initialDelay: real,
    maxDelay: real,
    factor: real,
    jitter: Jitter)
  {
    // TcpReconnectSettings.validate
    predicate Valid() { 0.0 < initialDelay <= maxDelay && 1.0 <= factor }
  }

  // The product, named so that proofs can treat it as a whole.
  function Times(a: real, b: real): real { a * b }

  function Min(a: real, b: real): real { if b < a then b else a }

  function Power(f: real, n: nat): real { if n == 0 then 1.0 else Times(f, Power(f, n - 1)) }

  // _current_delay after `n` calls of next_delay since the last reset.
  function DelayAfter(s: ReconnectSettings, n: nat): real {
    if n == 0 then s.initialDelay else Min(Times(DelayAfter(s, n - 1), s.factor), s.maxDelay)
  }

  // _apply_jitter, with the random number as a fraction of its range.
  function Jittered(jitter: Jitter, delay: real, fraction: real): real {
    match jitter
    case NoJitter => delay
    case Full => Times(fraction, delay)
    case Equal => delay / 2.0 + Times(fraction, delay / 2.0)
  }

  // ---- the delays -----------------------------------------------------------------

  lemma ProductGrows(d: real, f: real)
    requires d >= 0.0 && f >= 1.0
    ensures Times(d, f) >= d
  {
    assert d * f - d == d * (f - 1.0);
  }

  lemma {:induction false} DelayBounds(s: ReconnectSettings, n: nat)
    requires s.Valid()
    ensures s.initialDelay <= DelayAfter(s, n) <= s.maxDelay
  {
    if n > 0 {
      DelayBounds(s, n - 1);
      ProductGrows(DelayAfter(s, n - 1), s.factor);
    }
  }

  lemma DelayGrows(s: ReconnectSettings, n: nat)
    requires s.Valid()
    ensures DelayAfter(s, n) <= DelayAfter(s, n + 1)
  {
    DelayBounds(s, n);
    ProductGrows(DelayAfter(s, n), s.factor);
  }

  lemma {:induction false} DelaysNondecreasing(s: ReconnectSettings, m: nat, n: nat)
    requires s.Valid() && m <= n
    ensures DelayAfter(s, m) <= DelayAfter(s, n)
    decreases n
  {
    if m < n {
      DelaysNondecreasing(s, m, n - 1);
      DelayGrows(s, n - 1);
    }
  }

  lemma MinTimes(x: real, m: real, f: real)
    requires m > 0.0 && f >= 1.0
    ensures Min(Times(Min(x, m), f), m) == Min(Times(x, f), m)
  {
    ProductGrows(m, f);
    if x > m {
      assert x * f - m * f == (x - m) * f;
    }
  }

  lemma ClosedStep(init: real, p: real, m: real, f: real)
    requires m > 0.0 && f >= 1.0
    ensures Min(Times(Min(Times(init, p), m), f), m) == Min(Times(init, Times(f, p)), m)
  {
    MinTimes(Times(init, p), m, f);
    assert init * p * f == init * (f * p);
  }

  // The closed form.
  lemma {:induction false} ClosedForm(s: ReconnectSettings, n: nat)
    requires s.Valid()
    ensures DelayAfter(s, n) == Min(Times(s.initialDelay, Power(s.factor, n)), s.maxDelay)
  {
    if n > 0 {
      hide Min, Times;
      ClosedForm(s, n - 1);
      ClosedStep(s.initialDelay, Power(s.factor, n - 1), s.maxDelay, s.factor);
    }
  }

  lemma PowerAtLeastOne(f: real, n: nat)
    requires f >= 1.0
    ensures Power(f, n) >= 1.0
  {
    if n > 0 {
      PowerAtLeastOne(f, n - 1);
      ProductGrows(f, Power(f, n - 1));
      hide Times;
    }
  }

  lemma OneFactorMore(f: real, p: real)
    ensures Times(f, p) == p + Times(f - 1.0, p)
  {
  }

  lemma OneTimeMore(k: real, g: real)
    ensures Times(k + 1.0, g) == Times(k, g) + g
  {
  }

  // Bernoulli: geometric growth is at least linear.
  lemma {:induction false} PowerIsLinear(f: real, n: nat)
    requires f >= 1.0
    ensures Power(f, n) >= 1.0 + Times(n as real, f - 1.0)
  {
    if n == 0 {
      assert Times(0.0, f - 1.0) == 0.0;
    } else {
      hide Times;
      PowerIsLinear(f, n - 1);
      PowerAtLeastOne(f, n - 1);
      OneFactorMore(f, Power(f, n - 1));
      ProductGrows(f - 1.0, Power(f, n - 1));
      OneTimeMore((n - 1) as real, f - 1.0);
      assert (n - 1) as real + 1.0 == n as real;
    }
  }

  lemma TimesKeepsOrder(a: real, b: real, c: real)
    requires a <= b && c >= 0.0
    ensures a * c <= b * c
  {
    assert b * c - a * c == (b - a) * c;
  }

  // The number of steps after which the linear bound has reached the cap.
  function CapBound(s: ReconnectSettings): real
    requires s.Valid() && s.factor > 1.0
  {
    (s.maxDelay / s.initialDelay - 1.0) / (s.factor - 1.0)
  }

  lemma LinearReaches(init: real, m: real, g: real, k: real)
    requires 0.0 < init && 0.0 < g && k >= (m / init - 1.0) / g
    ensures m / init <= 1.0 + Times(k, g)
  {
    TimesKeepsOrder((m / init - 1.0) / g, k, g);
    QuotientTimes(m / init - 1.0, g);
  }

  lemma QuotientTimes(a: real, b: real)
    requires b > 0.0
    ensures a / b * b == a
  {
  }

  function Ratio(a: real, b: real): real
    requires b > 0.0
  {
    a / b
  }

  lemma BoundReaches(s: ReconnectSettings, n: nat)
    requires s.Valid() && s.factor > 1.0 && n as real >= CapBound(s)
    ensures Ratio(s.maxDelay, s.initialDelay) <= 1.0 + Times(n as real, s.factor - 1.0)
  {
    LinearReaches(s.initialDelay, s.maxDelay, s.factor - 1.0, n as real);
  }

  lemma PowerReaches(init: real, m: real, p: real)
    requires 0.0 < init && Ratio(m, init) <= p
    ensures m <= Times(init, p)
  {
    TimesKeepsOrder(m / init, p, init);
    QuotientTimes(m, init);
  }

  // With a factor above one the delay is at the cap from step
  // (max / initial - 1) / (factor - 1) on, and stays there.
  lemma ReachesCap(s: ReconnectSettings, n: nat)
    requires s.Valid() && s.factor > 1.0 && n as real >= CapBound(s)
    ensures DelayAfter(s, n) == s.maxDelay
  {
    BoundReaches(s, n);
    hide CapBound, Power, Times, Ratio;
    PowerIsLinear(s.factor, n);
    PowerReaches(s.initialDelay, s.maxDelay, Power(s.factor, n));
    ClosedForm(s, n);
  }

  // Exactly a factor of one never grows, and exactly then can a cap above the
  // initial delay stay out of reach for good.
  lemma {:induction false} FlatWithoutFactor(s: ReconnectSettings, n: nat)
    requires s.Valid() && s.factor == 1.0
    ensures DelayAfter(s, n) == s.initialDelay
  {
    if n > 0 {
      FlatWithoutFactor(s, n - 1);
    }
  }

  predicate AtCap(s: ReconnectSettings, n: nat) { DelayAfter(s, n) == s.maxDelay }

  lemma CapReachedExactly(s: ReconnectSettings)
    requires s.Valid()
    ensures (exists n: nat :: AtCap(s, n)) <==> s.factor > 1.0 || s.initialDelay == s.maxDelay
  {
    if s.factor > 1.0 {
      var bound := CapBound(s);
      var n: nat := if bound < 0.0 then 0 else bound.Floor + 1;
      hide CapBound;
      ReachesCap(s, n);
      assert AtCap(s, n);
    } else {
      forall n: nat
        ensures DelayAfter(s, n) == s.initialDelay
      {
        FlatWithoutFactor(s, n);
      }
      assert AtCap(s, 0) <==> s.initialDelay == s.maxDelay;
    }
  }

  lemma FractionOf(fraction: real, x: real)
    requires 0.0 <= fraction <= 1.0 && x >= 0.0
    ensures 0.0 <= Times(fraction, x) <= x
  {
    assert x - fraction * x == (1.0 - fraction) * x;
  }

  // FULL jitter stays within [0, max], EQUAL within the upper half of the delay,
  // NONE changes nothing.
  lemma JitterRange(s: ReconnectSettings, n: nat, fraction: real)
    requires s.Valid() && 0.0 <= fraction <= 1.0
    ensures
      var d := DelayAfter(s, n);
      var j := Jittered(s.jitter, d, fraction);
      && 0.0 <= j <= d <= s.maxDelay
      && (s.jitter.Equal? ==> d / 2.0 <= j)
      && (s.jitter.NoJitter? ==> j == d)
  {
    DelayBounds(s, n);
    hide DelayAfter, Times;
    FractionOf(fraction, DelayAfter(s, n));
    FractionOf(fraction, DelayAfter(s, n) / 2.0);
  }

  // Every delay of the two ranges can be drawn.
  predicate Draws(jitter: Jitter, d: real, fraction: real, delay: real) {
    0.0 <= fraction <= 1.0 && Jittered(jitter, d, fraction) == delay
  }

  lemma FractionFor(low: real, span: real, x: real)
    requires 0.0 < span && low <= x <= low + span
    ensures var q := (x - low) / span; 0.0 <= q <= 1.0 && Times(q, span) == x - low
  {
    var q := (x - low) / span;
    QuotientTimes(x - low, span);
    QuotientRange(q, span);
  }

  lemma QuotientRange(q: real, span: real)
    requires 0.0 < span && 0.0 <= q * span <= span
    ensures 0.0 <= q <= 1.0
  {
    if q > 1.0 {
      TimesKeepsOrder(1.0, q, span);
    }
  }

  lemma JitterCovers(s: ReconnectSettings, n: nat, delay: real)
    requires s.Valid() && !s.jitter.NoJitter? && delay <= DelayAfter(s, n)
    requires if s.jitter.Full? then 0.0 <= delay else DelayAfter(s, n) / 2.0 <= delay
    ensures exists fraction :: Draws(s.jitter, DelayAfter(s, n), fraction, delay)
  {
    var d := DelayAfter(s, n);
    DelayBounds(s, n);
    hide DelayAfter, Times;
    var low := if s.jitter.Full? then 0.0 else d / 2.0;
    FractionFor(low, d - low, delay);
    var q := (delay - low) / (d - low);
    assert Draws(s.jitter, d, q, delay) by {
      if s.jitter.Equal? {
        assert d - low == d / 2.0;
      }
    }
  }

  // ---- the object -------------------------------------------------------------------

  class ReconnectBackoff {
    const settings: ReconnectSettings
    var currentDelay: real
    ghost var steps: nat

    ghost predicate Valid()
      reads this
    {
      settings.Valid() && currentDelay == DelayAfter(settings, steps)
    }

    constructor (s: ReconnectSettings)
      requires s.Valid()
      ensures Valid() && settings == s && steps == 0
    {
      settings := s;
      currentDelay := s.initialDelay;
      steps := 0;
    }

    method Reset()
      requires Valid()
      modifies this
      ensures Valid() && steps == 0
    {
      currentDelay := settings.initialDelay;
      steps := 0;
    }

    // `fraction` is what the random number generator contributes.
    method NextDelay(fraction: real) returns (delay: real)
      requires Valid() && 0.0 <= fraction <= 1.0
      modifies this
      ensures Valid() && steps == old(steps) + 1
      ensures delay == Jittered(settings.jitter, DelayAfter(settings, old(steps)), fraction)
      ensures 0.0 <= delay <= settings.maxDelay
    {
      JitterRange(settings, steps, fraction);
      hide Jittered;
      delay := Jittered(settings.jitter, currentDelay, fraction);
      currentDelay := Min(Times(currentDelay, settings.factor), settings.maxDelay);
      steps := steps + 1;
    }
  }
}
