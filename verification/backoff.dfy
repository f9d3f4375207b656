/** The reconnect interval: truncated, capped exponential backoff. Durations are whole
    nanoseconds; the factor is an exact real. */
module Backoff {
  import opened Wrappers

  datatype Config = Config(initial: int, max: int, factor: real)

  /** `reconnectCount` (a uint32) and `nextReconnect`. */
  datatype Clock = Clock(count: nat, interval: int)

  /** `time.Duration(x)` for a float `x`: truncation toward zero. Outside the int64 range
      the conversion may give any int64; `wild` is the one it gives. */
  function ToDuration(x: real, wild: int): int {
    if x >= TWO_63 as real || x < -(TWO_63 as real) then wild
    else if x >= 0.0 then x.Floor else -((-x).Floor)
  }

  /** Truncation: the nearest whole number toward zero, in the int64 range. */
  lemma Truncates(x: real, wild: int)
    ensures 0.0 <= x < TWO_63 as real ==>
              var y := ToDuration(x, wild);
              0 <= y && y as real <= x < y as real + 1.0
    ensures -(TWO_63 as real) <= x < 0.0 ==>
              var y := ToDuration(x, wild);
              y <= 0 && y as real - 1.0 < x <= y as real
  {
  }

  function Scale(interval: int, factor: real): real {
    interval as real * factor
  }

  function Attempt(c: Clock, cfg: Config, wild: int): Clock {
    var n := (c.count + 1) % TWO_32;
    if n == 1 || c.interval == 0 then Clock(n, cfg.initial)
    else
      var next := ToDuration(Scale(c.interval, cfg.factor), wild);
      Clock(n, if next > cfg.max then cfg.max else next)
  }

  /** One attempt for each element of `wilds`. */
  function Attempts(c: Clock, cfg: Config, wilds: seq<int>): Clock {
    if wilds == [] then c
    else Attempt(Attempts(c, cfg, wilds[..|wilds| - 1]), cfg, wilds[|wilds| - 1])
  }

  /** `newSession` and `handleConnect` leave these clocks. */
  function Fresh(cfg: Config): Clock { Clock(0, cfg.initial) }

  function Connected(): Clock { Clock(0, 0) }

  /** What `Validate` sets up, with an initial interval under the cap, a factor that
      does not shrink, and products that stay in the int64 range. */
  ghost predicate Sane(cfg: Config) {
    1 <= cfg.initial <= cfg.max && cfg.factor >= 1.0 && Scale(cfg.max, cfg.factor) < TWO_63 as real
  }

  function Pow(f: real, n: nat): real {
    if n == 0 then 1.0 else f * Pow(f, n - 1)
  }

  /** 1 + f + ... + f^(n-1). */
  function Geo(f: real, n: nat): real {
    if n == 0 then 0.0 else f * Geo(f, n - 1) + 1.0
  }

  function Min(a: real, b: real): real {
    if a <= b then a else b
  }

  lemma ScaleMonotone(a: int, b: int, f: real)
    requires a <= b && f >= 0.0
    ensures Scale(a, f) <= Scale(b, f)
  {
    var d := b as real - a as real;
    assert d * f >= 0.0;
    assert Scale(b, f) - Scale(a, f) == d * f;
  }

  lemma ScaleGrows(a: int, f: real)
    requires a >= 0 && f >= 1.0
    ensures a as real <= Scale(a, f)
  {
    assert a as real * (f - 1.0) >= 0.0;
    assert Scale(a, f) == a as real * (f - 1.0) + a as real;
  }

  /** A later attempt never goes back and never passes the cap. */
  lemma StepKeeps(c: Clock, cfg: Config, wild: int)
    requires Sane(cfg) && cfg.initial <= c.interval <= cfg.max && (c.count + 1) % TWO_32 != 1
    ensures c.interval <= Attempt(c, cfg, wild).interval <= cfg.max
  {
    ScaleMonotone(c.interval, cfg.max, cfg.factor);
    ScaleGrows(c.interval, cfg.factor);
  }

  /** One attempt that is not the first: the exact product, cut down and capped. */
  lemma StepExact(c: Clock, cfg: Config, wild: int)
    requires Sane(cfg) && cfg.initial <= c.interval <= cfg.max && (c.count + 1) % TWO_32 != 1
    ensures var x, y := Scale(c.interval, cfg.factor), Attempt(c, cfg, wild).interval;
            && y as real <= x
            && y as real >= Min(cfg.max as real, x - 1.0)
  {
    ScaleMonotone(c.interval, cfg.max, cfg.factor);
    ScaleGrows(c.interval, cfg.factor);
  }

  lemma {:induction false} CountAfter(c: Clock, cfg: Config, wilds: seq<int>)
    requires c.count == 0
    ensures Attempts(c, cfg, wilds).count == |wilds| % TWO_32
  {
    if wilds != [] {
      CountAfter(c, cfg, wilds[..|wilds| - 1]);
    }
  }

  /** `Initial * f^k`, the interval without truncation and cap. */
  function Exact(cfg: Config, k: nat): real {
    cfg.initial as real * Pow(cfg.factor, k)
  }

  lemma ExactStep(cfg: Config, k: nat)
    requires k >= 1
    ensures Exact(cfg, k) == Times(cfg.factor, Exact(cfg, k - 1))
    ensures Geo(cfg.factor, k) == Times(cfg.factor, Geo(cfg.factor, k - 1)) + 1.0
  {
    var a, f, p := cfg.initial as real, cfg.factor, Pow(cfg.factor, k - 1);
    assert a * (f * p) == f * (a * p);
  }

  /** Multiplication under a name the larger proofs can hide. */
  function Times(a: real, b: real): real { a * b }

  lemma MulMono(f: real, a: real, b: real)
    requires f >= 0.0 && a <= b
    ensures f * a <= f * b
  {
    assert f * (b - a) >= 0.0;
    assert f * (b - a) == f * b - f * a;
  }

  lemma MulSub(f: real, a: real, b: real)
    ensures f * (a - b) == f * a - f * b
  {
  }

  lemma ScaleIsMul(x: int, f: real)
    ensures Scale(x, f) == Times(f, x as real)
  {
  }

  /** At most the exact value; at least that less the loss, unless capped. */
  ghost predicate Sandwich(y: real, max: real, exact: real, loss: real) {
    y <= exact && y >= Min(max, exact - loss)
  }

  lemma SandwichTimes(x: real, max: real, f: real, exact: real, loss: real)
    requires f >= 1.0 && x <= max && Sandwich(x, max, exact, loss)
    ensures Times(f, x) <= Times(f, exact)
    ensures x == max || Times(f, x) >= Times(f, exact) - Times(f, loss)
  {
    MulMono(f, x, exact);
    if x != max {
      MulMono(f, exact - loss, x);
      MulSub(f, exact, loss);
    }
  }

  /** Truncating costs at most one more, capping nothing. */
  lemma SandwichCut(y: real, max: real, x: real, exact: real, loss: real)
    requires y <= x <= exact && y >= Min(max, x - 1.0)
    requires y == max || x >= exact - loss
    ensures Sandwich(y, max, exact, loss + 1.0)
  {
  }

  /** The interval after attempt k + 1 lies between the exact one and the exact one less
      what truncation can have cost, both capped. */
  ghost predicate Within(cfg: Config, y: int, k: nat) {
    && cfg.initial <= y <= cfg.max
    && Sandwich(y as real, cfg.max as real, Exact(cfg, k), Geo(cfg.factor, k))
  }

  lemma WithinStep(c: Clock, cfg: Config, wild: int, k: nat)
    requires Sane(cfg) && Within(cfg, c.interval, k) && (c.count + 1) % TWO_32 != 1
    ensures Within(cfg, Attempt(c, cfg, wild).interval, k + 1)
  {
    hide Scale, Attempt, Exact, Pow, Geo, Sandwich, Times;
    var f, y := cfg.factor, Attempt(c, cfg, wild).interval;
    StepKeeps(c, cfg, wild);
    StepExact(c, cfg, wild);
    ExactStep(cfg, k + 1);
    ScaleIsMul(c.interval, f);
    SandwichTimes(c.interval as real, cfg.max as real, f, Exact(cfg, k), Geo(f, k));
    SandwichCut(y as real, cfg.max as real, Scale(c.interval, f), Exact(cfg, k + 1), Times(f, Geo(f, k)));
  }

  lemma FirstWithin(c: Clock, cfg: Config, wild: int)
    requires Sane(cfg) && c.count == 0
    ensures Within(cfg, Attempt(c, cfg, wild).interval, 0)
  {
  }

  /** The interval after attempt k of an outage, for every k up to 2^32. */
  lemma {:induction false} AfterAttempt(c: Clock, cfg: Config, wilds: seq<int>)
    requires Sane(cfg) && c.count == 0 && 1 <= |wilds| <= TWO_32
    ensures Within(cfg, Attempts(c, cfg, wilds).interval, |wilds| - 1)
  {
    hide Within, Attempt, Sane;
    var k := |wilds| - 1;
    CountAfter(c, cfg, wilds[..k]);
    if k == 0 {
      FirstWithin(c, cfg, wilds[0]);
    } else {
      AfterAttempt(c, cfg, wilds[..k]);
      WithinStep(Attempts(c, cfg, wilds[..k]), cfg, wilds[k], k - 1);
    }
  }

  /** The closed form of the accumulated truncation loss. */
  lemma DivideBack(a: real, b: real, c: real)
    requires a != 0.0 && a * b == c
    ensures b == c / a
  {
    assert c / a == (a * b) / a == b;
  }

  lemma GeoClosed(f: real, n: nat)
    requires f > 1.0
    ensures Geo(f, n) == (Pow(f, n) - 1.0) / (f - 1.0)
  {
    GeoProduct(f, n);
    DivideBack(f - 1.0, Geo(f, n), Pow(f, n) - 1.0);
  }

  lemma {:induction false} GeoProduct(f: real, n: nat)
    ensures (f - 1.0) * Geo(f, n) == Pow(f, n) - 1.0
  {
    if n > 0 {
      GeoProduct(f, n - 1);
      var g, p := Geo(f, n - 1), Pow(f, n - 1);
      calc {
        (f - 1.0) * (f * g + 1.0);
        f * ((f - 1.0) * g) + (f - 1.0);
        f * (p - 1.0) + (f - 1.0);
        f * p - 1.0;
      }
    }
  }

  lemma InRange(c: Clock, cfg: Config, wilds: seq<int>)
    requires Sane(cfg) && c.count == 0 && 1 <= |wilds| <= TWO_32
    ensures cfg.initial <= Attempts(c, cfg, wilds).interval <= cfg.max
  {
    AfterAttempt(c, cfg, wilds);
  }

  lemma ScaleShrinks(a: int, f: real)
    requires a >= 1 && 0.0 < f < 1.0
    ensures 0.0 <= Scale(a, f) < a as real
  {
    assert a as real * (1.0 - f) > 0.0;
    assert a as real * (1.0 - f) == a as real - Scale(a, f);
  }

  /** `Validate` neither compares the two intervals nor asks for a factor of at least 1.
      The first attempt waits the initial interval uncapped, and a smaller factor takes the
      second one below it. So, products in range, the bounds hold for all attempts up to
      2^32 exactly when the initial interval is not above the cap and the factor does not
      shrink it. */
  lemma BoundsExact(cfg: Config)
    requires cfg.initial >= 1 && cfg.factor > 0.0 && Scale(cfg.max, cfg.factor) < TWO_63 as real
    ensures (forall wilds: seq<int> :: 1 <= |wilds| <= TWO_32 ==>
               cfg.initial <= Attempts(Fresh(cfg), cfg, wilds).interval <= cfg.max)
            <==> cfg.initial <= cfg.max && cfg.factor >= 1.0
  {
    if cfg.initial > cfg.max {
      FirstAttempt(cfg);
      assert Attempts(Fresh(cfg), cfg, [0]).interval > cfg.max;
    } else if cfg.factor < 1.0 {
      SecondAttemptShrinks(cfg);
      assert Attempts(Fresh(cfg), cfg, [0, 0]).interval < cfg.initial;
    } else {
      forall wilds: seq<int> | 1 <= |wilds| <= TWO_32
        ensures cfg.initial <= Attempts(Fresh(cfg), cfg, wilds).interval <= cfg.max
      {
        InRange(Fresh(cfg), cfg, wilds);
      }
    }
  }

  lemma FirstAttempt(cfg: Config)
    ensures Attempts(Fresh(cfg), cfg, [0]) == Clock(1, cfg.initial)
  {
    assert [0][..0] == [];
  }

  lemma SecondAttemptShrinks(cfg: Config)
    requires 1 <= cfg.initial <= cfg.max && 0.0 < cfg.factor < 1.0
    requires Scale(cfg.max, cfg.factor) < TWO_63 as real
    ensures Attempts(Fresh(cfg), cfg, [0, 0]).interval < cfg.initial
  {
    FirstAttempt(cfg);
    assert [0, 0][..1] == [0];
    ScaleShrinks(cfg.initial, cfg.factor);
    ScaleMonotone(cfg.initial, cfg.max, cfg.factor);
  }

  /** Attempt k + 1 never waits less than attempt k, and stays at the cap once there. */
  lemma NeverDecreases(c: Clock, cfg: Config, wilds: seq<int>, wild: int)
    requires Sane(cfg) && c.count == 0 && 1 <= |wilds| < TWO_32
    ensures Attempts(c, cfg, wilds).interval <= Attempts(c, cfg, wilds + [wild]).interval <= cfg.max
  {
    hide Scale, Attempt;
    var more := wilds + [wild];
    assert more[..|more| - 1] == wilds;
    InRange(c, cfg, wilds);
    CountAfter(c, cfg, wilds);
    StepKeeps(Attempts(c, cfg, wilds), cfg, wild);
  }

  /** The limit 2^32 is sharp: the attempt counter wraps, and the attempt after it
      starts again at the initial interval, whatever was reached. */
  lemma CounterWraps(c: Clock, cfg: Config, wilds: seq<int>)
    requires c.count == 0 && |wilds| == TWO_32 + 1
    ensures Attempts(c, cfg, wilds).interval == cfg.initial
  {
    CountAfter(c, cfg, wilds[..TWO_32]);
  }

  /** A successful connect restarts the sequence, whatever came before it. */
  lemma {:induction false} ConnectRestarts(cfg: Config, wilds: seq<int>)
    requires wilds != []
    ensures Attempts(Connected(), cfg, wilds) == Attempts(Fresh(cfg), cfg, wilds)
  {
    if |wilds| > 1 {
      ConnectRestarts(cfg, wilds[..|wilds| - 1]);
    } else {
      assert wilds[..0] == [];
    }
  }

  ghost predicate IsInt64(x: int) { -TWO_63 <= x < TWO_63 }

  /** When a later attempt stays within bounds whatever an out-of-range conversion
      gives: exactly when the product is in range. */
  lemma OverflowExact(c: Clock, cfg: Config)
    requires 1 <= cfg.initial <= c.interval <= cfg.max && cfg.factor >= 1.0
    requires (c.count + 1) % TWO_32 != 1
    ensures (forall wild :: IsInt64(wild) ==> cfg.initial <= Attempt(c, cfg, wild).interval <= cfg.max)
            <==> Scale(c.interval, cfg.factor) < TWO_63 as real
  {
    var x := Scale(c.interval, cfg.factor);
    ScaleGrows(c.interval, cfg.factor);
    if x < TWO_63 as real {
      assert forall wild :: ToDuration(x, wild) == x.Floor && x.Floor >= c.interval;
    } else {
      assert IsInt64(-TWO_63);
      assert Attempt(c, cfg, -TWO_63).interval == -TWO_63;
    }
  }
}
