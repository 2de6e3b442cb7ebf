/** Small helpers shared by every module: an Option type, Python's min/max/clamp idiom on
    reals, and the arithmetic mean that numpy's np.mean computes. */
module Common {

  datatype Option<+T> = None | Some(value: T)

  /** Python's min(a, b) on two reals. */
  function Min(a: real, b: real): (r: real)
    ensures r <= a && r <= b
    ensures r == a || r == b
  {
    if b < a then b else a
  }

  /** Python's max(a, b) on two reals. */
  function Max(a: real, b: real): (r: real)
    ensures r >= a && r >= b
    ensures r == a || r == b
  {
    if b > a then b else a
  }

  /** The source's clamping idiom `max(lo, min(hi, x))`. */
  function Clamp(lo: real, hi: real, x: real): (r: real)
    requires lo <= hi
    ensures lo <= r <= hi
    ensures lo <= x <= hi ==> r == x
    ensures x < lo ==> r == lo
    ensures x > hi ==> r == hi
  {
    Max(lo, Min(hi, x))
  }

  /** Clamping to the score range [0, 100] moves a value no further than it lay outside
      the range: a score in range that is shifted by `d` stays within |d| of itself. */
  lemma ClampShiftWithin(w: real, d: real)
    requires 0.0 <= w <= 100.0
    ensures Clamp(0.0, 100.0, w + d) - w <= (if d >= 0.0 then d else -d)
    ensures w - Clamp(0.0, 100.0, w + d) <= (if d >= 0.0 then d else -d)
  {
  }

  predicate AllWithin(s: seq<real>, lo: real, hi: real)
  {
    forall i :: 0 <= i < |s| ==> lo <= s[i] <= hi
  }

  /** The sum of a sequence, taken left to right; over exact reals the order numpy adds in
      makes no difference. */
  function Sum(s: seq<real>): real
  {
    if s == [] then 0.0 else Sum(s[..|s| - 1]) + s[|s| - 1]
  }

  /** np.mean of a non-empty sequence. */
  function Mean(s: seq<real>): real
    requires |s| > 0
  {
    Sum(s) / (|s| as real)
  }

  lemma {:induction false} SumBounds(s: seq<real>, lo: real, hi: real)
    requires AllWithin(s, lo, hi)
    ensures lo * (|s| as real) <= Sum(s) <= hi * (|s| as real)
  {
    if s != [] {
      var init := s[..|s| - 1];
      assert AllWithin(init, lo, hi) by {
        forall i | 0 <= i < |init| ensures lo <= init[i] <= hi {
          assert init[i] == s[i];
        }
      }
      SumBounds(init, lo, hi);
      var n := |init| as real;
      assert lo * (n + 1.0) == lo * n + lo;
      assert hi * (n + 1.0) == hi * n + hi;
    }
  }

  /** The mean of values that all lie in [lo, hi] lies in [lo, hi]. */
  lemma MeanBounds(s: seq<real>, lo: real, hi: real)
    requires |s| > 0 && AllWithin(s, lo, hi)
    ensures lo <= Mean(s) <= hi
  {
    SumBounds(s, lo, hi);
    var n := |s| as real;
    assert Sum(s) / n >= lo by {
      assert lo * n <= Sum(s);
      assert (lo * n) / n == lo;
    }
    assert Sum(s) / n <= hi by {
      assert Sum(s) <= hi * n;
      assert (hi * n) / n == hi;
    }
  }
}

/** The program's random draws. The source draws from Python's seeded `random` module, from
    numpy's seeded generator and, when configured, from `random.SystemRandom`; none of these
    streams is reproduced. Each draw is modelled as an arbitrary value in the interval its
    call documents, so every property proved holds for whatever the generator yields. */
module Draws {

  predicate Within(lo: real, hi: real, x: real)
  {
    lo <= x <= hi
  }

  /** `random.uniform(lo, hi)` and `np.random.uniform(lo, hi)`. */
  method Uniform(lo: real, hi: real) returns (x: real)
    requires lo <= hi
    ensures lo <= x <= hi
  {
    assert Within(lo, hi, lo);
    x :| Within(lo, hi, x);
    assert Within(lo, hi, x);
  }

  /** `random.randint(lo, hi)`, inclusive at both ends. */
  method RandInt(lo: int, hi: int) returns (n: int)
    requires lo <= hi
    ensures lo <= n <= hi
  {
    n :| lo <= n <= hi;
  }

  predicate InUnitInterval(x: real)
  {
    0.0 <= x < 1.0
  }

  /** `random.random()`: a value in [0, 1). */
  method Unit() returns (x: real)
    ensures 0.0 <= x < 1.0
  {
    assert InUnitInterval(0.0);
    x :| InUnitInterval(x);
    assert InUnitInterval(x);
  }

  predicate AnyReal(x: real)
  {
    true
  }

  /** `np.random.normal(0, sigma)`: the normal distribution is unbounded, so any real. */
  method Normal() returns (x: real)
  {
    assert AnyReal(0.0);
    x :| AnyReal(x);
  }
}
