/**
 * Shared vocabulary of the stimulus model: the failure values the Python code
 * raises, sums of duration lists, and the arithmetic the source gets from
 * numpy (uniform and integer draws, floor modulo on floats, rounding and the
 * int16 cast used by the replay logs).
 */
module Common {

  datatype Option<T> = None | Some(value: T)

  /** The exceptions the source raises (or an iteration budget the model adds); messages are not modelled. */
  datatype Error =
    | ValueError
    | ZeroDivisionError
    | IndexError
    | TypeError
    | AttributeError
    | BudgetExceeded

  datatype Result<T> = Ok(value: T) | Err(error: Error)

  /**
   * The element count of Python's `[x] * d` or `lst[:d]` on a list built for
   * d: a negative count gives nothing.
   */
  function Nat(d: int): nat { if d < 0 then 0 else d }

  /** `[x] * n`. */
  function Repeat<T>(x: T, n: nat): (r: seq<T>)
    ensures |r| == n && forall i :: 0 <= i < n ==> r[i] == x
  {
    seq(n, _ => x)
  }

  /** A position on the screen, in the stimulus units. */
  datatype Point = Point(x: real, y: real)

  /** A direction as the source accepts it: a name or an angle in degrees. */
  datatype Direction = Named(name: string) | Degrees(deg: real)

  /** Sum of a list of durations (Python's `sum`), peeled from the end. */
  function Sum(s: seq<int>): int
  {
    if s == [] then 0 else Sum(s[..|s| - 1]) + s[|s| - 1]
  }

  lemma SumAppend(s: seq<int>, x: int)
    ensures Sum(s + [x]) == Sum(s) + x
  {
    assert (s + [x])[..|s|] == s;
  }

  lemma {:induction false} SumConcat(s: seq<int>, t: seq<int>)
    ensures Sum(s + t) == Sum(s) + Sum(t)
    decreases |t|
  {
    if t == [] {
      assert s + t == s;
    } else {
      var t' := t[..|t| - 1];
      assert s + t == (s + t') + [t[|t| - 1]];
      assert t == t' + [t[|t| - 1]];
      SumAppend(s + t', t[|t| - 1]);
      SumAppend(t', t[|t| - 1]);
      SumConcat(s, t');
    }
  }

  lemma {:induction false} SumBounds(s: seq<int>, lo: int, hi: int)
    requires forall i :: 0 <= i < |s| ==> lo <= s[i] <= hi
    ensures |s| * lo <= Sum(s) <= |s| * hi
    decreases |s|
  {
    if s != [] {
      SumBounds(s[..|s| - 1], lo, hi);
      MulSucc(|s| - 1, lo);
      MulSucc(|s| - 1, hi);
    }
  }

  /** One more row of b: (a + 1) * b == a * b + b. */
  lemma MulSucc(a: int, b: int)
    ensures (a + 1) * b == a * b + b
  {
  }

  /**
   * One integer draw `rng.randint(lo, hi + 1)`: the abstract draw `d` selects
   * a value of the closed range [lo, hi]; every value of the range is
   * selected by some draw.
   */
  function Pick(lo: int, hi: int, d: nat): (r: int)
    requires lo <= hi
    ensures lo <= r <= hi
  {
    lo + d % (hi - lo + 1)
  }

  lemma PickCovers(lo: int, hi: int, v: int)
    requires lo <= v <= hi
    ensures Pick(lo, hi, (v - lo) as nat) == v
  {
  }

  /** Fractional part of a real, in [0, 1). */
  function Frac(u: real): (f: real)
    ensures 0.0 <= f < 1.0
  {
    u - u.Floor as real
  }

  /**
   * One real draw `rng.uniform(lo, hi)`, which numpy computes as
   * lo + (hi - lo) * U with U in [0, 1); the abstract draw `u` stands for U.
   */
  function Uniform(lo: real, hi: real, u: real): (r: real)
    ensures lo <= hi ==> lo <= r <= hi
    ensures hi <= lo ==> hi <= r <= lo
  {
    lo + Scale(hi - lo, Frac(u))
  }

  /** `a * f` for a fraction `f` in [0, 1): lies between 0 and `a`. */
  function Scale(a: real, f: real): (r: real)
    requires 0.0 <= f < 1.0
    ensures 0.0 <= a ==> 0.0 <= r <= a
    ensures a <= 0.0 ==> a <= r <= 0.0
  {
    if a >= 0.0 then
      var g := 1.0 - f;
      assert 0.0 < g;
      assert 0.0 <= a * g;
      assert a * f <= a;
      a * f
    else
      var b := -a;
      var g := 1.0 - f;
      assert 0.0 < b && 0.0 < g;
      assert 0.0 <= b * g;
      assert b * f <= b;
      assert a * f == -(b * f);
      a * f
  }

  function Abs(x: real): real { if x < 0.0 then -x else x }

  /** Python's float `x % 360.0`: the floor modulo, always in [0, 360). */
  function Mod360(x: real): (r: real)
    ensures 0.0 <= r < 360.0
    ensures ((x - r) / 360.0).Floor as real == (x - r) / 360.0
  {
    var k := (x / 360.0).Floor;
    assert (x - (x - 360.0 * k as real)) / 360.0 == k as real;
    x - 360.0 * k as real
  }

  lemma Mod360Identity(x: real)
    requires 0.0 <= x < 360.0
    ensures Mod360(x) == x
  {
    assert (x / 360.0).Floor == 0;
  }

  /** Python's `int(x)`: truncation toward zero. */
  function Trunc(x: real): int
  {
    if x >= 0.0 then x.Floor else -((-x).Floor)
  }

  /** numpy's `around`: round half to even. */
  function RoundHalfEven(x: real): (r: int)
    ensures Abs(r as real - x) <= 0.5
  {
    var f := x.Floor;
    var d := x - f as real;
    if d < 0.5 then f
    else if d > 0.5 then f + 1
    else if f % 2 == 0 then f
    else f + 1
  }

  /** The two's-complement wrap of `astype(np.int16)`. */
  function Int16(i: int): (r: int)
    ensures -32768 <= r < 32768
  {
    (i + 32768) % 65536 - 32768
  }

  lemma Int16InRange(i: int)
    requires -32768 <= i < 32768
    ensures Int16(i) == i
  {
  }
}
