/** Shared vocabulary of the model: the error kinds the library raises, a
    failure-compatible result type, and the handful of Python and numpy
    scalar primitives whose exact semantics the core depends on (rounding,
    floor modulo, first-occurrence argmax/argmin). */
module Base {

  /** The exceptions the modelled code can raise, one constructor per
      distinguishable situation. */
  datatype Error =
    | NoTraces            // OwlPyError: an empty trace list
    | IncompatibleTraces  // OwlPyError: size, dtype, deltat or tmin differ
    | InconsistentRange   // ArangeError: stop is not start plus a multiple of step
    | DivisionByZero      // ZeroDivisionError from a float division
    | IndexOutOfRange     // IndexError from indexing an empty or short array
    | EmptySequence       // ValueError from argmax/argmin of, or convolution with, an empty array
    | WrongTraceCount     // ValueError from unpacking the wrong number of traces
    | MathDomain          // ValueError/OverflowError from the logarithm of a non-positive size
    | AssertionFailed     // AssertionError from an `assert` precondition
    | LinearAlgebra       // LinAlgError from an eigen-decomposition of a 0-d covariance
    | BroadcastMismatch   // ValueError from combining arrays of incompatible shapes

  datatype Result<+T> = Ok(value: T) | Err(error: Error) {
    predicate IsFailure() { Err? }

    function PropagateFailure<U>(): Result<U>
      requires Err?
    {
      Err(error)
    }

    function Extract(): T
      requires Ok?
    {
      value
    }
  }

  datatype Option<+T> = None | Some(value: T)

  function Abs(x: real): (r: real)
    ensures r >= 0.0 && (r == x || r == -x)
  {
    if x < 0.0 then -x else x
  }

  function Max(a: int, b: int): (r: int) { if a < b then b else a }

  function Min(a: int, b: int): (r: int) { if a < b then a else b }

  /** Python's `math.floor` on a real. */
  function PyFloor(r: real): (f: int)
    ensures f as real <= r < f as real + 1.0
  {
    r.Floor
  }

  /** Python's `math.ceil` on a real. */
  function PyCeil(r: real): (c: int)
    ensures r <= c as real < r + 1.0
  {
    -((-r).Floor)
  }

  predicate IsEven(k: int) { k % 2 == 0 }

  /** Python's built-in `round` (and numpy's `round`) on a real: to the
      nearest integer, and to the even neighbour on an exact tie. */
  function PyRound(r: real): (k: int)
    ensures Abs(r - k as real) <= 0.5
    ensures Abs(r - k as real) == 0.5 ==> IsEven(k)
  {
    var f := r.Floor;
    var d := r - f as real;
    if d < 0.5 then f
    else if d > 0.5 then f + 1
    else if IsEven(f) then f else f + 1
  }

  /** x and y differ by an integer multiple of m. */
  predicate Congruent(x: real, y: real, m: real)
    requires m != 0.0
  {
    var q := (x - y) / m;
    q.Floor as real == q
  }

  /** Python's `%` on floats with a positive modulus: the result takes the
      sign of the modulus (floor modulo), unlike C's `fmod`. */
  function PyMod(a: real, m: real): (r: real)
    requires m > 0.0
    ensures 0.0 <= r < m
    ensures Congruent(a, r, m)
  {
    var d := a / m;
    var q := d.Floor;
    var r := a - q as real * m;
    var below, above := d - q as real, q as real + 1.0 - d;
    assert d * m == a;
    assert r == below * m;
    assert m - r == above * m;
    ProductSigns(below, above, m);
    assert a - r == q as real * m;
    assert (a - r) / m == q as real;
    r
  }

  /** Signs of the two products `PyMod` bounds its residue with. */
  lemma ProductSigns(x: real, y: real, m: real)
    requires 0.0 <= x && 0.0 < y && 0.0 < m
    ensures 0.0 <= x * m && 0.0 < y * m
  {
  }

  /** Congruence is symmetric. */
  lemma CongruentSym(x: real, y: real, m: real)
    requires m != 0.0 && Congruent(x, y, m)
    ensures Congruent(y, x, m)
  {
    var q := (x - y) / m;
    assert (y - x) / m == -q;
    assert -q == (-q.Floor) as real;
  }

  /** Congruence is transitive. */
  lemma CongruentTrans(x: real, y: real, z: real, m: real)
    requires m != 0.0 && Congruent(x, y, m) && Congruent(y, z, m)
    ensures Congruent(x, z, m)
  {
    var i, j := ((x - y) / m).Floor, ((y - z) / m).Floor;
    QuotientTimesDivisor(x - y, m);
    QuotientTimesDivisor(y - z, m);
    assert x - z == (i + j) as real * m;
    MultipleOverDivisor(x - z, i + j, m);
  }

  lemma QuotientTimesDivisor(d: real, m: real)
    requires m != 0.0
    ensures (d / m) * m == d
  {
  }

  lemma MultipleOverDivisor(d: real, k: int, m: real)
    requires m != 0.0 && d == k as real * m
    ensures d / m == k as real
  {
  }

  /** Congruence modulo `2m` implies congruence modulo `m`. */
  lemma CongruentHalf(x: real, y: real, m: real)
    requires m != 0.0 && Congruent(x, y, 2.0 * m)
    ensures Congruent(x, y, m)
  {
    var q := (x - y) / (2.0 * m);
    var p := (x - y) / m;
    assert q * (2.0 * m) == x - y;
    assert p * m == x - y;
    assert (p - 2.0 * q) * m == 0.0;
    assert p == 2.0 * q;
    assert 2.0 * q == (2 * q.Floor) as real;
    assert p.Floor == 2 * q.Floor;
  }

  /** Two residues in `[0, m)` that are congruent modulo `m` are equal. */
  lemma ResidueUnique(x: real, y: real, m: real)
    requires m > 0.0 && 0.0 <= x < m && 0.0 <= y < m && Congruent(x, y, m)
    ensures x == y
  {
    var q := (x - y) / m;
    assert q * m == x - y;
    var k := q.Floor;
    assert k as real == q;
    if k >= 1 {
      assert false;
    } else if k <= -1 {
      assert false;
    }
  }

  /** A value already in `[0, m)` is its own floor modulo. */
  lemma PyModOfResidue(a: real, m: real)
    requires 0.0 <= a < m
    ensures PyMod(a, m) == a
  {
    var r := PyMod(a, m);
    CongruentSym(a, r, m);
    ResidueUnique(r, a, m);
  }

  lemma {:induction false} SquareNonNegative(v: real)
    ensures v * v >= 0.0
  {
    if v < 0.0 {
      assert v * v == (-v) * (-v);
    }
  }

  /** numpy's `argmax` of a non-empty 1-D array: the first index holding
      the largest value. */
  function FirstArgMax(s: seq<real>): (k: nat)
    requires |s| > 0
    ensures k < |s|
    ensures forall j :: 0 <= j < |s| ==> s[j] <= s[k]
    ensures forall j :: 0 <= j < k ==> s[j] < s[k]
  {
    if |s| == 1 then 0
    else
      var k' := FirstArgMax(s[..|s| - 1]);
      if s[|s| - 1] > s[k'] then |s| - 1 else k'
  }

  /** numpy's `argmin` of a non-empty 1-D array: the first index holding
      the smallest value. */
  function FirstArgMin(s: seq<real>): (k: nat)
    requires |s| > 0
    ensures k < |s|
    ensures forall j :: 0 <= j < |s| ==> s[k] <= s[j]
    ensures forall j :: 0 <= j < k ==> s[k] < s[j]
  {
    if |s| == 1 then 0
    else
      var k' := FirstArgMin(s[..|s| - 1]);
      if s[|s| - 1] < s[k'] then |s| - 1 else k'
  }
}
