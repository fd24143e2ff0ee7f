/** Real-valued vectors and matrices: the `ArrayList<Double>` and `double[][]`
    values the classifiers compute with, Java doubles read as exact reals. */
module Vectors {

  type Vec = seq<real>
  type Mat = seq<Vec>

  /** A matrix with `rows` rows of `cols` entries each. */
  ghost predicate IsMat(m: Mat, rows: nat, cols: nat) {
    |m| == rows && forall r :: 0 <= r < rows ==> |m[r]| == cols
  }

  /** A matrix with at least `rows` rows, each of at least `cols` entries:
      every V[j][i] with j < rows and i < cols can be read. */
  ghost predicate Covers(m: Mat, rows: nat, cols: nat) {
    rows <= |m| && forall r :: 0 <= r < rows ==> cols <= |m[r]|
  }

  /** The sum of a[i] * b[i] over i < n, accumulated from index 0 upwards. */
  function Dot(a: Vec, b: Vec, n: nat): real
    requires n <= |a| && n <= |b|
  {
    if n == 0 then 0.0 else Dot(a, b, n - 1) + a[n - 1] * b[n - 1]
  }

  /** The sum of a[i] * a[i] over i < n. */
  function SqNorm(a: Vec, n: nat): (r: real)
    requires n <= |a|
    ensures r >= 0.0
  {
    if n == 0 then 0.0 else SqNorm(a, n - 1) + a[n - 1] * a[n - 1]
  }

  /** `Collections.nCopies(n, 0.0)`. */
  function Zeros(n: nat): (r: Vec)
    ensures |r| == n && forall i :: 0 <= i < n ==> r[i] == 0.0
  {
    seq(n, _ => 0.0)
  }

  /** The learning step every weight update in the source takes: `w + rate * a * b`. */
  function Adjust(w: real, rate: real, a: real, b: real): real {
    w + rate * a * b
  }

  /** Against the zero vector every dot product is zero. */
  lemma {:induction false} DotZeros(a: Vec, m: nat, n: nat)
    requires n <= |a| && n <= m
    ensures Dot(a, Zeros(m), n) == 0.0
  {
    if n > 0 {
      DotZeros(a, m, n - 1);
    }
  }

  /** Against a vector that is zero on its first n entries, Dot(a, b, n) is zero. */
  lemma {:induction false} DotZeroRight(a: Vec, b: Vec, n: nat)
    requires n <= |a| && n <= |b|
    ensures (forall i :: 0 <= i < n ==> b[i] == 0.0) ==> Dot(a, b, n) == 0.0
  {
    if n > 0 {
      DotZeroRight(a, b, n - 1);
    }
  }

  /** Only the first n entries of either vector take part in Dot(a, b, n). */
  lemma {:induction false} DotPrefix(a: Vec, b: Vec, c: Vec, n: nat)
    requires n <= |a| && n <= |b| && n <= |c|
    requires forall i :: 0 <= i < n ==> b[i] == c[i]
    ensures Dot(a, b, n) == Dot(a, c, n)
  {
    if n > 0 {
      DotPrefix(a, b, c, n - 1);
    }
  }

  /** Adding c * a[i] to every entry of b adds c * |a|^2 to the dot product with a. */
  lemma {:induction false} DotShift(a: Vec, b: Vec, b': Vec, c: real, n: nat)
    requires n <= |a| && n <= |b| && n <= |b'|
    requires forall i :: 0 <= i < n ==> b'[i] == b[i] + c * a[i]
    ensures Dot(a, b', n) == Dot(a, b, n) + c * SqNorm(a, n)
  {
    if n > 0 {
      DotShift(a, b, b', c, n - 1);
      ShiftStep(Dot(a, b, n - 1), Dot(a, b', n - 1), a[n - 1], b[n - 1], c, SqNorm(a, n - 1));
    }
  }

  /** The arithmetic of one step of DotShift. */
  lemma {:induction false} ShiftStep(d: real, d': real, x: real, y: real, c: real, s: real)
    requires d' == d + c * s
    ensures d' + x * (y + c * x) == (d + x * y) + c * (s + x * x)
  {
    assert x * (y + c * x) == x * y + c * (x * x);
    assert c * (s + x * x) == c * s + c * (x * x);
  }
}
