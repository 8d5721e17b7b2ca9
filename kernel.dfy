/** The linear kernel of the trainer: the Gram matrix X·Xᵀ of a feature
    matrix, with the small amount of vector algebra that it and the SMO
    trainer share. Vectors and matrix rows are sequences of reals. */
module Kernels {

  /** Inner product of two vectors of the same length. */
  function Dot(u: seq<real>, v: seq<real>): real
    requires |u| == |v|
  {
    if |u| == 0 then 0.0 else u[0] * v[0] + Dot(u[1..], v[1..])
  }

  /** Component-wise difference u - v. */
  function Sub(u: seq<real>, v: seq<real>): (d: seq<real>)
    requires |u| == |v|
    ensures |d| == |u|
  {
    seq(|u|, k requires 0 <= k < |u| => u[k] - v[k])
  }

  /** Every row of X has d columns. */
  predicate IsMatrix(X: seq<seq<real>>, d: nat)
  {
    forall r :: 0 <= r < |X| ==> |X[r]| == d
  }

  /** Number of columns of X (taken from the first row; 0 for no rows). */
  function Width(X: seq<seq<real>>): nat
  {
    if |X| == 0 then 0 else |X[0]|
  }

  /** X is a proper n×d matrix. */
  predicate Rectangular(X: seq<seq<real>>)
  {
    IsMatrix(X, Width(X))
  }

  /** linear_kernel(X) = X · Xᵀ: entry (i, j) is the inner product of rows i and j. */
  function LinearKernel(X: seq<seq<real>>): (K: seq<seq<real>>)
    requires Rectangular(X)
    ensures |K| == |X| && IsMatrix(K, |X|)
  {
    seq(|X|, i requires 0 <= i < |X| =>
      seq(|X|, j requires 0 <= j < |X| => Dot(X[i], X[j])))
  }

  lemma {:induction false} DotSymmetric(u: seq<real>, v: seq<real>)
    requires |u| == |v|
    ensures Dot(u, v) == Dot(v, u)
  {
    if |u| > 0 {
      DotSymmetric(u[1..], v[1..]);
    }
  }

  /** The linear kernel is a symmetric matrix. */
  lemma LinearKernelSymmetric(X: seq<seq<real>>, i: nat, j: nat)
    requires Rectangular(X) && i < |X| && j < |X|
    ensures LinearKernel(X)[i][j] == LinearKernel(X)[j][i]
  {
    DotSymmetric(X[i], X[j]);
  }

  /** A squared norm is never negative. */
  lemma {:induction false} SquaredNormNonNegative(u: seq<real>)
    ensures Dot(u, u) >= 0.0
  {
    if |u| > 0 {
      SquaredNormNonNegative(u[1..]);
      if u[0] < 0.0 {
        assert u[0] * u[0] == (-u[0]) * (-u[0]);
      }
    }
  }

  /** The inner product is linear in a difference: (u − v) · w == u · w − v · w. */
  lemma {:induction false} DotSub(u: seq<real>, v: seq<real>, w: seq<real>)
    requires |u| == |v| == |w|
    ensures Dot(Sub(u, v), w) == Dot(u, w) - Dot(v, w)
  {
    if |u| > 0 {
      var d := Sub(u, v);
      assert d[1..] == Sub(u[1..], v[1..]);
      DotSub(u[1..], v[1..], w[1..]);
      assert d[0] * w[0] == u[0] * w[0] - v[0] * w[0];
    }
  }

  /** 2·u·v − u·u − v·v == −‖u − v‖². */
  lemma DotExpansion(u: seq<real>, v: seq<real>)
    requires |u| == |v|
    ensures 2.0 * Dot(u, v) - Dot(u, u) - Dot(v, v) == -Dot(Sub(u, v), Sub(u, v))
  {
    var d := Sub(u, v);
    DotSub(u, v, d);
    DotSymmetric(u, d);
    DotSymmetric(v, d);
    DotSub(u, v, u);
    DotSub(u, v, v);
    DotSymmetric(u, v);
  }

  /** On the linear kernel the SMO curvature eta = 2K[i][j] − K[i][i] − K[j][j]
      is minus the squared distance of the two examples, so it is never positive. */
  lemma LinearKernelEta(X: seq<seq<real>>, i: nat, j: nat)
    requires Rectangular(X) && i < |X| && j < |X|
    ensures var K := LinearKernel(X);
      2.0 * K[i][j] - K[i][i] - K[j][j] == -Dot(Sub(X[i], X[j]), Sub(X[i], X[j]))
    ensures var K := LinearKernel(X);
      2.0 * K[i][j] - K[i][i] - K[j][j] <= 0.0
  {
    DotExpansion(X[i], X[j]);
    SquaredNormNonNegative(Sub(X[i], X[j]));
  }

  /** Changing one coordinate of u changes u·w by the change times w's coordinate. */
  lemma {:induction false} DotUpdate(u: seq<real>, w: seq<real>, k: nat, x: real)
    requires |u| == |w| && k < |u|
    ensures Dot(u[k := x], w) == Dot(u, w) + (x - u[k]) * w[k]
  {
    if k == 0 {
      assert u[k := x][1..] == u[1..];
    } else {
      assert u[k := x][1..] == u[1..][k - 1 := x];
      DotUpdate(u[1..], w[1..], k - 1, x);
    }
  }

  /** Component-wise product. */
  function Times(u: seq<real>, v: seq<real>): (w: seq<real>)
    requires |u| == |v|
    ensures |w| == |u|
  {
    seq(|u|, k requires 0 <= k < |u| => u[k] * v[k])
  }

  lemma TimesTail(u: seq<real>, v: seq<real>)
    requires |u| == |v| > 0
    ensures Times(u, v)[0] == u[0] * v[0] && Times(u, v)[1..] == Times(u[1..], v[1..])
  {
    var w, t := Times(u, v)[1..], Times(u[1..], v[1..]);
    forall k | 0 <= k < |w| ensures w[k] == t[k] {
      assert w[k] == u[k + 1] * v[k + 1];
    }
  }

  /** a · (y ⊙ g) == (a ⊙ y) · g. */
  lemma {:induction false} DotTimesShift(a: seq<real>, y: seq<real>, g: seq<real>)
    requires |a| == |y| == |g|
    ensures Dot(a, Times(y, g)) == Dot(Times(a, y), g)
  {
    if |a| > 0 {
      DotTimesShift(a[1..], y[1..], g[1..]);
      TimesTail(y, g);
      TimesTail(a, y);
      var r := Dot(a[1..], Times(y[1..], g[1..]));
      assert a[0] * (y[0] * g[0]) == (a[0] * y[0]) * g[0];
      assert Dot(a, Times(y, g)) == a[0] * (y[0] * g[0]) + r;
      assert Dot(Times(a, y), g) == (a[0] * y[0]) * g[0] + r;
    }
  }

  /** Component-wise sum and scalar multiple. */
  function Add(u: seq<real>, v: seq<real>): (r: seq<real>)
    requires |u| == |v|
    ensures |r| == |u|
  {
    seq(|u|, k requires 0 <= k < |u| => u[k] + v[k])
  }

  function Scale(c: real, u: seq<real>): (r: seq<real>)
    ensures |r| == |u|
  {
    seq(|u|, k requires 0 <= k < |u| => c * u[k])
  }

  lemma {:induction false} DotAdd(u: seq<real>, v: seq<real>, x: seq<real>)
    requires |u| == |v| == |x|
    ensures Dot(Add(u, v), x) == Dot(u, x) + Dot(v, x)
  {
    if |u| > 0 {
      assert Add(u, v)[1..] == Add(u[1..], v[1..]);
      DotAdd(u[1..], v[1..], x[1..]);
    }
  }

  lemma {:induction false} DotScale(c: real, u: seq<real>, x: seq<real>)
    requires |u| == |x|
    ensures Dot(Scale(c, u), x) == c * Dot(u, x)
  {
    if |u| > 0 {
      assert Scale(c, u)[1..] == Scale(c, u[1..]) by {
        forall k | 0 <= k < |u| - 1 ensures Scale(c, u)[1..][k] == Scale(c, u[1..])[k] {
        }
      }
      DotScale(c, u[1..], x[1..]);
    }
  }

  lemma {:induction false} DotZero(u: seq<real>, x: seq<real>)
    requires |u| == |x|
    requires forall k :: 0 <= k < |u| ==> u[k] == 0.0
    ensures Dot(u, x) == 0.0
  {
    if |u| > 0 {
      DotZero(u[1..], x[1..]);
    }
  }
}
