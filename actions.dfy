/** The continuum-limit fit of the analysis actions: a weighted linear
    least-squares fit of values measured at several lattice sizes `L`, with
    the pseudo-inverse of the weighted design matrix as an input (the
    library's singular value decomposition is not modelled), plus the explicit
    pseudo-inverse of the straight-line basis `{1, x}` and the closed-form
    intercept error the extrapolation checks against. */
module Actions {
  import opened Wrappers
  import opened RealSums
  import opened Elementary
  import opened Builtins

  // ---------------------------------------------------------------------
  // Vector algebra

  /** One entry of a matrix product: a row times a column. */
  function Times(row: seq<real>, col: seq<real>): real
    requires |row| == |col|
  {
    Dot(row, col)
  }

  /** The sum of the entries of a column. */
  function Total(col: seq<real>): real
  {
    Sum(col)
  }

  /** `[1] * n`. */
  function Ones(n: nat): (o: seq<real>)
    ensures |o| == n && forall j :: 0 <= j < n ==> o[j] == 1.0
  {
    seq(n, j requires 0 <= j < n => 1.0)
  }

  /** Entry-wise product. */
  function Hadamard(a: seq<real>, b: seq<real>): (c: seq<real>)
    requires |a| == |b|
    ensures |c| == |a| && forall j :: 0 <= j < |a| ==> c[j] == a[j] * b[j]
  {
    seq(|a|, j requires 0 <= j < |a| => a[j] * b[j])
  }

  /** Entry-wise square (`np.array(m) ** 2`; for the diagonal weight matrix
      the matrix power `W ** 2` squares the diagonal the same way). */
  function Squares(a: seq<real>): (s: seq<real>)
    ensures |s| == |a| && forall j :: 0 <= j < |a| ==> s[j] == a[j] * a[j]
  {
    seq(|a|, j requires 0 <= j < |a| => a[j] * a[j])
  }

  /** Every row of `m` has length `n`. */
  predicate Rows(m: seq<seq<real>>, n: nat)
  {
    forall k :: 0 <= k < |m| ==> |m[k]| == n
  }

  /** `alpha = finv * W * F` for the diagonal weight matrix `W = diag(w)`:
      `alpha[k] = sum_j finv[k][j] * w[j] * F[j]`. */
  function Alpha(finv: seq<seq<real>>, w: seq<real>, F: seq<real>): (alpha: seq<real>)
    requires |w| == |F| && Rows(finv, |F|)
    ensures |alpha| == |finv|
  {
    seq(|finv|, k requires 0 <= k < |finv| => Times(finv[k], Hadamard(w, F)))
  }

  /** `delta = finv**2 * W**2 * deltasq`, entry-wise squares of the
      pseudo-inverse: `delta[k] = sum_j finv[k][j]^2 * w[j]^2 * deltasq[j]`. */
  function Propagated(finv: seq<seq<real>>, w: seq<real>, deltasq: seq<real>): (delta: seq<real>)
    requires |w| == |deltasq| && Rows(finv, |deltasq|)
    ensures |delta| == |finv|
  {
    seq(|finv|, k requires 0 <= k < |finv| => Times(Squares(finv[k]), Hadamard(Squares(w), deltasq)))
  }

  /** `f * alpha`: the fitted value of every row. */
  function Fitted(f: seq<seq<real>>, alpha: seq<real>): (y: seq<real>)
    requires Rows(f, |alpha|)
    ensures |y| == |f|
  {
    seq(|f|, j requires 0 <= j < |f| => Times(f[j], alpha))
  }

  /** `f * alpha - F`. */
  function Deviation(f: seq<seq<real>>, alpha: seq<real>, F: seq<real>): (d: seq<real>)
    requires Rows(f, |alpha|) && |f| == |F|
    ensures |d| == |F|
  {
    seq(|F|, j requires 0 <= j < |F| => Fitted(f, alpha)[j] - F[j])
  }

  /** The squared Euclidean norm of `f * alpha - F`. */
  function ResidualSquare(f: seq<seq<real>>, alpha: seq<real>, F: seq<real>): real
    requires Rows(f, |alpha|) && |f| == |F|
  {
    var d := Deviation(f, alpha, F);
    Times(d, d)
  }

  lemma {:induction false} DotNonNegative(a: seq<real>, b: seq<real>)
    requires |a| == |b|
    requires forall j :: 0 <= j < |a| ==> a[j] >= 0.0 && b[j] >= 0.0
    ensures Dot(a, b) >= 0.0
  {
    if a != [] {
      DotNonNegative(a[1..], b[1..]);
      ProductNonNegative(a[0], b[0]);
    }
  }

  lemma {:induction false} ProductNonNegative(x: real, y: real)
    requires x >= 0.0 && y >= 0.0
    ensures x * y >= 0.0
  {
  }

  /** Every propagated variance is non-negative when the input variances
      are, whatever the pseudo-inverse and the weights. */
  lemma {:induction false} PropagatedNonNegative(finv: seq<seq<real>>, w: seq<real>, deltasq: seq<real>)
    requires |w| == |deltasq| && Rows(finv, |deltasq|)
    requires forall j :: 0 <= j < |deltasq| ==> deltasq[j] >= 0.0
    ensures forall k :: 0 <= k < |finv| ==> Propagated(finv, w, deltasq)[k] >= 0.0
  {
    forall k | 0 <= k < |finv|
      ensures Propagated(finv, w, deltasq)[k] >= 0.0
    {
      var sq := Squares(finv[k]);
      var wd := Hadamard(Squares(w), deltasq);
      forall j | 0 <= j < |deltasq|
        ensures sq[j] >= 0.0 && wd[j] >= 0.0
      {
        assert finv[k][j] * finv[k][j] >= 0.0;
        assert w[j] * w[j] >= 0.0;
        ProductNonNegative(w[j] * w[j], deltasq[j]);
      }
      DotNonNegative(sq, wd);
    }
  }

  /** A sum of squares is never negative: the residual is a real norm. */
  lemma {:induction false} ResidualNonNegative(f: seq<seq<real>>, alpha: seq<real>, F: seq<real>)
    requires Rows(f, |alpha|) && |f| == |F|
    ensures ResidualSquare(f, alpha, F) >= 0.0
  {
    SquareSumNonNegative(Deviation(f, alpha, F));
  }

  lemma {:induction false} SquareSumNonNegative(d: seq<real>)
    ensures Dot(d, d) >= 0.0
  {
    if d != [] {
      SquareSumNonNegative(d[1..]);
      assert d[0] * d[0] >= 0.0;
    }
  }

  lemma {:induction false} DotOnes(u: seq<real>)
    ensures Dot(u, Ones(|u|)) == Sum(u)
  {
    if u != [] {
      assert Ones(|u|)[1..] == Ones(|u| - 1);
      DotOnes(u[1..]);
    }
  }

  lemma {:induction false} SumOnes(n: nat)
    ensures Sum(Ones(n)) == n as real
  {
    if n > 0 {
      assert Ones(n)[1..] == Ones(n - 1);
      SumOnes(n - 1);
    }
  }

  /** The sums the normal equations are made of: `1.1 = n` and `x.1 = Sx`. */
  lemma {:induction false} OnesSums(xs: seq<real>)
    ensures Total(Ones(|xs|)) == |xs| as real && Times(xs, Ones(|xs|)) == Total(xs)
  {
    DotOnes(xs);
    SumOnes(|xs|);
  }

  // ---------------------------------------------------------------------
  // The straight-line basis {1, x}

  /** The default basis of `extrapolate`: `(lambda x: 1., lambda x: x)`. */
  function DefaultBasis(): (fns: seq<real -> real>)
    ensures |fns| == 2 && forall x :: fns[0](x) == 1.0 && fns[1](x) == x
  {
    [(x: real) => 1.0, (x: real) => x]
  }

  /** The design matrix `f[j][k] = fns[k](L_j)`. */
  function Design(fns: seq<real -> real>, Ls: seq<real>): (f: seq<seq<real>>)
    ensures |f| == |Ls| && Rows(f, |fns|)
    ensures forall j, k :: 0 <= j < |Ls| && 0 <= k < |fns| ==> f[j][k] == fns[k](Ls[j])
  {
    seq(|Ls|, j requires 0 <= j < |Ls| => seq(|fns|, k requires 0 <= k < |fns| => fns[k](Ls[j])))
  }

  /** `n * Sxx - Sx^2`, the determinant of `f^T f` for the basis `{1, x}`. */
  function Det(xs: seq<real>): real
  {
    (|xs| as real) * Times(xs, xs) - Total(xs) * Total(xs)
  }

  /** The row `j |-> a + b * x_j`. */
  function Affine(a: real, b: real, xs: seq<real>): (row: seq<real>)
    ensures |row| == |xs|
  {
    seq(|xs|, j requires 0 <= j < |xs| => a + b * xs[j])
  }

  lemma {:induction false} AffineAt(a: real, b: real, xs: seq<real>, j: nat)
    requires j < |xs|
    ensures Affine(a, b, xs)[j] == a + b * xs[j]
  {
  }

  lemma {:induction false} AffineTail(a: real, b: real, xs: seq<real>)
    requires xs != []
    ensures Affine(a, b, xs)[1..] == Affine(a, b, xs[1..])
  {
    var row := Affine(a, b, xs);
    var tail := Affine(a, b, xs[1..]);
    forall j | 0 <= j < |tail|
      ensures row[1..][j] == tail[j]
    {
      AffineAt(a, b, xs, j + 1);
      AffineAt(a, b, xs[1..], j);
    }
  }

  /** One step of `DotAffine`, on plain numbers. */
  lemma {:induction false} AffineStep(x: real, r0: real, t: real, a: real, b: real, x0: real, y0: real,
                   s: real, d: real, s1: real, d1: real)
    requires x == r0 * y0 + t
    requires r0 == a + b * x0 && t == a * s1 + b * d1
    requires s == y0 + s1 && d == x0 * y0 + d1
    ensures x == a * s + b * d
  {
  }

  lemma {:induction false} DotAffine(a: real, b: real, xs: seq<real>, ys: seq<real>)
    requires |xs| == |ys|
    ensures Dot(Affine(a, b, xs), ys) == a * Sum(ys) + b * Dot(xs, ys)
  {
    if xs != [] {
      DotAffine(a, b, xs[1..], ys[1..]);
      DotAffineStep(a, b, xs, ys);
    }
  }

  /** The inductive step of `DotAffine`: the first term joins the rest. */
  lemma {:induction false} DotAffineStep(a: real, b: real, xs: seq<real>, ys: seq<real>)
    requires |xs| == |ys| && xs != []
    requires Dot(Affine(a, b, xs[1..]), ys[1..]) == a * Sum(ys[1..]) + b * Dot(xs[1..], ys[1..])
    ensures Dot(Affine(a, b, xs), ys) == a * Sum(ys) + b * Dot(xs, ys)
  {
    var row := Affine(a, b, xs);
    AffineTail(a, b, xs);
    AffineAt(a, b, xs, 0);
    AffineStep(Dot(row, ys), row[0], Dot(row[1..], ys[1..]), a, b, xs[0], ys[0],
               Sum(ys), Dot(xs, ys), Sum(ys[1..]), Dot(xs[1..], ys[1..]));
  }

  /** A row of the form `a + b x` times any column `y` is
      `a * sum(y) + b * (x . y)`. */
  lemma {:induction false} TimesAffine(row: seq<real>, a: real, b: real, xs: seq<real>, ys: seq<real>)
    requires |xs| == |ys| && row == Affine(a, b, xs)
    ensures Times(row, ys) == a * Total(ys) + b * Times(xs, ys)
  {
    DotAffine(a, b, xs, ys);
  }

  /** The pseudo-inverse `(f^T f)^-1 f^T` of the design matrix with rows
      `(1, x_j)`, worked out: row 0 is `(Sxx - Sx x_j) / D`, row 1 is
      `(n x_j - Sx) / D`, with `D = n Sxx - Sx^2`. */
  function LinePinv(xs: seq<real>): (p: seq<seq<real>>)
    requires Det(xs) != 0.0
    ensures |p| == 2 && Rows(p, |xs|)
  {
    var n := |xs| as real;
    var D := Det(xs);
    [Affine(Times(xs, xs) / D, -Total(xs) / D, xs), Affine(-Total(xs) / D, n / D, xs)]
  }

  lemma {:induction false} Fraction(p: real, q: real, D: real)
    requires D != 0.0
    ensures (p / D) * q == (p * q) / D
  {
  }

  lemma {:induction false} AddFractions(p: real, q: real, D: real)
    requires D != 0.0
    ensures p / D + q / D == (p + q) / D
  {
  }

  /** One entry of a row `(a, b) / D` times a column `(s, d)`. */
  lemma {:induction false} Entry(x: real, a: real, s: real, b: real, d: real, D: real, v: real)
    requires D != 0.0 && x == (a / D) * s + (b / D) * d && a * s + b * d == v
    ensures x == v / D
  {
    Fraction(a, s, D);
    Fraction(b, d, D);
    AddFractions(a * s, b * d, D);
  }

  /** The entries of `(f^T f)^-1 (f^T f)` on plain numbers, with
      `D = n Sxx - Sx^2 != 0`: the row `(Sxx, -Sx) / D` times the columns
      `(n, Sx)` and `(Sx, Sxx)` gives `1` and `0` ... */
  lemma {:induction false} FirstOnes(x: real, p: real, q: real, n: real, sx: real, sxx: real, D: real)
    requires D == n * sxx - sx * sx
    requires D != 0.0
    requires p == sxx / D
    requires q == -sx / D
    requires x == p * n + q * sx
    ensures x == 1.0
  {
    Entry(x, sxx, n, -sx, sx, D, D);
  }

  lemma {:induction false} FirstX(x: real, p: real, q: real, sx: real, sxx: real, D: real)
    requires D != 0.0
    requires p == sxx / D && q == -sx / D && x == p * sx + q * sxx
    ensures x == 0.0
  {
    Entry(x, sxx, sx, -sx, sxx, D, 0.0);
  }

  /** ... and the row `(-Sx, n) / D` gives `0` and `1`. */
  lemma {:induction false} SecondOnes(x: real, p: real, q: real, n: real, sx: real, D: real)
    requires D != 0.0
    requires p == -sx / D && q == n / D && x == p * n + q * sx
    ensures x == 0.0
  {
    Entry(x, -sx, n, n, sx, D, 0.0);
  }

  lemma {:induction false} SecondX(x: real, p: real, q: real, n: real, sx: real, sxx: real, D: real)
    requires D == n * sxx - sx * sx && D != 0.0
    requires p == -sx / D && q == n / D && x == p * sx + q * sxx
    ensures x == 1.0
  {
    Entry(x, -sx, sx, n, sxx, D, D);
  }

  /** A row `a + b x` times the two columns of the design matrix. */
  lemma {:induction false} AffineColumns(row: seq<real>, a: real, b: real, xs: seq<real>)
    requires row == Affine(a, b, xs)
    ensures Times(row, Ones(|xs|)) == a * (|xs| as real) + b * Total(xs)
    ensures Times(row, xs) == a * Total(xs) + b * Times(xs, xs)
  {
    OnesSums(xs);
    TimesAffine(row, a, b, xs, Ones(|xs|));
    TimesAffine(row, a, b, xs, xs);
  }

  /** Row 0 of the pseudo-inverse, `(Sxx - Sx x_j) / D`, times the columns
      `1` and `x` of the design matrix gives `1` and `0`. */
  lemma {:induction false} FirstRow(xs: seq<real>, n: real, sx: real, sxx: real, D: real)
    requires n == |xs| as real && sx == Total(xs) && sxx == Times(xs, xs)
    requires D == n * sxx - sx * sx && D != 0.0
    ensures Times(Affine(sxx / D, -sx / D, xs), Ones(|xs|)) == 1.0
    ensures Times(Affine(sxx / D, -sx / D, xs), xs) == 0.0
  {
    var p, q := sxx / D, -sx / D;
    var row := Affine(p, q, xs);
    AffineColumns(row, p, q, xs);
    FirstOnes(Times(row, Ones(|xs|)), p, q, n, sx, sxx, D);
    FirstX(Times(row, xs), p, q, sx, sxx, D);
  }

  /** Row 1 of the pseudo-inverse, `(n x_j - Sx) / D`, times the columns
      `1` and `x` gives `0` and `1`. */
  lemma {:induction false} SecondRow(xs: seq<real>, n: real, sx: real, sxx: real, D: real)
    requires n == |xs| as real && sx == Total(xs) && sxx == Times(xs, xs)
    requires D == n * sxx - sx * sx && D != 0.0
    ensures Times(Affine(-sx / D, n / D, xs), Ones(|xs|)) == 0.0
    ensures Times(Affine(-sx / D, n / D, xs), xs) == 1.0
  {
    var p, q := -sx / D, n / D;
    var row := Affine(p, q, xs);
    AffineColumns(row, p, q, xs);
    SecondOnes(Times(row, Ones(|xs|)), p, q, n, sx, D);
    SecondX(Times(row, xs), p, q, n, sx, sxx, D);
  }

  /** `LinePinv(x)` is `(f^T f)^-1 f^T` for the design matrix `f` with the
      columns ones and `x`, which is the pseudo-inverse of `f` when `f` has
      full column rank. The lemma shows that it is a left inverse of `f`:
      times the column of ones and the column of `x` it gives the
      identity. */
  lemma {:induction false} LinePinvLeftInverse(xs: seq<real>)
    requires Det(xs) != 0.0
    ensures Times(LinePinv(xs)[0], Ones(|xs|)) == 1.0 && Times(LinePinv(xs)[0], xs) == 0.0
    ensures Times(LinePinv(xs)[1], Ones(|xs|)) == 0.0 && Times(LinePinv(xs)[1], xs) == 1.0
  {
    var n, sx, sxx, D := |xs| as real, Total(xs), Times(xs, xs), Det(xs);
    assert LinePinv(xs) == [Affine(sxx / D, -sx / D, xs), Affine(-sx / D, n / D, xs)];
    FirstRow(xs, n, sx, sxx, D);
    SecondRow(xs, n, sx, sxx, D);
  }

  // ---------------------------------------------------------------------
  // Exact data: a straight line is reproduced

  lemma {:induction false} DotSymmetric(a: seq<real>, b: seq<real>)
    requires |a| == |b|
    ensures Dot(a, b) == Dot(b, a)
  {
    if a != [] {
      DotSymmetric(a[1..], b[1..]);
      assert a[0] * b[0] == b[0] * a[0];
    }
  }

  lemma {:induction false} HadamardOnes(v: seq<real>)
    ensures Hadamard(Ones(|v|), v) == v
  {
  }

  lemma {:induction false} SquaresOnes(n: nat)
    ensures Squares(Ones(n)) == Ones(n)
  {
  }

  lemma {:induction false} TimesPair(r0: real, r1: real, a: real, b: real)
    ensures Times([r0, r1], [a, b]) == r0 * a + r1 * b
  {
    assert [r0, r1][1..] == [r1] && [a, b][1..] == [b];
    assert [r1][1..] == [] && [b][1..] == [];
    assert Dot([r1], [b]) == r1 * b + Dot([], []);
    assert Dot([r0, r1], [a, b]) == r0 * a + Dot([r1], [b]);
  }

  lemma {:induction false} DotZero(d: seq<real>)
    requires forall j :: 0 <= j < |d| ==> d[j] == 0.0
    ensures Dot(d, d) == 0.0
  {
    if d != [] {
      DotZero(d[1..]);
    }
  }

  /** `x = a t + b u` with `t = 1, u = 0` is `a` ... */
  lemma {:induction false} PickFirst(x: real, a: real, t: real, b: real, u: real)
    requires x == a * t + b * u && t == 1.0 && u == 0.0
    ensures x == a
  {
  }

  /** ... and with `t = 0, u = 1` it is `b`. */
  lemma {:induction false} PickSecond(x: real, a: real, t: real, b: real, u: real)
    requires x == a * t + b * u && t == 0.0 && u == 1.0
    ensures x == b
  {
  }

  /** Row `k` of the pseudo-inverse times an exact line `a + b x`, as
      `a * (row . 1) + b * (row . x)`. */
  lemma {:induction false} RowTimesLine(p: seq<real>, a: real, b: real, xs: seq<real>)
    requires |p| == |xs|
    ensures Times(p, Affine(a, b, xs)) == a * Times(p, Ones(|xs|)) + b * Times(p, xs)
  {
    DotSymmetric(p, Affine(a, b, xs));
    TimesAffine(Affine(a, b, xs), a, b, xs, p);
    DotOnes(p);
    DotSymmetric(xs, p);
  }

  lemma {:induction false} ExactIntercept(xs: seq<real>, a: real, b: real)
    requires Det(xs) != 0.0
    ensures Alpha(LinePinv(xs), Ones(|xs|), Affine(a, b, xs))[0] == a
  {
    HadamardOnes(Affine(a, b, xs));
    RowTimesLine(LinePinv(xs)[0], a, b, xs);
    LinePinvLeftInverse(xs);
    PickFirst(Times(LinePinv(xs)[0], Affine(a, b, xs)), a, Times(LinePinv(xs)[0], Ones(|xs|)),
              b, Times(LinePinv(xs)[0], xs));
  }

  lemma {:induction false} ExactSlope(xs: seq<real>, a: real, b: real)
    requires Det(xs) != 0.0
    ensures Alpha(LinePinv(xs), Ones(|xs|), Affine(a, b, xs))[1] == b
  {
    HadamardOnes(Affine(a, b, xs));
    RowTimesLine(LinePinv(xs)[1], a, b, xs);
    LinePinvLeftInverse(xs);
    PickSecond(Times(LinePinv(xs)[1], Affine(a, b, xs)), a, Times(LinePinv(xs)[1], Ones(|xs|)),
               b, Times(LinePinv(xs)[1], xs));
  }

  lemma {:induction false} ExactResidual(xs: seq<real>, a: real, b: real)
    ensures ResidualSquare(Design(DefaultBasis(), xs), [a, b], Affine(a, b, xs)) == 0.0
  {
    var f := Design(DefaultBasis(), xs);
    var d := Deviation(f, [a, b], Affine(a, b, xs));
    forall j | 0 <= j < |xs|
      ensures d[j] == 0.0
    {
      assert f[j] == [1.0, xs[j]];
      TimesPair(1.0, xs[j], a, b);
      assert Fitted(f, [a, b])[j] == Times(f[j], [a, b]) == 1.0 * a + xs[j] * b;
      AffineAt(a, b, xs, j);
      assert d[j] == Fitted(f, [a, b])[j] - Affine(a, b, xs)[j];
    }
    DotZero(d);
  }

  /** Unweighted data lying exactly on a line `a + b x` (with at least two
      distinct `x`, so that `D != 0`) is fitted exactly by the basis
      `{1, x}`: the coefficients are `a` and `b` and the residual is zero. */
  lemma {:induction false} ExactLine(xs: seq<real>, a: real, b: real)
    requires Det(xs) != 0.0
    ensures Alpha(LinePinv(xs), Ones(|xs|), Affine(a, b, xs)) == [a, b]
    ensures ResidualSquare(Design(DefaultBasis(), xs), [a, b], Affine(a, b, xs)) == 0.0
  {
    ExactIntercept(xs, a, b);
    ExactSlope(xs, a, b);
    ExactResidual(xs, a, b);
  }

  // ---------------------------------------------------------------------
  // Input points

  /** A data point: an object carrying a value `loop` and a squared error
      `esq`, or any other value, which is used as it is, with variance 0
      (the `AttributeError` fallback). */
  datatype Point = Measured(loop: real, esq: real) | Plain(value: real)

  function ValueOf(p: Point): real
  {
    match p
    case Measured(loop, _) => loop
    case Plain(v) => v
  }

  function VarianceOf(p: Point): real
  {
    match p
    case Measured(_, esq) => esq
    case Plain(_) => 0.0
  }

  /** `dummy(d, e)`: a point with value `d` and variance `e * e`, which is
      never negative. */
  function Dummy(d: real, e: real): (p: Point)
    ensures ValueOf(p) == d && VarianceOf(p) == e * e && VarianceOf(p) >= 0.0
  {
    Measured(d, e * e)
  }

  /** One entry `(param, [obj])` of the input list, with `param['L']`. */
  datatype Sample = Sample(L: real, obj: Point)

  /** The lattice sizes that occur, in the order the loop meets them. */
  function Keys(points: seq<Sample>): set<real>
  {
    if points == [] then {} else Keys(points[..|points| - 1]) + {points[|points| - 1].L}
  }

  /** The dict `data` after the loop over `points`: each sample overwrites
      the entry of its `L`. */
  function Values(points: seq<Sample>): (m: map<real, real>)
    ensures m.Keys == Keys(points)
  {
    if points == [] then map[]
    else
      var p := points[|points| - 1];
      Values(points[..|points| - 1])[p.L := ValueOf(p.obj)]
  }

  /** The dict `errsq` after the same loop. */
  function Variances(points: seq<Sample>): (m: map<real, real>)
    ensures m.Keys == Keys(points)
  {
    if points == [] then map[]
    else
      var p := points[|points| - 1];
      Variances(points[..|points| - 1])[p.L := VarianceOf(p.obj)]
  }

  /** A lattice size is a key exactly when some sample carries it. */
  lemma {:induction false} KeysMembership(points: seq<Sample>, x: real)
    ensures x in Keys(points) <==> exists j :: 0 <= j < |points| && points[j].L == x
  {
    if points != [] {
      var n := |points| - 1;
      KeysMembership(points[..n], x);
      if x in Keys(points[..n]) {
        var j :| 0 <= j < n && points[..n][j].L == x;
        assert points[j].L == x;
      }
      if exists j :: 0 <= j < |points| && points[j].L == x {
        var j :| 0 <= j < |points| && points[j].L == x;
        if j < n {
          assert points[..n][j].L == x;
        }
      }
    }
  }

  /** A repeated `L` silently keeps the last sample: the entry of `L` is the
      value and the variance of the last sample that carries it. */
  lemma {:induction false} LastWins(points: seq<Sample>, j: nat)
    requires j < |points|
    requires forall k :: j < k < |points| ==> points[k].L != points[j].L
    ensures points[j].L in Values(points) && Values(points)[points[j].L] == ValueOf(points[j].obj)
    ensures points[j].L in Variances(points) && Variances(points)[points[j].L] == VarianceOf(points[j].obj)
  {
    var n := |points| - 1;
    if j < n {
      assert points[..n][j] == points[j];
      LastWins(points[..n], j);
    }
  }

  /** Strictly increasing. */
  predicate Increasing(s: seq<real>)
  {
    forall i, j :: 0 <= i < j < |s| ==> s[i] < s[j]
  }

  /** `s` with `x` put in its place, unless it is there already. */
  function Insert(s: seq<real>, x: real): (r: seq<real>)
    requires Increasing(s)
    ensures Increasing(r) && forall y :: y in r <==> y in s || y == x
  {
    if s == [] then [x]
    else if x < s[0] then [x] + s
    else if x == s[0] then s
    else
      var rest := Insert(s[1..], x);
      InsertTail(s, rest);
      [s[0]] + rest
  }

  lemma {:induction false} InsertTail(s: seq<real>, rest: seq<real>)
    requires s != [] && Increasing(s) && Increasing(rest)
    requires forall y :: y in rest ==> s[0] < y
    ensures Increasing([s[0]] + rest)
  {
    var r := [s[0]] + rest;
    forall i, j | 0 <= i < j < |r|
      ensures r[i] < r[j]
    {
      assert r[j] == rest[j - 1] && rest[j - 1] in rest;
      if i > 0 {
        assert r[i] == rest[i - 1];
      }
    }
  }

  /** `sorted(data)`: the keys the loop over `points` leaves in the dict,
      each once, in increasing order. */
  function SortedKeys(points: seq<Sample>): (r: seq<real>)
    ensures Increasing(r) && forall x :: x in r <==> x in Keys(points)
  {
    if points == [] then [] else Insert(SortedKeys(points[..|points| - 1]), points[|points| - 1].L)
  }

  /** The entries of a dict in the order of `Ls`. */
  function Column(m: map<real, real>, Ls: seq<real>): (c: seq<real>)
    requires forall j :: 0 <= j < |Ls| ==> Ls[j] in m
    ensures |c| == |Ls| && forall j :: 0 <= j < |Ls| ==> c[j] == m[Ls[j]]
  {
    seq(|Ls|, j requires 0 <= j < |Ls| => m[Ls[j]])
  }

  // ---------------------------------------------------------------------
  // The fit

  /** The two ways `estimate` stops: its `assert Imin < M`, and the shape
      error of a matrix product whose dimensions do not agree. */
  datatype FitError = AssertionFailed | ShapeMismatch

  /** The number of rows of `np.mat(f)`: an empty list still gives one
      (empty) row. */
  function RowCount(Ls: seq<real>): (m: nat)
    ensures m >= 1 && (Ls != [] ==> m == |Ls|)
  {
    if Ls == [] then 1 else |Ls|
  }

  /** `estimate(Imin)` with the pseudo-inverse `finv` of the weighted design
      matrix given. It stops at its assertion unless `Imin` is below the row
      count; the weight matrix is never sliced, so the products
      `finv * W * F[Imin:]` and `finv**2 * W**2 * deltasq[Imin:]` only have
      agreeing dimensions for `Imin = 0`, and `W * f` only when there is one
      weight per lattice size and at least one lattice size. */
  function Fit(w: seq<real>, Ls: seq<real>, F: seq<real>, deltasq: seq<real>,
               finv: seq<seq<real>>, Imin: nat): (r: Result<(seq<real>, seq<real>), FitError>)
    requires |F| == |Ls| && |deltasq| == |Ls| && Rows(finv, |Ls|)
    ensures r == Failure(AssertionFailed) <==> Imin >= RowCount(Ls)
    ensures r.Success? <==> Imin == 0 && Ls != [] && |w| == |Ls|
    ensures r.Success? ==> |r.value.0| == |finv| && |r.value.1| == |finv|
  {
    if Imin >= RowCount(Ls) then Failure(AssertionFailed)
    else if Ls == [] || |w| != |Ls| || Imin != 0 then Failure(ShapeMismatch)
    else Success((Alpha(finv, w, F), Propagated(finv, w, deltasq)))
  }

  /** A successful fit never reports a negative variance when the points'
      variances are not negative. */
  lemma {:induction false} FitVariancesNonNegative(w: seq<real>, Ls: seq<real>, F: seq<real>, deltasq: seq<real>,
                                finv: seq<seq<real>>, Imin: nat)
    requires |F| == |Ls| && |deltasq| == |Ls| && Rows(finv, |Ls|)
    requires forall j :: 0 <= j < |deltasq| ==> deltasq[j] >= 0.0
    requires Fit(w, Ls, F, deltasq, finv, Imin).Success?
    ensures forall k :: 0 <= k < |finv| ==> Fit(w, Ls, F, deltasq, finv, Imin).value.1[k] >= 0.0
  {
    PropagatedNonNegative(finv, w, deltasq);
  }

  /** The loop of `ContinuumLimit.__init__` that fills the dicts `data` and
      `errsq`, one sample at a time: a point with `loop` and `esq` gives
      those, any other point gives itself and variance 0. */
  method Tabulate(points: seq<Sample>) returns (data: map<real, real>, errsq: map<real, real>)
    ensures data == Values(points) && errsq == Variances(points)
  {
    data := map[];
    errsq := map[];
    var i := 0;
    while i < |points|
      invariant 0 <= i <= |points|
      invariant data == Values(points[..i]) && errsq == Variances(points[..i])
    {
      var s := points[i];
      match s.obj {
        case Measured(loop, esq) =>
          data := data[s.L := loop];
          errsq := errsq[s.L := esq];
        case Plain(v) =>
          data := data[s.L := v];
          errsq := errsq[s.L := 0.0];
      }
      assert points[..i + 1][..i] == points[..i];
      i := i + 1;
    }
    assert points[..i] == points;
  }

  /** `ContinuumLimit`: the weights, the lattice sizes in increasing order,
      and in the same order the values `F`, the variances `deltasq` and the
      design matrix `f`; `residual` is absent until a fit succeeds. */
  class ContinuumLimit {
    var w: seq<real>
    var Ls: seq<real>
    var F: seq<real>
    var deltasq: seq<real>
    var f: seq<seq<real>>
    var residual: Option<real>

    /** Row `j` of `F`, `deltasq` and `f` all belong to `Ls[j]`. */
    predicate Valid()
      reads this
    {
      |F| == |Ls| && |deltasq| == |Ls| && |f| == |Ls|
    }

    /** `ContinuumLimit(data_in, fns, wij=wij)`; an empty `wij` stands for
        "not given". */
    constructor (points: seq<Sample>, fns: seq<real -> real>, wij: seq<real>)
      requires wij == [] || |wij| == |points|
      ensures Valid()
      ensures w == (if wij == [] then Ones(|points|) else wij)
      ensures Ls == SortedKeys(points)
      ensures F == Column(Values(points), Ls) && deltasq == Column(Variances(points), Ls)
      ensures f == Design(fns, Ls) && Rows(f, |fns|)
      ensures residual == None
    {
      var data, errsq := Tabulate(points);
      var keys := SortedKeys(points);
      w := if wij == [] then Ones(|points|) else wij;
      Ls := keys;
      F := Column(data, keys);
      deltasq := Column(errsq, keys);
      f := Design(fns, keys);
      residual := None;
    }

    /** `estimate(Imin)`, given the pseudo-inverse `finv` (one row per basis
        function, one column per lattice size) the singular value
        decomposition would produce. On success the coefficients and their
        variances are those of `Fit`, and `residual` becomes the Euclidean
        norm of `f * alpha - F`; on failure nothing changes. */
    method Estimate(e: Funcs, Imin: nat, finv: seq<seq<real>>)
      returns (r: Result<(seq<real>, seq<real>), FitError>)
      requires Valid() && Rows(finv, |Ls|) && Rows(f, |finv|)
      modifies this`residual
      ensures r == Fit(w, Ls, F, deltasq, finv, Imin)
      ensures r.Success? ==> r.value.0 == Alpha(finv, w, F) && r.value.1 == Propagated(finv, w, deltasq)
      ensures r.Success? ==> residual == Some(e.sqrt(ResidualSquare(f, r.value.0, F)))
      ensures r.Failure? ==> residual == old(residual)
    {
      r := Fit(w, Ls, F, deltasq, finv, Imin);
      if r.Success? {
        residual := Some(e.sqrt(ResidualSquare(f, r.value.0, F)));
      }
    }
  }

  /** `ContinuumLimit(data_in, fns, wij=wij)` together with its
      `assert len(wij) == len(data_in)`: a weight list of another length
      fails with `AssertionFailed` before any field is set; otherwise the
      new object is the one the constructor builds. */
  method NewContinuumLimit(points: seq<Sample>, fns: seq<real -> real>, wij: seq<real>)
    returns (r: Result<ContinuumLimit, FitError>)
    ensures r.Failure? <==> wij != [] && |wij| != |points|
    ensures r.Failure? ==> r.error == AssertionFailed
    ensures r.Success? ==> fresh(r.value) && r.value.Valid() && r.value.residual == None
    ensures r.Success? ==> r.value.w == (if wij == [] then Ones(|points|) else wij)
    ensures r.Success? ==> r.value.Ls == SortedKeys(points)
    ensures r.Success? ==> r.value.F == Column(Values(points), r.value.Ls)
    ensures r.Success? ==> r.value.deltasq == Column(Variances(points), r.value.Ls)
    ensures r.Success? ==> r.value.f == Design(fns, r.value.Ls) && Rows(r.value.f, |fns|)
  {
    if wij != [] && |wij| != |points| {
      return Failure(AssertionFailed);
    }
    var cl := new ContinuumLimit(points, fns, wij);
    return Success(cl);
  }

  /** `zip(xdata, ydata, yerr)` turned into samples `({'L': x}, [dummy(y, d)])`;
      `zip` stops at the shortest list. */
  function Zip(xs: seq<real>, ys: seq<real>, dys: seq<real>): (pts: seq<Sample>)
    ensures |pts| <= |xs| && |pts| <= |ys| && |pts| <= |dys|
    ensures |pts| == |xs| || |pts| == |ys| || |pts| == |dys|
    ensures forall j :: 0 <= j < |pts| ==> pts[j] == Sample(xs[j], Dummy(ys[j], dys[j]))
  {
    if xs == [] || ys == [] || dys == [] then []
    else [Sample(xs[0], Dummy(ys[0], dys[0]))] + Zip(xs[1..], ys[1..], dys[1..])
  }

  /** `extrapolate_cl(f, xdata, ydata, yerr)`: an unweighted fit of the
      zipped points with basis `fns`, from the first lattice size on. */
  method ExtrapolateCl(e: Funcs, fns: seq<real -> real>, xs: seq<real>, ys: seq<real>, dys: seq<real>,
                       finv: seq<seq<real>>)
    returns (r: Result<(seq<real>, seq<real>), FitError>)
    requires |finv| == |fns| && Rows(finv, |SortedKeys(Zip(xs, ys, dys))|)
    ensures var pts := Zip(xs, ys, dys);
            var Ls := SortedKeys(pts);
            r == Fit(Ones(|pts|), Ls, Column(Values(pts), Ls), Column(Variances(pts), Ls), finv, 0)
  {
    var cl := new ContinuumLimit(Zip(xs, ys, dys), fns, []);
    r := cl.Estimate(e, 0, finv);
  }

  // ---------------------------------------------------------------------
  // The closed-form intercept error

  function Square(x: real): real
  {
    x * x
  }

  /** `(Sxx - Sx x) / D`: the weight of the point at `x` in the intercept. */
  function Coefficient(sx: real, sxx: real, D: real, x: real): real
    requires D != 0.0
  {
    (sxx - sx * x) / D
  }

  /** `sum_i ((Sxx - Sx x_i) / D)^2 dy_i^2`. */
  function InterceptTerms(xs: seq<real>, dys: seq<real>, sx: real, sxx: real, D: real): real
    requires |xs| == |dys| && D != 0.0
  {
    if xs == [] then 0.0
    else Square(Coefficient(sx, sxx, D, xs[0])) * Square(dys[0]) + InterceptTerms(xs[1..], dys[1..], sx, sxx, D)
  }

  /** The term of the point at `x` in the intercept's variance: its squared
      coefficient times its variance in `V`. */
  function Weighted(V: map<real, real>, sx: real, sxx: real, D: real, x: real): real
    requires D != 0.0
  {
    Square(Coefficient(sx, sxx, D, x)) * (if x in V then V[x] else 0.0)
  }

  lemma {:induction false} WeightedAt(V: map<real, real>, sx: real, sxx: real, D: real, x: real, v: real)
    requires D != 0.0 && x in V && V[x] == v
    ensures Weighted(V, sx, sxx, D, x) == Square(Coefficient(sx, sxx, D, x)) * v
  {
  }

  lemma {:induction false} ProductOfEquals(a: real, b: real, c: real, d: real)
    requires a == c && b == d
    ensures a * b == c * d
  {
  }

  /** The closed-form variance of the intercept of a straight-line fit,
      with the determinant `D = n Sxx - Sx^2` of the normal equations. */
  function ClosedForm(xs: seq<real>, dys: seq<real>): real
    requires |xs| == |dys| && Det(xs) != 0.0
  {
    InterceptTerms(xs, dys, Total(xs), Times(xs, xs), Det(xs))
  }

  /** The same sum as the extrapolation writes it, with `3 Sxx - Sx^2` in
      place of the determinant whatever the number of points. */
  function ClosedFormAsWritten(xs: seq<real>, dys: seq<real>): real
    requires |xs| == |dys| && 3.0 * Times(xs, xs) - Total(xs) * Total(xs) != 0.0
  {
    InterceptTerms(xs, dys, Total(xs), Times(xs, xs), 3.0 * Times(xs, xs) - Total(xs) * Total(xs))
  }

  /** With exactly three points the hard-coded 3 is the point count, and the
      two agree. */
  lemma {:induction false} AsWrittenForThree(xs: seq<real>, dys: seq<real>)
    requires |xs| == 3 && |dys| == 3 && Det(xs) != 0.0
    ensures 3.0 * Times(xs, xs) - Total(xs) * Total(xs) != 0.0
    ensures ClosedFormAsWritten(xs, dys) == ClosedForm(xs, dys)
  {
    assert |xs| as real == 3.0;
  }

  lemma {:induction false} TwoTerms(x0: real, x1: real, d0: real, d1: real, sx: real, sxx: real, D: real)
    requires D != 0.0
    ensures InterceptTerms([x0, x1], [d0, d1], sx, sxx, D)
         == Square(Coefficient(sx, sxx, D, x0)) * Square(d0) + Square(Coefficient(sx, sxx, D, x1)) * Square(d1)
  {
    assert [x0, x1][1..] == [x1] && [d0, d1][1..] == [d1];
    assert [x1][1..] == [] && [d1][1..] == [];
    assert InterceptTerms([x1], [d1], sx, sxx, D)
        == Square(Coefficient(sx, sxx, D, x1)) * Square(d1) + InterceptTerms([], [], sx, sxx, D);
  }

  lemma {:induction false} TwoPointSums()
    ensures Total([1.0, 2.0]) == 3.0 && Times([1.0, 2.0], [1.0, 2.0]) == 5.0 && Det([1.0, 2.0]) == 1.0
  {
    TimesPair(1.0, 2.0, 1.0, 2.0);
    assert [1.0, 2.0][1..] == [2.0] && [2.0][1..] == [];
  }

  /** With two points at `x = 1, 2`, both with error 1, the closed form gives
      5 but the expression as written gives 5/36. */
  lemma {:induction false} AsWrittenMismatch()
    ensures Det([1.0, 2.0]) == 1.0 && ClosedForm([1.0, 2.0], [1.0, 1.0]) == 5.0
    ensures 3.0 * Times([1.0, 2.0], [1.0, 2.0]) - Total([1.0, 2.0]) * Total([1.0, 2.0]) == 6.0
    ensures ClosedFormAsWritten([1.0, 2.0], [1.0, 1.0]) == 5.0 / 36.0
  {
    TwoPointSums();
    TwoTerms(1.0, 2.0, 1.0, 1.0, 3.0, 5.0, 1.0);
    TwoTerms(1.0, 2.0, 1.0, 1.0, 3.0, 5.0, 6.0);
    assert Coefficient(3.0, 5.0, 1.0, 1.0) == 2.0;
    assert Coefficient(3.0, 5.0, 1.0, 2.0) == -1.0;
    assert Coefficient(3.0, 5.0, 6.0, 1.0) == 2.0 / 6.0;
    assert Coefficient(3.0, 5.0, 6.0, 2.0) == -1.0 / 6.0;
  }

  /** No value occurs twice. */
  predicate Distinct(s: seq<real>)
  {
    forall i, j :: 0 <= i < j < |s| ==> s[i] != s[j]
  }

  lemma {:induction false} DistinctCount(a: seq<real>, x: real)
    requires Distinct(a)
    ensures multiset(a)[x] == if x in a then 1 else 0
  {
    if a != [] {
      assert a == [a[0]] + a[1..];
      assert a[0] !in a[1..];
      DistinctCount(a[1..], x);
    }
  }

  /** Two sequences without repetitions and with the same elements are
      permutations of each other. */
  lemma {:induction false} SameElements(a: seq<real>, b: seq<real>)
    requires Distinct(a) && Distinct(b) && forall x :: x in a <==> x in b
    ensures multiset(a) == multiset(b)
  {
    forall x
      ensures multiset(a)[x] == multiset(b)[x]
    {
      DistinctCount(a, x);
      DistinctCount(b, x);
    }
  }

  /** For distinct `x` the lattice sizes of `extrapolate_cl` are the `x`
      values, sorted. */
  lemma {:induction false} SortedLatticeSizes(xs: seq<real>, ys: seq<real>, dys: seq<real>)
    requires |xs| == |ys| == |dys| && Distinct(xs)
    ensures multiset(SortedKeys(Zip(xs, ys, dys))) == multiset(xs)
  {
    var pts := Zip(xs, ys, dys);
    var Ls := SortedKeys(pts);
    forall x
      ensures x in Ls <==> x in xs
    {
      KeysMembership(pts, x);
      if x in xs {
        var j :| 0 <= j < |xs| && xs[j] == x;
        assert pts[j].L == x;
      }
    }
    SameElements(Ls, xs);
  }

  lemma {:induction false} SumAsSumOf(s: seq<real>)
    ensures Sum(s) == SumOf(s, x => x)
  {
    if s != [] {
      SumAsSumOf(s[1..]);
    }
  }

  lemma {:induction false} SquaresAsSumOf(s: seq<real>)
    ensures Dot(s, s) == SumOf(s, Square)
  {
    if s != [] {
      SquaresAsSumOf(s[1..]);
    }
  }

  /** The sums the straight-line fit is built from do not depend on the
      order of the points. */
  lemma {:induction false} PermutedSums(a: seq<real>, b: seq<real>)
    requires multiset(a) == multiset(b)
    ensures |a| == |b| && Total(a) == Total(b) && Times(a, a) == Times(b, b) && Det(a) == Det(b)
  {
    assert |multiset(a)| == |a| && |multiset(b)| == |b|;
    SumAsSumOf(a);
    SumAsSumOf(b);
    SumOfPermutation(a, b, x => x);
    SquaresAsSumOf(a);
    SquaresAsSumOf(b);
    SumOfPermutation(a, b, Square);
  }

  /** `a + b x` with `a = Sxx / D`, `b = -Sx / D` is `(Sxx - Sx x) / D`. */
  lemma {:induction false} CoefficientForm(c: real, sx: real, sxx: real, D: real, x: real)
    requires D != 0.0 && c == sxx / D + (-sx / D) * x
    ensures c == Coefficient(sx, sxx, D, x)
  {
    Fraction(-sx, x, D);
    AddFractions(sxx, -sx * x, D);
  }

  lemma {:induction false} DotPointwise(u: seq<real>, v: seq<real>, s: seq<real>, h: real -> real)
    requires |u| == |v| == |s|
    requires forall j :: 0 <= j < |s| ==> u[j] * v[j] == h(s[j])
    ensures Dot(u, v) == SumOf(s, h)
  {
    if s != [] {
      DotPointwise(u[1..], v[1..], s[1..], h);
    }
  }

  lemma {:induction false} TermsPointwise(xs: seq<real>, dys: seq<real>, V: map<real, real>, h: real -> real,
                                          sx: real, sxx: real, D: real)
    requires |xs| == |dys| && D != 0.0
    requires forall x :: h(x) == Weighted(V, sx, sxx, D, x)
    requires forall i :: 0 <= i < |xs| ==> xs[i] in V && V[xs[i]] == Square(dys[i])
    ensures SumOf(xs, h) == InterceptTerms(xs, dys, sx, sxx, D)
  {
    if xs != [] {
      WeightedAt(V, sx, sxx, D, xs[0], Square(dys[0]));
      TermsPointwise(xs[1..], dys[1..], V, h, sx, sxx, D);
    }
  }

  /** `p^2 . V` over the lattice sizes, as a sum of `h` when `h` gives each
      size its squared coefficient times its variance. */
  lemma {:induction false} PropagatedAsSum(p: seq<real>, Ls: seq<real>, V: map<real, real>, h: real -> real)
    requires |p| == |Ls| && forall k :: 0 <= k < |Ls| ==> Ls[k] in V
    requires TermsMatch(p, Ls, V, h)
    ensures Times(Squares(p), Column(V, Ls)) == SumOf(Ls, h)
  {
    DotPointwise(Squares(p), Column(V, Ls), Ls, h);
  }

  /** `h` gives every lattice size its squared coefficient in `p` times its
      variance. */
  predicate TermsMatch(p: seq<real>, Ls: seq<real>, V: map<real, real>, h: real -> real)
    requires |p| == |Ls| && forall k :: 0 <= k < |Ls| ==> Ls[k] in V
  {
    forall j :: 0 <= j < |Ls| ==> h(Ls[j]) == Squares(p)[j] * V[Ls[j]]
  }

  lemma {:induction false} SquareOfEqual(a: real, b: real, s: real)
    requires a == b && s == b * b
    ensures Square(a) == s
  {
  }

  /** Entry `j` of row 0 of the pseudo-inverse is `(Sxx - Sx L_j) / D`. */
  lemma {:induction false} InterceptCoefficientAt(Ls: seq<real>, j: nat)
    requires Det(Ls) != 0.0 && j < |Ls|
    ensures LinePinv(Ls)[0][j] == Coefficient(Total(Ls), Times(Ls, Ls), Det(Ls), Ls[j])
  {
    assert LinePinv(Ls)[0] == Affine(Times(Ls, Ls) / Det(Ls), -Total(Ls) / Det(Ls), Ls);
    AffineAt(Times(Ls, Ls) / Det(Ls), -Total(Ls) / Det(Ls), Ls, j);
    CoefficientForm(LinePinv(Ls)[0][j], Total(Ls), Times(Ls, Ls), Det(Ls), Ls[j]);
  }

  /** The term of `Ls[j]` is its squared coefficient in row 0 of the
      pseudo-inverse times its variance. */
  lemma {:induction false} InterceptTermAt(Ls: seq<real>, V: map<real, real>, h: real -> real, j: nat)
    requires Det(Ls) != 0.0 && j < |Ls| && Ls[j] in V
    requires h(Ls[j]) == Weighted(V, Total(Ls), Times(Ls, Ls), Det(Ls), Ls[j])
    ensures h(Ls[j]) == Squares(LinePinv(Ls)[0])[j] * V[Ls[j]]
  {
    InterceptCoefficientAt(Ls, j);
    SquareOfEqual(Coefficient(Total(Ls), Times(Ls, Ls), Det(Ls), Ls[j]), LinePinv(Ls)[0][j],
                  Squares(LinePinv(Ls)[0])[j]);
    WeightedAt(V, Total(Ls), Times(Ls, Ls), Det(Ls), Ls[j], V[Ls[j]]);
  }

  /** The propagated variance of the intercept of an unweighted straight-line
      fit, as a sum over the lattice sizes of `h`, the squared coefficient
      times the variance. */
  lemma {:induction false} PropagatedIntercept(Ls: seq<real>, V: map<real, real>, h: real -> real)
    requires Det(Ls) != 0.0 && forall j :: 0 <= j < |Ls| ==> Ls[j] in V
    requires forall x :: h(x) == Weighted(V, Total(Ls), Times(Ls, Ls), Det(Ls), x)
    ensures Propagated(LinePinv(Ls), Ones(|Ls|), Column(V, Ls))[0] == SumOf(Ls, h)
  {
    UnweightedRow(LinePinv(Ls), Ls, Column(V, Ls));
    InterceptTermsAll(Ls, V, h);
    PropagatedAsSum(LinePinv(Ls)[0], Ls, V, h);
  }

  /** Without weights, `delta[k]` is row `k` of `finv**2` times the
      variances. */
  lemma {:induction false} UnweightedRow(finv: seq<seq<real>>, Ls: seq<real>, deltasq: seq<real>)
    requires |deltasq| == |Ls| && Rows(finv, |Ls|) && finv != []
    ensures Propagated(finv, Ones(|Ls|), deltasq)[0] == Times(Squares(finv[0]), deltasq)
  {
    SquaresOnes(|Ls|);
    HadamardOnes(deltasq);
  }

  lemma {:induction false} InterceptTermsAll(Ls: seq<real>, V: map<real, real>, h: real -> real)
    requires Det(Ls) != 0.0 && forall j :: 0 <= j < |Ls| ==> Ls[j] in V
    requires forall x :: h(x) == Weighted(V, Total(Ls), Times(Ls, Ls), Det(Ls), x)
    ensures TermsMatch(LinePinv(Ls)[0], Ls, V, h)
  {
    forall j | 0 <= j < |Ls|
      ensures h(Ls[j]) == Squares(LinePinv(Ls)[0])[j] * V[Ls[j]]
    {
      InterceptTermAt(Ls, V, h, j);
    }
  }

  /** For distinct `x`, every point keeps its own variance `dy^2`. */
  lemma {:induction false} VariancesOfZip(xs: seq<real>, ys: seq<real>, dys: seq<real>)
    requires |xs| == |ys| == |dys| && Distinct(xs)
    ensures forall i :: 0 <= i < |xs| ==>
              xs[i] in Variances(Zip(xs, ys, dys)) && Variances(Zip(xs, ys, dys))[xs[i]] == Square(dys[i])
  {
    var pts := Zip(xs, ys, dys);
    forall i | 0 <= i < |xs|
      ensures xs[i] in Variances(pts) && Variances(pts)[xs[i]] == Square(dys[i])
    {
      assert pts[i].L == xs[i];
      LastWins(pts, i);
    }
  }

  /** `extrapolate_cl` with the basis `{1, x}` and distinct `x` (at least two,
      so that `D != 0`): the fit succeeds and the variance of the intercept is
      `sum_i ((Sxx - Sx x_i) / D)^2 dy_i^2`. */
  lemma {:induction false} ClosedFormIntercept(xs: seq<real>, ys: seq<real>, dys: seq<real>)
    requires |xs| == |ys| == |dys| && Distinct(xs) && Det(xs) != 0.0
    ensures var pts := Zip(xs, ys, dys);
            var Ls := SortedKeys(pts);
            Det(Ls) != 0.0 &&
            var r := Fit(Ones(|pts|), Ls, Column(Values(pts), Ls), Column(Variances(pts), Ls), LinePinv(Ls), 0);
            r.Success? && r.value.1[0] == ClosedForm(xs, dys)
  {
    var pts := Zip(xs, ys, dys);
    var Ls := SortedKeys(pts);
    var V := Variances(pts);
    SortedLatticeSizes(xs, ys, dys);
    PermutedSums(Ls, xs);
    var h := (x: real) => Weighted(V, Total(xs), Times(xs, xs), Det(xs), x);
    PropagatedIntercept(Ls, V, h);
    SumOfPermutation(Ls, xs, h);
    VariancesOfZip(xs, ys, dys);
    TermsPointwise(xs, dys, V, h, Total(xs), Times(xs, xs), Det(xs));
  }

  // ---------------------------------------------------------------------
  // pretty_print for an integer value

  /** `int(x)` for a real: truncation toward zero. */
  function Trunc(x: real): (n: int)
    ensures 0.0 <= x ==> 0 <= n && n as real <= x < n as real + 1.0
    ensures x < 0.0 ==> n <= 0 && n as real - 1.0 < x <= n as real
  {
    if x >= 0.0 then x.Floor else -((-x).Floor)
  }

  /** `pretty_print(val, err)` for an integer `val`: `"val(int(err))"`. */
  function PrettyPrintInt(val: int, err: real): string
  {
    Decimal(val) + "(" + Decimal(Trunc(err)) + ")"
  }

  /** The position of the first `c` in `s`, or `|s|`. */
  function IndexOf(s: string, c: char): (k: nat)
    ensures k <= |s| && (k < |s| ==> s[k] == c) && forall i :: 0 <= i < k ==> s[i] != c
  {
    if s == [] then 0 else if s[0] == c then 0 else 1 + IndexOf(s[1..], c)
  }

  /** Reading `"a(b)"` back into the pair of integers. */
  function ReadPretty(s: string): Option<(int, int)>
  {
    var k := IndexOf(s, '(');
    if k + 1 < |s| && s[|s| - 1] == ')' then
      match (ParseInt(s[..k]), ParseInt(s[k + 1..|s| - 1]))
      case (Some(a), Some(b)) => Some((a, b))
      case _ => None
    else None
  }

  lemma {:induction false} DecimalNoParen(n: int)
    ensures forall i :: 0 <= i < |Decimal(n)| ==> Decimal(n)[i] != '('
  {
    var ds := Digits(if n < 0 then -n else n);
    assert forall i :: 0 <= i < |ds| ==> IsDigit(ds[i]);
  }

  /** `"a(b)"` splits back into `a` and `b` when `a` has no `(`. */
  lemma {:induction false} SplitPretty(a: string, b: string)
    requires forall i :: 0 <= i < |a| ==> a[i] != '('
    ensures var s := a + "(" + b + ")";
            IndexOf(s, '(') == |a| && |a| + 1 < |s| && s[|s| - 1] == ')'
            && s[..|a|] == a && s[|a| + 1..|s| - 1] == b
  {
    var s := a + "(" + b + ")";
    assert s[|a|] == '(';
    assert forall i :: 0 <= i < |a| ==> s[i] == a[i];
    assert s[..|a|] == a;
    assert s[|a| + 1..|s| - 1] == b;
  }

  /** The printed text holds the value and the error truncated toward
      zero, and nothing else: reading it back gives both. */
  lemma {:induction false} PrettyPrintIntRoundTrip(val: int, err: real)
    ensures ReadPretty(PrettyPrintInt(val, err)) == Some((val, Trunc(err)))
  {
    DecimalNoParen(val);
    SplitPretty(Decimal(val), Decimal(Trunc(err)));
    ParseDecimal(val);
    ParseDecimal(Trunc(err));
  }
}
