/** The Gamma-method error estimator for autocorrelated Monte Carlo data
    (U. Wolff, "Monte Carlo errors with less errors", hep-lat/0306017):
    per-observable means, the shape check, the linearised projection of a
    function of the observables onto one derived series, the lagged
    autocovariance, the integrated autocorrelation time with its automatic
    window, and the AR(1) test-data generator. All arithmetic is exact over
    `real`; square root and exponential are uninterpreted (`Elementary`). */
module Puwr {
  import opened Wrappers
  import opened RealSums
  import opened Elementary

  /** `data[alpha][r][i]`: observable `alpha`, replicum `r`, measurement `i`. */
  type Samples = seq<seq<seq<real>>>

  /** Why an estimate could not be made, with the Python exception it stands for. */
  datatype PuwrError =
    | DataSanityCheckFail    // observables disagree on the per-replicum lengths
    | IndexError             // `data[0]` of no data, or an observable index out of range
    | NoData                 // no measurement at all (`np.hstack` of nothing, then `G[0]`)
    | ZeroStepSize           // a derivative step of 0: numpy makes every entry nan
    | ReplicaLengthMismatch  // numpy cannot broadcast the replica's lag arrays into one sum (ValueError)
    | NoWindow               // no criterion entry is negative: `np.where(...)[0][0]` raises IndexError
    | ZeroDivisionError      // `gamma`'s `1./(N - R*t)` at 0, or `correlated_data` with `2 * tau + 1 == 0`

  /** The arithmetic mean. */
  function Mean(s: seq<real>): real
    requires |s| > 0
  {
    Sum(s) / (|s| as real)
  }

  /** The number of measurements of one observable, over all replica. */
  function Count(reps: seq<seq<real>>): nat
  {
    SumNat(Lengths(reps))
  }

  /** `means`: per observable, the mean over all its replica concatenated.
      Replicum boundaries play no part: the result is the total of all
      measurements divided by their number. */
  function Means(data: Samples): (m: seq<real>)
    requires forall a :: 0 <= a < |data| ==> Count(data[a]) > 0
    ensures |m| == |data|
    ensures forall a :: 0 <= a < |data| ==> m[a] == BlockSums(data[a]) / (Count(data[a]) as real)
  {
    MeanOfConcatAll(data);
    seq(|data|, a requires 0 <= a < |data| => Mean(Concat(data[a])))
  }

  lemma {:induction false} MeanOfConcatAll(data: Samples)
    requires forall a :: 0 <= a < |data| ==> Count(data[a]) > 0
    ensures forall a :: 0 <= a < |data| ==>
      |Concat(data[a])| == Count(data[a]) && Mean(Concat(data[a])) == BlockSums(data[a]) / (Count(data[a]) as real)
  {
    forall a | 0 <= a < |data|
      ensures |Concat(data[a])| == Count(data[a])
      ensures Mean(Concat(data[a])) == BlockSums(data[a]) / (Count(data[a]) as real)
    {
      ConcatLength(data[a]);
      SumConcat(data[a]);
    }
  }

  /** The shape of the data as `DataInfo` records it. */
  datatype Info = Info(nobs: nat, R: nat, Nr: seq<nat>, N: nat)

  /** Every observable has observable 0's list of per-replicum lengths (so
      also its replicum count). */
  predicate Consistent(data: Samples)
    requires |data| > 0
  {
    forall a :: 0 <= a < |data| ==> Lengths(data[a]) == Lengths(data[0])
  }

  /** What `DataInfo` computes or raises. */
  function CheckShape(data: Samples): Result<Info, PuwrError>
  {
    if |data| == 0 then Failure(IndexError)
    else if !Consistent(data) then Failure(DataSanityCheckFail)
    else Success(Info(|data|, |data[0]|, Lengths(data[0]), SumNat(Lengths(data[0]))))
  }

  /** `DataInfo`: records the number of observables, the replicum count
      `R = len(data[0])`, the per-replicum lengths of observable 0 and their
      total `N`, raising `DataSanityCheckFail` exactly when some observable's
      list of per-replicum lengths differs from observable 0's. */
  method DataInfo(data: Samples) returns (r: Result<Info, PuwrError>)
    ensures r == CheckShape(data)
    ensures r.Failure? <==> |data| == 0 || exists a :: 0 <= a < |data| && Lengths(data[a]) != Lengths(data[0])
    ensures r.Success? ==> r.value.R == |data[0]| && r.value.N == SumNat(Lengths(data[0]))
  {
    if |data| == 0 {
      return Failure(IndexError);
    }
    var nobs := |data|;
    var R := |data[0]|;
    var Nr := Lengths(data[0]);
    var k := 0;
    while k < |data|
      invariant 0 <= k <= |data|
      invariant forall b :: 0 <= b < k ==> Lengths(data[b]) == Nr
    {
      if Lengths(data[k]) != Nr {
        return Failure(DataSanityCheckFail);
      }
      k := k + 1;
    }
    r := Success(Info(nobs, R, Nr, SumNat(Nr)));
  }

  /** `deriv(f, alpha, h)` evaluated at `a`: the code adds `h` to argument
      `alpha`, evaluates, subtracts `2 * h` from the same argument and
      evaluates again. That is the central difference quotient at `a`, and
      every other argument keeps its value. */
  function Deriv(f: seq<real> -> real, alpha: nat, h: real, a: seq<real>): (d: real)
    requires alpha < |a| && h != 0.0
    ensures d == (f(a[alpha := a[alpha] + h]) - f(a[alpha := a[alpha] - h])) / (2.0 * h)
  {
    var up := a[alpha := a[alpha] + h];
    var down := up[alpha := up[alpha] - 2.0 * h];
    assert down == a[alpha := a[alpha] - h];
    (f(up) - f(down)) / 2.0 / h
  }

  /** `idf(n)`: the function that returns its `n`-th argument, for a
      natural `n` only: a negative `n`, which Python reads from the end
      (`idf(-1)` returns the last argument), cannot be written. With fewer
      arguments Python raises IndexError, where this function returns 0.0;
      `ProjectIdf` only calls it with `n` in range. */
  function Idf(n: nat): seq<real> -> real
  {
    a => if n < |a| then a[n] else 0.0
  }

  /** An affine function of the arguments, `c0 + sum_k c[k] * a[k]`. */
  function Affine(c0: real, c: seq<real>): seq<real> -> real
  {
    a => if |a| == |c| then c0 + Dot(c, a) else c0
  }

  lemma {:induction false} DotUpdate(c: seq<real>, a: seq<real>, k: nat, v: real)
    requires |c| == |a| && k < |a|
    ensures Dot(c, a[k := v]) == Dot(c, a) + c[k] * (v - a[k])
  {
    if k > 0 {
      assert a[k := v][1..] == a[1..][k - 1 := v];
      DotUpdate(c[1..], a[1..], k - 1, v);
    } else {
      assert a[k := v][1..] == a[1..];
    }
  }

  /** The central difference is exact for an affine function: the computed
      derivative with respect to argument `alpha` is its coefficient. */
  lemma {:induction false} DerivAffine(c0: real, c: seq<real>, alpha: nat, h: real, a: seq<real>)
    requires |c| == |a| && alpha < |a| && h != 0.0
    ensures Deriv(Affine(c0, c), alpha, h, a) == c[alpha]
  {
    var f := Affine(c0, c);
    DotUpdate(c, a, alpha, a[alpha] + h);
    DotUpdate(c, a, alpha, a[alpha] - h);
    CentralDifference(f(a[alpha := a[alpha] + h]), f(a[alpha := a[alpha] - h]), c0 + Dot(c, a),
                      c[alpha], a[alpha], h);
  }

  /** The central difference of `base + k (t - x)` at `x +- h`. */
  lemma {:induction false} CentralDifference(up: real, down: real, base: real, k: real, x: real, h: real)
    requires h != 0.0
    requires up == base + k * ((x + h) - x) && down == base + k * ((x - h) - x)
    ensures (up - down) / (2.0 * h) == k
  {
    assert up - down == 2.0 * h * k;
  }

  /** The numerical derivative of `idf(n)` is the unit vector in direction
      `n`: 1 for `alpha == n`, 0 for every other argument. */
  lemma {:induction false} DerivIdf(n: nat, alpha: nat, h: real, a: seq<real>)
    requires n < |a| && alpha < |a| && h != 0.0
    ensures Deriv(Idf(n), alpha, h, a) == if alpha == n then 1.0 else 0.0
  {
  }

  /** The sum of squared deviations from `mean` over all replica of one
      observable. */
  function SquaredDeviation(reps: seq<seq<real>>, mean: real): (s: real)
    ensures s >= 0.0
  {
    if reps == [] then 0.0 else SumSquares(reps[0], mean) + SquaredDeviation(reps[1..], mean)
  }

  function SumSquares(x: seq<real>, mean: real): (s: real)
    ensures s >= 0.0
  {
    if x == [] then 0.0
    else
      var d := x[0] - mean;
      assert d * d >= 0.0;
      d * d + SumSquares(x[1..], mean)
  }

  /** A `DataProject` object: the checked shape, the data, the means and the
      derivative step sizes. */
  datatype Projector = Projector(info: Info, data: Samples, m: seq<real>, h: seq<real>)

  /** The shape every projector has: `DataInfo` succeeded on its data, there
      is at least one measurement, and there is one mean and one step per
      observable. */
  predicate ValidProjector(p: Projector)
  {
    && CheckShape(p.data) == Success(p.info)
    && p.info.N > 0
    && |p.m| == |p.h| == |p.data|
  }

  /** `DataProject.__init__`: checks the shape, computes the means `m` and the
      step sizes `h[alpha] = sqrt((sum_r sum_i (a - m[alpha])^2 / N) / N)`,
      which are never negative. */
  function NewProjector(e: Funcs, data: Samples): (r: Result<Projector, PuwrError>)
    ensures CheckShape(data).Failure? ==> r == Failure(CheckShape(data).error)
    ensures CheckShape(data).Success? && CheckShape(data).value.N == 0 ==> r == Failure(NoData)
    ensures r.Success? ==> ValidProjector(r.value) && r.value.data == data
    ensures r.Success? ==> forall a :: 0 <= a < |data| ==>
      && r.value.m[a] == BlockSums(data[a]) / (r.value.info.N as real)
      && r.value.h[a] == e.sqrt(SquaredDeviation(data[a], r.value.m[a]) / (r.value.info.N as real) / (r.value.info.N as real))
    ensures r.Success? && Sound(e) ==> forall a :: 0 <= a < |data| ==> r.value.h[a] >= 0.0
  {
    var info :- CheckShape(data);
    if info.N == 0 then Failure(NoData)
    else
      assert forall a :: 0 <= a < |data| ==> Count(data[a]) == info.N;
      var m := Means(data);
      var n := info.N as real;
      Success(Projector(info, data, m, Steps(e, data, m, n)))
  }

  /** The step sizes `h[alpha] = sqrt(G_aa / N)`, with `G_aa` the squared
      deviations of observable `alpha` over `N`. */
  function Steps(e: Funcs, data: Samples, m: seq<real>, n: real): (h: seq<real>)
    requires |m| == |data| && n != 0.0
    ensures |h| == |data|
    ensures forall a :: 0 <= a < |data| ==> h[a] == e.sqrt(SquaredDeviation(data[a], m[a]) / n / n)
  {
    seq(|data|, a requires 0 <= a < |data| => e.sqrt(SquaredDeviation(data[a], m[a]) / n / n))
  }

  /** How the function to project is given: an observable index (a Python
      int) or a function of all observables. */
  datatype Selector = Index(n: int) | Function(f: seq<real> -> real)

  /** The measurements of all observables at replicum `r`, position `i`. */
  function Column(data: Samples, r: nat, i: nat): (col: seq<real>)
    requires forall a :: 0 <= a < |data| ==> r < |data[a]| && i < |data[a][r]|
    ensures |col| == |data| && forall a :: 0 <= a < |data| ==> col[a] == data[a][r][i]
  {
    seq(|data|, a requires 0 <= a < |data| => data[a][r][i])
  }

  /** The computed gradient `fa[alpha] = deriv(f, alpha, h[alpha])(*m)`. */
  function Gradient(p: Projector, f: seq<real> -> real): (fa: seq<real>)
    requires ValidProjector(p)
    requires forall a :: 0 <= a < |p.h| ==> p.h[a] != 0.0
    ensures |fa| == |p.data|
  {
    seq(|p.data|, a requires 0 <= a < |p.data| => Deriv(f, a, p.h[a], p.m))
  }

  /** Python's `data[n]` for a possibly negative index. */
  function PyIndex(n: int, len: nat): (k: Option<nat>)
    ensures k.Some? <==> -(len as int) <= n < len
    ensures k.Some? ==> k.value < len && (k.value == if n < 0 then len + n else n)
  {
    if 0 <= n < len then Some(n) else if -(len as int) <= n < 0 then Some(len + n) else None
  }

  lemma {:induction false} ShapeOfValid(p: Projector)
    requires ValidProjector(p)
    ensures |p.data| > 0 && p.info.nobs == |p.data| && p.info.R == |p.data[0]| && p.info.Nr == Lengths(p.data[0])
    ensures forall a, r :: 0 <= a < |p.data| && 0 <= r < p.info.R ==> |p.data[a]| == p.info.R && |p.data[a][r]| == p.info.Nr[r]
  {
    forall a, r | 0 <= a < |p.data| && 0 <= r < p.info.R
      ensures |p.data[a]| == p.info.R && |p.data[a][r]| == p.info.Nr[r]
    {
      assert Lengths(p.data[a]) == Lengths(p.data[0]);
    }
  }

  /** `DataProject.project(f)`. For an integer `n` it returns the observable
      `data[n]` itself (Python indexing, so negative `n` counts from the end),
      with no derivative computed. For a function it returns the linearised
      series `sum_alpha fa[alpha] * data[alpha][r][i]` in the shape of the
      data, where `fa` is the numerical gradient at the means; a zero step
      size is refused. */
  function Project(p: Projector, sel: Selector): (r: Result<seq<seq<real>>, PuwrError>)
    requires ValidProjector(p)
    ensures sel.Index? ==> match PyIndex(sel.n, |p.data|)
                           case None => r == Failure(IndexError)
                           case Some(k) => r == Success(p.data[k])
    ensures sel.Function? ==> (r.Failure? <==> exists a :: 0 <= a < |p.h| && p.h[a] == 0.0)
    ensures sel.Function? && r.Success? ==>
      && Lengths(r.value) == p.info.Nr
      && forall q, i :: 0 <= q < |r.value| && 0 <= i < |r.value[q]| ==>
           r.value[q][i] == Dot(Gradient(p, sel.f), Column(p.data, q, i))
  {
    match sel
    case Index(n) =>
      (match PyIndex(n, |p.data|)
       case None => Failure(IndexError)
       case Some(k) => Success(p.data[k]))
    case Function(f) =>
      if exists a :: 0 <= a < |p.h| && p.h[a] == 0.0 then Failure(ZeroStepSize)
      else
        ShapeOfValid(p);
        var fa := Gradient(p, f);
        Success(seq(p.info.R, q requires 0 <= q < p.info.R =>
                  seq(p.info.Nr[q], i requires 0 <= i < p.info.Nr[q] => Dot(fa, Column(p.data, q, i)))))
  }

  lemma {:induction false} DotUnit(n: nat, v: seq<real>, c: seq<real>)
    requires |c| == |v| && n < |v|
    requires forall a :: 0 <= a < |c| ==> c[a] == if a == n then 1.0 else 0.0
    ensures Dot(c, v) == v[n]
  {
    if n > 0 {
      DotUnit(n - 1, v[1..], c[1..]);
    } else {
      DotZero(v[1..], c[1..]);
    }
  }

  lemma {:induction false} DotZero(v: seq<real>, c: seq<real>)
    requires |c| == |v|
    requires forall a :: 0 <= a < |c| ==> c[a] == 0.0
    ensures Dot(c, v) == 0.0
  {
    if c != [] {
      DotZero(v[1..], c[1..]);
    }
  }

  /** Projecting through the function `idf(n)` gives back observable `n`
      exactly: the numerical path agrees with the integer fast path. */
  lemma {:induction false} ProjectIdf(p: Projector, n: nat)
    requires ValidProjector(p) && n < |p.data|
    requires forall a :: 0 <= a < |p.h| ==> p.h[a] != 0.0
    ensures Project(p, Function(Idf(n))) == Project(p, Index(n)) == Success(p.data[n])
  {
    ShapeOfValid(p);
    var fa := Gradient(p, Idf(n));
    forall a | 0 <= a < |fa|
      ensures fa[a] == if a == n then 1.0 else 0.0
    {
      DerivIdf(n, a, p.h[a], p.m);
    }
    assert PyIndex(n, |p.data|) == Some(n);
    assert Project(p, Function(Idf(n))).Success?;
    var r := Project(p, Function(Idf(n))).value;
    assert |r| == |p.data[n]|;
    forall q | 0 <= q < |r|
      ensures r[q] == p.data[n][q]
    {
      forall i | 0 <= i < |r[q]|
        ensures r[q][i] == p.data[n][q][i]
      {
        DotUnit(n, Column(p.data, q, i), fa);
      }
      assert |r[q]| == |p.data[n][q]|;
    }
    assert r == p.data[n];
  }

  /** The derived series `af` of `gamma`, with the shape `DataInfo` recorded. */
  function Derived(e: Funcs, data: Samples, sel: Selector): Result<(Info, seq<seq<real>>), PuwrError>
  {
    var p :- NewProjector(e, data);
    var af :- Project(p, sel);
    Success((p.info, af))
  }

  /** A derived series has the shape of the data: `R > 0` replica with the
      recorded lengths, `N` measurements in all. */
  lemma {:induction false} DerivedShape(e: Funcs, data: Samples, sel: Selector)
    requires Derived(e, data, sel).Success?
    ensures var (info, af) := Derived(e, data, sel).value;
            && Lengths(af) == info.Nr && info.N == SumNat(info.Nr) && info.N > 0
            && |af| == info.R > 0 && |Concat(af)| == info.N
  {
    var p := NewProjector(e, data).value;
    ShapeOfValid(p);
    var (info, af) := Derived(e, data, sel).value;
    if sel.Index? {
      var k := PyIndex(sel.n, |data|).value;
      assert Lengths(data[k]) == Lengths(data[0]);
    }
    ConcatLength(af);
  }

  /** `a[::-1]`. */
  function Reverse(x: seq<real>): (r: seq<real>)
    ensures |r| == |x| && forall k :: 0 <= k < |x| ==> r[k] == x[|x| - 1 - k]
  {
    seq(|x|, k requires 0 <= k < |x| => x[|x| - 1 - k])
  }

  /** `a - om`, entry by entry. */
  function Centered(x: seq<real>, om: real): (r: seq<real>)
    ensures |r| == |x| && forall k :: 0 <= k < |x| ==> r[k] == x[k] - om
  {
    seq(|x|, k requires 0 <= k < |x| => x[k] - om)
  }

  /** Entry `k` of the full linear convolution of `x` and `y`, summed over the
      positions `j..` of `x`. */
  function ConvFrom(x: seq<real>, y: seq<real>, k: int, j: nat): real
    requires j <= |x|
    decreases |x| - j
  {
    if j == |x| then 0.0
    else (if 0 <= k - j < |y| then x[j] * y[k - j] else 0.0) + ConvFrom(x, y, k, j + 1)
  }

  /** The full linear convolution of `x` and `y`, the numbers
      `signal.fftconvolve` computes through the FFT. */
  function Convolve(x: seq<real>, y: seq<real>): (c: seq<real>)
    requires |x| > 0 && |y| > 0
    ensures |c| == |x| + |y| - 1
  {
    seq(|x| + |y| - 1, k requires 0 <= k < |x| + |y| - 1 => ConvFrom(x, y, k, 0))
  }

  /** `sum_{j >= from} x[j] * x[j + t]`. */
  function LagFrom(x: seq<real>, t: nat, from: nat): real
    decreases |x| - from
  {
    if from + t >= |x| then 0.0 else x[from] * x[from + t] + LagFrom(x, t, from + 1)
  }

  /** The lag-`t` sum `sum_{j = 0}^{|x| - 1 - t} x[j] * x[j + t]`. */
  function LagSum(x: seq<real>, t: nat): real
  {
    LagFrom(x, t, 0)
  }

  lemma {:induction false} ConvolveReversedFrom(x: seq<real>, t: nat, j: nat)
    requires t < |x| && j <= |x|
    ensures ConvFrom(x, Reverse(x), |x| - 1 - t, j) == LagFrom(x, t, j)
    decreases |x| - j
  {
    if j < |x| {
      ConvolveReversedFrom(x, t, j + 1);
    }
  }

  /** Reading the convolution of `x` with its reverse backwards from the
      middle entry, as `[len(rep)-1::-1]` does, gives the lag sums of `x` for
      lags `0, 1, ..., |x| - 1`. */
  lemma {:induction false} ConvolveReversed(x: seq<real>, t: nat)
    requires t < |x|
    ensures Convolve(x, Reverse(x))[|x| - 1 - t] == LagSum(x, t)
  {
    ConvolveReversedFrom(x, t, 0);
  }

  /** One replicum's contribution `fftconvolve(rep - om, rep[::-1] - om)[len(rep)-1::-1]`:
      entry `t` is the lag-`t` sum of the centred series. */
  function ReplicumLags(rep: seq<real>, om: real): (g: seq<real>)
    requires |rep| > 0
    ensures |g| == |rep|
    ensures forall t :: 0 <= t < |rep| ==> g[t] == LagSum(Centered(rep, om), t)
  {
    var c := Convolve(Centered(rep, om), Centered(Reverse(rep), om));
    assert Centered(Reverse(rep), om) == Reverse(Centered(rep, om));
    forall t | 0 <= t < |rep|
      ensures c[|rep| - 1 - t] == LagSum(Centered(rep, om), t)
    {
      ConvolveReversed(Centered(rep, om), t);
    }
    seq(|rep|, t requires 0 <= t < |rep| => c[|rep| - 1 - t])
  }

  /** Entry `t` of a lag array once numpy has broadcast it to the common
      length: an array with a single entry repeats that entry at every lag. */
  function Spread(g: seq<real>, t: nat): real
    requires |g| == 1 || t < |g|
  {
    if |g| == 1 then g[0] else g[t]
  }

  /** Entry `t` of the broadcast sum of the lag arrays. */
  function ColumnTotal(vs: seq<seq<real>>, t: nat): real
    requires forall q :: 0 <= q < |vs| ==> |vs[q]| == 1 || t < |vs[q]|
  {
    if vs == [] then 0.0 else Spread(vs[0], t) + ColumnTotal(vs[1..], t)
  }

  /** The lag-`t` sums of the centred series, added over all replica. */
  function LagTotal(af: seq<seq<real>>, om: real, t: nat): real
  {
    if af == [] then 0.0 else LagSum(Centered(af[0], om), t) + LagTotal(af[1..], om, t)
  }

  /** Lag `t` of the broadcast sum in terms of the data: every replicum adds
      its lag-`t` sum, except that a replicum with a single value adds its
      lag-0 sum at every lag. */
  function BroadcastTotal(af: seq<seq<real>>, om: real, t: nat): real
  {
    if af == [] then 0.0
    else LagSum(Centered(af[0], om), if |af[0]| == 1 then 0 else t) + BroadcastTotal(af[1..], om, t)
  }

  /** The length of the longest replicum. */
  function MaxLength(af: seq<seq<real>>): (n: nat)
    ensures forall q :: 0 <= q < |af| ==> |af[q]| <= n
    ensures af != [] ==> exists q :: 0 <= q < |af| && |af[q]| == n
  {
    if af == [] then 0
    else
      var m := MaxLength(af[1..]);
      assert forall q :: 1 <= q < |af| ==> af[q] == af[1..][q - 1];
      if |af[0]| >= m then |af[0]| else m
  }

  /** numpy can add the replica's lag arrays, of lengths `|af[q]|`, into one
      array of length `n > 0`: each has length `n` or a single entry. */
  predicate Broadcastable(af: seq<seq<real>>, n: nat)
  {
    n > 0 && forall q :: 0 <= q < |af| ==> |af[q]| == n || |af[q]| == 1
  }

  lemma {:induction false} ColumnTotalOfLags(af: seq<seq<real>>, om: real, n: nat, t: nat)
    requires Broadcastable(af, n) && t < n
    ensures var vs := seq(|af|, q requires 0 <= q < |af| => ReplicumLags(af[q], om));
            ColumnTotal(vs, t) == BroadcastTotal(af, om, t)
  {
    var vs := seq(|af|, q requires 0 <= q < |af| => ReplicumLags(af[q], om));
    if af != [] {
      assert forall q :: 0 <= q < |af[1..]| ==> af[1..][q] == af[q + 1];
      ColumnTotalOfLags(af[1..], om, n, t);
      assert vs[1..] == seq(|af[1..]|, q requires 0 <= q < |af[1..]| => ReplicumLags(af[1..][q], om));
    }
  }

  /** With one common length, broadcasting changes nothing. */
  lemma {:induction false} BroadcastTotalEqual(af: seq<seq<real>>, om: real, n: nat, t: nat)
    requires forall q :: 0 <= q < |af| ==> |af[q]| == n
    requires t < n
    ensures BroadcastTotal(af, om, t) == LagTotal(af, om, t)
  {
    if af != [] {
      assert forall q :: 0 <= q < |af[1..]| ==> af[1..][q] == af[q + 1];
      BroadcastTotalEqual(af[1..], om, n, t);
    }
  }

  lemma {:induction false} SumNatConstant(ls: seq<nat>, n: nat)
    requires forall q :: 0 <= q < |ls| ==> ls[q] == n
    ensures SumNat(ls) == |ls| * n
  {
    if ls != [] {
      SumNatConstant(ls[1..], n);
    }
  }

  /** `Gtil = sum(lags)`: the replica's lag arrays added with numpy
      broadcasting, one entry per lag below the longest length `n`. */
  function LagTotals(af: seq<seq<real>>, om: real, n: nat): (gtil: seq<real>)
    requires Broadcastable(af, n)
    ensures |gtil| == n
    ensures forall t :: 0 <= t < n ==> gtil[t] == BroadcastTotal(af, om, t)
  {
    var lags := seq(|af|, q requires 0 <= q < |af| => ReplicumLags(af[q], om));
    forall t | 0 <= t < n
      ensures ColumnTotal(lags, t) == BroadcastTotal(af, om, t)
    {
      ColumnTotalOfLags(af, om, n, t);
    }
    seq(n, t requires 0 <= t < n => ColumnTotal(lags, t))
  }

  /** `N - R t`, the denominator `gamma` uses at lag `t`. */
  function Normaliser(N: nat, R: nat, t: nat): int
  {
    N - R * t
  }

  /** `Gtil * [1./(N - R*t) for t in range(len(Gtil))]`, when no denominator
      is 0. */
  function Normalised(gtil: seq<real>, N: nat, R: nat): (g: seq<real>)
    requires forall t :: 0 <= t < |gtil| ==> Normaliser(N, R, t) != 0
    ensures |g| == |gtil|
    ensures forall t :: 0 <= t < |gtil| ==> g[t] == gtil[t] / (Normaliser(N, R, t) as real)
  {
    seq(|gtil|, t requires 0 <= t < |gtil| => gtil[t] * (1.0 / (Normaliser(N, R, t) as real)))
  }

  /** The number of pairs `(i, i + t)` inside `R` replica of length `n`. */
  function Pairs(R: nat, n: nat, t: nat): (p: nat)
    requires t < n
    ensures R > 0 ==> p >= R
    ensures p == R * n - R * t
  {
    Denominator(R, n, t);
    R * (n - t)
  }

  lemma {:induction false} Denominator(R: nat, n: nat, t: nat)
    requires t < n
    ensures R * n - R * t == R * (n - t) && (R > 0 ==> R * (n - t) >= R)
  {
    var d := n - t;
    assert R * n == R * t + R * d;
    assert R * d == R * (d - 1) + R;
    assert R * (d - 1) >= 0;
  }

  /** The autocovariance of the derived series `af` (grand mean `om`, `N`
      measurements in `R` replica). The lag arrays are added with numpy
      broadcasting: when some replicum has neither the longest length `n`
      nor a single value, the sum raises ValueError; otherwise a zero
      denominator `N - R t` for some lag `t < n` raises ZeroDivisionError,
      and else `G[t]` is the broadcast lag-`t` total divided by `N - R t`. */
  function Autocovariance(af: seq<seq<real>>, om: real, N: nat, R: nat): (r: Result<seq<real>, PuwrError>)
    ensures var n := MaxLength(af);
      && (r.Failure? <==> !Broadcastable(af, n) || exists t :: 0 <= t < n && Normaliser(N, R, t) == 0)
      && (r.Failure? ==> r.error == if Broadcastable(af, n) then ZeroDivisionError else ReplicaLengthMismatch)
      && (r.Success? ==> |r.value| == n > 0 && forall t :: 0 <= t < n ==>
            r.value[t] == BroadcastTotal(af, om, t) / (Normaliser(N, R, t) as real))
  {
    var n := MaxLength(af);
    if !Broadcastable(af, n) then Failure(ReplicaLengthMismatch)
    else if exists t :: 0 <= t < n && Normaliser(N, R, t) == 0 then Failure(ZeroDivisionError)
    else Success(Normalised(LagTotals(af, om, n), N, R))
  }

  /** What `gamma` returns: the normalised autocovariance, the shape, and the
      grand mean of the derived series. */
  datatype GammaResult = GammaResult(G: seq<real>, info: Info, om: real)

  /** `gamma(data, f)`: projects the data, takes the grand mean `om` of the
      derived series and its autocovariance `G` for the lags below the
      longest replicum length `n`. */
  function Gamma(e: Funcs, data: Samples, sel: Selector): (r: Result<GammaResult, PuwrError>)
    ensures Derived(e, data, sel).Failure? ==> r == Failure(Derived(e, data, sel).error)
    ensures Derived(e, data, sel).Success? ==>
      var (info, af) := Derived(e, data, sel).value;
      var n := MaxLength(af);
      && (r.Failure? <==> !Broadcastable(af, n) || exists t :: 0 <= t < n && Normaliser(info.N, info.R, t) == 0)
      && (r.Failure? ==> r.error == if Broadcastable(af, n) then ZeroDivisionError else ReplicaLengthMismatch)
      && (r.Success? ==>
            && r.value.info == info && info.N > 0 && |r.value.G| == n > 0
            && r.value.om == Sum(Concat(af)) / (info.N as real)
            && forall t :: 0 <= t < n ==>
                 r.value.G[t] == BroadcastTotal(af, r.value.om, t) / (Normaliser(info.N, info.R, t) as real))
  {
    var (info, af) :- Derived(e, data, sel);
    DerivedShape(e, data, sel);
    var om := Mean(Concat(af));
    var G :- Autocovariance(af, om, info.N, info.R);
    Success(GammaResult(G, info, om))
  }

  /** With replica of one common length `n`, as `correlated_data` and the
      usual Monte Carlo runs give (`DataInfo` does not check it), `gamma`
      succeeds: `N == R n`, and `G[t]` is the lag-`t` sum over all replica
      divided by the number `R (n - t)` of pairs at that lag, which is
      positive. */
  lemma {:induction false} GammaEqualLengths(e: Funcs, data: Samples, sel: Selector)
    requires Derived(e, data, sel).Success?
    requires var af := Derived(e, data, sel).value.1;
             forall q, q' :: 0 <= q < |af| && 0 <= q' < |af| ==> |af[q]| == |af[q']|
    ensures Gamma(e, data, sel).Success?
    ensures var (info, af) := Derived(e, data, sel).value;
            var g := Gamma(e, data, sel).value;
            && (forall q :: 0 <= q < |af| ==> |af[q]| == |g.G|)
            && info.N == info.R * |g.G|
            && forall t :: 0 <= t < |g.G| ==> g.G[t] == LagTotal(af, g.om, t) / (Pairs(info.R, |g.G|, t) as real)
  {
    var (info, af) := Derived(e, data, sel).value;
    DerivedShape(e, data, sel);
    var n := |af[0]|;
    assert forall q :: 0 <= q < |af| ==> Lengths(af)[q] == n;
    SumNatConstant(Lengths(af), n);
    EqualLengthsBroadcast(af, info.N, info.R, n);
    var g := Gamma(e, data, sel).value;
    EqualLengthEntries(af, g.om, info.N, info.R, g.G);
  }

  /** Replica of one common length `n` broadcast to `n`, and every
      denominator `N - R t` is then the positive number of pairs. */
  lemma {:induction false} EqualLengthsBroadcast(af: seq<seq<real>>, N: nat, R: nat, n: nat)
    requires |af| > 0 && R > 0 && N > 0 && N == R * n
    requires forall q :: 0 <= q < |af| ==> |af[q]| == n
    ensures MaxLength(af) == n && Broadcastable(af, n)
    ensures forall t :: 0 <= t < n ==> Normaliser(N, R, t) == Pairs(R, n, t) as int > 0
  {
    forall t | 0 <= t < n
      ensures Normaliser(N, R, t) == Pairs(R, n, t) as int > 0
    {
      Denominator(R, n, t);
    }
  }

  lemma {:induction false} EqualLengthEntries(af: seq<seq<real>>, om: real, N: nat, R: nat, G: seq<real>)
    requires forall q :: 0 <= q < |af| ==> |af[q]| == |G|
    requires forall t :: 0 <= t < |G| ==> Normaliser(N, R, t) == Pairs(R, |G|, t) as int > 0
    requires forall t :: 0 <= t < |G| ==> G[t] == BroadcastTotal(af, om, t) / (Normaliser(N, R, t) as real)
    ensures forall t :: 0 <= t < |G| ==> G[t] == LagTotal(af, om, t) / (Pairs(R, |G|, t) as real)
  {
    forall t | 0 <= t < |G|
      ensures G[t] == LagTotal(af, om, t) / (Pairs(R, |G|, t) as real)
    {
      BroadcastTotalEqual(af, om, |G|, t);
    }
  }

  /** The shapes broadcasting admits. Replica of lengths 4 and 1 (`N = 5`,
      `R = 2`) give four lags with denominators 5, 3, 1 and -1, the single
      value counting at every lag; lengths 3 and 1 reach the denominator 0
      at lag 2; lengths 2 and 3 cannot be added. */
  lemma {:induction false} BroadcastShapes(a: seq<real>, b: seq<real>, c: seq<real>, x: real, om: real)
    requires |a| == 4 && |b| == 3 && |c| == 2
    ensures Autocovariance([a, [x]], om, 5, 2).Success?
    ensures |Autocovariance([a, [x]], om, 5, 2).value| == 4
    ensures Autocovariance([a, [x]], om, 5, 2).value[3] ==
              ((a[0] - om) * (a[3] - om) + (x - om) * (x - om)) / -1.0
    ensures Autocovariance([b, [x]], om, 4, 2) == Failure(ZeroDivisionError)
    ensures Autocovariance([c, b], om, 5, 2) == Failure(ReplicaLengthMismatch)
  {
    var ax := [a, [x]];
    assert MaxLength(ax) == 4 && Broadcastable(ax, 4);
    assert forall t :: 0 <= t < 4 ==> Normaliser(5, 2, t) != 0;
    assert Normaliser(5, 2, 3) == -1;
    var ca := Centered(a, om);
    assert LagSum(ca, 3) == ca[0] * ca[3] by {
      assert LagFrom(ca, 3, 1) == 0.0;
    }
    var cx := Centered([x], om);
    assert LagSum(cx, 0) == cx[0] * cx[0] by {
      assert LagFrom(cx, 0, 1) == 0.0;
    }
    assert BroadcastTotal(ax[1..], om, 3) == LagSum(cx, 0);
    assert BroadcastTotal(ax, om, 3) == ca[0] * ca[3] + cx[0] * cx[0];
    var bx := [b, [x]];
    assert MaxLength(bx) == 3 && Broadcastable(bx, 3);
    assert Normaliser(4, 2, 2) == 0;
    var cb := [c, b];
    assert MaxLength(cb) == 3 && !Broadcastable(cb, 3);
  }

  // ---------------------------------------------------------------------
  // A vanishing autocovariance at lag 0

  lemma {:induction false} SquaresNonNegative(x: seq<real>, from: nat)
    ensures LagFrom(x, 0, from) >= 0.0
    decreases |x| - from
  {
    if from < |x| {
      SquaresNonNegative(x, from + 1);
      assert x[from] * x[from] >= 0.0;
    }
  }

  lemma {:induction false} PositiveSquare(v: real)
    requires v != 0.0
    ensures v * v > 0.0
  {
    if v < 0.0 {
      var w := -v;
      assert w * w > 0.0 * w;
      assert v * v == w * w;
    } else {
      assert v * v > 0.0 * v;
    }
  }

  lemma {:induction false} AddPositive(a: real, b: real, r: real)
    requires a * b > 0.0 && r >= 0.0
    ensures a * b + r > 0.0
  {
  }

  lemma {:induction false} SquaresPositive(x: seq<real>, from: nat, i: nat)
    requires from <= i < |x| && x[i] != 0.0
    ensures LagFrom(x, 0, from) > 0.0
    decreases |x| - from
  {
    if from == i {
      SquaresNonNegative(x, from + 1);
      PositiveSquare(x[from]);
      AddPositive(x[from], x[from], LagFrom(x, 0, from + 1));
    } else {
      SquaresPositive(x, from + 1, i);
      assert x[from] * x[from] >= 0.0;
    }
  }

  lemma {:induction false} SquaresVanish(x: seq<real>)
    requires LagFrom(x, 0, 0) == 0.0
    ensures forall i :: 0 <= i < |x| ==> x[i] == 0.0
  {
    forall i | 0 <= i < |x|
      ensures x[i] == 0.0
    {
      if x[i] != 0.0 {
        SquaresPositive(x, 0, i);
      }
    }
  }

  lemma {:induction false} LagsOfZeros(x: seq<real>, t: nat, from: nat)
    requires forall i :: 0 <= i < |x| ==> x[i] == 0.0
    ensures LagFrom(x, t, from) == 0.0
    decreases |x| - from
  {
    if from + t < |x| {
      LagsOfZeros(x, t, from + 1);
    }
  }

  lemma {:induction false} LagTotalNonNegative(af: seq<seq<real>>, om: real)
    ensures BroadcastTotal(af, om, 0) >= 0.0
  {
    if af != [] {
      SquaresNonNegative(Centered(af[0], om), 0);
      LagTotalNonNegative(af[1..], om);
    }
  }

  lemma {:induction false} LagTotalVanishes(af: seq<seq<real>>, om: real, t: nat)
    requires BroadcastTotal(af, om, 0) == 0.0
    ensures BroadcastTotal(af, om, t) == 0.0
  {
    if af != [] {
      var c := Centered(af[0], om);
      SquaresNonNegative(c, 0);
      LagTotalNonNegative(af[1..], om);
      SquaresVanish(c);
      LagsOfZeros(c, if |af[0]| == 1 then 0 else t, 0);
      LagTotalVanishes(af[1..], om, t);
    }
  }

  /** `G[0]` is the variance of the derived series, never negative; it is 0
      only when every derived value equals the mean, and then the whole
      autocovariance vanishes (so `tauint`'s `tint` is nan throughout). */
  lemma {:induction false} GammaZeroVariance(e: Funcs, data: Samples, sel: Selector)
    requires Gamma(e, data, sel).Success?
    ensures Gamma(e, data, sel).value.G[0] >= 0.0
    ensures Gamma(e, data, sel).value.G[0] == 0.0 ==>
              forall t :: 0 <= t < |Gamma(e, data, sel).value.G| ==> Gamma(e, data, sel).value.G[t] == 0.0
  {
    var g := Gamma(e, data, sel).value;
    var (info, af) := Derived(e, data, sel).value;
    NormalisedZeroVariance(af, g.om, info.N, info.R, g.G);
  }

  lemma {:induction false} NormalisedZeroVariance(af: seq<seq<real>>, om: real, N: nat, R: nat, G: seq<real>)
    requires |G| > 0 && N > 0
    requires forall t :: 0 <= t < |G| ==>
               Normaliser(N, R, t) != 0 && G[t] == BroadcastTotal(af, om, t) / (Normaliser(N, R, t) as real)
    ensures G[0] >= 0.0
    ensures G[0] == 0.0 ==> forall t :: 0 <= t < |G| ==> G[t] == 0.0
  {
    LagTotalNonNegative(af, om);
    assert Normaliser(N, R, 0) == N;
    assert G[0] == BroadcastTotal(af, om, 0) / (N as real);
    if G[0] == 0.0 {
      assert BroadcastTotal(af, om, 0) == 0.0;
      forall t | 0 <= t < |G|
        ensures G[t] == 0.0
      {
        LagTotalVanishes(af, om, t);
      }
    }
  }

  // ---------------------------------------------------------------------
  // The automatic window

  /** `sums[W] = G[1] + ... + G[W]`, the running sum the loop of `tauint` builds. */
  function PartialSum(G: seq<real>, W: nat): real
    requires W < |G|
  {
    if W == 0 then 0.0 else PartialSum(G, W - 1) + G[W]
  }

  lemma {:induction false} PartialSumIsSum(G: seq<real>, W: nat)
    requires W < |G|
    ensures PartialSum(G, W) == Sum(G[1..W + 1])
  {
    if W > 0 {
      PartialSumIsSum(G, W - 1);
      assert G[1..W + 1] == G[1..W] + [G[W]];
      SumAppend(G[1..W], [G[W]]);
    }
  }

  /** `tint[W] = (G[0] / 2 + G[1] + ... + G[W]) / G[0]`, the integrated
      autocorrelation time summed up to window `W`. */
  function TintAt(G: seq<real>, W: nat): real
    requires W < |G| && G[0] != 0.0
  {
    Tint(G[0], PartialSum(G, W))
  }

  /** `(.5 * G[0] + s) / G[0]` for a running sum `s`. */
  function Tint(g0: real, s: real): real
    requires g0 != 0.0
  {
    (0.5 * g0 + s) / g0
  }

  /** With no lag summed the integrated time is 1/2 (uncorrelated data), and
      each window adds the normalised autocorrelation at that lag. */
  lemma {:induction false} TintSteps(G: seq<real>, W: nat)
    requires W < |G| && G[0] != 0.0
    ensures TintAt(G, 0) == 0.5
    ensures W > 0 ==> TintAt(G, W) == TintAt(G, W - 1) + G[W] / G[0]
  {
    assert 0.5 * G[0] / G[0] == 0.5;
  }

  /** `g[W - 1] = exp(-W / tint[W]) - tint[W] / sqrt(W N)`. numpy turns
      `-W / 0` into `-inf` and `exp(-inf)` into 0, which the first branch
      stands for. */
  function Criterion(e: Funcs, W: nat, tint: real, N: nat): real
    requires Sound(e) && W > 0 && N > 0
  {
    PositiveRoot(e, W, N);
    (if tint == 0.0 then 0.0 else e.exp(-(W as real) / tint)) - tint / e.sqrt((W * N) as real)
  }

  lemma {:induction false} PositiveRoot(e: Funcs, W: nat, N: nat)
    requires Sound(e) && W > 0 && N > 0
    ensures W * N > 0 && e.sqrt((W * N) as real) > 0.0
  {
    assert W * N >= 1 * N;
  }

  /** The array `g` of `tauint`: entry `k` judges the window `k + 1`. */
  function Criteria(e: Funcs, G: seq<real>, N: nat): (g: seq<real>)
    requires Sound(e) && N > 0 && |G| > 0 && G[0] != 0.0
    ensures |g| == |G| - 1
  {
    seq(|G| - 1, k requires 0 <= k < |G| - 1 => Criterion(e, k + 1, TintAt(G, k + 1), N))
  }

  /** `k` is the first index at which `g` is negative. */
  predicate FirstNegativeAt(g: seq<real>, k: nat)
  {
    k < |g| && g[k] < 0.0 && forall j :: 0 <= j < k ==> g[j] >= 0.0
  }

  /** `np.where(g < 0)[0][0]`: the index of the first negative entry, or
      none (where numpy raises IndexError). */
  method FirstNegative(g: seq<real>) returns (k: Option<nat>)
    ensures k.Some? ==> FirstNegativeAt(g, k.value)
    ensures k.None? <==> forall j :: 0 <= j < |g| ==> g[j] >= 0.0
  {
    var i := 0;
    while i < |g|
      invariant 0 <= i <= |g|
      invariant forall j :: 0 <= j < i ==> g[j] >= 0.0
    {
      if g[i] < 0.0 {
        return Some(i);
      }
      i := i + 1;
    }
    return None;
  }

  /** What `tauint` reports besides the mean: the error of the mean, the
      integrated autocorrelation time and its error, and the window index. */
  datatype Estimate = Estimate(error: real, tint: real, dtint: real, W: nat)

  /** The estimate read off at window index `W`. */
  function EstimateAt(e: Funcs, G: seq<real>, N: nat, W: nat): (est: Estimate)
    requires N > 0 && W < |G| && G[0] != 0.0
    ensures est.W == W && est.tint == TintAt(G, W)
  {
    Report(e, G[0], N, W, TintAt(G, W))
  }

  /** The values `tauint` returns for window index `W`: the error of the mean
      `sqrt(G[0] / N * 2 * tint)`, `tint` itself and its error
      `tint * 2 * sqrt((W - tint + 1/2) / N)`. */
  function Report(e: Funcs, g0: real, N: nat, W: nat, tint: real): (est: Estimate)
    requires N > 0
    ensures est.W == W && est.tint == tint
  {
    Estimate(e.sqrt(g0 / (N as real) * 2.0 * tint), tint,
             tint * 2.0 * e.sqrt(((W as real) - tint + 0.5) / (N as real)), W)
  }

  /** The loop of `tauint` that collects `sums = [0, G[1], G[1] + G[2], ...]`. */
  method RunningSums(G: seq<real>) returns (sums: seq<real>)
    requires |G| > 0
    ensures |sums| == |G|
    ensures forall j :: 0 <= j < |G| ==> sums[j] == PartialSum(G, j)
  {
    var s := 0.0;
    sums := [0.0];
    var w := 1;
    while w < |G|
      invariant 1 <= w <= |G| && |sums| == w
      invariant s == PartialSum(G, w - 1)
      invariant forall j :: 0 <= j < w ==> sums[j] == PartialSum(G, j)
    {
      s := s + G[w];
      sums := sums + [s];
      w := w + 1;
    }
  }

  /** The window part of `tauint`: the running sums, `tint`, the criterion
      `g` and the first window where `g` turns negative. The estimate is read
      at index `W` of `tint`, where `W` is the position of the first negative
      entry of `g`, which judges window `W + 1`. */
  method Window(e: Funcs, G: seq<real>, N: nat) returns (r: Result<Estimate, PuwrError>)
    requires Sound(e) && N > 0
    ensures |G| == 0 ==> r == Failure(IndexError)
    ensures |G| > 0 && G[0] == 0.0 ==> r == Failure(NoWindow)
    ensures |G| > 0 && G[0] != 0.0 ==>
      && (r.Success? <==> exists k :: 0 <= k < |G| - 1 && Criteria(e, G, N)[k] < 0.0)
      && (r.Failure? ==> r.error == NoWindow)
      && (r.Success? ==> FirstNegativeAt(Criteria(e, G, N), r.value.W)
                         && r.value == EstimateAt(e, G, N, r.value.W))
  {
    if |G| == 0 {
      return Failure(IndexError);
    }
    var sums := RunningSums(G);
    if G[0] == 0.0 {
      return Failure(NoWindow);
    }
    var tint := seq(|G|, j requires 0 <= j < |G| => Tint(G[0], sums[j]));
    var g := seq(|G| - 1, k requires 0 <= k < |G| - 1 =>
      Criterion(e, k + 1, tint[k + 1], N));
    assert g == Criteria(e, G, N);
    var k := FirstNegative(g);
    if k.None? {
      return Failure(NoWindow);
    }
    var W := k.value;
    assert W + 1 < |G|;
    assert sums[W] == PartialSum(G, W);
    assert tint[W] == TintAt(G, W);
    return Success(Report(e, G[0], N, W, tint[W]));
  }

  /** What `tauint(data, f, full_output=True)` returns. */
  datatype TauintResult = TauintResult(mean: real, error: real, tint: real, dtint: real, G: seq<real>, W: nat)

  /** `tauint`: the mean of the derived series with its error, corrected
      for autocorrelation by summing the autocovariance up to the automatic
      window. */
  method Tauint(e: Funcs, data: Samples, sel: Selector) returns (r: Result<TauintResult, PuwrError>)
    requires Sound(e)
    ensures Gamma(e, data, sel).Failure? ==> r == Failure(Gamma(e, data, sel).error)
    ensures Gamma(e, data, sel).Success? ==>
      var g := Gamma(e, data, sel).value;
      && (g.G[0] == 0.0 ==> r == Failure(NoWindow))
      && (g.G[0] != 0.0 ==>
            && (r.Success? <==> exists k :: 0 <= k < |g.G| - 1 && Criteria(e, g.G, g.info.N)[k] < 0.0)
            && (r.Failure? ==> r.error == NoWindow)
            && (r.Success? ==>
                  && FirstNegativeAt(Criteria(e, g.G, g.info.N), r.value.W)
                  && var est := EstimateAt(e, g.G, g.info.N, r.value.W);
                     r.value == TauintResult(g.om, est.error, est.tint, est.dtint, g.G, est.W)))
  {
    var g :- Gamma(e, data, sel);
    var est :- Window(e, g.G, g.info.N);
    return Success(TauintResult(g.om, est.error, est.tint, est.dtint, g.G, est.W));
  }

  // ---------------------------------------------------------------------
  // Test data

  /** Entry `i` of the AR(1) chain `nu[0] = eta[0]`,
      `nu[i] = sqrt(1 - a^2) eta[i] + a nu[i - 1]`. */
  function Nu(e: Funcs, a: real, eta: seq<real>, i: nat): real
    requires i < |eta|
  {
    if i == 0 then eta[0] else e.sqrt(1.0 - a * a) * eta[i] + a * Nu(e, a, eta, i - 1)
  }

  lemma {:induction false} NuStep(e: Funcs, a: real, eta: seq<real>, i: nat, prev: real)
    requires 0 < i < |eta| && prev == Nu(e, a, eta, i - 1)
    ensures e.sqrt(1.0 - a * a) * eta[i] + a * prev == Nu(e, a, eta, i)
  {
  }

  /** The first `i` entries of `vs` are the chain `nu`. */
  predicate ChainUpTo(vs: seq<real>, e: Funcs, a: real, eta: seq<real>, i: nat)
    requires i <= |vs| == |eta|
  {
    forall j :: 0 <= j < i ==> vs[j] == Nu(e, a, eta, j)
  }

  /** Writing the next value of the chain at `i` extends the prefix. */
  lemma {:induction false} ChainExtended(vs: seq<real>, e: Funcs, a: real, eta: seq<real>, i: nat, next: real)
    requires i < |vs| == |eta| && ChainUpTo(vs, e, a, eta, i) && next == Nu(e, a, eta, i)
    ensures ChainUpTo(vs[i := next], e, a, eta, i + 1)
  {
    forall j | 0 <= j < i + 1 ensures vs[i := next][j] == Nu(e, a, eta, j) {
      if j < i {
        assert vs[i := next][j] == vs[j];
      }
    }
  }

  /** The AR(1) coefficient `(2 tau - 1) / (2 tau + 1)` for the target
      integrated autocorrelation time `tau`. */
  function Coefficient(tau: real): real
    requires 2.0 * tau + 1.0 != 0.0
  {
    (2.0 * tau - 1.0) / (2.0 * tau + 1.0)
  }

  /** For `tau > 0` the coefficient lies strictly between -1 and 1, so the
      chain is stationary, and its integrated autocorrelation time
      `(1 + a) / (2 (1 - a))` is `tau`. */
  lemma {:induction false} CoefficientGivesTau(tau: real)
    requires tau > 0.0
    ensures -1.0 < Coefficient(tau) < 1.0
    ensures 0.5 * (1.0 + Coefficient(tau)) / (1.0 - Coefficient(tau)) == tau
  {
    var d := 2.0 * tau + 1.0;
    var a := Coefficient(tau);
    assert a * d == 2.0 * tau - 1.0;
    assert 1.0 + a == 4.0 * tau / d by {
      assert (1.0 + a) * d == 4.0 * tau;
    }
    assert 1.0 - a == 2.0 / d by {
      assert (1.0 - a) * d == 2.0;
    }
  }

  /** `correlated_data(tau, l)` with the `l` uniform deviates `eta` passed in:
      one observable, one replicum, `nu * 0.2 + 1`. */
  method CorrelatedData(e: Funcs, tau: real, eta: seq<real>) returns (r: Result<Samples, PuwrError>)
    ensures 2.0 * tau + 1.0 == 0.0 ==> r == Failure(ZeroDivisionError)
    ensures 2.0 * tau + 1.0 != 0.0 && |eta| == 0 ==> r == Failure(IndexError)
    ensures 2.0 * tau + 1.0 != 0.0 && |eta| > 0 ==>
      r == Success([[seq(|eta|, i requires 0 <= i < |eta| => Nu(e, Coefficient(tau), eta, i) * 0.2 + 1.0)]])
  {
    if 2.0 * tau + 1.0 == 0.0 {
      return Failure(ZeroDivisionError);
    }
    var a := (2.0 * tau - 1.0) / (2.0 * tau + 1.0);
    var asq := a * a;
    if |eta| == 0 {
      return Failure(IndexError);
    }
    var nu := new real[|eta|];
    nu[0] := eta[0];
    var i := 1;
    while i < |eta|
      invariant 1 <= i <= |eta|
      invariant ChainUpTo(nu[..], e, a, eta, i)
    {
      var prev := nu[i - 1];
      var next := e.sqrt(1.0 - asq) * eta[i] + a * prev;
      NuStep(e, a, eta, i, prev);
      ghost var before := nu[..];
      nu[i] := next;
      assert nu[..] == before[i := next];
      ChainExtended(before, e, a, eta, i, next);
      i := i + 1;
    }
    var values := nu[..];
    assert a == Coefficient(tau);
    var out := seq(|eta|, j requires 0 <= j < |eta| => values[j] * 0.2 + 1.0);
    ghost var spec := seq(|eta|, j requires 0 <= j < |eta| => Nu(e, Coefficient(tau), eta, j) * 0.2 + 1.0);
    assert forall j :: 0 <= j < |eta| ==> out[j] == spec[j];
    assert out == spec;
    return Success([[out]]);
  }

  /** The generated data passes the shape check: one observable, one
      replicum of `|eta|` measurements. */
  lemma {:induction false} CorrelatedDataShape(e: Funcs, tau: real, eta: seq<real>)
    requires 2.0 * tau + 1.0 != 0.0 && |eta| > 0
    ensures var x := seq(|eta|, i requires 0 <= i < |eta| => Nu(e, Coefficient(tau), eta, i) * 0.2 + 1.0);
            CheckShape([[x]]) == Success(Info(1, 1, [|eta|], |eta|))
  {
    var x := seq(|eta|, i requires 0 <= i < |eta| => Nu(e, Coefficient(tau), eta, i) * 0.2 + 1.0);
    assert Lengths([x]) == [|eta|];
    assert SumNat([|eta|]) == |eta| + SumNat([]);
  }
}
