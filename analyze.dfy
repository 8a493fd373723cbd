/** Reading the raw Monte Carlo data of one `<directory>` (the `Data`
    class of the analysis script). Every file of the directory whose name
    contains the configured fragment is one replicum: a stream of
    measurements in which the perturbative orders are interleaved, one
    value per order per configuration. The first `ntherm` configurations
    are dropped as thermalisation, the rest is scaled by the
    normalisation, and the streams are regrouped into
    `data[order][replicum][configuration]`.

    Listing the directory and reading a file (including the byte swap and
    taking the real part of complex data) are parameters of the model. */
module Analyze {
  import opened Wrappers
  import Builtins
  import opened RealSums

  /** The settings of a `<directory>` that `Data` reads. */
  datatype Dir = Dir(order: int, tauval: real, ntherm: int, L: int,
                     path: string, fnContains: string, normalization: real)

  /** The data of one directory: the settings it copies, the number of
      replica `nrep`, the number `N` of configurations per replicum and the
      regrouped measurements. */
  datatype Data = Data(ord: int, tau: real, ncut: int, L: int,
                       nrep: nat, N: int, data: seq<seq<seq<real>>>)

  datatype DataError = IndexError | ZeroDivisionError | ValueError

  /** `[f for f in listing if fragment in f]`. */
  function Files(listing: seq<string>, fragment: string): (fs: seq<string>)
    ensures |fs| <= |listing|
  {
    if listing == [] then []
    else (if Builtins.Contains(listing[0], fragment) then [listing[0]] else []) + Files(listing[1..], fragment)
  }

  /** The files read are exactly the listed names that contain the
      fragment. */
  lemma {:induction false} FilesIff(listing: seq<string>, fragment: string, f: string)
    ensures f in Files(listing, fragment) <==> f in listing && Builtins.Contains(f, fragment)
  {
    if listing != [] {
      FilesIff(listing[1..], fragment, f);
      assert listing == [listing[0]] + listing[1..];
    }
  }

  /** Python's `s[k:]`: a negative `k` counts from the end, and a start
      beyond either end is clamped. */
  function SliceFrom(s: seq<real>, k: int): (r: seq<real>)
    ensures |r| <= |s| && r == s[|s| - |r|..]
    ensures k >= 0 ==> |r| == if k <= |s| then |s| - k else 0
    ensures k < 0 ==> |r| == if -k <= |s| then -k else |s|
  {
    if k >= 0 then (if k <= |s| then s[k..] else [])
    else (if -k <= |s| then s[|s| + k..] else s)
  }

  function Scale(s: seq<real>, c: real): (r: seq<real>)
    ensures |r| == |s| && forall j :: 0 <= j < |s| ==> r[j] == s[j] * c
  {
    seq(|s|, j requires 0 <= j < |s| => s[j] * c)
  }

  /** One replicum: the stream with its first `ntherm * order` values cut
      off, times the normalisation. */
  function Replica(d: Dir, stream: seq<real>): seq<real>
  {
    Scale(SliceFrom(stream, d.ntherm * d.order), d.normalization)
  }

  function Replicas(d: Dir, files: seq<string>, read: string -> seq<real>): (raws: seq<seq<real>>)
    ensures |raws| == |files|
    ensures forall r :: 0 <= r < |files| ==> raws[r] == Replica(d, read(files[r]))
  {
    seq(|files|, r requires 0 <= r < |files| => Replica(d, read(files[r])))
  }

  /** A replicum drops the first `ntherm * order` values of its stream
      (all of them when the stream is shorter) and scales the rest; a
      negative count keeps that many values from the end instead. */
  lemma {:induction false} ReplicaTrims(d: Dir, stream: seq<real>)
    ensures var k := d.ntherm * d.order;
            var rep := Replica(d, stream);
            && (0 <= k <= |stream| ==>
                  |rep| == |stream| - k && forall j :: 0 <= j < |rep| ==> rep[j] == stream[k + j] * d.normalization)
            && (k > |stream| ==> rep == [])
            && (k < 0 ==> |rep| == if -k <= |stream| then -k else |stream|)
  {
  }

  /** `concatenate(raw).reshape(nrep * N, ord).transpose().reshape(ord,
      nrep, N)`: row `r * N + i` of the first reshape holds configuration
      `r * N + i` of the concatenation, and the transpose puts order `o`
      first. */
  function Regroup(flat: seq<real>, ord: nat, nrep: nat, N: nat): seq<seq<seq<real>>>
    requires |flat| == nrep * N * ord
  {
    seq(ord, o requires 0 <= o < ord =>
      seq(nrep, r requires 0 <= r < nrep =>
        seq(N, i requires 0 <= i < N => Cell(flat, ord, nrep, N, o, r, i))))
  }

  function Cell(flat: seq<real>, ord: nat, nrep: nat, N: nat, o: nat, r: nat, i: nat): real
    requires |flat| == nrep * N * ord && o < ord && r < nrep && i < N
  {
    flat[CellIndex(ord, nrep, N, o, r, i)]
  }

  /** Where configuration `r * N + i` at order `o` sits in the concatenation;
      it always lies inside the `nrep * N * ord` values. */
  function CellIndex(ord: nat, nrep: nat, N: nat, o: nat, r: nat, i: nat): (idx: nat)
    requires o < ord && r < nrep && i < N
    ensures idx < nrep * N * ord
  {
    CellInRange(ord, nrep, N, o, r, i);
    (r * N + i) * ord + o
  }

  lemma {:induction false} CellInRange(ord: nat, nrep: nat, N: nat, o: nat, r: nat, i: nat)
    requires o < ord && r < nrep && i < N
    ensures (r * N + i) * ord + o < nrep * N * ord
  {
    var m := r * N + i;
    assert m < nrep * N by {
      MulLeq(r + 1, nrep, N);
    }
    MulLeq(m + 1, nrep * N, ord);
  }

  lemma {:induction false} MulLeq(a: nat, b: nat, c: nat)
    requires a <= b
    ensures a * c <= b * c
  {
  }

  /** `raw[0].size / ord` for a positive order (Python 2 integer
      division, which for positive operands is Dafny's). */
  function PerOrder(len: nat, ord: int): nat
    requires ord > 0
  {
    len / ord
  }

  /** `Data.__init__` as written: list, read, trim and scale, then
      regroup. */
  function LoadData(d: Dir, listing: seq<string>, read: string -> seq<real>): Result<Data, DataError>
  {
    Load(d, Replicas(d, Files(listing, d.fnContains), read))
  }

  /** The regrouping of the replica `raws` as written. With no replicum
      `raw[0]` raises IndexError; an order of zero divides by zero; numpy's
      reshape refuses a negative order and a total number of values other
      than `nrep * N * ord`. */
  function Load(d: Dir, raws: seq<seq<real>>): Result<Data, DataError>
  {
    if raws == [] then Failure(IndexError)
    else if d.order == 0 then Failure(ZeroDivisionError)
    else if d.order < 0 then Failure(ValueError)
    else
      var N := PerOrder(|raws[0]|, d.order);
      var flat := Concat(raws);
      if |flat| != |raws| * N * d.order then Failure(ValueError)
      else Success(Data(d.order, d.tauval, d.ntherm, d.L, |raws|, N, Regroup(flat, d.order, |raws|, N)))
  }

  /** Every replicum holds `ord * N` values. */
  predicate Uniform(raws: seq<seq<real>>, ord: int, N: int)
  {
    forall r :: 0 <= r < |raws| ==> |raws[r]| == ord * N
  }

  /** The shape `ord x nrep x N` of regrouped data. */
  predicate Shaped(v: Data)
  {
    && |v.data| == v.ord
    && forall o :: 0 <= o < v.ord ==>
         (|v.data[o]| == v.nrep && forall r :: 0 <= r < v.nrep ==> |v.data[o][r]| == v.N)
  }

  /** `Load` fails exactly when there is no replicum, the order is not
      positive, or the values do not fill `nrep * N * ord`, each with its
      own error; when it succeeds the data has `ord` orders of `nrep`
      replica of `N` configurations, `N` the length of the first replicum
      divided by the order. */
  lemma {:induction false} LoadOutcome(d: Dir, raws: seq<seq<real>>)
    ensures raws == [] <==> Load(d, raws) == Failure(IndexError)
    ensures raws != [] && d.order == 0 <==> Load(d, raws) == Failure(ZeroDivisionError)
    ensures Load(d, raws).Success? <==>
              && raws != [] && d.order > 0
              && |Concat(raws)| == |raws| * (|raws[0]| / d.order) * d.order
    ensures Load(d, raws).Success? ==>
              var v := Load(d, raws).value;
              && v.nrep == |raws| && v.ord == d.order && v.ncut == d.ntherm
              && v.N == |raws[0]| / d.order
              && Shaped(v)
  {
    if Load(d, raws).Success? {
      var v := Load(d, raws).value;
      assert v.data == Regroup(Concat(raws), d.order, |raws|, v.N);
    }
  }

  /** When every replicum holds exactly `ord * N` values, entry `i` of
      replicum `r` at order `o` is value `i * ord + o` of that replicum:
      the streams are de-interleaved, replicum by replicum. */
  lemma {:induction false} LoadEntries(d: Dir, raws: seq<seq<real>>, o: nat, r: nat, i: nat)
    requires Load(d, raws).Success?
    requires var v := Load(d, raws).value;
             Uniform(raws, v.ord, v.N) && o < v.ord && r < v.nrep && i < v.N
    ensures var v := Load(d, raws).value;
            i * v.ord + o < |raws[r]| && v.data[o][r][i] == raws[r][i * v.ord + o]
  {
    var v := Load(d, raws).value;
    var ord: nat, N: nat := d.order, v.N;
    assert v.data == Regroup(Concat(raws), ord, |raws|, N);
    Deinterleave(raws, ord, N, o, r, i);
  }

  /** The index arithmetic of the regrouping: position `(r * N + i) * ord +
      o` of the concatenation of equally long replica is value `i * ord +
      o` of replicum `r`. */
  lemma {:induction false} Deinterleave(raws: seq<seq<real>>, ord: nat, N: nat, o: nat, r: nat, i: nat)
    requires Uniform(raws, ord, N) && o < ord && r < |raws| && i < N
    ensures |Concat(raws)| == |raws| * N * ord
    ensures i * ord + o < ord * N
    ensures Regroup(Concat(raws), ord, |raws|, N)[o][r][i] == raws[r][i * ord + o]
  {
    var m := ord * N;
    var flat := Concat(raws);
    ConcatUniformLength(raws, m);
    Reordered(|raws|, ord, N);
    var j := i * ord + o;
    InRow(i, N, ord, o);
    ConcatIndex(raws, m, r, j);
    Regrouped(r, N, i, ord, o);
    assert Regroup(flat, ord, |raws|, N)[o][r][i] == Cell(flat, ord, |raws|, N, o, r, i);
  }

  lemma {:induction false} InRow(i: nat, N: nat, ord: nat, o: nat)
    requires i < N && o < ord
    ensures i * ord + o < ord * N
  {
    MulLeq(i + 1, N, ord);
  }

  lemma {:induction false} Regrouped(r: int, N: int, i: int, ord: int, o: int)
    ensures (r * N + i) * ord + o == r * (ord * N) + (i * ord + o)
  {
  }

  lemma {:induction false} Reordered(a: int, b: int, c: int)
    ensures a * (b * c) == a * c * b
  {
  }

  // ------------------------------------------------------------ corrected

  /** The regrouping with the replica lengths checked: besides the errors
      of `Load`, a ValueError unless every replicum holds exactly
      `ord * N` values. */
  function LoadChecked(d: Dir, raws: seq<seq<real>>): Result<Data, DataError>
  {
    if raws == [] then Failure(IndexError)
    else if d.order == 0 then Failure(ZeroDivisionError)
    else if d.order < 0 then Failure(ValueError)
    else
      var N := PerOrder(|raws[0]|, d.order);
      if !Uniform(raws, d.order, N) then Failure(ValueError)
      else
        ConcatUniformLength(raws, d.order * N);
        Success(Data(d.order, d.tauval, d.ntherm, d.L, |raws|, N, Regroup(Concat(raws), d.order, |raws|, N)))
  }

  /** `Data.__init__` with the lengths checked. */
  function LoadDataChecked(d: Dir, listing: seq<string>, read: string -> seq<real>): Result<Data, DataError>
  {
    LoadChecked(d, Replicas(d, Files(listing, d.fnContains), read))
  }

  /** The checked regrouping succeeds exactly when there is a replicum, the
      order is positive and all replica have the same length, a multiple
      of the order. */
  lemma {:induction false} LoadCheckedOutcome(d: Dir, raws: seq<seq<real>>)
    ensures LoadChecked(d, raws).Success? <==>
              && raws != [] && d.order > 0 && |raws[0]| % d.order == 0
              && forall r :: 0 <= r < |raws| ==> |raws[r]| == |raws[0]|
    ensures LoadChecked(d, raws).Success? ==>
              var v := LoadChecked(d, raws).value;
              && v.nrep == |raws| && v.ord == d.order && v.N * v.ord == |raws[0]|
              && Uniform(raws, v.ord, v.N)
  {
    if raws != [] && d.order > 0 {
      DivMod(|raws[0]|, d.order);
    }
  }

  /** Whenever the checked regrouping succeeds, every entry is the
      de-interleaved value of its own replicum. */
  lemma {:induction false} LoadCheckedEntries(d: Dir, raws: seq<seq<real>>, o: nat, r: nat, i: nat)
    requires LoadChecked(d, raws).Success?
    requires var v := LoadChecked(d, raws).value;
             o < v.ord && r < v.nrep && i < v.N
    ensures var v := LoadChecked(d, raws).value;
            i * v.ord + o < |raws[r]| && v.data[o][r][i] == raws[r][i * v.ord + o]
  {
    var v := LoadChecked(d, raws).value;
    var ord: nat, N: nat := d.order, v.N;
    ConcatUniformLength(raws, ord * N);
    Reordered(|raws|, ord, N);
    assert v.data == Regroup(Concat(raws), ord, |raws|, N);
    Deinterleave(raws, ord, N, o, r, i);
  }

  lemma {:induction false} DivMod(a: nat, b: nat)
    requires b > 0
    ensures a == b * (a / b) + a % b
    ensures a % b == 0 <==> a == b * (a / b)
  {
  }

  /** Two replica of 5 and 3 values at order 2: `N` is 2, the 8 values fill
      the 2 x 2 x 2 array, and `Load` accepts them, placing the last value
      of the first replicum as the first configuration of the second. The
      checked regrouping refuses the same input. */
  lemma {:induction false} LoadMixesReplica()
    ensures var d := Dir(2, 0.0, 0, 0, "", "", 1.0);
            var raws := [[1.0, 2.0, 3.0, 4.0, 5.0], [6.0, 7.0, 8.0]];
            && Load(d, raws).Success?
            && Load(d, raws).value.data[0][1][0] == raws[0][4] != raws[1][0]
            && LoadChecked(d, raws) == Failure(ValueError)
  {
    var d := Dir(2, 0.0, 0, 0, "", "", 1.0);
    var raws := [[1.0, 2.0, 3.0, 4.0, 5.0], [6.0, 7.0, 8.0]];
    assert Concat(raws[1..]) == raws[1] + Concat(raws[2..]);
    assert Concat(raws) == [1.0, 2.0, 3.0, 4.0, 5.0, 6.0, 7.0, 8.0];
    assert PerOrder(5, 2) == 2;
    assert !Uniform(raws, 2, 2);
  }
}
