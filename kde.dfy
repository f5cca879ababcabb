/** The kernel density estimation helpers of cheetah/utils.py: the argument
    checks and weight defaulting of `kde_marginal_pdf`, the way
    `kde_histogram_1d` calls it, and the normalisation of `kde_joint_pdf_2d`.

    Two layers are modelled. The shape layer follows the tensor SHAPES through
    the expression pipeline of `kde_marginal_pdf` (torch's `repeat`, broadcasting
    and `sum(dim=-2)`), which is where the argument checks and the weight
    defaulting take effect. The value layer follows the NUMBERS for tensors of the
    documented shapes: kernel values and probability masses of
    `kde_marginal_pdf`, and the joint density of `kde_joint_pdf_2d`. */
module Kde {
  import opened Wrappers
  import opened Matrices
  import Decimal

  type Shape = seq<nat>

  // ---------------------------------------------------------------- shape layer

  /** A positional argument as the `isinstance(_, torch.Tensor)` checks see it:
      a tensor (of some shape) or a value of another Python class. */
  datatype Arg = Tensor(shape: Shape) | NonTensor(typeName: string)

  /** The `weights` argument of `kde_marginal_pdf`. */
  datatype Weights = NoWeights | FloatWeights(value: real) | TensorWeights(shape: Shape)

  /** `str(type(x))` for a value of class `typeName`. */
  function TypeRepr(typeName: string): string {
    "<class '" + typeName + "'>"
  }

  /** The sizes of a shape, as `torch.Size` prints them between the brackets. */
  function JoinSizes(s: Shape): string {
    if |s| == 0 then ""
    else if |s| == 1 then Decimal.Digits(s[0])
    else Decimal.Digits(s[0]) + ", " + JoinSizes(s[1..])
  }

  /** `str(t.shape)`. */
  function SizeRepr(s: Shape): string {
    "torch.Size([" + JoinSizes(s) + "])"
  }

  function NotATensor(argument: string, typeName: string): string {
    "Input " + argument + " type is not a torch.Tensor. Got " + TypeRepr(typeName)
  }

  function BinsNotOneDim(s: Shape): string {
    "Input bins must be a of the shape NUM_BINS Got " + SizeRepr(s)
  }

  function SigmaNotZeroDim(s: Shape): string {
    "Input sigma must be a of the shape 1 Got " + SizeRepr(s)
  }

  /** The checks at the head of `kde_marginal_pdf`, in the order the source makes
      them: the first failing check decides the exception. */
  function MarginalChecks(values: Arg, bins: Arg, sigma: Arg): (r: Option<Raised>)
    ensures r.None? <==>
      values.Tensor? && bins.Tensor? && sigma.Tensor? && |bins.shape| == 1 && |sigma.shape| == 0
    ensures values.NonTensor? ==> r == Some(TypeError(NotATensor("values", values.typeName)))
    ensures values.Tensor? && bins.NonTensor? ==> r == Some(TypeError(NotATensor("bins", bins.typeName)))
    ensures values.Tensor? && bins.Tensor? && sigma.NonTensor? ==>
      r == Some(TypeError(NotATensor("sigma", sigma.typeName)))
    ensures values.Tensor? && bins.Tensor? && sigma.Tensor? && |bins.shape| != 1 ==>
      r == Some(ValueError(BinsNotOneDim(bins.shape)))
    ensures values.Tensor? && bins.Tensor? && sigma.Tensor? && |bins.shape| == 1 && |sigma.shape| != 0 ==>
      r == Some(ValueError(SigmaNotZeroDim(sigma.shape)))
    ensures r.Some? && r.value.TypeError? ==> !(values.Tensor? && bins.Tensor? && sigma.Tensor?)
  {
    if values.NonTensor? then Some(TypeError(NotATensor("values", values.typeName)))
    else if bins.NonTensor? then Some(TypeError(NotATensor("bins", bins.typeName)))
    else if sigma.NonTensor? then Some(TypeError(NotATensor("sigma", sigma.typeName)))
    else if |bins.shape| != 1 then Some(ValueError(BinsNotOneDim(bins.shape)))
    else if |sigma.shape| != 0 then Some(ValueError(SigmaNotZeroDim(sigma.shape)))
    else None
  }

  /** A shape of `n` ones. */
  function Ones(n: nat): (s: Shape)
    ensures |s| == n && forall i :: 0 <= i < n ==> s[i] == 1
  {
    if n == 0 then [] else Ones(n - 1) + [1]
  }

  /** Entry-wise product of two shapes of one length. */
  function Times(a: Shape, b: Shape): (s: Shape)
    requires |a| == |b|
    ensures |s| == |a| && forall i :: 0 <= i < |a| ==> s[i] == a[i] * b[i]
  {
    seq(|a|, i requires 0 <= i < |a| => a[i] * b[i])
  }

  /** The shape of `t.repeat(*sizes)` for a tensor of shape `t`: `t` is padded
      with leading ones to the number of sizes and multiplied entry-wise. A call
      with no sizes at all is rejected by the argument parser with a `TypeError`
      (the required `repeats` is missing); fewer sizes than dimensions is a
      `RuntimeError`. */
  function Repeat(t: Shape, sizes: Shape): (r: Result<Shape>)
    ensures r.Ok? <==> |sizes| >= |t| && |sizes| > 0
    ensures r.Ok? ==> |r.value| == |sizes| && r.value[..|sizes| - |t|] == sizes[..|sizes| - |t|]
    ensures |sizes| == 0 ==> r == Err(TypeError(""))
    ensures r.Err? && |sizes| > 0 ==> r.error.RuntimeError?
  {
    if |sizes| == 0 then Err(TypeError(""))
    else if |sizes| < |t| then Err(RuntimeError(""))
    else Ok(Times(sizes, Ones(|sizes| - |t|) + t))
  }

  /** Repeating a 1-D tensor of `nb` entries to `sizes` multiplies the last size by `nb`. */
  lemma RepeatOneDim(nb: nat, sizes: Shape)
    requires |sizes| >= 1
    ensures Repeat([nb], sizes) == Ok(sizes[..|sizes| - 1] + [sizes[|sizes| - 1] * nb])
  {
    var r := Repeat([nb], sizes).value;
    var e := sizes[..|sizes| - 1] + [sizes[|sizes| - 1] * nb];
    forall i | 0 <= i < |sizes|
      ensures r[i] == e[i]
    {
      if i < |sizes| - 1 {
        assert (Ones(|sizes| - 1) + [nb])[i] == 1;
      } else {
        assert (Ones(|sizes| - 1) + [nb])[i] == nb;
      }
    }
    assert r == e;
  }

  /** Two aligned sizes broadcast against each other: equal, or one of them 1. */
  predicate Fits(x: nat, y: nat) {
    x == y || x == 1 || y == 1
  }

  /** The broadcast size of two sizes that fit. */
  function Wider(x: nat, y: nat): nat {
    if x == 1 then y else x
  }

  function Max(m: nat, n: nat): nat {
    if m < n then n else m
  }

  /** Size `k` of a shape counted from its last dimension (`s[-1 - k]`). */
  function Back(s: Shape, k: nat): nat
    requires k < |s|
  {
    s[|s| - 1 - k]
  }

  lemma BackOfSnoc(p: Shape, x: nat)
    ensures Back(p + [x], 0) == x
    ensures forall k :: 0 <= k < |p| ==> Back(p + [x], k + 1) == Back(p, k)
  {
  }

  /** A shape without its last dimension. */
  function Init(s: Shape): (p: Shape)
    requires |s| > 0
    ensures |p| == |s| - 1
  {
    s[..|s| - 1]
  }

  lemma BackOfInit(s: Shape)
    requires |s| > 0
    ensures Back(s, 0) == s[|s| - 1]
    ensures forall k :: 0 <= k < |s| - 1 ==> Back(Init(s), k) == Back(s, k + 1)
  {
  }

  /** Shapes of one length that agree counted from the back are equal. */
  lemma BackEqual(s: Shape, t: Shape)
    requires |s| == |t| && forall k :: 0 <= k < |s| ==> Back(s, k) == Back(t, k)
    ensures s == t
  {
    forall i | 0 <= i < |s|
      ensures s[i] == t[i]
    {
      assert Back(s, |s| - 1 - i) == Back(t, |s| - 1 - i);
    }
  }

  /** Torch's broadcasting rule: shapes aligned at their last dimension, every
      aligned pair fits. */
  predicate Broadcastable(a: Shape, b: Shape) {
    forall k :: 0 <= k < |a| && k < |b| ==> Fits(Back(a, k), Back(b, k))
  }

  /** The broadcast size `k` from the back: the size of whichever shape has that
      dimension, or the wider of the two. */
  function BroadcastSize(a: Shape, b: Shape, k: nat): nat
    requires k < |a| || k < |b|
  {
    if k >= |a| then Back(b, k)
    else if k >= |b| then Back(a, k)
    else Wider(Back(a, k), Back(b, k))
  }

  /** The shape of an element-wise operation on tensors of shapes `a` and `b`,
      computed from the last dimension backwards. Shapes that do not broadcast are
      a `RuntimeError`. */
  function Broadcast(a: Shape, b: Shape): (r: Result<Shape>)
    decreases |a| + |b|
    ensures r.Ok? <==> Broadcastable(a, b)
    ensures r.Err? ==> r.error.RuntimeError?
    ensures r.Ok? ==> |r.value| == Max(|a|, |b|)
    ensures r.Ok? ==> forall k :: 0 <= k < Max(|a|, |b|) ==> Back(r.value, k) == BroadcastSize(a, b, k)
  {
    if |a| == 0 then Ok(b)
    else if |b| == 0 then Ok(a)
    else
      var x, y := a[|a| - 1], b[|b| - 1];
      BackOfInit(a);
      BackOfInit(b);
      if !Fits(x, y) then
        assert !Fits(Back(a, 0), Back(b, 0));
        Err(RuntimeError(""))
      else
        var front := Broadcast(Init(a), Init(b));
        BroadcastStep(a, b);
        if front.Err? then Err(front.error)
        else
          BroadcastSizes(a, b, front.value);
          Ok(front.value + [Wider(x, y)])
  }

  /** The broadcast of the dimensions before the last ones, followed by the wider
      last size, has the broadcast sizes of `a` and `b`. */
  lemma BroadcastSizes(a: Shape, b: Shape, front: Shape)
    requires |a| > 0 && |b| > 0
    requires |front| == Max(|a| - 1, |b| - 1)
    requires forall k :: 0 <= k < |front| ==> Back(front, k) == BroadcastSize(Init(a), Init(b), k)
    ensures var r := front + [Wider(a[|a| - 1], b[|b| - 1])];
      |r| == Max(|a|, |b|) && forall k :: 0 <= k < |r| ==> Back(r, k) == BroadcastSize(a, b, k)
  {
    BackOfInit(a);
    BackOfInit(b);
    var w := Wider(a[|a| - 1], b[|b| - 1]);
    BackOfSnoc(front, w);
    forall k | 0 < k < |front| + 1
      ensures Back(front + [w], k) == BroadcastSize(a, b, k)
    {
      assert Back(front + [w], k) == Back(front, k - 1);
    }
  }

  /** How the dimensions of `a` and `b` before their last ones decide `Broadcastable`. */
  lemma BroadcastStep(a: Shape, b: Shape)
    requires |a| > 0 && |b| > 0 && Fits(a[|a| - 1], b[|b| - 1])
    ensures Broadcastable(a, b) <==> Broadcastable(Init(a), Init(b))
  {
    BackOfInit(a);
    BackOfInit(b);
    var a', b' := Init(a), Init(b);
    if Broadcastable(a', b') {
      forall k | 0 <= k < |a| && k < |b|
        ensures Fits(Back(a, k), Back(b, k))
      {
        if k > 0 {
          assert Fits(Back(a', k - 1), Back(b', k - 1));
        }
      }
    }
    if Broadcastable(a, b) {
      forall k | 0 <= k < |a'| && k < |b'|
        ensures Fits(Back(a', k), Back(b', k))
      {
        assert Fits(Back(a, k + 1), Back(b, k + 1));
      }
    }
  }

  /** Broadcasting is symmetric, and a shape broadcast against itself or against a
      scalar is unchanged. */
  lemma BroadcastSymmetric(a: Shape, b: Shape)
    ensures Broadcast(a, b) == Broadcast(b, a)
    ensures Broadcast(a, a) == Ok(a)
    ensures Broadcast(a, []) == Ok(a) && Broadcast([], a) == Ok(a)
  {
    var r, s := Broadcast(a, b), Broadcast(b, a);
    assert Broadcastable(a, b) <==> Broadcastable(b, a);
    if r.Ok? {
      forall k | 0 <= k < |r.value|
        ensures Back(r.value, k) == Back(s.value, k)
      {
        assert BroadcastSize(a, b, k) == BroadcastSize(b, a, k);
      }
      BackEqual(r.value, s.value);
    }
    var t := Broadcast(a, a);
    assert Broadcastable(a, a);
    forall k | 0 <= k < |a|
      ensures Back(t.value, k) == Back(a, k)
    {
      assert BroadcastSize(a, a, k) == Back(a, k);
    }
    BackEqual(t.value, a);
  }

  /** The shape of `torch.sum(t, dim=-2)`: the second-to-last dimension is summed
      away; a tensor with fewer than two dimensions has no dimension -2. */
  function SumSecondToLast(s: Shape): (r: Result<Shape>)
    ensures r.Ok? <==> |s| >= 2
    ensures r.Err? ==> r.error.IndexError?
    ensures r.Ok? ==> |r.value| == |s| - 1 && r.value[..|s| - 2] == s[..|s| - 2] && r.value[|s| - 2] == s[|s| - 1]
  {
    if |s| < 2 then Err(IndexError("")) else Ok(s[..|s| - 2] + [s[|s| - 1]])
  }

  /** The shape `weights` has after the defaulting of `kde_marginal_pdf`: a float
      becomes `torch.ones(values.shape[:-1])`, `None` becomes the Python float
      `1.0`, which broadcasts like a scalar, and a tensor keeps its shape. */
  function WeightShape(valuesShape: Shape, w: Weights): (s: Shape)
    ensures w.NoWeights? ==> s == [] && forall x :: Broadcast(s, x) == Ok(x)
    ensures w.FloatWeights? && |valuesShape| > 0 ==> s + [valuesShape[|valuesShape| - 1]] == valuesShape
    ensures w.FloatWeights? && |valuesShape| == 0 ==> s == []
    ensures w.TensorWeights? ==> s == w.shape
  {
    match w
    case NoWeights => []
    case FloatWeights(_) => if |valuesShape| == 0 then [] else valuesShape[..|valuesShape| - 1]
    case TensorWeights(shape) => shape
  }

  /** The shapes `(prob_mass, kernel_values)` that `kde_marginal_pdf` returns, or
      the exception it raises. `residuals` broadcasts `values` against the repeated
      bins; dividing by the 0-D `sigma` and by the 0-D square root keeps a shape;
      multiplying by `weights` broadcasts it in. */
  function MarginalShapes(values: Arg, bins: Arg, sigma: Arg, weights: Weights): (r: Result<(Shape, Shape)>)
    ensures MarginalChecks(values, bins, sigma).Some? ==> r == Err(MarginalChecks(values, bins, sigma).value)
    ensures r.Ok? ==> MarginalChecks(values, bins, sigma).None?
    ensures r.Ok? ==> SumSecondToLast(r.value.1) == Ok(r.value.0)
    ensures MarginalChecks(values, bins, sigma).None? && |values.shape| == 0 ==> r == Err(TypeError(""))
  {
    var failed := MarginalChecks(values, bins, sigma);
    if failed.Some? then Err(failed.value)
    else
      var repeated := Repeat(bins.shape, values.shape);
      if repeated.Err? then Err(repeated.error)
      else
        var residuals := Broadcast(values.shape, repeated.value);
        if residuals.Err? then Err(residuals.error)
        else
          var kernel := Broadcast(WeightShape(values.shape, weights), residuals.value);
          if kernel.Err? then Err(kernel.error)
          else
            var probMass := SumSecondToLast(kernel.value);
            if probMass.Err? then Err(probMass.error)
            else Ok((probMass.value, kernel.value))
  }

  /** The residuals of documented inputs: values `[B, N, 1]` against `nb` bins
      give `[B, N, nb]`. */
  lemma DocumentedResiduals(b: nat, n: nat, nb: nat)
    ensures Repeat([nb], [b, n, 1]) == Ok([b, n, nb])
    ensures Broadcast([b, n, 1], [b, n, nb]) == Ok([b, n, nb])
  {
    RepeatOneDim(nb, [b, n, 1]);
    assert [b, n, 1][..2] + [1 * nb] == [b, n, nb];
    var u: Shape, v: Shape := [b, n, 1], [b, n, nb];
    assert Back(u, 0) == 1 && Back(u, 1) == n && Back(u, 2) == b;
    assert Back(v, 0) == nb && Back(v, 1) == n && Back(v, 2) == b;
    assert Broadcastable(u, v);
    var r := Broadcast(u, v);
    assert Back(r.value, 0) == nb && Back(r.value, 1) == n && Back(r.value, 2) == b;
    BackEqual(r.value, v);
  }

  /** With documented inputs (values `[B, N, 1]`, bins `[NB]`, a 0-D sigma) and no
      weights, `kde_marginal_pdf` returns shapes `[B, NB]` and `[B, N, NB]`. */
  lemma UnweightedMarginalShapes(b: nat, n: nat, nb: nat)
    ensures MarginalShapes(Tensor([b, n, 1]), Tensor([nb]), Tensor([]), NoWeights) == Ok(([b, nb], [b, n, nb]))
  {
    DocumentedResiduals(b, n, nb);
    BroadcastSymmetric([b, n, nb], []);
    assert [b, n, nb][..1] + [nb] == [b, nb];
  }

  /** With documented inputs and a float weight, the all-ones weights of shape
      `[B, N]` are broadcast against the kernel of shape `[B, N, NB]`, aligned at
      the LAST dimension: this succeeds only when `N` fits `NB` and `B` fits `N`. */
  lemma FloatWeightedMarginalShapes(b: nat, n: nat, nb: nat, e: real)
    ensures MarginalShapes(Tensor([b, n, 1]), Tensor([nb]), Tensor([]), FloatWeights(e)).Ok?
        <==> Fits(n, nb) && Fits(b, n)
    ensures MarginalShapes(Tensor([b, n, 1]), Tensor([nb]), Tensor([]), FloatWeights(e)).Err? ==>
      MarginalShapes(Tensor([b, n, 1]), Tensor([nb]), Tensor([]), FloatWeights(e)).error.RuntimeError?
  {
    DocumentedResiduals(b, n, nb);
    assert WeightShape([b, n, 1], FloatWeights(e)) == [b, n];
    var w: Shape, k: Shape := [b, n], [b, n, nb];
    assert Back(w, 0) == n && Back(k, 0) == nb;
    assert Back(w, 1) == b && Back(k, 1) == n;
    var kernel := Broadcast(w, k);
    if kernel.Ok? {
      assert |kernel.value| == 3;
    }
  }

  // ------------------------------------------------------------ kde_histogram_1d

  /** `kde_histogram_1d` as written: `epsilon` is passed in the fourth position of
      `kde_marginal_pdf`, which is `weights`, so it is taken for a float weight. */
  function Histogram1dAsWritten(x: Shape, bins: Arg, bandwidth: Arg, epsilon: real): (r: Result<Shape>)
    ensures r.Ok? <==> MarginalShapes(Tensor(x + [1]), bins, bandwidth, FloatWeights(epsilon)).Ok?
  {
    var marginal := MarginalShapes(Tensor(x + [1]), bins, bandwidth, FloatWeights(epsilon));
    if marginal.Err? then Err(marginal.error) else Ok(marginal.value.0)
  }

  /** For `x` of the documented shape `[B, D]` the call as written fails with a
      `RuntimeError` unless `D` fits the bin count and `B` fits `D`. */
  lemma Histogram1dAsWrittenShapes(b: nat, d: nat, nb: nat, epsilon: real)
    ensures Histogram1dAsWritten([b, d], Tensor([nb]), Tensor([]), epsilon).Ok? <==> Fits(d, nb) && Fits(b, d)
    ensures Histogram1dAsWritten([b, d], Tensor([nb]), Tensor([]), epsilon).Err? ==>
      Histogram1dAsWritten([b, d], Tensor([nb]), Tensor([]), epsilon).error.RuntimeError?
  {
    assert [b, d] + [1] == [b, d, 1];
    FloatWeightedMarginalShapes(b, d, nb, epsilon);
  }

  /** The example of the docstring of `kde_histogram_1d`: `x` of shape `[1, 10]`
      and 128 bins, which the docstring says yields shape `[1, 128]`, raises. */
  lemma Histogram1dDocstringExampleRaises()
    ensures Histogram1dAsWritten([1, 10], Tensor([128]), Tensor([]), 1e-10).Err?
    ensures Histogram1dAsWritten([1, 10], Tensor([128]), Tensor([]), 1e-10).error.RuntimeError?
  {
    Histogram1dAsWrittenShapes(1, 10, 128, 1e-10);
  }

  /** `kde_histogram_1d` as its docstring describes it: the samples unweighted and
      `epsilon` not used as a weight. */
  function Histogram1d(x: Shape, bins: Arg, bandwidth: Arg, epsilon: real): (r: Result<Shape>)
    ensures MarginalChecks(Tensor(x + [1]), bins, bandwidth).Some? ==>
      r == Err(MarginalChecks(Tensor(x + [1]), bins, bandwidth).value)
  {
    var marginal := MarginalShapes(Tensor(x + [1]), bins, bandwidth, NoWeights);
    if marginal.Err? then Err(marginal.error) else Ok(marginal.value.0)
  }

  /** The corrected histogram of any `[B, D]` input over `NB` bins has the
      documented shape `[B, NB]`, the docstring example included. */
  lemma Histogram1dShape(b: nat, d: nat, nb: nat, epsilon: real)
    ensures Histogram1d([b, d], Tensor([nb]), Tensor([]), epsilon) == Ok([b, nb])
    ensures Histogram1d([1, 10], Tensor([128]), Tensor([]), epsilon) == Ok([1, 128])
  {
    assert [b, d] + [1] == [b, d, 1];
    UnweightedMarginalShapes(b, d, nb);
    assert [1, 10] + [1] == [1, 10, 1];
    UnweightedMarginalShapes(1, 10, 128);
  }

  // ---------------------------------------------------------------- value layer

  /** `torch.exp` and `torch.sqrt` on reals, taken as parameters. */
  datatype Floats = Floats(exp: real -> real, sqrt: real -> real)

  /** `math.pi`. */
  const Pi: real := 3.141592653589793

  /** Sample weights for values of shape `[B, N, 1]`: none, a float, or one weight
      per sample (a tensor of shape `[B, N, 1]`, given as `w[b][n]`). */
  datatype SampleWeights = Unweighted | FloatWeighted(value: real) | PerSample(w: seq<Vector>)

  /** `N` of values of shape `[B, N, 1]`, given as `B` rows of `N` values; a batch
      of no rows carries no sample count. */
  function Samples(values: seq<Vector>): nat {
    if |values| == 0 then 0 else |values[0]|
  }

  /** The values form a `[B, N]` grid, and per-sample weights have the same grid. */
  predicate Grid(values: seq<Vector>, w: SampleWeights) {
    && (forall b :: 0 <= b < |values| ==> |values[b]| == Samples(values))
    && (w.PerSample? ==>
          |w.w| == |values| && forall b :: 0 <= b < |values| ==> |w.w[b]| == Samples(values))
  }

  /** The size the weights bring to the sample axis of the Gaussians `[B, N, NB]`
      once both are aligned at their last dimension: the scalar `1.0` brings 1,
      `torch.ones([B, N])` brings `B`, a `[B, N, 1]` tensor brings `N`. */
  function SampleAxis(values: seq<Vector>, w: SampleWeights): nat {
    match w
    case Unweighted => 1
    case FloatWeighted(_) => |values|
    case PerSample(_) => Samples(values)
  }

  /** The size the weights bring to the bin axis: `N` for `torch.ones([B, N])`,
      1 otherwise. */
  function BinAxis(values: seq<Vector>, w: SampleWeights): nat {
    if w.FloatWeighted? then Samples(values) else 1
  }

  /** The product `weights * exp(...)` broadcasts. */
  predicate WeightsFit(values: seq<Vector>, bins: Vector, w: SampleWeights) {
    Fits(SampleAxis(values, w), Samples(values)) && Fits(BinAxis(values, w), |bins|)
  }

  /** The rows and columns of each batch of `kernel_values`. */
  function KernelRows(values: seq<Vector>, w: SampleWeights): nat {
    Wider(SampleAxis(values, w), Samples(values))
  }

  function KernelCols(values: seq<Vector>, bins: Vector, w: SampleWeights): nat {
    Wider(BinAxis(values, w), |bins|)
  }

  /** Index `i` of a broadcast dimension, read in the operand whose size there is
      `y`: an operand of size 1 is stretched, so it is always read at 0. */
  function Stretched(i: nat, x: nat, y: nat): (j: nat)
    requires Fits(x, y) && i < Wider(x, y)
    ensures j < y
  {
    if y == 1 then 0 else i
  }

  /** The weight that multiplies entry `i` of the sample axis of batch `b` after
      the defaulting: `1.0` for `None`, an entry of `torch.ones(...)` for a float
      (so the float's value is not used), the given weight otherwise. */
  function WeightOf(w: SampleWeights, b: nat, i: nat): (r: real)
    requires w.PerSample? ==> b < |w.w| && i < |w.w[b]|
    ensures !w.PerSample? ==> r == 1.0
  {
    if w.PerSample? then w.w[b][i] else 1.0
  }

  function Square(t: real): real {
    t * t
  }

  /** The Gaussian kernel of one residual, and the division it needs to be defined. */
  predicate KernelDefined(sigma: real, f: Floats) {
    sigma != 0.0 && f.sqrt(2.0 * Pi * Square(sigma)) != 0.0
  }

  function Entry(weight: real, residual: real, sigma: real, f: Floats): real
    requires KernelDefined(sigma, f)
  {
    weight * f.exp(-0.5 * Square(residual / sigma)) / f.sqrt(2.0 * Pi * Square(sigma))
  }

  /** `kernel_values`: the weights times the Gaussians of the residuals of sample
      `n` of batch `b` against bin `k`, the two broadcast against each other. */
  function KernelValues(values: seq<Vector>, bins: Vector, sigma: real, w: SampleWeights, f: Floats): (r: seq<Matrix>)
    requires Grid(values, w) && WeightsFit(values, bins, w) && KernelDefined(sigma, f)
    ensures |r| == |values|
    ensures forall b :: 0 <= b < |values| ==>
      Shaped(r[b], KernelRows(values, w), KernelCols(values, bins, w))
  {
    var sx, n, bx, nb := SampleAxis(values, w), Samples(values), BinAxis(values, w), |bins|;
    seq(|values|, b requires 0 <= b < |values| =>
      seq(Wider(sx, n), i requires 0 <= i < Wider(sx, n) =>
        seq(Wider(bx, nb), k requires 0 <= k < Wider(bx, nb) =>
          Entry(WeightOf(w, b, i), values[b][Stretched(i, sx, n)] - bins[Stretched(k, bx, nb)], sigma, f))))
  }

  /** Every matrix of the batch has `nb` columns. */
  predicate Batch(kernel: seq<Matrix>, nb: nat) {
    forall b :: 0 <= b < |kernel| ==> Shaped(kernel[b], |kernel[b]|, nb)
  }

  /** `torch.sum(kernel_values, dim=-2)`: per batch and bin, the sum over samples. */
  function ProbMass(kernel: seq<Matrix>, nb: nat): (r: seq<Vector>)
    requires Batch(kernel, nb)
    ensures |r| == |kernel| && forall b :: 0 <= b < |kernel| ==> |r[b]| == nb
  {
    seq(|kernel|, b requires 0 <= b < |kernel| =>
      seq(nb, k requires 0 <= k < nb => Sum(Column(kernel[b], k))))
  }

  /** The value layer of `kde_marginal_pdf`: `(prob_mass, kernel_values)`, or the
      RuntimeError of weights that do not broadcast. */
  function MarginalPdf(values: seq<Vector>, bins: Vector, sigma: real, w: SampleWeights, f: Floats)
    : (r: Result<(seq<Vector>, seq<Matrix>)>)
    requires Grid(values, w) && KernelDefined(sigma, f)
    ensures r.Ok? <==> WeightsFit(values, bins, w)
    ensures r.Err? ==> r.error.RuntimeError?
    ensures r.Ok? ==> r.value.1 == KernelValues(values, bins, sigma, w, f)
    ensures r.Ok? ==> Batch(r.value.1, KernelCols(values, bins, w))
    ensures r.Ok? ==> r.value.0 == ProbMass(r.value.1, KernelCols(values, bins, w))
  {
    if !WeightsFit(values, bins, w) then Err(RuntimeError(""))
    else
      var kernel := KernelValues(values, bins, sigma, w, f);
      (Ok((ProbMass(kernel, KernelCols(values, bins, w)), kernel)))
  }

  /** How the weights of the shape layer correspond to those of the value layer. */
  function ShapeWeights(values: seq<Vector>, w: SampleWeights): Weights {
    match w
    case Unweighted => NoWeights
    case FloatWeighted(e) => FloatWeights(e)
    case PerSample(_) => TensorWeights([|values|, Samples(values), 1])
  }

  /** One weight per sample broadcasts against the kernel unchanged. */
  lemma PerSampleMarginalShapes(b: nat, n: nat, nb: nat)
    ensures MarginalShapes(Tensor([b, n, 1]), Tensor([nb]), Tensor([]), TensorWeights([b, n, 1]))
         == Ok(([b, nb], [b, n, nb]))
  {
    DocumentedResiduals(b, n, nb);
    assert [b, n, nb][..1] + [nb] == [b, nb];
  }

  /** When the all-ones weights of shape `[B, N]` fit the kernel `[B, N, NB]`, the
      kernel becomes `[B, Wider(B, N), Wider(N, NB)]`. */
  lemma FloatWeightedKernelShape(b: nat, n: nat, nb: nat, e: real)
    requires Fits(n, nb) && Fits(b, n)
    ensures MarginalShapes(Tensor([b, n, 1]), Tensor([nb]), Tensor([]), FloatWeights(e))
         == Ok(([b, Wider(n, nb)], [b, Wider(b, n), Wider(n, nb)]))
  {
    DocumentedResiduals(b, n, nb);
    assert WeightShape([b, n, 1], FloatWeights(e)) == [b, n];
    OnesBroadcast(b, n, nb);
    assert [b, Wider(b, n), Wider(n, nb)][..1] + [Wider(n, nb)] == [b, Wider(n, nb)];
  }

  /** `torch.ones([B, N])` against `[B, N, NB]`. */
  lemma OnesBroadcast(b: nat, n: nat, nb: nat)
    requires Fits(n, nb) && Fits(b, n)
    ensures Broadcast([b, n], [b, n, nb]) == Ok([b, Wider(b, n), Wider(n, nb)])
  {
    var w: Shape, k: Shape := [b, n], [b, n, nb];
    assert Back(w, 0) == n && Back(k, 0) == nb;
    assert Back(w, 1) == b && Back(k, 1) == n && Back(k, 2) == b;
    assert Broadcastable(w, k);
    var kernel := Broadcast(w, k);
    var expected: Shape := [b, Wider(b, n), Wider(n, nb)];
    assert Back(kernel.value, 0) == Back(expected, 0);
    assert Back(kernel.value, 1) == Back(expected, 1);
    assert Back(kernel.value, 2) == Back(expected, 2);
    BackEqual(kernel.value, expected);
  }

  /** The value layer agrees with the shape layer: for values `[B, N, 1]` and `NB`
      bins the call succeeds exactly when the shape layer says so, and then the
      shapes the shape layer computes are those of the kernel and mass built. */
  lemma MarginalShapesAgree(values: seq<Vector>, bins: Vector, sigma: real, w: SampleWeights, f: Floats)
    requires Grid(values, w) && KernelDefined(sigma, f)
    ensures var s := MarginalShapes(Tensor([|values|, Samples(values), 1]), Tensor([|bins|]), Tensor([]),
                                    ShapeWeights(values, w));
      && (MarginalPdf(values, bins, sigma, w, f).Ok? <==> s.Ok?)
      && (s.Ok? ==> s.value == ([|values|, KernelCols(values, bins, w)],
                                [|values|, KernelRows(values, w), KernelCols(values, bins, w)]))
  {
    var b, n, nb := |values|, Samples(values), |bins|;
    match w
    case Unweighted =>
      UnweightedMarginalShapes(b, n, nb);
    case FloatWeighted(e) =>
      FloatWeightedMarginalShapes(b, n, nb, e);
      if Fits(n, nb) && Fits(b, n) {
        FloatWeightedKernelShape(b, n, nb, e);
      }
    case PerSample(_) =>
      PerSampleMarginalShapes(b, n, nb);
  }

  /** The entries of the kernel, read through the broadcast. */
  lemma KernelEntry(values: seq<Vector>, bins: Vector, sigma: real, w: SampleWeights, f: Floats, b: nat, i: nat, k: nat)
    requires Grid(values, w) && WeightsFit(values, bins, w) && KernelDefined(sigma, f)
    requires b < |values| && i < KernelRows(values, w) && k < KernelCols(values, bins, w)
    ensures KernelValues(values, bins, sigma, w, f)[b][i][k]
         == Entry(WeightOf(w, b, i), values[b][Stretched(i, SampleAxis(values, w), Samples(values))]
                                   - bins[Stretched(k, BinAxis(values, w), |bins|)], sigma, f)
  {
  }

  /** A float weight gives the result of no weight, whatever its value, as long as
      broadcasting the all-ones weights does not change the kernel's shape. */
  lemma FloatWeightIgnored(values: seq<Vector>, bins: Vector, sigma: real, e: real, f: Floats)
    requires Grid(values, Unweighted) && KernelDefined(sigma, f)
    requires WeightsFit(values, bins, FloatWeighted(e))
    requires KernelRows(values, FloatWeighted(e)) == Samples(values)
    requires KernelCols(values, bins, FloatWeighted(e)) == |bins|
    ensures MarginalPdf(values, bins, sigma, FloatWeighted(e), f) == MarginalPdf(values, bins, sigma, Unweighted, f)
  {
    var fw := FloatWeighted(e);
    var p := KernelValues(values, bins, sigma, fw, f);
    var q := KernelValues(values, bins, sigma, Unweighted, f);
    assert KernelRows(values, Unweighted) == Samples(values);
    assert KernelCols(values, bins, Unweighted) == |bins|;
    forall b | 0 <= b < |values|
      ensures p[b] == q[b]
    {
      forall i | 0 <= i < Samples(values)
        ensures p[b][i] == q[b][i]
      {
        forall k | 0 <= k < |bins|
          ensures p[b][i][k] == q[b][i][k]
        {
          KernelEntry(values, bins, sigma, fw, f, b, i, k);
          KernelEntry(values, bins, sigma, Unweighted, f, b, i, k);
        }
      }
    }
    assert p == q;
  }

  lemma {:induction false} SumConstant(v: Vector, c: real)
    requires forall i :: 0 <= i < |v| ==> v[i] == c
    ensures Sum(v) == |v| as real * c
  {
    if |v| > 0 {
      SumConstant(v[1..], c);
    }
  }

  /** With one sample per batch the all-ones weights of shape `[B, 1]` stretch that
      sample over `B` rows: column `k` of batch `b` repeats its Gaussian `B` times. */
  lemma FloatWeightColumn(values: seq<Vector>, bins: Vector, sigma: real, e: real, f: Floats, b: nat, k: nat)
    requires Grid(values, Unweighted) && KernelDefined(sigma, f)
    requires Samples(values) == 1 && b < |values| && k < |bins|
    ensures var p := MarginalPdf(values, bins, sigma, FloatWeighted(e), f);
      && p.Ok? && |p.value.1[b]| == |values|
      && p.value.0[b][k] == |values| as real * Entry(1.0, values[b][0] - bins[k], sigma, f)
  {
    var fw := FloatWeighted(e);
    assert WeightsFit(values, bins, fw);
    var col := Column(KernelValues(values, bins, sigma, fw, f)[b], k);
    var c := Entry(1.0, values[b][0] - bins[k], sigma, f);
    forall i | 0 <= i < |col|
      ensures col[i] == c
    {
      KernelEntry(values, bins, sigma, fw, f, b, i, k);
    }
    SumConstant(col, c);
  }

  /** The unweighted kernel of one sample is that sample's Gaussian, counted once. */
  lemma UnweightedColumn(values: seq<Vector>, bins: Vector, sigma: real, f: Floats, b: nat, k: nat)
    requires Grid(values, Unweighted) && KernelDefined(sigma, f)
    requires Samples(values) == 1 && b < |values| && k < |bins|
    ensures var q := MarginalPdf(values, bins, sigma, Unweighted, f);
      && q.Ok? && |q.value.1[b]| == 1
      && q.value.0[b][k] == Entry(1.0, values[b][0] - bins[k], sigma, f)
  {
    assert WeightsFit(values, bins, Unweighted);
    var col := Column(KernelValues(values, bins, sigma, Unweighted, f)[b], k);
    var c := Entry(1.0, values[b][0] - bins[k], sigma, f);
    KernelEntry(values, bins, sigma, Unweighted, f, b, 0, k);
    assert col == [c];
    assert Sum([c]) == c + Sum([]);
  }

  /** With one sample per batch and more than one batch, the all-ones weights of
      shape `[B, 1]` stretch the single sample over `B` rows: the call does not
      raise, and every probability mass is `B` times the unweighted one. */
  lemma FloatWeightRepeatsSample(values: seq<Vector>, bins: Vector, sigma: real, e: real, f: Floats)
    requires Grid(values, Unweighted) && KernelDefined(sigma, f)
    requires |values| > 1 && Samples(values) == 1
    ensures var p, q := MarginalPdf(values, bins, sigma, FloatWeighted(e), f), MarginalPdf(values, bins, sigma, Unweighted, f);
      && p.Ok? && q.Ok?
      && (forall b :: 0 <= b < |values| ==> |p.value.1[b]| == |values| && |q.value.1[b]| == 1)
      && (forall b, k :: 0 <= b < |values| && 0 <= k < |bins| ==>
            p.value.0[b][k] == |values| as real * q.value.0[b][k])
  {
    SingleSampleRows(values, bins, sigma, e, f);
    forall b, k | 0 <= b < |values| && 0 <= k < |bins|
      ensures MarginalPdf(values, bins, sigma, FloatWeighted(e), f).value.0[b][k]
           == |values| as real * MarginalPdf(values, bins, sigma, Unweighted, f).value.0[b][k]
    {
      FloatWeightColumn(values, bins, sigma, e, f, b, k);
      UnweightedColumn(values, bins, sigma, f, b, k);
    }
  }

  /** With one sample per batch, the float-weighted kernel has `B` rows per batch
      and the unweighted one a single row. */
  lemma SingleSampleRows(values: seq<Vector>, bins: Vector, sigma: real, e: real, f: Floats)
    requires Grid(values, Unweighted) && KernelDefined(sigma, f) && Samples(values) == 1
    ensures var p, q := MarginalPdf(values, bins, sigma, FloatWeighted(e), f), MarginalPdf(values, bins, sigma, Unweighted, f);
      && p.Ok? && q.Ok?
      && (forall b :: 0 <= b < |values| ==> |p.value.1[b]| == |values| && |q.value.1[b]| == 1)
  {
    assert WeightsFit(values, bins, FloatWeighted(e)) && WeightsFit(values, bins, Unweighted);
  }

  /** The corrected reading of a single sample: its Gaussian counted once. */
  lemma UnweightedSingleSample(values: seq<Vector>, bins: Vector, sigma: real, f: Floats)
    requires Grid(values, Unweighted) && KernelDefined(sigma, f) && Samples(values) == 1
    ensures var q := MarginalPdf(values, bins, sigma, Unweighted, f);
      && q.Ok?
      && forall b, k :: 0 <= b < |values| && 0 <= k < |bins| ==>
           q.value.0[b][k] == Entry(1.0, values[b][0] - bins[k], sigma, f)
  {
    assert WeightsFit(values, bins, Unweighted);
    forall b, k | 0 <= b < |values| && 0 <= k < |bins|
      ensures MarginalPdf(values, bins, sigma, Unweighted, f).value.0[b][k] == Entry(1.0, values[b][0] - bins[k], sigma, f)
    {
      UnweightedColumn(values, bins, sigma, f, b, k);
    }
  }

  /** One more sample in a batch adds its kernel row to that batch's probability
      mass: `prob_mass` is the sum over the sample axis. */
  lemma ProbMassAddsSample(m: Matrix, row: Vector, nb: nat)
    requires Shaped(m, |m|, nb) && |row| == nb
    ensures Batch([m + [row]], nb) && Batch([m], nb)
    ensures forall k :: 0 <= k < nb ==> ProbMass([m + [row]], nb)[0][k] == ProbMass([m], nb)[0][k] + row[k]
  {
    forall k | 0 <= k < nb
      ensures ProbMass([m + [row]], nb)[0][k] == ProbMass([m], nb)[0][k] + row[k]
    {
      assert Column(m + [row], k) == Column(m, k) + [row[k]];
      SumAppend(Column(m, k), [row[k]]);
    }
  }

  lemma {:induction false} SumNonneg(v: Vector)
    requires forall i :: 0 <= i < |v| ==> v[i] >= 0.0
    ensures Sum(v) >= 0.0
  {
    if |v| > 0 {
      SumNonneg(v[1..]);
    }
  }

  lemma EntryNonneg(weight: real, residual: real, sigma: real, f: Floats)
    requires KernelDefined(sigma, f) && f.sqrt(2.0 * Pi * Square(sigma)) > 0.0
    requires weight >= 0.0 && f.exp(-0.5 * Square(residual / sigma)) >= 0.0
    ensures Entry(weight, residual, sigma, f) >= 0.0
  {
    assert weight * f.exp(-0.5 * Square(residual / sigma)) >= 0.0;
  }

  /** Non-negative weights with a non-negative `exp` and a positive square root give
      non-negative kernel values and probability masses. */
  lemma MarginalPdfNonneg(values: seq<Vector>, bins: Vector, sigma: real, w: SampleWeights, f: Floats)
    requires Grid(values, w) && sigma != 0.0
    requires f.sqrt(2.0 * Pi * Square(sigma)) > 0.0
    requires forall t :: f.exp(t) >= 0.0
    requires w.PerSample? ==> forall b, n :: 0 <= b < |w.w| && 0 <= n < |w.w[b]| ==> w.w[b][n] >= 0.0
    ensures KernelDefined(sigma, f)
    ensures var r := MarginalPdf(values, bins, sigma, w, f);
      r.Ok? ==>
      && (forall b, i, k :: 0 <= b < |r.value.1| && 0 <= i < |r.value.1[b]| && 0 <= k < |r.value.1[b][i]| ==>
            r.value.1[b][i][k] >= 0.0)
      && (forall b, k :: 0 <= b < |r.value.0| && 0 <= k < |r.value.0[b]| ==> r.value.0[b][k] >= 0.0)
  {
    var r := MarginalPdf(values, bins, sigma, w, f);
    if r.Ok? {
      var kernel := r.value.1;
      var sx, n, bx, nb := SampleAxis(values, w), Samples(values), BinAxis(values, w), |bins|;
      forall b, i, k | 0 <= b < |kernel| && 0 <= i < |kernel[b]| && 0 <= k < |kernel[b][i]|
        ensures kernel[b][i][k] >= 0.0
      {
        KernelEntry(values, bins, sigma, w, f, b, i, k);
        EntryNonneg(WeightOf(w, b, i), values[b][Stretched(i, sx, n)] - bins[Stretched(k, bx, nb)], sigma, f);
      }
      forall b, k | 0 <= b < |r.value.0| && 0 <= k < |r.value.0[b]|
        ensures r.value.0[b][k] >= 0.0
      {
        SumNonneg(Column(kernel[b], k));
      }
    }
  }

  // ------------------------------------------------------------ kde_joint_pdf_2d

  /** An argument of `kde_joint_pdf_2d`: kernel values of shape `[B, N, NB]`, as a
      batch of `N × NB` matrices, or a value of another Python class. */
  datatype KernelArg = KernelTensor(values: seq<Matrix>) | KernelNonTensor(typeName: string)

  /** The message of `kde_joint_pdf_2d`'s type checks; the source joins its two
      parts without a space. */
  function JointNotATensor(argument: string, typeName: string): string {
    "Input " + argument + " type is not a torch.Tensor." + "Got " + TypeRepr(typeName)
  }

  /** Two batches of kernel values `torch.matmul` can multiply after the transpose:
      equal batch and sample counts, rectangular matrices. */
  predicate Matched(k1: seq<Matrix>, k2: seq<Matrix>) {
    |k1| == |k2| &&
    forall b :: 0 <= b < |k1| ==> Rect(k1[b]) && Rect(k2[b]) && |k1[b]| == |k2[b]|
  }

  /** `torch.matmul(kernel_values1.transpose(-2, -1), kernel_values2)` for one
      batch: entry `[i][j]` sums, over the samples, bin `i` of the first kernel
      times bin `j` of the second. */
  function JointKernel(a: Matrix, c: Matrix): (m: Matrix)
    requires Rect(a) && Rect(c) && |a| == |c|
    ensures Shaped(m, Cols(a), Cols(c))
    ensures forall i, j :: 0 <= i < Cols(a) && 0 <= j < Cols(c) ==> m[i][j] == Dot(Column(a, i), Column(c, j))
  {
    var t := Transpose(a);
    assert forall i :: 0 <= i < |t| ==> t[i] == Column(a, i);
    Mul(t, c)
  }

  /** `joint / normalization` for one batch: every entry divided by `d`. */
  function Normalize(m: Matrix, d: real): (r: Matrix)
    requires d != 0.0
    ensures |r| == |m| && forall i :: 0 <= i < |m| ==> |r[i]| == |m[i]|
    ensures forall i, j :: 0 <= i < |m| && 0 <= j < |m[i]| ==> r[i][j] == m[i][j] / d
  {
    ScaleRowsRows(m, 1.0 / d);
    ScaleRows(m, 1.0 / d)
  }

  /** Every row of `m` scaled by `c`. */
  function ScaleRows(m: Matrix, c: real): (r: Matrix)
    ensures |r| == |m|
  {
    if |m| == 0 then [] else [Scale(m[0], c)] + ScaleRows(m[1..], c)
  }

  lemma {:induction false} ScaleRowsRows(m: Matrix, c: real)
    ensures forall i :: 0 <= i < |m| ==> ScaleRows(m, c)[i] == Scale(m[i], c)
  {
    if |m| > 0 {
      ScaleRowsRows(m[1..], c);
      forall i | 1 <= i < |m|
        ensures ScaleRows(m, c)[i] == Scale(m[i], c)
      {
        assert m[1..][i - 1] == m[i];
      }
    }
  }

  /** The normalisation of batch `b`: the sum of all entries of its joint kernel
      plus `epsilon`. */
  function Normalization(k1: seq<Matrix>, k2: seq<Matrix>, b: nat, epsilon: real): real
    requires Matched(k1, k2) && b < |k1|
  {
    Total(JointKernel(k1[b], k2[b])) + epsilon
  }

  predicate Normalizable(k1: seq<Matrix>, k2: seq<Matrix>, epsilon: real)
    requires Matched(k1, k2)
  {
    forall b :: 0 <= b < |k1| ==> Normalization(k1, k2, b, epsilon) != 0.0
  }

  /** The value of `kde_joint_pdf_2d` on matched kernel values. */
  function JointPdf(k1: seq<Matrix>, k2: seq<Matrix>, epsilon: real): (pdf: seq<Matrix>)
    requires Matched(k1, k2) && Normalizable(k1, k2, epsilon)
    ensures |pdf| == |k1|
    ensures forall b :: 0 <= b < |k1| ==> Shaped(pdf[b], Cols(k1[b]), Cols(k2[b]))
    ensures forall b, i, j :: 0 <= b < |k1| && 0 <= i < Cols(k1[b]) && 0 <= j < Cols(k2[b]) ==>
      i < |pdf[b]| && j < |pdf[b][i]| && pdf[b][i][j] == Dot(Column(k1[b], i), Column(k2[b], j)) / Normalization(k1, k2, b, epsilon)
  {
    seq(|k1|, b requires 0 <= b < |k1| =>
      Normalize(JointKernel(k1[b], k2[b]), Normalization(k1, k2, b, epsilon)))
  }

  /** `kde_joint_pdf_2d`: the two type checks, then the joint density. Kernel
      values `torch.matmul` cannot multiply are a `RuntimeError`. A normalisation
      of exactly zero, which the source does not guard against, is excluded. */
  function KdeJointPdf2d(a1: KernelArg, a2: KernelArg, epsilon: real): (r: Result<seq<Matrix>>)
    requires a1.KernelTensor? && a2.KernelTensor? && Matched(a1.values, a2.values) ==>
      Normalizable(a1.values, a2.values, epsilon)
    ensures a1.KernelNonTensor? ==> r == Err(TypeError(JointNotATensor("kernel_values1", a1.typeName)))
    ensures a1.KernelTensor? && a2.KernelNonTensor? ==>
      r == Err(TypeError(JointNotATensor("kernel_values2", a2.typeName)))
    ensures r.Ok? <==> a1.KernelTensor? && a2.KernelTensor? && Matched(a1.values, a2.values)
    ensures r.Ok? ==> r.value == JointPdf(a1.values, a2.values, epsilon)
  {
    if a1.KernelNonTensor? then Err(TypeError(JointNotATensor("kernel_values1", a1.typeName)))
    else if a2.KernelNonTensor? then Err(TypeError(JointNotATensor("kernel_values2", a2.typeName)))
    else if !Matched(a1.values, a2.values) then Err(RuntimeError(""))
    else Ok(JointPdf(a1.values, a2.values, epsilon))
  }

  /** Every entry of every matrix of the batch is non-negative. */
  predicate Nonneg(k: seq<Matrix>) {
    forall b, n, i :: 0 <= b < |k| && 0 <= n < |k[b]| && 0 <= i < |k[b][n]| ==> k[b][n][i] >= 0.0
  }

  lemma {:induction false} DotNonneg(u: Vector, v: Vector)
    requires |u| == |v|
    requires forall i :: 0 <= i < |u| ==> u[i] >= 0.0 && v[i] >= 0.0
    ensures Dot(u, v) >= 0.0
  {
    if |u| > 0 {
      DotNonneg(u[1..], v[1..]);
      assert Dot(u, v) == u[0] * v[0] + Dot(u[1..], v[1..]);
    }
  }

  lemma {:induction false} TotalNonneg(m: Matrix)
    requires forall i, j :: 0 <= i < |m| && 0 <= j < |m[i]| ==> m[i][j] >= 0.0
    ensures Total(m) >= 0.0
  {
    if |m| > 0 {
      SumNonneg(m[0]);
      TotalNonneg(m[1..]);
    }
  }

  /** The sum of each row. */
  function RowSums(m: Matrix): (r: Vector)
    ensures |r| == |m| && forall i :: 0 <= i < |m| ==> r[i] == Sum(m[i])
  {
    seq(|m|, i requires 0 <= i < |m| => Sum(m[i]))
  }

  lemma {:induction false} TotalOfRowSums(m: Matrix)
    ensures Total(m) == Sum(RowSums(m))
  {
    if |m| > 0 {
      TotalOfRowSums(m[1..]);
      assert RowSums(m)[1..] == RowSums(m[1..]);
    }
  }

  lemma {:induction false} SumPointwiseScaled(u: Vector, v: Vector, c: real)
    requires |u| == |v| && forall i :: 0 <= i < |u| ==> u[i] == c * v[i]
    ensures Sum(u) == c * Sum(v)
  {
    if |u| > 0 {
      SumPointwiseScaled(u[1..], v[1..], c);
      assert c * Sum(v) == c * v[0] + c * Sum(v[1..]);
    }
  }

  lemma RowSumsScaled(m: Matrix, c: real)
    ensures forall i :: 0 <= i < |m| ==> RowSums(ScaleRows(m, c))[i] == c * RowSums(m)[i]
  {
    ScaleRowsRows(m, c);
    forall i | 0 <= i < |m|
      ensures RowSums(ScaleRows(m, c))[i] == c * RowSums(m)[i]
    {
      SumScale(m[i], c);
    }
  }

  lemma TotalScaleRows(m: Matrix, c: real)
    ensures Total(ScaleRows(m, c)) == c * Total(m)
  {
    TotalOfRowSums(ScaleRows(m, c));
    TotalOfRowSums(m);
    RowSumsScaled(m, c);
    SumPointwiseScaled(RowSums(ScaleRows(m, c)), RowSums(m), c);
  }

  /** For non-negative kernel values the joint kernels are non-negative, so a
      positive `epsilon` makes every normalisation positive. */
  lemma JointKernelNonneg(k1: seq<Matrix>, k2: seq<Matrix>, epsilon: real)
    requires Matched(k1, k2) && Nonneg(k1) && Nonneg(k2) && epsilon > 0.0
    ensures forall b, i, j :: 0 <= b < |k1| && 0 <= i < Cols(k1[b]) && 0 <= j < Cols(k2[b]) ==>
      JointKernel(k1[b], k2[b])[i][j] >= 0.0
    ensures forall b :: 0 <= b < |k1| ==> Total(JointKernel(k1[b], k2[b])) >= 0.0
    ensures Normalizable(k1, k2, epsilon)
  {
    forall b | 0 <= b < |k1|
      ensures forall i, j :: 0 <= i < Cols(k1[b]) && 0 <= j < Cols(k2[b]) ==> JointKernel(k1[b], k2[b])[i][j] >= 0.0
      ensures Total(JointKernel(k1[b], k2[b])) >= 0.0
    {
      var m := JointKernel(k1[b], k2[b]);
      forall i, j | 0 <= i < Cols(k1[b]) && 0 <= j < Cols(k2[b])
        ensures m[i][j] >= 0.0
      {
        DotNonneg(Column(k1[b], i), Column(k2[b], j));
      }
      TotalNonneg(m);
    }
  }

  /** One batch: the entries of a non-negative joint kernel divided by their sum
      `S` plus `epsilon` sum to `S/(S+ε)`, which is below 1. */
  lemma NormalizedTotal(m: Matrix, epsilon: real)
    requires Total(m) >= 0.0 && epsilon > 0.0
    ensures Total(Normalize(m, Total(m) + epsilon)) == Total(m) / (Total(m) + epsilon) < 1.0
  {
    var s := Total(m);
    TotalScaleRows(m, 1.0 / (s + epsilon));
    assert Normalize(m, s + epsilon) == ScaleRows(m, 1.0 / (s + epsilon));
    assert s < s + epsilon;
  }

  /** For non-negative kernel values and a positive `epsilon`, every entry of the
      joint density is non-negative. */
  lemma JointPdfNonneg(k1: seq<Matrix>, k2: seq<Matrix>, epsilon: real)
    requires Matched(k1, k2) && Nonneg(k1) && Nonneg(k2) && epsilon > 0.0
    ensures Normalizable(k1, k2, epsilon)
    ensures Nonneg(JointPdf(k1, k2, epsilon))
  {
    JointKernelNonneg(k1, k2, epsilon);
    var pdf := JointPdf(k1, k2, epsilon);
    forall b, i, j | 0 <= b < |pdf| && 0 <= i < |pdf[b]| && 0 <= j < |pdf[b][i]|
      ensures pdf[b][i][j] >= 0.0
    {
      assert pdf[b][i][j] == JointKernel(k1[b], k2[b])[i][j] / Normalization(k1, k2, b, epsilon);
    }
  }

  /** For non-negative kernel values and a positive `epsilon`, the entries of each
      batch of the joint density sum to `S/(S+ε) < 1`, where `S` is the sum of all
      entries of that batch's joint kernel: the density is never more than a
      probability distribution, and falls short of one by the `epsilon` share. */
  lemma JointPdfMass(k1: seq<Matrix>, k2: seq<Matrix>, epsilon: real)
    requires Matched(k1, k2) && Nonneg(k1) && Nonneg(k2) && epsilon > 0.0
    ensures Normalizable(k1, k2, epsilon)
    ensures forall b :: 0 <= b < |k1| ==>
      var s := Total(JointKernel(k1[b], k2[b]));
      s >= 0.0 && Total(JointPdf(k1, k2, epsilon)[b]) == s / (s + epsilon) < 1.0
  {
    JointKernelNonneg(k1, k2, epsilon);
    var pdf := JointPdf(k1, k2, epsilon);
    forall b | 0 <= b < |k1|
      ensures var s := Total(JointKernel(k1[b], k2[b]));
        Total(pdf[b]) == s / (s + epsilon) < 1.0
    {
      var m := JointKernel(k1[b], k2[b]);
      NormalizedTotal(m, epsilon);
    }
  }
}
