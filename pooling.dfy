/** The shape arithmetic and the max-pooling kernels of the pooling layer
    (include/lbann/layers/transform/pooling.hpp).

    `int` stands for both C++ `int` and `DataType`; 32-bit overflow and
    floating point are not modelled.  The number of GPUs and of processes per
    model, which the layer asks the cuDNN manager and the communicator for,
    are constructor parameters.  The im2col matrix of one sample, whose row
    `c * pool_size + i` holds entry `i` of channel `c`'s window, is the
    three-dimensional array `im2col[c, i, j]`; building it (`im2col`) and
    scattering it back (`col2im`) are outside the model. */
module Pooling {
  import opened Base
  import opened Arith

  /** `pool_mode`; `Other` stands for any value the switch has no case for. */
  datatype PoolMode = Max | Average | AverageNoPad | Other

  /** The cuDNN pooling modes the layer selects. */
  datatype CudnnPoolingMode =
    | CudnnPoolingMax
    | CudnnPoolingAverageCountIncludePadding
    | CudnnPoolingAverageCountExcludePadding

  /** The `lbann_exception`s the modelled code throws. */
  datatype PoolingError =
    | NoGpuImplementation    // "no GPU implementation for pooling mode"
    | CpuModeNotImplemented  // "CPU pooling layer only implements max and average pooling"

  /** What the GPU set-up hands to cuDNN. */
  datatype GpuDescriptors = GpuDescriptors(
    inputDims: seq<int>,
    inputStrides: seq<int>,
    mode: CudnnPoolingMode,
    poolDims: seq<int>,
    poolPads: seq<int>,
    poolStrides: seq<int>,
    outputDims: seq<int>,
    outputStrides: seq<int>)

  /** The two counts the constructor reads from the cuDNN manager and the
      communicator. */
  datatype GpuInfo = GpuInfo(numGpus: int, numProcesses: int)

  // -----------------------------------------------------------------------
  // Products and sizes
  // -----------------------------------------------------------------------

  /** `std::accumulate(begin, end, 1, std::multiplies<int>())`. */
  function Product(xs: seq<int>): int {
    if xs == [] then 1 else xs[0] * Product(xs[1..])
  }

  lemma {:induction false} ProductAppend(a: seq<int>, b: seq<int>)
    ensures Product(a + b) == Product(a) * Product(b)
  {
    if a != [] {
      ProductAppend(a[1..], b);
      assert (a + b)[1..] == a[1..] + b;
      assert a[0] * (Product(a[1..]) * Product(b)) == (a[0] * Product(a[1..])) * Product(b);
    } else {
      assert a + b == b;
    }
  }

  /** Splitting off the first factor. */
  lemma ProductHead(xs: seq<int>)
    requires |xs| >= 1
    ensures Product(xs) == Product(xs[1..]) * xs[0]
  {
    var rest := Product(xs[1..]);
    assert xs[0] * rest == rest * xs[0];
  }

  /** Splitting off the first factor of a suffix. */
  lemma ProductSuffix(xs: seq<int>, k: nat)
    requires k < |xs|
    ensures Product(xs[k..]) == Product(xs[k + 1..]) * xs[k]
  {
    assert xs[k..][1..] == xs[k + 1..];
    ProductHead(xs[k..]);
  }

  /** A product of positive factors is positive. */
  lemma {:induction false} ProductPositive(xs: seq<int>)
    requires forall i :: 0 <= i < |xs| ==> xs[i] > 0
    ensures Product(xs) > 0
  {
    if xs != [] {
      ProductPositive(xs[1..]);
      MulPositive(xs[0], Product(xs[1..]));
    }
  }

  lemma MulPositive(a: int, b: int)
    requires a > 0 && b > 0
    ensures a * b > 0
  {
  }

  /** Lines 113-115: `(n + d - 1) / d` twice, first over the processes and
      then over the GPUs.  For a non-negative mini-batch it is the number of
      columns each GPU gets when the mini-batch is split as evenly as
      possible over all GPUs of all processes: the ceiling of
      `mbs / (processes * gpus)`. */
  function PerGpuMiniBatch(miniBatchSize: int, numProcesses: int, numGpus: int): (r: int)
    requires numProcesses > 0 && numGpus > 0
    ensures miniBatchSize >= 0 ==> r == CeilDiv(miniBatchSize, numProcesses * numGpus)
    ensures miniBatchSize >= 0 ==>
      (r - 1) * (numProcesses * numGpus) < miniBatchSize <= r * (numProcesses * numGpus)
  {
    var local := TruncDiv(miniBatchSize + numProcesses - 1, numProcesses);
    if miniBatchSize >= 0 then
      TruncCeilIdiom(miniBatchSize, numProcesses);
      TruncCeilIdiom(local, numGpus);
      CeilDivNested(miniBatchSize, numProcesses, numGpus);
      TruncDiv(local + numGpus - 1, numGpus)
    else
      TruncDiv(local + numGpus - 1, numGpus)
  }

  /** The padded input length a window slides over, less the window: the
      number of positions a window can start at, counting from zero. */
  function EffectiveDim(inDim: int, pad: int, window: int): int {
    inDim + 2 * pad - window + 1
  }

  /** Lines 164-167: one spatial output dimension, with C++'s truncating
      division.  Whenever the numerator is not negative this is the ceiling of
      `effective / stride`. */
  function OutputDim(inDim: int, pad: int, window: int, stride: int): (r: int)
    requires stride != 0
    ensures var e := EffectiveDim(inDim, pad, window);
      stride > 0 && e + stride - 1 >= 0 ==> r == CeilDiv(e, stride)
  {
    var e := EffectiveDim(inDim, pad, window);
    if stride > 0 && e + stride - 1 >= 0 then
      TruncCeilIdiom(e, stride);
      TruncDiv(e + stride - 1, stride)
    else
      TruncDiv(e + stride - 1, stride)
  }

  /** For a positive stride and a window that fits the padded input, the
      output dimension counts the window positions: the last window starts at
      `(r - 1) * stride` and still fits, one more stride would not. */
  lemma OutputDimCountsWindows(inDim: int, pad: int, window: int, stride: int)
    requires stride > 0 && EffectiveDim(inDim, pad, window) >= 1
    ensures var r := OutputDim(inDim, pad, window, stride);
      r >= 1 &&
      (r - 1) * stride + window <= inDim + 2 * pad &&
      r * stride + window > inDim + 2 * pad
  {
    var e := EffectiveDim(inDim, pad, window);
    var r := OutputDim(inDim, pad, window, stride);
    assert (r - 1) * stride < e <= r * stride;
    PositiveFactor(r, stride);
  }

  /** A window wider than the padded input gives no positive dimension: a
      zero when the overshoot is less than a stride. */
  lemma OutputDimNoWindow(inDim: int, pad: int, window: int, stride: int)
    requires stride > 0 && EffectiveDim(inDim, pad, window) <= 0
    ensures OutputDim(inDim, pad, window, stride) <= 0
    ensures EffectiveDim(inDim, pad, window) > -stride ==> OutputDim(inDim, pad, window, stride) == 0
  {
    var e := EffectiveDim(inDim, pad, window);
    var r := OutputDim(inDim, pad, window, stride);
    PositiveFactor(r, stride);
    PositiveFactor(r + 1, stride);
    assert (r + 1) * stride == r * stride + stride;
    if e + stride - 1 >= 0 {
      assert (r - 1) * stride < e <= r * stride;
      PositiveFactor(1 - r, stride);
      assert (1 - r) * stride == stride - r * stride;
    }
  }

  /** The neuron dimensions `setup` computes: the channel count first, then
      one output dimension per spatial input dimension. */
  function OutputDims(prevDims: seq<int>, poolDims: seq<int>, poolPads: seq<int>, poolStrides: seq<int>): (r: seq<int>)
    requires |prevDims| >= 1
    requires |prevDims| - 1 <= |poolDims| && |prevDims| - 1 <= |poolPads| && |prevDims| - 1 <= |poolStrides|
    requires forall i :: 0 <= i < |prevDims| - 1 ==> poolStrides[i] != 0
    ensures |r| == |prevDims| && r[0] == prevDims[0]
    ensures forall k :: 1 <= k < |r| ==> r[k] == OutputDim(prevDims[k], poolPads[k - 1], poolDims[k - 1], poolStrides[k - 1])
  {
    [prevDims[0]] + seq(|prevDims| - 1, i requires 0 <= i < |prevDims| - 1 =>
      OutputDim(prevDims[i + 1], poolPads[i], poolDims[i], poolStrides[i]))
  }

  /** The neuron count is the channel count times the spatial output size,
      so the outputs per channel (`num_neurons / num_channels`) are exactly
      the spatial output positions when there is at least one channel. */
  lemma NeuronsPerChannel(prevDims: seq<int>, poolDims: seq<int>, poolPads: seq<int>, poolStrides: seq<int>)
    requires |prevDims| >= 1 && prevDims[0] > 0
    requires |prevDims| - 1 <= |poolDims| && |prevDims| - 1 <= |poolPads| && |prevDims| - 1 <= |poolStrides|
    requires forall i :: 0 <= i < |prevDims| - 1 ==> poolStrides[i] != 0
    ensures var dims := OutputDims(prevDims, poolDims, poolPads, poolStrides);
      Product(dims) == prevDims[0] * Product(dims[1..]) &&
      TruncDiv(Product(dims), prevDims[0]) == Product(dims[1..])
  {
    var dims := OutputDims(prevDims, poolDims, poolPads, poolStrides);
    var c, rest := prevDims[0], Product(dims[1..]);
    assert Product(dims) == c * rest;
    assert c * rest == rest * c;
    TruncDivExact(c * rest, c, rest);
  }

  // -----------------------------------------------------------------------
  // Packed strides
  // -----------------------------------------------------------------------

  /** Row-major strides of a packed tensor: each dimension's stride is the
      product of the dimensions after it. */
  function SuffixProducts(dims: seq<int>): (r: seq<int>)
    ensures |r| == |dims|
  {
    seq(|dims|, i requires 0 <= i < |dims| => Product(dims[i + 1..]))
  }

  /** Lines 201-205 and 252-256: the stride loop, from the last dimension
      back to the first. */
  method PackedStrides(dims: seq<int>) returns (strides: seq<int>)
    requires |dims| >= 1
    ensures |strides| == |dims| && strides[|dims| - 1] == 1
    ensures forall i :: 0 <= i < |dims| - 1 ==> strides[i] == strides[i + 1] * dims[i + 1]
    ensures strides == SuffixProducts(dims)
  {
    var buffer := new int[|dims|];
    buffer[buffer.Length - 1] := 1;
    assert dims[|dims|..] == [];
    var i := buffer.Length - 2;
    while i >= 0
      invariant -1 <= i <= buffer.Length - 2
      invariant forall k :: i < k < buffer.Length ==> buffer[k] == Product(dims[k + 1..])
    {
      buffer[i] := buffer[i + 1] * dims[i + 1];
      ProductSuffix(dims, i + 1);
      i := i - 1;
    }
    strides := buffer[..];
    assert strides == SuffixProducts(dims);
    SuffixProductsStep(dims);
  }

  /** The suffix products end in 1 and satisfy the stride recurrence. */
  lemma SuffixProductsStep(dims: seq<int>)
    requires |dims| >= 1
    ensures SuffixProducts(dims)[|dims| - 1] == 1
    ensures forall k :: 0 <= k < |dims| - 1 ==>
      SuffixProducts(dims)[k] == SuffixProducts(dims)[k + 1] * dims[k + 1]
  {
    assert dims[|dims|..] == [];
    forall k | 0 <= k < |dims| - 1
      ensures SuffixProducts(dims)[k] == SuffixProducts(dims)[k + 1] * dims[k + 1]
    {
      ProductSuffix(dims, k + 1);
    }
  }

  /** The leading stride times the leading dimension is the tensor's size. */
  lemma StridesCoverTensor(dims: seq<int>)
    requires |dims| >= 1
    ensures SuffixProducts(dims)[0] * dims[0] == Product(dims)
  {
    ProductHead(dims);
    assert SuffixProducts(dims)[0] == Product(dims[1..]);
  }

  /** Dropping the leading dimension drops the leading stride. */
  lemma SuffixProductsTail(xs: seq<int>)
    requires |xs| >= 1
    ensures SuffixProducts(xs)[1..] == SuffixProducts(xs[1..])
  {
    var lhs, rhs := SuffixProducts(xs)[1..], SuffixProducts(xs[1..]);
    forall k | 0 <= k < |rhs|
      ensures lhs[k] == rhs[k]
    {
      assert xs[k + 2..] == xs[1..][k + 1..];
    }
  }

  /** Putting a batch dimension in front leaves the other strides as they
      were, and the batch stride is the size of one sample. */
  lemma SuffixProductsBatch(batch: int, dims: seq<int>)
    ensures SuffixProducts([batch] + dims) == [Product(dims)] + SuffixProducts(dims)
  {
    var bd := [batch] + dims;
    assert bd[1..] == dims;
    SuffixProductsTail(bd);
    var l := SuffixProducts(bd);
    assert l == [l[0]] + l[1..];
  }

  // -----------------------------------------------------------------------
  // Pool modes
  // -----------------------------------------------------------------------

  /** Lines 214-223: the cuDNN mode for each pool mode. */
  function CudnnMode(mode: PoolMode): (r: Result<CudnnPoolingMode, PoolingError>)
    ensures r.Failure? <==> mode.Other?
    ensures r.Failure? ==> r.error == NoGpuImplementation
  {
    match mode
    case Max => Success(CudnnPoolingMax)
    case Average => Success(CudnnPoolingAverageCountIncludePadding)
    case AverageNoPad => Success(CudnnPoolingAverageCountExcludePadding)
    case Other => Failure(NoGpuImplementation)
  }

  /** Lines 372-375 and 445-448: the modes the CPU kernels accept. */
  predicate CpuSupported(mode: PoolMode) {
    mode == Max || mode == Average
  }

  /** Every mode the CPU accepts has a GPU implementation, distinct modes
      map to distinct cuDNN modes, and only average pooling without padding
      is GPU-only. */
  lemma ModeSupport(m1: PoolMode, m2: PoolMode)
    ensures CpuSupported(m1) ==> CudnnMode(m1).Success?
    ensures CudnnMode(m1).Success? && !CpuSupported(m1) <==> m1 == AverageNoPad
    ensures CudnnMode(m1).Success? && CudnnMode(m2).Success? && CudnnMode(m1) == CudnnMode(m2) ==> m1 == m2
  {
  }

  // -----------------------------------------------------------------------
  // Max pooling of one window
  // -----------------------------------------------------------------------

  /** The largest entry of a nonempty window. */
  function SeqMax(w: seq<int>): (m: int)
    requires |w| >= 1
    ensures forall i :: 0 <= i < |w| ==> w[i] <= m
    ensures exists i :: 0 <= i < |w| && w[i] == m
  {
    if |w| == 1 then w[0]
    else
      var m := SeqMax(w[..|w| - 1]);
      assert forall i :: 0 <= i < |w| - 1 ==> w[..|w| - 1][i] == w[i];
      if w[|w| - 1] > m then w[|w| - 1] else m
  }

  /** The index the strict `>` scan of lines 489-496 settles on. */
  function FirstMaxIndex(w: seq<int>): (k: nat)
    requires |w| >= 1
    ensures k < |w|
  {
    if |w| == 1 then 0
    else
      var k := FirstMaxIndex(w[..|w| - 1]);
      if w[|w| - 1] > w[k] then |w| - 1 else k
  }

  /** The scan picks the first position of the maximum: it holds the
      maximum, every earlier entry is smaller, and no other index has both
      properties. */
  lemma {:induction false} FirstMaxIndexIsFirstMax(w: seq<int>)
    requires |w| >= 1
    ensures w[FirstMaxIndex(w)] == SeqMax(w)
    ensures forall i :: 0 <= i < FirstMaxIndex(w) ==> w[i] < SeqMax(w)
  {
    if |w| > 1 {
      var p := w[..|w| - 1];
      FirstMaxIndexIsFirstMax(p);
      assert forall i :: 0 <= i < |p| ==> p[i] == w[i];
    }
  }

  lemma FirstMaxIndexUnique(w: seq<int>, k: nat)
    requires k < |w|
    requires w[k] == SeqMax(w) && forall i :: 0 <= i < k ==> w[i] < SeqMax(w)
    ensures k == FirstMaxIndex(w)
  {
    FirstMaxIndexIsFirstMax(w);
  }

  /** The backward window of lines 489-499: the error at the first maximum
      and zero everywhere else. */
  function Routed(w: seq<int>, err: int): (r: seq<int>)
    requires |w| >= 1
    ensures |r| == |w|
  {
    seq(|w|, i requires 0 <= i < |w| => if i == FirstMaxIndex(w) then err else 0)
  }

  function Sum(xs: seq<int>): int {
    if xs == [] then 0 else xs[0] + Sum(xs[1..])
  }

  /** The routed window carries the whole error signal, and only at a
      position where the input held the forward output (the maximum). */
  lemma RoutedConservesError(w: seq<int>, err: int)
    requires |w| >= 1
    ensures Sum(Routed(w, err)) == err
    ensures forall i :: 0 <= i < |w| && Routed(w, err)[i] != 0 ==> w[i] == SeqMax(w)
  {
    FirstMaxIndexIsFirstMax(w);
    SumOneHot(Routed(w, err), FirstMaxIndex(w));
  }

  lemma {:induction false} SumOneHot(xs: seq<int>, k: nat)
    requires k < |xs| && forall i :: 0 <= i < |xs| && i != k ==> xs[i] == 0
    ensures Sum(xs) == xs[k]
  {
    if k == 0 {
      SumZero(xs[1..]);
    } else {
      SumOneHot(xs[1..], k - 1);
    }
  }

  lemma {:induction false} SumZero(xs: seq<int>)
    requires forall i :: 0 <= i < |xs| ==> xs[i] == 0
    ensures Sum(xs) == 0
  {
    if xs != [] {
      SumZero(xs[1..]);
    }
  }

  // -----------------------------------------------------------------------
  // The im2col kernels of one sample
  // -----------------------------------------------------------------------

  /** The window of channel `c` for output position `j`. */
  function Window(im2col: array3<int>, c: nat, j: nat): (w: seq<int>)
    requires c < im2col.Length0 && j < im2col.Length2
    reads im2col
    ensures |w| == im2col.Length1
  {
    seq(im2col.Length1, i requires 0 <= i < im2col.Length1 reads im2col => im2col[c, i, j])
  }

  /** `j + c * num_per_output_channel`: the activation row of output
      position `j` of channel `c`, inside the `num_channels * num_per_output_channel`
      rows of one sample. */
  function OutputIndex(c: nat, j: nat, channels: nat, perChannel: nat): (k: nat)
    requires c < channels && j < perChannel
    ensures k < channels * perChannel
  {
    MulMonotone(c + 1, channels, perChannel);
    assert (c + 1) * perChannel == c * perChannel + perChannel;
    j + c * perChannel
  }

  /** Distinct output positions have distinct rows. */
  lemma OutputIndexInjective(c: nat, j: nat, c2: nat, j2: nat, channels: nat, perChannel: nat)
    requires c < channels && c2 < channels && j < perChannel && j2 < perChannel && (c != c2 || j != j2)
    ensures OutputIndex(c, j, channels, perChannel) != OutputIndex(c2, j2, channels, perChannel)
  {
    if c < c2 {
      MulMonotone(c + 1, c2, perChannel);
      assert (c + 1) * perChannel == c * perChannel + perChannel;
    } else if c2 < c {
      MulMonotone(c2 + 1, c, perChannel);
      assert (c2 + 1) * perChannel == c2 * perChannel + perChannel;
    }
  }

  /** Lines 410-412: the running maximum of one window, starting below every
      value (`-INFINITY` is None). */
  method WindowMax(im2col: array3<int>, c: nat, j: nat) returns (m: int)
    requires c < im2col.Length0 && j < im2col.Length2 && im2col.Length1 >= 1
    ensures m == SeqMax(Window(im2col, c, j))
  {
    ghost var w := Window(im2col, c, j);
    var entry: Option<int> := None;
    for i := 0 to im2col.Length1
      invariant i == 0 <==> entry.None?
      invariant i > 0 ==> entry == Some(SeqMax(w[..i]))
    {
      var x := im2col[c, i, j];
      assert w[..i + 1][..i] == w[..i];
      entry := if entry.None? || x > entry.value then Some(x) else entry;
    }
    assert w[..im2col.Length1] == w;
    m := entry.value;
  }

  /** Lines 406-416: the maximum of every window, written at
      `j + c * num_per_output_channel`. */
  method MaxPoolForward(im2col: array3<int>, output: array<int>)
    requires im2col.Length1 >= 1
    requires im2col.Length0 * im2col.Length2 <= output.Length
    modifies output
    ensures forall c, j :: 0 <= c < im2col.Length0 && 0 <= j < im2col.Length2 ==>
      output[OutputIndex(c, j, im2col.Length0, im2col.Length2)] == SeqMax(Window(im2col, c, j))
    ensures forall k :: im2col.Length0 * im2col.Length2 <= k < output.Length ==> output[k] == old(output[k])
  {
    var numChannels, perChannel := im2col.Length0, im2col.Length2;
    for c := 0 to numChannels
      invariant forall c2, j2 :: 0 <= c2 < c && 0 <= j2 < perChannel ==>
        output[OutputIndex(c2, j2, numChannels, perChannel)] == SeqMax(Window(im2col, c2, j2))
      invariant forall k :: numChannels * perChannel <= k < output.Length ==> output[k] == old(output[k])
    {
      for j := 0 to perChannel
        invariant forall c2, j2 :: 0 <= c2 < numChannels && 0 <= j2 < perChannel && (c2 < c || (c2 == c && j2 < j)) ==>
          output[OutputIndex(c2, j2, numChannels, perChannel)] == SeqMax(Window(im2col, c2, j2))
        invariant forall k :: numChannels * perChannel <= k < output.Length ==> output[k] == old(output[k])
      {
        var entry := WindowMax(im2col, c, j);
        var index := OutputIndex(c, j, numChannels, perChannel);
        forall c2, j2 | 0 <= c2 < numChannels && 0 <= j2 < perChannel && (c2 != c || j2 != j)
          ensures OutputIndex(c2, j2, numChannels, perChannel) != index
        {
          OutputIndexInjective(c2, j2, c, j, numChannels, perChannel);
        }
        output[index] := entry;
      }
    }
  }

  /** Lines 487-499 for one window: zero every entry while scanning for the
      first maximum, then put the error signal there. */
  method RouteWindow(im2col: array3<int>, c: nat, j: nat, err: int)
    requires c < im2col.Length0 && j < im2col.Length2 && im2col.Length1 >= 1
    modifies im2col
    ensures forall i :: 0 <= i < im2col.Length1 ==>
      im2col[c, i, j] == (if i == FirstMaxIndex(old(Window(im2col, c, j))) then err else 0)
    ensures forall c2, i, j2 :: 0 <= c2 < im2col.Length0 && 0 <= i < im2col.Length1 && 0 <= j2 < im2col.Length2 && (c2 != c || j2 != j) ==>
      im2col[c2, i, j2] == old(im2col[c2, i, j2])
  {
    ghost var w := Window(im2col, c, j);
    var maxIndex := 0;
    var maxEntry: Option<int> := None;
    for i := 0 to im2col.Length1
      invariant forall t :: 0 <= t < i ==> im2col[c, t, j] == 0
      invariant forall t :: i <= t < im2col.Length1 ==> im2col[c, t, j] == w[t]
      invariant forall c2, t, j2 :: 0 <= c2 < im2col.Length0 && 0 <= t < im2col.Length1 && 0 <= j2 < im2col.Length2 && (c2 != c || j2 != j) ==>
        im2col[c2, t, j2] == old(im2col[c2, t, j2])
      invariant i == 0 <==> maxEntry.None?
      invariant i > 0 ==> maxIndex == FirstMaxIndex(w[..i]) && maxEntry == Some(w[maxIndex])
    {
      var current := im2col[c, i, j];
      im2col[c, i, j] := 0;
      assert w[..i + 1][..i] == w[..i];
      if maxEntry.None? || current > maxEntry.value {
        maxIndex := i;
        maxEntry := Some(current);
      }
    }
    assert w[..im2col.Length1] == w;
    im2col[c, maxIndex, j] := err;
  }

  /** Lines 484-501: every window of the sample routed, each with the error
      signal of its output position. */
  method MaxPoolBackward(im2col: array3<int>, prevErrorSignal: seq<int>)
    requires im2col.Length1 >= 1
    requires im2col.Length0 * im2col.Length2 <= |prevErrorSignal|
    modifies im2col
    ensures forall c, i, j :: 0 <= c < im2col.Length0 && 0 <= i < im2col.Length1 && 0 <= j < im2col.Length2 ==>
      im2col[c, i, j] ==
        (if i == FirstMaxIndex(old(Window(im2col, c, j))) then prevErrorSignal[OutputIndex(c, j, im2col.Length0, im2col.Length2)] else 0)
    ensures forall c, j :: 0 <= c < im2col.Length0 && 0 <= j < im2col.Length2 ==>
      Window(im2col, c, j) == Routed(old(Window(im2col, c, j)), prevErrorSignal[OutputIndex(c, j, im2col.Length0, im2col.Length2)])
  {
    var numChannels, perChannel := im2col.Length0, im2col.Length2;
    ghost var before := seq(numChannels, c requires 0 <= c < numChannels reads im2col =>
      seq(perChannel, j requires 0 <= j < perChannel reads im2col => Window(im2col, c, j)));
    for j := 0 to perChannel
      invariant forall c, i, j2 :: 0 <= c < numChannels && 0 <= i < im2col.Length1 && 0 <= j2 < perChannel ==>
        im2col[c, i, j2] ==
          if j2 < j then (if i == FirstMaxIndex(before[c][j2]) then prevErrorSignal[OutputIndex(c, j2, numChannels, perChannel)] else 0)
          else old(im2col[c, i, j2])
    {
      for c := 0 to numChannels
        invariant forall c2, i, j2 :: 0 <= c2 < numChannels && 0 <= i < im2col.Length1 && 0 <= j2 < perChannel ==>
          im2col[c2, i, j2] ==
            if j2 < j || (j2 == j && c2 < c) then
              (if i == FirstMaxIndex(before[c2][j2]) then prevErrorSignal[OutputIndex(c2, j2, numChannels, perChannel)] else 0)
            else old(im2col[c2, i, j2])
      {
        assert Window(im2col, c, j) == before[c][j];
        RouteWindow(im2col, c, j, prevErrorSignal[OutputIndex(c, j, numChannels, perChannel)]);
      }
    }
    forall c, j | 0 <= c < numChannels && 0 <= j < perChannel
      ensures Window(im2col, c, j) == Routed(before[c][j], prevErrorSignal[OutputIndex(c, j, numChannels, perChannel)])
    {
    }
  }

  // -----------------------------------------------------------------------
  // The layer
  // -----------------------------------------------------------------------

  class PoolingLayer {
    const poolMode: PoolMode
    var poolDims: seq<int>
    var poolPads: seq<int>
    var poolStrides: seq<int>
    /** Entries per pooling window. */
    var poolSize: int
    var miniBatchSize: int
    var usingGpus: bool
    /** Columns per GPU; None when the layer runs without cuDNN, which leaves
        the inherited value untouched. */
    var miniBatchSizePerGpu: Option<int>
    var prevNeuronDims: seq<int>
    var numNeuronDims: int
    var neuronDims: seq<int>
    var numNeurons: int

    /** Lines 70-119: keeps the first `numDataDims` window dimensions, pads
        and strides, and sizes the window and the per-GPU mini-batch. */
    constructor (numDataDims: nat, poolDimsIn: seq<int>, poolPadsIn: seq<int>, poolStridesIn: seq<int>,
                 mode: PoolMode, miniBatchSizeIn: int, gpus: Option<GpuInfo>)
      requires numDataDims <= |poolDimsIn| && numDataDims <= |poolPadsIn| && numDataDims <= |poolStridesIn|
      requires gpus.Some? ==> gpus.value.numGpus > 0 && gpus.value.numProcesses > 0
      ensures poolMode == mode && miniBatchSize == miniBatchSizeIn
      ensures poolDims == poolDimsIn[..numDataDims] && poolPads == poolPadsIn[..numDataDims]
      ensures poolStrides == poolStridesIn[..numDataDims]
      ensures poolSize == Product(poolDims)
      ensures usingGpus == gpus.Some?
      ensures miniBatchSizePerGpu ==
        if gpus.Some? then Some(PerGpuMiniBatch(miniBatchSizeIn, gpus.value.numProcesses, gpus.value.numGpus)) else None
    {
      poolMode := mode;
      miniBatchSize := miniBatchSizeIn;
      prevNeuronDims, numNeuronDims, neuronDims, numNeurons := [], 0, [], 0;
      poolDims := poolDimsIn[..numDataDims];
      poolSize := Product(poolDimsIn[..numDataDims]);
      poolPads := poolPadsIn[..numDataDims];
      poolStrides := poolStridesIn[..numDataDims];
      usingGpus := false;
      miniBatchSizePerGpu := None;
      if gpus.Some? {
        usingGpus := true;
        var numGpus := gpus.value.numGpus;
        var numProcesses := gpus.value.numProcesses;
        var localMiniBatchSize := TruncDiv(miniBatchSizeIn + numProcesses - 1, numProcesses);
        miniBatchSizePerGpu := Some(TruncDiv(localMiniBatchSize + numGpus - 1, numGpus));
      }
    }

    /** Lines 156-172 without the GPU set-up and the activations matrix: the
        output keeps the input's rank and channel count and each spatial
        dimension becomes its output dimension. */
    method Setup(prevDims: seq<int>)
      requires |prevDims| >= 1
      requires |prevDims| - 1 <= |poolDims| && |prevDims| - 1 <= |poolPads| && |prevDims| - 1 <= |poolStrides|
      requires forall i :: 0 <= i < |prevDims| - 1 ==> poolStrides[i] != 0
      modifies this
      ensures poolDims == old(poolDims) && poolPads == old(poolPads) && poolStrides == old(poolStrides)
      ensures prevNeuronDims == prevDims && numNeuronDims == |prevDims|
      ensures neuronDims == OutputDims(prevDims, poolDims, poolPads, poolStrides)
      ensures numNeurons == Product(neuronDims)
      ensures poolSize == old(poolSize) && miniBatchSize == old(miniBatchSize)
      ensures usingGpus == old(usingGpus) && miniBatchSizePerGpu == old(miniBatchSizePerGpu)
    {
      prevNeuronDims := prevDims;
      numNeuronDims := |prevNeuronDims|;
      neuronDims := seq(numNeuronDims, _ => 0);
      neuronDims := neuronDims[0 := prevNeuronDims[0]];
      for i := 0 to numNeuronDims - 1
        invariant poolDims == old(poolDims) && poolPads == old(poolPads) && poolStrides == old(poolStrides)
        invariant |neuronDims| == numNeuronDims == |prevDims| && prevNeuronDims == prevDims
        invariant neuronDims[0] == prevDims[0]
        invariant forall k :: 1 <= k <= i ==>
          neuronDims[k] == OutputDim(prevDims[k], poolPads[k - 1], poolDims[k - 1], poolStrides[k - 1])
        invariant poolSize == old(poolSize) && miniBatchSize == old(miniBatchSize)
        invariant usingGpus == old(usingGpus) && miniBatchSizePerGpu == old(miniBatchSizePerGpu)
      {
        var effectiveDim := prevNeuronDims[i + 1] + 2 * poolPads[i] - poolDims[i] + 1;
        neuronDims := neuronDims[i + 1 := TruncDiv(effectiveDim + poolStrides[i] - 1, poolStrides[i])];
      }
      numNeurons := Product(neuronDims);
    }

    /** Lines 187-261 without the cuDNN calls (and without the debug-build
        check against cuDNN's own output dimensions): the packed input and
        output tensors, each led by the per-GPU mini-batch, and the pooling
        mode. */
    method SetupGpu() returns (r: Result<GpuDescriptors, PoolingError>)
      requires usingGpus && miniBatchSizePerGpu.Some?
      ensures r.Failure? <==> poolMode.Other?
      ensures r.Success? ==>
        r.value.inputDims == [miniBatchSizePerGpu.value] + prevNeuronDims &&
        r.value.inputStrides == SuffixProducts(r.value.inputDims) &&
        r.value.outputDims == [miniBatchSizePerGpu.value] + neuronDims &&
        r.value.outputStrides == SuffixProducts(r.value.outputDims) &&
        r.value.inputStrides[1..] == SuffixProducts(prevNeuronDims) &&
        r.value.outputStrides[1..] == SuffixProducts(neuronDims) &&
        Success(r.value.mode) == CudnnMode(poolMode) &&
        r.value.poolDims == poolDims && r.value.poolPads == poolPads && r.value.poolStrides == poolStrides
    {
      var inputDims := [miniBatchSizePerGpu.value] + prevNeuronDims;
      var inputStrides := PackedStrides(inputDims);
      var mode :- CudnnMode(poolMode);
      var outputDims := [miniBatchSizePerGpu.value] + neuronDims;
      var outputStrides := PackedStrides(outputDims);
      SuffixProductsBatch(miniBatchSizePerGpu.value, prevNeuronDims);
      SuffixProductsBatch(miniBatchSizePerGpu.value, neuronDims);
      r := Success(GpuDescriptors(inputDims, inputStrides, mode, poolDims, poolPads, poolStrides, outputDims, outputStrides));
    }

    /** `num_prev_neuron_dims[0]`, the channel count. */
    function NumChannels(): int
      requires |prevNeuronDims| >= 1
      reads this
    {
      prevNeuronDims[0]
    }

    /** Lines 371-416 for one sample: the mode check, then, for max pooling,
        the window maxima.  The average branch is not modelled. */
    method FpComputeIm2col(im2col: array3<int>, output: array<int>) returns (r: Result<(), PoolingError>)
      requires |prevNeuronDims| >= 1 && NumChannels() > 0 && numNeurons >= 0 && poolSize >= 1
      requires im2col.Length0 == NumChannels() && im2col.Length1 == poolSize
      requires im2col.Length2 == TruncDiv(numNeurons, NumChannels())
      requires output.Length == numNeurons
      modifies output
      ensures r.Failure? <==> !CpuSupported(poolMode)
      ensures r.Failure? ==> r.error == CpuModeNotImplemented && output[..] == old(output[..])
      ensures poolMode == Max ==> forall c, j :: 0 <= c < im2col.Length0 && 0 <= j < im2col.Length2 ==>
        output[OutputIndex(c, j, im2col.Length0, im2col.Length2)] == SeqMax(Window(im2col, c, j))
      ensures poolMode == Max ==> forall k :: im2col.Length0 * im2col.Length2 <= k < output.Length ==>
        output[k] == old(output[k])
    {
      if poolMode != Max && poolMode != Average {
        return Failure(CpuModeNotImplemented);
      }
      PerChannelFits(numNeurons, NumChannels());
      if poolMode == Max {
        MaxPoolForward(im2col, output);
      }
      r := Success(());
    }

    /** Lines 444-501 for one sample: the mode check, then, for max pooling,
        the error signal routed to each window's first maximum.  The average
        branch and the final `col2im` are not modelled. */
    method BpComputeIm2col(im2col: array3<int>, prevErrorSignal: seq<int>) returns (r: Result<(), PoolingError>)
      requires |prevNeuronDims| >= 1 && NumChannels() > 0 && numNeurons >= 0 && poolSize >= 1
      requires im2col.Length0 == NumChannels() && im2col.Length1 == poolSize
      requires im2col.Length2 == TruncDiv(numNeurons, NumChannels())
      requires |prevErrorSignal| == numNeurons
      modifies im2col
      ensures r.Failure? <==> !CpuSupported(poolMode)
      ensures r.Failure? ==> r.error == CpuModeNotImplemented && unchanged(im2col)
      ensures poolMode == Max ==> forall c, i, j :: 0 <= c < im2col.Length0 && 0 <= i < im2col.Length1 && 0 <= j < im2col.Length2 ==>
        im2col[c, i, j] ==
          (if i == FirstMaxIndex(old(Window(im2col, c, j))) then prevErrorSignal[OutputIndex(c, j, im2col.Length0, im2col.Length2)] else 0)
    {
      if poolMode != Max && poolMode != Average {
        return Failure(CpuModeNotImplemented);
      }
      PerChannelFits(numNeurons, NumChannels());
      if poolMode == Max {
        MaxPoolBackward(im2col, prevErrorSignal);
      }
      r := Success(());
    }
  }

  /** `num_channels` rows of `num_neurons / num_channels` outputs fit in the
      activations. */
  lemma PerChannelFits(numNeurons: int, numChannels: int)
    requires numNeurons >= 0 && numChannels > 0
    ensures numChannels * TruncDiv(numNeurons, numChannels) <= numNeurons
  {
    var q := TruncDiv(numNeurons, numChannels);
    assert q * numChannels == numChannels * q;
  }

}
