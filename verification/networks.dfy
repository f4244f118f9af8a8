/** Layer-size arithmetic of the two EEG classifiers, EEGNet and DeepConvNet.

    A network is seen here only through the shapes of the tensors that flow
    through it: every layer maps a per-sample shape (channels, height, width)
    to the next one, or fails the way the tensor library does when a kernel
    does not fit or a channel count does not match.  The last stage flattens
    each sample with `view(-1, in_features)` and feeds a linear layer whose
    `in_features` the constructor fixed in advance. */
module Networks {
  import opened Wrappers

  /** Errors the constructors and the forward pass can raise. */
  datatype NetError =
    | IndexError        // `deepconv[0]` / `deepconv[-1]` on an empty list
    | ShapeError        // a kernel larger than its input, or a channel mismatch
    | ViewError         // `view(-1, n)` on a tensor whose size n does not divide
    | DimensionError    // a layer built with a negative size (its weights cannot be allocated)

  // ---------------------------------------------------------------------------
  // Python's round() and the DeepConvNet size fold
  // ---------------------------------------------------------------------------

  /** Python's built-in `round` on a number with no digits argument: the
      nearest integer, ties going to the even neighbour. */
  function RoundHalfEven(r: real): (n: int)
    ensures -0.5 <= r - n as real <= 0.5
    ensures (r - n as real == 0.5 || r - n as real == -0.5) ==> n % 2 == 0
  {
    var f := r.Floor;
    var frac := r - f as real;
    if frac < 0.5 then f
    else if frac > 0.5 then f + 1
    else if f % 2 == 0 then f else f + 1
  }

  /** The two properties of RoundHalfEven's contract determine its result. */
  lemma RoundHalfEvenUnique(r: real, m: int)
    requires -0.5 <= r - m as real <= 0.5
    requires (r - m as real == 0.5 || r - m as real == -0.5) ==> m % 2 == 0
    ensures m == RoundHalfEven(r)
  {
  }

  /** The initial time length of an EEG trial (the start value of the fold). */
  const TrialLength: int := 750

  /** One step of the fold as written: `round((x - 4) / 2)`.  The quotient is a
      Python float; for the widths that occur it is exact, so it is modelled
      as an exact real. */
  function Step(x: int): int
  {
    RoundHalfEven((x - 4) as real / 2.0)
  }

  /** What one DeepConvNet stage really does to the time length: a width-5
      convolution without padding (x - 4) followed by a width-2 max pool
      (floor of the half). */
  function FloorStep(x: int): int
  {
    (x - 4) / 2
  }

  /** `round((x-4)/2)` differs from `floor((x-4)/2)` exactly when x - 4 leaves
      remainder 3 modulo 4, and then by one. */
  lemma StepVsFloor(x: int)
    ensures Step(x) == FloorStep(x) + (if (x - 4) % 4 == 3 then 1 else 0)
  {
    var d := x - 4;
    QuarterParity(d);
    if d % 2 == 0 {
      StepExact(x);
    } else if (d / 2) % 2 == 0 {
      StepTieDown(x);
    } else {
      StepTieUp(x);
    }
  }

  /** An even x - 4 halves exactly. */
  lemma StepExact(x: int)
    requires (x - 4) % 2 == 0
    ensures Step(x) == (x - 4) / 2
  {
    HalfOf(x - 4);
    RoundHalfEvenUnique((x - 4) as real / 2.0, (x - 4) / 2);
  }

  /** An odd x - 4 whose floored half is even: the tie goes down. */
  lemma StepTieDown(x: int)
    requires (x - 4) % 2 == 1 && ((x - 4) / 2) % 2 == 0
    ensures Step(x) == (x - 4) / 2
  {
    HalfOf(x - 4);
    RoundHalfEvenUnique((x - 4) as real / 2.0, (x - 4) / 2);
  }

  /** An odd x - 4 whose floored half is odd: the tie goes up. */
  lemma StepTieUp(x: int)
    requires (x - 4) % 2 == 1 && ((x - 4) / 2) % 2 == 1
    ensures Step(x) == (x - 4) / 2 + 1
  {
    HalfOf(x - 4);
    RoundHalfEvenUnique((x - 4) as real / 2.0, (x - 4) / 2 + 1);
  }

  /** Halving an integer exactly: the floor of the half, plus one half when odd. */
  lemma HalfOf(d: int)
    ensures d as real / 2.0 == (d / 2) as real + (if d % 2 == 0 then 0.0 else 0.5)
  {
    var q := d / 2;
    assert d == 2 * q + d % 2;
    assert d as real == 2.0 * q as real + (d % 2) as real;
  }

  /** d leaves remainder 3 modulo 4 exactly when it is odd and its floored
      half is odd. */
  lemma QuarterParity(d: int)
    ensures d % 4 == 3 <==> d % 2 == 1 && (d / 2) % 2 == 1
  {
    var q := d / 4;
    var m := d % 4;
    assert d == 4 * q + m && 0 <= m < 4;
    assert d / 2 == 2 * q + m / 2;
    assert d % 2 == m % 2;
  }

  /** `functools.reduce(lambda x, _: Step(x), xs, acc)`: the list elements are
      ignored, only their number matters. */
  function Reduce(xs: seq<int>, acc: int): int
  {
    if xs == [] then acc else Reduce(xs[1..], Step(acc))
  }

  /** Step applied n times, starting from x. */
  function Iterate(n: nat, x: int): int
  {
    if n == 0 then x else Step(Iterate(n - 1, x))
  }

  /** FloorStep applied n times, starting from x. */
  function FloorIterate(n: nat, x: int): int
  {
    if n == 0 then x else FloorStep(FloorIterate(n - 1, x))
  }

  lemma {:induction false} IterateFirst(n: nat, x: int)
    requires n > 0
    ensures Iterate(n, x) == Iterate(n - 1, Step(x))
  {
    if n > 1 {
      IterateFirst(n - 1, x);
    }
  }

  lemma {:induction false} FloorIterateFirst(n: nat, x: int)
    requires n > 0
    ensures FloorIterate(n, x) == FloorIterate(n - 1, FloorStep(x))
  {
    if n > 1 {
      FloorIterateFirst(n - 1, x);
    }
  }

  /** The reduce over the layer-width list applies the step once per element. */
  lemma {:induction false} ReduceIsIterate(xs: seq<int>, acc: int)
    ensures Reduce(xs, acc) == Iterate(|xs|, acc)
  {
    if xs != [] {
      ReduceIsIterate(xs[1..], Step(acc));
      IterateFirst(|xs|, acc);
    }
  }

  /** DeepConvNet's flatten size as written: `deepconv[-1] * reduce(...)`,
      an IndexError on an empty list. */
  function FlattenSize(deepconv: seq<int>): (r: Result<int, NetError>)
    ensures r.Err? <==> deepconv == []
    ensures r.Err? ==> r.error == IndexError
    ensures r.Ok? ==> r.value == deepconv[|deepconv| - 1] * Iterate(|deepconv|, TrialLength)
  {
    if deepconv == [] then Err(IndexError)
    else
      ReduceIsIterate(deepconv, TrialLength);
      Ok(deepconv[|deepconv| - 1] * Reduce(deepconv, TrialLength))
  }

  /** The flatten size depends only on the list's length and its last element. */
  lemma FlattenSizeLengthAndLast(a: seq<int>, b: seq<int>)
    requires |a| == |b|
    requires a != [] ==> a[|a| - 1] == b[|b| - 1]
    ensures FlattenSize(a) == FlattenSize(b)
  {
  }

  /** The flatten size the network really produces: the same fold with floor. */
  function CorrectedFlattenSize(deepconv: seq<int>): (r: Result<int, NetError>)
    ensures r.Err? <==> deepconv == []
    ensures r.Ok? ==> r.value == deepconv[|deepconv| - 1] * FloorIterate(|deepconv|, TrialLength)
  {
    if deepconv == [] then Err(IndexError)
    else Ok(deepconv[|deepconv| - 1] * FloorIterate(|deepconv|, TrialLength))
  }

  /** No stage of the floor path hits a tie that round() would break upwards. */
  predicate NoRoundUp(n: nat, x: int)
  {
    n == 0 || ((x - 4) % 4 != 3 && NoRoundUp(n - 1, FloorStep(x)))
  }

  /** Where no tie is rounded up, the fold as written equals the real widths. */
  lemma {:induction false} IterateMatchesFloor(n: nat, x: int)
    requires NoRoundUp(n, x)
    ensures Iterate(n, x) == FloorIterate(n, x)
  {
    if n > 0 {
      StepVsFloor(x);
      IterateMatchesFloor(n - 1, FloorStep(x));
      IterateFirst(n, x);
      FloorIterateFirst(n, x);
    }
  }

  /** The fold as written never runs behind the real widths: each step
      rounds the half up or down to an integer no smaller than its floor, and
      both steps are monotone. */
  lemma {:induction false} IterateAtLeastFloor(n: nat, x: int)
    ensures Iterate(n, x) >= FloorIterate(n, x)
  {
    if n > 0 {
      IterateAtLeastFloor(n - 1, x);
      StepVsFloor(Iterate(n - 1, x));
    }
  }

  /** Where the two folds first part: if no earlier stage rounded a tie
      upwards and stage k + 1 is entered with x - 4 equal to 3 modulo 4, the
      fold as written is one ahead of the real width after that stage.  (They
      can meet again later: from 47 both folds reach 2 after three stages.) */
  lemma FirstTieDiverges(k: nat, x: int)
    requires NoRoundUp(k, x) && (FloorIterate(k, x) - 4) % 4 == 3
    ensures Iterate(k + 1, x) == FloorIterate(k + 1, x) + 1
  {
    IterateMatchesFloor(k, x);
    StepVsFloor(FloorIterate(k, x));
  }

  /** The two folds do meet again, inside a network that can be built: from
      47 the first stage ties upwards (22 against 21), the second keeps the
      gap (9 against 8), and both reach 2 after three stages, every stage
      still fitting its kernels. */
  lemma TieThenRejoin()
    ensures StagesFit(3, 47)
    ensures Iterate(1, 47) == FloorIterate(1, 47) + 1
    ensures Iterate(3, 47) == FloorIterate(3, 47) == 2
  {
    StepVsFloor(47);
    assert Iterate(1, 47) == 22 && FloorIterate(1, 47) == 21;
    StepAt(22, 9);
    assert Iterate(2, 47) == 9 && FloorIterate(2, 47) == 8;
    StepAt(9, 2);
  }

  /** The default widths [25, 50, 100, 200]: the fold visits 373, 184, 90 and
      43, equal to the real widths at every stage, and sizes the linear layer
      at 200 * 43 = 8600. */
  lemma DefaultFlattenSize()
    ensures Iterate(1, TrialLength) == 373 && Iterate(2, TrialLength) == 184
    ensures Iterate(3, TrialLength) == 90 && Iterate(4, TrialLength) == 43
    ensures FloorIterate(1, TrialLength) == 373 && FloorIterate(2, TrialLength) == 184
    ensures FloorIterate(3, TrialLength) == 90 && FloorIterate(4, TrialLength) == 43
    ensures FlattenSize([25, 50, 100, 200]) == Ok(8600)
    ensures CorrectedFlattenSize([25, 50, 100, 200]) == Ok(8600)
  {
    StepAt(750, 373);
    StepAt(373, 184);
    StepAt(184, 90);
    StepAt(90, 43);
  }

  /** One step of both folds from x, where the two agree on y. */
  lemma StepAt(x: int, y: int)
    requires FloorStep(x) == y && (x - 4) % 4 != 3
    ensures Step(x) == y
  {
    StepVsFloor(x);
  }

  // ---------------------------------------------------------------------------
  // Shapes through the layers
  // ---------------------------------------------------------------------------

  /** The shape of one sample: channels x height (electrodes) x width (time). */
  datatype Shape = Shape(channels: int, height: int, width: int)

  /** The layers the two networks stack.  Convolutions here all have stride 1;
      both pooling layers use a stride equal to their kernel and no padding. */
  datatype Layer =
    | Conv2d(inChannels: int, outChannels: int, kh: int, kw: int, ph: int, pw: int, groups: int)
    | BatchNorm2d(features: int)
    | Activation
    | AvgPool2d(poolH: int, poolW: int)
    | MaxPool2d(poolH: int, poolW: int)
    | Dropout

  function Size(s: Shape): int
  {
    s.channels * s.height * s.width
  }

  /** The number of positions a window of `kernel` cells, moved by `stride`,
      takes along an axis of `len` cells padded by `pad` on each side; None
      when the window does not fit even once. */
  function WindowCount(len: int, kernel: int, pad: int, stride: int): (r: Option<int>)
    ensures r.Some? <==> kernel > 0 && stride > 0 && len + 2 * pad >= kernel
    ensures r.Some? ==> r.value >= 1
  {
    if kernel > 0 && stride > 0 && len + 2 * pad >= kernel
    then Some((len + 2 * pad - kernel) / stride + 1)
    else None
  }

  /** The window count is the number of whole strides that fit: the last
      window starts within the padded axis and one more would not. */
  lemma WindowCountSpan(len: int, kernel: int, pad: int, stride: int)
    requires kernel > 0 && stride > 0 && len + 2 * pad >= kernel
    ensures var n := WindowCount(len, kernel, pad, stride).value;
      (n - 1) * stride <= len + 2 * pad - kernel < n * stride
  {
    var e := len + 2 * pad - kernel;
    var q := e / stride;
    assert e == stride * q + e % stride;
    assert (q + 1) * stride == q * stride + stride;
  }

  function PoolShape(s: Shape, kh: int, kw: int): Option<Shape>
  {
    var h := WindowCount(s.height, kh, 0, kh);
    var w := WindowCount(s.width, kw, 0, kw);
    if h.Some? && w.Some? then Some(Shape(s.channels, h.value, w.value)) else None
  }

  /** The shape one layer produces, or None where the tensor library raises. */
  function ApplyLayer(s: Shape, l: Layer): Option<Shape>
  {
    match l
    case Conv2d(i, o, kh, kw, ph, pw, g) =>
      var h := WindowCount(s.height, kh, ph, 1);
      var w := WindowCount(s.width, kw, pw, 1);
      if s.channels == i && g > 0 && i % g == 0 && o > 0 && o % g == 0 && h.Some? && w.Some?
      then Some(Shape(o, h.value, w.value))
      else None
    case BatchNorm2d(n) => if s.channels == n then Some(s) else None
    case Activation => Some(s)
    case AvgPool2d(kh, kw) => PoolShape(s, kh, kw)
    case MaxPool2d(kh, kw) => PoolShape(s, kh, kw)
    case Dropout => Some(s)
  }

  /** The shape after a stack of layers, or None at the first layer that fails. */
  function Forward(s: Shape, layers: seq<Layer>): Option<Shape>
    decreases |layers|
  {
    if layers == [] then Some(s)
    else
      match ApplyLayer(s, layers[0])
      case None => None
      case Some(t) => Forward(t, layers[1..])
  }

  lemma {:induction false} ForwardAppend(s: Shape, a: seq<Layer>, b: seq<Layer>)
    decreases |a|
    ensures Forward(s, a + b) ==
              match Forward(s, a)
              case None => None
              case Some(t) => Forward(t, b)
  {
    if a == [] {
      assert a + b == b;
    } else {
      assert (a + b)[0] == a[0];
      assert (a + b)[1..] == a[1..] + b;
      var t := ApplyLayer(s, a[0]);
      if t.Some? {
        ForwardAppend(t.value, a[1..], b);
      }
    }
  }

  /** A stack of one layer. */
  lemma ForwardOne(s: Shape, a: Layer, t: Shape)
    requires ApplyLayer(s, a) == Some(t)
    ensures Forward(s, [a]) == Some(t)
  {
    assert [a][1..] == [];
  }

  /** One layer in front of a stack. */
  lemma ForwardCons(s: Shape, a: Layer, rest: seq<Layer>, t: Shape, u: Shape)
    requires ApplyLayer(s, a) == Some(t) && Forward(t, rest) == Some(u)
    ensures Forward(s, [a] + rest) == Some(u)
  {
    assert ([a] + rest)[0] == a && ([a] + rest)[1..] == rest;
  }

  /** `x.view(-1, n)`: the number of rows, an error when n does not divide the
      number of elements. */
  function View(elements: int, n: int): (r: Result<int, NetError>)
    requires n > 0
    ensures r.Ok? <==> elements % n == 0
    ensures r.Ok? ==> r.value * n == elements
  {
    if elements % n == 0 then Ok(elements / n) else Err(ViewError)
  }

  /** A classifier as far as shapes go: its feature layers and the
      `in_features` its final linear layer was built with. */
  datatype Network = Network(layers: seq<Layer>, classifierIn: int)

  /** One EEG trial: one input channel, two electrodes, 750 time samples. */
  const TrialShape: Shape := Shape(1, 2, TrialLength)

  /** The number of rows the flatten step hands to the linear layer for a
      batch of `batch` trials, or the error the forward pass raises. */
  function ForwardRows(net: Network, batch: nat): Result<int, NetError>
  {
    if net.classifierIn <= 0 then Err(ShapeError)
    else
      match Forward(TrialShape, net.layers)
      case None => Err(ShapeError)
      case Some(s) => View(batch * Size(s), net.classifierIn)
  }

  /** A forward pass keeps the batch intact exactly when every trial flattens
      to `classifierIn` features. */
  lemma ForwardKeepsBatch(net: Network, batch: nat, s: Shape)
    requires batch > 0 && net.classifierIn > 0
    requires Forward(TrialShape, net.layers) == Some(s)
    ensures ForwardRows(net, batch) == Ok(batch) <==> Size(s) == net.classifierIn
  {
    var c := net.classifierIn;
    assert ForwardRows(net, batch) == View(batch * Size(s), c);
    if Size(s) == c {
      MulDivExact(batch, c);
    } else if ForwardRows(net, batch) == Ok(batch) {
      assert batch * c == batch * Size(s);
      MulCancel(batch, c, Size(s));
    }
  }

  lemma MulDivExact(b: int, c: int)
    requires c > 0
    ensures (b * c) % c == 0 && (b * c) / c == b
  {
    DivUnique(b * c, c, b, 0);
  }

  /** Euclidean division is determined by its defining equation. */
  lemma DivUnique(e: int, c: int, q: int, r: int)
    requires c > 0 && e == c * q + r && 0 <= r < c
    ensures e / c == q && e % c == r
  {
    var q0, r0 := e / c, e % c;
    assert c * q0 + r0 == e;
    assert c * (q0 - q) == r - r0;
    MulBounded(c, q0 - q);
  }

  lemma MulBounded(c: int, k: int)
    requires c > 0 && -c < c * k < c
    ensures k == 0
  {
    if k >= 1 {
      MulAtLeast(c, k);
    } else if k <= -1 {
      MulAtLeast(c, -k);
    }
  }

  lemma {:induction false} MulAtLeast(c: int, k: int)
    requires c > 0 && k >= 1
    ensures c * k >= c
    decreases k
  {
    if k > 1 {
      MulAtLeast(c, k - 1);
      assert c * k == c * (k - 1) + c;
    }
  }

  lemma MulCancel(b: int, x: int, y: int)
    requires b > 0 && b * x == b * y
    ensures x == y
  {
  }

  // ---------------------------------------------------------------------------
  // EEGNet
  // ---------------------------------------------------------------------------

  /** firstconv: a padded width-51 temporal convolution and batch norm. */
  function FirstConv(): seq<Layer>
  {
    [Conv2d(1, 16, 1, 51, 0, 25, 1), BatchNorm2d(16)]
  }

  /** depthwiseConv: a grouped height-2 convolution across the electrodes,
      batch norm, activation, a width-4 average pool and dropout. */
  function DepthwiseConv(): seq<Layer>
  {
    [Conv2d(16, 32, 2, 1, 0, 0, 16), BatchNorm2d(32), Activation, AvgPool2d(1, 4), Dropout]
  }

  /** separableConv: a padded width-15 convolution, batch norm, activation,
      a width-8 average pool and dropout. */
  function SeparableConv(): seq<Layer>
  {
    [Conv2d(32, 32, 1, 15, 0, 7, 1), BatchNorm2d(32), Activation, AvgPool2d(1, 8), Dropout]
  }

  /** firstconv, depthwiseConv and separableConv in order. */
  function EEGNetLayers(): seq<Layer>
  {
    FirstConv() + DepthwiseConv() + SeparableConv()
  }

  /** EEGNet with its hard-coded linear layer of 736 inputs. */
  function EEGNet(): Network
  {
    Network(EEGNetLayers(), 736)
  }

  /** 736 is right: a trial leaves the feature layers as 32 x 1 x 23 (the
      padded convolutions keep 750 samples, the pools cut them to 187 and then
      23), so flattening keeps every batch intact. */
  lemma EEGNetFlatten(batch: nat)
    requires batch > 0
    ensures Forward(TrialShape, EEGNetLayers()) == Some(Shape(32, 1, 23))
    ensures Size(Shape(32, 1, 23)) == EEGNet().classifierIn
    ensures ForwardRows(EEGNet(), batch) == Ok(batch)
  {
    EEGNetHead();
    ForwardKeepsBatch(EEGNet(), batch, Shape(32, 1, 23));
  }

  /** The padded convolution keeps the 750 samples; 16 feature maps. */
  lemma FirstConvShape()
    ensures Forward(TrialShape, FirstConv()) == Some(Shape(16, 2, 750))
  {
    var s0, s1 := TrialShape, Shape(16, 2, 750);
    assert WindowCount(2, 1, 0, 1) == Some(2) && WindowCount(750, 51, 25, 1) == Some(750);
    assert Forward(s1, []) == Some(s1);
    ForwardCons(s1, BatchNorm2d(16), [], s1, s1);
    ForwardCons(s0, Conv2d(1, 16, 1, 51, 0, 25, 1), [BatchNorm2d(16)], s1, s1);
  }

  /** The depthwise convolution folds the electrodes into one row; the pool
      cuts 750 samples to 187. */
  lemma DepthwiseConvShape()
    ensures Forward(Shape(16, 2, 750), DepthwiseConv()) == Some(Shape(32, 1, 187))
  {
    var s0, s1, s2 := Shape(16, 2, 750), Shape(32, 1, 750), Shape(32, 1, 187);
    assert WindowCount(2, 2, 0, 1) == Some(1) && WindowCount(750, 1, 0, 1) == Some(750);
    assert WindowCount(1, 1, 0, 1) == Some(1) && WindowCount(750, 4, 0, 4) == Some(187);
    assert Forward(s2, []) == Some(s2);
    ForwardCons(s2, Dropout, [], s2, s2);
    ForwardCons(s1, AvgPool2d(1, 4), [Dropout], s2, s2);
    ForwardCons(s1, Activation, [AvgPool2d(1, 4), Dropout], s1, s2);
    ForwardCons(s1, BatchNorm2d(32), [Activation, AvgPool2d(1, 4), Dropout], s1, s2);
    ForwardCons(s0, Conv2d(16, 32, 2, 1, 0, 0, 16), [BatchNorm2d(32), Activation, AvgPool2d(1, 4), Dropout], s1, s2);
  }

  /** The padded convolution keeps 187 samples; the pool cuts them to 23. */
  lemma SeparableConvShape()
    ensures Forward(Shape(32, 1, 187), SeparableConv()) == Some(Shape(32, 1, 23))
  {
    var s0, s1 := Shape(32, 1, 187), Shape(32, 1, 23);
    assert WindowCount(1, 1, 0, 1) == Some(1) && WindowCount(187, 15, 7, 1) == Some(187);
    assert WindowCount(187, 8, 0, 8) == Some(23);
    assert Forward(s1, []) == Some(s1);
    ForwardCons(s1, Dropout, [], s1, s1);
    ForwardCons(s0, AvgPool2d(1, 8), [Dropout], s1, s1);
    ForwardCons(s0, Activation, [AvgPool2d(1, 8), Dropout], s0, s1);
    ForwardCons(s0, BatchNorm2d(32), [Activation, AvgPool2d(1, 8), Dropout], s0, s1);
    ForwardCons(s0, Conv2d(32, 32, 1, 15, 0, 7, 1), [BatchNorm2d(32), Activation, AvgPool2d(1, 8), Dropout], s0, s1);
  }

  /** The EEGNet feature layers, block by block: 1 x 2 x 750 becomes
      16 x 2 x 750, then 32 x 1 x 187, then 32 x 1 x 23. */
  lemma EEGNetHead()
    ensures Forward(TrialShape, EEGNetLayers()) == Some(Shape(32, 1, 23))
  {
    FirstConvShape();
    DepthwiseConvShape();
    SeparableConvShape();
    ForwardAppend(Shape(16, 2, 750), DepthwiseConv(), SeparableConv());
    ForwardAppend(TrialShape, FirstConv(), DepthwiseConv() + SeparableConv());
    assert EEGNetLayers() == FirstConv() + (DepthwiseConv() + SeparableConv());
  }

  // ---------------------------------------------------------------------------
  // DeepConvNet
  // ---------------------------------------------------------------------------

  /** Batch norm, activation, the width-2 max pool and dropout: the block
      that ends every DeepConvNet stage. */
  function PoolBlock(width: int): seq<Layer>
  {
    [BatchNorm2d(width)] + ([Activation] + ([MaxPool2d(1, 2)] + [Dropout]))
  }

  /** conv0: a width-5 temporal convolution, a height-2 spatial convolution
      across the electrodes, then the pool block. */
  function FirstStage(width: int): seq<Layer>
  {
    [Conv2d(1, width, 1, 5, 0, 0, 1)] + ([Conv2d(width, width, 2, 1, 0, 0, 1)] + PoolBlock(width))
  }

  /** conv<idx> for idx >= 1: a width-5 convolution from the previous width
      to the next, then the pool block. */
  function LaterStage(inWidth: int, outWidth: int): seq<Layer>
  {
    [Conv2d(inWidth, outWidth, 1, 5, 0, 0, 1)] + PoolBlock(outWidth)
  }

  /** The stages conv<idx>, ..., conv<|deepconv|-1>. */
  function LaterStages(deepconv: seq<int>, idx: nat): seq<Layer>
    requires 1 <= idx
    decreases |deepconv| - idx
  {
    if idx >= |deepconv| then []
    else LaterStage(deepconv[idx - 1], deepconv[idx]) + LaterStages(deepconv, idx + 1)
  }

  function DeepConvNetLayers(deepconv: seq<int>): seq<Layer>
    requires deepconv != []
  {
    FirstStage(deepconv[0]) + LaterStages(deepconv, 1)
  }

  /** No width is negative: torch cannot allocate the weights of a layer
      with a negative number of channels. */
  predicate NonNegativeWidths(deepconv: seq<int>)
  {
    forall i :: 0 <= i < |deepconv| ==> deepconv[i] >= 0
  }

  /** The DeepConvNet constructor as written: `deepconv[0]` raises
      IndexError on an empty list, a negative width fails in the layer that
      uses it, and a negative flatten size fails in `nn.Linear`; otherwise
      the linear layer is sized by FlattenSize (round). */
  function DeepConvNet(deepconv: seq<int>): (r: Result<Network, NetError>)
    ensures r.Err? <==> deepconv == [] || !NonNegativeWidths(deepconv) || FlattenSize(deepconv).value < 0
    ensures r.Err? ==> r.error == (if deepconv == [] then IndexError else DimensionError)
    ensures r.Ok? ==> r.value.classifierIn == FlattenSize(deepconv).value
  {
    if deepconv == [] then Err(IndexError)
    else if !NonNegativeWidths(deepconv) || FlattenSize(deepconv).value < 0 then Err(DimensionError)
    else Ok(Network(DeepConvNetLayers(deepconv), FlattenSize(deepconv).value))
  }

  /** The DeepConvNet constructor with the linear layer sized by floor. */
  function CorrectedDeepConvNet(deepconv: seq<int>): (r: Result<Network, NetError>)
    ensures r.Err? <==> deepconv == [] || !NonNegativeWidths(deepconv) || CorrectedFlattenSize(deepconv).value < 0
    ensures r.Ok? ==> r.value.classifierIn == CorrectedFlattenSize(deepconv).value
  {
    if deepconv == [] then Err(IndexError)
    else if !NonNegativeWidths(deepconv) || CorrectedFlattenSize(deepconv).value < 0 then Err(DimensionError)
    else Ok(Network(DeepConvNetLayers(deepconv), CorrectedFlattenSize(deepconv).value))
  }

  /** From the eighth stage on, the fold as written stays between -4 and -1
      (750, 373, 184, 90, 43, 20, 8, 2, -1, ...). */
  lemma {:induction false} LongFoldNegative(n: nat)
    requires n >= 8
    ensures -4 <= Iterate(n, TrialLength) <= -1
  {
    if n == 8 {
      DefaultFlattenSize();
      StepVsFloor(43);
      StepAt(20, 8);
      StepAt(8, 2);
      StepAt(2, -1);
    } else {
      LongFoldNegative(n - 1);
      StepVsFloor(Iterate(n - 1, TrialLength));
    }
  }

  /** A DeepConvNet of eight or more stages cannot be built, whatever its
      (positive) widths: the flatten size is negative and `nn.Linear`
      refuses it. */
  lemma ManyStagesRejected(deepconv: seq<int>)
    requires |deepconv| >= 8 && PositiveWidths(deepconv)
    ensures DeepConvNet(deepconv) == Err(DimensionError)
  {
    var last, k := deepconv[|deepconv| - 1], Iterate(|deepconv|, TrialLength);
    LongFoldNegative(|deepconv|);
    MulAtLeast(last, -k);
    assert last * k < 0;
  }

  /** The corrected size is what the feature layers really produce: for
      positive widths whose stages fit, a trial leaves them with exactly
      CorrectedFlattenSize values. */
  lemma CorrectedFlattenSizeIsShape(deepconv: seq<int>)
    requires deepconv != [] && PositiveWidths(deepconv)
    requires StagesFit(|deepconv|, TrialLength)
    ensures Forward(TrialShape, DeepConvNetLayers(deepconv)).Some?
    ensures Size(Forward(TrialShape, DeepConvNetLayers(deepconv)).value) == CorrectedFlattenSize(deepconv).value
  {
    DeepConvNetShape(deepconv);
    var last, w := deepconv[|deepconv| - 1], FloorIterate(|deepconv|, TrialLength);
    assert Size(Shape(last, 1, w)) == last * w;
  }

  /** Every stage, entered with time length x, still has room for its
      width-5 convolution and its width-2 pool. */
  predicate StagesFit(n: nat, x: int)
  {
    n == 0 || (x >= 6 && StagesFit(n - 1, FloorStep(x)))
  }

  predicate PositiveWidths(deepconv: seq<int>)
  {
    forall i :: 0 <= i < |deepconv| ==> deepconv[i] > 0
  }

  /** A width-5 temporal convolution without padding shortens time by 4. */
  lemma TimeConv(i: int, o: int, h: int, x: int)
    requires i > 0 && o > 0 && h > 0 && x >= 5
    ensures ApplyLayer(Shape(i, h, x), Conv2d(i, o, 1, 5, 0, 0, 1)) == Some(Shape(o, h, x - 4))
  {
    assert WindowCount(h, 1, 0, 1) == Some(h);
    assert WindowCount(x, 5, 0, 1) == Some(x - 4);
  }

  /** The height-2 spatial convolution folds the two electrodes into one row. */
  lemma SpatialConv(w: int, x: int)
    requires w > 0 && x >= 1
    ensures ApplyLayer(Shape(w, 2, x), Conv2d(w, w, 2, 1, 0, 0, 1)) == Some(Shape(w, 1, x))
  {
    assert WindowCount(2, 2, 0, 1) == Some(1);
    assert WindowCount(x, 1, 0, 1) == Some(x);
  }

  /** The width-2 max pool halves the time length, rounding down. */
  lemma HalvingPool(c: int, y: int)
    requires y >= 2
    ensures ApplyLayer(Shape(c, 1, y), MaxPool2d(1, 2)) == Some(Shape(c, 1, y / 2))
  {
    assert WindowCount(1, 1, 0, 1) == Some(1);
    assert (y - 2) / 2 + 1 == y / 2;
  }

  /** The pool block halves the time length y, rounding down. */
  lemma PoolBlockShape(c: int, y: int)
    requires y >= 2
    ensures Forward(Shape(c, 1, y), PoolBlock(c)) == Some(Shape(c, 1, y / 2))
  {
    var s, t := Shape(c, 1, y), Shape(c, 1, y / 2);
    HalvingPool(c, y);
    ForwardOne(t, Dropout, t);
    ForwardCons(s, MaxPool2d(1, 2), [Dropout], t, t);
    ForwardCons(s, Activation, [MaxPool2d(1, 2)] + [Dropout], s, t);
    ForwardCons(s, BatchNorm2d(c), [Activation] + ([MaxPool2d(1, 2)] + [Dropout]), s, t);
  }

  lemma LaterStageShape(inWidth: int, outWidth: int, x: int)
    requires inWidth > 0 && outWidth > 0 && x >= 6
    ensures Forward(Shape(inWidth, 1, x), LaterStage(inWidth, outWidth)) == Some(Shape(outWidth, 1, FloorStep(x)))
  {
    TimeConv(inWidth, outWidth, 1, x);
    PoolBlockShape(outWidth, x - 4);
    ForwardCons(Shape(inWidth, 1, x), Conv2d(inWidth, outWidth, 1, 5, 0, 0, 1), PoolBlock(outWidth),
                Shape(outWidth, 1, x - 4), Shape(outWidth, 1, FloorStep(x)));
  }

  lemma FirstStageShape(width: int, x: int)
    requires width > 0 && x >= 6
    ensures Forward(Shape(1, 2, x), FirstStage(width)) == Some(Shape(width, 1, FloorStep(x)))
  {
    var spatial := Conv2d(width, width, 2, 1, 0, 0, 1);
    var s1, s2, s3 := Shape(width, 2, x - 4), Shape(width, 1, x - 4), Shape(width, 1, FloorStep(x));
    TimeConv(1, width, 2, x);
    SpatialConv(width, x - 4);
    PoolBlockShape(width, x - 4);
    ForwardCons(s1, spatial, PoolBlock(width), s2, s3);
    ForwardCons(Shape(1, 2, x), Conv2d(1, width, 1, 5, 0, 0, 1), [spatial] + PoolBlock(width), s1, s3);
  }

  lemma {:induction false} LaterStagesShape(deepconv: seq<int>, idx: nat, x: int)
    requires 1 <= idx <= |deepconv| && PositiveWidths(deepconv)
    requires StagesFit(|deepconv| - idx, x)
    ensures Forward(Shape(deepconv[idx - 1], 1, x), LaterStages(deepconv, idx))
              == Some(Shape(deepconv[|deepconv| - 1], 1, FloorIterate(|deepconv| - idx, x)))
    decreases |deepconv| - idx
  {
    if idx < |deepconv| {
      var n := |deepconv| - idx;
      var s := Shape(deepconv[idx - 1], 1, x);
      var a, b := LaterStage(deepconv[idx - 1], deepconv[idx]), LaterStages(deepconv, idx + 1);
      assert LaterStages(deepconv, idx) == a + b;
      assert x >= 6 && StagesFit(n - 1, FloorStep(x));
      assert deepconv[idx - 1] > 0 && deepconv[idx] > 0;
      var mid := Shape(deepconv[idx], 1, FloorStep(x));
      var last := Shape(deepconv[|deepconv| - 1], 1, FloorIterate(n, x));
      LaterStageShape(deepconv[idx - 1], deepconv[idx], x);
      assert Forward(s, a) == Some(mid);
      LaterStagesShape(deepconv, idx + 1, FloorStep(x));
      FloorIterateFirst(n, x);
      assert Forward(mid, b) == Some(last);
      ForwardAppend(s, a, b);
    } else {
      assert LaterStages(deepconv, idx) == [];
      assert Forward(Shape(deepconv[idx - 1], 1, x), []) == Some(Shape(deepconv[idx - 1], 1, x));
    }
  }

  /** The real per-trial output of DeepConvNet's feature layers: the last
      width in channels, one row, and the floor fold in time. */
  lemma DeepConvNetShape(deepconv: seq<int>)
    requires deepconv != [] && PositiveWidths(deepconv)
    requires StagesFit(|deepconv|, TrialLength)
    ensures Forward(TrialShape, DeepConvNetLayers(deepconv))
              == Some(Shape(deepconv[|deepconv| - 1], 1, FloorIterate(|deepconv|, TrialLength)))
  {
    var x, n, last := TrialLength, |deepconv|, deepconv[|deepconv| - 1];
    var a, b := FirstStage(deepconv[0]), LaterStages(deepconv, 1);
    var mid := Shape(deepconv[0], 1, FloorStep(x));
    assert x >= 6 && StagesFit(n - 1, FloorStep(x));
    calc {
      Forward(TrialShape, DeepConvNetLayers(deepconv));
      Forward(TrialShape, a + b);
      { ForwardAppend(TrialShape, a, b); FirstStageShape(deepconv[0], x); }
      Forward(mid, b);
      { LaterStagesShape(deepconv, 1, FloorStep(x)); }
      Some(Shape(last, 1, FloorIterate(n - 1, FloorStep(x))));
      { FloorIterateFirst(n, x); }
      Some(Shape(last, 1, FloorIterate(n, x)));
    }
  }

  /** The corrected constructor sizes the linear layer right for every list
      of positive widths whose stages fit: any batch passes the flatten step
      intact. */
  lemma CorrectedDeepConvNetForward(deepconv: seq<int>, batch: nat)
    requires deepconv != [] && PositiveWidths(deepconv)
    requires StagesFit(|deepconv|, TrialLength)
    requires batch > 0
    ensures CorrectedDeepConvNet(deepconv).Ok? && ForwardRows(CorrectedDeepConvNet(deepconv).value, batch) == Ok(batch)
  {
    var n, last := |deepconv|, deepconv[|deepconv| - 1];
    var w := FloorIterate(n, TrialLength);
    var s := Shape(last, 1, w);
    StagesFitPositive(n, TrialLength);
    assert last > 0 && w > 0;
    MulAtLeast(last, w);
    assert NonNegativeWidths(deepconv);
    var net := CorrectedDeepConvNet(deepconv).value;
    assert net.layers == DeepConvNetLayers(deepconv);
    assert net.classifierIn == last * w;
    DeepConvNetShape(deepconv);
    assert Size(s) == net.classifierIn;
    ForwardKeepsBatch(net, batch, s);
  }

  lemma {:induction false} StagesFitPositive(n: nat, x: int)
    requires StagesFit(n, x) && x > 0
    ensures FloorIterate(n, x) > 0
  {
    if n > 0 {
      StagesFitPositive(n - 1, FloorStep(x));
      FloorIterateFirst(n, x);
    }
  }

  /** The constructor as written agrees with the corrected one whenever no
      stage rounds a tie upwards, the default widths among them. */
  lemma DeepConvNetAgrees(deepconv: seq<int>)
    requires deepconv != [] && NoRoundUp(|deepconv|, TrialLength)
    ensures DeepConvNet(deepconv) == CorrectedDeepConvNet(deepconv)
  {
    IterateMatchesFloor(|deepconv|, TrialLength);
  }

  /** The default DeepConvNet keeps every batch intact. */
  lemma DefaultDeepConvNetForward(batch: nat)
    requires batch > 0
    ensures DeepConvNet([25, 50, 100, 200]).Ok? && ForwardRows(DeepConvNet([25, 50, 100, 200]).value, batch) == Ok(batch)
  {
    var d := [25, 50, 100, 200];
    DefaultFlattenSize();
    assert FloorIterate(4, TrialLength) == 43;
    assert StagesFit(4, TrialLength);
    CorrectedDeepConvNetForward(d, batch);
  }

  /** The fold as written is wrong for five stages: the fifth stage sees a
      time length of 43, 43 - 4 = 39 is a tie, round(19.5) = 20 while the
      pool leaves 19.  The linear layer expects 400 * 20 = 8000 features, the
      network produces 400 * 19 = 7600 per trial: a single trial fails in
      `view`, and a batch of 20 trials is silently regrouped into 19 rows. */
  lemma FiveStageFlattenMismatch()
    ensures FlattenSize([25, 50, 100, 200, 400]) == Ok(8000)
    ensures CorrectedFlattenSize([25, 50, 100, 200, 400]) == Ok(7600)
    ensures DeepConvNet([25, 50, 100, 200, 400]).Ok? && CorrectedDeepConvNet([25, 50, 100, 200, 400]).Ok?
    ensures ForwardRows(DeepConvNet([25, 50, 100, 200, 400]).value, 1) == Err(ViewError)
    ensures ForwardRows(DeepConvNet([25, 50, 100, 200, 400]).value, 20) == Ok(19)
    ensures ForwardRows(CorrectedDeepConvNet([25, 50, 100, 200, 400]).value, 20) == Ok(20)
  {
    var d := [25, 50, 100, 200, 400];
    DefaultFlattenSize();
    StepVsFloor(43);
    assert Iterate(5, TrialLength) == 20;
    assert FloorIterate(5, TrialLength) == 19;
    assert StagesFit(5, TrialLength);
    DeepConvNetShape(d);
    CorrectedDeepConvNetForward(d, 20);
  }
}
