/** The NIPS2017 capsule network of model/model.py: the shape arithmetic of its
    constructor and the winner-take-all masking of its forward pass. The
    convolutions, the routing layers and the decoder's arithmetic are not
    modelled: the routing output (one pose vector per class) and the decoder
    are inputs. */
module CapsuleModel {
  import opened Errors
  import opened Tensor

  /** `img_shape`: channels, height and width of one image. */
  datatype ImgShape = ImgShape(channels: nat, height: nat, width: nat)

  /** `prod(img_shape)`: the number of values in one image. */
  function Volume(img: ImgShape): nat
  {
    img.channels * img.height * img.width
  }

  /** An `nn.Linear` layer, by its widths. */
  datatype Linear = Linear(inFeatures: int, outFeatures: int)

  /** The constructor's arguments together with the primary-capsule count it derives. */
  datatype Network = Network(
    img: ImgShape, channels: int, primaryDim: int, numClasses: nat, outDim: nat,
    numRouting: nat, kernelSize: int, out1: nat, out2: nat, primaryCaps: int)

  /** Python's `int()` of a number: truncation toward zero. */
  function Trunc(x: real): (r: int)
    ensures x >= 0.0 ==> 0 <= r && r as real <= x < r as real + 1.0
    ensures x < 0.0 ==> r <= 0 && r as real - 1.0 < x <= r as real
  {
    if x >= 0.0 then x.Floor else -((-x).Floor)
  }

  /** Side length left after the two valid convolutions of width `kernelSize`. */
  function ReducedSide(side: nat, kernelSize: int): int
  {
    side - 2 * (kernelSize - 1)
  }

  /** `int(channels / primary_dim * (H - 2(k-1)) * (W - 2(k-1)) / 4)`, with
      `height` and `width` the sides left after the two convolutions
      (ReducedSide), and the ZeroDivisionError that a zero `primary_dim`
      raises. */
  function PrimaryCapsCount(channels: int, primaryDim: int, height: int, width: int): (r: Result<int>)
    ensures r.Err? <==> primaryDim == 0
    ensures r.Err? ==> r.error == ZeroDivisionError
  {
    if primaryDim == 0 then Err(ZeroDivisionError)
    else Ok(Trunc(channels as real / primaryDim as real * height as real * width as real / 4.0))
  }

  /** Whenever the capsule grid has a non-negative size, the count is the integer
      quotient of `channels * H' * W'` by `4 * primary_dim`. */
  lemma PrimaryCapsIsQuotient(channels: int, primaryDim: int, height: int, width: int)
    requires primaryDim > 0 && channels * height * width >= 0
    ensures PrimaryCapsCount(channels, primaryDim, height, width)
         == Ok(channels * height * width / (4 * primaryDim))
  {
    RealQuotient(channels, primaryDim, height, width);
    FloorOfQuotient(channels * height * width, 4 * primaryDim);
  }

  lemma RealQuotient(c: int, p: int, a: int, b: int)
    requires p > 0
    ensures c as real / p as real * a as real * b as real / 4.0 == (c * a * b) as real / (4 * p) as real
  {
    assert (c * a * b) as real == c as real * a as real * b as real;
    assert (4 * p) as real == 4.0 * p as real;
  }

  lemma FloorOfQuotient(num: int, den: int)
    requires num >= 0 && den > 0
    ensures num as real / den as real >= 0.0
    ensures (num as real / den as real).Floor == num / den
  {
    var q, rem := num / den, num % den;
    var x, d := num as real / den as real, den as real;
    assert num == q * den + rem && 0 <= rem < den;
    assert num as real == q as real * d + rem as real;
    var y := x - q as real;
    assert y * d == rem as real;
    assert 0.0 <= y < 1.0;
  }

  /** The widths of the three `nn.Linear` layers of the decoder: they take the
      masked class capsules and end with one value per pixel, each layer
      feeding the next. */
  function Decoder(net: Network): (layers: seq<Linear>)
    ensures |layers| == 3
    ensures layers[0].inFeatures == net.outDim * net.numClasses
    ensures forall l :: 0 <= l < 2 ==> layers[l].outFeatures == layers[l + 1].inFeatures
    ensures layers[2].outFeatures == Volume(net.img)
  {
    [Linear(net.outDim * net.numClasses, net.out1),
     Linear(net.out1, net.out2),
     Linear(net.out2, Volume(net.img))]
  }

  /** `CapsuleNetwork.__init__`: fails only where the primary-capsule count does. */
  function Build(img: ImgShape, channels: int, primaryDim: int, numClasses: nat, outDim: nat,
                 numRouting: nat, kernelSize: int, out1: nat, out2: nat): (r: Result<Network>)
    ensures r.Ok? <==> primaryDim != 0
    ensures r.Err? ==> r.error == ZeroDivisionError
    ensures r.Ok? ==> r.value.img == img && r.value.numClasses == numClasses && r.value.outDim == outDim
    ensures r.Ok? ==> r.value.channels == channels && r.value.primaryDim == primaryDim && r.value.numRouting == numRouting
    ensures r.Ok? ==> r.value.kernelSize == kernelSize && r.value.out1 == out1 && r.value.out2 == out2
    ensures r.Ok? ==> Ok(r.value.primaryCaps) == PrimaryCapsCount(channels, primaryDim, ReducedSide(img.height, kernelSize), ReducedSide(img.width, kernelSize))
    ensures r.Ok? ==> var layers := Decoder(r.value);
              && layers[0] == Linear(outDim * numClasses, out1)
              && layers[1] == Linear(out1, out2)
              && layers[2] == Linear(out2, Volume(img))
  {
    match PrimaryCapsCount(channels, primaryDim, ReducedSide(img.height, kernelSize), ReducedSide(img.width, kernelSize))
    case Err(e) => Err(e)
    case Ok(p) => Ok(Network(img, channels, primaryDim, numClasses, outDim, numRouting, kernelSize, out1, out2, p))
  }

  /** The network the trainer builds for NIPS2017: 256 channels, 8-dimensional
      primary capsules, 16-dimensional class capsules, 9-wide kernels and a
      512/1024 decoder. Its construction never fails, whatever the images. */
  function NipsNetwork(img: ImgShape, numClasses: nat, numRouting: nat): (r: Result<Network>)
    ensures r.Ok?
    ensures r.value.img == img && r.value.numClasses == numClasses && r.value.numRouting == numRouting
    ensures r.value.channels == 256 && r.value.primaryDim == 8 && r.value.outDim == 16 && r.value.kernelSize == 9
    ensures Decoder(r.value) == [Linear(16 * numClasses, 512), Linear(512, 1024), Linear(1024, Volume(img))]
  {
    Build(img, 256, 8, numClasses, 16, numRouting, 9, 512, 1024)
  }

  /** On 1x28x28 images with 10 classes there are 1152 primary capsules, and the
      decoder maps 160 values to 512, 1024 and finally 784. */
  lemma MnistShapes(numRouting: nat)
    ensures NipsNetwork(ImgShape(1, 28, 28), 10, numRouting).Ok?
    ensures NipsNetwork(ImgShape(1, 28, 28), 10, numRouting).value.primaryCaps == 1152
    ensures Decoder(NipsNetwork(ImgShape(1, 28, 28), 10, numRouting).value)
         == [Linear(160, 512), Linear(512, 1024), Linear(1024, 784)]
  {
    PrimaryCapsIsQuotient(256, 8, ReducedSide(28, 9), ReducedSide(28, 9));
  }

  /** The routing output `out` (B x numClasses x outDim) and `preds`, the norm
      of every pose vector. */
  predicate PosesFit(net: Network, poses: seq<seq<seq<real>>>, preds: seq<seq<real>>)
  {
    && |preds| == |poses|
    && forall b :: 0 <= b < |poses| ==>
         && |poses[b]| == net.numClasses
         && |preds[b]| == net.numClasses
         && forall k :: 0 <= k < net.numClasses ==>
              |poses[b][k]| == net.outDim && IsNorm(preds[b][k], poses[b][k])
  }

  /** `eye(num_classes).index_select(0, idx)`: row `idx[b]` of the identity,
      the one-hot mask of the class selected for sample `b`. The indices are
      the argmax of the class scores, so each is a class. */
  function MaskRows(n: nat, idx: seq<nat>): (y: seq<seq<real>>)
    requires forall b :: 0 <= b < |idx| ==> idx[b] < n
    ensures |y| == |idx|
    ensures forall b :: 0 <= b < |idx| ==> |y[b]| == n && y[b][idx[b]] == 1.0
    ensures forall b, k :: 0 <= b < |idx| && 0 <= k < n && k != idx[b] ==> y[b][k] == 0.0
  {
    seq(|idx|, b requires 0 <= b < |idx| => IdentityRow(n, idx[b]))
  }

  /** `out * y` with `y` unsqueezed on the last axis: every pose vector scaled
      by its class's mask entry. */
  function ApplyMask(poses: seq<seq<seq<real>>>, y: seq<seq<real>>): (masked: seq<seq<seq<real>>>)
    requires |y| == |poses| && forall b :: 0 <= b < |poses| ==> |y[b]| == |poses[b]|
    ensures |masked| == |poses|
    ensures forall b :: 0 <= b < |poses| ==> |masked[b]| == |poses[b]|
    ensures forall b, k :: 0 <= b < |poses| && 0 <= k < |poses[b]| ==> |masked[b][k]| == |poses[b][k]|
  {
    seq(|poses|, b requires 0 <= b < |poses| =>
      seq(|poses[b]|, k requires 0 <= k < |poses[b]| =>
        seq(|poses[b][k]|, d requires 0 <= d < |poses[b][k]| => poses[b][k][d] * y[b][k])))
  }

  /** `view(-1, *img_shape)` of one sample: an image of `img_shape`. */
  function Reshape(flat: seq<real>, img: ImgShape): (x: seq<seq<seq<real>>>)
    requires |flat| == Volume(img)
    ensures |x| == img.channels
    ensures forall c :: 0 <= c < img.channels ==> |x[c]| == img.height
    ensures forall c, h :: 0 <= c < img.channels && 0 <= h < img.height ==> |x[c][h]| == img.width
  {
    assert |flat| == img.channels * (img.height * img.width);
    var planes := Chunks(flat, img.channels, img.height * img.width);
    seq(img.channels, c requires 0 <= c < img.channels => Chunks(planes[c], img.height, img.width))
  }

  /** All values of an image, channel by channel and row by row. */
  function FlattenImage(x: seq<seq<seq<real>>>): seq<real>
  {
    Flatten(seq(|x|, c requires 0 <= c < |x| => Flatten(x[c])))
  }

  /** Reshaping to `img_shape` keeps exactly the values it was given, in
      order. */
  lemma ReshapeRoundTrip(flat: seq<real>, img: ImgShape)
    requires |flat| == Volume(img)
    ensures FlattenImage(Reshape(flat, img)) == flat
  {
    assert |flat| == img.channels * (img.height * img.width);
    var planes := Chunks(flat, img.channels, img.height * img.width);
    var x := Reshape(flat, img);
    forall c | 0 <= c < img.channels
      ensures Flatten(x[c]) == planes[c]
    {
      FlattenChunks(planes[c], img.height, img.width);
    }
    assert seq(|x|, c requires 0 <= c < |x| => Flatten(x[c])) == planes;
    FlattenChunks(flat, img.channels, img.height * img.width);
  }

  /** What `forward` returns (`preds`, `reconstructions`) and, to state its
      contract, the selected classes and the decoder's input. */
  datatype ForwardOut = ForwardOut(
    preds: seq<seq<real>>,
    selected: seq<nat>,
    decoderIn: seq<seq<real>>,
    reconstructions: seq<seq<seq<seq<real>>>>)

  /** `CapsuleNetwork.forward` after routing: select the longest pose vector of
      every sample, mask all the others, flatten, decode and reshape. */
  function Forward(net: Network, poses: seq<seq<seq<real>>>, preds: seq<seq<real>>,
                   decode: seq<real> -> seq<real>): (r: ForwardOut)
    requires net.numClasses > 0 && PosesFit(net, poses, preds)
    requires forall v :: |decode(v)| == Volume(net.img)
    ensures r.preds == preds
    ensures |r.selected| == |r.decoderIn| == |r.reconstructions| == |poses|
    ensures forall b :: 0 <= b < |poses| ==> r.selected[b] < net.numClasses
  {
    var selected := ArgMaxRows(preds);
    var masked := ApplyMask(poses, MaskRows(net.numClasses, selected));
    var decoderIn := seq(|poses|, b requires 0 <= b < |poses| => Flatten(masked[b]));
    var reconstructions := seq(|poses|, b requires 0 <= b < |poses| => Reshape(decode(decoderIn[b]), net.img));
    ForwardOut(preds, selected, decoderIn, reconstructions)
  }

  /** The pose vectors of one sample with every class but `winner` replaced
      by a vector of zeros. */
  function WinnerOnly(rows: seq<seq<real>>, winner: nat): (kept: seq<seq<real>>)
    ensures |kept| == |rows|
    ensures forall k :: 0 <= k < |rows| ==> |kept[k]| == |rows[k]|
  {
    seq(|rows|, k requires 0 <= k < |rows| =>
      if k == winner then rows[k] else seq(|rows[k]|, d => 0.0))
  }

  /** Multiplying by the one-hot mask keeps the selected pose vector unchanged
      and zeroes every other one. */
  lemma MaskedSample(poses: seq<seq<seq<real>>>, n: nat, selected: seq<nat>, b: nat)
    requires |selected| == |poses| && b < |poses|
    requires forall b' :: 0 <= b' < |poses| ==> |poses[b']| == n && selected[b'] < n
    ensures ApplyMask(poses, MaskRows(n, selected))[b] == WinnerOnly(poses[b], selected[b])
  {
    var row := ApplyMask(poses, MaskRows(n, selected))[b];
    var kept := WinnerOnly(poses[b], selected[b]);
    forall k | 0 <= k < n
      ensures row[k] == kept[k]
    {
      assert |row[k]| == |kept[k]|;
      forall d | 0 <= d < |row[k]|
        ensures row[k][d] == kept[k][d]
      {
        assert row[k][d] == poses[b][k][d] * IdentityRow(n, selected[b])[k];
      }
    }
  }

  /** One sample of the forward pass: the decoder receives exactly as many
      values as its first layer takes, namely the selected pose vector in its
      class's place and zeros everywhere else, and the reconstruction has the
      image's shape and holds the decoder's output. */
  lemma ForwardSample(net: Network, poses: seq<seq<seq<real>>>, preds: seq<seq<real>>,
                      decode: seq<real> -> seq<real>, b: nat)
    requires net.numClasses > 0 && PosesFit(net, poses, preds)
    requires forall v :: |decode(v)| == Volume(net.img)
    requires b < |poses|
    ensures var r := Forward(net, poses, preds, decode);
      && r.decoderIn[b] == Flatten(WinnerOnly(poses[b], r.selected[b]))
      && |r.decoderIn[b]| == Decoder(net)[0].inFeatures
      && |r.reconstructions[b]| == net.img.channels
      && (forall c :: 0 <= c < net.img.channels ==> |r.reconstructions[b][c]| == net.img.height)
      && (forall c, h :: 0 <= c < net.img.channels && 0 <= h < net.img.height ==>
            |r.reconstructions[b][c][h]| == net.img.width)
      && FlattenImage(r.reconstructions[b]) == decode(r.decoderIn[b])
  {
    var r := Forward(net, poses, preds, decode);
    var n, w := net.numClasses, net.outDim;
    MaskedSample(poses, n, r.selected, b);
    var kept := WinnerOnly(poses[b], r.selected[b]);
    assert r.decoderIn[b] == Flatten(kept);
    assert r.reconstructions[b] == Reshape(decode(r.decoderIn[b]), net.img);
    FlattenLength(kept, w);
    ReshapeRoundTrip(decode(r.decoderIn[b]), net.img);
  }

  /** The forward pass over a batch: every score is the norm of its pose
      vector, the selected class is a maximiser of the scores, and every sample
      is decoded from its winning pose vector alone (ForwardSample). */
  lemma ForwardContract(net: Network, poses: seq<seq<seq<real>>>, preds: seq<seq<real>>,
                        decode: seq<real> -> seq<real>)
    requires net.numClasses > 0 && PosesFit(net, poses, preds)
    requires forall v :: |decode(v)| == Volume(net.img)
    ensures var r := Forward(net, poses, preds, decode);
      && r.preds == preds
      && |r.selected| == |r.decoderIn| == |r.reconstructions| == |poses|
      && (forall b, k :: 0 <= b < |poses| && 0 <= k < net.numClasses ==> IsNorm(r.preds[b][k], poses[b][k]))
      && (forall b :: 0 <= b < |poses| ==>
            && r.selected[b] < net.numClasses
            && forall k :: 0 <= k < net.numClasses ==> preds[b][k] <= preds[b][r.selected[b]])
      && (forall b :: 0 <= b < |poses| ==>
            && r.decoderIn[b] == Flatten(WinnerOnly(poses[b], r.selected[b]))
            && |r.decoderIn[b]| == Decoder(net)[0].inFeatures
            && |r.reconstructions[b]| == net.img.channels
            && FlattenImage(r.reconstructions[b]) == decode(r.decoderIn[b]))
  {
    forall b | 0 <= b < |poses|
      ensures var r := Forward(net, poses, preds, decode);
        && r.decoderIn[b] == Flatten(WinnerOnly(poses[b], r.selected[b]))
        && |r.decoderIn[b]| == Decoder(net)[0].inFeatures
        && |r.reconstructions[b]| == net.img.channels
        && FlattenImage(r.reconstructions[b]) == decode(r.decoderIn[b])
    {
      ForwardSample(net, poses, preds, decode, b);
    }
  }
}
