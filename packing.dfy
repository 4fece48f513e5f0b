/**
 * The buffer layout of `YOLOv10::preprocess`: the channel swap from BGR to RGB,
 * the byte offsets of the planes cut from the output buffer, and the split of an
 * interleaved image into those planes. Pixel values are an abstract element type;
 * one element stands for one 32-bit float of four bytes.
 */
module Packing {

  /** Bytes per element of a single-channel float plane (`CV_32FC1`). */
  const FloatBytes: nat := 4

  /** Channels of the converted sample (`CV_32FC3`). */
  const SampleChannels: nat := 3

  /**
   * Why packing stops: OpenCV throws on an empty image or an empty target size
   * (`EmptyImage`), and the source exits when the planes' total differs from the
   * buffer size (`ByteSizeMismatch`).
   */
  datatype PackError = EmptyImage | ByteSizeMismatch(total: nat, expected: nat)

  /** Index of channel `channel` of pixel `pixel` in an interleaved image. */
  function Interleaved(pixel: int, channel: int, channels: int): int
  {
    pixel * channels + channel
  }

  /** Index of pixel `pixel` in plane `channel` of a planar buffer of `pixels`-element planes. */
  function Planar(channel: int, pixel: int, pixels: int): int
  {
    channel * pixels + pixel
  }

  lemma MulMonotone(a: int, b: int, n: nat)
    requires a <= b
    ensures a * n <= b * n
  {
    assert b * n - a * n == (b - a) * n;
  }

  /** One (channel, pixel) pair of `LayoutInRange`: both layouts place it inside a buffer of `channels * pixels` elements. */
  lemma IndicesInRange(channels: nat, pixels: nat, c: nat, p: nat)
    requires c < channels && p < pixels
    ensures 0 <= Planar(c, p, pixels) < channels * pixels
    ensures 0 <= Interleaved(p, c, channels) < pixels * channels
  {
    MulMonotone(c + 1, channels, pixels);
    MulMonotone(p + 1, pixels, channels);
  }

  /** Planes are disjoint: distinct (channel, pixel) pairs occupy distinct planar indices. */
  lemma PlanarInjective(pixels: nat, c1: nat, p1: nat, c2: nat, p2: nat)
    requires p1 < pixels && p2 < pixels && (c1, p1) != (c2, p2)
    ensures Planar(c1, p1, pixels) != Planar(c2, p2, pixels)
  {
    if c1 < c2 {
      MulMonotone(c1 + 1, c2, pixels);
    } else if c2 < c1 {
      MulMonotone(c2 + 1, c1, pixels);
    }
  }

  /** Planes are contiguous: every index of the buffer is one plane's entry for one pixel. */
  lemma PlanesCoverBuffer(channels: nat, pixels: nat, k: nat)
    requires k < channels * pixels
    ensures pixels > 0 && k / pixels < channels && k % pixels < pixels
    ensures Planar(k / pixels, k % pixels, pixels) == k
  {
    if k / pixels >= channels {
      MulMonotone(channels, k / pixels, pixels);
      assert false;
    }
  }

  /** `cv::cvtColor(..., COLOR_BGR2RGB)`: channels 0 and 2 of every pixel change places. */
  function SwapRedBlue<T>(bgr: seq<T>): (rgb: seq<T>)
    requires |bgr| % SampleChannels == 0
    ensures |rgb| == |bgr|
    ensures forall p, c :: 0 <= p < |bgr| / 3 && 0 <= c < 3 ==> rgb[Interleaved(p, c, 3)] == bgr[Interleaved(p, 2 - c, 3)]
  {
    seq(|bgr|, k requires 0 <= k < |bgr| => bgr[k - k % 3 + 2 - k % 3])
  }

  /** Swapping the outer channels twice gives back the image. */
  lemma SwapRedBlueInvolutive<T>(img: seq<T>)
    requires |img| % SampleChannels == 0
    ensures SwapRedBlue(SwapRedBlue(img)) == img
  {
    var twice := SwapRedBlue(SwapRedBlue(img));
    forall k | 0 <= k < |img|
      ensures twice[k] == img[k]
    {
      var j := k - k % 3 + 2 - k % 3;
      assert j % 3 == 2 - k % 3 && j - j % 3 == k - k % 3;
    }
  }

  /** Bytes of one `height x width` float plane. */
  function PlaneBytes(height: nat, width: nat): nat
  {
    height * width * FloatBytes
  }

  /**
   * The loop that cuts `channels` plane headers from the buffer: plane k starts
   * at byte `k * PlaneBytes`, each plane right after the previous one, and `total`
   * is where the last plane ends.
   */
  method PlaneOffsets(channels: nat, height: nat, width: nat) returns (offsets: seq<nat>, total: nat)
    ensures |offsets| == channels
    ensures forall k :: 0 <= k < channels ==> offsets[k] == k * PlaneBytes(height, width)
    ensures forall k :: 0 < k < channels ==> offsets[k] == offsets[k - 1] + PlaneBytes(height, width)
    ensures total == channels * PlaneBytes(height, width)
  {
    offsets := [];
    total := 0;
    var i := 0;
    while i < channels
      invariant 0 <= i <= channels
      invariant |offsets| == i
      invariant forall k :: 0 <= k < i ==> offsets[k] == k * PlaneBytes(height, width)
      invariant total == i * PlaneBytes(height, width)
    {
      offsets := offsets + [total];
      total := total + PlaneBytes(height, width);
      i := i + 1;
    }
  }

  /** The byte offset of plane `c` is the element offset of its first entry, at four bytes per element. */
  lemma PlaneStartsAtFirstEntry(c: nat, height: nat, width: nat)
    ensures c * PlaneBytes(height, width) == Planar(c, 0, width * height) * FloatBytes
  {
    assert height * width == width * height;
    assert c * (height * width * FloatBytes) == c * (height * width) * FloatBytes;
  }

  /** Every entry of planes below `c` lies before plane `c` starts. */
  lemma EarlierPlane(pixels: nat, c1: nat, p: nat, c2: nat)
    requires c1 < c2 && p < pixels
    ensures Planar(c1, p, pixels) < c2 * pixels
  {
    MulMonotone(c1 + 1, c2, pixels);
  }

  /** Both layouts address every (channel, pixel) pair inside the buffer. */
  lemma LayoutInRange(channels: nat, pixels: nat)
    ensures forall c, p :: 0 <= c < channels && 0 <= p < pixels ==>
              0 <= Planar(c, p, pixels) < channels * pixels && 0 <= Interleaved(p, c, channels) < pixels * channels
  {
    forall c, p | 0 <= c < channels && 0 <= p < pixels
      ensures 0 <= Planar(c, p, pixels) < channels * pixels && 0 <= Interleaved(p, c, channels) < pixels * channels
    {
      IndicesInRange(channels, pixels, c, p);
    }
  }

  /** Fills plane `c` from channel `c` of the interleaved sample, leaving every other entry as it was. */
  method FillPlane<T>(sample: seq<T>, channels: nat, pixels: nat, planes: array<T>, c: nat)
    requires |sample| == pixels * channels
    requires planes.Length == channels * pixels
    requires c < channels
    modifies planes
    ensures forall p :: 0 <= p < pixels ==>
              Planar(c, p, pixels) < planes.Length && Interleaved(p, c, channels) < |sample| &&
              planes[Planar(c, p, pixels)] == sample[Interleaved(p, c, channels)]
    ensures forall j :: 0 <= j < planes.Length && !(c * pixels <= j < c * pixels + pixels) ==> planes[j] == old(planes[j])
  {
    LayoutInRange(channels, pixels);
    var p := 0;
    while p < pixels
      invariant 0 <= p <= pixels
      invariant forall p' :: 0 <= p' < p ==>
                  Planar(c, p', pixels) < planes.Length && Interleaved(p', c, channels) < |sample| &&
                  planes[Planar(c, p', pixels)] == sample[Interleaved(p', c, channels)]
      invariant forall j :: 0 <= j < planes.Length && !(c * pixels <= j < c * pixels + p) ==> planes[j] == old(planes[j])
    {
      planes[Planar(c, p, pixels)] := sample[Interleaved(p, c, channels)];
      p := p + 1;
    }
  }

  /**
   * `cv::split` into planes that alias the output buffer: channel c of pixel p
   * of the interleaved sample lands at entry p of plane c.
   */
  method SplitChannels<T>(sample: seq<T>, channels: nat, pixels: nat, planes: array<T>)
    requires |sample| == pixels * channels
    requires planes.Length == channels * pixels
    modifies planes
    ensures forall c, p :: 0 <= c < channels && 0 <= p < pixels ==>
              Planar(c, p, pixels) < planes.Length && Interleaved(p, c, channels) < |sample| &&
              planes[Planar(c, p, pixels)] == sample[Interleaved(p, c, channels)]
  {
    var c := 0;
    while c < channels
      invariant 0 <= c <= channels
      invariant forall c', p :: 0 <= c' < c && 0 <= p < pixels ==>
                  Planar(c', p, pixels) < planes.Length && Interleaved(p, c', channels) < |sample| &&
                  planes[Planar(c', p, pixels)] == sample[Interleaved(p, c', channels)]
    {
      FillPlane(sample, channels, pixels, planes, c);
      forall c', p | 0 <= c' < c && 0 <= p < pixels
        ensures Planar(c', p, pixels) < c * pixels
      {
        EarlierPlane(pixels, c', p, c);
      }
      c := c + 1;
    }
  }
}
