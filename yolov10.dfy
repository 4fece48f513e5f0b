/** The `YOLOv10` task object: the model input size and its pre- and post-processing steps. */
module Yolo {
  import opened Common
  import opened Decoding
  import opened Packing

  class YoloV10 {
    /** Model input width and height, fixed at construction. */
    const inputWidth: int
    const inputHeight: int

    constructor (inputWidth: int, inputHeight: int)
      ensures this.inputWidth == inputWidth && this.inputHeight == inputHeight
    {
      this.inputWidth := inputWidth;
      this.inputHeight := inputHeight;
    }

    /**
     * Decodes the first output tensor into detections in frame coordinates.
     * Only `inferResults[0]` and `inferShapes[0]` are read. The result is an
     * error where the source reads outside the output buffer; otherwise it is
     * what the corrected decoder returns.
     */
    method Postprocess(frameSize: Size, inferResults: seq<seq<real>>, inferShapes: seq<seq<int>>)
      returns (r: Result<seq<Detection>, DecodeError>)
      requires |inferResults| > 0 && |inferShapes| > 0 && |inferShapes[0]| >= 3
      requires inputWidth != 0 && inputHeight != 0
      ensures r == Decode(frameSize, inputWidth, inputHeight, inferResults[0], inferShapes[0])
      ensures r.Ok? ==> r.value == DecodeGuarded(frameSize, inputWidth, inputHeight, inferResults[0], inferShapes[0])
    {
      var detections: seq<Detection> := [];
      var inferShape := inferShapes[0];
      var inferResult := inferResults[0];
      var rows := inferShape[1];
      var stride := inferShape[2];
      ghost var stop := StopRow(inferResult, rows, stride, 0);
      ghost var scaleX, scaleY := ScaleX(frameSize, inputWidth), ScaleY(frameSize, inputHeight);
      assert Decode(frameSize, inputWidth, inputHeight, inferResult, inferShape)
        == DecodeRows(inferResult, stride, scaleX, scaleY, stop);
      var i := 0;
      while i < rows
        invariant 0 <= i <= stop
        invariant DecodeRows(inferResult, stride, scaleX, scaleY, i) == Ok(detections)
      {
        // a negative offset compares as a huge unsigned value against size()
        if RowBase(i, stride) + 4 < 0 || RowBase(i, stride) + 4 >= |inferResult| {
          assert !Reached(inferResult, stride, i);
          break;
        }
        assert Reached(inferResult, stride, i) && i < stop;
        var outcome := ReadRow(frameSize, inferResult, stride, i);
        match outcome {
          case Skip =>
            assert DecodeRows(inferResult, stride, scaleX, scaleY, i + 1) == Ok(detections);
          case Keep(detection) =>
            assert DecodeRows(inferResult, stride, scaleX, scaleY, i + 1) == Ok(detections + [detection]);
            detections := detections + [detection];
          case Fault(error) =>
            assert DecodeRows(inferResult, stride, scaleX, scaleY, i + 1) == Err(error);
            FaultIsFinal(inferResult, stride, scaleX, scaleY, i + 1, stop);
            return Err(error);
        }
        i := i + 1;
      }
      assert i == stop;
      GuardedAgreesWithSource(frameSize, inputWidth, inputHeight, inferResult, inferShape);
      return Ok(detections);
    }

    /**
     * The body of the `postprocess` loop for one reached row: the score test,
     * then the reads of the class and box fields, scaled into the frame.
     */
    method ReadRow(frameSize: Size, inferResult: seq<real>, stride: int, i: int) returns (outcome: RowOutcome)
      requires Reached(inferResult, stride, i) && inputWidth != 0 && inputHeight != 0
      ensures outcome == DecodeRow(inferResult, stride, i, ScaleX(frameSize, inputWidth), ScaleY(frameSize, inputHeight))
    {
      var base := RowBase(i, stride);
      var score := inferResult[base + 4];
      if score < ConfidenceThreshold {
        return Skip;
      }
      if base + 5 >= |inferResult| {
        return Fault(ReadOutOfRange(i, base + 5));
      }
      var classId := TruncateToInt(inferResult[base + 5]);
      var rw := ScaleX(frameSize, inputWidth);
      var rh := ScaleY(frameSize, inputHeight);
      if base < 0 {
        return Fault(ReadOutOfRange(i, base));
      }
      var bbox := Box(inferResult[base] * rw, inferResult[base + 1] * rh,
                      inferResult[base + 2] * rw, inferResult[base + 3] * rh);
      return Keep(Detection(bbox, classId, score));
    }

    /**
     * Packs a BGR image, already at the model's size, into the planar RGB float
     * buffer sent to the server. The buffer is sized from the three-channel
     * sample; `imgChannels` planes of `imgSize` are cut from it, and the call
     * fails when they do not add up to the buffer. An image with no pixels never
     * gets that far: the colour conversion and the resize reject it.
     */
    method Preprocess<T(0)>(img: seq<T>, imgChannels: nat, imgSize: Size) returns (r: Result<seq<T>, PackError>)
      requires 0 <= inputWidth && 0 <= inputHeight
      requires |img| == inputWidth * inputHeight * SampleChannels
      requires imgSize == Size(inputWidth, inputHeight)
      ensures var expected := inputWidth * inputHeight * SampleChannels * FloatBytes;
              var planesTotal := imgChannels * PlaneBytes(inputHeight, inputWidth);
              && (r.Ok? <==> inputWidth > 0 && inputHeight > 0 && planesTotal == expected)
              && (inputWidth == 0 || inputHeight == 0 ==> r == Err(EmptyImage))
              && (r.Err? && inputWidth > 0 && inputHeight > 0 ==> r.error == ByteSizeMismatch(planesTotal, expected))
              && (r.Ok? ==> |r.value| * FloatBytes == expected)
      ensures r.Ok? ==>
                var pixels := inputWidth * inputHeight;
                forall c, p :: 0 <= c < SampleChannels && 0 <= p < pixels ==>
                  Planar(c, p, pixels) < |r.value| && Interleaved(p, 2 - c, SampleChannels) < |img| &&
                  r.value[Planar(c, p, pixels)] == img[Interleaved(p, 2 - c, SampleChannels)]
    {
      var pixels: nat := inputWidth * inputHeight;
      if pixels == 0 {
        return Err(EmptyImage);
      }
      var sample := SwapRedBlue(img);
      var imgByteSize := pixels * SampleChannels * FloatBytes;
      var inputData := new T[pixels * SampleChannels];
      var offsets, pos := PlaneOffsets(imgChannels, imgSize.height, imgSize.width);
      // plane c's header starts at the byte of its first element
      forall c | 0 <= c < imgChannels
        ensures offsets[c] == Planar(c, 0, pixels) * FloatBytes
      {
        PlaneStartsAtFirstEntry(c, imgSize.height, imgSize.width);
      }
      SplitChannels(sample, SampleChannels, pixels, inputData);
      if pos != imgByteSize {
        return Err(ByteSizeMismatch(pos, imgByteSize));
      }
      LayoutInRange(SampleChannels, pixels);
      return Ok(inputData[..]);
    }
  }
}
