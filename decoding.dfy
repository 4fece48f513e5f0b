/**
 * Decoding of the detector's first output tensor (`YOLOv10::postprocess`).
 *
 * The tensor is a flat buffer of rows `[x1, y1, x2, y2, score, class, ...]`;
 * the row count is `shape[1]` and the row stride is `shape[2]`. Floats are
 * modelled as reals.
 */
module Decoding {
  import opened Common

  datatype Box = Box(x1: real, y1: real, x2: real, y2: real)

  /** `class_id` is a float in the source that only ever holds a truncated integer. */
  datatype Detection = Detection(bbox: Box, classId: int, classConfidence: real)

  /** A read the source performs at `index`, outside the output buffer, while decoding `row`. */
  datatype DecodeError = ReadOutOfRange(row: int, index: int)

  /** Rows whose score is at least this value are kept. */
  const ConfidenceThreshold: real := 0.1

  /** `static_cast<int>` of a float: truncation toward zero. */
  function TruncateToInt(x: real): (n: int)
    ensures 0.0 <= x ==> n as real <= x < n as real + 1.0
    ensures x < 0.0 ==> n as real - 1.0 < x <= n as real
  {
    if x >= 0.0 then x.Floor else -((-x).Floor)
  }

  lemma TruncateKeepsIntegers(n: int)
    ensures TruncateToInt(n as real) == n
  {
  }

  /** Index of the first field of `row`. */
  function RowBase(row: int, stride: int): int
  {
    row * stride
  }

  /**
   * The loop guard: the row's score field lies inside the buffer. A negative
   * offset converts to a huge unsigned value in the source's comparison
   * against `size()`, so it stops the loop as well.
   */
  predicate Reached(data: seq<real>, stride: int, row: int)
  {
    0 <= RowBase(row, stride) + 4 < |data|
  }

  /** All six fields of `row` lie inside the buffer. */
  predicate Safe(data: seq<real>, stride: int, row: int)
  {
    0 <= RowBase(row, stride) && RowBase(row, stride) + 5 < |data|
  }

  /** The score of a reached row is at or above the threshold. */
  predicate Kept(data: seq<real>, stride: int, row: int)
    requires Reached(data, stride, row)
  {
    data[RowBase(row, stride) + 4] >= ConfidenceThreshold
  }

  /** The detection built from a row whose six fields are in the buffer. */
  function RowDetection(data: seq<real>, stride: int, row: int, scaleX: real, scaleY: real): (d: Detection)
    requires Safe(data, stride, row)
    ensures var b := RowBase(row, stride);
            d.classConfidence == data[b + 4] &&
            d.classId as real - 1.0 < data[b + 5] < d.classId as real + 1.0
    ensures scaleX == 1.0 && scaleY == 1.0 ==>
              var b := RowBase(row, stride);
              d.bbox == Box(data[b], data[b + 1], data[b + 2], data[b + 3])
  {
    var b := RowBase(row, stride);
    Detection(Box(data[b] * scaleX, data[b + 1] * scaleY, data[b + 2] * scaleX, data[b + 3] * scaleY),
              TruncateToInt(data[b + 5]), data[b + 4])
  }

  datatype RowOutcome = Skip | Keep(detection: Detection) | Fault(error: DecodeError)

  /**
   * One reached row: skipped below the threshold; otherwise the class field
   * is read first, then the four box fields, and the first of these reads that
   * falls outside the buffer is a fault.
   */
  function DecodeRow(data: seq<real>, stride: int, row: int, scaleX: real, scaleY: real): (o: RowOutcome)
    requires Reached(data, stride, row)
    ensures o.Skip? <==> !Kept(data, stride, row)
    ensures o.Keep? <==> Kept(data, stride, row) && Safe(data, stride, row)
    ensures o.Keep? ==> o.detection == RowDetection(data, stride, row, scaleX, scaleY)
    ensures o.Fault? ==> o.error.row == row && (o.error.index < 0 || o.error.index >= |data|)
  {
    var b := RowBase(row, stride);
    if !Kept(data, stride, row) then Skip
    else if b + 5 >= |data| then Fault(ReadOutOfRange(row, b + 5))
    else if b < 0 then Fault(ReadOutOfRange(row, b))
    else Keep(RowDetection(data, stride, row, scaleX, scaleY))
  }

  /** The row at which the loop that starts at `from` ends: the row count, or the first row not reached. */
  function StopRow(data: seq<real>, rows: int, stride: int, from: nat): (stop: nat)
    ensures from <= stop
    ensures stop == from || stop <= rows
    ensures forall j :: from <= j < stop ==> j < rows && Reached(data, stride, j)
    ensures stop < rows ==> !Reached(data, stride, stop)
    decreases rows - from
  {
    if from >= rows || !Reached(data, stride, from) then from
    else StopRow(data, rows, stride, from + 1)
  }

  /** The reached rows below `n` whose score passes the threshold, in increasing order. */
  function KeptRows(data: seq<real>, stride: int, n: nat): (kept: seq<nat>)
    requires forall j :: 0 <= j < n ==> Reached(data, stride, j)
    ensures |kept| <= n
    ensures forall k :: 0 <= k < |kept| ==> kept[k] < n && Kept(data, stride, kept[k])
    ensures forall k1, k2 :: 0 <= k1 < k2 < |kept| ==> kept[k1] < kept[k2]
    ensures forall j :: 0 <= j < n && Kept(data, stride, j) ==> j in kept
  {
    if n == 0 then []
    else
      var prefix := KeptRows(data, stride, n - 1);
      if Kept(data, stride, n - 1) then prefix + [n - 1] else prefix
  }

  /** The detections of rows `0 .. n-1`, in row order, or the first out-of-range read. */
  function DecodeRows(data: seq<real>, stride: int, scaleX: real, scaleY: real, n: nat): (r: Result<seq<Detection>, DecodeError>)
    requires forall j :: 0 <= j < n ==> Reached(data, stride, j)
    ensures r.Ok? ==> |r.value| <= n
    ensures r.Ok? ==> forall k :: 0 <= k < |r.value| ==> r.value[k].classConfidence >= ConfidenceThreshold
    ensures r.Err? ==> 0 <= r.error.row < n && (r.error.index < 0 || r.error.index >= |data|)
  {
    if n == 0 then Ok([])
    else
      match DecodeRows(data, stride, scaleX, scaleY, n - 1)
      case Err(e) => Err(e)
      case Ok(ds) =>
        match DecodeRow(data, stride, n - 1, scaleX, scaleY)
        case Skip => Ok(ds)
        case Keep(d) => Ok(ds + [d])
        case Fault(e) => Err(e)
  }

  /** A failed decode reports the first kept row that is not wholly in the buffer. */
  lemma {:induction false} FirstFaultIsReported(data: seq<real>, stride: int, scaleX: real, scaleY: real, n: nat)
    requires forall j :: 0 <= j < n ==> Reached(data, stride, j)
    requires DecodeRows(data, stride, scaleX, scaleY, n).Err?
    ensures var row := DecodeRows(data, stride, scaleX, scaleY, n).error.row;
            0 <= row < n && Kept(data, stride, row) && !Safe(data, stride, row) &&
            forall j :: 0 <= j < row && Kept(data, stride, j) ==> Safe(data, stride, j)
  {
    if DecodeRows(data, stride, scaleX, scaleY, n - 1).Err? {
      FirstFaultIsReported(data, stride, scaleX, scaleY, n - 1);
    } else {
      DecodeRowsFollowKeptRows(data, stride, scaleX, scaleY, n - 1);
    }
  }

  /** The first out-of-range read ends the decode: later rows do not change the error. */
  lemma {:induction false} FaultIsFinal(data: seq<real>, stride: int, scaleX: real, scaleY: real, m: nat, n: nat)
    requires m <= n
    requires forall j :: 0 <= j < n ==> Reached(data, stride, j)
    requires DecodeRows(data, stride, scaleX, scaleY, m).Err?
    ensures DecodeRows(data, stride, scaleX, scaleY, n) == DecodeRows(data, stride, scaleX, scaleY, m)
    decreases n - m
  {
    if m < n {
      FaultIsFinal(data, stride, scaleX, scaleY, m, n - 1);
    }
  }

  /** Horizontal factor from model input space to frame space. */
  function ScaleX(frame: Size, inputWidth: int): (r: real)
    requires inputWidth != 0
    ensures r * inputWidth as real == frame.width as real
  {
    frame.width as real / inputWidth as real
  }

  /** Vertical factor from model input space to frame space. */
  function ScaleY(frame: Size, inputHeight: int): (r: real)
    requires inputHeight != 0
    ensures r * inputHeight as real == frame.height as real
  {
    frame.height as real / inputHeight as real
  }

  /** What `postprocess` computes from the first output buffer `data` and its `shape`. */
  function Decode(frame: Size, inputWidth: int, inputHeight: int, data: seq<real>, shape: seq<int>): (r: Result<seq<Detection>, DecodeError>)
    requires |shape| >= 3 && inputWidth != 0 && inputHeight != 0
    ensures r.Ok? ==> |r.value| <= if shape[1] > 0 then shape[1] else 0
    ensures r.Ok? ==> forall k :: 0 <= k < |r.value| ==> r.value[k].classConfidence >= ConfidenceThreshold
    ensures r.Err? ==> 0 <= r.error.row < shape[1] && (r.error.index < 0 || r.error.index >= |data|)
  {
    DecodeRows(data, shape[2], ScaleX(frame, inputWidth), ScaleY(frame, inputHeight), StopRow(data, shape[1], shape[2], 0))
  }

  /**
   * Decoding the first `n` rows succeeds exactly when every kept row among
   * them lies wholly in the buffer, and then yields one detection per kept
   * row, in row order.
   */
  lemma {:induction false} DecodeRowsFollowKeptRows(data: seq<real>, stride: int, scaleX: real, scaleY: real, n: nat)
    requires forall j :: 0 <= j < n ==> Reached(data, stride, j)
    ensures DecodeRows(data, stride, scaleX, scaleY, n).Ok? <==>
              forall j :: 0 <= j < n && Kept(data, stride, j) ==> Safe(data, stride, j)
    ensures DecodeRows(data, stride, scaleX, scaleY, n).Ok? ==>
              var ds := DecodeRows(data, stride, scaleX, scaleY, n).value;
              var kept := KeptRows(data, stride, n);
              |ds| == |kept| &&
              forall k :: 0 <= k < |ds| ==> Safe(data, stride, kept[k]) && ds[k] == RowDetection(data, stride, kept[k], scaleX, scaleY)
  {
    if n > 0 {
      DecodeRowsFollowKeptRows(data, stride, scaleX, scaleY, n - 1);
    }
  }

  /**
   * The whole decode: rows are visited up to the first one whose score field
   * is outside the buffer; the result is an error exactly when some kept row
   * before it does not lie wholly in the buffer; otherwise the k-th detection
   * is the k-th kept row, with the raw score, the truncated class field and the
   * box scaled separately in x and y.
   */
  lemma DetectionsFromKeptRows(frame: Size, inputWidth: int, inputHeight: int, data: seq<real>, shape: seq<int>)
    requires |shape| >= 3 && inputWidth != 0 && inputHeight != 0
    ensures var stop := StopRow(data, shape[1], shape[2], 0);
            Decode(frame, inputWidth, inputHeight, data, shape).Ok? <==>
              forall j :: 0 <= j < stop && Kept(data, shape[2], j) ==> Safe(data, shape[2], j)
    ensures Decode(frame, inputWidth, inputHeight, data, shape).Ok? ==>
              var ds := Decode(frame, inputWidth, inputHeight, data, shape).value;
              var stride := shape[2];
              var kept := KeptRows(data, stride, StopRow(data, shape[1], stride, 0));
              var sx, sy := ScaleX(frame, inputWidth), ScaleY(frame, inputHeight);
              |ds| == |kept| && |ds| <= (if shape[1] > 0 then shape[1] else 0) &&
              forall k :: 0 <= k < |ds| ==>
                var b := RowBase(kept[k], stride);
                0 <= b && b + 5 < |data| &&
                ds[k].classConfidence == data[b + 4] >= ConfidenceThreshold &&
                ds[k].classId == TruncateToInt(data[b + 5]) &&
                ds[k].bbox == Box(data[b] * sx, data[b + 1] * sy, data[b + 2] * sx, data[b + 3] * sy)
  {
    var stride := shape[2];
    var stop := StopRow(data, shape[1], stride, 0);
    DecodeRowsFollowKeptRows(data, stride, ScaleX(frame, inputWidth), ScaleY(frame, inputHeight), stop);
  }

  lemma UnitScale(n: int)
    requires n != 0
    ensures n as real / n as real == 1.0
  {
  }

  /** When the frame has the model's size the boxes are the raw row fields. */
  lemma SameSizeKeepsRawBoxes(inputWidth: int, inputHeight: int, data: seq<real>, shape: seq<int>)
    requires |shape| >= 3 && inputWidth != 0 && inputHeight != 0
    requires Decode(Size(inputWidth, inputHeight), inputWidth, inputHeight, data, shape).Ok?
    ensures var ds := Decode(Size(inputWidth, inputHeight), inputWidth, inputHeight, data, shape).value;
            var kept := KeptRows(data, shape[2], StopRow(data, shape[1], shape[2], 0));
            |ds| == |kept| &&
            forall k :: 0 <= k < |ds| ==>
              var b := RowBase(kept[k], shape[2]);
              0 <= b && b + 3 < |data| && ds[k].bbox == Box(data[b], data[b + 1], data[b + 2], data[b + 3])
  {
    var frame := Size(inputWidth, inputHeight);
    var stride := shape[2];
    var stop := StopRow(data, shape[1], stride, 0);
    var sx, sy := ScaleX(frame, inputWidth), ScaleY(frame, inputHeight);
    UnitScale(inputWidth);
    UnitScale(inputHeight);
    assert sx == 1.0 && sy == 1.0;
    DecodeRowsFollowKeptRows(data, stride, sx, sy, stop);
    var ds := Decode(frame, inputWidth, inputHeight, data, shape).value;
    var kept := KeptRows(data, stride, stop);
    forall k | 0 <= k < |ds|
      ensures var b := RowBase(kept[k], stride);
              0 <= b && b + 3 < |data| && ds[k].bbox == Box(data[b], data[b + 1], data[b + 2], data[b + 3])
    {
      assert ds[k] == RowDetection(data, stride, kept[k], sx, sy);
    }
  }

  /** Shape [1, 2, 6]: the first row passes the threshold, the second does not. */
  lemma KeepsOnlyConfidentRow()
    ensures Decode(Size(100, 100), 100, 100, [10.0, 10.0, 50.0, 50.0, 0.9, 2.0, 0.0, 0.0, 0.0, 0.0, 0.05, 1.0], [1, 2, 6])
            == Ok([Detection(Box(10.0, 10.0, 50.0, 50.0), 2, 0.9)])
  {
    var data := [10.0, 10.0, 50.0, 50.0, 0.9, 2.0, 0.0, 0.0, 0.0, 0.0, 0.05, 1.0];
    assert StopRow(data, 2, 6, 0) == 2;
    assert TruncateToInt(2.0) == 2;
    var d := Detection(Box(10.0, 10.0, 50.0, 50.0), 2, 0.9);
    assert DecodeRow(data, 6, 0, 1.0, 1.0) == Keep(d);
    var first := DecodeRows(data, 6, 1.0, 1.0, 1);
    assert |first.value| == 1 && first.value[0] == d;
    assert first.value == [d];
    assert DecodeRow(data, 6, 1, 1.0, 1.0) == Skip;
  }

  /** The same row decoded for a 50x50 model in a 100x100 frame has every coordinate doubled. */
  lemma RescalesIntoFrame()
    ensures Decode(Size(100, 100), 50, 50, [10.0, 10.0, 50.0, 50.0, 0.9, 2.0], [1, 1, 6])
            == Ok([Detection(Box(20.0, 20.0, 100.0, 100.0), 2, 0.9)])
  {
    var data := [10.0, 10.0, 50.0, 50.0, 0.9, 2.0];
    assert StopRow(data, 1, 6, 0) == 1;
    assert TruncateToInt(2.0) == 2;
    assert ScaleX(Size(100, 100), 50) == 2.0;
    var d := Detection(Box(20.0, 20.0, 100.0, 100.0), 2, 0.9);
    assert DecodeRow(data, 6, 0, 2.0, 2.0) == Keep(d);
    var first := DecodeRows(data, 6, 2.0, 2.0, 1);
    assert |first.value| == 1 && first.value[0] == d;
    assert first.value == [d];
  }

  /*
   * The corrected decoder: the loop stops at the first row whose six fields
   * are not all inside the buffer, so no read is ever out of range.
   */

  /** The first row at or after `from` that is past the row count or not wholly in the buffer. */
  function GuardedStopRow(data: seq<real>, rows: int, stride: int, from: nat): (stop: nat)
    ensures from <= stop
    ensures stop == from || stop <= rows
    ensures forall j :: from <= j < stop ==> j < rows && Reached(data, stride, j) && Safe(data, stride, j)
    ensures stop < rows ==> !Safe(data, stride, stop)
    decreases rows - from
  {
    if from >= rows || !Safe(data, stride, from) then from
    else GuardedStopRow(data, rows, stride, from + 1)
  }

  /** The corrected decode: every kept row before the guarded stop row yields its detection. */
  function DecodeGuarded(frame: Size, inputWidth: int, inputHeight: int, data: seq<real>, shape: seq<int>): (ds: seq<Detection>)
    requires |shape| >= 3 && inputWidth != 0 && inputHeight != 0
    ensures var stop := GuardedStopRow(data, shape[1], shape[2], 0);
            var kept := KeptRows(data, shape[2], stop);
            |ds| == |kept| &&
            forall k :: 0 <= k < |ds| ==>
              ds[k] == RowDetection(data, shape[2], kept[k], ScaleX(frame, inputWidth), ScaleY(frame, inputHeight))
  {
    var stop := GuardedStopRow(data, shape[1], shape[2], 0);
    DecodeRowsFollowKeptRows(data, shape[2], ScaleX(frame, inputWidth), ScaleY(frame, inputHeight), stop);
    DecodeRows(data, shape[2], ScaleX(frame, inputWidth), ScaleY(frame, inputHeight), stop).value
  }

  /**
   * The source's guard lets through a buffer that ends right after a score:
   * the kept row's class field is read one past the end.
   */
  lemma ShortFinalRowReadsPastEnd()
    ensures Decode(Size(100, 100), 100, 100, [10.0, 10.0, 50.0, 50.0, 0.9], [1, 1, 6]) == Err(ReadOutOfRange(0, 5))
    ensures DecodeGuarded(Size(100, 100), 100, 100, [10.0, 10.0, 50.0, 50.0, 0.9], [1, 1, 6]) == []
  {
    var data := [10.0, 10.0, 50.0, 50.0, 0.9];
    assert StopRow(data, 1, 6, 0) == 1;
    assert GuardedStopRow(data, 1, 6, 0) == 0;
  }

  /**
   * A negative stride gives a later row a negative offset whose score field is
   * still inside the buffer; the source then reads that row's box at index -1.
   */
  lemma NegativeStrideReadsBeforeStart()
    ensures Decode(Size(1, 1), 1, 1, [0.0, 0.0, 0.0, 0.9, 0.9, 1.0], [1, 2, -1]) == Err(ReadOutOfRange(1, -1))
    ensures DecodeGuarded(Size(1, 1), 1, 1, [0.0, 0.0, 0.0, 0.9, 0.9, 1.0], [1, 2, -1])
              == [Detection(Box(0.0, 0.0, 0.0, 0.9), 1, 0.9)]
  {
    var data := [0.0, 0.0, 0.0, 0.9, 0.9, 1.0];
    assert StopRow(data, 2, -1, 0) == 2;
    assert GuardedStopRow(data, 2, -1, 0) == 1;
    assert DecodeRow(data, -1, 0, 1.0, 1.0) == Keep(Detection(Box(0.0, 0.0, 0.0, 0.9), 1, 0.9));
    assert DecodeRow(data, -1, 1, 1.0, 1.0) == Fault(ReadOutOfRange(1, -1));
  }

  /** Row offsets move away from a row in the direction of the stride's sign. */
  lemma LaterRowBase(g: nat, j: nat, stride: int)
    requires g < j
    ensures stride > 0 ==> RowBase(j, stride) >= RowBase(g, stride) + stride && RowBase(g, stride) >= 0
    ensures stride == 0 ==> RowBase(j, stride) == RowBase(g, stride)
    ensures stride < 0 ==> RowBase(j, stride) < 0
  {
    var d := j - g;
    assert j * stride == g * stride + d * stride;
    if stride > 0 {
      assert d * stride == stride + (d - 1) * stride;
      assert (d - 1) * stride >= 0;
    }
  }

  /** A reached row that is not wholly in the buffer is followed only by rows that are not either. */
  lemma UnsafeRowEndsSafeRows(data: seq<real>, stride: int, g: nat, j: nat)
    requires g < j && Reached(data, stride, g) && !Safe(data, stride, g)
    ensures !Safe(data, stride, j)
  {
    LaterRowBase(g, j, stride);
  }

  /** Rows in `[lo, hi)` that are all skipped leave the decode unchanged. */
  lemma {:induction false} SkippedRowsChangeNothing(data: seq<real>, stride: int, scaleX: real, scaleY: real, lo: nat, hi: nat)
    requires lo <= hi
    requires forall j :: 0 <= j < hi ==> Reached(data, stride, j)
    requires forall j :: lo <= j < hi ==> !Kept(data, stride, j)
    ensures DecodeRows(data, stride, scaleX, scaleY, hi) == DecodeRows(data, stride, scaleX, scaleY, lo)
    decreases hi - lo
  {
    if lo < hi {
      SkippedRowsChangeNothing(data, stride, scaleX, scaleY, lo, hi - 1);
    }
  }

  /** Wherever the source decodes without an out-of-range read, the corrected decoder returns the same detections. */
  lemma GuardedAgreesWithSource(frame: Size, inputWidth: int, inputHeight: int, data: seq<real>, shape: seq<int>)
    requires |shape| >= 3 && inputWidth != 0 && inputHeight != 0
    requires Decode(frame, inputWidth, inputHeight, data, shape).Ok?
    ensures DecodeGuarded(frame, inputWidth, inputHeight, data, shape) == Decode(frame, inputWidth, inputHeight, data, shape).value
  {
    var rows, stride := shape[1], shape[2];
    var sx, sy := ScaleX(frame, inputWidth), ScaleY(frame, inputHeight);
    var stop := StopRow(data, rows, stride, 0);
    var guarded := GuardedStopRow(data, rows, stride, 0);
    DecodeRowsFollowKeptRows(data, stride, sx, sy, stop);
    assert guarded <= stop;
    forall j | guarded <= j < stop
      ensures !Kept(data, stride, j)
    {
      if Kept(data, stride, j) {
        assert Safe(data, stride, j);
        assert guarded < rows && !Safe(data, stride, guarded);
        if guarded < j {
          UnsafeRowEndsSafeRows(data, stride, guarded, j);
        }
        assert false;
      }
    }
    SkippedRowsChangeNothing(data, stride, sx, sy, guarded, stop);
  }
}
