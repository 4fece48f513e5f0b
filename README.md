# YOLOv10 Triton client: shape resolution, input packing and output decoding

This project models the three pieces of real logic in a C++ client that sends images to a
Triton inference server running a YOLOv10 detector:

- **Output decoding** (`YOLOv10::postprocess`). The client reads only the first output tensor.
  It walks `shape[1]` rows of `shape[2]` floats each. It stops at the first row whose score
  field is outside the buffer. A row is kept when its score is at least 0.1. Each kept row
  becomes a detection with the raw score, the class field truncated toward zero, and the box
  scaled by `frame.width / input_width` in x and `frame.height / input_height` in y.
- **Input packing** (`YOLOv10::preprocess`). The BGR image becomes RGB. The output buffer is
  sized from the three-channel float sample. Plane headers are cut from that buffer, one after
  another. `cv::split` writes channel c of every pixel into plane c. The call aborts when the
  planes do not add up to the buffer.
- **Model-shape resolution** (`TritonClient::parse_model`, `set_input_shape`,
  `retrieve_model_info`). The layout tag and the input dims give channels, height, width and the
  four-entry input shape. The `TYPE_` prefix is dropped from the datatype. A dynamic (-1) width
  or height needs an override shape.

Modules: `Common` (Option, Result, Size), `Decoding` (the decoder as functions, with its
lemmas), `Packing` (channel swap, plane offsets, planar split), `Yolo` (class `YoloV10` with
`Postprocess` and `Preprocess`), and `Triton` (configuration and model-info types, `Parse`, and
class `TritonClient`). Floats are reals. Buffer elements are an abstract type, one element per
four-byte float. Every error the C++ code throws or exits on is a `Result` error.

Behaviour of the code worth knowing:

- The output guard compares `i*stride + 4` with the buffer size, but a kept row also reads
  `i*stride + 5`. See "Findings".
- `convertTo` keeps the channel count, so the sample always has three channels. The buffer is
  therefore `width*height*3*4` bytes whatever the model's channel count. A one-channel model
  always fails the size check. An image with no pixels is rejected before that, by OpenCV's
  colour conversion and resize (`EmptyImage`).
- The class field is truncated toward zero: a field of -1 or less gives a negative class id, and a
  field strictly between -1 and 0 gives 0.
- `set_input_shape` takes the width from `shape[2]` and the height from `shape[3]`. That is the
  reverse of NCHW order, so a non-square override swaps height and width
  (`Triton.OverrideSwapsHeightAndWidth`).
- A format other than `FORMAT_NONE`, `FORMAT_NCHW` and `FORMAT_NHWC` is accepted silently. It
  leaves channels, height and width unset and prepends no batch entry.

## Model

| member | source | states |
|---|---|---|
| `Decoding.TruncateToInt` | src/yolov10.cpp:36 | the class id is the integer between zero and the class field that is less than one away from it (truncation toward zero) |
| `Decoding.TruncateKeepsIntegers` | src/yolov10.cpp:36 | a class field that is already an integer is kept as is |
| `Decoding.ScaleX` | src/yolov10.cpp:39 | the horizontal factor `frame.width / input_width`: multiplied by the model width it gives the frame width |
| `Decoding.ScaleY` | src/yolov10.cpp:40 | the vertical factor `frame.height / input_height`: multiplied by the model height it gives the frame height |
| `Decoding.RowDetection` | src/yolov10.cpp:35-45 | the detection of a row wholly in the buffer: the score is the raw field 4, the class id is less than one away from field 5, and at unit scale the box is the raw fields 0-3 |
| `Decoding.DecodeRow` | src/yolov10.cpp:33-47 | one reached row: skipped iff its score is below 0.1; kept iff the score passes and all six fields are in the buffer, with `RowDetection` as the detection; otherwise a fault on that row at an index outside the buffer |
| `Decoding.DecodeRows` | src/yolov10.cpp:28-48 | the loop over the first n reached rows: on success at most n detections, each with a score of at least 0.1; on failure a faulting row below n and an index outside the buffer |
| `Decoding.Decode` | src/yolov10.cpp:18-51 | `postprocess` on the first buffer and shape: on success at most `max(shape[1], 0)` detections, each with a score of at least 0.1; on failure a row below `shape[1]` and an index outside the buffer |
| `Decoding.StopRow` | src/yolov10.cpp:28-31 | the loop ends at the row count or at the first row whose score index is outside the buffer (negative offsets included); every earlier row is reached |
| `Decoding.KeptRows` | src/yolov10.cpp:22-34 | the kept rows are strictly increasing, all below the stop row, and are exactly the reached rows whose score is at least 0.1 (inclusive) |
| `Decoding.DecodeRowsFollowKeptRows` | src/yolov10.cpp:28-48 | decoding a prefix of rows succeeds iff every kept row lies wholly in the buffer, and then yields one detection per kept row in row order |
| `Decoding.FaultIsFinal` | src/yolov10.cpp:36-45 | once a row reads outside the buffer, later rows do not change the outcome |
| `Decoding.FirstFaultIsReported` | src/yolov10.cpp:28-48 | a failed decode names the first kept row that is not wholly in the buffer: that row is kept and unsafe, and every earlier kept row lies in the buffer |
| `Decoding.DetectionsFromKeptRows` | src/yolov10.cpp:18-51 | the decode fails iff a kept row before the stop row reads outside the buffer; otherwise it has at most `shape[1]` detections, the k-th taken from the k-th kept row with raw score, truncated class and box scaled in x and y separately |
| `Decoding.SameSizeKeepsRawBoxes` | src/yolov10.cpp:39-45 | when the frame has the model's size, every box equals the raw row fields |
| `Decoding.KeepsOnlyConfidentRow` | src/yolov10.cpp:28-48 | shape [1,2,6] with scores 0.9 and 0.05 gives exactly one detection, (10,10,50,50), class 2, score 0.9 |
| `Decoding.RescalesIntoFrame` | src/yolov10.cpp:39-45 | a 50x50 model in a 100x100 frame doubles every coordinate |
| `Decoding.ShortFinalRowReadsPastEnd` | src/yolov10.cpp:29-36 | a five-float buffer with a passing score makes the source read index 5; the corrected decoder returns no detection |
| `Decoding.GuardedStopRow` | src/yolov10.cpp:28-31 | corrected guard: the loop ends at the first row not wholly inside the buffer; every earlier row is wholly inside |
| `Decoding.DecodeGuarded` | src/yolov10.cpp:28-48 | corrected decode: one detection per kept row before the corrected stop row, in order |
| `Decoding.GuardedAgreesWithSource` | src/yolov10.cpp:28-48 | wherever the source decodes without an out-of-range read, the corrected decoder returns the same detections |
| `Yolo.YoloV10.constructor` | src/yolov10.cpp:3-4 | stores the model input width and height |
| `Yolo.YoloV10.Postprocess` | src/yolov10.cpp:18-51 | the result depends only on the first buffer and first shape, equals the decode characterised above, and when it succeeds equals the corrected decode |
| `Yolo.YoloV10.ReadRow` | src/yolov10.cpp:33-47 | one reached row: skipped below the threshold, an out-of-range read of the class field or of a box field at a negative offset, or the detection built from the row; equals `DecodeRow` |
| `Yolo.YoloV10.Preprocess` | src/yolov10.cpp:53-83 | fails with `EmptyImage` when W or H is 0; otherwise fails with a size mismatch iff channels·H·W·4 differs from W·H·3·4; on success the buffer holds W·H·3·4 bytes and plane c, pixel p holds channel 2-c of pixel p of the BGR image |
| `Packing.SwapRedBlue` | src/yolov10.cpp:59 | channel c of every pixel of the result is channel 2-c of the same pixel of the input |
| `Packing.SwapRedBlueInvolutive` | src/yolov10.cpp:59 | swapping twice gives back the image |
| `Packing.PlaneOffsets` | src/yolov10.cpp:67-73 | plane k starts at byte k·H·W·4, each plane right after the previous one, and the total is channels·H·W·4 |
| `Packing.LayoutInRange` | src/yolov10.cpp:64-73 | every (channel, pixel) pair addresses an entry inside the buffer, in both layouts |
| `Packing.PlaneStartsAtFirstEntry` | src/yolov10.cpp:70-73 | the byte offset where plane c's header starts is four times the element index of the plane's first entry |
| `Packing.PlanarInjective` | src/yolov10.cpp:70-73 | planes are disjoint: distinct (channel, pixel) pairs never share a buffer entry |
| `Packing.PlanesCoverBuffer` | src/yolov10.cpp:70-73 | planes are contiguous: every buffer index is pixel `k % P` of plane `k / P` |
| `Packing.FillPlane` | src/yolov10.cpp:75 | plane c receives channel c of every pixel and no other entry changes |
| `Packing.SplitChannels` | src/yolov10.cpp:75 | entry p of plane c equals channel c of pixel p of the interleaved sample |
| `Triton.CanonicalFormat` | src/triton_client.cpp:43-45 | the format is NCHW iff it was NONE or NCHW; any other format is kept, and NONE never remains |
| `Triton.ResolveGeometry` | src/triton_client.cpp:47-79 | NCHW takes C,H,W and NHWC takes H,W,C from the last three dims; a known layout with neither 3 nor 4 dims is an error naming the count; any other format resolves to nothing |
| `Triton.StripTypePrefix` | src/triton_client.cpp:91-92 | the result is the datatype without its first five characters, or empty when it is shorter |
| `Triton.StripTypePrefixRecoversName` | src/triton_client.cpp:91-92 | `TYPE_` followed by a name yields the name, e.g. FP32 |
| `Triton.Parse` | src/triton_client.cpp:38-97 | the info `parse_model` returns: an error naming the dims count iff a known layout has neither 3 nor 4 dims; otherwise the canonical format, batch size 1, the datatype without `TYPE_`, the input name, the max batch size, the output names in order, and a shape that ends with the dims and has at most one entry before them |
| `Triton.WithInputShape` | src/triton_client.cpp:100-106 | the info after `set_input_shape`: dynamic iff the override's entry 2 or 3 is -1, and equal to the old info outside shape, C, W and H |
| `Triton.IsDynamic` | src/triton_client.cpp:112 | the `-1` test of `retrieve_model_info`: a width or height of -1 is dynamic; unset width and height are not |
| `Triton.PushAll` | src/triton_client.cpp:81-89 | the `push_back` loops over the dims and the output names: the vector keeps its old entries and ends with the items in order |
| `Triton.NoneFormatActsAsNchw` | src/triton_client.cpp:43-45 | a FORMAT_NONE configuration parses exactly like a FORMAT_NCHW one |
| `Triton.ParsedShapeFollowsLayout` | src/triton_client.cpp:47-83 | a successful parse with a known layout gives a four-entry shape: the batch (1 when the dims had 3 entries) followed by C,H,W or H,W,C |
| `Triton.ParsedShapeEndsWithLastThreeDims` | src/triton_client.cpp:47-83 | a successful parse with a known layout has 3 or 4 dims, sets C, H and W, and gives the shape as the batch (1 when the dims had 3 entries) followed by the last three dims |
| `Triton.UnsupportedDimensionsRejected` | src/triton_client.cpp:57-77 | with a known layout, parsing fails iff the dims count is neither 3 nor 4 |
| `Triton.UnknownFormatLeavesGeometryUnset` | src/triton_client.cpp:47-83 | any other format parses without error, leaves C/H/W unset, keeps the dims as the shape and is treated as not dynamic |
| `Triton.OverrideSwapsHeightAndWidth` | src/triton_client.cpp:100-106 | feeding a parsed NCHW shape back through the override swaps height and width; the info is unchanged iff the input is square |
| `Triton.OverrideResolvesDynamicSize` | src/triton_client.cpp:100-117 | an override with fixed entries 2 and 3 leaves no dynamic size and changes only the shape, C, W and H |
| `Triton.TritonClient.constructor` | include/triton_client.h:45-50 | stores the connection settings; version and verbosity default to empty and false; the model info is default-constructed |
| `Triton.TritonClient.ReadLayout` | src/triton_client.cpp:47-79 | sets C, H, W exactly as `ResolveGeometry` resolves them, pushes the batch entry for three dims, and fails with the dimension count exactly when `ResolveGeometry` does |
| `Triton.TritonClient.ParseModel` | src/triton_client.cpp:38-97 | builds the model info field by field and by appending dims and output names, and equals `Parse`, whose properties are the lemmas above |
| `Triton.TritonClient.SetInputShape` | src/triton_client.cpp:100-106 | the shape becomes the override, C := shape[1], W := shape[2], H := shape[3], and nothing else changes |
| `Triton.TritonClient.RetrieveModelInfo` | src/triton_client.cpp:109-135 | a parse error leaves the state alone; a dynamic size without an override is an error after the parsed info is stored; with an override the override is applied; otherwise the parsed info is stored and the override ignored |

## Findings

| source | as written | input that shows it | evidently intended | confidence | as-written member | corrected member |
|---|---|---|---|---|---|---|
| src/yolov10.cpp:29-36 | the guard only checks that `i*stride+4` is inside the buffer, then a kept row reads `i*stride+5` | shape [1,1,6], buffer [10,10,50,50,0.9]: the score 0.9 passes and index 5 of a five-float buffer is read | stop at the first row whose six fields are not all inside the buffer | not executed; high | `Decoding.ShortFinalRowReadsPastEnd` | `Decoding.GuardedAgreesWithSource` |
| src/yolov10.cpp:29-45 | with a negative stride, a later row's offset `i*stride` is negative while `i*stride+4` still passes the guard, and the box fields are read at that negative offset | shape [1,2,-1], buffer [0,0,0,0.9,0.9,1]: row 1 has offset -1, its score 0.9 passes, and line 42 reads index -1 | stop at the first row whose six fields are not all inside the buffer | not executed; medium (needs a negative stride in the output shape) | `Decoding.NegativeStrideReadsBeforeStart` | `Decoding.GuardedAgreesWithSource` |

`Yolo.YoloV10.Postprocess` keeps the source's guard and returns `ReadOutOfRange` where the
source would read outside the buffer. When it succeeds, its result equals `Decoding.DecodeGuarded`.

## Left out

- Fetching the configuration over HTTP with libcurl and the unknown-model check (src/triton_client.cpp:5-37): network I/O.
- The rapidjson document access (src/triton_client.cpp:38-42, 85-91): a foreign JSON library. `ParseModel` takes the fields it reads, already parsed, as a `ModelConfig`.
- `initialize_triton_client`, `create_infer_requested_output`, `extract_inference_results`, `run_inference` and the `TritonClientInstance` union: thin wrappers over the Triton client library and its transports.
- `read_label_names` (file I/O) and all of src/main.cpp (orchestration, timing, image I/O, drawing).
- OpenCV `convertTo`, `resize` and the division by 255 (src/yolov10.cpp:60-62): library numerics. The image given to `Preprocess` is already at the model's size, and element values pass through unchanged.
- IEEE float rounding: scores, boxes and scale factors are reals, and the threshold is exactly 0.1 rather than the float nearest to it.
- Narrowing of `int64` shape entries to `int`, and overflow of `i*stride`: values are taken to fit.
- `output_name`, `single_channel_type` and `three_channel_type` of `TritonModelInfo`: never assigned, or OpenCV type codes; the plane element size is fixed at four bytes.
- Yolo.YoloV10.Postprocess: requires non-empty `infer_results` and `infer_shapes`, because `.front()` on an empty vector is undefined behaviour in C++.
- Yolo.YoloV10.Postprocess: requires a shape of at least three entries, although the source reads `shape[2]` only when the row count is positive.
- Yolo.YoloV10.Postprocess: requires a non-zero model width and height, because float division by zero (an infinite scale) is not modelled.
- Yolo.YoloV10.Preprocess: requires the plane size `img_size` to equal the model size, as at its only call site. With another size `cv::split` reallocates the planes instead of writing into the buffer; that OpenCV behaviour is not modelled.
- Yolo.YoloV10.Preprocess: the unused `format` parameter and the `img_type1`/`img_type3` type codes are not modelled.
- Yolo.YoloV10.Preprocess: when the size check fails, the source's plane headers may point past the buffer before the abort. The model reports the mismatch and does not model those writes.
- Triton.StripTypePrefix: drops five characters where `erase(0, 5)` drops five bytes. The two agree for Triton's datatype names, which are ASCII; multi-byte characters are not modelled.
- Triton.TritonClient.RetrieveModelInfo: an unset width or height (unknown format) is treated as not dynamic. The C++ compares an indeterminate `int` there.
- Triton.TritonClient.RetrieveModelInfo: requires an override of at least four entries when one is used, since the source reads `shape[1..3]` unchecked.
