/**
 * Model-shape resolution of `TritonClient`: turning the fields of a model
 * configuration into the input description used for inference, and the
 * shape override for models with dynamic input sizes.
 */
module Triton {
  import opened Common

  const FormatNone: string := "FORMAT_NONE"
  const FormatNchw: string := "FORMAT_NCHW"
  const FormatNhwc: string := "FORMAT_NHWC"

  /** `TritonModelInfo::batch_size` before anything assigns it. */
  const DefaultBatchSize: int := 1

  /** Length of the `TYPE_` prefix of a configuration datatype. */
  const TypePrefixLength: nat := 5

  /** The size a configuration gives to a dynamic dimension. */
  const DynamicSize: int := -1

  datatype Protocol = Http | Grpc

  /** The fields of the model configuration that `parse_model` reads, already parsed. */
  datatype ModelConfig = ModelConfig(
    inputName: string,
    format: string,
    dims: seq<int>,
    dataType: string,
    maxBatchSize: int,
    outputNames: seq<string>)

  /** `TritonModelInfo`; a field the source leaves unassigned is `None`. */
  datatype ModelInfo = ModelInfo(
    outputNames: seq<string>,
    inputName: string,
    inputDatatype: string,
    inputChannels: Option<int>,
    inputHeight: Option<int>,
    inputWidth: Option<int>,
    inputFormat: string,
    maxBatchSize: Option<int>,
    batchSize: int,
    inputShape: seq<int>)

  /** A default-constructed `TritonModelInfo`. */
  function DefaultModelInfo(): ModelInfo
  {
    ModelInfo([], "", "", None, None, None, "", None, DefaultBatchSize, [])
  }

  datatype ConfigError = UnsupportedDimensions(count: nat) | DynamicShapeRequiresOverride

  /** Channels, height and width of the model input. */
  datatype Geometry = Geometry(channels: int, height: int, width: int)

  /** `FORMAT_NONE` is read as `FORMAT_NCHW`; every other format is kept. */
  function CanonicalFormat(format: string): (f: string)
    ensures f == FormatNchw <==> format == FormatNone || format == FormatNchw
    ensures f != FormatNchw ==> f == format
    ensures f != FormatNone
  {
    if format == FormatNone then FormatNchw else format
  }

  /**
   * Channels, height and width taken from the last three dims in the order the
   * layout gives (C,H,W for NCHW, H,W,C for NHWC); `None` for any other format;
   * an error when a known layout has neither 3 nor 4 dims.
   */
  function ResolveGeometry(format: string, dims: seq<int>): (r: Result<Option<Geometry>, ConfigError>)
    ensures r.Err? <==> (format == FormatNchw || format == FormatNhwc) && |dims| != 3 && |dims| != 4
    ensures r.Err? ==> r.error == UnsupportedDimensions(|dims|)
    ensures r == Ok(None) <==> format != FormatNchw && format != FormatNhwc
    ensures r.Ok? && r.value.Some? && format == FormatNchw ==>
              |dims| >= 3 && r.value.value == Geometry(dims[|dims| - 3], dims[|dims| - 2], dims[|dims| - 1])
    ensures r.Ok? && r.value.Some? && format == FormatNhwc ==>
              |dims| >= 3 && r.value.value == Geometry(dims[|dims| - 1], dims[|dims| - 3], dims[|dims| - 2])
  {
    if format == FormatNchw then
      if |dims| == 4 then Ok(Some(Geometry(dims[1], dims[2], dims[3])))
      else if |dims| == 3 then Ok(Some(Geometry(dims[0], dims[1], dims[2])))
      else Err(UnsupportedDimensions(|dims|))
    else if format == FormatNhwc then
      if |dims| == 4 then Ok(Some(Geometry(dims[3], dims[1], dims[2])))
      else if |dims| == 3 then Ok(Some(Geometry(dims[2], dims[0], dims[1])))
      else Err(UnsupportedDimensions(|dims|))
    else Ok(None)
  }

  /** `std::string::erase(0, 5)`: drops the first five characters, or all of a shorter string. */
  function StripTypePrefix(dataType: string): (name: string)
    ensures |dataType| >= TypePrefixLength ==> dataType == dataType[..TypePrefixLength] + name
    ensures |dataType| < TypePrefixLength ==> name == []
  {
    if |dataType| >= TypePrefixLength then dataType[TypePrefixLength..] else []
  }

  lemma StripTypePrefixRecoversName(name: string)
    ensures StripTypePrefix("TYPE_" + name) == name
  {
    assert ("TYPE_" + name)[TypePrefixLength..] == name;
  }

  /** The model info `parse_model` returns for a configuration, or the error it throws. */
  function Parse(config: ModelConfig): (r: Result<ModelInfo, ConfigError>)
    ensures r.Err? <==> (CanonicalFormat(config.format) == FormatNchw || CanonicalFormat(config.format) == FormatNhwc)
                        && |config.dims| != 3 && |config.dims| != 4
    ensures r.Err? ==> r.error == UnsupportedDimensions(|config.dims|)
    ensures r.Ok? ==> r.value.inputFormat == CanonicalFormat(config.format) && r.value.batchSize == DefaultBatchSize
    ensures r.Ok? ==> |config.dims| <= |r.value.inputShape| <= |config.dims| + 1 &&
                      r.value.inputShape[|r.value.inputShape| - |config.dims|..] == config.dims
    ensures r.Ok? ==> r.value.outputNames == config.outputNames
    ensures r.Ok? ==> r.value.inputDatatype == StripTypePrefix(config.dataType) && r.value.inputName == config.inputName
                      && r.value.maxBatchSize == Some(config.maxBatchSize)
  {
    var format := CanonicalFormat(config.format);
    match ResolveGeometry(format, config.dims)
    case Err(e) => Err(e)
    case Ok(geometry) =>
      var batchPrefix := if geometry.Some? && |config.dims| == 3 then [DefaultBatchSize] else [];
      Ok(ModelInfo(
        outputNames := config.outputNames,
        inputName := config.inputName,
        inputDatatype := StripTypePrefix(config.dataType),
        inputChannels := if geometry.Some? then Some(geometry.value.channels) else None,
        inputHeight := if geometry.Some? then Some(geometry.value.height) else None,
        inputWidth := if geometry.Some? then Some(geometry.value.width) else None,
        inputFormat := format,
        maxBatchSize := Some(config.maxBatchSize),
        batchSize := DefaultBatchSize,
        inputShape := batchPrefix + config.dims))
  }

  /** The state `set_input_shape` leaves: the override shape, with C, W, H read from its entries 1, 2, 3. */
  function WithInputShape(info: ModelInfo, shape: seq<int>): (r: ModelInfo)
    requires |shape| >= 4
    ensures IsDynamic(r) <==> shape[2] == DynamicSize || shape[3] == DynamicSize
    ensures r.(inputShape := info.inputShape, inputChannels := info.inputChannels,
               inputWidth := info.inputWidth, inputHeight := info.inputHeight) == info
  {
    info.(inputShape := shape, inputChannels := Some(shape[1]), inputWidth := Some(shape[2]), inputHeight := Some(shape[3]))
  }

  /** The model declares a dynamic width or height. */
  predicate IsDynamic(info: ModelInfo): (dynamic: bool)
    ensures info.inputWidth.None? && info.inputHeight.None? ==> !dynamic
    ensures info.inputWidth == Some(DynamicSize) || info.inputHeight == Some(DynamicSize) ==> dynamic
  {
    info.inputWidth == Some(DynamicSize) || info.inputHeight == Some(DynamicSize)
  }

  /** A configuration that declares `FORMAT_NONE` parses exactly as one that declares `FORMAT_NCHW`. */
  lemma NoneFormatActsAsNchw(config: ModelConfig)
    ensures Parse(config.(format := FormatNone)) == Parse(config.(format := FormatNchw))
  {
  }

  /**
   * For both known layouts a successful parse yields a four-entry input shape
   * whose first entry is the batch (the default batch size when the dims had
   * none) and whose other entries are C,H,W or H,W,C as the layout says.
   */
  lemma ParsedShapeFollowsLayout(config: ModelConfig)
    requires Parse(config).Ok?
    requires CanonicalFormat(config.format) == FormatNchw || CanonicalFormat(config.format) == FormatNhwc
    ensures var info := Parse(config).value;
            var dims := config.dims;
            && (|dims| == 3 || |dims| == 4)
            && |info.inputShape| == 4
            && info.inputShape[0] == (if |dims| == 3 then DefaultBatchSize else dims[0])
            && info.inputChannels.Some? && info.inputHeight.Some? && info.inputWidth.Some?
            && (CanonicalFormat(config.format) == FormatNchw ==>
                  info.inputShape[1..] == [info.inputChannels.value, info.inputHeight.value, info.inputWidth.value])
            && (CanonicalFormat(config.format) == FormatNhwc ==>
                  info.inputShape[1..] == [info.inputHeight.value, info.inputWidth.value, info.inputChannels.value])
  {
    ParsedShapeEndsWithLastThreeDims(config);
    var info := Parse(config).value;
    var dims := config.dims;
    var g := ResolveGeometry(CanonicalFormat(config.format), dims).value.value;
    assert info.inputChannels == Some(g.channels) && info.inputHeight == Some(g.height) && info.inputWidth == Some(g.width);
  }

  /** A step of `ParsedShapeFollowsLayout`: the shape is the batch followed by the last three dims. */
  lemma ParsedShapeEndsWithLastThreeDims(config: ModelConfig)
    requires Parse(config).Ok?
    requires CanonicalFormat(config.format) == FormatNchw || CanonicalFormat(config.format) == FormatNhwc
    ensures var info := Parse(config).value;
            var dims := config.dims;
            && (|dims| == 3 || |dims| == 4)
            && |info.inputShape| == 4
            && info.inputShape[0] == (if |dims| == 3 then DefaultBatchSize else dims[0])
            && info.inputShape[1..] == dims[|dims| - 3..]
            && info.inputChannels.Some? && info.inputHeight.Some? && info.inputWidth.Some?
  {
    var info := Parse(config).value;
    var dims := config.dims;
    if |dims| == 3 {
      assert info.inputShape == [DefaultBatchSize] + dims;
    } else {
      assert info.inputShape == dims;
    }
  }

  /** With a known layout, parsing fails exactly when the dims count is neither 3 nor 4. */
  lemma UnsupportedDimensionsRejected(config: ModelConfig)
    requires config.format in {FormatNone, FormatNchw, FormatNhwc}
    ensures Parse(config).Err? <==> |config.dims| != 3 && |config.dims| != 4
    ensures Parse(config).Err? ==> Parse(config).error == UnsupportedDimensions(|config.dims|)
  {
  }

  /**
   * Any other format parses without error: channels, height and width stay
   * unset, no batch entry is prepended, and the model is treated as not dynamic.
   */
  lemma UnknownFormatLeavesGeometryUnset(config: ModelConfig)
    requires config.format !in {FormatNone, FormatNchw, FormatNhwc}
    ensures Parse(config).Ok?
    ensures var info := Parse(config).value;
            && info.inputChannels == None && info.inputHeight == None && info.inputWidth == None
            && info.inputShape == config.dims
            && info.inputFormat == config.format
            && !IsDynamic(info)
  {
    assert CanonicalFormat(config.format) == config.format;
  }

  /**
   * Feeding a parsed NCHW shape back through the override reads the height as
   * the width and the width as the height: the model info survives unchanged
   * exactly when the input is square.
   */
  lemma OverrideSwapsHeightAndWidth(config: ModelConfig)
    requires Parse(config).Ok? && CanonicalFormat(config.format) == FormatNchw
    ensures var info := Parse(config).value;
            var overridden := WithInputShape(info, info.inputShape);
            && overridden.inputWidth == info.inputHeight
            && overridden.inputHeight == info.inputWidth
            && overridden.inputChannels == info.inputChannels
            && (overridden == info <==> info.inputHeight == info.inputWidth)
  {
    ParsedShapeFollowsLayout(config);
  }

  /** An override whose entries 2 and 3 are fixed sizes leaves no dynamic width or height. */
  lemma OverrideResolvesDynamicSize(info: ModelInfo, shape: seq<int>)
    requires |shape| >= 4 && shape[2] != DynamicSize && shape[3] != DynamicSize
    ensures !IsDynamic(WithInputShape(info, shape))
    ensures WithInputShape(info, shape).inputShape == shape
    ensures WithInputShape(info, shape).(inputShape := info.inputShape, inputChannels := info.inputChannels,
                                         inputWidth := info.inputWidth, inputHeight := info.inputHeight) == info
  {
  }

  /** A `for` loop that `push_back`s every item, in order, onto a vector holding `prefix`. */
  method PushAll<T>(prefix: seq<T>, items: seq<T>) returns (out: seq<T>)
    ensures |out| == |prefix| + |items|
    ensures out[..|prefix|] == prefix && out[|prefix|..] == items
  {
    out := prefix;
    var k := 0;
    while k < |items|
      invariant 0 <= k <= |items|
      invariant out == prefix + items[..k]
    {
      out := out + [items[k]];
      k := k + 1;
    }
    assert items[..k] == items;
  }

  class TritonClient {
    const serverUrl: string
    const protocol: Protocol
    const modelName: string
    const modelVersion: string
    const verbose: bool
    var modelInfo: ModelInfo

    constructor (serverUrl: string, protocol: Protocol, modelName: string, modelVersion: string := "", verbose: bool := false)
      ensures this.serverUrl == serverUrl && this.protocol == protocol && this.modelName == modelName
      ensures this.modelVersion == modelVersion && this.verbose == verbose
      ensures modelInfo == DefaultModelInfo()
    {
      this.serverUrl := serverUrl;
      this.protocol := protocol;
      this.modelName := modelName;
      this.modelVersion := modelVersion;
      this.verbose := verbose;
      modelInfo := DefaultModelInfo();
    }

    /**
     * The layout branch of `parse_model`: channels, height and width from the
     * dims in the order `info.inputFormat` gives, with the batch entry pushed
     * first for three dims; the dimension-count error for a known layout.
     */
    method ReadLayout(info: ModelInfo, inputDims: seq<int>) returns (r: Result<ModelInfo, ConfigError>)
      ensures var geometry := ResolveGeometry(info.inputFormat, inputDims);
              match geometry
              case Err(e) => r == Err(e)
              case Ok(g) => r.Ok? && r.value == info.(
                inputChannels := if g.Some? then Some(g.value.channels) else info.inputChannels,
                inputHeight := if g.Some? then Some(g.value.height) else info.inputHeight,
                inputWidth := if g.Some? then Some(g.value.width) else info.inputWidth,
                inputShape := info.inputShape + if g.Some? && |inputDims| == 3 then [info.batchSize] else [])
    {
      var info := info;
      if info.inputFormat == FormatNchw {
        if |inputDims| == 4 {
          info := info.(inputChannels := Some(inputDims[1]), inputHeight := Some(inputDims[2]), inputWidth := Some(inputDims[3]));
        } else if |inputDims| == 3 {
          info := info.(inputChannels := Some(inputDims[0]), inputHeight := Some(inputDims[1]), inputWidth := Some(inputDims[2]));
          info := info.(inputShape := info.inputShape + [info.batchSize]);
        } else {
          return Err(UnsupportedDimensions(|inputDims|));
        }
      } else if info.inputFormat == FormatNhwc {
        if |inputDims| == 4 {
          info := info.(inputHeight := Some(inputDims[1]), inputWidth := Some(inputDims[2]), inputChannels := Some(inputDims[3]));
        } else if |inputDims| == 3 {
          info := info.(inputHeight := Some(inputDims[0]), inputWidth := Some(inputDims[1]), inputChannels := Some(inputDims[2]));
          info := info.(inputShape := info.inputShape + [info.batchSize]);
        } else {
          return Err(UnsupportedDimensions(|inputDims|));
        }
      }

      return Ok(info);
    }

    /** `parse_model` on an already fetched and parsed configuration. */
    method ParseModel(config: ModelConfig) returns (r: Result<ModelInfo, ConfigError>)
      ensures r == Parse(config)
    {
      var info := DefaultModelInfo();
      info := info.(inputName := config.inputName);
      var inputDims := config.dims;
      info := info.(inputFormat := config.format);
      if info.inputFormat == FormatNone {
        info := info.(inputFormat := FormatNchw);
      }

      ghost var geometry := ResolveGeometry(info.inputFormat, inputDims);
      assert info.inputFormat == CanonicalFormat(config.format);
      var laidOut := ReadLayout(info, inputDims);
      if laidOut.Err? {
        return Err(laidOut.error);
      }
      info := laidOut.value;
      assert info.inputChannels == (if geometry.value.Some? then Some(geometry.value.value.channels) else None);
      assert info.inputHeight == (if geometry.value.Some? then Some(geometry.value.value.height) else None);
      assert info.inputWidth == (if geometry.value.Some? then Some(geometry.value.value.width) else None);
      assert info.inputShape == if geometry.value.Some? && |inputDims| == 3 then [DefaultBatchSize] else [];
      var inputShape := PushAll(info.inputShape, inputDims);
      assert inputShape == info.inputShape + inputDims;
      info := info.(inputShape := inputShape);

      info := info.(maxBatchSize := Some(config.maxBatchSize));

      var outputNames := PushAll(info.outputNames, config.outputNames);
      assert outputNames == info.outputNames + config.outputNames;
      info := info.(outputNames := outputNames);
      info := info.(inputDatatype := StripTypePrefix(config.dataType));
      return Ok(info);
    }

    /** `set_input_shape`: takes the override shape; only the shape, C, W and H change. */
    method SetInputShape(shape: seq<int>)
      requires |shape| >= 4
      modifies this`modelInfo
      ensures modelInfo == WithInputShape(old(modelInfo), shape)
    {
      modelInfo := modelInfo.(inputShape := shape);
      modelInfo := modelInfo.(inputChannels := Some(shape[1]));
      modelInfo := modelInfo.(inputWidth := Some(shape[2]));
      modelInfo := modelInfo.(inputHeight := Some(shape[3]));
    }

    /**
     * `retrieve_model_info`: stores the parsed info; a dynamic width or height
     * needs a non-empty override, which then replaces the shape. The parsed
     * info is stored even when the missing override is then reported.
     */
    method RetrieveModelInfo(config: ModelConfig, shape: seq<int>) returns (r: Result<ModelInfo, ConfigError>)
      requires Parse(config).Ok? && IsDynamic(Parse(config).value) && shape != [] ==> |shape| >= 4
      modifies this`modelInfo
      ensures Parse(config).Err? ==> r == Parse(config) && modelInfo == old(modelInfo)
      ensures Parse(config).Ok? && !IsDynamic(Parse(config).value) ==>
                modelInfo == Parse(config).value && r == Ok(modelInfo)
      ensures Parse(config).Ok? && IsDynamic(Parse(config).value) && shape == [] ==>
                modelInfo == Parse(config).value && r == Err(DynamicShapeRequiresOverride)
      ensures Parse(config).Ok? && IsDynamic(Parse(config).value) && shape != [] ==>
                modelInfo == WithInputShape(Parse(config).value, shape) && r == Ok(modelInfo)
    {
      var parsed := ParseModel(config);
      if parsed.Err? {
        return Err(parsed.error);
      }
      modelInfo := parsed.value;
      if modelInfo.inputWidth == Some(DynamicSize) || modelInfo.inputHeight == Some(DynamicSize) {
        if shape == [] {
          return Err(DynamicShapeRequiresOverride);
        }
        SetInputShape(shape);
      }
      return Ok(modelInfo);
    }
  }
}
