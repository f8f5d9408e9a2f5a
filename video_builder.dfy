/**
 * The video composition builder (src/videos/builder.ts): an ordered layer list,
 * a filter list, an options bag and the multipart form of media references,
 * and the derivation of the encode config from them.
 */
module Videos {
  import opened Wrappers
  import opened JsValues
  import DimensionStrings

  /** A layer is the JavaScript object built by spreading the caller's options. */
  type Layer = map<string, Value>

  /** The media argument of `addAudio`/`addImage`/`addVideo`: a URL string or a blob. */
  datatype MediaFile = UrlFile(url: string) | BlobFile(blob: nat)

  /** A form field name: `url<id>` or `file<id>`, where `<id>` is the layer's `id` property. */
  datatype FormKey = UrlKey(layerId: Value) | FileKey(layerId: Value)

  datatype FormEntry = FormEntry(key: FormKey, file: MediaFile)

  datatype Filter = Filter(name: string, options: Value)

  /** Why no config could be generated. */
  datatype ConfigError =
    | AspectRatioError(message: string)    // thrown by the aspect-ratio collaborator
    | MalformedDimensions(text: string)    // a dimension string that is not "<digits>x<digits>"

  /**
   * The generated config `{...options, dimensions, layers}`: `options` holds the
   * spread options, without the `dimensions` and `layers` keys that the two
   * explicit fields override.
   */
  datatype EncodeConfig = EncodeConfig(options: map<string, Value>, dimensions: Value, layers: seq<Layer>)

  /** The six keys `setOptions` keeps. */
  const OptionKeys: set<string> := {"aspectRatio", "backgroundColor", "duration", "hd", "metadata", "resolution"}

  function IdOf(layer: Layer): Value {
    Get(layer, "id")
  }

  /** `{ id: uuid(), ...options }` where `options` is `{ type: <kind>, ...callerOptions }`. */
  function NewLayer(id: string, options: Layer): Layer {
    map["id" := Str(id)] + options
  }

  function Tagged(kind: string, options: Layer): Layer {
    map["type" := Str(kind)] + options
  }

  /** The form entry a media layer registers: keyed by the layer's id, `url` for a string, `file` otherwise. */
  function MediaEntry(layer: Layer, file: MediaFile): FormEntry {
    if file.UrlFile? then FormEntry(UrlKey(IdOf(layer)), file) else FormEntry(FileKey(IdOf(layer)), file)
  }

  /** `setOptions`: the six known keys, each read from the argument, nothing kept from before. */
  function PickOptions(options: map<string, Value>): (r: map<string, Value>)
    ensures r.Keys == OptionKeys
    ensures forall k :: k in r ==> r[k] == Get(options, k)
  {
    map k | k in OptionKeys :: Get(options, k)
  }

  /** `resolution` if defined, otherwise what the aspect-ratio collaborator derives from `aspectRatio` and `hd`. */
  function ResolveDimensions(options: map<string, Value>, sizeForAspectRatio: (Value, Value) -> Result<Value, string>)
    : Result<Value, string>
  {
    var resolution := Get(options, "resolution");
    if resolution.Undefined? then sizeForAspectRatio(Get(options, "aspectRatio"), Get(options, "hd"))
    else Success(resolution)
  }

  /** `generateConfig`, as a function of the options and layers it reads. */
  function Generate(options: map<string, Value>, layers: seq<Layer>,
                    sizeForAspectRatio: (Value, Value) -> Result<Value, string>): (r: Result<EncodeConfig, ConfigError>)
    ensures r.Success? ==> "resolution" !in r.value.options && r.value.layers == layers
    ensures r.Failure? <==>
      ResolveDimensions(options, sizeForAspectRatio).Failure?
      || (ResolveDimensions(options, sizeForAspectRatio).value.Str?
          && DimensionStrings.Parse(ResolveDimensions(options, sizeForAspectRatio).value.s).None?)
  {
    match ResolveDimensions(options, sizeForAspectRatio)
    case Failure(message) => Failure(AspectRatioError(message))
    case Success(dimensions) =>
      var rest := options - {"resolution", "dimensions", "layers"};
      if dimensions.Str? then
        match DimensionStrings.Parse(dimensions.s)
        case None => Failure(MalformedDimensions(dimensions.s))
        case Some((width, height)) =>
          Success(EncodeConfig(rest["hd" := Bool(width >= 1024)],
                               Obj(map["width" := Num(width as real), "height" := Num(height as real)]),
                               layers))
      else Success(EncodeConfig(rest, dimensions, layers))
  }

  /**
   * Whatever the dimensions are, the config never carries `resolution`, keeps
   * every other option except `hd` as it was, adds no option but `hd`, and
   * holds the current layers.
   */
  lemma GenerateKeepsOptions(options: map<string, Value>, layers: seq<Layer>,
                             sizeForAspectRatio: (Value, Value) -> Result<Value, string>)
    requires Generate(options, layers, sizeForAspectRatio).Success?
    ensures "resolution" !in Generate(options, layers, sizeForAspectRatio).value.options
    ensures Generate(options, layers, sizeForAspectRatio).value.layers == layers
    ensures forall k :: k in options && k !in {"resolution", "hd", "dimensions", "layers"} ==>
      k in Generate(options, layers, sizeForAspectRatio).value.options
      && Generate(options, layers, sizeForAspectRatio).value.options[k] == options[k]
    ensures forall k :: k in Generate(options, layers, sizeForAspectRatio).value.options ==> k in options || k == "hd"
    ensures !ResolveDimensions(options, sizeForAspectRatio).value.Str? ==>
      Get(Generate(options, layers, sizeForAspectRatio).value.options, "hd") == Get(options, "hd")
  {
  }

  /**
   * A defined, non-string `resolution` is the dimensions as it is, and `hd`
   * passes through.
   */
  lemma ResolutionTakesPrecedence(options: map<string, Value>, layers: seq<Layer>,
                                  sizeForAspectRatio: (Value, Value) -> Result<Value, string>)
    requires !Get(options, "resolution").Undefined? && !Get(options, "resolution").Str?
    ensures Generate(options, layers, sizeForAspectRatio).Success?
    ensures Generate(options, layers, sizeForAspectRatio).value.dimensions == options["resolution"]
    ensures Get(Generate(options, layers, sizeForAspectRatio).value.options, "hd") == Get(options, "hd")
  {
  }

  /** Any defined `resolution`, a string included, makes the aspect-ratio collaborator irrelevant. */
  lemma ResolutionIgnoresCollaborator(options: map<string, Value>, layers: seq<Layer>,
                                      sizeForAspectRatio: (Value, Value) -> Result<Value, string>,
                                      otherSizeFor: (Value, Value) -> Result<Value, string>)
    requires !Get(options, "resolution").Undefined?
    ensures Generate(options, layers, sizeForAspectRatio) == Generate(options, layers, otherSizeFor)
  {
  }

  /** Without `resolution`, the dimensions come from `aspectRatio` and `hd` through the collaborator. */
  lemma AspectRatioFallback(options: map<string, Value>, layers: seq<Layer>,
                            sizeForAspectRatio: (Value, Value) -> Result<Value, string>)
    requires Get(options, "resolution").Undefined?
    ensures sizeForAspectRatio(Get(options, "aspectRatio"), Get(options, "hd")).Failure? ==>
      Generate(options, layers, sizeForAspectRatio)
        == Failure(AspectRatioError(sizeForAspectRatio(Get(options, "aspectRatio"), Get(options, "hd")).error))
    ensures sizeForAspectRatio(Get(options, "aspectRatio"), Get(options, "hd")).Success? &&
            !sizeForAspectRatio(Get(options, "aspectRatio"), Get(options, "hd")).value.Str? ==>
      Generate(options, layers, sizeForAspectRatio).Success? &&
      Generate(options, layers, sizeForAspectRatio).value.dimensions
        == sizeForAspectRatio(Get(options, "aspectRatio"), Get(options, "hd")).value
  {
  }

  /**
   * A dimension string "<w>x<h>", from `resolution` or from the collaborator,
   * becomes `{width: w, height: h}` and `hd` is recomputed as `w >= 1024`.
   */
  lemma {:induction false} DimensionStringSetsHd(options: map<string, Value>, layers: seq<Layer>,
                                                 sizeForAspectRatio: (Value, Value) -> Result<Value, string>,
                                                 width: string, height: string)
    requires DimensionStrings.IsDigits(width) && DimensionStrings.IsDigits(height)
    requires ResolveDimensions(options, sizeForAspectRatio) == Success(Str(width + "x" + height))
    ensures Generate(options, layers, sizeForAspectRatio).Success?
    ensures Generate(options, layers, sizeForAspectRatio).value.dimensions
      == Obj(map["width" := Num(DimensionStrings.DigitsValue(width) as real),
                 "height" := Num(DimensionStrings.DigitsValue(height) as real)])
    ensures Generate(options, layers, sizeForAspectRatio).value.options["hd"]
      == Bool(DimensionStrings.DigitsValue(width) >= 1024)
  {
    DimensionStrings.ParseDigits(width, height);
  }

  /** Any other dimension string cannot be read, and no config is produced. */
  lemma MalformedDimensionString(options: map<string, Value>, layers: seq<Layer>,
                                 sizeForAspectRatio: (Value, Value) -> Result<Value, string>, text: string)
    requires ResolveDimensions(options, sizeForAspectRatio) == Success(Str(text))
    requires !DimensionStrings.IsDimensionString(text)
    ensures Generate(options, layers, sizeForAspectRatio) == Failure(MalformedDimensions(text))
  {
    DimensionStrings.ParseAcceptsExactly(text);
  }

  /** A new layer carries the fresh id and its kind unless the caller's options override them. */
  lemma NewLayerAttributes(id: string, kind: string, options: Layer)
    ensures "id" !in options ==> IdOf(NewLayer(id, Tagged(kind, options))) == Str(id)
    ensures "type" !in options ==> Get(NewLayer(id, Tagged(kind, options)), "type") == Str(kind)
    ensures forall k :: k in options ==> NewLayer(id, Tagged(kind, options))[k] == options[k]
  {
  }

  /** Layer ids are pairwise distinct. */
  ghost predicate DistinctIds(layers: seq<Layer>) {
    forall i, j :: 0 <= i < j < |layers| ==> IdOf(layers[i]) != IdOf(layers[j])
  }

  /**
   * Appending a layer whose id is fresh, with options that do not override the
   * id, keeps the ids distinct.
   */
  lemma AppendFreshKeepsIdsDistinct(layers: seq<Layer>, id: string, options: Layer)
    requires DistinctIds(layers)
    requires forall l :: l in layers ==> IdOf(l) != Str(id)
    requires "id" !in options
    ensures DistinctIds(layers + [NewLayer(id, options)])
  {
  }

  /** Every form entry is keyed by the id of one of the layers. */
  ghost predicate FormNamesLayers(form: seq<FormEntry>, layers: seq<Layer>) {
    forall e :: e in form ==> exists l :: l in layers && e.key.layerId == IdOf(l)
  }

  /**
   * Every media reference the form carries is keyed by the id of a layer in the
   * generated config, so the service can match each file or URL to its layer.
   */
  lemma FormKeysNameConfigLayers(form: seq<FormEntry>, options: map<string, Value>, layers: seq<Layer>,
                                 sizeForAspectRatio: (Value, Value) -> Result<Value, string>)
    requires FormNamesLayers(form, layers)
    requires Generate(options, layers, sizeForAspectRatio).Success?
    ensures FormNamesLayers(form, Generate(options, layers, sizeForAspectRatio).value.layers)
  {
  }

  class VideoBuilder {
    var layers: seq<Layer>
    var filters: seq<Filter>
    var form: seq<FormEntry>
    var options: map<string, Value>

    /** Every form entry is keyed by the id of a layer of this composition. */
    ghost predicate Valid()
      reads this
    {
      FormNamesLayers(form, layers)
    }

    /** An absent options argument becomes `{}`; the lists and the form start empty. */
    constructor(options: Option<map<string, Value>>)
      ensures Valid()
      ensures layers == [] && filters == [] && form == []
      ensures this.options == (if options.Some? then options.value else map[])
    {
      layers := [];
      filters := [];
      form := [];
      this.options := if options.Some? then options.value else map[];
    }

    /** The `layers` getter. */
    method Layers() returns (r: seq<Layer>)
      ensures r == layers
    {
      r := layers;
    }

    /** `addLayer`: `id` is the value `uuid()` returned. */
    method AddLayer(id: string, options: Layer) returns (layer: Layer)
      requires Valid()
      modifies this`layers
      ensures Valid()
      ensures layer == NewLayer(id, options)
      ensures layers == old(layers) + [layer]
    {
      layer := NewLayer(id, options);
      layers := layers + [layer];
    }

    method AppendMedia(layer: Layer, file: MediaFile)
      requires Valid() && layer in layers
      modifies this`form
      ensures Valid()
      ensures form == old(form) + [MediaEntry(layer, file)]
    {
      if file.UrlFile? {
        form := form + [FormEntry(UrlKey(IdOf(layer)), file)];
      } else {
        form := form + [FormEntry(FileKey(IdOf(layer)), file)];
      }
    }

    method AddAudio(file: MediaFile, options: Layer, id: string) returns (self: VideoBuilder)
      requires Valid()
      modifies this`layers, this`form
      ensures Valid() && self == this
      ensures layers == old(layers) + [NewLayer(id, Tagged("audio", options))]
      ensures form == old(form) + [MediaEntry(NewLayer(id, Tagged("audio", options)), file)]
    {
      var layer := AddLayer(id, Tagged("audio", options));
      AppendMedia(layer, file);
      self := this;
    }

    method AddImage(file: MediaFile, options: Layer, id: string) returns (self: VideoBuilder)
      requires Valid()
      modifies this`layers, this`form
      ensures Valid() && self == this
      ensures layers == old(layers) + [NewLayer(id, Tagged("image", options))]
      ensures form == old(form) + [MediaEntry(NewLayer(id, Tagged("image", options)), file)]
    {
      var layer := AddLayer(id, Tagged("image", options));
      AppendMedia(layer, file);
      self := this;
    }

    method AddVideo(file: MediaFile, options: Layer, id: string) returns (self: VideoBuilder)
      requires Valid()
      modifies this`layers, this`form
      ensures Valid() && self == this
      ensures layers == old(layers) + [NewLayer(id, Tagged("video", options))]
      ensures form == old(form) + [MediaEntry(NewLayer(id, Tagged("video", options)), file)]
    {
      var layer := AddLayer(id, Tagged("video", options));
      AppendMedia(layer, file);
      self := this;
    }

    /** `addText`: the text argument is stored under `text` unless the options carry their own. */
    method AddText(text: string, options: Layer, id: string) returns (self: VideoBuilder)
      requires Valid()
      modifies this`layers
      ensures Valid() && self == this
      ensures layers == old(layers) + [NewLayer(id, map["type" := Str("text"), "text" := Str(text)] + options)]
    {
      var _ := AddLayer(id, map["type" := Str("text"), "text" := Str(text)] + options);
      self := this;
    }

    method AddWaveform(options: Layer, id: string) returns (self: VideoBuilder)
      requires Valid()
      modifies this`layers
      ensures Valid() && self == this
      ensures layers == old(layers) + [NewLayer(id, Tagged("waveform", options))]
    {
      var _ := AddLayer(id, Tagged("waveform", options));
      self := this;
    }

    /** `addFilter`: appends `{name, options}`, an undefined options argument becoming `{}`. */
    method AddFilter(name: string, options: Value) returns (self: VideoBuilder)
      requires Valid()
      modifies this`filters
      ensures Valid() && self == this
      ensures filters == old(filters) + [Filter(name, if options.Undefined? then Obj(map[]) else options)]
    {
      var opts := if options.Undefined? then Obj(map[]) else options;
      filters := filters + [Filter(name, opts)];
      self := this;
    }

    /** `setOptions`: replaces the options wholesale with the six known keys. */
    method SetOptions(options: map<string, Value>) returns (self: VideoBuilder)
      requires Valid()
      modifies this`options
      ensures Valid() && self == this
      ensures this.options == PickOptions(options)
    {
      this.options := map k | k in OptionKeys :: Get(options, k);
      self := this;
    }

    /** `generateConfig`: reads the options and layers and changes nothing. */
    method GenerateConfig(sizeForAspectRatio: (Value, Value) -> Result<Value, string>)
      returns (r: Result<EncodeConfig, ConfigError>)
      requires Valid()
      ensures r == Generate(options, layers, sizeForAspectRatio)
      ensures r.Success? ==> FormNamesLayers(form, r.value.layers)
    {
      if Generate(options, layers, sizeForAspectRatio).Success? {
        FormKeysNameConfigLayers(form, options, layers, sizeForAspectRatio);
      }
      r := Generate(options, layers, sizeForAspectRatio);
    }
  }
}
