# editframe-js composition core, modelled in Dafny

This project models the client-side composition core of editframe-js, a client for a
remote video-encoding service. The core has four parts:

- **The video builder** (`Videos`, src/videos/builder.ts). A `VideoBuilder` object holds:
  - an ordered list of layers;
  - a list of composition-wide filters;
  - an options bag;
  - the multipart form of media references.

  The `add*` methods append a layer. The layer is a JavaScript object built as
  `{ id, type, ...options }`. Media layers also register a form entry keyed
  `url<id>` or `file<id>`. `setOptions` replaces the options wholesale.
  `generateConfig` derives the encode config:
  - an explicit `resolution` takes precedence over the aspect ratio;
  - a `"<w>x<h>"` dimension string is parsed, and `hd` is then recomputed as `w >= 1024`;
  - `resolution` is stripped from the result.
- **Dimension strings** (`DimensionStrings`): reading `"<digits>x<digits>"` the way
  `split('x')` and `parseInt` read it when both halves are plain digits, and writing it back.
- **Audio volume** (`AudioFeature`, src/features/videos/audio/index.ts).
  - `setVolume` clamps the volume to [0, 1] and writes it into the layer's attributes in
    the composition.
  - A missing volume fails the presence check. That failure is caught, and nothing is written.
  - `setMuted` writes 0.
- **Filters** (`Filters`, src/constant/filters.ts): the closed set of ten filter names,
  their wire strings, and the option shape each one takes.
- **Layer attribute validators** (`LayerValidation`). Their behaviour is the one
  src/utils/video/layers/layers.test.ts asserts. Each validator is a pure function from a
  caller name and an attribute bag to a list of errors. The errors are kept as structured
  values: caller, attribute, offending value, and the list of what was expected.

Shared modules: `JsValues` defines the JavaScript values the core inspects
(undefined, booleans, numbers, strings, objects) and `typeof`. `Wrappers` defines
`Option` and `Result`.

The collaborators whose code is not part of this model become parameters:
- the id `uuid()` returns is an argument of each `add*` method;
- `sizeForAspectRatio` is a function argument of the config generator, and its failure is
  a `Result` failure.

The model follows the code:
- The builder does not validate layers. An `addText` with an invalid `textAlign` still
  appends the layer.
- The generated config holds the builder's layer list itself, not a copy (see Left out).

## Model

| member | source | states |
|---|---|---|
| `Videos.VideoBuilder.constructor` | src/videos/builder.ts:29-43 | layers, filters and form start empty; a missing options argument becomes `{}`, a given one is stored as is |
| `Videos.VideoBuilder.Layers` | src/videos/builder.ts:45-50 | the getter returns exactly the current layer list |
| `Videos.VideoBuilder.AddLayer` | src/videos/builder.ts:52-56 | appends one layer `{id, ...options}` at the end; earlier layers, filters, form and options are unchanged; form entries still name existing layers |
| `Videos.VideoBuilder.AppendMedia` | src/videos/builder.ts:70-74 | appends exactly one form entry for the layer: `url` plus its id for a string file, `file` plus its id otherwise |
| `Videos.VideoBuilder.AddAudio` | src/videos/builder.ts:58-76 | appends one `audio` layer and one form entry keyed by that layer's id, `url` for a string file and `file` otherwise; returns the builder |
| `Videos.VideoBuilder.AddImage` | src/videos/builder.ts:95-113 | as AddAudio with type `image` |
| `Videos.VideoBuilder.AddVideo` | src/videos/builder.ts:130-148 | as AddAudio with type `video` |
| `Videos.VideoBuilder.AddText` | src/videos/builder.ts:115-128 | appends one `text` layer carrying the text (caller options override it) and adds no form entry |
| `Videos.VideoBuilder.AddWaveform` | src/videos/builder.ts:150-163 | appends one `waveform` layer and adds no form entry |
| `Videos.VideoBuilder.AddFilter` | src/videos/builder.ts:78-93 | appends `{name, options}` to the filters, with undefined options becoming `{}`; layers and form untouched |
| `Videos.VideoBuilder.SetOptions` | src/videos/builder.ts:195-224 | the new options are exactly the six keys read from the argument; nothing of the old options survives |
| `Videos.PickOptions` | src/videos/builder.ts:206-222 | the result has exactly the six option keys, each equal to the argument's value or undefined when the argument lacks it |
| `Videos.VideoBuilder.GenerateConfig` | src/videos/builder.ts:226-245 | the config is the generator's function of the current options and layers, computed without changing the builder, so two calls with no change between them agree; on a consistent builder every `url<id>`/`file<id>` form key names a layer of the config |
| `Videos.Generate` | src/videos/builder.ts:226-245 | a config, when produced, has no `resolution` and holds the given layers; generation fails exactly when the aspect-ratio collaborator fails or the resolved dimensions are a string that is not a dimension string |
| `Videos.GenerateKeepsOptions` | src/videos/builder.ts:227-244 | a generated config never holds `resolution`, keeps every other option but `hd` unchanged, adds no key but `hd`, keeps `hd` unchanged whenever the resolved dimensions are not a string, and holds the current layers |
| `Videos.ResolutionTakesPrecedence` | src/videos/builder.ts:227-232 | a defined non-string `resolution` is the dimensions, and `hd` passes through unchanged |
| `Videos.ResolutionIgnoresCollaborator` | src/videos/builder.ts:227-232 | when `resolution` is defined (string or not), the config is the same whatever the aspect-ratio collaborator would answer |
| `Videos.AspectRatioFallback` | src/videos/builder.ts:229-232 | with `resolution` undefined the dimensions are what `sizeForAspectRatio(aspectRatio, hd)` returns, and its failure is the generator's failure |
| `Videos.DimensionStringSetsHd` | src/videos/builder.ts:233-237 | for any digit strings `w` and `h` (leading zeros included), the dimension string `"<w>x<h>"` becomes `{width, height}` with their decimal values and `hd` becomes `width >= 1024` |
| `Videos.MalformedDimensionString` | src/videos/builder.ts:233-236 | resolved dimensions that are a string not of the form `"<digits>x<digits>"` yield no config |
| `Videos.FormKeysNameConfigLayers` | src/videos/builder.ts:68-76 | when every form entry is keyed by a layer's id, every entry is keyed by the id of a layer in the generated config |
| `Videos.NewLayerAttributes` | src/videos/builder.ts:53 | a new layer carries the fresh id and its type unless the caller's options carry their own, and keeps every caller option |
| `Videos.AppendFreshKeepsIdsDistinct` | src/videos/builder.ts:52-56 | appending a layer with a fresh id, whose options do not override the id, keeps layer ids pairwise distinct |
| `DimensionStrings.IndexOf` | src/videos/builder.ts:234 | `values[0]` of `split('x')` ends at the first `x`: the index found holds `x` and no earlier character does; none is found exactly when there is no `x` |
| `DimensionStrings.DigitsRoundTrip` | src/videos/builder.ts:235 | the decimal numeral of any n consists of digits and reads back as n |
| `DimensionStrings.Parse` | src/videos/builder.ts:233-235 | a string read as dimensions contains the `x` separator |
| `DimensionStrings.ParseDigits` | src/videos/builder.ts:233-235 | any two digit strings around an `x`, leading zeros included, read as their decimal values |
| `DimensionStrings.ParseAcceptsExactly` | src/videos/builder.ts:233-235 | a string is read as dimensions exactly when it is digits, `x`, digits |
| `DimensionStrings.ParseFormat` | src/videos/builder.ts:233-235 | every `"<w>x<h>"` written from a width and height reads back as that width and height |
| `DimensionStrings.ParseExample` | src/videos/builder.ts:233-235 | `"1280x720"` reads as width 1280 and height 720 |
| `AudioFeature.ClampVolume` | src/features/videos/audio/index.ts:16-22 | the stored volume lies in [0, 1]: above 1 gives 1, below 0 gives 0, in range is unchanged |
| `AudioFeature.SetVolumeOutcome` | src/features/videos/audio/index.ts:11-28 | a missing volume fails with the presence error on `volume`; otherwise the outcome is a volume in [0, 1], the given one when it was in range |
| `LayerValidation.ValidatePresenceOf` | src/features/videos/audio/index.ts:13 | the presence check fails exactly on an undefined value, with the `Required` error for that attribute |
| `AudioFeature.WriteAttribute` | src/features/videos/audio/index.ts:24 | writing an attribute sets that key of that layer and changes no other key and no other layer |
| `AudioFeature.Audio.UpdateAttribute` | src/features/videos/audio/index.ts:24 | the composition's attributes become the store with that one attribute written; returns the layer |
| `AudioFeature.Audio.SetVolume` | src/features/videos/audio/index.ts:11-28 | on success writes only `volume`, with the clamped value, and returns the layer; on a missing volume writes nothing and returns nothing |
| `AudioFeature.Audio.SetMuted` | src/features/videos/audio/index.ts:30-32 | writes volume 0 whatever it was before, touches nothing else, and returns the layer |
| `Filters.ParseWire` | src/constant/filters.ts:1-12 | reading a filter's wire string back gives that filter, and only its wire string reads back to it |
| `Filters.WireInjective` | src/constant/filters.ts:1-12 | the wire strings are pairwise distinct |
| `Filters.AllFilterNamesComplete` | src/constant/filters.ts:1-12 | there are exactly ten filter names, each listed once, with distinct wire strings |
| `Filters.WireIsIdentifierExceptFades` | src/constant/filters.ts:2-11 | `fadeIn` and `fadeOut` are sent as `fadein` and `fadeout`; every other name is sent as its own identifier |
| `Filters.SingleNumericOption` | src/constant/filters.ts:22-47 | brightness, contrast and saturation each take exactly one numeric option whose key is spelled like the filter |
| `Filters.FadeInOptions` | src/constant/filters.ts:30-42 | fade-in takes a string `color` and a numeric `duration` |
| `Filters.NoOptionFilters` | src/constant/filters.ts:39-50 | exactly fadeOut, grayscale, lighten, negative, sobel and vintage take no options |
| `LayerValidation.RunChecks` | src/utils/video/layers/layers.test.ts:33-52 | running n type checks reports at most n errors |
| `LayerValidation.RunChecksEmptyIff` | src/utils/video/layers/layers.test.ts:33-52 | a validator returns `[]` exactly when each checked attribute is absent or of its type |
| `LayerValidation.RunChecksReportsExactlyFailures` | src/utils/video/layers/layers.test.ts:33-52 | every error names a checked attribute whose value fails its type, and every such attribute is reported |
| `LayerValidation.RunChecksReadsOnlyChecked` | src/utils/video/layers/layers.test.ts:33-36 | a validator's result depends only on the attributes it checks |
| `LayerValidation.ValidateLayerBase` | src/utils/video/layers/layers.test.ts:29-53 | checks `start` and `length` as numbers: the result is the `start` error if any followed by the `length` error if any, so `[]` exactly when both are numbers or absent |
| `LayerValidation.ValidateLayerLottie` | src/utils/video/layers/layers.test.ts:56-65 | checks only `data`, as an object: `[]` exactly when it is an object or absent, otherwise one error about `data` |
| `LayerValidation.ValidateLayerTrim` | src/utils/video/layers/layers.test.ts:68-91 | checks `trim.start` and `trim.end` as numbers: the result is the `trim.start` error if any followed by the `trim.end` error if any, each naming a sub-field of `trim` |
| `LayerValidation.ValidateLayerVisualMedia` | src/utils/video/layers/layers.test.ts:93-122 | checks `backgroundColor` and `color` as strings and `x` and `y` as numbers: the result is their errors, if any, in that order, and nothing else |
| `LayerValidation.ValidateHorizontalAlignment` | src/utils/video/layers/layers.test.ts:124-139 | no error exactly for a horizontal alignment value; otherwise one error naming caller, attribute and value and listing every horizontal value in declaration order |
| `LayerValidation.ValidateVerticalAlignment` | src/utils/video/layers/layers.test.ts:156-170 | the same for the vertical alignment values |
| `LayerValidation.ValidateLayerAlignment` | src/utils/video/layers/layers.test.ts:141-170 | at most two errors; `[]` exactly when each alignment is absent or a member of its set |
| `LayerValidation.AlignmentChecksIndependent` | src/utils/video/layers/layers.test.ts:141-170 | each alignment is reported exactly when present and invalid, whatever the other holds; at most two errors |
| `LayerValidation.InvalidHorizontalOnly` | src/utils/video/layers/layers.test.ts:145-154 | an invalid horizontal alignment alone gives exactly one error, listing the horizontal values |
| `LayerValidation.InvalidVerticalOnly` | src/utils/video/layers/layers.test.ts:156-170 | `center` horizontally and an invalid vertical alignment give exactly one error, about vertical |
| `LayerValidation.ValidateLayerText` | src/utils/video/layers/layers.test.ts:173-231 | `[]` exactly when the six typed attributes conform and `textAlign` is absent or a horizontal value; every non-conforming typed attribute is reported, every error reported is one of those or the `textAlign` error, and that error is reported, last, exactly when `textAlign` is present and not a horizontal value |
| `LayerValidation.InvalidTextAlignOnly` | src/utils/video/layers/layers.test.ts:233-252 | with the six attributes in order, an invalid `textAlign` gives exactly one error listing the horizontal values |
| `LayerValidation.TextChecksTable` | src/utils/video/layers/layers.test.ts:182-231 | the text validator type-checks fontFamily and text as strings and fontSize, maxFontSize, maxHeight and maxWidth as numbers, six checks in all |

## Left out

- `encode` (src/videos/builder.ts:176-193) is not modelled. It is HTTP transport: the `Api` client, the multipart encoding, `JSON.stringify` of the config, and re-throwing errors. The `_api` field is left out with it.
- The form is an append-only list of (key, file) pairs, not a multipart body. Keys are kept structurally as `url`/`file` plus the layer's `id` value, without string formatting.
- `uuid` and `sizeForAspectRatio` (src/shared/utils) are not part of this model. Their results are parameters. Freshness of ids is an assumption of `AppendFreshKeepsIdsDistinct`, not something the builder checks.
- Aliasing is not modelled. The `layers` getter and the generated config share the builder's layer array in the source, so a later `add*` is visible through an earlier config. The model works on values, so an earlier config keeps the layers it was generated with.
- `Videos.Generate`, `Videos.MalformedDimensionString`: the model accepts a dimension string only in the form `"<digits>x<digits>"` and reports every other string as a failure. In the source, `split('x')` cuts at every `x`, and `parseInt` skips leading whitespace, accepts a sign and stops at the first non-digit. So strings such as `"1280x720x5"`, `" 1280x720"` or `"1280x720px"` read there as 1280×720 with `hd` true, and other strings give NaN dimensions. The model reports all of them as a failure.
- `Videos.VideoBuilder.constructor`: `options || {}` is modelled as "absent becomes `{}`". Other falsy arguments (`null`, `0`, `''`) are not modelled.
- The JavaScript values `null` and NaN and functions are not modelled. Neither is `typeof null === 'object'`.
- Numbers are exact reals (`JsValues.Num`). The model does not capture double rounding, `Infinity`, or the precision `parseInt` loses on numerals longer than 15 digits.
- AudioFeature.ClampVolume: the [0, 1] bound does not hold for NaN in the source. NaN is a number, so it passes the type check, fails both comparisons and is stored unclamped.
- `AudioFeature.Audio.SetVolume`: the volume is a number or missing. A present non-number value and its type check are not modelled.
- `logValidationError` only logs, so it is left out. The `Media` base class and the composition's other operations are not part of this model. `_updateAttribute` is modelled as a write into the per-layer attribute map.
- The validators' implementation (utils/video/layers/index.ts and utils/validation) is not part of this model. The test file pins which attributes are checked, against which type, and the result for valid input. It never passes an absent or mistyped value. The following are assumptions of this model that the tests do not confirm:
  - An absent (undefined) attribute passes a type check, and requiring presence is a separate check. The "or absent" clauses of `LayerValidation.RunChecksEmptyIff`, `LayerValidation.ValidateLayerBase`, `LayerValidation.ValidateLayerLottie`, `LayerValidation.ValidateLayerTrim`, `LayerValidation.ValidateLayerVisualMedia` and `LayerValidation.ValidateLayerText` depend on this. A type check that reports a missing value as a required-field error would differ there.
  - `LayerValidation.ValidatePresenceOf` treats only undefined as missing. If the source's presence check also rejects other falsy values, `setVolume(0)` would write nothing there, while the model writes 0.
  - A `trim` that is not an object is read as having no sub-fields. In JavaScript, destructuring an undefined `trim` throws.
  - Errors appear in the order each validator lists its attributes.
- The alignment enums (constant) are not part of this model. Their members are taken as `left, center, right` and `top, center, bottom`, in that order. The test itself only shows that `center` is a valid horizontal value.
- `ValidationErrorText` is not part of this model. Errors are structured values, and the message joins `expected` with `', '`.
- `addFilter` does not check options against `Filters.OptionShape`, and neither does the source.
- src/mocks/composition.ts (test fixtures) and the type-only files src/types/clip.ts and src/types/common.ts have no behaviour to model.
