/**
 * The closed set of filter names, their wire strings, and the option shape each
 * filter name expects (src/constant/filters.ts).
 */
module Filters {
  import opened Wrappers
  import opened JsValues

  datatype FilterName =
    | Brightness | Contrast | FadeIn | FadeOut | Grayscale
    | Lighten | Negative | Saturation | Sobel | Vintage

  /** The enum members in declaration order. */
  const AllFilterNames: seq<FilterName> :=
    [Brightness, Contrast, FadeIn, FadeOut, Grayscale, Lighten, Negative, Saturation, Sobel, Vintage]

  /** The member's name as written in the enum declaration. */
  function Identifier(name: FilterName): string {
    match name
    case Brightness => "brightness"
    case Contrast => "contrast"
    case FadeIn => "fadeIn"
    case FadeOut => "fadeOut"
    case Grayscale => "grayscale"
    case Lighten => "lighten"
    case Negative => "negative"
    case Saturation => "saturation"
    case Sobel => "sobel"
    case Vintage => "vintage"
  }

  /** The string value a filter name is sent as. */
  function Wire(name: FilterName): string {
    match name
    case Brightness => "brightness"
    case Contrast => "contrast"
    case FadeIn => "fadein"
    case FadeOut => "fadeout"
    case Grayscale => "grayscale"
    case Lighten => "lighten"
    case Negative => "negative"
    case Saturation => "saturation"
    case Sobel => "sobel"
    case Vintage => "vintage"
  }

  /** Reverse lookup of the enum by value. */
  function ParseFilterName(s: string): (r: Option<FilterName>) {
    if s == "brightness" then Some(Brightness)
    else if s == "contrast" then Some(Contrast)
    else if s == "fadein" then Some(FadeIn)
    else if s == "fadeout" then Some(FadeOut)
    else if s == "grayscale" then Some(Grayscale)
    else if s == "lighten" then Some(Lighten)
    else if s == "negative" then Some(Negative)
    else if s == "saturation" then Some(Saturation)
    else if s == "sobel" then Some(Sobel)
    else if s == "vintage" then Some(Vintage)
    else None
  }

  datatype FilterKey = BrightnessKey | ColorKey | ContrastKey | DurationKey | SaturationKey

  function KeyWire(key: FilterKey): string {
    match key
    case BrightnessKey => "brightness"
    case ColorKey => "color"
    case ContrastKey => "contrast"
    case DurationKey => "duration"
    case SaturationKey => "saturation"
  }

  /**
   * The `FilterOptions` table: the option object a filter takes, as key to
   * primitive type, or None where the table says `undefined`.
   */
  function OptionShape(name: FilterName): Option<map<FilterKey, PrimitiveType>> {
    match name
    case Brightness => Some(map[BrightnessKey := NumberType])
    case Contrast => Some(map[ContrastKey := NumberType])
    case FadeIn => Some(map[ColorKey := StringType, DurationKey := NumberType])
    case Saturation => Some(map[SaturationKey := NumberType])
    case FadeOut => None
    case Grayscale => None
    case Lighten => None
    case Negative => None
    case Sobel => None
    case Vintage => None
  }

  /** Reading a wire string back gives the filter, and only wire strings read back. */
  lemma ParseWire(name: FilterName, s: string)
    ensures ParseFilterName(Wire(name)) == Some(name)
    ensures ParseFilterName(s) == Some(name) ==> Wire(name) == s
  {
  }

  /** The ten wire strings are pairwise distinct. */
  lemma WireInjective(a: FilterName, b: FilterName)
    ensures Wire(a) == Wire(b) ==> a == b
  {
  }

  /** There are exactly ten filter names, each listed once. */
  lemma AllFilterNamesComplete(name: FilterName)
    ensures |AllFilterNames| == 10
    ensures name in AllFilterNames
    ensures forall i, j :: 0 <= i < j < |AllFilterNames| ==> Wire(AllFilterNames[i]) != Wire(AllFilterNames[j])
  {
  }

  /** Only the two fade filters are sent under a spelling other than their identifier. */
  lemma WireIsIdentifierExceptFades(name: FilterName)
    ensures Wire(FadeIn) == "fadein" && Wire(FadeOut) == "fadeout"
    ensures Wire(name) == Identifier(name) <==> name != FadeIn && name != FadeOut
  {
  }

  /** Brightness, contrast and saturation take one numeric option named like the filter. */
  lemma SingleNumericOption(name: FilterName)
    requires name == Brightness || name == Contrast || name == Saturation
    ensures OptionShape(name).Some?
    ensures |OptionShape(name).value| == 1
    ensures forall k :: k in OptionShape(name).value ==> KeyWire(k) == Wire(name) && OptionShape(name).value[k] == NumberType
  {
  }

  /** Fade-in takes a string color and a numeric duration. */
  lemma FadeInOptions()
    ensures OptionShape(FadeIn) == Some(map[ColorKey := StringType, DurationKey := NumberType])
    ensures KeyWire(ColorKey) == "color" && KeyWire(DurationKey) == "duration"
  {
  }

  /** Exactly six filters take no options. */
  lemma NoOptionFilters(name: FilterName)
    ensures OptionShape(name).None? <==>
      name in [FadeOut, Grayscale, Lighten, Negative, Sobel, Vintage]
  {
  }
}
