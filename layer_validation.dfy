/**
 * The layer attribute validators. Each takes the caller's name and a layer's
 * attribute bag and returns the list of errors it found, in the order the
 * validator declares its attributes; none of them throws or changes anything.
 */
module LayerValidation {
  import opened Wrappers
  import opened JsValues

  /** A top-level attribute of the layer, or a sub-field such as `trim.start`. */
  datatype Attribute = Field(name: string) | SubField(parent: string, name: string)

  /**
   * A validation failure, kept structurally instead of as message text:
   * `MustBeType` names the caller, the attribute and the offending value, and
   * `expected` lists what was wanted (one type name, or every member of an
   * enum); the message joins that list with ", ". `Required` is the presence
   * check's failure.
   */
  datatype ValidationError =
    | MustBeType(caller: string, attribute: Attribute, value: Value, expected: seq<string>)
    | Required(attribute: Attribute)

  /** One call of the type check: which attribute, against which primitive type. */
  datatype Check = Check(attribute: Attribute, expected: PrimitiveType)

  const HorizontalAlignmentValues: seq<string> := ["left", "center", "right"]
  const VerticalAlignmentValues: seq<string> := ["top", "center", "bottom"]

  const BaseChecks: seq<Check> :=
    [Check(Field("start"), NumberType), Check(Field("length"), NumberType)]
  const LottieChecks: seq<Check> :=
    [Check(Field("data"), ObjectType)]
  const TrimChecks: seq<Check> :=
    [Check(SubField("trim", "start"), NumberType), Check(SubField("trim", "end"), NumberType)]
  const VisualMediaChecks: seq<Check> :=
    [Check(Field("backgroundColor"), StringType), Check(Field("color"), StringType),
     Check(Field("x"), NumberType), Check(Field("y"), NumberType)]
  const TextChecks: seq<Check> :=
    [Check(Field("fontFamily"), StringType), Check(Field("fontSize"), NumberType),
     Check(Field("maxFontSize"), NumberType), Check(Field("maxHeight"), NumberType),
     Check(Field("maxWidth"), NumberType), Check(Field("text"), StringType)]

  /** The value an attribute has in a layer's attribute bag. */
  function Lookup(layer: map<string, Value>, a: Attribute): Value {
    match a
    case Field(k) => Get(layer, k)
    case SubField(p, k) => Get(Fields(Get(layer, p)), k)
  }

  /** An absent attribute passes the type check; a present one must have the type. */
  predicate Conforms(v: Value, t: PrimitiveType) {
    v.Undefined? || TypeOf(v) == t
  }

  function TypeError(caller: string, c: Check, v: Value): ValidationError {
    MustBeType(caller, c.attribute, v, [TypeName(c.expected)])
  }

  function ValidateValueIsOfType(caller: string, c: Check, v: Value): Option<ValidationError> {
    if Conforms(v, c.expected) then None else Some(TypeError(caller, c, v))
  }

  /** The presence check: only an undefined value is missing. */
  function ValidatePresenceOf(a: Attribute, v: Value): (r: Option<ValidationError>)
    ensures r.Some? <==> v.Undefined?
    ensures r.Some? ==> r.value == Required(a)
  {
    if v.Undefined? then Some(Required(a)) else None
  }

  function OptionToSeq<T>(o: Option<T>): seq<T> {
    if o.Some? then [o.value] else []
  }

  /** Runs the type check of every entry of `checks`, in order, collecting the errors. */
  function RunChecks(caller: string, layer: map<string, Value>, checks: seq<Check>): (r: seq<ValidationError>)
    ensures |r| <= |checks|
  {
    if checks == [] then []
    else OptionToSeq(ValidateValueIsOfType(caller, checks[0], Lookup(layer, checks[0].attribute)))
         + RunChecks(caller, layer, checks[1..])
  }

  predicate AllConform(layer: map<string, Value>, checks: seq<Check>) {
    forall i :: 0 <= i < |checks| ==> Conforms(Lookup(layer, checks[i].attribute), checks[i].expected)
  }

  /** No error comes back exactly when every checked attribute is absent or of its type. */
  lemma {:induction false} RunChecksEmptyIff(caller: string, layer: map<string, Value>, checks: seq<Check>)
    ensures RunChecks(caller, layer, checks) == [] <==> AllConform(layer, checks)
  {
    if checks != [] {
      RunChecksEmptyIff(caller, layer, checks[1..]);
      assert forall i :: 1 <= i < |checks| ==> checks[i] == checks[1..][i - 1];
    }
  }

  /**
   * Every error names one checked attribute whose value fails its type, and
   * every failing attribute is reported.
   */
  lemma {:induction false} RunChecksReportsExactlyFailures(caller: string, layer: map<string, Value>, checks: seq<Check>)
    ensures forall e :: e in RunChecks(caller, layer, checks) ==>
      exists i :: 0 <= i < |checks| && !Conforms(Lookup(layer, checks[i].attribute), checks[i].expected)
                  && e == TypeError(caller, checks[i], Lookup(layer, checks[i].attribute))
    ensures forall i :: 0 <= i < |checks| && !Conforms(Lookup(layer, checks[i].attribute), checks[i].expected) ==>
      TypeError(caller, checks[i], Lookup(layer, checks[i].attribute)) in RunChecks(caller, layer, checks)
  {
    if checks != [] {
      RunChecksReportsExactlyFailures(caller, layer, checks[1..]);
      assert forall i :: 1 <= i < |checks| ==> checks[i] == checks[1..][i - 1];
      forall e | e in RunChecks(caller, layer, checks[1..])
        ensures exists i :: 0 <= i < |checks| && !Conforms(Lookup(layer, checks[i].attribute), checks[i].expected)
                  && e == TypeError(caller, checks[i], Lookup(layer, checks[i].attribute))
      {
        var j :| 0 <= j < |checks[1..]| && !Conforms(Lookup(layer, checks[1..][j].attribute), checks[1..][j].expected)
                  && e == TypeError(caller, checks[1..][j], Lookup(layer, checks[1..][j].attribute));
        assert checks[1..][j] == checks[j + 1];
      }
    }
  }

  /** The result depends on the checked attributes only. */
  lemma {:induction false} RunChecksReadsOnlyChecked(caller: string, l1: map<string, Value>, l2: map<string, Value>, checks: seq<Check>)
    requires forall i :: 0 <= i < |checks| ==> Lookup(l1, checks[i].attribute) == Lookup(l2, checks[i].attribute)
    ensures RunChecks(caller, l1, checks) == RunChecks(caller, l2, checks)
  {
    if checks != [] {
      assert forall i :: 1 <= i < |checks| ==> checks[i] == checks[1..][i - 1];
      RunChecksReadsOnlyChecked(caller, l1, l2, checks[1..]);
    }
  }

  /** `validateLayerBase`: `start` and `length` must be numbers. */
  function ValidateLayerBase(caller: string, layer: map<string, Value>): (r: seq<ValidationError>)
    ensures |r| <= 2
    ensures r == [] <==>
      Conforms(Get(layer, "start"), NumberType) && Conforms(Get(layer, "length"), NumberType)
    ensures !Conforms(Get(layer, "start"), NumberType) ==>
      MustBeType(caller, Field("start"), Get(layer, "start"), ["number"]) in r
    ensures !Conforms(Get(layer, "length"), NumberType) ==>
      MustBeType(caller, Field("length"), Get(layer, "length"), ["number"]) in r
    ensures r == OptionToSeq(ValidateValueIsOfType(caller, Check(Field("start"), NumberType), Get(layer, "start")))
               + OptionToSeq(ValidateValueIsOfType(caller, Check(Field("length"), NumberType), Get(layer, "length")))
  {
    RunChecksEmptyIff(caller, layer, BaseChecks);
    RunChecksReportsExactlyFailures(caller, layer, BaseChecks);
    RunChecks(caller, layer, BaseChecks)
  }

  /** `validateLayerLottie`: `data` must be an object. */
  function ValidateLayerLottie(caller: string, layer: map<string, Value>): (r: seq<ValidationError>)
    ensures |r| <= 1
    ensures r == [] <==> Conforms(Get(layer, "data"), ObjectType)
    ensures r != [] ==> r == [MustBeType(caller, Field("data"), Get(layer, "data"), ["object"])]
  {
    RunChecksEmptyIff(caller, layer, LottieChecks);
    RunChecksReportsExactlyFailures(caller, layer, LottieChecks);
    RunChecks(caller, layer, LottieChecks)
  }

  /** `validateLayerTrim`: `trim.start` and `trim.end` must be numbers, reported as sub-fields of `trim`. */
  function ValidateLayerTrim(caller: string, layer: map<string, Value>): (r: seq<ValidationError>)
    ensures |r| <= 2
    ensures r == [] <==>
      Conforms(Get(Fields(Get(layer, "trim")), "start"), NumberType)
      && Conforms(Get(Fields(Get(layer, "trim")), "end"), NumberType)
    ensures forall e :: e in r ==>
      e.MustBeType? && e.attribute in {SubField("trim", "start"), SubField("trim", "end")} && e.expected == ["number"]
    ensures r ==
      OptionToSeq(ValidateValueIsOfType(caller, Check(SubField("trim", "start"), NumberType), Get(Fields(Get(layer, "trim")), "start")))
      + OptionToSeq(ValidateValueIsOfType(caller, Check(SubField("trim", "end"), NumberType), Get(Fields(Get(layer, "trim")), "end")))
  {
    RunChecksEmptyIff(caller, layer, TrimChecks);
    RunChecksReportsExactlyFailures(caller, layer, TrimChecks);
    RunChecks(caller, layer, TrimChecks)
  }

  /** `validateLayerVisualMedia`: colors are strings, coordinates are numbers. */
  function ValidateLayerVisualMedia(caller: string, layer: map<string, Value>): (r: seq<ValidationError>)
    ensures |r| <= 4
    ensures r == [] <==>
      Conforms(Get(layer, "backgroundColor"), StringType) && Conforms(Get(layer, "color"), StringType)
      && Conforms(Get(layer, "x"), NumberType) && Conforms(Get(layer, "y"), NumberType)
    ensures forall e :: e in r ==>
      (e.MustBeType? && e.caller == caller &&
       (e.attribute in {Field("backgroundColor"), Field("color")} ==> e.expected == ["string"]) &&
       (e.attribute in {Field("x"), Field("y")} ==> e.expected == ["number"]) &&
       e.attribute in {Field("backgroundColor"), Field("color"), Field("x"), Field("y")})
    ensures r ==
      OptionToSeq(ValidateValueIsOfType(caller, Check(Field("backgroundColor"), StringType), Get(layer, "backgroundColor")))
      + OptionToSeq(ValidateValueIsOfType(caller, Check(Field("color"), StringType), Get(layer, "color")))
      + OptionToSeq(ValidateValueIsOfType(caller, Check(Field("x"), NumberType), Get(layer, "x")))
      + OptionToSeq(ValidateValueIsOfType(caller, Check(Field("y"), NumberType), Get(layer, "y")))
  {
    VisualMediaUnfold(caller, layer);
    RunChecks(caller, layer, VisualMediaChecks)
  }

  lemma VisualMediaUnfold(caller: string, layer: map<string, Value>)
    ensures RunChecks(caller, layer, VisualMediaChecks) ==
      OptionToSeq(ValidateValueIsOfType(caller, Check(Field("backgroundColor"), StringType), Get(layer, "backgroundColor")))
      + OptionToSeq(ValidateValueIsOfType(caller, Check(Field("color"), StringType), Get(layer, "color")))
      + OptionToSeq(ValidateValueIsOfType(caller, Check(Field("x"), NumberType), Get(layer, "x")))
      + OptionToSeq(ValidateValueIsOfType(caller, Check(Field("y"), NumberType), Get(layer, "y")))
  {
    assert VisualMediaChecks[2..] == [Check(Field("x"), NumberType), Check(Field("y"), NumberType)];
    assert RunChecks(caller, layer, VisualMediaChecks[2..]) ==
      OptionToSeq(ValidateValueIsOfType(caller, Check(Field("x"), NumberType), Get(layer, "x")))
      + OptionToSeq(ValidateValueIsOfType(caller, Check(Field("y"), NumberType), Get(layer, "y")));
  }

  /**
   * The closed-set check behind both alignment validators: a value outside the
   * set yields one error listing the whole set in declaration order.
   */
  function ValidateOneOf(caller: string, a: Attribute, value: Value, valid: seq<string>): Option<ValidationError> {
    if value.Str? && value.s in valid then None else Some(MustBeType(caller, a, value, valid))
  }

  /** `validateHorizontalAlignment`. */
  function ValidateHorizontalAlignment(caller: string, a: Attribute, value: Value): (r: Option<ValidationError>)
    ensures r.None? <==> value in [Str("left"), Str("center"), Str("right")]
    ensures r.Some? ==> r.value.MustBeType? && r.value.caller == caller && r.value.attribute == a
                        && r.value.value == value && r.value.expected == HorizontalAlignmentValues
  {
    ValidateOneOf(caller, a, value, HorizontalAlignmentValues)
  }

  function ValidateVerticalAlignment(caller: string, a: Attribute, value: Value): (r: Option<ValidationError>)
    ensures r.None? <==> value in [Str("top"), Str("center"), Str("bottom")]
    ensures r.Some? ==> r.value.MustBeType? && r.value.caller == caller && r.value.attribute == a
                        && r.value.value == value && r.value.expected == VerticalAlignmentValues
  {
    ValidateOneOf(caller, a, value, VerticalAlignmentValues)
  }

  /** `validateLayerAlignment`: checks whichever of the two alignments is present, horizontal first. */
  function ValidateLayerAlignment(caller: string, layer: map<string, Value>): (r: seq<ValidationError>)
    ensures |r| <= 2
    ensures r == [] <==>
      (Get(layer, "horizontalAlignment").Undefined? || ValidHorizontal(Get(layer, "horizontalAlignment")))
      && (Get(layer, "verticalAlignment").Undefined? || ValidVertical(Get(layer, "verticalAlignment")))
  {
    var h, v := Get(layer, "horizontalAlignment"), Get(layer, "verticalAlignment");
    (if h.Undefined? then [] else OptionToSeq(ValidateHorizontalAlignment(caller, Field("horizontalAlignment"), h)))
    + (if v.Undefined? then [] else OptionToSeq(ValidateVerticalAlignment(caller, Field("verticalAlignment"), v)))
  }

  predicate ValidHorizontal(v: Value) {
    v.Str? && v.s in HorizontalAlignmentValues
  }

  predicate ValidVertical(v: Value) {
    v.Str? && v.s in VerticalAlignmentValues
  }

  /**
   * The two alignment checks are independent: each reports its own attribute
   * exactly when that attribute is present and outside its set, whatever the
   * other one holds.
   */
  lemma AlignmentChecksIndependent(caller: string, layer: map<string, Value>)
    ensures |ValidateLayerAlignment(caller, layer)| <= 2
    ensures (exists e :: e in ValidateLayerAlignment(caller, layer) && e.attribute == Field("horizontalAlignment"))
      <==> !Get(layer, "horizontalAlignment").Undefined? && !ValidHorizontal(Get(layer, "horizontalAlignment"))
    ensures (exists e :: e in ValidateLayerAlignment(caller, layer) && e.attribute == Field("verticalAlignment"))
      <==> !Get(layer, "verticalAlignment").Undefined? && !ValidVertical(Get(layer, "verticalAlignment"))
  {
  }

  /** An invalid horizontal alignment alone yields exactly one error, listing the horizontal values. */
  lemma InvalidHorizontalOnly(caller: string, layer: map<string, Value>)
    requires !Get(layer, "horizontalAlignment").Undefined? && !ValidHorizontal(Get(layer, "horizontalAlignment"))
    requires Get(layer, "verticalAlignment").Undefined?
    ensures ValidateLayerAlignment(caller, layer) ==
      [MustBeType(caller, Field("horizontalAlignment"), Get(layer, "horizontalAlignment"), HorizontalAlignmentValues)]
  {
  }

  /** A valid horizontal alignment and an invalid vertical one yield exactly one error, about vertical. */
  lemma InvalidVerticalOnly(caller: string, layer: map<string, Value>)
    requires ValidHorizontal(Get(layer, "horizontalAlignment"))
    requires !Get(layer, "verticalAlignment").Undefined? && !ValidVertical(Get(layer, "verticalAlignment"))
    ensures ValidateLayerAlignment(caller, layer) ==
      [MustBeType(caller, Field("verticalAlignment"), Get(layer, "verticalAlignment"), VerticalAlignmentValues)]
  {
  }

  /** `validateLayerText`: six typed attributes, then `textAlign` as a horizontal alignment when present. */
  function ValidateLayerText(caller: string, layer: map<string, Value>): (r: seq<ValidationError>)
    ensures |r| <= 7
    ensures r == [] <==>
      (AllConform(layer, TextChecks) &&
       (Get(layer, "textAlign").Undefined? || ValidHorizontal(Get(layer, "textAlign"))))
    ensures forall i :: 0 <= i < |TextChecks| && !Conforms(Lookup(layer, TextChecks[i].attribute), TextChecks[i].expected) ==>
      TypeError(caller, TextChecks[i], Lookup(layer, TextChecks[i].attribute)) in r
    ensures forall e :: e in r ==>
      e == MustBeType(caller, Field("textAlign"), Get(layer, "textAlign"), HorizontalAlignmentValues) ||
      exists i :: 0 <= i < |TextChecks| && !Conforms(Lookup(layer, TextChecks[i].attribute), TextChecks[i].expected)
                  && e == TypeError(caller, TextChecks[i], Lookup(layer, TextChecks[i].attribute))
    ensures MustBeType(caller, Field("textAlign"), Get(layer, "textAlign"), HorizontalAlignmentValues) in r
      <==> (!Get(layer, "textAlign").Undefined? && !ValidHorizontal(Get(layer, "textAlign")))
    ensures MustBeType(caller, Field("textAlign"), Get(layer, "textAlign"), HorizontalAlignmentValues) in r ==>
      r[|r| - 1] == MustBeType(caller, Field("textAlign"), Get(layer, "textAlign"), HorizontalAlignmentValues)
  {
    RunChecksEmptyIff(caller, layer, TextChecks);
    RunChecksReportsExactlyFailures(caller, layer, TextChecks);
    var align := Get(layer, "textAlign");
    var typed := RunChecks(caller, layer, TextChecks);
    assert forall e :: e in typed ==> e.attribute != Field("textAlign");
    typed + (if align.Undefined? then [] else OptionToSeq(ValidateHorizontalAlignment(caller, Field("textAlign"), align)))
  }

  /**
   * With the six typed attributes in order, an invalid `textAlign` yields
   * exactly one error, which lists the horizontal alignment values.
   */
  lemma InvalidTextAlignOnly(caller: string, layer: map<string, Value>)
    requires AllConform(layer, TextChecks)
    requires !Get(layer, "textAlign").Undefined? && !ValidHorizontal(Get(layer, "textAlign"))
    ensures ValidateLayerText(caller, layer) ==
      [MustBeType(caller, Field("textAlign"), Get(layer, "textAlign"), HorizontalAlignmentValues)]
  {
    RunChecksEmptyIff(caller, layer, TextChecks);
  }

  /** The text validator type-checks exactly fontFamily and text as strings and the four sizes as numbers. */
  lemma TextChecksTable()
    ensures |TextChecks| == 6
    ensures forall c :: c in TextChecks && c.expected == StringType <==>
      c in [Check(Field("fontFamily"), StringType), Check(Field("text"), StringType)]
    ensures forall c :: c in TextChecks && c.expected == NumberType <==>
      c in [Check(Field("fontSize"), NumberType), Check(Field("maxFontSize"), NumberType),
            Check(Field("maxHeight"), NumberType), Check(Field("maxWidth"), NumberType)]
  {
  }
}
