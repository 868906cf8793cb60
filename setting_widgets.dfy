/**
 * `convert_pydantic_model_to_chainlit_settings` of
 * src/podflix/utils/chainlit_utils/setting_widgets.py: one Chainlit input widget
 * per field of a pydantic model, chosen from the field's annotation, bounds and
 * choices, plus the `OpenAIChatSettings` model it is used with.
 */
module SettingWidgets {
  import opened Wrappers
  import opened Strings
  import opened PydanticFields

  datatype Widget =
    | Switch(id: string, labelText: string, initial: Value, description: Option<string>)
    | Slider(id: string, labelText: string, initial: Value, min: real, max: real, step: real, description: Option<string>)
    | Select(id: string, labelText: string, initialValue: Value, values: seq<Value>, description: Option<string>)

  datatype ConvertError =
    /** `model_class()` fails: this field has no default. */
    | ModelValidationError(field: string)
    /** `choices[0]` on an empty list of choices. */
    | IndexError

  const DefaultMin: real := -100.0
  const DefaultMax: real := 32000.0
  const FloatStep: real := 0.1
  const IntStep: real := 1.0

  /** `field_name.title()`. */
  function WidgetId(name: string): string {
    Title(name)
  }

  /** The prefix, then the field name with `_` replaced by spaces and title-cased. */
  function WidgetLabel(prefix: string, name: string): string {
    prefix + Title(Replace(name, "_", " "))
  }

  /** The label is the prefix and the id with its underscores shown as spaces. */
  lemma LabelIsSpacedId(prefix: string, name: string)
    ensures WidgetLabel(prefix, name) == prefix + MapChar(WidgetId(name), '_', ' ')
  {
    ReplaceCharIsMapChar(name, '_', ' ');
    TitleMapChar(name, false, '_', ' ');
  }

  /** `min_val` and `max_val` after the metadata loop; `None` is Python's `None`. */
  datatype Bounds = Bounds(minVal: Option<real>, maxVal: Option<real>)

  /** The metadata loop: a constraint with `ge` sets the minimum, otherwise one with `le` sets the maximum. */
  function BoundsOf(metadata: seq<Constraint>): Bounds
    decreases |metadata|
  {
    if metadata == [] then Bounds(None, None)
    else
      var b := BoundsOf(metadata[..|metadata| - 1]);
      var c := metadata[|metadata| - 1];
      if c.hasGe then Bounds(c.ge, b.maxVal)
      else if c.hasLe then Bounds(b.minVal, c.le)
      else b
  }

  /** Whether a constraint sets the maximum: it has `le` and no `ge`. */
  predicate SetsMax(c: Constraint) {
    !c.hasGe && c.hasLe
  }

  /** The minimum is the `ge` of the last constraint that has one. */
  lemma {:induction false} MinIsLastGe(metadata: seq<Constraint>, k: nat)
    requires k < |metadata| && metadata[k].hasGe
    requires forall j :: k < j < |metadata| ==> !metadata[j].hasGe
    ensures BoundsOf(metadata).minVal == metadata[k].ge
    decreases |metadata|
  {
    var init := metadata[..|metadata| - 1];
    if k < |metadata| - 1 {
      assert init[k] == metadata[k];
      assert forall j :: k < j < |init| ==> init[j] == metadata[j];
      MinIsLastGe(init, k);
    }
  }

  /** Without any `ge` the minimum stays `None`. */
  lemma {:induction false} MinWithoutGe(metadata: seq<Constraint>)
    requires forall j :: 0 <= j < |metadata| ==> !metadata[j].hasGe
    ensures BoundsOf(metadata).minVal.None?
    decreases |metadata|
  {
    if metadata != [] {
      var init := metadata[..|metadata| - 1];
      assert forall j :: 0 <= j < |init| ==> init[j] == metadata[j];
      MinWithoutGe(init);
    }
  }

  /** The maximum is the `le` of the last constraint that has `le` but no `ge`. */
  lemma {:induction false} MaxIsLastLe(metadata: seq<Constraint>, k: nat)
    requires k < |metadata| && SetsMax(metadata[k])
    requires forall j :: k < j < |metadata| ==> !SetsMax(metadata[j])
    ensures BoundsOf(metadata).maxVal == metadata[k].le
    decreases |metadata|
  {
    var init := metadata[..|metadata| - 1];
    if k < |metadata| - 1 {
      assert init[k] == metadata[k];
      assert forall j :: k < j < |init| ==> init[j] == metadata[j];
      MaxIsLastLe(init, k);
    }
  }

  /** Without a constraint that sets it, the maximum stays `None`. */
  lemma {:induction false} MaxWithoutLe(metadata: seq<Constraint>)
    requires forall j :: 0 <= j < |metadata| ==> !SetsMax(metadata[j])
    ensures BoundsOf(metadata).maxVal.None?
    decreases |metadata|
  {
    if metadata != [] {
      var init := metadata[..|metadata| - 1];
      assert forall j :: 0 <= j < |init| ==> init[j] == metadata[j];
      MaxWithoutLe(init);
    }
  }

  /** `Field(ge=x, le=y)` gives a slider from `x` to `y`, a bound of 0 included. */
  lemma BoundedField(x: real, y: real)
    ensures BoundsOf([Ge(x), Le(y)]) == Bounds(Some(x), Some(y))
    ensures BoundsOf([Ge(0.0), Le(y)]).minVal.GetOr(DefaultMin) == 0.0
  {
    assert [Ge(x), Le(y)][..1] == [Ge(x)];
    assert [Ge(x)][..0] == [];
    assert [Ge(0.0), Le(y)][..1] == [Ge(0.0)];
    assert [Ge(0.0)][..0] == [];
  }

  /** The value `getattr(settings, field_name)` yields: the field's default. */
  function CurrentValue(f: FieldInfo): Value {
    f.default.GetOr(NoneV)
  }

  /** The widget for one field, no widget, or the error `choices[0]` raises. */
  function WidgetFor(f: FieldInfo, prefix: string): Result<Option<Widget>, ConvertError> {
    var id, labelText := WidgetId(f.name), WidgetLabel(prefix, f.name);
    if f.annotation == BoolType then
      Success(Some(Switch(id, labelText, CurrentValue(f), f.description)))
    else if f.annotation == FloatType || f.annotation == IntType then
      var b := BoundsOf(f.metadata);
      var step := if f.annotation == FloatType then FloatStep else IntStep;
      Success(Some(Slider(id, labelText, CurrentValue(f), b.minVal.GetOr(DefaultMin), b.maxVal.GetOr(DefaultMax), step, f.description)))
    else if f.choices.Some? then
      var choices := f.choices.value;
      if choices == [] then Failure(IndexError)
      else if !choices[0].StrV? then Success(None)
      else Success(Some(Select(id, labelText, CurrentValue(f), choices, f.description)))
    else Success(None)
  }

  /** The mapping from a field to its widget, case by case. */
  lemma WidgetForCases(f: FieldInfo, prefix: string)
    ensures f.annotation == BoolType ==>
      WidgetFor(f, prefix).Success? && WidgetFor(f, prefix).value.Some?
      && WidgetFor(f, prefix).value.value.Switch? && WidgetFor(f, prefix).value.value.initial == CurrentValue(f)
    ensures (f.annotation == FloatType || f.annotation == IntType) ==>
      WidgetFor(f, prefix).Success? && WidgetFor(f, prefix).value.Some? && WidgetFor(f, prefix).value.value.Slider?
      && WidgetFor(f, prefix).value.value.step == (if f.annotation == FloatType then 0.1 else 1.0)
      && (BoundsOf(f.metadata).minVal.Some? ==> WidgetFor(f, prefix).value.value.min == BoundsOf(f.metadata).minVal.value)
      && (BoundsOf(f.metadata).minVal.None? ==> WidgetFor(f, prefix).value.value.min == -100.0)
      && (BoundsOf(f.metadata).maxVal.Some? ==> WidgetFor(f, prefix).value.value.max == BoundsOf(f.metadata).maxVal.value)
      && (BoundsOf(f.metadata).maxVal.None? ==> WidgetFor(f, prefix).value.value.max == 32000.0)
    ensures f.annotation.OtherType? ==>
      (WidgetFor(f, prefix).Failure? <==> f.choices == Some([]))
      && (WidgetFor(f, prefix).Success? && WidgetFor(f, prefix).value.Some? <==>
          f.choices.Some? && f.choices.value != [] && f.choices.value[0].StrV?)
    ensures WidgetFor(f, prefix).Success? && WidgetFor(f, prefix).value.Some? && WidgetFor(f, prefix).value.value.Select? ==>
      WidgetFor(f, prefix).value.value.values == f.choices.value
      && WidgetFor(f, prefix).value.value.initialValue == CurrentValue(f)
    ensures WidgetFor(f, prefix).Success? && WidgetFor(f, prefix).value.Some? ==>
      WidgetFor(f, prefix).value.value.id == WidgetId(f.name) && WidgetFor(f, prefix).value.value.labelText == WidgetLabel(prefix, f.name)
  {
  }

  /**
   * A loop that appends `g(x)` for each `x` in order when it is a value, skips the
   * `x` it gives nothing for and stops at the first error.
   */
  function Collected<T, W, E>(xs: seq<T>, g: T -> Result<Option<W>, E>): Result<seq<W>, E>
    decreases |xs|
  {
    if xs == [] then Success([])
    else
      var init := Collected(xs[..|xs| - 1], g);
      if init.Failure? then init
      else
        match g(xs[|xs| - 1])
        case Failure(e) => Failure(e)
        case Success(None) => init
        case Success(Some(w)) => Success(init.value + [w])
  }

  /** `WidgetFor` with the prefix fixed. */
  function WidgetOf(prefix: string): FieldInfo -> Result<Option<Widget>, ConvertError> {
    (f: FieldInfo) => WidgetFor(f, prefix)
  }

  /** The loop over the fields: widgets in field order, stopping at the first error. */
  function WidgetsFrom(fields: seq<FieldInfo>, prefix: string): Result<seq<Widget>, ConvertError> {
    Collected(fields, WidgetOf(prefix))
  }

  /** The first field without a default, which makes `model_class()` fail. */
  function FirstWithoutDefault(fields: seq<FieldInfo>): (r: Option<string>)
    ensures r.None? <==> forall k :: 0 <= k < |fields| ==> fields[k].default.Some?
    decreases |fields|
  {
    if fields == [] then None
    else if fields[0].default.None? then Some(fields[0].name)
    else FirstWithoutDefault(fields[1..])
  }

  /** `convert_pydantic_model_to_chainlit_settings`: the widget list of `cl.ChatSettings`. */
  function Convert(fields: seq<FieldInfo>, prefix: string): Result<seq<Widget>, ConvertError> {
    match FirstWithoutDefault(fields)
    case Some(name) => Failure(ModelValidationError(name))
    case None => WidgetsFrom(fields, prefix)
  }

  /** Strictly increasing field positions. */
  predicate Increasing(idx: seq<nat>) {
    forall i, j :: 0 <= i < j < |idx| ==> idx[i] < idx[j]
  }

  /** What `Collected` gives comes from distinct inputs, in order, and leaves out no value. */
  lemma {:induction false} CollectedFrom<T, W, E>(xs: seq<T>, g: T -> Result<Option<W>, E>) returns (idx: seq<nat>)
    requires Collected(xs, g).Success?
    ensures var ws := Collected(xs, g).value;
      |idx| == |ws| <= |xs| && Increasing(idx)
      && (forall j :: 0 <= j < |idx| ==> idx[j] < |xs| && g(xs[idx[j]]) == Success(Some(ws[j])))
    ensures forall k :: 0 <= k < |xs| ==> g(xs[k]).Success?
    ensures forall k :: 0 <= k < |xs| && g(xs[k]).value.Some? ==> k in idx
    decreases |xs|
  {
    if xs == [] {
      idx := [];
    } else {
      var n := |xs| - 1;
      var init := xs[..n];
      assert forall k :: 0 <= k < n ==> init[k] == xs[k];
      var prev := CollectedFrom(init, g);
      if g(xs[n]).value.Some? {
        idx := prev + [n];
      } else {
        idx := prev;
      }
    }
  }

  /**
   * The widgets come from distinct fields in declaration order: widget `j` is the
   * widget of field `idx[j]`, and every field that has a widget is among them.
   */
  lemma WidgetsFromFields(fields: seq<FieldInfo>, prefix: string) returns (idx: seq<nat>)
    requires WidgetsFrom(fields, prefix).Success?
    ensures var ws := WidgetsFrom(fields, prefix).value;
      |idx| == |ws| <= |fields| && Increasing(idx)
      && (forall j :: 0 <= j < |idx| ==> idx[j] < |fields| && WidgetFor(fields[idx[j]], prefix) == Success(Some(ws[j])))
    ensures forall k :: 0 <= k < |fields| ==> WidgetFor(fields[k], prefix).Success?
    ensures forall k :: 0 <= k < |fields| && WidgetFor(fields[k], prefix).value.Some? ==> k in idx
  {
    idx := CollectedFrom(fields, WidgetOf(prefix));
  }

  /** `Collected` completes exactly when `g` raises for no input. */
  lemma {:induction false} CollectedSucceeds<T, W, E>(xs: seq<T>, g: T -> Result<Option<W>, E>)
    ensures Collected(xs, g).Success? <==> forall k :: 0 <= k < |xs| ==> g(xs[k]).Success?
    decreases |xs|
  {
    if xs != [] {
      var init := xs[..|xs| - 1];
      assert forall k :: 0 <= k < |init| ==> init[k] == xs[k];
      CollectedSucceeds(init, g);
    }
  }

  /** The loop completes exactly when no field's widget raises. */
  lemma WidgetsFromSucceeds(fields: seq<FieldInfo>, prefix: string)
    ensures WidgetsFrom(fields, prefix).Success? <==>
      forall k :: 0 <= k < |fields| ==> WidgetFor(fields[k], prefix).Success?
  {
    CollectedSucceeds(fields, WidgetOf(prefix));
  }

  /** Once the loop has failed on a prefix, its result is that failure. */
  lemma {:induction false} CollectedFails<T, W, E>(xs: seq<T>, g: T -> Result<Option<W>, E>, n: nat)
    requires n <= |xs| && Collected(xs[..n], g).Failure?
    ensures Collected(xs, g) == Collected(xs[..n], g)
    decreases |xs|
  {
    if n < |xs| {
      var init := xs[..|xs| - 1];
      assert init[..n] == xs[..n];
      CollectedFails(init, g, n);
    } else {
      assert xs[..n] == xs;
    }
  }

  /** The metadata loop, with `min_val` and `max_val` starting at `None`. */
  method ExtractBounds(metadata: seq<Constraint>) returns (minVal: Option<real>, maxVal: Option<real>)
    ensures Bounds(minVal, maxVal) == BoundsOf(metadata)
  {
    minVal, maxVal := None, None;
    var i := 0;
    while i < |metadata|
      invariant i <= |metadata|
      invariant Bounds(minVal, maxVal) == BoundsOf(metadata[..i])
      decreases |metadata| - i
    {
      assert metadata[..i + 1][..i] == metadata[..i];
      var constraint := metadata[i];
      if constraint.hasGe {
        minVal := constraint.ge;
      } else if constraint.hasLe {
        maxVal := constraint.le;
      }
      i := i + 1;
    }
    assert metadata[..i] == metadata;
  }

  /** The body of the field loop for one field. */
  method FieldWidget(f: FieldInfo, prefix: string) returns (r: Result<Option<Widget>, ConvertError>)
    ensures r == WidgetFor(f, prefix)
  {
    var id := WidgetId(f.name);
    var labelText := WidgetLabel(prefix, f.name);
    if f.annotation == BoolType {
      return Success(Some(Switch(id, labelText, CurrentValue(f), f.description)));
    } else if f.annotation == FloatType || f.annotation == IntType {
      var minVal, maxVal := ExtractBounds(f.metadata);
      minVal := if minVal.Some? then minVal else Some(DefaultMin);
      maxVal := if maxVal.Some? then maxVal else Some(DefaultMax);
      var step := if f.annotation == FloatType then FloatStep else IntStep;
      return Success(Some(Slider(id, labelText, CurrentValue(f), minVal.value, maxVal.value, step, f.description)));
    } else if f.choices.Some? {
      var choices := f.choices.value;
      if |choices| == 0 {
        return Failure(IndexError);
      }
      if !choices[0].StrV? {
        return Success(None);
      }
      return Success(Some(Select(id, labelText, CurrentValue(f), choices, f.description)));
    }
    return Success(None);
  }

  /** `convert_pydantic_model_to_chainlit_settings`: instantiate the model, then one pass over its fields. */
  method ConvertPydanticModelToChainlitSettings(fields: seq<FieldInfo>, prefix: string) returns (r: Result<seq<Widget>, ConvertError>)
    ensures r == Convert(fields, prefix)
  {
    var missing := FirstWithoutDefault(fields);
    if missing.Some? {
      return Failure(ModelValidationError(missing.value));
    }
    var chatSettings: seq<Widget> := [];
    var i := 0;
    while i < |fields|
      invariant i <= |fields|
      invariant Collected(fields[..i], WidgetOf(prefix)) == Success(chatSettings)
      decreases |fields| - i
    {
      assert fields[..i + 1][..i] == fields[..i];
      var w := FieldWidget(fields[i], prefix);
      if w.Failure? {
        CollectedFails(fields, WidgetOf(prefix), i + 1);
        return Failure(w.error);
      }
      if w.value.Some? {
        chatSettings := chatSettings + [w.value.value];
      }
      i := i + 1;
    }
    assert fields[..i] == fields;
    r := Success(chatSettings);
  }

  // ---------------------------------------------------------------------------
  // The sample model

  const OpenAIModels := [StrV("gpt-3.5-turbo"), StrV("gpt-4"), StrV("gpt-4o-mini")]

  function ModelField(): FieldInfo {
    WithChoices("model", OtherType("str"), StrV("gpt-4o-mini"), "OpenAI model to use for chat completion", OpenAIModels)
  }

  function StreamingField(): FieldInfo {
    Plain("streaming", BoolType, BoolV(true), "Whether to stream tokens")
  }

  function TemperatureField(): FieldInfo {
    Bounded("temperature", FloatType, RealV(0.7), 0.0, 2.0, "Controls randomness in the output")
  }

  function MaxTokensField(): FieldInfo {
    Bounded("max_tokens", IntType, IntV(2000), 1.0, 32000.0, "Maximum number of tokens to generate")
  }

  function TopPField(): FieldInfo {
    Bounded("top_p", FloatType, RealV(1.0), 0.0, 1.0, "Controls diversity via nucleus sampling")
  }

  function FrequencyPenaltyField(): FieldInfo {
    Bounded("frequency_penalty", FloatType, RealV(0.0), -2.0, 2.0, "Reduces repetition of token sequences")
  }

  function PresencePenaltyField(): FieldInfo {
    Bounded("presence_penalty", FloatType, RealV(0.0), -2.0, 2.0, "Reduces likelihood of repeating information")
  }

  function SeedField(): FieldInfo {
    Bounded("seed", IntType, IntV(-1), -1.0, 4294967295.0, "Random seed for deterministic completions")
  }

  function NField(): FieldInfo {
    Bounded("n", IntType, IntV(1), 1.0, 5.0, "Number of completions to generate")
  }

  function LogitBiasField(): FieldInfo {
    Bounded("logit_bias", IntType, IntV(0), -100.0, 100.0, "Modify likelihood of specific tokens")
  }

  function ResponseFormatField(): FieldInfo {
    Plain("response_format", OtherType("Literal['text', 'json_object']"), StrV("text"), "Format for model responses")
  }

  function ToolsEnabledField(): FieldInfo {
    Plain("tools_enabled", BoolType, BoolV(false), "Enable function calling capability")
  }

  function LogProbsField(): FieldInfo {
    Plain("log_probs", BoolType, BoolV(false), "Return log probabilities of tokens")
  }

  /** The fields of `OpenAIChatSettings`, in declaration order. */
  function OpenAIChatSettingsFields(): seq<FieldInfo> {
    [ ModelField(),
      StreamingField(),
      TemperatureField(),
      MaxTokensField(),
      TopPField(),
      FrequencyPenaltyField(),
      PresencePenaltyField(),
      SeedField(),
      NField(),
      LogitBiasField(),
      ResponseFormatField(),
      ToolsEnabledField(),
      LogProbsField() ]
  }

  /** `get_openai_chat_settings`: the settings of `OpenAIChatSettings`, without a label prefix. */
  function GetOpenAIChatSettings(): Result<seq<Widget>, ConvertError> {
    Convert(OpenAIChatSettingsFields(), "")
  }

  /** Whether a widget result is a slider over `[lo, hi]` in steps of `step`. */
  predicate IsSlider(r: Result<Option<Widget>, ConvertError>, lo: real, hi: real, step: real) {
    r.Success? && r.value.Some? && r.value.value.Slider?
    && r.value.value.min == lo && r.value.value.max == hi && r.value.value.step == step
  }

  /** Whether a widget result is a switch. */
  predicate IsSwitch(r: Result<Option<Widget>, ConvertError>) {
    r.Success? && r.value.Some? && r.value.value.Switch?
  }

  /**
   * The model field becomes a select over the three models, starting at one of
   * them; the `Literal` response format, which has no choices, gets no widget.
   */
  lemma OpenAIChatSettingsChoices(prefix: string)
    ensures WidgetFor(ModelField(), prefix).Success? && WidgetFor(ModelField(), prefix).value.Some?
      && WidgetFor(ModelField(), prefix).value.value.Select?
      && WidgetFor(ModelField(), prefix).value.value.values == OpenAIModels
      && WidgetFor(ModelField(), prefix).value.value.initialValue in OpenAIModels
    ensures WidgetFor(ResponseFormatField(), prefix) == Success(None)
  {
    SelectWidget(ModelField(), prefix);
    assert OpenAIModels[2] == StrV("gpt-4o-mini");
    NoWidget(ResponseFormatField(), prefix);
  }

  /** A field whose first choice is a string becomes a select over its choices. */
  lemma SelectWidget(f: FieldInfo, prefix: string)
    requires f.annotation.OtherType? && f.choices.Some? && f.choices.value != [] && f.choices.value[0].StrV?
    ensures WidgetFor(f, prefix).Success? && WidgetFor(f, prefix).value.Some?
      && WidgetFor(f, prefix).value.value.Select?
      && WidgetFor(f, prefix).value.value.values == f.choices.value
      && WidgetFor(f, prefix).value.value.initialValue == CurrentValue(f)
  {
  }

  /** A field that is neither a flag nor a number and has no choices gets no widget. */
  lemma NoWidget(f: FieldInfo, prefix: string)
    requires f.annotation.OtherType? && f.choices.None?
    ensures WidgetFor(f, prefix) == Success(None)
  {
  }

  /** The three flags become switches. */
  lemma OpenAIChatSettingsSwitches(prefix: string)
    ensures IsSwitch(WidgetFor(StreamingField(), prefix))
    ensures IsSwitch(WidgetFor(ToolsEnabledField(), prefix))
    ensures IsSwitch(WidgetFor(LogProbsField(), prefix))
  {
  }

  /** The bounded sampling parameters become sliders over their bounds. */
  lemma OpenAIChatSettingsSamplingSliders(prefix: string)
    ensures IsSlider(WidgetFor(TemperatureField(), prefix), 0.0, 2.0, 0.1)
    ensures IsSlider(WidgetFor(TopPField(), prefix), 0.0, 1.0, 0.1)
    ensures IsSlider(WidgetFor(FrequencyPenaltyField(), prefix), -2.0, 2.0, 0.1)
    ensures IsSlider(WidgetFor(PresencePenaltyField(), prefix), -2.0, 2.0, 0.1)
  {
    BoundedField(0.0, 2.0);
    BoundedField(0.0, 1.0);
    BoundedField(-2.0, 2.0);
  }

  /** The bounded integer parameters become sliders over their bounds in steps of 1. */
  lemma OpenAIChatSettingsIntegerSliders(prefix: string)
    ensures IsSlider(WidgetFor(MaxTokensField(), prefix), 1.0, 32000.0, 1.0)
    ensures IsSlider(WidgetFor(SeedField(), prefix), -1.0, 4294967295.0, 1.0)
    ensures IsSlider(WidgetFor(NField(), prefix), 1.0, 5.0, 1.0)
    ensures IsSlider(WidgetFor(LogitBiasField(), prefix), -100.0, 100.0, 1.0)
  {
    BoundedField(1.0, 32000.0);
    BoundedField(-1.0, 4294967295.0);
    BoundedField(1.0, 5.0);
    BoundedField(-100.0, 100.0);
  }

  /**
   * The conversion fails exactly when a field has no default or a field that is
   * neither a flag nor a number has an empty list of choices.
   */
  lemma ConvertSucceedsIff(fields: seq<FieldInfo>, prefix: string)
    ensures Convert(fields, prefix).Success? <==>
      forall k :: 0 <= k < |fields| ==>
        fields[k].default.Some? && !(fields[k].annotation.OtherType? && fields[k].choices == Some([]))
    ensures FirstWithoutDefault(fields).Some? ==> Convert(fields, prefix) == Failure(ModelValidationError(FirstWithoutDefault(fields).value))
  {
    WidgetsFromSucceeds(fields, prefix);
    forall k | 0 <= k < |fields|
      ensures WidgetFor(fields[k], prefix).Success? <==>
        !(fields[k].annotation.OtherType? && fields[k].choices == Some([]))
    {
      WidgetForFails(fields[k], prefix);
    }
  }

  /** Only a field with an empty list of choices makes the widget mapping fail. */
  lemma WidgetForFails(f: FieldInfo, prefix: string)
    ensures WidgetFor(f, prefix).Failure? <==> f.annotation.OtherType? && f.choices == Some([])
  {
  }
}
