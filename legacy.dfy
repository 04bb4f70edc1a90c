/** app.js, the first generation of the app, kept beside main.js: a simpler result shape
    (`{value, extras}`), a stricter input check without select or partial exemptions, a fixed
    message for every throw, and its own history text. Its state operations are those of main.js
    over the same shared functions. */
module Legacy {
  import opened Wrappers
  import opened JsMath
  import opened Seqs
  import opened Utils
  import opened TemplateShape
  import opened Registry
  import opened History
  import opened Listing
  import opened WorkArea
  import opened Shell

  /** The v1 normalised result. */
  datatype NormalizedV1 = NormalizedV1(value: Num, extras: seq<RawEntry>)

  /** v1 `normalizeComputeResult(raw)`: a number has no extras; an object with a numeric value keeps its
      extras when they are an array; anything else is NaN. */
  function NormalizeV1(raw: RawOutput): NormalizedV1 {
    match raw
    case NumberOut(x) => NormalizedV1(x, [])
    case ObjectOut(_, v, _, extras) =>
      if v.Some? then NormalizedV1(v.value, extras.GetOr([])) else NormalizedV1(NonFinite, [])
    case OtherOut => NormalizedV1(NonFinite, [])
  }

  /** main.js's normalisation extends v1's: for every output without a numeric primary it gives v1's value
      under the default label and unit, followed by v1's extras. */
  lemma NormalizedExtendsV1(raw: RawOutput, res: ResultSpec)
    requires !HasNumericPrimary(raw)
    ensures Normalized(raw, res) == [Entry(res.caption, NormalizeV1(raw).value, res.unit)] + Map(NormalizeV1(raw).extras, EntryOf)
  {
  }

  /** v1 ignores `primary` and `others`: two outputs differing only there normalise alike. */
  lemma NormalizeV1IgnoresPrimary(raw: RawOutput, p: Option<RawEntry>, o: Option<seq<RawEntry>>)
    requires raw.ObjectOut?
    ensures NormalizeV1(raw.(primary := p, others := o)) == NormalizeV1(raw)
  {
  }

  function IsFiniteExtra(e: RawEntry): bool {
    e.value.Some? && e.value.value.Finite?
  }

  /** One extra as `label=value unit`, trimmed; a missing label prints as "undefined", a missing unit as "". */
  function ExtraLine(show: real -> string): RawEntry -> string {
    (e: RawEntry) => Trim(e.caption.GetOr("undefined") + "=" + FormatNum(e.value.GetOr(NonFinite), show) + " " + e.unit.GetOr(""))
  }

  /** `extrasToText(extras)` */
  function ExtrasToText(extras: seq<RawEntry>, show: real -> string): string {
    if |extras| == 0 then ""
    else Join(Map(Filter(extras, IsFiniteExtra), ExtraLine(show)), " / ")
  }

  /** A line always keeps its "=". */
  lemma ExtraLineNonEmpty(e: RawEntry, show: real -> string)
    ensures ExtraLine(show)(e) != ""
  {
    var line := e.caption.GetOr("undefined") + "=" + FormatNum(e.value.GetOr(NonFinite), show) + " " + e.unit.GetOr("");
    assert line[|e.caption.GetOr("undefined")|] == '=';
    TrimSpec(line);
  }

  /** The text is empty exactly when no extra has a finite value; when every extra is finite it is their
      lines, in order, joined by " / ". */
  lemma ExtrasToTextSpec(extras: seq<RawEntry>, show: real -> string)
    ensures ExtrasToText(extras, show) == "" <==> forall i :: 0 <= i < |extras| ==> !IsFiniteExtra(extras[i])
    ensures (forall i :: 0 <= i < |extras| ==> IsFiniteExtra(extras[i])) ==>
      ExtrasToText(extras, show) == Join(Map(extras, ExtraLine(show)), " / ")
  {
    var kept := Filter(extras, IsFiniteExtra);
    if |kept| > 0 {
      ExtraLineNonEmpty(kept[0], show);
      JoinNonEmpty(Map(kept, ExtraLine(show)), " / ");
    }
    if forall i :: 0 <= i < |extras| ==> IsFiniteExtra(extras[i]) {
      FilterKeepsAll(extras, IsFiniteExtra);
    }
  }

  /** v1 `computeTemplate`'s result. */
  datatype ComputedV1 = ComputedV1(value: Num, extras: seq<RawEntry>, error: string)

  function FailedV1(msg: string): ComputedV1 {
    ComputedV1(NonFinite, [], msg)
  }

  /** Some input, of any kind, does not hold a finite number. */
  predicate LacksAnyInput(t: Template, nums: Inputs) {
    exists i :: 0 <= i < |t.inputs| && !IsFinite(nums, t.inputs[i].key)
  }

  /** v1 `computeTemplate(t, nums)` */
  function EvaluateV1(t: Template, nums: Inputs): ComputedV1 {
    if LacksAnyInput(t, nums) then FailedV1(MSG_MISSING)
    else match t.compute(nums)
      case Threw(_) => FailedV1(MSG_ERROR)
      case Returned(raw) =>
        var norm := NormalizeV1(raw);
        if norm.value.Finite? then ComputedV1(norm.value, norm.extras, "") else FailedV1(MSG_INVALID)
  }

  /** The v1 contract: every input must be finite, partial or select notwithstanding, and compute is then
      not consulted; a throw always gives "計算エラー" whatever its message; a non-finite value gives
      "計算結果が不正です…"; the error is empty exactly when the value is finite. */
  lemma EvaluateV1Spec(t: Template, nums: Inputs)
    ensures EvaluateV1(t, nums).error == "" <==> EvaluateV1(t, nums).value.Finite?
    ensures EvaluateV1(t, nums).error != "" ==> EvaluateV1(t, nums).extras == []
    ensures LacksAnyInput(t, nums) ==>
      forall f, partial :: EvaluateV1(t.(compute := f, partial := partial), nums) == FailedV1(MSG_MISSING)
    ensures !LacksAnyInput(t, nums) && t.compute(nums).Threw? ==> EvaluateV1(t, nums) == FailedV1(MSG_ERROR)
    ensures !LacksAnyInput(t, nums) && t.compute(nums).Returned? ==>
      (EvaluateV1(t, nums).error == MSG_INVALID <==> NormalizeV1(t.compute(nums).raw).value.NonFinite?)
  {
  }

  /** v1 `computeTemplate` as it runs: the loop over every input with its early return, then compute. */
  method ComputeTemplateV1(t: Template, nums: Inputs) returns (c: ComputedV1)
    ensures c == EvaluateV1(t, nums)
  {
    var i := 0;
    while i < |t.inputs|
      invariant 0 <= i <= |t.inputs|
      invariant forall j :: 0 <= j < i ==> IsFinite(nums, t.inputs[j].key)
    {
      if !IsFinite(nums, t.inputs[i].key) {
        return ComputedV1(NonFinite, [], MSG_MISSING);
      }
      i := i + 1;
    }
    match t.compute(nums)
    case Threw(_) =>
      c := ComputedV1(NonFinite, [], MSG_ERROR);
    case Returned(raw) =>
      var norm := NormalizeV1(raw);
      if !norm.value.Finite? {
        c := ComputedV1(NonFinite, [], MSG_INVALID);
      } else {
        c := ComputedV1(norm.value, norm.extras, "");
      }
  }

  /** A strict main.js template that has only text inputs and returns a plain number or a `{value, extras}`
      object is judged alike by both generations: they fail or succeed together, with the same message,
      and the first value of main.js's list is v1's value. */
  lemma GenerationsAgree(t: Template, nums: Inputs)
    requires !t.partial && forall i :: 0 <= i < |t.inputs| ==> !t.inputs[i].isSelect
    requires t.compute(nums).Returned? ==> !HasNumericPrimary(t.compute(nums).raw)
    requires t.compute(nums).Threw? ==> t.compute(nums).message == ""
    ensures Evaluate(t, nums).error == EvaluateV1(t, nums).error
    ensures Evaluate(t, nums).values[0].value == EvaluateV1(t, nums).value
  {
    if !LacksAnyInput(t, nums) && t.compute(nums).Returned? {
      NormalizedExtendsV1(t.compute(nums).raw, t.result);
    }
    if LacksAnyInput(t, nums) {
      var i :| 0 <= i < |t.inputs| && !IsFinite(nums, t.inputs[i].key);
      assert !t.inputs[i].isSelect;
    }
  }

  /** Where the generations part: a throw that carries a message, with every input given. main.js shows
      the message itself, v1 always shows "計算エラー". */
  lemma GenerationsSplitOnMessage(t: Template, nums: Inputs)
    requires !t.partial && !LacksAnyInput(t, nums)
    requires t.compute(nums).Threw? && t.compute(nums).message != ""
    ensures Evaluate(t, nums).error == t.compute(nums).message
    ensures EvaluateV1(t, nums).error == MSG_ERROR
    ensures MSG_ERROR != t.compute(nums).message ==> Evaluate(t, nums).error != EvaluateV1(t, nums).error
  {
    EvaluateSpec(t, nums);
  }

  /** v1 `w_pipe`: Di = D − 2t, and NaN when Di < 0 (NaN too when an operand is not a number). */
  function PipeV1Compute(v: Inputs): CallOutcome {
    if !AllFinite(v, ["D", "t", "L", "rho"]) then Returned(NumberOut(NonFinite))
    else
      var d, t, len, rho := Val(v, "D"), Val(v, "t"), Val(v, "L"), Val(v, "rho");
      var di := d - 2.0 * t;
      if di < 0.0 then Returned(NumberOut(NonFinite))
      else Returned(NumberOut(Finite(PI * (d * d - di * di) / 4.0 * len * 0.000000001 * (rho * 1000.0))))
  }

  /** The v1 `w_pipe` template; `densityText` is `String(densityDefault)`. */
  function PipeTemplateV1(densityText: string): Template {
    Template("w_pipe", GROUP_ORDER[0], "パイプ重量（kg）", "外径D, 肉厚t, 長さL, 比重ρ → 重量（中空円柱）", ["配管"], false,
      [NumberInput("D", "外径 D (mm)"), NumberInput("t", "肉厚 t (mm)"), NumberInput("L", "長さ L (mm)"),
       NumberInputWithDefault("rho", "比重 ρ", densityText)],
      ResultSpec("重量", "kg"), PipeV1Compute)
  }

  /** With every input given, a wall thicker than the radius (D − 2t < 0) is reported by the generic layer
      as an invalid result, and any other wall gives a finite weight. */
  lemma PipeV1Guard(densityText: string, v: Inputs)
    requires AllFinite(v, ["D", "t", "L", "rho"])
    ensures var c := EvaluateV1(PipeTemplateV1(densityText), v);
      (c.error == MSG_INVALID <==> Val(v, "D") - 2.0 * Val(v, "t") < 0.0) && (c.error == "" <==> Val(v, "D") - 2.0 * Val(v, "t") >= 0.0)
  {
    var t := PipeTemplateV1(densityText);
    assert IsFinite(v, "D") && IsFinite(v, "t") && IsFinite(v, "L") && IsFinite(v, "rho") by {
      assert ["D", "t", "L", "rho"][0] == "D" && ["D", "t", "L", "rho"][1] == "t";
      assert ["D", "t", "L", "rho"][2] == "L" && ["D", "t", "L", "rho"][3] == "rho";
    }
    assert !LacksAnyInput(t, v);
  }

  /** The v1 history text: the value with its unit, then " / " and the extras when there are any. */
  function ResultTextV1(c: ComputedV1, unit: string, show: real -> string): string {
    var main := Trim(FormatNum(c.value, show) + " " + unit);
    var extraText := ExtrasToText(c.extras, show);
    if extraText != "" then main + " / " + extraText else main
  }

  /** The controls v1 reads: only `<input>` elements, never a `<select>`. */
  function IsTextInput(c: Control): bool { !c.isSelect }

  /** The state of app.js. */
  class LegacyApp {
    var templates: seq<Template>
    var favs: set<string>
    var history: seq<Record>
    var lastInputs: map<string, map<string, string>>
    var currentTemplate: Option<Template>
    var favOnly: bool

    /** Start-up with the catalogue of `templatesFactory()` and the stored state. */
    constructor (catalogue: seq<Template>, storedFavs: seq<string>, storedHistory: seq<Record>,
                 storedLastInputs: map<string, map<string, string>>)
      ensures templates == catalogue
      ensures favs == set i | 0 <= i < |storedFavs| :: storedFavs[i]
      ensures history == storedHistory && lastInputs == storedLastInputs
      ensures currentTemplate.None? && !favOnly
    {
      templates := catalogue;
      favs := set i | 0 <= i < |storedFavs| :: storedFavs[i];
      history := storedHistory;
      lastInputs := storedLastInputs;
      currentTemplate := None;
      favOnly := false;
    }

    /** `toggleFav(id)` */
    method ToggleFav(id: string)
      modifies this`favs
      ensures favs == Toggled(old(favs), id)
    {
      if id in favs {
        favs := favs - {id};
      } else {
        favs := favs + {id};
      }
    }

    /** `renderList()`, grouped under its own copy of the group order, equal to templates/index.js's. The
        body is the same as Shell.App.RenderList's because app.js repeats main.js's function. */
    method RenderList(search: string, lower: string -> string) returns (sections: seq<Section>)
      ensures sections == Sections(templates, lower(search), favOnly, favs, lower)
    {
      sections := RenderSections(templates, lower(search), favOnly, favs, lower);
    }

    /** `openTemplate(id)` */
    method OpenTemplate(id: string) returns (fields: Option<seq<string>>)
      modifies this`currentTemplate
      ensures Find(templates, id).None? ==> fields.None? && currentTemplate == old(currentTemplate)
      ensures Find(templates, id).Some? ==>
        currentTemplate == Find(templates, id) && fields == Some(Prefill(Find(templates, id).value, lastInputs))
    {
      var t := Find(templates, id);
      if t.None? {
        return None;
      }
      currentTemplate := t;
      fields := Some(Prefill(t.value, lastInputs));
    }

    /** `saveLastInputs(t)`: only the text inputs are read. */
    method SaveLastInputs(t: Template, controls: seq<Control>)
      modifies this`lastInputs
      ensures lastInputs == old(lastInputs)[t.id := LastWins(Filter(controls, IsTextInput), KeyOf, ValueOf)]
    {
      var saved := CollectLastInputs(Filter(controls, IsTextInput));
      lastInputs := lastInputs[t.id := saved];
    }

    /** The reset button. */
    method Reset(t: Template) returns (fields: Option<seq<string>>)
      modifies this`lastInputs, this`currentTemplate
      ensures lastInputs == old(lastInputs)[t.id := ResetMap(t.inputs)]
      ensures Find(templates, t.id).None? ==> fields.None? && currentTemplate == old(currentTemplate)
      ensures Find(templates, t.id).Some? ==>
        currentTemplate == Find(templates, t.id) && fields == Some(Prefill(Find(templates, t.id).value, lastInputs))
      ensures Find(templates, t.id).Some? && Find(templates, t.id).value.inputs == t.inputs && KeysDistinct(t.inputs) ==>
        fields == Some(Map(t.inputs, DefaultText))
    {
      var reset := BuildResetMap(t.inputs);
      lastInputs := lastInputs[t.id := reset];
      fields := OpenTemplate(t.id);
      if Find(templates, t.id).Some? && KeysDistinct(t.inputs) {
        PrefillAfterReset(t, old(lastInputs));
        assert Find(templates, t.id).value.id == t.id;
      }
    }

    /** The v1 save button: refused exactly when the value is not finite; otherwise the record goes in
        front and the history is cut to 200. */
    method SaveToHistory(t: Template, controls: seq<Control>, parse: string -> Num, show: real -> string,
                         id: string, at: string) returns (saved: bool)
      modifies this`history
      ensures var p := PayloadOf(parse, Filter(controls, IsTextInput)); var c := EvaluateV1(t, p.nums);
        && (saved <==> c.value.Finite?)
        && history == if saved then Pushed(old(history), Record(id, at, t.id, t.title, p.raw, ResultTextV1(c, t.result.unit, show)))
                      else old(history)
    {
      var payload := CollectInputPayload(parse, Filter(controls, IsTextInput));
      var computed := ComputeTemplateV1(t, payload.nums);
      if !computed.value.Finite? {
        return false;
      }
      var main := Trim(FormatNum(computed.value, show) + " " + t.result.unit);
      var extraText := ExtrasToText(computed.extras, show);
      var resultText := if extraText != "" then main + " / " + extraText else main;
      var rec := Record(id, at, t.id, t.title, payload.raw, resultText);
      history := [rec] + history;
      history := history[..Min(|history|, HISTORY_CAP)];
      saved := true;
    }

    /** The delete button of one history item. */
    method DeleteHistory(id: string)
      modifies this`history
      ensures history == Removed(old(history), id)
    {
      history := Filter(history, KeepsOtherIds(id));
    }

    /** The clear button. */
    method ClearHistory()
      modifies this`history
      ensures history == []
    {
      history := [];
    }
  }
}
