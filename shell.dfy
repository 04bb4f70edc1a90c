/** main.js, the current app: the generic compute layer (result normalisation and the input
    sufficiency check) and the app state with the operations that change it. Rendering, toasts,
    the clipboard, localStorage and the service worker are not modelled; the values they would
    store are the fields of App. */
module Shell {
  import opened Wrappers
  import opened JsMath
  import opened Seqs
  import opened Utils
  import opened TemplateShape
  import opened Registry
  import opened History
  import opened Listing
  import opened WorkArea

  const MSG_MISSING := "未入力/数値でない項目があります"
  const MSG_INVALID := "計算結果が不正です（入力値を確認）"
  const MSG_ERROR := "計算エラー"

  /** An entry of `others` or `extras`: a missing label or unit becomes "". */
  function EntryOf(o: RawEntry): Entry {
    Entry(o.caption.GetOr(""), o.value.GetOr(NonFinite), o.unit.GetOr(""))
  }

  /** The single NaN entry with the template's default label and unit. */
  function NaNEntry(res: ResultSpec): Entry {
    Entry(res.caption, NonFinite, res.unit)
  }

  /** `raw.primary && typeof raw.primary.value === "number"` */
  predicate HasNumericPrimary(raw: RawOutput) {
    raw.ObjectOut? && raw.primary.Some? && raw.primary.value.value.Some?
  }

  /** `normalizeComputeResult(raw, templateResult)`: the ordered result list for each shape of raw output. */
  function Normalized(raw: RawOutput, res: ResultSpec): seq<Entry> {
    match raw
    case NumberOut(x) => [Entry(res.caption, x, res.unit)]
    case OtherOut => [NaNEntry(res)]
    case ObjectOut(p, v, others, extras) =>
      if HasNumericPrimary(raw) then
        [Entry(p.value.caption.GetOr(res.caption), p.value.value.value, p.value.unit.GetOr(res.unit))]
          + Map(others.GetOr([]), EntryOf)
      else if v.Some? then
        [Entry(res.caption, v.value, res.unit)] + Map(extras.GetOr([]), EntryOf)
      else [NaNEntry(res)]
  }

  /** The list is never empty. A number gives one entry with the default label and unit; a numeric
      primary wins over value and extras (which are then ignored) and is followed by the others, its
      label and unit defaulting to the template's; otherwise a numeric value is followed by the extras;
      any other shape gives the single NaN entry. Entries of others and extras keep their order. */
  lemma NormalizedSpec(raw: RawOutput, res: ResultSpec)
    ensures |Normalized(raw, res)| > 0
    ensures raw.NumberOut? ==> Normalized(raw, res) == [Entry(res.caption, raw.x, res.unit)]
    ensures HasNumericPrimary(raw) ==>
      var p := raw.primary.value;
      && Normalized(raw, res)[0] == Entry(p.caption.GetOr(res.caption), p.value.value, p.unit.GetOr(res.unit))
      && |Normalized(raw, res)| == 1 + (if raw.others.Some? then |raw.others.value| else 0)
      && (forall i :: 0 <= i < |raw.others.GetOr([])| ==> Normalized(raw, res)[i + 1] == EntryOf(raw.others.value[i]))
      && (forall v, e :: Normalized(raw.(value := v, extras := e), res) == Normalized(raw, res))
    ensures raw.ObjectOut? && !HasNumericPrimary(raw) && raw.value.Some? ==>
      && Normalized(raw, res)[0] == Entry(res.caption, raw.value.value, res.unit)
      && |Normalized(raw, res)| == 1 + (if raw.extras.Some? then |raw.extras.value| else 0)
      && (forall i :: 0 <= i < |raw.extras.GetOr([])| ==> Normalized(raw, res)[i + 1] == EntryOf(raw.extras.value[i]))
    ensures (raw.OtherOut? || (raw.ObjectOut? && !HasNumericPrimary(raw) && raw.value.None?)) ==>
      Normalized(raw, res) == [NaNEntry(res)]
  {
  }

  /** `normalizeComputeResult` as it runs, pushing the entries of others or extras one by one. */
  method NormalizeComputeResult(raw: RawOutput, res: ResultSpec) returns (values: seq<Entry>)
    ensures values == Normalized(raw, res)
  {
    if raw.NumberOut? {
      return [Entry(res.caption, raw.x, res.unit)];
    }
    var list: seq<RawEntry>;
    if HasNumericPrimary(raw) {
      var p := raw.primary.value;
      values := [Entry(p.caption.GetOr(res.caption), p.value.value, p.unit.GetOr(res.unit))];
      list := if raw.others.Some? then raw.others.value else [];
    } else if raw.ObjectOut? && raw.value.Some? {
      values := [Entry(res.caption, raw.value.value, res.unit)];
      list := if raw.extras.Some? then raw.extras.value else [];
    } else {
      return [NaNEntry(res)];
    }
    var head := values;
    var i := 0;
    while i < |list|
      invariant 0 <= i <= |list|
      invariant values == head + Map(list[..i], EntryOf)
    {
      var o := list[i];
      values := values + [Entry(o.caption.GetOr(""), o.value.GetOr(NonFinite), o.unit.GetOr(""))];
      assert list[..i + 1] == list[..i] + [o];
      MapConcat(list[..i], [o], EntryOf);
      i := i + 1;
    }
    assert list[..i] == list;
  }

  /** `computeTemplate`'s result: the values and the error text ("" on success). */
  datatype Computed = Computed(values: seq<Entry>, error: string)

  function Failed(res: ResultSpec, msg: string): Computed {
    Computed([NaNEntry(res)], msg)
  }

  /** Some non-select input does not hold a finite number. */
  predicate LacksInput(t: Template, nums: Inputs) {
    exists i :: 0 <= i < |t.inputs| && !t.inputs[i].isSelect && !IsFinite(nums, t.inputs[i].key)
  }

  /** The `try` block of `computeTemplate`, given what the call of `compute` did. */
  function Outcome(call: CallOutcome, res: ResultSpec): Computed {
    match call
    case Threw(msg) => Failed(res, if msg == "" then MSG_ERROR else msg)
    case Returned(raw) =>
      var norm := Normalized(raw, res);
      if |norm| == 0 || !norm[0].value.Finite? then Failed(res, MSG_INVALID) else Computed(norm, "")
  }

  /** `computeTemplate(t, nums)`: a strict template fails before compute when an input is lacking. */
  function Evaluate(t: Template, nums: Inputs): Computed {
    if !t.partial && LacksInput(t, nums) then Failed(t.result, MSG_MISSING)
    else Outcome(t.compute(nums), t.result)
  }

  /** The compute layer's contract. Every failure is the single NaN entry with the default label and unit,
      and the error text is empty exactly on success, when the first value is finite and the list is the
      normalised output. A strict template lacking a non-select input fails with the fixed text whatever
      its compute would do; select inputs never count as lacking, and a partial template always reaches
      compute. A throw gives its own message, or "計算エラー" when it has none; a returned result whose
      first value is not finite gives "計算結果が不正です…". */
  lemma EvaluateSpec(t: Template, nums: Inputs)
    ensures var c := Evaluate(t, nums);
      && |c.values| > 0
      && (c.error != "" ==> c.values == [NaNEntry(t.result)])
      && (c.error == "" <==> c.values[0].value.Finite?)
    ensures !t.partial && LacksInput(t, nums) ==>
      forall f :: Evaluate(t.(compute := f), nums) == Failed(t.result, MSG_MISSING)
    ensures (t.partial || forall i :: 0 <= i < |t.inputs| && !t.inputs[i].isSelect ==> IsFinite(nums, t.inputs[i].key)) ==>
      Evaluate(t, nums) == Outcome(t.compute(nums), t.result)
    ensures t.compute(nums).Threw? && (t.partial || !LacksInput(t, nums)) ==>
      Evaluate(t, nums).error == (if t.compute(nums).message == "" then MSG_ERROR else t.compute(nums).message)
    ensures t.compute(nums).Returned? && (t.partial || !LacksInput(t, nums)) ==>
      var norm := Normalized(t.compute(nums).raw, t.result);
      Evaluate(t, nums) == if norm[0].value.Finite? then Computed(norm, "") else Failed(t.result, MSG_INVALID)
  {
    if t.compute(nums).Returned? {
      NormalizedSpec(t.compute(nums).raw, t.result);
    }
  }

  /** `computeTemplate` as it runs: the loop over the inputs with its early return, then compute. */
  method ComputeTemplate(t: Template, nums: Inputs) returns (c: Computed)
    ensures c == Evaluate(t, nums)
  {
    if !t.partial {
      var i := 0;
      while i < |t.inputs|
        invariant 0 <= i <= |t.inputs|
        invariant forall j :: 0 <= j < i && !t.inputs[j].isSelect ==> IsFinite(nums, t.inputs[j].key)
      {
        var inp := t.inputs[i];
        if !inp.isSelect && !IsFinite(nums, inp.key) {
          return Computed([Entry(t.result.caption, NonFinite, t.result.unit)], MSG_MISSING);
        }
        i := i + 1;
      }
    }
    match t.compute(nums)
    case Threw(msg) =>
      c := Computed([Entry(t.result.caption, NonFinite, t.result.unit)], if msg != "" then msg else MSG_ERROR);
    case Returned(raw) =>
      var values := NormalizeComputeResult(raw, t.result);
      if |values| == 0 || !values[0].value.Finite? {
        c := Computed([Entry(t.result.caption, NonFinite, t.result.unit)], MSG_INVALID);
      } else {
        c := Computed(values, "");
      }
  }

  /** The save button's check: a non-empty list of finite values. */
  predicate Savable(values: seq<Entry>) {
    |values| > 0 && forall i :: 0 <= i < |values| ==> values[i].value.Finite?
  }

  /** A savable result is a successful one, so no failure is ever saved. */
  lemma SavableIsSuccess(t: Template, nums: Inputs)
    ensures Savable(Evaluate(t, nums).values) ==> Evaluate(t, nums).error == ""
  {
    EvaluateSpec(t, nums);
  }

  /** One value as the history shows it: `label=value unit`, trimmed. */
  function HistoryLine(show: real -> string): Entry -> string {
    (e: Entry) => Trim(e.caption + "=" + FormatNum(e.value, show) + " " + e.unit)
  }

  /** The saved result text: the lines joined by " / ". */
  function ResultText(values: seq<Entry>, show: real -> string): string {
    Join(Map(values, HistoryLine(show)), " / ")
  }

  /** A saved result text is never empty. */
  lemma ResultTextNonEmpty(values: seq<Entry>, show: real -> string)
    requires |values| > 0
    ensures ResultText(values, show) != ""
  {
    var e := values[0];
    var line := e.caption + "=" + FormatNum(e.value, show) + " " + e.unit;
    assert line[|e.caption|] == '=';
    TrimSpec(line);
    assert '=' in HistoryLine(show)(e);
    JoinNonEmpty(Map(values, HistoryLine(show)), " / ");
  }

  /** The record the save button adds. */
  function SavedRecord(t: Template, p: Payload, values: seq<Entry>, show: real -> string, id: string, at: string): Record {
    Record(id, at, t.id, t.title, p.raw, ResultText(values, show))
  }

  /** The state of main.js. `templates` is the catalogue, `favs` the favourite ids, `history` the saved
      records newest first, `lastInputs` the field texts last typed per template id. */
  class App {
    var templates: seq<Template>
    var favs: set<string>
    var history: seq<Record>
    var lastInputs: map<string, map<string, string>>
    var currentTemplate: Option<Template>
    var favOnly: bool

    /** Start-up: the catalogue built from the settings, and the stored favourites, history and last inputs. */
    constructor (settings: Settings, m: MathLib, storedFavs: seq<string>, storedHistory: seq<Record>,
                 storedLastInputs: map<string, map<string, string>>)
      ensures templates == BuildTemplates(settings, m)
      ensures favs == set i | 0 <= i < |storedFavs| :: storedFavs[i]
      ensures history == storedHistory && lastInputs == storedLastInputs
      ensures currentTemplate.None? && !favOnly
    {
      templates := BuildTemplates(settings, m);
      favs := set i | 0 <= i < |storedFavs| :: storedFavs[i];
      history := storedHistory;
      lastInputs := storedLastInputs;
      currentTemplate := None;
      favOnly := false;
    }

    /** `toggleFav(id)` */
    method ToggleFav(id: string)
      modifies this`favs
      ensures favs == Toggled(old(favs), id)
    {
      if id in favs {
        favs := favs - {id};
      } else {
        favs := favs + {id};
      }
    }

    /** The ★ button above the list. */
    method ToggleFavOnly()
      modifies this`favOnly
      ensures favOnly == !old(favOnly)
    {
      favOnly := !favOnly;
    }

    /** `renderList()` with the search box holding `search`. app.js has its own copy of this function,
        modelled as Legacy.LegacyApp.RenderList with the same body. */
    method RenderList(search: string, lower: string -> string) returns (sections: seq<Section>)
      ensures sections == Sections(templates, lower(search), favOnly, favs, lower)
    {
      sections := RenderSections(templates, lower(search), favOnly, favs, lower);
    }

    /** `openTemplate(id)`: nothing happens for an unknown id; otherwise the template becomes current and
        its fields are prefilled. */
    method OpenTemplate(id: string) returns (fields: Option<seq<string>>)
      modifies this`currentTemplate
      ensures Find(templates, id).None? ==> fields.None? && currentTemplate == old(currentTemplate)
      ensures Find(templates, id).Some? ==>
        currentTemplate == Find(templates, id) && fields == Some(Prefill(Find(templates, id).value, lastInputs))
    {
      var t := Find(templates, id);
      if t.None? {
        return None;
      }
      currentTemplate := t;
      fields := Some(Prefill(t.value, lastInputs));
    }

    /** `saveLastInputs(t)`, on every keystroke. */
    method SaveLastInputs(t: Template, controls: seq<Control>)
      modifies this`lastInputs
      ensures lastInputs == old(lastInputs)[t.id := LastWins(controls, KeyOf, ValueOf)]
    {
      var saved := CollectLastInputs(controls);
      lastInputs := lastInputs[t.id := saved];
    }

    /** The reset button: store the defaults as the last inputs and reopen the template, which then shows
        exactly the defaults. */
    method Reset(t: Template) returns (fields: Option<seq<string>>)
      modifies this`lastInputs, this`currentTemplate
      ensures lastInputs == old(lastInputs)[t.id := ResetMap(t.inputs)]
      ensures Find(templates, t.id).None? ==> fields.None? && currentTemplate == old(currentTemplate)
      ensures Find(templates, t.id).Some? ==>
        currentTemplate == Find(templates, t.id) && fields == Some(Prefill(Find(templates, t.id).value, lastInputs))
      ensures Find(templates, t.id).Some? && Find(templates, t.id).value.inputs == t.inputs && KeysDistinct(t.inputs) ==>
        fields == Some(Map(t.inputs, DefaultText))
    {
      var reset := BuildResetMap(t.inputs);
      lastInputs := lastInputs[t.id := reset];
      fields := OpenTemplate(t.id);
      if Find(templates, t.id).Some? && KeysDistinct(t.inputs) {
        PrefillAfterReset(t, old(lastInputs));
        assert Find(templates, t.id).value.id == t.id;
      }
    }

    /** The save button: collect the inputs, compute, and unless the result has a non-finite value, add
        the record in front of the history, keeping at most 200. */
    method SaveToHistory(t: Template, controls: seq<Control>, parse: string -> Num, show: real -> string,
                         id: string, at: string) returns (saved: bool)
      modifies this`history
      ensures var p := PayloadOf(parse, controls); var c := Evaluate(t, p.nums);
        && (saved <==> Savable(c.values))
        && history == if saved then Pushed(old(history), SavedRecord(t, p, c.values, show, id, at)) else old(history)
    {
      var payload := CollectInputPayload(parse, controls);
      var computed := ComputeTemplate(t, payload.nums);
      var values := computed.values;
      if !(|values| > 0 && forall i :: 0 <= i < |values| ==> values[i].value.Finite?) {
        return false;
      }
      var resultText := ResultText(values, show);
      var rec := Record(id, at, t.id, t.title, payload.raw, resultText);
      history := [rec] + history;
      history := history[..Min(|history|, HISTORY_CAP)];
      saved := true;
    }

    /** The delete button of one history item. */
    method DeleteHistory(id: string)
      modifies this`history
      ensures history == Removed(old(history), id)
    {
      history := Filter(history, KeepsOtherIds(id));
    }

    /** The clear button of the history sheet. */
    method ClearHistory()
      modifies this`history
      ensures history == []
    {
      history := [];
    }

    /** `applySettings()`: rebuild the catalogue and reopen the current template. */
    method ApplySettings(settings: Settings, m: MathLib) returns (fields: Option<seq<string>>)
      modifies this`templates, this`currentTemplate
      ensures templates == BuildTemplates(settings, m)
      ensures old(currentTemplate).None? ==> fields.None? && currentTemplate.None?
      ensures old(currentTemplate).Some? ==>
        var found := Find(templates, old(currentTemplate).value.id);
        && (found.None? ==> fields.None? && currentTemplate == old(currentTemplate))
        && (found.Some? ==> currentTemplate == found && fields == Some(Prefill(found.value, lastInputs)))
    {
      templates := BuildTemplates(settings, m);
      fields := None;
      if currentTemplate.Some? {
        fields := OpenTemplate(currentTemplate.value.id);
      }
    }
  }
}
