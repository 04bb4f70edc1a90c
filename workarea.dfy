/** The work area both generations of the app share in behaviour: finding a template by id, the
    prefill of its fields from the last inputs or the defaults, the reset map, and the reading of the
    rendered controls into raw text and numbers. The DOM is modelled as the list of controls the
    work area holds, in document order. */
module WorkArea {
  import opened Wrappers
  import opened JsMath
  import opened Seqs
  import opened Utils
  import opened TemplateShape

  /** The position of the first template with that id, -1 when there is none. */
  function FirstIndex(ts: seq<Template>, id: string): (k: int)
    ensures -1 <= k < |ts|
    ensures k == -1 <==> forall i :: 0 <= i < |ts| ==> ts[i].id != id
    ensures k >= 0 ==> ts[k].id == id && forall j :: 0 <= j < k ==> ts[j].id != id
  {
    if |ts| == 0 then -1
    else if ts[0].id == id then 0
    else
      var k := FirstIndex(ts[1..], id);
      if k < 0 then -1 else k + 1
  }

  /** `templates.find(x => x.id === id)`: the first template with that id, None (undefined) when there
      is none. */
  function Find(ts: seq<Template>, id: string): (r: Option<Template>)
    ensures r.None? <==> forall i :: 0 <= i < |ts| ==> ts[i].id != id
    ensures r.Some? ==> exists i :: 0 <= i < |ts| && ts[i] == r.value && r.value.id == id &&
                                    forall j :: 0 <= j < i ==> ts[j].id != id
  {
    var k := FirstIndex(ts, id);
    if k < 0 then None else Some(ts[k])
  }

  /** An object filled by assignments `obj[key(x)] = val(x)` for each `x` of `xs` in turn: a later
      assignment to the same key overwrites an earlier one. */
  function LastWins<T, V>(xs: seq<T>, key: T -> string, val: T -> V): map<string, V>
    decreases |xs|
  {
    if |xs| == 0 then map[]
    else LastWins(xs[..|xs| - 1], key, val)[key(xs[|xs| - 1]) := val(xs[|xs| - 1])]
  }

  /** The keys are those assigned, and a key holds the value of the last element assigning it. */
  lemma {:induction false} LastWinsSpec<T, V>(xs: seq<T>, key: T -> string, val: T -> V)
    ensures forall k :: k in LastWins(xs, key, val) <==> exists i :: 0 <= i < |xs| && key(xs[i]) == k
    ensures forall i :: 0 <= i < |xs| && (forall j :: i < j < |xs| ==> key(xs[j]) != key(xs[i])) ==>
      key(xs[i]) in LastWins(xs, key, val) && LastWins(xs, key, val)[key(xs[i])] == val(xs[i])
    decreases |xs|
  {
    if |xs| > 0 {
      var init := xs[..|xs| - 1];
      LastWinsSpec(init, key, val);
      forall k ensures k in LastWins(xs, key, val) <==> exists i :: 0 <= i < |xs| && key(xs[i]) == k {
        if k in LastWins(init, key, val) {
          var i :| 0 <= i < |init| && key(init[i]) == k;
          assert xs[i] == init[i];
        }
        if exists i :: 0 <= i < |xs| && key(xs[i]) == k {
          var i :| 0 <= i < |xs| && key(xs[i]) == k;
          if i < |init| {
            assert init[i] == xs[i];
          }
        }
      }
      forall i | 0 <= i < |xs| - 1 && (forall j :: i < j < |xs| ==> key(xs[j]) != key(xs[i]))
        ensures LastWins(xs, key, val)[key(xs[i])] == val(xs[i])
      {
        assert init[i] == xs[i];
        assert forall j :: i < j < |init| ==> init[j] == xs[j];
      }
    }
  }

  /** One rendered control: its `data-key`, whether it is a `<select>`, and its current value. */
  datatype Control = Control(key: string, isSelect: bool, value: string)

  /** `collectInputPayload`'s result: the raw text per key and the values passed to `compute`. */
  datatype Payload = Payload(raw: map<string, string>, nums: Inputs)

  function KeyOf(c: Control): string { c.key }

  /** A select's value as it is, any other control's value sanitized. */
  function RawText(c: Control): string {
    if c.isSelect then c.value else SanitizeNumber(Some(c.value))
  }

  /** A select's code, any other control's number (Blank where toNum gives null). */
  function NumberField(parse: string -> Num): Control -> Field {
    (c: Control) =>
      if c.isSelect then Code(RawText(c))
      else match ToNum(parse, Some(RawText(c)))
        case Some(x) => Number(x)
        case None => Blank
  }

  function PayloadOf(parse: string -> Num, controls: seq<Control>): Payload {
    Payload(LastWins(controls, KeyOf, RawText), LastWins(controls, KeyOf, NumberField(parse)))
  }

  /** With distinct keys, every control has its entry: a select's raw text and value are its option code;
      any other control's raw text is its sanitized value, and its number is present exactly when
      parseFloat of that text is finite (sanitizing twice changing nothing, this is toNum of the
      control's own value). */
  lemma PayloadSpec(parse: string -> Num, controls: seq<Control>, i: int)
    requires 0 <= i < |controls|
    requires forall j :: i < j < |controls| ==> controls[j].key != controls[i].key
    ensures var p := PayloadOf(parse, controls); var c := controls[i];
      && c.key in p.raw && c.key in p.nums
      && (c.isSelect ==> p.raw[c.key] == c.value && p.nums[c.key] == Code(c.value))
      && (!c.isSelect ==> p.raw[c.key] == SanitizeNumber(Some(c.value)))
      && (!c.isSelect ==> (p.nums[c.key].Number? <==> ToNum(parse, Some(c.value)).Some?))
      && (!c.isSelect && p.nums[c.key].Number? ==> Some(p.nums[c.key].x) == ToNum(parse, Some(c.value)))
    ensures forall k :: k in PayloadOf(parse, controls).raw <==> k in PayloadOf(parse, controls).nums
  {
    LastWinsSpec(controls, KeyOf, RawText);
    LastWinsSpec(controls, KeyOf, NumberField(parse));
    ToNumIgnoresSanitizing(parse, Some(controls[i].value));
  }

  /** `collectInputPayload(t)`: one pass over the controls, writing `raw[key]` and `nums[key]`. */
  method CollectInputPayload(parse: string -> Num, controls: seq<Control>) returns (p: Payload)
    ensures p == PayloadOf(parse, controls)
  {
    var raw: map<string, string> := map[];
    var nums: Inputs := map[];
    var i := 0;
    while i < |controls|
      invariant 0 <= i <= |controls|
      invariant raw == LastWins(controls[..i], KeyOf, RawText)
      invariant nums == LastWins(controls[..i], KeyOf, NumberField(parse))
    {
      var c := controls[i];
      var valueStr := if c.isSelect then c.value else SanitizeNumber(Some(c.value));
      raw := raw[c.key := valueStr];
      if c.isSelect {
        nums := nums[c.key := Code(valueStr)];
      } else {
        var n := ToNum(parse, Some(valueStr));
        nums := nums[c.key := if n.Some? then Number(n.value) else Blank];
      }
      assert controls[..i + 1][..i] == controls[..i];
      i := i + 1;
    }
    assert controls[..i] == controls;
    p := Payload(raw, nums);
  }

  function ValueOf(c: Control): string { c.value }

  /** `saveLastInputs`: one pass writing `map[key] = value`, the value unsanitized. */
  method CollectLastInputs(controls: seq<Control>) returns (saved: map<string, string>)
    ensures saved == LastWins(controls, KeyOf, ValueOf)
  {
    saved := map[];
    var i := 0;
    while i < |controls|
      invariant 0 <= i <= |controls|
      invariant saved == LastWins(controls[..i], KeyOf, ValueOf)
    {
      saved := saved[controls[i].key := controls[i].value];
      assert controls[..i + 1][..i] == controls[..i];
      i := i + 1;
    }
    assert controls[..i] == controls;
  }

  function InputKey(inp: InputSpec): string { inp.key }

  /** `String(inp.default)` when the input has a default, else "". */
  function DefaultText(inp: InputSpec): string { inp.defaultText.GetOr("") }

  /** The map the reset button stores: every input key with its default text. */
  function ResetMap(inputs: seq<InputSpec>): map<string, string> {
    LastWins(inputs, InputKey, DefaultText)
  }

  /** The reset button's `t.inputs.forEach(inp => map[inp.key] = ...)`. */
  method BuildResetMap(inputs: seq<InputSpec>) returns (reset: map<string, string>)
    ensures reset == ResetMap(inputs)
  {
    reset := map[];
    var i := 0;
    while i < |inputs|
      invariant 0 <= i <= |inputs|
      invariant reset == LastWins(inputs[..i], InputKey, DefaultText)
    {
      var inp := inputs[i];
      reset := reset[inp.key := if inp.defaultText.Some? then inp.defaultText.value else ""];
      assert inputs[..i + 1][..i] == inputs[..i];
      i := i + 1;
    }
    assert inputs[..i] == inputs;
  }

  /** The text a field opens with: the saved value when there is a non-empty one, else the default. */
  function PrefillText(saved: map<string, string>): InputSpec -> string {
    (inp: InputSpec) =>
      if inp.key in saved && saved[inp.key] != "" then saved[inp.key] else DefaultText(inp)
  }

  /** The last inputs saved for template `id`, `{}` when none. */
  function SavedFor(lastInputs: map<string, map<string, string>>, id: string): map<string, string> {
    if id in lastInputs then lastInputs[id] else map[]
  }

  /** The field texts `openTemplate` starts from. */
  function Prefill(t: Template, lastInputs: map<string, map<string, string>>): seq<string> {
    Map(t.inputs, PrefillText(SavedFor(lastInputs, t.id)))
  }

  /** A template never opened before opens with its defaults, and a field with a non-empty saved
      value opens with that value whatever the default. */
  lemma PrefillSources(t: Template, lastInputs: map<string, map<string, string>>)
    ensures t.id !in lastInputs ==> Prefill(t, lastInputs) == Map(t.inputs, DefaultText)
    ensures forall i :: (0 <= i < |t.inputs| && t.id in lastInputs && t.inputs[i].key in lastInputs[t.id] &&
                         lastInputs[t.id][t.inputs[i].key] != "") ==> Prefill(t, lastInputs)[i] == lastInputs[t.id][t.inputs[i].key]
  {
  }

  /** After a reset, reopening the template shows exactly the defaults (`String(default)` or ""),
      whatever was saved before. */
  lemma PrefillAfterReset(t: Template, lastInputs: map<string, map<string, string>>)
    requires KeysDistinct(t.inputs)
    ensures Prefill(t, lastInputs[t.id := ResetMap(t.inputs)]) == Map(t.inputs, DefaultText)
  {
    LastWinsSpec(t.inputs, InputKey, DefaultText);
    var after := lastInputs[t.id := ResetMap(t.inputs)];
    forall i | 0 <= i < |t.inputs| ensures Prefill(t, after)[i] == DefaultText(t.inputs[i]) {
      assert forall j :: i < j < |t.inputs| ==> InputKey(t.inputs[j]) != InputKey(t.inputs[i]);
    }
  }
}
