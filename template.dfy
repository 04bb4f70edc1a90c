/** The template descriptor that every formula in the templates directory is written as, and
    the values that pass between the generic compute layer and a template's
    `compute` closure. */
module TemplateShape {
  import opened Wrappers
  import opened JsMath

  /** What `nums[key]` holds: a finite number (toNum succeeded), null (toNum failed), or the
      selected option code of a select input. A key absent from the map reads as undefined,
      which behaves like Blank. */
  datatype Field = Number(x: real) | Blank | Code(code: string)

  type Inputs = map<string, Field>

  /** `Number.isFinite(v[key])` */
  predicate IsFinite(v: Inputs, key: string) {
    key in v && v[key].Number?
  }

  predicate AllFinite(v: Inputs, keys: seq<string>) {
    forall i :: 0 <= i < |keys| ==> IsFinite(v, keys[i])
  }

  /** `v[key]` as a number. */
  function NumOf(v: Inputs, key: string): (n: Num)
    ensures n.Finite? <==> IsFinite(v, key)
  {
    if IsFinite(v, key) then Finite(v[key].x) else NonFinite
  }

  /** `v[key]` where the caller has established that it is finite (0 otherwise, never used). */
  function Val(v: Inputs, key: string): real {
    if IsFinite(v, key) then v[key].x else 0.0
  }

  /** `v[key]`, undefined being Blank. */
  function FieldOf(v: Inputs, key: string): Field {
    if key in v then v[key] else Blank
  }

  datatype SelectOption = SelectOption(caption: string, value: string)

  /** One entry of `inputs`. `defaultText` is `String(default)`, None when there is no default. */
  datatype InputSpec = InputSpec(key: string, caption: string, defaultText: Option<string>, isSelect: bool, options: seq<SelectOption>)

  /** `result`: the default label and unit. */
  datatype ResultSpec = ResultSpec(caption: string, unit: string)

  /** One `{label, value, unit}` object inside a compute result; None where a property is absent
      (for `value`: where it is not of type number). */
  datatype RawEntry = RawEntry(caption: Option<string>, value: Option<Num>, unit: Option<string>)

  /** What `compute` returns: a number, an object (each property None when absent, `value` None when
      not a number, `others`/`extras` None when not an array), or anything else. */
  datatype RawOutput =
    | NumberOut(x: Num)
    | ObjectOut(primary: Option<RawEntry>, value: Option<Num>, others: Option<seq<RawEntry>>, extras: Option<seq<RawEntry>>)
    | OtherOut

  /** A call of `compute`: it returns, or it throws an error whose message ("" when none) is given. */
  datatype CallOutcome = Returned(raw: RawOutput) | Threw(message: string)

  datatype Template = Template(
    id: string,
    group: string,
    title: string,
    desc: string,
    tags: seq<string>,
    partial: bool,
    inputs: seq<InputSpec>,
    result: ResultSpec,
    compute: Inputs -> CallOutcome)

  /** The settings record the template builders receive. */
  datatype Settings = Settings(decimalPlaces: int, densityDefault: real)

  function NumberInput(key: string, caption: string): InputSpec {
    InputSpec(key, caption, None, false, [])
  }

  function NumberInputWithDefault(key: string, caption: string, defaultText: string): InputSpec {
    InputSpec(key, caption, Some(defaultText), false, [])
  }

  /** `{ label, value, unit }` with a finite value. */
  function Labelled(caption: string, value: real, unit: string): RawEntry {
    RawEntry(Some(caption), Some(Finite(value)), Some(unit))
  }

  /** `{ label, value, unit }` with any number, NaN included. */
  function Captioned(caption: string, value: Num, unit: string): RawEntry {
    RawEntry(Some(caption), Some(value), Some(unit))
  }

  /** `{ primary, others }` */
  function PrimaryOthers(primary: RawEntry, others: seq<RawEntry>): RawOutput {
    ObjectOut(Some(primary), None, Some(others), None)
  }

  /** `{ value, extras }` */
  function ValueExtras(value: Num, extras: seq<RawEntry>): RawOutput {
    ObjectOut(None, Some(value), None, Some(extras))
  }

  predicate KeysDistinct(inputs: seq<InputSpec>) {
    forall i, j :: 0 <= i < j < |inputs| ==> inputs[i].key != inputs[j].key
  }
}
