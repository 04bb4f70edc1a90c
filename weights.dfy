/** templates/weights.js: the material density table and the weight and volume templates. */
module Weights {
  import opened Wrappers
  import opened JsMath
  import opened TemplateShape

  const WEIGHT_GROUP := "重量計算"

  /** `materialDensityMap()`: specific gravity per material code. */
  function MaterialDensityMap(): map<string, real> {
    map["SS" := 7.85, "SUS" := 8.00, "AL" := 2.70, "CU" := 8.90]
  }

  /** `materialOptions()`: the choices of the material select input. */
  function MaterialOptions(): seq<SelectOption> {
    [ SelectOption("SS（鉄）", "SS"),
      SelectOption("SUS（ステンレス）", "SUS"),
      SelectOption("AL（アルミ）", "AL"),
      SelectOption("CU（銅）", "CU") ]
  }

  /** `densityFromMaterial(v.mat)`: the table entry for a known code, 7.85 (steel) otherwise. */
  function DensityFromMaterial(mat: Field): (rho: real)
    ensures mat.Code? && mat.code in MaterialDensityMap() ==> rho == MaterialDensityMap()[mat.code]
    ensures !(mat.Code? && mat.code in MaterialDensityMap()) ==> rho == 7.85
    ensures rho > 0.0
  {
    var m := MaterialDensityMap();
    if mat.Code? && mat.code in m then m[mat.code] else 7.85
  }

  /** The four codes and their densities, and steel for anything else. */
  lemma DensityTable(other: string)
    requires other !in {"SS", "SUS", "AL", "CU"}
    ensures DensityFromMaterial(Code("SS")) == 7.85
    ensures DensityFromMaterial(Code("SUS")) == 8.00
    ensures DensityFromMaterial(Code("AL")) == 2.70
    ensures DensityFromMaterial(Code("CU")) == 8.90
    ensures DensityFromMaterial(Code(other)) == 7.85
    ensures DensityFromMaterial(Blank) == 7.85
  {
  }

  /** Every option offered has a density in the table and every table entry is offered. */
  lemma OptionsMatchDensityTable()
    ensures (set i | 0 <= i < |MaterialOptions()| :: MaterialOptions()[i].value) == MaterialDensityMap().Keys
  {
    var vs := set i | 0 <= i < |MaterialOptions()| :: MaterialOptions()[i].value;
    assert MaterialOptions()[0].value == "SS" && MaterialOptions()[1].value == "SUS";
    assert MaterialOptions()[2].value == "AL" && MaterialOptions()[3].value == "CU";
    assert vs == {"SS", "SUS", "AL", "CU"};
  }

  function MaterialInput(): InputSpec {
    InputSpec("mat", "材質", Some("SS"), true, MaterialOptions())
  }

  /** Round bar: volume π·d²/4·L in m³ (mm³ × 1e-9) times density ρ·1000 kg/m³. */
  function RoundBarWeight(d: real, len: real, rho: real): real {
    PI * (d * d) / 4.0 * len * 0.000000001 * (rho * 1000.0)
  }

  /** Plate: t·W·L in m³ times density. */
  function PlateWeight(t: real, w: real, len: real, rho: real): real {
    t * w * len * 0.000000001 * (rho * 1000.0)
  }

  /** Pipe: the ring area π·(D² − Di²)/4 times L, in m³, times density. */
  function PipeWeight(d: real, di: real, len: real, rho: real): real {
    PI * (d * d - di * di) / 4.0 * len * 0.000000001 * (rho * 1000.0)
  }

  function RoundBarCompute(v: Inputs): CallOutcome {
    var rho := DensityFromMaterial(FieldOf(v, "mat"));
    Returned(NumberOut(
      if AllFinite(v, ["d", "L"]) then Finite(RoundBarWeight(Val(v, "d"), Val(v, "L"), rho)) else NonFinite))
  }

  function PlateCompute(v: Inputs): CallOutcome {
    var rho := DensityFromMaterial(FieldOf(v, "mat"));
    Returned(NumberOut(
      if AllFinite(v, ["t", "W", "L"]) then Finite(PlateWeight(Val(v, "t"), Val(v, "W"), Val(v, "L"), rho)) else NonFinite))
  }

  /** The inner diameter w_pipe_dual works with: D − 2t when the wall thickness is given, else the Di input. */
  function InnerDiameter(v: Inputs): real {
    if IsFinite(v, "t") then Val(v, "D") - 2.0 * Val(v, "t") else Val(v, "Di")
  }

  const PIPE_NEEDS_D_L := "外径Dと長さLは必須です"
  const PIPE_ONE_OF_T_DI := "板厚t か 内径Di のどちらか一方だけ入力してください"
  const PIPE_BAD_DI := "内径は 0 < Di < D が必要です"

  /** w_pipe_dual's compute, a partial template: it validates its own inputs. */
  function PipeDualCompute(v: Inputs): CallOutcome {
    var rho := DensityFromMaterial(FieldOf(v, "mat"));
    if !IsFinite(v, "D") || !IsFinite(v, "L") then Threw(PIPE_NEEDS_D_L)
    else if IsFinite(v, "t") == IsFinite(v, "Di") then Threw(PIPE_ONE_OF_T_DI)
    else
      var d := Val(v, "D");
      var di := InnerDiameter(v);
      if !(di > 0.0) || di >= d then Threw(PIPE_BAD_DI)
      else Returned(NumberOut(Finite(PipeWeight(d, di, Val(v, "L"), rho))))
  }

  /** The pipe template succeeds exactly when D and L are given, exactly one of t and Di is given, and the
      resulting inner diameter lies strictly between 0 and D; the ring area is then positive. The checks
      come in that order. */
  lemma PipeDualOutcome(v: Inputs)
    ensures PipeDualCompute(v).Returned? <==>
      IsFinite(v, "D") && IsFinite(v, "L") && IsFinite(v, "t") != IsFinite(v, "Di")
      && 0.0 < InnerDiameter(v) < Val(v, "D")
    ensures !IsFinite(v, "D") || !IsFinite(v, "L") ==> PipeDualCompute(v) == Threw(PIPE_NEEDS_D_L)
    ensures IsFinite(v, "D") && IsFinite(v, "L") && IsFinite(v, "t") == IsFinite(v, "Di") ==>
      PipeDualCompute(v) == Threw(PIPE_ONE_OF_T_DI)
    ensures PipeDualCompute(v).Returned? ==>
      var d, di := Val(v, "D"), InnerDiameter(v);
      && d * d - di * di > 0.0
      && PipeDualCompute(v).raw == NumberOut(Finite(PipeWeight(d, di, Val(v, "L"), DensityFromMaterial(FieldOf(v, "mat")))))
  {
    if PipeDualCompute(v).Returned? {
      var d, di := Val(v, "D"), InnerDiameter(v);
      assert 0.0 < di < d;
      assert di * di < d * di < d * d;
    }
  }

  /** `x / k` on a JavaScript number, for a non-zero constant k. */
  function Scaled(x: Num, k: real): Num
    requires k != 0.0
  {
    match x
    case Finite(r) => Finite(r / k)
    case NonFinite => NonFinite
  }

  /** The three results of vol_box and vol_cyl: mm³ as primary, then cm³ = mm³/1000 and L = mm³/1 000 000
      (all NaN when an operand is not a number). */
  function VolumeOutput(mm3: Num): RawOutput {
    PrimaryOthers(Captioned("体積", mm3, "mm³"),
      [Captioned("体積", Scaled(mm3, 1000.0), "cm³"), Captioned("体積", Scaled(mm3, 1000000.0), "L")])
  }

  function VolBoxCompute(v: Inputs): CallOutcome {
    Returned(VolumeOutput(if AllFinite(v, ["A", "B", "C"]) then Finite(Val(v, "A") * Val(v, "B") * Val(v, "C")) else NonFinite))
  }

  function VolCylCompute(v: Inputs): CallOutcome {
    Returned(VolumeOutput(if AllFinite(v, ["d", "L"]) then Finite(PI * (Val(v, "d") * Val(v, "d")) / 4.0 * Val(v, "L")) else NonFinite))
  }

  /** `buildWeightTemplates(settings)`. The settings' densityDefault is read by the source but used by no template. */
  function BuildWeightTemplates(settings: Settings): seq<Template> {
    [ Template("w_roundbar", WEIGHT_GROUP, "丸棒重量（kg）", "φd, 長さL, 材質 → 重量", ["比重選択"], false,
        [NumberInput("d", "直径 d (mm)"), NumberInput("L", "長さ L (mm)"), MaterialInput()],
        ResultSpec("重量", "kg"), RoundBarCompute),
      Template("w_plate", WEIGHT_GROUP, "板重量（kg）", "t×W×L, 材質 → 重量", ["比重選択"], false,
        [NumberInput("t", "厚み t (mm)"), NumberInput("W", "幅 W (mm)"), NumberInput("L", "長さ L (mm)"), MaterialInput()],
        ResultSpec("重量", "kg"), PlateCompute),
      Template("w_pipe_dual", WEIGHT_GROUP, "パイプ重量（板厚 or 内径）", "外径D, (板厚t or 内径Di), 長さL, 材質 → 重量",
        ["比重選択"], true,
        [NumberInput("D", "外径 D (mm)"), NumberInput("t", "板厚 t (mm) ※どちらか"), NumberInput("Di", "内径 Di (mm) ※どちらか"),
         NumberInput("L", "長さ L (mm)"), MaterialInput()],
        ResultSpec("重量", "kg"), PipeDualCompute),
      Template("vol_box", WEIGHT_GROUP, "体積（直方体）", "A×B×C（mm）→ mm³ / cm³ / L", ["体積"], false,
        [NumberInput("A", "A (mm)"), NumberInput("B", "B (mm)"), NumberInput("C", "C (mm)")],
        ResultSpec("体積", "mm³"), VolBoxCompute),
      Template("vol_cyl", WEIGHT_GROUP, "体積（円柱）", "φd×L（mm）→ mm³ / cm³ / L", ["体積"], false,
        [NumberInput("d", "直径 d (mm)"), NumberInput("L", "長さ L (mm)")],
        ResultSpec("体積", "mm³"), VolCylCompute) ]
  }
}
