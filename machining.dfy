/** templates/machining.js: cutting speed, feed rate, the feed-per-tooth reverse
    calculation and circumference/arc length. */
module Machining {
  import opened Wrappers
  import opened JsMath
  import opened TemplateShape

  const MACHINING_GROUP := "加工関係"

  /** vc_rpm: rpm = 1000·Vc / (π·D); a zero diameter divides by zero. */
  function SpindleSpeed(vc: real, d: real): Num {
    Div(1000.0 * vc, PI * d)
  }

  /** The speed found turns back into the cutting speed Vc = π·D·rpm/1000, and it is not finite exactly when D is 0. */
  lemma SpindleSpeedInverse(vc: real, d: real)
    ensures SpindleSpeed(vc, d).Finite? <==> d != 0.0
    ensures d != 0.0 ==> SpindleSpeed(vc, d).r * PI * d / 1000.0 == vc
  {
    if d != 0.0 {
      var q := SpindleSpeed(vc, d).r;
      assert q * (PI * d) == 1000.0 * vc;
      assert q * PI * d == q * (PI * d);
    }
  }

  function VcRpmCompute(v: Inputs): CallOutcome {
    Returned(NumberOut(if AllFinite(v, ["Vc", "D"]) then SpindleSpeed(Val(v, "Vc"), Val(v, "D")) else NonFinite))
  }

  /** feed_fz_z_rpm: F = fz·z·rpm. */
  function FeedRate(fz: real, z: real, rpm: real): real {
    fz * z * rpm
  }

  function FeedCompute(v: Inputs): CallOutcome {
    Returned(NumberOut(if AllFinite(v, ["fz", "z", "rpm"]) then Finite(FeedRate(Val(v, "fz"), Val(v, "z"), Val(v, "rpm"))) else NonFinite))
  }

  const FZ_NOT_NUMBERS := "数値を入力してください"
  const FZ_BAD_Z := "刃数 z は 0 より大きくしてください"
  const FZ_BAD_RPM := "回転数 rpm は 0 より大きくしてください"
  const FZ_BAD_F := "送り速度 F は 0 以上で入力してください"

  /** feed_solve_fz_from_F_z_rpm: fz = F / (z·rpm) after four guards. */
  function FeedPerToothCompute(v: Inputs): CallOutcome {
    if !IsFinite(v, "z") || !IsFinite(v, "rpm") || !IsFinite(v, "F") then Threw(FZ_NOT_NUMBERS)
    else
      var z, rpm, f := Val(v, "z"), Val(v, "rpm"), Val(v, "F");
      if z <= 0.0 then Threw(FZ_BAD_Z)
      else if rpm <= 0.0 then Threw(FZ_BAD_RPM)
      else if f < 0.0 then Threw(FZ_BAD_F)
      else Returned(NumberOut(Finite(f / (z * rpm))))
  }

  /** The guards are tried in the order non-numeric, z, rpm, F: each message is given exactly when the
      earlier checks passed and this one fails. */
  lemma FeedPerToothGuards(v: Inputs)
    ensures !(IsFinite(v, "z") && IsFinite(v, "rpm") && IsFinite(v, "F")) ==> FeedPerToothCompute(v) == Threw(FZ_NOT_NUMBERS)
    ensures IsFinite(v, "z") && IsFinite(v, "rpm") && IsFinite(v, "F") ==>
      var z, rpm, f := Val(v, "z"), Val(v, "rpm"), Val(v, "F");
      && (z <= 0.0 ==> FeedPerToothCompute(v) == Threw(FZ_BAD_Z))
      && (z > 0.0 && rpm <= 0.0 ==> FeedPerToothCompute(v) == Threw(FZ_BAD_RPM))
      && (z > 0.0 && rpm > 0.0 && f < 0.0 ==> FeedPerToothCompute(v) == Threw(FZ_BAD_F))
      && (z > 0.0 && rpm > 0.0 && f >= 0.0 <==> FeedPerToothCompute(v).Returned?)
  {
  }

  /** A successful reverse calculation gives a non-negative fz that reproduces F through feed_fz_z_rpm. */
  lemma FeedPerToothRoundTrip(v: Inputs)
    requires FeedPerToothCompute(v).Returned?
    ensures var raw := FeedPerToothCompute(v).raw;
      && raw.NumberOut? && raw.x.Finite?
      && raw.x.r >= 0.0
      && FeedRate(raw.x.r, Val(v, "z"), Val(v, "rpm")) == Val(v, "F")
  {
    var z, rpm, f := Val(v, "z"), Val(v, "rpm"), Val(v, "F");
    var fz := f / (z * rpm);
    assert fz * (z * rpm) == f;
    assert fz * z * rpm == fz * (z * rpm);
  }

  /** Conversely, the feed rate of a non-negative fz on a positive z and rpm solves back to that fz. */
  lemma FeedThenFeedPerTooth(fz: real, z: real, rpm: real)
    requires fz >= 0.0 && z > 0.0 && rpm > 0.0
    ensures FeedPerToothCompute(map["z" := Number(z), "rpm" := Number(rpm), "F" := Number(FeedRate(fz, z, rpm))])
         == Returned(NumberOut(Finite(fz)))
  {
    var v := map["z" := Number(z), "rpm" := Number(rpm), "F" := Number(FeedRate(fz, z, rpm))];
    assert Val(v, "z") == z && Val(v, "rpm") == rpm && Val(v, "F") == fz * z * rpm;
    assert fz * z * rpm == fz * (z * rpm);
    assert 0.0 <= fz * (z * rpm);
    assert (fz * (z * rpm)) / (z * rpm) == fz;
  }

  /** circumference_arc: C = π·D and the arc C·(angle/360). */
  function CircumferenceArc(d: real, angle: real): RawOutput {
    var c := PI * d;
    PrimaryOthers(Labelled("円周", c, "mm"), [Labelled("弧長", c * (angle / 360.0), "mm")])
  }

  /** The primary entry is the circumference, the arc is its angle/360 share, and the default angle of 360 gives the whole circumference. */
  lemma ArcIsShareOfCircumference(d: real, angle: real)
    ensures var out := CircumferenceArc(d, angle);
      && out.primary == Some(Labelled("円周", PI * d, "mm"))
      && out.others.value[0].value.value.r * 360.0 == PI * d * angle
      && (angle == 360.0 ==> out.others.value[0] == Labelled("弧長", PI * d, "mm"))
  {
    if angle == 360.0 {
      assert PI * d * (angle / 360.0) == PI * d;
    }
  }

  function CircumferenceArcCompute(v: Inputs): CallOutcome {
    if AllFinite(v, ["D", "angle"]) then Returned(CircumferenceArc(Val(v, "D"), Val(v, "angle")))
    else Returned(PrimaryOthers(Captioned("円周", NonFinite, "mm"), [Captioned("弧長", NonFinite, "mm")]))
  }

  /** `buildMachiningTemplates(settings)`: settings are not used. Note that circumference_arc is grouped
      with the coordinate templates although it is built here. */
  function BuildMachiningTemplates(settings: Settings): seq<Template> {
    [ Template("vc_rpm", MACHINING_GROUP, "切削速度→回転数（rpm）", "Vc(m/min), 直径D(mm) → rpm", ["旋盤/ミル"], false,
        [NumberInput("Vc", "切削速度 Vc (m/min)"), NumberInput("D", "直径 D (mm)")],
        ResultSpec("回転数", "rpm"), VcRpmCompute),
      Template("feed_fz_z_rpm", MACHINING_GROUP, "送り速度（fz×刃数×rpm）", "F(mm/min) = fz(mm/刃) × z(刃数) × rpm", ["ミル"], false,
        [NumberInput("fz", "fz (mm/刃)"), NumberInput("z", "刃数 z"), NumberInput("rpm", "回転数 (rpm)")],
        ResultSpec("送り速度", "mm/min"), FeedCompute),
      Template("feed_solve_fz_from_F_z_rpm", MACHINING_GROUP, "fz逆算（送り速度÷刃数÷rpm）", "fz(mm/刃) = F(mm/min) ÷ (z × rpm)",
        ["ミル", "逆算"], false,
        [NumberInput("z", "刃数 z"), NumberInput("rpm", "回転数 (rpm)"), NumberInput("F", "送り速度 F (mm/min)")],
        ResultSpec("fz", "mm/刃"), FeedPerToothCompute),
      Template("circumference_arc", "座標計算", "円周 / 弧長（角度）", "円周=πD、弧長=円周×(角度/360)", ["展開"], false,
        [NumberInput("D", "直径 D (mm)"), NumberInputWithDefault("angle", "角度 (deg)", "360")],
        ResultSpec("円周", "mm"), CircumferenceArcCompute) ]
  }
}
