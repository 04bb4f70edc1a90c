/** The templates of the current app taken through `computeTemplate`: what the user sees for each
    built template, from the input check through `compute` to the normalised result list. These
    lemmas tie the template files and main.js together. */
module Pipeline {
  import opened Wrappers
  import opened JsMath
  import opened Seqs
  import opened Utils
  import opened TemplateShape
  import opened Weights
  import opened Machining
  import opened Coords
  import opened Shell

  /** The three volume results in their units, mm³ first. */
  function VolumeEntries(mm3: real): seq<Entry> {
    [Entry("体積", Finite(mm3), "mm³"), Entry("体積", Finite(mm3 / 1000.0), "cm³"), Entry("体積", Finite(mm3 / 1000000.0), "L")]
  }

  /** The volume output normalises to the mm³, cm³ and L entries in that order, each a thousandth of the
      one before. */
  lemma VolumeConversions(mm3: real, res: ResultSpec)
    ensures Normalized(VolumeOutput(Finite(mm3)), res) == VolumeEntries(mm3)
    ensures VolumeEntries(mm3)[1].value.r == VolumeEntries(mm3)[0].value.r / 1000.0
    ensures VolumeEntries(mm3)[2].value.r == VolumeEntries(mm3)[1].value.r / 1000.0
  {
    var others := [Captioned("体積", Finite(mm3 / 1000.0), "cm³"), Captioned("体積", Finite(mm3 / 1000000.0), "L")];
    assert Map(others, EntryOf) == [EntryOf(others[0])] + Map(others[1..], EntryOf);
    assert Map(others[1..], EntryOf) == [EntryOf(others[1])] + Map(others[2..], EntryOf);
  }

  /** vol_box: with A, B and C given the three volumes of A·B·C are shown; with any of them missing the
      fixed "未入力" error is shown. */
  lemma VolBoxEndToEnd(s: Settings, nums: Inputs)
    ensures var t := BuildWeightTemplates(s)[3];
      && (AllFinite(nums, ["A", "B", "C"]) ==>
            Evaluate(t, nums) == Computed(VolumeEntries(Val(nums, "A") * Val(nums, "B") * Val(nums, "C")), ""))
      && (!AllFinite(nums, ["A", "B", "C"]) ==> Evaluate(t, nums) == Failed(t.result, MSG_MISSING))
  {
    var t := BuildWeightTemplates(s)[3];
    var keys := ["A", "B", "C"];
    assert forall i :: 0 <= i < 3 ==> t.inputs[i].key == keys[i] && !t.inputs[i].isSelect;
    if AllFinite(nums, keys) {
      assert !LacksInput(t, nums);
      VolumeConversions(Val(nums, "A") * Val(nums, "B") * Val(nums, "C"), t.result);
    } else {
      var i :| 0 <= i < 3 && !IsFinite(nums, keys[i]);
      assert !t.inputs[i].isSelect && !IsFinite(nums, t.inputs[i].key);
    }
  }

  /** w_plate: with t, W and L given the weight t·W·L·ρ is shown for the density of whatever the material
      select holds (a select never counts as missing, and an unknown code weighs as steel); with any of
      the three missing the fixed "未入力" error is shown. */
  lemma PlateEndToEnd(s: Settings, nums: Inputs)
    ensures var t := BuildWeightTemplates(s)[1];
      && (AllFinite(nums, ["t", "W", "L"]) ==>
            Evaluate(t, nums) == Computed([Entry("重量",
              Finite(PlateWeight(Val(nums, "t"), Val(nums, "W"), Val(nums, "L"), DensityFromMaterial(FieldOf(nums, "mat")))), "kg")], ""))
      && (!AllFinite(nums, ["t", "W", "L"]) ==> Evaluate(t, nums) == Failed(t.result, MSG_MISSING))
  {
    var t := BuildWeightTemplates(s)[1];
    var keys := ["t", "W", "L"];
    assert forall i :: 0 <= i < 3 ==> t.inputs[i].key == keys[i] && !t.inputs[i].isSelect;
    assert t.inputs[3].isSelect && |t.inputs| == 4;
    if !AllFinite(nums, keys) {
      var i :| 0 <= i < 3 && !IsFinite(nums, keys[i]);
      assert !t.inputs[i].isSelect && !IsFinite(nums, t.inputs[i].key);
    }
  }

  /** w_pipe_dual, a partial template: its own checks decide. It succeeds exactly when its compute
      returns, and each of its messages reaches the user unchanged. */
  lemma PipeDualEndToEnd(s: Settings, nums: Inputs)
    ensures var t := BuildWeightTemplates(s)[2];
      && (Evaluate(t, nums).error == "" <==> PipeDualCompute(nums).Returned?)
      && (PipeDualCompute(nums).Threw? ==> Evaluate(t, nums) == Failed(t.result, PipeDualCompute(nums).message))
      && (!IsFinite(nums, "D") || !IsFinite(nums, "L") ==> Evaluate(t, nums).error == PIPE_NEEDS_D_L)
      && (PipeDualCompute(nums).Returned? ==>
            Evaluate(t, nums) == Computed([Entry("重量", Finite(PipeWeight(Val(nums, "D"), InnerDiameter(nums), Val(nums, "L"),
              DensityFromMaterial(FieldOf(nums, "mat")))), "kg")], ""))
  {
    PipeDualOutcome(nums);
  }

  /** vc_rpm: with Vc and D given, the speed is shown exactly when D is not 0; a zero diameter divides by
      zero and shows "計算結果が不正です…". Either input missing shows "未入力". */
  lemma VcRpmEndToEnd(s: Settings, nums: Inputs)
    ensures var t := BuildMachiningTemplates(s)[0];
      && (AllFinite(nums, ["Vc", "D"]) ==>
            && (Evaluate(t, nums).error == "" <==> Val(nums, "D") != 0.0)
            && (Val(nums, "D") == 0.0 ==> Evaluate(t, nums) == Failed(t.result, MSG_INVALID))
            && (Val(nums, "D") != 0.0 ==> Evaluate(t, nums).values == [Entry("回転数", SpindleSpeed(Val(nums, "Vc"), Val(nums, "D")), "rpm")]))
      && (!AllFinite(nums, ["Vc", "D"]) ==> Evaluate(t, nums) == Failed(t.result, MSG_MISSING))
  {
    var t := BuildMachiningTemplates(s)[0];
    var keys := ["Vc", "D"];
    assert forall i :: 0 <= i < 2 ==> t.inputs[i].key == keys[i] && !t.inputs[i].isSelect;
    if AllFinite(nums, keys) {
      assert !LacksInput(t, nums);
      SpindleSpeedInverse(Val(nums, "Vc"), Val(nums, "D"));
    } else {
      var i :| 0 <= i < 2 && !IsFinite(nums, keys[i]);
      assert !t.inputs[i].isSelect && !IsFinite(nums, t.inputs[i].key);
    }
  }

  /** feed_solve_fz_from_F_z_rpm: the template is strict, so a missing z, rpm or F shows "未入力" and the
      compute's own "数値を入力してください" never reaches the user. With all three given, its guards decide;
      a shown fz is non-negative and gives back F through feed_fz_z_rpm. */
  lemma FeedPerToothEndToEnd(s: Settings, nums: Inputs)
    ensures var t := BuildMachiningTemplates(s)[2];
      && Evaluate(t, nums).error != FZ_NOT_NUMBERS
      && (!AllFinite(nums, ["z", "rpm", "F"]) ==> Evaluate(t, nums) == Failed(t.result, MSG_MISSING))
      && (AllFinite(nums, ["z", "rpm", "F"]) ==> Evaluate(t, nums) == Outcome(FeedPerToothCompute(nums), t.result))
      && (Evaluate(t, nums).error == "" ==>
            && |Evaluate(t, nums).values| == 1
            && Evaluate(t, nums).values[0].value.r >= 0.0
            && FeedRate(Evaluate(t, nums).values[0].value.r, Val(nums, "z"), Val(nums, "rpm")) == Val(nums, "F"))
  {
    var t := BuildMachiningTemplates(s)[2];
    var keys := ["z", "rpm", "F"];
    assert forall i :: 0 <= i < 3 ==> t.inputs[i].key == keys[i] && !t.inputs[i].isSelect;
    FeedPerToothGuards(nums);
    if AllFinite(nums, keys) {
      assert !LacksInput(t, nums);
      assert IsFinite(nums, keys[0]) && IsFinite(nums, keys[1]) && IsFinite(nums, keys[2]);
      match FeedPerToothCompute(nums)
      case Threw(msg) =>
        assert FZ_BAD_Z[0] != FZ_NOT_NUMBERS[0] && FZ_BAD_RPM[0] != FZ_NOT_NUMBERS[0] && FZ_BAD_F[0] != FZ_NOT_NUMBERS[0];
      case Returned(raw) =>
        FeedPerToothRoundTrip(nums);
        assert MSG_INVALID[0] != FZ_NOT_NUMBERS[0];
    } else {
      var i :| 0 <= i < 3 && !IsFinite(nums, keys[i]);
      assert !t.inputs[i].isSelect && !IsFinite(nums, t.inputs[i].key);
    }
  }

  /** circumference_arc: with D and the angle given, the circumference π·D and the arc are shown; at the
      default angle of 360 the arc is the whole circumference. */
  lemma ArcEndToEnd(s: Settings, nums: Inputs)
    ensures var t := BuildMachiningTemplates(s)[3];
      var d, angle := Val(nums, "D"), Val(nums, "angle");
      && (AllFinite(nums, ["D", "angle"]) ==>
            Evaluate(t, nums) == Computed([Entry("円周", Finite(PI * d), "mm"), Entry("弧長", Finite(PI * d * (angle / 360.0)), "mm")], ""))
      && (AllFinite(nums, ["D", "angle"]) && angle == 360.0 ==> Evaluate(t, nums).values[1].value == Finite(PI * d))
      && (!AllFinite(nums, ["D", "angle"]) ==> Evaluate(t, nums) == Failed(t.result, MSG_MISSING))
  {
    var t := BuildMachiningTemplates(s)[3];
    var keys := ["D", "angle"];
    assert forall i :: 0 <= i < 2 ==> t.inputs[i].key == keys[i] && !t.inputs[i].isSelect;
    if AllFinite(nums, keys) {
      assert !LacksInput(t, nums);
      var d, angle := Val(nums, "D"), Val(nums, "angle");
      var others := [Labelled("弧長", PI * d * (angle / 360.0), "mm")];
      assert Map(others, EntryOf) == [EntryOf(others[0])] + Map(others[1..], EntryOf);
      ArcIsShareOfCircumference(d, angle);
    } else {
      var i :| 0 <= i < 2 && !IsFinite(nums, keys[i]);
      assert !t.inputs[i].isSelect && !IsFinite(nums, t.inputs[i].key);
    }
  }

  /** The four results of a solved triangle, in the order a, b, c, θ. */
  function TriangleEntries(tri: Triangle): seq<Entry> {
    [Entry("a", Finite(tri.a), "mm"), Entry("b", Finite(tri.b), "mm"), Entry("c", Finite(tri.c), "mm"),
     Entry("θ", Finite(tri.thetaDeg), "deg")]
  }

  /** tri_right_auto, a partial template: whatever is blank, the solver decides. Its error message is shown
      as it is (none is empty), and a solved triangle shows a, b, c and θ in that order. */
  lemma TriRightEndToEnd(s: Settings, m: MathLib, nums: Inputs)
    ensures var t := BuildCoordTemplates(s, m)[0];
      var sol := Solved(m, NumOf(nums, "a"), NumOf(nums, "b"), NumOf(nums, "c"), NumOf(nums, "theta"));
      && t.partial
      && (sol.Failure? ==> sol.error != "" && Evaluate(t, nums) == Failed(t.result, sol.error))
      && (sol.Success? ==> Evaluate(t, nums) == Computed(TriangleEntries(sol.value), ""))
  {
    var t := BuildCoordTemplates(s, m)[0];
    var sol := Solved(m, NumOf(nums, "a"), NumOf(nums, "b"), NumOf(nums, "c"), NumOf(nums, "theta"));
    assert t.compute(nums) == TriRightCompute(m, nums);
    if sol.Success? {
      var tri := sol.value;
      var others := [Labelled("b", tri.b, "mm"), Labelled("c", tri.c, "mm"), Labelled("θ", tri.thetaDeg, "deg")];
      assert Map(others, EntryOf) == [EntryOf(others[0])] + Map(others[1..], EntryOf);
      assert Map(others[1..], EntryOf) == [EntryOf(others[1])] + Map(others[2..], EntryOf);
      assert Map(others[2..], EntryOf) == [EntryOf(others[2])] + Map(others[3..], EntryOf);
    }
  }

  /** A consistent triangle with side a left blank is shown back in full (the solver itself is proved for
      each of the four blanks in Coords.SolveRoundTrip). */
  lemma TriRightShowsTriangle(s: Settings, m: MathLib, tri: Triangle, nums: Inputs)
    requires Sound(m) && Consistent(m, tri)
    requires nums == map["b" := Number(tri.b), "c" := Number(tri.c), "theta" := Number(tri.thetaDeg)]
    ensures Evaluate(BuildCoordTemplates(s, m)[0], nums) == Computed(TriangleEntries(tri), "")
  {
    SolveRoundTrip(m, tri);
    assert NumOf(nums, "a") == NonFinite;
    assert NumOf(nums, "b") == Finite(tri.b) && NumOf(nums, "c") == Finite(tri.c) && NumOf(nums, "theta") == Finite(tri.thetaDeg);
    TriRightEndToEnd(s, m, nums);
  }

  /** j_groove_tangent_xy: the template is strict, so a blank α, R or RG shows "未入力" and the compute's
      own "数値を入力してください" never reaches the user; with all three given, its guards decide. */
  lemma JGrooveEndToEnd(s: Settings, m: MathLib, nums: Inputs)
    ensures var t := BuildCoordTemplates(s, m)[4];
      && Evaluate(t, nums).error != JG_NOT_NUMBERS
      && (!AllFinite(nums, ["alpha", "R", "RG"]) ==> Evaluate(t, nums) == Failed(t.result, MSG_MISSING))
      && (AllFinite(nums, ["alpha", "R", "RG"]) ==> Evaluate(t, nums) == Outcome(JGrooveCompute(m, nums), t.result))
  {
    var t := BuildCoordTemplates(s, m)[4];
    var keys := ["alpha", "R", "RG"];
    assert forall i :: 0 <= i < 3 ==> t.inputs[i].key == keys[i] && !t.inputs[i].isSelect;
    assert t.compute(nums) == JGrooveCompute(m, nums);
    if AllFinite(nums, keys) {
      assert !LacksInput(t, nums);
      assert IsFinite(nums, keys[0]) && IsFinite(nums, keys[1]) && IsFinite(nums, keys[2]);
      match JGrooveCompute(m, nums)
      case Threw(msg) =>
        assert JG_BAD_R[0] != JG_NOT_NUMBERS[0] && JG_BAD_RG[0] != JG_NOT_NUMBERS[0];
        assert JG_BAD_ALPHA[0] != JG_NOT_NUMBERS[0] && JG_ALPHA_TOO_SMALL[0] != JG_NOT_NUMBERS[0];
      case Returned(raw) =>
        assert MSG_INVALID[0] != JG_NOT_NUMBERS[0];
    } else {
      var i :| 0 <= i < 3 && !IsFinite(nums, keys[i]);
      assert !t.inputs[i].isSelect && !IsFinite(nums, t.inputs[i].key);
    }
  }

  /** w_roundbar: with d and L given the weight π·d²/4·L·ρ is shown for the density of whatever the
      material select holds; with either missing the fixed "未入力" error is shown. */
  lemma RoundBarEndToEnd(s: Settings, nums: Inputs)
    ensures var t := BuildWeightTemplates(s)[0];
      && (AllFinite(nums, ["d", "L"]) ==>
            Evaluate(t, nums) == Computed([Entry("重量",
              Finite(RoundBarWeight(Val(nums, "d"), Val(nums, "L"), DensityFromMaterial(FieldOf(nums, "mat")))), "kg")], ""))
      && (!AllFinite(nums, ["d", "L"]) ==> Evaluate(t, nums) == Failed(t.result, MSG_MISSING))
  {
    var t := BuildWeightTemplates(s)[0];
    var keys := ["d", "L"];
    assert forall i :: 0 <= i < 2 ==> t.inputs[i].key == keys[i] && !t.inputs[i].isSelect;
    assert t.inputs[2].isSelect && |t.inputs| == 3;
    if !AllFinite(nums, keys) {
      var i :| 0 <= i < 2 && !IsFinite(nums, keys[i]);
      assert !t.inputs[i].isSelect && !IsFinite(nums, t.inputs[i].key);
    }
  }

  /** vol_cyl: with d and L given the three volumes of π·d²/4·L are shown; with either missing the fixed
      "未入力" error is shown. */
  lemma VolCylEndToEnd(s: Settings, nums: Inputs)
    ensures var t := BuildWeightTemplates(s)[4];
      && (AllFinite(nums, ["d", "L"]) ==>
            Evaluate(t, nums) == Computed(VolumeEntries(PI * (Val(nums, "d") * Val(nums, "d")) / 4.0 * Val(nums, "L")), ""))
      && (!AllFinite(nums, ["d", "L"]) ==> Evaluate(t, nums) == Failed(t.result, MSG_MISSING))
  {
    var t := BuildWeightTemplates(s)[4];
    var keys := ["d", "L"];
    assert forall i :: 0 <= i < 2 ==> t.inputs[i].key == keys[i] && !t.inputs[i].isSelect;
    if AllFinite(nums, keys) {
      assert !LacksInput(t, nums);
      VolumeConversions(PI * (Val(nums, "d") * Val(nums, "d")) / 4.0 * Val(nums, "L"), t.result);
    } else {
      var i :| 0 <= i < 2 && !IsFinite(nums, keys[i]);
      assert !t.inputs[i].isSelect && !IsFinite(nums, t.inputs[i].key);
    }
  }

  /** feed_fz_z_rpm: with fz, z and rpm given the feed rate fz·z·rpm is shown, and a non-negative fz on a
      positive z and rpm is recovered from it by the reverse template. */
  lemma FeedEndToEnd(s: Settings, nums: Inputs)
    ensures var t := BuildMachiningTemplates(s)[1];
      var fz, z, rpm := Val(nums, "fz"), Val(nums, "z"), Val(nums, "rpm");
      && (AllFinite(nums, ["fz", "z", "rpm"]) ==>
            Evaluate(t, nums) == Computed([Entry("送り速度", Finite(FeedRate(fz, z, rpm)), "mm/min")], ""))
      && (!AllFinite(nums, ["fz", "z", "rpm"]) ==> Evaluate(t, nums) == Failed(t.result, MSG_MISSING))
      && (AllFinite(nums, ["fz", "z", "rpm"]) && fz >= 0.0 && z > 0.0 && rpm > 0.0 ==>
            Evaluate(BuildMachiningTemplates(s)[2], map["z" := Number(z), "rpm" := Number(rpm), "F" := Number(FeedRate(fz, z, rpm))])
              == Computed([Entry("fz", Finite(fz), "mm/刃")], ""))
  {
    var t := BuildMachiningTemplates(s)[1];
    var keys := ["fz", "z", "rpm"];
    assert forall i :: 0 <= i < 3 ==> t.inputs[i].key == keys[i] && !t.inputs[i].isSelect;
    if AllFinite(nums, keys) {
      assert !LacksInput(t, nums);
      var fz, z, rpm := Val(nums, "fz"), Val(nums, "z"), Val(nums, "rpm");
      if fz >= 0.0 && z > 0.0 && rpm > 0.0 {
        var back := BuildMachiningTemplates(s)[2];
        var v := map["z" := Number(z), "rpm" := Number(rpm), "F" := Number(FeedRate(fz, z, rpm))];
        FeedThenFeedPerTooth(fz, z, rpm);
        assert forall i :: 0 <= i < 3 ==> back.inputs[i].key in v && v[back.inputs[i].key].Number?;
        assert !LacksInput(back, v);
      }
    } else {
      var i :| 0 <= i < 3 && !IsFinite(nums, keys[i]);
      assert !t.inputs[i].isSelect && !IsFinite(nums, t.inputs[i].key);
    }
  }

  /** coord_dist: with both points given the distance is shown; it is non-negative and its square is the
      sum of the squared coordinate differences. */
  lemma CoordDistEndToEnd(s: Settings, m: MathLib, nums: Inputs)
    requires Sound(m)
    ensures var t := BuildCoordTemplates(s, m)[1];
      var dx, dy := Val(nums, "x2") - Val(nums, "x1"), Val(nums, "y2") - Val(nums, "y1");
      && (AllFinite(nums, ["x1", "y1", "x2", "y2"]) ==>
            && Evaluate(t, nums).error == ""
            && |Evaluate(t, nums).values| == 1
            && Evaluate(t, nums).values[0].value.r >= 0.0
            && Evaluate(t, nums).values[0].value.r * Evaluate(t, nums).values[0].value.r == dx * dx + dy * dy)
      && (!AllFinite(nums, ["x1", "y1", "x2", "y2"]) ==> Evaluate(t, nums) == Failed(t.result, MSG_MISSING))
  {
    var t := BuildCoordTemplates(s, m)[1];
    var keys := ["x1", "y1", "x2", "y2"];
    assert forall i :: 0 <= i < 4 ==> t.inputs[i].key == keys[i] && !t.inputs[i].isSelect;
    assert t.compute(nums) == CoordDistCompute(m, nums);
    if AllFinite(nums, keys) {
      assert !LacksInput(t, nums);
      DistanceIsEuclidean(m, Val(nums, "x1"), Val(nums, "y1"), Val(nums, "x2"), Val(nums, "y2"));
    } else {
      var i :| 0 <= i < 4 && !IsFinite(nums, keys[i]);
      assert !t.inputs[i].isSelect && !IsFinite(nums, t.inputs[i].key);
    }
  }

  /** pcd_angle_to_xy: with all four inputs given the point X, Y is shown, and it lies on the pitch circle. */
  lemma PcdEndToEnd(s: Settings, m: MathLib, nums: Inputs)
    requires Sound(m)
    ensures var t := BuildCoordTemplates(s, m)[3];
      var pcd, cx, cy := Val(nums, "pcd"), Val(nums, "cx"), Val(nums, "cy");
      && (AllFinite(nums, ["pcd", "theta", "cx", "cy"]) ==>
            && Evaluate(t, nums).error == ""
            && |Evaluate(t, nums).values| == 2
            && var x, y := Evaluate(t, nums).values[0].value.r, Evaluate(t, nums).values[1].value.r;
               (x - cx) * (x - cx) + (y - cy) * (y - cy) == (pcd / 2.0) * (pcd / 2.0))
      && (!AllFinite(nums, ["pcd", "theta", "cx", "cy"]) ==> Evaluate(t, nums) == Failed(t.result, MSG_MISSING))
  {
    var t := BuildCoordTemplates(s, m)[3];
    var keys := ["pcd", "theta", "cx", "cy"];
    assert forall i :: 0 <= i < 4 ==> t.inputs[i].key == keys[i] && !t.inputs[i].isSelect;
    assert t.compute(nums) == PcdCompute(m, nums);
    if AllFinite(nums, keys) {
      assert !LacksInput(t, nums);
      var out := PitchCirclePoint(m, Val(nums, "pcd"), Val(nums, "theta"), Val(nums, "cx"), Val(nums, "cy"));
      assert Map(out.others.value, EntryOf) == [EntryOf(out.others.value[0])] + Map(out.others.value[1..], EntryOf);
      PitchCirclePointOnCircle(m, Val(nums, "pcd"), Val(nums, "theta"), Val(nums, "cx"), Val(nums, "cy"));
    } else {
      var i :| 0 <= i < 4 && !IsFinite(nums, keys[i]);
      assert !t.inputs[i].isSelect && !IsFinite(nums, t.inputs[i].key);
    }
  }
}
