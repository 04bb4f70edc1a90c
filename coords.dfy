/** templates/coords.js: the right-triangle partial solver and the coordinate templates. */
module Coords {
  import opened Wrappers
  import opened JsMath
  import opened Utils
  import opened TemplateShape

  const COORD_GROUP := "座標計算"

  /** The four quantities of the right triangle: legs a (base) and b (height), hypotenuse c, angle θ at a. */
  datatype Quantity = SideA | SideB | Hypotenuse | Angle

  datatype Triangle = Triangle(a: real, b: real, c: real, thetaDeg: real)

  const TRI_THREE_OF_FOUR := "a,b,c,θ のうち3つを入力（1つだけ空欄）してください"
  const TRI_NEED_C_GT_B := "c>b が必要"
  const TRI_NEED_C_GT_A := "c>a が必要"
  const TRI_NEED_C_GE_A := "c>=a が必要"
  const TRI_NEED_C_GE_B := "c>=b が必要"
  const TRI_A_POSITIVE := "aは正"
  const TRI_B_POSITIVE := "bは正"
  const TRI_C_POSITIVE := "cは正"
  const TRI_AB_POSITIVE := "a,bは正"
  const TRI_COS_NEAR_ZERO := "cosθが0に近い"
  const TRI_SIN_NEAR_ZERO := "sinθが0に近い"
  const TRI_A_NOT_ENOUGH := "a算出の組合せ不足（b+c / c+θ / b+θ）"
  const TRI_B_NOT_ENOUGH := "b算出の組合せ不足（a+c / c+θ / a+θ）"
  const TRI_C_NOT_ENOUGH := "c算出の組合せ不足（a+b / a+θ / b+θ）"
  const TRI_THETA_NOT_ENOUGH := "θ算出の組合せ不足（a+b / a+c / b+c）"
  const TRI_FAILED := "計算失敗"
  const TRI_LENGTHS_POSITIVE := "長さは正の値"

  /** `Object.keys(given).filter(k => !given[k])`, in the key order a, b, c, θ. */
  function Missing(givenA: bool, givenB: bool, givenC: bool, givenTheta: bool): seq<Quantity> {
    (if givenA then [] else [SideA]) + (if givenB then [] else [SideB])
    + (if givenC then [] else [Hypotenuse]) + (if givenTheta then [] else [Angle])
  }

  /** With exactly one key missing, that key is the first of the list and every other key is given. */
  lemma MissingOne(givenA: bool, givenB: bool, givenC: bool, givenTheta: bool)
    requires |Missing(givenA, givenB, givenC, givenTheta)| == 1
    ensures var q := Missing(givenA, givenB, givenC, givenTheta)[0];
      && (q == SideA ==> !givenA && givenB && givenC && givenTheta)
      && (q == SideB ==> givenA && !givenB && givenC && givenTheta)
      && (q == Hypotenuse ==> givenA && givenB && !givenC && givenTheta)
      && (q == Angle ==> givenA && givenB && givenC && !givenTheta)
  {
    var rest := (if givenB then [] else [SideB]) + (if givenC then [] else [Hypotenuse]) + (if givenTheta then [] else [Angle]);
    assert Missing(givenA, givenB, givenC, givenTheta) == (if givenA then [] else [SideA]) + rest;
    assert SideA !in rest;
  }

  /** `bad(x)`: not a positive finite number. */
  predicate Bad(x: Num) {
    x.NonFinite? || x.r <= 0.0
  }

  function AbsReal(x: real): real { if x < 0.0 then -x else x }

  /** The final check of the solver: every length positive. */
  function CheckLengths(t: Triangle): Result<Triangle, string> {
    if t.a <= 0.0 || t.b <= 0.0 || t.c <= 0.0 then Failure(TRI_LENGTHS_POSITIVE) else Success(t)
  }

  /** `Math.sqrt(c*c - b*b)`: the other leg, from one leg and the hypotenuse. */
  function OtherLeg(m: MathLib, leg: real, hyp: real): real {
    m.sqrt(hyp * hyp - leg * leg)
  }

  /** `Math.sqrt(a*a + b*b)`: the hypotenuse, from the two legs. */
  function HypotenuseOf(m: MathLib, a: real, b: real): real {
    m.sqrt(a * a + b * b)
  }

  /** Pythagoras for OtherLeg: for 0 < leg < hyp the result is a positive leg completing the right triangle. */
  lemma OtherLegLaw(m: MathLib, leg: real, hyp: real)
    requires Sound(m) && 0.0 < leg < hyp
    ensures OtherLeg(m, leg, hyp) > 0.0
    ensures OtherLeg(m, leg, hyp) * OtherLeg(m, leg, hyp) + leg * leg == hyp * hyp
  {
    SquareGap(leg, hyp);
    assert SqrtAt(m, hyp * hyp - leg * leg);
  }

  /** Pythagoras for HypotenuseOf: for positive legs, c² = a² + b² and c is longer than either leg. */
  lemma HypotenuseLaw(m: MathLib, a: real, b: real)
    requires Sound(m) && 0.0 < a && 0.0 < b
    ensures HypotenuseOf(m, a, b) * HypotenuseOf(m, a, b) == a * a + b * b
    ensures HypotenuseOf(m, a, b) > a && HypotenuseOf(m, a, b) > b
  {
    SquarePositive(a);
    SquarePositive(b);
    assert SqrtAt(m, a * a + b * b);
    HypotenuseLonger(m, a, b);
  }

  /** Reference table for the solver: exactly one quantity missing, and for it only the first pair of
      the source's case table (b+c for a, a+c for b, a+b for c, a+b for θ), followed by the length check. */
  function Solved(m: MathLib, a0: Num, b0: Num, c0: Num, th0: Num): Result<Triangle, string> {
    if a0.NonFinite? && b0.Finite? && c0.Finite? && th0.Finite? then
      if Bad(b0) || Bad(c0) || c0.r <= b0.r then Failure(TRI_NEED_C_GT_B)
      else CheckLengths(Triangle(OtherLeg(m, b0.r, c0.r), b0.r, c0.r, th0.r))
    else if a0.Finite? && b0.NonFinite? && c0.Finite? && th0.Finite? then
      if Bad(a0) || Bad(c0) || c0.r <= a0.r then Failure(TRI_NEED_C_GT_A)
      else CheckLengths(Triangle(a0.r, OtherLeg(m, a0.r, c0.r), c0.r, th0.r))
    else if a0.Finite? && b0.Finite? && c0.NonFinite? && th0.Finite? then
      if Bad(a0) || Bad(b0) then Failure(TRI_AB_POSITIVE)
      else CheckLengths(Triangle(a0.r, b0.r, HypotenuseOf(m, a0.r, b0.r), th0.r))
    else if a0.Finite? && b0.Finite? && c0.Finite? && th0.NonFinite? then
      if Bad(a0) || Bad(b0) then Failure(TRI_AB_POSITIVE)
      else CheckLengths(Triangle(a0.r, b0.r, c0.r, RadToDeg(m.atan2(b0.r, a0.r))))
    else Failure(TRI_THREE_OF_FOUR)
  }

  /** `solveRightTriangle(v)`, statement by statement: the case table with all its fallback pairs, the
      back-fill of still-unknown quantities and the final checks. Its result is always that of the reference
      table, so with exactly one quantity missing, every fallback pair, every "組合せ不足" throw, every
      back-fill assignment and the "計算失敗" throw are dead code. */
  method SolveRightTriangle(m: MathLib, a0: Num, b0: Num, c0: Num, th0: Num) returns (r: Result<Triangle, string>)
    ensures r == Solved(m, a0, b0, c0, th0)
  {
    var givenA, givenB, givenC, givenTheta := a0.Finite?, b0.Finite?, c0.Finite?, th0.Finite?;
    var missing := Missing(givenA, givenB, givenC, givenTheta);
    if |missing| != 1 {
      return Failure(TRI_THREE_OF_FOUR);
    }
    MissingOne(givenA, givenB, givenC, givenTheta);
    var a, b, c, thetaDeg := a0, b0, c0, th0;
    match missing[0] {
    case SideA =>
      if givenB && givenC {
        if Bad(b) || Bad(c) || Value(c) <= Value(b) { return Failure(TRI_NEED_C_GT_B); }
        a := Finite(OtherLeg(m, Value(b), Value(c)));
      } else if givenC && givenTheta {
        if Bad(c) { return Failure(TRI_C_POSITIVE); }
        a := Finite(Value(c) * m.cos(DegToRad(Value(thetaDeg))));
      } else if givenB && givenTheta {
        if Bad(b) { return Failure(TRI_B_POSITIVE); }
        a := Div(Value(b), m.tan(DegToRad(Value(thetaDeg))));
      } else {
        return Failure(TRI_A_NOT_ENOUGH);
      }
    case SideB =>
      if givenA && givenC {
        if Bad(a) || Bad(c) || Value(c) <= Value(a) { return Failure(TRI_NEED_C_GT_A); }
        b := Finite(OtherLeg(m, Value(a), Value(c)));
      } else if givenC && givenTheta {
        if Bad(c) { return Failure(TRI_C_POSITIVE); }
        b := Finite(Value(c) * m.sin(DegToRad(Value(thetaDeg))));
      } else if givenA && givenTheta {
        if Bad(a) { return Failure(TRI_A_POSITIVE); }
        b := Finite(Value(a) * m.tan(DegToRad(Value(thetaDeg))));
      } else {
        return Failure(TRI_B_NOT_ENOUGH);
      }
    case Hypotenuse =>
      if givenA && givenB {
        if Bad(a) || Bad(b) { return Failure(TRI_AB_POSITIVE); }
        c := Finite(HypotenuseOf(m, Value(a), Value(b)));
      } else if givenA && givenTheta {
        if Bad(a) { return Failure(TRI_A_POSITIVE); }
        var cosv := m.cos(DegToRad(Value(thetaDeg)));
        if AbsReal(cosv) < 0.000000000001 { return Failure(TRI_COS_NEAR_ZERO); }
        c := Div(Value(a), cosv);
      } else if givenB && givenTheta {
        if Bad(b) { return Failure(TRI_B_POSITIVE); }
        var sinv := m.sin(DegToRad(Value(thetaDeg)));
        if AbsReal(sinv) < 0.000000000001 { return Failure(TRI_SIN_NEAR_ZERO); }
        c := Div(Value(b), sinv);
      } else {
        return Failure(TRI_C_NOT_ENOUGH);
      }
    case Angle =>
      if givenA && givenB {
        if Bad(a) || Bad(b) { return Failure(TRI_AB_POSITIVE); }
        thetaDeg := Finite(RadToDeg(m.atan2(Value(b), Value(a))));
      } else if givenA && givenC {
        if Bad(a) || Bad(c) || Value(c) < Value(a) { return Failure(TRI_NEED_C_GE_A); }
        thetaDeg := Finite(RadToDeg(m.acos(Value(Div(Value(a), Value(c))))));
      } else if givenB && givenC {
        if Bad(b) || Bad(c) || Value(c) < Value(b) { return Failure(TRI_NEED_C_GE_B); }
        thetaDeg := Finite(RadToDeg(m.asin(Value(Div(Value(b), Value(c))))));
      } else {
        return Failure(TRI_THETA_NOT_ENOUGH);
      }
    }

    if c.NonFinite? && a.Finite? && b.Finite? { c := Finite(HypotenuseOf(m, Value(a), Value(b))); }
    if a.NonFinite? && c.Finite? && thetaDeg.Finite? { a := Finite(Value(c) * m.cos(DegToRad(Value(thetaDeg)))); }
    if b.NonFinite? && c.Finite? && thetaDeg.Finite? { b := Finite(Value(c) * m.sin(DegToRad(Value(thetaDeg)))); }

    if !(a.Finite? && b.Finite? && c.Finite? && thetaDeg.Finite?) { return Failure(TRI_FAILED); }
    if Value(a) <= 0.0 || Value(b) <= 0.0 || Value(c) <= 0.0 { return Failure(TRI_LENGTHS_POSITIVE); }
    r := Success(Triangle(Value(a), Value(b), Value(c), Value(thetaDeg)));
  }

  function CountMissing(a0: Num, b0: Num, c0: Num, th0: Num): nat {
    (if a0.Finite? then 0 else 1) + (if b0.Finite? then 0 else 1) + (if c0.Finite? then 0 else 1) + (if th0.Finite? then 0 else 1)
  }

  /** Unless exactly one quantity is missing the solver throws; on success the given quantities come back
      unchanged and all three lengths are positive (the angle is not range-checked). */
  lemma SolvedShape(m: MathLib, a0: Num, b0: Num, c0: Num, th0: Num)
    ensures CountMissing(a0, b0, c0, th0) != 1 ==> Solved(m, a0, b0, c0, th0) == Failure(TRI_THREE_OF_FOUR)
    ensures Solved(m, a0, b0, c0, th0).Success? ==>
      var t := Solved(m, a0, b0, c0, th0).value;
      && CountMissing(a0, b0, c0, th0) == 1
      && (a0.Finite? ==> t.a == a0.r) && (b0.Finite? ==> t.b == b0.r)
      && (c0.Finite? ==> t.c == c0.r) && (th0.Finite? ==> t.thetaDeg == th0.r)
      && t.a > 0.0 && t.b > 0.0 && t.c > 0.0
  {
  }

  /** Missing a: solvable exactly when b and c are positive and c > b; a is then the other leg √(c² − b²),
      positive and with a² + b² = c² (OtherLegLaw). */
  lemma SolveForSideA(m: MathLib, b: real, c: real, th: real)
    requires Sound(m)
    ensures Solved(m, NonFinite, Finite(b), Finite(c), Finite(th)).Success? <==> 0.0 < b < c
    ensures 0.0 < b < c ==> Solved(m, NonFinite, Finite(b), Finite(c), Finite(th)) == Success(Triangle(OtherLeg(m, b, c), b, c, th))
  {
    if 0.0 < b < c {
      OtherLegLaw(m, b, c);
    }
  }

  /** Missing b: solvable exactly when a and c are positive and c > a; b is then the other leg √(c² − a²). */
  lemma SolveForSideB(m: MathLib, a: real, c: real, th: real)
    requires Sound(m)
    ensures Solved(m, Finite(a), NonFinite, Finite(c), Finite(th)).Success? <==> 0.0 < a < c
    ensures 0.0 < a < c ==> Solved(m, Finite(a), NonFinite, Finite(c), Finite(th)) == Success(Triangle(a, OtherLeg(m, a, c), c, th))
  {
    if 0.0 < a < c {
      OtherLegLaw(m, a, c);
    }
  }

  /** Missing c: solvable exactly when a and b are positive; c is then √(a² + b²) (HypotenuseLaw). */
  lemma SolveForHypotenuse(m: MathLib, a: real, b: real, th: real)
    requires Sound(m)
    ensures Solved(m, Finite(a), Finite(b), NonFinite, Finite(th)).Success? <==> 0.0 < a && 0.0 < b
    ensures 0.0 < a && 0.0 < b ==> Solved(m, Finite(a), Finite(b), NonFinite, Finite(th)) == Success(Triangle(a, b, HypotenuseOf(m, a, b), th))
  {
    if 0.0 < a && 0.0 < b {
      HypotenuseLaw(m, a, b);
    }
  }

  /** Missing θ: solvable exactly when a and b are positive; θ is then atan2(b, a) in degrees. */
  lemma SolveForAngle(m: MathLib, a: real, b: real, c: real)
    ensures Solved(m, Finite(a), Finite(b), Finite(c), NonFinite).Success? <==> 0.0 < a && 0.0 < b && 0.0 < c
    ensures 0.0 < a && 0.0 < b && 0.0 < c ==>
      Solved(m, Finite(a), Finite(b), Finite(c), NonFinite) == Success(Triangle(a, b, c, RadToDeg(m.atan2(b, a))))
  {
  }

  /** A consistent right triangle: positive legs, c² = a² + b² and θ = atan2(b, a) in degrees. */
  ghost predicate Consistent(m: MathLib, t: Triangle) {
    && t.a > 0.0 && t.b > 0.0 && t.c > 0.0 && t.c * t.c == t.a * t.a + t.b * t.b
    && t.thetaDeg == RadToDeg(m.atan2(t.b, t.a))
  }

  /** A consistent triangle is reproduced exactly whichever one of its four quantities is left blank. */
  lemma SolveRoundTrip(m: MathLib, t: Triangle)
    requires Sound(m) && Consistent(m, t)
    ensures Solved(m, NonFinite, Finite(t.b), Finite(t.c), Finite(t.thetaDeg)) == Success(t)
    ensures Solved(m, Finite(t.a), NonFinite, Finite(t.c), Finite(t.thetaDeg)) == Success(t)
    ensures Solved(m, Finite(t.a), Finite(t.b), NonFinite, Finite(t.thetaDeg)) == Success(t)
    ensures Solved(m, Finite(t.a), Finite(t.b), Finite(t.c), NonFinite) == Success(t)
  {
    ConsistentSides(m, t.a, t.b, t.c);
    HypotenuseLaw(m, t.a, t.b);
    SolveForHypotenuse(m, t.a, t.b, t.thetaDeg);
    SolveForSideA(m, t.b, t.c, t.thetaDeg);
    SolveForSideB(m, t.a, t.c, t.thetaDeg);
  }

  /** For positive sides with c² = a² + b², the helper functions give back the sides. */
  lemma ConsistentSides(m: MathLib, a: real, b: real, c: real)
    requires Sound(m) && 0.0 < a && 0.0 < b && 0.0 < c && c * c == a * a + b * b
    ensures HypotenuseOf(m, a, b) == c && OtherLeg(m, b, c) == a && OtherLeg(m, a, c) == b
  {
    SqrtOfSquare(m, c, a * a + b * b);
    LegsFromHypotenuse(a, b, c);
    SqrtOfSquare(m, a, c * c - b * b);
    SqrtOfSquare(m, b, c * c - a * a);
  }

  lemma LegsFromHypotenuse(a: real, b: real, c: real)
    requires c * c == a * a + b * b
    ensures c * c - b * b == a * a && c * c - a * a == b * b
  {
  }

  /** tri_right_auto's compute: the solver's a as primary, then b, c and θ. */
  function TriRightCompute(m: MathLib, v: Inputs): CallOutcome {
    match Solved(m, NumOf(v, "a"), NumOf(v, "b"), NumOf(v, "c"), NumOf(v, "theta"))
    case Failure(e) => Threw(e)
    case Success(t) =>
      Returned(PrimaryOthers(Labelled("a", t.a, "mm"),
        [Labelled("b", t.b, "mm"), Labelled("c", t.c, "mm"), Labelled("θ", t.thetaDeg, "deg")]))
  }

  /** coord_dist: √(dx² + dy²). */
  function Distance(m: MathLib, x1: real, y1: real, x2: real, y2: real): real {
    var dx := x2 - x1;
    var dy := y2 - y1;
    m.sqrt(dx * dx + dy * dy)
  }

  /** The distance is non-negative and its square is the sum of the squared differences. */
  lemma DistanceIsEuclidean(m: MathLib, x1: real, y1: real, x2: real, y2: real)
    requires Sound(m)
    ensures Distance(m, x1, y1, x2, y2) >= 0.0
    ensures var d := Distance(m, x1, y1, x2, y2);
      d * d == (x2 - x1) * (x2 - x1) + (y2 - y1) * (y2 - y1)
  {
    SumOfSquaresNonNegative(x2 - x1, y2 - y1);
    assert SqrtAt(m, (x2 - x1) * (x2 - x1) + (y2 - y1) * (y2 - y1));
  }

  function CoordDistCompute(m: MathLib, v: Inputs): CallOutcome {
    Returned(NumberOut(
      if AllFinite(v, ["x1", "y1", "x2", "y2"]) then Finite(Distance(m, Val(v, "x1"), Val(v, "y1"), Val(v, "x2"), Val(v, "y2")))
      else NonFinite))
  }

  function CoordAngleCompute(m: MathLib, v: Inputs): CallOutcome {
    Returned(NumberOut(
      if AllFinite(v, ["x1", "y1", "x2", "y2"]) then Finite(RadToDeg(m.atan2(Val(v, "y2") - Val(v, "y1"), Val(v, "x2") - Val(v, "x1"))))
      else NonFinite))
  }

  /** pcd_angle_to_xy: the point at angle θ on the circle of diameter PCD around (cx, cy). */
  function PitchCirclePoint(m: MathLib, pcd: real, theta: real, cx: real, cy: real): RawOutput {
    var r := pcd / 2.0;
    var th := DegToRad(theta);
    PrimaryOthers(Labelled("X", cx + r * m.cos(th), "mm"), [Labelled("Y", cy + r * m.sin(th), "mm")])
  }

  /** The point lies on the pitch circle: its distance from the centre is PCD/2. */
  lemma PitchCirclePointOnCircle(m: MathLib, pcd: real, theta: real, cx: real, cy: real)
    requires Sound(m)
    ensures var out := PitchCirclePoint(m, pcd, theta, cx, cy);
      var x, y := out.primary.value.value.value.r, out.others.value[0].value.value.r;
      (x - cx) * (x - cx) + (y - cy) * (y - cy) == (pcd / 2.0) * (pcd / 2.0)
  {
    var r, th := pcd / 2.0, DegToRad(theta);
    var s, c := m.sin(th), m.cos(th);
    TrigLaw(m, th);
    assert (r * c) * (r * c) + (r * s) * (r * s) == r * r * (s * s + c * c);
  }

  function PcdCompute(m: MathLib, v: Inputs): CallOutcome {
    if AllFinite(v, ["pcd", "theta", "cx", "cy"]) then Returned(PitchCirclePoint(m, Val(v, "pcd"), Val(v, "theta"), Val(v, "cx"), Val(v, "cy")))
    else Returned(PrimaryOthers(Captioned("X", NonFinite, "mm"), [Captioned("Y", NonFinite, "mm")]))
  }

  const JG_NOT_NUMBERS := "数値を入力してください"
  const JG_BAD_R := "Rは0より大きくしてください"
  const JG_BAD_RG := "RGは0以上で入力してください"
  const JG_BAD_ALPHA := "αは 0<α<90 で入力してください"
  const JG_ALPHA_TOO_SMALL := "αが小さすぎます"

  /** j_groove_tangent_xy's output for half-angle α, radius R and offset RG, with s = sin α and c = cos α. */
  function JGrooveOutput(r: real, rg: real, s: real, c: real): RawOutput
    requires s != 0.0
  {
    var cy := -(r + rg * c) / s;
    var x := (-rg) - r * c;
    var y := cy + r * s;
    var yBottom := cy - r;
    var h := -y;
    PrimaryOthers(Labelled("X（接点）", x, "mm"),
      [Labelled("Y（接点）", y, "mm"), Labelled("H（上面→接点）", h, "mm"),
       Labelled("Cy（中心Y）", cy, "mm"), Labelled("Y底面（参考）", yBottom, "mm")])
  }

  /** j_groove_tangent_xy's compute: four guards in order, then the expressions as written (their geometry is
      not checked here). */
  function JGrooveCompute(m: MathLib, v: Inputs): CallOutcome {
    if !IsFinite(v, "alpha") || !IsFinite(v, "R") || !IsFinite(v, "RG") then Threw(JG_NOT_NUMBERS)
    else
      var aDeg, r, rg := Val(v, "alpha"), Val(v, "R"), Val(v, "RG");
      if r <= 0.0 then Threw(JG_BAD_R)
      else if rg < 0.0 then Threw(JG_BAD_RG)
      else if aDeg <= 0.0 || aDeg >= 89.999 then Threw(JG_BAD_ALPHA)
      else
        var s, c := m.sin(DegToRad(aDeg)), m.cos(DegToRad(aDeg));
        if AbsReal(s) < 0.000000000001 then Threw(JG_ALPHA_TOO_SMALL)
        else Returned(JGrooveOutput(r, rg, s, c))
  }

  /** The J-groove guards in order (R, then RG, then α), and on success the linear relations among the five
      outputs: X = −RG − R·cos α, Y = Cy + R·sin α, H = −Y, Y-bottom = Cy − R, with Cy·sin α = −(R + RG·cos α). */
  lemma JGrooveContract(m: MathLib, v: Inputs)
    requires IsFinite(v, "alpha") && IsFinite(v, "R") && IsFinite(v, "RG")
    ensures var aDeg, r, rg := Val(v, "alpha"), Val(v, "R"), Val(v, "RG");
      && (r <= 0.0 ==> JGrooveCompute(m, v) == Threw(JG_BAD_R))
      && (r > 0.0 && rg < 0.0 ==> JGrooveCompute(m, v) == Threw(JG_BAD_RG))
      && (r > 0.0 && rg >= 0.0 && !(0.0 < aDeg < 89.999) ==> JGrooveCompute(m, v) == Threw(JG_BAD_ALPHA))
      && (JGrooveCompute(m, v).Returned? <==>
            r > 0.0 && rg >= 0.0 && 0.0 < aDeg < 89.999 && AbsReal(m.sin(DegToRad(aDeg))) >= 0.000000000001)
    ensures JGrooveCompute(m, v).Returned? ==>
      var r, rg := Val(v, "R"), Val(v, "RG");
      var s, c := m.sin(DegToRad(Val(v, "alpha"))), m.cos(DegToRad(Val(v, "alpha")));
      var out := JGrooveCompute(m, v).raw;
      var x := out.primary.value.value.value.r;
      var y := out.others.value[0].value.value.r;
      var h := out.others.value[1].value.value.r;
      var cy := out.others.value[2].value.value.r;
      var yBottom := out.others.value[3].value.value.r;
      && x == -rg - r * c
      && y == cy + r * s
      && h == -y
      && yBottom == cy - r
      && cy * s == -(r + rg * c)
  {
  }

  /** `buildCoordTemplates(settings)`: settings are not used; the transcendental functions come from `m`. */
  function BuildCoordTemplates(settings: Settings, m: MathLib): seq<Template> {
    [ Template("tri_right_auto", COORD_GROUP, "直角三角形：a,b,c,θ 自動計算",
        "a,b,c,θ のうち3つ入力 → 残りを計算（a=底辺, b=高さ, c=斜辺）", ["三角関数"], true,
        [NumberInput("a", "a（底辺）(mm)"), NumberInput("b", "b（高さ）(mm)"), NumberInput("c", "c（斜辺）(mm)"),
         NumberInput("theta", "θ（角度）(deg)")],
        ResultSpec("a", "mm"), v => TriRightCompute(m, v)),
      Template("coord_dist", COORD_GROUP, "2点間距離", "(x1,y1) と (x2,y2) の距離", [], false,
        [NumberInput("x1", "x1"), NumberInput("y1", "y1"), NumberInput("x2", "x2"), NumberInput("y2", "y2")],
        ResultSpec("距離", "mm"), v => CoordDistCompute(m, v)),
      Template("coord_angle", COORD_GROUP, "2点→角度（°）", "x軸基準の角度（atan2）", ["視覚"], false,
        [NumberInput("x1", "x1"), NumberInput("y1", "y1"), NumberInput("x2", "x2"), NumberInput("y2", "y2")],
        ResultSpec("角度", "deg"), v => CoordAngleCompute(m, v)),
      Template("pcd_angle_to_xy", COORD_GROUP, "PCD＋角度→座標（X,Y）", "PCD(mm) と 角度θ° から X,Y（中心も指定可）", ["穴位置"], false,
        [NumberInput("pcd", "PCD（直径）(mm)"), NumberInput("theta", "角度 θ (deg)"),
         NumberInputWithDefault("cx", "中心 cx (mm)", "0"), NumberInputWithDefault("cy", "中心 cy (mm)", "0")],
        ResultSpec("X", "mm"), v => PcdCompute(m, v)),
      Template("j_groove_tangent_xy", COORD_GROUP, "J開先：角度α・R・RG → 接点座標(X,Y)",
        "原点(右上)基準。中心は中心線上、右斜面にRで接する条件から接点座標(X,Y)を求める", ["J開先", "接線", "座標", "R", "RG"], false,
        [NumberInputWithDefault("alpha", "半角 α (=θ/2) (deg)", "30"), NumberInputWithDefault("R", "R (mm)", "5"),
         NumberInputWithDefault("RG", "RG（原点→中心線）(mm)", "11.55")],
        ResultSpec("X（接点）", "mm"), v => JGrooveCompute(m, v)) ]
  }
}
