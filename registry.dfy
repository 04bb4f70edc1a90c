/** templates/index.js: the fixed group order and the catalogue, the concatenation of the
    three template builders. */
module Registry {
  import opened JsMath
  import opened TemplateShape
  import opened Weights
  import opened Machining
  import opened Coords

  /** `GROUP_ORDER` */
  const GROUP_ORDER: seq<string> := [WEIGHT_GROUP, MACHINING_GROUP, COORD_GROUP]

  /** `buildTemplates(settings)`: the weight templates, then machining, then coordinates, each builder
      receiving the same settings. */
  function BuildTemplates(settings: Settings, m: MathLib): (r: seq<Template>)
    ensures |r| == |BuildWeightTemplates(settings)| + |BuildMachiningTemplates(settings)| + |BuildCoordTemplates(settings, m)|
  {
    BuildWeightTemplates(settings) + BuildMachiningTemplates(settings) + BuildCoordTemplates(settings, m)
  }

  /** The catalogue starts with the weight templates, has the machining ones next and ends with the
      coordinate ones, each builder's list kept in its own order. */
  lemma CatalogueOrder(settings: Settings, m: MathLib)
    ensures var ts, w, k := BuildTemplates(settings, m), BuildWeightTemplates(settings), BuildMachiningTemplates(settings);
      && ts[..|w|] == w
      && ts[|w|..|w| + |k|] == k
      && ts[|w| + |k|..] == BuildCoordTemplates(settings, m)
  {
    ThreeParts(BuildWeightTemplates(settings), BuildMachiningTemplates(settings), BuildCoordTemplates(settings, m));
  }

  lemma ThreeParts<T>(a: seq<T>, b: seq<T>, c: seq<T>)
    ensures (a + b + c)[..|a|] == a && (a + b + c)[|a|..|a| + |b|] == b && (a + b + c)[|a| + |b|..] == c
  {
  }

  function Ids(ts: seq<Template>): seq<string> {
    seq(|ts|, i requires 0 <= i < |ts| => ts[i].id)
  }

  predicate Distinct(s: seq<string>) {
    forall i, j :: 0 <= i < j < |s| ==> s[i] != s[j]
  }

  /** The ids `buildTemplates` gives, in catalogue order. */
  const CATALOGUE_IDS: seq<string> :=
    ["w_roundbar", "w_plate", "w_pipe_dual", "vol_box", "vol_cyl",
     "vc_rpm", "feed_fz_z_rpm", "feed_solve_fz_from_F_z_rpm", "circumference_arc",
     "tri_right_auto", "coord_dist", "coord_angle", "pcd_angle_to_xy", "j_groove_tangent_xy"]

  /** A number determined by a string's length and its first and fifth characters. */
  function Signature(s: string): int {
    |s| * 0x110000 * 0x110000 + (if |s| > 0 then s[0] as int else 0) * 0x110000 + (if |s| > 4 then s[4] as int else 0)
  }

  /** The catalogue ids have pairwise distinct signatures, hence are pairwise distinct. */
  lemma CatalogueIdsDistinct()
    ensures Distinct(CATALOGUE_IDS)
  {
    var sigs := seq(|CATALOGUE_IDS|, i requires 0 <= i < |CATALOGUE_IDS| => Signature(CATALOGUE_IDS[i]));
    assert sigs == [12412588064885, 8688851419233, 13653833613424, 8688850305122, 8688850305123,
                    7447604756592, 16136305770591, 32272497901663, 21101284622453, 17377566916722,
                    12412565782628, 13653811331172, 18618808008801, 23583783518319];
    forall i, j | 0 <= i < j < |CATALOGUE_IDS| ensures CATALOGUE_IDS[i] != CATALOGUE_IDS[j] {
      assert sigs[i] != sigs[j];
    }
  }

  /** The catalogue has fourteen templates and their ids are pairwise distinct, so a lookup by id is
      unambiguous. */
  lemma IdsDistinct(settings: Settings, m: MathLib)
    ensures |BuildTemplates(settings, m)| == 14
    ensures Distinct(Ids(BuildTemplates(settings, m)))
  {
    assert Ids(BuildTemplates(settings, m)) == CATALOGUE_IDS;
    CatalogueIdsDistinct();
  }

  /** Within each template the input keys are pairwise distinct. */
  lemma InputKeysDistinct(settings: Settings, m: MathLib)
    ensures forall i :: 0 <= i < |BuildTemplates(settings, m)| ==> KeysDistinct(BuildTemplates(settings, m)[i].inputs)
  {
    var w, k, c := BuildWeightTemplates(settings), BuildMachiningTemplates(settings), BuildCoordTemplates(settings, m);
    WeightKeysDistinct(settings);
    MachiningKeysDistinct(settings);
    CoordKeysDistinct(settings, m);
    var ts := BuildTemplates(settings, m);
    forall i | 0 <= i < |ts| ensures KeysDistinct(ts[i].inputs) {
      if i < |w| {
        assert ts[i] == w[i];
      } else if i < |w| + |k| {
        assert ts[i] == k[i - |w|];
      } else {
        assert ts[i] == c[i - |w| - |k|];
      }
    }
  }

  lemma WeightKeysDistinct(settings: Settings)
    ensures forall i :: 0 <= i < |BuildWeightTemplates(settings)| ==> KeysDistinct(BuildWeightTemplates(settings)[i].inputs)
  {
  }

  lemma MachiningKeysDistinct(settings: Settings)
    ensures forall i :: 0 <= i < |BuildMachiningTemplates(settings)| ==> KeysDistinct(BuildMachiningTemplates(settings)[i].inputs)
  {
  }

  lemma CoordKeysDistinct(settings: Settings, m: MathLib)
    ensures forall i :: 0 <= i < |BuildCoordTemplates(settings, m)| ==> KeysDistinct(BuildCoordTemplates(settings, m)[i].inputs)
  {
  }

  /** Every template belongs to one of the ordered groups, so the list can show every one of them.
      The groups as the list shows them: 重量計算 has the five weight templates, 加工関係 the three
      feed and speed templates, and 座標計算 the circumference/arc template from the machining builder
      followed by the five coordinate templates. */
  lemma GroupSizes(settings: Settings, m: MathLib)
    ensures var ts := BuildTemplates(settings, m);
      && (forall i :: 0 <= i < 5 ==> ts[i].group == WEIGHT_GROUP)
      && (forall i :: 5 <= i < 8 ==> ts[i].group == MACHINING_GROUP)
      && (forall i :: 8 <= i < 14 ==> ts[i].group == COORD_GROUP)
      && (forall i :: 0 <= i < |ts| ==> ts[i].group in GROUP_ORDER)
  {
    var ts := BuildTemplates(settings, m);
    assert |ts| == 14;
  }
}
