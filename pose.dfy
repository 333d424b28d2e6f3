// `PosePreprocessor` (OpenPose) and its subclasses: the pose type chosen
// from the processor id, the joint connections of each skeleton, the
// parameter defaults and schema per type, and the model loader that never
// yields a model.  The contour-based stick figure is not modelled.

module Pose {
  import opened Wrappers
  import opened Text
  import opened Params
  import Preprocessor

  datatype PoseType = Body | Hand | Face

  /**
   * `_determine_pose_type`: body, hand or face by the first of those words
   * the lower-cased id contains, body when it contains none.
   */
  function DeterminePoseType(processorId: string): (t: PoseType)
    ensures var id := Lower(processorId);
      t == Body <==> Contains(id, "body") || (!Contains(id, "hand") && !Contains(id, "face"))
    ensures var id := Lower(processorId);
      t == Hand <==> !Contains(id, "body") && Contains(id, "hand")
    ensures var id := Lower(processorId);
      t == Face <==> !Contains(id, "body") && !Contains(id, "hand") && Contains(id, "face")
  {
    var id := Lower(processorId);
    if Contains(id, "body") then Body
    else if Contains(id, "hand") then Hand
    else if Contains(id, "face") then Face
    else Body
  }

  /** The case of the id does not matter. */
  lemma PoseTypeIgnoresCase(processorId: string)
    ensures DeterminePoseType(Lower(processorId)) == DeterminePoseType(processorId)
  {
    LowerIdempotent(processorId);
  }

  /** The default ids of the three subclasses. */
  lemma BodyIdIsBody(id: string)
    requires id == "openpose_body"
    ensures DeterminePoseType(id) == Body
  {
    assert Lower(id) == id;
    ContainedAt(id, "body", 9);
  }

  lemma HandIdIsHand(id: string)
    requires id == "openpose_hand"
    ensures DeterminePoseType(id) == Hand
  {
    assert Lower(id) == id;
    MissingCharNotContained(id, "body", 'b');
    ContainedAt(id, "hand", 9);
  }

  /** The built-in id names no part and gets the default, body. */
  lemma BuiltinIdIsBody(id: string)
    requires id == "openpose_builtin"
    ensures DeterminePoseType(id) == Body
  {
    assert Lower(id) == id;
    BuiltinIdNamesNoPart(id);
  }

  lemma BuiltinIdNamesNoPart(id: string)
    requires id == "openpose_builtin"
    ensures !Contains(id, "body") && !Contains(id, "hand") && !Contains(id, "face")
  {
    MissingCharNotContained(id, "body", 'y');
    MissingCharNotContained(id, "hand", 'h');
    MissingCharNotContained(id, "face", 'f');
  }

  /** Consecutive joints `lo`, `lo + 1`, ..., `hi` linked one after another. */
  function Chain(lo: nat, hi: nat): (c: seq<(nat, nat)>)
    requires lo <= hi
    ensures |c| == hi - lo
    ensures forall k :: 0 <= k < |c| ==> c[k] == (lo + k, lo + k + 1)
    decreases hi - lo
  {
    if lo == hi then [] else [(lo, lo + 1)] + Chain(lo + 1, hi)
  }

  /**
   * The 21-joint hand: the thumb chain 0..4, then each further finger's
   * chain followed by the link from the wrist (joint 0) to its base.
   */
  function HandConnections(): seq<(nat, nat)>
  {
    Chain(0, 4) + Chain(5, 8) + [(0, 5)] + Chain(9, 12) + [(0, 9)]
    + Chain(13, 16) + [(0, 13)] + Chain(17, 20) + [(0, 17)]
  }

  /** The same list written out pair by pair. */
  lemma HandConnectionsListed()
    ensures HandConnections() == [
      (0, 1), (1, 2), (2, 3), (3, 4), (5, 6), (6, 7), (7, 8), (0, 5), (9, 10), (10, 11),
      (11, 12), (0, 9), (13, 14), (14, 15), (15, 16), (0, 13), (17, 18), (18, 19), (19, 20), (0, 17)]
  {
  }

  /** The position in the hand list of the link that ends at joint `j`. */
  function LinkTo(j: nat): nat
    requires 1 <= j <= 20
  {
    if j <= 4 then j - 1 else if j % 4 == 1 then j + 2 else j - 2
  }

  /**
   * The hand skeleton is a tree rooted at the wrist: 20 links, each from a
   * lower joint to a higher one within 0..20, and every other joint is the
   * far end of exactly one link (the one `LinkTo` names).  The four finger
   * bases after the thumb hang off joint 0.
   */
  lemma HandIsTree()
    ensures |HandConnections()| == 20
    ensures forall k :: 0 <= k < 20 ==> HandConnections()[k].0 < HandConnections()[k].1 <= 20
    ensures forall j :: 1 <= j <= 20 ==> LinkTo(j) < 20 && HandConnections()[LinkTo(j)].1 == j
    ensures forall k :: 0 <= k < 20 ==> LinkTo(HandConnections()[k].1) == k
    ensures HandConnections()[7] == (0, 5) && HandConnections()[11] == (0, 9)
    ensures HandConnections()[15] == (0, 13) && HandConnections()[19] == (0, 17)
  {
    HandLinksAscend();
    HandLinkInverse();
  }

  lemma HandLinksAscend()
    ensures |HandConnections()| == 20
    ensures forall k :: 0 <= k < 20 ==> HandConnections()[k].0 < HandConnections()[k].1 <= 20
  {
    HandConnectionsListed();
  }

  lemma HandLinkInverse()
    ensures |HandConnections()| == 20
    ensures forall j :: 1 <= j <= 20 ==> LinkTo(j) < 20 && HandConnections()[LinkTo(j)].1 == j
    ensures forall k :: 0 <= k < 20 ==> 1 <= HandConnections()[k].1 <= 20 && LinkTo(HandConnections()[k].1) == k
  {
    HandLinkFound();
    HandLinkUnique();
  }

  lemma HandLinkFound()
    ensures |HandConnections()| == 20
    ensures forall j :: 1 <= j <= 20 ==> LinkTo(j) < 20 && HandConnections()[LinkTo(j)].1 == j
  {
    HandConnectionsListed();
    var h := HandConnections();
    forall j | 1 <= j <= 20
      ensures LinkTo(j) < 20 && h[LinkTo(j)].1 == j
    {
      if j <= 10 {
        HandLinkFoundLow(j);
      } else {
        HandLinkFoundHigh(j);
      }
    }
  }

  lemma HandLinkFoundLow(j: nat)
    requires 1 <= j <= 10
    ensures LinkTo(j) < 20 && HandConnections()[LinkTo(j)].1 == j
  {
    HandConnectionsListed();
    assert j in {1, 2, 3, 4, 5, 6, 7, 8, 9, 10};
  }

  lemma HandLinkFoundHigh(j: nat)
    requires 11 <= j <= 20
    ensures LinkTo(j) < 20 && HandConnections()[LinkTo(j)].1 == j
  {
    HandConnectionsListed();
    assert j in {11, 12, 13, 14, 15, 16, 17, 18, 19, 20};
  }

  lemma HandLinkUnique()
    ensures |HandConnections()| == 20
    ensures forall k :: 0 <= k < 20 ==> 1 <= HandConnections()[k].1 <= 20 && LinkTo(HandConnections()[k].1) == k
  {
    HandConnectionsListed();
  }

  /** Distinct links end at distinct joints. */
  lemma HandFarEndsDistinct(k: nat, l: nat)
    requires k < l < 20
    ensures HandConnections()[k].1 != HandConnections()[l].1
  {
    HandIsTree();
  }

  /** The 25-point OpenPose body, as listed (some links appear twice). */
  const BodyConnections: seq<(nat, nat)> := [
    (1, 2), (1, 5), (2, 3), (3, 4), (5, 6), (6, 7),
    (1, 8), (8, 9), (9, 10), (1, 11), (11, 12), (12, 13),
    (1, 0), (0, 15), (15, 17), (0, 16), (16, 18),
    (2, 9), (5, 12), (9, 10), (12, 13),
    (8, 11), (11, 22), (22, 23), (11, 24), (24, 19),
    (8, 9), (9, 20), (20, 21)]

  /** Every body link joins two of the 25 body points; (8, 9) and (9, 10) are listed twice. */
  lemma BodyConnectionsInRange()
    ensures |BodyConnections| == 29
    ensures forall k :: 0 <= k < |BodyConnections| ==> BodyConnections[k].0 < 25 && BodyConnections[k].1 < 25
    ensures BodyConnections[8] == BodyConnections[19] == (9, 10)
    ensures BodyConnections[7] == BodyConnections[26] == (8, 9)
  {
  }

  /** `_get_joint_connections`: the face has none. */
  function JointConnections(t: PoseType): (c: seq<(nat, nat)>)
    ensures t == Face <==> c == []
    ensures forall k :: 0 <= k < |c| ==> c[k].0 < 25 && c[k].1 < 25
  {
    BodyConnectionsInRange();
    HandIsTree();
    match t
    case Body => BodyConnections
    case Hand => HandConnections()
    case Face => []
  }

  const NumberKeys: set<string> := {"threshold", "line_width", "point_radius"}
  const FlagKeys: set<string> := {"detect_body", "detect_hand", "detect_face", "draw_skeleton", "draw_points"}
  const NameKeys: set<string> := {"skeleton_color", "point_color", "background_color"}

  /** The eleven keys every pose type shares. */
  const BaseKeys: set<string> := NumberKeys + FlagKeys + NameKeys

  const NumberDefaults: Settings :=
    map["threshold" := VFloat(0.4, "0.4"), "line_width" := VInt(2), "point_radius" := VInt(3)]
  const FlagDefaults: Settings := map[
    "detect_body" := VBool(true), "detect_hand" := VBool(false), "detect_face" := VBool(false),
    "draw_skeleton" := VBool(true), "draw_points" := VBool(true)]
  const NameDefaults: Settings :=
    map["skeleton_color" := VStr("white"), "point_color" := VStr("red"), "background_color" := VStr("black")]

  /** The shared defaults. */
  const BaseDefaults: Settings := NumberDefaults + FlagDefaults + NameDefaults

  const NumberSchema: Schema := map[
    "threshold" := Ranged(FloatParam, 0.0, 1.0), "line_width" := Ranged(IntParam, 1.0, 10.0),
    "point_radius" := Ranged(IntParam, 1.0, 10.0)]
  const FlagSchema: Schema := map[
    "detect_body" := ParamSpec(Some(BoolParam), None, None), "detect_hand" := ParamSpec(Some(BoolParam), None, None),
    "detect_face" := ParamSpec(Some(BoolParam), None, None), "draw_skeleton" := ParamSpec(Some(BoolParam), None, None),
    "draw_points" := ParamSpec(Some(BoolParam), None, None)]
  const NameSchema: Schema := map[
    "skeleton_color" := ParamSpec(Some(StrParam), None, None), "point_color" := ParamSpec(Some(StrParam), None, None),
    "background_color" := ParamSpec(Some(StrParam), None, None)]

  /** The shared schema. */
  const BaseSchema: Schema := NumberSchema + FlagSchema + NameSchema

  /** The two keys each pose type adds. */
  function SpecificKeys(t: PoseType): set<string>
  {
    match t
    case Body => {"body_threshold", "min_part_count"}
    case Hand => {"hand_threshold", "min_finger_count"}
    case Face => {"face_threshold", "min_feature_count"}
  }

  function SpecificDefaults(t: PoseType): Settings
  {
    match t
    case Body => map["body_threshold" := VFloat(0.4, "0.4"), "min_part_count" := VInt(3)]
    case Hand => map["hand_threshold" := VFloat(0.4, "0.4"), "min_finger_count" := VInt(2)]
    case Face => map["face_threshold" := VFloat(0.4, "0.4"), "min_feature_count" := VInt(5)]
  }

  /** The schema entries each type adds: none for the face. */
  function SpecificSchema(t: PoseType): Schema
  {
    match t
    case Body => map["body_threshold" := Ranged(FloatParam, 0.1, 1.0), "min_part_count" := Ranged(IntParam, 1.0, 25.0)]
    case Hand => map["hand_threshold" := Ranged(FloatParam, 0.1, 1.0), "min_finger_count" := Ranged(IntParam, 1.0, 5.0)]
    case Face => map[]
  }

  /** `get_default_parameters`. */
  function Defaults(t: PoseType): Settings
  {
    BaseDefaults + SpecificDefaults(t)
  }

  /** `get_parameter_schema`. */
  function PoseSchema(t: PoseType): Schema
  {
    BaseSchema + SpecificSchema(t)
  }

  lemma BaseKeysCount()
    ensures |BaseKeys| == 11
  {
    PartKeysDisjoint();
    assert |NumberKeys| == 3 && |FlagKeys| == 5 && |NameKeys| == 3;
    assert |NumberKeys + FlagKeys| == 8;
  }

  lemma PartKeysDisjoint()
    ensures NumberKeys !! FlagKeys && NumberKeys !! NameKeys && FlagKeys !! NameKeys
  {
  }

  /**
   * Eleven shared keys and exactly two more per type; the schema covers the
   * shared keys and the body or hand pair, never the face pair.
   */
  lemma DefaultKeys(t: PoseType)
    ensures Defaults(t).Keys == BaseKeys + SpecificKeys(t)
    ensures |SpecificKeys(t)| == 2 && BaseKeys !! SpecificKeys(t)
    ensures |Defaults(t)| == 13
    ensures PoseSchema(t).Keys == BaseKeys + (if t == Face then {} else SpecificKeys(t))
  {
    SpecificKeysAreNew(t);
    DefaultsKeySet(t);
    DefaultsSize(t);
    SchemaKeySet(t);
  }

  lemma DefaultsKeySet(t: PoseType)
    ensures Defaults(t).Keys == BaseKeys + SpecificKeys(t)
  {
    BaseMapsKeys();
    SpecificMapsKeys(t);
  }

  lemma SchemaKeySet(t: PoseType)
    ensures PoseSchema(t).Keys == BaseKeys + (if t == Face then {} else SpecificKeys(t))
  {
    BaseMapsKeys();
    SpecificMapsKeys(t);
  }

  lemma DefaultsSize(t: PoseType)
    ensures |Defaults(t)| == 13
  {
    BaseMapsKeys();
    SpecificMapsKeys(t);
    SpecificKeysAreNew(t);
    UnionCount(BaseDefaults, SpecificDefaults(t), 11, 2);
  }

  /** Keys and size of the union of two settings maps with disjoint keys. */
  lemma UnionCount(d1: Settings, d2: Settings, n1: nat, n2: nat)
    requires |d1.Keys| == n1 && |d2.Keys| == n2 && d1.Keys !! d2.Keys
    ensures (d1 + d2).Keys == d1.Keys + d2.Keys
    ensures |d1 + d2| == n1 + n2
  {
    assert |(d1 + d2).Keys| == |d1.Keys + d2.Keys|;
  }

  lemma BaseMapsKeys()
    ensures BaseDefaults.Keys == BaseKeys == BaseSchema.Keys
  {
    PartMapsKeys();
  }

  lemma PartMapsKeys()
    ensures NumberDefaults.Keys == NumberKeys == NumberSchema.Keys
    ensures FlagDefaults.Keys == FlagKeys == FlagSchema.Keys
    ensures NameDefaults.Keys == NameKeys == NameSchema.Keys
  {
  }

  lemma SpecificMapsKeys(t: PoseType)
    ensures SpecificDefaults(t).Keys == SpecificKeys(t)
    ensures SpecificSchema(t).Keys == (if t == Face then {} else SpecificKeys(t))
  {
  }

  lemma SpecificKeysAreNew(t: PoseType)
    ensures |SpecificKeys(t)| == 2 && BaseKeys !! SpecificKeys(t) && |BaseKeys| == 11
  {
    BaseKeysCount();
    SpecificKeysCount(t);
    SpecificNotNumbers(t);
    SpecificNotFlags(t);
    SpecificNotNames(t);
  }

  lemma SpecificKeysCount(t: PoseType) ensures |SpecificKeys(t)| == 2 {}
  lemma SpecificNotNumbers(t: PoseType) ensures SpecificKeys(t) !! NumberKeys {}
  lemma SpecificNotFlags(t: PoseType) ensures SpecificKeys(t) !! FlagKeys {}
  lemma SpecificNotNames(t: PoseType) ensures SpecificKeys(t) !! NameKeys {}

  lemma BaseDefaultsAreValid()
    ensures ValidDefaults(BaseSchema, BaseDefaults)
  {
    PartsAreValid();
    PartMapsKeys();
    PartKeysDisjoint();
    ValidUnion(NumberSchema, NumberDefaults, FlagSchema, FlagDefaults);
    ValidUnion(NumberSchema + FlagSchema, NumberDefaults + FlagDefaults, NameSchema, NameDefaults);
  }

  lemma PartsAreValid()
    ensures ValidDefaults(NumberSchema, NumberDefaults)
    ensures ValidDefaults(FlagSchema, FlagDefaults)
    ensures ValidDefaults(NameSchema, NameDefaults)
  {
    NumbersAreValid();
    FlagsAreValid();
    NamesAreValid();
  }

  lemma NumbersAreValid() ensures ValidDefaults(NumberSchema, NumberDefaults) {}
  lemma FlagsAreValid() ensures ValidDefaults(FlagSchema, FlagDefaults) {}
  lemma NamesAreValid() ensures ValidDefaults(NameSchema, NameDefaults) {}

  lemma SpecificDefaultsAreValid(t: PoseType)
    requires t != Face
    ensures ValidDefaults(SpecificSchema(t), SpecificDefaults(t))
  {
  }

  /** The body and hand defaults pass their own schema. */
  lemma DefaultsAreValid(t: PoseType)
    requires t != Face
    ensures ValidDefaults(PoseSchema(t), Defaults(t))
  {
    BaseDefaultsAreValid();
    SpecificDefaultsAreValid(t);
    BaseMapsKeys();
    SpecificMapsKeys(t);
    SpecificKeysAreNew(t);
    ValidUnion(BaseSchema, BaseDefaults, SpecificSchema(t), SpecificDefaults(t));
  }

  /** The face defaults include keys the face schema lacks. */
  lemma FaceDefaultsUnchecked()
    ensures !ValidDefaults(PoseSchema(Face), Defaults(Face))
  {
    FaceKeysUnknown();
    assert "face_threshold" in Defaults(Face);
  }

  /** Neither face key is in the face schema. */
  lemma FaceKeysUnknown()
    ensures SpecificKeys(Face) !! PoseSchema(Face).Keys
  {
    BaseMapsKeys();
    SpecificNotNumbers(Face);
    SpecificNotFlags(Face);
    SpecificNotNames(Face);
    assert PoseSchema(Face).Keys == BaseSchema.Keys;
  }

  /**
   * A face processor drops the face keys a caller provides: validation
   * keeps the face defaults whatever `face_threshold` or
   * `min_feature_count` values arrive.
   */
  lemma FaceKeysDropped(params: seq<(string, Value)>)
    requires forall j | 0 <= j < |params| :: params[j].0 in SpecificKeys(Face)
    ensures Validate(PoseSchema(Face), Defaults(Face), params) == Success(Defaults(Face))
  {
    FaceKeysUnknown();
    UnknownKeysGiveDefaults(PoseSchema(Face), Defaults(Face), params);
  }

  /** `_load_model_impl`: returns `None` whether or not a path was given. */
  const PoseLoader: Preprocessor.LoaderResult := Preprocessor.Returns(None)

  /** The model path a subclass passes up: the built-in one passes none. */
  function SubclassModelPath(builtin: bool, given: Option<string>): Option<string>
  {
    if builtin then None else given
  }

  /** The pose loader never yields a model, whatever the path. */
  lemma PoseLoaderHoldsNoModel(modelPath: Option<string>, st: Preprocessor.ProcState, files: set<string>)
    requires st.model.None?
    ensures Preprocessor.Load(modelPath, st, Preprocessor.LoadEnv(files, PoseLoader)).0.model.None?
  {
  }

  /** `BuiltinPosePreprocessor` has no model path, so every success comes from the fallback. */
  lemma BuiltinPoseAlwaysFallsBack(t: PoseType, given: Option<string>, st: Preprocessor.ProcState,
                                   params: seq<(string, Value)>, files: set<string>, step: Preprocessor.StepEnv, elapsed: real)
    requires !(st.loaded && st.model.Some?)
    ensures var (_, r) := Preprocessor.Single(SubclassModelPath(true, given), PoseSchema(t), Defaults(t), st, params,
                                              Preprocessor.LoadEnv(files, PoseLoader), step, elapsed);
      r.Success? ==> r.value.1.fallbackUsed
  {
  }
}
