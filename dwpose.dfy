// `DWPosePreprocessor` and its subclasses: the pose type chosen from the
// processor id, the COCO and hand skeletons, the defaults per type, the
// 51 keypoint values made from a contour, the selection of the points and
// links a rendering draws, and the output formats.  Contour finding and
// rasterisation are not modelled.

module DwPose {
  import opened Wrappers
  import opened Text
  import opened Params
  import opened Drawing
  import Numeric
  import Preprocessor
  import Pose

  datatype DwPoseType = WholeBody | Body | Hand | Face

  /**
   * `_determine_pose_type`: 'wholebody' is tested before 'body' (which it
   * contains), then 'hand', then 'face'; whole body when none is named.
   */
  function DetermineDwPoseType(processorId: string): (t: DwPoseType)
    ensures var id := Lower(processorId);
      t == WholeBody <==>
        Contains(id, "wholebody") || (!Contains(id, "body") && !Contains(id, "hand") && !Contains(id, "face"))
    ensures var id := Lower(processorId);
      t == Body <==> Contains(id, "body") && !Contains(id, "wholebody")
    ensures var id := Lower(processorId);
      t == Hand <==> !Contains(id, "body") && !Contains(id, "wholebody") && Contains(id, "hand")
    ensures var id := Lower(processorId);
      t == Face <==>
        !Contains(id, "body") && !Contains(id, "wholebody") && !Contains(id, "hand") && Contains(id, "face")
  {
    var id := Lower(processorId);
    if Contains(id, "wholebody") then WholeBody
    else if Contains(id, "body") then Body
    else if Contains(id, "hand") then Hand
    else if Contains(id, "face") then Face
    else WholeBody
  }

  /** The case of the id does not matter. */
  lemma DwPoseTypeIgnoresCase(processorId: string)
    ensures DetermineDwPoseType(Lower(processorId)) == DetermineDwPoseType(processorId)
  {
    LowerIdempotent(processorId);
  }

  lemma WholeBodyIdIsWholeBody(id: string)
    requires id == "dwpose_wholebody"
    ensures DetermineDwPoseType(id) == WholeBody
  {
    assert Lower(id) == id;
    ContainedAt(id, "wholebody", 7);
  }

  /** The built-in id names no part and gets the default, whole body. */
  lemma BuiltinIdIsWholeBody(id: string)
    requires id == "dwpose_builtin"
    ensures DetermineDwPoseType(id) == WholeBody
  {
    assert Lower(id) == id;
    BuiltinIdNamesNoPart(id);
  }

  lemma BuiltinIdNamesNoPart(id: string)
    requires id == "dwpose_builtin"
    ensures !Contains(id, "body") && !Contains(id, "hand") && !Contains(id, "face")
  {
    MissingCharNotContained(id, "body", 'y');
    MissingCharNotContained(id, "hand", 'h');
    MissingCharNotContained(id, "face", 'f');
  }

  /** The 17-point COCO body. */
  const CocoConnections: seq<(nat, nat)> := [
    (0, 1), (0, 2), (1, 3), (2, 4),
    (5, 6), (5, 7), (6, 8), (7, 9), (8, 10),
    (5, 11), (6, 12), (11, 12), (11, 13), (12, 14), (13, 15), (14, 16)]

  predicate HasBody(t: DwPoseType) { t == Body || t == WholeBody }
  predicate HasHand(t: DwPoseType) { t == Hand || t == WholeBody }
  predicate HasFace(t: DwPoseType) { t == Face || t == WholeBody }

  /** `_get_joint_connections`: the COCO body, the same hand as OpenPose, nothing for the face. */
  function JointConnections(t: DwPoseType): seq<(nat, nat)>
  {
    if HasBody(t) then CocoConnections
    else if t == Hand then Pose.HandConnections()
    else []
  }

  /**
   * Body and whole body give 16 links among 17 points, the hand 20 among
   * 21, the face none.
   */
  lemma ConnectionsInRange(t: DwPoseType)
    ensures HasBody(t) ==> |JointConnections(t)| == 16
    ensures HasBody(t) ==> forall k :: 0 <= k < 16 ==> JointConnections(t)[k].0 < 17 && JointConnections(t)[k].1 < 17
    ensures t == Hand ==> |JointConnections(t)| == 20
    ensures t == Hand ==> forall k :: 0 <= k < 20 ==> JointConnections(t)[k].0 < 21 && JointConnections(t)[k].1 < 21
    ensures t == Face ==> JointConnections(t) == []
  {
    if t == Hand {
      Pose.HandLinksAscend();
    }
  }

  const BoolSpec := ParamSpec(Some(BoolParam), None, None)
  const StrSpec := ParamSpec(Some(StrParam), None, None)

  const NumberDefaults: Settings := map["threshold" := VFloat(0.3, "0.3"), "line_width" := VInt(2), "point_radius" := VInt(4)]
  const FlagDefaults: Settings := map[
    "detect_body" := VBool(true), "detect_hand" := VBool(true), "detect_face" := VBool(false),
    "draw_skeleton" := VBool(true), "draw_points" := VBool(true)]
  const NameDefaults: Settings := map[
    "skeleton_color" := VStr("white"), "point_color" := VStr("red"), "background_color" := VStr("black"),
    "output_format" := VStr("image")]

  /** The twelve shared defaults: three numbers, five flags and four names. */
  const BaseDefaults: Settings := NumberDefaults + FlagDefaults + NameDefaults

  const NumberSchema: Schema := map[
    "threshold" := Ranged(FloatParam, 0.0, 1.0), "line_width" := Ranged(IntParam, 1.0, 10.0),
    "point_radius" := Ranged(IntParam, 1.0, 10.0)]
  const FlagSchema: Schema := map[
    "detect_body" := BoolSpec, "detect_hand" := BoolSpec, "detect_face" := BoolSpec,
    "draw_skeleton" := BoolSpec, "draw_points" := BoolSpec]
  const NameSchema: Schema := map[
    "skeleton_color" := StrSpec, "point_color" := StrSpec, "background_color" := StrSpec, "output_format" := StrSpec]

  /** `get_parameter_schema`: the twelve shared keys only, whatever the type. */
  const DwSchema: Schema := NumberSchema + FlagSchema + NameSchema

  const BodyGroup: Settings := map["body_threshold" := VFloat(0.3, "0.3"), "min_keypoints" := VInt(5)]
  const HandGroup: Settings := map["hand_threshold" := VFloat(0.3, "0.3"), "min_hand_keypoints" := VInt(8)]
  const FaceGroup: Settings := map["face_threshold" := VFloat(0.3, "0.3"), "min_face_keypoints" := VInt(10)]

  /** `get_default_parameters`: the shared defaults, then each group the type includes. */
  function Defaults(t: DwPoseType): Settings
  {
    BaseDefaults
    + (if HasBody(t) then BodyGroup else map[])
    + (if HasHand(t) then HandGroup else map[])
    + (if HasFace(t) then FaceGroup else map[])
  }

  const BodyKeys: set<string> := {"body_threshold", "min_keypoints"}
  const HandKeys: set<string> := {"hand_threshold", "min_hand_keypoints"}
  const FaceKeys: set<string> := {"face_threshold", "min_face_keypoints"}

  /** The defaults' shared part and the schema cover the same twelve keys. */
  lemma SharedKeys()
    ensures BaseDefaults.Keys == DwSchema.Keys
  {
    NumberKeys();
    FlagKeys();
    NameKeys();
    SameKeysUnion(NumberDefaults, FlagDefaults, NameDefaults, NumberSchema, FlagSchema, NameSchema);
  }

  lemma SameKeysUnion(a: Settings, b: Settings, c: Settings, x: Schema, y: Schema, z: Schema)
    requires a.Keys == x.Keys && b.Keys == y.Keys && c.Keys == z.Keys
    ensures (a + b + c).Keys == (x + y + z).Keys
  {
  }

  lemma NumberKeys()
    ensures NumberDefaults.Keys == NumberSchema.Keys
  {
  }

  lemma FlagKeys()
    ensures FlagDefaults.Keys == FlagSchema.Keys
  {
  }

  lemma NameKeys()
    ensures NameDefaults.Keys == NameSchema.Keys
  {
  }

  /**
   * Whole body gets all three groups; body, hand and face each get only
   * their own.
   */
  lemma DefaultGroups(t: DwPoseType)
    ensures Defaults(t).Keys == DwSchema.Keys + (if HasBody(t) then BodyKeys else {})
                                + (if HasHand(t) then HandKeys else {}) + (if HasFace(t) then FaceKeys else {})
  {
    SharedKeys();
    GroupKeys();
    var g1: Settings := if HasBody(t) then BodyGroup else map[];
    var g2: Settings := if HasHand(t) then HandGroup else map[];
    var g3: Settings := if HasFace(t) then FaceGroup else map[];
    Assemble(BaseDefaults, DwSchema, g1, g2, g3, if HasBody(t) then BodyKeys else {},
             if HasHand(t) then HandKeys else {}, if HasFace(t) then FaceKeys else {});
  }

  lemma Assemble(base: Settings, schema: Schema, g1: Settings, g2: Settings, g3: Settings,
                 k1: set<string>, k2: set<string>, k3: set<string>)
    requires base.Keys == schema.Keys && g1.Keys == k1 && g2.Keys == k2 && g3.Keys == k3
    ensures (base + g1 + g2 + g3).Keys == schema.Keys + k1 + k2 + k3
  {
  }

  lemma GroupKeys()
    ensures BodyGroup.Keys == BodyKeys && HandGroup.Keys == HandKeys && FaceGroup.Keys == FaceKeys
  {
  }

  /** The shared defaults pass the schema. */
  lemma BaseDefaultsAreValid()
    ensures ValidDefaults(DwSchema, BaseDefaults)
  {
    PartsAreValid();
    PartsAreDisjoint();
    ValidUnion(NumberSchema, NumberDefaults, FlagSchema, FlagDefaults);
    ValidUnion(NumberSchema + FlagSchema, NumberDefaults + FlagDefaults, NameSchema, NameDefaults);
  }

  lemma PartsAreValid()
    ensures ValidDefaults(NumberSchema, NumberDefaults)
    ensures ValidDefaults(FlagSchema, FlagDefaults)
    ensures ValidDefaults(NameSchema, NameDefaults)
  {
    FlagsAreValid();
    NamesAreValid();
  }

  lemma FlagsAreValid()
    ensures ValidDefaults(FlagSchema, FlagDefaults)
  {
  }

  lemma NamesAreValid()
    ensures ValidDefaults(NameSchema, NameDefaults)
  {
  }

  lemma PartsAreDisjoint()
    ensures NumberDefaults.Keys !! FlagSchema.Keys
    ensures (NumberDefaults + FlagDefaults).Keys !! NameSchema.Keys
  {
    assert NumberDefaults.Keys !! FlagSchema.Keys;
    FlagsAreNotNames();
  }

  lemma FlagsAreNotNames()
    ensures FlagDefaults.Keys !! NameSchema.Keys
  {
  }

  const TypeKeys: set<string> := {
    "body_threshold", "min_keypoints", "hand_threshold", "min_hand_keypoints", "face_threshold", "min_face_keypoints"}

  /** None of the type-specific keys is in the schema. */
  lemma GroupKeysUnknown()
    ensures BodyKeys + HandKeys + FaceKeys == TypeKeys
    ensures TypeKeys !! DwSchema.Keys
  {
    TypeKeysNotNumbers();
    TypeKeysNotFlags();
    TypeKeysNotNames();
  }

  lemma TypeKeysNotNumbers() ensures TypeKeys !! NumberSchema.Keys {}
  lemma TypeKeysNotFlags() ensures TypeKeys !! FlagSchema.Keys {}
  lemma TypeKeysNotNames() ensures TypeKeys !! NameSchema.Keys {}

  /**
   * The schema knows none of the type-specific keys, so validation drops
   * every one a caller provides and keeps the type's defaults.
   */
  lemma TypeKeysDropped(t: DwPoseType, params: seq<(string, Value)>)
    requires forall j | 0 <= j < |params| :: params[j].0 in TypeKeys
    ensures Validate(DwSchema, Defaults(t), params) == Success(Defaults(t))
  {
    GroupKeysUnknown();
    UnknownKeysGiveDefaults(DwSchema, Defaults(t), params);
  }

  /**
   * `_load_model_impl`: the two ONNX sessions when both model files exist
   * and the runtime imports, `None` otherwise; a failure is also `None`,
   * never an exception.
   */
  function DwLoader(filesPresent: bool, runtimeAvailable: bool, sessions: nat): (r: Preprocessor.LoaderResult)
    ensures r.Returns?
    ensures r.model.Some? <==> filesPresent && runtimeAvailable
  {
    if filesPresent && runtimeAvailable then Preprocessor.Returns(Some(sessions)) else Preprocessor.Returns(None)
  }

  // ---------------------------------------------------------------------
  // Keypoints from a contour

  /** The three values of keypoint `i`: the normalised point with confidence 0.8, or zeros past the end. */
  function Triple(points: seq<(real, real)>, i: nat, width: nat, height: nat): seq<real>
    requires width > 0 && height > 0
  {
    if i < |points| then [points[i].0 / width as real, points[i].1 / height as real, 0.8] else [0.0, 0.0, 0.0]
  }

  /** The first `n` keypoints, three values each. */
  function Triples(points: seq<(real, real)>, n: nat, width: nat, height: nat): (r: seq<real>)
    requires width > 0 && height > 0
    ensures |r| == 3 * n
    ensures forall i :: 0 <= i < n ==> r[3 * i..3 * i + 3] == Triple(points, i, width, height)
    decreases n
  {
    if n == 0 then []
    else
      var prev := Triples(points, n - 1, width, height);
      var last := Triple(points, n - 1, width, height);
      AppendTriple(prev, last, n - 1);
      prev + last
  }

  /** Appending a triple after `m` triples keeps the earlier ones in place. */
  lemma AppendTriple(prev: seq<real>, last: seq<real>, m: nat)
    requires |prev| == 3 * m && |last| == 3
    ensures forall i :: 0 <= i < m ==> (prev + last)[3 * i..3 * i + 3] == prev[3 * i..3 * i + 3]
    ensures (prev + last)[3 * m..3 * m + 3] == last
  {
    forall i | 0 <= i < m
      ensures (prev + last)[3 * i..3 * i + 3] == prev[3 * i..3 * i + 3]
    {
      var j := 3 * i;
      assert j + 3 <= |prev|;
    }
  }

  /**
   * `_generate_keypoints_from_contour` on the approximated polygon: 17
   * keypoints when it has at least four corners, all zeros otherwise.
   */
  function ContourKeypoints(points: seq<(real, real)>, width: nat, height: nat): (r: seq<real>)
    requires width > 0 && height > 0
    ensures |r| == 51
    ensures |points| < 4 ==> forall j :: 0 <= j < 51 ==> r[j] == 0.0
    ensures |points| >= 4 ==> forall i :: 0 <= i < 17 ==> r[3 * i..3 * i + 3] == Triple(points, i, width, height)
  {
    if |points| >= 4 then Triples(points, 17, width, height) else seq(51, j => 0.0)
  }

  /** The same, as the source builds it: a list extended once per keypoint. */
  method GenerateKeypoints(points: seq<(real, real)>, width: nat, height: nat) returns (keypoints: seq<real>)
    requires width > 0 && height > 0
    ensures keypoints == ContourKeypoints(points, width, height)
  {
    if |points| >= 4 {
      keypoints := [];
      for i := 0 to 17
        invariant keypoints == Triples(points, i, width, height)
      {
        keypoints := keypoints + Triple(points, i, width, height);
      }
    } else {
      keypoints := seq(51, j => 0.0);
    }
  }

  datatype Person = Person(keypoints: seq<real>)

  /** The pose data: the people found and the size of the canvas. */
  datatype PoseData = PoseData(people: seq<Person>, width: nat, height: nat)

  /**
   * `_process_builtin_pose` after contour finding: `polygon` is the
   * approximated outline of the largest contour when its area exceeds 1000,
   * `None` otherwise; the polygon gives one person.
   */
  function BuiltinPoseData(polygon: Option<seq<(real, real)>>, width: nat, height: nat): (d: PoseData)
    requires width > 0 && height > 0
    ensures |d.people| <= 1 && (d.people == [] <==> polygon.None?)
    ensures forall i :: 0 <= i < |d.people| ==> |d.people[i].keypoints| == 51
  {
    match polygon
    case None => PoseData([], width, height)
    case Some(p) => PoseData([Person(ContourKeypoints(p, width, height))], width, height)
  }

  // ---------------------------------------------------------------------
  // Rendering

  /** The settings `_render_skeleton_from_data` reads. */
  datatype RenderSettings = RenderSettings(threshold: real, drawSkeleton: bool, drawPoints: bool)

  function ReadRenderSettings(settings: Settings): RenderSettings
  {
    RenderSettings(RealOr(settings, "threshold", 0.3), BoolOr(settings, "draw_skeleton", true), BoolOr(settings, "draw_points", true))
  }

  function ReadStyle(settings: Settings): Style
  {
    Style(ColorOf(StrOr(settings, "skeleton_color", "white")), ColorOf(StrOr(settings, "point_color", "red")),
          IntOr(settings, "line_width", 2), IntOr(settings, "point_radius", 4))
  }

  /** The pixel of keypoint `i`: normalised coordinates scaled and truncated by `int()`. */
  function PixelOf(keypoints: seq<real>, i: nat, width: nat, height: nat): Point
    requires 3 * i + 1 < |keypoints|
  {
    Point(Numeric.Trunc(keypoints[3 * i] * width as real), Numeric.Trunc(keypoints[3 * i + 1] * height as real))
  }

  /**
   * The points of one person: keypoint `i` is kept exactly when its
   * confidence exceeds the threshold.
   */
  function KeptPoints(keypoints: seq<real>, threshold: real, width: nat, height: nat): (pts: seq<Option<Point>>)
    requires |keypoints| % 3 == 0
    ensures |pts| == |keypoints| / 3
    ensures forall i :: 0 <= i < |pts| ==> (pts[i].Some? <==> keypoints[3 * i + 2] > threshold)
    ensures forall i :: 0 <= i < |pts| && pts[i].Some? ==> pts[i].value == PixelOf(keypoints, i, width, height)
  {
    seq(|keypoints| / 3, i requires 0 <= i < |keypoints| / 3 =>
      if keypoints[3 * i + 2] > threshold then Some(PixelOf(keypoints, i, width, height)) else None)
  }

  /** The point loop: `None` when the values do not split into triples (the unpacking raises). */
  method ExtractPoints(keypoints: seq<real>, threshold: real, width: nat, height: nat) returns (r: Option<seq<Option<Point>>>)
    ensures r.None? <==> |keypoints| % 3 != 0
    ensures r.Some? ==> r.value == KeptPoints(keypoints, threshold, width, height)
  {
    var points: seq<Option<Point>> := [];
    var i := 0;
    while i < |keypoints|
      invariant 0 <= i <= |keypoints| && i % 3 == 0
      invariant |points| == i / 3
      invariant forall k :: 0 <= k < |points| ==>
        points[k] == (if keypoints[3 * k + 2] > threshold then Some(PixelOf(keypoints, k, width, height)) else None)
      decreases |keypoints| - i
    {
      if i + 3 > |keypoints| {
        return None;
      }
      var conf := keypoints[i + 2];
      if conf > threshold {
        points := points + [Some(PixelOf(keypoints, i / 3, width, height))];
      } else {
        points := points + [None];
      }
      i := i + 3;
    }
    r := Some(points);
  }

  /** A link is drawn when both ends are listed and kept. */
  predicate Drawable(c: (nat, nat), pts: seq<Option<Point>>)
  {
    c.0 < |pts| && c.1 < |pts| && pts[c.0].Some? && pts[c.1].Some?
  }

  function LineFor(c: (nat, nat), pts: seq<Option<Point>>): Mark
    requires Drawable(c, pts)
  {
    Line(pts[c.0].value, pts[c.1].value)
  }

  /**
   * The lines of one person, in link order: every line joins two kept
   * points of some link, and every link whose ends are both kept is drawn.
   */
  function LinesOf(conns: seq<(nat, nat)>, pts: seq<Option<Point>>): (r: seq<Mark>)
    ensures |r| <= |conns|
    ensures forall m :: m in r ==> exists k :: 0 <= k < |conns| && Drawable(conns[k], pts) && m == LineFor(conns[k], pts)
    ensures forall k :: 0 <= k < |conns| && Drawable(conns[k], pts) ==> LineFor(conns[k], pts) in r
    decreases |conns|
  {
    if conns == [] then []
    else
      var init := conns[..|conns| - 1];
      var c := conns[|conns| - 1];
      var prev := LinesOf(init, pts);
      assert forall k :: 0 <= k < |init| ==> init[k] == conns[k];
      prev + (if Drawable(c, pts) then [LineFor(c, pts)] else [])
  }

  /** The dots of one person: one per kept point, in point order. */
  function DotsOf(pts: seq<Option<Point>>): (r: seq<Mark>)
    ensures |r| <= |pts|
    ensures forall m :: m in r ==> m.Dot? && Some(m.p) in pts
    ensures forall i :: 0 <= i < |pts| && pts[i].Some? ==> Dot(pts[i].value) in r
    decreases |pts|
  {
    if pts == [] then []
    else
      var init := pts[..|pts| - 1];
      var prev := DotsOf(init);
      assert forall i :: 0 <= i < |init| ==> init[i] == pts[i];
      prev + (match pts[|pts| - 1] case Some(p) => [Dot(p)] case None => [])
  }

  /**
   * What one person contributes: nothing with fewer than 51 values; an
   * error when the values do not split into triples; otherwise the lines
   * then the dots, each when enabled.
   */
  function PersonMarks(conns: seq<(nat, nat)>, person: Person, rs: RenderSettings, width: nat, height: nat): Option<seq<Mark>>
  {
    var kps := person.keypoints;
    if |kps| < 51 then Some([])
    else if |kps| % 3 != 0 then None
    else
      var pts := KeptPoints(kps, rs.threshold, width, height);
      Some((if rs.drawSkeleton then LinesOf(conns, pts) else []) + (if rs.drawPoints then DotsOf(pts) else []))
  }

  predicate Malformed(person: Person)
  {
    |person.keypoints| >= 51 && |person.keypoints| % 3 != 0
  }

  /** All people in order; the first malformed one makes the rendering raise. */
  function RenderMarks(conns: seq<(nat, nat)>, people: seq<Person>, rs: RenderSettings, width: nat, height: nat): (r: Option<seq<Mark>>)
    ensures r.None? <==> exists i :: 0 <= i < |people| && Malformed(people[i])
    decreases |people|
  {
    if people == [] then Some([])
    else
      var init := people[..|people| - 1];
      assert forall i :: 0 <= i < |init| ==> init[i] == people[i];
      match RenderMarks(conns, init, rs, width, height)
      case None => None
      case Some(m) =>
        match PersonMarks(conns, people[|people| - 1], rs, width, height)
        case None => None
        case Some(pm) => Some(m + pm)
  }

  /** People with fewer than 51 values are skipped. */
  lemma ShortPeopleSkipped(conns: seq<(nat, nat)>, people: seq<Person>, short: Person, rs: RenderSettings, width: nat, height: nat)
    requires |short.keypoints| < 51
    ensures RenderMarks(conns, people + [short], rs, width, height) == RenderMarks(conns, people, rs, width, height)
  {
    assert (people + [short])[..|people|] == people;
    var r := RenderMarks(conns, people, rs, width, height);
    if r.Some? {
      assert r.value + [] == r.value;
    }
  }

  /**
   * `_render_skeleton_from_data`: a fresh canvas of the image's size with
   * every person's marks.
   */
  function Render(conns: seq<(nat, nat)>, data: PoseData, settings: Settings, width: nat, height: nat): (c: Option<Canvas>)
    ensures c.Some? <==> RenderMarks(conns, data.people, ReadRenderSettings(settings), width, height).Some?
    ensures c.Some? ==> c.value.width == width && c.value.height == height
    ensures c.Some? ==> c.value.marks == RenderMarks(conns, data.people, ReadRenderSettings(settings), width, height).value
  {
    var canvas := NewCanvas(width, height, StrOr(settings, "background_color", "black"), ReadStyle(settings));
    match RenderMarks(conns, data.people, ReadRenderSettings(settings), width, height)
    case None => None
    case Some(m) => Some(Draw(canvas, m))
  }

  /** The connection loop of one person. */
  method DrawConnections(conns: seq<(nat, nat)>, pts: seq<Option<Point>>) returns (marks: seq<Mark>)
    ensures marks == LinesOf(conns, pts)
  {
    marks := [];
    for k := 0 to |conns|
      invariant marks == LinesOf(conns[..k], pts)
    {
      assert conns[..k + 1][..k] == conns[..k];
      var (i1, i2) := conns[k];
      if i1 < |pts| && i2 < |pts| {
        var p1, p2 := pts[i1], pts[i2];
        if p1.Some? && p2.Some? {
          marks := marks + [Line(p1.value, p2.value)];
        }
      }
    }
    assert conns[..|conns|] == conns;
  }

  /** The point loop of one person. */
  method DrawPoints(pts: seq<Option<Point>>) returns (marks: seq<Mark>)
    ensures marks == DotsOf(pts)
  {
    marks := [];
    for i := 0 to |pts|
      invariant marks == DotsOf(pts[..i])
    {
      assert pts[..i + 1][..i] == pts[..i];
      if pts[i].Some? {
        marks := marks + [Dot(pts[i].value)];
      }
    }
    assert pts[..|pts|] == pts;
  }

  /** One person: skipped when short, an error when malformed, else the lines then the dots. */
  method DrawPerson(conns: seq<(nat, nat)>, person: Person, rs: RenderSettings, width: nat, height: nat)
    returns (marks: Option<seq<Mark>>)
    ensures marks == PersonMarks(conns, person, rs, width, height)
  {
    var kps := person.keypoints;
    if |kps| < 51 {
      return Some([]);
    }
    var pts := ExtractPoints(kps, rs.threshold, width, height);
    if pts.None? {
      return None;
    }
    var lines: seq<Mark> := [];
    if rs.drawSkeleton {
      lines := DrawConnections(conns, pts.value);
    }
    var dots: seq<Mark> := [];
    if rs.drawPoints {
      dots := DrawPoints(pts.value);
    }
    marks := Some(lines + dots);
  }

  /** The loop over people, drawing each person's links and points. */
  method RenderSkeleton(conns: seq<(nat, nat)>, data: PoseData, settings: Settings, width: nat, height: nat)
    returns (r: Option<Canvas>)
    ensures r == Render(conns, data, settings, width, height)
  {
    var rs := ReadRenderSettings(settings);
    var canvas := NewCanvas(width, height, StrOr(settings, "background_color", "black"), ReadStyle(settings));
    var people := data.people;
    for n := 0 to |people|
      invariant RenderMarks(conns, people[..n], rs, width, height) == Some(canvas.marks)
      invariant canvas.width == width && canvas.height == height
      invariant canvas == NewCanvas(width, height, StrOr(settings, "background_color", "black"), ReadStyle(settings)).(marks := canvas.marks)
    {
      RenderMarksStep(conns, people, n, rs, width, height);
      var marks := DrawPerson(conns, people[n], rs, width, height);
      if marks.None? {
        NoMarksAfterMalformed(conns, people, n, rs, width, height);
        return None;
      }
      canvas := Draw(canvas, marks.value);
    }
    assert people[..|people|] == people;
    r := Some(canvas);
  }

  /** The marks of the first `n + 1` people extend those of the first `n` by person `n`'s. */
  lemma RenderMarksStep(conns: seq<(nat, nat)>, people: seq<Person>, n: nat, rs: RenderSettings, width: nat, height: nat)
    requires n < |people|
    ensures RenderMarks(conns, people[..n + 1], rs, width, height) ==
      match RenderMarks(conns, people[..n], rs, width, height)
      case None => None
      case Some(m) =>
        match PersonMarks(conns, people[n], rs, width, height)
        case None => None
        case Some(pm) => Some(m + pm)
  {
    assert people[..n + 1][..n] == people[..n];
    assert people[..n + 1][n] == people[n];
  }

  /** Once a malformed person is reached the whole rendering raises. */
  lemma NoMarksAfterMalformed(conns: seq<(nat, nat)>, people: seq<Person>, n: nat, rs: RenderSettings, width: nat, height: nat)
    requires n < |people| && Malformed(people[n])
    ensures RenderMarks(conns, people, rs, width, height).None?
  {
  }

  /**
   * The built-in data of a polygon with at least four corners keeps
   * exactly its first (up to 17) corners when the threshold is below the
   * fixed confidence 0.8, and no point at all otherwise.
   */
  lemma ContourPointsKept(polygon: seq<(real, real)>, threshold: real, width: nat, height: nat, i: nat)
    requires width > 0 && height > 0 && |polygon| >= 4 && i < 17 && threshold >= 0.0
    ensures var pts := KeptPoints(ContourKeypoints(polygon, width, height), threshold, width, height);
      |pts| == 17 && (pts[i].Some? <==> threshold < 0.8 && i < |polygon|)
  {
    var kps := ContourKeypoints(polygon, width, height);
    ContourConfidence(polygon, width, height, i);
    var pts := KeptPoints(kps, threshold, width, height);
    assert pts[i].Some? <==> kps[3 * i + 2] > threshold;
  }

  /** The confidence of keypoint `i` of a polygon with at least four corners. */
  lemma ContourConfidence(polygon: seq<(real, real)>, width: nat, height: nat, i: nat)
    requires width > 0 && height > 0 && |polygon| >= 4 && i < 17
    ensures ContourKeypoints(polygon, width, height)[3 * i + 2] == if i < |polygon| then 0.8 else 0.0
  {
    TriplesConfidence(polygon, 17, width, height, i);
  }

  /** The third value of triple `i` is the confidence: 0.8 for a corner, 0 past the end. */
  lemma {:induction false} TriplesConfidence(points: seq<(real, real)>, n: nat, width: nat, height: nat, i: nat)
    requires width > 0 && height > 0 && i < n
    ensures Triples(points, n, width, height)[3 * i + 2] == if i < |points| then 0.8 else 0.0
    decreases n
  {
    var prev := Triples(points, n - 1, width, height);
    var last := Triple(points, n - 1, width, height);
    assert Triples(points, n, width, height) == prev + last;
    if i < n - 1 {
      TriplesConfidence(points, n - 1, width, height, i);
      assert (prev + last)[3 * i + 2] == prev[3 * i + 2];
    } else {
      assert (prev + last)[3 * i + 2] == last[2];
    }
  }

  // ---------------------------------------------------------------------
  // Output formats and post-processing

  /** The three shapes a result can take: pose data, an image, or both. */
  datatype DwResult = Data(data: PoseData) | Picture(canvas: Canvas) | Bundle(canvas: Canvas, data: PoseData)

  function OutputFormat(settings: Settings): string
  {
    StrOr(settings, "output_format", "image")
  }

  /** `_process_impl`'s choice: the data for 'json', both for 'both', the image otherwise. */
  function ImplResult(format: string, data: PoseData, rendered: Canvas): (r: DwResult)
    ensures format == "json" <==> r.Data?
    ensures format == "both" <==> r.Bundle?
    ensures r.Data? || r.Bundle? ==> r.data == data
    ensures r.Picture? || r.Bundle? ==> r.canvas == rendered
  {
    if format == "json" then Data(data)
    else if format == "both" then Bundle(rendered, data)
    else Picture(rendered)
  }

  /**
   * `postprocess_image` as written: 'json' and 'both' return the result
   * as it is; otherwise the result must be an image, and a dictionary has
   * no `.shape` (`None` stands for that exception).  The RGBA test compares
   * the number of dimensions with 4, which an H×W×4 image never has, so a
   * four-channel canvas passes through unchanged.
   */
  function PostprocessAsWritten(format: string, r: DwResult): (out: Option<DwResult>)
    ensures format == "json" ==> out == Some(r)
    ensures format != "json" && format != "both" ==> (out.Some? <==> r.Picture?)
    ensures out.Some? ==> out.value == r
  {
    if format == "json" || format == "both" then Some(r)
    else if r.Picture? then Some(r)
    else None
  }

  /** `_fallback_process` as written: the raw pose data, whatever the format. */
  function FallbackAsWritten(data: PoseData): DwResult
  {
    Data(data)
  }

  /** The step a built-in DWPose run hands to `process_single`, fallback and post-processing as written. */
  function BuiltinStepAsWritten(format: string, data: PoseData, impl: Preprocessor.ImplOutcome, token: nat): Preprocessor.StepEnv
  {
    Preprocessor.StepEnv(true, impl, Some(token), PostprocessAsWritten(format, FallbackAsWritten(data)).Some?)
  }

  /**
   * With its default settings ('image' output) the built-in DWPose
   * processor, which has no model path and so always falls back, always
   * fails: the fallback hands pose data to an image post-processor.
   */
  lemma BuiltinDefaultFormatFails(t: DwPoseType, st: Preprocessor.ProcState, files: set<string>, loader: Preprocessor.LoaderResult,
                                  data: PoseData, impl: Preprocessor.ImplOutcome, token: nat, elapsed: real)
    requires !(st.loaded && st.model.Some?)
    ensures var step := BuiltinStepAsWritten(OutputFormat(Defaults(t)), data, impl, token);
      Preprocessor.Single(None, DwSchema, Defaults(t), st, [], Preprocessor.LoadEnv(files, loader), step, elapsed).1
        == Failure(Preprocessor.PostprocessFailed)
  {
    FormatDefault(t);
  }

  lemma FormatDefault(t: DwPoseType)
    ensures OutputFormat(Defaults(t)) == "image"
  {
    assert NameDefaults["output_format"] == VStr("image");
    FormatNotInGroups();
    LookupUnion(NumberDefaults + FlagDefaults, NameDefaults, "output_format");
    LookupUnion(BaseDefaults, if HasBody(t) then BodyGroup else map[], "output_format");
    LookupUnion(BaseDefaults + (if HasBody(t) then BodyGroup else map[]), if HasHand(t) then HandGroup else map[], "output_format");
    LookupUnion(BaseDefaults + (if HasBody(t) then BodyGroup else map[]) + (if HasHand(t) then HandGroup else map[]),
                if HasFace(t) then FaceGroup else map[], "output_format");
  }

  lemma FormatNotInGroups()
    ensures "output_format" !in BodyGroup && "output_format" !in HandGroup && "output_format" !in FaceGroup
  {
  }

  /** A key of the first map the second lacks keeps its value in the union; one of the second wins. */
  lemma LookupUnion(a: Settings, b: Settings, k: string)
    ensures k in b ==> k in a + b && (a + b)[k] == b[k]
    ensures k !in b && k in a ==> k in a + b && (a + b)[k] == a[k]
  {
  }

  /** A transparent background asked for with 'image' output leaves a four-channel result. */
  lemma TransparentStaysFourChannel(data: PoseData, settings: Settings, width: nat, height: nat, conns: seq<(nat, nat)>)
    requires StrOr(settings, "background_color", "black") == "transparent"
    requires Render(conns, data, settings, width, height).Some?
    ensures var c := Render(conns, data, settings, width, height).value;
      PostprocessAsWritten("image", Picture(c)) == Some(Picture(c)) && c.channels == 4
  {
  }

  /** RGBA flattened onto the named background colour, as the post-processor evidently means to. */
  function Flatten(c: Canvas, backgroundName: string): (d: Canvas)
    ensures d.channels == (if c.channels == 4 then 3 else c.channels)
    ensures c.channels == 4 ==> d.background == ColorOf(backgroundName)
    ensures d.marks == c.marks && d.width == c.width && d.height == c.height
  {
    if c.channels == 4 then c.(channels := 3, background := ColorOf(backgroundName)) else c
  }

  /** `_fallback_process` shaped by the output format like the main path. */
  function Fallback(format: string, data: PoseData, rendered: Canvas): DwResult
  {
    ImplResult(format, data, rendered)
  }

  /**
   * `postprocess_image` as intended: 'json' untouched, any image part
   * flattened to three channels.
   */
  function Postprocess(format: string, r: DwResult, backgroundName: string): (out: Option<DwResult>)
    ensures format == "json" ==> out == Some(r)
    ensures format != "json" && format != "both" ==> (out.Some? <==> r.Picture?)
    ensures out.Some? && (out.value.Picture? || out.value.Bundle?) && format != "json" ==> out.value.canvas.channels != 4
  {
    if format == "json" then Some(r)
    else match r
      case Bundle(c, d) => if format == "both" then Some(Bundle(Flatten(c, backgroundName), d)) else None
      case Picture(c) => Some(Picture(Flatten(c, backgroundName)))
      case Data(_) => if format == "both" then Some(r) else None
  }

  /** Whatever the format, the fallback's result passes post-processing and carries no alpha channel. */
  lemma FallbackAlwaysPostprocesses(format: string, data: PoseData, rendered: Canvas, backgroundName: string)
    ensures var out := Postprocess(format, Fallback(format, data, rendered), backgroundName);
      out.Some? && (format != "json" && (out.value.Picture? || out.value.Bundle?) ==> out.value.canvas.channels != 4)
  {
  }

  /** The step a built-in DWPose run hands to `process_single` with the corrected fallback. */
  function BuiltinStep(format: string, data: PoseData, rendered: Canvas, backgroundName: string,
                       impl: Preprocessor.ImplOutcome, token: nat): Preprocessor.StepEnv
  {
    Preprocessor.StepEnv(true, impl, Some(token), Postprocess(format, Fallback(format, data, rendered), backgroundName).Some?)
  }

  /** With the corrected fallback the built-in processor succeeds on its defaults, by way of the fallback. */
  lemma BuiltinDefaultFormatSucceeds(t: DwPoseType, st: Preprocessor.ProcState, files: set<string>, loader: Preprocessor.LoaderResult,
                                     data: PoseData, rendered: Canvas, impl: Preprocessor.ImplOutcome, token: nat, elapsed: real)
    requires !(st.loaded && st.model.Some?)
    ensures var step := BuiltinStep(OutputFormat(Defaults(t)), data, rendered, "black", impl, token);
      var r := Preprocessor.Single(None, DwSchema, Defaults(t), st, [], Preprocessor.LoadEnv(files, loader), step, elapsed).1;
      r.Success? && r.value.1.fallbackUsed
  {
    FormatDefault(t);
  }
}
