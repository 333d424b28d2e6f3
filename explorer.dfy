// The model explorer: sorting checkpoints into the SD1.5, SDXL and other
// buckets, the summary counts, the search for a preview image beside a
// model file, and the guard in front of the preview endpoint.  The legacy
// explorer carries identical copies of all four.  The file system is given
// as the set of existing paths relative to the models directory.
module Explorer {
  import opened Wrappers
  import opened Text

  /** A model file found under a models directory. */
  datatype ModelFile = ModelFile(name: string, path: string, subfolder: string, size: Option<nat>,
                                 previewImage: Option<string>)

  /** The buckets `"sd15"`, `"sdxl"` and `"기타"`. */
  datatype Bucket = Sd15 | Sdxl | Other

  /** The bucket for a subfolder: `sd15` wins over `sdxl` and `ilxl`, compared in lower case. */
  function BucketOf(subfolder: string): (b: Bucket)
    ensures b == Sd15 <==> Contains(Lower(subfolder), "sd15")
    ensures b == Sdxl <==>
      !Contains(Lower(subfolder), "sd15") && (Contains(Lower(subfolder), "sdxl") || Contains(Lower(subfolder), "ilxl"))
  {
    var s := Lower(subfolder);
    if Contains(s, "sd15") then Sd15
    else if Contains(s, "sdxl") || Contains(s, "ilxl") then Sdxl
    else Other
  }

  /**
   * A subfolder naming both families goes to SD1.5, whatever else it
   * names; `sd15_sdxl_merge` is one such subfolder.
   */
  lemma Sd15TakesPrecedence(subfolder: string)
    ensures Contains(Lower(subfolder), "sd15") && (Contains(Lower(subfolder), "sdxl") || Contains(Lower(subfolder), "ilxl"))
            ==> BucketOf(subfolder) == Sd15
    ensures Contains(Lower("sd15_sdxl_merge"), "sd15") && Contains(Lower("sd15_sdxl_merge"), "sdxl")
    ensures BucketOf("sd15_sdxl_merge") == Sd15
  {
    var merged := "sd15_sdxl_merge";
    assert Lower(merged) == merged;
    ContainedAt(merged, "sd15", 0);
    ContainedAt(merged, "sdxl", 5);
  }

  /** The models of one bucket, in input order. */
  function Bucketed(models: seq<ModelFile>, b: Bucket): (r: seq<ModelFile>)
    ensures |r| <= |models|
    ensures forall m :: m in r <==> m in models && BucketOf(m.subfolder) == b
    decreases |models|
  {
    if models == [] then []
    else
      var init := models[..|models| - 1];
      var last := models[|models| - 1];
      assert models == init + [last];
      if BucketOf(last.subfolder) == b then Bucketed(init, b) + [last] else Bucketed(init, b)
  }

  /** The three lists `categorize_models_by_type` returns. */
  datatype Categorized = Categorized(sd15: seq<ModelFile>, sdxl: seq<ModelFile>, other: seq<ModelFile>)

  function Categorize(models: seq<ModelFile>): Categorized
  {
    Categorized(Bucketed(models, Sd15), Bucketed(models, Sdxl), Bucketed(models, Other))
  }

  /** The buckets partition the input: every model lands in exactly one, as often as it occurs. */
  lemma {:induction false} CategorizePartitions(models: seq<ModelFile>)
    ensures var c := Categorize(models);
      multiset(c.sd15) + multiset(c.sdxl) + multiset(c.other) == multiset(models)
    ensures var c := Categorize(models); |c.sd15| + |c.sdxl| + |c.other| == |models|
    decreases |models|
  {
    if models != [] {
      var init := models[..|models| - 1];
      CategorizePartitions(init);
      assert models == init + [models[|models| - 1]];
    }
    var c := Categorize(models);
    assert |multiset(c.sd15) + multiset(c.sdxl) + multiset(c.other)| == |c.sd15| + |c.sdxl| + |c.other|;
  }

  /** `categorize_models_by_type`: one pass appending each model to its bucket. */
  method CategorizeModelsByType(models: seq<ModelFile>) returns (c: Categorized)
    ensures c == Categorize(models)
  {
    var sd15: seq<ModelFile> := [];
    var sdxl: seq<ModelFile> := [];
    var other: seq<ModelFile> := [];
    for i := 0 to |models|
      invariant Categorized(sd15, sdxl, other) == Categorize(models[..i])
    {
      assert models[..i + 1][..i] == models[..i];
      var model := models[i];
      var s := Lower(model.subfolder);
      if Contains(s, "sd15") {
        sd15 := sd15 + [model];
      } else if Contains(s, "sdxl") || Contains(s, "ilxl") {
        sdxl := sdxl + [model];
      } else {
        other := other + [model];
      }
    }
    assert models[..|models|] == models;
    c := Categorized(sd15, sdxl, other);
  }

  /** The counts `get_models_info` reports. */
  datatype ModelsInfo = ModelsInfo(checkpoints: nat, bySd15: nat, bySdxl: nat, byOther: nat, vaes: nat, loras: nat)

  /** `get_models_info`: the per-bucket counts add up to the checkpoint total. */
  function GetModelsInfo(checkpoints: seq<ModelFile>, vaes: seq<ModelFile>, loras: seq<ModelFile>): (r: ModelsInfo)
    ensures r.checkpoints == |checkpoints| && r.vaes == |vaes| && r.loras == |loras|
    ensures r.bySd15 + r.bySdxl + r.byOther == r.checkpoints
    ensures r.bySd15 == |Bucketed(checkpoints, Sd15)| && r.bySdxl == |Bucketed(checkpoints, Sdxl)|
  {
    CategorizePartitions(checkpoints);
    var c := Categorize(checkpoints);
    ModelsInfo(|checkpoints|, |c.sd15|, |c.sdxl|, |c.other|, |vaes|, |loras|)
  }

  /** `Path.name`: the part after the last `/`. */
  function FinalName(path: string): (r: string)
    ensures '/' !in r
  {
    var k := LastIndexOf(path, '/');
    AfterLastAbsent(path, '/', k);
    path[k + 1..]
  }

  /** After the last occurrence of `c` there is no `c`. */
  lemma AfterLastAbsent(s: string, c: char, k: int)
    requires -1 <= k < |s|
    requires forall i :: k < i < |s| ==> s[i] != c
    ensures c !in s[k + 1..]
  {
  }

  /** `Path.suffix`: from the last dot of the name, unless the dot leads or ends it. */
  function Suffix(name: string): (r: string)
    ensures r == "" || (|r| >= 2 && r[0] == '.' && '.' !in r[1..])
    ensures |r| <= |name| && r == name[|name| - |r|..]
  {
    var i := LastIndexOf(name, '.');
    if 0 < i < |name| - 1 then
      AfterLastAbsent(name, '.', i);
      assert name[i..][1..] == name[i + 1..];
      name[i..]
    else ""
  }

  /** The name of the model without its suffix, with the folder in front: `folder / stem`. */
  function StemPath(path: string): (r: string)
    ensures r + Suffix(FinalName(path)) == path
  {
    var sfx := Suffix(FinalName(path));
    assert |FinalName(path)| <= |path| && FinalName(path) == path[|path| - |FinalName(path)|..];
    assert path[|path| - |sfx|..] == sfx;
    path[..|path| - |sfx|]
  }

  /** The preview suffixes, in the order they are tried. */
  const PreviewExtensions: seq<string> := [".png", ".jpg", ".jpeg"]

  /** The first existing `stem + ext` among `exts`, if any. */
  function FirstPreview(existing: set<string>, stem: string, exts: seq<string>): (r: Option<string>)
    ensures r.None? <==> forall i | 0 <= i < |exts| :: stem + exts[i] !in existing
    ensures r.Some? ==> (r.value in existing &&
      exists i | 0 <= i < |exts| :: r.value == stem + exts[i] && forall j | 0 <= j < i :: stem + exts[j] !in existing)
    decreases |exts|
  {
    if exts == [] then None
    else if stem + exts[0] in existing then Some(stem + exts[0])
    else
      var rest := FirstPreview(existing, stem, exts[1..]);
      assert forall i | 0 <= i < |exts[1..]| :: exts[1..][i] == exts[i + 1];
      rest
  }

  /** One step of the search: try `exts[k]`, else go on with the rest. */
  lemma FirstPreviewStep(existing: set<string>, stem: string, exts: seq<string>, k: nat)
    requires k < |exts|
    ensures FirstPreview(existing, stem, exts[k..]) ==
      if stem + exts[k] in existing then Some(stem + exts[k]) else FirstPreview(existing, stem, exts[k + 1..])
  {
    assert exts[k..][1..] == exts[k + 1..];
  }

  /** `find_preview_image`: the first existing sibling preview, `.png` before `.jpg` before `.jpeg`. */
  method FindPreviewImage(existing: set<string>, modelPath: string) returns (r: Option<string>)
    ensures r == FirstPreview(existing, StemPath(modelPath), PreviewExtensions)
  {
    var stem := StemPath(modelPath);
    for k := 0 to |PreviewExtensions|
      invariant FirstPreview(existing, stem, PreviewExtensions) ==
                FirstPreview(existing, stem, PreviewExtensions[k..])
    {
      var candidate := stem + PreviewExtensions[k];
      FirstPreviewStep(existing, stem, PreviewExtensions, k);
      if candidate in existing {
        return Some(candidate);
      }
    }
    return None;
  }

  /** The image suffixes the preview endpoint serves. */
  const AllowedImageSuffixes: set<string> := {".png", ".jpg", ".jpeg", ".gif", ".webp"}

  /** The preview endpoint's answer: the file with its media type, or an HTTP error. */
  datatype PreviewOutcome = Serve(path: string, mediaType: string) | HttpError(status: nat)

  predicate UnsafePath(filePath: string)
  {
    Contains(filePath, "..") || StartsWith(filePath, "/")
  }

  /**
   * `get_model_preview`: a path climbing out or starting at the root is
   * 400 before any lookup; a missing file 404; a suffix outside the image
   * list, compared in lower case, 400.  The media type keeps the suffix's
   * own case.
   */
  function GetModelPreview(filePath: string, files: set<string>): (r: PreviewOutcome)
    ensures UnsafePath(filePath) ==> r == HttpError(400)
    ensures r.Serve? <==>
      !UnsafePath(filePath) && filePath in files && Lower(Suffix(FinalName(filePath))) in AllowedImageSuffixes
    ensures r.Serve? ==>
      (r.path == filePath && Suffix(FinalName(filePath)) != "" &&
       r.mediaType == "image/" + Suffix(FinalName(filePath))[1..])
    ensures !UnsafePath(filePath) && filePath !in files ==> r == HttpError(404)
  {
    if UnsafePath(filePath) then HttpError(400)
    else if filePath !in files then HttpError(404)
    else
      var sfx := Suffix(FinalName(filePath));
      if Lower(sfx) !in AllowedImageSuffixes then HttpError(400)
      else
        AllowedSuffixNonEmpty(sfx);
        Serve(filePath, "image/" + sfx[1..])
  }

  /** Every allowed image suffix is non-empty. */
  lemma AllowedSuffixNonEmpty(sfx: string)
    requires Lower(sfx) in AllowedImageSuffixes
    ensures sfx != ""
  {
  }

  /** The guard does not depend on what exists: an unsafe path is refused for every file set. */
  lemma UnsafePathNeverServed(filePath: string, files: set<string>, others: set<string>)
    requires UnsafePath(filePath)
    ensures GetModelPreview(filePath, files) == GetModelPreview(filePath, others) == HttpError(400)
  {
  }

  /** A file without a suffix is never served, even when it exists. */
  lemma NoSuffixNotServed(filePath: string, files: set<string>)
    requires Suffix(FinalName(filePath)) == ""
    ensures !GetModelPreview(filePath, files).Serve?
  {
    assert Lower("") == "";
  }
}
