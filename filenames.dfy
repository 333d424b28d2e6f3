// `ImageSaveManager.sanitize_filename` and `generate_unique_filename`.
// The unified service and the legacy explorer carry identical copies.

module Filenames {
  import opened Text

  /** Characters Windows refuses in file names: `<>:"/\|?*`. */
  predicate Forbidden(c: char)
  {
    c == '<' || c == '>' || c == ':' || c == '"' || c == '/' || c == '\\' || c == '|' || c == '?' || c == '*'
  }

  /** The class `[\x00-\x1f\x7f-\x9f]`. */
  predicate Control(c: char)
  {
    c <= '\U{1f}' || ('\U{7f}' <= c <= '\U{9f}')
  }

  /** Python's `\s` on `str`: the Unicode white-space characters. */
  predicate Space(c: char)
  {
    c == ' ' || ('\t' <= c <= '\r') || ('\U{1c}' <= c <= '\U{1f}') || c == '\U{85}' || c == '\U{a0}' ||
    c == '\U{1680}' || ('\U{2000}' <= c <= '\U{200a}') || c == '\U{2028}' || c == '\U{2029}' ||
    c == '\U{202f}' || c == '\U{205f}' || c == '\U{3000}'
  }

  /** The class `[\s.]`, whose runs become one underscore. */
  predicate Squashed(c: char)
  {
    Space(c) || c == '.'
  }

  /** The characters `strip('. _')` removes. */
  predicate Stripped(c: char)
  {
    c == '.' || c == ' ' || c == '_'
  }

  predicate NoForbidden(s: string)
  {
    forall i :: 0 <= i < |s| ==> !Forbidden(s[i])
  }

  predicate NoControl(s: string)
  {
    forall i :: 0 <= i < |s| ==> !Control(s[i])
  }

  predicate NoSquashed(s: string)
  {
    forall i :: 0 <= i < |s| ==> !Squashed(s[i])
  }

  /** Nothing the sanitiser would replace, remove or squash. */
  predicate Clean(s: string)
  {
    NoForbidden(s) && NoControl(s) && NoSquashed(s)
  }

  /** Step 1: each forbidden character becomes `_`, everything else stays. */
  function ReplaceForbidden(s: string): (r: string)
    ensures |r| == |s| && NoForbidden(r)
    ensures forall i :: 0 <= i < |s| ==> r[i] == (if Forbidden(s[i]) then '_' else s[i])
  {
    seq(|s|, i requires 0 <= i < |s| => if Forbidden(s[i]) then '_' else s[i])
  }

  /** Step 2: control characters are deleted, the others kept in order. */
  function DropControl(s: string): (r: string)
    ensures |r| <= |s| && NoControl(r)
    ensures NoForbidden(s) ==> NoForbidden(r)
    ensures NoControl(s) ==> r == s
  {
    if s == [] then []
    else if Control(s[|s| - 1]) then DropControl(s[..|s| - 1])
    else DropControl(s[..|s| - 1]) + [s[|s| - 1]]
  }

  /**
   * Step 3: every maximal run of white space and dots becomes one `_`;
   * `inRun` says the previous character already belonged to such a run.
   */
  function SquashRuns(s: string, inRun: bool): (r: string)
    ensures NoSquashed(r)
    ensures NoForbidden(s) ==> NoForbidden(r)
    ensures NoControl(s) ==> NoControl(r)
    ensures NoSquashed(s) ==> r == s
    decreases |s|
  {
    if s == [] then []
    else if Squashed(s[0]) then
      if inRun then SquashRuns(s[1..], true) else ['_'] + SquashRuns(s[1..], true)
    else
      [s[0]] + SquashRuns(s[1..], false)
  }

  /** `lstrip('. _')`: a suffix of the input. */
  function StripLeft(s: string): (r: string)
    ensures r == [] || !Stripped(r[0])
    ensures |r| <= |s| && r == s[|s| - |r|..]
    ensures Clean(s) ==> Clean(r)
    ensures |s| > 0 && !Stripped(s[0]) ==> r == s
    decreases |s|
  {
    if s != [] && Stripped(s[0]) then StripLeft(s[1..]) else s
  }

  /** `rstrip('. _')`: a prefix of the input. */
  function StripRight(s: string): (r: string)
    ensures r == [] || !Stripped(r[|r| - 1])
    ensures |r| <= |s| && r == s[..|r|]
    ensures Clean(s) ==> Clean(r)
    ensures |s| > 0 && !Stripped(s[|s| - 1]) ==> r == s
    decreases |s|
  {
    if s != [] && Stripped(s[|s| - 1]) then StripRight(s[..|s| - 1]) else s
  }

  lemma UntitledIsClean()
    ensures Clean("untitled")
  {
  }

  /** `sanitize_filename`: the four substitutions, then `'untitled'` for an empty result. */
  function Sanitize(s: string): (r: string)
    ensures |r| > 0
    ensures Clean(r)
    ensures !Stripped(r[0]) && !Stripped(r[|r| - 1])
  {
    var t := StripRight(StripLeft(SquashRuns(DropControl(ReplaceForbidden(s)), false)));
    UntitledIsClean();
    if t == [] then "untitled" else t
  }

  /** A sanitised name is a fixed point: sanitising twice equals sanitising once. */
  lemma SanitizeIdempotent(s: string)
    ensures Sanitize(Sanitize(s)) == Sanitize(s)
  {
    var r := Sanitize(s);
    assert ReplaceForbidden(r) == r;
  }

  // ---------------------------------------------------------------------
  // Unique names

  /** `base.rsplit('.', 1)[0]`: everything before the last dot (the whole name without one). */
  function NamePart(base: string): (n: string)
    ensures |n| <= |base|
  {
    var k := LastIndexOf(base, '.');
    if k < 0 then base else base[..k]
  }

  /** `'.' + base.rsplit('.', 1)[1]` when the name has a dot, else empty. */
  function ExtPart(base: string): (e: string)
    ensures e == [] || e[0] == '.'
  {
    var k := LastIndexOf(base, '.');
    if k < 0 then [] else base[k..]
  }

  lemma SplitRejoins(base: string)
    ensures NamePart(base) + ExtPart(base) == base
  {
  }

  /** `f"{name}_{counter:03d}{ext}"`. */
  function Candidate(name: string, k: nat, ext: string): string
  {
    name + "_" + ZeroPad(k, 3) + ext
  }

  /** The counter past which the loop gives up and uses the timestamp. */
  const CounterCap: nat := 9999

  /**
   * The first free candidate numbered `k` or later; once the counter
   * passes the cap, the timestamped name, whether free or not.
   */
  function FirstFree(existing: set<string>, name: string, ext: string, k: nat, stamp: string): string
    requires k >= 1
    decreases CounterCap - k
  {
    if k >= CounterCap then name + "_" + stamp + ext
    else if Candidate(name, k, ext) !in existing then Candidate(name, k, ext)
    else FirstFree(existing, name, ext, k + 1, stamp)
  }

  /**
   * `generate_unique_filename` as a value: `existing` is the set of names
   * already in the directory and `stamp` the formatted current time.
   */
  function UniqueName(existing: set<string>, base: string, stamp: string): string
  {
    if base !in existing then base
    else FirstFree(existing, NamePart(base), ExtPart(base), 1, stamp)
  }

  /**
   * When some numbered candidate below the cap is free, the walk returns
   * the lowest free one, which is not among the existing names.
   */
  lemma {:induction false} FirstFreeIsLowestFree(existing: set<string>, name: string, ext: string, k: nat, stamp: string)
    requires k >= 1
    requires exists j :: k <= j < CounterCap && Candidate(name, j, ext) !in existing
    ensures FirstFree(existing, name, ext, k, stamp) !in existing
    ensures exists j ::
      (k <= j < CounterCap && FirstFree(existing, name, ext, k, stamp) == Candidate(name, j, ext) &&
       forall i :: k <= i < j ==> Candidate(name, i, ext) in existing)
    decreases CounterCap - k
  {
    var r := FirstFree(existing, name, ext, k, stamp);
    var c := Candidate(name, k, ext);
    if c in existing {
      var w :| k <= w < CounterCap && Candidate(name, w, ext) !in existing;
      assert k + 1 <= w;
      FirstFreeIsLowestFree(existing, name, ext, k + 1, stamp);
      assert r == FirstFree(existing, name, ext, k + 1, stamp);
      var j :| k + 1 <= j < CounterCap && r == Candidate(name, j, ext) &&
        (forall i :: k + 1 <= i < j ==> Candidate(name, i, ext) in existing);
      assert forall i :: k <= i < j ==> Candidate(name, i, ext) in existing;
    } else {
      assert k < CounterCap;
      assert r == c;
    }
  }

  /**
   * `generate_unique_filename` returns the base name when it is free, and
   * otherwise the lowest free `name_NNN.ext` whenever one below the cap exists.
   */
  lemma UniqueNameIsFree(existing: set<string>, base: string, stamp: string)
    requires base !in existing ||
             exists j :: 1 <= j < CounterCap && Candidate(NamePart(base), j, ExtPart(base)) !in existing
    ensures UniqueName(existing, base, stamp) !in existing
    ensures base !in existing ==> UniqueName(existing, base, stamp) == base
  {
    if base in existing {
      FirstFreeIsLowestFree(existing, NamePart(base), ExtPart(base), 1, stamp);
    }
  }

  /**
   * The counter loop: candidates from 1 upwards.  Candidate 9999 is built
   * and then overwritten by the timestamped name without ever being
   * checked, so the last candidate tried is 9998.
   */
  method GenerateUniqueFilename(existing: set<string>, base: string, stamp: string) returns (unique: string)
    ensures unique == UniqueName(existing, base, stamp)
  {
    var name := NamePart(base);
    var ext := ExtPart(base);
    var counter := 1;
    unique := base;
    while unique in existing
      invariant 1 <= counter <= CounterCap
      invariant counter == 1 ==> unique == base
      invariant counter > 1 ==> unique == Candidate(name, counter - 1, ext) &&
                                UniqueName(existing, base, stamp) == FirstFree(existing, name, ext, counter - 1, stamp)
      decreases CounterCap - counter
    {
      unique := Candidate(name, counter, ext);
      counter := counter + 1;
      if counter > CounterCap {
        unique := name + "_" + stamp + ext;
        break;
      }
    }
  }
}
