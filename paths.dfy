/** The part of Python's pathlib.PurePath the exporters and the pipeline use:
    the final component's name, its suffix and with_suffix. A path is held as
    its sequence of components after pathlib's own normalisation. */
module Paths {
  import opened Wrappers
  import opened Text

  datatype Path = Path(parts: seq<string>)

  /** PurePath.name: the final component, or "" for a path with none. */
  function Name(p: Path): string
  {
    if |p.parts| == 0 then "" else p.parts[|p.parts| - 1]
  }

  /** The index of the last '.' in s, or -1 when there is none (str.rfind). */
  function LastDot(s: string): (i: int)
    ensures -1 <= i < |s|
    ensures i >= 0 ==> s[i] == '.'
    ensures forall j :: i < j < |s| ==> s[j] != '.'
  {
    if |s| == 0 then -1
    else if s[|s| - 1] == '.' then |s| - 1
    else LastDot(s[..|s| - 1])
  }

  /** PurePath.suffix on a name: from the last dot on, unless that dot is the
      first or the last character. */
  function Suffix(name: string): (s: string)
    ensures s == "" || (|s| >= 2 && s[0] == '.' && EndsWith(name, s) && |s| < |name|)
  {
    var i := LastDot(name);
    if 0 < i < |name| - 1 then name[i..] else ""
  }

  function PathSuffix(p: Path): string
  {
    Suffix(Name(p))
  }

  /** A suffix with_suffix accepts and that is not empty: a dot followed by at
      least one character, none of them a separator or a further dot. */
  predicate ProperSuffix(s: string)
  {
    |s| >= 2 && s[0] == '.' && forall i :: 1 <= i < |s| ==> s[i] != '.' && s[i] != '/'
  }

  /** PurePath.with_suffix for a proper suffix: replaces the name's suffix, or
      appends when it has none; a path with an empty name raises ValueError. */
  function WithSuffix(p: Path, suffix: string): (r: Result<Path>)
    requires ProperSuffix(suffix)
    ensures r.Err? <==> Name(p) == ""
    ensures r.Ok? ==> |r.value.parts| == |p.parts| && r.value.parts[..|p.parts| - 1] == p.parts[..|p.parts| - 1]
    ensures r.Ok? ==> Name(r.value) != ""
  {
    var name := Name(p);
    if name == "" then Err(ValueError)
    else
      var oldSuffix := Suffix(name);
      var stem := name[..|name| - |oldSuffix|];
      Ok(Path(p.parts[..|p.parts| - 1] + [stem + suffix]))
  }

  /** After with_suffix(s) the path's suffix is s. */
  lemma SuffixAfterWithSuffix(p: Path, suffix: string)
    requires ProperSuffix(suffix) && Name(p) != ""
    ensures WithSuffix(p, suffix).Ok?
    ensures PathSuffix(WithSuffix(p, suffix).value) == suffix
  {
    var name := Name(p);
    var oldSuffix := Suffix(name);
    var stem := name[..|name| - |oldSuffix|];
    assert |stem| > 0;
    var n := stem + suffix;
    var q := WithSuffix(p, suffix).value;
    assert Name(q) == n;
    LastDotOfAppended(stem, suffix);
    assert LastDot(n) == |stem|;
    assert n[|stem|..] == suffix;
  }

  lemma LastDotOfAppended(stem: string, suffix: string)
    requires |suffix| >= 1 && suffix[0] == '.'
    requires forall i :: 1 <= i < |suffix| ==> suffix[i] != '.'
    ensures LastDot(stem + suffix) == |stem|
    decreases |suffix|
  {
    var n := stem + suffix;
    if |suffix| > 1 {
      var k := |suffix| - 1;
      assert n[..|n| - 1] == stem + suffix[..k];
      LastDotOfAppended(stem, suffix[..k]);
    }
  }

  /** The exporters' rule `if suffix.lower() != ext: path = path.with_suffix(ext)`. */
  function ForceSuffix(p: Path, ext: string): (r: Result<Path>)
    requires ProperSuffix(ext) && Lower(ext) == ext
    ensures r.Err? <==> Name(p) == ""
    ensures r.Ok? ==> Lower(PathSuffix(r.value)) == ext
    ensures r.Ok? && Lower(PathSuffix(p)) == ext ==> r.value == p
    ensures r.Ok? ==> Name(r.value) != ""
  {
    if Lower(PathSuffix(p)) != ext then
      if Name(p) != "" then SuffixAfterWithSuffix(p, ext); WithSuffix(p, ext)
      else WithSuffix(p, ext)
    else
      assert Name(p) != "" by { assert |Lower(PathSuffix(p))| == |ext|; }
      Ok(p)
  }
}
