/** The two `os.path` functions the extension manager uses, for POSIX paths. */
module Paths {
  import opened Wrappers

  /**
   * `os.path.basename(p)`: the part of `p` after its last '/', which is
   * all of `p` when it holds no '/'.
   */
  function Basename(p: string): (b: string)
    ensures '/' !in b
    ensures |b| <= |p| && b == p[|p| - |b|..]
    ensures |b| < |p| ==> p[|p| - |b| - 1] == '/'
  {
    if p == [] || p[|p| - 1] == '/' then [] else Basename(p[..|p| - 1]) + [p[|p| - 1]]
  }

  /** The position of the last '.' in `s`. */
  function LastDot(s: string): (r: Option<nat>)
    ensures r.None? ==> '.' !in s
    ensures r.Some? ==> r.value < |s| && s[r.value] == '.' && '.' !in s[r.value + 1..]
  {
    if s == [] then None
    else if s[|s| - 1] == '.' then Some(|s| - 1)
    else
      var r := LastDot(s[..|s| - 1]);
      assert s == s[..|s| - 1] + [s[|s| - 1]];
      r
  }

  predicate HasNonDotBefore(s: string, i: nat)
    requires i <= |s|
  {
    exists k :: 0 <= k < i && s[k] != '.'
  }

  /**
   * `os.path.splitext(name)[0]` for a name without '/': the name up to its
   * last '.', unless only dots stand before that '.' (a leading-dot name
   * such as ".js" has no extension).
   */
  function StripExtension(name: string): (root: string)
    ensures StartsWithRoot(name, root)
  {
    match LastDot(name)
    case None => name
    case Some(i) => if HasNonDotBefore(name, i) then name[..i] else name
  }

  /**
   * `root` is `name` itself, or a prefix of it that contains a character
   * other than '.', followed in `name` by a '.' and a dot-free extension.
   */
  ghost predicate StartsWithRoot(name: string, root: string) {
    |root| <= |name| && root == name[..|root|] &&
    (|root| < |name| ==>
       name[|root|] == '.' && '.' !in name[|root| + 1..] && HasNonDotBefore(name, |root|))
  }

  /**
   * Appending "." and a dot-free extension to a name that is not all dots
   * is undone by StripExtension.
   */
  lemma StripExtensionOfAppended(stem: string, ext: string)
    requires '.' !in ext && HasNonDotBefore(stem, |stem|)
    ensures StripExtension(stem + "." + ext) == stem
  {
    var name := stem + "." + ext;
    var k :| 0 <= k < |stem| && stem[k] != '.';
    assert name[k] == stem[k];
    assert name[|stem|] == '.';
    assert name[..|stem|] == stem;
  }
}
