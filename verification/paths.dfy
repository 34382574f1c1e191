/** Unix paths as strings, and `Path::join` on them. */
module Paths {

  const SEPARATOR: char := '/'

  predicate IsAbsolute(p: string) {
    |p| > 0 && p[0] == SEPARATOR
  }

  predicate EndsWith(s: string, suffix: string) {
    |s| >= |suffix| && s[|s| - |suffix|..] == suffix
  }

  /**
   * `base.join(p)` on Unix: an absolute `p` replaces the base; otherwise `p`
   * is appended, with a separator between the two unless the base is empty or
   * already ends with one.
   */
  function Join(base: string, p: string): (r: string)
    ensures IsAbsolute(p) ==> r == p
    ensures !IsAbsolute(p) ==> |r| >= |base| + |p| && r[..|base|] == base && EndsWith(r, p)
    ensures !IsAbsolute(p) && (base == [] || base[|base| - 1] == SEPARATOR) ==> |r| == |base| + |p|
    ensures !IsAbsolute(p) && base != [] && base[|base| - 1] != SEPARATOR ==>
      |r| == |base| + 1 + |p| && r[|base|] == SEPARATOR
  {
    if IsAbsolute(p) then p
    else if base == [] || base[|base| - 1] == SEPARATOR then base + p
    else base + [SEPARATOR] + p
  }

  /** Joining keeps any suffix of the joined part, whatever the base. */
  lemma JoinKeepsSuffix(base: string, p: string, suffix: string)
    requires EndsWith(p, suffix)
    ensures EndsWith(Join(base, p), suffix)
  {
    var r := Join(base, p);
    assert r[|r| - |p|..] == p;
    assert r[|r| - |suffix|..] == p[|p| - |suffix|..];
  }
}
