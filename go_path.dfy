/**
 * The parts of Go's path/filepath and strings packages that derive an
 * experiment's default name from the event-log path: filepath.Base,
 * filepath.Ext and strings.TrimSuffix, for '/'-separated paths.
 */
module GoPath {

  /** Removes every trailing '/'. */
  function TrimTrailingSlashes(p: string): (r: string)
    ensures |r| <= |p| && r == p[..|r|]
    ensures r == [] || r[|r| - 1] != '/'
    ensures forall i :: |r| <= i < |p| ==> p[i] == '/'
  {
    if p != [] && p[|p| - 1] == '/' then TrimTrailingSlashes(p[..|p| - 1]) else p
  }

  /** The part of p after its last '/': its longest suffix without a '/'. */
  function LastElement(p: string): (r: string)
    ensures |r| <= |p| && r == p[|p| - |r|..]
    ensures '/' !in r
    ensures |r| < |p| ==> p[|p| - |r| - 1] == '/'
  {
    if p == [] || p[|p| - 1] == '/' then [] else LastElement(p[..|p| - 1]) + [p[|p| - 1]]
  }

  /** True when p is non-empty and made of '/' only. */
  predicate AllSlashes(p: string)
  {
    p != [] && forall i :: 0 <= i < |p| ==> p[i] == '/'
  }

  /**
   * filepath.Base: the last element of path once trailing slashes are
   * removed; "." for the empty path and "/" for a path of slashes only.
   */
  function Base(path: string): (b: string)
    ensures b != []
    ensures '/' in b <==> AllSlashes(path)
    ensures AllSlashes(path) ==> b == "/"
    ensures path == [] ==> b == "."
    ensures path != [] && !AllSlashes(path) ==>
      var n := |TrimTrailingSlashes(path)|;
      && |b| <= n
      && path[n - |b|..n] == b
      && (n == |b| || path[n - |b| - 1] == '/')
      && forall i :: n <= i < |path| ==> path[i] == '/'
  {
    if path == [] then "."
    else
      var trimmed := TrimTrailingSlashes(path);
      if trimmed == [] then "/"
      else
        assert path[|trimmed| - 1] != '/';
        LastElement(trimmed)
  }

  /**
   * filepath.Ext: the suffix of p that starts at the final '.' of its last
   * element, or "" when that element has no '.'.
   */
  function Ext(p: string): (e: string)
    ensures |e| <= |p| && e == p[|p| - |e|..]
    ensures '/' !in e
    ensures e == [] || (e[0] == '.' && forall i :: 1 <= i < |e| ==> e[i] != '.')
  {
    if p == [] || p[|p| - 1] == '/' then []
    else if p[|p| - 1] == '.' then "."
    else
      var e := Ext(p[..|p| - 1]);
      if e == [] then [] else e + [p[|p| - 1]]
  }

  /** Ext(p) is the part of p's last element from that element's final '.'. */
  lemma {:induction false} ExtOfLastElement(p: string)
    ensures |Ext(p)| <= |LastElement(p)|
    ensures Ext(p) == [] <==> '.' !in LastElement(p)
  {
    if p != [] && p[|p| - 1] != '/' {
      ExtOfLastElement(p[..|p| - 1]);
    }
  }

  predicate HasSuffix(s: string, suffix: string)
  {
    |suffix| <= |s| && s[|s| - |suffix|..] == suffix
  }

  /** strings.TrimSuffix: s without suffix when s ends with it, s otherwise. */
  function TrimSuffix(s: string, suffix: string): (r: string)
    ensures |r| <= |s| && r == s[..|r|]
    ensures HasSuffix(s, suffix) ==> r + suffix == s
    ensures !HasSuffix(s, suffix) ==> r == s
  {
    if HasSuffix(s, suffix) then s[..|s| - |suffix|] else s
  }
}
