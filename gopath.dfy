/** The slash-separated path helpers of Go's `path` and `path/filepath`
    packages that the handlers call: `path.Split`, `path.Base` and a
    separator-joining `filepath.Join`. */
module GoPath {
  import opened Text

  /** Go's `path.Split`: everything up to and including the last `/`, and
      the rest. */
  function PathSplit(p: string): (parts: (string, string))
    ensures parts.0 + parts.1 == p
    ensures '/' !in parts.1
    ensures parts.0 == "" || parts.0[|parts.0| - 1] == '/'
  {
    var i := LastIndexOf(p, '/');
    (p[..i + 1], p[i + 1..])
  }

  /** A path without a slash has an empty directory part. */
  lemma PathSplitNoSlash(p: string)
    requires '/' !in p
    ensures PathSplit(p) == ("", p)
  {
  }

  /** `p` with its trailing slashes removed. */
  function TrimTrailingSlashes(p: string): (r: string)
    ensures |r| <= |p| && r == p[..|r|]
    ensures r == "" || r[|r| - 1] != '/'
    ensures forall k :: |r| <= k < |p| ==> p[k] == '/'
  {
    if |p| > 0 && p[|p| - 1] == '/' then TrimTrailingSlashes(p[..|p| - 1]) else p
  }

  /** Go's `path.Base`: the last element of `p`; "." for the empty path and
      "/" for a path made only of slashes. */
  function PathBase(p: string): (r: string)
    ensures r != ""
    ensures r == "/" || '/' !in r
  {
    if p == "" then "."
    else
      var t := TrimTrailingSlashes(p);
      var i := LastIndexOf(t, '/');
      var last := t[i + 1..];
      if last == "" then "/" else last
  }

  /** The last element of a path ending in a non-empty, slash-free name is
      that name, whatever precedes it. */
  lemma {:induction false} PathBaseOfName(dir: string, name: string)
    requires name != "" && '/' !in name
    ensures PathBase(dir + "/" + name) == name
  {
    var p := dir + "/" + name;
    assert p[|p| - 1] == name[|name| - 1];
    assert TrimTrailingSlashes(p) == p;
    var i := LastIndexOf(p, '/');
    assert p[|dir|] == '/';
    assert i == |dir|;
    assert p[i + 1..] == name;
  }

  /** Go's `filepath.Join(root, name)` on a Unix host, without the lexical
      cleaning of `.`, `..` and repeated separators. */
  function JoinPath(root: string, name: string): (r: string)
    ensures |r| == |root| + 1 + |name|
    ensures r[..|root|] == root && r[|root|] == '/' && r[|root| + 1..] == name
  {
    root + "/" + name
  }
}
