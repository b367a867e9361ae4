/**
 * The parts of Node's POSIX `path` module the route uses: `join` of a base
 * directory and one file name, `basename` and `dirname`. Paths are split at
 * their last '/'; separators doubled or left trailing are not normalised.
 */
module NodePath {
  import opened Wrappers

  const Separator: char := '/'

  /** Index of the last separator in `p`, if any. */
  function LastSeparator(p: string): (k: Option<nat>)
    ensures k.Some? ==> k.value < |p| && p[k.value] == Separator
    ensures k.Some? ==> forall j :: k.value < j < |p| ==> p[j] != Separator
    ensures k.None? ==> forall j :: 0 <= j < |p| ==> p[j] != Separator
  {
    if p == [] then None
    else if p[|p| - 1] == Separator then Some(|p| - 1)
    else LastSeparator(p[..|p| - 1])
  }

  /**
   * `path.join(dir, name)` for a directory and a single file name: the
   * directory, then exactly one separator, then the name.
   */
  function Join(dir: string, name: string): (p: string)
    ensures |p| == |dir| + 1 + |name| && p[|dir|] == Separator
    ensures p[..|dir|] == dir && p[|dir| + 1..] == name
  {
    dir + [Separator] + name
  }

  /** `path.basename(p)`: what follows the last separator. */
  function Basename(p: string): (b: string)
    ensures forall j :: 0 <= j < |b| ==> b[j] != Separator
  {
    match LastSeparator(p)
    case None => p
    case Some(k) => p[k + 1..]
  }

  /**
   * `path.dirname(p)`: what precedes the last separator ("." without one,
   * "/" for the root). Below the root, dirname and basename join back to `p`.
   */
  function Dirname(p: string): (d: string)
    ensures LastSeparator(p).None? ==> d == "." && Basename(p) == p
    ensures LastSeparator(p) == Some(0) ==> d == [Separator]
    ensures LastSeparator(p).Some? && LastSeparator(p).value > 0 ==> Join(d, Basename(p)) == p
  {
    match LastSeparator(p)
    case None => "."
    case Some(k) =>
      if k == 0 then [Separator]
      else
        assert p[..k] + [Separator] + p[k + 1..] == p;
        p[..k]
  }

  /** `basename` and `dirname` take apart what `join` put together. */
  lemma {:induction false} SplitJoin(dir: string, name: string)
    requires forall j :: 0 <= j < |name| ==> name[j] != Separator
    ensures Basename(Join(dir, name)) == name
    ensures dir != [] && dir != [Separator] ==> Dirname(Join(dir, name)) == dir
  {
    var p := Join(dir, name);
    var k := |dir|;
    assert p[k] == Separator;
    match LastSeparator(p)
    case None =>
      assert false;
    case Some(m) =>
      if m != k {
        assert false;
      }
      assert p[m + 1..] == name;
      assert p[..m] == dir;
  }
}
