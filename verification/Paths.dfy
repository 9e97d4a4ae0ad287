/** Relative path names and the "lies below" relation between them. */
module Paths {

  /** std::filesystem::path::preferred_separator. */
  const SEPARATOR: char := '/'

  /** A name relative to the root of one of the two trees. */
  type Path = string

  /** p lies strictly below the directory dir. */
  predicate Under(dir: Path, p: Path) {
    |dir| < |p| && dir <= p && p[|dir|] == SEPARATOR
  }

  /** p is dir itself or lies below it: what remove_all(dir) takes away. */
  predicate AtOrUnder(dir: Path, p: Path) {
    dir == p || Under(dir, p)
  }

  /** Every directory on the way to p: what create_directories(p) makes beside p. */
  function Ancestors(p: Path): (ds: set<Path>)
    ensures forall d :: d in ds <==> Under(d, p)
  {
    assert forall d :: Under(d, p) ==> p[..|d|] == d;
    set k | 0 <= k < |p| && p[k] == SEPARATOR :: p[..k]
  }

  /** Every directory on the way to one of the names is among dirs. */
  ghost predicate AncestorClosed(names: set<Path>, dirs: set<Path>) {
    forall d, p :: p in names && Under(d, p) ==> d in dirs
  }

  ghost predicate Distinct<T>(xs: seq<T>) {
    forall i, j :: 0 <= i < j < |xs| ==> xs[i] != xs[j]
  }
}
