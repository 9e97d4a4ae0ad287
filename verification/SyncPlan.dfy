/** The per-file rule, the plan it makes on two snapshots, and the one-pass sequential copy. */
module SyncPlan {
  import opened Paths
  import opened FileTrees
  import opened SyncEngine

  /** Whether f is to replace its counterpart, given what the two trees hold. */
  predicate Replaces(c: Config, input: Tree, output: Tree, f: Path)
    requires f in input
  {
    f in output ==>
      var i, o := input[f], output[f];
      || i.time > o.time
      || (i.time < o.time && c.force)
      || (i.time == o.time && (c.overwriteExisting || |i.content| != |o.content|))
  }

  /** The plan on the initial snapshots. */
  predicate Planned(c: Config, f: Path) {
    f in c.input && Replaces(c, c.input, c.output, f)
  }

  /** Output files without a counterpart. */
  function Leftovers(c: Config): set<Path> {
    c.output.Keys - c.input.Keys
  }

  /** Output directories without a counterpart. */
  function LeftoverDirs(c: Config): set<Path> {
    c.outDirs - c.inDirs
  }

  /** What main queues for the leftovers gs. */
  function EntriesFor(c: Config, gs: set<Path>): set<Path> {
    set g | g in gs :: c.queuedPrefix + g
  }

  /** The names that are queued for deletion, relative to the output. */
  function Targets(c: Config): set<Path> {
    if c.deleteWithoutMatch then EntriesFor(c, Leftovers(c)) else {}
  }

  /** Different leftovers are queued under different names. */
  lemma EntriesGrow(c: Config, all: set<Path>, todo: set<Path>, g: Path)
    requires g in todo && todo <= all
    ensures c.queuedPrefix + g !in EntriesFor(c, all - todo)
    ensures EntriesFor(c, all - (todo - {g})) == EntriesFor(c, all - todo) + {c.queuedPrefix + g}
  {
    forall h | c.queuedPrefix + h == c.queuedPrefix + g ensures h == g {
      assert (c.queuedPrefix + h)[|c.queuedPrefix|..] == h;
      assert (c.queuedPrefix + g)[|c.queuedPrefix|..] == g;
    }
    assert all - (todo - {g}) == (all - todo) + {g};
  }

  /** The directories that are removed with everything below them. */
  function SweptDirs(c: Config): set<Path> {
    if c.deleteWithoutMatch then LeftoverDirs(c) else {}
  }

  predicate IsSwept(ds: set<Path>, f: Path) {
    exists d :: d in ds && AtOrUnder(d, f)
  }

  // ---- The sequential specification ------------------------------------------------------

  datatype Trees = Trees(input: Tree, output: Tree)

  /** One transfer; stamps says which time the system gives each copy. */
  function TransferOne(c: Config, t: Trees, f: Path, stamps: map<Path, int>): Trees
    requires f in t.input
  {
    if c.move then Trees(Without(t.input, f), t.output[f := t.input[f]])
    else Trees(t.input, t.output[f := t.input[f].(time := if f in stamps then stamps[f] else 0)])
  }

  /** Walk the files once, one after the other, and copy or move each by the rule. */
  function OnePass(c: Config, files: seq<Path>, t: Trees, stamps: map<Path, int>): Trees
    requires Distinct(files) && forall f :: f in files ==> f in t.input
  {
    if files == [] then t
    else
      var f := files[0];
      OnePass(c, files[1..], if Replaces(c, t.input, t.output, f) then TransferOne(c, t, f, stamps) else t, stamps)
  }

  /** What one pass leaves at x depends only on what the trees held at x before it. */
  lemma {:induction false} OnePassAt(c: Config, files: seq<Path>, t: Trees, stamps: map<Path, int>, x: Path)
    requires Distinct(files) && forall f :: f in files ==> f in t.input
    ensures var t' := OnePass(c, files, t, stamps);
      if x in files && Replaces(c, t.input, t.output, x) then
        && SameAt(t'.output, TransferOne(c, t, x, stamps).output, x)
        && SameAt(t'.input, TransferOne(c, t, x, stamps).input, x)
      else
        SameAt(t'.output, t.output, x) && SameAt(t'.input, t.input, x)
  {
    if files != [] {
      var f := files[0];
      var next := if Replaces(c, t.input, t.output, f) then TransferOne(c, t, f, stamps) else t;
      assert x in files <==> x == f || x in files[1..];
      OnePassAt(c, files[1..], next, stamps, x);
    }
  }

  /** The output with the queued names and the leftover directories taken away. */
  function Cleaned(c: Config, output: Tree): Tree {
    map f | f in output && f !in Targets(c) && !IsSwept(SweptDirs(c), f) :: output[f]
  }
}
