/** The directory pass and the cleanup. */
module SyncDirs {
  import opened Paths
  import opened FileTrees
  import opened SyncEngine
  import opened SyncShape
  import opened SyncPlan
  import opened SyncDeletions

  /** The directories left of both trees once those in ds are removed with all below them. */
  function Remaining(c: Config, ds: set<Path>): set<Path> {
    set d | d in c.outDirs + c.inDirs && !IsSwept(ds, d)
  }

  /**
    What ODirSet and the output directories are, whatever order the sets are walked in. A worker
    may have removed a directory that was empty when its name came up for deletion.
   */
  ghost predicate DirsInv(c: Config, s: State) {
    var dirs, outDirs := s.shared.disk.dirs, s.shared.outDirs;
    match s.main
    case MDirs(todo) =>
      && todo <= c.inDirs
      && outDirs == c.outDirs - (c.inDirs - todo)
      && c.outDirs + (c.inDirs - todo) <= dirs <= c.outDirs + c.inDirs
    case MCleanup(todo) =>
      && c.deleteWithoutMatch && todo <= outDirs == LeftoverDirs(c)
      && dirs == Remaining(c, LeftoverDirs(c) - todo) - GoneNames(s.shared.deletions)
    case MEnd => dirs == Remaining(c, SweptDirs(c)) - GoneNames(s.shared.deletions)
    case _ => outDirs == LeftoverDirs(c) && dirs == c.outDirs + c.inDirs - GoneNames(s.shared.deletions)
  }

  lemma CleanupDirs(c: Config, s: State, pick: Path)
    requires DirsInv(c, s) && s.main.MCleanup? && MainEnabled(s, pick)
    ensures DirsInv(c, MainStep(c, s, pick))
  {
    var todo := s.main.todo;
    if todo == {} {
      assert LeftoverDirs(c) - todo == LeftoverDirs(c);
    } else {
      RemainingWithout(c, LeftoverDirs(c), todo, pick);
    }
  }

  lemma PassDirs(c: Config, s: State, pick: Path)
    requires Valid(c) && ShapeInv(c, s) && DirsInv(c, s) && s.main.MDirs? && MainEnabled(s, pick)
    ensures DirsInv(c, MainStep(c, s, pick))
  {
    if s.main.todo != {} {
      assert Ancestors(pick) <= c.inDirs;
    }
  }

  lemma MainDirs(c: Config, s: State, pick: Path)
    requires Valid(c) && ShapeInv(c, s) && OrdersInv(c, s) && DirsInv(c, s) && MainEnabled(s, pick)
    ensures DirsInv(c, MainStep(c, s, pick))
  {
    match s.main
    case MDirs(_) =>
      PassDirs(c, s, pick);
    case MLeftovers(todo) =>
      if todo != {} {
        EntriesGrow(c, Leftovers(c), todo, pick);
      }
    case MJoinWorker(_) =>
      assert Remaining(c, {}) == c.outDirs + c.inDirs;
      assert LeftoverDirs(c) - LeftoverDirs(c) == {};
    case MCleanup(_) =>
      CleanupDirs(c, s, pick);
    case _ =>
  }

  lemma GoneAfterWorker(c: Config, sh: Shared, j: nat, w: Worker, o: Outcome)
    requires Orders(c, sh.deletions) && WorkerOrder(sh.deletions, j, Deletes(w))
    ensures GoneNames(WorkerDeletions(sh.deletions, j, w, o))
            == GoneNames(sh.deletions) + if w.WDelete? && o.Success? then {w.file} else {}
  {
  }

  lemma WorkerDirs(c: Config, s: State, j: nat, o: Outcome)
    requires ShapeInv(c, s) && OrdersInv(c, s) && DirsInv(c, s)
    requires j < |s.workers| && WorkerCan(c, s.shared, s.workers[j], o)
    ensures DirsInv(c, WorkerStep(c, s, j, o))
  {
    assert WorkerShape(s.main, s.shared, j, s.workers[j]) && !WorkersDone(s);
    GoneAfterWorker(c, s.shared, j, s.workers[j], o);
  }

  /** Removing one more directory from those still to go. */
  lemma RemainingWithout(c: Config, all: set<Path>, todo: set<Path>, d: Path)
    requires d in todo && todo <= all
    ensures Remaining(c, all - (todo - {d})) == WithoutDirs(Remaining(c, all - todo), d)
  {
    forall x ensures IsSwept(all - (todo - {d}), x) <==> IsSwept(all - todo, x) || AtOrUnder(d, x) {
      SweepOneMore(all, todo, d, x);
    }
  }

  lemma SweepOneMore(all: set<Path>, todo: set<Path>, d: Path, x: Path)
    requires d in todo && todo <= all
    ensures IsSwept(all - (todo - {d}), x) <==> IsSwept(all - todo, x) || AtOrUnder(d, x)
  {
    assert all - (todo - {d}) == (all - todo) + {d};
  }
}
