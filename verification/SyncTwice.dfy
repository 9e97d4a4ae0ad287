/** A second call on what a first one has left. */
module SyncTwice {
  import opened Paths
  import opened FileTrees
  import opened SyncEngine
  import opened SyncPlan
  import opened SyncTrees
  import opened SyncInvariant
  import opened SyncOutcome
  import opened SyncResults
  import opened SyncSchedules

  // ---- What a call leaves is in order ----------------------------------------------------------

  /** Every directory on the way to a file or directory of the output exists. */
  ghost predicate Closed(disk: Disk) {
    AncestorClosed(disk.output.Keys + disk.dirs, disk.dirs)
  }

  lemma UnderUnder(a: Path, b: Path, x: Path)
    requires Under(a, b) && AtOrUnder(b, x)
    ensures Under(a, x)
  {
  }

  lemma MainClosed(c: Config, s: State, pick: Path)
    requires Closed(s.shared.disk) && MainEnabled(s, pick)
    ensures Closed(MainStep(c, s, pick).shared.disk)
  {
    var disk, disk' := s.shared.disk, MainStep(c, s, pick).shared.disk;
    forall d, p | p in disk'.output.Keys + disk'.dirs && Under(d, p) ensures d in disk'.dirs {
      if s.main.MDirs? && s.main.todo != {} && p in Ancestors(pick) {
        UnderUnder(d, p, pick);
      } else if s.main.MCleanup? && s.main.todo != {} && AtOrUnder(pick, d) {
        UnderUnder(pick, d, p);
      }
    }
  }

  lemma WorkerClosed(c: Config, sh: Shared, w: Worker, o: Outcome)
    requires Closed(sh.disk) && WorkerCan(c, sh, w, o)
    ensures Closed(WorkerDisk(c, sh, w, o))
  {
    var disk' := WorkerDisk(c, sh, w, o);
    forall d, p | p in disk'.output.Keys + disk'.dirs && Under(d, p) ensures d in disk'.dirs {
      assert w.WCopy? && p == w.file ==> d in Ancestors(p);
    }
  }

  lemma {:induction false} RunClosed(c: Config, states: seq<State>, acts: seq<Action>, k: nat)
    requires Valid(c) && Run(c, states, acts) && k <= |acts|
    ensures Closed(states[k].shared.disk)
  {
    if k > 0 {
      RunClosed(c, states, acts, k - 1);
      var s := states[k - 1];
      assert Takes(c, s, acts[k - 1], states[k - 1 + 1]);
      match acts[k - 1]
      case MainAct(pick) => MainClosed(c, s, pick);
      case SorterAct(i) =>
      case WorkerAct(j, o) => WorkerClosed(c, s.shared, s.workers[j], o);
    }
  }

  lemma ReachableClosed(c: Config, s: State)
    requires Valid(c) && Reachable(c, s)
    ensures Closed(s.shared.disk)
  {
    var states, acts :| Run(c, states, acts) && states[|acts|] == s;
    RunClosed(c, states, acts, |acts|);
  }

  /** c' is a call on the two trees as s has them. */
  ghost predicate Follows(c: Config, s: State, c': Config) {
    && c'.input == s.shared.disk.input && c'.output == s.shared.disk.output
    && c'.inDirs == c.inDirs && c'.outDirs == s.shared.disk.dirs
    && Distinct(c'.files) && forall f :: f in c'.files <==> f in c'.input
  }

  lemma NothingForeign(c: Config, s: State)
    requires Valid(c) && Reachable(c, s)
    ensures s.shared.disk.input.Keys <= c.input.Keys
    ensures s.shared.disk.output.Keys <= c.output.Keys + c.input.Keys
    ensures s.shared.disk.dirs <= c.inDirs + c.outDirs
  {
    ReachableInv(c, s);
    var n, disk := s.shared.names, s.shared.disk;
    forall f | f in disk.input ensures f in c.input {
      assert InputAt(c, disk, n, f);
    }
    forall f | f in disk.output ensures f in c.output.Keys + c.input.Keys {
      assert !IsSwept(SweptSoFar(c, s.main), f) ==> OutputAt(c, disk, n, s.shared.deletions, f);
    }
  }

  /** Whatever a run has done so far, and whatever failed, the trees are fit for another call. */
  lemma LeavesValid(c: Config, s: State, c': Config)
    requires Valid(c) && Reachable(c, s) && Follows(c, s, c')
    ensures Valid(c')
  {
    ReachableClosed(c, s);
    NothingForeign(c, s);
  }

  // ---- A second run ----------------------------------------------------------------------------

  /** The system has stamped no copy older than its original, and no file of the input is missing in the output. */
  ghost predicate UpToDate(c: Config, s: State) {
    && (forall f :: Planned(c, f) && f in s.shared.disk.output ==> s.shared.disk.output[f].time >= c.input[f].time)
    && (forall f :: f in s.shared.disk.input ==> f in s.shared.disk.output)
  }

  lemma SecondEnding(c': Config, s': State, f: Path)
    requires Valid(c') && c'.processors > 0 && Complete(c', s') && !Planned(c', f)
    ensures SameAt(s'.shared.disk.input, c'.input, f)
    ensures SameAt(s'.shared.disk.output, Cleaned(c', c'.output), f)
  {
    EndsByPlan(c', s', f);
  }

  lemma NothingToClean(c': Config)
    requires Valid(c') && (!c'.deleteWithoutMatch || c'.output.Keys <= c'.input.Keys)
    ensures Cleaned(c', c'.output) == c'.output
  {
    forall f | f in c'.output ensures f !in Targets(c') && !IsSwept(SweptDirs(c'), f) {
      if c'.deleteWithoutMatch {
        assert Leftovers(c') == {};
        InputsUnswept(c', f);
      }
    }
  }

  /**
    Copying is idempotent: after a complete run that has left everything up to date, whatever
    its flags were, every complete second run without force and overwrite leaves the input as it
    is, and the output but for what delete-without-match takes away: nothing, if it is off or
    the output has no more files than the input.
   */
  lemma SecondRunChangesNothing(c: Config, s: State, c': Config, s': State)
    requires Valid(c) && c.processors > 0 && Complete(c, s) && UpToDate(c, s)
    requires Follows(c, s, c') && !c'.force && !c'.overwriteExisting && c'.processors > 0 && Complete(c', s')
    ensures s'.shared.disk.input == c'.input
    ensures s'.shared.disk.output == Cleaned(c', c'.output)
    ensures !c'.deleteWithoutMatch || c'.output.Keys <= c'.input.Keys ==> s'.shared.disk.output == c'.output
  {
    LeavesValid(c, s, c');
    forall f
      ensures SameAt(s'.shared.disk.input, c'.input, f)
      ensures SameAt(s'.shared.disk.output, Cleaned(c', c'.output), f)
    {
      SecondCallPlans(c, s, c', f);
      SecondEnding(c', s', f);
    }
    TreesEqual(s'.shared.disk.input, c'.input);
    TreesEqual(s'.shared.disk.output, Cleaned(c', c'.output));
    if !c'.deleteWithoutMatch || c'.output.Keys <= c'.input.Keys {
      NothingToClean(c');
    }
  }
}
