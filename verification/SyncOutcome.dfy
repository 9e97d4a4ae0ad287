/** What a finished call has done, whatever the schedule was. */
module SyncOutcome {
  import opened Paths
  import opened FileTrees
  import opened SyncEngine
  import opened SyncShape
  import opened SyncPlaces
  import opened SyncPlan
  import opened SyncDeletions
  import opened SyncTrees
  import opened SyncDecisions
  import opened SyncInvariant

  // ---- Shutdown --------------------------------------------------------------------------

  lemma ExitIsForever(c: Config, s: State, a: Action, s': State, j: nat)
    requires ShapeInv(c, s) && Takes(c, s, a, s') && j < |s.workers| && s.workers[j].WExit?
    ensures j < |s'.workers| && s'.workers[j].WExit?
  {
    assert WorkerShape(s.main, s.shared, j, s.workers[j]);
  }

  predicate Drained(sh: Shared) {
    sh.doneStuff && sh.names.copyQueue == [] && sh.deletions.queue == []
  }

  lemma ExitShape(c: Config, s: State, j: nat)
    requires ShapeInv(c, s) && j < |s.workers| && s.workers[j].WExit?
    ensures Drained(s.shared)
  {
    assert WorkerShape(s.main, s.shared, j, s.workers[j]);
  }

  lemma RunShape(c: Config, states: seq<State>, acts: seq<Action>, k: nat)
    requires Valid(c) && Run(c, states, acts) && k <= |acts|
    ensures ShapeInv(c, states[k])
  {
    RunInv(c, states, acts, k);
  }

  /**
    No work is lost at shutdown: once any worker has left its loop, the flag is up and both
    queues are empty, in that state and in every later one.
   */
  lemma {:induction false} ExitMeansDrained(c: Config, states: seq<State>, acts: seq<Action>, k: nat, m: nat, j: nat)
    requires Valid(c) && Run(c, states, acts) && k <= m <= |acts|
    requires j < |states[k].workers| && states[k].workers[j].WExit?
    ensures j < |states[m].workers| && states[m].workers[j].WExit?
    ensures var sh := states[m].shared; sh.doneStuff && sh.names.copyQueue == [] && sh.deletions.queue == []
    decreases m
  {
    RunShape(c, states, acts, m);
    if m > k {
      RunShape(c, states, acts, m - 1);
      ExitMeansDrained(c, states, acts, k, m - 1, j);
      ExitIsForever(c, states[m - 1], acts[m - 1], states[m], j);
    }
    ExitShape(c, states[m], j);
  }

  /** After the joins every input name has been skipped, copied or logged as failed. */
  lemma AllSettled(c: Config, s: State, f: Path)
    requires ShapeInv(c, s) && PlacesInv(c, s) && DecisionsInv(c, s)
    requires Phase(s.main) >= 7 && c.processors > 0 && f in c.input
    ensures var g := s.shared.names.stage[f]; g.Skipped? || g.Copied? || g.Failed?
    ensures f !in s.shared.names.copyErrors ==> (IsCopied(s.shared.names, f) <==> Planned(c, f))
  {
    var n := s.shared.names;
    DoneMeansDecided(c, s, f);
    assert AtStage(c, n, f, n.stage[f]);
    assert WorkerShape(s.main, s.shared, 0, s.workers[0]);
    var j := if n.stage[f].Copying? then n.stage[f].worker else 0;
    assert WorkerPlace(n, j, Load(s.workers[j]));
    assert !StageIs(n, f, Copying(j));
    assert PlanAt(c, n, f);
  }

  /** After the joins every queued deletion has been carried out or logged as failed. */
  lemma AllOrdersServed(c: Config, s: State, e: Path)
    requires ShapeInv(c, s) && OrdersInv(c, s) && Phase(s.main) >= 7 && c.processors > 0
    ensures Gone(s.shared.deletions, e) || e in s.shared.deletions.errors <==> e in Targets(c)
    ensures !(Gone(s.shared.deletions, e) && e in s.shared.deletions.errors)
  {
    var ds := s.shared.deletions;
    assert WorkerShape(s.main, s.shared, 0, s.workers[0]);
    assert LeftoversListed(c, s.main) == if c.deleteWithoutMatch then Leftovers(c) else {};
    assert EntriesFor(c, {}) == {};
    assert ds.fate.Keys == Targets(c);
    if e in ds.fate {
      var j := if ds.fate[e].Deleting? then ds.fate[e].worker else 0;
      assert WorkerOrder(ds, j, Deletes(s.workers[j]));
      assert !FateIs(ds, e, Deleting(j));
    }
  }

  // ---- Concurrent refines sequential -----------------------------------------------------

  /** The times the system has stamped on the files of a tree. */
  function Stamps(t: Tree): map<Path, int> {
    map f | f in t :: t[f].time
  }

  /** What one sequential pass over the snapshots leaves, given the stamps seen in the end. */
  function Sequential(c: Config, s: State): Trees
    requires Valid(c)
  {
    OnePass(c, c.files, Trees(c.input, c.output), Stamps(s.shared.disk.output))
  }

  /** f is to be copied and queued for deletion: it depends on the schedule which comes last. */
  ghost predicate Contested(c: Config, f: Path) {
    Planned(c, f) && f in Targets(c)
  }

  /** What is at f in the end, if its copy did not fail. */
  ghost predicate EndsAs(c: Config, s: State, f: Path) {
    var d, gone := s.shared.disk, Gone(s.shared.deletions, f);
    && (if c.move && Planned(c, f) then f !in d.input else SameAt(d.input, c.input, f))
    && (if IsSwept(SweptDirs(c), f) || (gone && !Planned(c, f)) then f !in d.output
        else if Planned(c, f) then (f in d.output ==> IsCopy(c, f, d.output[f])) && (!gone ==> f in d.output)
        else SameAt(d.output, c.output, f))
  }

  lemma Ending(c: Config, s: State, f: Path)
    requires ShapeInv(c, s) && PlacesInv(c, s) && DecisionsInv(c, s) && TreesInv(c, s)
    requires Finished(s) && c.processors > 0 && f !in s.shared.names.copyErrors
    ensures EndsAs(c, s, f)
  {
    if f in c.input {
      AllSettled(c, s, f);
    }
    assert InputAt(c, s.shared.disk, s.shared.names, f);
    assert SweptSoFar(c, s.main) == SweptDirs(c);
    if !IsSwept(SweptDirs(c), f) {
      assert OutputAt(c, s.shared.disk, s.shared.names, s.shared.deletions, f);
    }
  }

  /** Each queued name but a directory's has been deleted, and no other. */
  ghost predicate GoneAsQueued(c: Config, s: State, f: Path) {
    (f in Targets(c) && f !in c.inDirs + c.outDirs ==> Gone(s.shared.deletions, f))
    && (Gone(s.shared.deletions, f) ==> f in Targets(c))
  }

  lemma EndsByPlan(c: Config, s: State, f: Path)
    requires Valid(c) && Reachable(c, s) && Finished(s) && c.processors > 0 && NoFileFailed(c, s)
    ensures EndsAs(c, s, f) && GoneAsQueued(c, s, f)
  {
    ReachableInv(c, s);
    AllOrdersServed(c, s, f);
    Ending(c, s, f);
  }

  /** No input name lies below a directory that only the output has. */
  lemma InputsUnswept(c: Config, f: Path)
    requires Valid(c) && f in c.input.Keys + c.inDirs
    ensures !IsSwept(LeftoverDirs(c), f)
  {
  }

  lemma InputAsSequential(c: Config, s: State, f: Path)
    requires Valid(c) && EndsAs(c, s, f)
    ensures SameAt(s.shared.disk.input, Sequential(c, s).input, f)
  {
    OnePassAt(c, c.files, Trees(c.input, c.output), Stamps(s.shared.disk.output), f);
  }

  lemma OutputAsSequential(c: Config, s: State, f: Path)
    requires Valid(c) && !Contested(c, f) && EndsAs(c, s, f) && GoneAsQueued(c, s, f)
    ensures SameAt(s.shared.disk.output, Cleaned(c, Sequential(c, s).output), f)
  {
    OnePassAt(c, c.files, Trees(c.input, c.output), Stamps(s.shared.disk.output), f);
    if f in c.input {
      InputsUnswept(c, f);
    }
  }

  lemma TreesEqual(a: Tree, b: Tree)
    requires forall f :: SameAt(a, b, f)
    ensures a == b
  {
    forall f ensures f in a.Keys <==> f in b.Keys {
      assert SameAt(a, b, f);
    }
    forall f | f in a ensures a[f] == b[f] {
      assert SameAt(a, b, f);
    }
  }

  /**
    Whatever the number of workers and the schedule, a call in which no file operation fails
    leaves the trees of the one-pass sequential copy, less the queued deletions and the leftover
    directories: the input, and every name of the output that is not contested. A contested name
    holds its copy or nothing.
   */
  lemma EveryScheduleIsSequential(c: Config, s: State)
    requires Valid(c) && Reachable(c, s) && Finished(s) && c.processors > 0 && NoFileFailed(c, s)
    ensures s.shared.disk.input == Sequential(c, s).input
    ensures var output, expected := s.shared.disk.output, Cleaned(c, Sequential(c, s).output);
      && (forall f :: !Contested(c, f) ==> SameAt(output, expected, f))
      && (forall f :: Contested(c, f) && f in output ==> IsCopy(c, f, output[f]))
      && ((forall f :: !Contested(c, f)) ==> output == expected)
    ensures !c.deleteWithoutMatch ==> s.shared.disk.output == Sequential(c, s).output
  {
    var output, expected := s.shared.disk.output, Cleaned(c, Sequential(c, s).output);
    forall f
      ensures SameAt(s.shared.disk.input, Sequential(c, s).input, f)
      ensures !Contested(c, f) ==> SameAt(output, expected, f)
      ensures Contested(c, f) && f in output ==> IsCopy(c, f, output[f])
    {
      EndsByPlan(c, s, f);
      InputAsSequential(c, s, f);
      if !Contested(c, f) {
        OutputAsSequential(c, s, f);
      }
    }
    TreesEqual(s.shared.disk.input, Sequential(c, s).input);
    if forall f :: !Contested(c, f) {
      TreesEqual(output, expected);
    }
    if !c.deleteWithoutMatch {
      assert expected == Sequential(c, s).output;
    }
  }
}
