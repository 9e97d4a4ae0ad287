/** Further results about every run: counters, directories, errors, and a second run. */
module SyncResults {
  import opened Paths
  import opened FileTrees
  import opened SyncEngine
  import opened SyncShape
  import opened SyncPlaces
  import opened SyncPlan
  import opened SyncDirs
  import opened SyncDeletions
  import opened SyncTrees
  import opened SyncDecisions
  import opened SyncCounters
  import opened SyncBytes
  import opened SyncInvariant
  import opened SyncOutcome

  // ---- Shutdown --------------------------------------------------------------------------

  lemma CopiesSettled(c: Config, s: State, f: Path)
    requires ShapeInv(c, s) && PlacesInv(c, s) && DecisionsInv(c, s) && Phase(s.main) >= 7 && c.processors > 0
    ensures f in c.input ==> IsCopied(s.shared.names, f) || f in s.shared.names.copyErrors || !Planned(c, f)
    ensures IsCopied(s.shared.names, f) || f in s.shared.names.copyErrors ==> Planned(c, f)
    ensures !(IsCopied(s.shared.names, f) && f in s.shared.names.copyErrors)
  {
    if f in c.input {
      AllSettled(c, s, f);
      assert AtStage(c, s.shared.names, f, s.shared.names.stage[f]);
    }
    assert PlanAt(c, s.shared.names, f);
  }

  /**
    After the joins nothing is left undone: both queues are empty, every input name has been
    skipped, copied or logged as failed, and every queued deletion carried out or logged.
   */
  lemma NothingLeftUndone(c: Config, s: State, f: Path)
    requires Valid(c) && Reachable(c, s) && Phase(s.main) >= 7 && c.processors > 0
    ensures s.shared.doneStuff && s.shared.names.copyQueue == [] && s.shared.deletions.queue == []
    ensures f in c.input ==> IsCopied(s.shared.names, f) || f in s.shared.names.copyErrors || !Planned(c, f)
    ensures IsCopied(s.shared.names, f) || f in s.shared.names.copyErrors ==> Planned(c, f)
    ensures !(IsCopied(s.shared.names, f) && f in s.shared.names.copyErrors)
    ensures Gone(s.shared.deletions, f) || f in s.shared.deletions.errors <==> f in Targets(c)
    ensures !(Gone(s.shared.deletions, f) && f in s.shared.deletions.errors)
  {
    ReachableInv(c, s);
    ExitShape(c, s, 0);
    AllOrdersServed(c, s, f);
    CopiesSettled(c, s, f);
  }

  // ---- Counters --------------------------------------------------------------------------

  function PlannedNames(c: Config): set<Path> {
    set f | f in c.input && Planned(c, f)
  }

  lemma PushedArePlanned(c: Config, s: State)
    requires PlacesInv(c, s) && DecisionsInv(c, s)
    ensures PushedNames(s.shared.names) <= PlannedNames(c)
  {
    forall f | f in PushedNames(s.shared.names) ensures f in PlannedNames(c) {
      assert PlanAt(c, s.shared.names, f);
    }
  }

  lemma SubsetSize<T>(a: set<T>, b: set<T>)
    requires a <= b
    ensures |a| <= |b|
  {
    assert |b| == |a| + |b - a| by { assert b == a + (b - a); }
  }

  /**
    Conservation with slack, at every step: the copies made, failed, queued and in flight are
    the counted pushes and those of at most four sorters that have pushed and not yet counted.
    So _filesCopied is never more than four ahead of _filesToCopy.
   */
  lemma CounterLaw(c: Config, s: State)
    requires Valid(c) && Reachable(c, s)
    ensures var n, totals := s.shared.names, s.shared.totals;
      && |CopiedNames(n)| + |n.copyErrors| + |n.copyQueue| + Count(s.workers, InFlight())
         == totals.filesToCopy + Count(s.sorters, Uncounted())
      && Count(s.sorters, Uncounted()) <= 4
      && totals.filesCopied + Count(s.workers, JustCopied()) == |CopiedNames(n)|
      && totals.filesCopied <= totals.filesToCopy + 4
      && totals.filesToCopy <= |PlannedNames(c)|
  {
    ReachableInv(c, s);
    CountBound(s.sorters, Uncounted());
    PushedArePlanned(c, s);
    SubsetSize(PushedNames(s.shared.names), PlannedNames(c));
  }

  lemma AllTallied(c: Config, s: State, f: Path)
    requires ShapeInv(c, s) && PlacesInv(c, s) && DecisionsInv(c, s) && SortersDone(s)
    ensures f in s.shared.names.tallied <==> Planned(c, f)
  {
    var n := s.shared.names;
    if f in c.input {
      DoneMeansDecided(c, s, f);
      assert AtStage(c, n, f, n.stage[f]);
      assert PlanAt(c, n, f);
      var i := n.sortedBy[f];
      assert SortedBy(n, f, i) && SorterPlace(n, i, Grip(s.sorters[i]));
    }
  }

  lemma AllWeighed(c: Config, s: State, f: Path)
    requires PlacesInv(c, s) && WorkersDone(s)
    ensures f in s.shared.names.weighed <==> f in CopiedNames(s.shared.names)
  {
    var n := s.shared.names;
    if f in n.stage && n.stage[f].Copied? {
      var j := n.stage[f].worker;
      assert AtStage(c, n, f, n.stage[f]);
      assert StageIs(n, f, Copied(j)) && WorkerPlace(n, j, Load(s.workers[j]));
    }
  }

  /** In the end the names tallied and pushed are the plan, and those weighed are the copied ones. */
  lemma FinalNames(c: Config, s: State)
    requires Inv(c, s) && SortersDone(s) && WorkersDone(s)
    ensures s.shared.names.tallied == PushedNames(s.shared.names) == PlannedNames(c)
    ensures s.shared.names.weighed == CopiedNames(s.shared.names)
  {
    var n := s.shared.names;
    forall f
      ensures f in n.tallied <==> f in PlannedNames(c)
      ensures f in n.weighed <==> f in CopiedNames(n)
    {
      AllTallied(c, s, f);
      AllWeighed(c, s, f);
    }
    PushedArePlanned(c, s);
    assert n.tallied <= PushedNames(n);
  }

  lemma NothingPending(c: Config, s: State)
    requires ShapeInv(c, s) && SortersDone(s) && WorkersDone(s) && c.processors > 0
    ensures Count(s.sorters, Uncounted()) == Count(s.workers, JustCopied()) == Count(s.workers, InFlight()) == 0
    ensures s.shared.names.copyQueue == []
  {
    CountBound(s.sorters, Uncounted());
    CountBound(s.workers, JustCopied());
    CountBound(s.workers, InFlight());
    ExitShape(c, s, 0);
  }

  lemma AllCopied(c: Config, s: State)
    requires Valid(c) && Inv(c, s) && Finished(s) && c.processors > 0 && s.shared.names.copyErrors == []
    ensures CopiedNames(s.shared.names) == PlannedNames(c)
  {
    forall f ensures f in CopiedNames(s.shared.names) <==> f in PlannedNames(c) {
      OneCopied(c, s, f);
    }
  }

  lemma OneCopied(c: Config, s: State, f: Path)
    requires Valid(c) && Inv(c, s) && Finished(s) && c.processors > 0 && s.shared.names.copyErrors == []
    ensures f in CopiedNames(s.shared.names) <==> f in PlannedNames(c)
  {
    if f in c.input {
      AllSettled(c, s, f);
    }
  }

  /**
    In the end every planned file has been counted and has been copied or has failed. The byte
    counters show the sizes of the plan and of the copies under the conditions of SyncBytes,
    which SyncCounting shows to be exact.
   */
  lemma FinalCounters(c: Config, s: State)
    requires Valid(c) && Reachable(c, s) && Finished(s) && c.processors > 0
    ensures var n, totals := s.shared.names, s.shared.totals;
      && totals.filesToCopy == |PlannedNames(c)|
      && totals.filesCopied == |CopiedNames(n)|
      && totals.filesCopied + |n.copyErrors| == totals.filesToCopy
      && (TallyExact(c) ==> totals.bytesToCopy == WrappedWeight(c, PlannedNames(c)))
      && (WeighExact(c) ==> totals.bytesCopied == WrappedWeight(c, CopiedNames(n)))
      && (n.copyErrors == [] ==> CopiedNames(n) == PlannedNames(c))
  {
    ReachableInv(c, s);
    FinalNames(c, s);
    NothingPending(c, s);
    if s.shared.names.copyErrors == [] {
      AllCopied(c, s);
    }
  }

  // ---- Directories -----------------------------------------------------------------------

  /** While the workers run every input directory is there, unless it has been deleted by its own name. */
  lemma ParentsExist(c: Config, s: State, f: Path)
    requires Valid(c) && DirsInv(c, s) && 0 < Phase(s.main) < 7 && f in c.input
    ensures Ancestors(f) <= s.shared.disk.dirs + GoneNames(s.shared.deletions)
  {
    assert Ancestors(f) <= c.inDirs;
  }

  /** A name in a worker's hand is planned, and its source is as it was. */
  lemma CarriedIsIntact(c: Config, s: State, j: nat)
    requires PlacesInv(c, s) && TreesInv(c, s) && DecisionsInv(c, s) && j < |s.workers| && s.workers[j].WCopy?
    ensures var f := s.workers[j].file; Planned(c, f) && SameAt(s.shared.disk.input, c.input, f)
  {
    var n, f := s.shared.names, s.workers[j].file;
    assert WorkerPlace(n, j, Load(s.workers[j]));
    assert PlanAt(c, n, f) && InputAt(c, s.shared.disk, n, f);
  }

  lemma CopySucceeds(c: Config, s: State, j: nat, time: int)
    requires Valid(c) && Inv(c, s) && j < |s.workers| && s.workers[j].WCopy?
    ensures var f := s.workers[j].file;
      && Planned(c, f) && f in s.shared.disk.input && s.shared.disk.input[f] == c.input[f]
      && Ancestors(f) <= s.shared.disk.dirs + GoneNames(s.shared.deletions)
  {
    assert WorkerShape(s.main, s.shared, j, s.workers[j]) && !WorkersDone(s);
    CarriedIsIntact(c, s, j);
    ParentsExist(c, s, s.workers[j].file);
  }

  lemma GoneIsTargeted(c: Config, s: State)
    requires OrdersInv(c, s)
    ensures GoneNames(s.shared.deletions) <= Targets(c)
  {
  }

  /**
    Whenever a worker is about to copy, the source is there as it was, and so is each directory
    on the way to its target whose own name was not queued for deletion: the copy can succeed,
    with any time, and it can always fail.
   */
  lemma CopyCanSucceed(c: Config, s: State, j: nat, time: int)
    requires Valid(c) && Reachable(c, s) && j < |s.workers| && s.workers[j].WCopy?
    ensures var f := s.workers[j].file;
      && Planned(c, f) && f in s.shared.disk.input && s.shared.disk.input[f] == c.input[f]
      && Ancestors(f) - Targets(c) <= s.shared.disk.dirs
      && (Ancestors(f) !! Targets(c) ==> WorkerCan(c, s.shared, s.workers[j], Success(time)))
      && WorkerCan(c, s.shared, s.workers[j], Failure(Untouched))
  {
    ReachableInv(c, s);
    CopySucceeds(c, s, j, time);
    GoneIsTargeted(c, s);
  }

  lemma SweepLeaves(c: Config)
    requires Valid(c)
    ensures Remaining(c, {}) == c.inDirs + c.outDirs && Remaining(c, LeftoverDirs(c)) == c.inDirs
    ensures forall ds :: ds <= LeftoverDirs(c) ==> c.inDirs <= Remaining(c, ds)
  {
    forall d, ds | d in c.inDirs && ds <= LeftoverDirs(c) ensures !IsSwept(ds, d) {
      InputsUnswept(c, d);
    }
    forall d | d in LeftoverDirs(c) ensures IsSwept(LeftoverDirs(c), d) {
      assert AtOrUnder(d, d);
    }
  }

  lemma DirsNow(c: Config, s: State)
    requires Valid(c) && DirsInv(c, s) && Phase(s.main) > 0 && GoneNames(s.shared.deletions) <= Targets(c)
    ensures Phase(s.main) < 7 ==>
              && s.shared.disk.dirs == c.inDirs + c.outDirs - GoneNames(s.shared.deletions)
              && s.shared.outDirs == LeftoverDirs(c)
    ensures Finished(s) && c.deleteWithoutMatch ==> s.shared.disk.dirs == c.inDirs - GoneNames(s.shared.deletions)
    ensures Finished(s) && !c.deleteWithoutMatch ==> s.shared.disk.dirs == c.inDirs + c.outDirs
    ensures Phase(s.main) == 7 ==>
              c.inDirs - GoneNames(s.shared.deletions) <= s.shared.disk.dirs <= c.inDirs + c.outDirs
  {
    SweepLeaves(c);
    assert !c.deleteWithoutMatch ==> Targets(c) == {};
  }

  /**
    The directory pass ends with the directories of both trees, whatever order it takes, and
    ODirSet with those of the output alone. Cleanup leaves exactly the input's. From either only
    directories are missing that were empty when their own names came up for deletion.
   */
  lemma Directories(c: Config, s: State)
    requires Valid(c) && Reachable(c, s) && Phase(s.main) > 0
    ensures GoneNames(s.shared.deletions) <= Targets(c)
    ensures Phase(s.main) < 7 ==>
              && s.shared.disk.dirs == c.inDirs + c.outDirs - GoneNames(s.shared.deletions)
              && s.shared.outDirs == LeftoverDirs(c)
    ensures Finished(s) && c.deleteWithoutMatch ==> s.shared.disk.dirs == c.inDirs - GoneNames(s.shared.deletions)
    ensures Finished(s) && !c.deleteWithoutMatch ==> s.shared.disk.dirs == c.inDirs + c.outDirs
    ensures Phase(s.main) == 7 ==>
              c.inDirs - GoneNames(s.shared.deletions) <= s.shared.disk.dirs <= c.inDirs + c.outDirs
  {
    ReachableInv(c, s);
    GoneIsTargeted(c, s);
    DirsNow(c, s);
  }

  // ---- Errors ----------------------------------------------------------------------------

  /**
    Errors stay with their file: at the end of any run, a name that is neither queued for
    deletion nor swept holds its copy if it was planned and its copy did not fail, and is as
    it was if it was not planned. The input has lost exactly the files that were moved.
   */
  lemma ErrorsStayLocal(c: Config, s: State, f: Path)
    requires Valid(c) && Reachable(c, s) && Finished(s) && c.processors > 0
    ensures if c.move && Planned(c, f) && f !in s.shared.names.copyErrors then f !in s.shared.disk.input
            else SameAt(s.shared.disk.input, c.input, f)
    ensures f !in Targets(c) && !IsSwept(SweptDirs(c), f) && f !in s.shared.names.copyErrors ==>
              if Planned(c, f) then f in s.shared.disk.output && IsCopy(c, f, s.shared.disk.output[f])
              else SameAt(s.shared.disk.output, c.output, f)
  {
    NothingLeftUndone(c, s, f);
    ReachableInv(c, s);
    if f !in s.shared.names.copyErrors {
      Ending(c, s, f);
    }
    assert InputAt(c, s.shared.disk, s.shared.names, f);
  }

  // ---- A second run ----------------------------------------------------------------------

  /** c' runs on what s left, without force and without overwrite. */
  ghost predicate SecondCall(c: Config, s: State, c': Config) {
    && c'.input == s.shared.disk.input && c'.output == s.shared.disk.output
    && !c'.force && !c'.overwriteExisting
  }

  lemma SecondPlan(c: Config, s: State, c': Config, f: Path)
    requires Valid(c) && EndsAs(c, s, f) && GoneAsQueued(c, s, f) && SecondCall(c, s, c')
    ensures Planned(c', f) <==>
              f in c'.input && (f !in c'.output || (Planned(c, f) && c'.output[f].time < c.input[f].time))
    ensures f in c'.input && f !in c'.output ==> f in Targets(c)
  {
    if f in c.input {
      InputsUnswept(c, f);
    }
  }

  /**
    Copying is idempotent but for the times. After a call in which no file operation failed a
    second one, whatever flags the first had, plans exactly what the first left in the input and
    either deleted from the output, having it queued for deletion, or copied with a time older
    than the original's. After a move nothing of the plan is left in the input.
   */
  lemma SecondCallPlans(c: Config, s: State, c': Config, f: Path)
    requires Valid(c) && Reachable(c, s) && Finished(s) && c.processors > 0 && NoFileFailed(c, s)
    requires SecondCall(c, s, c')
    ensures Planned(c', f) <==>
              f in c'.input && (f !in c'.output || (Planned(c, f) && c'.output[f].time < c.input[f].time))
    ensures f in c'.input && f !in c'.output ==> f in Targets(c)
    ensures c.move && Planned(c, f) ==> f !in c'.input
  {
    EndsByPlan(c, s, f);
    SecondPlan(c, s, c', f);
  }
}
