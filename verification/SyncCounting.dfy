/** Exactly when the two byte counters are right. */
module SyncCounting {
  import opened Paths
  import opened FileTrees
  import opened SyncEngine
  import opened SyncShape
  import opened SyncPlaces
  import opened SyncPlan
  import opened SyncTrees
  import opened SyncDecisions
  import opened SyncBytes
  import opened SyncInvariant
  import opened SyncProgress
  import opened SyncOutcome
  import opened SyncResults
  import opened SyncSchedules

  /** In every reachable state _bytesToCopy is the size of the files it has been told of. */
  ghost predicate TallyRight(c: Config) {
    forall s :: Reachable(c, s) ==>
      s.shared.totals.bytesToCopy == Weight(c.files, c.input, s.shared.names.tallied) % 0x1_0000_0000_0000_0000
  }

  /** In every reachable state _bytesCopied is the size of the copies it has been told of. */
  ghost predicate WeighRight(c: Config) {
    forall s :: Reachable(c, s) ==>
      s.shared.totals.bytesCopied == Weight(c.files, c.input, s.shared.names.weighed) % 0x1_0000_0000_0000_0000
  }

  // ---- A file is moved away before its size is read --------------------------------------------

  /** Sorter i has pushed f and is about to read its size. */
  predicate AtSize(s: State, i: nat, f: Path) {
    i < |s.sorters| && s.sorters[i].SBytes? && s.sorters[i].file == f
  }

  lemma Untold(c: Config, s: State, f: Path)
    requires Valid(c) && Fine(c, s) && Planned(c, f) && f !in s.shared.names.tallied
    ensures Phase(s.main) < 4
  {
    ReachableInv(c, s);
    if Phase(s.main) >= 4 {
      AllTallied(c, s, f);
    }
  }

  lemma UntoldStep(c: Config, s: State, a: Action, f: Path)
    requires Enabled(c, s, a) && !a.WorkerAct? && f !in s.shared.names.tallied && forall i: nat :: !AtSize(s, i, f)
    ensures f !in Step(c, s, a).shared.names.tallied
  {
    if a.SorterAct? {
      assert !AtSize(s, a.id, f);
    }
  }

  /** Main and the sorters go on, without the workers, until some sorter is about to read the size of f. */
  lemma {:induction false} UntilSize(c: Config, s: State, f: Path) returns (s': State, i: nat)
    requires Valid(c) && Fine(c, s) && Planned(c, f) && f !in s.shared.names.tallied
    ensures Fine(c, s') && AtSize(s', i, f)
    decreases Potential(c, s)
  {
    if j: nat :| AtSize(s, j, f) {
      s', i := s, j;
    } else {
      Untold(c, s, f);
      var a := SmoothAct(c, s);
      UntoldStep(c, s, a, f);
      FineStep(c, s, a);
      s', i := UntilSize(c, Step(c, s, a), f);
    }
  }

  lemma AtSizePhase(c: Config, s: State, i: nat, f: Path)
    requires ShapeInv(c, s) && AtSize(s, i, f)
    ensures 2 <= Phase(s.main) && NothingListed(s) && |s.workers| == c.processors
  {
    assert SorterShape(s.main, s.shared, i, s.sorters[i]);
  }

  lemma AtSizePlace(c: Config, s: State, i: nat, f: Path)
    requires PlacesInv(c, s) && AtSize(s, i, f)
    ensures f in c.input && f !in s.shared.names.tallied && (IsCopied(s.shared.names, f) || ToCopy(s, f))
  {
    assert SorterPlace(s.shared.names, i, Grip(s.sorters[i]));
  }

  lemma AtSizeShape(c: Config, s: State, i: nat, f: Path)
    requires Valid(c) && Fine(c, s) && AtSize(s, i, f)
    ensures 2 <= Phase(s.main) && NothingListed(s) && |s.workers| == c.processors
    ensures f in c.input && f !in s.shared.names.tallied && (IsCopied(s.shared.names, f) || ToCopy(s, f))
  {
    AtSizePhase(c, s, i, f);
    ReachableInv(c, s);
    AtSizePlace(c, s, i, f);
  }

  /** Adding the error value of file_size instead of the size of f spoils a counter. */
  lemma Spoils(c: Config, total: nat, names: set<Path>, f: Path)
    requires Valid(c) && f in c.input && f !in names && !WeighsLikeNothing(c, f) && total == WrappedWeight(c, names)
    ensures AddWord(total, WORD - 1) != WrappedWeight(c, names + {f})
  {
    AddWrapped(c, names, f, WORD - 1);
  }

  /** A sorter reads the size of a file that has gone: its counter is wrong, if not before. */
  lemma TalliedMissing(c: Config, s: State, i: nat, f: Path)
    requires Valid(c) && Reachable(c, s) && AtSize(s, i, f) && f in c.input && f !in s.shared.names.tallied
    requires f !in s.shared.disk.input && !WeighsLikeNothing(c, f)
    ensures !TallyRight(c)
  {
    var a := SorterAct(i);
    ReachableStep(c, s, a);
    var names, names' := s.shared.names, Step(c, s, a).shared.names;
    assert names'.tallied == names.tallied + {f};
    if s.shared.totals.bytesToCopy == WrappedWeight(c, names.tallied) {
      Spoils(c, s.shared.totals.bytesToCopy, names.tallied, f);
    }
  }

  lemma MovedIsMissing(c: Config, s: State, f: Path)
    requires Valid(c) && Reachable(c, s) && c.move && IsCopied(s.shared.names, f)
    ensures f !in s.shared.disk.input
  {
    ReachableInv(c, s);
    assert InputAt(c, s.shared.disk, s.shared.names, f);
  }

  /** A worker moves f before the sorter reads its size. */
  lemma MovedBeforeTally(c: Config, f: Path)
    requires Valid(c) && c.move && c.processors > 0 && Planned(c, f) && !WeighsLikeNothing(c, f)
    ensures !TallyRight(c)
  {
    InitFine(c);
    var s, i := UntilSize(c, Init(c), f);
    AtSizeShape(c, s, i, f);
    if !IsCopied(s.shared.names, f) {
      var j;
      s, j := CopyOne(c, s, f, 0);
      AtSizeShape(c, s, i, f);
    }
    MovedIsMissing(c, s, f);
    TalliedMissing(c, s, i, f);
  }

  /**
    _bytesToCopy is right in every run exactly when nothing can be renamed away before its size
    is read: when copying, without workers, or if every planned file happens to be as large as
    the error value of file_size, up to wrapping.
   */
  lemma TallyRightExactlyWhen(c: Config)
    requires Valid(c)
    ensures TallyRight(c) <==>
              || !c.move || c.processors == 0
              || forall f :: Planned(c, f) ==>
                   |c.input[f].content| % 0x1_0000_0000_0000_0000 == 0xFFFF_FFFF_FFFF_FFFF
  {
    if TallyExact(c) {
      forall s | Reachable(c, s)
        ensures s.shared.totals.bytesToCopy == WrappedWeight(c, s.shared.names.tallied)
      {
        ReachableInv(c, s);
      }
    } else {
      var f :| Planned(c, f) && !WeighsLikeNothing(c, f);
      MovedBeforeTally(c, f);
    }
  }

  // ---- A copy is deleted before its size is read -----------------------------------------------

  lemma AboutToWeigh(c: Config, s: State, j: nat, f: Path) returns (s': State)
    requires Valid(c) && Fine(c, s) && j < |s.workers| && s.workers[j] == WCount(f)
    ensures Fine(c, s') && s'.workers == s.workers[j := WWeigh(f)] && s'.shared.disk == s.shared.disk
  {
    var a := WorkerAct(j, Success(0));
    FineStep(c, s, a);
    s' := Step(c, s, a);
  }

  lemma NotYetWeighed(c: Config, s: State, j: nat, f: Path)
    requires Valid(c) && Reachable(c, s) && j < |s.workers| && s.workers[j] == WWeigh(f)
    ensures f in c.input && f !in s.shared.names.weighed
  {
    ReachableInv(c, s);
    assert WorkerPlace(s.shared.names, j, Load(s.workers[j]));
  }

  /** A worker reads the size of a copy that has gone: its counter is wrong, if not before. */
  lemma WeighedMissing(c: Config, s: State, j: nat, f: Path)
    requires Valid(c) && Reachable(c, s) && j < |s.workers| && s.workers[j] == WWeigh(f)
    requires f !in s.shared.disk.output && !WeighsLikeNothing(c, f)
    ensures !WeighRight(c)
  {
    var a := WorkerAct(j, Success(0));
    ReachableStep(c, s, a);
    NotYetWeighed(c, s, j, f);
    var names, names' := s.shared.names, Step(c, s, a).shared.names;
    assert names'.weighed == names.weighed + {f};
    if s.shared.totals.bytesCopied == WrappedWeight(c, names.weighed) {
      Spoils(c, s.shared.totals.bytesCopied, names.weighed, f);
    }
  }

  lemma QueuedForCopy(c: Config, s: State, f: Path)
    requires Valid(c) && Fine(c, s) && s.main.MLeftovers? && NoneTouched(s.shared.names) && Planned(c, f)
    ensures ToCopy(s, f)
  {
    ReachableInv(c, s);
    DoneMeansDecided(c, s, f);
    assert PlanAt(c, s.shared.names, f) && !Touched(s.shared.names, f);
  }

  /** One worker copies f, and another one deletes it before the first reads its size. */
  lemma DeletedBeforeWeighed(c: Config, f: Path)
    requires Valid(c) && c.processors > 1 && Contested(c, f) && !WeighsLikeNothing(c, f)
    ensures !WeighRight(c)
  {
    var s := HoldFirst(c);
    s := SortersFirst(c, s);
    QueuedForCopy(c, s, f);
    var copied, j := CopyOne(c, s, f, 1);
    var listed := ListFirst(c, copied, f);
    var deleted := DeleteNow(c, listed, f, 0);
    var weighing := AboutToWeigh(c, deleted, j, f);
    WeighedMissing(c, weighing, j, f);
  }

  /**
    _bytesCopied is right in every run exactly when no copy can be deleted before its size is
    read: with one worker, or if every planned file that is queued for deletion happens to be as
    large as the error value of file_size, up to wrapping.
   */
  lemma WeighRightExactlyWhen(c: Config)
    requires Valid(c)
    ensures WeighRight(c) <==>
              || c.processors <= 1
              || forall f :: Contested(c, f) ==>
                   |c.input[f].content| % 0x1_0000_0000_0000_0000 == 0xFFFF_FFFF_FFFF_FFFF
  {
    if WeighExact(c) {
      forall s | Reachable(c, s)
        ensures s.shared.totals.bytesCopied == WrappedWeight(c, s.shared.names.weighed)
      {
        ReachableInv(c, s);
      }
    } else {
      var f :| Contested(c, f) && !WeighsLikeNothing(c, f);
      DeletedBeforeWeighed(c, f);
    }
  }
}
