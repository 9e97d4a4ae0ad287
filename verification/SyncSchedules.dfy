/** Deadlock freedom, and schedules that lead where we want: runs in which no file operation fails. */
module SyncSchedules {
  import opened Paths
  import opened SyncEngine
  import opened SyncShape
  import opened SyncPlaces
  import opened SyncPlan
  import opened SyncDirs
  import opened SyncDeletions
  import opened SyncTrees
  import opened SyncDecisions
  import opened SyncInvariant
  import opened SyncProgress
  import opened SyncOutcome
  import opened SyncResults

  /** The thread main is waiting for, or main itself. */
  lemma NextAct(c: Config, s: State) returns (a: Action)
    requires ShapeInv(c, s) && !Finished(s)
    ensures match a
      case MainAct(pick) => MainEnabled(s, pick)
      case SorterAct(i) => i < |s.sorters| && SorterRuns(s.sorters[i])
      case WorkerAct(j, o) =>
        s.shared.doneStuff && j < |s.workers| && WorkerRuns(s.workers[j]) && o == Failure(Untouched)
    ensures Phase(s.main) < 3 ==> a.MainAct?
  {
    var pick: Path := "";
    match s.main {
      case MDirs(todo) => if todo != {} { pick :| pick in todo; }
      case MLeftovers(todo) => if todo != {} { pick :| pick in todo; }
      case MCleanup(todo) => if todo != {} { pick :| pick in todo; }
      case _ =>
    }
    if s.main.MJoinSorter? && s.main.next < |s.sorters| && !s.sorters[s.main.next].SExit? {
      assert SorterShape(s.main, s.shared, s.main.next, s.sorters[s.main.next]);
      a := SorterAct(s.main.next);
    } else if s.main.MJoinWorker? && s.main.next < |s.workers| && !s.workers[s.main.next].WExit? {
      assert WorkerShape(s.main, s.shared, s.main.next, s.workers[s.main.next]);
      a := WorkerAct(s.main.next, Failure(Untouched));
    } else {
      a := MainAct(pick);
    }
  }

  /** Deadlock freedom: in every reachable unfinished state some step is enabled that lowers the potential. */
  lemma NoDeadlock(c: Config, s: State) returns (a: Action)
    requires Valid(c) && Reachable(c, s) && !Finished(s)
    ensures ShapeInv(c, s) && Enabled(c, s, a) && ShapeInv(c, Step(c, s, a))
    ensures Potential(c, Step(c, s, a)) < Potential(c, s)
  {
    assert ShapeInv(c, s) by {
      ReachableInv(c, s);
    }
    a := NextAct(c, s);
    StepFalls(c, s, a, Step(c, s, a));
  }

  // ---- Steps that succeed --------------------------------------------------------------------

  /** Every file operation succeeds, and no directory is deleted. */
  function GoodOutcome(c: Config, w: Worker): Outcome {
    if w.WDelete? && w.file in c.inDirs + c.outDirs then Failure(Untouched) else Success(0)
  }

  /** No error is logged or about to be but those of directories, and no input directory is gone. */
  ghost predicate Clean(c: Config, s: State) {
    && NoFileFailed(c, s)
    && (forall j :: 0 <= j < |s.workers| ==>
          !s.workers[j].WCopyError? && (s.workers[j].WDeleteError? ==> s.workers[j].file in c.inDirs + c.outDirs))
    && GoneNames(s.shared.deletions) !! c.inDirs
  }

  /** Only directories' names can be taken for directories. */
  lemma FilesAreNoDirs(c: Config, s: State, j: nat)
    requires ShapeInv(c, s) && DirsInv(c, s) && j < |s.workers| && WorkerRuns(s.workers[j])
    ensures s.shared.disk.dirs <= c.inDirs + c.outDirs
  {
    assert WorkerShape(s.main, s.shared, j, s.workers[j]) && !WorkersDone(s);
  }

  lemma WorkerCanSucceed(c: Config, s: State, j: nat)
    requires Valid(c) && Inv(c, s) && Clean(c, s) && j < |s.workers| && WorkerRuns(s.workers[j])
    ensures WorkerCan(c, s.shared, s.workers[j], GoodOutcome(c, s.workers[j]))
  {
    var w := s.workers[j];
    if w.WCopy? {
      CopySucceeds(c, s, j, 0);
      assert Ancestors(w.file) <= c.inDirs;
    } else if w.WDelete? {
      FilesAreNoDirs(c, s, j);
    }
  }

  /** a is a step of a run in which no file operation fails. */
  ghost predicate Smooth(c: Config, s: State, a: Action) {
    Enabled(c, s, a) && (a.WorkerAct? ==> a.outcome == GoodOutcome(c, s.workers[a.id]))
  }

  lemma GoneAfterStep(c: Config, s: State, a: Action)
    requires OrdersInv(c, s) && ShapeInv(c, s) && Smooth(c, s, a)
    ensures GoneNames(Step(c, s, a).shared.deletions) <= GoneNames(s.shared.deletions)
              + if a.WorkerAct? && s.workers[a.id].WDelete? && s.workers[a.id].file !in c.inDirs + c.outDirs
                then {s.workers[a.id].file} else {}
  {
    if a.WorkerAct? {
      GoneAfterWorker(c, s.shared, a.id, s.workers[a.id], a.outcome);
    }
  }

  lemma WorkerStaysClean(c: Config, s: State, j: nat)
    requires Clean(c, s) && j < |s.workers| && WorkerCan(c, s.shared, s.workers[j], GoodOutcome(c, s.workers[j]))
    ensures var s' := WorkerStep(c, s, j, GoodOutcome(c, s.workers[j]));
      NoFileFailed(c, s') && forall k :: 0 <= k < |s'.workers| ==>
        !s'.workers[k].WCopyError? && (s'.workers[k].WDeleteError? ==> s'.workers[k].file in c.inDirs + c.outDirs)
  {
  }

  lemma StaysClean(c: Config, s: State, a: Action)
    requires OrdersInv(c, s) && ShapeInv(c, s) && Clean(c, s) && Smooth(c, s, a)
    ensures Clean(c, Step(c, s, a))
  {
    GoneAfterStep(c, s, a);
    if a.WorkerAct? {
      WorkerStaysClean(c, s, a.id);
    }
  }

  lemma ReachableStep(c: Config, s: State, a: Action)
    requires Reachable(c, s) && Enabled(c, s, a)
    ensures Reachable(c, Step(c, s, a))
  {
    var states, acts :| Run(c, states, acts) && states[|acts|] == s;
    var states', acts' := states + [Step(c, s, a)], acts + [a];
    assert Run(c, states', acts') && states'[|acts'|] == Step(c, s, a);
  }

  /** A reachable state of a run in which nothing has gone wrong yet. */
  ghost predicate Fine(c: Config, s: State) {
    Reachable(c, s) && ShapeInv(c, s) && Clean(c, s)
  }

  lemma FineStep(c: Config, s: State, a: Action)
    requires Valid(c) && Fine(c, s) && Smooth(c, s, a)
    ensures Fine(c, Step(c, s, a))
    ensures !Idles(s, a) ==> Potential(c, Step(c, s, a)) < Potential(c, s)
  {
    ReachableInv(c, s);
    StaysClean(c, s, a);
    ReachableStep(c, s, a);
    StepFalls(c, s, a, Step(c, s, a));
  }

  lemma InitFine(c: Config)
    requires Valid(c)
    ensures Fine(c, Init(c))
  {
    InitShape(c);
    assert Run(c, [Init(c)], []);
  }

  lemma SmoothAct(c: Config, s: State) returns (a: Action)
    requires Valid(c) && Fine(c, s) && !Finished(s)
    ensures Smooth(c, s, a) && !Idles(s, a)
    ensures a.WorkerAct? ==> s.shared.doneStuff
    ensures Phase(s.main) < 3 ==> a.MainAct?
  {
    ReachableInv(c, s);
    a := NextAct(c, s);
    if a.WorkerAct? {
      WorkerCanSucceed(c, s, a.id);
      a := WorkerAct(a.id, GoodOutcome(c, s.workers[a.id]));
    }
  }

  // ---- What a smooth run keeps to its end ------------------------------------------------------

  ghost predicate NoCopiesLeft(n: Names) {
    forall f :: f in n.stage ==> n.stage[f].Skipped? || n.stage[f].Copied? || n.stage[f].Failed?
  }

  /** Main is past the sorters, nothing is left to copy, and what has been deleted is gone for good. */
  ghost predicate OnlyShrinks(s: State) {
    && Phase(s.main) >= 4
    && NoCopiesLeft(s.shared.names)
    && forall f :: Gone(s.shared.deletions, f) ==> f !in s.shared.disk.output
  }

  lemma WorkerShrinks(c: Config, s: State, j: nat, o: Outcome)
    requires PlacesInv(c, s) && OnlyShrinks(s) && j < |s.workers| && WorkerCan(c, s.shared, s.workers[j], o)
    ensures OnlyShrinks(WorkerStep(c, s, j, o))
  {
    var n, w := s.shared.names, s.workers[j];
    assert WorkerPlace(n, j, Load(w));
    assert n.copyQueue != [] ==>
        n.copyQueue[0] in n.copyQueue && AtStage(c, n, n.copyQueue[0], n.stage[n.copyQueue[0]]);
    assert WorkerStep(c, s, j, o).shared.names.stage == n.stage;
  }

  lemma MainShrinks(c: Config, s: State, pick: Path)
    requires OnlyShrinks(s) && MainEnabled(s, pick)
    ensures OnlyShrinks(MainStep(c, s, pick))
  {
  }

  lemma KeepsShrinking(c: Config, s: State, a: Action)
    requires ShapeInv(c, s) && PlacesInv(c, s) && OnlyShrinks(s) && Enabled(c, s, a)
    ensures OnlyShrinks(Step(c, s, a))
  {
    match a
    case MainAct(pick) => MainShrinks(c, s, pick);
    case SorterAct(i) =>
    case WorkerAct(j, o) => WorkerShrinks(c, s, j, o);
  }

  /** The deletion of input name f is over, and its copy is still to come or there to stay. */
  ghost predicate Restored(c: Config, s: State, f: Path) {
    f in c.input && Gone(s.shared.deletions, f) && (IsCopied(s.shared.names, f) ==> f in s.shared.disk.output)
  }

  lemma SorterRestores(c: Config, s: State, i: nat, f: Path)
    requires PlacesInv(c, s) && Restored(c, s, f) && i < |s.sorters|
    ensures Restored(c, SorterStep(c, s, i), f)
  {
    var n, t := s.shared.names, s.sorters[i];
    SorterTurnOp(c, s.shared, t);
    TouchGrows(n, i, SorterTurn(c, s.shared, t).0, Grip(t), Grip(SorterTurn(c, s.shared, t).1), f);
  }

  lemma StaysGone(c: Config, ds: Deletions, j: nat, w: Worker, o: Outcome, f: Path)
    requires Orders(c, ds) && WorkerOrder(ds, j, Deletes(w)) && Gone(ds, f)
    ensures Gone(WorkerDeletions(ds, j, w, o), f) && (w.WDelete? ==> w.file != f)
  {
  }

  lemma CopyRestores(c: Config, s: State, j: nat, o: Outcome, f: Path)
    requires Restored(c, s, f) && j < |s.workers| && s.workers[j].WCopy? && WorkerCan(c, s.shared, s.workers[j], o)
    ensures Restored(c, WorkerStep(c, s, j, o), f)
  {
  }

  lemma OtherRestores(c: Config, s: State, j: nat, o: Outcome, f: Path)
    requires PlacesInv(c, s) && OrdersInv(c, s) && Restored(c, s, f)
    requires j < |s.workers| && !s.workers[j].WCopy? && WorkerCan(c, s.shared, s.workers[j], o)
    ensures Restored(c, WorkerStep(c, s, j, o), f)
  {
    var n, w := s.shared.names, s.workers[j];
    assert WorkerPlace(n, j, Load(w)) && WorkerOrder(s.shared.deletions, j, Deletes(w));
    assert n.copyQueue != [] ==>
        n.copyQueue[0] in n.copyQueue && AtStage(c, n, n.copyQueue[0], n.stage[n.copyQueue[0]]);
    StaysGone(c, s.shared.deletions, j, w, o, f);
    WorkerTouches(s.shared, j, w, o, f);
  }

  lemma WorkerRestores(c: Config, s: State, j: nat, o: Outcome, f: Path)
    requires PlacesInv(c, s) && OrdersInv(c, s) && Restored(c, s, f)
    requires j < |s.workers| && WorkerCan(c, s.shared, s.workers[j], o)
    ensures Restored(c, WorkerStep(c, s, j, o), f)
  {
    if s.workers[j].WCopy? {
      CopyRestores(c, s, j, o, f);
    } else {
      OtherRestores(c, s, j, o, f);
    }
  }

  lemma MainRestores(c: Config, s: State, pick: Path, f: Path)
    requires Valid(c) && OrdersInv(c, s) && DirsInv(c, s) && Restored(c, s, f) && MainEnabled(s, pick)
    ensures Restored(c, MainStep(c, s, pick), f)
  {
    match s.main
    case MLeftovers(todo) =>
      if todo != {} {
        EntriesGrow(c, Leftovers(c), todo, pick);
      }
    case MCleanup(todo) =>
      InputsUnswept(c, f);
      assert !IsSwept(LeftoverDirs(c), f);
    case _ =>
  }

  lemma KeepsRestored(c: Config, s: State, a: Action, f: Path)
    requires Valid(c) && Inv(c, s) && Restored(c, s, f) && Enabled(c, s, a)
    ensures Restored(c, Step(c, s, a), f)
  {
    match a
    case MainAct(pick) => MainRestores(c, s, pick, f);
    case SorterAct(i) => SorterRestores(c, s, i, f);
    case WorkerAct(j, o) => WorkerRestores(c, s, j, o, f);
  }

  /** Copy has returned, and no file operation has failed. */
  ghost predicate Complete(c: Config, s: State) {
    Reachable(c, s) && Finished(s) && NoFileFailed(c, s)
  }

  /** From every fine state the call can return without a failed file operation. */
  lemma {:induction false} Completion(c: Config, s: State, f: Path) returns (s': State)
    requires Valid(c) && Fine(c, s)
    ensures Complete(c, s')
    ensures OnlyShrinks(s) ==> OnlyShrinks(s')
    ensures Restored(c, s, f) ==> Restored(c, s', f)
    decreases Potential(c, s)
  {
    if Finished(s) {
      s' := s;
    } else {
      var a := SmoothAct(c, s);
      FineStep(c, s, a);
      ReachableInv(c, s);
      if OnlyShrinks(s) {
        KeepsShrinking(c, s, a);
      }
      if Restored(c, s, f) {
        KeepsRestored(c, s, a, f);
      }
      s' := Completion(c, Step(c, s, a), f);
    }
  }

  // ---- Before the first deletion is queued -----------------------------------------------------

  /** Main has not queued any deletion yet. */
  predicate NothingListed(s: State) {
    Phase(s.main) <= 4 && s.shared.deletions == Deletions([], [], map[])
  }

  /** A worker that can get at a copy is not idle, and it does not touch the deletions. */
  lemma CopierTurn(c: Config, s: State, j: nat, o: Outcome)
    requires ShapeInv(c, s) && OrdersInv(c, s) && NothingListed(s) && j < |s.workers|
    requires Load(s.workers[j]).Carrying? || s.shared.names.copyQueue != []
    ensures !s.workers[j].WExit? && !s.workers[j].WDelete? && !Idles(s, WorkerAct(j, o))
    ensures WorkerDeletions(s.shared.deletions, j, s.workers[j], o) == s.shared.deletions
  {
    assert WorkerShape(s.main, s.shared, j, s.workers[j]);
    assert WorkerOrder(s.shared.deletions, j, Deletes(s.workers[j]));
  }

  /** While f is to be copied it is in the queue or some worker has it. */
  lemma CopierOf(c: Config, s: State, f: Path, k: nat) returns (j: nat)
    requires PlacesInv(c, s) && NoFileFailed(c, s) && k < |s.workers|
    requires f in s.shared.names.stage && Pushed(s.shared.names.stage[f]) && !IsCopied(s.shared.names, f)
    ensures j < |s.workers|
    ensures Load(s.workers[j]) == Carrying(f) || (j == k && f in s.shared.names.copyQueue)
  {
    var n := s.shared.names;
    assert AtStage(c, n, f, n.stage[f]);
    j := if n.stage[f].Copying? then n.stage[f].worker else k;
    assert WorkerPlace(n, j, Load(s.workers[j])) && (StageIs(n, f, Copying(j)) ==> Load(s.workers[j]) == Carrying(f));
  }

  /** From s to s' nobody has moved but worker k and workers that had a file in hand. */
  ghost predicate OnlyCopied(s: State, s': State, k: nat) {
    && s'.main == s.main && s'.sorters == s.sorters && |s'.workers| == |s.workers|
    && s'.shared.names.tallied == s.shared.names.tallied
    && s'.shared.totals.bytesToCopy == s.shared.totals.bytesToCopy
    && s'.shared.deletions == s.shared.deletions
    && forall h :: 0 <= h < |s.workers| && h != k && Load(s.workers[h]).Idle? ==> s'.workers[h] == s.workers[h]
  }

  predicate ToCopy(s: State, f: Path) {
    f in s.shared.names.stage && Pushed(s.shared.names.stage[f]) && !IsCopied(s.shared.names, f)
  }

  lemma CopierNames(c: Config, n: Names, j: nat, w: Worker, sh: Shared, f: Path)
    requires sh.names == n && Places(c, n) && WorkerPlace(n, j, Load(w)) && !w.WCopyError?
    requires f in n.stage && Pushed(n.stage[f]) && !n.stage[f].Copied?
    ensures var o := GoodOutcome(c, w); var n', w' := OnNames(n, j, WorkerTurn(sh, w, o).0), WorkerTurn(sh, w, o).1;
      && n'.tallied == n.tallied && f in n'.stage && Pushed(n'.stage[f])
      && (n'.stage[f].Copied? ==> w' == WCount(f))
      && (Load(w) == Carrying(f) ==> n'.stage[f].Copied?)
  {
    assert n.copyQueue != [] ==>
        n.copyQueue[0] in n.copyQueue && AtStage(c, n, n.copyQueue[0], n.stage[n.copyQueue[0]]);
  }

  lemma CopierFound(c: Config, s: State, f: Path, k: nat) returns (j: nat)
    requires Valid(c) && Fine(c, s) && NothingListed(s) && 2 <= Phase(s.main) && k < |s.workers| && ToCopy(s, f)
    ensures j < |s.workers| && (Load(s.workers[j]) == Carrying(f) || j == k) && WorkerRuns(s.workers[j])
    ensures var o := GoodOutcome(c, s.workers[j]);
      && !Idles(s, WorkerAct(j, o)) && WorkerDeletions(s.shared.deletions, j, s.workers[j], o) == s.shared.deletions
  {
    assert PlacesInv(c, s) && OrdersInv(c, s) by {
      ReachableInv(c, s);
    }
    j := CopierOf(c, s, f, k);
    assert WorkerShape(s.main, s.shared, j, s.workers[j]);
    CopierTurn(c, s, j, GoodOutcome(c, s.workers[j]));
  }

  lemma FineWorker(c: Config, s: State, j: nat)
    requires Valid(c) && Fine(c, s) && j < |s.workers| && WorkerRuns(s.workers[j])
    ensures Smooth(c, s, WorkerAct(j, GoodOutcome(c, s.workers[j])))
  {
    ReachableInv(c, s);
    WorkerCanSucceed(c, s, j);
  }

  lemma CopierAct(c: Config, s: State, f: Path, k: nat) returns (j: nat)
    requires Valid(c) && Fine(c, s) && NothingListed(s) && 2 <= Phase(s.main) && k < |s.workers| && ToCopy(s, f)
    ensures j < |s.workers| && (Load(s.workers[j]) == Carrying(f) || j == k)
    ensures var a := WorkerAct(j, GoodOutcome(c, s.workers[j]));
      && Smooth(c, s, a) && !Idles(s, a)
      && WorkerDeletions(s.shared.deletions, j, s.workers[j], a.outcome) == s.shared.deletions
  {
    j := CopierFound(c, s, f, k);
    FineWorker(c, s, j);
  }

  lemma CopierEffect(c: Config, s: State, f: Path, k: nat, j: nat)
    requires PlacesInv(c, s) && Clean(c, s) && ToCopy(s, f)
    requires j < |s.workers| && (Load(s.workers[j]) == Carrying(f) || j == k)
    requires WorkerCan(c, s.shared, s.workers[j], GoodOutcome(c, s.workers[j]))
    requires WorkerDeletions(s.shared.deletions, j, s.workers[j], GoodOutcome(c, s.workers[j])) == s.shared.deletions
    ensures var s' := WorkerStep(c, s, j, GoodOutcome(c, s.workers[j]));
      OnlyCopied(s, s', k) && if IsCopied(s'.shared.names, f) then s'.workers[j] == WCount(f) else ToCopy(s', f)
  {
    CopierNames(c, s.shared.names, j, s.workers[j], s.shared, f);
  }

  lemma CopyStep(c: Config, s: State, f: Path, k: nat) returns (s': State, j: nat)
    requires Valid(c) && Fine(c, s) && NothingListed(s) && 2 <= Phase(s.main) && k < |s.workers| && ToCopy(s, f)
    ensures Fine(c, s') && OnlyCopied(s, s', k) && Potential(c, s') < Potential(c, s)
    ensures j < |s'.workers| && if IsCopied(s'.shared.names, f) then s'.workers[j] == WCount(f) else ToCopy(s', f)
  {
    j := CopierAct(c, s, f, k);
    var a := WorkerAct(j, GoodOutcome(c, s.workers[j]));
    FineStep(c, s, a);
    s' := Step(c, s, a);
    assert PlacesInv(c, s) by {
      ReachableInv(c, s);
    }
    CopierEffect(c, s, f, k, j);
  }

  /**
    Worker k, or the one that has f already, copies until f is copied and some worker is about
    to count it. Nobody else moves.
   */
  lemma {:induction false} CopyOne(c: Config, s: State, f: Path, k: nat) returns (s': State, j: nat)
    requires Valid(c) && Fine(c, s) && NothingListed(s) && 2 <= Phase(s.main) && k < |s.workers| && ToCopy(s, f)
    ensures Fine(c, s') && OnlyCopied(s, s', k) && Potential(c, s') < Potential(c, s)
    ensures IsCopied(s'.shared.names, f) && j < |s'.workers| && s'.workers[j] == WCount(f)
    decreases Potential(c, s)
  {
    s', j := CopyStep(c, s, f, k);
    if !IsCopied(s'.shared.names, f) {
      s', j := CopyOne(c, s', f, k);
    }
  }

  // ---- The sorters first, then all copies ------------------------------------------------------

  ghost predicate NoneTouched(n: Names) {
    forall f :: !Touched(n, f)
  }

  /** The sorters have decided on every name. */
  ghost predicate AllDecided(n: Names) {
    forall f :: f in n.stage ==> Decided(n.stage[f])
  }

  /** Main has started the first worker. */
  predicate FirstStarted(m: Main) {
    Phase(m) > 1 || (m.MSpawn? && m.next > 0)
  }

  /** Only an undecided name is popped, skipped or pushed. */
  lemma WorksOnUndecided(c: Config, n: Names, i: nat, g: SorterGrip, op: NameOp, g': SorterGrip)
    requires Places(c, n) && SorterPlace(n, i, g) && SorterOp(n, g, op, g')
    ensures op.Keep? || op.Tally? || !AllDecided(n)
  {
    if op.Pop? {
      var f := n.inQueue[0];
      assert f in n.inQueue && AtStage(c, n, f, n.stage[f]);
      assert !Decided(n.stage[f]);
    } else if g.Undecided? {
      assert !Decided(n.stage[g.name]);
    }
  }

  lemma QuietStep(c: Config, s: State, a: Action)
    requires PlacesInv(c, s) && c.deleteWithoutMatch && NothingListed(s) && Phase(s.main) < 4
    requires Enabled(c, s, a) && !a.WorkerAct?
    ensures var s' := Step(c, s, a);
      && NothingListed(s') && |s'.workers| == |s.workers|
      && (NoneTouched(s.shared.names) ==> NoneTouched(s'.shared.names))
      && (AllDecided(s.shared.names) ==>
            AllDecided(s'.shared.names) && s'.shared.names.copyQueue == s.shared.names.copyQueue)
      && (FirstStarted(s.main) && |s.workers| > 0 ==> FirstStarted(s'.main) && s'.workers[0] == s.workers[0])
  {
    if a.SorterAct? {
      var n, t := s.shared.names, s.sorters[a.id];
      var op, t' := SorterTurn(c, s.shared, t).0, SorterTurn(c, s.shared, t).1;
      SorterTurnOp(c, s.shared, t);
      forall f ensures Touched(OnNames(n, a.id, op), f) == Touched(n, f) {
        TouchGrows(n, a.id, op, Grip(t), Grip(t'), f);
      }
      if AllDecided(n) {
        WorksOnUndecided(c, n, a.id, Grip(t), op, Grip(t'));
        assert OnNames(n, a.id, op).stage == n.stage;
      }
    }
  }

  /** Main and the sorters go on, without the workers, until main lists the leftovers. */
  lemma {:induction false} SortersFirst(c: Config, s: State) returns (s': State)
    requires Valid(c) && Fine(c, s) && c.deleteWithoutMatch && NothingListed(s)
    ensures Fine(c, s') && NothingListed(s') && s'.main.MLeftovers? && |s'.workers| == |s.workers|
    ensures NoneTouched(s.shared.names) ==> NoneTouched(s'.shared.names)
    ensures AllDecided(s.shared.names) ==> s'.shared.names.copyQueue == s.shared.names.copyQueue
    ensures FirstStarted(s.main) && |s.workers| > 0 ==> s'.workers[0] == s.workers[0]
    decreases Potential(c, s)
  {
    if s.main.MLeftovers? {
      s' := s;
    } else {
      var a := SmoothAct(c, s);
      FineStep(c, s, a);
      ReachableInv(c, s);
      QuietStep(c, s, a);
      s' := SortersFirst(c, Step(c, s, a));
    }
  }

  lemma AllToCopy(c: Config, s: State) returns (f: Path)
    requires ShapeInv(c, s) && PlacesInv(c, s) && SortersDone(s) && !NoCopiesLeft(s.shared.names)
    ensures ToCopy(s, f)
  {
    var n := s.shared.names;
    f :| f in n.stage && !(n.stage[f].Skipped? || n.stage[f].Copied? || n.stage[f].Failed?);
    DoneMeansDecided(c, s, f);
  }

  lemma {:induction false} CopyAll(c: Config, s: State) returns (s': State)
    requires Valid(c) && Fine(c, s) && NothingListed(s) && s.main.MLeftovers? && c.processors > 0
    ensures Fine(c, s') && NothingListed(s') && s'.main.MLeftovers? && NoCopiesLeft(s'.shared.names)
    decreases Potential(c, s)
  {
    if NoCopiesLeft(s.shared.names) {
      s' := s;
    } else {
      var f := "";
      assert |s.workers| > 0 && exists g :: ToCopy(s, g) by {
        ReachableInv(c, s);
        var g := AllToCopy(c, s);
      }
      f :| ToCopy(s, f);
      var j;
      s', j := CopyOne(c, s, f, 0);
      s' := CopyAll(c, s');
    }
  }

  /** Some schedule finishes all copies before main queues the first deletion. */
  lemma CopiesFirst(c: Config) returns (s: State)
    requires Valid(c) && c.deleteWithoutMatch && c.processors > 0
    ensures Fine(c, s) && NothingListed(s) && s.main.MLeftovers? && NoCopiesLeft(s.shared.names)
  {
    InitFine(c);
    s := SortersFirst(c, Init(c));
    s := CopyAll(c, s);
  }

  // ---- Deletions out of turn -------------------------------------------------------------------

  lemma SomeEntry(c: Config, gs: set<Path>)
    ensures EntriesFor(c, gs) == {} ==> gs == {}
  {
    if gs != {} {
      var g :| g in gs;
      assert c.queuedPrefix + g in EntriesFor(c, gs);
    }
  }

  lemma AllToList(c: Config, s: State)
    requires Valid(c) && Fine(c, s) && NothingListed(s) && s.main.MLeftovers?
    ensures s.main.todo == Leftovers(c)
  {
    ReachableInv(c, s);
    SomeEntry(c, Leftovers(c) - s.main.todo);
  }

  /** Main lists the leftover that is queued under the name e. */
  lemma ListFirst(c: Config, s: State, e: Path) returns (s': State)
    requires Valid(c) && Fine(c, s) && NothingListed(s) && s.main.MLeftovers? && e in Targets(c)
    ensures Fine(c, s') && s'.shared.deletions == Deletions([e], [], map[e := Listed])
    ensures s'.workers == s.workers && s'.shared.names == s.shared.names && s'.shared.disk == s.shared.disk
    ensures s'.shared.totals == s.shared.totals && Phase(s'.main) == 4
  {
    AllToList(c, s);
    var g :| g in Leftovers(c) && c.queuedPrefix + g == e;
    FineStep(c, s, MainAct(g));
    s' := Step(c, s, MainAct(g));
  }

  lemma TakeOrder(c: Config, s: State, e: Path, k: nat) returns (s': State)
    requires Valid(c) && Fine(c, s) && e in c.input
    requires s.shared.deletions == Deletions([e], [], map[e := Listed])
    requires k < |s.workers| && s.workers[k].WPopDelete?
    ensures Fine(c, s')
    ensures s' == s.(shared := s.shared.(deletions := s'.shared.deletions), workers := s.workers[k := WDelete(e)])
    ensures s'.shared.deletions.fate == map[e := Deleting(k)] && e !in s'.shared.disk.dirs
  {
    var a := WorkerAct(k, Success(0));
    FineStep(c, s, a);
    s' := Step(c, s, a);
    assert s'.workers[k] == WDelete(e);
    assert e !in s'.shared.disk.dirs by {
      ReachableInv(c, s');
      FilesAreNoDirs(c, s', k);
    }
  }

  /** A worker that is about to look at the delete queue takes e, a file's name, and deletes it. */
  lemma DeleteNow(c: Config, s: State, e: Path, k: nat) returns (s': State)
    requires Valid(c) && Fine(c, s) && Phase(s.main) == 4 && e in c.input
    requires s.shared.deletions == Deletions([e], [], map[e := Listed])
    requires k < |s.workers| && s.workers[k].WPopDelete?
    ensures Fine(c, s') && Gone(s'.shared.deletions, e) && e !in s'.shared.disk.output
    ensures s'.main == s.main && s'.sorters == s.sorters
    ensures s'.shared.names == s.shared.names && s'.shared.totals == s.shared.totals
    ensures s'.workers == s.workers[k := WFlag]
  {
    var taken := TakeOrder(c, s, e, k);
    FineStep(c, taken, WorkerAct(k, Success(0)));
    s' := Step(c, taken, WorkerAct(k, Success(0)));
    assert s'.workers == s.workers[k := WDelete(e)][k := WFlag] == s.workers[k := WFlag];
  }

  /**
    Before the sorters start the first worker has looked at the copy queue, which was empty, and
    is about to look at the delete queue.
   */
  lemma HoldFirst(c: Config) returns (s: State)
    requires Valid(c) && c.processors > 0
    ensures Fine(c, s) && NothingListed(s) && FirstStarted(s.main) && NoneTouched(s.shared.names)
    ensures |s.workers| == c.processors && s.workers[0].WPopDelete? && s.shared.names == Init(c).shared.names
  {
    InitFine(c);
    s := FirstWorker(c, Init(c));
    for k := 0 to 3
      invariant Fine(c, s) && NothingListed(s) && FirstStarted(s.main) && NoneTouched(s.shared.names)
      invariant |s.workers| == c.processors && s.shared.names == Init(c).shared.names && !s.shared.doneStuff
      invariant s.workers[0] == if k == 0 then WFlag else if k == 1 then WWait
                                else if k == 2 then WPopCopy else WPopDelete
    {
      FineStep(c, s, WorkerAct(0, Success(0)));
      s := Step(c, s, WorkerAct(0, Success(0)));
    }
  }

  lemma {:induction false} FirstWorker(c: Config, s: State) returns (s': State)
    requires Valid(c) && Fine(c, s) && c.processors > 0 && (s.main.MDirs? || s.main == MSpawn(0))
    requires s.shared.names == Init(c).shared.names
    ensures Fine(c, s') && NothingListed(s') && FirstStarted(s'.main) && !s'.shared.doneStuff
    ensures s'.shared.names == Init(c).shared.names && |s'.workers| == c.processors && s'.workers[0] == WFlag
    decreases Potential(c, s)
  {
    var a := SmoothAct(c, s);
    FineStep(c, s, a);
    s' := Step(c, s, a);
    if s.main.MDirs? {
      s' := FirstWorker(c, s');
    }
  }
}
