/** What is on the disk while the engine runs, and why decisions do not depend on the schedule. */
module SyncTrees {
  import opened Paths
  import opened FileTrees
  import opened SyncEngine
  import opened SyncShape
  import opened SyncPlaces
  import opened SyncPlan
  import opened SyncDirs
  import opened SyncDeletions

  /** A worker has taken the name: its output may differ from the snapshot. */
  predicate Touched(n: Names, f: Path) {
    f in n.stage && (n.stage[f].Copying? || n.stage[f].Copied? || n.stage[f].Failed?)
  }

  predicate IsCopied(n: Names, f: Path) {
    f in n.stage && n.stage[f].Copied?
  }

  /** e holds what the transfer of f makes: the whole entry in move mode, the content otherwise. */
  predicate IsCopy(c: Config, f: Path, e: Entry) {
    f in c.input && if c.move then e == c.input[f] else e.content == c.input[f].content
  }

  /** The directories removed so far. */
  function SweptSoFar(c: Config, m: Main): set<Path> {
    match m
    case MCleanup(todo) => SweptDirs(c) - todo
    case MEnd => SweptDirs(c)
    case _ => {}
  }

  predicate InputAt(c: Config, d: Disk, n: Names, f: Path) {
    if c.move && IsCopied(n, f) then f !in d.input else SameAt(d.input, c.input, f)
  }

  predicate OutputAt(c: Config, d: Disk, n: Names, ds: Deletions, f: Path) {
    && (!Touched(n, f) && !Gone(ds, f) ==> SameAt(d.output, c.output, f))
    && (IsCopied(n, f) && !Gone(ds, f) ==> f in d.output)
    && (IsCopied(n, f) && f in d.output ==> IsCopy(c, f, d.output[f]))
    && (Gone(ds, f) && !Touched(n, f) ==> f !in d.output)
  }

  ghost predicate TreesInv(c: Config, s: State) {
    && (forall f :: InputAt(c, s.shared.disk, s.shared.names, f))
    && (forall f :: if IsSwept(SweptSoFar(c, s.main), f) then f !in s.shared.disk.output
                    else OutputAt(c, s.shared.disk, s.shared.names, s.shared.deletions, f))
  }

  lemma InitTrees(c: Config)
    ensures TreesInv(c, Init(c))
  {
  }

  /** No operation but MarkCopied makes a name copied, and none gives a touched one back. */
  lemma TouchGrows(n: Names, id: nat, op: NameOp, g: SorterGrip, g': SorterGrip, f: Path)
    requires SorterPlace(n, id, g) && SorterOp(n, g, op, g')
    requires op.Pop? ==> StageIs(n, n.inQueue[0], Waiting)
    ensures Touched(n, f) == Touched(OnNames(n, id, op), f) && IsCopied(n, f) == IsCopied(OnNames(n, id, op), f)
  {
  }

  lemma SorterTrees(c: Config, s: State, i: nat)
    requires PlacesInv(c, s) && TreesInv(c, s) && i < |s.sorters|
    ensures TreesInv(c, SorterStep(c, s, i))
  {
    var sh, t, s' := s.shared, s.sorters[i], SorterStep(c, s, i);
    var op, t' := SorterTurn(c, sh, t).0, SorterTurn(c, sh, t).1;
    SorterTurnOp(c, sh, t);
    forall f
      ensures InputAt(c, s'.shared.disk, s'.shared.names, f)
      ensures OutputAt(c, sh.disk, sh.names, sh.deletions, f)
              ==> OutputAt(c, s'.shared.disk, s'.shared.names, s'.shared.deletions, f)
    {
      assert InputAt(c, sh.disk, sh.names, f);
      TouchGrows(sh.names, i, op, Grip(t), Grip(t'), f);
    }
  }

  lemma WorkerInputAt(c: Config, sh: Shared, j: nat, w: Worker, o: Outcome, f: Path)
    requires WorkerPlace(sh.names, j, Load(w)) && WorkerCan(c, sh, w, o)
    requires w.WPopCopy? && sh.names.copyQueue != [] ==> StageIs(sh.names, sh.names.copyQueue[0], Queued)
    requires InputAt(c, sh.disk, sh.names, f)
    ensures var sh' := WorkerShared(c, sh, j, w, o); InputAt(c, sh'.disk, sh'.names, f)
  {
  }

  lemma CopierOutputAt(c: Config, sh: Shared, j: nat, w: Worker, o: Outcome, f: Path)
    requires w.WCopy? && w.file in c.input && WorkerPlace(sh.names, j, Load(w)) && WorkerCan(c, sh, w, o)
    requires InputAt(c, sh.disk, sh.names, w.file) && OutputAt(c, sh.disk, sh.names, sh.deletions, f)
    ensures var sh' := WorkerShared(c, sh, j, w, o); OutputAt(c, sh'.disk, sh'.names, sh'.deletions, f)
  {
  }

  lemma DeleterOutputAt(c: Config, sh: Shared, j: nat, w: Worker, o: Outcome, f: Path)
    requires !w.WCopy? && WorkerCan(c, sh, w, o)
    requires OutputAt(c, sh.disk, sh.names, sh.deletions, f)
    requires Orders(c, sh.deletions) && WorkerOrder(sh.deletions, j, Deletes(w))
    ensures var sh' := WorkerShared(c, sh, j, w, o); OutputAt(c, sh'.disk, sh.names, sh'.deletions, f)
  {
  }

  lemma WorkerTouches(sh: Shared, j: nat, w: Worker, o: Outcome, f: Path)
    requires !w.WCopy? && WorkerPlace(sh.names, j, Load(w))
    requires w.WPopCopy? && sh.names.copyQueue != [] ==> StageIs(sh.names, sh.names.copyQueue[0], Queued)
    ensures var n' := OnNames(sh.names, j, WorkerTurn(sh, w, o).0);
      IsCopied(n', f) == IsCopied(sh.names, f) && (Touched(sh.names, f) ==> Touched(n', f))
  {
  }

  lemma WorkerOutputAt(c: Config, sh: Shared, j: nat, w: Worker, o: Outcome, f: Path)
    requires WorkerPlace(sh.names, j, Load(w)) && WorkerCan(c, sh, w, o)
    requires w.WPopCopy? && sh.names.copyQueue != [] ==> StageIs(sh.names, sh.names.copyQueue[0], Queued)
    requires Orders(c, sh.deletions) && WorkerOrder(sh.deletions, j, Deletes(w))
    requires w.WCopy? ==> w.file in c.input && InputAt(c, sh.disk, sh.names, w.file)
    requires OutputAt(c, sh.disk, sh.names, sh.deletions, f)
    ensures var sh' := WorkerShared(c, sh, j, w, o); OutputAt(c, sh'.disk, sh'.names, sh'.deletions, f)
  {
    if w.WCopy? {
      CopierOutputAt(c, sh, j, w, o, f);
    } else {
      DeleterOutputAt(c, sh, j, w, o, f);
      WorkerTouches(sh, j, w, o, f);
    }
  }

  lemma WorkerTrees(c: Config, s: State, j: nat, o: Outcome)
    requires PlacesInv(c, s) && ShapeInv(c, s) && OrdersInv(c, s) && TreesInv(c, s)
    requires j < |s.workers| && WorkerCan(c, s.shared, s.workers[j], o)
    ensures TreesInv(c, WorkerStep(c, s, j, o))
  {
    assert !WorkersDone(s);
    var sh, w, s' := s.shared, s.workers[j], WorkerStep(c, s, j, o);
    if sh.names.copyQueue != [] {
      var next := sh.names.copyQueue[0];
      assert next in sh.names.copyQueue && AtStage(c, sh.names, next, sh.names.stage[next]);
    }
    forall f
      ensures InputAt(c, s'.shared.disk, s'.shared.names, f)
      ensures OutputAt(c, s'.shared.disk, s'.shared.names, s'.shared.deletions, f)
    {
      assert InputAt(c, sh.disk, sh.names, f);
      assert w.WCopy? ==> InputAt(c, sh.disk, sh.names, w.file) && WorkerPlace(sh.names, j, Load(w));
      WorkerInputAt(c, sh, j, w, o, f);
      assert !IsSwept(SweptSoFar(c, s.main), f);
      WorkerOutputAt(c, sh, j, w, o, f);
    }
  }

  lemma MainTrees(c: Config, s: State, pick: Path)
    requires DirsInv(c, s) && TreesInv(c, s) && OrdersInv(c, s) && ShapeInv(c, s) && MainEnabled(s, pick)
    ensures TreesInv(c, MainStep(c, s, pick))
  {
    var sh, s' := s.shared, MainStep(c, s, pick);
    forall f
      ensures InputAt(c, s'.shared.disk, s'.shared.names, f)
      ensures if IsSwept(SweptSoFar(c, s'.main), f) then f !in s'.shared.disk.output
              else OutputAt(c, s'.shared.disk, s'.shared.names, s'.shared.deletions, f)
    {
      assert InputAt(c, sh.disk, sh.names, f);
      MainOutputAt(c, s, pick, f);
    }
  }

  lemma CleanupOutputAt(c: Config, s: State, pick: Path, f: Path)
    requires DirsInv(c, s) && s.main.MCleanup? && MainEnabled(s, pick)
    requires if IsSwept(SweptSoFar(c, s.main), f) then f !in s.shared.disk.output
             else OutputAt(c, s.shared.disk, s.shared.names, s.shared.deletions, f)
    ensures var s' := MainStep(c, s, pick);
      if IsSwept(SweptSoFar(c, s'.main), f) then f !in s'.shared.disk.output
      else OutputAt(c, s'.shared.disk, s'.shared.names, s'.shared.deletions, f)
  {
    var todo := s.main.todo;
    if todo == {} {
      assert SweptDirs(c) - todo == SweptDirs(c);
    } else {
      SweepOneMore(SweptDirs(c), todo, pick, f);
    }
  }

  lemma MainOutputAt(c: Config, s: State, pick: Path, f: Path)
    requires DirsInv(c, s) && OrdersInv(c, s) && ShapeInv(c, s) && MainEnabled(s, pick)
    requires if IsSwept(SweptSoFar(c, s.main), f) then f !in s.shared.disk.output
             else OutputAt(c, s.shared.disk, s.shared.names, s.shared.deletions, f)
    ensures var s' := MainStep(c, s, pick);
      if IsSwept(SweptSoFar(c, s'.main), f) then f !in s'.shared.disk.output
      else OutputAt(c, s'.shared.disk, s'.shared.names, s'.shared.deletions, f)
  {
    match s.main
    case MLeftovers(todo) =>
      if todo != {} {
        EntriesGrow(c, Leftovers(c), todo, pick);
      }
    case MCleanup(_) =>
      CleanupOutputAt(c, s, pick, f);
    case MJoinWorker(_) =>
      assert LeftoverDirs(c) - LeftoverDirs(c) == {};
    case _ =>
  }
}
