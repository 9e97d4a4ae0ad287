/** The sorters' decisions: what each has read, what it concludes, and what it strikes from OFilesSet. */
module SyncDecisions {
  import opened Paths
  import opened FileTrees
  import opened SyncEngine
  import opened SyncShape
  import opened SyncPlaces
  import opened SyncPlan
  import opened SyncTrees

  /** What a sorter knows about its name is true of the initial snapshots. */
  predicate SorterPlan(c: Config, t: Sorter) {
    match t
    case SInTime(f) => f in c.output
    case SOutTime(f, inTime) => f in c.input && f in c.output && inTime == c.input[f].time
    case SInSize(f) =>
      f in c.input && f in c.output && c.input[f].time == c.output[f].time && !c.overwriteExisting
    case SOutSize(f, inSize) =>
      && f in c.input && f in c.output && c.input[f].time == c.output[f].time && !c.overwriteExisting
      && inSize == |c.input[f].content|
    case SPush(f, e) => Planned(c, f) && (e <==> f in c.output)
    case SBytes(f, e) => e <==> f in c.output
    case SFiles(f, e) => e <==> f in c.output
    case _ => true
  }

  predicate PlanAt(c: Config, n: Names, f: Path) {
    && (StageIs(n, f, Skipped) ==> !Planned(c, f))
    && (f in n.stage && Pushed(n.stage[f]) ==> Planned(c, f))
  }

  /** A name on which no sorter has decided is in OFilesSet just as it was at the start. */
  predicate UndecidedAt(c: Config, sh: Shared, f: Path) {
    f in sh.names.stage && !Decided(sh.names.stage[f]) ==> (f in sh.outFiles <==> f in c.output)
  }

  /** The name a sorter has still to strike from OFilesSet, after it has decided on it. */
  predicate Strikes(t: Sorter, f: Path) {
    match t
    case SBytes(g, e) => e && g == f
    case SFiles(g, e) => e && g == f
    case SErase(g) => g == f
    case _ => false
  }

  predicate StruckAt(sh: Shared, i: nat, t: Sorter, f: Path) {
    SortedBy(sh.names, f, i) && Decided(sh.names.stage[f]) && f in sh.outFiles ==> Strikes(t, f)
  }

  ghost predicate DecisionsInv(c: Config, s: State) {
    && Leftovers(c) <= s.shared.outFiles <= c.output.Keys
    && (forall f :: PlanAt(c, s.shared.names, f))
    && (forall f :: UndecidedAt(c, s.shared, f))
    && (forall i :: 0 <= i < |s.sorters| ==> SorterPlan(c, s.sorters[i]))
    && (forall i, f :: 0 <= i < |s.sorters| ==> StruckAt(s.shared, i, s.sorters[i], f))
  }

  lemma InitDecisions(c: Config)
    ensures DecisionsInv(c, Init(c))
  {
  }

  /** A name in a sorter's hand reads as it did in the snapshots. */
  ghost predicate Unspoilt(c: Config, sh: Shared, f: Path) {
    && f != "" && f in c.input
    && SameAt(sh.disk.input, c.input, f) && SameAt(sh.disk.output, c.output, f)
    && (f in sh.outFiles <==> f in c.output)
  }

  /** Reading a name as it was in the snapshots, a sorter decides by the plan. */
  lemma TurnFollowsPlan(c: Config, sh: Shared, t: Sorter)
    requires SorterPlan(c, t)
    requires Grip(t).Undecided? ==> Unspoilt(c, sh, Grip(t).name)
    ensures var (op, t') := SorterTurn(c, sh, t);
      && SorterPlan(c, t')
      && (op.Skip? ==> !Planned(c, op.name) && t' == SErase(op.name))
      && (op.Push? ==> Planned(c, op.name) && (Strikes(t', op.name) <==> op.name in c.output))
  {
  }

  /** A sorter that has left its loop has decided on every name it popped, and none is left to pop. */
  lemma DoneMeansDecided(c: Config, s: State, f: Path)
    requires ShapeInv(c, s) && PlacesInv(c, s) && f in s.shared.names.stage
    ensures SortersDone(s) ==> Decided(s.shared.names.stage[f])
  {
    var n := s.shared.names;
    assert AtStage(c, n, f, n.stage[f]);
    assert SorterShape(s.main, s.shared, 0, s.sorters[0]);
    if f in n.sortedBy {
      var i := n.sortedBy[f];
      assert SorterPlace(n, i, Grip(s.sorters[i])) && SortedBy(n, f, i);
    }
  }

  /**
    Decisions do not interfere: an input name not yet pushed or skipped still has its initial
    input entry, its initial output entry and its initial membership in OFilesSet, whatever
    the workers have copied or moved meanwhile.
   */
  lemma UndecidedIsUnspoilt(c: Config, s: State, f: Path)
    requires Valid(c) && ShapeInv(c, s) && PlacesInv(c, s) && TreesInv(c, s) && DecisionsInv(c, s)
    requires f in s.shared.names.stage && !Decided(s.shared.names.stage[f])
    ensures Phase(s.main) < 4 && Unspoilt(c, s.shared, f)
  {
    var n := s.shared.names;
    DoneMeansDecided(c, s, f);
    assert AtStage(c, n, f, n.stage[f]);
    assert UndecidedAt(c, s.shared, f);
    assert InputAt(c, s.shared.disk, n, f);
    assert !IsSwept(SweptSoFar(c, s.main), f);
    assert OutputAt(c, s.shared.disk, n, s.shared.deletions, f);
  }

  lemma SorterKeepsPlanAt(c: Config, n: Names, i: nat, g: SorterGrip, op: NameOp, g': SorterGrip, f: Path)
    requires Places(c, n) && SorterPlace(n, i, g) && SorterOp(n, g, op, g') && PlanAt(c, n, f)
    requires op.Skip? ==> !Planned(c, op.name)
    requires op.Push? ==> Planned(c, op.name)
    ensures PlanAt(c, OnNames(n, i, op), f)
  {
  }

  lemma WorkerKeepsPlanAt(c: Config, n: Names, j: nat, g: WorkerGrip, op: NameOp, g': WorkerGrip, f: Path)
    requires Places(c, n) && WorkerPlace(n, j, g) && WorkerOp(n, g, op, g') && PlanAt(c, n, f)
    ensures PlanAt(c, OnNames(n, j, op), f)
  {
  }

  lemma SorterKeepsUndecidedAt(c: Config, sh: Shared, i: nat, t: Sorter, f: Path)
    requires Places(c, sh.names) && SorterPlace(sh.names, i, Grip(t)) && UndecidedAt(c, sh, f)
    ensures UndecidedAt(c, SorterShared(c, sh, i, t), f)
  {
    SorterTurnOp(c, sh, t);
  }

  lemma SorterKeepsStruckAt(c: Config, sh: Shared, i: nat, t: Sorter, f: Path)
    requires Places(c, sh.names) && SorterPlace(sh.names, i, Grip(t)) && SorterPlan(c, t)
    requires Grip(t).Undecided? ==> Unspoilt(c, sh, Grip(t).name)
    requires sh.outFiles <= c.output.Keys
    requires StruckAt(sh, i, t, f)
    ensures StruckAt(SorterShared(c, sh, i, t), i, SorterTurn(c, sh, t).1, f)
  {
    SorterTurnOp(c, sh, t);
    TurnFollowsPlan(c, sh, t);
  }

  lemma OthersKeepTheirs(c: Config, n: Names, i: nat, g: SorterGrip, op: NameOp, g': SorterGrip, k: nat, f: Path)
    requires Places(c, n) && SorterPlace(n, i, g) && SorterOp(n, g, op, g') && i != k
    ensures SortedBy(OnNames(n, i, op), f, k) ==> SortedBy(n, f, k) && OnNames(n, i, op).stage[f] == n.stage[f]
  {
  }

  lemma SorterKeepsOthersStruckAt(c: Config, sh: Shared, i: nat, t: Sorter, k: nat, u: Sorter, f: Path)
    requires Places(c, sh.names) && SorterPlace(sh.names, i, Grip(t)) && i != k
    requires StruckAt(sh, k, u, f)
    ensures StruckAt(SorterShared(c, sh, i, t), k, u, f)
  {
    SorterTurnOp(c, sh, t);
    OthersKeepTheirs(c, sh.names, i, Grip(t), SorterTurn(c, sh, t).0, Grip(SorterTurn(c, sh, t).1), k, f);
  }

  lemma WorkerKeepsDecided(c: Config, n: Names, j: nat, g: WorkerGrip, op: NameOp, g': WorkerGrip, f: Path)
    requires Places(c, n) && WorkerPlace(n, j, g) && WorkerOp(n, g, op, g')
    ensures f in OnNames(n, j, op).stage <==> f in n.stage
    ensures f in n.stage ==> Decided(OnNames(n, j, op).stage[f]) == Decided(n.stage[f])
  {
    assert op.Take? ==> AtStage(c, n, n.copyQueue[0], n.stage[n.copyQueue[0]]);
  }

  lemma WorkerKeepsStruckAt(c: Config, sh: Shared, j: nat, w: Worker, o: Outcome, i: nat, t: Sorter, f: Path)
    requires Places(c, sh.names) && WorkerPlace(sh.names, j, Load(w)) && WorkerCan(c, sh, w, o)
    requires StruckAt(sh, i, t, f)
    ensures StruckAt(WorkerShared(c, sh, j, w, o), i, t, f)
  {
    WorkerTurnOp(sh, w, o);
    WorkerKeepsDecided(c, sh.names, j, Load(w), WorkerTurn(sh, w, o).0, Load(WorkerTurn(sh, w, o).1), f);
  }

  lemma SorterDecisions(c: Config, s: State, i: nat)
    requires Valid(c) && ShapeInv(c, s) && PlacesInv(c, s) && TreesInv(c, s) && DecisionsInv(c, s)
    requires i < |s.sorters| && SorterRuns(s.sorters[i])
    ensures DecisionsInv(c, SorterStep(c, s, i))
  {
    var sh, t := s.shared, s.sorters[i];
    var sh', t' := SorterShared(c, sh, i, t), SorterTurn(c, sh, t).1;
    if Grip(t).Undecided? {
      UndecidedIsUnspoilt(c, s, Grip(t).name);
    }
    SorterTurnOp(c, sh, t);
    TurnFollowsPlan(c, sh, t);
    forall f
      ensures PlanAt(c, sh'.names, f) && UndecidedAt(c, sh', f) && StruckAt(sh', i, t', f)
    {
      assert PlanAt(c, sh.names, f) && UndecidedAt(c, sh, f) && StruckAt(sh, i, t, f);
      SorterKeepsPlanAt(c, sh.names, i, Grip(t), SorterTurn(c, sh, t).0, Grip(t'), f);
      SorterKeepsUndecidedAt(c, sh, i, t, f);
      SorterKeepsStruckAt(c, sh, i, t, f);
    }
    forall k, f | 0 <= k < |s.sorters| && k != i
      ensures StruckAt(sh', k, s.sorters[k], f)
    {
      assert StruckAt(sh, k, s.sorters[k], f);
      SorterKeepsOthersStruckAt(c, sh, i, t, k, s.sorters[k], f);
    }
  }

  lemma WorkerDecisions(c: Config, s: State, j: nat, o: Outcome)
    requires PlacesInv(c, s) && DecisionsInv(c, s)
    requires j < |s.workers| && WorkerCan(c, s.shared, s.workers[j], o)
    ensures DecisionsInv(c, WorkerStep(c, s, j, o))
  {
    var sh, w := s.shared, s.workers[j];
    var sh', w' := WorkerShared(c, sh, j, w, o), WorkerTurn(sh, w, o).1;
    WorkerTurnOp(sh, w, o);
    forall f
      ensures PlanAt(c, sh'.names, f) && UndecidedAt(c, sh', f)
    {
      assert PlanAt(c, sh.names, f) && UndecidedAt(c, sh, f);
      WorkerKeepsPlanAt(c, sh.names, j, Load(w), WorkerTurn(sh, w, o).0, Load(w'), f);
    }
    forall i, f | 0 <= i < |s.sorters|
      ensures StruckAt(sh', i, s.sorters[i], f)
    {
      assert StruckAt(sh, i, s.sorters[i], f);
      WorkerKeepsStruckAt(c, sh, j, w, o, i, s.sorters[i], f);
    }
  }

  lemma MainDecisions(c: Config, s: State, pick: Path)
    requires ShapeInv(c, s) && DecisionsInv(c, s) && MainEnabled(s, pick)
    ensures DecisionsInv(c, MainStep(c, s, pick))
  {
    var sh, s' := s.shared, MainStep(c, s, pick);
    assert s'.shared.names == sh.names && s'.shared.outFiles == sh.outFiles;
    forall f ensures UndecidedAt(c, s'.shared, f) {
      assert UndecidedAt(c, sh, f);
    }
    forall i, f | 0 <= i < |s.sorters|
      ensures StruckAt(s'.shared, i, s'.sorters[i], f)
    {
      assert StruckAt(sh, i, s.sorters[i], f) && SorterShape(s.main, sh, i, s.sorters[i]);
    }
  }

  /** When the sorters are done, OFilesSet holds exactly the output files without a counterpart. */
  lemma StruckOut(c: Config, s: State)
    requires Valid(c) && ShapeInv(c, s) && PlacesInv(c, s) && TreesInv(c, s) && DecisionsInv(c, s) && SortersDone(s)
    ensures s.shared.outFiles == Leftovers(c)
  {
    var n := s.shared.names;
    forall f | f in c.input
      ensures f !in s.shared.outFiles
    {
      DoneMeansDecided(c, s, f);
      assert AtStage(c, n, f, n.stage[f]);
      assert StruckAt(s.shared, n.sortedBy[f], s.sorters[n.sortedBy[f]], f);
    }
  }
}
