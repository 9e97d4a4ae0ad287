/**
  What must have happened before a worker can remove a directory by its queued name: everything
  that the two trees list below it has been removed by name too.
 */
module SyncCascade {
  import opened Paths
  import opened SyncEngine
  import opened SyncShape
  import opened SyncPlaces
  import opened SyncPlan
  import opened SyncDirs
  import opened SyncDeletions
  import opened SyncTrees
  import opened SyncDecisions
  import opened SyncCounters
  import opened SyncInvariant
  import opened SyncResults

  /** All names that are listed in either tree. */
  function Listing(c: Config): set<Path> {
    c.output.Keys + c.inDirs + c.outDirs
  }

  /** Directory d and what is listed below it, but for input files that the output lacks. */
  function Below(c: Config, d: Path): set<Path> {
    set x | x in Listing(c) && AtOrUnder(d, x)
  }

  // ---- Removal goes bottom up ------------------------------------------------------------------

  /** A file of the output is there until it is removed by its name. */
  predicate KeptAt(c: Config, s: State, x: Path) {
    x in c.output ==> x in s.shared.disk.output || Gone(s.shared.deletions, x)
  }

  predicate CascadeAt(c: Config, ds: Deletions, d: Path, x: Path) {
    d in c.inDirs + c.outDirs && Gone(ds, d) && x in Below(c, d) ==> Gone(ds, x)
  }

  ghost predicate CascadeInv(c: Config, s: State) {
    && (Phase(s.main) < 7 ==> forall x :: KeptAt(c, s, x))
    && (forall d, x :: CascadeAt(c, s.shared.deletions, d, x))
  }

  lemma InitCascade(c: Config)
    ensures CascadeInv(c, Init(c))
  {
  }

  lemma WorkerKeeps(c: Config, sh: Shared, j: nat, w: Worker, o: Outcome, x: Path)
    requires WorkerCan(c, sh, w, o) && Orders(c, sh.deletions) && WorkerOrder(sh.deletions, j, Deletes(w))
    requires x in sh.disk.output || Gone(sh.deletions, x)
    ensures var sh' := WorkerShared(c, sh, j, w, o); x in sh'.disk.output || Gone(sh'.deletions, x)
  {
  }

  /** An empty directory has nothing of the listing left below it. */
  lemma EmptyBelow(c: Config, s: State, d: Path, x: Path)
    requires DirsInv(c, s) && 4 <= Phase(s.main) < 7 && KeptAt(c, s, x)
    requires IsEmptyDir(s.shared.disk, d) && x in Below(c, d) && x != d
    ensures Gone(s.shared.deletions, x)
  {
  }

  lemma WorkerCascadeAt(c: Config, s: State, j: nat, o: Outcome, d: Path, x: Path)
    requires OrdersInv(c, s) && DirsInv(c, s) && CascadeInv(c, s) && 1 <= Phase(s.main) < 7
    requires j < |s.workers| && WorkerCan(c, s.shared, s.workers[j], o)
    requires s.workers[j].WDelete? ==> 4 <= Phase(s.main)
    ensures CascadeAt(c, WorkerDeletions(s.shared.deletions, j, s.workers[j], o), d, x)
  {
    var ds, w := s.shared.deletions, s.workers[j];
    assert WorkerOrder(ds, j, Deletes(w));
    assert CascadeAt(c, ds, d, x) && KeptAt(c, s, x);
    if w.WDelete? && o.Success? && w.file == d && d in c.inDirs + c.outDirs && x in Below(c, d) && x != d {
      assert !Gone(ds, d) && d in s.shared.disk.dirs;
      EmptyBelow(c, s, d, x);
    }
  }

  lemma WorkerCascade(c: Config, s: State, j: nat, o: Outcome)
    requires ShapeInv(c, s) && OrdersInv(c, s) && DirsInv(c, s) && CascadeInv(c, s)
    requires j < |s.workers| && WorkerCan(c, s.shared, s.workers[j], o)
    ensures CascadeInv(c, WorkerStep(c, s, j, o))
  {
    var w, s' := s.workers[j], WorkerStep(c, s, j, o);
    assert WorkerShape(s.main, s.shared, j, w) && WorkerOrder(s.shared.deletions, j, Deletes(w)) && !WorkersDone(s);
    forall x ensures KeptAt(c, s', x) {
      assert KeptAt(c, s, x);
      if x in c.output {
        WorkerKeeps(c, s.shared, j, w, o, x);
      }
    }
    forall d, x ensures CascadeAt(c, s'.shared.deletions, d, x) {
      WorkerCascadeAt(c, s, j, o, d, x);
    }
  }

  lemma MainCascade(c: Config, s: State, pick: Path)
    requires ShapeInv(c, s) && OrdersInv(c, s) && CascadeInv(c, s) && MainEnabled(s, pick)
    ensures CascadeInv(c, MainStep(c, s, pick))
  {
    var ds, s' := s.shared.deletions, MainStep(c, s, pick);
    if s.main.MLeftovers? && s.main.todo != {} {
      EntriesGrow(c, Leftovers(c), s.main.todo, pick);
    }
    forall x ensures Gone(s'.shared.deletions, x) == Gone(ds, x) {
    }
    forall x ensures Phase(s'.main) < 7 ==> KeptAt(c, s', x) {
      assert Phase(s.main) < 7 ==> KeptAt(c, s, x);
    }
    forall d, x ensures CascadeAt(c, s'.shared.deletions, d, x) {
      assert CascadeAt(c, ds, d, x);
    }
  }

  lemma SorterCascade(c: Config, s: State, i: nat)
    requires CascadeInv(c, s) && i < |s.sorters|
    ensures CascadeInv(c, SorterStep(c, s, i))
  {
    var s' := SorterStep(c, s, i);
    forall x ensures Phase(s.main) < 7 ==> KeptAt(c, s', x) {
      assert Phase(s.main) < 7 ==> KeptAt(c, s, x);
    }
  }

  lemma StepCascade(c: Config, s: State, a: Action)
    requires Inv(c, s) && CascadeInv(c, s) && Enabled(c, s, a)
    ensures CascadeInv(c, Step(c, s, a))
  {
    match a
    case MainAct(pick) => MainCascade(c, s, pick);
    case SorterAct(i) => SorterCascade(c, s, i);
    case WorkerAct(j, o) => WorkerCascade(c, s, j, o);
  }

  // ---- A single worker must copy between two deletions -----------------------------------------

  /** The names whose deletion a worker has begun. */
  function Begun(ds: Deletions): set<Path> {
    set e | e in ds.fate && !ds.fate[e].Listed?
  }

  /** The names whose copy a worker has begun. */
  function TouchedNames(n: Names): set<Path> {
    set f | f in n.stage && Touched(n, f)
  }

  predicate InCopy(w: Worker) {
    w.WCopy? || w.WCopyError? || w.WCount? || w.WWeigh? || w.WPopDelete?
  }

  /** While a planned file is untouched every deletion but the first has cost a copy. */
  predicate Paced(begun: nat, touched: nat, allTouched: bool, w: Worker) {
    && (begun + One(InCopy(w)) <= touched + 1 || allTouched)
    && (w.WCopy? ==> begun <= touched)
  }

  ghost predicate AllTouched(c: Config, n: Names) {
    forall f :: Planned(c, f) ==> Touched(n, f)
  }

  ghost predicate PaceInv(c: Config, s: State) {
    |s.workers| == 1 ==>
      Paced(|Begun(s.shared.deletions)|, |TouchedNames(s.shared.names)|, AllTouched(c, s.shared.names), s.workers[0])
  }

  lemma BegunAfter(c: Config, ds: Deletions, j: nat, w: Worker, o: Outcome)
    requires Orders(c, ds) && WorkerOrder(ds, j, Deletes(w))
    ensures Begun(WorkerDeletions(ds, j, w, o))
            == Begun(ds) + if w.WPopDelete? && ds.queue != [] then {ds.queue[0]} else {}
    ensures w.WPopDelete? && ds.queue != [] ==> ds.queue[0] !in Begun(ds)
  {
    assert w.WPopDelete? && ds.queue != [] ==> ds.queue[0] in ds.queue;
  }

  lemma TouchedAfter(c: Config, n: Names, j: nat, g: WorkerGrip, op: NameOp, g': WorkerGrip)
    requires Places(c, n) && WorkerPlace(n, j, g) && WorkerOp(n, g, op, g')
    ensures TouchedNames(OnNames(n, j, op)) == TouchedNames(n) + if op.Take? then {n.copyQueue[0]} else {}
    ensures op.Take? ==> n.copyQueue[0] !in TouchedNames(n)
  {
    assert op.Take? ==> n.copyQueue[0] in n.copyQueue && AtStage(c, n, n.copyQueue[0], n.stage[n.copyQueue[0]]);
  }

  lemma PacedTurn(sh: Shared, w: Worker, o: Outcome, begun: nat, touched: nat, before: bool, after: bool)
    requires Paced(begun, touched, before, w) && (before ==> after)
    requires begun == 0 || before || sh.names.copyQueue != []
    requires before ==> sh.names.copyQueue == []
    ensures var (op, w') := WorkerTurn(sh, w, o);
      Paced(begun + One(w.WPopDelete? && sh.deletions.queue != []), touched + One(op.Take?), after, w')
  {
  }

  lemma Counted(c: Config, sh: Shared, w: Worker, o: Outcome)
    requires Places(c, sh.names) && WorkerPlace(sh.names, 0, Load(w))
    requires Orders(c, sh.deletions) && WorkerOrder(sh.deletions, 0, Deletes(w))
    ensures var op := WorkerTurn(sh, w, o).0;
      && |Begun(WorkerDeletions(sh.deletions, 0, w, o))|
         == |Begun(sh.deletions)| + One(w.WPopDelete? && sh.deletions.queue != [])
      && |TouchedNames(OnNames(sh.names, 0, op))| == |TouchedNames(sh.names)| + One(op.Take?)
      && (AllTouched(c, sh.names) ==> AllTouched(c, OnNames(sh.names, 0, op)))
  {
    WorkerTurnOp(sh, w, o);
    BegunAfter(c, sh.deletions, 0, w, o);
    TouchedAfter(c, sh.names, 0, Load(w), WorkerTurn(sh, w, o).0, Load(WorkerTurn(sh, w, o).1));
    forall f | Touched(sh.names, f) ensures Touched(OnNames(sh.names, 0, WorkerTurn(sh, w, o).0), f) {
      assert f in TouchedNames(sh.names) && f in TouchedNames(OnNames(sh.names, 0, WorkerTurn(sh, w, o).0));
    }
  }

  lemma WorkerPace(c: Config, sh: Shared, w: Worker, o: Outcome)
    requires Places(c, sh.names) && WorkerPlace(sh.names, 0, Load(w)) && WorkerCan(c, sh, w, o)
    requires Orders(c, sh.deletions) && WorkerOrder(sh.deletions, 0, Deletes(w))
    requires Paced(|Begun(sh.deletions)|, |TouchedNames(sh.names)|, AllTouched(c, sh.names), w)
    requires sh.deletions.fate == map[] || AllTouched(c, sh.names) || sh.names.copyQueue != []
    requires AllTouched(c, sh.names) ==> sh.names.copyQueue == []
    ensures var sh' := WorkerShared(c, sh, 0, w, o);
      Paced(|Begun(sh'.deletions)|, |TouchedNames(sh'.names)|, AllTouched(c, sh'.names), WorkerTurn(sh, w, o).1)
  {
    Counted(c, sh, w, o);
    assert sh.deletions.fate == map[] ==> Begun(sh.deletions) == {};
    PacedTurn(sh, w, o, |Begun(sh.deletions)|, |TouchedNames(sh.names)|,
              AllTouched(c, sh.names), AllTouched(c, OnNames(sh.names, 0, WorkerTurn(sh, w, o).0)));
  }

  /** While a planned file is untouched and a deletion listed, some file is in the copy queue, and only then. */
  lemma QueuedOrTouched(c: Config, s: State)
    requires Inv(c, s)
    ensures s.shared.deletions.fate == map[] || AllTouched(c, s.shared.names) || s.shared.names.copyQueue != []
    ensures AllTouched(c, s.shared.names) ==> s.shared.names.copyQueue == []
  {
    var n := s.shared.names;
    if n.copyQueue != [] {
      var f := n.copyQueue[0];
      assert f in n.copyQueue && AtStage(c, n, f, n.stage[f]) && PlanAt(c, n, f);
    } else if Phase(s.main) >= 4 {
      forall f | Planned(c, f) ensures Touched(n, f) {
        DoneMeansDecided(c, s, f);
        assert AtStage(c, n, f, n.stage[f]) && PlanAt(c, n, f);
      }
    }
  }

  lemma SorterPace(c: Config, s: State, i: nat)
    requires PlacesInv(c, s) && PaceInv(c, s) && i < |s.sorters|
    ensures PaceInv(c, SorterStep(c, s, i))
  {
    var sh, t := s.shared, s.sorters[i];
    var n' := SorterStep(c, s, i).shared.names;
    SorterTurnOp(c, sh, t);
    forall f ensures Touched(sh.names, f) == Touched(n', f) {
      TouchGrows(sh.names, i, SorterTurn(c, sh, t).0, Grip(t), Grip(SorterTurn(c, sh, t).1), f);
    }
    assert TouchedNames(n') == TouchedNames(sh.names);
  }

  lemma MainPace(c: Config, s: State, pick: Path)
    requires ShapeInv(c, s) && OrdersInv(c, s) && PaceInv(c, s) && MainEnabled(s, pick)
    ensures PaceInv(c, MainStep(c, s, pick))
  {
    if s.main.MLeftovers? && s.main.todo != {} {
      EntriesGrow(c, Leftovers(c), s.main.todo, pick);
    }
    assert Begun(MainStep(c, s, pick).shared.deletions) == Begun(s.shared.deletions);
    assert forall j :: 0 <= j < |s.workers| ==> WorkerShape(s.main, s.shared, j, s.workers[j]);
  }

  lemma StepPace(c: Config, s: State, a: Action)
    requires Inv(c, s) && PaceInv(c, s) && Enabled(c, s, a)
    ensures PaceInv(c, Step(c, s, a))
  {
    match a
    case MainAct(pick) => MainPace(c, s, pick);
    case SorterAct(i) => SorterPace(c, s, i);
    case WorkerAct(j, o) =>
      if |s.workers| == 1 {
        var w := s.workers[0];
        assert WorkerPlace(s.shared.names, 0, Load(w)) && WorkerOrder(s.shared.deletions, 0, Deletes(w));
        QueuedOrTouched(c, s);
        WorkerPace(c, s.shared, s.workers[0], o);
      }
  }

  // ---- Every run -------------------------------------------------------------------------------

  lemma RunStepCascade(c: Config, states: seq<State>, acts: seq<Action>, k: nat)
    requires Valid(c) && Run(c, states, acts) && k < |acts| && CascadeInv(c, states[k])
    ensures CascadeInv(c, states[k + 1])
  {
    assert Takes(c, states[k], acts[k], states[k + 1]);
    RunInv(c, states, acts, k);
    StepCascade(c, states[k], acts[k]);
  }

  lemma RunStepPace(c: Config, states: seq<State>, acts: seq<Action>, k: nat)
    requires Valid(c) && Run(c, states, acts) && k < |acts| && PaceInv(c, states[k])
    ensures PaceInv(c, states[k + 1])
  {
    assert Takes(c, states[k], acts[k], states[k + 1]);
    RunInv(c, states, acts, k);
    StepPace(c, states[k], acts[k]);
  }

  lemma {:induction false} RunCascade(c: Config, states: seq<State>, acts: seq<Action>, k: nat)
    requires Valid(c) && Run(c, states, acts) && k <= |acts|
    ensures CascadeInv(c, states[k]) && PaceInv(c, states[k])
  {
    if k == 0 {
      InitCascade(c);
      InitPace(c);
    } else {
      RunCascade(c, states, acts, k - 1);
      RunStepCascade(c, states, acts, k - 1);
      RunStepPace(c, states, acts, k - 1);
    }
  }

  lemma InitPace(c: Config)
    ensures PaceInv(c, Init(c))
  {
    assert Begun(Init(c).shared.deletions) == {};
  }

  lemma ReachableCascade(c: Config, s: State)
    requires Valid(c) && Reachable(c, s)
    ensures CascadeInv(c, s) && PaceInv(c, s)
  {
    var states, acts :| Run(c, states, acts) && states[|acts|] == s;
    RunCascade(c, states, acts, |acts|);
  }

  /** Where a directory of either tree has been removed by its name, so has everything that the trees list below it. */
  lemma RemovedBottomUp(c: Config, s: State, d: Path)
    requires Valid(c) && Reachable(c, s) && d in c.inDirs + c.outDirs && Gone(s.shared.deletions, d)
    ensures Below(c, d) <= GoneNames(s.shared.deletions)
  {
    ReachableCascade(c, s);
    forall x | x in Below(c, d) ensures x in GoneNames(s.shared.deletions) {
      assert CascadeAt(c, s.shared.deletions, d, x);
    }
  }

  lemma TouchedArePlanned(c: Config, s: State)
    requires PlacesInv(c, s) && DecisionsInv(c, s)
    ensures |TouchedNames(s.shared.names)| <= |PlannedNames(c)|
  {
    PushedArePlanned(c, s);
    SubsetSize(TouchedNames(s.shared.names), PlannedNames(c));
  }

  /** When a single worker has a file in hand no more names have been removed than files are planned. */
  lemma FewRemoved(c: Config, s: State)
    requires Valid(c) && Reachable(c, s) && |s.workers| == 1 && s.workers[0].WCopy?
    ensures |GoneNames(s.shared.deletions)| <= |PlannedNames(c)|
  {
    ReachableCascade(c, s);
    assert |TouchedNames(s.shared.names)| <= |PlannedNames(c)| by {
      ReachableInv(c, s);
      TouchedArePlanned(c, s);
    }
    SubsetSize(GoneNames(s.shared.deletions), Begun(s.shared.deletions));
  }
}
