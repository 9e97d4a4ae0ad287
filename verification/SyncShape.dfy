/** Phases, joins and the shutdown protocol. */
module SyncShape {
  import opened Paths
  import opened SyncEngine

  /** Sorter i runs once main has started it. */
  predicate SorterStarted(m: Main, i: nat) {
    Phase(m) > 2 || (m.MStart? && i < m.next)
  }

  predicate WorkerStarted(m: Main, j: nat) {
    Phase(m) > 1 || (m.MSpawn? && j < m.next)
  }

  predicate SorterShape(m: Main, sh: Shared, i: nat, t: Sorter) {
    && (t.SIdle? <==> !SorterStarted(m, i))
    && (t.SExit? ==> sh.names.inQueue == [])
  }

  /** The exit test reads the flag and the two queues one after the other; what it has read stays true. */
  predicate WorkerShape(m: Main, sh: Shared, j: nat, w: Worker) {
    && (w.WIdle? <==> !WorkerStarted(m, j))
    && (w.WCopyTest? || w.WDeleteTest? || w.WExit? ==> sh.doneStuff)
    && (w.WDeleteTest? || w.WExit? ==> sh.names.copyQueue == [])
    && (w.WExit? ==> sh.deletions.queue == [])
    && (w.WDelete? || w.WDeleteError? ==> Phase(m) >= 4)
  }

  predicate SortersDone(s: State) {
    forall i :: 0 <= i < |s.sorters| ==> s.sorters[i].SExit?
  }

  predicate WorkersDone(s: State) {
    forall j :: 0 <= j < |s.workers| ==> s.workers[j].WExit?
  }

  /** The threads main has started or joined so far. */
  predicate Joined(s: State) {
    match s.main
    case MSpawn(k) => k <= |s.workers|
    case MStart(k) => k <= |s.sorters|
    case MJoinSorter(k) => k <= |s.sorters| && forall i :: 0 <= i < k ==> s.sorters[i].SExit?
    case MJoinWorker(k) => k <= |s.workers| && forall j :: 0 <= j < k ==> s.workers[j].WExit?
    case _ => true
  }

  predicate MainShape(s: State) {
    && Joined(s)
    && (Phase(s.main) >= 4 ==> SortersDone(s))
    && (Phase(s.main) >= 7 ==> WorkersDone(s))
    && (s.shared.doneStuff <==> Phase(s.main) >= 6)
    && (Phase(s.main) < 4 ==> s.shared.deletions == Deletions([], [], map[]))
  }

  ghost predicate Sized(c: Config, s: State) {
    |s.sorters| == SORTERS && |s.workers| == c.processors
  }

  ghost predicate ShapeInv(c: Config, s: State) {
    && Sized(c, s)
    && MainShape(s)
    && (forall i :: 0 <= i < |s.sorters| ==> SorterShape(s.main, s.shared, i, s.sorters[i]))
    && (forall j :: 0 <= j < |s.workers| ==> WorkerShape(s.main, s.shared, j, s.workers[j]))
  }

  lemma InitShape(c: Config)
    ensures ShapeInv(c, Init(c))
  {
  }

  lemma StartShapeStep(c: Config, s: State, pick: Path)
    requires ShapeInv(c, s) && MainEnabled(s, pick) && (s.main.MSpawn? || s.main.MStart?)
    ensures ShapeInv(c, MainStep(c, s, pick))
  {
  }

  lemma OtherShapeStep(c: Config, s: State, pick: Path)
    requires ShapeInv(c, s) && MainEnabled(s, pick) && !s.main.MSpawn? && !s.main.MStart?
    ensures ShapeInv(c, MainStep(c, s, pick))
  {
  }

  lemma MainShapeStep(c: Config, s: State, pick: Path)
    requires ShapeInv(c, s) && MainEnabled(s, pick)
    ensures ShapeInv(c, MainStep(c, s, pick))
  {
    if s.main.MSpawn? || s.main.MStart? {
      StartShapeStep(c, s, pick);
    } else {
      OtherShapeStep(c, s, pick);
    }
  }

  lemma SorterShapeStep(c: Config, s: State, i: nat)
    requires ShapeInv(c, s) && i < |s.sorters| && SorterRuns(s.sorters[i])
    ensures ShapeInv(c, SorterStep(c, s, i))
  {
  }

  lemma WorkerShapeStep(c: Config, s: State, j: nat, o: Outcome)
    requires ShapeInv(c, s) && j < |s.workers| && WorkerCan(c, s.shared, s.workers[j], o)
    ensures ShapeInv(c, WorkerStep(c, s, j, o))
  {
    assert !WorkersDone(s);
  }

  lemma ShapeStep(c: Config, s: State, a: Action, s': State)
    requires ShapeInv(c, s) && Takes(c, s, a, s')
    ensures ShapeInv(c, s')
  {
    match a
    case MainAct(pick) => MainShapeStep(c, s, pick);
    case SorterAct(i) => SorterShapeStep(c, s, i);
    case WorkerAct(j, o) => WorkerShapeStep(c, s, j, o);
  }
}
