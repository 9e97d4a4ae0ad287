/** Termination and deadlock freedom. */
module SyncProgress {
  import opened Paths
  import opened SyncEngine
  import opened SyncShape
  import opened Sums

  // ---- Work still to do ------------------------------------------------------------------

  /** The steps a sorter and the workers still owe the sorter's name. */
  function SorterWork(): Sorter -> nat {
    (t: Sorter) =>
      match t
      case SMatch(_) => 13
      case SInTime(_) => 12
      case SOutTime(_, _) => 11
      case SInSize(_) => 10
      case SOutSize(_, _) => 9
      case SPush(_, _) => 8
      case SBytes(_, _) => 3
      case SFiles(_, _) => 2
      case SErase(_) => 1
      case _ => 0
  }

  function WorkerWork(): Worker -> nat {
    (w: Worker) =>
      match w
      case WCopy(_) => 3
      case WCopyError(_) => 1
      case WCount(_) => 2
      case WWeigh(_) => 1
      case WDelete(_) => 2
      case WDeleteError(_) => 1
      case _ => 0
  }

  function MainWork(s: State): nat
    requires MainShape(s)
  {
    var n, files, dirs := |s.workers|, 4 * |s.shared.outFiles|, |s.shared.outDirs|;
    var sorters := |s.sorters|;
    match s.main
    case MDirs(todo) => |todo| + 2 * n + 2 * sorters + 8 + dirs + files
    case MSpawn(k) => (n - k) + n + 2 * sorters + 7 + dirs + files
    case MStart(k) => (sorters - k) + n + sorters + 6 + dirs + files
    case MJoinSorter(k) => (sorters - k) + n + 5 + dirs + files
    case MLeftovers(todo) => n + 4 + dirs + 4 * |todo|
    case MRaise => n + 3 + dirs
    case MJoinWorker(k) => (n - k) + 2 + dirs
    case MCleanup(todo) => 1 + |todo|
    case MEnd => 0
  }

  function QueueWork(sh: Shared): nat {
    14 * |sh.names.inQueue| + 4 * |sh.names.copyQueue| + 3 * |sh.deletions.queue|
  }

  function Work(s: State): nat
    requires MainShape(s)
  {
    QueueWork(s.shared) + Sum(s.sorters, SorterWork()) + Sum(s.workers, WorkerWork()) + MainWork(s)
  }

  // ---- Polling ---------------------------------------------------------------------------

  /** How many steps a sorter may take before it changes anything shared. */
  function SorterRank(sh: Shared): Sorter -> nat {
    (t: Sorter) =>
      match t
      case SLoop => if sh.names.inQueue == [] then 1 else 2
      case SPop => if sh.names.inQueue == [] then 2 else 1
      case _ => 0
  }

  /** How many steps a worker may take before it changes anything shared, unless it has nothing to do but wait. */
  function WorkerRank(sh: Shared): Worker -> nat {
    (w: Worker) =>
      if sh.names.copyQueue != [] then
        match w
        case WPopDelete => 6
        case WFlag => 5
        case WCopyTest => 4
        case WDeleteTest => 4
        case WWait => 3
        case WPopCopy => 2
        case _ => 0
      else if sh.deletions.queue != [] then
        match w
        case WFlag => 6
        case WCopyTest => 5
        case WDeleteTest => 4
        case WWait => 3
        case WPopCopy => 2
        case WPopDelete => 1
        case _ => 0
      else if sh.doneStuff then
        match w
        case WWait => 6
        case WPopCopy => 5
        case WPopDelete => 4
        case WFlag => 3
        case WCopyTest => 2
        case WDeleteTest => 1
        case _ => 0
      else 0
  }

  function Rank(s: State): nat {
    Sum(s.sorters, SorterRank(s.shared)) + Sum(s.workers, WorkerRank(s.shared))
  }

  /** A worker that looks again while there is nothing to do and the flag is down. */
  predicate Idles(s: State, a: Action) {
    && a.WorkerAct? && a.id < |s.workers|
    && !s.shared.doneStuff && s.shared.names.copyQueue == [] && s.shared.deletions.queue == []
    && (s.workers[a.id].WFlag? || s.workers[a.id].WWait? || s.workers[a.id].WPopCopy? || s.workers[a.id].WPopDelete?)
  }

  ghost predicate Falls(s: State, s': State)
    requires MainShape(s) && MainShape(s')
  {
    Work(s') < Work(s) || (Work(s') == Work(s) && Rank(s') < Rank(s))
  }

  lemma SorterTurnFalls(c: Config, sh: Shared, i: nat, t: Sorter)
    requires SorterRuns(t)
    ensures var sh', t' := SorterShared(c, sh, i, t), SorterTurn(c, sh, t).1;
      || QueueWork(sh') + SorterWork()(t') < QueueWork(sh) + SorterWork()(t)
      || (sh' == sh && SorterWork()(t') == SorterWork()(t) && SorterRank(sh)(t') < SorterRank(sh)(t))
  {
  }

  lemma WorkerTurnFalls(c: Config, sh: Shared, j: nat, w: Worker, o: Outcome)
    requires WorkerCan(c, sh, w, o)
    requires w.WCopyTest? || w.WDeleteTest? ==> sh.doneStuff
    requires w.WDeleteTest? ==> sh.names.copyQueue == []
    ensures var sh', w' := WorkerShared(c, sh, j, w, o), WorkerTurn(sh, w, o).1;
      || QueueWork(sh') + WorkerWork()(w') < QueueWork(sh) + WorkerWork()(w)
      || (sh' == sh && WorkerWork()(w') == WorkerWork()(w)
          && if !sh.doneStuff && sh.names.copyQueue == [] && sh.deletions.queue == [] then
               WorkerRank(sh)(w') == WorkerRank(sh)(w)
             else
               WorkerRank(sh)(w') < WorkerRank(sh)(w))
  {
  }

  lemma SorterFalls(c: Config, s: State, i: nat)
    requires ShapeInv(c, s) && i < |s.sorters| && SorterRuns(s.sorters[i])
    requires MainShape(SorterStep(c, s, i))
    ensures Falls(s, SorterStep(c, s, i))
  {
    var sh, t := s.shared, s.sorters[i];
    var t' := SorterTurn(c, sh, t).1;
    SorterTurnFalls(c, sh, i, t);
    SumUpdate(s.sorters, i, t', SorterWork());
    SumUpdate(s.sorters, i, t', SorterRank(sh));
    assert MainWork(SorterStep(c, s, i)) <= MainWork(s) by {
      assert t.SErase? ==> sh.outFiles == (sh.outFiles - {t.file}) + (sh.outFiles * {t.file});
    }
  }

  lemma WorkerFalls(c: Config, s: State, j: nat, o: Outcome)
    requires ShapeInv(c, s) && j < |s.workers| && WorkerCan(c, s.shared, s.workers[j], o)
    requires MainShape(WorkerStep(c, s, j, o))
    ensures var s' := WorkerStep(c, s, j, o);
      if Idles(s, WorkerAct(j, o)) then
        s'.shared == s.shared && s'.main == s.main && s'.sorters == s.sorters
              && Work(s') == Work(s) && Rank(s') == Rank(s)
      else
        Falls(s, s')
  {
    var sh, w := s.shared, s.workers[j];
    var s', w' := WorkerStep(c, s, j, o), WorkerTurn(sh, w, o).1;
    assert WorkerShape(s.main, sh, j, w);
    WorkerTurnFalls(c, sh, j, w, o);
    SumUpdate(s.workers, j, w', WorkerWork());
    SumUpdate(s.workers, j, w', WorkerRank(sh));
    assert s'.main == s.main && s'.sorters == s.sorters;
    assert s'.shared.outFiles == sh.outFiles && s'.shared.outDirs == sh.outDirs;
    assert MainWork(s') == MainWork(s);
  }

  lemma StartFalls(c: Config, s: State, pick: Path)
    requires ShapeInv(c, s) && MainEnabled(s, pick) && (s.main.MSpawn? || s.main.MStart?)
    requires MainShape(MainStep(c, s, pick))
    ensures Work(MainStep(c, s, pick)) < Work(s)
  {
    match s.main
    case MSpawn(k) =>
      if k < |s.workers| {
        assert WorkerShape(s.main, s.shared, k, s.workers[k]);
        SumUpdate(s.workers, k, WFlag, WorkerWork());
      }
    case MStart(k) =>
      if k < |s.sorters| {
        assert SorterShape(s.main, s.shared, k, s.sorters[k]);
        SumUpdate(s.sorters, k, SLoop, SorterWork());
      }
  }

  lemma ElementsFall(all: set<Path>, d: Path)
    requires d in all
    ensures |all - {d}| < |all|
  {
  }

  predicate MainWorkFalls(c: Config, s: State, pick: Path)
    requires MainShape(s) && MainShape(MainStep(c, s, pick))
  {
    var s' := MainStep(c, s, pick);
    && QueueWork(s'.shared) + MainWork(s') < QueueWork(s.shared) + MainWork(s)
    && s'.sorters == s.sorters && s'.workers == s.workers
  }

  lemma DirsFall(c: Config, s: State, pick: Path)
    requires MainShape(s) && MainEnabled(s, pick) && (s.main.MDirs? || s.main.MCleanup?)
    requires MainShape(MainStep(c, s, pick))
    ensures MainWorkFalls(c, s, pick)
  {
    if s.main.todo != {} {
      ElementsFall(s.main.todo, pick);
      if s.main.MDirs? && pick in s.shared.outDirs {
        ElementsFall(s.shared.outDirs, pick);
      }
    }
  }

  /** In all other phases the threads stay as they are. */
  lemma MainFallsOtherwise(c: Config, s: State, pick: Path)
    requires MainShape(s) && MainEnabled(s, pick) && !s.main.MSpawn? && !s.main.MStart?
    requires MainShape(MainStep(c, s, pick))
    ensures MainWorkFalls(c, s, pick)
  {
    if s.main.MDirs? || s.main.MCleanup? {
      DirsFall(c, s, pick);
    } else if s.main.MLeftovers? && s.main.todo != {} {
      ElementsFall(s.main.todo, pick);
    }
  }

  lemma MainFalls(c: Config, s: State, pick: Path)
    requires ShapeInv(c, s) && MainEnabled(s, pick)
    requires MainShape(MainStep(c, s, pick))
    ensures Work(MainStep(c, s, pick)) < Work(s)
  {
    if s.main.MSpawn? || s.main.MStart? {
      StartFalls(c, s, pick);
    } else {
      MainFallsOtherwise(c, s, pick);
    }
  }

  // ---- The measure as one number ---------------------------------------------------------

  /** More than any Rank with the given number of workers. */
  function Scale(c: Config): nat {
    2 * SORTERS + 6 * c.processors + 1
  }

  /** n * k, by repeated addition. */
  function Times(n: nat, k: nat): nat {
    if n == 0 then 0 else Times(n - 1, k) + k
  }

  lemma {:induction false} TimesGrows(m: nat, n: nat, k: nat)
    requires m < n
    ensures Times(m, k) + k <= Times(n, k)
  {
    if m < n - 1 {
      TimesGrows(m, n - 1, k);
    }
  }

  lemma {:induction false} TimesIsProduct(n: nat, k: nat)
    ensures Times(n, k) == n * k
  {
    if n > 0 {
      TimesIsProduct(n - 1, k);
    }
  }

  function Potential(c: Config, s: State): nat
    requires MainShape(s)
  {
    Times(Work(s), Scale(c)) + Rank(s)
  }

  lemma RankBound(c: Config, s: State)
    requires Sized(c, s)
    ensures Rank(s) < Scale(c)
  {
    SumBound(s.sorters, SorterRank(s.shared), 2);
    SumBound(s.workers, WorkerRank(s.shared), 6);
  }

  lemma FallsLowers(c: Config, s: State, s': State)
    requires Sized(c, s') && MainShape(s) && MainShape(s') && Falls(s, s')
    ensures Potential(c, s') < Potential(c, s)
  {
    RankBound(c, s');
    if Work(s') < Work(s) {
      TimesGrows(Work(s'), Work(s), Scale(c));
    }
  }

  lemma ActFalls(c: Config, s: State, a: Action, s': State)
    requires ShapeInv(c, s) && ShapeInv(c, s') && Takes(c, s, a, s')
    ensures if Idles(s, a) then
              s'.shared == s.shared && s'.main == s.main && s'.sorters == s.sorters
              && Work(s') == Work(s) && Rank(s') == Rank(s)
            else
              Falls(s, s')
  {
    match a
    case MainAct(pick) => MainFalls(c, s, pick);
    case SorterAct(i) => SorterFalls(c, s, i);
    case WorkerAct(j, o) => WorkerFalls(c, s, j, o);
  }

  /**
    Every step either lowers the potential, or is a worker looking again while the flag is
    down and there is nothing to do, which changes nothing but that worker's position.
   */
  lemma StepFalls(c: Config, s: State, a: Action, s': State)
    requires ShapeInv(c, s) && Takes(c, s, a, s')
    ensures ShapeInv(c, s')
    ensures if Idles(s, a) then
              Potential(c, s') == Potential(c, s)
              && s'.shared == s.shared && s'.main == s.main && s'.sorters == s.sorters
            else
              Potential(c, s') < Potential(c, s)
  {
    ShapeStep(c, s, a, s');
    ActFalls(c, s, a, s');
    if !Idles(s, a) {
      FallsLowers(c, s, s');
    }
  }

  /** The steps among the first n of a run that are not idle. */
  function BusySteps(states: seq<State>, acts: seq<Action>, n: nat): nat
    requires n <= |acts| < |states|
  {
    if n == 0 then 0 else BusySteps(states, acts, n - 1) + if Idles(states[n - 1], acts[n - 1]) then 0 else 1
  }

  lemma {:induction false} RunShapes(c: Config, states: seq<State>, acts: seq<Action>, n: nat)
    requires Run(c, states, acts) && n <= |acts|
    ensures ShapeInv(c, states[n])
  {
    if n == 0 {
      InitShape(c);
    } else {
      var k := n - 1;
      RunShapes(c, states, acts, k);
      assert Takes(c, states[k], acts[k], states[k + 1]);
      ShapeStep(c, states[k], acts[k], states[k + 1]);
    }
  }

  lemma BusyStep(c: Config, states: seq<State>, acts: seq<Action>, k: nat)
    requires Run(c, states, acts) && k < |acts|
    ensures ShapeInv(c, states[k]) && ShapeInv(c, states[k + 1])
    ensures BusySteps(states, acts, k + 1) + Potential(c, states[k + 1])
            <= BusySteps(states, acts, k) + Potential(c, states[k])
  {
    RunShapes(c, states, acts, k);
    assert Takes(c, states[k], acts[k], states[k + 1]);
    StepFalls(c, states[k], acts[k], states[k + 1]);
  }

  /** Termination: no run, however long, has more busy steps than the potential it starts with. */
  lemma {:induction false} BusyStepsBounded(c: Config, states: seq<State>, acts: seq<Action>, n: nat)
    requires Run(c, states, acts) && n <= |acts|
    ensures ShapeInv(c, states[n]) && ShapeInv(c, states[0])
    ensures BusySteps(states, acts, n) + Potential(c, states[n]) <= Potential(c, states[0])
  {
    RunShapes(c, states, acts, n);
    RunShapes(c, states, acts, 0);
    if n > 0 {
      BusyStepsBounded(c, states, acts, n - 1);
      BusyStep(c, states, acts, n - 1);
    }
  }

  lemma InitWork(c: Config)
    ensures MainShape(Init(c))
    ensures Work(Init(c)) == 14 * |c.files| + 4 * |c.output.Keys| + |c.inDirs| + |c.outDirs| + 2 * c.processors + 16
  {
    SumZero(Init(c).sorters, SorterWork());
    SumZero(Init(c).workers, WorkerWork());
  }

  lemma InitRank(c: Config)
    ensures Rank(Init(c)) == 0
  {
    SumZero(Init(c).sorters, SorterRank(Init(c).shared));
    SumZero(Init(c).workers, WorkerRank(Init(c).shared));
  }

  lemma InitPotential(c: Config)
    ensures MainShape(Init(c))
    ensures Potential(c, Init(c)) ==
              (14 * |c.files| + 4 * |c.output.Keys| + |c.inDirs| + |c.outDirs| + 2 * c.processors + 16)
              * (6 * c.processors + 9)
  {
    InitWork(c);
    InitRank(c);
    TimesIsProduct(Work(Init(c)), Scale(c));
  }

  /** In numbers: so many busy steps at most, for this many files, directories and workers. */
  lemma BusyStepsCounted(c: Config, states: seq<State>, acts: seq<Action>)
    requires Run(c, states, acts)
    ensures BusySteps(states, acts, |acts|) <=
              (14 * |c.files| + 4 * |c.output.Keys| + |c.inDirs| + |c.outDirs| + 2 * c.processors + 16)
              * (6 * c.processors + 9)
  {
    BusyStepsBounded(c, states, acts, |acts|);
    InitPotential(c);
  }
}
