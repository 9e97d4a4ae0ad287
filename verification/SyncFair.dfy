/** Under a fair scheduler every call returns. */
module SyncFair {
  import opened Paths
  import opened SyncEngine
  import opened SyncShape
  import opened SyncProgress
  import opened SyncSchedules

  datatype Thread = MainThread | SorterThread(id: nat) | WorkerThread(id: nat)

  function Who(a: Action): Thread {
    match a
    case MainAct(_) => MainThread
    case SorterAct(i) => SorterThread(i)
    case WorkerAct(j, _) => WorkerThread(j)
  }

  /** The thread can take a step: it runs and is not waiting for another one to end. */
  predicate CanRun(s: State, t: Thread) {
    match t
    case MainThread =>
      && !s.main.MEnd?
      && (s.main.MJoinSorter? && s.main.next < |s.sorters| ==> s.sorters[s.main.next].SExit?)
      && (s.main.MJoinWorker? && s.main.next < |s.workers| ==> s.workers[s.main.next].WExit?)
    case SorterThread(i) => i < |s.sorters| && SorterRuns(s.sorters[i])
    case WorkerThread(j) => j < |s.workers| && WorkerRuns(s.workers[j])
  }

  /** That is when one of its steps is enabled. */
  lemma CanRunExactlyWhen(c: Config, s: State, t: Thread)
    requires ShapeInv(c, s)
    ensures CanRun(s, t) <==> exists a :: Who(a) == t && Enabled(c, s, a)
  {
    if CanRun(s, t) {
      var pick: Path := "";
      match s.main {
        case MDirs(todo) => if todo != {} { pick :| pick in todo; }
        case MLeftovers(todo) => if todo != {} { pick :| pick in todo; }
        case MCleanup(todo) => if todo != {} { pick :| pick in todo; }
        case _ =>
      }
      var a := match t
        case MainThread => MainAct(pick)
        case SorterThread(i) => SorterAct(i)
        case WorkerThread(j) => WorkerAct(j, Failure(Untouched));
      assert Who(a) == t && Enabled(c, s, a);
    }
  }

  /** t takes one of the n steps from the k-th on. */
  ghost predicate HasTurn(acts: seq<Action>, k: nat, n: nat, t: Thread)
    requires k + n <= |acts|
  {
    exists m :: k <= m < k + n && Who(acts[m]) == t
  }

  /** Among any n steps in a row every thread that can run before them takes one. */
  ghost predicate Fair(states: seq<State>, acts: seq<Action>, n: nat)
    requires |states| == |acts| + 1
  {
    forall k: nat, t :: k + n <= |acts| && CanRun(states[k], t) ==> HasTurn(acts, k, n, t)
  }

  ghost predicate AllIdle(states: seq<State>, acts: seq<Action>, i: nat, j: nat)
    requires j <= |acts| < |states|
  {
    forall m :: i <= m < j ==> Idles(states[m], acts[m])
  }

  /** Busy steps only add up, and if none is added all steps between are idle. */
  lemma {:induction false} BusyAddsUp(states: seq<State>, acts: seq<Action>, i: nat, j: nat)
    requires i <= j <= |acts| < |states|
    ensures BusySteps(states, acts, i) <= BusySteps(states, acts, j)
    ensures BusySteps(states, acts, i) == BusySteps(states, acts, j) ==> AllIdle(states, acts, i, j)
    decreases j
  {
    if i < j {
      BusyAddsUp(states, acts, i, j - 1);
    }
  }

  /** Idle steps change nothing but the positions of workers. */
  lemma {:induction false} NothingNew(c: Config, states: seq<State>, acts: seq<Action>, i: nat, j: nat)
    requires Run(c, states, acts) && i <= j <= |acts|
    requires AllIdle(states, acts, i, j)
    ensures states[j].shared == states[i].shared && states[j].main == states[i].main
    decreases j
  {
    if i < j {
      NothingNew(c, states, acts, i, j - 1);
      RunShapes(c, states, acts, j - 1);
      assert Takes(c, states[j - 1], acts[j - 1], states[j - 1 + 1]);
      StepFalls(c, states[j - 1], acts[j - 1], states[j]);
    }
  }

  /** Some thread that can run has something to do: its next step is not idle. */
  lemma BusyThread(c: Config, states: seq<State>, acts: seq<Action>, k: nat) returns (t: Thread)
    requires Run(c, states, acts) && k <= |acts| && !Finished(states[k])
    ensures CanRun(states[k], t) && (t.WorkerThread? ==> states[k].shared.doneStuff)
  {
    RunShapes(c, states, acts, k);
    var a := NextAct(c, states[k]);
    t := Who(a);
  }

  /** A thread that could run before idle steps and had something to do has not had its turn in them. */
  lemma NoTurnInIdleness(c: Config, states: seq<State>, acts: seq<Action>, k: nat, n: nat, t: Thread)
    requires Run(c, states, acts) && k + n <= |acts| && AllIdle(states, acts, k, k + n)
    requires t.WorkerThread? ==> states[k].shared.doneStuff
    ensures !HasTurn(acts, k, n, t)
  {
    forall m | k <= m < k + n ensures Who(acts[m]) != t {
      NothingNew(c, states, acts, k, m);
      assert Idles(states[m], acts[m]);
    }
  }

  lemma TurnComes(states: seq<State>, acts: seq<Action>, n: nat, k: nat, t: Thread)
    requires |states| == |acts| + 1 && Fair(states, acts, n) && k + n <= |acts| && CanRun(states[k], t)
    ensures HasTurn(acts, k, n, t)
  {
  }

  /** While the call has not returned some of any n steps in a row is busy. */
  lemma WindowIsBusy(c: Config, states: seq<State>, acts: seq<Action>, n: nat, k: nat)
    requires Run(c, states, acts) && Fair(states, acts, n) && k + n <= |acts| && !Finished(states[k])
    ensures !AllIdle(states, acts, k, k + n)
  {
    var t := BusyThread(c, states, acts, k);
    TurnComes(states, acts, n, k, t);
    if AllIdle(states, acts, k, k + n) {
      NoTurnInIdleness(c, states, acts, k, n, t);
    }
  }

  lemma {:induction false} StaysFinished(c: Config, states: seq<State>, acts: seq<Action>, i: nat, j: nat)
    requires Run(c, states, acts) && i <= j <= |acts| && Finished(states[i])
    ensures Finished(states[j])
    decreases j
  {
    if i < j {
      StaysFinished(c, states, acts, i, j - 1);
      assert Takes(c, states[j - 1], acts[j - 1], states[j - 1 + 1]);
    }
  }

  lemma {:induction false} WindowsAreBusy(c: Config, states: seq<State>, acts: seq<Action>, n: nat, q: nat)
    requires Run(c, states, acts) && Fair(states, acts, n) && Times(q, n) <= |acts| && !Finished(states[|acts|])
    ensures BusySteps(states, acts, Times(q, n)) >= q
  {
    if q > 0 {
      var k := Times(q - 1, n);
      WindowsAreBusy(c, states, acts, n, q - 1);
      if Finished(states[k]) {
        StaysFinished(c, states, acts, k, |acts|);
      }
      WindowIsBusy(c, states, acts, n, k);
      BusyAddsUp(states, acts, k, k + n);
    }
  }

  lemma FairRunIsShort(c: Config, states: seq<State>, acts: seq<Action>, n: nat)
    requires Run(c, states, acts) && Fair(states, acts, n) && !Finished(states[|acts|])
    ensures MainShape(states[0]) && |acts| < Times(Potential(c, states[0]) + 1, n)
  {
    RunShapes(c, states, acts, 0);
    var q := Potential(c, states[0]) + 1;
    if Times(q, n) <= |acts| {
      WindowsAreBusy(c, states, acts, n, q);
      BusyStepsBounded(c, states, acts, Times(q, n));
    }
  }

  /**
    If every thread that can run gets a turn among any n steps in a row, the call returns within
    n times one more than the busy steps it may have: a run in which it has not is shorter.
   */
  lemma FairRunsReturn(c: Config, states: seq<State>, acts: seq<Action>, n: nat)
    requires Run(c, states, acts) && Fair(states, acts, n) && !Finished(states[|acts|])
    ensures var busy :=
        (14 * |c.files| + 4 * |c.output.Keys| + |c.inDirs| + |c.outDirs| + 2 * c.processors + 16)
        * (6 * c.processors + 9);
      |acts| < (busy + 1) * n
  {
    FairRunIsShort(c, states, acts, n);
    InitPotential(c);
    TimesIsProduct(Potential(c, Init(c)) + 1, n);
  }
}
