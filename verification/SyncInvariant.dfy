/** The invariant of the engine, and that every reachable state satisfies it. */
module SyncInvariant {
  import opened Paths
  import opened SyncEngine
  import opened SyncShape
  import opened SyncPlaces
  import opened SyncDirs
  import opened SyncDeletions
  import opened SyncTrees
  import opened SyncDecisions
  import opened SyncCounters
  import opened SyncBytes

  ghost predicate Inv(c: Config, s: State) {
    && ShapeInv(c, s)
    && PlacesInv(c, s)
    && DirsInv(c, s)
    && OrdersInv(c, s)
    && TreesInv(c, s)
    && DecisionsInv(c, s)
    && CountersInv(s)
    && BytesInv(c, s)
  }

  lemma InitInv(c: Config)
    requires Valid(c)
    ensures Inv(c, Init(c))
  {
    InitShape(c);
    InitPlaces(c);
    InitOrders(c);
    InitTrees(c);
    InitDecisions(c);
    InitCounters(c);
    InitBytes(c);
  }

  lemma MainInv(c: Config, s: State, pick: Path)
    requires Valid(c) && Inv(c, s) && MainEnabled(s, pick)
    ensures Inv(c, MainStep(c, s, pick))
  {
    MainShapeStep(c, s, pick);
    MainPlaces(c, s, pick);
    MainDirs(c, s, pick);
    if s.main.MJoinSorter? && s.main.next == SORTERS {
      StruckOut(c, s);
    }
    MainOrders(c, s, pick);
    MainTrees(c, s, pick);
    MainDecisions(c, s, pick);
    MainCounters(c, s, pick);
    MainBytes(c, s, pick);
  }

  lemma SorterInv(c: Config, s: State, i: nat)
    requires Valid(c) && Inv(c, s) && i < |s.sorters| && SorterRuns(s.sorters[i])
    ensures Inv(c, SorterStep(c, s, i))
  {
    SorterShapeStep(c, s, i);
    SorterPlaces(c, s, i);
    SorterOrders(c, s, i);
    SorterTrees(c, s, i);
    SorterDecisions(c, s, i);
    SorterCounters(c, s, i);
    SorterBytes(c, s, i);
  }

  lemma WorkerInv(c: Config, s: State, j: nat, o: Outcome)
    requires Valid(c) && Inv(c, s) && j < |s.workers| && WorkerCan(c, s.shared, s.workers[j], o)
    ensures Inv(c, WorkerStep(c, s, j, o))
  {
    WorkerShapeStep(c, s, j, o);
    WorkerPlaces(c, s, j, o);
    WorkerOrders(c, s, j, o);
    WorkerDirs(c, s, j, o);
    WorkerTrees(c, s, j, o);
    WorkerDecisions(c, s, j, o);
    WorkerCounters(c, s, j, o);
    WorkerBytes(c, s, j, o);
  }

  lemma StepInv(c: Config, s: State, a: Action, s': State)
    requires Valid(c) && Inv(c, s) && Takes(c, s, a, s')
    ensures Inv(c, s')
  {
    match a
    case MainAct(pick) => MainInv(c, s, pick);
    case SorterAct(i) => SorterInv(c, s, i);
    case WorkerAct(j, o) => WorkerInv(c, s, j, o);
  }

  lemma {:induction false} RunInv(c: Config, states: seq<State>, acts: seq<Action>, k: nat)
    requires Valid(c) && Run(c, states, acts) && k <= |acts|
    ensures Inv(c, states[k])
  {
    if k == 0 {
      InitInv(c);
    } else {
      var j := k - 1;
      RunInv(c, states, acts, j);
      assert Takes(c, states[j], acts[j], states[j + 1]);
      StepInv(c, states[j], acts[j], states[j + 1]);
    }
  }

  lemma ReachableInv(c: Config, s: State)
    requires Valid(c) && Reachable(c, s)
    ensures Inv(c, s)
  {
    var states, acts :| Run(c, states, acts) && states[|acts|] == s;
    RunInv(c, states, acts, |acts|);
  }
}
