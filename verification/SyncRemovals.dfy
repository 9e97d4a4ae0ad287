/** What the steps of a run do to one queued name: its removal is tried once, and as that try ends, so it is logged. */
module SyncRemovals {
  import opened Paths
  import opened SyncEngine
  import opened SyncShape
  import opened SyncPlan
  import opened SyncDeletions
  import opened SyncCounters
  import opened SyncInvariant
  import opened SyncOutcome
  import opened SyncRule

  /** In this step a worker removes e from the output, or tries to. */
  predicate Removes(s: State, a: Action, e: Path) {
    a.WorkerAct? && a.id < |s.workers| && s.workers[a.id] == WDelete(e)
  }

  /** The removal of e has been carried out or has failed, logged or not. */
  predicate Served(s: State, e: Path) {
    var ds := s.shared.deletions;
    e in ds.fate && match ds.fate[e]
      case Listed => false
      case Removed(_) => true
      case Kept(_) => true
      case Deleting(j) => j < |s.workers| && s.workers[j] == WDeleteError(e)
  }

  // ---- One step --------------------------------------------------------------------------------

  lemma MainServes(c: Config, s: State, pick: Path, e: Path)
    requires ShapeInv(c, s) && OrdersInv(c, s) && MainEnabled(s, pick)
    ensures Served(MainStep(c, s, pick), e) == Served(s, e)
    ensures Gone(MainStep(c, s, pick).shared.deletions, e) == Gone(s.shared.deletions, e)
  {
    var ds := s.shared.deletions;
    if s.main.MLeftovers? && s.main.todo != {} {
      EntriesGrow(c, Leftovers(c), s.main.todo, pick);
      assert c.queuedPrefix + pick !in ds.fate;
    }
    if e in ds.fate && ds.fate[e].Deleting? && ds.fate[e].worker < |s.workers| {
      assert WorkerShape(s.main, s.shared, ds.fate[e].worker, s.workers[ds.fate[e].worker]);
    }
  }

  lemma WorkerServes(c: Config, s: State, j: nat, o: Outcome, e: Path)
    requires j < |s.workers| && WorkerCan(c, s.shared, s.workers[j], o)
    requires WorkerOrder(s.shared.deletions, j, Deletes(s.workers[j]))
    requires var q := s.shared.deletions.queue; q != [] ==> FateIs(s.shared.deletions, q[0], Listed)
    ensures Served(WorkerStep(c, s, j, o), e) <==> Served(s, e) || s.workers[j] == WDelete(e)
    ensures !(Served(s, e) && s.workers[j] == WDelete(e))
    ensures Gone(WorkerStep(c, s, j, o).shared.deletions, e) <==>
              Gone(s.shared.deletions, e) || (s.workers[j] == WDelete(e) && o.Success?)
  {
  }

  lemma ServesStep(c: Config, s: State, a: Action, e: Path)
    requires ShapeInv(c, s) && OrdersInv(c, s) && Enabled(c, s, a)
    ensures Served(Step(c, s, a), e) <==> Served(s, e) || Removes(s, a, e)
    ensures !(Served(s, e) && Removes(s, a, e))
    ensures Gone(Step(c, s, a).shared.deletions, e) <==>
              Gone(s.shared.deletions, e) || (Removes(s, a, e) && a.outcome.Success?)
  {
    match a
    case MainAct(pick) => MainServes(c, s, pick, e);
    case SorterAct(i) => assert Step(c, s, a).shared.deletions == s.shared.deletions;
    case WorkerAct(j, o) =>
      var q := s.shared.deletions.queue;
      assert q != [] ==> q[0] in q;
      WorkerServes(c, s, j, o, e);
  }

  // ---- Whole runs ------------------------------------------------------------------------------

  /** How many of the first n steps of a run try to remove e. */
  function Removals(states: seq<State>, acts: seq<Action>, n: nat, e: Path): nat
    requires n <= |acts| < |states|
  {
    if n == 0 then 0 else Removals(states, acts, n - 1, e) + One(Removes(states[n - 1], acts[n - 1], e))
  }

  lemma RunServes(c: Config, states: seq<State>, acts: seq<Action>, k: nat, e: Path)
    requires Valid(c) && Run(c, states, acts) && k < |acts|
    ensures Served(states[k + 1], e) <==> Served(states[k], e) || Removes(states[k], acts[k], e)
    ensures !(Served(states[k], e) && Removes(states[k], acts[k], e))
    ensures Gone(states[k + 1].shared.deletions, e) <==>
              Gone(states[k].shared.deletions, e) || (Removes(states[k], acts[k], e) && acts[k].outcome.Success?)
    ensures Gone(states[k].shared.deletions, e) ==> Served(states[k], e)
  {
    assert Takes(c, states[k], acts[k], states[k + 1]);
    RunInv(c, states, acts, k);
    ServesStep(c, states[k], acts[k], e);
  }

  lemma {:induction false} RemovalsCount(c: Config, states: seq<State>, acts: seq<Action>, n: nat, e: Path)
    requires Valid(c) && Run(c, states, acts) && n <= |acts|
    ensures Removals(states, acts, n, e) == One(Served(states[n], e))
  {
    if n > 0 {
      RemovalsCount(c, states, acts, n - 1, e);
      RunInv(c, states, acts, n - 1);
      assert Takes(c, states[n - 1], acts[n - 1], states[n - 1 + 1]);
      ServesStep(c, states[n - 1], acts[n - 1], e);
    }
  }

  lemma ServedInTheEnd(c: Config, s: State, e: Path)
    requires Valid(c) && Inv(c, s) && Finished(s) && c.processors > 0
    ensures Served(s, e) <==> e in Targets(c)
    ensures Gone(s.shared.deletions, e) || e in s.shared.deletions.errors <==> e in Targets(c)
    ensures !(Gone(s.shared.deletions, e) && e in s.shared.deletions.errors)
  {
    AllOrdersServed(c, s, e);
  }

  /**
    Under any schedule, in a run that returns, exactly one step tries to remove the name that a
    leftover is queued under, with delete-without-match, and none any other name.
   */
  lemma RemovedOnce(c: Config, states: seq<State>, acts: seq<Action>, e: Path)
    requires Valid(c) && Run(c, states, acts) && Finished(states[|acts|]) && c.processors > 0
    ensures var queued :=
        c.deleteWithoutMatch && exists h :: h in c.output && h !in c.input && c.queuedPrefix + h == e;
      Removals(states, acts, |acts|, e) == if queued then 1 else 0
  {
    RemovalsCount(c, states, acts, |acts|, e);
    RunInv(c, states, acts, |acts|);
    ServedInTheEnd(c, states[|acts|], e);
    QueuedUnder(c, e);
  }

  lemma {:induction false} AfterTheRemoval(c: Config, states: seq<State>, acts: seq<Action>, k: nat, m: nat, e: Path)
    requires Valid(c) && Run(c, states, acts) && k < m <= |acts| && Removes(states[k], acts[k], e)
    ensures Served(states[m], e)
    ensures Gone(states[m].shared.deletions, e) <==> acts[k].outcome.Success?
    decreases m
  {
    if k < m - 1 {
      AfterTheRemoval(c, states, acts, k, m - 1, e);
    }
    RunServes(c, states, acts, m - 1, e);
  }

  /**
    The one try decides: the name is logged as an error if it fails, and only then; it is gone
    at once if it succeeds.
   */
  lemma RemovalDecides(c: Config, states: seq<State>, acts: seq<Action>, k: nat, e: Path)
    requires Valid(c) && Run(c, states, acts) && Finished(states[|acts|]) && c.processors > 0
    requires k < |acts| && Removes(states[k], acts[k], e)
    ensures e in states[|acts|].shared.deletions.errors <==> acts[k].outcome.Failure?
    ensures acts[k].outcome.Success? ==>
              e !in states[k + 1].shared.disk.output && e !in states[k + 1].shared.disk.dirs
    ensures acts[k].outcome.Failure? ==> states[k + 1].shared.disk == states[k].shared.disk
  {
    assert Takes(c, states[k], acts[k], states[k + 1]);
    AfterTheRemoval(c, states, acts, k, |acts|, e);
    RunInv(c, states, acts, |acts|);
    ServedInTheEnd(c, states[|acts|], e);
  }
}
