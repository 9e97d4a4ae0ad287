/**
  What the steps of a run do to one file: its copy is tried once, if the rule says so, and as
  that one try ends, so does the file.
 */
module SyncHistory {
  import opened Paths
  import opened FileTrees
  import opened SyncEngine
  import opened SyncShape
  import opened SyncPlaces
  import opened SyncPlan
  import opened SyncDeletions
  import opened SyncTrees
  import opened SyncDecisions
  import opened SyncCounters
  import opened SyncDirs
  import opened SyncInvariant
  import opened SyncOutcome
  import opened SyncResults
  import opened SyncRule

  /** In this step a worker copies or renames f, or tries to. */
  predicate Tries(s: State, a: Action, f: Path) {
    a.WorkerAct? && a.id < |s.workers| && s.workers[a.id] == WCopy(f)
  }

  /** The copy of f has been made or has failed, logged or not. */
  predicate Tried(s: State, f: Path) {
    var n := s.shared.names;
    f in n.stage && match n.stage[f]
      case Copied(_) => true
      case Failed(_) => true
      case Copying(j) => j < |s.workers| && s.workers[j] == WCopyError(f)
      case _ => false
  }

  // ---- One step --------------------------------------------------------------------------------

  lemma MainTries(c: Config, s: State, pick: Path, f: Path)
    requires ShapeInv(c, s) && MainEnabled(s, pick)
    ensures Tried(MainStep(c, s, pick), f) == Tried(s, f)
  {
    var n := s.shared.names;
    assert MainStep(c, s, pick).shared.names == n;
    if f in n.stage && n.stage[f].Copying? && n.stage[f].worker < |s.workers| {
      assert WorkerShape(s.main, s.shared, n.stage[f].worker, s.workers[n.stage[f].worker]);
    }
  }

  lemma SorterTries(c: Config, s: State, i: nat, f: Path)
    requires PlacesInv(c, s) && i < |s.sorters|
    ensures Tried(SorterStep(c, s, i), f) == Tried(s, f)
    ensures IsCopied(SorterStep(c, s, i).shared.names, f) == IsCopied(s.shared.names, f)
  {
    var n, t := s.shared.names, s.sorters[i];
    var op, t' := SorterTurn(c, s.shared, t).0, SorterTurn(c, s.shared, t).1;
    SorterTurnOp(c, s.shared, t);
    assert op.Pop? ==> AtStage(c, n, n.inQueue[0], n.stage[n.inQueue[0]]);
    SorterOpTries(n, i, Grip(t), op, Grip(t'), f);
  }

  /** No sorter gives a name to a worker or takes it from one. */
  lemma SorterOpTries(n: Names, i: nat, g: SorterGrip, op: NameOp, g': SorterGrip, f: Path)
    requires SorterPlace(n, i, g) && SorterOp(n, g, op, g')
    requires op.Pop? ==> StageIs(n, n.inQueue[0], Waiting)
    ensures Touched(OnNames(n, i, op), f) == Touched(n, f)
    ensures Touched(n, f) ==> OnNames(n, i, op).stage[f] == n.stage[f]
  {
  }

  lemma CopierTries(c: Config, s: State, j: nat, o: Outcome, f: Path)
    requires j < |s.workers| && WorkerCan(c, s.shared, s.workers[j], o)
    requires s.workers[j].WCopy? || s.workers[j].WCopyError?
    requires StageIs(s.shared.names, s.workers[j].file, Copying(j))
    ensures Tried(WorkerStep(c, s, j, o), f) <==> Tried(s, f) || s.workers[j] == WCopy(f)
    ensures !(Tried(s, f) && s.workers[j] == WCopy(f))
  {
  }

  lemma OtherTries(c: Config, s: State, j: nat, o: Outcome, f: Path)
    requires j < |s.workers| && WorkerCan(c, s.shared, s.workers[j], o)
    requires !s.workers[j].WCopy? && !s.workers[j].WCopyError?
    requires s.shared.names.copyQueue != [] ==> StageIs(s.shared.names, s.shared.names.copyQueue[0], Queued)
    ensures Tried(WorkerStep(c, s, j, o), f) == Tried(s, f)
  {
  }

  lemma WorkerTries(c: Config, s: State, j: nat, o: Outcome, f: Path)
    requires PlacesInv(c, s) && j < |s.workers| && WorkerCan(c, s.shared, s.workers[j], o)
    ensures Tried(WorkerStep(c, s, j, o), f) <==> Tried(s, f) || s.workers[j] == WCopy(f)
    ensures !(Tried(s, f) && s.workers[j] == WCopy(f))
  {
    var n := s.shared.names;
    if s.workers[j].WCopy? || s.workers[j].WCopyError? {
      assert WorkerPlace(n, j, Load(s.workers[j]));
      CopierTries(c, s, j, o, f);
    } else {
      assert n.copyQueue != [] ==>
          n.copyQueue[0] in n.copyQueue && AtStage(c, n, n.copyQueue[0], n.stage[n.copyQueue[0]]);
      OtherTries(c, s, j, o, f);
    }
  }

  lemma TriesStep(c: Config, s: State, a: Action, f: Path)
    requires ShapeInv(c, s) && PlacesInv(c, s) && Enabled(c, s, a)
    ensures Tried(Step(c, s, a), f) <==> Tried(s, f) || Tries(s, a, f)
    ensures !(Tried(s, f) && Tries(s, a, f))
  {
    match a
    case MainAct(pick) => MainTries(c, s, pick, f);
    case SorterAct(i) => SorterTries(c, s, i, f);
    case WorkerAct(j, o) => WorkerTries(c, s, j, o, f);
  }

  lemma WorkerCopied(s: State, j: nat, o: Outcome, f: Path)
    requires j < |s.workers| && WorkerPlace(s.shared.names, j, Load(s.workers[j]))
    requires s.shared.names.copyQueue != [] ==> StageIs(s.shared.names, s.shared.names.copyQueue[0], Queued)
    ensures IsCopied(OnNames(s.shared.names, j, WorkerTurn(s.shared, s.workers[j], o).0), f) <==>
              IsCopied(s.shared.names, f) || (s.workers[j] == WCopy(f) && o.Success?)
  {
  }

  /** A name counts as copied once its try has succeeded. */
  lemma CopiedStep(c: Config, s: State, a: Action, f: Path)
    requires ShapeInv(c, s) && PlacesInv(c, s) && Enabled(c, s, a)
    ensures IsCopied(Step(c, s, a).shared.names, f) <==>
              IsCopied(s.shared.names, f) || (Tries(s, a, f) && a.outcome.Success?)
  {
    match a
    case MainAct(pick) =>
      assert Step(c, s, a).shared.names == s.shared.names;
    case SorterAct(i) =>
      SorterTries(c, s, i, f);
    case WorkerAct(j, o) =>
      var n := s.shared.names;
      WorkerTurnOp(s.shared, s.workers[j], o);
      assert n.copyQueue != [] ==>
          n.copyQueue[0] in n.copyQueue && AtStage(c, n, n.copyQueue[0], n.stage[n.copyQueue[0]]);
      WorkerCopied(s, j, o, f);
  }

  /** What a copy that succeeds makes of f. */
  function Made(c: Config, f: Path, time: int): Entry
    requires f in c.input
  {
    if c.move then c.input[f] else Entry(c.input[f].content, time)
  }

  predicate Holds(c: Config, s: State, f: Path, e: Entry) {
    IsCopied(s.shared.names, f) && f in s.shared.disk.output && s.shared.disk.output[f] == e
  }

  lemma SuccessMakes(c: Config, s: State, j: nat, time: int, f: Path)
    requires PlacesInv(c, s) && TreesInv(c, s) && DecisionsInv(c, s)
    requires j < |s.workers| && s.workers[j] == WCopy(f) && WorkerCan(c, s.shared, WCopy(f), Success(time))
    ensures f in c.input && Holds(c, WorkerStep(c, s, j, Success(time)), f, Made(c, f, time))
  {
    CarriedIsIntact(c, s, j);
  }

  lemma WorkerHolds(c: Config, s: State, j: nat, o: Outcome, f: Path, e: Entry)
    requires PlacesInv(c, s) && OrdersInv(c, s) && Holds(c, s, f, e) && f !in Targets(c)
    requires j < |s.workers| && WorkerCan(c, s.shared, s.workers[j], o)
    requires IsCopied(WorkerStep(c, s, j, o).shared.names, f)
    ensures Holds(c, WorkerStep(c, s, j, o), f, e)
  {
    var w := s.workers[j];
    assert WorkerPlace(s.shared.names, j, Load(w)) && WorkerOrder(s.shared.deletions, j, Deletes(w));
    assert w.WDelete? ==> w.file in s.shared.deletions.fate;
  }

  lemma MainHolds(c: Config, s: State, pick: Path, f: Path, e: Entry)
    requires Valid(c) && DirsInv(c, s) && MainEnabled(s, pick) && Holds(c, s, f, e) && f in c.input
    ensures Holds(c, MainStep(c, s, pick), f, e)
  {
    InputsUnswept(c, f);
    assert !IsSwept(LeftoverDirs(c), f);
  }

  /** What a copy has made stays, unless it is queued for deletion. */
  lemma HoldsStep(c: Config, s: State, a: Action, f: Path, e: Entry)
    requires Valid(c) && Inv(c, s) && Enabled(c, s, a) && Holds(c, s, f, e) && f in c.input && f !in Targets(c)
    ensures Holds(c, Step(c, s, a), f, e)
  {
    CopiedStep(c, s, a, f);
    match a
    case MainAct(pick) => MainHolds(c, s, pick, f, e);
    case SorterAct(i) =>
    case WorkerAct(j, o) => WorkerHolds(c, s, j, o, f, e);
  }

  // ---- Whole runs ------------------------------------------------------------------------------

  /** How many of the first n steps of a run try to copy f. */
  function Attempts(states: seq<State>, acts: seq<Action>, n: nat, f: Path): nat
    requires n <= |acts| < |states|
  {
    if n == 0 then 0 else Attempts(states, acts, n - 1, f) + One(Tries(states[n - 1], acts[n - 1], f))
  }

  lemma {:induction false} AttemptsCount(c: Config, states: seq<State>, acts: seq<Action>, n: nat, f: Path)
    requires Valid(c) && Run(c, states, acts) && n <= |acts|
    ensures Attempts(states, acts, n, f) == One(Tried(states[n], f))
  {
    if n > 0 {
      AttemptsCount(c, states, acts, n - 1, f);
      RunInv(c, states, acts, n - 1);
      assert Takes(c, states[n - 1], acts[n - 1], states[n - 1 + 1]);
      TriesStep(c, states[n - 1], acts[n - 1], f);
    }
  }

  lemma TriedInTheEnd(c: Config, s: State, f: Path)
    requires Valid(c) && Inv(c, s) && Finished(s) && c.processors > 0
    ensures Tried(s, f) <==> Planned(c, f)
    ensures IsCopied(s.shared.names, f) || f in s.shared.names.copyErrors <==> Planned(c, f)
    ensures !(IsCopied(s.shared.names, f) && f in s.shared.names.copyErrors)
  {
    CopiesSettled(c, s, f);
    if f in c.input {
      AllSettled(c, s, f);
      assert AtStage(c, s.shared.names, f, s.shared.names.stage[f]);
    }
  }

  /**
    Under any schedule, in a run that returns, exactly one step tries to copy f if the input has
    it and the rule replaces what the output has, or the output has nothing; otherwise none does.
   */
  lemma TriedOnce(c: Config, states: seq<State>, acts: seq<Action>, f: Path)
    requires Valid(c) && Run(c, states, acts) && Finished(states[|acts|]) && c.processors > 0
    ensures var due := f in c.input &&
        (f in c.output ==>
          var i, o := c.input[f], c.output[f];
          || i.time > o.time
          || (i.time < o.time && c.force)
          || (i.time == o.time && (c.overwriteExisting || |i.content| != |o.content|)));
      Attempts(states, acts, |acts|, f) == if due then 1 else 0
  {
    AttemptsCount(c, states, acts, |acts|, f);
    RunInv(c, states, acts, |acts|);
    TriedInTheEnd(c, states[|acts|], f);
  }

  lemma {:induction false} AttemptsGrow(states: seq<State>, acts: seq<Action>, k: nat, n: nat, f: Path)
    requires k < n <= |acts| < |states| && Tries(states[k], acts[k], f)
    ensures Attempts(states, acts, k, f) < Attempts(states, acts, n, f)
    decreases n
  {
    if k < n - 1 {
      AttemptsGrow(states, acts, k, n - 1, f);
    }
  }

  /** The try of f ended with o. */
  ghost predicate Shows(c: Config, s: State, o: Outcome, f: Path) {
    && Tried(s, f) && f in c.input
    && (IsCopied(s.shared.names, f) <==> o.Success?)
    && (o.Success? && f !in Targets(c) ==> Holds(c, s, f, Made(c, f, o.time)))
  }

  lemma TryShows(c: Config, s: State, a: Action, f: Path)
    requires Valid(c) && Inv(c, s) && Enabled(c, s, a) && Tries(s, a, f)
    ensures Shows(c, Step(c, s, a), a.outcome, f)
  {
    TriesStep(c, s, a, f);
    CopiedStep(c, s, a, f);
    CarriedIsIntact(c, s, a.id);
    if a.outcome.Success? {
      SuccessMakes(c, s, a.id, a.outcome.time, f);
    }
  }

  lemma StillShows(c: Config, s: State, a: Action, o: Outcome, f: Path)
    requires Valid(c) && Inv(c, s) && Enabled(c, s, a) && Shows(c, s, o, f)
    ensures Shows(c, Step(c, s, a), o, f)
  {
    TriesStep(c, s, a, f);
    CopiedStep(c, s, a, f);
    if o.Success? && f !in Targets(c) {
      HoldsStep(c, s, a, f, Made(c, f, o.time));
    }
  }

  lemma StepShows(c: Config, states: seq<State>, acts: seq<Action>, k: nat, o: Outcome, f: Path)
    requires Valid(c) && Run(c, states, acts) && k < |acts|
    requires Shows(c, states[k], o, f) || (Tries(states[k], acts[k], f) && acts[k].outcome == o)
    ensures Shows(c, states[k + 1], o, f)
  {
    assert Takes(c, states[k], acts[k], states[k + 1]);
    RunInv(c, states, acts, k);
    if Shows(c, states[k], o, f) {
      StillShows(c, states[k], acts[k], o, f);
    } else {
      TryShows(c, states[k], acts[k], f);
    }
  }

  /** From the try on a name is copied for good, or not at all. */
  lemma {:induction false} AfterTheTry(c: Config, states: seq<State>, acts: seq<Action>, k: nat, m: nat, f: Path)
    requires Valid(c) && Run(c, states, acts) && k < m <= |acts| && Tries(states[k], acts[k], f)
    ensures Shows(c, states[m], acts[k].outcome, f)
    decreases m
  {
    if k == m - 1 {
      StepShows(c, states, acts, k, acts[k].outcome, f);
    } else {
      AfterTheTry(c, states, acts, k, m - 1, f);
      StepShows(c, states, acts, m - 1, acts[k].outcome, f);
    }
  }

  /**
    A try touches nothing but its file: a successful copy and a successful rename do what they
    should, a failed one leaves at its target what it leaves there, and a failed rename nothing.
   */
  lemma TryTouchesOnly(c: Config, states: seq<State>, acts: seq<Action>, k: nat, f: Path, x: Path)
    requires Valid(c) && Run(c, states, acts) && k < |acts| && Tries(states[k], acts[k], f)
    ensures var d, d', o := states[k].shared.disk, states[k + 1].shared.disk, acts[k].outcome;
      && d'.dirs == d.dirs
      && (x != f || o == Failure(Untouched) ==> SameAt(d'.input, d.input, x) && SameAt(d'.output, d.output, x))
      && (o.Success? ==> Under(x, f) ==> x in d.dirs)
      && (o.Failure? && o.residue.Broken? ==>
            !c.move && d'.input == d.input && f in d'.output && d'.output[f] == o.residue.entry)
  {
    assert Takes(c, states[k], acts[k], states[k + 1]);
  }

  /**
    The one try decides. If it fails the error is logged and the input keeps the file. If it
    succeeds no error is logged, and unless a leftover is queued for deletion under its name the
    file is in the output from then on, with the time that the system gave this copy, or as it
    was when it is moved.
   */
  lemma TryDecides(c: Config, states: seq<State>, acts: seq<Action>, k: nat, f: Path)
    requires Valid(c) && Run(c, states, acts) && Finished(states[|acts|]) && c.processors > 0
    requires k < |acts| && Tries(states[k], acts[k], f)
    ensures var s := states[|acts|];
      && f in c.input
      && (f in s.shared.names.copyErrors <==> acts[k].outcome.Failure?)
      && (acts[k].outcome.Failure? ==> SameAt(s.shared.disk.input, c.input, f))
    ensures acts[k].outcome.Success?
            && (c.deleteWithoutMatch ==> forall h :: h in c.output && h !in c.input ==> c.queuedPrefix + h != f) ==>
              forall m :: k < m <= |acts| ==>
                && f in states[m].shared.disk.output
                && states[m].shared.disk.output[f].content == c.input[f].content
                && states[m].shared.disk.output[f].time == if c.move then c.input[f].time else acts[k].outcome.time
  {
    var s := states[|acts|];
    RunInv(c, states, acts, |acts|);
    TriedInTheEnd(c, s, f);
    AfterTheTry(c, states, acts, k, |acts|, f);
    assert Reachable(c, s);
    ErrorsStayLocal(c, s, f);
    QueuedUnder(c, f);
    forall m | k < m <= |acts| && acts[k].outcome.Success? && f !in Targets(c)
      ensures Shows(c, states[m], acts[k].outcome, f)
    {
      AfterTheTry(c, states, acts, k, m, f);
    }
  }
}
