/** Exactly-once conservation, and what is true of names and of OFilesSet in every reachable state. */
module SyncOnce {
  import opened Paths
  import opened SyncEngine
  import opened SyncPlaces
  import opened SyncPlan
  import opened SyncDecisions
  import opened SyncCounters
  import opened SyncInvariant

  /** The sorter has popped f and has neither pushed nor skipped it. */
  function Sorts(f: Path): Sorter -> bool {
    (t: Sorter) => Grip(t) == Undecided(f)
  }

  /** The worker has popped f and has neither copied it nor logged its error. */
  function Carries(f: Path): Worker -> bool {
    (w: Worker) => Load(w) == Carrying(f)
  }

  lemma {:induction false} CountUnique<T>(threads: seq<T>, at: T -> bool, i: nat)
    requires i < |threads| && at(threads[i])
    requires forall k :: 0 <= k < |threads| && k != i ==> !at(threads[k])
    ensures Count(threads, at) == 1
  {
    if i == 0 {
      CountBound(threads[1..], at);
    } else {
      assert !at(threads[0]);
      CountUnique(threads[1..], at, i - 1);
    }
  }

  lemma {:induction false} OccursOnce<T>(xs: seq<T>, x: T)
    requires Distinct(xs)
    ensures multiset(xs)[x] == One(x in xs)
  {
    if xs != [] {
      OccursOnce(xs[1..], x);
      assert xs == [xs[0]] + xs[1..];
      assert x in xs <==> x == xs[0] || x in xs[1..];
    }
  }

  lemma SortersHolding(c: Config, s: State, f: Path)
    requires PlacesInv(c, s)
    ensures Count(s.sorters, Sorts(f)) == One(StageIs(s.shared.names, f, Sorting))
  {
    var n := s.shared.names;
    forall i | 0 <= i < |s.sorters|
      ensures Sorts(f)(s.sorters[i]) <==> StageIs(n, f, Sorting) && SortedBy(n, f, i)
    {
      assert SorterPlace(n, i, Grip(s.sorters[i]));
    }
    if StageIs(n, f, Sorting) {
      assert AtStage(c, n, f, n.stage[f]);
      CountUnique(s.sorters, Sorts(f), n.sortedBy[f]);
    } else {
      CountBound(s.sorters, Sorts(f));
    }
  }

  lemma WorkersHolding(c: Config, s: State, f: Path)
    requires PlacesInv(c, s)
    ensures Count(s.workers, Carries(f)) == One(f in s.shared.names.stage && s.shared.names.stage[f].Copying?)
  {
    var n := s.shared.names;
    forall j | 0 <= j < |s.workers|
      ensures Carries(f)(s.workers[j]) <==> StageIs(n, f, Copying(j))
    {
      assert WorkerPlace(n, j, Load(s.workers[j]));
    }
    if f in n.stage && n.stage[f].Copying? {
      assert AtStage(c, n, f, n.stage[f]);
      CountUnique(s.workers, Carries(f), n.stage[f].worker);
    } else {
      CountBound(s.workers, Carries(f));
    }
  }

  /** In how many places f is: waiting, with a sorter, skipped, queued, with a worker, copied, or logged as failed. */
  function Sightings(s: State, f: Path): nat {
    var n := s.shared.names;
    multiset(n.inQueue)[f] + Count(s.sorters, Sorts(f)) + One(StageIs(n, f, Skipped))
    + multiset(n.copyQueue)[f] + Count(s.workers, Carries(f)) + One(f in CopiedNames(n)) + multiset(n.copyErrors)[f]
  }

  lemma SeenOnce(c: Config, s: State, f: Path)
    requires PlacesInv(c, s)
    ensures Sightings(s, f) == One(f in c.input)
  {
    var n := s.shared.names;
    OccursOnce(n.inQueue, f);
    OccursOnce(n.copyQueue, f);
    OccursOnce(n.copyErrors, f);
    SortersHolding(c, s, f);
    WorkersHolding(c, s, f);
    if f in n.stage {
      assert AtStage(c, n, f, n.stage[f]);
    }
  }

  /**
    Conservation at every step, for every name: it is seen as often as it is listed in the
    input. So none is lost or doubled, and no two threads have the same.
   */
  lemma ExactlyOnce(c: Config, s: State, f: Path)
    requires Valid(c) && Reachable(c, s)
    ensures Sightings(s, f) == multiset(c.files)[f]
  {
    ReachableInv(c, s);
    SeenOnce(c, s, f);
    OccursOnce(c.files, f);
  }

  /**
    Decisions do not interfere: an input name that is waiting or with a sorter has its initial
    entries on both sides and its initial membership in OFilesSet, whatever the workers have
    done; a name once pushed is in the plan on the snapshots, and a name once skipped is not.
   */
  lemma DecisionsFollowPlan(c: Config, s: State, f: Path)
    requires Valid(c) && Reachable(c, s) && f in c.input
    ensures f in s.shared.names.stage
    ensures var g := s.shared.names.stage[f];
      && (!Decided(g) ==> Unspoilt(c, s.shared, f))
      && (Decided(g) ==> (Pushed(g) <==> Planned(c, f)))
  {
    ReachableInv(c, s);
    if !Decided(s.shared.names.stage[f]) {
      UndecidedIsUnspoilt(c, s, f);
    }
    assert PlanAt(c, s.shared.names, f);
  }

  /** Once the sorters have been joined, OFilesSet is exactly the output files without a counterpart. */
  lemma OnlyLeftoversStay(c: Config, s: State)
    requires Valid(c) && Reachable(c, s) && Phase(s.main) >= 4
    ensures s.shared.outFiles == Leftovers(c)
  {
    ReachableInv(c, s);
    StruckOut(c, s);
  }
}
