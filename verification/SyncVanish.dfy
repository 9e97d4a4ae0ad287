/**
  Exactly when a directory of the input can be removed by its queued name: before its files are
  copied, and for good.
 */
module SyncVanish {
  import opened Paths
  import opened FileTrees
  import opened SyncEngine
  import opened SyncShape
  import opened SyncPlaces
  import opened SyncPlan
  import opened SyncDeletions
  import opened SyncTrees
  import opened SyncDecisions
  import opened SyncInvariant
  import opened SyncProgress
  import opened SyncResults
  import opened SyncSchedules
  import opened SyncCascade

  // ---- One file is pushed last -----------------------------------------------------------------

  predicate AtPush(s: State, i: nat, f: Path) {
    i < |s.sorters| && s.sorters[i].SPush? && s.sorters[i].file == f
  }

  predicate Open(s: State, f: Path) {
    f in s.shared.names.stage && !Decided(s.shared.names.stage[f])
  }

  /** Before the sorters start, or while they run: the first worker waits and no copy has begun. */
  ghost predicate Early(c: Config, s: State) {
    && Fine(c, s) && NothingListed(s) && FirstStarted(s.main) && NoneTouched(s.shared.names)
    && |s.workers| == c.processors > 0 && s.workers[0].WPopDelete?
  }

  lemma EarlyStep(c: Config, s: State, a: Action) returns (s': State)
    requires Valid(c) && c.deleteWithoutMatch && Early(c, s) && Phase(s.main) < 4 && Enabled(c, s, a) && !a.WorkerAct?
    ensures s' == Step(c, s, a) && Early(c, s')
    ensures !Idles(s, a) ==> Potential(c, s') < Potential(c, s)
    ensures AllDecided(s.shared.names) ==>
              AllDecided(s'.shared.names) && s'.shared.names.copyQueue == s.shared.names.copyQueue
  {
    s' := Step(c, s, a);
    FineStep(c, s, a);
    assert PlacesInv(c, s) by {
      ReachableInv(c, s);
    }
    QuietStep(c, s, a);
  }

  lemma OpenMeansSorting(c: Config, s: State, f: Path)
    requires Valid(c) && Fine(c, s) && Open(s, f)
    ensures Phase(s.main) < 4
  {
    ReachableInv(c, s);
    DoneMeansDecided(c, s, f);
  }

  /** A planned name is decided only by being pushed. */
  lemma StaysOpen(c: Config, s: State, a: Action, f: Path)
    requires Valid(c) && Reachable(c, s) && Enabled(c, s, a) && !a.WorkerAct? && Planned(c, f) && Open(s, f)
    requires a.SorterAct? ==> !AtPush(s, a.id, f)
    ensures Open(Step(c, s, a), f)
  {
    ReachableStep(c, s, a);
    DecisionsFollowPlanned(c, Step(c, s, a), f);
    if a.SorterAct? {
      SorterTurnOp(c, s.shared, s.sorters[a.id]);
    }
  }

  lemma DecisionsFollowPlanned(c: Config, s: State, f: Path)
    requires Valid(c) && Reachable(c, s) && Planned(c, f)
    ensures f in s.shared.names.stage && !s.shared.names.stage[f].Skipped?
  {
    ReachableInv(c, s);
    assert PlanAt(c, s.shared.names, f);
  }

  /** Main and the sorters go on until some sorter is about to push f. */
  lemma {:induction false} UntilPush(c: Config, s: State, f: Path) returns (s': State, i: nat)
    requires Valid(c) && c.deleteWithoutMatch && Early(c, s) && Planned(c, f) && Open(s, f)
    ensures Early(c, s') && AtPush(s', i, f) && Open(s', f)
    decreases Potential(c, s)
  {
    if j: nat :| AtPush(s, j, f) {
      s', i := s, j;
    } else {
      OpenMeansSorting(c, s, f);
      var a := SmoothAct(c, s);
      assert !a.WorkerAct?;
      StaysOpen(c, s, a, f);
      s' := EarlyStep(c, s, a);
      s', i := UntilPush(c, s', f);
    }
  }

  predicate OthersDone(s: State, i: nat) {
    forall k :: 0 <= k < |s.sorters| && k != i ==> s.sorters[k].SExit?
  }

  /** Sorter i waits; some other sorter, or main, can go on. */
  lemma OtherAct(c: Config, s: State, i: nat) returns (a: Action)
    requires Valid(c) && Early(c, s) && i < |s.sorters| && SorterRuns(s.sorters[i]) && !OthersDone(s, i)
    ensures Enabled(c, s, a) && !a.WorkerAct? && a != SorterAct(i) && !Idles(s, a)
  {
    if k: nat :| k < |s.sorters| && k != i && SorterRuns(s.sorters[k]) {
      a := SorterAct(k);
    } else {
      var k :| 0 <= k < |s.sorters| && k != i && !s.sorters[k].SExit?;
      assert SorterShape(s.main, s.shared, k, s.sorters[k]);
      a := SmoothAct(c, s);
    }
  }

  /** All other sorters finish while sorter i is about to push f. */
  lemma {:induction false} OthersFirst(c: Config, s: State, f: Path, i: nat) returns (s': State)
    requires Valid(c) && c.deleteWithoutMatch && Early(c, s) && Planned(c, f) && AtPush(s, i, f) && Open(s, f)
    ensures Early(c, s') && AtPush(s', i, f) && OthersDone(s', i) && Open(s', f)
    decreases Potential(c, s)
  {
    if OthersDone(s, i) {
      s' := s;
    } else {
      OpenMeansSorting(c, s, f);
      var a := OtherAct(c, s, i);
      assert a.SorterAct? ==> !AtPush(s, a.id, f) by {
        OnePusher(c, s, f, i);
      }
      StaysOpen(c, s, a, f);
      StaysAtPush(c, s, a, f, i);
      s' := EarlyStep(c, s, a);
      s' := OthersFirst(c, s', f, i);
    }
  }

  lemma OnePushPlace(c: Config, s: State, f: Path, i: nat, k: nat)
    requires PlacesInv(c, s) && AtPush(s, i, f) && AtPush(s, k, f)
    ensures k == i
  {
    assert SorterPlace(s.shared.names, i, Grip(s.sorters[i]));
    assert SorterPlace(s.shared.names, k, Grip(s.sorters[k]));
  }

  lemma OnePusher(c: Config, s: State, f: Path, i: nat)
    requires Valid(c) && Reachable(c, s) && AtPush(s, i, f)
    ensures forall k: nat :: AtPush(s, k, f) ==> k == i
  {
    assert PlacesInv(c, s) by {
      ReachableInv(c, s);
    }
    forall k: nat | AtPush(s, k, f) ensures k == i {
      OnePushPlace(c, s, f, i, k);
    }
  }

  lemma StaysAtPush(c: Config, s: State, a: Action, f: Path, i: nat)
    requires ShapeInv(c, s) && AtPush(s, i, f) && Enabled(c, s, a) && !a.WorkerAct? && a != SorterAct(i)
    ensures AtPush(Step(c, s, a), i, f)
  {
    assert SorterShape(s.main, s.shared, i, s.sorters[i]);
  }

  lemma OthersDecided(c: Config, s: State, f: Path, i: nat, x: Path)
    requires ShapeInv(c, s) && PlacesInv(c, s) && AtPush(s, i, f) && OthersDone(s, i)
    requires x in s.shared.names.stage && x != f
    ensures Decided(s.shared.names.stage[x])
  {
    var n, k := s.shared.names, if i == 0 then 1 else 0;
    assert SorterShape(s.main, s.shared, k, s.sorters[k]);
    assert AtStage(c, n, x, n.stage[x]);
    if x in n.sortedBy {
      assert SorterPlace(n, n.sortedBy[x], Grip(s.sorters[n.sortedBy[x]])) && SortedBy(n, x, n.sortedBy[x]);
    }
  }

  lemma PushDecidesAll(c: Config, s: State, f: Path, i: nat)
    requires Valid(c) && Reachable(c, s) && AtPush(s, i, f) && OthersDone(s, i)
    ensures AllDecided(SorterStep(c, s, i).shared.names)
    ensures SorterStep(c, s, i).shared.names.copyQueue == s.shared.names.copyQueue + [f]
  {
    var n, n' := s.shared.names, SorterStep(c, s, i).shared.names;
    assert n' == OnNames(n, i, Push(f));
    forall x | x in n'.stage ensures Decided(n'.stage[x]) {
      if x != f {
        ReachableInv(c, s);
        OthersDecided(c, s, f, i, x);
      }
    }
  }

  /** Some schedule pushes f last, and gets to the leftovers before any copy has begun. */
  lemma PushLast(c: Config, f: Path) returns (s: State)
    requires Valid(c) && c.deleteWithoutMatch && c.processors > 0 && Planned(c, f)
    ensures Early(c, s) && s.main.MLeftovers?
    ensures s.shared.names.copyQueue != [] && s.shared.names.copyQueue[|s.shared.names.copyQueue| - 1] == f
  {
    s := HoldFirst(c);
    assert Open(s, f);
    var i;
    s, i := UntilPush(c, s, f);
    s := OthersFirst(c, s, f, i);
    OpenMeansSorting(c, s, f);
    PushDecidesAll(c, s, f, i);
    s := EarlyStep(c, s, SorterAct(i));
    s := SortersFirst(c, s);
  }

  // ---- One worker clears a directory -----------------------------------------------------------

  /** Main lists leftovers, none is waiting to be deleted, and there is a worker. */
  ghost predicate AtLeftovers(c: Config, s: State) {
    && Reachable(c, s) && s.main.MLeftovers? && s.shared.deletions.queue == [] && !s.shared.doneStuff
    && |s.workers| == c.processors > 0
  }

  /** A step of worker k that succeeds in nothing. */
  lemma FailStep(c: Config, s: State, k: nat) returns (s': State)
    requires Reachable(c, s) && k < |s.workers| && WorkerRuns(s.workers[k])
    ensures s' == WorkerStep(c, s, k, Failure(Untouched)) && Reachable(c, s')
  {
    ReachableStep(c, s, WorkerAct(k, Failure(Untouched)));
    s' := Step(c, s, WorkerAct(k, Failure(Untouched)));
  }

  /** The queue without its first element, if it has one. */
  function Tail(q: seq<Path>): seq<Path> {
    if q == [] then q else q[1..]
  }

  /** s' is s but for worker 0, which is at w, and the names, whose copy queue is q. */
  predicate OnlyFirst(s: State, s': State, w: Worker, q: seq<Path>) {
    && |s.workers| > 0
    && s' == s.(shared := s.shared.(names := s'.shared.names), workers := s.workers[0 := w])
    && s'.shared.names.copyQueue == q
  }

  lemma GoToQueue(c: Config, s: State) returns (s': State)
    requires AtLeftovers(c, s) && s.workers[0] == WFlag
    ensures AtLeftovers(c, s') && OnlyFirst(s, s', WPopCopy, s.shared.names.copyQueue)
  {
    s' := FailStep(c, s, 0);
    s' := FailStep(c, s', 0);
  }

  lemma FailNext(c: Config, s: State) returns (s': State)
    requires AtLeftovers(c, s) && s.workers[0] == WPopCopy && s.shared.names.copyQueue != []
    ensures AtLeftovers(c, s') && OnlyFirst(s, s', WPopDelete, s.shared.names.copyQueue[1..])
  {
    var q := s.shared.names.copyQueue;
    s' := FailStep(c, s, 0);
    assert OnlyFirst(s, s', WCopy(q[0]), q[1..]);
    s' := FailStep(c, s', 0);
    assert OnlyFirst(s, s', WCopyError(q[0]), q[1..]);
    s' := FailStep(c, s', 0);
  }

  /** Worker 0 goes round its loop to the delete queue; a copy that it finds on the way fails. */
  lemma GoRound(c: Config, s: State) returns (s': State)
    requires AtLeftovers(c, s) && s.workers[0] == WFlag
    ensures AtLeftovers(c, s') && OnlyFirst(s, s', WPopDelete, Tail(s.shared.names.copyQueue))
  {
    s' := GoToQueue(c, s);
    if s.shared.names.copyQueue != [] {
      s' := FailNext(c, s');
    } else {
      s' := FailStep(c, s', 0);
    }
  }

  /** Of the names all those not in rest have been removed by name, and nothing has been copied. */
  ghost predicate Cleared(c: Config, s: State, all: set<Path>, rest: set<Path>) {
    && AtLeftovers(c, s) && rest <= all <= Targets(c)
    && s.shared.deletions.fate.Keys == all - rest == GoneNames(s.shared.deletions)
    && s.shared.disk.output.Keys <= c.output.Keys - (all - rest)
    && s.shared.disk.dirs <= c.inDirs + c.outDirs - (all - rest)
  }

  lemma LongestName(names: set<Path>) returns (x: Path)
    requires names != {}
    ensures x in names && forall y :: y in names ==> |y| <= |x|
  {
    x :| x in names;
    if names != {x} {
      var y := LongestName(names - {x});
      if |y| > |x| {
        x := y;
      }
    }
  }

  lemma NotListed(c: Config, gs: set<Path>, g: Path)
    requires c.queuedPrefix + g !in EntriesFor(c, gs)
    ensures g !in gs
  {
  }

  /** Main lists the leftover that is queued under the name e. */
  lemma ListNext(c: Config, s: State, e: Path) returns (s': State)
    requires Valid(c) && AtLeftovers(c, s) && e in Targets(c) && e !in s.shared.deletions.fate
    ensures Reachable(c, s') && s'.main.MLeftovers?
    ensures s' == s.(main := s'.main, shared := s.shared.(deletions := QueueDeletion(s.shared.deletions, e)))
  {
    var g :| g in Leftovers(c) && c.queuedPrefix + g == e;
    assert g in s.main.todo by {
      ReachableInv(c, s);
      NotListed(c, Leftovers(c) - s.main.todo, g);
    }
    ReachableStep(c, s, MainAct(g));
    s' := Step(c, s, MainAct(g));
  }

  /** Worker 0 removes the one name that is listed, which is not that of a directory with anything in it. */
  lemma RemoveListed(c: Config, s: State, e: Path) returns (s': State)
    requires Reachable(c, s) && 0 < |s.workers| && s.workers[0] == WPopDelete && s.shared.deletions.queue == [e]
    requires e in s.shared.disk.dirs ==> IsEmptyDir(s.shared.disk, e)
    ensures Reachable(c, s')
    ensures s' == s.(shared := s'.shared, workers := s.workers[0 := WFlag])
    ensures s'.shared == s.shared.(
        disk := s.shared.disk.(output := Without(s.shared.disk.output, e), dirs := s.shared.disk.dirs - {e}),
        deletions := Deletions([], s.shared.deletions.errors,
                               s.shared.deletions.fate[e := Deleting(0)][e := Removed(0)]))
  {
    var a := WorkerAct(0, Success(0));
    ReachableStep(c, s, a);
    s' := Step(c, s, a);
    assert s'.workers == s.workers[0 := WDelete(e)];
    ReachableStep(c, s', a);
    s' := Step(c, s', a);
    assert s'.workers == s.workers[0 := WDelete(e)][0 := WFlag] == s.workers[0 := WFlag];
  }

  /** The longest of the names left below d is no directory with anything in it. */
  lemma LongestIsEmpty(c: Config, s: State, d: Path, rest: set<Path>, x: Path)
    requires Cleared(c, s, Below(c, d), rest) && x in rest && forall y :: y in rest ==> |y| <= |x|
    ensures IsEmptyDir(s.shared.disk, x)
  {
    forall y | y in s.shared.disk.output.Keys + s.shared.disk.dirs ensures !Under(x, y) {
      if Under(x, y) {
        assert AtOrUnder(d, y);
      }
    }
  }

  lemma ClearOne(c: Config, s: State, d: Path, rest: set<Path>, x: Path) returns (s': State)
    requires Valid(c) && Cleared(c, s, Below(c, d), rest) && s.workers[0].WPopDelete?
    requires x in rest && forall y :: y in rest ==> |y| <= |x|
    ensures Cleared(c, s', Below(c, d), rest - {x}) && s'.workers == s.workers[0 := WFlag]
    ensures s'.shared.names == s.shared.names && s'.sorters == s.sorters
  {
    LongestIsEmpty(c, s, d, rest, x);
    var listed := ListNext(c, s, x);
    s' := RemoveListed(c, listed, x);
    assert Below(c, d) - (rest - {x}) == Below(c, d) - rest + {x};
  }

  /** Then it goes round to the delete queue again. */
  lemma ClearAndGoRound(c: Config, s: State, d: Path, rest: set<Path>, x: Path) returns (s': State)
    requires Valid(c) && Cleared(c, s, Below(c, d), rest) && s.workers[0].WPopDelete?
    requires x in rest && forall y :: y in rest ==> |y| <= |x|
    ensures Cleared(c, s', Below(c, d), rest - {x}) && s'.workers == s.workers
    ensures s'.shared.names.copyQueue == Tail(s.shared.names.copyQueue)
  {
    var cleared := ClearOne(c, s, d, rest, x);
    s' := GoRound(c, cleared);
    assert s'.workers == s.workers[0 := WFlag][0 := WPopDelete] == s.workers;
  }

  /** Of a queue with at least n elements the last is still there. */
  predicate Shortened(q: seq<Path>, q': seq<Path>, n: nat) {
    1 <= n <= |q| ==> q' != [] && q'[|q'| - 1] == q[|q| - 1]
  }

  lemma TailShortens(q: seq<Path>, q': seq<Path>, n: nat)
    requires n > 1 && Shortened(Tail(q), q', n - 1)
    ensures Shortened(q, q', n)
  {
  }

  /** Worker 0 clears d, longest names first. Between two removals it takes one file from the copy queue. */
  lemma {:induction false} ClearAll(c: Config, s: State, d: Path, rest: set<Path>) returns (s': State)
    requires Valid(c) && Cleared(c, s, Below(c, d), rest) && s.workers[0].WPopDelete? && rest != {}
    ensures Cleared(c, s', Below(c, d), {}) && s'.workers == s.workers[0 := WFlag]
    ensures Shortened(s.shared.names.copyQueue, s'.shared.names.copyQueue, |rest|)
    decreases rest
  {
    var x := LongestName(rest);
    if rest == {x} {
      s' := ClearOne(c, s, d, rest, x);
      assert rest - {x} == {};
    } else {
      var round := ClearAndGoRound(c, s, d, rest, x);
      s' := ClearAll(c, round, d, rest - {x});
      TailShortens(s.shared.names.copyQueue, s'.shared.names.copyQueue, |rest|);
    }
  }

  // ---- Another worker has the file in hand -----------------------------------------------------

  predicate AtDeletion(w: Worker) {
    w.WDelete? || w.WDeleteError?
  }

  /** From s to s' only worker k and the names have changed. */
  predicate OnlyWorker(s: State, s': State, k: nat) {
    && s'.main == s.main && |s'.workers| == |s.workers|
    && s'.shared.disk == s.shared.disk && s'.shared.deletions == s.shared.deletions
    && forall h :: 0 <= h < |s.workers| && h != k ==> s'.workers[h] == s.workers[h]
  }

  lemma TakeTurn(c: Config, s: State, f: Path, k: nat)
    requires ShapeInv(c, s) && s.main.MLeftovers? && s.shared.deletions.queue == [] && k < |s.workers|
    requires !AtDeletion(s.workers[k]) && s.workers[k] != WCopy(f) && f in s.shared.names.copyQueue
    ensures WorkerRuns(s.workers[k]) && !Idles(s, WorkerAct(k, Failure(Untouched)))
    ensures var s' := WorkerStep(c, s, k, Failure(Untouched));
      && OnlyWorker(s, s', k) && !AtDeletion(s'.workers[k]) && s'.shared.doneStuff == s.shared.doneStuff
      && (s'.workers[k] == WCopy(f) || f in s'.shared.names.copyQueue)
  {
    assert WorkerShape(s.main, s.shared, k, s.workers[k]);
  }

  lemma TakeStep(c: Config, s: State, f: Path, k: nat) returns (s': State)
    requires Valid(c) && AtLeftovers(c, s) && ShapeInv(c, s) && k < |s.workers| && !AtDeletion(s.workers[k])
    requires s.workers[k] != WCopy(f) && f in s.shared.names.copyQueue
    ensures AtLeftovers(c, s') && ShapeInv(c, s') && OnlyWorker(s, s', k) && !AtDeletion(s'.workers[k])
    ensures s'.workers[k] == WCopy(f) || f in s'.shared.names.copyQueue
    ensures Potential(c, s') < Potential(c, s)
  {
    TakeTurn(c, s, f, k);
    s' := FailStep(c, s, k);
    StepFalls(c, s, WorkerAct(k, Failure(Untouched)), s');
  }

  /** Worker k takes files from the copy queue, and fails to copy them, until it has f in hand. */
  lemma {:induction false} TakeInHand(c: Config, s: State, f: Path, k: nat) returns (s': State)
    requires Valid(c) && AtLeftovers(c, s) && ShapeInv(c, s) && k < |s.workers| && !AtDeletion(s.workers[k])
    requires s.workers[k] == WCopy(f) || f in s.shared.names.copyQueue
    ensures AtLeftovers(c, s') && OnlyWorker(s, s', k) && s'.workers[k] == WCopy(f)
    decreases Potential(c, s)
  {
    if s.workers[k] == WCopy(f) {
      s' := s;
    } else {
      s' := TakeStep(c, s, f, k);
      s' := TakeInHand(c, s', f, k);
    }
  }

  // ---- Parents ---------------------------------------------------------------------------------

  /** Before the first removal nothing is on the output side but what was listed. */
  lemma NothingNewYet(c: Config, s: State)
    requires Valid(c) && Early(c, s) && s.main.MLeftovers?
    ensures s.shared.disk.output.Keys <= c.output.Keys && s.shared.disk.dirs <= c.inDirs + c.outDirs
    ensures !s.shared.doneStuff
    ensures forall k :: 0 <= k < |s.workers| ==> !AtDeletion(s.workers[k])
  {
    ReachableInv(c, s);
    forall x | x in s.shared.disk.output ensures x in c.output {
      assert !Touched(s.shared.names, x) && !IsSwept(SweptSoFar(c, s.main), x);
      assert OutputAt(c, s.shared.disk, s.shared.names, s.shared.deletions, x);
    }
    forall k | 0 <= k < |s.workers| ensures !AtDeletion(s.workers[k]) {
      assert WorkerOrder(s.shared.deletions, k, Deletes(s.workers[k]));
    }
  }

  lemma {:induction false} SetInSeq(names: set<Path>, q: seq<Path>)
    requires forall x :: x in names ==> x in q
    ensures |names| <= |q|
  {
    if q != [] {
      SetInSeq(names - {q[0]}, q[1..]);
      assert names <= (names - {q[0]}) + {q[0]};
      SubsetSize(names, (names - {q[0]}) + {q[0]});
    } else {
      assert names == {};
    }
  }

  lemma PlannedAreQueued(c: Config, s: State)
    requires Valid(c) && Early(c, s) && s.main.MLeftovers?
    ensures |PlannedNames(c)| <= |s.shared.names.copyQueue|
  {
    ReachableInv(c, s);
    var n := s.shared.names;
    forall x | x in PlannedNames(c) ensures x in n.copyQueue {
      DoneMeansDecided(c, s, x);
      assert PlanAt(c, n, x) && AtStage(c, n, x, n.stage[x]) && !Touched(n, x);
    }
    SetInSeq(PlannedNames(c), n.copyQueue);
  }

  /**
    Some schedule removes d by its queued name before a file is taken from the copy queue that is
    pushed last: all names listed below d are queued too, and there is a second worker to hold
    the file, or there are copies enough for a single worker to do between the removals.
   */
  ghost predicate CanClear(c: Config, d: Path) {
    && c.processors > 0 && Below(c, d) <= Targets(c)
    && (c.processors == 1 ==> |Below(c, d)| <= |PlannedNames(c)|)
  }

  lemma StartClearing(c: Config, s: State, d: Path)
    requires Valid(c) && Early(c, s) && s.main.MLeftovers? && Below(c, d) <= Targets(c)
    ensures Cleared(c, s, Below(c, d), Below(c, d))
  {
    NothingNewYet(c, s);
  }

  /** Worker 1 holds f while worker 0 clears d. */
  lemma HeldMeanwhile(c: Config, s: State, f: Path, d: Path) returns (s': State)
    requires Valid(c) && Early(c, s) && s.main.MLeftovers? && f in s.shared.names.copyQueue
    requires c.processors > 1 && Below(c, d) <= Targets(c) && d in Below(c, d)
    ensures Cleared(c, s', Below(c, d), {}) && s'.workers[1] == WCopy(f)
  {
    StartClearing(c, s, d);
    NothingNewYet(c, s);
    s' := TakeInHand(c, s, f, 1);
    s' := ClearAll(c, s', d, Below(c, d));
  }

  /** Worker 0 clears d, taking other files in between, and then takes f, the last one. */
  lemma TakenLast(c: Config, s: State, f: Path, d: Path) returns (s': State)
    requires Valid(c) && Early(c, s) && s.main.MLeftovers?
    requires var q := s.shared.names.copyQueue; q != [] && q[|q| - 1] == f
    requires |Below(c, d)| <= |PlannedNames(c)| && Below(c, d) <= Targets(c) && d in Below(c, d)
    ensures AtLeftovers(c, s') && s'.workers[0] == WCopy(f) && d !in s'.shared.disk.dirs
  {
    StartClearing(c, s, d);
    PlannedAreQueued(c, s);
    s' := ClearAll(c, s, d, Below(c, d));
    ShapeOf(c, s');
    s' := TakeInHand(c, s', f, 0);
  }

  /** A directory on the way to a planned file is missing when a worker is about to copy the file. */
  lemma ParentCanVanish(c: Config, f: Path, d: Path) returns (s: State, j: nat)
    requires Valid(c) && Planned(c, f) && Under(d, f) && CanClear(c, d)
    ensures Reachable(c, s) && j < |s.workers| && s.workers[j] == WCopy(f) && d !in s.shared.disk.dirs
    ensures forall time :: !WorkerCan(c, s.shared, s.workers[j], Success(time))
  {
    assert d in Below(c, d) && d in Ancestors(f);
    s := PushLast(c, f);
    if c.processors > 1 {
      j := 1;
      s := HeldMeanwhile(c, s, f, d);
    } else {
      j := 0;
      s := TakenLast(c, s, f, d);
    }
  }

  lemma ShapeOf(c: Config, s: State)
    requires Valid(c) && Reachable(c, s)
    ensures ShapeInv(c, s)
  {
    ReachableInv(c, s);
  }

  /** Whenever a worker is about to copy, all directories on the way to its target exist. */
  ghost predicate ParentsStay(c: Config) {
    forall s, j :: Reachable(c, s) && 0 <= j < |s.workers| && s.workers[j].WCopy? ==>
      Ancestors(s.workers[j].file) <= s.shared.disk.dirs
  }

  lemma MissingParent(c: Config, s: State, j: nat, d: Path)
    requires Valid(c) && Reachable(c, s) && j < |s.workers| && s.workers[j].WCopy?
    requires Under(d, s.workers[j].file) && d !in s.shared.disk.dirs
    ensures Planned(c, s.workers[j].file) && CanClear(c, d)
  {
    var f := s.workers[j].file;
    assert |s.workers| == c.processors && Planned(c, f) && Gone(s.shared.deletions, d) && d in c.inDirs by {
      ReachableInv(c, s);
      CopySucceeds(c, s, j, 0);
      assert d in Ancestors(f);
    }
    RemovedBottomUp(c, s, d);
    assert GoneNames(s.shared.deletions) <= Targets(c) by {
      ReachableInv(c, s);
      GoneIsTargeted(c, s);
    }
    if c.processors == 1 {
      FewRemoved(c, s);
      SubsetSize(Below(c, d), GoneNames(s.shared.deletions));
    }
  }

  /**
    Exactly when every directory on the way to a copy's target is there: when none can be cleared
    by queued names before the file below it is copied.
   */
  lemma ParentsStayExactlyWhen(c: Config)
    requires Valid(c)
    ensures ParentsStay(c) <==> forall f, d :: Planned(c, f) && Under(d, f) ==> !CanClear(c, d)
  {
    if f, d :| Planned(c, f) && Under(d, f) && CanClear(c, d) {
      var s, j := ParentCanVanish(c, f, d);
      assert d in Ancestors(s.workers[j].file);
    } else {
      forall s, j | Reachable(c, s) && 0 <= j < |s.workers| && s.workers[j].WCopy?
        ensures Ancestors(s.workers[j].file) <= s.shared.disk.dirs
      {
        forall d | d in Ancestors(s.workers[j].file) ensures d in s.shared.disk.dirs {
          if d !in s.shared.disk.dirs {
            MissingParent(c, s, j, d);
          }
        }
      }
    }
  }

  // ---- Directories for good --------------------------------------------------------------------

  /** In the end the directories are those of the input, or of both trees if nothing is to be deleted. */
  ghost predicate DirsStay(c: Config) {
    forall s :: Reachable(c, s) && Finished(s) ==>
      s.shared.disk.dirs == if c.deleteWithoutMatch then c.inDirs else c.inDirs + c.outDirs
  }

  lemma {:induction false} EndWithout(c: Config, s: State, d: Path) returns (s': State)
    requires Valid(c) && Reachable(c, s) && ShapeInv(c, s) && Phase(s.main) > 0 && d !in s.shared.disk.dirs
    ensures Reachable(c, s') && Finished(s') && d !in s'.shared.disk.dirs
    decreases Potential(c, s)
  {
    if Finished(s) {
      s' := s;
    } else {
      var a := NoDeadlock(c, s);
      ReachableStep(c, s, a);
      s' := EndWithout(c, Step(c, s, a), d);
    }
  }

  /** A directory whose name is queued with all names listed below it is missing in the end of some run. */
  lemma DirCanVanish(c: Config, d: Path) returns (s: State)
    requires Valid(c) && c.processors > 0 && d in c.inDirs && Below(c, d) <= Targets(c)
    ensures Reachable(c, s) && Finished(s) && d !in s.shared.disk.dirs
  {
    assert d in Below(c, d);
    s := HoldFirst(c);
    s := SortersFirst(c, s);
    StartClearing(c, s, d);
    s := ClearAll(c, s, d, Below(c, d));
    ShapeOf(c, s);
    s := EndWithout(c, s, d);
  }

  lemma MissingDir(c: Config, s: State, d: Path)
    requires Valid(c) && Reachable(c, s) && d in c.inDirs && Gone(s.shared.deletions, d)
    ensures c.processors > 0 && Below(c, d) <= Targets(c)
  {
    RemovedBottomUp(c, s, d);
    ReachableInv(c, s);
    GoneIsTargeted(c, s);
  }

  /**
    Exactly when the call ends with the directories that it should, in every run: when for every
    input directory its own name or some name listed below it is not queued for deletion.
   */
  lemma DirsStayExactlyWhen(c: Config)
    requires Valid(c)
    ensures DirsStay(c) <==> c.processors == 0 || forall d :: d in c.inDirs ==> !(Below(c, d) <= Targets(c))
  {
    if c.processors > 0 && exists d :: d in c.inDirs && Below(c, d) <= Targets(c) {
      var d :| d in c.inDirs && Below(c, d) <= Targets(c);
      assert d in Below(c, d);
      var s := DirCanVanish(c, d);
    } else {
      forall s | Reachable(c, s) && Finished(s)
        ensures s.shared.disk.dirs == if c.deleteWithoutMatch then c.inDirs else c.inDirs + c.outDirs
      {
        Directories(c, s);
        forall d | d in c.inDirs ensures !Gone(s.shared.deletions, d) {
          if Gone(s.shared.deletions, d) {
            MissingDir(c, s, d);
          }
        }
      }
    }
  }
}
