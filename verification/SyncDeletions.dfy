/** Every name queued for deletion is in exactly one place. */
module SyncDeletions {
  import opened Paths
  import opened SyncEngine
  import opened SyncShape
  import opened SyncPlan

  /** The entry a worker is deleting, or whose error it has yet to log. */
  datatype Order = NoOrder | Order(name: Path)

  function Deletes(w: Worker): Order {
    match w
    case WDelete(e) => Order(e)
    case WDeleteError(e) => Order(e)
    case _ => NoOrder
  }

  predicate FateIs(ds: Deletions, e: Path, g: Fate) {
    e in ds.fate && ds.fate[e] == g
  }

  /** The deletion of f has been carried out. */
  predicate Gone(ds: Deletions, f: Path) {
    f in ds.fate && ds.fate[f].Removed?
  }

  function GoneNames(ds: Deletions): set<Path> {
    set f | f in ds.fate && ds.fate[f].Removed?
  }

  ghost predicate Orders(c: Config, ds: Deletions) {
    && (forall e :: e in ds.fate ==>
          && (e in ds.queue <==> ds.fate[e].Listed?)
          && (e in ds.errors <==> ds.fate[e].Kept?)
          && (!ds.fate[e].Listed? ==> ds.fate[e].worker < c.processors))
    && (forall e :: e in ds.queue || e in ds.errors ==> e in ds.fate)
    && Distinct(ds.queue) && Distinct(ds.errors)
  }

  ghost predicate WorkerOrder(ds: Deletions, j: nat, w: Order) {
    && (w.Order? ==> FateIs(ds, w.name, Deleting(j)))
    && (forall e :: FateIs(ds, e, Deleting(j)) ==> w == Order(e))
  }

  /** The leftovers whose deletion main has queued so far. */
  function LeftoversListed(c: Config, m: Main): set<Path> {
    match m
    case MLeftovers(todo) => Leftovers(c) - todo
    case _ => if c.deleteWithoutMatch && Phase(m) > 4 then Leftovers(c) else {}
  }

  ghost predicate OrdersInv(c: Config, s: State) {
    && Sized(c, s)
    && Orders(c, s.shared.deletions)
    && (forall j :: 0 <= j < |s.workers| ==> WorkerOrder(s.shared.deletions, j, Deletes(s.workers[j])))
    && (s.main.MLeftovers? ==> c.deleteWithoutMatch && s.main.todo <= Leftovers(c))
    && s.shared.deletions.fate.Keys == EntriesFor(c, LeftoversListed(c, s.main))
  }

  lemma InitOrders(c: Config)
    ensures OrdersInv(c, Init(c))
  {
  }

  lemma QueueKeepsOrders(c: Config, ds: Deletions, e: Path)
    requires Orders(c, ds) && e !in ds.fate
    ensures Orders(c, QueueDeletion(ds, e))
  {
  }

  lemma WorkerKeepsOrders(c: Config, sh: Shared, j: nat, w: Worker, o: Outcome)
    requires Orders(c, sh.deletions) && WorkerOrder(sh.deletions, j, Deletes(w)) && j < c.processors
    ensures Orders(c, WorkerDeletions(sh.deletions, j, w, o))
  {
  }

  lemma WorkerKeepsOrder(c: Config, sh: Shared, j: nat, w: Worker, o: Outcome)
    requires Orders(c, sh.deletions) && WorkerOrder(sh.deletions, j, Deletes(w))
    ensures WorkerOrder(WorkerDeletions(sh.deletions, j, w, o), j, Deletes(WorkerTurn(sh, w, o).1))
  {
  }

  lemma WorkerKeepsOthersOrder(c: Config, ds: Deletions, j: nat, w: Worker, o: Outcome, k: nat, v: Order)
    requires Orders(c, ds) && WorkerOrder(ds, j, Deletes(w)) && WorkerOrder(ds, k, v) && j != k
    ensures WorkerOrder(WorkerDeletions(ds, j, w, o), k, v)
  {
  }

  lemma WorkerOrders(c: Config, s: State, j: nat, o: Outcome)
    requires OrdersInv(c, s) && j < |s.workers| && WorkerCan(c, s.shared, s.workers[j], o)
    ensures OrdersInv(c, WorkerStep(c, s, j, o))
  {
    var sh, w := s.shared, s.workers[j];
    WorkerKeepsOrders(c, sh, j, w, o);
    WorkerKeepsOrder(c, sh, j, w, o);
    forall k | 0 <= k < |s.workers| && k != j
      ensures WorkerOrder(WorkerDeletions(sh.deletions, j, w, o), k, Deletes(s.workers[k]))
    {
      WorkerKeepsOthersOrder(c, sh.deletions, j, w, o, k, Deletes(s.workers[k]));
    }
    assert WorkerDeletions(sh.deletions, j, w, o).fate.Keys == sh.deletions.fate.Keys;
  }

  lemma SorterOrders(c: Config, s: State, i: nat)
    requires OrdersInv(c, s) && i < |s.sorters|
    ensures OrdersInv(c, SorterStep(c, s, i))
  {
    assert SorterStep(c, s, i).shared.deletions == s.shared.deletions;
  }

  lemma MainOrders(c: Config, s: State, pick: Path)
    requires OrdersInv(c, s) && ShapeInv(c, s) && MainEnabled(s, pick)
    requires s.main.MJoinSorter? && s.main.next == SORTERS ==> s.shared.outFiles == Leftovers(c)
    ensures OrdersInv(c, MainStep(c, s, pick))
  {
    var s' := MainStep(c, s, pick);
    forall j | 0 <= j < |s.workers|
      ensures Deletes(s'.workers[j]) == Deletes(s.workers[j])
    {
      assert WorkerShape(s.main, s.shared, j, s.workers[j]);
    }
    if s.main.MLeftovers? && s.main.todo != {} {
      EntriesGrow(c, Leftovers(c), s.main.todo, pick);
      QueueKeepsOrders(c, s.shared.deletions, c.queuedPrefix + pick);
      assert s'.shared.deletions.fate.Keys == EntriesFor(c, LeftoversListed(c, s'.main));
    } else {
      assert s'.shared.deletions == s.shared.deletions;
      assert LeftoversListed(c, s'.main) == LeftoversListed(c, s.main);
    }
  }
}
