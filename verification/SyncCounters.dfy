/** The four counters against the names they count. */
module SyncCounters {
  import opened Paths
  import opened Sums
  import opened SyncEngine
  import opened SyncShape
  import opened SyncPlaces

  function One(b: bool): nat {
    if b then 1 else 0
  }

  /** The number of threads at a position. */
  function Count<T>(threads: seq<T>, at: T -> bool): nat {
    Sum(threads, Indicator(at))
  }

  function Indicator<T>(at: T -> bool): T -> nat {
    (t: T) => One(at(t))
  }

  lemma CountUpdate<T>(threads: seq<T>, i: nat, t: T, at: T -> bool)
    requires i < |threads|
    ensures Count(threads[i := t], at) + One(at(threads[i])) == Count(threads, at) + One(at(t))
  {
    SumUpdate(threads, i, t, Indicator(at));
  }

  lemma CountBound<T>(threads: seq<T>, at: T -> bool)
    ensures Count(threads, at) <= |threads|
    ensures (forall i :: 0 <= i < |threads| ==> !at(threads[i])) ==> Count(threads, at) == 0
  {
    SumBound(threads, Indicator(at), 1);
    SumZero(threads, Indicator(at));
  }

  /** A sorter that has pushed a name but not yet counted it. */
  function Uncounted(): Sorter -> bool {
    (t: Sorter) => t.SBytes? || t.SFiles?
  }

  /** A worker that has a copy to make or an error to log. */
  function InFlight(): Worker -> bool {
    (w: Worker) => w.WCopy? || w.WCopyError?
  }

  /** A worker that has made a copy but not yet counted it. */
  function JustCopied(): Worker -> bool {
    (w: Worker) => w.WCount?
  }

  function PushedNames(n: Names): set<Path> {
    set f | f in n.stage && Pushed(n.stage[f])
  }

  function CopiedNames(n: Names): set<Path> {
    set f | f in n.stage && n.stage[f].Copied?
  }

  predicate CountersInv(s: State) {
    var n, totals := s.shared.names, s.shared.totals;
    && totals.filesToCopy + Count(s.sorters, Uncounted()) == |PushedNames(n)|
    && totals.filesCopied + Count(s.workers, JustCopied()) == |CopiedNames(n)|
    && |CopiedNames(n)| + |n.copyErrors| + |n.copyQueue| + Count(s.workers, InFlight()) == |PushedNames(n)|
  }

  lemma InitCounters(c: Config)
    ensures CountersInv(Init(c))
  {
    var s := Init(c);
    CountBound(s.sorters, Uncounted());
    CountBound(s.workers, JustCopied());
    CountBound(s.workers, InFlight());
    assert PushedNames(s.shared.names) == {} && CopiedNames(s.shared.names) == {};
  }

  lemma PushedAfterSorter(c: Config, n: Names, i: nat, g: SorterGrip, op: NameOp, g': SorterGrip)
    requires Places(c, n) && SorterPlace(n, i, g) && SorterOp(n, g, op, g')
    ensures PushedNames(OnNames(n, i, op)) == PushedNames(n) + if op.Push? then {op.name} else {}
    ensures op.Push? ==> op.name !in PushedNames(n)
  {
  }

  lemma CopiedAfterSorter(c: Config, n: Names, i: nat, g: SorterGrip, op: NameOp, g': SorterGrip)
    requires Places(c, n) && SorterPlace(n, i, g) && SorterOp(n, g, op, g')
    ensures CopiedNames(OnNames(n, i, op)) == CopiedNames(n)
  {
  }

  lemma PushedAfterWorker(c: Config, n: Names, j: nat, g: WorkerGrip, op: NameOp, g': WorkerGrip)
    requires Places(c, n) && WorkerPlace(n, j, g) && WorkerOp(n, g, op, g')
    ensures PushedNames(OnNames(n, j, op)) == PushedNames(n)
  {
  }

  lemma CopiedAfterWorker(c: Config, n: Names, j: nat, g: WorkerGrip, op: NameOp, g': WorkerGrip)
    requires Places(c, n) && WorkerPlace(n, j, g) && WorkerOp(n, g, op, g')
    ensures CopiedNames(OnNames(n, j, op)) == CopiedNames(n) + if op.MarkCopied? then {op.name} else {}
    ensures op.MarkCopied? ==> op.name !in CopiedNames(n)
  {
  }

  /** A push is counted two steps later. */
  lemma SorterTurnCounts(c: Config, sh: Shared, i: nat, t: Sorter)
    ensures var (op, t') := SorterTurn(c, sh, t);
      && SorterTotals(sh, t).filesToCopy + One(Uncounted()(t'))
         == sh.totals.filesToCopy + One(Uncounted()(t)) + One(op.Push?)
      && SorterTotals(sh, t).filesCopied == sh.totals.filesCopied
      && |OnNames(sh.names, i, op).copyQueue| == |sh.names.copyQueue| + One(op.Push?)
      && OnNames(sh.names, i, op).copyErrors == sh.names.copyErrors
  {
  }

  lemma SorterCounters(c: Config, s: State, i: nat)
    requires PlacesInv(c, s) && CountersInv(s) && i < |s.sorters|
    ensures CountersInv(SorterStep(c, s, i))
  {
    var sh, t := s.shared, s.sorters[i];
    var t' := SorterTurn(c, sh, t).1;
    SorterTurnOp(c, sh, t);
    SorterTurnCounts(c, sh, i, t);
    PushedAfterSorter(c, sh.names, i, Grip(t), SorterTurn(c, sh, t).0, Grip(t'));
    CopiedAfterSorter(c, sh.names, i, Grip(t), SorterTurn(c, sh, t).0, Grip(t'));
    CountUpdate(s.sorters, i, t', Uncounted());
  }

  /** A copy is counted one step later. */
  lemma WorkerTurnCounts(sh: Shared, j: nat, w: Worker, o: Outcome)
    ensures var (op, w') := WorkerTurn(sh, w, o);
      && WorkerTotals(sh, w).filesCopied + One(JustCopied()(w'))
         == sh.totals.filesCopied + One(JustCopied()(w)) + One(op.MarkCopied?)
      && WorkerTotals(sh, w).filesToCopy == sh.totals.filesToCopy
      && |OnNames(sh.names, j, op).copyQueue| + |OnNames(sh.names, j, op).copyErrors|
         + One(InFlight()(w')) + One(op.MarkCopied?)
         == |sh.names.copyQueue| + |sh.names.copyErrors| + One(InFlight()(w))
  {
  }

  lemma WorkerCounters(c: Config, s: State, j: nat, o: Outcome)
    requires PlacesInv(c, s) && CountersInv(s) && j < |s.workers| && WorkerCan(c, s.shared, s.workers[j], o)
    ensures CountersInv(WorkerStep(c, s, j, o))
  {
    var sh, w := s.shared, s.workers[j];
    var w' := WorkerTurn(sh, w, o).1;
    WorkerTurnOp(sh, w, o);
    WorkerTurnCounts(sh, j, w, o);
    PushedAfterWorker(c, sh.names, j, Load(w), WorkerTurn(sh, w, o).0, Load(w'));
    CopiedAfterWorker(c, sh.names, j, Load(w), WorkerTurn(sh, w, o).0, Load(w'));
    CountUpdate(s.workers, j, w', JustCopied());
    CountUpdate(s.workers, j, w', InFlight());
  }

  lemma MainCounters(c: Config, s: State, pick: Path)
    requires ShapeInv(c, s) && CountersInv(s) && MainEnabled(s, pick)
    ensures CountersInv(MainStep(c, s, pick))
  {
    var s' := MainStep(c, s, pick);
    match s.main
    case MSpawn(k) =>
      if k < |s.workers| {
        assert WorkerShape(s.main, s.shared, k, s.workers[k]);
        CountUpdate(s.workers, k, WFlag, JustCopied());
        CountUpdate(s.workers, k, WFlag, InFlight());
      }
    case MStart(k) =>
      if k < |s.sorters| {
        assert SorterShape(s.main, s.shared, k, s.sorters[k]);
        CountUpdate(s.sorters, k, SLoop, Uncounted());
      }
    case _ =>
      assert s'.shared.names == s.shared.names && s'.shared.totals == s.shared.totals;
  }
}
