/**
  Every input name is in exactly one place. Each invariant comes as an assertion about what
  is shared and one about each thread; a step of one thread keeps the first and its own, and
  does not disturb those of the others.
 */
module SyncPlaces {
  import opened Paths
  import opened SyncEngine
  import opened SyncShape

  /** What a sorter owes the name it has popped: a decision, or its size to _bytesToCopy, or only the erasure. */
  datatype SorterGrip = Free | Undecided(name: Path) | Untallied(name: Path) | Settled(name: Path)

  function Grip(t: Sorter): SorterGrip {
    match t
    case SMatch(f) => Undecided(f)
    case SInTime(f) => Undecided(f)
    case SOutTime(f, _) => Undecided(f)
    case SInSize(f) => Undecided(f)
    case SOutSize(f, _) => Undecided(f)
    case SPush(f, _) => Undecided(f)
    case SBytes(f, _) => Untallied(f)
    case SFiles(f, _) => Settled(f)
    case SErase(f) => Settled(f)
    case _ => Free
  }

  /** What a worker owes the name it has popped: the copy or its error, or its size to _bytesCopied. */
  datatype WorkerGrip = Idle | Carrying(name: Path) | Unweighed(name: Path)

  function Load(w: Worker): WorkerGrip {
    match w
    case WCopy(f) => Carrying(f)
    case WCopyError(f) => Carrying(f)
    case WCount(f) => Unweighed(f)
    case WWeigh(f) => Unweighed(f)
    case _ => Idle
  }

  predicate Decided(g: Stage) {
    !g.Waiting? && !g.Sorting?
  }

  /** A sorter has put the name on the copy queue. */
  predicate Pushed(g: Stage) {
    Decided(g) && !g.Skipped?
  }

  /** A name is where its stage says. */
  predicate AtStage(c: Config, n: Names, f: Path, g: Stage) {
    && (f in n.inQueue <==> g.Waiting?)
    && (f in n.copyQueue <==> g.Queued?)
    && (f in n.copyErrors <==> g.Failed?)
    && (f in n.sortedBy <==> !g.Waiting?)
    && (g.Copying? || g.Copied? || g.Failed? ==> g.worker < c.processors)
  }

  ghost predicate Places(c: Config, n: Names) {
    && n.stage.Keys == c.input.Keys
    && (forall f :: f in n.stage ==> AtStage(c, n, f, n.stage[f]))
    && (forall f :: f in n.inQueue || f in n.copyQueue || f in n.copyErrors || f in n.sortedBy ==> f in n.stage)
    && (forall f :: f in n.sortedBy ==> n.sortedBy[f] < SORTERS)
    && (forall f :: f in n.tallied ==> f in n.stage && Pushed(n.stage[f]))
    && (forall f :: f in n.weighed ==> f in n.stage && n.stage[f].Copied?)
    && Distinct(n.inQueue) && Distinct(n.copyQueue) && Distinct(n.copyErrors)
  }

  predicate SortedBy(n: Names, f: Path, i: nat) {
    f in n.stage && f in n.sortedBy && n.sortedBy[f] == i
  }

  /** The name sorter i is busy with is its own, and it has left no name of its own half done. */
  ghost predicate SorterPlace(n: Names, i: nat, g: SorterGrip) {
    && (!g.Free? ==> SortedBy(n, g.name, i))
    && (g.Undecided? ==> n.stage[g.name].Sorting?)
    && (g.Untallied? ==> Pushed(n.stage[g.name]) && g.name !in n.tallied)
    && (g.Settled? ==> Decided(n.stage[g.name]))
    && (forall f :: SortedBy(n, f, i) && n.stage[f].Sorting? ==> g == Undecided(f))
    && (forall f :: SortedBy(n, f, i) && Pushed(n.stage[f]) && f !in n.tallied ==> g == Untallied(f))
  }

  predicate StageIs(n: Names, f: Path, g: Stage) {
    f in n.stage && n.stage[f] == g
  }

  ghost predicate WorkerPlace(n: Names, j: nat, g: WorkerGrip) {
    && (g.Carrying? ==> StageIs(n, g.name, Copying(j)))
    && (g.Unweighed? ==> StageIs(n, g.name, Copied(j)) && g.name !in n.weighed)
    && (forall f :: StageIs(n, f, Copying(j)) ==> g == Carrying(f))
    && (forall f :: StageIs(n, f, Copied(j)) && f !in n.weighed ==> g == Unweighed(f))
  }

  // ---- What each operation does ----------------------------------------------------------

  /** A sorter with grip g does op and has grip g' afterwards. */
  predicate SorterOp(n: Names, g: SorterGrip, op: NameOp, g': SorterGrip) {
    match op
    case Keep => g' == g || (g.Settled? && g'.Free?)
    case Pop => n.inQueue != [] && g.Free? && g' == Undecided(n.inQueue[0])
    case Skip(f) => g == Undecided(f) && (g' == Settled(f) || g' == Free)
    case Push(f) => g == Undecided(f) && g' == Untallied(f)
    case Tally(f) => g == Untallied(f) && g' == Settled(f)
    case _ => false
  }

  /** A worker with grip g does op and has grip g' afterwards. */
  predicate WorkerOp(n: Names, g: WorkerGrip, op: NameOp, g': WorkerGrip) {
    match op
    case Keep => g' == g
    case Take => n.copyQueue != [] && g.Idle? && g' == Carrying(n.copyQueue[0])
    case MarkCopied(f) => g == Carrying(f) && g' == Unweighed(f)
    case LogError(f) => g == Carrying(f) && g' == Idle
    case MarkWeighed(f) => g == Unweighed(f) && g' == Idle
    case _ => false
  }

  lemma SorterTurnOp(c: Config, sh: Shared, t: Sorter)
    ensures SorterOp(sh.names, Grip(t), SorterTurn(c, sh, t).0, Grip(SorterTurn(c, sh, t).1))
  {
  }

  lemma WorkerTurnOp(sh: Shared, w: Worker, o: Outcome)
    ensures WorkerOp(sh.names, Load(w), WorkerTurn(sh, w, o).0, Load(WorkerTurn(sh, w, o).1))
  {
  }

  lemma PopKeepsPlaces(c: Config, n: Names, i: nat)
    requires Places(c, n) && i < SORTERS
    ensures Places(c, OnNames(n, i, Pop))
  {
  }

  lemma TakeKeepsPlaces(c: Config, n: Names, j: nat)
    requires Places(c, n) && j < c.processors
    ensures Places(c, OnNames(n, j, Take))
  {
  }

  lemma PushKeepsPlaces(c: Config, n: Names, i: nat, f: Path)
    requires Places(c, n) && f in n.stage && n.stage[f].Sorting?
    ensures Places(c, OnNames(n, i, Push(f)))
  {
  }

  lemma LogErrorKeepsPlaces(c: Config, n: Names, j: nat, f: Path)
    requires Places(c, n) && StageIs(n, f, Copying(j)) && j < c.processors
    ensures Places(c, OnNames(n, j, LogError(f)))
  {
  }

  lemma SorterOpKeepsPlaces(c: Config, n: Names, i: nat, g: SorterGrip, op: NameOp, g': SorterGrip)
    requires Places(c, n) && SorterPlace(n, i, g) && SorterOp(n, g, op, g') && i < SORTERS
    ensures Places(c, OnNames(n, i, op))
  {
    if op.Pop? {
      PopKeepsPlaces(c, n, i);
    } else if op.Push? {
      PushKeepsPlaces(c, n, i, op.name);
    }
  }

  lemma PopKeepsPlace(c: Config, n: Names, i: nat, g: SorterGrip, g': SorterGrip)
    requires Places(c, n) && SorterPlace(n, i, g) && SorterOp(n, g, Pop, g')
    ensures SorterPlace(OnNames(n, i, Pop), i, g')
  {
  }

  lemma SorterOpKeepsPlace(c: Config, n: Names, i: nat, g: SorterGrip, op: NameOp, g': SorterGrip)
    requires Places(c, n) && SorterPlace(n, i, g) && SorterOp(n, g, op, g')
    ensures SorterPlace(OnNames(n, i, op), i, g')
  {
    if op.Pop? {
      PopKeepsPlace(c, n, i, g, g');
    }
  }

  lemma WorkerOpKeepsPlaces(c: Config, n: Names, j: nat, g: WorkerGrip, op: NameOp, g': WorkerGrip)
    requires Places(c, n) && WorkerPlace(n, j, g) && WorkerOp(n, g, op, g') && j < c.processors
    ensures Places(c, OnNames(n, j, op))
  {
    if op.Take? {
      TakeKeepsPlaces(c, n, j);
    } else if op.LogError? {
      LogErrorKeepsPlaces(c, n, j, op.name);
    }
  }

  lemma WorkerOpKeepsPlace(c: Config, n: Names, j: nat, g: WorkerGrip, op: NameOp, g': WorkerGrip)
    requires Places(c, n) && WorkerPlace(n, j, g) && WorkerOp(n, g, op, g')
    ensures WorkerPlace(OnNames(n, j, op), j, g')
  {
  }

  // ---- The other threads -----------------------------------------------------------------

  /** Only the history of f differs. */
  ghost predicate OnlyAt(n: Names, n': Names, f: Path) {
    forall x :: x != f ==>
      && (x in n'.stage <==> x in n.stage) && (x in n.stage ==> n'.stage[x] == n.stage[x])
      && (x in n'.sortedBy <==> x in n.sortedBy) && (x in n.sortedBy ==> n'.sortedBy[x] == n.sortedBy[x])
      && (x in n'.tallied <==> x in n.tallied)
      && (x in n'.weighed <==> x in n.weighed)
  }

  /** The name an operation is about. */
  function Subject(n: Names, op: NameOp): Path {
    match op
    case Keep => ""
    case Pop => if n.inQueue == [] then "" else n.inQueue[0]
    case Take => if n.copyQueue == [] then "" else n.copyQueue[0]
    case _ => op.name
  }

  lemma OnlySubject(n: Names, id: nat, op: NameOp)
    ensures OnlyAt(n, OnNames(n, id, op), Subject(n, op))
  {
  }

  /** What changes at f is no business of sorter k: f is not its own, or pushed before and after. */
  predicate SparesSorter(n: Names, n': Names, f: Path, k: nat) {
    || (!SortedBy(n, f, k) && !SortedBy(n', f, k))
    || (SortedBy(n, f, k) && SortedBy(n', f, k) && Pushed(n.stage[f]) && Pushed(n'.stage[f])
        && (f in n.tallied <==> f in n'.tallied))
  }

  lemma SorterSpared(n: Names, n': Names, f: Path, k: nat, h: SorterGrip)
    requires OnlyAt(n, n', f) && SparesSorter(n, n', f, k) && SorterPlace(n, k, h)
    ensures SorterPlace(n', k, h)
  {
  }

  /** f is neither before nor after in the hand of worker k or copied by it. */
  predicate SparesWorker(n: Names, n': Names, f: Path, k: nat) {
    && !StageIs(n, f, Copying(k)) && !StageIs(n, f, Copied(k))
    && !StageIs(n', f, Copying(k)) && !StageIs(n', f, Copied(k))
  }

  lemma WorkerSpared(n: Names, n': Names, f: Path, k: nat, h: WorkerGrip)
    requires OnlyAt(n, n', f) && SparesWorker(n, n', f, k) && WorkerPlace(n, k, h)
    ensures WorkerPlace(n', k, h)
  {
  }

  lemma SorterOpKeepsSorter(c: Config, n: Names, i: nat, g: SorterGrip, op: NameOp, g': SorterGrip,
        k: nat, h: SorterGrip)
    requires Places(c, n) && SorterPlace(n, i, g) && SorterOp(n, g, op, g') && SorterPlace(n, k, h) && i != k
    ensures SorterPlace(OnNames(n, i, op), k, h)
  {
    if !op.Keep? {
      OnlySubject(n, i, op);
      SorterSpared(n, OnNames(n, i, op), Subject(n, op), k, h);
    }
  }

  lemma SorterOpKeepsWorker(c: Config, n: Names, i: nat, g: SorterGrip, op: NameOp, g': SorterGrip,
        j: nat, h: WorkerGrip)
    requires Places(c, n) && SorterPlace(n, i, g) && SorterOp(n, g, op, g') && WorkerPlace(n, j, h)
    ensures WorkerPlace(OnNames(n, i, op), j, h)
  {
    if !op.Keep? && !op.Tally? {
      OnlySubject(n, i, op);
      WorkerSpared(n, OnNames(n, i, op), Subject(n, op), j, h);
    }
  }

  lemma WorkerOpKeepsWorker(c: Config, n: Names, j: nat, g: WorkerGrip, op: NameOp, g': WorkerGrip,
        k: nat, h: WorkerGrip)
    requires Places(c, n) && WorkerPlace(n, j, g) && WorkerOp(n, g, op, g') && WorkerPlace(n, k, h) && j != k
    ensures WorkerPlace(OnNames(n, j, op), k, h)
  {
    if !op.Keep? {
      OnlySubject(n, j, op);
      WorkerSpared(n, OnNames(n, j, op), Subject(n, op), k, h);
    }
  }

  lemma WorkerOpKeepsSorter(c: Config, n: Names, j: nat, g: WorkerGrip, op: NameOp, g': WorkerGrip,
        i: nat, h: SorterGrip)
    requires Places(c, n) && WorkerPlace(n, j, g) && WorkerOp(n, g, op, g') && SorterPlace(n, i, h)
    ensures SorterPlace(OnNames(n, j, op), i, h)
  {
    if !op.Keep? {
      OnlySubject(n, j, op);
      SorterSpared(n, OnNames(n, j, op), Subject(n, op), i, h);
    }
  }

  // ---- All threads -----------------------------------------------------------------------

  /**
    Every input name is in exactly one place, once: in a queue, in one thread's hand, or
    skipped, copied or logged as failed.
   */
  ghost predicate PlacesInv(c: Config, s: State) {
    && Sized(c, s)
    && Places(c, s.shared.names)
    && (forall i :: 0 <= i < |s.sorters| ==> SorterPlace(s.shared.names, i, Grip(s.sorters[i])))
    && (forall j :: 0 <= j < |s.workers| ==> WorkerPlace(s.shared.names, j, Load(s.workers[j])))
  }

  lemma InitPlaces(c: Config)
    requires Valid(c)
    ensures PlacesInv(c, Init(c))
  {
  }

  lemma MainPlaces(c: Config, s: State, pick: Path)
    requires PlacesInv(c, s) && ShapeInv(c, s) && MainEnabled(s, pick)
    ensures PlacesInv(c, MainStep(c, s, pick))
  {
    var s' := MainStep(c, s, pick);
    assert s'.shared.names == s.shared.names;
    forall i | 0 <= i < |s.sorters|
      ensures Grip(s'.sorters[i]) == Grip(s.sorters[i])
    {
      assert SorterShape(s.main, s.shared, i, s.sorters[i]);
    }
    forall j | 0 <= j < |s.workers|
      ensures Load(s'.workers[j]) == Load(s.workers[j])
    {
      assert WorkerShape(s.main, s.shared, j, s.workers[j]);
    }
  }

  lemma SorterPlaces(c: Config, s: State, i: nat)
    requires PlacesInv(c, s) && i < |s.sorters|
    ensures PlacesInv(c, SorterStep(c, s, i))
  {
    var n, t := s.shared.names, s.sorters[i];
    var op, t' := SorterTurn(c, s.shared, t).0, SorterTurn(c, s.shared, t).1;
    SorterTurnOp(c, s.shared, t);
    SorterOpKeepsPlaces(c, n, i, Grip(t), op, Grip(t'));
    SorterOpKeepsPlace(c, n, i, Grip(t), op, Grip(t'));
    forall k | 0 <= k < |s.sorters| && k != i
      ensures SorterPlace(OnNames(n, i, op), k, Grip(s.sorters[k]))
    {
      SorterOpKeepsSorter(c, n, i, Grip(t), op, Grip(t'), k, Grip(s.sorters[k]));
    }
    forall j | 0 <= j < |s.workers|
      ensures WorkerPlace(OnNames(n, i, op), j, Load(s.workers[j]))
    {
      SorterOpKeepsWorker(c, n, i, Grip(t), op, Grip(t'), j, Load(s.workers[j]));
    }
  }

  lemma WorkerPlaces(c: Config, s: State, j: nat, o: Outcome)
    requires PlacesInv(c, s) && j < |s.workers| && WorkerCan(c, s.shared, s.workers[j], o)
    ensures PlacesInv(c, WorkerStep(c, s, j, o))
  {
    var n, w := s.shared.names, s.workers[j];
    var op, w' := WorkerTurn(s.shared, w, o).0, WorkerTurn(s.shared, w, o).1;
    WorkerTurnOp(s.shared, w, o);
    WorkerOpKeepsPlaces(c, n, j, Load(w), op, Load(w'));
    WorkerOpKeepsPlace(c, n, j, Load(w), op, Load(w'));
    forall k | 0 <= k < |s.workers| && k != j
      ensures WorkerPlace(OnNames(n, j, op), k, Load(s.workers[k]))
    {
      WorkerOpKeepsWorker(c, n, j, Load(w), op, Load(w'), k, Load(s.workers[k]));
    }
    forall i | 0 <= i < |s.sorters|
      ensures SorterPlace(OnNames(n, j, op), i, Grip(s.sorters[i]))
    {
      WorkerOpKeepsSorter(c, n, j, Load(w), op, Load(w'), i, Grip(s.sorters[i]));
    }
  }
}
