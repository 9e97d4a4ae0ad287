/** The two byte counters, which wrap around at 2^64. */
module SyncBytes {
  import opened Paths
  import opened FileTrees
  import opened SyncEngine
  import opened SyncShape
  import opened SyncPlaces
  import opened SyncPlan
  import opened SyncDeletions
  import opened SyncTrees
  import opened SyncDecisions

  /** The bytes that the listed files which are among names hold together. */
  function Weight(files: seq<Path>, t: Tree, names: set<Path>): nat {
    if files == [] then 0
    else (if files[0] in names && files[0] in t then |t[files[0]].content| else 0) + Weight(files[1..], t, names)
  }

  lemma {:induction false} WeightNothing(files: seq<Path>, t: Tree)
    ensures Weight(files, t, {}) == 0
  {
    if files != [] {
      WeightNothing(files[1..], t);
    }
  }

  /** One more file adds its length, and nothing else does. */
  lemma {:induction false} WeightAdd(files: seq<Path>, t: Tree, names: set<Path>, f: Path)
    requires Distinct(files) && f !in names
    ensures Weight(files, t, names + {f})
            == Weight(files, t, names) + if f in files && f in t then |t[f].content| else 0
    ensures Weight(files, t, {}) == 0
  {
    WeightNothing(files, t);
    if files != [] {
      assert f in files <==> f == files[0] || f in files[1..];
      WeightAdd(files[1..], t, names, f);
    }
  }

  /** What a counter shows once the sizes of names have been added to it. */
  function WrappedWeight(c: Config, names: set<Path>): nat {
    Weight(c.files, c.input, names) % WORD
  }

  /** The file is as large as the error value of file_size, up to wrapping: reading the size of nothing does no harm. */
  predicate WeighsLikeNothing(c: Config, f: Path) {
    f in c.input && |c.input[f].content| % WORD == WORD - 1
  }

  /**
    When _bytesToCopy is right: nothing is renamed away before its size is read, or it makes no
    difference.
   */
  ghost predicate TallyExact(c: Config) {
    !c.move || c.processors == 0 || forall f :: Planned(c, f) ==> WeighsLikeNothing(c, f)
  }

  /**
    When _bytesCopied is right: no other worker can delete a copy before its size is read, or it
    makes no difference.
   */
  ghost predicate WeighExact(c: Config) {
    c.processors <= 1 || forall f :: Planned(c, f) && f in Targets(c) ==> WeighsLikeNothing(c, f)
  }

  ghost predicate BytesAt(c: Config, n: Names, totals: Totals) {
    && (TallyExact(c) ==> totals.bytesToCopy == WrappedWeight(c, n.tallied))
    && (WeighExact(c) ==> totals.bytesCopied == WrappedWeight(c, n.weighed))
  }

  /** A single worker finds what it has just copied. */
  predicate FreshAt(c: Config, output: Tree, w: Worker) {
    c.processors <= 1 && Load(w).Unweighed? ==> Load(w).name in output
  }

  ghost predicate BytesInv(c: Config, s: State) {
    && BytesAt(c, s.shared.names, s.shared.totals)
    && forall j :: 0 <= j < |s.workers| ==> FreshAt(c, s.shared.disk.output, s.workers[j])
  }

  lemma InitBytes(c: Config)
    ensures BytesInv(c, Init(c))
  {
    WeightNothing(c.files, c.input);
  }

  lemma ModuloSum(x: nat, y: nat)
    ensures (x + y) % WORD == (if x % WORD + y % WORD < WORD then x % WORD + y % WORD else x % WORD + y % WORD - WORD)
  {
    assert x + y == (x / WORD + y / WORD) * WORD + (x % WORD + y % WORD);
  }

  lemma AddModulo(w: nat, size: nat, other: nat)
    ensures AddWord(w % WORD, size) == (w + other) % WORD <==> size % WORD == other % WORD
  {
    ModuloSum(w % WORD, size);
    ModuloSum(w, other);
  }

  lemma AddWrapped(c: Config, names: set<Path>, f: Path, size: nat)
    requires Valid(c) && f in c.input && f !in names
    ensures AddWord(WrappedWeight(c, names), size) == WrappedWeight(c, names + {f})
            <==> size % WORD == |c.input[f].content| % WORD
  {
    WeightAdd(c.files, c.input, names, f);
    AddModulo(Weight(c.files, c.input, names), size, |c.input[f].content|);
  }

  // ---- A sorter reads the size of its name -----------------------------------------------

  /** What a sorter reads after its push is right up to wrapping. */
  lemma TallySize(c: Config, s: State, f: Path)
    requires PlacesInv(c, s) && TreesInv(c, s) && DecisionsInv(c, s) && TallyExact(c)
    requires f in s.shared.names.stage && Pushed(s.shared.names.stage[f])
    ensures f in c.input && SizeOf(s.shared.disk.input, f) % WORD == |c.input[f].content| % WORD
  {
    var n := s.shared.names;
    assert AtStage(c, n, f, n.stage[f]);
    assert InputAt(c, s.shared.disk, n, f);
    assert PlanAt(c, n, f);
  }

  lemma SorterBytesAt(c: Config, sh: Shared, i: nat, t: Sorter)
    requires Valid(c) && BytesAt(c, sh.names, sh.totals)
    requires t.SBytes? ==> t.file in c.input && t.file !in sh.names.tallied
    requires t.SBytes? && TallyExact(c) ==>
               SizeOf(sh.disk.input, t.file) % WORD == |c.input[t.file].content| % WORD
    ensures BytesAt(c, OnNames(sh.names, i, SorterTurn(c, sh, t).0), SorterTotals(sh, t))
  {
    SorterTurnOp(c, sh, t);
    if t.SBytes? {
      AddWrapped(c, sh.names.tallied, t.file, SizeOf(sh.disk.input, t.file));
    }
  }

  lemma SorterBytes(c: Config, s: State, i: nat)
    requires Valid(c) && PlacesInv(c, s) && TreesInv(c, s) && DecisionsInv(c, s) && BytesInv(c, s) && i < |s.sorters|
    ensures BytesInv(c, SorterStep(c, s, i))
  {
    var sh, t := s.shared, s.sorters[i];
    if t.SBytes? {
      assert SorterPlace(sh.names, i, Grip(t));
      if TallyExact(c) {
        TallySize(c, s, t.file);
      }
    }
    SorterBytesAt(c, sh, i, t);
  }

  // ---- A worker reads the size of its copy -------------------------------------------------

  /** What a worker reads after its copy is right up to wrapping. */
  lemma WeighSize(c: Config, s: State, f: Path)
    requires OrdersInv(c, s) && TreesInv(c, s) && DecisionsInv(c, s) && WeighExact(c)
    requires Phase(s.main) < 7 && IsCopied(s.shared.names, f) && f in c.input
    requires c.processors <= 1 ==> f in s.shared.disk.output
    ensures SizeOf(s.shared.disk.output, f) % WORD == |c.input[f].content| % WORD
  {
    assert !IsSwept(SweptSoFar(c, s.main), f);
    assert OutputAt(c, s.shared.disk, s.shared.names, s.shared.deletions, f);
    assert PlanAt(c, s.shared.names, f);
    assert Gone(s.shared.deletions, f) ==> f in Targets(c);
  }

  lemma WorkerBytesAt(c: Config, sh: Shared, j: nat, w: Worker, o: Outcome)
    requires Valid(c) && BytesAt(c, sh.names, sh.totals)
    requires w.WWeigh? ==> w.file in c.input && w.file !in sh.names.weighed
    requires w.WWeigh? && WeighExact(c) ==>
               SizeOf(sh.disk.output, w.file) % WORD == |c.input[w.file].content| % WORD
    ensures BytesAt(c, OnNames(sh.names, j, WorkerTurn(sh, w, o).0), WorkerTotals(sh, w))
  {
    WorkerTurnOp(sh, w, o);
    if w.WWeigh? {
      AddWrapped(c, sh.names.weighed, w.file, SizeOf(sh.disk.output, w.file));
    }
  }

  lemma WorkerFresh(c: Config, sh: Shared, j: nat, w: Worker, o: Outcome)
    requires WorkerCan(c, sh, w, o) && FreshAt(c, sh.disk.output, w)
    ensures FreshAt(c, WorkerShared(c, sh, j, w, o).disk.output, WorkerTurn(sh, w, o).1)
  {
  }

  lemma WorkerBytes(c: Config, s: State, j: nat, o: Outcome)
    requires Valid(c) && ShapeInv(c, s) && PlacesInv(c, s) && OrdersInv(c, s) && TreesInv(c, s) && DecisionsInv(c, s)
    requires BytesInv(c, s) && j < |s.workers| && WorkerCan(c, s.shared, s.workers[j], o)
    ensures BytesInv(c, WorkerStep(c, s, j, o))
  {
    var sh, w := s.shared, s.workers[j];
    assert FreshAt(c, sh.disk.output, w);
    if w.WWeigh? {
      assert WorkerPlace(sh.names, j, Load(w)) && !WorkersDone(s);
      if WeighExact(c) {
        WeighSize(c, s, w.file);
      }
    }
    WorkerBytesAt(c, sh, j, w, o);
    WorkerFresh(c, sh, j, w, o);
  }

  lemma MainBytes(c: Config, s: State, pick: Path)
    requires ShapeInv(c, s) && BytesInv(c, s) && MainEnabled(s, pick)
    ensures BytesInv(c, MainStep(c, s, pick))
  {
    var s' := MainStep(c, s, pick);
    assert s'.shared.names == s.shared.names && s'.shared.totals == s.shared.totals;
    forall j | 0 <= j < |s.workers|
      ensures FreshAt(c, s'.shared.disk.output, s'.workers[j])
    {
      assert FreshAt(c, s.shared.disk.output, s.workers[j]) && WorkerShape(s.main, s.shared, j, s.workers[j]);
    }
  }
}
