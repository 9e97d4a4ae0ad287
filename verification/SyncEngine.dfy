/**
  The sync engine as a transition system: the main thread of Functions::Copy, its four
  sorters (Helper_SortFiles) and its workers (DoStuff) take turns, one indivisible access
  to shared state at a time.

  Queue operations are single steps; module SpinDeque shows that the spinlock-protected
  deque behaves so. Reads and erasures of OFilesSet and reads of _doneStuff are single steps
  too. The waits on the condition variable are never notified: they end by their timeout, so
  WWait is a step that changes nothing but the worker's position.
 */
module SyncEngine {
  import opened Paths
  import opened FileTrees
  import Q = AtomicQueue

  const SORTERS: nat := 4

  /**
    One call of Copy, after enumeration and prefix stripping. Main puts _outputPrefix in front
    of a leftover name when it queues it for deletion (line 403), although the worker prepends
    _outputPrefix again (line 121). queuedPrefix is where that leads, seen from the output root:
    "b/" if the output path is "b", but "" if it is ".". The empty string is what line 121
    expects.
   */
  datatype Config = Config(
    files: seq<Path>,
    input: Tree,
    output: Tree,
    inDirs: set<Path>,
    outDirs: set<Path>,
    deleteWithoutMatch: bool,
    overwriteExisting: bool,
    force: bool,
    move: bool,
    processors: nat,
    queuedPrefix: Path)

  /** What enumerating two trees can yield when no name is a file on one side and a directory on the other. */
  ghost predicate Valid(c: Config) {
    && Distinct(c.files)
    && (forall f :: f in c.files <==> f in c.input)
    && "" !in c.input && "" !in c.output
    && AncestorClosed(c.input.Keys + c.inDirs, c.inDirs)
    && AncestorClosed(c.output.Keys + c.outDirs, c.outDirs)
    && (c.input.Keys + c.output.Keys) !! (c.inDirs + c.outDirs)
  }

  /** The position of the main thread, from the directory pass on. */
  datatype Main =
    | MDirs(todo: set<Path>)
    | MSpawn(next: nat)
    | MStart(next: nat)
    | MJoinSorter(next: nat)
    | MLeftovers(todo: set<Path>)
    | MRaise
    | MJoinWorker(next: nat)
    | MCleanup(todo: set<Path>)
    | MEnd

  /** The position of a sorter; a file name stands for its local variable while it matters. */
  datatype Sorter =
    | SIdle
    | SLoop
    | SPop
    | SMatch(file: Path)
    | SInTime(file: Path)
    | SOutTime(file: Path, inTime: int)
    | SInSize(file: Path)
    | SOutSize(file: Path, inSize: nat)
    | SPush(file: Path, erase: bool)
    | SBytes(file: Path, erase: bool)
    | SFiles(file: Path, erase: bool)
    | SErase(file: Path)
    | SExit

  /** The position of a worker. */
  datatype Worker =
    | WIdle
    | WFlag
    | WCopyTest
    | WDeleteTest
    | WWait
    | WPopCopy
    | WCopy(file: Path)
    | WCopyError(file: Path)
    | WCount(file: Path)
    | WWeigh(file: Path)
    | WPopDelete
    | WDelete(file: Path)
    | WDeleteError(file: Path)
    | WExit

  /** Where an input name is: waiting, in a thread's hand, or done with. */
  datatype Stage =
    | Waiting
    | Sorting
    | Skipped
    | Queued
    | Copying(worker: nat)
    | Copied(worker: nat)
    | Failed(worker: nat)

  /** Where a name queued for deletion is. */
  datatype Fate = Listed | Deleting(worker: nat) | Removed(worker: nat) | Kept(worker: nat)

  /**
    The input names on their way through the engine: IFilesSet, _copyQueue and the copy errors.
    The last four fields are history: where every name is, which sorter popped it, and the
    names whose bytes have been added to _bytesToCopy and to _bytesCopied.
   */
  datatype Names = Names(
    inQueue: seq<Path>,
    copyQueue: seq<Path>,
    copyErrors: seq<Path>,
    stage: map<Path, Stage>,
    sortedBy: map<Path, nat>,
    tallied: set<Path>,
    weighed: set<Path>)

  /** _deleteQueue, the deletion errors and, as history, where every queued deletion is. */
  datatype Deletions = Deletions(queue: seq<Path>, errors: seq<Path>, fate: map<Path, Fate>)

  datatype Totals = Totals(filesToCopy: nat, bytesToCopy: nat, filesCopied: nat, bytesCopied: nat)

  /** The file system: the files of both trees and the directories of the output. */
  datatype Disk = Disk(input: Tree, output: Tree, dirs: set<Path>)

  /** What the threads share. outDirs and outFiles are ODirSet and OFilesSet. */
  datatype Shared = Shared(
    disk: Disk,
    outDirs: set<Path>,
    outFiles: set<Path>,
    names: Names,
    deletions: Deletions,
    doneStuff: bool,
    totals: Totals)

  datatype State = State(shared: Shared, main: Main, sorters: seq<Sorter>, workers: seq<Worker>)

  function Init(c: Config): State {
    var names := Names(c.files, [], [], map f | f in c.files :: Waiting, map[], {}, {});
    State(Shared(Disk(c.input, c.output, c.outDirs), c.outDirs, c.output.Keys, names, Deletions([], [], map[]), false,
                 Totals(0, 0, 0, 0)),
          MDirs(c.inDirs), seq(SORTERS, _ => SIdle), seq(c.processors, _ => WIdle))
  }

  // ---- What can happen to an input name --------------------------------------------------

  datatype NameOp =
    | Keep
    | Pop
    | Skip(name: Path)
    | Push(name: Path)
    | Tally(name: Path)
    | Take
    | MarkCopied(name: Path)
    | LogError(name: Path)
    | MarkWeighed(name: Path)

  /** Sorter or worker id does op. Pop takes from the input queue, Take from the copy queue. */
  function OnNames(n: Names, id: nat, op: NameOp): Names {
    match op
    case Keep => n
    case Pop =>
      (match Q.GetPopFront(n.inQueue)
       case OutOfRange => n
       case Front(f, rest) => n.(inQueue := rest, stage := n.stage[f := Sorting], sortedBy := n.sortedBy[f := id]))
    case Skip(f) => n.(stage := n.stage[f := Skipped])
    case Push(f) => n.(copyQueue := Q.PushBack(n.copyQueue, f), stage := n.stage[f := Queued])
    case Tally(f) => n.(tallied := n.tallied + {f})
    case Take =>
      (match Q.GetPopFront(n.copyQueue)
       case OutOfRange => n
       case Front(f, rest) => n.(copyQueue := rest, stage := n.stage[f := Copying(id)]))
    case MarkCopied(f) => n.(stage := n.stage[f := Copied(id)])
    case LogError(f) => n.(copyErrors := Q.PushBack(n.copyErrors, f), stage := n.stage[f := Failed(id)])
    case MarkWeighed(f) => n.(weighed := n.weighed + {f})
  }

  // ---- The main thread -----------------------------------------------------------------

  predicate MainEnabled(s: State, pick: Path) {
    match s.main
    case MDirs(todo) => todo != {} ==> pick in todo
    case MJoinSorter(k) => k < |s.sorters| ==> s.sorters[k].SExit?
    case MLeftovers(todo) => todo != {} ==> pick in todo
    case MJoinWorker(k) => k < |s.workers| ==> s.workers[k].WExit?
    case MCleanup(todo) => todo != {} ==> pick in todo
    case MEnd => false
    case _ => true
  }

  /** One directory of the input: strike it from ODirSet, or create it. */
  function HandleDir(sh: Shared, d: Path): Shared {
    if d in sh.outDirs then sh.(outDirs := sh.outDirs - {d})
    else sh.(disk := sh.disk.(dirs := sh.disk.dirs + {d} + Ancestors(d)))
  }

  function QueueDeletion(ds: Deletions, e: Path): Deletions {
    ds.(queue := Q.PushBack(ds.queue, e), fate := ds.fate[e := Listed])
  }

  /** remove_all of one leftover directory. */
  function RemoveAll(disk: Disk, d: Path): Disk {
    disk.(output := WithoutTree(disk.output, d), dirs := WithoutDirs(disk.dirs, d))
  }

  function MainStep(c: Config, s: State, pick: Path): State {
    match s.main
    case MDirs(todo) =>
      if todo == {} then s.(main := MSpawn(0))
      else s.(main := MDirs(todo - {pick}), shared := HandleDir(s.shared, pick))
    case MSpawn(k) =>
      if k < |s.workers| then s.(main := MSpawn(k + 1), workers := s.workers[k := WFlag]) else s.(main := MStart(0))
    case MStart(k) =>
      if k < |s.sorters| then s.(main := MStart(k + 1), sorters := s.sorters[k := SLoop])
      else s.(main := MJoinSorter(0))
    case MJoinSorter(k) =>
      if k < |s.sorters| then s.(main := MJoinSorter(k + 1))
      else if c.deleteWithoutMatch then s.(main := MLeftovers(s.shared.outFiles))
      else s.(main := MRaise)
    case MLeftovers(todo) =>
      if todo == {} then s.(main := MRaise)
      else s.(main := MLeftovers(todo - {pick}),
               shared := s.shared.(deletions := QueueDeletion(s.shared.deletions, c.queuedPrefix + pick)))
    case MRaise => s.(main := MJoinWorker(0), shared := s.shared.(doneStuff := true))
    case MJoinWorker(k) =>
      if k < |s.workers| then s.(main := MJoinWorker(k + 1))
      else if c.deleteWithoutMatch then s.(main := MCleanup(s.shared.outDirs))
      else s.(main := MEnd)
    case MCleanup(todo) =>
      if todo == {} then s.(main := MEnd)
      else s.(main := MCleanup(todo - {pick}), shared := s.shared.(disk := RemoveAll(s.shared.disk, pick)))
    case MEnd => s
  }

  // ---- A sorter ------------------------------------------------------------------------

  predicate SorterRuns(t: Sorter) {
    !t.SIdle? && !t.SExit?
  }

  /** What sorter at position t does to the names next, and where it is then. */
  function SorterTurn(c: Config, sh: Shared, t: Sorter): (NameOp, Sorter) {
    match t
    case SIdle => (Keep, t)
    case SLoop => (Keep, if |sh.names.inQueue| > 0 then SPop else SExit)
    case SPop =>
      (match Q.GetPopFront(sh.names.inQueue)
       case OutOfRange => (Keep, SLoop)
       case Front(f, _) => (Pop, SMatch(f)))
    case SMatch(f) => (Keep, if f != "" && f in sh.outFiles then SInTime(f) else SPush(f, false))
    case SInTime(f) => (Keep, SOutTime(f, TimeOf(sh.disk.input, f)))
    case SOutTime(f, inTime) =>
      var outTime := TimeOf(sh.disk.output, f);
      if inTime > outTime then (Keep, SPush(f, true))
      else if inTime < outTime then
        if c.force then (Keep, SPush(f, true)) else (Skip(f), SErase(f))
      else if c.overwriteExisting then (Keep, SPush(f, true))
      else (Keep, SInSize(f))
    case SInSize(f) =>
      // file_size without an error code throws when the file is gone
      if f in sh.disk.input then (Keep, SOutSize(f, SizeOf(sh.disk.input, f))) else (Skip(f), SLoop)
    case SOutSize(f, inSize) =>
      if f !in sh.disk.output then (Skip(f), SLoop)
      else if inSize != SizeOf(sh.disk.output, f) then (Keep, SPush(f, true))
      else (Skip(f), SErase(f))
    case SPush(f, e) => (Push(f), SBytes(f, e))
    case SBytes(f, e) => (Tally(f), SFiles(f, e))
    case SFiles(f, e) => (Keep, if e then SErase(f) else SLoop)
    case SErase(f) => (Keep, SLoop)
    case SExit => (Keep, t)
  }

  /** The counters a sorter bumps. */
  function SorterTotals(sh: Shared, t: Sorter): Totals {
    match t
    case SBytes(f, _) => sh.totals.(bytesToCopy := AddWord(sh.totals.bytesToCopy, SizeOf(sh.disk.input, f)))
    case SFiles(_, _) => sh.totals.(filesToCopy := sh.totals.filesToCopy + 1)
    case _ => sh.totals
  }

  function SorterShared(c: Config, sh: Shared, i: nat, t: Sorter): Shared {
    sh.(names := OnNames(sh.names, i, SorterTurn(c, sh, t).0), totals := SorterTotals(sh, t),
        outFiles := if t.SErase? then sh.outFiles - {t.file} else sh.outFiles)
  }

  // ---- A worker ------------------------------------------------------------------------

  /** No file and no directory of the output lies below d. */
  predicate IsEmptyDir(disk: Disk, d: Path) {
    (forall f :: f in disk.output ==> !Under(d, f)) && (forall e :: e in disk.dirs ==> !Under(d, e))
  }

  predicate WorkerRuns(w: Worker) {
    !w.WIdle? && !w.WExit?
  }

  /**
    A running worker can always take its next step, but not with every outcome. A copy
    succeeds only from an existing file into an existing directory; copy_file may fail halfway
    there, and rename is all or nothing. remove takes away a file or an empty directory, and
    does nothing to a missing name.
   */
  predicate WorkerCan(c: Config, sh: Shared, w: Worker, o: Outcome) {
    match w
    case WIdle => false
    case WExit => false
    case WCopy(f) =>
      (match o
       case Success(_) => f in sh.disk.input && Ancestors(f) <= sh.disk.dirs
       case Failure(r) => r.Untouched? || (!c.move && Ancestors(f) <= sh.disk.dirs))
    case WDelete(e) => o.Success? && e in sh.disk.dirs ==> IsEmptyDir(sh.disk, e)
    case _ => true
  }

  /** rename, or copy_file with overwrite_existing. */
  function Transfer(c: Config, disk: Disk, f: Path, time: int): Disk
    requires f in disk.input
  {
    if c.move then disk.(input := Without(disk.input, f), output := disk.output[f := disk.input[f]])
    else disk.(output := disk.output[f := disk.input[f].(time := time)])
  }

  function WorkerDeletions(ds: Deletions, j: nat, w: Worker, o: Outcome): Deletions {
    match w
    case WPopDelete =>
      (match Q.GetPopFront(ds.queue)
       case OutOfRange => ds
       case Front(e, rest) => ds.(queue := rest, fate := ds.fate[e := Deleting(j)]))
    case WDelete(e) => if o.Success? then ds.(fate := ds.fate[e := Removed(j)]) else ds
    case WDeleteError(e) => ds.(errors := Q.PushBack(ds.errors, e), fate := ds.fate[e := Kept(j)])
    case _ => ds
  }

  function WorkerDisk(c: Config, sh: Shared, w: Worker, o: Outcome): Disk
    requires WorkerCan(c, sh, w, o)
  {
    match w
    case WCopy(f) =>
      (match o
       case Success(time) => Transfer(c, sh.disk, f, time)
       case Failure(Untouched) => sh.disk
       case Failure(Broken(entry)) => sh.disk.(output := sh.disk.output[f := entry]))
    case WDelete(e) =>
      if o.Success? then sh.disk.(output := Without(sh.disk.output, e), dirs := sh.disk.dirs - {e}) else sh.disk
    case _ => sh.disk
  }

  /** The counters a worker bumps. */
  function WorkerTotals(sh: Shared, w: Worker): Totals {
    match w
    case WCount(_) => sh.totals.(filesCopied := sh.totals.filesCopied + 1)
    case WWeigh(f) => sh.totals.(bytesCopied := AddWord(sh.totals.bytesCopied, SizeOf(sh.disk.output, f)))
    case _ => sh.totals
  }

  /** What a worker at position w does to the names next, and where it is then. */
  function WorkerTurn(sh: Shared, w: Worker, o: Outcome): (NameOp, Worker) {
    match w
    case WIdle => (Keep, w)
    case WFlag => (Keep, if sh.doneStuff then WCopyTest else WWait)
    case WCopyTest => (Keep, if sh.names.copyQueue == [] then WDeleteTest else WWait)
    case WDeleteTest => (Keep, if sh.deletions.queue == [] then WExit else WWait)
    case WWait => (Keep, WPopCopy)
    case WPopCopy =>
      (match Q.GetPopFront(sh.names.copyQueue)
       case OutOfRange => (Keep, WPopDelete)
       case Front(f, _) => (Take, WCopy(f)))
    case WCopy(f) => if o.Success? then (MarkCopied(f), WCount(f)) else (Keep, WCopyError(f))
    case WCopyError(f) => (LogError(f), WPopDelete)
    case WCount(f) => (Keep, WWeigh(f))
    case WWeigh(f) => (MarkWeighed(f), WPopDelete)
    case WPopDelete =>
      (match Q.GetPopFront(sh.deletions.queue)
       case OutOfRange => (Keep, WFlag)
       case Front(e, _) => (Keep, WDelete(e)))
    case WDelete(e) => (Keep, if o.Success? then WFlag else WDeleteError(e))
    case WDeleteError(e) => (Keep, WFlag)
    case WExit => (Keep, w)
  }

  function WorkerShared(c: Config, sh: Shared, j: nat, w: Worker, o: Outcome): Shared
    requires WorkerCan(c, sh, w, o)
  {
    sh.(disk := WorkerDisk(c, sh, w, o), names := OnNames(sh.names, j, WorkerTurn(sh, w, o).0),
        deletions := WorkerDeletions(sh.deletions, j, w, o), totals := WorkerTotals(sh, w))
  }

  // ---- The whole -----------------------------------------------------------------------

  /**
    How a file operation ends: with the time the system stamps on a copy, or with an error.
    A copy that fails may leave anything at its target.
   */
  datatype Outcome = Success(time: int) | Failure(residue: Residue)

  datatype Residue = Untouched | Broken(entry: Entry)

  /** pick is the element an unordered set yields next. */
  datatype Action =
    | MainAct(pick: Path)
    | SorterAct(id: nat)
    | WorkerAct(id: nat, outcome: Outcome)

  predicate Enabled(c: Config, s: State, a: Action) {
    match a
    case MainAct(pick) => MainEnabled(s, pick)
    case SorterAct(i) => i < |s.sorters| && SorterRuns(s.sorters[i])
    case WorkerAct(j, o) => j < |s.workers| && WorkerCan(c, s.shared, s.workers[j], o)
  }

  function SorterStep(c: Config, s: State, i: nat): State
    requires i < |s.sorters|
  {
    s.(shared := SorterShared(c, s.shared, i, s.sorters[i]),
       sorters := s.sorters[i := SorterTurn(c, s.shared, s.sorters[i]).1])
  }

  function WorkerStep(c: Config, s: State, j: nat, o: Outcome): State
    requires j < |s.workers| && WorkerCan(c, s.shared, s.workers[j], o)
  {
    s.(shared := WorkerShared(c, s.shared, j, s.workers[j], o),
       workers := s.workers[j := WorkerTurn(s.shared, s.workers[j], o).1])
  }

  function Step(c: Config, s: State, a: Action): State
    requires Enabled(c, s, a)
  {
    match a
    case MainAct(pick) => MainStep(c, s, pick)
    case SorterAct(i) => SorterStep(c, s, i)
    case WorkerAct(j, o) => WorkerStep(c, s, j, o)
  }

  predicate Takes(c: Config, s: State, a: Action, s': State) {
    Enabled(c, s, a) && s' == Step(c, s, a)
  }

  /** states is what a schedule of acts passes through, from the start of the directory pass. */
  ghost predicate Run(c: Config, states: seq<State>, acts: seq<Action>) {
    && |states| == |acts| + 1
    && states[0] == Init(c)
    && forall k :: 0 <= k < |acts| ==> Takes(c, states[k], acts[k], states[k + 1])
  }

  ghost predicate Reachable(c: Config, s: State) {
    exists states, acts :: Run(c, states, acts) && states[|acts|] == s
  }

  /** Copy has returned. */
  predicate Finished(s: State) {
    s.main.MEnd?
  }

  /** No copy has logged an error, nor has any deletion of a name that is not a directory's. */
  predicate NoFileFailed(c: Config, s: State) {
    s.shared.names.copyErrors == [] && forall e :: e in s.shared.deletions.errors ==> e in c.inDirs + c.outDirs
  }

  /** The number of the phase the main thread is in. */
  function Phase(m: Main): nat {
    match m
    case MDirs(_) => 0
    case MSpawn(_) => 1
    case MStart(_) => 2
    case MJoinSorter(_) => 3
    case MLeftovers(_) => 4
    case MRaise => 5
    case MJoinWorker(_) => 6
    case MCleanup(_) => 7
    case MEnd => 8
  }
}
