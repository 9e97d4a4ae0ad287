/**
  The engine as the object it is: class Functions, whose threads update its queues, sets, flags
  and counters in place. Each method is one turn of one thread, and Shows ties the fields to the
  transition system, so what is proved of every schedule holds of the object.
 */
module SyncObject {
  import opened Paths
  import opened FileTrees
  import opened SyncEngine
  import opened SyncPlan
  import opened SyncOutcome

  class Functions {
    const c: Config

    var inFiles: seq<Path>
    var outFiles: set<Path>
    var outDirs: set<Path>
    var copyQueue: seq<Path>
    var deleteQueue: seq<Path>
    var copyErrors: seq<Path>
    var deleteErrors: seq<Path>
    var doneStuff: bool

    var filesToCopy: nat
    var bytesToCopy: nat
    var filesCopied: nat
    var bytesCopied: nat

    /** The file system. */
    var input: Tree
    var output: Tree
    var dirs: set<Path>

    /** Where each thread is in its code. */
    var main: Main
    var sorters: seq<Sorter>
    var workers: seq<Worker>

    /** The state of the transition system that the fields show. */
    ghost var view: State

    ghost predicate Shows()
      reads this
    {
      && main == view.main && sorters == view.sorters && workers == view.workers
      && var sh := view.shared;
      && inFiles == sh.names.inQueue && copyQueue == sh.names.copyQueue && copyErrors == sh.names.copyErrors
      && deleteQueue == sh.deletions.queue && deleteErrors == sh.deletions.errors
      && outFiles == sh.outFiles && outDirs == sh.outDirs && doneStuff == sh.doneStuff
      && Totals(filesToCopy, bytesToCopy, filesCopied, bytesCopied) == sh.totals
      && Disk(input, output, dirs) == sh.disk
    }

    constructor (c: Config)
      ensures this.c == c && Shows() && view == Init(c)
    {
      this.c := c;
      inFiles, outFiles, outDirs := c.files, c.output.Keys, c.outDirs;
      copyQueue, deleteQueue, copyErrors, deleteErrors := [], [], [], [];
      doneStuff := false;
      filesToCopy, bytesToCopy, filesCopied, bytesCopied := 0, 0, 0, 0;
      input, output, dirs := c.input, c.output, c.outDirs;
      main := MDirs(c.inDirs);
      sorters, workers := seq(SORTERS, _ => SIdle), seq(c.processors, _ => WIdle);
      view := Init(c);
    }

    // ---- Helper_SortFiles ----------------------------------------------------------------------

    /** The loop test, and the pop, which throws on an emptied queue. */
    method TakeName(i: nat)
      requires Shows() && i < |sorters| && (sorters[i].SLoop? || sorters[i].SPop?)
      modifies this
      ensures Shows() && view == SorterStep(c, old(view), i)
    {
      var next := sorters[i];
      match sorters[i] {
        case SLoop =>
          next := if |inFiles| > 0 then SPop else SExit;
        case SPop =>
          if inFiles == [] {
            next := SLoop;
          } else {
            var file := inFiles[0];
            inFiles := inFiles[1..];
            next := SMatch(file);
          }
        case _ =>
      }
      sorters := sorters[i := next];
      view := SorterStep(c, view, i);
    }

    /** The membership test and the two times. */
    method CompareTimes(i: nat)
      requires Shows() && i < |sorters| && (sorters[i].SMatch? || sorters[i].SInTime? || sorters[i].SOutTime?)
      modifies this
      ensures Shows() && view == SorterStep(c, old(view), i)
    {
      var next := sorters[i];
      match sorters[i] {
        case SMatch(file) =>
          next := if file != "" && file in outFiles then SInTime(file) else SPush(file, false);
        case SInTime(file) =>
          next := SOutTime(file, TimeOf(input, file));
        case SOutTime(file, inTime) =>
          var outTime := TimeOf(output, file);
          if inTime > outTime {
            next := SPush(file, true);
          } else if inTime < outTime {
            if c.force {
              next := SPush(file, true);
            } else {
              next := SErase(file);
            }
          } else {
            next := if c.overwriteExisting then SPush(file, true) else SInSize(file);
          }
        case _ =>
      }
      sorters := sorters[i := next];
      view := SorterStep(c, view, i);
    }

    /** The two sizes; file_size throws when its file is gone. */
    method CompareSizes(i: nat)
      requires Shows() && i < |sorters| && (sorters[i].SInSize? || sorters[i].SOutSize?)
      modifies this
      ensures Shows() && view == SorterStep(c, old(view), i)
    {
      var next := sorters[i];
      match sorters[i] {
        case SInSize(file) =>
          if file in input {
            next := SOutSize(file, SizeOf(input, file));
          } else {
            next := SLoop;
          }
        case SOutSize(file, inSize) =>
          if file in output && inSize != SizeOf(output, file) {
            next := SPush(file, true);
          } else {
            next := if file in output then SErase(file) else SLoop;
          }
        case _ =>
      }
      sorters := sorters[i := next];
      view := SorterStep(c, view, i);
    }

    /** The push. */
    method QueueCopy(i: nat)
      requires Shows() && i < |sorters| && sorters[i].SPush?
      modifies this
      ensures Shows() && view == SorterStep(c, old(view), i)
    {
      var file, erase := sorters[i].file, sorters[i].erase;
      copyQueue := copyQueue + [file];
      sorters := sorters[i := SBytes(file, erase)];
      view := SorterStep(c, view, i);
    }

    /** The size is read after the push. */
    method CountBytes(i: nat)
      requires Shows() && i < |sorters| && sorters[i].SBytes?
      modifies this
      ensures Shows() && view == SorterStep(c, old(view), i)
    {
      var file, erase := sorters[i].file, sorters[i].erase;
      bytesToCopy := AddWord(bytesToCopy, SizeOf(input, file));
      sorters := sorters[i := SFiles(file, erase)];
      view := SorterStep(c, view, i);
    }

    /** The push is counted. */
    method CountFile(i: nat)
      requires Shows() && i < |sorters| && sorters[i].SFiles?
      modifies this
      ensures Shows() && view == SorterStep(c, old(view), i)
    {
      var file, erase := sorters[i].file, sorters[i].erase;
      filesToCopy := filesToCopy + 1;
      sorters := sorters[i := if erase then SErase(file) else SLoop];
      view := SorterStep(c, view, i);
    }

    /** The erasure from OFilesSet. */
    method StrikeOut(i: nat)
      requires Shows() && i < |sorters| && sorters[i].SErase?
      modifies this
      ensures Shows() && view == SorterStep(c, old(view), i)
    {
      outFiles := outFiles - {sorters[i].file};
      sorters := sorters[i := SLoop];
      view := SorterStep(c, view, i);
    }

    /** A turn of sorter i. */
    method SortFiles(i: nat)
      requires Shows() && i < |sorters| && SorterRuns(sorters[i])
      modifies this
      ensures Shows() && view == SorterStep(c, old(view), i)
    {
      var t := sorters[i];
      if t.SLoop? || t.SPop? {
        TakeName(i);
      } else if t.SMatch? || t.SInTime? || t.SOutTime? {
        CompareTimes(i);
      } else if t.SInSize? || t.SOutSize? {
        CompareSizes(i);
      } else if t.SPush? {
        QueueCopy(i);
      } else if t.SBytes? {
        CountBytes(i);
      } else if t.SFiles? {
        CountFile(i);
      } else {
        StrikeOut(i);
      }
    }

    // ---- DoStuff -------------------------------------------------------------------------------

    /** The loop test in three reads, and the wait. */
    method TestExit(j: nat, o: Outcome)
      requires Shows() && j < |workers|
      requires workers[j].WFlag? || workers[j].WCopyTest? || workers[j].WDeleteTest? || workers[j].WWait?
      requires WorkerCan(c, view.shared, workers[j], o)
      modifies this
      ensures Shows() && view == WorkerStep(c, old(view), j, o)
    {
      var next := workers[j];
      match workers[j] {
        case WFlag =>
          next := if doneStuff then WCopyTest else WWait;
        case WCopyTest =>
          next := if copyQueue == [] then WDeleteTest else WWait;
        case WDeleteTest =>
          next := if deleteQueue == [] then WExit else WWait;
        case WWait =>
          next := WPopCopy;
        case _ =>
      }
      workers := workers[j := next];
      view := WorkerStep(c, view, j, o);
    }

    /** rename in move mode, copy_file otherwise. */
    method MakeCopy(copy: Path, o: Outcome) returns (next: Worker)
      requires Shows() && WorkerCan(c, view.shared, WCopy(copy), o)
      modifies this`input, this`output
      ensures Disk(input, output, dirs) == WorkerDisk(c, view.shared, WCopy(copy), o)
      ensures next == if o.Success? then WCount(copy) else WCopyError(copy)
    {
      match o {
        case Success(time) =>
          if c.move {
            output := output[copy := input[copy]];
            input := Without(input, copy);
          } else {
            output := output[copy := input[copy].(time := time)];
          }
          next := WCount(copy);
        case Failure(residue) =>
          if residue.Broken? {
            output := output[copy := residue.entry];
          }
          next := WCopyError(copy);
      }
    }

    /** The pop from the copy queue, which throws on an empty one. */
    method TakeCopy(j: nat, o: Outcome)
      requires Shows() && j < |workers| && workers[j].WPopCopy?
      requires WorkerCan(c, view.shared, workers[j], o)
      modifies this
      ensures Shows() && view == WorkerStep(c, old(view), j, o)
    {
      var next := WPopDelete;
      if copyQueue != [] {
        next := WCopy(copyQueue[0]);
        copyQueue := copyQueue[1..];
      }
      workers := workers[j := next];
      view := WorkerStep(c, view, j, o);
    }

    /** The copy. */
    method CopyTaken(j: nat, o: Outcome)
      requires Shows() && j < |workers| && workers[j].WCopy?
      requires WorkerCan(c, view.shared, workers[j], o)
      modifies this
      ensures Shows() && view == WorkerStep(c, old(view), j, o)
    {
      var next := MakeCopy(workers[j].file, o);
      workers := workers[j := next];
      view := WorkerStep(c, view, j, o);
    }

    /** The error of a copy. */
    method LogCopyError(j: nat, o: Outcome)
      requires Shows() && j < |workers| && workers[j].WCopyError?
      requires WorkerCan(c, view.shared, workers[j], o)
      modifies this
      ensures Shows() && view == WorkerStep(c, old(view), j, o)
    {
      copyErrors := copyErrors + [workers[j].file];
      workers := workers[j := WPopDelete];
      view := WorkerStep(c, view, j, o);
    }

    /** A copy is counted. */
    method CountCopy(j: nat, o: Outcome)
      requires Shows() && j < |workers| && workers[j].WCount?
      requires WorkerCan(c, view.shared, workers[j], o)
      modifies this
      ensures Shows() && view == WorkerStep(c, old(view), j, o)
    {
      filesCopied := filesCopied + 1;
      workers := workers[j := WWeigh(workers[j].file)];
      view := WorkerStep(c, view, j, o);
    }

    /** Its bytes are. */
    method WeighCopy(j: nat, o: Outcome)
      requires Shows() && j < |workers| && workers[j].WWeigh?
      requires WorkerCan(c, view.shared, workers[j], o)
      modifies this
      ensures Shows() && view == WorkerStep(c, old(view), j, o)
    {
      bytesCopied := AddWord(bytesCopied, SizeOf(output, workers[j].file));
      workers := workers[j := WPopDelete];
      view := WorkerStep(c, view, j, o);
    }

    /** The pop from the delete queue, which throws on an empty one. */
    method TakeDeletion(j: nat, o: Outcome)
      requires Shows() && j < |workers| && workers[j].WPopDelete?
      requires WorkerCan(c, view.shared, workers[j], o)
      modifies this
      ensures Shows() && view == WorkerStep(c, old(view), j, o)
    {
      var next := WFlag;
      if deleteQueue != [] {
        next := WDelete(deleteQueue[0]);
        deleteQueue := deleteQueue[1..];
      }
      workers := workers[j := next];
      view := WorkerStep(c, view, j, o);
    }

    /** The deletion. */
    method DeleteTaken(j: nat, o: Outcome)
      requires Shows() && j < |workers| && workers[j].WDelete?
      requires WorkerCan(c, view.shared, workers[j], o)
      modifies this
      ensures Shows() && view == WorkerStep(c, old(view), j, o)
    {
      var del := workers[j].file;
      if o.Success? {
        output, dirs := Without(output, del), dirs - {del};
      }
      workers := workers[j := if o.Success? then WFlag else WDeleteError(del)];
      view := WorkerStep(c, view, j, o);
    }

    /** The error of a deletion. */
    method LogDeleteError(j: nat, o: Outcome)
      requires Shows() && j < |workers| && workers[j].WDeleteError?
      requires WorkerCan(c, view.shared, workers[j], o)
      modifies this
      ensures Shows() && view == WorkerStep(c, old(view), j, o)
    {
      deleteErrors := deleteErrors + [workers[j].file];
      workers := workers[j := WFlag];
      view := WorkerStep(c, view, j, o);
    }

    /** A turn of worker j; o is how a file operation ends. */
    method DoStuff(j: nat, o: Outcome)
      requires Shows() && j < |workers| && WorkerCan(c, view.shared, workers[j], o)
      modifies this
      ensures Shows() && view == WorkerStep(c, old(view), j, o)
    {
      var w := workers[j];
      if w.WPopCopy? {
        TakeCopy(j, o);
      } else if w.WCopy? {
        CopyTaken(j, o);
      } else if w.WCopyError? {
        LogCopyError(j, o);
      } else if w.WCount? {
        CountCopy(j, o);
      } else if w.WWeigh? {
        WeighCopy(j, o);
      } else if w.WPopDelete? {
        TakeDeletion(j, o);
      } else if w.WDelete? {
        DeleteTaken(j, o);
      } else if w.WDeleteError? {
        LogDeleteError(j, o);
      } else {
        TestExit(j, o);
      }
    }

    // ---- Copy ----------------------------------------------------------------------------------

    /** The directory pass. */
    method HandleDirs(pick: Path)
      requires Shows() && MainEnabled(view, pick) && main.MDirs?
      modifies this
      ensures Shows() && view == MainStep(c, old(view), pick)
    {
      var todo := main.todo;
      if todo == {} {
        main := MSpawn(0);
      } else {
        if pick in outDirs {
          outDirs := outDirs - {pick};
        } else {
          dirs := dirs + {pick} + Ancestors(pick);
        }
        main := MDirs(todo - {pick});
      }
      view := MainStep(c, view, pick);
    }

    /** What is left in ODirSet is removed. */
    method RemoveDirs(pick: Path)
      requires Shows() && MainEnabled(view, pick) && main.MCleanup?
      modifies this
      ensures Shows() && view == MainStep(c, old(view), pick)
    {
      var todo := main.todo;
      if todo == {} {
        main := MEnd;
      } else {
        output, dirs := WithoutTree(output, pick), WithoutDirs(dirs, pick);
        main := MCleanup(todo - {pick});
      }
      view := MainStep(c, view, pick);
    }

    /** The workers and the sorters are started. */
    method StartThreads(pick: Path)
      requires Shows() && MainEnabled(view, pick) && (main.MSpawn? || main.MStart?)
      modifies this
      ensures Shows() && view == MainStep(c, old(view), pick)
    {
      match main {
        case MSpawn(k) =>
          if k < |workers| {
            workers := workers[k := WFlag];
            main := MSpawn(k + 1);
          } else {
            main := MStart(0);
          }
        case MStart(k) =>
          if k < |sorters| {
            sorters := sorters[k := SLoop];
            main := MStart(k + 1);
          } else {
            main := MJoinSorter(0);
          }
        case _ =>
      }
      view := MainStep(c, view, pick);
    }

    /** The two joins. */
    method JoinThreads(pick: Path)
      requires Shows() && MainEnabled(view, pick) && (main.MJoinSorter? || main.MJoinWorker?)
      modifies this
      ensures Shows() && view == MainStep(c, old(view), pick)
    {
      match main {
        case MJoinSorter(k) =>
          if k < |sorters| {
            main := MJoinSorter(k + 1);
          } else {
            main := if c.deleteWithoutMatch then MLeftovers(outFiles) else MRaise;
          }
        case MJoinWorker(k) =>
          if k < |workers| {
            main := MJoinWorker(k + 1);
          } else {
            main := if c.deleteWithoutMatch then MCleanup(outDirs) else MEnd;
          }
        case _ =>
      }
      view := MainStep(c, view, pick);
    }

    /** The leftovers are queued for deletion, and the flag is raised. */
    method QueueDeletions(pick: Path)
      requires Shows() && MainEnabled(view, pick) && (main.MLeftovers? || main.MRaise?)
      modifies this
      ensures Shows() && view == MainStep(c, old(view), pick)
    {
      match main {
        case MLeftovers(todo) =>
          if todo == {} {
            main := MRaise;
          } else {
            deleteQueue := deleteQueue + [c.queuedPrefix + pick];
            main := MLeftovers(todo - {pick});
          }
        case MRaise =>
          doneStuff := true;
          main := MJoinWorker(0);
        case _ =>
      }
      view := MainStep(c, view, pick);
    }

    /** A turn of Copy itself; pick is the element that an unordered set yields next. */
    method Copy(pick: Path)
      requires Shows() && MainEnabled(view, pick)
      modifies this
      ensures Shows() && view == MainStep(c, old(view), pick)
    {
      if main.MDirs? {
        HandleDirs(pick);
      } else if main.MCleanup? {
        RemoveDirs(pick);
      } else if main.MSpawn? || main.MStart? {
        StartThreads(pick);
      } else if main.MJoinSorter? || main.MJoinWorker? {
        JoinThreads(pick);
      } else {
        QueueDeletions(pick);
      }
    }

    /** The threads take their turns in the order of a schedule. */
    method Play(acts: seq<Action>, ghost states: seq<State>)
      requires Run(c, states, acts) && Shows() && view == Init(c)
      modifies this
      ensures Shows() && view == states[|acts|] && Reachable(c, view)
    {
      var k := 0;
      while k < |acts|
        invariant k <= |acts| && Shows() && view == states[k]
      {
        assert Takes(c, states[k], acts[k], states[k + 1]);
        match acts[k] {
          case MainAct(pick) => Copy(pick);
          case SorterAct(i) => SortFiles(i);
          case WorkerAct(j, o) => DoStuff(j, o);
        }
        k := k + 1;
      }
    }

    /**
      A whole call of Copy under any schedule that lets it return without a failed file
      operation: the disk ends as one sequential pass and the cleanup leave it.
     */
    method PlayToTheEnd(acts: seq<Action>, ghost states: seq<State>)
      requires Run(c, states, acts) && Shows() && view == Init(c)
      requires Valid(c) && c.processors > 0 && Finished(states[|acts|]) && NoFileFailed(c, states[|acts|])
      modifies this
      ensures Shows() && view == states[|acts|]
      ensures input == Sequential(c, view).input
      ensures forall f :: !Contested(c, f) ==> SameAt(output, Cleaned(c, Sequential(c, view).output), f)
      ensures (forall f :: !Contested(c, f)) ==> output == Cleaned(c, Sequential(c, view).output)
    {
      Play(acts, states);
      EveryScheduleIsSequential(c, view);
    }
  }
}
