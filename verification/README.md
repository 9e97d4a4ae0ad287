# SyncFiles: a verified model

SyncFiles copies or moves one directory tree onto another. `Functions::Copy` lists both trees,
creates the missing directories, and starts `processors` worker threads. Four sorter threads
decide per file whether it replaces its counterpart and push it on the copy queue; the workers
drain that queue and the delete queue at the same time. When the sorters are done, the main
thread queues the output files without a counterpart for deletion, raises `_doneStuff`, joins
the workers and removes the output directories without a counterpart.

The project models this engine as a transition system in which the main thread, the sorters and
any number of workers take turns, one access to shared state at a time, over an abstract file
system; file operations may fail. `SyncObject` states the same as a class whose methods update
the queues, sets, flags and counters in place. The results are about every schedule:

- what becomes of each file, in terms of the two entries and the flags alone: the newer one wins,
  an older one replaces with force only, and so on, as well for whole calls on two listings;
- a call in which no file operation fails ends in the trees of a one-pass sequential copy, less
  what is deleted; all schedules agree exactly when no planned file is queued for deletion;
- every input name is at every moment in exactly one place, each copy and each deletion is tried
  by exactly one step of a run, and nothing queued is left at shutdown;
- decisions are those made on the initial snapshots, whatever the workers have done meanwhile;
- the counters obey conservation laws, and the two byte counters are right exactly under stated
  conditions;
- no reachable state is a deadlock, busy steps are bounded, and under a fair scheduler the call returns;
- delete-without-match mirrors the input exactly when a condition on the names holds, and so do
  the directories;
- copying is idempotent where the copies are not older than their originals.

Below the engine, `ts_deque` is modelled access by access under its spinlock and shown to be a
linearizable queue. The `Vector` and `String` wrappers and the order in which they take their
locks, the module lookup of the crash handler, and the two time formatters are the smaller parts.

Two words recur below. A run is complete when the call has returned, no copy has failed, and no
deletion has failed but of names that are directories. A file is contested when it is to be copied
and its name is queued for deletion too.

| file | content |
|---|---|
| `Paths`, `FileTrees` | names, the file system, 64-bit counters |
| `Snapshots` | prefix stripping, and what the engine is given |
| `AtomicQueue`, `SpinDeque` | the queue, and the spinlock-protected deque that implements it |
| `SyncEngine` | the transition system |
| `SyncShape`, `SyncPlaces`, `SyncDirs`, `SyncDeletions`, `SyncTrees`, `SyncDecisions`, `SyncCounters`, `SyncBytes`, `SyncInvariant` | the invariant, part by part, and that every step keeps it |
| `SyncPlan` | the per-file rule and the sequential copy |
| `SyncOnce`, `SyncOutcome`, `SyncResults`, `SyncCascade`, `SyncProgress`, `SyncFair`, `SyncTwice` | the results about every run |
| `SyncRule`, `SyncCall` | what becomes of each file, from the names of the engine and from the entries of two listings |
| `SyncHistory`, `SyncRemovals`, `SyncRounds` | what the single steps of a run do |
| `SyncSchedules`, `SyncMirror`, `SyncCounting`, `SyncVanish`, `SyncLimits` | schedules that exist, and the exact conditions they lead to |
| `SyncObject` | the engine as an object |
| `Vectors`, `Strings`, `LockOrder`, `ModuleLookup`, `TimeFormat`, `TimeColumns`, `Sums` | the smaller parts |

Where the code does less than it seems to promise:

- Line 403 of `src/Functions.cpp` puts `_outputPrefix` in front of a name that line 121 prefixes
  again. The field `queuedPrefix` of a configuration is what line 403 adds, as a path seen from
  the output root: `b/` for the output path `b`, but nothing for `.`. All results hold for any
  such text; `SyncMirror.RelativeNamesMirror` is about the empty one, which is what line 121
  expects, `SyncMirror.PrefixedNamesMiss` about the others, and `SyncLimits.DoublePrefixKeeps` is
  a concrete case.
- A doubly prefixed name can be that of a file to be copied. Then it depends on the schedule
  whether the file is there in the end: `SyncMirror.AgreeExactlyWhen`. It can also be that of an
  input directory. Exactly when such a directory can be missing for a copy or in the end is in
  `SyncVanish.ParentsStayExactlyWhen` and `SyncVanish.DirsStayExactlyWhen`. Concrete cases are in
  `SyncLimits.ContestedDiffers` and `SyncLimits.ParentLost`.
- In move mode the size of a file is read after it was pushed (lines 144-145), so
  `_bytesToCopy` can be wrong: `SyncCounting.TallyRightExactlyWhen`, `SyncLimits.MoveMiscounts`.
  `_bytesCopied` can be wrong if a copy is deleted before line 112 reads its size:
  `SyncCounting.WeighRightExactlyWhen`.
- With no worker nothing is ever copied: `SyncLimits.WithoutWorkers`.
- A path that ends with the separator makes the prefix one character too long:
  `Snapshots.NamesAreRightExactlyWhen`.
- A two-wrapper operation on a `Vector` or `String` and itself waits for its own lock before the
  comparison `this == &other` is reached (`Vectors.Play`, `Strings.String.IsLess`), and operations
  on the same wrappers in opposite orders can wait for each other:
  `LockOrder.CanDeadlockExactlyWhen`.
- A pointer equal to a module's base finds no module: `ModuleLookup.LookupExact`.

`dafny verify dfyconfig.toml` checks the project.

## Model

| member | source | states |
|---|---|---|
| `SyncRule.MatchedFile` | src/Functions.cpp:139-163 | after any run that has returned, with some worker, a file of both trees whose copy has not failed and under whose name nothing is queued for deletion: if the input's is newer its content is in the output; if it is older, with force only, and otherwise the output's entry is as it was; at equal times it replaces if overwriting is on or the sizes differ, and otherwise the entry is as it was; in move mode it has left the input exactly if it has replaced |
| `SyncRule.NewFile` | src/Functions.cpp:163-167 | a file that only the input had is in the output with its content, or, when moving, as it was and no longer in the input |
| `SyncRule.UnmatchedFile` | src/Functions.cpp:399-431 | a name that the input does not have: with delete-without-match a file below a directory that only the output has is gone, and one whose name is the prefix and that of a leftover is gone unless its deletion failed; every other one is as it was, and nothing new has come into being |
| `SyncRule.QueuedFile` | src/Functions.cpp:399-404 | in a complete run an input file under whose name a leftover is queued is gone from the output if it is not to be copied, and is there with its content or not at all otherwise |
| `SyncHistory.TriedOnce` | src/Functions.cpp:103-117 | in any run that returns exactly one step tries to copy a file that is new or that the rule replaces, and none any other |
| `SyncHistory.TryDecides` | src/Functions.cpp:105-115 | if that try fails its error is logged and the input keeps the file; if it succeeds no error is logged, and the output has the file from then on, with the time that this copy was given, or as it was when moving, if no leftover is queued under its name |
| `SyncHistory.TryTouchesOnly` | src/Functions.cpp:105-115 | it touches no other file and no directory, succeeds only into an existing directory, and a failed rename changes nothing |
| `SyncRemovals.RemovedOnce` | src/Functions.cpp:118-127 | in any run that returns exactly one step tries to remove a name that a leftover is queued under, and none any other |
| `SyncRemovals.RemovalDecides` | src/Functions.cpp:120-125 | if that try fails its error is logged and the disk is as it was; if it succeeds nothing is logged and nothing of that name is left in the output |
| `SyncRounds.QueuesInTurn` | src/Functions.cpp:101-128 | whatever fails, at any time a worker has looked at the copy queue as often as at the delete queue, or once more while it is between the two |
| `SyncCall.ListedFileEnds` | src/Functions.cpp:292-433 | a whole complete call on two listings: what becomes of each listed input file by the arguments of the call, its counterpart being the output's entry with the prefixes exchanged; when moving it leaves the input exactly if it arrives |
| `SyncCall.ListedTreesMirror` | src/Functions.cpp:399-431 | with the relative names that the worker expects, such a call with delete-without-match leaves in the output exactly the files and the directories that the input listed |
| `SyncOutcome.EveryScheduleIsSequential` | src/Functions.cpp:378-431 | for any number of workers >= 1 and any schedule, a complete run leaves exactly the input of one sequential pass by the time/size/force/overwrite rule, and at every name that is not contested its output, less the queued deletions and the leftover directories; a contested name holds its copy or nothing |
| `SyncMirror.AgreeExactlyWhen` | src/Functions.cpp:378-431 | any two complete runs leave the same files, but for the times stamped on copies, if and only if no file is contested |
| `SyncMirror.SchedulesAgree` | src/Functions.cpp:378-431 | also with two different numbers of workers, two complete runs leave the same input, and the same output at every name that is not contested |
| `SyncMirror.TargetedPlannedStays` | src/Functions.cpp:101-128 | a contested file is there after some complete run: its name is deleted before it is copied |
| `SyncPlan.OnePassAt` | src/Functions.cpp:141-167 | what the sequential pass leaves at a name depends only on what the two trees held at that name: the new entry if the rule says so, the old one otherwise |
| `SyncOnce.ExactlyOnce` | src/Functions.cpp:103-117 | at every step each input name is, as often as it is listed, waiting, with one sorter, skipped, queued, with one worker, copied, or logged as failed |
| `SyncOnce.DecisionsFollowPlan` | src/Functions.cpp:136-167 | an undecided name still has its initial entries and its initial membership in `OFilesSet`; a pushed name is in the plan on the snapshots, a skipped one is not |
| `SyncOnce.OnlyLeftoversStay` | src/Functions.cpp:386-403 | once the sorters are joined, `OFilesSet` is exactly the output files without a counterpart |
| `SyncDecisions.TurnFollowsPlan` | src/Functions.cpp:139-167 | a sorter that reads the times and sizes of the snapshots pushes exactly what the rule replaces, and then erases exactly what was in `OFilesSet` |
| `SyncDecisions.UndecidedIsUnspoilt` | src/Functions.cpp:103-112 | by the invariant, a name that no sorter has pushed or skipped reads on both sides and in `OFilesSet` as it did at the start, and there is none left once the sorters are joined |
| `SyncDecisions.StruckOut` | src/Functions.cpp:139-162 | when all sorters have left their loops every matched name has been erased and nothing else |
| `SyncOutcome.ExitMeansDrained` | src/Functions.cpp:101-128 | once any worker has left its loop, in that and every later state the flag is up and both queues are empty, although the exit test is three separate reads |
| `SyncResults.NothingLeftUndone` | src/Functions.cpp:399-414 | after the joins both queues are empty; the planned files are exactly those copied or logged as failed, and none is both; the names removed or logged are exactly the names queued for deletion |
| `SyncOutcome.InputsUnswept` | src/Functions.cpp:419-431 | removing leftover directories with all below them takes no input directory and no copy of an input file |
| `SyncResults.CounterLaw` | src/Functions.cpp:106-146 | at every step copied + failed + queued + in flight = counted pushes + pushes not yet counted, of which there are at most four, so `_filesCopied` is at most four ahead of `_filesToCopy` |
| `SyncResults.FinalCounters` | src/Functions.cpp:411-413 | at the end `_filesToCopy` is the size of the plan and copied + failed = to copy; `_bytesToCopy` and `_bytesCopied` are the bytes of the plan and of the copies modulo 2^64 under the conditions of the next two rows |
| `SyncRule.CountersInTheEnd` | src/Functions.cpp:143-166 | at the end `_filesToCopy` is the number of files that are new or that the rule replaces, copied and failed ones are as many, and when copying `_bytesToCopy` is the sum of their lengths, if that is below 2^64, and modulo 2^64 otherwise |
| `SyncRule.BytesCopiedInTheEnd` | src/Functions.cpp:111-112 | with one worker or without contested files `_bytesCopied` ends as the sum of the lengths of those of them that have not failed, again modulo 2^64, and as `_bytesToCopy` if none has failed and nothing is moved |
| `SyncBytes.WeightAdd` | src/Functions.cpp:145 | the sum of lengths: none for no file, and each further one adds the length of its content |
| `SyncCounting.TallyRightExactlyWhen` | src/Functions.cpp:144-146 | `_bytesToCopy` is the sum of the lengths of the files it has been told of, modulo 2^64, in every reachable state if and only if nothing is moved, or there is no worker, or every planned file is 2^64 - 1 bytes long modulo 2^64, which is what file_size answers for a missing file |
| `SyncCounting.WeighRightExactlyWhen` | src/Functions.cpp:111-121 | the same of `_bytesCopied` and the copies it has been told of, if and only if there is at most one worker, or every contested file is 2^64 - 1 bytes long modulo 2^64 |
| `SyncResults.CopyCanSucceed` | src/Functions.cpp:354-382 | whenever a worker is about to copy or rename, its source is as it was at the start, and every directory on the way to its target exists whose own name is not queued for deletion, so it can succeed, at any time stamp, and it can always fail; the exact condition is in the next row |
| `SyncVanish.ParentsStayExactlyWhen` | src/Functions.cpp:105-127 | in every reachable state every directory on the way to a copy's target exists, if and only if for no planned file and no directory above it all names listed at and below that directory are queued for deletion, or there is no worker, or a single one and fewer planned files than those names |
| `SyncVanish.ParentCanVanish` | src/Functions.cpp:105-127 | otherwise some schedule deletes the directory, longest names first, before the file is copied, which then cannot succeed |
| `SyncVanish.DirsStayExactlyWhen` | src/Functions.cpp:419-431 | every run ends with exactly the directories of the input, or of both trees without deletion, if and only if there is no worker or for no input directory all names listed at and below it are queued for deletion |
| `SyncVanish.DirCanVanish` | src/Functions.cpp:118-127 | otherwise some run ends without that directory |
| `SyncCascade.RemovedBottomUp` | src/Functions.cpp:121 | where a directory has been removed by its queued name, so has everything that the trees list below it |
| `SyncCascade.FewRemoved` | src/Functions.cpp:101-128 | a single worker with a file in hand has removed at most as many names as files are planned, because between two removals it takes a file |
| `SyncResults.Directories` | src/Functions.cpp:354-371 | in whatever order the set is walked, the directory pass ends with the directories of both trees and `ODirSet` = output minus input; cleanup ends with exactly the input's; in either only directories are missing that workers have deleted by their queued names |
| `SyncDirs.RemainingWithout` | src/Functions.cpp:422-428 | after each removal, in any order and with nested directories already gone, what remains is exactly what lies in none of the directories removed so far |
| `SyncResults.ErrorsStayLocal` | src/Functions.cpp:113-125 | at the end of any run the input has lost exactly the files that were moved, and an output name neither queued for deletion nor swept whose copy did not fail is as the plan has it |
| `SyncResults.SecondCallPlans` | src/Functions.cpp:139-167 | after a complete run a second call without force and overwrite plans exactly what is still in the input and is missing in the output, having been queued for deletion, or was copied with a time older than its original's |
| `SyncTwice.LeavesValid` | src/Functions.cpp:292-433 | whatever a run has done and whatever failed in it, the trees and directories that it leaves are fit for another call: every file's directories exist |
| `SyncTwice.SecondRunChangesNothing` | src/Functions.cpp:139-167 | after a complete run that left no copy older than its original and no input file missing, a complete second run without force and overwrite leaves the input as it is, and the output but for what delete-without-match takes away |
| `SyncSchedules.NoDeadlock` | src/Functions.cpp:379-415 | in every reachable unfinished state some step is enabled that lowers the potential |
| `SyncProgress.StepFalls` | src/Functions.cpp:101-170 | every step lowers the potential, except that of a worker which looks again while there is nothing to do and the flag is down |
| `SyncProgress.BusyStepsBounded` | src/Functions.cpp:101-170 | no run has more busy steps than the potential it starts with |
| `SyncProgress.BusyStepsCounted` | src/Functions.cpp:101-170 | which is (14 files + 4 output files + input and output directories + 2 workers + 16) * (6 workers + 9) |
| `SyncFair.FairRunsReturn` | src/Functions.cpp:101-170 | if every thread that can run gets a turn among any n steps in a row, a run that has not returned has fewer than n * (B + 1) steps, B being that number |
| `SyncFair.CanRunExactlyWhen` | src/Functions.cpp:101-170 | a thread can run exactly if one of its steps is enabled |
| `SyncSchedules.Completion` | src/Functions.cpp:378-433 | from every reachable state in which no file operation has failed and no input directory has been deleted the call can return completely |
| `SyncSchedules.CopiesFirst` | src/Functions.cpp:386-403 | some schedule finishes all copies while nothing has been queued for deletion |
| `SyncMirror.MirrorsExactlyWhen` | src/Functions.cpp:399-431 | all complete runs end with the input's files if and only if no input name is queued for deletion and every leftover is queued or lies in a leftover directory |
| `SyncMirror.RelativeNamesMirror` | src/Functions.cpp:118-127 | with the relative names that the worker expects, delete-without-match ends with exactly the input's files |
| `SyncMirror.PrefixedNamesMiss` | src/Functions.cpp:403 | with a prefix in front, and no leftover in a leftover directory, there is a leftover that every complete run keeps as it was |
| `SyncMirror.UntouchedLeftoverStays` | src/Functions.cpp:402-404 | a leftover that is neither queued by its name nor swept is as it was after every complete run |
| `SyncMirror.TargetedInputGoes` | src/Functions.cpp:118-127 | an input name that is queued for deletion is missing after some complete run |
| `SyncLimits.WithoutWorkers` | src/Functions.cpp:379-413 | without workers all copies and deletions are still queued at the end and no file is touched outside swept directories |
| `SyncLimits.MoveMiscounts` | src/Functions.cpp:144-145 | moving one empty file with one worker there is a run in which `_bytesToCopy` is not 0 |
| `SyncLimits.DoublePrefixKeeps` | src/Functions.cpp:403 | with output path b and the one leftover x there is a complete run, and every complete run keeps x |
| `SyncLimits.ContestedDiffers` | src/Functions.cpp:403 | with output path b, input file b/x, leftover x and two workers, complete runs differ and `_bytesCopied` can be wrong |
| `SyncLimits.ParentLost` | src/Functions.cpp:403 | with output path b, input file b/g/y and leftover g, directory b/g can be missing for the copy and in the end |
| `SyncInvariant.ReachableInv` | src/Functions.cpp:96-433 | the invariant holds in every reachable state |
| `SyncObject.Functions.constructor` | include/Functions.h:17-88 | a fresh object is in the initial state |
| `SyncObject.Functions.Play` | src/Functions.cpp:378-415 | turns in the order of any schedule lead the object through the states of a run |
| `SyncObject.Functions.PlayToTheEnd` | src/Functions.cpp:292-433 | after any schedule that leads to a complete run the fields of the object hold the sequential result, at every name that is not contested |
| `Snapshots.StripToQueue` | src/Functions.cpp:45-51 | the queue holds every entry without its prefix, in order; it throws exactly when an entry is shorter than the prefix |
| `Snapshots.StripToSet` | src/Functions.cpp:53-73 | the set holds exactly the entries without their prefixes |
| `Snapshots.StripInverts` | src/Functions.cpp:49 | prefix and name give the entry back if and only if the entry starts with the prefix |
| `Snapshots.NamesAreRightExactlyWhen` | src/Functions.cpp:320-323 | the name of what a listing shows below a root is right, and the prefix restores the entry, if and only if the root does not end with the separator; otherwise the name lacks its first character |
| `Snapshots.Prepare` | src/Functions.cpp:294-341 | the call's flags and number of workers are those of the engine, the four helpers make of two listings its queue, in order, its file set and its directory sets, the prefix restoring each entry, and these are what the engine's results require: distinct, never empty, with all their directories |
| `SpinDeque.MutualExclusion` | include/Threading.h:5-22 | at most one thread is in a critical section, and the flag is up exactly while one is |
| `SpinDeque.StepRefines` | include/Types.h:268-276 | each access of a thread changes nothing in the queue or is the whole effect of one call |
| `SpinDeque.Linearizable` | include/Types.h:268-276 | every finished call was begun by its thread, and at a point of a legal history between its start and its return `get_pop_front` takes the oldest push not yet popped or throws if there is none, `empty` tells whether there is none, and `size` how many there are |
| `SpinDeque.RealTimeOrder` | include/Types.h:332-389 | calls that do not overlap take effect in the order they were made |
| `SpinDeque.NothingLost` | include/Types.h:268-389 | the pops so far followed by the contents are the pushes so far |
| `SpinDeque.FirstInFirstOut` | include/Types.h:268-276 | the same of every legal history |
| `SpinDeque.AnswersByHistory` | include/Types.h:268-342 | what each call of a legal history answers, by the pushes and pops before it |
| `SpinDeque.CallsAdvance` | include/Threading.h:5-22 | an access moves no other thread, begins the call asked for, and brings the call nearer to its return unless another thread is in its critical section |
| `SpinDeque.HolderReleases` | include/Threading.h:18-21 | the holder of the flag lowers it within four of its own accesses, and no other thread can move it |
| `SpinDeque.TsDeque.PushBack` | include/Types.h:380-384 | one thread's push_back appends and gives the flag back |
| `SpinDeque.TsDeque.GetPopFront` | include/Types.h:268-276 | one thread's get_pop_front takes the front or throws, and gives the flag back either way |
| `SpinDeque.TsDeque.Empty` | include/Types.h:332-336 | empty tells whether the queue has no element, and gives the flag back |
| `SpinDeque.TsDeque.Size` | include/Types.h:338-342 | size is the length of the queue, and the flag is given back |
| `Vectors.Play` | include/Types.h:739-904 | any history over any number of wrappers holds what plain sequences hold, no two wrappers own the same storage, and all storage that none points to is deleted; it stops exactly at an operation on a wrapper and itself |
| `Vectors.NewWrappers` | include/Types.h:725 | fresh wrappers own nothing and hold nothing: where every history begins |
| `Vectors.Vector.PushBack` | include/Types.h:820-829 | a null wrapper gets storage of its own; the value is appended |
| `Vectors.Vector.Clear` | include/Types.h:776-818 | clear and reset delete the storage and read as empty |
| `Vectors.Vector.Reserve` | include/Types.h:897-904 | reserve changes no contents |
| `Vectors.Vector.Swap` | include/Types.h:882-895 | in all four null cases the contents change places and no storage changes its owner |
| `Vectors.Vector.CopyAssign` | include/Types.h:739-753 | the old storage is deleted and the new one is a fresh copy |
| `Vectors.Vector.MoveAssign` | include/Types.h:755-767 | the old storage is deleted and the other's changes its owner |
| `Strings.FirstDifference` | include/Types.h:657 | the order of set strings is decided by their first difference |
| `Strings.LexByNextByte` | include/Types.h:657 | after a shared beginning what ends comes first, and otherwise the smaller next byte |
| `Strings.TotalPreorder` | include/Types.h:652-668 | `<=` is a total preorder with `<` as its strict part and unset as its greatest element, `>=` is its converse and `>` the strict part of that |
| `Strings.NeitherLess` | include/Types.h:652-678 | neither is less exactly when `==` holds or both are unset, where `==` is false |
| `Strings.String.IsLess` | include/Types.h:652-665 | the operator takes both locks and computes the order, or hangs on itself |
| `Strings.String.IsLessOrEqual` | include/Types.h:666-667 | the operator, by way of the negation of the other one's `<` |
| `Strings.String.IsGreater` | include/Types.h:666 | the operator, as the other one's `<` |
| `Strings.String.IsGreaterOrEqual` | include/Types.h:668 | the operator, as the negation of `<` |
| `Strings.String.IsEqual` | include/Types.h:669-677 | the operator, false as soon as one side is unset |
| `LockOrder.CanDeadlockExactlyWhen` | include/Types.h:652-678 | any number of threads, each making a sequence of operations on two wrappers, can end with all that are not through spinning if and only if one operation of each of some threads can be picked so that each one's second wrapper is another's first and no two have the same first |
| `LockOrder.TwoOperations` | include/Types.h:739-895 | two threads with one operation each can deadlock exactly if one is on a wrapper and itself or they take the same two in opposite orders |
| `ModuleLookup.LowerBound` | CrashHandler/Introspection/Introspection.cpp:22-28 | binary search over the reversed list finds the first module, in descending order, that starts below the pointer |
| `ModuleLookup.GetModuleForPointer` | CrashHandler/Introspection/Introspection.cpp:18-30 | the answer is that of a linear search, and for disjoint non-empty images module i exactly for base < p < base + size |
| `ModuleLookup.FindsAllExactlyWhen` | CrashHandler/Introspection/Introspection.cpp:26-29 | every address strictly inside an image finds that image if and only if no image reaches past the first byte of a later one |
| `ModuleLookup.LookupExact` | CrashHandler/Modules/ModuleHandler.h:142-153 | for disjoint non-empty images module i is found exactly for base < p < base + size, and a base finds nothing |
| `ModuleLookup.AnyEnumeration` | CrashHandler/Modules/ModuleHandler.cpp:310-315 | the order in which modules were enumerated does not matter once they are sorted |
| `ModuleLookup.EmptyImageHides` | CrashHandler/Introspection/Introspection.cpp:26-29 | an empty image inside another one hides what follows it there |
| `TimeFormat.FormatTime` | src/Functions.cpp:449-473 | the text of a count of microseconds; its numbers times what their units are worth add up to it |
| `TimeFormat.FormatTimeNS` | src/Functions.cpp:475-505 | the same of nanoseconds |
| `TimeFormat.TextsSayHowLong` | src/Functions.cpp:449-505 | a reader that knows only what m, s, ms, μs and ns are worth gets the count back from either text, for every integer |
| `TimeFormat.Numerals` | src/Functions.cpp:455 | numbers are written as decimal numerals, the sign in front |
| `TimeColumns.NanosColumns` | src/Functions.cpp:475-505 | below a million minutes: in which column each unit is named, for exactly which counts it is, and for exactly which counts the text is 30 characters long and not 29, and what then stands one column further to the right |
| `TimeColumns.MicrosColumns` | src/Functions.cpp:449-473 | the same of microseconds, with 24 and 23 |
| `TimeFormat.ReadsBack` | src/Functions.cpp:475-505 | reading the padded text, unit by unit, gives the count back, for every integer |
| `TimeFormat.RoundTrip` | src/Functions.cpp:449-505 | both formats round-trip, so in either different counts have different texts |
| `TimeFormat.FieldsFit` | src/Functions.cpp:453-470 | for counts that are not negative no field after the first exceeds what its unit has room for, and a full one is followed by zeros only |
| `TimeFormat.NanosFit` | src/Functions.cpp:479-503 | seconds <= 60, ms, us and ns <= 1000, the bound only before zeros, and the fields add up to the count |
| `TimeFormat.MicrosFit` | src/Functions.cpp:453-471 | the same of microseconds |

## Left out

- Directory iteration, symbolic links and their targets, console output, timings: the two trees are given as maps from names to content and time.
- Path normalisation: names are literal strings, so two spellings of one path are two names.
- `create_directories` and `remove_all` never fail here, and `remove_all` is one step.
- Names that are a file in one tree and a directory in the other are excluded by `SyncEngine.Valid`.
- The condition variable: its waits are never notified and end after 10 ms, so they are steps without effect.
- Unsynchronised access to `OFilesSet` and to the plain `bool` `_doneStuff`: each access is one indivisible step.
- `errors` is one list of messages; here the failed copies and the failed deletions are two lists of names.
- `cdeleted`: bumped without synchronisation and never read.
- A second call on the same `Functions` object: `_doneStuff` and the listings keep their values there; every call is modelled on a fresh object.
- `processors` as a negative number: it starts no worker, as 0 does.
- Fairness is a hypothesis of `SyncFair.FairRunsReturn` and of nothing else: without it a worker may look for work again and again.
- Weak memory: the accesses of all threads are interleaved.
- The engine's threads are positions in a transition system and not stacks of running calls; `SyncObject` has one method per turn.
- `std::sort` and `std::lower_bound` on a list that is not sorted: the sort is taken to sort.
- Allocation failures, `begin`, `end`, `data`, `operator[]` and the swap with a plain `std::vector` of `Vector`; assignment and `+=` of `String`.
- The iterator- and reference-returning methods of `ts_deque`, `ts_front`, `ts_back`, `emplace`, and its explicit destructor calls.
- `TimeFormat.FormatTimeNS`: does not model the rounding of a `long double` quotient, nor does `TimeFormat.FormatTime`; both divide integers, and counts have no bounds.
- `include/ThreadSafe.h`, `Helper_CreateDirs` (its thread is commented out), `ReconstitueSymlinks`, `Search`, option parsing in `main`, `GetSize`.
- The rest of the crash handler: debug information, run-time type information, disassembly, registers, logging.
