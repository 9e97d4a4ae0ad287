/**
  What a finished call has done to each name, said in terms of the two listings, the flags and
  the entries alone: the per-file rule, the fate of the files that only the output has, and the
  final counters.
 */
module SyncRule {
  import opened Paths
  import opened SyncEngine
  import opened SyncPlan
  import opened SyncCounters
  import opened SyncBytes
  import opened SyncInvariant
  import opened SyncOutcome
  import opened SyncResults
  import opened SyncTwice

  // ---- Single names ----------------------------------------------------------------------------

  lemma QueuedUnder(c: Config, f: Path)
    ensures f in Targets(c) <==>
              c.deleteWithoutMatch && exists h :: h in c.output && h !in c.input && c.queuedPrefix + h == f
  {
  }

  lemma UnderStartsWith(d: Path, f: Path)
    ensures Under(d, f) <==> d + [SEPARATOR] <= f
  {
    if Under(d, f) {
      assert f[..|d| + 1] == d + [SEPARATOR];
    }
    if d + [SEPARATOR] <= f {
      assert f[..|d|] == d;
    }
  }

  lemma SweptUnder(c: Config, f: Path)
    requires Valid(c) && f in c.input.Keys + c.output.Keys
    ensures IsSwept(SweptDirs(c), f) <==>
              c.deleteWithoutMatch && exists d :: d in c.outDirs && d !in c.inDirs && d + [SEPARATOR] <= f
  {
    forall d | d in c.outDirs ensures d + [SEPARATOR] <= f <==> AtOrUnder(d, f) {
      UnderStartsWith(d, f);
    }
    if c.deleteWithoutMatch && exists d :: d in c.outDirs && d !in c.inDirs && d + [SEPARATOR] <= f {
      var d :| d in c.outDirs && d !in c.inDirs && d + [SEPARATOR] <= f;
      assert d in LeftoverDirs(c);
    }
  }

  /**
    A file that both trees have, under whatever schedule, if its copy has not failed and no
    leftover is queued for deletion under its name. The newer file wins; an older input file
    replaces its counterpart with force only; of two files of the same age the input's replaces
    the other if overwriting is on or their sizes differ. In move mode a file leaves the input
    exactly when it replaces its counterpart.
   */
  lemma MatchedFile(c: Config, s: State, f: Path)
    requires Valid(c) && Reachable(c, s) && Finished(s) && c.processors > 0
    requires f in c.input && f in c.output && f !in s.shared.names.copyErrors
    requires c.deleteWithoutMatch ==> forall h :: h in c.output && h !in c.input ==> c.queuedPrefix + h != f
    ensures f in s.shared.disk.output
    ensures var i, o, d := c.input[f], c.output[f], s.shared.disk.output[f];
      && (i.time > o.time ==> d.content == i.content)
      && (i.time < o.time && c.force ==> d.content == i.content)
      && (i.time < o.time && !c.force ==> d == o)
      && (i.time == o.time && c.overwriteExisting ==> d.content == i.content)
      && (i.time == o.time && |i.content| != |o.content| ==> d.content == i.content)
      && (i.time == o.time && !c.overwriteExisting && |i.content| == |o.content| ==> d == o)
    ensures var i, o := c.input[f], c.output[f];
      var kept :=
        || (i.time < o.time && !c.force)
        || (i.time == o.time && !c.overwriteExisting && |i.content| == |o.content|);
      && (f in s.shared.disk.input <==> !c.move || kept)
      && (f in s.shared.disk.input ==> s.shared.disk.input[f] == i)
      && (c.move && !kept ==> s.shared.disk.output[f] == i)
  {
    QueuedUnder(c, f);
    InputsUnswept(c, f);
    ErrorsStayLocal(c, s, f);
  }

  /**
    A file that only the input has arrives: as it is, out of the input, when moved, and with its
    content when copied.
   */
  lemma NewFile(c: Config, s: State, f: Path)
    requires Valid(c) && Reachable(c, s) && Finished(s) && c.processors > 0
    requires f in c.input && f !in c.output && f !in s.shared.names.copyErrors
    requires c.deleteWithoutMatch ==> forall h :: h in c.output && h !in c.input ==> c.queuedPrefix + h != f
    ensures f in s.shared.disk.output && s.shared.disk.output[f].content == c.input[f].content
    ensures f in s.shared.disk.input <==> !c.move
    ensures if c.move then s.shared.disk.output[f] == c.input[f] else s.shared.disk.input[f] == c.input[f]
  {
    QueuedUnder(c, f);
    InputsUnswept(c, f);
    ErrorsStayLocal(c, s, f);
  }

  /**
    A name that the input does not have. Without delete-without-match it is as it was. With it,
    a file in a directory that only the output has is gone, and so is one whose name is that of
    a leftover behind the prefix, unless the deletion has failed; any other file is as it was.
    Nothing else comes into being.
   */
  lemma UnmatchedFile(c: Config, s: State, f: Path)
    requires Valid(c) && Reachable(c, s) && Finished(s) && c.processors > 0 && f !in c.input
    ensures f !in s.shared.disk.input && (f in s.shared.disk.output ==> f in c.output)
    ensures f in c.output ==>
              var swept :=
                c.deleteWithoutMatch && exists d :: d in c.outDirs && d !in c.inDirs && d + [SEPARATOR] <= f;
              var queued :=
                c.deleteWithoutMatch && exists h :: h in c.output && h !in c.input && c.queuedPrefix + h == f;
              && (f in s.shared.disk.output <==> !swept && (queued ==> f in s.shared.deletions.errors))
              && (f in s.shared.disk.output ==> s.shared.disk.output[f] == c.output[f])
  {
    NothingForeign(c, s);
    if f in c.output {
      QueuedUnder(c, f);
      SweptUnder(c, f);
      NothingLeftUndone(c, s, f);
      ReachableInv(c, s);
      assert f !in s.shared.names.copyErrors;
      Ending(c, s, f);
    }
  }

  /**
    An input file whose name a leftover is queued under, when nothing has failed: if it is not
    to be copied it is gone from the output, and otherwise the output holds it or nothing. The
    input is as with any other file.
   */
  lemma QueuedFile(c: Config, s: State, f: Path)
    requires Valid(c) && Reachable(c, s) && Finished(s) && c.processors > 0 && NoFileFailed(c, s)
    requires f in c.input && c.deleteWithoutMatch
    requires exists h :: h in c.output && h !in c.input && c.queuedPrefix + h == f
    ensures var output, i := s.shared.disk.output, c.input[f];
      var kept := f in c.output &&
        var o := c.output[f];
        || (i.time < o.time && !c.force)
        || (i.time == o.time && !c.overwriteExisting && |i.content| == |o.content|);
      && (kept ==> f !in output)
      && (f in output ==> output[f].content == i.content && (c.move ==> output[f] == i))
      && (f in s.shared.disk.input <==> !c.move || kept)
      && (f in s.shared.disk.input ==> s.shared.disk.input[f] == i)
  {
    QueuedUnder(c, f);
    InputsUnswept(c, f);
    EndsByPlan(c, s, f);
  }

  // ---- The final counters ----------------------------------------------------------------------

  /** The files that are to be copied, by the rule. */
  lemma PlanByRule(c: Config)
    ensures PlannedNames(c) == set f | f in c.input &&
              (f in c.output ==>
                var i, o := c.input[f], c.output[f];
                || i.time > o.time
                || (i.time < o.time && c.force)
                || (i.time == o.time && (c.overwriteExisting || |i.content| != |o.content|)))
  {
  }

  /**
    What the four counters show in the end. _filesToCopy is the number of the files that the
    rule replaces or that are new, and each has been copied or has failed. _bytesToCopy is
    their bytes modulo 2^64 when nothing is moved, so below 2^64 it is exact.
   */
  lemma CountersInTheEnd(c: Config, s: State)
    requires Valid(c) && Reachable(c, s) && Finished(s) && c.processors > 0
    ensures var totals := s.shared.totals;
      var plan := set f | f in c.input &&
        (f in c.output ==>
          var i, o := c.input[f], c.output[f];
          || i.time > o.time
          || (i.time < o.time && c.force)
          || (i.time == o.time && (c.overwriteExisting || |i.content| != |o.content|)));
      var bytes := Weight(c.files, c.input, plan);
      && totals.filesToCopy == |plan|
      && totals.filesCopied + |s.shared.names.copyErrors| == |plan|
      && (!c.move ==> totals.bytesToCopy == bytes % 0x1_0000_0000_0000_0000)
      && (!c.move && bytes < 0x1_0000_0000_0000_0000 ==> totals.bytesToCopy == bytes)
  {
    FinalCounters(c, s);
    PlanByRule(c);
  }

  lemma CopiedByRule(c: Config, s: State)
    requires Valid(c) && Reachable(c, s) && Finished(s) && c.processors > 0
    ensures CopiedNames(s.shared.names) == set f | f in c.input && f !in s.shared.names.copyErrors &&
              (f in c.output ==>
                var i, o := c.input[f], c.output[f];
                || i.time > o.time
                || (i.time < o.time && c.force)
                || (i.time == o.time && (c.overwriteExisting || |i.content| != |o.content|)))
  {
    PlanByRule(c);
    forall f ensures f in CopiedNames(s.shared.names) <==> f in PlannedNames(c) && f !in s.shared.names.copyErrors {
      NothingLeftUndone(c, s, f);
    }
  }

  lemma BytesCopied(c: Config, s: State)
    requires Valid(c) && Reachable(c, s) && Finished(s) && c.processors > 0
    requires c.processors == 1 || forall f :: !Contested(c, f)
    ensures var totals, n := s.shared.totals, s.shared.names;
      && totals.filesCopied == |CopiedNames(n)|
      && totals.bytesCopied == Weight(c.files, c.input, CopiedNames(n)) % 0x1_0000_0000_0000_0000
      && (n.copyErrors == [] && !c.move ==> totals.bytesCopied == totals.bytesToCopy)
  {
    FinalCounters(c, s);
    assert WeighExact(c) by {
      forall f | Planned(c, f) && f in Targets(c) ensures Contested(c, f) {
      }
    }
  }

  /**
    _bytesCopied is the bytes of the files copied, those of the plan whose copies have not
    failed, modulo 2^64, when no other worker can delete a copy: with one worker, or if no file
    to be copied has the name that a leftover is queued under. If then no copy has failed and
    nothing is moved, it ends as _bytesToCopy does.
   */
  lemma BytesCopiedInTheEnd(c: Config, s: State)
    requires Valid(c) && Reachable(c, s) && Finished(s) && c.processors > 0
    requires c.processors == 1 || forall f :: !Contested(c, f)
    ensures var totals, n := s.shared.totals, s.shared.names;
      var copied := set f | f in c.input && f !in n.copyErrors &&
        (f in c.output ==>
          var i, o := c.input[f], c.output[f];
          || i.time > o.time
          || (i.time < o.time && c.force)
          || (i.time == o.time && (c.overwriteExisting || |i.content| != |o.content|)));
      var bytes := Weight(c.files, c.input, copied);
      && totals.filesCopied == |copied|
      && totals.bytesCopied == bytes % 0x1_0000_0000_0000_0000
      && (bytes < 0x1_0000_0000_0000_0000 ==> totals.bytesCopied == bytes)
      && (n.copyErrors == [] && !c.move ==> totals.bytesCopied == totals.bytesToCopy)
  {
    BytesCopied(c, s);
    CopiedByRule(c, s);
  }
}
