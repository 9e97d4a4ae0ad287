/** A whole call, from the entries that enumerating the two trees has listed to what is left of them. */
module SyncCall {
  import opened Paths
  import opened FileTrees
  import opened SyncEngine
  import opened SyncRule
  import opened SyncPlan
  import opened SyncResults
  import opened SyncSchedules
  import opened SyncMirror
  import opened Snapshots

  /** s is where a call with these arguments on the listed trees has ended, with some worker and nothing failed. */
  ghost predicate Ends(i: Snapshot, o: Snapshot, input: Tree, output: Tree, arguments: Config, s: State) {
    && Listings(i, o, input, output) && arguments.processors > 0
    && LongEnough(i.prefix, i.files) && LongEnough(i.prefix, i.dirs) && LongEnough(o.prefix, o.dirs)
    && Complete(Prepared(i, o, input, output, arguments), s)
  }

  lemma ListedName(s: Snapshot, entry: Path)
    requires Enumerated(s) && (entry in s.files || entry in s.dirs)
    ensures |s.prefix| < |entry| && s.prefix + entry[|s.prefix|..] == entry
  {
    StripInverts(s.prefix, entry);
  }

  lemma NameListed(s: Snapshot, name: Path)
    requires Enumerated(s) && LongEnough(s.prefix, s.files)
    ensures name in Stripped(s.prefix, s.files) <==> s.prefix + name in s.files
  {
    StrippedIff(s, s.files, name);
  }

  lemma InputsUnqueued(c: Config)
    requires Valid(c) && (!c.deleteWithoutMatch || c.queuedPrefix == "")
    ensures forall f, h :: f in c.input && c.deleteWithoutMatch && h in c.output && h !in c.input ==>
              c.queuedPrefix + h != f
    ensures Targets(c) !! c.inDirs
  {
    forall h: Path ensures c.queuedPrefix == "" ==> c.queuedPrefix + h == h {
    }
  }

  lemma EndsWithDirs(c: Config, s: State)
    requires Valid(c) && Reachable(c, s) && Finished(s) && c.deleteWithoutMatch && c.queuedPrefix == ""
    ensures s.shared.disk.dirs == c.inDirs
  {
    Directories(c, s);
    InputsUnqueued(c);
  }

  /**
    What becomes of a listed input file, without delete-without-match or if that is given the
    names which the workers expect. Its counterpart is the entry of the output with the prefixes
    exchanged. With none it is new and arrives; with one the rule decides on the two entries and
    the arguments of the call. When moving, the file leaves the input exactly if it arrives;
    when copying the input keeps it.
   */
  lemma ListedFileEnds(i: Snapshot, o: Snapshot, input: Tree, output: Tree, arguments: Config, s: State, entry: Path)
    requires Ends(i, o, input, output, arguments, s) && entry in i.files
    requires !arguments.deleteWithoutMatch || arguments.queuedPrefix == ""
    ensures |i.prefix| <= |entry|
    ensures var name := entry[|i.prefix|..];
      && name in input && (name in output <==> o.prefix + name in o.files)
      && name in s.shared.disk.output
      && var kept := name in output &&
           var x, y := input[name], output[name];
           || (x.time < y.time && !arguments.force)
           || (x.time == y.time && !arguments.overwriteExisting && |x.content| == |y.content|);
      && (if kept then s.shared.disk.output[name] == output[name]
          else s.shared.disk.output[name].content == input[name].content)
      && (name in s.shared.disk.input <==> !arguments.move || kept)
      && (arguments.move && !kept ==> s.shared.disk.output[name] == input[name])
  {
    var c, name := Prepared(i, o, input, output, arguments), entry[|i.prefix|..];
    PreparedIsFit(i, o, input, output, arguments);
    ListedName(i, entry);
    NameListed(i, name);
    PreparedNames(i, o, input, output, arguments);
    NameListed(o, name);
    InputsUnqueued(c);
    if name in output {
      MatchedFile(c, s, name);
    } else {
      NewFile(c, s, name);
    }
  }

  /** With those names delete-without-match leaves the output with the files and directories that the input had. */
  lemma ListedTreesMirror(i: Snapshot, o: Snapshot, input: Tree, output: Tree, arguments: Config, s: State)
    requires Ends(i, o, input, output, arguments, s)
    requires arguments.deleteWithoutMatch && arguments.queuedPrefix == ""
    ensures forall f :: f in s.shared.disk.output <==> i.prefix + f in i.files
    ensures forall d :: d in s.shared.disk.dirs <==> i.prefix + d in i.dirs
  {
    var c := Prepared(i, o, input, output, arguments);
    PreparedIsFit(i, o, input, output, arguments);
    PreparedNames(i, o, input, output, arguments);
    RelativeNamesMirror(c);
    EndsWithDirs(c, s);
    assert s.shared.disk.output.Keys == input.Keys;
  }
}
