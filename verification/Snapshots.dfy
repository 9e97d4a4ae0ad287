/** Where the names that the engine works on come from: the entries of two trees, cut to what follows the prefix. */
module Snapshots {
  import opened Paths
  import opened FileTrees
  import opened SyncEngine

  /** What enumerating one tree has collected, and the prefix that main puts together from its root. */
  datatype Snapshot = Snapshot(prefix: Path, files: seq<Path>, dirs: seq<Path>)

  /** root.wstring().append(1, preferred_separator) */
  function PrefixOf(root: Path): Path {
    root + [SEPARATOR]
  }

  /** entry.substr(prefixlength, entry.size() - prefixlength) */
  function Strip(prefix: Path, entry: Path): Path
    requires |prefix| <= |entry|
  {
    entry[|prefix|..]
  }

  predicate LongEnough(prefix: Path, entries: seq<Path>) {
    forall e :: e in entries ==> |prefix| <= |e|
  }

  /** Helper_IFiles. substr throws on an entry that is shorter than the prefix, which ends the process. */
  method StripToQueue(prefix: Path, entries: seq<Path>) returns (ok: bool, queue: seq<Path>)
    ensures ok <==> forall i :: 0 <= i < |entries| ==> |prefix| <= |entries[i]|
    ensures ok ==> |queue| == |entries| && forall i :: 0 <= i < |entries| ==> queue[i] == entries[i][|prefix|..]
  {
    ok, queue := true, [];
    var i := 0;
    while i < |entries|
      invariant i <= |entries| && ok
      invariant |queue| == i
      invariant forall k :: 0 <= k < i ==> |prefix| <= |entries[k]| && queue[k] == Strip(prefix, entries[k])
    {
      if |entries[i]| < |prefix| {
        return false, queue;
      }
      queue := queue + [Strip(prefix, entries[i])];
      i := i + 1;
    }
  }

  function Stripped(prefix: Path, entries: seq<Path>): set<Path>
    requires LongEnough(prefix, entries)
  {
    set i | 0 <= i < |entries| :: Strip(prefix, entries[i])
  }

  /** Helper_OFiles, Helper_IDirSet and Helper_ODirSet. */
  method StripToSet(prefix: Path, entries: seq<Path>) returns (ok: bool, names: set<Path>)
    ensures ok <==> forall i :: 0 <= i < |entries| ==> |prefix| <= |entries[i]|
    ensures ok ==> names == set i | 0 <= i < |entries| :: entries[i][|prefix|..]
  {
    ok, names := true, {};
    var i := 0;
    while i < |entries|
      invariant i <= |entries| && ok
      invariant LongEnough(prefix, entries[..i]) && names == Stripped(prefix, entries[..i])
    {
      if |entries[i]| < |prefix| {
        return false, names;
      }
      assert entries[..i + 1] == entries[..i] + [entries[i]];
      StrippedGrows(prefix, entries[..i], entries[i]);
      names := names + {Strip(prefix, entries[i])};
      i := i + 1;
    }
    assert entries[..i] == entries;
    assert names == Stripped(prefix, entries);
  }

  lemma StrippedGrows(prefix: Path, entries: seq<Path>, e: Path)
    requires LongEnough(prefix, entries) && |prefix| <= |e|
    ensures LongEnough(prefix, entries + [e])
    ensures Stripped(prefix, entries + [e]) == Stripped(prefix, entries) + {Strip(prefix, e)}
  {
    forall i | 0 <= i < |entries| ensures (entries + [e])[i] == entries[i] {
    }
    assert (entries + [e])[|entries|] == e;
  }

  // ---- What the names are good for -------------------------------------------------------------

  /** Putting the prefix back gives the entry exactly for the entries that start with it. */
  lemma StripInverts(prefix: Path, entry: Path)
    requires |prefix| <= |entry|
    ensures prefix + Strip(prefix, entry) == entry <==> prefix <= entry
  {
    assert entry == entry[..|prefix|] + entry[|prefix|..];
  }

  predicate EndsWithSeparator(root: Path) {
    root != "" && root[|root| - 1] == SEPARATOR
  }

  /** How a listing of root names what lies at rel below it: a separator is put in only if there is none. */
  function Listed(root: Path, rel: Path): Path {
    if EndsWithSeparator(root) then root + rel else root + [SEPARATOR] + rel
  }

  /**
    The prefix has one separator more than the root, whatever the root. So the name of what is
    listed below it is right, and putting the prefix back gives the entry, exactly when the root
    does not end with a separator; otherwise the name has lost its first character.
   */
  lemma NamesAreRightExactlyWhen(root: Path, rel: Path)
    requires root != "" && rel != "" && rel[0] != SEPARATOR
    ensures var prefix, entry := PrefixOf(root), Listed(root, rel);
      && |prefix| <= |entry|
      && var last := root[|root| - 1];
      && (entry[|prefix|..] == rel <==> last != SEPARATOR)
      && (prefix + entry[|prefix|..] == entry <==> last != SEPARATOR)
      && (last == SEPARATOR ==> entry[|prefix|..] == rel[1..])
  {
    var prefix, entry := PrefixOf(root), Listed(root, rel);
    if EndsWithSeparator(root) {
      assert Strip(prefix, entry) == rel[1..];
      assert (prefix + Strip(prefix, entry))[|root|] == SEPARATOR && entry[|root|] == rel[0];
    } else {
      assert Strip(prefix, entry) == rel;
    }
  }

  /** The entries of one tree: each lies below the root, once, and every directory on the way to it is listed. */
  ghost predicate Enumerated(s: Snapshot) {
    && (forall e :: e in s.files || e in s.dirs ==>
          |s.prefix| < |e| && s.prefix <= e && e[|s.prefix|] != SEPARATOR)
    && Distinct(s.files)
    && (forall e :: e in s.files ==> e !in s.dirs)
    && (forall d, e :: (e in s.files || e in s.dirs) && Under(d, e) && s.prefix <= d && |s.prefix| < |d| ==>
          d in s.dirs)
  }

  lemma StrippedIff(s: Snapshot, entries: seq<Path>, name: Path)
    requires Enumerated(s) && (entries == s.files || entries == s.dirs)
    ensures LongEnough(s.prefix, entries)
    ensures name in Stripped(s.prefix, entries) <==> s.prefix + name in entries
  {
    if s.prefix + name in entries {
      var i :| 0 <= i < |entries| && entries[i] == s.prefix + name;
      assert Strip(s.prefix, entries[i]) == name;
    }
    if name in Stripped(s.prefix, entries) {
      var i :| 0 <= i < |entries| && Strip(s.prefix, entries[i]) == name;
      StripInverts(s.prefix, entries[i]);
      assert entries[i] in entries;
    }
  }

  lemma UnderStripped(prefix: Path, d: Path, name: Path)
    ensures Under(d, name) <==> Under(prefix + d, prefix + name)
  {
    assert (prefix + name)[|prefix|..] == name && (prefix + d)[|prefix|..] == d;
    if d <= name {
      assert prefix + name == (prefix + d) + name[|d|..];
    }
    if prefix + d <= prefix + name {
      assert (prefix + name)[..|prefix + d|] == prefix + d;
      assert name[..|d|] == d;
    }
  }

  /** What the engine is given for a tree whose entries are s. */
  ghost predicate NamesBelow(s: Snapshot, files: set<Path>, dirs: set<Path>)
    requires Enumerated(s)
  {
    && (forall f :: f in files <==> s.prefix + f in s.files)
    && (forall d :: d in dirs <==> s.prefix + d in s.dirs)
  }

  lemma NamesAreClosed(s: Snapshot, files: set<Path>, dirs: set<Path>)
    requires Enumerated(s) && NamesBelow(s, files, dirs)
    ensures AncestorClosed(files + dirs, dirs) && "" !in files && "" !in dirs && files !! dirs
  {
    assert s.prefix + "" == s.prefix;
    forall d, p | p in files + dirs && Under(d, p) ensures d in dirs {
      UnderStripped(s.prefix, d, p);
      assert (s.prefix + p)[|s.prefix|] == p[0];
      assert |d| > 0;
      assert s.prefix <= s.prefix + d;
    }
  }

  /** c.files is what stripping has made of the input's files, in order. */
  ghost predicate QueueOf(i: Snapshot, files: seq<Path>) {
    && |files| == |i.files|
    && forall k :: 0 <= k < |files| ==> |i.prefix| <= |i.files[k]| && files[k] == Strip(i.prefix, i.files[k])
  }

  lemma StrippedNames(s: Snapshot, files: set<Path>, dirs: set<Path>)
    requires Enumerated(s)
    requires files == Stripped(s.prefix, s.files) && dirs == Stripped(s.prefix, s.dirs)
    ensures NamesBelow(s, files, dirs)
  {
    forall x
      ensures x in files <==> s.prefix + x in s.files
      ensures x in dirs <==> s.prefix + x in s.dirs
    {
      StrippedIff(s, s.files, x);
      StrippedIff(s, s.dirs, x);
    }
  }

  lemma QueueNames(i: Snapshot, files: seq<Path>)
    requires Enumerated(i) && QueueOf(i, files)
    ensures Distinct(files)
    ensures forall f :: f in files <==> f in Stripped(i.prefix, i.files)
    ensures forall k :: 0 <= k < |files| ==> i.prefix + files[k] == i.files[k]
  {
    forall k | 0 <= k < |files| ensures i.prefix + files[k] == i.files[k] && files[k] in Stripped(i.prefix, i.files) {
      assert i.files[k] in i.files;
      StripInverts(i.prefix, i.files[k]);
    }
  }

  /** input and output are the trees that i and o list, and no name is a file in one and a directory in the other. */
  ghost predicate Listings(i: Snapshot, o: Snapshot, input: Tree, output: Tree) {
    && Enumerated(i) && Enumerated(o)
    && input.Keys == Stripped(i.prefix, i.files) && output.Keys == Stripped(o.prefix, o.files)
    && input.Keys !! Stripped(o.prefix, o.dirs) && output.Keys !! Stripped(i.prefix, i.dirs)
  }

  /** What the engine is given for two listings: their names without the prefixes, and the arguments of the call. */
  function Prepared(i: Snapshot, o: Snapshot, input: Tree, output: Tree, arguments: Config): Config
    requires LongEnough(i.prefix, i.files) && LongEnough(i.prefix, i.dirs) && LongEnough(o.prefix, o.dirs)
  {
    arguments.(files := seq(|i.files|, k requires 0 <= k < |i.files| => Strip(i.prefix, i.files[k])),
               input := input, output := output,
               inDirs := Stripped(i.prefix, i.dirs), outDirs := Stripped(o.prefix, o.dirs))
  }

  lemma PreparedNames(i: Snapshot, o: Snapshot, input: Tree, output: Tree, arguments: Config)
    requires Listings(i, o, input, output)
    ensures LongEnough(i.prefix, i.files) && LongEnough(i.prefix, i.dirs)
    ensures LongEnough(o.prefix, o.files) && LongEnough(o.prefix, o.dirs)
    ensures var c := Prepared(i, o, input, output, arguments);
      && QueueOf(i, c.files)
      && NamesBelow(i, input.Keys, c.inDirs) && NamesBelow(o, output.Keys, c.outDirs)
      && forall k :: 0 <= k < |i.files| ==> i.prefix + c.files[k] == i.files[k]
  {
    var c := Prepared(i, o, input, output, arguments);
    QueueNames(i, c.files);
    StrippedNames(i, input.Keys, c.inDirs);
    StrippedNames(o, output.Keys, c.outDirs);
  }

  lemma PreparedIsFit(i: Snapshot, o: Snapshot, input: Tree, output: Tree, arguments: Config)
    requires Listings(i, o, input, output)
    ensures Valid(Prepared(i, o, input, output, arguments))
  {
    var c := Prepared(i, o, input, output, arguments);
    PreparedNames(i, o, input, output, arguments);
    QueueNames(i, c.files);
    NamesAreClosed(i, input.Keys, c.inDirs);
    NamesAreClosed(o, output.Keys, c.outDirs);
  }

  /** The four helpers. */
  method StripListings(i: Snapshot, o: Snapshot)
      returns (inFiles: seq<Path>, outFiles: set<Path>, inDirs: set<Path>, outDirs: set<Path>)
    requires LongEnough(i.prefix, i.files) && LongEnough(i.prefix, i.dirs)
    requires LongEnough(o.prefix, o.files) && LongEnough(o.prefix, o.dirs)
    ensures inFiles == seq(|i.files|, k requires 0 <= k < |i.files| => Strip(i.prefix, i.files[k]))
    ensures outFiles == Stripped(o.prefix, o.files)
    ensures inDirs == Stripped(i.prefix, i.dirs) && outDirs == Stripped(o.prefix, o.dirs)
  {
    var ok;
    ok, inFiles := StripToQueue(i.prefix, i.files);
    ok, outFiles := StripToSet(o.prefix, o.files);
    ok, inDirs := StripToSet(i.prefix, i.dirs);
    ok, outDirs := StripToSet(o.prefix, o.dirs);
  }

  /**
    Lines 294-296 and 331-341: the flags are taken over, and the four helpers turn two listings
    into what the engine works on. Whenever no name is a file on one side and a directory on the
    other, the result is fit for the engine: its names are distinct, never empty, and have all
    their directories.
   */
  method Prepare(i: Snapshot, o: Snapshot, input: Tree, output: Tree, arguments: Config) returns (c: Config)
    requires Listings(i, o, input, output)
    ensures c == Prepared(i, o, input, output, arguments) && Valid(c)
    ensures c.move == arguments.move && c.force == arguments.force
    ensures c.overwriteExisting == arguments.overwriteExisting
    ensures c.deleteWithoutMatch == arguments.deleteWithoutMatch
    ensures c.processors == arguments.processors && c.queuedPrefix == arguments.queuedPrefix
    ensures c.input == input && c.output == output
    ensures |c.files| == |i.files| && forall k :: 0 <= k < |i.files| ==> i.prefix + c.files[k] == i.files[k]
    ensures forall d :: d in c.inDirs <==> i.prefix + d in i.dirs
    ensures forall d :: d in c.outDirs <==> o.prefix + d in o.dirs
  {
    PreparedNames(i, o, input, output, arguments);
    PreparedIsFit(i, o, input, output, arguments);
    var inFiles, outFiles, inDirs, outDirs := StripListings(i, o);
    assert outFiles == output.Keys;
    c := arguments.(files := inFiles, input := input, output := output, inDirs := inDirs, outDirs := outDirs);
  }
}
