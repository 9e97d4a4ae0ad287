/** Places where the engine does less than it seems to promise. */
module SyncLimits {
  import opened Paths
  import opened FileTrees
  import opened SyncEngine
  import opened SyncPlaces
  import opened SyncPlan
  import opened SyncDeletions
  import opened SyncTrees
  import opened SyncDecisions
  import opened SyncBytes
  import opened SyncInvariant
  import opened SyncOutcome
  import opened SyncResults
  import opened SyncSchedules
  import opened SyncMirror
  import opened SyncCounting
  import opened SyncCascade
  import opened SyncVanish

  lemma NoWorkerNoTouch(c: Config, s: State, f: Path)
    requires PlacesInv(c, s) && OrdersInv(c, s) && c.processors == 0
    ensures !Touched(s.shared.names, f) && !Gone(s.shared.deletions, f)
    ensures f in s.shared.deletions.fate ==> f in s.shared.deletions.queue
  {
    var n := s.shared.names;
    if f in n.stage {
      assert AtStage(c, n, f, n.stage[f]);
    }
  }

  lemma NoWorkerAllQueued(c: Config, s: State, f: Path)
    requires Valid(c) && Inv(c, s) && Finished(s) && c.processors == 0
    ensures Planned(c, f) ==> f in s.shared.names.copyQueue
    ensures f in Targets(c) ==> f in s.shared.deletions.fate
  {
    var n := s.shared.names;
    if f in c.input {
      DoneMeansDecided(c, s, f);
      assert AtStage(c, n, f, n.stage[f]);
      assert PlanAt(c, n, f);
    }
    assert LeftoversListed(c, s.main) == if c.deleteWithoutMatch then Leftovers(c) else {};
  }

  lemma NoWorkerTrees(c: Config, s: State, f: Path)
    requires TreesInv(c, s) && Finished(s) && !Touched(s.shared.names, f) && !Gone(s.shared.deletions, f)
    ensures SameAt(s.shared.disk.input, c.input, f)
    ensures if IsSwept(SweptDirs(c), f) then f !in s.shared.disk.output else SameAt(s.shared.disk.output, c.output, f)
  {
    assert InputAt(c, s.shared.disk, s.shared.names, f);
    if !IsSwept(SweptDirs(c), f) {
      assert OutputAt(c, s.shared.disk, s.shared.names, s.shared.deletions, f);
    }
  }

  /**
    Started without a worker, a call returns with every planned copy and every deletion still
    queued, and with all files as they were but those in swept directories.
   */
  lemma WithoutWorkers(c: Config, s: State, f: Path)
    requires Valid(c) && Reachable(c, s) && Finished(s) && c.processors == 0
    ensures Planned(c, f) ==> f in s.shared.names.copyQueue
    ensures f in Targets(c) ==> f in s.shared.deletions.queue
    ensures SameAt(s.shared.disk.input, c.input, f)
    ensures if IsSwept(SweptDirs(c), f) then f !in s.shared.disk.output else SameAt(s.shared.disk.output, c.output, f)
  {
    ReachableInv(c, s);
    NoWorkerNoTouch(c, s, f);
    NoWorkerAllQueued(c, s, f);
    NoWorkerTrees(c, s, f);
  }

  // ---- Concrete configurations -----------------------------------------------------------------

  /** One empty file to move, one worker. */
  function OneMove(): Config {
    Config(["a"], map["a" := Entry([], 1)], map[], {}, {}, false, false, false, true, 1, "")
  }

  /** In move mode _bytesToCopy can be wrong: with one empty file to move it is not 0 in some state of some run. */
  lemma MoveMiscounts() returns (s: State)
    ensures Valid(OneMove()) && Reachable(OneMove(), s)
    ensures s.shared.totals.bytesToCopy != 0
  {
    var c := OneMove();
    assert Planned(c, "a") && c.input["a"].content == [];
    TallyRightExactlyWhen(c);
    s :| Reachable(c, s)
      && s.shared.totals.bytesToCopy != Weight(c.files, c.input, s.shared.names.tallied) % 0x1_0000_0000_0000_0000;
    assert c.files[1..] == [];
    assert Weight(c.files, c.input, s.shared.names.tallied) == 0;
  }

  /** An empty input, and one leftover in an output whose path is "b". */
  function OneLeftover(): Config {
    Config([], map[], map["x" := Entry([], 1)], {}, {}, true, false, false, false, 1, "b/")
  }

  /**
    The output prefix is put in front twice: the only leftover is never deleted, although the
    call can be complete.
   */
  lemma DoublePrefixKeeps() returns (s: State)
    ensures Valid(OneLeftover()) && Complete(OneLeftover(), s)
    ensures forall t :: Complete(OneLeftover(), t) ==> "x" in t.shared.disk.output
  {
    var c := OneLeftover();
    s := SomeComplete(c);
    assert "x" in c.output && "x" !in c.input;
    assert "x" in Leftovers(c) && forall h :: h in Leftovers(c) ==> h == "x";
    assert SweptDirs(c) == {};
    var g := PrefixedNamesMiss(c);
  }

  /** An input file b/x, two workers, and one leftover x in an output whose path is "b". */
  function OneContested(): Config {
    Config(["b/x"], map["b/x" := Entry([], 1)], map["x" := Entry([], 1)], {"b"}, {}, true, false, false, false, 2, "b/")
  }

  /** x is queued for deletion as b/x, which is to be copied: two complete runs differ, and one of them miscounts. */
  lemma ContestedDiffers()
    ensures Valid(OneContested()) && Contested(OneContested(), "b/x")
    ensures !AllAgree(OneContested()) && !WeighRight(OneContested())
  {
    var c := OneContested();
    ContestedValid();
    AgreeExactlyWhen(c);
    WeighRightExactlyWhen(c);
    assert c.input["b/x"].content == [] && !WeighsLikeNothing(c, "b/x");
  }

  lemma UnderB(d: Path)
    ensures !Under(d, "x") && !Under(d, "g") && !Under(d, "b") && (Under(d, "b/x") ==> d == "b")
    ensures (Under(d, "b/g") ==> d == "b") && (Under(d, "b/g/y") ==> d == "b" || d == "b/g")
  {
    if Under(d, "b/x") || Under(d, "b/g") {
      assert |d| == 1;
    }
    if Under(d, "b/g/y") {
      assert "b/g/y"[..|d|] == d && (|d| == 1 || |d| == 3);
    }
  }

  lemma ContestedValid()
    ensures Valid(OneContested()) && Contested(OneContested(), "b/x")
  {
    var c := OneContested();
    forall d, p | p in c.input.Keys + c.inDirs + c.output.Keys && Under(d, p) ensures p == "b/x" && d in c.inDirs {
      UnderB(d);
    }
    assert "x" in c.output && "x" !in c.input;
    assert "x" in Leftovers(c) && c.queuedPrefix + "x" == "b/x";
  }

  /** An input file b/g/y and one leftover g in an output whose path is "b". */
  function OneParent(): Config {
    Config(["b/g/y"], map["b/g/y" := Entry([], 1)], map["g" := Entry([], 1)], {"b", "b/g"}, {},
           true, false, false, false, 1, "b/")
  }

  /** g is queued for deletion as b/g, a directory of the input: it can be missing for its file, and in the end. */
  lemma ParentLost()
    ensures Valid(OneParent()) && !ParentsStay(OneParent()) && !DirsStay(OneParent())
  {
    var c := OneParent();
    ParentValid();
    ParentClears();
    ParentsStayExactlyWhen(c);
    DirsStayExactlyWhen(c);
  }

  lemma ParentValid()
    ensures Valid(OneParent())
  {
    var c := OneParent();
    forall d, p | p in c.input.Keys + c.inDirs + c.output.Keys && Under(d, p) ensures p != "g" && d in c.inDirs {
      UnderB(d);
    }
  }

  lemma ParentClears()
    ensures Planned(OneParent(), "b/g/y") && Under("b/g", "b/g/y") && CanClear(OneParent(), "b/g")
  {
    var c := OneParent();
    assert "g" in c.output && "g" !in c.input;
    assert "g" in Leftovers(c) && c.queuedPrefix + "g" == "b/g";
    UnderB("b/g");
    assert Below(c, "b/g") == {"b/g"};
    assert "b/g/y" in c.input && "b/g/y" in PlannedNames(c);
  }
}
