/** Exactly when deleting without match mirrors the input, and exactly when all schedules agree. */
module SyncMirror {
  import opened Paths
  import opened FileTrees
  import opened SyncEngine
  import opened SyncPlan
  import opened SyncTrees
  import opened SyncOutcome
  import opened SyncResults
  import opened SyncSchedules

  // ---- Single names ----------------------------------------------------------------------------

  /** A leftover that is neither queued by its name nor swept is kept by every complete run. */
  lemma UntouchedLeftoverStays(c: Config, g: Path, s: State)
    requires Valid(c) && c.processors > 0 && Complete(c, s)
    requires g in Leftovers(c) && g !in Targets(c) && !IsSwept(SweptDirs(c), g)
    ensures SameAt(s.shared.disk.output, c.output, g)
  {
    EndsByPlan(c, s, g);
  }

  /** An input name that is queued for deletion is missing after some complete run, one that copies first. */
  lemma TargetedInputGoes(c: Config, f: Path) returns (s: State)
    requires Valid(c) && c.processors > 0 && f in c.input && f in Targets(c)
    ensures Complete(c, s) && f !in s.shared.disk.output
  {
    s := CopiesFirst(c);
    s := Completion(c, s, f);
    EndsByPlan(c, s, f);
  }

  /**
    A planned file that is queued for deletion is there after some other complete run: a worker
    that has seen the copy queue empty deletes the name before it is copied.
   */
  lemma TargetedPlannedStays(c: Config, f: Path) returns (s: State)
    requires Valid(c) && c.processors > 0 && Contested(c, f)
    ensures Complete(c, s) && f in s.shared.disk.output
  {
    s := HoldFirst(c);
    s := SortersFirst(c, s);
    s := ListFirst(c, s, f);
    assert !Touched(s.shared.names, f);
    s := DeleteNow(c, s, f, 0);
    s := Completion(c, s, f);
    assert IsCopied(s.shared.names, f) by {
      NothingLeftUndone(c, s, f);
    }
  }

  // ---- Agreement -------------------------------------------------------------------------------

  /** The same input, and at f the same output but for the time stamped on a copy. */
  ghost predicate AgreeAt(c: Config, s: State, t: State, f: Path) {
    var a, b := s.shared.disk.output, t.shared.disk.output;
    && SameAt(s.shared.disk.input, t.shared.disk.input, f)
    && (f in a <==> f in b)
    && (f in a ==> a[f].content == b[f].content && (c.move || !Planned(c, f) ==> a[f] == b[f]))
  }

  lemma EndingsAgree(c: Config, s: State, k: nat, t: State, f: Path)
    requires Valid(c) && !Contested(c, f)
    requires EndsAs(c, s, f) && GoneAsQueued(c, s, f)
    requires EndsAs(c.(processors := k), t, f) && GoneAsQueued(c.(processors := k), t, f)
    ensures AgreeAt(c, s, t, f)
  {
    assert Planned(c.(processors := k), f) == Planned(c, f);
    assert Targets(c.(processors := k)) == Targets(c);
    if f in c.input {
      InputsUnswept(c, f);
    }
  }

  /**
    Neither the schedule nor the number of workers matters for a name that is not contested: two
    complete runs leave the same there.
   */
  lemma SchedulesAgree(c: Config, s: State, k: nat, t: State, f: Path)
    requires Valid(c) && c.processors > 0 && k > 0 && Complete(c, s) && Complete(c.(processors := k), t)
    ensures SameAt(s.shared.disk.input, t.shared.disk.input, f)
    ensures !Contested(c, f) ==>
              var a, b := s.shared.disk.output, t.shared.disk.output;
              && (f in a <==> f in b)
              && (f in a ==> a[f].content == b[f].content && (c.move || !Planned(c, f) ==> a[f] == b[f]))
  {
    EndsByPlan(c, s, f);
    EndsByPlan(c.(processors := k), t, f);
    assert Planned(c.(processors := k), f) == Planned(c, f);
    if !Contested(c, f) {
      EndingsAgree(c, s, k, t, f);
    }
  }

  /** Any two complete runs leave the same files. */
  ghost predicate AllAgree(c: Config) {
    forall s, t, f :: Complete(c, s) && Complete(c, t) ==> AgreeAt(c, s, t, f)
  }

  /** Exactly when the schedule does not matter: when no planned file is queued for deletion. */
  lemma AgreeExactlyWhen(c: Config)
    requires Valid(c) && c.processors > 0
    ensures AllAgree(c) <==> forall f :: !Contested(c, f)
  {
    if f :| Contested(c, f) {
      var s := TargetedInputGoes(c, f);
      var t := TargetedPlannedStays(c, f);
      assert !AgreeAt(c, s, t, f);
    } else {
      forall s, t, f | Complete(c, s) && Complete(c, t)
        ensures AgreeAt(c, s, t, f)
      {
        assert c.(processors := c.processors) == c;
        SchedulesAgree(c, s, c.processors, t, f);
      }
    }
  }

  // ---- Mirroring -------------------------------------------------------------------------------

  /** What a caller wants of delete-without-match: the output ends with the input's files. */
  ghost predicate Mirrors(c: Config) {
    forall s :: Complete(c, s) ==> s.shared.disk.output.Keys == c.input.Keys
  }

  /** No input name is queued for deletion, and each leftover is queued or lies in a leftover directory. */
  ghost predicate MirrorCondition(c: Config) {
    Targets(c) !! c.input.Keys && forall g :: g in Leftovers(c) ==> g in Targets(c) || IsSwept(SweptDirs(c), g)
  }

  lemma MirrorAt(c: Config, s: State, f: Path)
    requires Valid(c) && MirrorCondition(c) && EndsAs(c, s, f) && GoneAsQueued(c, s, f)
    ensures f in s.shared.disk.output <==> f in c.input
  {
    if f in c.input {
      InputsUnswept(c, f);
    }
  }

  /** Some run is complete. */
  lemma SomeComplete(c: Config) returns (s: State)
    requires Valid(c)
    ensures Complete(c, s)
  {
    InitFine(c);
    s := Completion(c, Init(c), "");
  }

  /** Exactly when every complete run mirrors the input, for every configuration with at least one worker. */
  lemma MirrorsExactlyWhen(c: Config)
    requires Valid(c) && c.processors > 0
    ensures Mirrors(c) <==> MirrorCondition(c)
  {
    if MirrorCondition(c) {
      forall s | Complete(c, s) ensures s.shared.disk.output.Keys == c.input.Keys {
        forall f ensures f in s.shared.disk.output <==> f in c.input {
          EndsByPlan(c, s, f);
          MirrorAt(c, s, f);
        }
      }
    } else if f :| f in Targets(c) && f in c.input {
      var s := TargetedInputGoes(c, f);
      assert f in c.input.Keys && f !in s.shared.disk.output.Keys;
    } else {
      var g :| g in Leftovers(c) && g !in Targets(c) && !IsSwept(SweptDirs(c), g);
      var s := SomeComplete(c);
      UntouchedLeftoverStays(c, g, s);
      assert g in s.shared.disk.output.Keys && g !in c.input.Keys;
    }
  }

  /** With leftovers queued by their own names, as the worker expects, delete-without-match always mirrors. */
  lemma RelativeNamesMirror(c: Config)
    requires Valid(c) && c.processors > 0 && c.deleteWithoutMatch && c.queuedPrefix == ""
    ensures Mirrors(c)
  {
    forall g: Path ensures c.queuedPrefix + g == g {
    }
    assert Targets(c) == Leftovers(c);
    MirrorsExactlyWhen(c);
  }

  lemma Shortest(names: set<Path>) returns (g: Path)
    requires names != {}
    ensures g in names && forall h :: h in names ==> |g| <= |h|
  {
    g :| g in names;
    if names != {g} {
      var rest := Shortest(names - {g});
      if |rest| < |g| {
        g := rest;
      }
    }
  }

  /**
    As the source queues them, with the output prefix in front, the names of the leftovers
    never cover them all: of those that do not go with their directories the shortest is kept by
    every complete run.
   */
  lemma PrefixedNamesMiss(c: Config) returns (g: Path)
    requires Valid(c) && c.processors > 0 && c.queuedPrefix != ""
    requires Leftovers(c) != {} && forall h :: h in Leftovers(c) ==> !IsSwept(SweptDirs(c), h)
    ensures g in Leftovers(c) && !Mirrors(c)
    ensures forall s :: Complete(c, s) ==> SameAt(s.shared.disk.output, c.output, g)
  {
    g := Shortest(Leftovers(c));
    forall s | Complete(c, s) ensures SameAt(s.shared.disk.output, c.output, g) {
      UntouchedLeftoverStays(c, g, s);
    }
    MirrorsExactlyWhen(c);
  }
}
