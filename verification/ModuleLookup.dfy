/** Which loaded module a pointer points into: a binary search over the modules in descending order. */
module ModuleLookup {

  datatype Module = Module(base: nat, size: nat)

  datatype Option<T> = None | Some(value: T)

  predicate InRange(m: Module, p: nat) {
    m.base <= p < m.base + m.size
  }

  predicate StrictlyInside(m: Module, p: nat) {
    m.base < p < m.base + m.size
  }

  /** What get_loaded_modules sorts by. */
  ghost predicate Ascending(ms: seq<Module>) {
    forall i, j :: 0 <= i < j < |ms| ==> ms[i].base <= ms[j].base
  }

  /** The linear search: from the highest address down, the first module that starts below p decides. */
  function Scan(ms: seq<Module>, p: nat): (r: Option<nat>)
    ensures r.Some? ==> r.value < |ms|
  {
    if ms == [] then None
    else
      var last := |ms| - 1;
      if ms[last].base >= p then Scan(ms[..last], p) else if InRange(ms[last], p) then Some(last) else None
  }

  /** std::lower_bound over the reversed list, where position k holds ms[|ms| - 1 - k]. */
  method LowerBound(ms: seq<Module>, p: nat) returns (first: nat)
    requires Ascending(ms)
    ensures first <= |ms|
    ensures forall i :: |ms| - first <= i < |ms| ==> ms[i].base >= p
    ensures first < |ms| ==> ms[|ms| - 1 - first].base < p
  {
    first := 0;
    var length: nat := |ms|;
    while length > 0
      invariant first + length <= |ms|
      invariant forall i :: |ms| - first <= i < |ms| ==> ms[i].base >= p
      invariant first + length < |ms| ==> ms[|ms| - 1 - (first + length)].base < p
    {
      var half := length / 2;
      var middle := first + half;
      if ms[|ms| - 1 - middle].base >= p {
        first := middle + 1;
        length := length - (half + 1);
      } else {
        length := half;
      }
    }
  }

  /** Modules that start at p or above do not matter. */
  lemma {:induction false} ScanSkips(ms: seq<Module>, p: nat, n: nat)
    requires n <= |ms| && forall i :: n <= i < |ms| ==> ms[i].base >= p
    ensures Scan(ms, p) == Scan(ms[..n], p)
  {
    if n == |ms| {
      assert ms[..n] == ms;
    } else {
      ScanSkips(ms[..|ms| - 1], p, n);
      assert ms[..|ms| - 1][..n] == ms[..n];
    }
  }

  /** The pointer to the module found, as its position in ms; None is nullptr. */
  method GetModuleForPointer(p: nat, ms: seq<Module>) returns (r: Option<nat>)
    requires Ascending(ms)
    ensures r == Scan(ms, p)
    ensures Images(ms) ==> forall i: nat :: i < |ms| ==> (r == Some(i) <==> ms[i].base < p < ms[i].base + ms[i].size)
  {
    var it := LowerBound(ms, p);
    ScanSkips(ms, p, |ms| - it);
    if it != |ms| && InRange(ms[|ms| - 1 - it], p) {
      r := Some(|ms| - 1 - it);
    } else {
      r := None;
    }
    if Images(ms) {
      forall i: nat | i < |ms| ensures r == Some(i) <==> ms[i].base < p < ms[i].base + ms[i].size {
        LookupExact(ms, p, i);
      }
    }
  }

  // ---- What the search finds -----------------------------------------------------------------

  /** A module that is found has the pointer strictly inside: a module is never found by its base. */
  lemma {:induction false} FoundIsInside(ms: seq<Module>, p: nat)
    ensures var r := Scan(ms, p); r.Some? ==> StrictlyInside(ms[r.value], p)
  {
    if ms != [] {
      FoundIsInside(ms[..|ms| - 1], p);
    }
  }

  /** Only the last module that starts below p is looked at. */
  lemma {:induction false} LastBelowDecides(ms: seq<Module>, p: nat, i: nat)
    requires i < |ms| && ms[i].base < p && forall j :: i < j < |ms| ==> ms[j].base >= p
    ensures Scan(ms, p) == if InRange(ms[i], p) then Some(i) else None
  {
    if i < |ms| - 1 {
      LastBelowDecides(ms[..|ms| - 1], p, i);
    }
  }

  /** Where a module starts below p, none before it is found. */
  lemma {:induction false} EarlierIsHidden(ms: seq<Module>, p: nat, j: nat)
    requires Ascending(ms) && j < |ms| && ms[j].base < p
    ensures var r := Scan(ms, p); r.Some? ==> r.value >= j
  {
    if j < |ms| - 1 && ms[|ms| - 1].base >= p {
      EarlierIsHidden(ms[..|ms| - 1], p, j);
    }
  }

  /** No image reaches beyond the first byte of a later one. */
  ghost predicate NoneReachesPast(ms: seq<Module>) {
    forall i, j :: 0 <= i < j < |ms| ==> ms[i].base + ms[i].size <= ms[j].base + 1
  }

  /** Every pointer strictly inside an image finds that image. */
  ghost predicate FindsAll(ms: seq<Module>) {
    forall i: nat, p: nat :: i < |ms| && ms[i].base < p < ms[i].base + ms[i].size ==> Scan(ms, p) == Some(i)
  }

  lemma OneIsFound(ms: seq<Module>, i: nat, p: nat)
    requires NoneReachesPast(ms) && i < |ms| && StrictlyInside(ms[i], p)
    ensures Scan(ms, p) == Some(i)
  {
    LastBelowDecides(ms, p, i);
  }

  /** For a sorted list, exactly when the binary search finds every image from every address strictly inside it. */
  lemma FindsAllExactlyWhen(ms: seq<Module>)
    requires Ascending(ms)
    ensures FindsAll(ms) <==> NoneReachesPast(ms)
  {
    if NoneReachesPast(ms) {
      forall i: nat, p: nat | i < |ms| && StrictlyInside(ms[i], p) ensures Scan(ms, p) == Some(i) {
        OneIsFound(ms, i, p);
      }
    } else {
      var i, j :| 0 <= i < j < |ms| && ms[i].base + ms[i].size > ms[j].base + 1;
      var p := ms[j].base + 1;
      EarlierIsHidden(ms, p, j);
      assert StrictlyInside(ms[i], p);
    }
  }

  /** Non-empty images of which no two share an address. */
  ghost predicate Images(ms: seq<Module>) {
    && (forall i :: 0 <= i < |ms| ==> ms[i].size > 0)
    && (forall i, j :: 0 <= i < j < |ms| ==>
          ms[i].base + ms[i].size <= ms[j].base || ms[j].base + ms[j].size <= ms[i].base)
  }

  /**
    For the modules of a process the search returns module i exactly for the addresses strictly
    inside it, and nothing for a base or for an address in no image.
   */
  lemma LookupExact(ms: seq<Module>, p: nat, i: nat)
    requires Ascending(ms) && Images(ms) && i < |ms|
    ensures Scan(ms, p) == Some(i) <==> ms[i].base < p < ms[i].base + ms[i].size
    ensures Scan(ms, ms[i].base) == None
    ensures Scan(ms, p) == None <==> forall k :: 0 <= k < |ms| ==> !(ms[k].base < p < ms[k].base + ms[k].size)
  {
    FoundIsInside(ms, p);
    FoundIsInside(ms, ms[i].base);
    FindsAllExactlyWhen(ms);
  }

  lemma FoundInBoth(ms: seq<Module>, ns: seq<Module>, p: nat)
    requires Ascending(ns) && Images(ns) && multiset(ms) == multiset(ns) && Scan(ms, p).Some?
    ensures var r, t := Scan(ms, p), Scan(ns, p); t.Some? && ms[r.value] == ns[t.value]
  {
    FoundIsInside(ms, p);
    var m := ms[Scan(ms, p).value];
    assert m in multiset(ms);
    assert m in ns;
    var k: nat :| k < |ns| && ns[k] == m;
    LookupExact(ns, p, k);
  }

  /** In whatever order the modules of a process are enumerated, sorted they answer alike. */
  lemma AnyEnumeration(ms: seq<Module>, ns: seq<Module>, p: nat)
    requires Ascending(ms) && Images(ms) && Ascending(ns) && Images(ns) && multiset(ms) == multiset(ns)
    ensures var r, t := Scan(ms, p), Scan(ns, p); (r.None? <==> t.None?) && (r.Some? ==> ms[r.value] == ns[t.value])
  {
    if Scan(ms, p).Some? {
      FoundInBoth(ms, ns, p);
    } else if Scan(ns, p).Some? {
      FoundInBoth(ns, ms, p);
    }
  }

  /** An empty image inside another hides the rest of it. */
  lemma EmptyImageHides()
    ensures var ms := [Module(0, 100), Module(50, 0)];
      Ascending(ms) && StrictlyInside(ms[0], 60) && Scan(ms, 60) == None
  {
  }
}
