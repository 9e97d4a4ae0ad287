/**
  Operations on two wrappers take two locks, one after the other: first their own, then the
  other's. Any number of threads, each with any number of such operations to make, take turns
  one access at a time. Exactly when they can end up waiting for each other.
 */
module LockOrder {
  import opened Sums

  /** x < y locks x first and then y; x <= y, by way of y < x, the other way round. */
  datatype Op = Op(first: nat, second: nat)

  /** How far a thread is in its operation: the guards are released in the reverse order. */
  datatype Position = Begin | One | Both | Last

  /** todo begins with the operation that the thread is in. */
  datatype Thread = Thread(todo: seq<Op>, at: Position)

  datatype State = State(flags: set<nat>, threads: seq<Thread>)

  function Init(ps: seq<seq<Op>>): State {
    State({}, seq(|ps|, t requires 0 <= t < |ps| => Thread(ps[t], Begin)))
  }

  /** A thread's next access: a test-and-set, which leaves it spinning on a raised flag, or a clear. */
  function Access(flags: set<nat>, th: Thread): (set<nat>, Thread) {
    if th.todo == [] then (flags, th)
    else
      var op := th.todo[0];
      match th.at
      case Begin => if op.first in flags then (flags, th) else (flags + {op.first}, th.(at := One))
      case One => if op.second in flags then (flags, th) else (flags + {op.second}, th.(at := Both))
      case Both => (flags - {op.second}, th.(at := Last))
      case Last => (flags - {op.first}, Thread(th.todo[1..], Begin))
  }

  function Step(s: State, t: nat): State
    requires t < |s.threads|
  {
    var (flags, th) := Access(s.flags, s.threads[t]);
    State(flags, s.threads[t := th])
  }

  ghost predicate Run(ps: seq<seq<Op>>, states: seq<State>, turns: seq<nat>) {
    && |states| == |turns| + 1 && states[0] == Init(ps)
    && forall k :: 0 <= k < |turns| ==>
         turns[k] < |states[k].threads| && states[k + 1] == Step(states[k], turns[k])
  }

  ghost predicate Reachable(ps: seq<seq<Op>>, s: State) {
    exists states, turns :: Run(ps, states, turns) && states[|turns|] == s
  }

  /** The thread has something to do and its access will not be in vain. */
  predicate CanMove(flags: set<nat>, th: Thread) {
    th.todo != [] &&
      match th.at
      case Begin => th.todo[0].first !in flags
      case One => th.todo[0].second !in flags
      case _ => true
  }

  /** Some thread is not through, and none ever will be that is not: all are spinning. */
  ghost predicate Deadlocked(s: State) {
    && (exists t :: 0 <= t < |s.threads| && s.threads[t].todo != [])
    && (forall t :: 0 <= t < |s.threads| ==> !CanMove(s.flags, s.threads[t]))
  }

  ghost predicate CanDeadlock(ps: seq<seq<Op>>) {
    exists s :: Reachable(ps, s) && Deadlocked(s)
  }

  /** idx picks one operation of each of some threads. */
  predicate Picks(ps: seq<seq<Op>>, idx: map<nat, nat>) {
    forall t :: t in idx ==> t < |ps| && idx[t] < |ps[t]|
  }

  function Picked(ps: seq<seq<Op>>, idx: map<nat, nat>, t: nat): Op
    requires Picks(ps, idx) && t in idx
  {
    ps[t][idx[t]]
  }

  /** Each picked operation's second wrapper is the first one of another, and no two have the same first. */
  ghost predicate Circular(ps: seq<seq<Op>>, idx: map<nat, nat>) {
    && idx != map[] && Picks(ps, idx)
    && (forall t, u :: t in idx && u in idx && t != u ==> Picked(ps, idx, t).first != Picked(ps, idx, u).first)
    && (forall t {:trigger WaitsIn(ps, idx, t)} :: t in idx ==> WaitsIn(ps, idx, t))
  }

  predicate WaitsIn(ps: seq<seq<Op>>, idx: map<nat, nat>, t: nat)
    requires Picks(ps, idx) && t in idx
  {
    exists u :: u in idx && Picked(ps, idx, t).second == Picked(ps, idx, u).first
  }

  // ---- The invariant ---------------------------------------------------------------------------

  /** The flags that a thread has raised. */
  function Mine(th: Thread): set<nat> {
    if th.todo == [] then {}
    else
      match th.at
      case Begin => {}
      case Both => {th.todo[0].first, th.todo[0].second}
      case _ => {th.todo[0].first}
  }

  predicate Raised(s: State, l: nat) {
    exists t :: 0 <= t < |s.threads| && l in Mine(s.threads[t])
  }

  /** What is left of program p, in the middle of its first operation unless at is Begin. */
  predicate Rest(p: seq<Op>, th: Thread) {
    && |th.todo| <= |p| && th.todo == p[|p| - |th.todo|..]
    && (th.todo == [] ==> th.at.Begin?)
    && (th.todo != [] && th.at.Both? ==> th.todo[0].first != th.todo[0].second)
  }

  ghost predicate Inv(ps: seq<seq<Op>>, s: State) {
    && |s.threads| == |ps|
    && (forall t :: 0 <= t < |ps| ==> Rest(ps[t], s.threads[t]))
    && (forall l :: l in s.flags <==> Raised(s, l))
    && (forall t, u :: 0 <= t < u < |ps| ==> Mine(s.threads[t]) !! Mine(s.threads[u]))
  }

  /** An access touches only the thread's own flags and those that nobody has raised. */
  lemma AccessFlags(p: seq<Op>, flags: set<nat>, th: Thread)
    requires Rest(p, th) && Mine(th) <= flags
    ensures var (flags', th') := Access(flags, th);
      Rest(p, th') && flags' - Mine(th') == flags - Mine(th) && Mine(th') <= flags' && (Mine(th') - Mine(th)) !! flags
  {
  }

  lemma StepInv(ps: seq<seq<Op>>, s: State, t: nat)
    requires Inv(ps, s) && t < |ps|
    ensures Inv(ps, Step(s, t))
  {
    var s' := Step(s, t);
    AccessOwn(ps, s, t);
    forall u, v | 0 <= u < v < |ps| ensures Mine(s'.threads[u]) !! Mine(s'.threads[v]) {
      if u == t || v == t {
        OthersRaised(ps, s, t, if u == t then v else u);
      }
    }
    forall l ensures l in s'.flags <==> Raised(s', l) {
      FlagAfter(ps, s, t, l);
    }
  }

  lemma AccessOwn(ps: seq<seq<Op>>, s: State, t: nat)
    requires Inv(ps, s) && t < |ps|
    ensures var s' := Step(s, t); var mine, mine' := Mine(s.threads[t]), Mine(s'.threads[t]);
      && Rest(ps[t], s'.threads[t]) && mine <= s.flags && mine' <= s'.flags
      && s'.flags - mine' == s.flags - mine && (mine' - mine) !! s.flags
  {
    assert forall l :: l in Mine(s.threads[t]) ==> Raised(s, l);
    AccessFlags(ps[t], s.flags, s.threads[t]);
  }

  lemma FlagAfter(ps: seq<seq<Op>>, s: State, t: nat, l: nat)
    requires Inv(ps, s) && t < |ps|
    ensures l in Step(s, t).flags <==> Raised(Step(s, t), l)
  {
    var s' := Step(s, t);
    AccessOwn(ps, s, t);
    if l in Mine(s'.threads[t]) {
      assert Raised(s', l);
    } else if l in s'.flags {
      assert Raised(s, l);
      var u :| 0 <= u < |ps| && l in Mine(s.threads[u]);
      assert l in Mine(s'.threads[u]);
    } else if u :| 0 <= u < |ps| && l in Mine(s'.threads[u]) {
      OthersRaised(ps, s, t, u);
    }
  }

  lemma OthersRaised(ps: seq<seq<Op>>, s: State, t: nat, u: nat)
    requires Inv(ps, s) && t < |ps| && u < |ps| && t != u
    ensures Mine(s.threads[u]) <= s.flags && Mine(s.threads[t]) !! Mine(s.threads[u])
  {
    forall l | l in Mine(s.threads[u]) ensures l in s.flags {
      assert Raised(s, l);
    }
    assert t < u || u < t;
  }

  lemma {:induction false} RunInv(ps: seq<seq<Op>>, states: seq<State>, turns: seq<nat>, k: nat)
    requires Run(ps, states, turns) && k <= |turns|
    ensures Inv(ps, states[k])
  {
    if k > 0 {
      RunInv(ps, states, turns, k - 1);
      StepInv(ps, states[k - 1], turns[k - 1]);
      assert states[k - 1 + 1] == Step(states[k - 1], turns[k - 1]);
    }
  }

  lemma ReachableInv(ps: seq<seq<Op>>, s: State)
    requires Reachable(ps, s)
    ensures Inv(ps, s)
  {
    var states, turns :| Run(ps, states, turns) && states[|turns|] == s;
    RunInv(ps, states, turns, |turns|);
  }

  lemma InitReachable(ps: seq<seq<Op>>)
    ensures Reachable(ps, Init(ps))
  {
    assert Run(ps, [Init(ps)], []);
  }

  lemma ReachableStep(ps: seq<seq<Op>>, s: State, t: nat)
    requires Reachable(ps, s) && t < |s.threads|
    ensures Reachable(ps, Step(s, t))
  {
    var states, turns :| Run(ps, states, turns) && states[|turns|] == s;
    var states', turns' := states + [Step(s, t)], turns + [t];
    assert Run(ps, states', turns') && states'[|turns'|] == Step(s, t);
  }

  // ---- A deadlock is a circle ------------------------------------------------------------------

  predicate Waits(th: Thread) {
    th.todo != [] && th.at.One?
  }

  /** The operations that have one lock and wait for the other. */
  function Waiting(ps: seq<seq<Op>>, s: State): map<nat, nat>
    requires Inv(ps, s)
  {
    map t: nat | t < |ps| && Waits(s.threads[t]) :: |ps[t]| - |s.threads[t].todo|
  }

  /** In a deadlock whoever has raised a flag waits for its second one. */
  lemma Holder(ps: seq<seq<Op>>, s: State, l: nat) returns (u: nat)
    requires Inv(ps, s) && Deadlocked(s) && l in s.flags
    ensures u < |ps| && Waits(s.threads[u]) && s.threads[u].todo[0].first == l
  {
    assert Raised(s, l);
    u :| 0 <= u < |ps| && l in Mine(s.threads[u]);
    assert !CanMove(s.flags, s.threads[u]);
  }

  lemma SomeoneWaits(ps: seq<seq<Op>>, s: State)
    requires Inv(ps, s) && Deadlocked(s)
    ensures Waiting(ps, s) != map[]
  {
    var t: nat :| t < |ps| && s.threads[t].todo != [];
    assert !CanMove(s.flags, s.threads[t]);
    if s.threads[t].at.Begin? {
      var u := Holder(ps, s, s.threads[t].todo[0].first);
      assert u in Waiting(ps, s);
    } else {
      assert t in Waiting(ps, s);
    }
  }

  lemma WaitingOp(ps: seq<seq<Op>>, s: State, t: nat)
    requires Inv(ps, s) && t < |ps| && Waits(s.threads[t])
    ensures Picks(ps, Waiting(ps, s)) && t in Waiting(ps, s) && Picked(ps, Waiting(ps, s), t) == s.threads[t].todo[0]
  {
    assert Rest(ps[t], s.threads[t]);
  }

  lemma WaiterWaits(ps: seq<seq<Op>>, s: State, t: nat)
    requires Inv(ps, s) && Deadlocked(s) && t < |ps| && Waits(s.threads[t])
    ensures Picks(ps, Waiting(ps, s)) && t in Waiting(ps, s) && WaitsIn(ps, Waiting(ps, s), t)
  {
    assert !CanMove(s.flags, s.threads[t]);
    var u := Holder(ps, s, s.threads[t].todo[0].second);
    WaitingOp(ps, s, t);
    WaitingOp(ps, s, u);
  }

  lemma FirstsDiffer(ps: seq<seq<Op>>, s: State, t: nat, u: nat)
    requires Inv(ps, s) && t < |ps| && u < |ps| && t != u && Waits(s.threads[t]) && Waits(s.threads[u])
    ensures s.threads[t].todo[0].first != s.threads[u].todo[0].first
  {
    OthersRaised(ps, s, t, u);
    assert s.threads[t].todo[0].first in Mine(s.threads[t]);
  }

  /** In a deadlock these go round in circles. */
  lemma DeadlockIsCircular(ps: seq<seq<Op>>, s: State)
    requires Inv(ps, s) && Deadlocked(s)
    ensures Circular(ps, Waiting(ps, s))
  {
    var idx := Waiting(ps, s);
    SomeoneWaits(ps, s);
    assert Picks(ps, idx);
    forall t | t in idx ensures WaitsIn(ps, idx, t) {
      WaiterWaits(ps, s, t);
    }
    forall t, u | t in idx && u in idx && t != u ensures Picked(ps, idx, t).first != Picked(ps, idx, u).first {
      FirstsDiffer(ps, s, t, u);
      WaitingOp(ps, s, t);
      WaitingOp(ps, s, u);
    }
  }

  // ---- A circle can deadlock -------------------------------------------------------------------

  /** No picked operation comes after one on a wrapper and itself. */
  ghost predicate Unhindered(ps: seq<seq<Op>>, idx: map<nat, nat>)
    requires Picks(ps, idx)
  {
    forall t, k :: t in idx && 0 <= k < idx[t] ==> ps[t][k].first != ps[t][k].second
  }

  /** If a thread hangs on its own before it gets to the circle, that is a circle, too. */
  lemma Earliest(ps: seq<seq<Op>>, idx: map<nat, nat>) returns (idx': map<nat, nat>)
    requires Circular(ps, idx)
    ensures Circular(ps, idx') && Unhindered(ps, idx')
  {
    if t, k :| t in idx && 0 <= k < idx[t] && ps[t][k].first == ps[t][k].second {
      var i: nat := 0;
      while ps[t][i].first != ps[t][i].second
        invariant i <= k && forall j :: 0 <= j < i ==> ps[t][j].first != ps[t][j].second
        decreases k - i
      {
        i := i + 1;
      }
      idx' := map[t := i];
      assert t in idx';
      assert WaitsIn(ps, idx', t);
    } else {
      idx' := idx;
    }
  }

  /** All threads are between operations, those in done at the picked ones and the others at their first. */
  predicate Placed(ps: seq<seq<Op>>, idx: map<nat, nat>, s: State, done: set<nat>)
    requires Picks(ps, idx) && done <= idx.Keys
  {
    && |s.threads| == |ps| && s.flags == {}
    && (forall t :: 0 <= t < |ps| ==> s.threads[t] == Thread(if t in done then ps[t][idx[t]..] else ps[t], Begin))
  }

  /** A thread alone makes one operation on two different wrappers. */
  lemma MakeOne(ps: seq<seq<Op>>, s: State, t: nat) returns (s': State)
    requires Reachable(ps, s) && s.flags == {} && t < |s.threads|
    requires var th := s.threads[t]; th.todo != [] && th.at.Begin? && th.todo[0].first != th.todo[0].second
    ensures Reachable(ps, s') && s' == State({}, s.threads[t := Thread(s.threads[t].todo[1..], Begin)])
  {
    var todo := s.threads[t].todo;
    s' := s;
    for k := 0 to 4
      invariant Reachable(ps, s') && |s'.threads| == |s.threads|
      invariant s'.threads == s.threads[t := s'.threads[t]]
      invariant k < 4 ==> s'.threads[t] == Thread(todo, [Begin, One, Both, Last][k])
      invariant k == 4 ==> s'.threads[t] == Thread(todo[1..], Begin)
      invariant s'.flags == if k == 0 || k == 4 then {} else if k == 2 then {todo[0].first, todo[0].second}
                            else {todo[0].first}
    {
      ReachableStep(ps, s', t);
      s' := Step(s', t);
    }
  }

  lemma {:induction false} MakeSome(ps: seq<seq<Op>>, s: State, t: nat, n: nat) returns (s': State)
    requires Reachable(ps, s) && s.flags == {} && t < |s.threads| && n <= |s.threads[t].todo| && s.threads[t].at.Begin?
    requires forall k :: 0 <= k < n ==> s.threads[t].todo[k].first != s.threads[t].todo[k].second
    ensures Reachable(ps, s') && s' == State({}, s.threads[t := Thread(s.threads[t].todo[n..], Begin)])
    decreases n
  {
    if n == 0 {
      s' := s;
    } else {
      s' := MakeOne(ps, s, t);
      s' := MakeSome(ps, s', t, n - 1);
      assert s.threads[t].todo[1..][n - 1..] == s.threads[t].todo[n..];
    }
  }

  lemma {:induction false} Place(ps: seq<seq<Op>>, idx: map<nat, nat>, done: set<nat>) returns (s: State)
    requires Picks(ps, idx) && Unhindered(ps, idx) && done <= idx.Keys
    ensures Reachable(ps, s) && Placed(ps, idx, s, done)
    decreases done
  {
    if done == {} {
      InitReachable(ps);
      s := Init(ps);
    } else {
      var t :| t in done;
      s := Place(ps, idx, done - {t});
      s := MakeSome(ps, s, t, idx[t]);
    }
  }

  /** All picked operations are about to be made, and those of ts have their first lock. */
  predicate Entered(ps: seq<seq<Op>>, idx: map<nat, nat>, s: State, ts: set<nat>)
    requires Picks(ps, idx) && ts <= idx.Keys
  {
    && |s.threads| == |ps|
    && (forall t :: 0 <= t < |ps| ==>
          s.threads[t] == Thread(if t in idx then ps[t][idx[t]..] else ps[t], if t in ts then One else Begin))
  }

  lemma FirstIsFree(ps: seq<seq<Op>>, idx: map<nat, nat>, s: State, ts: set<nat>, l: nat)
    requires Picks(ps, idx) && ts <= idx.Keys && Inv(ps, s) && Entered(ps, idx, s, ts)
    requires forall u :: u in ts ==> Picked(ps, idx, u).first != l
    ensures l !in s.flags
  {
    assert !Raised(s, l);
  }

  lemma EnterOne(ps: seq<seq<Op>>, idx: map<nat, nat>, s: State, ts: set<nat>, t: nat)
    requires Picks(ps, idx) && ts <= idx.Keys && t in ts && Entered(ps, idx, s, ts - {t})
    requires Picked(ps, idx, t).first !in s.flags
    ensures Entered(ps, idx, Step(s, t), ts)
  {
  }

  lemma {:induction false} Enter(ps: seq<seq<Op>>, idx: map<nat, nat>, ts: set<nat>) returns (s: State)
    requires Circular(ps, idx) && Unhindered(ps, idx) && ts <= idx.Keys
    ensures Reachable(ps, s) && Entered(ps, idx, s, ts)
    decreases ts
  {
    if ts == {} {
      s := Place(ps, idx, idx.Keys);
    } else {
      var t :| t in ts;
      s := Enter(ps, idx, ts - {t});
      ReachableInv(ps, s);
      FirstIsFree(ps, idx, s, ts - {t}, Picked(ps, idx, t).first);
      EnterOne(ps, idx, s, ts, t);
      ReachableStep(ps, s, t);
      s := Step(s, t);
    }
  }

  /** The picked threads wait for a flag that one of them has raised. */
  ghost predicate Hung(ps: seq<seq<Op>>, idx: map<nat, nat>, s: State) {
    && Inv(ps, s) && Circular(ps, idx)
    && forall t :: t in idx ==> s.threads[t] == Thread(ps[t][idx[t]..], One)
  }

  lemma HungSpins(ps: seq<seq<Op>>, idx: map<nat, nat>, s: State, t: nat)
    requires Hung(ps, idx, s) && t in idx
    ensures !CanMove(s.flags, s.threads[t])
  {
    assert WaitsIn(ps, idx, t);
    var u :| u in idx && Picked(ps, idx, t).second == Picked(ps, idx, u).first;
    assert Picked(ps, idx, u).first in Mine(s.threads[u]);
    assert Raised(s, Picked(ps, idx, u).first);
  }

  /** Threads that hang stay where they are, whatever the others do. */
  lemma HungStays(ps: seq<seq<Op>>, idx: map<nat, nat>, s: State, t: nat)
    requires Hung(ps, idx, s) && t < |ps|
    ensures Hung(ps, idx, Step(s, t))
  {
    StepInv(ps, s, t);
    if t in idx {
      HungSpins(ps, idx, s, t);
    }
  }

  /** The accesses that a thread has still to make. */
  function ToGo(): Thread -> nat {
    (th: Thread) =>
      if th.todo == [] then 0
      else
        4 * |th.todo| - match th.at case Begin => 0 case One => 1 case Both => 2 case Last => 3
  }

  lemma MoveCounts(s: State, t: nat)
    requires t < |s.threads| && CanMove(s.flags, s.threads[t])
    ensures Sum(Step(s, t).threads, ToGo()) < Sum(s.threads, ToGo())
  {
    SumUpdate(s.threads, t, Step(s, t).threads[t], ToGo());
  }

  /** The others go on until nobody can. */
  lemma {:induction false} RunOut(ps: seq<seq<Op>>, idx: map<nat, nat>, s: State) returns (s': State)
    requires Reachable(ps, s) && Hung(ps, idx, s)
    ensures Reachable(ps, s') && Deadlocked(s')
    decreases Sum(s.threads, ToGo())
  {
    if t: nat :| t < |s.threads| && CanMove(s.flags, s.threads[t]) {
      HungStays(ps, idx, s, t);
      ReachableStep(ps, s, t);
      MoveCounts(s, t);
      s' := RunOut(ps, idx, Step(s, t));
    } else {
      s' := s;
      var t :| t in idx;
      assert s.threads[t].todo != [];
    }
  }

  lemma CircleDeadlocks(ps: seq<seq<Op>>, idx: map<nat, nat>)
    requires Circular(ps, idx)
    ensures CanDeadlock(ps)
  {
    var idx' := Earliest(ps, idx);
    var s := Enter(ps, idx', idx'.Keys);
    ReachableInv(ps, s);
    s := RunOut(ps, idx', s);
  }

  /**
    Exactly when operations on two wrappers can deadlock: when one can be picked of each of some
    threads so that each one's second wrapper is the first one of another. An operation on a
    wrapper and itself is such a circle on its own.
   */
  lemma CanDeadlockExactlyWhen(ps: seq<seq<Op>>)
    ensures CanDeadlock(ps) <==> exists idx :: Circular(ps, idx)
  {
    if CanDeadlock(ps) {
      var s :| Reachable(ps, s) && Deadlocked(s);
      ReachableInv(ps, s);
      DeadlockIsCircular(ps, s);
    }
    if idx :| Circular(ps, idx) {
      CircleDeadlocks(ps, idx);
    }
  }

  /** Two threads with one operation each: on a wrapper and itself, or on the same two in opposite orders. */
  lemma TwoOperations(a: Op, b: Op)
    ensures CanDeadlock([[a], [b]]) <==>
              a.first == a.second || b.first == b.second || (a.first == b.second && a.second == b.first)
  {
    var ps := [[a], [b]];
    CanDeadlockExactlyWhen(ps);
    if a.first == a.second {
      var idx: map<nat, nat> := map[0 := 0];
      assert 0 in idx;
      assert WaitsIn(ps, idx, 0) && Circular(ps, idx);
    } else if b.first == b.second {
      var idx: map<nat, nat> := map[1 := 0];
      assert 1 in idx;
      assert WaitsIn(ps, idx, 1) && Circular(ps, idx);
    } else if a.first == b.second && a.second == b.first {
      var idx: map<nat, nat> := map[0 := 0, 1 := 0];
      assert 0 in idx && 1 in idx;
      assert WaitsIn(ps, idx, 0) && WaitsIn(ps, idx, 1) && Circular(ps, idx);
    }
    forall idx | Circular(ps, idx)
      ensures a.first == a.second || b.first == b.second || (a.first == b.second && a.second == b.first)
    {
      var t :| t in idx;
      assert WaitsIn(ps, idx, t);
      var u :| u in idx && Picked(ps, idx, t).second == Picked(ps, idx, u).first;
      assert WaitsIn(ps, idx, u);
    }
  }
}
