/**
  ts_deque at the level of its spinlock: any number of threads, each in the middle of a call,
  take turns one access at a time. Every call takes effect at one point between its start and
  its end, so the deque behaves as the queue of module AtomicQueue.
 */
module SpinDeque {
  import opened AtomicQueue

  datatype Op<T> = PushBackOp(x: T) | GetPopFrontOp | EmptyOp | SizeOp

  datatype Result<T> = Done | Elem(x: T) | Thrown | Truth(b: bool) | Number(n: nat)

  /** The sequential meaning of a call. */
  function Perform<T(==)>(op: Op<T>, q: seq<T>): (seq<T>, Result<T>) {
    match op
    case PushBackOp(x) => (PushBack(q, x), Done)
    case GetPopFrontOp =>
      (match GetPopFront(q)
       case OutOfRange => (q, Thrown)
       case Front(x, rest) => (rest, Elem(x)))
    case EmptyOp => (q, Truth(q == []))
    case SizeOp => (q, Number(|q|))
  }

  /** A call's effect, as it is entered in the log at the moment it happens. */
  datatype Event<T> = Event(thread: nat, op: Op<T>, result: Result<T>)

  /**
    Where a thread is. start is the length of the log when the call began and point is the
    position of its own event. In get_pop_front, Found lies between empty() and front(), and
    Taken between front() and pop_front().
   */
  datatype Position<T> =
    | Outside
    | Spinning(op: Op<T>, start: nat)
    | Inside(op: Op<T>, start: nat)
    | Found(start: nat)
    | Taken(elem: T, start: nat)
    | Leaving(op: Op<T>, result: Result<T>, start: nat, point: nat)

  /** A finished call: the log was start long when it began and finish long when it returned. */
  datatype Call<T> = Call(event: Event<T>, start: nat, finish: nat)

  /** calls maps the position of its event to each finished call. */
  datatype State<T> = State(
    flag: bool,
    queue: seq<T>,
    threads: seq<Position<T>>,
    log: seq<Event<T>>,
    calls: map<nat, Call<T>>)

  function Init<T>(threads: nat): State<T> {
    State(false, [], seq(threads, _ => Outside), [], map[])
  }

  /** The effect of op by thread t, which holds the flag. */
  function Effect<T(==)>(s: State<T>, t: nat, op: Op<T>, start: nat): State<T>
    requires t < |s.threads|
  {
    var (queue, result) := Perform(op, s.queue);
    s.(queue := queue, log := s.log + [Event(t, op, result)],
       threads := s.threads[t := Leaving(op, result, start, |s.log|)])
  }

  /** Thread t's next access; op is the call it makes if it is outside. */
  function Step<T(==)>(s: State<T>, t: nat, op: Op<T>): State<T>
    requires t < |s.threads|
  {
    match s.threads[t]
    case Outside => s.(threads := s.threads[t := Spinning(op, |s.log|)])
    case Spinning(o, start) => if s.flag then s else s.(flag := true, threads := s.threads[t := Inside(o, start)])
    case Inside(o, start) =>
      if o.GetPopFrontOp? && s.queue != [] then s.(threads := s.threads[t := Found(start)])
      else Effect(s, t, o, start)
    case Found(start) => if s.queue == [] then s else s.(threads := s.threads[t := Taken(s.queue[0], start)])
    case Taken(x, start) =>
      s.(queue := if s.queue == [] then [] else s.queue[1..],
         log := s.log + [Event(t, GetPopFrontOp, Elem(x))],
         threads := s.threads[t := Leaving(GetPopFrontOp, Elem(x), start, |s.log|)])
    case Leaving(o, r, start, point) =>
      s.(flag := false, threads := s.threads[t := Outside],
         calls := s.calls[point := Call(Event(t, o, r), start, |s.log|)])
  }

  /** Thread thread takes its next access, beginning a call of op if it is outside. */
  datatype Move<T> = Move(thread: nat, op: Op<T>)

  ghost predicate Run<T>(states: seq<State<T>>, moves: seq<Move<T>>) {
    && |states| == |moves| + 1 && states[0] == Init(|states[0].threads|)
    && forall k :: 0 <= k < |moves| ==>
         moves[k].thread < |states[k].threads| && states[k + 1] == Step(states[k], moves[k].thread, moves[k].op)
  }

  // ---- The log as a sequential history -------------------------------------------------------

  /** The queue after performing the logged calls one by one. */
  function After<T(==)>(log: seq<Event<T>>): seq<T> {
    if log == [] then [] else Perform(log[|log| - 1].op, After(log[..|log| - 1])).0
  }

  /** Every logged call has the result it has when the calls are performed one by one. */
  predicate Legal<T(==)>(log: seq<Event<T>>) {
    if log == [] then true
    else
      var before, e := log[..|log| - 1], log[|log| - 1];
      Legal(before) && e.result == Perform(e.op, After(before)).1
  }

  lemma LegalGrows<T>(log: seq<Event<T>>, e: Event<T>)
    requires Legal(log) && e.result == Perform(e.op, After(log)).1
    ensures Legal(log + [e]) && After(log + [e]) == Perform(e.op, After(log)).0
  {
    assert (log + [e])[..|log|] == log;
  }

  lemma {:induction false} LegalAt<T>(log: seq<Event<T>>, k: nat)
    requires Legal(log) && k < |log|
    ensures log[k].result == Perform(log[k].op, After(log[..k])).1
  {
    var before := log[..|log| - 1];
    if k < |before| {
      LegalAt(before, k);
      assert before[..k] == log[..k];
    }
  }

  function Pushed<T>(log: seq<Event<T>>): seq<T> {
    if log == [] then []
    else
      var e := log[|log| - 1];
      Pushed(log[..|log| - 1]) + if e.op.PushBackOp? then [e.op.x] else []
  }

  function Popped<T>(log: seq<Event<T>>): seq<T> {
    if log == [] then []
    else
      var e := log[|log| - 1];
      Popped(log[..|log| - 1]) + if e.result.Elem? then [e.result.x] else []
  }

  /** First in, first out: what has been popped, followed by what is there, is what has been pushed. */
  lemma {:induction false} FirstInFirstOut<T>(log: seq<Event<T>>)
    requires Legal(log)
    ensures Popped(log) + After(log) == Pushed(log)
  {
    if log != [] {
      var before, e := log[..|log| - 1], log[|log| - 1];
      FirstInFirstOut(before);
      var p, q := Popped(before), After(before);
      match e.op
      case PushBackOp(x) => assert p + (q + [x]) == (p + q) + [x];
      case GetPopFrontOp =>
        if q != [] {
          assert (p + [q[0]]) + q[1..] == p + q;
        }
      case _ =>
    }
  }

  lemma {:induction false} LegalBefore<T>(log: seq<Event<T>>, k: nat)
    requires Legal(log) && k <= |log|
    ensures Legal(log[..k])
  {
    if k < |log| {
      LegalBefore(log[..|log| - 1], k);
      assert log[..|log| - 1][..k] == log[..k];
    } else {
      assert log[..k] == log;
    }
  }

  /**
    What each call of a legal history answers, in terms of the pushes and pops before it: a pop
    gives the push that is next in line, or throws if all have been popped; empty() tells
    whether all have been; size() is how many have not.
   */
  lemma AnswersByHistory<T>(log: seq<Event<T>>, k: nat)
    requires Legal(log) && k < |log|
    ensures var pushed, popped, e := Pushed(log[..k]), Popped(log[..k]), log[k];
      && popped <= pushed
      && (e.op.PushBackOp? ==> e.result == Done)
      && (e.op.GetPopFrontOp? ==>
            e.result == if |popped| == |pushed| then Thrown else Elem(pushed[|popped|]))
      && (e.op.EmptyOp? ==> e.result == Truth(|popped| == |pushed|))
      && (e.op.SizeOp? ==> e.result.Number? && e.result.n + |popped| == |pushed|)
  {
    LegalAt(log, k);
    LegalBefore(log, k);
    FirstInFirstOut(log[..k]);
  }

  // ---- The invariant -------------------------------------------------------------------------

  predicate Holds<T>(p: Position<T>) {
    p.Inside? || p.Found? || p.Taken? || p.Leaving?
  }

  predicate ThreadOk<T(==)>(s: State<T>, t: nat, p: Position<T>) {
    && (Holds(p) ==> s.flag)
    && (!p.Outside? ==> p.start <= |s.log|)
    && (p.Found? ==> s.queue != [])
    && (p.Taken? ==> s.queue != [] && s.queue[0] == p.elem)
    && (p.Leaving? ==> p.start <= p.point == |s.log| - 1 && s.log[p.point] == Event(t, p.op, p.result))
  }

  ghost predicate ThreadsInv<T>(s: State<T>) {
    && (forall t :: 0 <= t < |s.threads| ==> ThreadOk(s, t, s.threads[t]))
    && (forall t, u :: 0 <= t < u < |s.threads| && Holds(s.threads[t]) ==> !Holds(s.threads[u]))
    && (s.flag ==> exists t :: 0 <= t < |s.threads| && Holds(s.threads[t]))
  }

  lemma ThreadsStep<T>(s: State<T>, t: nat, op: Op<T>)
    requires ThreadsInv(s) && t < |s.threads|
    ensures ThreadsInv(Step(s, t, op))
  {
    var s' := Step(s, t, op);
    if s'.flag {
      assert Holds(s'.threads[t]) || s' == s || s'.threads == s.threads[t := Spinning(op, |s.log|)];
      if !Holds(s'.threads[t]) {
        var u :| 0 <= u < |s.threads| && Holds(s.threads[u]);
        assert Holds(s'.threads[u]);
      }
    }
  }

  /** The log is a legal history of the queue, whatever the threads are in the middle of. */
  ghost predicate QueueInv<T>(s: State<T>) {
    Legal(s.log) && s.queue == After(s.log)
  }

  lemma QueueStep<T>(s: State<T>, t: nat, op: Op<T>)
    requires ThreadsInv(s) && QueueInv(s) && t < |s.threads|
    ensures QueueInv(Step(s, t, op))
  {
    assert ThreadOk(s, t, s.threads[t]);
    match s.threads[t]
    case Inside(o, start) => LegalGrows(s.log, Event(t, o, Perform(o, s.queue).1));
    case Taken(x, start) => LegalGrows(s.log, Event(t, GetPopFrontOp, Elem(x)));
    case _ =>
  }

  /** The event at position k belongs to a finished call that began before it and returned after it. */
  predicate CallAt<T(==)>(s: State<T>, k: nat)
    requires k in s.calls
  {
    k < |s.log| && s.calls[k].event == s.log[k] && s.calls[k].start <= k < s.calls[k].finish <= |s.log|
  }

  predicate LeavingNow<T>(s: State<T>) {
    exists t :: 0 <= t < |s.threads| && s.threads[t].Leaving?
  }

  /** Every event but the one a thread is leaving with belongs to a finished call. */
  ghost predicate CallsInv<T>(s: State<T>) {
    && (forall k :: k in s.calls ==> CallAt(s, k))
    && (forall k :: 0 <= k < |s.log| && k !in s.calls ==> k == |s.log| - 1 && LeavingNow(s))
  }

  lemma CallsStep<T>(s: State<T>, t: nat, op: Op<T>)
    requires ThreadsInv(s) && CallsInv(s) && t < |s.threads|
    ensures CallsInv(Step(s, t, op))
  {
    var s' := Step(s, t, op);
    assert ThreadOk(s, t, s.threads[t]);
    assert s'.threads[t].Leaving? ==> LeavingNow(s');
    forall k | 0 <= k < |s'.log| && k !in s'.calls
      ensures k == |s'.log| - 1 && LeavingNow(s')
    {
      if k < |s.log| {
        var u :| 0 <= u < |s.threads| && s.threads[u].Leaving?;
        assert ThreadOk(s, u, s.threads[u]) && Holds(s.threads[u]);
        assert u != t && s'.threads[u].Leaving?;
      }
    }
  }

  ghost predicate Inv<T>(s: State<T>) {
    ThreadsInv(s) && QueueInv(s) && CallsInv(s)
  }

  lemma {:induction false} RunInv<T>(states: seq<State<T>>, moves: seq<Move<T>>, k: nat)
    requires Run(states, moves) && k <= |moves|
    ensures Inv(states[k]) && |states[k].threads| == |states[0].threads|
  {
    if k > 0 {
      var t, op := moves[k - 1].thread, moves[k - 1].op;
      RunInv(states, moves, k - 1);
      ThreadsStep(states[k - 1], t, op);
      QueueStep(states[k - 1], t, op);
      CallsStep(states[k - 1], t, op);
      assert states[k - 1 + 1] == Step(states[k - 1], t, op);
    }
  }

  // ---- Calls and the moves that begin them ---------------------------------------------------

  /** The call a thread is in the middle of. */
  function OpOf<T>(p: Position<T>): Op<T>
    requires !p.Outside?
  {
    if p.Found? || p.Taken? then GetPopFrontOp else p.op
  }

  /** One of the first k moves began a call of op by thread t, when the log was start long. */
  ghost predicate Begun<T>(states: seq<State<T>>, moves: seq<Move<T>>, k: nat, t: nat, op: Op<T>, start: nat)
    requires k <= |moves| < |states|
  {
    exists b :: 0 <= b < k && Begins(states[b], moves[b], t, op, start)
  }

  predicate Begins<T(==)>(s: State<T>, move: Move<T>, t: nat, op: Op<T>, start: nat) {
    move == Move(t, op) && t < |s.threads| && s.threads[t].Outside? && |s.log| == start
  }

  /** A thread that is in the middle of a call has just begun it, or was in the middle of it before. */
  lemma StaysInCall<T>(s: State<T>, move: Move<T>, t: nat)
    requires move.thread < |s.threads| && t < |s.threads|
    ensures var p, s' := s.threads[t], Step(s, move.thread, move.op);
      && |s'.threads| == |s.threads|
      && var p' := s'.threads[t];
      !p'.Outside? ==>
        if p.Outside? then move.thread == t && OpOf(p') == move.op && p'.start == |s.log|
        else OpOf(p') == OpOf(p) && p'.start == p.start
  {
  }

  lemma {:induction false} PositionBegun<T>(states: seq<State<T>>, moves: seq<Move<T>>, k: nat, t: nat)
    requires Run(states, moves) && k <= |moves| && t < |states[k].threads|
    ensures var p := states[k].threads[t]; !p.Outside? ==> Begun(states, moves, k, t, OpOf(p), p.start)
  {
    if k > 0 {
      var s, move := states[k - 1], moves[k - 1];
      assert states[k - 1 + 1] == Step(s, move.thread, move.op);
      StaysInCall(s, move, t);
      if !s.threads[t].Outside? {
        PositionBegun(states, moves, k - 1, t);
      } else if !states[k].threads[t].Outside? {
        assert Begins(states[k - 1], moves[k - 1], t, move.op, |s.log|);
      }
    }
  }

  lemma {:induction false} CallBegun<T>(states: seq<State<T>>, moves: seq<Move<T>>, k: nat, p: nat)
    requires Run(states, moves) && k <= |moves| && p in states[k].calls
    ensures var call := states[k].calls[p];
      Begun(states, moves, k, call.event.thread, call.event.op, call.start)
  {
    if k > 0 {
      var s, move := states[k - 1], moves[k - 1];
      assert states[k - 1 + 1] == Step(s, move.thread, move.op);
      if p in s.calls && states[k].calls[p] == s.calls[p] {
        CallBegun(states, moves, k - 1, p);
      } else {
        PositionBegun(states, moves, k - 1, move.thread);
      }
    }
  }

  // ---- Results about every run ---------------------------------------------------------------

  /** At most one thread is in a critical section, and the flag is up exactly while one is. */
  lemma MutualExclusion<T>(states: seq<State<T>>, moves: seq<Move<T>>, k: nat, t: nat, u: nat)
    requires Run(states, moves) && k <= |moves| && t < |states[k].threads| && u < |states[k].threads|
    ensures Holds(states[k].threads[t]) && Holds(states[k].threads[u]) ==> t == u
    ensures states[k].flag <==> exists v :: 0 <= v < |states[k].threads| && Holds(states[k].threads[v])
  {
    RunInv(states, moves, k);
    assert ThreadOk(states[k], t, states[k].threads[t]);
  }

  /** Each step does nothing to the queue, or the whole of one call, which it logs. */
  lemma StepRefines<T>(states: seq<State<T>>, moves: seq<Move<T>>, k: nat)
    requires Run(states, moves) && k < |moves|
    ensures var s, s' := states[k], states[k + 1];
      || (s'.queue == s.queue && s'.log == s.log)
      || (|s'.log| == |s.log| + 1 && s'.log[..|s.log|] == s.log
          && s'.log[|s.log|].thread == moves[k].thread
          && Perform(s'.log[|s.log|].op, s.queue) == (s'.queue, s'.log[|s.log|].result))
  {
    RunInv(states, moves, k);
    var s, t := states[k], moves[k].thread;
    assert ThreadOk(s, t, s.threads[t]);
    assert states[k + 1] == Step(s, t, moves[k].op);
  }

  /**
    The deque is linearizable: a finished call has the result it has at one position of a legal
    history of the queue, and that position was reached between its start and its return. There
    get_pop_front takes the oldest push that has not been popped, or throws if there is none,
    and empty() and size() tell whether there is one and how many. And it is a call that its
    thread began, with this argument.
   */
  lemma Linearizable<T>(states: seq<State<T>>, moves: seq<Move<T>>, k: nat, p: nat)
    requires Run(states, moves) && k <= |moves| && p in states[k].calls
    ensures var s, call := states[k], states[k].calls[p];
      && call.start <= p < call.finish <= |s.log|
      && s.log[p] == call.event
      && Legal(s.log) && s.queue == After(s.log)
      && var pushed, popped, result := Pushed(s.log[..p]), Popped(s.log[..p]), call.event.result;
      && popped <= pushed
      && match call.event.op
         case PushBackOp(_) => result == Done
         case GetPopFrontOp => result == if |popped| == |pushed| then Thrown else Elem(pushed[|popped|])
         case EmptyOp => result == Truth(|popped| == |pushed|)
         case SizeOp => result == Number(|pushed| - |popped|)
    ensures var call := states[k].calls[p];
      exists b :: 0 <= b < k && moves[b] == Move(call.event.thread, call.event.op) && |states[b].log| == call.start
  {
    CallBegun(states, moves, k, p);
    RunInv(states, moves, k);
    assert CallAt(states[k], p);
    AnswersByHistory(states[k].log, p);
  }

  lemma {:induction false} LogGrows<T>(states: seq<State<T>>, moves: seq<Move<T>>, i: nat, m: nat)
    requires Run(states, moves) && i <= m <= |moves|
    ensures states[i].log <= states[m].log
    decreases m
  {
    if i < m {
      LogGrows(states, moves, i, m - 1);
      assert states[m - 1 + 1] == Step(states[m - 1], moves[m - 1].thread, moves[m - 1].op);
    }
  }

  /**
    Calls that do not overlap take effect in the order they were made: a call finished in state
    i comes before every call that begins in state b or later, b >= i.
   */
  lemma RealTimeOrder<T>(states: seq<State<T>>, moves: seq<Move<T>>, i: nat, p: nat, b: nat, m: nat, q: nat)
    requires Run(states, moves) && i <= b <= m <= |moves|
    requires p in states[i].calls && q in states[m].calls && states[m].calls[q].start >= |states[b].log|
    ensures p < q < |states[m].log| && states[m].log[p] == states[i].calls[p].event
  {
    RunInv(states, moves, i);
    RunInv(states, moves, m);
    LogGrows(states, moves, i, b);
    LogGrows(states, moves, i, m);
    assert CallAt(states[i], p) && CallAt(states[m], q);
  }

  /** No element is lost, duplicated or reordered: the pops so far and the contents are the pushes so far. */
  lemma NothingLost<T>(states: seq<State<T>>, moves: seq<Move<T>>, k: nat)
    requires Run(states, moves) && k <= |moves|
    ensures Popped(states[k].log) + states[k].queue == Pushed(states[k].log)
  {
    RunInv(states, moves, k);
    FirstInFirstOut(states[k].log);
  }

  /** How many accesses a thread that does not spin in vain still makes before its call returns. */
  function UntilReturn<T>(p: Position<T>): nat {
    match p
    case Spinning(_, _) => 5
    case Inside(_, _) => 4
    case Found(_) => 3
    case Taken(_, _) => 2
    case Leaving(_, _, _, _) => 1
    case _ => 0
  }

  /** The flag is never lost: its holder gives it back within four accesses, and nobody can hinder it. */
  lemma HolderReleases<T>(states: seq<State<T>>, moves: seq<Move<T>>, k: nat, t: nat)
    requires Run(states, moves) && k < |moves| && t < |states[k].threads| && Holds(states[k].threads[t])
    ensures var p, p' := states[k].threads[t], states[k + 1].threads[t];
      if moves[k].thread == t then UntilReturn(p') < UntilReturn(p) && (p'.Outside? ==> !states[k + 1].flag)
      else p' == p
  {
    RunInv(states, moves, k);
    assert states[k + 1] == Step(states[k], moves[k].thread, moves[k].op);
  }

  /**
    A thread's access moves no other thread. It begins the call asked for if the thread is
    outside, brings it nearer to its end otherwise, and is in vain only while another thread is
    in its critical section. A call that returns is entered with its own event.
   */
  lemma CallsAdvance<T>(states: seq<State<T>>, moves: seq<Move<T>>, k: nat)
    requires Run(states, moves) && k < |moves|
    ensures var s, s', t := states[k], states[k + 1], moves[k].thread;
      var p := s.threads[t];
      && |s'.threads| == |s.threads|
      && (forall u :: 0 <= u < |s.threads| && u != t ==> s'.threads[u] == s.threads[u])
      && var p' := s'.threads[t];
      && (p.Outside? ==> p' == Spinning(moves[k].op, |s.log|))
      && (p.Spinning? && s.flag ==> s' == s && exists u :: 0 <= u < |s.threads| && u != t && Holds(s.threads[u]))
      && (!p.Outside? && !(p.Spinning? && s.flag) ==> UntilReturn(p') < UntilReturn(p))
      && (!p.Outside? && p'.Outside? ==>
            p.Leaving? && p.point in s'.calls && s'.calls[p.point].event == Event(t, p.op, p.result))
  {
    RunInv(states, moves, k);
    assert states[k + 1] == Step(states[k], moves[k].thread, moves[k].op);
  }

  // ---- The methods, run by one thread --------------------------------------------------------

  class TsDeque<T(==)> {
    var flag: bool
    var queue: seq<T>

    constructor ()
      ensures !flag && queue == []
    {
      flag, queue := false, [];
    }

    method TestAndSet() returns (was: bool)
      modifies this`flag
      ensures was == old(flag) && flag
    {
      was := flag;
      flag := true;
    }

    /**
      The guard's constructor. Step has the spinning; with one thread the flag must be down, as
      nobody would lower it, and the first test-and-set succeeds.
     */
    method Acquire()
      requires !flag
      modifies this`flag
      ensures flag
    {
      var was := TestAndSet();
      assert !was;
    }

    /** The guard's destructor. */
    method Release()
      modifies this`flag
      ensures !flag
    {
      flag := false;
    }

    method PushBack(x: T)
      requires !flag
      modifies this
      ensures !flag && queue == old(queue) + [x]
      ensures Perform(PushBackOp(x), old(queue)) == (queue, Done)
    {
      Acquire();
      queue := queue + [x];
      Release();
    }

    /** The guard lowers the flag when the exception leaves the method, too. */
    method GetPopFront() returns (r: Result<T>)
      requires !flag
      modifies this
      ensures !flag && if old(queue) == [] then r == Thrown && queue == [] else r.Elem? && old(queue) == [r.x] + queue
      ensures Perform(GetPopFrontOp, old(queue)) == (queue, r)
    {
      Acquire();
      if queue == [] {
        Release();
        return Thrown;
      }
      var elem := queue[0];
      queue := queue[1..];
      Release();
      return Elem(elem);
    }

    method Empty() returns (b: bool)
      requires !flag
      modifies this`flag
      ensures !flag && (b <==> |queue| == 0) && Perform(EmptyOp, queue) == (queue, Truth(b))
    {
      Acquire();
      b := queue == [];
      Release();
    }

    method Size() returns (n: nat)
      requires !flag
      modifies this`flag
      ensures !flag && n == |queue| && Perform(SizeOp, queue) == (queue, Number(n))
    {
      Acquire();
      n := |queue|;
      Release();
    }
  }
}
