/**
  The Vector wrapper: a lock and a pointer to a heap-allocated std::vector, null for "empty".
  Any history of operations on any number of wrappers behaves as on plain sequences, no two
  wrappers ever own the same storage, and storage is deleted exactly when it loses its owner.
 */
module Vectors {

  /** A heap-allocated std::vector; alive until it is deleted. */
  class Storage<T> {
    var items: seq<T>
    var alive: bool

    constructor (items: seq<T>)
      ensures alive && this.items == items
    {
      this.items, alive := items, true;
    }

    method Delete()
      requires alive
      modifies this`alive
      ensures !alive
    {
      alive := false;
    }

    method PushBack(x: T)
      requires alive
      modifies this`items
      ensures items == old(items) + [x]
    {
      items := items + [x];
    }

    method Swap(other: Storage<T>)
      requires alive && other.alive
      modifies this`items, other`items
      ensures items == old(other.items) && other.items == old(items)
    {
      items, other.items := other.items, items;
    }
  }

  class Vector<T> {
    var storage: Storage?<T>
    var lock: bool

    ghost predicate Valid()
      reads this, storage
    {
      !lock && (storage != null ==> storage.alive)
    }

    ghost function Contents(): seq<T>
      reads this, storage
    {
      if storage == null then [] else storage.items
    }

    ghost predicate Apart(other: Vector<T>)
      reads this, other
    {
      storage != null ==> storage != other.storage
    }

    constructor ()
      ensures Valid() && storage == null
    {
      storage, lock := null, false;
    }

    /**
      The two guards of an operation on two wrappers. On a wrapper and itself the second one
      spins on the flag that the first one has raised, and got is false: the operation hangs,
      before it ever compares the two addresses.
     */
    method LockBoth(other: Vector<T>) returns (got: bool)
      requires !lock && !other.lock
      modifies this`lock, other`lock
      ensures got <==> this != other
      ensures lock && other.lock
    {
      lock := true;
      if other.lock {
        return false;
      }
      other.lock := true;
      return true;
    }

    method UnlockBoth(other: Vector<T>)
      modifies this`lock, other`lock
      ensures !lock && !other.lock
    {
      other.lock := false;
      lock := false;
    }

    method PushBack(x: T)
      requires Valid()
      modifies this, storage
      ensures Valid() && Contents() == old(Contents()) + [x]
      ensures storage != null && (storage == old(storage) || (old(storage) == null && fresh(storage)))
    {
      lock := true;
      if storage == null {
        storage := new Storage([]);
      }
      storage.PushBack(x);
      lock := false;
    }

    /** clear and reset. */
    method Clear()
      requires Valid()
      modifies this, storage
      ensures Valid() && storage == null && Contents() == []
      ensures old(storage) != null ==> !old(storage).alive
    {
      lock := true;
      if storage != null {
        storage.Delete();
        storage := null;
      }
      lock := false;
    }

    method Reserve(size: nat)
      requires Valid()
      modifies this
      ensures Valid() && Contents() == old(Contents())
      ensures storage != null && (storage == old(storage) || (old(storage) == null && fresh(storage)))
    {
      lock := true;
      if storage == null {
        storage := new Storage([]);
      }
      lock := false;
    }

    method Swap(other: Vector<T>) returns (done: bool)
      requires Valid() && other.Valid() && (other != this ==> Apart(other))
      modifies this, storage, other, other.storage
      ensures done <==> this != other
      ensures done ==> Valid() && other.Valid()
      ensures done ==> Contents() == old(other.Contents()) && other.Contents() == old(Contents())
      ensures storage == old(storage) || (old(storage) == null != old(other.storage) && fresh(storage))
      ensures other.storage == old(other.storage)
              || (old(other.storage) == null != old(storage) && fresh(other.storage))
      ensures !done ==> Contents() == old(Contents()) && (storage != null ==> storage.alive)
    {
      done := LockBoth(other);
      if !done {
        return;
      }
      if storage != null && other.storage != null {
        storage.Swap(other.storage);
      } else if other.storage != null {
        storage := new Storage([]);
        storage.Swap(other.storage);
      } else if storage != null {
        other.storage := new Storage([]);
        storage.Swap(other.storage);
      }
      UnlockBoth(other);
    }

    method CopyAssign(other: Vector<T>) returns (done: bool)
      requires Valid() && other.Valid() && (other != this ==> Apart(other))
      modifies this, storage, other`lock
      ensures done <==> this != other
      ensures done ==> Valid() && other.Valid() && Contents() == other.Contents() == old(other.Contents())
      ensures done ==> other.storage == old(other.storage) && (storage != null ==> fresh(storage))
      ensures done && old(storage) != null ==> !old(storage).alive
      ensures !done ==> storage == old(storage) && Contents() == old(Contents()) && (storage != null ==> storage.alive)
    {
      done := LockBoth(other);
      if !done {
        return;
      }
      if storage != null {
        storage.Delete();
        storage := null;
      }
      if other.storage != null {
        storage := new Storage(other.storage.items);
      }
      UnlockBoth(other);
    }

    method MoveAssign(other: Vector<T>) returns (done: bool)
      requires Valid() && other.Valid() && (other != this ==> Apart(other))
      modifies this, storage, other
      ensures done <==> this != other
      ensures done ==> Valid() && other.Valid() && Contents() == old(other.Contents()) && other.Contents() == []
      ensures done ==> storage == old(other.storage) && other.storage == null
      ensures done && old(storage) != null ==> !old(storage).alive
      ensures !done ==> storage == old(storage) && Contents() == old(Contents()) && (storage != null ==> storage.alive)
    {
      done := LockBoth(other);
      if !done {
        return;
      }
      if storage != null {
        storage.Delete();
      }
      storage := other.storage;
      other.storage := null;
      UnlockBoth(other);
    }
  }

  // ---- Any history over any number of wrappers -----------------------------------------------

  datatype Op<T> =
    | PushBackOp(i: nat, x: T)
    | ClearOp(i: nat)
    | ReserveOp(i: nat, size: nat)
    | SwapOp(i: nat, j: nat)
    | CopyOp(i: nat, j: nat)
    | MoveOp(i: nat, j: nat)

  predicate Pairs<T>(op: Op<T>) {
    op.SwapOp? || op.CopyOp? || op.MoveOp?
  }

  predicate InRange<T>(op: Op<T>, n: nat) {
    op.i < n && (Pairs(op) ==> op.j < n)
  }

  /** An operation on a wrapper and itself. */
  predicate Hangs<T>(op: Op<T>) {
    Pairs(op) && op.i == op.j
  }

  /** The meaning of an operation on plain sequences. */
  function Perform<T>(m: seq<seq<T>>, op: Op<T>): (m': seq<seq<T>>)
    requires InRange(op, |m|)
    ensures |m'| == |m|
  {
    match op
    case PushBackOp(i, x) => m[i := m[i] + [x]]
    case ClearOp(i) => m[i := []]
    case ReserveOp(_, _) => m
    case SwapOp(i, j) => m[i := m[j]][j := m[i]]
    case CopyOp(i, j) => m[i := m[j]]
    case MoveOp(i, j) => m[i := m[j]][j := []]
  }

  function PerformAll<T>(m: seq<seq<T>>, ops: seq<Op<T>>): (m': seq<seq<T>>)
    requires forall op :: op in ops ==> InRange(op, |m|)
    ensures |m'| == |m|
    decreases |ops|
  {
    if ops == [] then m else PerformAll(Perform(m, ops[0]), ops[1..])
  }

  /**
    The wrappers are different objects in working order, own is what they point to and m what
    they hold. No two own the same storage. pool is all storage ever allocated: what is owned
    is alive, and the rest has been deleted.
   */
  ghost predicate Tracks<T>(vs: seq<Vector<T>>, own: seq<Storage?<T>>, m: seq<seq<T>>, pool: set<Storage<T>>)
    reads (set v | v in vs), pool
  {
    && |own| == |m| == |vs|
    && (forall i, j :: 0 <= i < j < |vs| ==> vs[i] != vs[j] && (own[i] != null ==> own[i] != own[j]))
    && (forall i :: 0 <= i < |vs| ==>
          && !vs[i].lock && vs[i].storage == own[i]
          && if own[i] == null then m[i] == [] else own[i] in pool && own[i].alive && own[i].items == m[i])
    && (forall s :: s in pool && s.alive ==> s in own)
  }

  /** Fresh wrappers: where every history begins. */
  method NewWrappers<T>(n: nat) returns (vs: seq<Vector<T>>)
    ensures Tracks(vs, seq(n, _ => null), seq(n, _ => []), {})
    ensures fresh(set v | v in vs)
  {
    vs := [];
    for i := 0 to n
      invariant |vs| == i && fresh(set v | v in vs)
      invariant forall j :: 0 <= j < i ==> !vs[j].lock && vs[j].storage == null
      invariant forall j, k :: 0 <= j < k < i ==> vs[j] != vs[k]
    {
      var v := new Vector<T>();
      vs := vs + [v];
    }
  }

  method ApplyPushBack<T>(vs: seq<Vector<T>>, op: Op<T>,
        ghost own: seq<Storage?<T>>, ghost m: seq<seq<T>>, ghost pool: set<Storage<T>>)
      returns (ghost own': seq<Storage?<T>>, ghost pool': set<Storage<T>>)
    requires Tracks(vs, own, m, pool) && op.PushBackOp? && InRange(op, |vs|)
    modifies (set v | v in vs), pool
    ensures Tracks(vs, own', Perform(m, op), pool')
    ensures pool <= pool' && fresh(pool' - pool)
  {
    vs[op.i].PushBack(op.x);
    own' := own[op.i := vs[op.i].storage];
    pool' := pool + (set s | s in own');
  }

  method ApplyClear<T>(vs: seq<Vector<T>>, op: Op<T>,
        ghost own: seq<Storage?<T>>, ghost m: seq<seq<T>>, ghost pool: set<Storage<T>>)
      returns (ghost own': seq<Storage?<T>>, ghost pool': set<Storage<T>>)
    requires Tracks(vs, own, m, pool) && op.ClearOp? && InRange(op, |vs|)
    modifies (set v | v in vs), pool
    ensures Tracks(vs, own', Perform(m, op), pool')
    ensures pool <= pool' && fresh(pool' - pool)
  {
    vs[op.i].Clear();
    own' := own[op.i := vs[op.i].storage];
    pool' := pool + (set s | s in own');
  }

  method ApplyReserve<T>(vs: seq<Vector<T>>, op: Op<T>,
        ghost own: seq<Storage?<T>>, ghost m: seq<seq<T>>, ghost pool: set<Storage<T>>)
      returns (ghost own': seq<Storage?<T>>, ghost pool': set<Storage<T>>)
    requires Tracks(vs, own, m, pool) && op.ReserveOp? && InRange(op, |vs|)
    modifies (set v | v in vs), pool
    ensures Tracks(vs, own', Perform(m, op), pool')
    ensures pool <= pool' && fresh(pool' - pool)
  {
    vs[op.i].Reserve(op.size);
    own' := own[op.i := vs[op.i].storage];
    pool' := pool + (set s | s in own');
  }

  /** Both wrappers own storage, and only the items change places, or neither does. */
  method ApplySwapInPlace<T>(vs: seq<Vector<T>>, op: Op<T>,
        ghost own: seq<Storage?<T>>, ghost m: seq<seq<T>>, ghost pool: set<Storage<T>>)
    requires Tracks(vs, own, m, pool) && op.SwapOp? && InRange(op, |vs|) && op.i != op.j
    requires own[op.i] == null <==> own[op.j] == null
    modifies (set v | v in vs), pool
    ensures Tracks(vs, own, Perform(m, op), pool)
  {
    var done := vs[op.i].Swap(vs[op.j]);
  }

  /** Only the other wrapper owns storage: this one gets its own. */
  method ApplySwapInto<T>(vs: seq<Vector<T>>, op: Op<T>,
        ghost own: seq<Storage?<T>>, ghost m: seq<seq<T>>, ghost pool: set<Storage<T>>)
      returns (ghost own': seq<Storage?<T>>, ghost pool': set<Storage<T>>)
    requires Tracks(vs, own, m, pool) && op.SwapOp? && InRange(op, |vs|) && op.i != op.j
    requires own[op.i] == null && own[op.j] != null
    modifies (set v | v in vs), pool
    ensures Tracks(vs, own', Perform(m, op), pool')
    ensures pool <= pool' && fresh(pool' - pool)
  {
    var done := vs[op.i].Swap(vs[op.j]);
    own' := own[op.i := vs[op.i].storage];
    pool' := pool + (set s | s in own');
  }

  /** Only this wrapper owns storage: the other one gets its own. */
  method ApplySwapOut<T>(vs: seq<Vector<T>>, op: Op<T>,
        ghost own: seq<Storage?<T>>, ghost m: seq<seq<T>>, ghost pool: set<Storage<T>>)
      returns (ghost own': seq<Storage?<T>>, ghost pool': set<Storage<T>>)
    requires Tracks(vs, own, m, pool) && op.SwapOp? && InRange(op, |vs|) && op.i != op.j
    requires own[op.i] != null && own[op.j] == null
    modifies (set v | v in vs), pool
    ensures Tracks(vs, own', Perform(m, op), pool')
    ensures pool <= pool' && fresh(pool' - pool)
  {
    var done := vs[op.i].Swap(vs[op.j]);
    own' := own[op.j := vs[op.j].storage];
    pool' := pool + (set s | s in own');
  }

  method ApplySwap<T>(vs: seq<Vector<T>>, op: Op<T>,
        ghost own: seq<Storage?<T>>, ghost m: seq<seq<T>>, ghost pool: set<Storage<T>>)
      returns (done: bool, ghost own': seq<Storage?<T>>, ghost pool': set<Storage<T>>)
    requires Tracks(vs, own, m, pool) && op.SwapOp? && InRange(op, |vs|)
    modifies (set v | v in vs), pool
    ensures done ==> Tracks(vs, own', Perform(m, op), pool')
    ensures pool <= pool' && fresh(pool' - pool)
    ensures done <==> !Hangs(op)
  {
    own', pool' := own, pool;
    if op.i == op.j {
      done := vs[op.i].Swap(vs[op.j]);
    } else if vs[op.i].storage == null && vs[op.j].storage != null {
      done := true;
      own', pool' := ApplySwapInto(vs, op, own, m, pool);
    } else if vs[op.i].storage != null && vs[op.j].storage == null {
      done := true;
      own', pool' := ApplySwapOut(vs, op, own, m, pool);
    } else {
      done := true;
      ApplySwapInPlace(vs, op, own, m, pool);
    }
  }

  method ApplyCopy<T>(vs: seq<Vector<T>>, op: Op<T>,
        ghost own: seq<Storage?<T>>, ghost m: seq<seq<T>>, ghost pool: set<Storage<T>>)
      returns (done: bool, ghost own': seq<Storage?<T>>, ghost pool': set<Storage<T>>)
    requires Tracks(vs, own, m, pool) && op.CopyOp? && InRange(op, |vs|)
    modifies (set v | v in vs), pool
    ensures done ==> Tracks(vs, own', Perform(m, op), pool')
    ensures pool <= pool' && fresh(pool' - pool)
    ensures done <==> !Hangs(op)
  {
    done := vs[op.i].CopyAssign(vs[op.j]);
    if !done {
      return done, own, pool;
    }
    own' := own[op.i := vs[op.i].storage];
    pool' := pool + (set s | s in own');
  }

  method ApplyMove<T>(vs: seq<Vector<T>>, op: Op<T>,
        ghost own: seq<Storage?<T>>, ghost m: seq<seq<T>>, ghost pool: set<Storage<T>>)
      returns (done: bool, ghost own': seq<Storage?<T>>, ghost pool': set<Storage<T>>)
    requires Tracks(vs, own, m, pool) && op.MoveOp? && InRange(op, |vs|)
    modifies (set v | v in vs), pool
    ensures done ==> Tracks(vs, own', Perform(m, op), pool')
    ensures pool <= pool' && fresh(pool' - pool)
    ensures done <==> !Hangs(op)
  {
    done := vs[op.i].MoveAssign(vs[op.j]);
    if !done {
      return done, own, pool;
    }
    own', pool' := own[op.i := own[op.j]][op.j := null], pool;
  }

  method Apply<T>(vs: seq<Vector<T>>, op: Op<T>,
        ghost own: seq<Storage?<T>>, ghost m: seq<seq<T>>, ghost pool: set<Storage<T>>)
      returns (done: bool, ghost own': seq<Storage?<T>>, ghost pool': set<Storage<T>>)
    requires Tracks(vs, own, m, pool) && InRange(op, |vs|)
    modifies (set v | v in vs), pool
    ensures done <==> !Hangs(op)
    ensures done ==> Tracks(vs, own', Perform(m, op), pool')
    ensures pool <= pool' && fresh(pool' - pool)
  {
    done := true;
    match op {
      case PushBackOp(_, _) => own', pool' := ApplyPushBack(vs, op, own, m, pool);
      case ClearOp(_) => own', pool' := ApplyClear(vs, op, own, m, pool);
      case ReserveOp(_, _) => own', pool' := ApplyReserve(vs, op, own, m, pool);
      case SwapOp(_, _) => done, own', pool' := ApplySwap(vs, op, own, m, pool);
      case CopyOp(_, _) => done, own', pool' := ApplyCopy(vs, op, own, m, pool);
      case MoveOp(_, _) => done, own', pool' := ApplyMove(vs, op, own, m, pool);
    }
  }

  /** What is tracked is what the wrappers hold, no two own the same storage, and what none owns is deleted. */
  lemma TracksContents<T>(vs: seq<Vector<T>>, own: seq<Storage?<T>>, m: seq<seq<T>>, pool: set<Storage<T>>)
    requires Tracks(vs, own, m, pool)
    ensures forall i :: 0 <= i < |vs| ==> vs[i].Valid() && vs[i].Contents() == m[i]
    ensures forall i, j :: 0 <= i < j < |vs| ==> vs[i].Apart(vs[j])
    ensures forall s :: s in pool && s.alive ==> exists i :: 0 <= i < |vs| && vs[i].storage == s
  {
    forall s | s in pool && s.alive ensures exists i :: 0 <= i < |vs| && vs[i].storage == s {
      var i :| 0 <= i < |own| && own[i] == s;
      assert vs[i].storage == s;
    }
  }

  /**
    Any history of operations: it runs up to the first operation on a wrapper and itself, which
    hangs. Without one, the wrappers hold what the plain sequences hold, no two own the same
    storage, and all storage without an owner has been deleted.
   */
  method Play<T>(vs: seq<Vector<T>>, ops: seq<Op<T>>,
        ghost own: seq<Storage?<T>>, ghost m: seq<seq<T>>, ghost pool: set<Storage<T>>)
      returns (steps: nat, ghost own': seq<Storage?<T>>, ghost pool': set<Storage<T>>)
    requires Tracks(vs, own, m, pool) && forall op :: op in ops ==> InRange(op, |vs|)
    modifies (set v | v in vs), pool
    ensures steps <= |ops| && forall k :: 0 <= k < steps ==> !Hangs(ops[k])
    ensures steps < |ops| ==> Hangs(ops[steps])
    ensures steps == |ops| ==> Tracks(vs, own', PerformAll(m, ops), pool')
    ensures steps == |ops| ==> forall i :: 0 <= i < |vs| ==> vs[i].Valid() && vs[i].Contents() == PerformAll(m, ops)[i]
    ensures steps == |ops| ==> forall i, j :: 0 <= i < j < |vs| ==> vs[i].Apart(vs[j])
    ensures steps == |ops| ==> forall s :: s in pool' && s.alive ==> exists i :: 0 <= i < |vs| && vs[i].storage == s
    ensures pool <= pool' && fresh(pool' - pool)
    decreases |ops|
  {
    steps, own', pool' := 0, own, pool;
    if ops != [] {
      var done;
      done, own', pool' := Apply(vs, ops[0], own, m, pool);
      if done {
        steps, own', pool' := Play(vs, ops[1..], own', Perform(m, ops[0]), pool');
        steps := steps + 1;
      }
    }
    if steps == |ops| {
      TracksContents(vs, own', PerformAll(m, ops), pool');
    }
  }
}
