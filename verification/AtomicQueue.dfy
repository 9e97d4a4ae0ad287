/** The sequential meaning of ts_deque: each operation in one indivisible step. */
module AtomicQueue {

  /** What get_pop_front leaves behind: an exception on an empty queue. */
  datatype Popped<T> = OutOfRange | Front(elem: T, rest: seq<T>)

  function PushBack<T>(q: seq<T>, x: T): seq<T> {
    q + [x]
  }

  function GetPopFront<T>(q: seq<T>): Popped<T> {
    if q == [] then OutOfRange else Front(q[0], q[1..])
  }
}
