/** The rounds of a worker: it looks at the two queues in turn. */
module SyncRounds {
  import opened SyncEngine
  import opened SyncShape
  import opened SyncCounters
  import opened SyncProgress

  /** In this step worker j looks at the copy queue, whether there is something to take or not. */
  predicate LooksForCopy(s: State, a: Action, j: nat) {
    a.WorkerAct? && a.id == j && j < |s.workers| && s.workers[j].WPopCopy?
  }

  predicate LooksForDeletion(s: State, a: Action, j: nat) {
    a.WorkerAct? && a.id == j && j < |s.workers| && s.workers[j].WPopDelete?
  }

  /** The worker has looked at the copy queue and not yet at the delete queue. */
  predicate InBetween(w: Worker) {
    w.WCopy? || w.WCopyError? || w.WCount? || w.WWeigh? || w.WPopDelete?
  }

  function CopyLooks(states: seq<State>, acts: seq<Action>, n: nat, j: nat): nat
    requires n <= |acts| < |states|
  {
    if n == 0 then 0 else CopyLooks(states, acts, n - 1, j) + One(LooksForCopy(states[n - 1], acts[n - 1], j))
  }

  function DeleteLooks(states: seq<State>, acts: seq<Action>, n: nat, j: nat): nat
    requires n <= |acts| < |states|
  {
    if n == 0 then 0 else DeleteLooks(states, acts, n - 1, j) + One(LooksForDeletion(states[n - 1], acts[n - 1], j))
  }

  lemma LooksStep(c: Config, s: State, a: Action, j: nat)
    requires ShapeInv(c, s) && Enabled(c, s, a) && j < |s.workers|
    ensures j < |Step(c, s, a).workers|
    ensures One(LooksForCopy(s, a, j)) + One(InBetween(s.workers[j]))
            == One(LooksForDeletion(s, a, j)) + One(InBetween(Step(c, s, a).workers[j]))
  {
    if a.MainAct? {
      assert WorkerShape(s.main, s.shared, j, s.workers[j]);
    }
  }

  /**
    Whatever a copy or a deletion ends with, a worker looks at the two queues in turn: at any
    time it has looked at the copy queue as often as at the delete queue, or once more if it is
    between the two. So an error never costs anyone a turn.
   */
  lemma {:induction false} QueuesInTurn(c: Config, states: seq<State>, acts: seq<Action>, n: nat, j: nat)
    requires Run(c, states, acts) && n <= |acts| && j < c.processors
    ensures j < |states[n].workers|
    ensures CopyLooks(states, acts, n, j) == DeleteLooks(states, acts, n, j) + One(InBetween(states[n].workers[j]))
  {
    if n > 0 {
      QueuesInTurn(c, states, acts, n - 1, j);
      RunShapes(c, states, acts, n - 1);
      assert Takes(c, states[n - 1], acts[n - 1], states[n - 1 + 1]);
      LooksStep(c, states[n - 1], acts[n - 1], j);
    }
  }
}
