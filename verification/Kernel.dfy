/**
 What the runtime relies on from the kernel. Every submission gets a number of its own,
 its position in `ops`, which the runtime never sees: a completion carries back only the
 `user_data` that was stored with the submission.
 */
module Kernel {
  import opened Reactor

  /** What an entry asks for: a read of an eventfd, or any other operation. */
  datatype Target = Other | Counter(fd: nat)

  /** `posted` is every result the kernel has produced; a live operation may produce more. */
  datatype KernelOp = KernelOp(kind: IoKind, target: Target, userData: nat, posted: seq<int>, live: bool)

  /** A completion queue entry. `op` is ghost information: the runtime reads `userData` of that operation. */
  datatype Cqe = Cqe(op: nat, res: int, more: bool)

  /**
   An eventfd in semaphore mode: its counter, the writes so far, the units taken by other
   threads, and the submitted reads that took a unit.
   */
  datatype EventFd = EventFd(count: nat, sent: nat, foreign: nat, took: set<nat>)

  datatype KState = KState(ops: seq<KernelOp>, cq: seq<Cqe>, fds: map<nat, EventFd>)

  const Boot := KState([], [], map[])

  function Accept(k: KState, kind: IoKind, target: Target, userData: nat): KState {
    k.(ops := k.ops + [KernelOp(kind, target, userData, [], true)])
  }

  /** A successful read of an eventfd needs a unit to take. */
  predicate Takes(op: KernelOp, res: int) {
    op.target.Counter? && res >= 0
  }

  predicate CanPost(k: KState, o: nat, res: int, more: bool) {
    && o < |k.ops| && k.ops[o].live
    && (k.ops[o].kind.Oneshot? ==> !more)
    && (Takes(k.ops[o], res) ==> k.ops[o].target.fd in k.fds && k.fds[k.ops[o].target.fd].count > 0)
  }

  function Post(k: KState, o: nat, res: int, more: bool): KState
    requires CanPost(k, o, res, more)
  {
    var op := k.ops[o];
    KState(
      k.ops[o := op.(posted := op.posted + [res], live := more)],
      k.cq + [Cqe(o, res, more)],
      if Takes(op, res) then
        var e := k.fds[op.target.fd];
        k.fds[op.target.fd := e.(count := e.count - 1, took := e.took + {o})]
      else k.fds)
  }

  function OpenFd(k: KState, fd: nat): KState {
    k.(fds := k.fds[fd := EventFd(0, 0, 0, {})])
  }

  /** `Event::notify_one`, from any thread. */
  function Notify(k: KState, fd: nat): KState
    requires fd in k.fds
  {
    var e := k.fds[fd];
    k.(fds := k.fds[fd := e.(count := e.count + 1, sent := e.sent + 1)])
  }

  /** A read of the eventfd by another thread. */
  function TakeForeign(k: KState, fd: nat): KState
    requires fd in k.fds && k.fds[fd].count > 0
  {
    var e := k.fds[fd];
    k.(fds := k.fds[fd := e.(count := e.count - 1, foreign := e.foreign + 1)])
  }

  // ---------------------------------------------------------------- the completion queue

  /** The results for operation o that wait in the completion queue. */
  ghost function Queued(cq: seq<Cqe>, o: nat): seq<int> {
    if cq == [] then [] else (if cq[0].op == o then [cq[0].res] else []) + Queued(cq[1..], o)
  }

  /** The final completion of operation o waits in the queue. */
  ghost predicate Closing(cq: seq<Cqe>, o: nat) {
    exists i :: 0 <= i < |cq| && cq[i].op == o && !cq[i].more
  }

  lemma {:induction false} QueuedAppend(cq: seq<Cqe>, c: Cqe, o: nat)
    ensures Queued(cq + [c], o) == Queued(cq, o) + if c.op == o then [c.res] else []
  {
    if cq == [] {
      assert cq + [c] == [c];
    } else {
      QueuedAppend(cq[1..], c, o);
      assert (cq + [c])[1..] == cq[1..] + [c];
    }
  }

  lemma {:induction false} QueuedNone(cq: seq<Cqe>, o: nat)
    requires forall i | 0 <= i < |cq| :: cq[i].op != o
    ensures Queued(cq, o) == []
  {
    if cq != [] {
      QueuedNone(cq[1..], o);
    }
  }
}
