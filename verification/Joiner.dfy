/**
 Spawned tasks and their joiners. The machine is the whole runtime with one spawned task `child`
 and its `TaskJoiner`; what the wrapper around the child's future does after the future has
 returned, notify and then send, is two acts between which the kernel may act.
 */
module Joiner {
  import opened Wrappers
  import opened Reactor
  import opened Kernel
  import opened Spec
  import opened Simulation
  import opened Events
  import opened World
  import opened WorldProofs
  import opened PrivateEvent

  /** How far the child's wrapped future is; `value` is what the future itself returned. */
  datatype Stage<V> = Running | Notified(value: V) | Sent(value: V) | Over(value: V)

  /**
   `fd` is the joiner's event, `h` the handle of its waiter, `chan` the content of the channel,
   `got` what the joiner has received, and `alive` says whether the joiner exists.
   */
  datatype JState<V> =
    JState(child: nat, fd: nat, h: nat, stage: Stage<V>, chan: seq<V>, got: Option<V>, alive: bool)

  datatype JWorld<V> = JWorld(w: World, j: JState<V>)

  /** `Other` is any act of the runtime that has nothing to do with this joiner. */
  datatype JAct<V> =
    | Other(act: Act)
    | Return(value: V)
    | Send
    | End
    | PollJoin(slot: nat, userData: nat)
    | Join
    | DropJoin

  /** `Blocks`: the thread sleeps inside the channel, and the executor with it. */
  datatype JOutcome<V> = Went(to: JWorld<V>) | Panics | Blocks

  const CHANNEL_CAPACITY: nat := 1

  /** The child is between the end of its future and the end of its task. */
  predicate Leaving<V>(j: JState<V>) {
    j.stage.Notified? || j.stage.Sent?
  }

  function Waiters<V>(j: JState<V>): set<nat> {
    if j.alive then {j.h} else {}
  }

  // ---------------------------------------------------------------- the code

  ghost function Plain<V>(jw: JWorld<V>, act: Act, j: JState<V>): (r: JOutcome<V>)
    requires Sensible(jw.w.spec)
    ensures r.Went? ==> Sensible(r.to.w.spec)
  {
    match Step(jw.w, act)
    case Panicked => Panics
    case Returned(w') => Went(JWorld(w', j))
  }

  /** `rx.recv().unwrap()`: the sender lives as long as the child's task. */
  ghost function Receive<V>(jw: JWorld<V>): JOutcome<V> {
    if jw.j.chan != [] then Went(jw.(j := jw.j.(got := Some(jw.j.chan[0]), chan := jw.j.chan[1..])))
    else if jw.j.stage.Over? then Panics
    else Blocks
  }

  /** `TaskJoiner::poll`. */
  ghost function JoinPoll<V>(jw: JWorld<V>, slot: nat, userData: nat): (r: JOutcome<V>)
    requires Sensible(jw.w.spec)
    ensures r.Went? ==> Sensible(r.to.w.spec)
  {
    if !jw.w.phase.Polling? then Panics
    else match Step(jw.w, Io(PollIo(jw.j.h, jw.w.phase.task, Counter(jw.j.fd), slot, userData)))
      case Panicked => Panics
      case Returned(w') =>
        if jw.j.h !in w'.code.ios || !w'.code.ios[jw.j.h].One? || !w'.code.ios[jw.j.h].one.FinishedOne? then
          Went(jw.(w := w'))
        else if w'.code.ios[jw.j.h].one.value < 0 then Panics
        else Receive(jw.(w := w'))
  }

  ghost function JStep<V>(jw: JWorld<V>, a: JAct<V>): (r: JOutcome<V>)
    requires Sensible(jw.w.spec)
    ensures r.Went? ==> Sensible(r.to.w.spec)
  {
    var j := jw.j;
    match a
    case Other(act) => Plain(jw, act, j)
    case Return(v) => Plain(jw, Io(NotifyEvent(j.fd)), j.(stage := Notified(v)))
    case Send =>
      if !j.stage.Notified? then Panics
      else if !j.alive then Went(jw.(j := j.(stage := Sent(j.stage.value))))
      else if |j.chan| >= CHANNEL_CAPACITY then Blocks
      else Went(jw.(j := j.(stage := Sent(j.stage.value), chan := j.chan + [j.stage.value])))
    case End => if !j.stage.Sent? then Panics else Plain(jw, Finish, j.(stage := Over(j.stage.value)))
    case PollJoin(slot, userData) => JoinPoll(jw, slot, userData)
    case Join =>
      (match Receive(jw)
       case Went(to) => Plain(to, Io(DropIo(j.h, true)), to.j.(alive := false))
       case r => r)
    case DropJoin => Plain(jw, Io(DropIo(j.h, true)), j.(alive := false, chan := []))
  }

  /** The kernel and other threads act at any time. */
  predicate FromOutside(act: Act) {
    act.Io? && (act.a.PostCqe? || act.a.NotifyEvent? || act.a.TakeEvent?)
  }

  /**
   The event belongs to the child's wrapper and the joiner alone. While the wrapper runs to its
   end, nothing else runs on this thread. A joiner is not polled after it was ready.
   */
  ghost predicate CanJ<V>(jw: JWorld<V>, a: JAct<V>)
    requires Sensible(jw.w.spec)
  {
    var j := jw.j;
    match a
    case Other(act) =>
      && CanAct(jw.w, act) && Avoids(act, j.fd, Waiters(j))
      && (act.Finish? ==> jw.w.phase != Polling(j.child))
      && (Leaving(j) ==> FromOutside(act))
    case Return(v) => j.stage.Running? && jw.w.phase == Polling(j.child)
    case Send => j.stage.Notified?
    case End => j.stage.Sent?
    case PollJoin(slot, userData) =>
      && j.alive && j.got.None? && !Leaving(j) && jw.w.phase.Polling?
      && CanAct(jw.w, Io(PollIo(j.h, jw.w.phase.task, Counter(j.fd), slot, userData)))
    case Join => j.alive && j.got.None? && jw.w.phase.Idle? && CanAct(jw.w, Io(DropIo(j.h, true)))
    case DropJoin => j.alive && !Leaving(j) && CanAct(jw.w, Io(DropIo(j.h, true)))
  }

  // ---------------------------------------------------------------- the invariant

  /** The event is notified exactly once, when the child's future has returned. */
  ghost predicate StageOk<V>(w: World, j: JState<V>) {
    && j.fd in w.kern.fds && w.kern.fds[j.fd].foreign == 0
    && w.kern.fds[j.fd].sent == (if j.stage.Running? then 0 else 1)
    && j.child in w.hist.spawned
    && (j.stage.Running? ==> j.child !in w.hist.finished)
    && (Leaving(j) ==> w.phase == Polling(j.child))
    && (j.stage.Over? ==> j.child in w.hist.finished)
  }

  /** The value is in the channel from the send until the joiner takes it or is dropped. */
  ghost predicate ChanOk<V>(j: JState<V>) {
    && j.chan == (if j.alive && j.got.None? && (j.stage.Sent? || j.stage.Over?) then [j.stage.value] else [])
    && (j.got.Some? ==> j.stage.Over? && j.got.value == j.stage.value)
  }

  /** The waiter is fresh or waits for a read of the event, the only one there is. */
  ghost predicate WaiterOk<V>(w: World, j: JState<V>) {
    j.alive && j.got.None? ==>
      && j.h in w.spec.handles && !w.spec.handles[j.h].Done?
      && (w.spec.handles[j.h].Owns? ==>
            w.spec.handles[j.h].op < |w.kern.ops| && w.kern.ops[w.spec.handles[j.h].op].target == Counter(j.fd))
      && |w.kern.ops| == |w.spec.ops|
      && (forall o | 0 <= o < |w.kern.ops| && w.kern.ops[o].target == Counter(j.fd) ::
            w.spec.ops[o].holder == Some(j.h))
  }

  ghost predicate JInv<V>(jw: JWorld<V>) {
    && Inv(jw.w)
    && OnlyThrough(jw.w.kern, jw.w.spec, jw.j.fd, Waiters(jw.j))
    && StageOk(jw.w, jw.j) && ChanOk(jw.j) && WaiterOk(jw.w, jw.j)
  }
}
