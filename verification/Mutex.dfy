/**
 The async mutex: an eventfd that starts with one unit, which `lock` takes and the guard gives
 back. The machine is the whole runtime with one mutex in it, used by any number of tasks, and
 by other threads.
 */
module Mutex {
  import opened Wrappers
  import opened Reactor
  import opened Kernel
  import opened Spec
  import opened Simulation
  import opened Events
  import opened World
  import opened WorldProofs
  import opened PrivateEvent

  /** A critical section: the guard it was entered with, and the updates made through it, in order. */
  datatype Section<!V> = Section(guard: nat, updates: seq<V -> V>)

  /**
   `futures` are the handles of the lock futures that have not returned, `guards` the live guards.
   `claimed` are the reads that were turned into guards, `log` the sections in the order in
   which the lock was acquired. `abandoned` are the reads whose lock future was dropped, and
   `afar` counts the units taken by lock futures of other threads that have not returned, or
   never will.
   */
  datatype MState<!V> = MState(fd: nat, futures: set<nat>, guards: set<nat>, obj: V,
                               first: V, claimed: set<nat>, log: seq<Section<V>>, abandoned: set<nat>, afar: nat)

  datatype MWorld<!V> = MWorld(w: World, m: MState<V>)

  /** `Other` is any act of the runtime that is not on this mutex; `g` is a name for the new guard. */
  datatype MAct<!V> =
    | Other(act: Act)
    | NewLock(h: nat)
    | PollLock(h: nat, slot: nat, userData: nat, g: nat)
    | DropLock(h: nat)
    | TakeElsewhere
    | LockElsewhere(g: nat)
    | Modify(g: nat, f: V -> V)
    | Unlock(g: nat)

  // ---------------------------------------------------------------- critical sections

  function Apply<V>(updates: seq<V -> V>, v: V): V {
    if updates == [] then v else updates[|updates| - 1](Apply(updates[..|updates| - 1], v))
  }

  /** The value after all sections, one after the other. */
  function Replay<V>(log: seq<Section<V>>, v: V): V {
    if log == [] then v else Apply(log[|log| - 1].updates, Replay(log[..|log| - 1], v))
  }

  /** Adds an update to the section of guard g. */
  function Record<V>(log: seq<Section<V>>, g: nat, f: V -> V): seq<Section<V>> {
    if log == [] then []
    else
      var last := log[|log| - 1];
      if last.guard == g then log[..|log| - 1] + [Section(g, last.updates + [f])]
      else Record(log[..|log| - 1], g, f) + [last]
  }

  // ---------------------------------------------------------------- the code

  ghost function Acquire<V>(m: MState<V>, g: nat): MState<V> {
    m.(guards := m.guards + {g}, log := m.log + [Section(g, [])])
  }

  /** The read that handle h waits for. */
  ghost function ReadOf(w: World, h: nat): set<nat> {
    if h in w.spec.handles && w.spec.handles[h].Owns? then {w.spec.handles[h].op} else {}
  }

  /** An act on the runtime that leaves the mutex's own state alone. */
  ghost function Plain<V>(mw: MWorld<V>, act: Act, m: MState<V>): (r: Outcome<MWorld<V>>)
    requires Sensible(mw.w.spec)
    ensures r.Returned? ==> Sensible(r.value.w.spec)
  {
    match Step(mw.w, act)
    case Panicked => Panicked
    case Returned(w') => Returned(MWorld(w', m))
  }

  /**
   `lock` polls its waiter. When that is ready the result is unwrapped, the waiter and the clone
   of the event are dropped and the guard is returned.
   */
  ghost function LockPoll<V>(mw: MWorld<V>, h: nat, slot: nat, userData: nat, g: nat): (r: Outcome<MWorld<V>>)
    requires Sensible(mw.w.spec)
    ensures r.Returned? ==> Sensible(r.value.w.spec)
  {
    if !mw.w.phase.Polling? || h !in mw.w.spec.handles then Panicked
    else match Step(mw.w, Io(PollIo(h, mw.w.phase.task, Counter(mw.m.fd), slot, userData)))
      case Panicked => Panicked
      case Returned(w') =>
        if h !in w'.code.ios || !w'.code.ios[h].One? || !w'.code.ios[h].one.FinishedOne? then Returned(MWorld(w', mw.m))
        else if w'.code.ios[h].one.value < 0 then Panicked
        else
          Plain(MWorld(w', mw.m), Io(DropIo(h, true)),
                Acquire(mw.m, g).(futures := mw.m.futures - {h}, claimed := mw.m.claimed + ReadOf(mw.w, h)))
  }

  ghost function MStep<V>(mw: MWorld<V>, a: MAct<V>): (r: Outcome<MWorld<V>>)
    requires Sensible(mw.w.spec)
    ensures r.Returned? ==> Sensible(r.value.w.spec)
  {
    var m := mw.m;
    match a
    case Other(act) => Plain(mw, act, m)
    case NewLock(h) => Plain(mw, Io(NewIo(h, Oneshot)), m.(futures := m.futures + {h}))
    case PollLock(h, slot, userData, g) => LockPoll(mw, h, slot, userData, g)
    case DropLock(h) =>
      Plain(mw, Io(DropIo(h, true)), m.(futures := m.futures - {h}, abandoned := m.abandoned + ReadOf(mw.w, h)))
    case TakeElsewhere => Plain(mw, Io(TakeEvent(m.fd)), m.(afar := m.afar + 1))
    case LockElsewhere(g) => if m.afar == 0 then Panicked else Returned(mw.(m := Acquire(m, g).(afar := m.afar - 1)))
    case Modify(g, f) => Returned(mw.(m := m.(obj := f(m.obj), log := Record(m.log, g, f))))
    case Unlock(g) => Plain(mw, Io(NotifyEvent(m.fd)), m.(guards := m.guards - {g}))
  }

  /** A guard name that was never used. */
  ghost predicate NewGuard<V>(m: MState<V>, g: nat) {
    g !in m.guards && forall i | 0 <= i < |m.log| :: m.log[i].guard != g
  }

  /**
   Only `new`, `lock` and the guard's `drop` reach the eventfd, and a guard is needed to change
   the value or to unlock. On another thread the read of a lock future takes a unit, and then the
   future returns a guard or is dropped.
   */
  ghost predicate CanM<V>(mw: MWorld<V>, a: MAct<V>)
    requires Sensible(mw.w.spec)
  {
    var m := mw.m;
    match a
    case Other(act) => CanAct(mw.w, act) && Avoids(act, m.fd, m.futures)
    case NewLock(h) => CanAct(mw.w, Io(NewIo(h, Oneshot)))
    case PollLock(h, slot, userData, g) =>
      && h in m.futures && mw.w.phase.Polling? && NewGuard(m, g)
      && CanAct(mw.w, Io(PollIo(h, mw.w.phase.task, Counter(m.fd), slot, userData)))
    case DropLock(h) => h in m.futures && CanAct(mw.w, Io(DropIo(h, true)))
    case TakeElsewhere => CanAct(mw.w, Io(TakeEvent(m.fd)))
    case LockElsewhere(g) => NewGuard(m, g) && m.afar > 0
    case Modify(g, f) => g in m.guards
    case Unlock(g) => g in m.guards
  }

  // ---------------------------------------------------------------- the invariant

  /** A lock future is fresh or waits for a read of this eventfd that nobody has claimed. */
  ghost predicate FutureOk<V>(w: World, m: MState<V>, h: nat) {
    && h in w.spec.handles && !w.spec.handles[h].Done?
    && (w.spec.handles[h].Fresh? ==> w.spec.handles[h].kind == Oneshot)
    && (w.spec.handles[h].Owns? ==>
          && w.spec.handles[h].op < |w.kern.ops| && w.kern.ops[w.spec.handles[h].op].target == Counter(m.fd)
          && w.spec.handles[h].op !in m.claimed)
  }

  /** Every unit ever sent is accounted for. */
  ghost predicate TokenOk<V>(w: World, m: MState<V>)
    requires m.fd in w.kern.fds
  {
    && m.claimed <= w.kern.fds[m.fd].took
    && w.kern.fds[m.fd].sent + |m.guards| + m.afar == 1 + |m.claimed| + w.kern.fds[m.fd].foreign
  }

  /** A read without a future was claimed or abandoned, never both. */
  ghost predicate ReadsOk<V>(w: World, m: MState<V>) {
    && |w.kern.ops| == |w.spec.ops| && m.claimed !! m.abandoned
    && (forall o | o in m.abandoned :: o < |w.kern.ops| && w.kern.ops[o].target == Counter(m.fd))
    && forall o | 0 <= o < |w.kern.ops| && w.kern.ops[o].target == Counter(m.fd) ::
         w.spec.ops[o].holder == None <==> o in m.claimed || o in m.abandoned
  }

  /** The value is the replay of the log, and a live guard has the last section. */
  ghost predicate LogOk<V>(m: MState<V>) {
    && m.obj == Replay(m.log, m.first)
    && forall g | g in m.guards :: m.log != [] && m.log[|m.log| - 1].guard == g
  }

  ghost predicate MInv<V>(mw: MWorld<V>) {
    && Inv(mw.w)
    && OnlyThrough(mw.w.kern, mw.w.spec, mw.m.fd, mw.m.futures)
    && (forall h | h in mw.m.futures :: FutureOk(mw.w, mw.m, h))
    && TokenOk(mw.w, mw.m) && ReadsOk(mw.w, mw.m) && LogOk(mw.m)
  }
}
