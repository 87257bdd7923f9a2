/**
 The async mutex in the form of its source: objects on top of an event. Every method is tied to
 an act of the machine in `Mutex`, of which the ghost arguments give the state and the names.
 */
module MutexCode {
  import opened Wrappers
  import opened Slabs
  import opened Reactor
  import opened ReactorCode
  import opened EventCode
  import opened Kernel
  import opened Spec
  import opened Simulation
  import opened Events
  import opened World
  import opened WorldProofs
  import opened PrivateEvent
  import opened Machine = Mutex
  import opened MutexProofs
  import opened MutexTheorems

  /** Dropping a handle that has its result touches nothing. */
  lemma DropCode(w: World, h: nat)
    requires Sensible(w.spec) && h in w.code.ios && w.code.ios[h].One? && w.code.ios[h].one.FinishedOne?
    ensures Step(w, Io(DropIo(h, true))).Returned?
    ensures Step(w, Io(DropIo(h, true))).value.code.ring == w.code.ring
    ensures Step(w, Io(DropIo(h, true))).value.kern == w.kern
  {
    hide Sensible, SpecStep;
  }

  /** The lock future with handle h may be polled by the running task, and a guard would be called g. */
  ghost predicate MayPoll<V>(mw: MWorld<V>, h: nat, g: nat) {
    && h in mw.m.futures && h in mw.w.code.ios && mw.w.phase.Polling? && NewGuard(mw.m, g) && mw.m.fd in mw.w.kern.fds
    && (h in mw.w.spec.handles && mw.w.spec.handles[h].Owns? && mw.w.spec.handles[h].op < |mw.w.spec.ops| ==>
          mw.w.spec.ops[mw.w.spec.handles[h].op].obj == mw.w.phase.task)
  }

  /** The code of a poll of a lock future is what the machine does. */
  lemma LockPollCode<V>(mw: MWorld<V>, h: nat, io: OneshotIo, slot: nat, userData: nat, g: nat)
    requires MInv(mw) && MayPoll(mw, h, g) && mw.w.code.ios[h] == One(io)
    requires io.NewOne? ==> userData !in mw.w.code.ring.pending && slot !in mw.w.code.ring.oneshot
    requires io.NewOne? ==> mw.w.code.ring.queued < 1024
    ensures Sensible(mw.w.spec) && CanM(mw, PollLock(h, slot, userData, g))
    ensures var next := SubmitOrGetOneshot(io, mw.w.code.ring, mw.w.phase.task, slot, userData);
            var r := MStep(mw, PollLock(h, slot, userData, g));
            && next.Returned?
            && var (io', ring') := next.value;
               && (r.Panicked? <==> io'.FinishedOne? && io'.value < 0)
               && (r.Returned? ==>
                     && r.value.w.code.ring == ring' && r.value.m.obj == mw.m.obj && r.value.m.fd == mw.m.fd
                     && r.value.w.kern == (if io.NewOne? then Accept(mw.w.kern, Oneshot, Counter(mw.m.fd), userData)
                                           else mw.w.kern)
                     && (g in r.value.m.guards <==> io'.FinishedOne?)
                     && (!io'.FinishedOne? ==> h in r.value.w.code.ios && r.value.w.code.ios[h] == One(io')))
  {
    hide Inv, MInv, Sensible, Step, SubmitOrGetOneshot;
    MInvParts(mw);
    var act := Io(PollIo(h, mw.w.phase.task, Counter(mw.m.fd), slot, userData));
    assert CanAct(mw.w, act) && !CanPanic(mw.w, act);
    LockHandle(mw, h);
    hide CanAct, CanPanic;
    StepInv(mw.w, act);
    PollCode(mw.w, h, io, mw.w.phase.task, mw.m.fd, slot, userData);
    var w' := Step(mw.w, act).value;
    InvSensible(w');
    if w'.code.ios[h].one.FinishedOne? {
      DropCode(w', h);
    }
  }

  lemma LockHandle<V>(mw: MWorld<V>, h: nat)
    requires MInv(mw) && h in mw.m.futures
    ensures h in mw.w.spec.handles
  {
    hide Inv;
    assert FutureOk(mw.w, mw.m, h);
  }

  /** A new lock future may be polled by the task that made it. */
  lemma MayPollNew<V>(mw: MWorld<V>, h: nat, g: nat)
    requires MInv(mw) && Sensible(mw.w.spec) && mw.w.phase.Polling? && NewGuard(mw.m, g)
    requires MStep(mw, NewLock(h)).Returned?
    ensures var mw' := MStep(mw, NewLock(h)).value;
            MayPoll(mw', h, g) && mw'.w.phase == mw.w.phase && mw'.w.kern == mw.w.kern
            && mw'.w.code.ring == mw.w.code.ring && mw'.m.guards == mw.m.guards
  {
    MInvParts(mw);
    hide Inv, MInv, Sensible;
  }

  /** Its first poll submits one read of the mutex's eventfd and leaves it pending. */
  lemma NewLockPolled<V>(mw: MWorld<V>, a: MAct<V>)
    requires MInv(mw) && Sensible(mw.w.spec) && a.PollLock? && CanM(mw, a) && MayPoll(mw, a.h, a.g)
    requires mw.w.code.ios[a.h] == One(NewOne) && mw.w.code.ring.queued < 1024
    ensures MStep(mw, a).Returned?
    ensures var mw' := MStep(mw, a).value;
            && mw'.w.kern == Accept(mw.w.kern, Oneshot, Counter(mw.m.fd), a.userData)
            && mw'.w.code.ring.queued == mw.w.code.ring.queued + 1 && a.g !in mw'.m.guards
  {
    hide MInv, Sensible, MStep, NewGuard;
    assert a.userData !in mw.w.code.ring.pending && a.slot !in mw.w.code.ring.oneshot;
    LockPollCode(mw, a.h, NewOne, a.slot, a.userData, a.g);
  }

  class Mutex<V> {
    const evt: Event
    var obj: V

    /** The fields, the ring and the kernel are those of the machine in state mw. */
    ghost predicate Models(mw: MWorld<V>)
      reads this, evt.sys, evt.sys.ring, evt.sys.ring.Repr, evt.sys.ring.pending, evt.sys.ring.oneshot.slots,
            evt.sys.ring.multishot.slots
    {
      && evt.sys.Valid() && this !in evt.sys.ring.Repr && evt.fd == mw.m.fd
      && obj == mw.m.obj && evt.sys.kern == mw.w.kern && evt.sys.ring.Model() == mw.w.code.ring
    }

    constructor Init(evt: Event, obj: V)
      ensures this.evt == evt && this.obj == obj
    {
      this.evt, this.obj := evt, obj;
    }

    static method New(sys: System, fd: nat, obj: V, ghost w: World) returns (mtx: Mutex<V>, ghost mw: MWorld<V>)
      requires sys.Valid() && Inv(w) && !w.phase.Top? && fd !in w.kern.fds
      requires w.kern == sys.kern && w.code.ring == sys.ring.Model()
      modifies sys`kern
      ensures fresh(mtx) && mtx.evt.sys == sys && mtx.Models(mw)
      ensures MInv(mw) && mw.m == MState(fd, {}, {}, obj, obj, {}, [], {}, 0)
    {
      hide Inv, MInv, Sensible, Step;
      InvSensible(w);
      mw := MutexTheorems.New(w, fd, obj);
      NewCode(w, fd);
      var evt := new Event(sys, fd);
      evt.NotifyOne();
      mtx := new Mutex<V>.Init(evt, obj);
    }

    /** `lock`, up to its first poll: the waiter is created. */
    method Lock(ghost mw: MWorld<V>, ghost h: nat) returns (waiter: EventWaiter)
      requires Models(mw) && MInv(mw) && h !in mw.w.code.ios && !mw.w.phase.Top?
      ensures waiter.Valid() && fresh(waiter) && fresh(waiter.io)
      ensures waiter.sys == evt.sys && waiter.fd == evt.fd && waiter.io.state.NewOne?
      ensures Sensible(mw.w.spec) && CanM(mw, NewLock(h)) && MStep(mw, NewLock(h)).Returned?
      ensures var mw' := MStep(mw, NewLock(h)).value;
              Models(mw') && MInv(mw') && h in mw'.w.code.ios && mw'.w.code.ios[h] == One(waiter.io.state)
    {
      hide Inv, MInv, Sensible, Step;
      MInvParts(mw);
      MStepInv(mw, NewLock(h));
      NewLockCode(mw.w, h);
      waiter := evt.Wait();
    }

    /** `lock`, polled: `evt.wait().await.unwrap()`, then the guard; a failed read panics. */
    method PollLock(waiter: EventWaiter, ghost mw: MWorld<V>, ghost h: nat, ghost g: nat, task: nat)
      returns (r: Outcome<Option<LockGuard<V>>>, ghost a: MAct<V>)
      requires Models(mw) && MInv(mw) && MayPoll(mw, h, g) && mw.w.phase.task == task
      requires waiter.Valid() && waiter.sys == evt.sys && waiter.fd == evt.fd && mw.w.code.ios[h] == One(waiter.io.state)
      requires waiter.io.state.NewOne? ==> evt.sys.ring.queued < 1024
      modifies evt.sys`kern, waiter.io, evt.sys.ring.Repr
      ensures Sensible(mw.w.spec) && a.PollLock? && a.h == h && a.g == g && CanM(mw, a)
      ensures r.Panicked? <==> MStep(mw, a).Panicked?
      ensures r.Returned? ==>
                var mw' := MStep(mw, a).value;
                && Models(mw') && MInv(mw') && waiter.Valid()
                && (r.value.Some? <==> g in mw'.m.guards) && (r.value.Some? ==> r.value.value.mtx == this)
                && (r.value.None? ==> h in mw'.w.code.ios && mw'.w.code.ios[h] == One(waiter.io.state))
    {
      hide Inv, MInv, Sensible, MStep, CanM, NewGuard, SubmitOrGetOneshot, WellFormed, Occupants;
      CanPollWaiter(mw, h, waiter.io.state);
      ghost var io := waiter.io.state;
      var poll, slot, userData := waiter.Poll(task);
      LockPollCode(mw, h, io, slot, userData, g);
      a := MAct.PollLock(h, slot, userData, g);
      MStepInv(mw, a);
      match poll {
        case Pending => r := Returned(None);
        case Ready(v) =>
          if v < 0 {
            r := Panicked;
          } else {
            var guard := new LockGuard(this);
            r := Returned(Some(guard));
          }
      }
    }

    /**
     `lock().await`, up to the end of its first poll: the kernel has one operation more, a read of
     this mutex's eventfd that is in flight, and the future is pending.
     */
    method LockOnce(ghost mw: MWorld<V>, ghost h: nat, ghost g: nat, task: nat)
      returns (waiter: EventWaiter, r: Outcome<Option<LockGuard<V>>>, ghost mw': MWorld<V>)
      requires Models(mw) && MInv(mw) && h !in mw.w.code.ios && mw.w.phase == Polling(task)
      requires NewGuard(mw.m, g) && evt.sys.ring.queued < 1024
      modifies evt.sys`kern, evt.sys.ring.Repr
      ensures fresh(waiter) && r == Returned(None) && Models(mw') && MInv(mw')
      ensures exists userData ::
                evt.sys.kern.ops
                == old(evt.sys.kern.ops) + [KernelOp(Oneshot, Counter(evt.fd), userData, [], true)]
      ensures evt.sys.kern.fds == old(evt.sys.kern.fds) && evt.sys.kern.cq == old(evt.sys.kern.cq)
      ensures evt.sys.ring.queued == old(evt.sys.ring.queued) + 1
    {
      hide Inv, MInv, Sensible, MStep, CanM, NewGuard, WellFormed, Occupants;
      waiter := Lock(mw, h);
      ghost var mw1 := MStep(mw, NewLock(h)).value;
      MayPollNew(mw, h, g);
      ghost var a;
      r, a := PollLock(waiter, mw1, h, g, task);
      NewLockPolled(mw1, a);
      mw' := MStep(mw1, a).value;
      assert evt.sys.kern.ops == old(evt.sys.kern.ops) + [KernelOp(Oneshot, Counter(evt.fd), a.userData, [], true)];
    }
  }

  class LockGuard<V> {
    const mtx: Mutex<V>

    constructor (mtx: Mutex<V>)
      ensures this.mtx == mtx
    {
      this.mtx := mtx;
    }

    /** `deref`. */
    method Deref(ghost mw: MWorld<V>) returns (v: V)
      requires mtx.Models(mw)
      ensures v == mw.m.obj
    {
      v := mtx.obj;
    }

    /** A change made through `deref_mut`. */
    method DerefMut(ghost mw: MWorld<V>, ghost g: nat, f: V -> V)
      requires mtx.Models(mw) && MInv(mw) && g in mw.m.guards && Sensible(mw.w.spec)
      modifies mtx`obj
      ensures mtx.obj == f(old(mtx.obj)) && MStep(mw, Modify(g, f)).Returned?
      ensures mtx.Models(MStep(mw, Modify(g, f)).value) && MInv(MStep(mw, Modify(g, f)).value)
    {
      hide Inv, MInv, Sensible;
      MStepInv(mw, Modify(g, f));
      mtx.obj := f(mtx.obj);
    }

    /** The `Drop` implementation. */
    method Drop(ghost mw: MWorld<V>, ghost g: nat)
      requires mtx.Models(mw) && MInv(mw) && g in mw.m.guards && Sensible(mw.w.spec)
      modifies mtx.evt.sys`kern
      ensures MStep(mw, Unlock(g)).Returned?
      ensures var mw' := MStep(mw, Unlock(g)).value;
              mtx.Models(mw') && MInv(mw') && mw'.w.kern.fds[mw.m.fd].count == 1 && mw'.m.guards == {}
    {
      hide Inv, MInv, Sensible, Step;
      UnlockGives(mw, g);
      mtx.evt.NotifyOne();
    }
  }

  lemma NewCode(w: World, fd: nat)
    requires Sensible(w.spec)
    requires Step(w, Io(OpenEvent(fd))).Returned? && fd !in w.kern.fds
    ensures var w1 := Step(w, Io(OpenEvent(fd))).value;
            && Step(w1, Io(NotifyEvent(fd))).Returned?
            && var w2 := Step(w1, Io(NotifyEvent(fd))).value;
               w2.kern == Notify(OpenFd(w.kern, fd), fd) && w2.code == w.code
  {
    hide Sensible;
  }

  lemma NewLockCode(w: World, h: nat)
    requires Sensible(w.spec)
    ensures Step(w, Io(NewIo(h, Oneshot))).Returned?
    ensures var w' := Step(w, Io(NewIo(h, Oneshot))).value;
            w'.kern == w.kern && w'.code == w.code.(ios := w.code.ios[h := One(NewOne)])
  {
    hide Sensible;
  }

  lemma CanPollWaiter<V>(mw: MWorld<V>, h: nat, io: OneshotIo)
    requires MInv(mw) && h in mw.m.futures && h in mw.w.code.ios && mw.w.code.ios[h] == One(io)
    ensures io.SubmittedOne? ==> GetResult(mw.w.code.ring.oneshot, io.slot).Returned?
  {
    MInvParts(mw);
    LockHandle(mw, h);
    hide MInv, FdsOk, ExecOk, WakersOk, BlockedOk, AwaitingOk, RoundOk, PendingOk, MultishotsOk, KernelOk;
    assert IoOk(mw.w.code.ios[h], h, mw.w.spec.handles[h], mw.w.kern.ops, mw.w.spec.ops, mw.w.link);
  }
}
