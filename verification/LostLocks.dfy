/**
 What becomes of the mutex when lock futures are dropped before they return: exactly when its
 token is lost, that it is then lost for ever, and a run in which it happens.
 */
module LostLocks {
  import opened Wrappers
  import opened Reactor
  import opened Kernel
  import opened Spec
  import opened Simulation
  import opened Events
  import opened World
  import opened WorldProofs
  import opened PrivateEvent
  import opened Mutex
  import opened MutexProofs
  import opened MutexTheorems

  /**
   The token is lost with read o exactly if o's lock future was dropped before it returned and the
   kernel completed o with success, in whatever order.
   */
  lemma LostExactly<V>(mw: MWorld<V>, o: nat)
    requires MInv(mw) && mw.m.fd in mw.w.kern.fds
    ensures Lost(mw, o) <==> o in mw.m.abandoned && o in mw.w.kern.fds[mw.m.fd].took
  {
    if o in Unclaimed(mw.w, mw.m) {
      TokenHasFuture(mw, o);
    }
    hide Inv, OnlyThrough, FutureOk, TokenOk, LogOk;
  }

  // ---------------------------------------------------------------- what runs keep

  lemma KernelKeepsTook(k: KState, a: RAct, submits: Option<IoKind>, fd: nat)
    requires fd in k.fds && (a.OpenEvent? ==> a.fd != fd)
    ensures fd in KernelStep(k, a, submits).fds && k.fds[fd].took <= KernelStep(k, a, submits).fds[fd].took
  {
  }

  /** A read that took a unit has taken it. */
  lemma TookStays(w: World, act: Act, fd: nat)
    requires Inv(w) && Sensible(w.spec) && CanAct(w, act) && Step(w, act).Returned? && fd in w.kern.fds
    ensures fd in Step(w, act).value.kern.fds && w.kern.fds[fd].took <= Step(w, act).value.kern.fds[fd].took
  {
    hide Inv, Sensible, React, Lands, SpecStep, CodeStep, KernelStep;
    if act.Io? {
      KernelKeepsTook(w.kern, act.a, CodeSubmits(w.code, act.a), fd);
    } else if act.Iterate? && w.exec.runQ == [] {
      InvReact(w);
    }
  }

  /** The reads that took a unit, and the dropped ones, only become more. */
  ghost predicate Grows<V>(mw: MWorld<V>, mw': MWorld<V>) {
    && mw'.m.fd == mw.m.fd && mw.m.fd in mw.w.kern.fds && mw.m.fd in mw'.w.kern.fds
    && mw.w.kern.fds[mw.m.fd].took <= mw'.w.kern.fds[mw.m.fd].took && mw.m.abandoned <= mw'.m.abandoned
  }

  lemma PlainGrows<V>(mw: MWorld<V>, act: Act, m: MState<V>)
    requires MInv(mw) && Sensible(mw.w.spec) && CanAct(mw.w, act) && Plain(mw, act, m).Returned?
    requires m.fd == mw.m.fd && mw.m.abandoned <= m.abandoned
    ensures Grows(mw, Plain(mw, act, m).value)
  {
    hide Inv, MInv, Sensible, Step, CanAct;
    MInvParts(mw);
    TookStays(mw.w, act, mw.m.fd);
  }

  lemma PollLockGrows<V>(mw: MWorld<V>, h: nat, slot: nat, userData: nat, g: nat)
    requires MInv(mw) && Sensible(mw.w.spec) && CanM(mw, PollLock(h, slot, userData, g))
    requires MStep(mw, PollLock(h, slot, userData, g)).Returned?
    ensures Grows(mw, MStep(mw, PollLock(h, slot, userData, g)).value)
  {
    hide Inv, MInv, Sensible, Step, CanAct, NewGuard, CanPanic;
    MInvParts(mw);
    var act := Io(PollIo(h, mw.w.phase.task, Counter(mw.m.fd), slot, userData));
    TookStays(mw.w, act, mw.m.fd);
    StepInv(mw.w, act);
    IoEffect(mw.w, act.a);
    var w' := Step(mw.w, act).value;
    if h in w'.code.ios && w'.code.ios[h].One? && w'.code.ios[h].one.FinishedOne? {
      CanDropDone(w', h);
      TookStays(w', Io(DropIo(h, true)), mw.m.fd);
    }
  }

  lemma MGrows<V>(mw: MWorld<V>, a: MAct<V>)
    requires MInv(mw) && Sensible(mw.w.spec) && CanM(mw, a) && MStep(mw, a).Returned?
    ensures Grows(mw, MStep(mw, a).value)
  {
    if a.PollLock? {
      hide MInv, MStep, CanM, Grows, Sensible;
      PollLockGrows(mw, a.h, a.slot, a.userData, a.g);
    } else {
      hide MInv, Plain, CanAct, Sensible;
      match a {
        case Other(act) => PlainGrows(mw, act, mw.m);
        case NewLock(h) => PlainGrows(mw, Io(NewIo(h, Oneshot)), mw.m.(futures := mw.m.futures + {h}));
        case DropLock(h) =>
          PlainGrows(mw, Io(DropIo(h, true)),
                     mw.m.(futures := mw.m.futures - {h}, abandoned := mw.m.abandoned + ReadOf(mw.w, h)));
        case TakeElsewhere => PlainGrows(mw, Io(TakeEvent(mw.m.fd)), mw.m.(afar := mw.m.afar + 1));
        case LockElsewhere(g) => MInvParts(mw);
        case Modify(g, f) => MInvParts(mw);
        case Unlock(g) =>
          MInvParts(mw);
          NotifyGives(mw.w, mw.m.fd);
          PlainGrows(mw, Io(NotifyEvent(mw.m.fd)), mw.m.(guards := mw.m.guards - {g}));
      }
    }
  }

  lemma LostStays<V>(mw: MWorld<V>, mw': MWorld<V>, o: nat)
    requires MInv(mw) && MInv(mw') && Grows(mw, mw') && Lost(mw, o)
    ensures Lost(mw', o)
  {
    hide MInv, Lost;
    LostExactly(mw, o);
    LostExactly(mw', o);
  }

  lemma NoGuardLeft<V>(mw: MWorld<V>, o: nat)
    requires MInv(mw) && mw.m.fd in mw.w.kern.fds && Lost(mw, o)
    ensures mw.m.guards == {} && mw.m.afar == 0 && mw.w.kern.fds[mw.m.fd].count == 0
  {
    MutualExclusion(mw, 0, 0);
    hide Inv, OnlyThrough, FutureOk, ReadsOk, LogOk, TokenOk;
    assert |Unclaimed(mw.w, mw.m)| > 0;
  }

  /** The price: once the token is lost, no run acquires the lock again, on any thread. */
  lemma {:induction false} LostForever<V>(mw: MWorld<V>, acts: seq<MAct<V>>, o: nat)
    requires MInv(mw) && Sensible(mw.w.spec) && CanMRun(mw, acts) && MRun(mw, acts).Returned?
    requires mw.m.fd in mw.w.kern.fds && Lost(mw, o)
    ensures mw.m.guards == {} && MRun(mw, acts).value.m.guards == {} && Acquired(mw, acts) == []
    decreases |acts|
  {
    hide Inv, Sensible, MStep, CanM, MInv, Lost;
    NoGuardLeft(mw, o);
    if acts != [] {
      MStepInv(mw, acts[0]);
      MGrows(mw, acts[0]);
      var mw' := MStep(mw, acts[0]).value;
      LostStays(mw, mw', o);
      LostForever(mw', acts[1..], o);
      assert !acts[0].LockElsewhere? by { NotElsewhere(mw, acts[0]); }
    }
  }

  lemma NotElsewhere<V>(mw: MWorld<V>, a: MAct<V>)
    requires Sensible(mw.w.spec) && mw.m.afar == 0 && CanM(mw, a)
    ensures !a.LockElsewhere?
  {
    hide Sensible;
  }

  // ---------------------------------------------------------------- how the token gets lost

  /** Dropping a lock future that waits for read o abandons o, and leaves everything else alone. */
  lemma DropAbandons<V>(mw: MWorld<V>, h: nat, o: nat)
    requires MInv(mw) && Sensible(mw.w.spec) && CanM(mw, DropLock(h)) && OnItsWay(mw, o, h)
    ensures MStep(mw, DropLock(h)).Returned?
    ensures var mw' := MStep(mw, DropLock(h)).value;
            && MInv(mw') && mw'.w.kern == mw.w.kern
            && mw'.m == mw.m.(futures := mw.m.futures - {h}, abandoned := mw.m.abandoned + {o})
            && o < |mw.w.kern.ops| && mw.w.kern.ops[o].target == Counter(mw.m.fd)
  {
    hide Inv, MInv, Sensible, Step, CanAct;
    MStepInv(mw, DropLock(h));
    MInvParts(mw);
    LockTarget(mw, h, o);
    DropKernel(mw.w, h);
  }

  lemma DropKernel(w: World, h: nat)
    requires Sensible(w.spec) && Step(w, Io(DropIo(h, true))).Returned?
    ensures Step(w, Io(DropIo(h, true))).value.kern == w.kern
  {
    hide CodeStep, SpecStep, Sensible;
  }

  lemma LockTarget<V>(mw: MWorld<V>, h: nat, o: nat)
    requires MInv(mw) && OnItsWay(mw, o, h)
    ensures o < |mw.w.kern.ops| && mw.w.kern.ops[o].target == Counter(mw.m.fd)
  {
    hide Inv;
    assert FutureOk(mw.w, mw.m, h);
  }

  /** An abandoned read that is still in flight takes the unit as soon as it is there. */
  lemma CompletesLost<V>(mw: MWorld<V>, o: nat)
    requires MInv(mw) && Sensible(mw.w.spec) && o in mw.m.abandoned && o < |mw.w.kern.ops| && mw.w.kern.ops[o].live
    requires mw.w.kern.ops[o].target == Counter(mw.m.fd) && mw.m.fd in mw.w.kern.fds
    requires mw.w.kern.fds[mw.m.fd].count > 0
    ensures var a := MAct.Other(Io(PostCqe(o, 8, false)));
            && CanM(mw, a) && MStep(mw, a).Returned?
            && var mw' := MStep(mw, a).value; MInv(mw') && mw'.m.fd in mw'.w.kern.fds && Lost(mw', o)
  {
    hide Inv, MInv, Sensible;
    var a := MAct.Other(Io(PostCqe(o, 8, false)));
    MStepInv(mw, a);
    var mw' := MStep(mw, a).value;
    hide Lost, Step, CanAct;
    LostExactly(mw', o);
  }

  /**
   The three ways to lose the token by dropping a lock future that waits for read o: while the lock
   is free, while somebody holds it, and when the read has already taken the unit.
   */
  lemma DroppedWhileFree<V>(mw: MWorld<V>, h: nat, o: nat)
    requires MInv(mw) && Sensible(mw.w.spec) && CanM(mw, DropLock(h)) && OnItsWay(mw, o, h)
    requires o < |mw.w.kern.ops| && mw.w.kern.ops[o].live && mw.m.fd in mw.w.kern.fds
    requires mw.w.kern.fds[mw.m.fd].count > 0
    ensures MStep(mw, DropLock(h)).Returned?
    ensures var mw1 := MStep(mw, DropLock(h)).value; var a := MAct.Other(Io(PostCqe(o, 8, false)));
            && CanM(mw1, a) && MStep(mw1, a).Returned?
            && var mw2 := MStep(mw1, a).value; MInv(mw2) && mw2.m.fd in mw2.w.kern.fds && Lost(mw2, o)
  {
    hide MInv, Sensible, MStep, CanM, Lost;
    DropAbandons(mw, h, o);
    CompletesLost(MStep(mw, DropLock(h)).value, o);
  }

  lemma DroppedWhileHeld<V>(mw: MWorld<V>, h: nat, o: nat, g: nat)
    requires MInv(mw) && Sensible(mw.w.spec) && CanM(mw, DropLock(h)) && OnItsWay(mw, o, h) && g in mw.m.guards
    requires o < |mw.w.kern.ops| && mw.w.kern.ops[o].live
    ensures MStep(mw, DropLock(h)).Returned?
    ensures var mw1 := MStep(mw, DropLock(h)).value;
            && CanM(mw1, Unlock(g)) && MStep(mw1, Unlock(g)).Returned?
            && var mw2 := MStep(mw1, Unlock(g)).value; var a := MAct.Other(Io(PostCqe(o, 8, false)));
               && CanM(mw2, a) && MStep(mw2, a).Returned?
               && var mw3 := MStep(mw2, a).value; MInv(mw3) && mw3.m.fd in mw3.w.kern.fds && Lost(mw3, o)
  {
    hide MInv, Sensible, MStep, CanM, Lost;
    DropAbandons(mw, h, o);
    var mw1 := MStep(mw, DropLock(h)).value;
    UnlockGives(mw1, g);
    CompletesLost(MStep(mw1, Unlock(g)).value, o);
  }

  lemma DroppedWhenTaken<V>(mw: MWorld<V>, h: nat, o: nat)
    requires MInv(mw) && Sensible(mw.w.spec) && CanM(mw, DropLock(h)) && OnItsWay(mw, o, h)
    requires mw.m.fd in mw.w.kern.fds && o in mw.w.kern.fds[mw.m.fd].took
    ensures MStep(mw, DropLock(h)).Returned?
    ensures var mw' := MStep(mw, DropLock(h)).value; MInv(mw') && mw'.m.fd in mw'.w.kern.fds && Lost(mw', o)
  {
    hide MInv, Sensible, MStep, CanM, Lost;
    DropAbandons(mw, h, o);
    LostExactly(MStep(mw, DropLock(h)).value, o);
  }
}
