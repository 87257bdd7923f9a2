/** What the mutex promises in every run. */
module MutexTheorems {
  import opened Wrappers
  import opened Reactor
  import opened Kernel
  import opened Spec
  import opened Simulation
  import opened Events
  import opened World
  import opened WorldProofs
  import opened PrivateEvent
  import opened Mutex
  import opened MutexProofs

  /** `Mutex::new`: an eventfd of its own, notified once. */
  lemma New<V>(w: World, fd: nat, v: V) returns (mw: MWorld<V>)
    requires Inv(w) && Sensible(w.spec) && CanAct(w, Io(OpenEvent(fd))) && w.phase != Top
    ensures Step(w, Io(OpenEvent(fd))).Returned?
    ensures Step(Step(w, Io(OpenEvent(fd))).value, Io(NotifyEvent(fd))) == Returned(mw.w)
    ensures MInv(mw) && mw.m == MState(fd, {}, {}, v, v, {}, [], {}, 0)
    ensures mw.w.kern.fds[fd].count == 1
  {
    hide Inv, Sensible, Step, CanAct, OnlyThrough, MInv, TokenOk;
    OpensFresh(w, fd);
    NoReadsYet(w, fd);
    OpensEvent(w, fd);
    var w1 := Step(w, Io(OpenEvent(fd))).value;
    OwnOther(w1, NotifyEvent(fd), fd, {});
    var w2 := Step(w1, Io(NotifyEvent(fd))).value;
    mw := MWorld(w2, MState(fd, {}, {}, v, v, {}, [], {}, 0));
    SameSizes(w2);
    NewToken(w2, mw.m);
    MInvParts(mw);
    TokenLaw(w2, mw.m);
  }

  lemma OpensFresh(w: World, fd: nat)
    requires CanAct(w, Io(OpenEvent(fd)))
    ensures fd !in w.kern.fds
  {
  }

  lemma NewToken<V>(w: World, m: MState<V>)
    requires m.fd in w.kern.fds && |w.kern.ops| == |w.spec.ops|
    requires m.claimed == m.guards == m.abandoned == {} && m.afar == 0 && m.log == []
    requires w.kern.fds[m.fd].sent == 1 && w.kern.fds[m.fd].foreign == 0 && m.obj == m.first
    requires forall o | 0 <= o < |w.kern.ops| :: w.kern.ops[o].target != Counter(m.fd)
    requires Inv(w) && OnlyThrough(w.kern, w.spec, m.fd, {}) && m.futures == {}
    ensures TokenOk(w, m) && MInv(MWorld(w, m))
  {
    hide Inv, OnlyThrough;
  }

  /** What can panic: anything that can panic without the mutex, and a lock whose read has failed. */
  ghost predicate MCanPanic<V>(mw: MWorld<V>, a: MAct<V>) {
    match a
    case Other(act) => CanPanic(mw.w, act)
    case PollLock(h, slot, userData, _) =>
      (mw.w.phase.Polling? && CanPanic(mw.w, Io(PollIo(h, mw.w.phase.task, Counter(mw.m.fd), slot, userData))))
      || FailedRead(mw, h)
    case _ => false
  }

  lemma PollLockPanics<V>(mw: MWorld<V>, h: nat, slot: nat, userData: nat, g: nat)
    requires MInv(mw) && Sensible(mw.w.spec) && CanM(mw, PollLock(h, slot, userData, g))
    requires CanPanic(mw.w, Io(PollIo(h, mw.w.phase.task, Counter(mw.m.fd), slot, userData)))
    ensures MStep(mw, PollLock(h, slot, userData, g)).Panicked?
  {
    hide Inv, Sensible, Step, CanAct, CanPanic;
    StepInv(mw.w, Io(PollIo(h, mw.w.phase.task, Counter(mw.m.fd), slot, userData)));
  }

  lemma OtherPanics<V>(mw: MWorld<V>, act: Act)
    requires MInv(mw) && Sensible(mw.w.spec) && CanM(mw, MAct.Other(act)) && CanPanic(mw.w, act)
    ensures MStep(mw, MAct.Other(act)).Panicked?
  {
    hide Inv, Sensible, Step, CanAct, CanPanic;
    StepInv(mw.w, act);
  }

  /** Every act keeps the token and the log, and panics exactly in the cases of `MCanPanic`. */
  lemma MStepInv<V>(mw: MWorld<V>, a: MAct<V>)
    requires MInv(mw) && Sensible(mw.w.spec) && CanM(mw, a)
    ensures MStep(mw, a).Panicked? <==> MCanPanic(mw, a)
    ensures MStep(mw, a).Returned? ==> MInv(MStep(mw, a).value)
  {
    hide MInv, Sensible, MStep, CanPanic, FailedRead;
    match a {
      case Other(act) => if CanPanic(mw.w, act) { OtherPanics(mw, act); } else { KeepsOther(mw, act); }
      case NewLock(h) => KeepsNewLock(mw, h);
      case PollLock(h, slot, userData, g) =>
        if CanPanic(mw.w, Io(PollIo(h, mw.w.phase.task, Counter(mw.m.fd), slot, userData))) {
          PollLockPanics(mw, h, slot, userData, g);
        } else {
          KeepsPollLock(mw, h, slot, userData, g);
        }
      case DropLock(h) => KeepsDropLock(mw, h);
      case TakeElsewhere => KeepsTakeElsewhere(mw);
      case LockElsewhere(g) => KeepsLockElsewhere(mw, g);
      case Modify(g, f) => KeepsModify(mw, g, f);
      case Unlock(g) => KeepsUnlock(mw, g);
    }
  }

  // ---------------------------------------------------------------- runs

  ghost function MRun<V>(mw: MWorld<V>, acts: seq<MAct<V>>): Outcome<MWorld<V>>
    requires Sensible(mw.w.spec)
    decreases |acts|
  {
    if acts == [] then Returned(mw)
    else match MStep(mw, acts[0])
      case Panicked => Panicked
      case Returned(mw') => MRun(mw', acts[1..])
  }

  ghost predicate CanMRun<V>(mw: MWorld<V>, acts: seq<MAct<V>>)
    requires Sensible(mw.w.spec)
    decreases |acts|
  {
    acts == []
    || (CanM(mw, acts[0]) && (MStep(mw, acts[0]).Returned? ==> CanMRun(MStep(mw, acts[0]).value, acts[1..])))
  }

  /** The guards in the order in which the lock was acquired. */
  ghost function Acquired<V>(mw: MWorld<V>, acts: seq<MAct<V>>): seq<nat>
    requires Sensible(mw.w.spec)
    decreases |acts|
  {
    if acts == [] || MStep(mw, acts[0]).Panicked? then []
    else
      var mw' := MStep(mw, acts[0]).value;
      (if acts[0].PollLock? && acts[0].g in mw'.m.guards then [acts[0].g]
       else if acts[0].LockElsewhere? then [acts[0].g] else [])
      + Acquired(mw', acts[1..])
  }

  ghost function Guards<V>(log: seq<Section<V>>): seq<nat> {
    seq(|log|, i requires 0 <= i < |log| => log[i].guard)
  }

  lemma {:induction false} RecordGuards<V>(log: seq<Section<V>>, g: nat, f: V -> V)
    ensures |Record(log, g, f)| == |log| && Guards(Record(log, g, f)) == Guards(log)
  {
    if log != [] {
      RecordGuards(log[..|log| - 1], g, f);
      var r := Record(log, g, f);
      forall i | 0 <= i < |log|
        ensures r[i].guard == log[i].guard
      {
        if log[|log| - 1].guard != g && i < |log| - 1 {
          assert Guards(Record(log[..|log| - 1], g, f))[i] == Guards(log[..|log| - 1])[i];
        }
      }
    }
  }

  lemma AcquiredStep<V>(mw: MWorld<V>, a: MAct<V>)
    requires MInv(mw) && Sensible(mw.w.spec) && CanM(mw, a) && MStep(mw, a).Returned?
    ensures var mw' := MStep(mw, a).value;
            && mw'.m.first == mw.m.first && mw'.m.fd == mw.m.fd
            && Guards(mw'.m.log)
               == Guards(mw.m.log) + (if a.PollLock? && a.g in mw'.m.guards then [a.g]
                                      else if a.LockElsewhere? then [a.g] else [])
  {
    hide MInv, Inv, Sensible, Step, CanAct;
    if a.Modify? {
      RecordGuards(mw.m.log, a.g, a.f);
    }
  }

  /**
   Critical sections happen one after the other: for any number of lock futures, tasks and
   threads, whatever happens in between, the value is what the critical sections produce when
   each is run as a whole, in the order in which the lock was acquired.
   */
  lemma {:induction false} SectionsSerialise<V>(mw: MWorld<V>, acts: seq<MAct<V>>)
    requires MInv(mw) && Sensible(mw.w.spec) && CanMRun(mw, acts) && MRun(mw, acts).Returned?
    ensures var mw' := MRun(mw, acts).value;
            && MInv(mw') && mw'.m.first == mw.m.first
            && mw'.m.obj == Replay(mw'.m.log, mw.m.first)
            && Guards(mw'.m.log) == Guards(mw.m.log) + Acquired(mw, acts)
    decreases |acts|
  {
    hide Inv, Sensible, MStep, CanM, Replay, MInv;
    if acts == [] {
      assert LogOk(mw.m) by { LogOfInv(mw); }
      assert Guards(mw.m.log) + [] == Guards(mw.m.log);
    } else {
      MStepInv(mw, acts[0]);
      AcquiredStep(mw, acts[0]);
      hide Guards;
      SectionsSerialise(MStep(mw, acts[0]).value, acts[1..]);
    }
  }

  lemma LogOfInv<V>(mw: MWorld<V>)
    requires MInv(mw)
    ensures LogOk(mw.m)
  {
  }

  // ---------------------------------------------------------------- the token

  /**
   Conservation: the counter, the reads that took the unit and were not turned into guards, the
   units on their way to another thread and the live guards are always exactly one together. So
   there is never a second guard, and while there is one nobody else has the unit.
   */
  lemma MutualExclusion<V>(mw: MWorld<V>, g: nat, g': nat)
    requires MInv(mw)
    ensures mw.m.fd in mw.w.kern.fds
    ensures mw.w.kern.fds[mw.m.fd].count + |Unclaimed(mw.w, mw.m)| + mw.m.afar + |mw.m.guards| == 1
    ensures g in mw.m.guards && g' in mw.m.guards ==> g == g'
    ensures g in mw.m.guards ==>
              mw.w.kern.fds[mw.m.fd].count == 0 && Unclaimed(mw.w, mw.m) == {} && mw.m.afar == 0
  {
    MInvParts(mw);
    hide Inv, OnlyThrough, FutureOk, ReadsOk, LogOk;
    TokenLaw(mw.w, mw.m);
    if g in mw.m.guards {
      assert |mw.m.guards - {g}| == |mw.m.guards| - 1;
      assert mw.m.guards - {g} == {};
    }
  }

  /** The lock future with handle h waits for read o. */
  ghost predicate OnItsWay<V>(mw: MWorld<V>, o: nat, h: nat) {
    h in mw.m.futures && h in mw.w.spec.handles && mw.w.spec.handles[h] == Owns(o)
  }

  /**
   A read that took the unit and was not turned into a guard has a lock future, exactly if none was
   dropped.
   */
  lemma TokenHasFuture<V>(mw: MWorld<V>, o: nat)
    requires MInv(mw) && mw.m.fd in mw.w.kern.fds && o in Unclaimed(mw.w, mw.m)
    ensures (exists h :: OnItsWay(mw, o, h)) <==> o !in mw.m.abandoned
    ensures o < |mw.w.spec.ops| && (o in mw.m.abandoned <==> mw.w.spec.ops[o].holder == None)
  {
    MInvParts(mw);
    assert FdOk(mw.w.kern.fds[mw.m.fd], mw.m.fd, mw.w.kern.ops);
    InvHolders(mw.w);
    hide Inv, LogOk, TokenOk;
    if o !in mw.m.abandoned {
      var h := mw.w.spec.ops[o].holder.value;
      assert OnItsWay(mw, o, h);
    }
  }

  /** The completion of read o waits for `react`, or its result waits to be taken by the next poll of h. */
  ghost predicate Arriving<V>(mw: MWorld<V>, o: nat, h: nat) {
    && OnItsWay(mw, o, h) && o < |mw.w.kern.ops| == |mw.w.spec.ops| && !mw.w.kern.ops[o].live
    && (Closing(mw.w.kern.cq, o) || (mw.w.spec.ops[o].closed && mw.w.spec.ops[o].results != []))
  }

  /** Read o took the unit, but its lock future is gone. */
  ghost predicate Lost<V>(mw: MWorld<V>, o: nat)
    requires mw.m.fd in mw.w.kern.fds
  {
    o in Unclaimed(mw.w, mw.m) && o < |mw.w.spec.ops| && mw.w.spec.ops[o].holder == None
  }

  /**
   Nobody waits in vain: with no guard alive, the kernel can complete the read of any lock future
   that is still in flight, or the token is already on its way to a lock future of this thread or
   of another one. The only exception is a token that was lost.
   */
  lemma LockProgress<V>(mw: MWorld<V>, h: nat, o: nat)
    requires MInv(mw) && mw.m.guards == {} && OnItsWay(mw, o, h)
    requires o < |mw.w.kern.ops| && mw.w.kern.ops[o].live
    ensures mw.m.fd in mw.w.kern.fds
    ensures CanPost(mw.w.kern, o, 8, false) || (exists o', h' :: Arriving(mw, o', h')) || mw.m.afar == 1
            || exists o' :: Lost(mw, o')
  {
    hide MInv, Unclaimed, Arriving, Lost;
    MutualExclusion(mw, 0, 0);
    if mw.w.kern.fds[mw.m.fd].count == 0 && mw.m.afar == 0 {
      assert |Unclaimed(mw.w, mw.m)| == 1;
      var o' :| o' in Unclaimed(mw.w, mw.m);
      OnTheWayOrLost(mw, o');
    } else if mw.m.afar == 0 {
      TakesUnit(mw, h, o);
    }
  }

  lemma OnTheWayOrLost<V>(mw: MWorld<V>, o: nat)
    requires MInv(mw) && mw.m.fd in mw.w.kern.fds && o in Unclaimed(mw.w, mw.m)
    ensures Lost(mw, o) || exists h :: Arriving(mw, o, h)
  {
    hide MInv, Unclaimed, Arriving, OnItsWay;
    TokenHasFuture(mw, o);
    if o !in mw.m.abandoned {
      var h :| OnItsWay(mw, o, h);
      Arrives(mw, o, h);
    }
  }

  lemma TakesUnit<V>(mw: MWorld<V>, h: nat, o: nat)
    requires MInv(mw) && OnItsWay(mw, o, h) && o < |mw.w.kern.ops| && mw.w.kern.ops[o].live
    requires mw.m.fd in mw.w.kern.fds && mw.w.kern.fds[mw.m.fd].count > 0
    ensures CanPost(mw.w.kern, o, 8, false)
  {
    assert FutureOk(mw.w, mw.m, h);
    hide Inv, OnlyThrough, TokenOk, ReadsOk, LogOk;
  }

  lemma Arrives<V>(mw: MWorld<V>, o: nat, h: nat)
    requires MInv(mw) && mw.m.fd in mw.w.kern.fds && o in Unclaimed(mw.w, mw.m) && OnItsWay(mw, o, h)
    ensures Arriving(mw, o, h)
  {
    MInvParts(mw);
    var k, s := mw.w.kern, mw.w.spec;
    assert FdOk(k.fds[mw.m.fd], mw.m.fd, k.ops);
    SameSizes(mw.w);
    hide ExecOk, BlockedOk, WakersOk, AwaitingOk, RoundOk, PendingOk, OneshotsOk, MultishotsOk, HandlesOk, CqOk, LogOk,
         TokenOk, ReadsOk, OnlyThrough, FutureOk;
    assert PostedOk(k.ops[o], s.ops[o], k.cq, o) && OpOk(s.ops[o]);
  }

  // ---------------------------------------------------------------- what a poll of `lock` gives

  /**
   A lock future stays pending, with nothing changed for the mutex, until its read has completed;
   then its next poll returns the only guard, or panics if the read has failed.
   */
  lemma PollLockGives<V>(mw: MWorld<V>, h: nat, slot: nat, userData: nat, g: nat)
    requires MInv(mw) && Sensible(mw.w.spec) && CanM(mw, PollLock(h, slot, userData, g))
    requires !CanPanic(mw.w, Io(PollIo(h, mw.w.phase.task, Counter(mw.m.fd), slot, userData)))
    ensures h in mw.w.spec.handles && !mw.w.spec.handles[h].Done?
    ensures var r := MStep(mw, PollLock(h, slot, userData, g));
            match mw.w.spec.handles[h]
            case Owns(o) =>
              && o < |mw.w.spec.ops|
              && var results := mw.w.spec.ops[o].results;
                 if results == [] then r.Returned? && r.value.m == mw.m
                 else if results[0] < 0 then r.Panicked?
                 else
                   && r.Returned? && r.value.m.guards == {g} && r.value.m.futures == mw.m.futures - {h}
                   && h !in r.value.w.spec.handles && r.value.m.obj == mw.m.obj
            case _ => r.Returned? && r.value.m == mw.m
  {
    hide Inv, Sensible, Step, OnlyThrough, TokenOk, ReadsOk, OnlyHandle, CanAct, CanPanic, LogOk, Agrees, NewGuard;
    assert FutureOk(mw.w, mw.m, h);
    hide FutureOk;
    var w, m, fd := mw.w, mw.m, mw.m.fd;
    MInvParts(mw);
    KeepsPollLock(mw, h, slot, userData, g);
    OwnPoll(w, h, w.phase.task, slot, userData, fd, m.futures);
    var w1 := Step(w, Io(PollIo(h, w.phase.task, Counter(fd), slot, userData))).value;
    if w.spec.handles[h].Owns? {
      InvHolders(w);
      OwnerAgrees(w, h);
    }
    if !w1.spec.handles[h].Owns? && w.spec.ops[w.spec.handles[h].op].results[0] >= 0 {
      CanDropDone(w1, h);
      OwnDrop(w1, h, fd, m.futures);
      OnlyGuard(MStep(mw, PollLock(h, slot, userData, g)).value, g);
    }
  }

  // ---------------------------------------------------------------- the guard's drop

  /** Giving the unit back makes it available, whoever held the guard. */
  lemma UnlockGives<V>(mw: MWorld<V>, g: nat)
    requires MInv(mw) && g in mw.m.guards && Sensible(mw.w.spec)
    ensures CanM(mw, Unlock(g)) && MStep(mw, Unlock(g)).Returned?
    ensures var mw' := MStep(mw, Unlock(g)).value;
            && MInv(mw') && mw.m.fd in mw.w.kern.fds && mw'.w.kern == Notify(mw.w.kern, mw.m.fd)
            && mw'.w.code == mw.w.code && mw'.w.spec == mw.w.spec
            && mw'.w.kern.fds[mw.m.fd].count == 1 && mw'.m == mw.m.(guards := {})
  {
    hide Inv, MInv, Sensible, Step, MCanPanic;
    MInvParts(mw);
    KeepsUnlock(mw, g);
    NotifyGives(mw.w, mw.m.fd);
    MutualExclusion(mw, g, g);
    OnlyGuard(mw, g);
  }

  lemma NotifyGives(w: World, fd: nat)
    requires Sensible(w.spec) && fd in w.kern.fds
    ensures CanAct(w, Io(NotifyEvent(fd))) && Step(w, Io(NotifyEvent(fd))).Returned?
    ensures var w' := Step(w, Io(NotifyEvent(fd))).value;
            w'.kern == Notify(w.kern, fd) && w'.code == w.code && w'.spec == w.spec
  {
    hide Sensible;
  }

  lemma OnlyGuard<V>(mw: MWorld<V>, g: nat)
    requires MInv(mw) && g in mw.m.guards
    ensures mw.m.guards == {g}
  {
    forall g' | g' in mw.m.guards
      ensures g' == g
    {
      MutualExclusion(mw, g, g');
    }
  }
}
