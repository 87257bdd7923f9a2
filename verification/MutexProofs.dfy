/** Mutual exclusion as a conservation law, and critical sections that happen one after the other. */
module MutexProofs {
  import opened Wrappers
  import opened Reactor
  import opened Kernel
  import opened Spec
  import opened Simulation
  import opened Events
  import opened World
  import opened WorldProofs
  import opened PrivateEvent
  import opened Mutex

  // ---------------------------------------------------------------- the token

  /** Reads that took the unit and whose future has not returned yet, or never will. */
  ghost function Unclaimed<V>(w: World, m: MState<V>): set<nat>
    requires m.fd in w.kern.fds
  {
    w.kern.fds[m.fd].took - m.claimed
  }

  lemma TokenLaw<V>(w: World, m: MState<V>)
    requires FdsOk(w.kern) && m.fd in w.kern.fds && TokenOk(w, m)
    ensures w.kern.fds[m.fd].count + |Unclaimed(w, m)| + m.afar + |m.guards| == 1
  {
    assert FdOk(w.kern.fds[m.fd], m.fd, w.kern.ops);
    var took := w.kern.fds[m.fd].took;
    assert |took| == |took - m.claimed| + |took * m.claimed|;
    assert took * m.claimed == m.claimed;
  }

  lemma MInvParts<V>(mw: MWorld<V>)
    requires MInv(mw)
    ensures Inv(mw.w) && FdsOk(mw.w.kern) && Sensible(mw.w.spec) && mw.m.fd in mw.w.kern.fds
  {
    InvSensible(mw.w);
    hide Sim, ExecOk, BlockedOk, WakersOk, AwaitingOk, RoundOk, Sensible;
  }

  // ---------------------------------------------------------------- acts on anything else

  lemma FramesMutex<V>(w: World, w': World, m: MState<V>)
    requires OnlyThrough(w.kern, w.spec, m.fd, m.futures)
    requires Untouched(w.kern, w.spec, w'.kern, w'.spec, m.fd, m.futures)
    requires (forall h | h in m.futures :: FutureOk(w, m, h)) && TokenOk(w, m) && ReadsOk(w, m)
    ensures (forall h | h in m.futures :: FutureOk(w', m, h)) && TokenOk(w', m) && ReadsOk(w', m)
  {
  }

  lemma KeepsOther<V>(mw: MWorld<V>, act: Act)
    requires MInv(mw) && Sensible(mw.w.spec) && CanM(mw, MAct.Other(act)) && !CanPanic(mw.w, act)
    ensures MStep(mw, MAct.Other(act)).Returned? && MInv(MStep(mw, MAct.Other(act)).value)
  {
    hide Inv, Sensible, CanAct, CanPanic, Step, Avoids, OnlyThrough, Untouched, FutureOk, TokenOk, ReadsOk, LogOk;
    AvoidsAct(mw.w, act, mw.m.fd, mw.m.futures);
    FramesMutex(mw.w, Step(mw.w, act).value, mw.m);
  }

  // ---------------------------------------------------------------- acts on the mutex

  lemma KeepsNewLock<V>(mw: MWorld<V>, h: nat)
    requires MInv(mw) && Sensible(mw.w.spec) && CanM(mw, NewLock(h))
    ensures MStep(mw, NewLock(h)).Returned? && MInv(MStep(mw, NewLock(h)).value)
  {
    hide Inv, Sensible, Step, OnlyThrough, Replay, Enabled;
    OwnOther(mw.w, NewIo(h, Oneshot), mw.m.fd, mw.m.futures);
  }

  lemma KeepsDrop<V>(w: World, w': World, m: MState<V>, m': MState<V>, h: nat)
    requires (forall g | g in m.futures :: FutureOk(w, m, g)) && m.fd in w.kern.fds && TokenOk(w, m) && ReadsOk(w, m)
    requires h in w.spec.handles && w'.kern == w.kern && w'.spec.handles == w.spec.handles - {h}
    requires OnlyHandle(w.spec, w'.spec, h) && Agrees(w) && Agrees(w')
    requires h in m.futures && m' == m.(futures := m.futures - {h}, abandoned := m.abandoned + ReadOf(w, h))
    ensures (forall g | g in m'.futures :: FutureOk(w', m', g)) && TokenOk(w', m') && ReadsOk(w', m')
  {
  }

  lemma KeepsDropLock<V>(mw: MWorld<V>, h: nat)
    requires MInv(mw) && Sensible(mw.w.spec) && CanM(mw, DropLock(h))
    ensures MStep(mw, DropLock(h)).Returned? && MInv(MStep(mw, DropLock(h)).value)
  {
    hide Inv, Sensible, Step, OnlyThrough, TokenOk, ReadsOk, Enabled, OnlyHandle, CanAct;
    assert FutureOk(mw.w, mw.m, h);
    hide FutureOk;
    OwnDrop(mw.w, h, mw.m.fd, mw.m.futures);
    MInvParts(mw);
    InvHolders(mw.w);
    InvHolders(Step(mw.w, Io(DropIo(h, true))).value);
    var m' := MStep(mw, DropLock(h)).value.m;
    KeepsDrop(mw.w, Step(mw.w, Io(DropIo(h, true))).value, mw.m, m', h);
  }

  lemma KeepsTakeElsewhere<V>(mw: MWorld<V>)
    requires MInv(mw) && Sensible(mw.w.spec) && CanM(mw, TakeElsewhere)
    ensures MStep(mw, TakeElsewhere).Returned? && MInv(MStep(mw, TakeElsewhere).value)
  {
    hide Inv, Sensible, Step, OnlyThrough, Enabled, CanAct, LogOk, FutureOk, TokenOk, ReadsOk;
    MInvParts(mw);
    OwnOther(mw.w, TakeEvent(mw.m.fd), mw.m.fd, mw.m.futures);
    var w' := Step(mw.w, Io(TakeEvent(mw.m.fd))).value;
    var m' := mw.m.(afar := mw.m.afar + 1);
    SameFutures(mw.w, w', mw.m, m');
    TakenToken(mw.w, w', mw.m);
    LogFrame(mw.m, m');
  }

  lemma TakenToken<V>(w: World, w': World, m: MState<V>)
    requires m.fd in w.kern.fds && m.fd in w'.kern.fds && TokenOk(w, m) && ReadsOk(w, m)
    requires w'.kern.ops == w.kern.ops && w'.spec.ops == w.spec.ops
    requires w'.kern.fds[m.fd].took == w.kern.fds[m.fd].took && w'.kern.fds[m.fd].sent == w.kern.fds[m.fd].sent
    requires w'.kern.fds[m.fd].foreign == w.kern.fds[m.fd].foreign + 1
    ensures TokenOk(w', m.(afar := m.afar + 1)) && ReadsOk(w', m.(afar := m.afar + 1))
  {
  }

  lemma KeepsLockElsewhere<V>(mw: MWorld<V>, g: nat)
    requires MInv(mw) && Sensible(mw.w.spec) && CanM(mw, LockElsewhere(g))
    ensures MStep(mw, LockElsewhere(g)).Returned? && MInv(MStep(mw, LockElsewhere(g)).value)
  {
    hide Inv, Sensible, OnlyThrough, LogOk, FutureOk, TokenOk, ReadsOk;
    var m' := Acquire(mw.m, g).(afar := mw.m.afar - 1);
    MInvParts(mw);
    TokenLaw(mw.w, mw.m);
    assert mw.m.guards == {};
    AcquireLog(mw.m, g);
    LogFrame(Acquire(mw.m, g), m');
    SameFutures(mw.w, mw.w, mw.m, m');
    ElsewhereToken(mw.w, mw.m, g);
  }

  lemma ElsewhereToken<V>(w: World, m: MState<V>, g: nat)
    requires m.fd in w.kern.fds && TokenOk(w, m) && ReadsOk(w, m) && g !in m.guards && m.afar > 0
    ensures var m' := Acquire(m, g).(afar := m.afar - 1); TokenOk(w, m') && ReadsOk(w, m')
  {
  }

  lemma SameFutures<V>(w: World, w': World, m: MState<V>, m': MState<V>)
    requires forall h | h in m.futures :: FutureOk(w, m, h)
    requires w'.spec.handles == w.spec.handles && w'.kern.ops == w.kern.ops
    requires m'.fd == m.fd && m'.claimed == m.claimed && m'.futures == m.futures
    ensures forall h | h in m'.futures :: FutureOk(w', m', h)
  {
  }

  lemma KeepsUnlock<V>(mw: MWorld<V>, g: nat)
    requires MInv(mw) && Sensible(mw.w.spec) && CanM(mw, Unlock(g))
    ensures MStep(mw, Unlock(g)).Returned? && MInv(MStep(mw, Unlock(g)).value)
  {
    hide Inv, Sensible, Step, OnlyThrough;
    MInvParts(mw);
    OwnOther(mw.w, NotifyEvent(mw.m.fd), mw.m.fd, mw.m.futures);
  }

  lemma AcquireLog<V>(m: MState<V>, g: nat)
    requires LogOk(m) && m.guards == {}
    ensures LogOk(Acquire(m, g))
  {
    var log := m.log + [Section(g, [])];
    assert log[..|log| - 1] == m.log;
  }

  lemma KeepsModify<V>(mw: MWorld<V>, g: nat, f: V -> V)
    requires MInv(mw) && Sensible(mw.w.spec) && CanM(mw, Modify(g, f))
    ensures MStep(mw, Modify(g, f)).Returned? && MInv(MStep(mw, Modify(g, f)).value)
  {
    hide Inv, Sensible, OnlyThrough;
    var last := mw.m.log[|mw.m.log| - 1];
    var log := Record(mw.m.log, g, f);
    assert log[..|log| - 1] == mw.m.log[..|mw.m.log| - 1];
    assert (last.updates + [f])[..|last.updates|] == last.updates;
    TokenLaw(mw.w, mw.m) by { MInvParts(mw); }
  }

  // ---------------------------------------------------------------- polling a lock future

  /** The future is still pending. */
  lemma KeepsPending<V>(w: World, w': World, m: MState<V>, h: nat)
    requires Agrees(w) && Agrees(w') && m.fd in w.kern.fds && TokenOk(w, m) && ReadsOk(w, m)
    requires (forall g | g in m.futures :: FutureOk(w, m, g)) && (forall o | o in m.claimed :: o < |w.kern.ops|)
    requires h in m.futures && OnlyHandle(w.spec, w'.spec, h)
    requires w'.kern.fds == w.kern.fds && |w.kern.ops| <= |w'.kern.ops| && w.kern.ops == w'.kern.ops[..|w.kern.ops|]
    requires h in w.spec.handles && h in w'.spec.handles && w'.spec.handles[h].Owns?
    requires w'.spec.handles[h].op < |w'.kern.ops| && w'.kern.ops[w'.spec.handles[h].op].target == Counter(m.fd)
    requires w'.spec.ops[w'.spec.handles[h].op].holder == Some(h)
    requires w.spec.handles[h].Owns? ==> w'.spec.handles[h] == w.spec.handles[h]
    requires w.spec.handles[h].Fresh? ==> |w.spec.ops| <= w'.spec.handles[h].op
    ensures (forall g | g in m.futures :: FutureOk(w', m, g)) && TokenOk(w', m) && ReadsOk(w', m)
  {
    assert forall o | 0 <= o < |w.kern.ops| :: w'.kern.ops[o] == w.kern.ops[o];
  }

  /** The future returns a guard for read o: its handle takes the result in w1 and is gone in w2. */
  lemma KeepsGranted<V>(w: World, w1: World, w2: World, m: MState<V>, h: nat, o: nat, g: nat)
    requires Agrees(w) && Agrees(w2) && m.fd in w.kern.fds && TokenOk(w, m) && ReadsOk(w, m)
    requires forall f | f in m.futures :: FutureOk(w, m, f)
    requires h in m.futures && h in w.spec.handles && w.spec.handles[h] == Owns(o)
    requires OnlyHandle(w.spec, w1.spec, h) && OnlyHandle(w1.spec, w2.spec, h)
    requires w2.kern == w1.kern == w.kern && w2.spec.handles == w1.spec.handles - {h}
    requires o in w.kern.fds[m.fd].took && g !in m.guards
    ensures var m' := Acquire(m, g).(futures := m.futures - {h}, claimed := m.claimed + {o});
            (forall f | f in m'.futures :: FutureOk(w2, m', f)) && TokenOk(w2, m') && ReadsOk(w2, m')
  {
    assert w.spec.ops[o].holder == Some(h) && o !in m.claimed;
    assert w2.spec.ops[o].holder == None;
  }

  lemma ClaimedExist<V>(mw: MWorld<V>)
    requires MInv(mw)
    ensures forall o | o in mw.m.claimed :: o < |mw.w.kern.ops|
  {
    MInvParts(mw);
    assert FdOk(mw.w.kern.fds[mw.m.fd], mw.m.fd, mw.w.kern.ops);
    hide Inv, OnlyThrough, FutureOk, ReadsOk, LogOk;
  }

  lemma CanDropDone(w: World, h: nat)
    requires h in w.code.ios && w.phase.Polling?
    ensures CanAct(w, Io(DropIo(h, true)))
  {
  }

  lemma FreshGuard<V>(w: World, m: MState<V>, o: nat)
    requires m.fd in w.kern.fds && o in Unclaimed(w, m)
    requires w.kern.fds[m.fd].count + |Unclaimed(w, m)| + m.afar + |m.guards| == 1
    ensures m.guards == {}
  {
    assert |Unclaimed(w, m)| > 0;
  }

  lemma LogFrame<V>(m: MState<V>, m': MState<V>)
    requires LogOk(m) && m'.obj == m.obj && m'.first == m.first && m'.log == m.log && m'.guards == m.guards
    ensures LogOk(m')
  {
  }

  /** The read of this lock future has completed with an error. */
  ghost predicate FailedRead<V>(mw: MWorld<V>, h: nat) {
    && h in mw.w.spec.handles && mw.w.spec.handles[h].Owns? && mw.w.spec.handles[h].op < |mw.w.spec.ops|
    && mw.w.spec.ops[mw.w.spec.handles[h].op].results != []
    && mw.w.spec.ops[mw.w.spec.handles[h].op].results[0] < 0
  }

  lemma KeepsPollLock<V>(mw: MWorld<V>, h: nat, slot: nat, userData: nat, g: nat)
    requires MInv(mw) && Sensible(mw.w.spec) && CanM(mw, PollLock(h, slot, userData, g))
    requires !CanPanic(mw.w, Io(PollIo(h, mw.w.phase.task, Counter(mw.m.fd), slot, userData)))
    ensures MStep(mw, PollLock(h, slot, userData, g)).Panicked? <==> FailedRead(mw, h)
    ensures var r := MStep(mw, PollLock(h, slot, userData, g)); r.Returned? ==> MInv(r.value)
  {
    hide Inv, Sensible, Step, OnlyThrough, TokenOk, ReadsOk, OnlyHandle, CanAct, CanPanic, LogOk, Agrees, NewGuard;
    assert FutureOk(mw.w, mw.m, h);
    var w, m, fd := mw.w, mw.m, mw.m.fd;
    MInvParts(mw);
    ClaimedExist(mw);
    InvHolders(w);
    OwnPoll(w, h, w.phase.task, slot, userData, fd, m.futures);
    var w1 := Step(w, Io(PollIo(h, w.phase.task, Counter(fd), slot, userData))).value;
    InvHolders(w1);
    if w1.spec.handles[h].Owns? {
      OwnerAgrees(w1, h);
      SameSizes(w);
      hide FutureOk;
      KeepsPending(w, w1, m, h);
    } else {
      var o := w.spec.handles[h].op;
      hide FutureOk;
      OwnerAgrees(w, h);
      if w.spec.ops[o].results[0] >= 0 {
        TookIt(w, o, fd);
        TokenLaw(w, m);
        CanDropDone(w1, h);
        OwnDrop(w1, h, fd, m.futures);
        var w2 := Step(w1, Io(DropIo(h, true))).value;
        InvHolders(w2);
        FreshGuard(w, m, o);
        KeepsGranted(w, w1, w2, m, h, o, g);
        AcquireLog(m, g);
        LogFrame(Acquire(m, g), Acquire(m, g).(futures := m.futures - {h}, claimed := m.claimed + {o}));
      }
    }
  }
}
