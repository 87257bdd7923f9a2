/**
 A run from start-up in which a mutex loses its token: a task creates the mutex, locks it, drops
 the lock future after its first poll, and the read completes.
 */
module LostRun {
  import opened Wrappers
  import opened Reactor
  import opened Kernel
  import opened Spec
  import opened Simulation
  import opened World
  import opened WorldProofs
  import opened WorldTheorems
  import opened PrivateEvent
  import opened Mutex
  import opened MutexProofs
  import opened MutexTheorems
  import opened Orphan
  import opened LostLocks

  /** The run `acts` of the mutex is possible and leads from mw0 to mw. */
  ghost predicate Leads<V>(mw0: MWorld<V>, acts: seq<MAct<V>>, mw: MWorld<V>) {
    Sensible(mw0.w.spec) && CanMRun(mw0, acts) && MRun(mw0, acts) == Returned(mw) && MInv(mw)
  }

  lemma {:induction false} MRunAppend<V>(mw: MWorld<V>, acts: seq<MAct<V>>, a: MAct<V>)
    requires Sensible(mw.w.spec) && CanMRun(mw, acts) && MRun(mw, acts).Returned?
    requires Sensible(MRun(mw, acts).value.w.spec) && CanM(MRun(mw, acts).value, a)
    ensures CanMRun(mw, acts + [a]) && MRun(mw, acts + [a]) == MStep(MRun(mw, acts).value, a)
    decreases |acts|
  {
    hide Sensible, CanM, MStep;
    if acts == [] {
      assert acts + [a] == [a] && [a][1..] == [];
    } else {
      assert (acts + [a])[1..] == acts[1..] + [a];
      MRunAppend(MStep(mw, acts[0]).value, acts[1..], a);
    }
  }

  lemma LeadsOn<V>(mw0: MWorld<V>, acts: seq<MAct<V>>, mw: MWorld<V>, a: MAct<V>)
    requires Leads(mw0, acts, mw) && Sensible(mw.w.spec) && CanM(mw, a) && MStep(mw, a).Returned?
    ensures Leads(mw0, acts + [a], MStep(mw, a).value)
  {
    hide MInv, Sensible, CanM, MStep, CanMRun, MRun;
    MStepInv(mw, a);
    MRunAppend(mw0, acts, a);
  }

  /** Start-up, up to the poll of the first task. */
  lemma FirstTask() returns (acts: seq<Act>, w: World)
    ensures At(acts, w) && w.phase == Polling(0) && w.kern == Boot && w.spec == Empty && w.code == NoCode
  {
    hide At, Inv;
    acts, w := [], Start;
    assert At(acts, w) by { StartsAt(); }
    acts, w := Extend(acts, w, Spawn(0));
    acts, w := Extend(acts, w, Enter);
    acts, w := Extend(acts, w, Iterate);
  }

  /** The task creates a lock future. */
  lemma FirstLock<V>(mw: MWorld<V>)
    requires MInv(mw) && Sensible(mw.w.spec) && mw.w.phase == Polling(0) && mw.w.code == NoCode && mw.w.spec == Empty
    ensures CanM(mw, NewLock(0)) && MStep(mw, NewLock(0)).Returned?
    ensures var mw1 := MStep(mw, NewLock(0)).value;
            && mw1.w.phase == Polling(0) && mw1.w.code == Code(EmptyRing, map[0 := One(NewOne)])
            && mw1.w.spec == SState([], map[0 := Fresh(Oneshot)])
            && mw1.w.kern == mw.w.kern && mw1.m == mw.m.(futures := mw.m.futures + {0})
  {
    hide MInv, Inv;
  }

  /** And polls it for the first time. */
  lemma FirstPoll<V>(mw: MWorld<V>)
    requires MInv(mw) && Sensible(mw.w.spec) && mw.w.phase == Polling(0) && mw.m.fd in mw.w.kern.fds
    requires mw.w.code == Code(EmptyRing, map[0 := One(NewOne)]) && mw.w.spec == SState([], map[0 := Fresh(Oneshot)])
    requires mw.w.kern.ops == [] && mw.m.futures == {0} && mw.m.guards == {} && mw.m.log == []
    ensures CanM(mw, PollLock(0, 0, 0, 0)) && MStep(mw, PollLock(0, 0, 0, 0)).Returned?
    ensures var mw' := MStep(mw, PollLock(0, 0, 0, 0)).value;
            && Sensible(mw'.w.spec) && OnItsWay(mw', 0, 0) && CanM(mw', DropLock(0))
            && |mw'.w.kern.ops| == 1 && mw'.w.kern.ops[0].live
            && mw'.m.fd == mw.m.fd && mw'.w.kern.fds == mw.w.kern.fds
  {
    hide MInv, Inv;
  }

  /** mw is the state when `new`, called in state w, returns. */
  ghost predicate Creates<V>(w: World, fd: nat, mw: MWorld<V>) {
    && Sensible(w.spec) && Step(w, Io(OpenEvent(fd))).Returned?
    && Step(Step(w, Io(OpenEvent(fd))).value, Io(NotifyEvent(fd))) == Returned(mw.w)
  }

  /** There is a run from start-up after which the lock can never be acquired again. */
  lemma LockIsLost<V>(v: V)
    returns (acts: seq<Act>, w: World, mw0: MWorld<V>, more: seq<MAct<V>>, mw: MWorld<V>)
    ensures At(acts, w) && Creates(w, 0, mw0) && MInv(mw0) && mw0.m == MState(0, {}, {}, v, v, {}, [], {}, 0)
    ensures Leads(mw0, more, mw) && mw.m.fd in mw.w.kern.fds && Lost(mw, 0)
  {
    hide At, Inv, MInv, Step, CanM, MStep, Leads, Lost, Sensible, Creates, OnItsWay;
    acts, w := FirstTask();
    AtInv(acts, w);
    mw0 := NewMutex(w, v);
    assert Leads(mw0, [], mw0) by { LeadsNowhere(mw0); }
    FirstLock(mw0);
    var mw1 := MStep(mw0, NewLock(0)).value;
    LeadsOn(mw0, [], mw0, NewLock(0));
    LeadsInv(mw0, [] + [NewLock(0)], mw1);
    FirstPoll(mw1);
    var mw2 := MStep(mw1, PollLock(0, 0, 0, 0)).value;
    LeadsOn(mw0, [] + [NewLock(0)], mw1, PollLock(0, 0, 0, 0));
    more, mw := DropAndComplete(mw0, [] + [NewLock(0)] + [PollLock(0, 0, 0, 0)], mw2);
  }

  lemma DropAndComplete<V>(mw0: MWorld<V>, acts: seq<MAct<V>>, mw: MWorld<V>)
    returns (acts': seq<MAct<V>>, mw': MWorld<V>)
    requires Leads(mw0, acts, mw) && Sensible(mw.w.spec) && OnItsWay(mw, 0, 0) && CanM(mw, DropLock(0))
    requires |mw.w.kern.ops| == 1 && mw.w.kern.ops[0].live
    requires mw.m.fd in mw.w.kern.fds && mw.w.kern.fds[mw.m.fd].count > 0
    ensures Leads(mw0, acts', mw') && mw'.m.fd in mw'.w.kern.fds && Lost(mw', 0)
  {
    hide Inv, MInv, CanM, MStep, Leads, Lost, Sensible;
    LeadsInv(mw0, acts, mw);
    DroppedWhileFree(mw, 0, 0);
    LeadsOn(mw0, acts, mw, DropLock(0));
    var mw1 := MStep(mw, DropLock(0)).value;
    acts' := acts + [DropLock(0)];
    LeadsInv(mw0, acts', mw1);
    var a := MAct.Other(Io(PostCqe(0, 8, false)));
    LeadsOn(mw0, acts', mw1, a);
    acts', mw' := acts' + [a], MStep(mw1, a).value;
  }

  lemma NewMutex<V>(w: World, v: V) returns (mw: MWorld<V>)
    requires Inv(w) && Sensible(w.spec) && w.phase == Polling(0) && w.kern == Boot && w.spec == Empty && w.code == NoCode
    ensures MInv(mw) && Creates(w, 0, mw) && Sensible(mw.w.spec) && mw.m == MState(0, {}, {}, v, v, {}, [], {}, 0)
    ensures mw.w.phase == Polling(0) && mw.w.code == NoCode && mw.w.spec == Empty && mw.w.kern.ops == []
    ensures 0 in mw.w.kern.fds && mw.w.kern.fds[0].count == 1
  {
    hide Inv, MInv;
    mw := New(w, 0, v);
    MInvParts(mw);
  }

  lemma LeadsNowhere<V>(mw: MWorld<V>)
    requires MInv(mw) && Sensible(mw.w.spec)
    ensures Leads(mw, [], mw)
  {
  }

  lemma LeadsInv<V>(mw0: MWorld<V>, acts: seq<MAct<V>>, mw: MWorld<V>)
    requires Leads(mw0, acts, mw)
    ensures MInv(mw) && Sensible(mw.w.spec)
  {
    hide MInv, Sensible;
    MInvParts(mw);
  }
}
