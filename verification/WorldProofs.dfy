/** Every act keeps the invariant, and which acts can panic. */
module WorldProofs {
  import opened Wrappers
  import opened Reactor
  import opened Kernel
  import opened Spec
  import opened Simulation
  import opened Events
  import opened World

  // ---------------------------------------------------------------- the specification's operations

  /** What an act may do to the operations: wakers never change, and only a completion closes. */
  lemma SpecFrame(s: SState, k: KState, a: RAct)
    requires Sensible(s)
    ensures var s' := SpecStep(s, k, a).0;
            && |s.ops| <= |s'.ops|
            && (forall o | 0 <= o < |s.ops| :: s'.ops[o].obj == s.ops[o].obj && s'.ops[o].kind == s.ops[o].kind)
            && (forall o | 0 <= o < |s.ops| && !(a.Reap? && k.cq != [] && k.cq[0].op == o) ::
                  s'.ops[o].closed == s.ops[o].closed)
            && (forall o | |s.ops| <= o < |s'.ops| :: a.PollIo? && s'.ops[o].obj == a.obj && !s'.ops[o].closed)
  {
  }

  lemma BlockedFrame(w: World, a: RAct)
    requires Sensible(w.spec) && !a.Reap?
    requires WakersOk(w.spec.ops, w.hist.spawned) && BlockedOk(w.exec, w.spec.ops, w.hist.blocked)
    requires a.PollIo? ==> a.obj in w.hist.spawned
    ensures WakersOk(SpecStep(w.spec, w.kern, a).0.ops, w.hist.spawned)
    ensures BlockedOk(w.exec, SpecStep(w.spec, w.kern, a).0.ops, w.hist.blocked)
  {
    hide SpecStep;
    SpecFrame(w.spec, w.kern, a);
  }

  /** A pending answer comes from an open operation of the polling task. */
  lemma PendingIsOpen(s: SState, k: KState, a: RAct)
    requires Sensible(s) && a.PollIo? && a.h in s.handles && SpecStep(s, k, a).1 == Polled(Pending)
    requires s.handles[a.h].Owns? ==> OpOk(s.ops[s.handles[a.h].op]) && s.ops[s.handles[a.h].op].holder.Some?
    requires s.handles[a.h].Owns? ==> s.ops[s.handles[a.h].op].obj == a.obj
    ensures var s' := SpecStep(s, k, a).0;
            a.h in s'.handles && s'.handles[a.h].Owns? && WillWake(s'.ops, s'.handles[a.h].op, a.obj)
  {
  }

  lemma OtherHandles(s: SState, k: KState, a: RAct, h: nat)
    requires Sensible(s) && h in s.handles
    requires !((a.PollIo? || a.DropIo? || a.NewIo?) && a.h == h)
    ensures h in SpecStep(s, k, a).0.handles && SpecStep(s, k, a).0.handles[h] == s.handles[h]
  {
  }

  lemma AwaitingFrame(w: World, a: RAct, obs: Obs)
    requires Sensible(w.spec) && !a.Reap? && AwaitingOk(w.spec, w.phase, w.hist.awaiting)
    requires SpecStep(w.spec, w.kern, a).1 == obs
    requires a.NewIo? ==> a.h !in w.spec.handles
    requires a.PollIo? ==>
               && w.phase == Polling(a.obj) && a.h in w.spec.handles
               && (w.spec.handles[a.h].Owns? ==>
                     && OpOk(w.spec.ops[w.spec.handles[a.h].op]) && w.spec.ops[w.spec.handles[a.h].op].holder.Some?
                     && w.spec.ops[w.spec.handles[a.h].op].obj == a.obj)
    ensures AwaitingOk(SpecStep(w.spec, w.kern, a).0, w.phase, Awaiting(w.hist.awaiting, a, obs))
  {
    hide SpecStep, OpOk;
    SpecFrame(w.spec, w.kern, a);
    if w.phase.Polling? {
      var s' := SpecStep(w.spec, w.kern, a).0;
      forall h | h in Awaiting(w.hist.awaiting, a, obs)
        ensures h in s'.handles && s'.handles[h].Owns? && WillWake(s'.ops, s'.handles[h].op, w.phase.task)
      {
        if a.PollIo? && a.h == h {
          PendingIsOpen(w.spec, w.kern, a);
        } else {
          OtherHandles(w.spec, w.kern, a, h);
        }
      }
    }
  }

  /** What the simulation says about the handle that is polled. */
  lemma PolledHandle(c: Code, k: KState, s: SState, l: Link, h: nat)
    requires Sim(c, k, s, l)
    ensures c.ios.Keys == s.handles.Keys
    ensures h in s.handles && s.handles[h].Owns? ==>
              && s.handles[h].op < |s.ops|
              && OpOk(s.ops[s.handles[h].op]) && s.ops[s.handles[h].op].holder.Some?
  {
    assert |l.slot| == |s.ops|;
    hide PendingOk, OneshotsOk, MultishotsOk, PostedOk, CqOk, OpOk;
    assert h in s.handles ==> IoOk(c.ios[h], h, s.handles[h], k.ops, s.ops, l);
  }

  // ---------------------------------------------------------------- one lemma per act

  lemma InvIo(w: World, a: RAct)
    requires Inv(w) && CanAct(w, Io(a)) && Sensible(w.spec)
    ensures Step(w, Io(a)).Panicked? <==> MayPanic(w.code, a)
    ensures !MayPanic(w.code, a) ==> Inv(Step(w, Io(a)).value)
  {
    hide Sim, FdsOk, BlockedOk, WakersOk, AwaitingOk, CodeStep, SpecStep, MayPanic, Enabled, Sensible;
    StepSimulates(w.code, w.kern, w.spec, w.link, a);
    StepFds(w.code, w.kern, a);
    if !MayPanic(w.code, a) {
      BlockedFrame(w, a);
      InvAwaiting(w, a);
    }
  }

  lemma InvAwaiting(w: World, a: RAct)
    requires Inv(w) && CanAct(w, Io(a)) && Sensible(w.spec)
    ensures AwaitingOk(SpecStep(w.spec, w.kern, a).0, w.phase, Awaiting(w.hist.awaiting, a, SpecStep(w.spec, w.kern, a).1))
  {
    hide Sim, FdsOk, ExecOk, BlockedOk, WakersOk, AwaitingOk, RoundOk, SpecStep, OpOk, Awaiting;
    if a.PollIo? || a.NewIo? {
      PolledHandle(w.code, w.kern, w.spec, w.link, a.h);
    }
    AwaitingFrame(w, a, SpecStep(w.spec, w.kern, a).1);
  }

  lemma SpawnExec(e: Exec, phase: Phase, spawned: set<nat>, finished: set<nat>, t: nat)
    requires ExecOk(e, phase, spawned, finished) && t !in spawned && !phase.Top?
    ensures ExecOk(e.(runQ := e.runQ + [t], keys := e.keys[t := 0]), phase, spawned + {t}, finished)
  {
  }

  lemma SpawnRound(e: Exec, hist: Hist, t: nat)
    requires RoundOk(e, hist) && t !in hist.spawned && e.keys.Keys == hist.spawned
    requires forall u | u in hist.polled :: u in hist.spawned
    ensures RoundOk(e.(runQ := e.runQ + [t], keys := e.keys[t := 0]),
                    hist.(spawned := hist.spawned + {t}, due := hist.due + {t}))
  {
  }

  lemma InvSpawn(w: World, t: nat)
    requires Inv(w) && Sensible(w.spec) && CanAct(w, Spawn(t))
    ensures Step(w, Spawn(t)).Returned? && Inv(Step(w, Spawn(t)).value)
  {
    assert w.exec.keys.Keys == w.hist.spawned;
    hide Sim, FdsOk, AwaitingOk, ExecOk, RoundOk, WillWake;
    SpawnExec(w.exec, w.phase, w.hist.spawned, w.hist.finished, t);
    SpawnRound(w.exec, w.hist, t);
  }

  lemma InvPop(w: World)
    requires Inv(w) && w.phase.Top? && w.exec.runQ != []
    ensures PopTask(w).Returned? && Inv(PopTask(w).value)
  {
    hide Sim, FdsOk, WakersOk, WillWake;
  }

  lemma SuspendExec(e: Exec, t: nat, spawned: set<nat>, finished: set<nat>, key: nat)
    requires ExecOk(e, Polling(t), spawned, finished) && key !in e.waiting
    ensures var e' := e.(waiting := e.waiting[key := t], keys := e.keys[t := key]);
            ExecOk(e', LoopEnd(e'), spawned, finished)
  {
  }

  lemma SuspendRound(e: Exec, hist: Hist, key: nat, t: nat, blocked: map<nat, nat>)
    requires RoundOk(e, hist)
    ensures RoundOk(e.(waiting := e.waiting[key := t], keys := e.keys[t := key]), hist.(blocked := blocked))
  {
  }

  lemma SuspendBlocked(e: Exec, ops: seq<SpecOp>, blocked: map<nat, nat>, key: nat, t: nat, o: nat)
    requires BlockedOk(e, ops, blocked) && WillWake(ops, o, t) && forall k | k in e.waiting :: e.waiting[k] != t
    ensures BlockedOk(e.(waiting := e.waiting[key := t], keys := e.keys[t := key]), ops, blocked[t := o])
  {
    hide WillWake;
  }

  lemma NotWaiting(e: Exec, t: nat, spawned: set<nat>, finished: set<nat>)
    requires ExecOk(e, Polling(t), spawned, finished)
    ensures forall k | k in e.waiting :: e.waiting[k] != t
  {
  }

  lemma InvSuspend(w: World, key: nat, h: nat)
    requires Inv(w) && Sensible(w.spec) && CanAct(w, Suspend(key, h))
    ensures Step(w, Suspend(key, h)).Returned? && Inv(Step(w, Suspend(key, h)).value)
  {
    hide Sim, FdsOk, WakersOk, WillWake, ExecOk, RoundOk, BlockedOk, LoopEnd;
    var t, o := w.phase.task, w.spec.handles[h].op;
    SuspendExec(w.exec, t, w.hist.spawned, w.hist.finished, key);
    NotWaiting(w.exec, t, w.hist.spawned, w.hist.finished);
    SuspendRound(w.exec, w.hist, key, t, w.hist.blocked[t := o]);
    SuspendBlocked(w.exec, w.spec.ops, w.hist.blocked, key, t, o);
    hide Sensible;
    var e' := w.exec.(waiting := w.exec.waiting[key := t], keys := w.exec.keys[t := key]);
    assert !LoopEnd(e').Polling? by { EndsOutside(e'); }
  }

  lemma EndsOutside(e: Exec)
    ensures !LoopEnd(e).Polling?
  {
  }

  lemma InvFinish(w: World)
    requires Inv(w) && Sensible(w.spec) && CanAct(w, Finish)
    ensures Step(w, Finish).Returned? && Inv(Step(w, Finish).value)
  {
    hide Sim, FdsOk, WakersOk, WillWake;
  }

  // ---------------------------------------------------------------- react

  lemma WakeExec(e: Exec, spawned: set<nat>, finished: set<nat>, t: nat)
    requires ExecOk(e, Top, spawned, finished)
    ensures ExecOk(Wake(e, t), Top, spawned, finished)
  {
  }

  lemma WakeRound(e: Exec, hist: Hist, t: nat)
    requires RoundOk(e, hist) && hist.polled == []
    ensures RoundOk(Wake(e, t), hist.(reaped := hist.reaped + 1, due := hist.due + Moved(e, t)))
  {
  }

  /** A task whose operation has just closed is the one that is woken. */
  lemma WakeBlocked(e: Exec, ops: seq<SpecOp>, ops': seq<SpecOp>, blocked: map<nat, nat>, o: nat)
    requires o < |ops| == |ops'| && BlockedOk(e, ops, blocked)
    requires forall k | k in e.waiting :: e.waiting[k] in e.keys && e.keys[e.waiting[k]] == k
    requires forall p | 0 <= p < |ops| :: ops'[p].obj == ops[p].obj && (p != o ==> ops'[p].closed == ops[p].closed)
    ensures BlockedOk(Wake(e, ops[o].obj), ops', blocked)
  {
  }

  /** Completions leave the handles, the wakers and the holders of operations alone. */
  ghost predicate SameHolders(s: SState, s': SState) {
    && s'.handles == s.handles && |s'.ops| == |s.ops|
    && forall o | 0 <= o < |s.ops| :: s'.ops[o].holder == s.ops[o].holder && s'.ops[o].obj == s.ops[o].obj
  }

  lemma InvReapWake(w: World)
    requires Inv(w) && Sensible(w.spec) && w.phase.Top? && w.kern.cq != [] && w.hist.polled == []
    ensures ReapWake(w).Returned? && Inv(ReapWake(w).value)
    ensures var w' := ReapWake(w).value; var o := w.kern.cq[0].op;
            && w'.kern == w.kern.(cq := w.kern.cq[1..]) && w'.phase == w.phase
            && o < |w.spec.ops| && !w.spec.ops[o].closed && SameHolders(w.spec, w'.spec)
            && (w.spec.ops[o].kind.Oneshot? ==> !w.kern.cq[0].more)
            && w'.spec == SpecStep(w.spec, w.kern, Reap).0
            && w'.exec == Wake(w.exec, w.spec.ops[o].obj)
            && w'.hist == w.hist.(reaped := w.hist.reaped + 1, due := w.hist.due + Moved(w.exec, w.spec.ops[o].obj))
  {
    hide FdsOk, ExecOk, BlockedOk, WakersOk, RoundOk, CodeStep, SpecStep, Wake, Moved, Sensible, PendingOk, OneshotsOk,
         MultishotsOk, HandlesOk, PostedOk, OpsOk;
    var o := w.kern.cq[0].op;
    assert o < |w.spec.ops| == |w.kern.ops| && !w.spec.ops[o].closed
           && (w.spec.ops[o].kind.Oneshot? ==> !w.kern.cq[0].more);
    hide Sim;
    StepSimulates(w.code, w.kern, w.spec, w.link, Reap);
    StepFds(w.code, w.kern, Reap);
    ReapSpec(w.spec, w.kern);
    var s' := SpecStep(w.spec, w.kern, Reap).0;
    WakeExec(w.exec, w.hist.spawned, w.hist.finished, w.spec.ops[o].obj);
    WakeRound(w.exec, w.hist, w.spec.ops[o].obj);
    WakersKept(w.spec.ops, s'.ops, w.hist.spawned);
    assert BlockedOk(Wake(w.exec, w.spec.ops[o].obj), s'.ops, w.hist.blocked) by {
      KeysMatch(w.exec, w.hist.spawned, w.hist.finished);
      WakeBlocked(w.exec, w.spec.ops, s'.ops, w.hist.blocked, o);
    }
  }

  lemma KeysMatch(e: Exec, spawned: set<nat>, finished: set<nat>)
    requires ExecOk(e, Top, spawned, finished)
    ensures forall k | k in e.waiting :: e.waiting[k] in e.keys && e.keys[e.waiting[k]] == k
  {
  }

  lemma WakersKept(ops: seq<SpecOp>, ops': seq<SpecOp>, spawned: set<nat>)
    requires WakersOk(ops, spawned) && |ops'| == |ops|
    requires forall p | 0 <= p < |ops| :: ops'[p].obj == ops[p].obj
    ensures WakersOk(ops', spawned)
  {
  }

  lemma ReapSpec(s: SState, k: KState)
    requires Sensible(s) && k.cq != [] && k.cq[0].op < |s.ops|
    ensures var s' := SpecStep(s, k, Reap).0; var o := k.cq[0].op;
            && SpecStep(s, k, Reap).1 == Woke(s.ops[o].obj)
            && |s'.ops| == |s.ops| && s'.handles == s.handles
            && SameHolders(s, s') && (forall p | 0 <= p < |s.ops| && p != o :: s'.ops[p] == s.ops[p])
  {
  }

  /** Some waiting completion has a waker whose key is occupied. */
  ghost predicate Lands(e: Exec, ops: seq<SpecOp>, cq: seq<Cqe>) {
    exists i :: 0 <= i < |cq| && cq[i].op < |ops| && ops[cq[i].op].obj in e.keys && e.keys[ops[cq[i].op].obj] in e.waiting
  }

  lemma LandsHead(e: Exec, ops: seq<SpecOp>, cq: seq<Cqe>)
    requires cq != [] && cq[0].op < |ops|
    ensures Lands(e, ops, cq)
            <==> (ops[cq[0].op].obj in e.keys && e.keys[ops[cq[0].op].obj] in e.waiting) || Lands(e, ops, cq[1..])
  {
    if Lands(e, ops, cq[1..]) {
      var i :| 0 <= i < |cq[1..]| && cq[1..][i].op < |ops| && ops[cq[1..][i].op].obj in e.keys
               && e.keys[ops[cq[1..][i].op].obj] in e.waiting;
      assert cq[i + 1] == cq[1..][i];
    }
    if Lands(e, ops, cq) {
      var i :| 0 <= i < |cq| && cq[i].op < |ops| && ops[cq[i].op].obj in e.keys && e.keys[ops[cq[i].op].obj] in e.waiting;
      assert i > 0 ==> cq[1..][i - 1] == cq[i];
    }
  }

  lemma LandsFrame(e: Exec, ops: seq<SpecOp>, ops': seq<SpecOp>, cq: seq<Cqe>)
    requires |ops| == |ops'| && forall p | 0 <= p < |ops| :: ops'[p].obj == ops[p].obj
    ensures Lands(e, ops, cq) <==> Lands(e, ops', cq)
  {
  }

  lemma {:induction false} InvReapAll(w: World)
    requires Inv(w) && Sensible(w.spec) && w.phase.Top? && w.hist.polled == []
    ensures ReapAll(w).Returned? && Inv(ReapAll(w).value)
    ensures var w' := ReapAll(w).value;
            && w'.kern == w.kern.(cq := []) && w'.phase == w.phase && SameHolders(w.spec, w'.spec)
            && w'.hist == w.hist.(reaped := w.hist.reaped + |w.kern.cq|, due := w'.hist.due)
            && (w'.exec.runQ != [] <==> w.exec.runQ != [] || Lands(w.exec, w.spec.ops, w.kern.cq))
    decreases |w.kern.cq|
  {
    hide Inv, Sensible, ReapWake, Lands;
    if w.kern.cq != [] {
      InvReapWake(w);
      var w' := ReapWake(w).value;
      LandsHead(w.exec, w.spec.ops, w.kern.cq);
      LandsFrame(w.exec, w.spec.ops, w'.spec.ops, w.kern.cq[1..]);
      InvReapAll(w');
    } else {
      NothingLands(w.exec, w.spec.ops);
    }
  }

  lemma NothingLands(e: Exec, ops: seq<SpecOp>)
    ensures !Lands(e, ops, [])
  {
  }

  lemma InvReact(w: World)
    requires Inv(w) && Sensible(w.spec) && w.phase.Top? && w.exec.runQ == []
    ensures React(w).Returned? && Inv(React(w).value)
    ensures var w' := React(w).value;
            && w'.kern == w.kern.(cq := []) && w'.phase == w.phase && SameHolders(w.spec, w'.spec)
            && w'.hist == w.hist.(reaped := w.hist.reaped + |w.kern.cq|, due := w'.hist.due, polled := [])
            && (w'.exec.runQ != [] <==> Lands(w.exec, w.spec.ops, w.kern.cq))
  {
    hide FdsOk, ExecOk, BlockedOk, WakersOk, PendingOk, OneshotsOk, MultishotsOk, HandlesOk, OpsOk, KernelOk, Sensible,
         ReapAll, Lands;
    InvReapAll(w.(code := w.code.(ring := w.code.ring.(queued := 0)), hist := w.hist.(due := {}, polled := [])));
  }

  // ---------------------------------------------------------------- one act

  /** The only acts that can panic: the reactor's two cases, and a `react` that wakes nobody. */
  ghost predicate CanPanic(w: World, act: Act) {
    || (act.Io? && MayPanic(w.code, act.a))
    || (act.Iterate? && w.exec.runQ == [] && !Lands(w.exec, w.spec.ops, w.kern.cq))
  }

  lemma InvIterate(w: World)
    requires Inv(w) && Sensible(w.spec) && CanAct(w, Iterate)
    ensures Step(w, Iterate).Panicked? <==> CanPanic(w, Iterate)
    ensures !CanPanic(w, Iterate) ==> Inv(Step(w, Iterate).value)
  {
    hide Inv, Sensible, Lands, React, PopTask;
    if w.exec.runQ != [] {
      InvPop(w);
    } else {
      InvReact(w);
      var w' := React(w).value;
      if w'.exec.runQ != [] {
        InvPop(w');
      } else {
        assert PopTask(w').Panicked? by { PopNothing(w'); }
      }
    }
  }

  lemma PopNothing(w: World)
    requires w.exec.runQ == []
    ensures PopTask(w).Panicked?
  {
  }

  lemma InvSensible(w: World)
    requires Inv(w)
    ensures Sensible(w.spec)
  {
    SimSensible(w.code, w.kern, w.spec, w.link);
  }

  /** The invariant holds through every act, and an act panics exactly in the cases of `CanPanic`. */
  lemma StepInv(w: World, act: Act)
    requires Inv(w) && CanAct(w, act)
    ensures Sensible(w.spec)
    ensures Step(w, act).Panicked? <==> CanPanic(w, act)
    ensures !CanPanic(w, act) ==> Inv(Step(w, act).value)
  {
    InvSensible(w);
    match act {
      case Io(a) => hide Inv, CanAct, MayPanic; InvIo(w, a);
      case Spawn(t) => hide Inv, CanAct; InvSpawn(w, t);
      case Enter => hide Sim, FdsOk, WakersOk, WillWake;
      case Iterate => hide Inv, CanAct; InvIterate(w);
      case Suspend(key, h) => hide Inv, CanAct; InvSuspend(w, key, h);
      case Finish => hide Inv, CanAct; InvFinish(w);
    }
  }
}
