/**
 Two runs in which the executor loop pops an empty run queue: a task drops the handle of an
 operation in flight and finishes, or it finishes while the handle lives on outside the task. In
 both the late completion finds nobody to wake.
 */
module Orphan {
  import opened Wrappers
  import opened Reactor
  import opened Kernel
  import opened Spec
  import opened Simulation
  import opened Events
  import opened World
  import opened WorldProofs
  import opened WorldTheorems

  /** The run `acts` from start-up is possible and ends in w. */
  ghost predicate At(acts: seq<Act>, w: World) {
    Sensible(Start.spec) && CanRun(Start, acts) && Run(Start, acts) == Returned(w) && Inv(w)
  }

  /** No handle is dropped in the run. */
  ghost predicate NoDrops(acts: seq<Act>) {
    forall i | 0 <= i < |acts| :: acts[i].Io? ==> !acts[i].a.DropIo?
  }

  lemma Extend(acts: seq<Act>, w: World, act: Act) returns (acts': seq<Act>, w': World)
    requires At(acts, w) && CanAct(w, act) && !CanPanic(w, act)
    ensures NoDrops(acts) && !(act.Io? && act.a.DropIo?) ==> NoDrops(acts')
    ensures At(acts', w') && Sensible(w.spec) && Step(w, act) == Returned(w')
  {
    hide Inv, Sensible, CanAct, CanPanic, Step, CanRun, Run;
    StepInv(w, act);
    RunAppend(Start, acts, act);
    acts', w' := acts + [act], Step(w, act).value;
  }

  lemma AtInv(acts: seq<Act>, w: World)
    requires At(acts, w)
    ensures Inv(w) && Sensible(w.spec)
  {
    InvSensible(w);
  }

  /** What the run needs to know of a state: the executor, the phase, the slabs' keys and the operations. */
  ghost predicate Looks(w: World, e: Exec, phase: Phase, n: nat, wakers: seq<nat>) {
    && w.exec == e && w.phase == phase && w.kern.cq == [] && w.code.ring.queued == n
    && |w.spec.ops| == |w.kern.ops| == n
    && w.code.ios.Keys == w.spec.handles.Keys
    && (forall u | u in w.code.ring.pending :: u < n) && (forall i | i in w.code.ring.oneshot :: i < n)
    && (forall h | h in w.code.ios :: h < n && w.spec.handles[h] == Owns(h))
    && (forall o | 0 <= o < n :: w.kern.ops[o].live && w.kern.ops[o].kind == Oneshot && w.kern.ops[o].target == Other)
    && |wakers| == n && (forall o | 0 <= o < n :: w.spec.ops[o].obj == wakers[o] && o in w.code.ios)
  }

  /** The running task creates handle n and polls it for the first time. */
  lemma Submit(acts: seq<Act>, w: World, e: Exec, t: nat, n: nat, wakers: seq<nat>) returns (acts': seq<Act>, w': World)
    requires At(acts, w) && Looks(w, e, Polling(t), n, wakers) && n < SQ_ENTRIES
    ensures NoDrops(acts) ==> NoDrops(acts')
    ensures At(acts', w') && Looks(w', e, Polling(t), n + 1, wakers + [t])
    ensures n in w'.hist.awaiting
  {
    hide At, Inv, NoDrops;
    var acts1, w1 := Extend(acts, w, Io(NewIo(n, Oneshot)));
    assert w1 == w.(code := w.code.(ios := w.code.ios[n := One(NewOne)]),
                    spec := w.spec.(handles := w.spec.handles[n := Fresh(Oneshot)]));
    acts', w' := FirstPoll(acts1, w1, w, e, t, n, wakers);
  }

  lemma FirstPoll(acts: seq<Act>, w: World, w0: World, e: Exec, t: nat, n: nat, wakers: seq<nat>)
    returns (acts': seq<Act>, w': World)
    requires At(acts, w) && Looks(w0, e, Polling(t), n, wakers) && n < SQ_ENTRIES
    requires w == w0.(code := w0.code.(ios := w0.code.ios[n := One(NewOne)]),
                      spec := w0.spec.(handles := w0.spec.handles[n := Fresh(Oneshot)]))
    ensures NoDrops(acts) ==> NoDrops(acts')
    ensures At(acts', w') && Looks(w', e, Polling(t), n + 1, wakers + [t])
    ensures n in w'.hist.awaiting
  {
    hide At, Inv, NoDrops, Step, CanAct, CanPanic, Sensible, Looks;
    AtInv(acts, w);
    PollLooks(w, w0, e, t, n, wakers);
    acts', w' := Extend(acts, w, Io(PollIo(n, t, Other, n, n)));
  }

  lemma PollLooks(w: World, w0: World, e: Exec, t: nat, n: nat, wakers: seq<nat>)
    requires Sensible(w.spec) && Looks(w0, e, Polling(t), n, wakers) && n < SQ_ENTRIES
    requires w == w0.(code := w0.code.(ios := w0.code.ios[n := One(NewOne)]),
                      spec := w0.spec.(handles := w0.spec.handles[n := Fresh(Oneshot)]))
    ensures var act := Io(PollIo(n, t, Other, n, n));
            && CanAct(w, act) && !CanPanic(w, act) && Step(w, act).Returned?
            && Looks(Step(w, act).value, e, Polling(t), n + 1, wakers + [t])
            && n in Step(w, act).value.hist.awaiting
  {
    hide Step, CanAct, CanPanic, Sensible;
    PollEnabled(w, t, n);
  }

  /** The first poll of handle n, spelled out. */
  lemma PollEnabled(w: World, t: nat, n: nat)
    requires Sensible(w.spec) && w.phase == Polling(t) && w.code.ring.queued < SQ_ENTRIES
    requires n in w.code.ios && w.code.ios[n] == One(NewOne) && n in w.spec.handles && w.spec.handles[n] == Fresh(Oneshot)
    requires n !in w.code.ring.pending && n !in w.code.ring.oneshot
    ensures var act := Io(PollIo(n, t, Other, n, n)); var ring := w.code.ring;
            && CanAct(w, act) && !CanPanic(w, act) && Step(w, act).Returned?
            && var w' := Step(w, act).value;
               && w'.exec == w.exec && w'.phase == w.phase && w'.kern == Accept(w.kern, Oneshot, Other, n)
               && w'.spec == SState(w.spec.ops + [NewOp(Oneshot, t, n)], w.spec.handles[n := Owns(|w.spec.ops|)])
               && w'.code == Code(Ring(ring.queued + 1, ring.pending[n := PendingIo(t, n, Oneshot)],
                                       ring.oneshot[n := Unset], ring.multishot),
                                  w.code.ios[n := One(SubmittedOne(n))])
               && n in w'.hist.awaiting
  {
    hide CodeStep, SpecStep, Sensible;
    SubmitResult(w.code, w.kern, w.spec, PollIo(n, t, Other, n, n));
  }

  /** Task 1 waits at key 0, task 0 at key 1; task 0 has two operations in flight and task 1 one. */
  lemma BothWait() returns (acts: seq<Act>, w: World)
    ensures NoDrops(acts)
    ensures At(acts, w) && Looks(w, Exec([], map[0 := 1, 1 := 0], map[0 := 1, 1 := 0]), Top, 3, [1, 0, 0])
  {
    hide At, Inv, NoDrops;
    acts, w := [], Start;
    assert At(acts, w) && NoDrops(acts) by { StartsAt(); }
    acts, w := Extend(acts, w, Spawn(0));
    acts, w := Extend(acts, w, Spawn(1));
    acts, w := Extend(acts, w, Enter);
    assert w.exec.runQ == [0, 1];
    acts, w := Extend(acts, w, Iterate);
    assert Looks(w, Exec([0], map[], map[0 := 0, 1 := 0]), Polling(1), 0, []);
    acts, w := BothWaitRest(acts, w);
  }

  lemma StartsAt()
    ensures At([], Start) && NoDrops([])
  {
    StartInv();
    hide Inv, Sensible;
  }

  lemma BothWaitRest(acts0: seq<Act>, w0: World) returns (acts: seq<Act>, w: World)
    requires At(acts0, w0) && Looks(w0, Exec([0], map[], map[0 := 0, 1 := 0]), Polling(1), 0, [])
    ensures NoDrops(acts0) ==> NoDrops(acts)
    ensures At(acts, w) && Looks(w, Exec([], map[0 := 1, 1 := 0], map[0 := 1, 1 := 0]), Top, 3, [1, 0, 0])
  {
    hide At, Inv, NoDrops;
    hide Looks, Start;
    var e0 := Exec([0], map[], map[0 := 0, 1 := 0]);
    var e1 := Exec([0], map[0 := 1], map[0 := 0, 1 := 0]);
    var e2 := Exec([], map[0 := 1], map[0 := 0, 1 := 0]);
    var e3 := Exec([], map[0 := 1, 1 := 0], map[0 := 1, 1 := 0]);
    assert Exec(e0.runQ, e0.waiting[0 := 1], e0.keys[1 := 0]) == e1;
    assert Exec(e1.runQ[..0], e1.waiting, e1.keys) == e2;
    assert Exec(e2.runQ, e2.waiting[1 := 0], e2.keys[0 := 1]) == e3;
    assert [] + [1] == [1] && [1] + [0] == [1, 0] && [1, 0] + [0] == [1, 0, 0];
    acts, w := Submit(acts0, w0, e0, 1, 0, []);
    acts, w := SuspendOn(acts, w, e0, 1, 1, [1], 0);
    acts, w := NextTask(acts, w, e1, 1, [1]);
    acts, w := Submit(acts, w, e2, 0, 1, [1]);
    acts, w := Submit(acts, w, e2, 0, 2, [1, 0]);
    acts, w := SuspendOn(acts, w, e2, 0, 3, [1, 0, 0], 1);
  }

  lemma SuspendOn(acts: seq<Act>, w: World, e: Exec, t: nat, n: nat, wakers: seq<nat>, key: nat)
    returns (acts': seq<Act>, w': World)
    requires At(acts, w) && Looks(w, e, Polling(t), n, wakers) && n > 0 && n - 1 in w.hist.awaiting && key !in e.waiting
    ensures NoDrops(acts) ==> NoDrops(acts')
    ensures At(acts', w')
    ensures Looks(w', Exec(e.runQ, e.waiting[key := t], e.keys[t := key]), Top, n, wakers)
  {
    hide At, Inv, NoDrops;
    acts', w' := Extend(acts, w, Suspend(key, n - 1));
    assert key in e.waiting[key := t];
  }

  lemma NextTask(acts: seq<Act>, w: World, e: Exec, n: nat, wakers: seq<nat>) returns (acts': seq<Act>, w': World)
    requires At(acts, w) && Looks(w, e, Top, n, wakers) && e.runQ != []
    ensures NoDrops(acts) ==> NoDrops(acts')
    ensures At(acts', w')
    ensures Looks(w', Exec(e.runQ[..|e.runQ| - 1], e.waiting, e.keys), Polling(e.runQ[|e.runQ| - 1]), n, wakers)
  {
    hide At, Inv, NoDrops;
    acts', w' := Extend(acts, w, Iterate);
  }

  /** A react that finds a single completion. */
  lemma ReactOne(w: World)
    requires Inv(w) && Sensible(w.spec) && w.phase.Top? && w.exec.runQ == [] && |w.kern.cq| == 1
    ensures React(w).Returned? && w.kern.cq[0].op < |w.spec.ops|
    ensures var w' := React(w).value;
            && w'.exec == Wake(w.exec, w.spec.ops[w.kern.cq[0].op].obj) && w'.phase == Top
            && w'.kern == w.kern.(cq := []) && |w'.spec.ops| == |w.spec.ops| && w'.code.ios == w.code.ios
            && forall o | 0 <= o < |w.spec.ops| :: w'.spec.ops[o].obj == w.spec.ops[o].obj
  {
    hide FdsOk, ExecOk, BlockedOk, WakersOk, PendingOk, OneshotsOk, MultishotsOk, HandlesOk, OpsOk, KernelOk, Sensible,
         ReapWake, Wake;
    var w1 := w.(code := w.code.(ring := w.code.ring.(queued := 0)), hist := w.hist.(due := {}, polled := []));
    assert Inv(w1);
    InvReapWake(w1);
    var w2 := ReapWake(w1).value;
    assert w2.kern.cq == [];
    assert ReapAll(w2) == Returned(w2);
    assert ReapAll(w1) == Returned(w2);
    SameIos(w1);
  }

  lemma SameIos(w: World)
    requires Sensible(w.spec) && ReapWake(w).Returned?
    ensures ReapWake(w).value.code.ios == w.code.ios
  {
  }

  /** Task 1 is still blocked on operation 0, and operation 1 of task 0 is in flight. */
  ghost predicate OneLeft(w: World) {
    && w.phase == Polling(0) && w.kern.cq == [] && |w.kern.ops| == |w.spec.ops| == 3
    && w.kern.ops[1].live && w.kern.ops[1].kind == Oneshot && w.kern.ops[1].target == Other
    && w.spec.ops[1].obj == 0 && 1 in w.code.ios
  }

  /** Operation 2 completes and wakes task 0. */
  lemma WakesTask(acts: seq<Act>, w: World) returns (acts': seq<Act>, w': World)
    requires At(acts, w) && Looks(w, Exec([], map[0 := 1, 1 := 0], map[0 := 1, 1 := 0]), Top, 3, [1, 0, 0])
    ensures NoDrops(acts) ==> NoDrops(acts')
    ensures At(acts', w') && OneLeft(w') && w'.exec == Exec([], map[0 := 1], map[0 := 1, 1 := 0])
  {
    hide At, Inv, NoDrops;
    acts', w' := Extend(acts, w, Io(PostCqe(2, 7, false)));
    assert w'.kern.cq == [Cqe(2, 7, false)];
    acts', w' := WakesTaskNow(acts', w');
  }

  lemma WakesTaskNow(acts: seq<Act>, w: World) returns (acts': seq<Act>, w': World)
    requires At(acts, w) && w.kern.cq == [Cqe(2, 7, false)] && w.phase == Top
    requires OneLeft(w.(phase := Polling(0), kern := w.kern.(cq := []))) && w.spec.ops[2].obj == 0
    requires w.exec == Exec([], map[0 := 1, 1 := 0], map[0 := 1, 1 := 0])
    ensures NoDrops(acts) ==> NoDrops(acts')
    ensures At(acts', w') && OneLeft(w') && w'.exec == Exec([], map[0 := 1], map[0 := 1, 1 := 0])
  {
    hide At, Inv, NoDrops;
    AtInv(acts, w);
    ReactOne(w);
    assert w.kern.cq[0].op == 2;
    assert Lands(w.exec, w.spec.ops, w.kern.cq);
    hide React, Lands, Sensible;
    acts', w' := Extend(acts, w, Iterate);
  }

  /**
   Dropping a handle in flight and finishing can bring the executor loop down: there is a run,
   in which no submission queue is full and no cancellation is refused, whose last act is an
   iteration that pops an empty run queue.
   */
  lemma OrphanPanics() returns (acts: seq<Act>, w: World)
    ensures At(acts, w) && CanAct(w, Iterate) && Sensible(w.spec) && Step(w, Iterate).Panicked?
    ensures w.exec.waiting != map[]
  {
    acts, w := BothWait();
    hide At, Inv, NoDrops;
    acts, w := WakesTask(acts, w);
    acts, w := Extend(acts, w, Io(DropIo(1, true)));
    acts, w := Extend(acts, w, Finish);
    acts, w := Extend(acts, w, Io(PostCqe(1, 5, false)));
    assert w.exec.keys[0] == 1 && w.exec.waiting == map[0 := 1] && w.kern.cq == [Cqe(1, 5, false)];
    assert !Lands(w.exec, w.spec.ops, w.kern.cq);
    AtPanics(acts, w);
  }

  /**
   The same without any drop: a task leaves a handle with an operation in flight where others can
   reach it, and finishes.
   */
  lemma LeftBehindPanics() returns (acts: seq<Act>, w: World)
    ensures At(acts, w) && CanAct(w, Iterate) && Sensible(w.spec) && Step(w, Iterate).Panicked?
    ensures w.exec.waiting != map[] && NoDrops(acts)
  {
    acts, w := BothWait();
    hide At, Inv, NoDrops;
    acts, w := WakesTask(acts, w);
    acts, w := Extend(acts, w, Finish);
    acts, w := Extend(acts, w, Io(PostCqe(1, 5, false)));
    assert w.exec.keys[0] == 1 && w.exec.waiting == map[0 := 1] && w.kern.cq == [Cqe(1, 5, false)];
    assert !Lands(w.exec, w.spec.ops, w.kern.cq);
    AtPanics(acts, w);
  }

  lemma AtPanics(acts: seq<Act>, w: World)
    requires At(acts, w) && CanAct(w, Iterate) && CanPanic(w, Iterate)
    ensures Sensible(w.spec) && Step(w, Iterate).Panicked?
  {
    hide Inv, CanAct, CanPanic, Step;
    StepInv(w, Iterate);
  }
}
