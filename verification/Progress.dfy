/** How much work a run can do, and when the executor loop finds a task to run. */
module Progress {
  import opened Wrappers
  import opened Reactor
  import opened Kernel
  import opened Spec
  import opened Simulation
  import opened Events
  import opened World
  import opened WorldProofs
  import opened WorldTheorems

  // ---------------------------------------------------------------- bounded work

  ghost predicate AllOneshot(ops: seq<SpecOp>) {
    forall o | 0 <= o < |ops| :: ops[o].kind.Oneshot?
  }

  ghost function OpenOps(ops: seq<SpecOp>): set<nat> {
    set o | 0 <= o < |ops| && !ops[o].closed
  }

  /** With oneshot operations only, every operation is open or was reaped, once. */
  ghost predicate Counted(w: World) {
    AllOneshot(w.spec.ops) ==> w.hist.reaped + |OpenOps(w.spec.ops)| == |w.spec.ops|
  }

  lemma OpenAfter(s: SState, k: KState, a: RAct)
    requires Sensible(s) && !a.Reap?
    ensures var s' := SpecStep(s, k, a).0;
            && (AllOneshot(s'.ops) ==> AllOneshot(s.ops))
            && |OpenOps(s'.ops)| - |OpenOps(s.ops)| == |s'.ops| - |s.ops|
  {
    SpecFrame(s, k, a);
    var s' := SpecStep(s, k, a).0;
    assert |s'.ops| <= |s.ops| + 1;
    hide SpecStep;
    if |s'.ops| == |s.ops| {
      assert OpenOps(s'.ops) == OpenOps(s.ops);
    } else {
      assert OpenOps(s'.ops) == OpenOps(s.ops) + {|s.ops|};
    }
  }

  lemma OpenAfterReap(s: SState, k: KState)
    requires Sensible(s) && k.cq != [] && k.cq[0].op < |s.ops| && !s.ops[k.cq[0].op].closed
    requires s.ops[k.cq[0].op].kind.Oneshot? ==> !k.cq[0].more
    requires AllOneshot(SpecStep(s, k, Reap).0.ops)
    ensures AllOneshot(s.ops)
    ensures |OpenOps(SpecStep(s, k, Reap).0.ops)| == |OpenOps(s.ops)| - 1
  {
    var o := k.cq[0].op;
    var s' := SpecStep(s, k, Reap).0;
    assert forall p | 0 <= p < |s.ops| :: s'.ops[p].kind == s.ops[p].kind;
    assert o in OpenOps(s.ops);
    assert OpenOps(s'.ops) == OpenOps(s.ops) - {o};
  }

  lemma CountedReap(w: World)
    requires Inv(w) && Counted(w) && Sensible(w.spec) && w.phase.Top? && w.kern.cq != [] && w.hist.polled == []
    ensures ReapWake(w).Returned? && Counted(ReapWake(w).value)
  {
    hide Inv, Sensible, ReapWake, SpecStep, AllOneshot, OpenOps;
    InvReapWake(w);
    if AllOneshot(SpecStep(w.spec, w.kern, Reap).0.ops) {
      OpenAfterReap(w.spec, w.kern);
    }
  }

  lemma {:induction false} CountedReapAll(w: World)
    requires Inv(w) && Counted(w) && Sensible(w.spec) && w.phase.Top? && w.hist.polled == []
    ensures ReapAll(w).Returned? && Counted(ReapAll(w).value)
    decreases |w.kern.cq|
  {
    hide Inv, Sensible, ReapWake, Counted;
    if w.kern.cq != [] {
      InvReapWake(w);
      CountedReap(w);
      CountedReapAll(ReapWake(w).value);
    }
  }

  lemma CountedStep(w: World, act: Act)
    requires Inv(w) && Counted(w) && Sensible(w.spec) && CanAct(w, act) && Step(w, act).Returned?
    ensures Counted(Step(w, act).value)
  {
    if act.Io? {
      hide Inv, Sensible, AllOneshot, OpenOps;
      OpenAfter(w.spec, w.kern, act.a);
      hide CodeStep, SpecStep;
    } else if Reacts(w, act) {
      hide FdsOk, ExecOk, BlockedOk, WakersOk, PendingOk, OneshotsOk, MultishotsOk, HandlesOk, OpsOk, KernelOk, Sensible,
           ReapAll, AllOneshot, OpenOps;
      CountedReapAll(w.(code := w.code.(ring := w.code.ring.(queued := 0)), hist := w.hist.(due := {}, polled := [])));
    } else {
      hide Inv, Sensible, AllOneshot, OpenOps, React;
    }
  }

  lemma {:induction false} CountedRun(w: World, acts: seq<Act>)
    requires Inv(w) && Counted(w) && Sensible(w.spec) && CanRun(w, acts) && Calm(w, acts)
    ensures Run(w, acts).Returned? && Inv(Run(w, acts).value) && Counted(Run(w, acts).value)
    decreases |acts|
  {
    hide Inv, Sensible, CanAct, CanPanic, Step, Counted;
    if acts != [] {
      StepInv(w, acts[0]);
      CountedStep(w, acts[0]);
      CountedRun(Step(w, acts[0]).value, acts[1..]);
    }
  }

  // ---------------------------------------------------------------- the same, counted in acts

  /** How many acts of a run start a poll, spawn a task or post a completion. */
  datatype Tally = Tally(polls: nat, spawns: nat, posts: nat)

  function TallyOf(acts: seq<Act>): Tally {
    if acts == [] then Tally(0, 0, 0)
    else
      var rest := TallyOf(acts[1..]);
      match acts[0]
      case Iterate => rest.(polls := rest.polls + 1)
      case Spawn(_) => rest.(spawns := rest.spawns + 1)
      case Io(a) => if a.PostCqe? then rest.(posts := rest.posts + 1) else rest
      case _ => rest
  }

  lemma TallyStep(w: World, act: Act)
    requires Inv(w) && Sensible(w.spec) && CanAct(w, act) && Step(w, act).Returned?
    ensures var w' := Step(w, act).value; var one := TallyOf([act]);
            && w'.hist.polls == w.hist.polls + one.polls
            && |w'.hist.spawned| == |w.hist.spawned| + one.spawns
            && w'.hist.reaped + |w'.kern.cq| == w.hist.reaped + |w.kern.cq| + one.posts
  {
    hide Inv, Sensible, React, Lands, CodeStep, SpecStep;
    assert [act][1..] == [];
    if act.Iterate? && w.exec.runQ == [] {
      InvReact(w);
    }
  }

  lemma {:induction false} TallyRun(w: World, acts: seq<Act>)
    requires Inv(w) && Sensible(w.spec) && CanRun(w, acts) && Run(w, acts).Returned?
    ensures var w' := Run(w, acts).value; var all := TallyOf(acts);
            && w'.hist.polls == w.hist.polls + all.polls
            && |w'.hist.spawned| == |w.hist.spawned| + all.spawns
            && w'.hist.reaped + |w'.kern.cq| == w.hist.reaped + |w.kern.cq| + all.posts
    decreases |acts|
  {
    hide Inv, Sensible, CanAct, CanPanic, Step;
    if acts != [] {
      StepInv(w, acts[0]);
      TallyStep(w, acts[0]);
      TallyHead(acts);
      hide TallyOf;
      TallyRun(Step(w, acts[0]).value, acts[1..]);
    }
  }

  lemma TallyHead(acts: seq<Act>)
    requires acts != []
    ensures var one, rest, all := TallyOf([acts[0]]), TallyOf(acts[1..]), TallyOf(acts);
            && all.polls == one.polls + rest.polls && all.spawns == one.spawns + rest.spawns
            && all.posts == one.posts + rest.posts
  {
    assert [acts[0]][1..] == [];
  }

  /**
   Bounded work: in every run from start-up the number of polls is at most the number of spawns
   plus the number of completions posted. With oneshot operations only, polls, queued tasks and
   operations still open together are at most the tasks spawned plus the operations submitted, so
   tasks that spawn and submit finitely often are polled finitely often.
   */
  lemma BoundedWork(acts: seq<Act>)
    requires Sensible(Start.spec) && CanRun(Start, acts) && Calm(Start, acts)
    ensures Run(Start, acts).Returned?
    ensures var w := Run(Start, acts).value; var all := TallyOf(acts);
            && all.polls + |w.exec.runQ| + |w.kern.cq| <= all.spawns + all.posts
            && (AllOneshot(w.spec.ops) ==>
                  all.polls + |w.exec.runQ| + |OpenOps(w.spec.ops)| <= all.spawns + |w.kern.ops|)
  {
    StartInv();
    assert OpenOps(Start.spec.ops) == {};
    CountedRun(Start, acts);
    TallyRun(Start, acts);
    hide FdsOk, ExecOk, BlockedOk, WakersOk, PendingOk, OneshotsOk, MultishotsOk, HandlesOk, OpsOk, PostedOk, CqOk, Run,
         CanRun, Calm, TallyOf;
  }

  // ---------------------------------------------------------------- the run queue after react

  /** No task finishes while an operation that it submitted is in flight. */
  ghost predicate Tidy(w: World, act: Act) {
    act.Finish? && w.phase.Polling? ==>
      forall o | 0 <= o < |w.spec.ops| && w.spec.ops[o].obj == w.phase.task :: w.spec.ops[o].closed
  }

  /** The task of every open operation is alive. */
  ghost predicate NoOrphans(ops: seq<SpecOp>, finished: set<nat>) {
    forall o | 0 <= o < |ops| && !ops[o].closed :: ops[o].obj !in finished
  }

  lemma OrphansIo(w: World, a: RAct)
    requires Inv(w) && Sensible(w.spec) && CanAct(w, Io(a)) && NoOrphans(w.spec.ops, w.hist.finished)
    ensures NoOrphans(SpecStep(w.spec, w.kern, a).0.ops, w.hist.finished)
  {
    hide FdsOk, BlockedOk, WakersOk, AwaitingOk, RoundOk, Sim, SpecStep;
    SpecFrame(w.spec, w.kern, a);
  }

  lemma OrphansFinish(w: World)
    requires CanAct(w, Finish) && Tidy(w, Finish) && NoOrphans(w.spec.ops, w.hist.finished)
    ensures NoOrphans(w.spec.ops, w.hist.finished + {w.phase.task})
  {
  }

  lemma OrphansReap(w: World)
    requires Inv(w) && Sensible(w.spec) && w.phase.Top? && w.kern.cq != [] && w.hist.polled == []
    requires NoOrphans(w.spec.ops, w.hist.finished)
    ensures ReapWake(w).Returned? && NoOrphans(ReapWake(w).value.spec.ops, w.hist.finished)
  {
    hide Inv, ReapWake;
    InvReapWake(w);
  }

  lemma {:induction false} OrphansReapAll(w: World)
    requires Inv(w) && Sensible(w.spec) && w.phase.Top? && w.hist.polled == [] && NoOrphans(w.spec.ops, w.hist.finished)
    ensures ReapAll(w).Returned? && NoOrphans(ReapAll(w).value.spec.ops, w.hist.finished)
    decreases |w.kern.cq|
  {
    hide Inv, Sensible, ReapWake, NoOrphans;
    if w.kern.cq != [] {
      InvReapWake(w);
      OrphansReap(w);
      OrphansReapAll(ReapWake(w).value);
    }
  }

  /** Tidy acts keep every open operation's task alive. */
  lemma OrphansStep(w: World, act: Act)
    requires Inv(w) && Sensible(w.spec) && CanAct(w, act) && Tidy(w, act) && NoOrphans(w.spec.ops, w.hist.finished)
    requires Step(w, act).Returned?
    ensures NoOrphans(Step(w, act).value.spec.ops, Step(w, act).value.hist.finished)
  {
    if act.Io? {
      hide Inv, Sensible, NoOrphans, Tidy;
      OrphansIo(w, act.a);
      hide CodeStep, SpecStep;
    } else if Reacts(w, act) {
      hide FdsOk, ExecOk, BlockedOk, WakersOk, PendingOk, OneshotsOk, MultishotsOk, HandlesOk, OpsOk, KernelOk, Sensible,
           ReapAll, NoOrphans;
      OrphansReapAll(w.(code := w.code.(ring := w.code.ring.(queued := 0)), hist := w.hist.(due := {}, polled := [])));
      InvReact(w);
    } else if act.Finish? {
      OrphansFinish(w);
      hide Inv, Sensible;
    } else {
      hide Inv, Sensible, React;
    }
  }

  /** With no orphans, a react at the head of the loop always finds a task to run. */
  lemma FindsTask(w: World)
    requires Inv(w) && CanAct(w, Iterate) && NoOrphans(w.spec.ops, w.hist.finished)
    ensures !CanPanic(w, Iterate)
  {
    hide FdsOk, BlockedOk, PendingOk, OneshotsOk, MultishotsOk, PostedOk, HandlesOk, AwaitingOk, RoundOk, OpsOk;
    if w.exec.runQ == [] {
      var t := w.spec.ops[w.kern.cq[0].op].obj;
      assert t in w.hist.spawned && t !in w.hist.finished;
      assert IsWaiting(w.exec, t);
    }
  }

  /** The task that a waiting completion is for has finished, and nobody waits at its old key. */
  ghost predicate WakesNobody(w: World, c: Cqe) {
    c.op < |w.spec.ops| && w.spec.ops[c.op].obj in w.hist.finished && w.spec.ops[c.op].obj in w.exec.keys
    && w.exec.keys[w.spec.ops[c.op].obj] !in w.exec.waiting
  }

  /**
   An iteration pops nothing exactly if every waiting completion is a late one of a finished task,
   and wakes nobody.
   */
  lemma PopsNothingExactly(w: World)
    requires Inv(w) && Sensible(w.spec) && CanAct(w, Iterate)
    ensures Step(w, Iterate).Panicked?
            <==> w.exec.runQ == [] && forall i | 0 <= i < |w.kern.cq| :: WakesNobody(w, w.kern.cq[i])
  {
    hide Step, Sensible, FdsOk, BlockedOk, PendingOk, OneshotsOk, MultishotsOk, PostedOk, HandlesOk, AwaitingOk, RoundOk, OpsOk;
    StepInv(w, Iterate);
    if w.exec.runQ == [] {
      forall i | 0 <= i < |w.kern.cq|
        ensures WakesNobody(w, w.kern.cq[i]) || Lands(w.exec, w.spec.ops, w.kern.cq)
      {
        var t := w.spec.ops[w.kern.cq[i].op].obj;
        assert t in w.hist.spawned;
        if t !in w.hist.finished {
          assert IsWaiting(w.exec, t);
        }
      }
    }
  }

  ghost predicate TidyRun(w: World, acts: seq<Act>)
    requires Sensible(w.spec)
    decreases |acts|
  {
    acts == [] || (Tidy(w, acts[0]) && (Step(w, acts[0]).Returned? ==> TidyRun(Step(w, acts[0]).value, acts[1..])))
  }

  /** Every act of the run that is not an iteration is harmless: no full queue, no refused cancellation. */
  ghost predicate PeacefulRun(w: World, acts: seq<Act>)
    requires Sensible(w.spec)
    decreases |acts|
  {
    acts == []
    || ((acts[0].Io? ==> !MayPanic(w.code, acts[0].a))
        && (Step(w, acts[0]).Returned? ==> PeacefulRun(Step(w, acts[0]).value, acts[1..])))
  }

  /**
   The executor loop never pops an empty run queue when no task finishes with an operation of its
   own in flight: then a run panics only if it overfills the submission queue or a cancellation is
   refused.
   */
  lemma {:induction false} NeverPopsEmpty(w: World, acts: seq<Act>)
    requires Inv(w) && Sensible(w.spec) && NoOrphans(w.spec.ops, w.hist.finished)
    requires CanRun(w, acts) && TidyRun(w, acts) && PeacefulRun(w, acts)
    ensures Run(w, acts).Returned?
    decreases |acts|
  {
    hide Inv, Sensible, CanAct, Step, NoOrphans, Tidy;
    if acts != [] {
      StepInv(w, acts[0]);
      if acts[0].Iterate? {
        FindsTask(w);
      }
      OrphansStep(w, acts[0]);
      NeverPopsEmpty(Step(w, acts[0]).value, acts[1..]);
    }
  }
}
