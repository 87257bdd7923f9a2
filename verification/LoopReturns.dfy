/**
 When the executor loop can return: exactly if it is entered with a task queued or waiting.
 Entered without one it never does, in any run.
 */
module LoopReturns {
  import opened Wrappers
  import opened Reactor
  import opened Kernel
  import opened Spec
  import opened Simulation
  import opened Events
  import opened World
  import opened WorldProofs
  import opened WorldTheorems
  import opened PrivateEvent

  // ---------------------------------------------------------------- runs between two states

  /** Some run leads from w to w'. */
  ghost predicate Reaches(w: World, w': World) {
    Sensible(w.spec) && exists acts :: CanRun(w, acts) && Run(w, acts) == Returned(w')
  }

  lemma {:induction false} RunConcat(w: World, acts: seq<Act>, more: seq<Act>)
    requires Sensible(w.spec) && CanRun(w, acts) && Run(w, acts).Returned? && Sensible(Run(w, acts).value.spec)
    requires CanRun(Run(w, acts).value, more)
    ensures CanRun(w, acts + more) && Run(w, acts + more) == Run(Run(w, acts).value, more)
    decreases |acts|
  {
    hide Sensible, CanAct, Step;
    if acts == [] {
      assert acts + more == more;
    } else {
      assert (acts + more)[1..] == acts[1..] + more;
      RunConcat(Step(w, acts[0]).value, acts[1..], more);
    }
  }

  lemma ReachesTrans(w: World, w': World, w'': World)
    requires Reaches(w, w') && Reaches(w', w'')
    ensures Reaches(w, w'')
  {
    hide Sensible, CanRun, Run;
    var acts :| CanRun(w, acts) && Run(w, acts) == Returned(w');
    var more :| CanRun(w', more) && Run(w', more) == Returned(w'');
    RunConcat(w, acts, more);
    assert CanRun(w, acts + more) && Run(w, acts + more) == Returned(w'');
  }

  lemma ReachesSelf(w: World)
    requires Sensible(w.spec)
    ensures Reaches(w, w)
  {
    assert CanRun(w, []) && Run(w, []) == Returned(w);
  }

  lemma ReachesStep(w: World, act: Act)
    requires Inv(w) && CanAct(w, act) && !CanPanic(w, act)
    ensures Sensible(w.spec) && Step(w, act).Returned?
    ensures Inv(Step(w, act).value) && Reaches(w, Step(w, act).value)
  {
    hide Inv, Sensible, CanAct, CanPanic, Step;
    StepInv(w, act);
    var w' := Step(w, act).value;
    InvSensible(w');
    assert [act][1..] == [];
    assert Run(w', []) == Returned(w') && CanRun(w', []);
    assert CanRun(w, [act]) && Run(w, [act]) == Returned(w');
  }

  // ---------------------------------------------------------------- entered without a task

  /** At the head of the loop, with no task queued or waiting. */
  ghost predicate Deserted(w: World) {
    w.phase.Top? && w.exec.runQ == [] && w.exec.waiting == map[]
  }

  /** Nothing has been posted and nothing can be. */
  predicate Silence(k: KState) {
    k.cq == [] && forall o | 0 <= o < |k.ops| :: !k.ops[o].live
  }

  lemma DesertedStep(w: World, act: Act)
    requires Inv(w) && Sensible(w.spec) && CanAct(w, act) && Deserted(w)
    ensures act.Iterate? ==> Step(w, act).Panicked?
    ensures Step(w, act).Returned? ==> Deserted(Step(w, act).value)
    ensures Silence(w.kern) ==> !act.Iterate? && (Step(w, act).Returned? ==> Silence(Step(w, act).value.kern))
  {
    hide Inv, Sensible, React, CodeStep, SpecStep;
    StepInv(w, act);
    if act.Io? {
      IoEffect(w, act.a) by { hide CanPanic; }
    }
  }

  /** No run from there returns from the loop; and if nothing is in flight, nothing ever wakes it. */
  lemma {:induction false} NeverReturns(w: World, acts: seq<Act>)
    requires Inv(w) && Sensible(w.spec) && Deserted(w) && CanRun(w, acts) && Run(w, acts).Returned?
    ensures Deserted(Run(w, acts).value)
    ensures Silence(w.kern) ==> Silence(Run(w, acts).value.kern) && forall i | 0 <= i < |acts| :: !acts[i].Iterate?
    decreases |acts|
  {
    hide Inv, Sensible, CanAct, CanPanic, Step, Deserted, Silence;
    if acts != [] {
      StepInv(w, acts[0]);
      DesertedStep(w, acts[0]);
      NeverReturns(Step(w, acts[0]).value, acts[1..]);
      assert forall i | 1 <= i < |acts| :: acts[i] == acts[1..][i - 1];
    }
  }

  /** Right after start-up nothing at all can happen in a loop that was entered without a task. */
  lemma SleepsAtStartUp(act: Act)
    requires Sensible(Start.spec)
    ensures Step(Start, Enter).Returned? && !CanAct(Step(Start, Enter).value, act)
  {
  }

  // ---------------------------------------------------------------- entered with a task

  /** The tasks that are queued or waiting. */
  ghost function Load(e: Exec): nat {
    |e.runQ| + |e.waiting|
  }

  lemma WakeLoad(e: Exec, t: nat)
    ensures Load(Wake(e, t)) == Load(e)
  {
    if t in e.keys && e.keys[t] in e.waiting {
      var k := e.keys[t];
      assert e.waiting == (e.waiting - {k})[k := e.waiting[k]];
    }
  }

  lemma {:induction false} ReapLoad(w: World)
    requires Inv(w) && Sensible(w.spec) && w.phase.Top? && w.hist.polled == []
    ensures ReapAll(w).Returned? && Load(ReapAll(w).value.exec) == Load(w.exec)
    decreases |w.kern.cq|
  {
    hide Inv, Sensible, ReapWake, Load, Wake;
    if w.kern.cq != [] {
      InvReapWake(w);
      WakeLoad(w.exec, w.spec.ops[w.kern.cq[0].op].obj);
      ReapLoad(ReapWake(w).value);
    }
  }

  lemma ReactLoad(w: World)
    requires Inv(w) && Sensible(w.spec) && w.phase.Top? && w.exec.runQ == []
    ensures React(w).Returned? && Load(React(w).value.exec) == Load(w.exec)
  {
    hide FdsOk, ExecOk, BlockedOk, WakersOk, PendingOk, OneshotsOk, MultishotsOk, HandlesOk, OpsOk, KernelOk, Sensible,
         ReapAll, Load;
    ReapLoad(w.(code := w.code.(ring := w.code.ring.(queued := 0)), hist := w.hist.(due := {}, polled := [])));
  }

  /** The loop can do its next iteration. */
  ghost predicate Runnable(w: World) {
    Inv(w) && w.phase.Top? && CanAct(w, Iterate) && !CanPanic(w, Iterate)
  }

  /** If a task waits, its completion is in the queue or can be posted, and will wake it. */
  lemma WaitingRuns(w: World) returns (w': World)
    requires Inv(w) && w.phase.Top? && w.exec.runQ == [] && w.exec.waiting != map[]
    ensures Runnable(w') && Reaches(w, w') && w'.exec == w.exec
  {
    var k :| k in w.exec.waiting;
    var t := w.exec.waiting[k];
    var o := BlockedOn(w, k);
    hide Inv, Sensible, CanAct, CanPanic, Step, Lands;
    InvSensible(w);
    if w.kern.ops[o].live {
      w' := PostFor(w, k, o);
    } else {
      w' := w;
      ReachesSelf(w);
      var i :| 0 <= i < |w.kern.cq| && w.kern.cq[i].op == o;
      RunsWhenPosted(w, k, o, i);
    }
  }

  /** The open operation that a waiting task is blocked on. */
  lemma BlockedOn(w: World, k: nat) returns (o: nat)
    requires Inv(w) && w.phase.Top? && k in w.exec.waiting
    ensures Unresolved(w.kern, o) && o < |w.spec.ops| && w.spec.ops[o].obj == w.exec.waiting[k]
    ensures w.exec.waiting[k] in w.exec.keys && w.exec.keys[w.exec.waiting[k]] == k
  {
    hide Sim, FdsOk, WakersOk, AwaitingOk, RoundOk;
    o := w.hist.blocked[w.exec.waiting[k]];
    OpenIsUnresolved(w.code, w.kern, w.spec, w.link, o);
  }

  lemma RunsWhenPosted(w: World, k: nat, o: nat, i: nat)
    requires Inv(w) && w.phase.Top? && w.exec.runQ == [] && k in w.exec.waiting
    requires o < |w.spec.ops| && w.spec.ops[o].obj == w.exec.waiting[k]
    requires w.exec.waiting[k] in w.exec.keys && w.exec.keys[w.exec.waiting[k]] == k
    requires i < |w.kern.cq| && w.kern.cq[i].op == o
    ensures Runnable(w)
  {
    hide Inv;
    assert Lands(w.exec, w.spec.ops, w.kern.cq);
  }

  lemma PostFor(w: World, k: nat, o: nat) returns (w': World)
    requires Inv(w) && w.phase.Top? && w.exec.runQ == [] && k in w.exec.waiting
    requires o < |w.kern.ops| && w.kern.ops[o].live && o < |w.spec.ops| && w.spec.ops[o].obj == w.exec.waiting[k]
    requires w.exec.waiting[k] in w.exec.keys && w.exec.keys[w.exec.waiting[k]] == k
    ensures Runnable(w') && Reaches(w, w') && w'.exec == w.exec
  {
    var act := Io(PostCqe(o, -1, false));
    hide Inv, Reaches, Runnable, Sensible;
    ReachesStep(w, act);
    w' := Step(w, act).value;
    assert w'.kern.cq[|w.kern.cq|] == Cqe(o, -1, false);
    RunsWhenPosted(w', k, o, |w.kern.cq|);
  }

  /** One iteration, of a task that finishes. */
  lemma Iteration(w: World) returns (w': World)
    requires Runnable(w)
    ensures Inv(w') && Reaches(w, w') && Load(w'.exec) + 1 == Load(w.exec) && w'.phase == LoopEnd(w'.exec)
  {
    hide Inv, Sensible, CanPanic, React, Reaches, Lands;
    ReachesStep(w, Iterate);
    IterateLoad(w);
    var w1 := Step(w, Iterate).value;
    assert !CanPanic(w1, Finish) by { FinishIsSafe(w1); }
    ReachesStep(w1, Finish);
    w' := Step(w1, Finish).value;
    ReachesTrans(w, w1, w');
  }

  lemma FinishIsSafe(w: World)
    ensures !CanPanic(w, Finish)
  {
  }

  lemma IterateLoad(w: World)
    requires Runnable(w) && Sensible(w.spec) && Step(w, Iterate).Returned?
    ensures var w' := Step(w, Iterate).value; w'.phase.Polling? && Load(w'.exec) + 1 == Load(w.exec)
  {
    hide Inv, Sensible, React, CanPanic;
    if w.exec.runQ == [] {
      ReactLoad(w);
    }
  }

  /** Whatever has happened before, a loop with a task left can still return. */
  lemma {:induction false} CanStillReturn(w: World) returns (w': World)
    requires Inv(w) && w.phase.Top? && !Deserted(w)
    ensures Reaches(w, w') && w'.phase.Idle?
    decreases Load(w.exec)
  {
    hide Inv, Sensible, CanAct, CanPanic, Step, Reaches, React;
    var w1 := w;
    if w.exec.runQ == [] {
      w1 := WaitingRuns(w);
    } else {
      ReachesSelf(w) by { InvSensible(w); }
      assert Runnable(w) by { QueuedRuns(w); }
    }
    var w2 := Iteration(w1);
    ReachesTrans(w, w1, w2);
    w' := w2;
    if !w2.phase.Idle? {
      w' := CanStillReturn(w2);
      ReachesTrans(w, w2, w');
    }
  }

  lemma QueuedRuns(w: World)
    requires Inv(w) && w.phase.Top? && w.exec.runQ != []
    ensures Runnable(w)
  {
    hide Inv;
  }

  /** The loop, entered in state w, can return. */
  ghost predicate CanReturn(w: World) {
    exists w' :: Reaches(w.(phase := Top), w') && w'.phase.Idle?
  }

  /**
   The executor loop can return exactly if it is entered with a task queued or waiting. It does not
   leave at once when both queues are empty, as its description says.
   */
  lemma ReturnsExactly(w: World)
    requires Inv(w) && w.phase.Idle?
    ensures Sensible(w.spec) && Step(w, Enter) == Returned(w.(phase := Top))
    ensures CanReturn(w) <==> w.exec.runQ != [] || w.exec.waiting != map[]
  {
    var w1 := w.(phase := Top);
    InvSensible(w);
    hide Inv, Sensible, CanPanic, Reaches;
    assert CanAct(w, Enter) && !CanPanic(w, Enter) by { EnterIsSafe(w); }
    ReachesStep(w, Enter);
    if w.exec.runQ != [] || w.exec.waiting != map[] {
      var w' := CanStillReturn(w1);
    } else {
      forall w' | Reaches(w1, w')
        ensures !w'.phase.Idle?
      {
        ReachesNothing(w1, w');
      }
    }
  }

  lemma EnterIsSafe(w: World)
    requires w.phase.Idle?
    ensures CanAct(w, Enter) && !CanPanic(w, Enter)
  {
  }

  lemma ReachesNothing(w: World, w': World)
    requires Inv(w) && Deserted(w) && Reaches(w, w')
    ensures Deserted(w')
  {
    hide Inv, Sensible, Run, CanRun, Deserted;
    var acts :| CanRun(w, acts) && Run(w, acts) == Returned(w');
    NeverReturns(w, acts);
  }
}
