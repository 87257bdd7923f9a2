/** What every run of executor, reactor and kernel keeps. */
module WorldTheorems {
  import opened Wrappers
  import opened Reactor
  import opened Kernel
  import opened Spec
  import opened Simulation
  import opened Events
  import opened World
  import opened WorldProofs

  // ---------------------------------------------------------------- runs

  ghost function Run(w: World, acts: seq<Act>): Outcome<World>
    requires Sensible(w.spec)
    decreases |acts|
  {
    if acts == [] then Returned(w)
    else match Step(w, acts[0])
      case Panicked => Panicked
      case Returned(w') => Run(w', acts[1..])
  }

  /** Every act can come when its turn comes. */
  ghost predicate CanRun(w: World, acts: seq<Act>)
    requires Sensible(w.spec)
    decreases |acts|
  {
    acts == []
    || (CanAct(w, acts[0]) && (Step(w, acts[0]).Returned? ==> CanRun(Step(w, acts[0]).value, acts[1..])))
  }

  /** No act of the run meets one of the cases of `CanPanic`. */
  ghost predicate Calm(w: World, acts: seq<Act>)
    requires Sensible(w.spec)
    decreases |acts|
  {
    acts == []
    || (!CanPanic(w, acts[0]) && (Step(w, acts[0]).Returned? ==> Calm(Step(w, acts[0]).value, acts[1..])))
  }

  lemma StartInv()
    ensures Inv(Start) && Sensible(Start.spec)
  {
  }

  /**
   The invariant holds in every reachable state, and a run panics exactly when it meets a case of
   `CanPanic`.
   */
  lemma {:induction false} RunInv(w: World, acts: seq<Act>)
    requires Inv(w) && Sensible(w.spec) && CanRun(w, acts)
    ensures Run(w, acts).Panicked? <==> !Calm(w, acts)
    ensures Calm(w, acts) ==> Inv(Run(w, acts).value)
    decreases |acts|
  {
    hide Inv, Sensible, CanAct, CanPanic, Step;
    if acts != [] {
      StepInv(w, acts[0]);
      if !CanPanic(w, acts[0]) {
        RunInv(Step(w, acts[0]).value, acts[1..]);
      }
    }
  }

  lemma {:induction false} RunAppend(w: World, acts: seq<Act>, act: Act)
    requires Sensible(w.spec) && CanRun(w, acts) && Run(w, acts).Returned?
    requires CanAct(Run(w, acts).value, act)
    ensures Sensible(Run(w, acts).value.spec)
    ensures CanRun(w, acts + [act]) && Run(w, acts + [act]) == Step(Run(w, acts).value, act)
    decreases |acts|
  {
    hide Sensible, CanAct, Step;
    if acts == [] {
      assert acts + [act] == [act] && [act][1..] == [];
    } else {
      assert (acts + [act])[1..] == acts[1..] + [act];
      RunAppend(Step(w, acts[0]).value, acts[1..], act);
    }
  }

  // ---------------------------------------------------------------- no lost wakeup

  /** A completion of operation o is still to come, or waits in the queue. */
  ghost predicate Unresolved(k: KState, o: nat) {
    o < |k.ops| && (k.ops[o].live || Closing(k.cq, o))
  }

  /** The pending entry of operation o carries the waker of task t. */
  ghost predicate Carries(w: World, o: nat, t: nat) {
    && o < |w.kern.ops| && w.kern.ops[o].userData in w.code.ring.pending
    && w.code.ring.pending[w.kern.ops[o].userData].assocObj == t
  }

  lemma OpenIsUnresolved(c: Code, k: KState, s: SState, l: Link, o: nat)
    requires Sim(c, k, s, l) && o < |s.ops| && !s.ops[o].closed
    ensures Unresolved(k, o) && k.ops[o].userData in c.ring.pending
    ensures c.ring.pending[k.ops[o].userData].assocObj == s.ops[o].obj
  {
    hide OneshotsOk, MultishotsOk, HandlesOk, CqOk, OpsOk;
    assert PostedOk(k.ops[o], s.ops[o], k.cq, o);
  }

  /**
   No lost wakeup: in every reachable state a task in the waiting slab is stored at the key in
   its `TaskId`, and a completion that will wake it is in flight or waits to be reaped.
   */
  lemma NoLostWakeup(w: World, k: nat)
    requires Inv(w) && k in w.exec.waiting
    ensures w.exec.waiting[k] in w.exec.keys && w.exec.keys[w.exec.waiting[k]] == k
    ensures exists o :: Unresolved(w.kern, o) && Carries(w, o, w.exec.waiting[k])
  {
    hide Sim, FdsOk, WakersOk, AwaitingOk, RoundOk;
    var o := w.hist.blocked[w.exec.waiting[k]];
    OpenIsUnresolved(w.code, w.kern, w.spec, w.link, o);
    assert Unresolved(w.kern, o) && Carries(w, o, w.exec.waiting[k]);
  }

  /** While a task waits, the kernel owes a completion: `react` never sleeps for nothing. */
  lemma SomethingComes(w: World)
    requires Inv(w) && w.phase.Top? && w.exec.runQ == [] && w.exec.waiting != map[]
    ensures w.kern.cq != [] || exists o | 0 <= o < |w.kern.ops| :: w.kern.ops[o].live
  {
    var k :| k in w.exec.waiting;
    NoLostWakeup(w, k);
  }

  // ---------------------------------------------------------------- stale keys

  /** No key of a queued task is occupied. */
  ghost predicate NoStale(e: Exec) {
    forall t | t in e.runQ && t in e.keys :: e.keys[t] !in e.waiting
  }

  /**
   A wake inside `react` of a task that is still alive moves exactly that task or does nothing.
   A wake of a finished task through its old key moves at most one waiting task, early. In both
   cases every task stays in exactly one place, at its key.
   */
  lemma WakeMoves(e: Exec, spawned: set<nat>, finished: set<nat>, t: nat)
    requires ExecOk(e, Top, spawned, finished) && NoStale(e) && t in spawned
    ensures ExecOk(Wake(e, t), Top, spawned, finished) && NoStale(Wake(e, t))
    ensures t !in finished ==>
              if IsWaiting(e, t) then Wake(e, t) == Exec(e.runQ + [t], e.waiting - {e.keys[t]}, e.keys)
              else Wake(e, t) == e
    ensures t in finished ==>
              Wake(e, t) == e
              || exists u :: IsWaiting(e, u) && Wake(e, t) == Exec(e.runQ + [u], e.waiting - {e.keys[u]}, e.keys)
  {
    WakeExec(e, spawned, finished, t);
    if e.keys[t] in e.waiting {
      assert IsWaiting(e, e.waiting[e.keys[t]]);
    }
  }

  /** The tasks that the waiting completions are for. */
  ghost predicate Called(ops: seq<SpecOp>, cq: seq<Cqe>, t: nat) {
    exists i :: 0 <= i < |cq| && cq[i].op < |ops| && ops[cq[i].op].obj == t
  }

  lemma CalledHead(ops: seq<SpecOp>, ops': seq<SpecOp>, cq: seq<Cqe>, t: nat)
    requires cq != [] && cq[0].op < |ops| == |ops'| && forall p | 0 <= p < |ops| :: ops'[p].obj == ops[p].obj
    ensures Called(ops, cq, t) <==> ops[cq[0].op].obj == t || Called(ops', cq[1..], t)
  {
    if Called(ops, cq, t) {
      var i :| 0 <= i < |cq| && cq[i].op < |ops| && ops[cq[i].op].obj == t;
      assert i > 0 ==> cq[1..][i - 1] == cq[i];
    }
    if Called(ops', cq[1..], t) {
      var i :| 0 <= i < |cq[1..]| && cq[1..][i].op < |ops| && ops'[cq[1..][i].op].obj == t;
      assert cq[i + 1] == cq[1..][i];
    }
  }

  lemma {:induction false} ReapAllWakes(w: World, t: nat)
    requires Inv(w) && Sensible(w.spec) && w.phase.Top? && w.hist.polled == [] && NoStale(w.exec)
    requires forall u | Called(w.spec.ops, w.kern.cq, u) :: u in w.hist.spawned && u !in w.hist.finished
    ensures ReapAll(w).Returned?
    ensures t in ReapAll(w).value.exec.runQ
            <==> t in w.exec.runQ || (IsWaiting(w.exec, t) && Called(w.spec.ops, w.kern.cq, t))
    decreases |w.kern.cq|
  {
    hide Inv, Sensible, ReapWake, Called, NoStale;
    if w.kern.cq != [] {
      InvReapWake(w);
      var w' := ReapWake(w).value;
      var u := w.spec.ops[w.kern.cq[0].op].obj;
      forall v
        ensures Called(w.spec.ops, w.kern.cq, v) <==> u == v || Called(w'.spec.ops, w.kern.cq[1..], v)
      {
        CalledHead(w.spec.ops, w'.spec.ops, w.kern.cq, v);
      }
      InvExec(w);
      WakeMoves(w.exec, w.hist.spawned, w.hist.finished, u);
      hide ExecOk, Wake;
      ReapAllWakes(w', t);
    } else {
      assert !Called(w.spec.ops, [], t) by { CalledNothing(w.spec.ops, t); }
    }
  }

  lemma CalledNothing(ops: seq<SpecOp>, t: nat)
    ensures !Called(ops, [], t)
  {
  }

  /**
   If no waiting completion is for a finished task, `react` queues exactly the tasks that the
   completions are for.
   */
  lemma ReactWakesExactly(w: World, t: nat)
    requires Inv(w) && Sensible(w.spec) && w.phase.Top? && w.exec.runQ == []
    requires forall u | Called(w.spec.ops, w.kern.cq, u) :: u !in w.hist.finished
    ensures React(w).Returned?
    ensures t in React(w).value.exec.runQ <==> Called(w.spec.ops, w.kern.cq, t)
  {
    hide FdsOk, BlockedOk, PendingOk, OneshotsOk, MultishotsOk, HandlesOk, OpsOk, KernelOk, Sensible, ReapAll;
    var w' := w.(code := w.code.(ring := w.code.ring.(queued := 0)), hist := w.hist.(due := {}, polled := []));
    assert Inv(w');
    ReapAllWakes(w', t);
  }

  lemma InvExec(w: World)
    requires Inv(w)
    ensures ExecOk(w.exec, w.phase, w.hist.spawned, w.hist.finished)
  {
  }

  // ---------------------------------------------------------------- conservation and the end of the loop

  /** The loop returns only when every task ever spawned has finished. */
  lemma LoopReturnsWhenAllFinished(w: World, act: Act)
    requires Inv(w) && Sensible(w.spec) && CanAct(w, act) && !w.phase.Idle?
    requires Step(w, act).Returned? && Step(w, act).value.phase.Idle?
    ensures Step(w, act).value.hist.finished == Step(w, act).value.hist.spawned
  {
    hide Inv, Sensible, CanAct, CanPanic, React;
    StepInv(w, act);
    PoppedPhase(w, act);
    InvExec(Step(w, act).value);
  }

  lemma PoppedPhase(w: World, act: Act)
    requires Sensible(w.spec) && Inv(w) && CanAct(w, act) && !w.phase.Idle?
    requires Step(w, act).Returned? && Step(w, act).value.phase.Idle?
    ensures act.Suspend? || act.Finish?
    ensures Step(w, act).value.exec.runQ == [] && Step(w, act).value.exec.waiting == map[]
  {
    hide Inv, Sensible, React, CodeStep, SpecStep;
  }

  // ---------------------------------------------------------------- rounds

  /** The act goes through `react`. */
  ghost predicate Reacts(w: World, act: Act) {
    act.Iterate? && w.exec.runQ == []
  }

  ghost predicate OneRound(w: World, acts: seq<Act>)
    requires Sensible(w.spec)
    decreases |acts|
  {
    acts == [] || (!Reacts(w, acts[0]) && (Step(w, acts[0]).Returned? ==> OneRound(Step(w, acts[0]).value, acts[1..])))
  }

  /** The task that an act starts to poll. */
  ghost function PolledBy(w: World, act: Act): seq<nat>
    requires Sensible(w.spec)
  {
    if act.Iterate? && Step(w, act).Returned? && Step(w, act).value.phase.Polling? then [Step(w, act).value.phase.task]
    else []
  }

  /** The tasks polled in a run, in order. */
  ghost function PolledIn(w: World, acts: seq<Act>): seq<nat>
    requires Sensible(w.spec)
    decreases |acts|
  {
    if acts == [] then []
    else PolledBy(w, acts[0])
         + if Step(w, acts[0]).Returned? then PolledIn(Step(w, acts[0]).value, acts[1..]) else []
  }

  ghost predicate SpawnedIn(acts: seq<Act>, t: nat) {
    exists i :: 0 <= i < |acts| && acts[i] == Spawn(t)
  }

  lemma RoundStep(w: World, act: Act)
    requires Sensible(w.spec) && CanAct(w, act) && !Reacts(w, act) && Step(w, act).Returned?
    ensures Step(w, act).value.hist.polled == w.hist.polled + PolledBy(w, act)
    ensures Step(w, act).value.hist.due == w.hist.due + if act.Spawn? then {act.task} else {}
  {
    hide Sensible, CodeStep, SpecStep, React, Enabled, Awaiting;
  }

  lemma {:induction false} RoundHistory(w: World, acts: seq<Act>)
    requires Inv(w) && Sensible(w.spec) && CanRun(w, acts) && Calm(w, acts) && OneRound(w, acts)
    ensures Run(w, acts).Returned? && Inv(Run(w, acts).value)
    ensures Run(w, acts).value.hist.polled == w.hist.polled + PolledIn(w, acts)
    ensures w.hist.due <= Run(w, acts).value.hist.due
    ensures forall t | SpawnedIn(acts, t) :: t in Run(w, acts).value.hist.due
    decreases |acts|
  {
    hide Inv, Sensible, CanAct, CanPanic, Step, PolledBy, SpawnedIn;
    if acts == [] {
      assert forall t :: !SpawnedIn(acts, t) by { SpawnedHead(acts); }
    } else {
      StepInv(w, acts[0]);
      RoundStep(w, acts[0]);
      SpawnedHead(acts);
      RoundHistory(Step(w, acts[0]).value, acts[1..]);
    }
  }

  lemma SpawnedHead(acts: seq<Act>)
    ensures acts == [] ==> forall t :: !SpawnedIn(acts, t)
    ensures acts != [] ==> forall t :: SpawnedIn(acts, t) <==> acts[0] == Spawn(t) || SpawnedIn(acts[1..], t)
  {
    if acts != [] {
      forall t
        ensures SpawnedIn(acts, t) <==> acts[0] == Spawn(t) || SpawnedIn(acts[1..], t)
      {
        if SpawnedIn(acts[1..], t) {
          var i :| 0 <= i < |acts[1..]| && acts[1..][i] == Spawn(t);
          assert acts[i + 1] == Spawn(t);
        }
        if SpawnedIn(acts, t) {
          var i :| 0 <= i < |acts| && acts[i] == Spawn(t);
          assert i > 0 ==> acts[1..][i - 1] == Spawn(t);
        }
      }
    }
  }

  /**
   Round fairness, in spite of the LIFO queue. Take any run without a react: no task is polled
   twice, not even counting the polls between the last react and the start of the run; and if
   the run queue is empty in the end, every task that was queued at the start or spawned during
   the run has been polled, hence exactly once.
   */
  lemma RoundFairness(w: World, acts: seq<Act>)
    requires Inv(w) && Sensible(w.spec) && CanRun(w, acts) && Calm(w, acts) && OneRound(w, acts)
    ensures NoDup(w.hist.polled + PolledIn(w, acts))
    ensures Run(w, acts).Returned? && Run(w, acts).value.exec.runQ == [] ==>
              forall t | t in w.exec.runQ || SpawnedIn(acts, t) :: t in PolledIn(w, acts)
  {
    RoundHistory(w, acts);
    hide Sim, FdsOk, ExecOk, WakersOk, BlockedOk, AwaitingOk, Run, OneRound, CanRun, Calm, PolledIn, SpawnedIn, Step;
    var w' := Run(w, acts).value;
    var polled := PolledIn(w, acts);
    if w'.exec.runQ == [] {
      forall t | t in w.exec.runQ || SpawnedIn(acts, t)
        ensures t in polled
      {
        assert t in w'.hist.polled && t !in w.hist.polled by { NotYetPolled(w, acts, t); }
      }
    }
  }

  lemma NotYetPolled(w: World, acts: seq<Act>, t: nat)
    requires Inv(w) && Sensible(w.spec) && CanRun(w, acts) && Calm(w, acts) && OneRound(w, acts)
    requires t in w.exec.runQ || SpawnedIn(acts, t)
    requires Run(w, acts).Returned? && Run(w, acts).value.exec.runQ == []
    ensures t !in w.hist.polled && t in Run(w, acts).value.hist.polled
  {
    RoundHistory(w, acts);
    hide Sim, FdsOk, ExecOk, WakersOk, BlockedOk, AwaitingOk, Run, OneRound, PolledIn, Step;
    if SpawnedIn(acts, t) {
      FreshName(w, acts, t);
    }
  }

  lemma StepSpawned(w: World, act: Act)
    requires Sensible(w.spec) && CanAct(w, act) && Step(w, act).Returned? && Inv(w)
    ensures w.hist.spawned <= Step(w, act).value.hist.spawned
  {
    hide Sensible, CodeStep, SpecStep, Inv, Enabled, React;
    if act.Iterate? && w.exec.runQ == [] {
      InvReact(w);
    }
  }

  lemma {:induction false} FreshName(w: World, acts: seq<Act>, t: nat)
    requires Inv(w) && Sensible(w.spec) && CanRun(w, acts) && Calm(w, acts) && SpawnedIn(acts, t)
    ensures t !in w.hist.spawned
    decreases |acts|
  {
    hide Inv, Sensible, CanPanic, Step, SpawnedIn, Enabled;
    SpawnedHead(acts);
    if acts[0] != Spawn(t) {
      StepInv(w, acts[0]);
      StepSpawned(w, acts[0]);
      FreshName(Step(w, acts[0]).value, acts[1..], t);
    }
  }
}
