/**
 The executor in the form of its source: a run queue, a slab of waiting tasks and the loop, on
 top of the reactor's classes. The code of the futures and the kernel are methods of which the
 loop knows only the contract: they act as `World` allows, the futures for as long as their task
 is polled, the kernel while the thread sleeps, from which it need never wake it.
 */
module ExecutorCode {
  import opened Wrappers
  import opened Slabs
  import opened Reactor
  import opened ReactorCode
  import opened Kernel
  import opened Spec
  import opened Simulation
  import opened Events
  import opened World
  import Machine = World
  import opened WorldProofs
  import opened WorldTheorems
  import opened PrivateEvent
  import opened Progress
  import opened LoopReturns
  import opened Outcomes

  /** How `executor_loop` ends, or that it has not ended after the given number of iterations. */
  datatype LoopEnding = AllDone | PopsNothing | SleepsForever | StillRunning

  /**
   The machine can go through the acts of `trace` from start-up to state w. If no task finished
   with an operation in flight on the way, every open operation still has a live task.
   */
  ghost predicate Led(trace: seq<Act>, w: World) {
    && Sensible(Start.spec) && CanRun(Start, trace) && Run(Start, trace) == Returned(w)
    && Inv(w) && Counted(w)
    && (TidyRun(Start, trace) ==> NoOrphans(w.spec.ops, w.hist.finished))
  }

  lemma {:induction false} TidyAppend(w: World, acts: seq<Act>, act: Act)
    requires Sensible(w.spec) && CanRun(w, acts) && Run(w, acts).Returned?
    ensures Sensible(Run(w, acts).value.spec)
    ensures TidyRun(w, acts + [act]) <==> TidyRun(w, acts) && Tidy(Run(w, acts).value, act)
    decreases |acts|
  {
    hide Sensible, CanAct, Tidy, Step;
    if acts == [] {
      assert acts + [act] == [act] && [act][1..] == [];
    } else {
      assert (acts + [act])[1..] == acts[1..] + [act];
      TidyAppend(Step(w, acts[0]).value, acts[1..], act);
    }
  }

  lemma LedSensible(trace: seq<Act>, w: World)
    requires Led(trace, w)
    ensures Inv(w) && Sensible(w.spec)
  {
    hide Inv, Sensible, Counted, NoOrphans, CanRun, Run, TidyRun;
    InvSensible(w);
  }

  /** The polls that ended in a run from start-up. */
  ghost function Outs(trace: seq<Act>): seq<Answer> {
    if Sensible(Start.spec) then OutcomesOf(Start, trace) else []
  }

  /** One more act. */
  lemma LeadsOn(trace: seq<Act>, w: World, act: Act)
    requires Led(trace, w) && CanAct(w, act) && !CanPanic(w, act)
    ensures Sensible(w.spec) && Step(w, act).Returned? && Led(trace + [act], Step(w, act).value)
    ensures Outs(trace + [act]) == Outs(trace) + OutcomeOf(w, act)
  {
    hide Inv, Counted, NoOrphans, CanAct, CanPanic, Tidy, Step, Sensible, CanRun, Run, TidyRun, OutcomeOf, OutcomesOf;
    OutcomesAppend(Start, trace, act);
    StepInv(w, act);
    CountedStep(w, act);
    RunAppend(Start, trace, act);
    TidyAppend(Start, trace, act);
    if TidyRun(Start, trace + [act]) {
      OrphansStep(w, act);
    }
  }

  /** One act too many. */
  lemma LeadsToPanic(trace: seq<Act>, w: World)
    requires Led(trace, w) && CanAct(w, Iterate) && CanPanic(w, Iterate)
    ensures Sensible(w.spec) && Step(w, Iterate).Panicked?
    ensures Sensible(Start.spec) && CanRun(Start, trace + [Iterate]) && Run(Start, trace + [Iterate]).Panicked?
    ensures !TidyRun(Start, trace + [Iterate]) && Outs(trace + [Iterate]) == Outs(trace)
  {
    hide Inv, Counted, NoOrphans, CanAct, CanPanic, Tidy, Step, Sensible, CanRun, Run, TidyRun, OutcomesOf;
    OutcomesAppend(Start, trace, Iterate);
    StepInv(w, Iterate);
    RunAppend(Start, trace, Iterate);
    TidyAppend(Start, trace, Iterate);
    if TidyRun(Start, trace) {
      FindsTask(w);
    }
  }

  lemma LedNowhere()
    ensures Led([], Start)
  {
    StartInv();
    hide Inv;
    assert OpenOps(Start.spec.ops) == {};
  }

  /** What one completion does, in terms of the reactor's and the executor's own code. */
  lemma ReapParts(w: World)
    requires Inv(w) && Sensible(w.spec) && w.phase.Top? && w.kern.cq != [] && w.hist.polled == []
    ensures ReapWake(w).Returned? && w.kern.cq[0].op < |w.kern.ops|
    ensures var c := w.kern.cq[0];
            var next := NextCompletion(w.code.ring, w.kern.ops[c.op].userData, c.res, c.more);
            && next.Returned?
            && var (ring, obj) := next.value;
               && obj in w.exec.keys && ReapWake(w).value.code.ring == ring
               && ReapWake(w).value.exec == Wake(w.exec, obj)
  {
    hide Inv, Sensible, NextCompletion, SameHolders, ReapWake, Wake;
    InvReapWake(w);
    SameSizes(w);
    WakersSpawned(w);
    StepObj(w);
    ReapRing(w);
  }

  lemma ReapRing(w: World)
    requires Sensible(w.spec) && ReapWake(w).Returned? && w.kern.cq != [] && w.kern.cq[0].op < |w.kern.ops|
    requires IoStep(w, Reap).Returned?
    ensures var c := w.kern.cq[0];
            var next := NextCompletion(w.code.ring, w.kern.ops[c.op].userData, c.res, c.more);
            next.Returned? && ReapWake(w).value.code.ring == next.value.0 && IoStep(w, Reap).value.1 == Woke(next.value.1)
  {
    hide Sensible, SpecStep, NextCompletion;
  }

  lemma WakersSpawned(w: World)
    requires Inv(w)
    ensures forall o | 0 <= o < |w.spec.ops| :: w.spec.ops[o].obj in w.exec.keys
  {
    hide Sim, FdsOk, BlockedOk, AwaitingOk, RoundOk;
  }

  lemma StepObj(w: World)
    requires Inv(w) && Sensible(w.spec) && w.kern.cq != [] && w.kern.cq[0].op < |w.spec.ops|
    ensures IoStep(w, Reap).Returned? && IoStep(w, Reap).value.1 == Woke(w.spec.ops[w.kern.cq[0].op].obj)
  {
    hide CodeStep, FdsOk, ExecOk, BlockedOk, WakersOk, RoundOk, AwaitingOk, Sensible, Sim;
    SameSizes(w);
    StepSimulates(w.code, w.kern, w.spec, w.link, Reap);
  }

  /** The state in which `react` starts to look at completions. */
  ghost function Flushed(w: World): World {
    w.(code := w.code.(ring := w.code.ring.(queued := 0)), hist := w.hist.(due := {}, polled := []))
  }

  lemma FlushedInv(w: World)
    requires Inv(w) && w.exec.runQ == []
    ensures Inv(Flushed(w))
  {
    hide FdsOk, ExecOk, BlockedOk, WakersOk, PendingOk, OneshotsOk, MultishotsOk, HandlesOk, OpsOk, KernelOk;
  }

  lemma PostEffect(trace: seq<Act>, w: World, o: nat)
    requires Led(trace, w) && o < |w.kern.ops| && w.kern.ops[o].live
    ensures var act := Io(PostCqe(o, -1, false));
            && Sensible(w.spec) && Step(w, act).Returned?
            && var w' := Step(w, act).value;
               && Led(trace + [act], w') && Outs(trace + [act]) == Outs(trace) && w'.kern == Post(w.kern, o, -1, false)
               && w'.exec == w.exec && w'.phase == w.phase && w'.hist == w.hist && w'.code == w.code
  {
    hide Led, Inv, Sensible;
    LeadsOn(trace, w, Io(PostCqe(o, -1, false)));
  }

  /** A task that starts to be polled, after a react if the run queue is empty. */
  lemma PopEffect(trace: seq<Act>, before: World, w: World)
    requires Led(trace, before) && CanAct(before, Iterate) && Sensible(before.spec)
    requires if before.exec.runQ != [] then w == before else Machine.React(before) == Returned(w)
    ensures w.exec.runQ == [] ==>
              && Sensible(Start.spec) && CanRun(Start, trace + [Iterate])
              && Run(Start, trace + [Iterate]).Panicked? && !TidyRun(Start, trace + [Iterate])
    ensures before.exec.runQ == [] && before.exec.waiting == map[] ==> w.exec.runQ == []
    ensures Outs(trace + [Iterate]) == Outs(trace)
    ensures w.exec.runQ != [] ==>
              var n := |w.exec.runQ| - 1; var w' := Step(before, Iterate);
              && w'.Returned? && Led(trace + [Iterate], w'.value)
              && w'.value.exec == w.exec.(runQ := w.exec.runQ[..n]) && w'.value.phase == Polling(w.exec.runQ[n])
              && w'.value.code == w.code && w'.value.kern == w.kern && w'.value.hist.polls == before.hist.polls + 1
  {
    hide Led, Inv, Sensible, Machine.React, CanAct, CanPanic, Lands, Run, CanRun, TidyRun;
    LedSensible(trace, before);
    StepInv(before, Iterate);
    if before.exec.runQ == [] {
      AtTop(before);
      InvReact(before);
      assert before.exec.waiting == map[] ==> !Lands(before.exec, before.spec.ops, before.kern.cq) by {
        NobodyLands(before.exec, before.spec.ops, before.kern.cq);
      }
    }
    if w.exec.runQ != [] {
      LeadsOn(trace, before, Iterate);
    } else {
      LeadsToPanic(trace, before);
    }
  }

  lemma NobodyLands(e: Exec, ops: seq<SpecOp>, cq: seq<Cqe>)
    ensures e.waiting == map[] ==> !Lands(e, ops, cq)
  {
  }

  lemma AtTop(w: World)
    requires CanAct(w, Iterate)
    ensures w.phase.Top?
  {
  }

  lemma FinishEffect(trace: seq<Act>, w: World)
    requires Led(trace, w) && w.phase.Polling?
    ensures Sensible(w.spec) && Step(w, Finish).Returned? && Led(trace + [Finish], Step(w, Finish).value)
    ensures Outs(trace + [Finish]) == Outs(trace) + [(w.phase.task, true)]
    ensures var w' := Step(w, Finish).value;
            && w'.exec == w.exec && w'.code == w.code && w'.kern == w.kern
            && w'.phase == LoopEnd(w.exec) && w'.hist.polls == w.hist.polls
            && w'.hist.finished == w.hist.finished + {w.phase.task}
  {
    hide Led, Inv, Sensible;
    LeadsOn(trace, w, Finish);
  }

  lemma SuspendEffect(trace: seq<Act>, w: World, key: nat, h: nat)
    requires Led(trace, w) && w.phase.Polling? && key !in w.exec.waiting && h in w.hist.awaiting
    ensures var act := Suspend(key, h);
            && Sensible(w.spec) && Step(w, act).Returned? && Led(trace + [act], Step(w, act).value)
            && Outs(trace + [act]) == Outs(trace) + [(w.phase.task, false)]
    ensures var w' := Step(w, Suspend(key, h)).value; var t := w.phase.task;
            && w'.code == w.code && w'.kern == w.kern
            && w'.exec == w.exec.(waiting := w.exec.waiting[key := t], keys := w.exec.keys[t := key])
            && w'.phase == LoopEnd(w'.exec) && w'.hist.polls == w.hist.polls
  {
    hide Led, Inv, Sensible;
    LeadsOn(trace, w, Suspend(key, h));
    LedSensible(trace, w);
    AwaitedOwns(w, h);
  }

  lemma AwaitedOwns(w: World, h: nat)
    requires Inv(w) && w.phase.Polling? && h in w.hist.awaiting
    ensures h in w.spec.handles && w.spec.handles[h].Owns?
  {
    hide Sim, FdsOk, ExecOk, WakersOk, BlockedOk, RoundOk;
  }

  lemma EnterEffect(trace: seq<Act>, w: World)
    requires Led(trace, w) && w.phase.Idle?
    ensures Led(trace + [Enter], w.(phase := Top)) && Outs(trace + [Enter]) == Outs(trace)
  {
    hide Led, Inv, Sensible;
    LeadsOn(trace, w, Enter);
  }

  lemma SpawnLeads(trace: seq<Act>, w: World, task: nat)
    requires Led(trace, w) && task !in w.hist.spawned && !w.phase.Top?
    ensures Sensible(w.spec) && Step(w, Spawn(task)).Returned? && Led(trace + [Spawn(task)], Step(w, Spawn(task)).value)
    ensures var w' := Step(w, Spawn(task)).value;
            && w'.code == w.code && w'.kern == w.kern && w'.phase == w.phase
            && w'.exec == w.exec.(runQ := w.exec.runQ + [task], keys := w.exec.keys[task := 0])
  {
    hide Led, Inv, Sensible;
    LeadsOn(trace, w, Spawn(task));
  }

  /** Operation o is in flight and carries the waker of task t. */
  ghost predicate InFlightFor(w: World, o: nat, t: nat) {
    o < |w.kern.ops| && w.kern.ops[o].live && Carries(w, o, t)
  }

  /** Every waiting task has an operation of its own in flight, whose completion would wake it. */
  ghost predicate Starved(w: World) {
    forall k | k in w.exec.waiting :: exists o :: InFlightFor(w, o, w.exec.waiting[k])
  }

  /** A thread that sleeps for ever waits for the kernel, or has no task left. */
  lemma SleepsStarved(trace: seq<Act>, w: World)
    requires Led(trace, w) && w.phase.Top? && w.kern.cq == []
    ensures Starved(w) && (Silence(w.kern) ==> w.exec.waiting == map[])
  {
    hide Inv, Run, CanRun, TidyRun, Counted, NoOrphans;
    forall k | k in w.exec.waiting
      ensures exists o :: InFlightFor(w, o, w.exec.waiting[k])
    {
      NoLostWakeup(w, k);
      var o: nat :| Unresolved(w.kern, o) && Carries(w, o, w.exec.waiting[k]);
      assert InFlightFor(w, o, w.exec.waiting[k]);
    }
    if w.exec.waiting != map[] {
      var k :| k in w.exec.waiting;
      var o: nat :| InFlightFor(w, o, w.exec.waiting[k]);
    }
  }

  /** The loop's exit condition is the end of every task. */
  lemma NothingLeft(trace: seq<Act>, w: World)
    requires Led(trace, w) && w.phase.Idle? && w.exec.runQ == [] && w.exec.waiting == map[]
    ensures w.hist.finished == w.hist.spawned
  {
    hide Sim, FdsOk, WakersOk, BlockedOk, AwaitingOk, RoundOk, Run, CanRun, TidyRun, Counted, NoOrphans;
  }

  /** With oneshot operations only, the number of polls is bounded. */
  lemma PollsBounded(trace: seq<Act>, w: World)
    requires Led(trace, w) && AllOneshot(w.spec.ops)
    ensures w.hist.polls <= |w.hist.spawned| + |w.kern.ops|
  {
    hide FdsOk, WakersOk, BlockedOk, AwaitingOk, ExecOk, PendingOk, OneshotsOk, MultishotsOk, HandlesOk, OpsOk, PostedOk, CqOk,
         Run, CanRun, TidyRun, NoOrphans;
  }

  ghost function FreshHandle(ios: map<nat, Io>): (h: nat)
    ensures h !in ios
  {
    SomeUnused(ios.Keys);
    var h: nat :| h !in ios;
    h
  }

  lemma {:induction false} Unused(s: set<nat>) returns (bound: nat)
    ensures forall x | x in s :: x < bound
  {
    bound := 0;
    if s != {} {
      var x :| x in s;
      bound := Unused(s - {x});
      assert s == (s - {x}) + {x};
      bound := if x < bound then bound else x + 1;
    }
  }

  lemma SomeUnused(s: set<nat>)
    ensures exists h: nat :: h !in s
  {
    var h := Unused(s);
    assert h !in s;
  }

  /** A first poll by the running task: the submission that the reactor's classes carry out. */
  lemma SubmitEffect(trace: seq<Act>, w: World, h: nat, task: nat, slot: nat, userData: nat)
    requires Led(trace, w) && w.phase == Polling(task) && h !in w.code.ios
    requires w.code.ring.queued < 1024 && userData !in w.code.ring.pending && slot !in w.code.ring.oneshot
    ensures Sensible(w.spec) && Step(w, Io(NewIo(h, Oneshot))).Returned?
    ensures var act := Io(PollIo(h, task, Other, slot, userData));
            var w1 := Step(w, Io(NewIo(h, Oneshot))).value;
            && Step(w1, act).Returned?
            && var w' := Step(w1, act).value;
               && Led(trace + [Io(NewIo(h, Oneshot))] + [act], w')
               && Outs(trace + [Io(NewIo(h, Oneshot))] + [act]) == Outs(trace) && w'.exec == w.exec && w'.phase == w.phase
               && w'.hist.polls == w.hist.polls && h in w'.hist.awaiting
               && w'.kern == Accept(w.kern, Oneshot, Other, userData)
               && SubmitOrGetOneshot(NewOne, w.code.ring, task, slot, userData)
                  == Returned((SubmittedOne(slot), w'.code.ring))
  {
    hide Led, Inv, Sensible;
    LeadsOn(trace, w, Io(NewIo(h, Oneshot)));
    var w1 := Step(w, Io(NewIo(h, Oneshot))).value;
    NewHandle(w, h);
    FirstPollEffect(trace + [Io(NewIo(h, Oneshot))], w1, h, task, slot, userData);
  }

  lemma FirstPollEffect(trace: seq<Act>, w: World, h: nat, task: nat, slot: nat, userData: nat)
    requires Led(trace, w) && w.phase == Polling(task)
    requires h in w.code.ios && w.code.ios[h] == One(NewOne) && h in w.spec.handles && w.spec.handles[h] == Fresh(Oneshot)
    requires w.code.ring.queued < 1024 && userData !in w.code.ring.pending && slot !in w.code.ring.oneshot
    ensures var act := Io(PollIo(h, task, Other, slot, userData));
            && Sensible(w.spec) && Step(w, act).Returned?
            && var w' := Step(w, act).value;
               && Led(trace + [act], w') && Outs(trace + [act]) == Outs(trace)
               && w'.exec == w.exec && w'.phase == w.phase
               && w'.hist.polls == w.hist.polls && h in w'.hist.awaiting
               && w'.kern == Accept(w.kern, Oneshot, Other, userData)
               && SubmitOrGetOneshot(NewOne, w.code.ring, task, slot, userData)
                  == Returned((SubmittedOne(slot), w'.code.ring))
  {
    hide Led, Inv, Sensible, SpecStep;
    LeadsOn(trace, w, Io(PollIo(h, task, Other, slot, userData)));
  }

  lemma NewHandle(w: World, h: nat)
    requires Sensible(w.spec)
    ensures Step(w, Io(NewIo(h, Oneshot))).Returned?
    ensures var w1 := Step(w, Io(NewIo(h, Oneshot))).value;
            h in w1.code.ios && w1.code.ios[h] == One(NewOne) && h in w1.spec.handles && w1.spec.handles[h] == Fresh(Oneshot)
  {
  }

  /** What the answers since an earlier state say about the tasks. */
  lemma LoopOutcomes(trace0: seq<Act>, w0: World, trace: seq<Act>, w: World, answers: seq<Answer>)
    requires Led(trace0, w0) && Led(trace, w) && Outs(trace) == Outs(trace0) + answers
    ensures w.hist.finished == w0.hist.finished + ReadyIn(answers) && LastWords(answers)
  {
    hide Inv, Sensible, Counted, NoOrphans, CanRun, Run, TidyRun, OutcomesOf, ReadyIn, LastWords;
    StartInv();
    FinishedByReady(Start, trace0);
    FinishedByReady(Start, trace);
    ReadyConcat(Outs(trace0), answers);
    LastSuffix(Outs(trace0), answers);
  }

  lemma LastSuffix(a: seq<Answer>, b: seq<Answer>)
    requires LastWords(a + b)
    ensures LastWords(b)
  {
    assert forall i | 0 <= i < |b| :: b[i] == (a + b)[|a| + i];
  }

  lemma LoopEndsReady(trace0: seq<Act>, trace: seq<Act>, w: World, answers: seq<Answer>)
    requires Led(trace, w) && w.hist.finished == w.hist.spawned && Outs(trace) == Outs(trace0) + answers
    ensures AllReadyLast(answers)
  {
    hide Inv, Sensible, Counted, NoOrphans, CanRun, Run, TidyRun, OutcomesOf;
    StartInv();
    EndsReady(Start, trace);
    var n, outs := |Outs(trace0)|, Outs(trace);
    forall i | 0 <= i < |answers|
      ensures ReadyLater(answers, i)
    {
      assert ReadyLater(outs, n + i);
      var j :| n + i <= j < |outs| && outs[j] == (outs[n + i].0, true);
      assert answers[j - n] == (answers[i].0, true);
    }
  }

  class Executor {
    var runQ: seq<nat>
    const waiting: Slab<nat>
    /** The key in each task's `Arc<TaskId>`. */
    var ids: map<nat, nat>
    const ring: ReactorInner
    /** The other side of the ring: the kernel. */
    var kern: KState

    /** Everything that has happened since start-up, and the state that it led to. */
    ghost var trace: seq<Act>
    ghost var w: World
    /** What the futures answered, poll by poll, and the completions that each wait for the kernel brought. */
    ghost var answers: seq<Answer>
    ghost var rests: seq<seq<Cqe>>

    /** The fields are what the machine's state says. */
    ghost predicate Wired()
      reads this, waiting, ring, ring.Repr, ring.pending, ring.oneshot.slots, ring.multishot.slots
    {
      && Parts() && {this, waiting} !! ring.Repr
      && w.exec == Exec(runQ, waiting.Contents, ids) && w.code.ring == ring.Model() && w.kern == kern
    }

    ghost predicate Valid()
      reads this, waiting, ring, ring.Repr, ring.pending, ring.oneshot.slots, ring.multishot.slots
    {
      Wired() && Led(trace, w)
    }

    constructor ()
      ensures Valid() && w == Start && trace == [] && answers == [] && rests == []
      ensures fresh(waiting) && fresh(ring) && fresh(ring.Repr)
    {
      hide Led, WellFormed, Occupants;
      runQ, ids, kern, w, trace, answers, rests := [], map[], Boot, Start, [], [], [];
      waiting := new Slab();
      ring := new ReactorInner();
      LedNowhere();
    }

    /** `TaskId::wake`. */
    method Wake(t: nat)
      requires waiting.Valid() && t in ids
      modifies this`runQ, waiting
      ensures waiting.Valid()
      ensures Exec(runQ, waiting.Contents, ids) == Machine.Wake(old(Exec(runQ, waiting.Contents, ids)), t)
    {
      hide WellFormed, Occupants;
      var task := waiting.TryRemove(ids[t]);
      if task.Some? {
        runQ := runQ + [task.value];
      }
    }

    /** The queue's part of `Executor::spawn`. */
    method Spawn(task: nat)
      requires Valid() && task !in w.hist.spawned && !w.phase.Top?
      modifies this`runQ, this`ids, this`w, this`trace
      ensures Valid() && trace == old(trace) + [Machine.Spawn(task)] && runQ == old(runQ) + [task]
      ensures ids == old(ids)[task := 0] && w.phase == old(w.phase)
    {
      hide Led, Sensible, Inv, Step, Parts;
      SpawnLeads(trace, w, task);
      runQ, ids := runQ + [task], ids[task := 0];
      w, trace := Step(w, Machine.Spawn(task)).value, trace + [Machine.Spawn(task)];
    }

    /**
     The kernel, while the thread sleeps in `submit_and_wait(1)`. It may post completions of what
     is in flight; if it never does, the thread never wakes. This body posts one, or none.
     */
    method Await()
      requires Valid() && w.phase.Top?
      modifies this`kern, this`w, this`trace, this`rests
      ensures Valid() && old(trace) <= trace && Outs(trace) == old(Outs(trace)) && rests == old(rests) + [kern.cq]
      ensures w.exec == old(w.exec) && w.phase == old(w.phase) && w.hist == old(w.hist)
      ensures kern.cq == [] ==> w == old(w) && trace == old(trace)
      ensures Silence(old(kern)) ==> kern.cq == []
    {
      hide Led, Sensible, Step, Outs, WellFormed, Occupants;
      var posts: bool := *;
      if posts && exists o :: 0 <= o < |kern.ops| && kern.ops[o].live {
        var o :| 0 <= o < |kern.ops| && kern.ops[o].live;
        PostEffect(trace, w, o);
        w, trace := Step(w, Io(PostCqe(o, -1, false))).value, trace + [Io(PostCqe(o, -1, false))];
        kern := Post(kern, o, -1, false);
      }
      rests := rests + [kern.cq];
    }

    /** The objects below this one are valid. */
    ghost predicate Parts()
      reads waiting, ring, ring.Repr, ring.pending, ring.oneshot.slots, ring.multishot.slots
    {
      ring.Valid() && waiting.Valid()
    }

    /** One round of `react`'s loop: the next completion, and its waker. */
    method NextAndWake(userData: nat, res: int, more: bool)
      requires Parts() && {this, waiting} !! ring.Repr && NextCompletion(ring.Model(), userData, res, more).Returned?
      requires NextCompletion(ring.Model(), userData, res, more).value.1 in ids
      modifies this`runQ, waiting, ring.Repr
      ensures Parts()
      ensures var next := NextCompletion(old(ring.Model()), userData, res, more).value;
              && ring.Model() == next.0
              && Exec(runQ, waiting.Contents, ids) == Machine.Wake(old(Exec(runQ, waiting.Contents, ids)), next.1)
    {
      hide NextCompletion, Machine.Wake;
      var obj := ring.Next(userData, res, more);
      Wake(obj);
    }

    method ReapOne()
      requires Wired() && Inv(w) && Sensible(w.spec) && w.phase.Top? && w.hist.polled == [] && kern.cq != []
      modifies this`runQ, this`kern, this`w, waiting, ring.Repr
      ensures Wired() && ReapWake(old(w)) == Returned(w)
    {
      hide Sensible, Inv, ReapWake, NextCompletion, Machine.Wake, Parts;
      var c := kern.cq[0];
      ReapParts(w);
      InvReapWake(w);
      NextAndWake(kern.ops[c.op].userData, c.res, c.more);
      kern := kern.(cq := kern.cq[1..]);
      w := ReapWake(w).value;
    }

    /** The loop of `Reactor::react`. */
    method ReapEach()
      requires Wired() && Inv(w) && Sensible(w.spec) && w.phase.Top? && w.hist.polled == []
      modifies this`runQ, this`kern, this`w, waiting, ring.Repr
      ensures Wired() && ReapAll(old(w)) == Returned(w)
    {
      hide Wired, Sensible, Inv, ReapWake;
      assert w.kern == kern by { WiredKernel(); }
      while kern.cq != []
        invariant Wired() && Inv(w) && Sensible(w.spec) && w.phase.Top? && w.hist.polled == [] && w.kern == kern
        invariant ReapAll(w) == ReapAll(old(w))
        decreases |kern.cq|
      {
        InvReapWake(w);
        ReapOne();
        WiredKernel();
      }
    }

    lemma WiredKernel()
      requires Wired()
      ensures w.kern == kern && w.exec.runQ == runQ
    {
    }

    /** `Reactor::react` once completions are there. */
    method Reap()
      requires Valid() && w.phase.Top? && runQ == []
      modifies this`runQ, this`kern, this`w, waiting, ring.Repr
      ensures Sensible(old(w).spec) && Machine.React(old(w)) == Returned(w) && Wired()
    {
      hide Led, Sensible, Inv, ReapAll, WellFormed, Occupants;
      LedSensible(trace, w);
      ring.SubmitAndWait();
      FlushedInv(w);
      w := Flushed(w);
      ReapEach();
    }

    /**
     `Reactor::react`; `before` is the state when `submit_and_wait` returns, and `asleep` says that it
     never does.
     */
    method React() returns (asleep: bool, ghost before: World)
      requires Valid() && w.phase.Top? && runQ == []
      modifies this`runQ, this`kern, this`w, this`trace, this`rests, waiting, ring.Repr
      ensures Led(trace, before) && Sensible(before.spec) && old(trace) <= trace && Outs(trace) == old(Outs(trace))
      ensures rests == old(rests) + [before.kern.cq] && (asleep <==> before.kern.cq == [])
      ensures before.exec == old(w.exec) && before.phase == Top && before.hist.polls == old(w.hist.polls)
      ensures asleep ==> Valid() && w == old(w) == before && trace == old(trace) && kern.cq == []
      ensures Silence(old(kern)) ==> asleep
      ensures !asleep ==> before.kern.cq != [] && Machine.React(before) == Returned(w) && Wired()
    {
      hide Led, Sensible, Inv, Machine.React, Parts, Silence, Outs;
      Await();
      before := w;
      asleep := kern.cq == [];
      LedSensible(trace, w);
      if !asleep {
        Reap();
      }
    }

    /**
     The head of an iteration, up to the call of `poll`; `before` is the state before the pop, in
     which the completions are there if there was anything to wait for.
     */
    method Head() returns (ending: Option<LoopEnding>, task: nat, ghost before: World)
      requires Valid() && w.phase.Top?
      modifies this`runQ, this`kern, this`w, this`trace, this`rests, waiting, ring.Repr
      ensures old(trace) <= trace && Outs(trace) == old(Outs(trace))
      ensures rests == old(rests) + if old(runQ) == [] then [before.kern.cq] else []
      ensures match ending
              case None =>
                && Valid() && w.phase == Polling(task) && w.hist.polls == old(w.hist.polls) + 1
                && trace != [] && trace[|trace| - 1] == Iterate && Led(trace[..|trace| - 1], before)
                && Sensible(before.spec) && Step(before, Iterate) == Returned(w)
                && if old(runQ) != [] then before == old(w) && old(runQ) == runQ + [task]
                   else Machine.React(before).Returned? && Machine.React(before).value.exec.runQ == runQ + [task]
              case Some(SleepsForever) =>
                && Valid() && w == old(w) == before && trace == old(trace) && runQ == old(runQ) == []
                && kern.cq == [] && Starved(w)
              case Some(PopsNothing) =>
                && Sensible(Start.spec) && CanRun(Start, trace) && Run(Start, trace).Panicked?
                && !TidyRun(Start, trace)
              case _ => false
      ensures old(runQ) == [] && old(waiting.Contents) == map[] ==> ending.Some?
      ensures old(runQ) == [] && Silence(old(kern)) ==> ending == Some(SleepsForever)
    {
      hide Led, Sensible, Inv, Machine.React, Step, Parts, Run, CanRun, TidyRun, Silence, Starved, Outs;
      before := w;
      ending, task := None, 0;
      LedSensible(trace, w);
      if runQ == [] {
        var asleep;
        asleep, before := React();
        if asleep {
          SleepsStarved(trace, w);
          return Some(SleepsForever), 0, before;
        }
      }
      PopEffect(trace, before, w);
      trace := trace + [Iterate];
      if runQ == [] {
        return Some(PopsNothing), 0, before;
      }
      task := runQ[|runQ| - 1];
      runQ := runQ[..|runQ| - 1];
      w := Step(before, Iterate).value;
      assert trace[..|trace| - 1] + [Iterate] == trace;
    }

    /** `vacant_entry`, `store` and `insert`. */
    method Park(task: nat, ghost h: nat)
      requires Valid() && w.phase == Polling(task) && h in w.hist.awaiting
      modifies this`ids, this`w, this`trace, waiting
      ensures Valid() && w.hist.polls == old(w.hist.polls) && w.phase == LoopEnd(w.exec)
      ensures task in ids && ids == old(ids)[task := ids[task]] && trace == old(trace) + [Suspend(ids[task], h)]
      ensures Outs(trace) == old(Outs(trace)) + [(task, false)]
      ensures ids[task] !in old(waiting.Contents) && waiting.Contents == old(waiting.Contents)[ids[task] := task]
    {
      hide Led, Sensible, Inv, Step, WellFormed, Occupants, LoopEnd, Outs;
      var key := waiting.Insert(task);
      ids := ids[task := key];
      SuspendEffect(trace, w, key, h);
      w, trace := Step(w, Suspend(key, h)).value, trace + [Suspend(key, h)];
    }

    /** The rest of an iteration, after the call of `poll`. */
    method Tail(task: nat, ready: bool, ghost h: nat) returns (done: bool)
      requires Valid() && w.phase == Polling(task) && (!ready ==> h in w.hist.awaiting)
      modifies this`ids, this`w, this`trace, waiting
      ensures Valid() && w.hist.polls == old(w.hist.polls) && Outs(trace) == old(Outs(trace)) + [(task, ready)]
      ensures ready ==>
                && trace == old(trace) + [Finish] && w.hist.finished == old(w.hist.finished) + {task}
                && ids == old(ids) && waiting.Contents == old(waiting.Contents)
      ensures !ready ==>
                && task in ids && ids == old(ids)[task := ids[task]] && trace == old(trace) + [Suspend(ids[task], h)]
                && ids[task] !in old(waiting.Contents)
                && waiting.Contents == old(waiting.Contents)[ids[task] := task]
      ensures done <==> runQ == [] && waiting.Contents == map[]
      ensures w.phase == if done then Idle else Top
    {
      hide Led, Sensible, Inv, Step, WellFormed, Occupants, Outs;
      if ready {
        FinishEffect(trace, w);
        w, trace := Step(w, Finish).value, trace + [Finish];
      } else {
        Park(task, h);
      }
      var empty := waiting.IsEmpty();
      done := runQ == [] && empty;
    }

    /** A new handle's first poll, on the ring. */
    method PushFirst(task: nat) returns (slot: nat, userData: nat)
      requires Parts() && {this, waiting} !! ring.Repr && ring.queued < 1024
      modifies ring.Repr
      ensures Parts() && userData !in old(ring.Model().pending) && slot !in old(ring.Model().oneshot)
      ensures SubmitOrGetOneshot(NewOne, old(ring.Model()), task, slot, userData)
              == Returned((SubmittedOne(slot), ring.Model()))
    {
      hide WellFormed, Occupants;
      var io := new OneshotUringIo(ring);
      var poll;
      poll, slot, userData := io.SubmitOrGetResult(task);
    }

    /** A task creates a handle and polls it for the first time. */
    method Submit(task: nat) returns (ghost h: nat)
      requires Valid() && w.phase == Polling(task) && ring.queued < 1024
      modifies this`kern, this`w, this`trace, ring.Repr
      ensures Valid() && old(trace) <= trace && w.phase == old(w.phase) && w.hist.polls == old(w.hist.polls)
      ensures h in w.hist.awaiting && Outs(trace) == old(Outs(trace))
    {
      hide Led, Sensible, Inv, Step, Parts, SubmitOrGetOneshot, Outs, Accept;
      var slot, userData := PushFirst(task);
      h := FreshHandle(w.code.ios);
      SubmitEffect(trace, w, h, task, slot, userData);
      ghost var act := Io(PollIo(h, task, Other, slot, userData));
      w := Step(Step(w, Io(NewIo(h, Oneshot))).value, act).value;
      trace := trace + [Io(NewIo(h, Oneshot))] + [act];
      kern := Accept(kern, Oneshot, Other, userData);
    }

    /**
     The code of a future, which may do anything that a task may do: `h` is a handle whose latest
     poll was pending. This body is one such future: it finishes, or starts an operation and
     waits for it.
     */
    method PollFuture(task: nat) returns (ready: bool, ghost h: nat)
      requires Valid() && w.phase == Polling(task)
      modifies this`runQ, this`ids, this`kern, this`w, this`trace, this`answers, ring.Repr
      ensures Valid() && old(trace) <= trace && w.phase == old(w.phase) && w.hist.polls == old(w.hist.polls)
      ensures Outs(trace) == old(Outs(trace)) && answers == old(answers) + [(task, ready)]
      ensures !ready ==> h in w.hist.awaiting
    {
      hide Led, Sensible, Inv, Step, Parts, Outs;
      h := 0;
      ready := *;
      if ring.queued >= SQ_ENTRIES {
        ready := true;
      }
      if !ready {
        h := Submit(task);
      }
      answers := answers + [(task, ready)];
    }

    /** One iteration of the loop: `said` is the answer of the future, if it gets that far. */
    method Turn() returns (ending: Option<LoopEnding>, ghost said: seq<Answer>)
      requires Valid() && w.phase.Top?
      modifies this, waiting, ring.Repr
      ensures old(trace) <= trace && old(rests) <= rests
      ensures answers == old(answers) + said && Outs(trace) == old(Outs(trace)) + said
      ensures match ending
              case None =>
                && Valid() && w.phase.Top? && w.hist.polls == old(w.hist.polls) + 1 && |said| == 1
                && (runQ != [] || waiting.Contents != map[])
              case Some(AllDone) =>
                && Valid() && w.phase.Idle? && w.hist.polls == old(w.hist.polls) + 1 && |said| == 1
                && runQ == [] && waiting.Contents == map[]
              case Some(SleepsForever) =>
                && Valid() && w == old(w) && trace == old(trace) && said == []
                && runQ == old(runQ) == [] && waiting.Contents == old(waiting.Contents) && kern.cq == [] && Starved(w)
                && |rests| > |old(rests)| && rests[|rests| - 1] == []
              case Some(PopsNothing) =>
                && said == [] && Sensible(Start.spec) && CanRun(Start, trace) && Run(Start, trace).Panicked?
                && !TidyRun(Start, trace)
              case _ => false
      ensures old(runQ) == [] && old(waiting.Contents) == map[] ==> ending in {Some(SleepsForever), Some(PopsNothing)}
      ensures old(runQ) == [] && Silence(old(kern)) ==> ending == Some(SleepsForever)
    {
      hide Led, Sensible, Inv, Step, Parts, Silence, Starved, Run, CanRun, TidyRun, Machine.React, Outs;
      said := [];
      var task;
      ghost var before;
      ending, task, before := Head();
      if ending.None? {
        var ready;
        ghost var h;
        ready, h := PollFuture(task);
        var done := Tail(task, ready, h);
        said := [(task, ready)];
        ending := if done then Some(AllDone) else None;
      }
    }

    /**
     `executor_loop`, watched for the given number of iterations; a server's loop never ends. `said`
     is what the futures answered, one poll per iteration. The answers decide what becomes of the
     tasks: those that finish are those that were ready, and each of the others was parked.
     */
    method ExecutorLoop(rounds: nat) returns (ending: LoopEnding, ghost said: seq<Answer>)
      requires Valid() && w.phase.Idle?
      modifies this, waiting, ring.Repr
      ensures old(trace) <= trace && old(rests) <= rests
      ensures answers == old(answers) + said && Outs(trace) == old(Outs(trace)) + said && LastWords(said)
      ensures !ending.PopsNothing? ==>
                && w.hist.finished == old(w.hist.finished) + ReadyIn(said)
                && w.hist.polls == old(w.hist.polls) + |said|
      ensures ending.AllDone? ==>
                && Valid() && w.phase.Idle? && runQ == [] && waiting.Contents == map[]
                && w.hist.finished == w.hist.spawned && AllReadyLast(said)
      ensures ending.PopsNothing? ==>
                Sensible(Start.spec) && CanRun(Start, trace) && Run(Start, trace).Panicked? && !TidyRun(Start, trace)
      ensures ending.SleepsForever? ==>
                && Valid() && runQ == [] && kern.cq == [] && Starved(w)
                && |rests| > |old(rests)| && rests[|rests| - 1] == []
                && (Silence(kern) ==> old(runQ) == [] && old(waiting.Contents) == map[])
      ensures old(runQ) == [] && old(waiting.Contents) == map[] && rounds > 0 ==>
                if Silence(old(kern)) then ending.SleepsForever? else ending.SleepsForever? || ending.PopsNothing?
      ensures ending.StillRunning? ==>
                Valid() && |said| == rounds && (AllOneshot(w.spec.ops) ==> rounds <= |w.hist.spawned| + |w.kern.ops|)
    {
      hide Led, Sensible, Inv, Step, Parts, Silence, Starved, AllOneshot, Run, CanRun, TidyRun, Outs, ReadyIn, LastWords,
           AllReadyLast;
      ghost var before := trace;
      said := [];
      LoopOutcomes(before, w, before, w, []);
      EnterEffect(trace, w);
      w, trace := w.(phase := Top), trace + [Enter];
      for i := 0 to rounds
        invariant Valid() && w.phase.Top? && before <= trace && old(rests) <= rests
        invariant answers == old(answers) + said && Outs(trace) == Outs(before) + said && LastWords(said)
        invariant w.hist.finished == old(w.hist.finished) + ReadyIn(said)
        invariant |said| == i && w.hist.polls == old(w.hist.polls) + i
        invariant if i == 0 then runQ == old(runQ) && waiting.Contents == old(waiting.Contents) && kern == old(kern)
                  else (runQ != [] || waiting.Contents != map[]) && (old(runQ) != [] || old(waiting.Contents) != map[])
      {
        var stop;
        ghost var more;
        stop, more := Turn();
        if stop.None? || stop.value.AllDone? {
          said := said + more;
          LoopOutcomes(before, old(w), trace, w, said);
        }
        if stop.Some? {
          if stop.value.SleepsForever? {
            SleepsStarved(trace, w);
          } else if stop.value.AllDone? {
            NothingLeft(trace, w);
            LoopEndsReady(before, trace, w, said);
          }
          return stop.value, said;
        }
      }
      if AllOneshot(w.spec.ops) {
        PollsBounded(trace, w);
      }
      ending := StillRunning;
    }
  }
}
