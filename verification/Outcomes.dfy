/** How polls of tasks end, over whole runs: a task finishes once, with its last poll. */
module Outcomes {
  import opened Wrappers
  import opened Simulation
  import opened Events
  import opened World
  import opened WorldProofs
  import opened WorldTheorems

  /** A poll that has ended: of which task, and whether it was ready. */
  type Answer = (nat, bool)

  ghost function OutcomeOf(w: World, act: Act): seq<Answer> {
    if w.phase.Polling? && act.Finish? then [(w.phase.task, true)]
    else if w.phase.Polling? && act.Suspend? then [(w.phase.task, false)]
    else []
  }

  /** The polls that end in a run, in order. */
  ghost function OutcomesOf(w: World, acts: seq<Act>): seq<Answer>
    requires Sensible(w.spec)
    decreases |acts|
  {
    if acts == [] then []
    else match Step(w, acts[0])
      case Panicked => []
      case Returned(w') => OutcomeOf(w, acts[0]) + OutcomesOf(w', acts[1..])
  }

  /** The tasks that were ready. */
  ghost function ReadyIn(outs: seq<Answer>): set<nat> {
    set i | 0 <= i < |outs| && outs[i].1 :: outs[i].0
  }

  lemma ReadyConcat(a: seq<Answer>, b: seq<Answer>)
    ensures ReadyIn(a + b) == ReadyIn(a) + ReadyIn(b)
  {
    forall t | t in ReadyIn(a) + ReadyIn(b)
      ensures t in ReadyIn(a + b)
    {
      if t in ReadyIn(a) {
        var i :| 0 <= i < |a| && a[i].1 && a[i].0 == t;
        assert (a + b)[i] == a[i];
      } else {
        var i :| 0 <= i < |b| && b[i].1 && b[i].0 == t;
        assert (a + b)[|a| + i] == b[i];
      }
    }
  }

  lemma {:induction false} OutcomesAppend(w: World, acts: seq<Act>, act: Act)
    requires Sensible(w.spec) && CanRun(w, acts) && Run(w, acts).Returned?
    ensures Sensible(Run(w, acts).value.spec)
    ensures Step(Run(w, acts).value, act).Returned? ==>
              OutcomesOf(w, acts + [act]) == OutcomesOf(w, acts) + OutcomeOf(Run(w, acts).value, act)
    ensures Step(Run(w, acts).value, act).Panicked? ==> OutcomesOf(w, acts + [act]) == OutcomesOf(w, acts)
    decreases |acts|
  {
    hide Sensible, CanAct, Step, OutcomeOf;
    if acts == [] {
      assert acts + [act] == [act] && [act][1..] == [];
      assert OutcomeOf(w, act) + [] == [] + OutcomeOf(w, act);
    } else {
      assert (acts + [act])[1..] == acts[1..] + [act];
      var w' := Step(w, acts[0]).value;
      OutcomesAppend(w', acts[1..], act);
      assert OutcomeOf(w, acts[0]) + (OutcomesOf(w', acts[1..]) + OutcomeOf(Run(w, acts).value, act))
             == OutcomeOf(w, acts[0]) + OutcomesOf(w', acts[1..]) + OutcomeOf(Run(w, acts).value, act);
    }
  }

  ghost function Finishing(w: World, act: Act): set<nat> {
    if w.phase.Polling? && act.Finish? then {w.phase.task} else {}
  }

  lemma ReadyOne(w: World, act: Act)
    ensures ReadyIn(OutcomeOf(w, act)) == Finishing(w, act)
  {
    if Finishing(w, act) != {} {
      assert OutcomeOf(w, act)[0] == (w.phase.task, true);
    }
  }

  lemma FinishedSet(w: World, act: Act)
    requires Inv(w) && Sensible(w.spec) && CanAct(w, act) && Step(w, act).Returned?
    ensures Step(w, act).value.hist.finished == w.hist.finished + Finishing(w, act)
  {
    hide Inv, Sensible, React, Lands, CodeStep, SpecStep;
    if act.Iterate? && w.exec.runQ == [] {
      InvReact(w);
    }
  }

  lemma FinishedStep(w: World, act: Act)
    requires Inv(w) && Sensible(w.spec) && CanAct(w, act) && Step(w, act).Returned?
    ensures Step(w, act).value.hist.finished == w.hist.finished + ReadyIn(OutcomeOf(w, act))
    ensures forall i | 0 <= i < |OutcomeOf(w, act)| :: OutcomeOf(w, act)[i].0 !in w.hist.finished
  {
    hide Inv, Sensible, Step, CanAct, ReadyIn, Finishing;
    FinishedSet(w, act);
    ReadyOne(w, act);
    PollingAlive(w);
  }

  lemma PollingAlive(w: World)
    requires Inv(w)
    ensures w.phase.Polling? ==> w.phase.task !in w.hist.finished
  {
    hide Sim, FdsOk, WakersOk, BlockedOk, AwaitingOk, RoundOk;
  }

  /** No poll of a task follows one that was ready. */
  ghost predicate LastWords(outs: seq<Answer>) {
    forall i, j | 0 <= i < j < |outs| && outs[i].0 == outs[j].0 :: !outs[i].1
  }

  /**
   In every run the tasks that finish are exactly those whose poll was ready; a task that was
   pending is not finished by that poll, and one that was ready is never polled again.
   */
  lemma {:induction false} FinishedByReady(w: World, acts: seq<Act>)
    requires Inv(w) && Sensible(w.spec) && CanRun(w, acts) && Run(w, acts).Returned?
    ensures var outs := OutcomesOf(w, acts);
            && Run(w, acts).value.hist.finished == w.hist.finished + ReadyIn(outs)
            && (forall i | 0 <= i < |outs| :: outs[i].0 !in w.hist.finished) && LastWords(outs)
    decreases |acts|
  {
    hide Inv, Sensible, CanAct, CanPanic, Step;
    if acts != [] {
      StepInv(w, acts[0]);
      FinishedStep(w, acts[0]);
      var w' := Step(w, acts[0]).value;
      FinishedByReady(w', acts[1..]);
      var first, rest := OutcomeOf(w, acts[0]), OutcomesOf(w', acts[1..]);
      ReadyConcat(first, rest);
      assert forall i | 0 <= i < |first| && first[i].1 :: first[i].0 in ReadyIn(first);
      hide ReadyIn;
      assert forall i | 0 <= i < |first + rest| :: (first + rest)[i] == if i < |first| then first[i] else rest[i - |first|];
    }
  }

  ghost predicate ReadyLater(outs: seq<Answer>, i: nat)
    requires i < |outs|
  {
    exists j :: i <= j < |outs| && outs[j] == (outs[i].0, true)
  }

  /** The last poll of every task was ready. */
  ghost predicate AllReadyLast(outs: seq<Answer>) {
    forall i | 0 <= i < |outs| :: ReadyLater(outs, i)
  }

  /** When all tasks have finished, the last poll of each was ready. */
  lemma EndsReady(w: World, acts: seq<Act>)
    requires Inv(w) && Sensible(w.spec) && CanRun(w, acts) && Run(w, acts).Returned?
    requires Run(w, acts).value.hist.finished == Run(w, acts).value.hist.spawned
    ensures AllReadyLast(OutcomesOf(w, acts))
  {
    FinishedByReady(w, acts);
    PolledSpawned(w, acts);
    hide Inv, Sensible, Run, CanRun, OutcomesOf;
    var outs := OutcomesOf(w, acts);
    forall i | 0 <= i < |outs|
      ensures ReadyLater(outs, i)
    {
      var j :| 0 <= j < |outs| && outs[j].1 && outs[j].0 == outs[i].0;
      assert outs[j] == (outs[i].0, true);
    }
  }

  lemma {:induction false} PolledSpawned(w: World, acts: seq<Act>)
    requires Inv(w) && Sensible(w.spec) && CanRun(w, acts) && Run(w, acts).Returned?
    ensures w.hist.spawned <= Run(w, acts).value.hist.spawned
    ensures forall i | 0 <= i < |OutcomesOf(w, acts)| :: OutcomesOf(w, acts)[i].0 in Run(w, acts).value.hist.spawned
    decreases |acts|
  {
    hide Inv, Sensible, CanAct, CanPanic, Step;
    if acts != [] {
      StepInv(w, acts[0]);
      StepSpawned(w, acts[0]);
      PollingSpawned(w);
      PolledSpawned(Step(w, acts[0]).value, acts[1..]);
    }
  }

  lemma PollingSpawned(w: World)
    requires Inv(w)
    ensures w.phase.Polling? ==> w.phase.task in w.hist.spawned
  {
    hide Sim, FdsOk, WakersOk, BlockedOk, AwaitingOk, RoundOk;
  }
}
