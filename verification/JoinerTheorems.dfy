/** Joining never blocks the thread, and delivers what the child's future returned. */
module JoinerTheorems {
  import opened Wrappers
  import opened Reactor
  import opened Kernel
  import opened Spec
  import opened Simulation
  import opened Events
  import opened World
  import opened WorldProofs
  import opened WorldTheorems
  import opened PrivateEvent
  import opened Joiner

  /** `Executor::spawn`: an event, a queued task and a waiter. */
  lemma SpawnJoiner<V>(w: World, fd: nat, child: nat, h: nat) returns (jw: JWorld<V>)
    requires Inv(w) && Sensible(w.spec) && !w.phase.Top?
    requires fd !in w.kern.fds && child !in w.hist.spawned && h !in w.code.ios
    ensures var event := Step(w, Io(OpenEvent(fd)));
            && event.Returned?
            && var queued := Step(event.value, Spawn(child));
               queued.Returned? && Step(queued.value, Io(NewIo(h, Oneshot))) == Returned(jw.w)
    ensures JInv(jw) && jw.j == JState(child, fd, h, Running, [], None, true)
    ensures w.phase == jw.w.phase
  {
    hide Inv, Sensible, Step, OnlyThrough, CanAct, JInv, StageOk;
    assert CanAct(w, Io(OpenEvent(fd))) by { CanOpen(w, fd); }
    NoReadsYet(w, fd);
    OpensEvent(w, fd);
    var w1 := Step(w, Io(OpenEvent(fd))).value;
    CanSpawn(w1, child);
    StepInv(w1, Spawn(child));
    AvoidsAct(w1, Spawn(child), fd, {});
    var w2 := Step(w1, Spawn(child)).value;
    SpawnEffect(w1, child);
    assert CanAct(w2, Io(NewIo(h, Oneshot))) by { CanNew(w2, h); }
    OwnOther(w2, NewIo(h, Oneshot), fd, {});
    IoEffect(w2, NewIo(h, Oneshot));
    var w3 := Step(w2, Io(NewIo(h, Oneshot))).value;
    jw := JWorld(w3, JState(child, fd, h, Running, [], None, true));
    assert {} + {h} == Waiters(jw.j);
    Starts(jw);
  }

  lemma Starts<V>(jw: JWorld<V>)
    requires Inv(jw.w) && OnlyThrough(jw.w.kern, jw.w.spec, jw.j.fd, Waiters(jw.j))
    requires jw.j == JState(jw.j.child, jw.j.fd, jw.j.h, Running, [], None, true)
    requires jw.j.fd in jw.w.kern.fds && jw.w.kern.fds[jw.j.fd].sent == 0 && jw.w.kern.fds[jw.j.fd].foreign == 0
    requires jw.j.child in jw.w.hist.spawned && jw.j.child !in jw.w.hist.finished
    requires jw.j.h in jw.w.spec.handles && jw.w.spec.handles[jw.j.h] == Fresh(Oneshot)
    requires forall o | 0 <= o < |jw.w.kern.ops| :: jw.w.kern.ops[o].target != Counter(jw.j.fd)
    ensures JInv(jw)
  {
    hide Inv, OnlyThrough;
    SameSizes(jw.w);
  }

  lemma CanOpen(w: World, fd: nat)
    requires fd !in w.kern.fds && !w.phase.Top?
    ensures CanAct(w, Io(OpenEvent(fd)))
  {
  }

  lemma CanNew(w: World, h: nat)
    requires h !in w.code.ios && !w.phase.Top?
    ensures CanAct(w, Io(NewIo(h, Oneshot)))
  {
  }

  lemma CanSpawn(w: World, child: nat)
    requires child !in w.hist.spawned && !w.phase.Top?
    ensures CanAct(w, Spawn(child)) && !CanPanic(w, Spawn(child))
  {
  }

  /** A new task is queued; nothing else changes outside the executor. */
  lemma SpawnEffect(w: World, child: nat)
    requires Sensible(w.spec) && Inv(w) && child !in w.hist.spawned
    ensures Step(w, Spawn(child)).Returned?
    ensures var w' := Step(w, Spawn(child)).value;
            && w'.kern == w.kern && w'.spec == w.spec && w'.code == w.code && w'.phase == w.phase
            && child in w'.hist.spawned && child !in w'.hist.finished
  {
    hide Sim, FdsOk, WakersOk, BlockedOk, AwaitingOk, RoundOk, Sensible;
  }


  // ---------------------------------------------------------------- one act

  /** What an act does to the executor's history. */
  lemma ExecFrame(w: World, act: Act)
    requires Inv(w) && Sensible(w.spec) && CanAct(w, act) && !CanPanic(w, act)
    ensures Step(w, act).Returned?
    ensures var w' := Step(w, act).value;
            && w.hist.spawned <= w'.hist.spawned && w.hist.finished <= w'.hist.finished
            && (forall t | t in w'.hist.finished && t !in w.hist.finished :: act.Finish? && w.phase == Polling(t))
            && (act.Finish? && w.phase.Polling? ==> w.phase.task in w'.hist.finished)
            && (FromOutside(act) ==> w'.phase == w.phase)
  {
    hide Inv, Sensible, React, CodeStep, SpecStep, CanPanic, Lands, Enabled;
    StepInv(w, act);
    if act.Iterate? && w.exec.runQ == [] {
      NoPanic(w, act);
      InvReact(w);
    }
  }

  lemma NoPanic(w: World, act: Act)
    requires act.Iterate? && w.exec.runQ == [] && !CanPanic(w, act)
    ensures Lands(w.exec, w.spec.ops, w.kern.cq)
  {
  }

  lemma FramesJoiner<V>(w: World, w': World, j: JState<V>)
    requires OnlyThrough(w.kern, w.spec, j.fd, Waiters(j))
    requires Untouched(w.kern, w.spec, w'.kern, w'.spec, j.fd, Waiters(j))
    requires StageOk(w, j) && WaiterOk(w, j)
    requires w.hist.spawned <= w'.hist.spawned && w.hist.finished <= w'.hist.finished
    requires j.child !in w.hist.finished ==> j.child !in w'.hist.finished
    requires Leaving(j) ==> w'.phase == w.phase
    ensures StageOk(w', j) && WaiterOk(w', j)
  {
  }

  lemma KeepsOther<V>(jw: JWorld<V>, act: Act)
    requires JInv(jw) && Sensible(jw.w.spec) && CanJ(jw, JAct.Other(act)) && !CanPanic(jw.w, act)
    ensures JStep(jw, JAct.Other(act)).Went? && JInv(JStep(jw, JAct.Other(act)).to)
  {
    hide Inv, Sensible, CanAct, CanPanic, Step, Avoids, OnlyThrough, Untouched, StageOk, WaiterOk, ChanOk, FromOutside;
    AvoidsAct(jw.w, act, jw.j.fd, Waiters(jw.j));
    ExecFrame(jw.w, act);
    FramesJoiner(jw.w, Step(jw.w, act).value, jw.j);
  }

  lemma KeepsReturn<V>(jw: JWorld<V>, v: V)
    requires JInv(jw) && Sensible(jw.w.spec) && CanJ(jw, Return(v))
    ensures JStep(jw, Return(v)).Went? && JInv(JStep(jw, Return(v)).to)
  {
    hide Inv, Sensible, Step, OnlyThrough;
    OwnOther(jw.w, NotifyEvent(jw.j.fd), jw.j.fd, Waiters(jw.j));
    IoEffect(jw.w, NotifyEvent(jw.j.fd));
  }

  lemma KeepsSend<V>(jw: JWorld<V>)
    requires JInv(jw) && Sensible(jw.w.spec) && CanJ(jw, Send)
    ensures JStep(jw, Send).Went? && JInv(JStep(jw, Send).to)
  {
    hide Inv, Sensible, OnlyThrough;
  }

  lemma KeepsEnd<V>(jw: JWorld<V>)
    requires JInv(jw) && Sensible(jw.w.spec) && CanJ(jw, End)
    ensures JStep(jw, End).Went? && JInv(JStep(jw, End).to)
  {
    var act := Finish;
    hide Inv, Sensible, Step, OnlyThrough, Untouched, StageOk, WaiterOk, ChanOk, CanPanic;
    EndsTask(jw);
    AvoidsAct(jw.w, act, jw.j.fd, Waiters(jw.j));
    ExecFrame(jw.w, act);
    EndsStage(jw.w, Step(jw.w, act).value, jw.j);
  }

  lemma EndsTask<V>(jw: JWorld<V>)
    requires StageOk(jw.w, jw.j) && jw.j.stage.Sent?
    ensures CanAct(jw.w, Finish) && !CanPanic(jw.w, Finish) && jw.w.phase == Polling(jw.j.child)
  {
  }

  lemma EndsStage<V>(w: World, w': World, j: JState<V>)
    requires OnlyThrough(w.kern, w.spec, j.fd, Waiters(j))
    requires Untouched(w.kern, w.spec, w'.kern, w'.spec, j.fd, Waiters(j))
    requires StageOk(w, j) && WaiterOk(w, j) && ChanOk(j) && j.stage.Sent?
    requires w.hist.spawned <= w'.hist.spawned && j.child in w'.hist.finished
    ensures var j' := j.(stage := Over(j.stage.value)); StageOk(w', j') && WaiterOk(w', j') && ChanOk(j')
  {
  }

  /** The waiter's read has completed with an error, which `poll` unwraps. */
  ghost predicate FailedWait<V>(jw: JWorld<V>) {
    && jw.j.h in jw.w.spec.handles && jw.w.spec.handles[jw.j.h].Owns?
    && jw.w.spec.handles[jw.j.h].op < |jw.w.spec.ops|
    && jw.w.spec.ops[jw.w.spec.handles[jw.j.h].op].results != []
    && jw.w.spec.ops[jw.w.spec.handles[jw.j.h].op].results[0] < 0
  }

  /** A read of the event can only succeed once the child's future has returned. */
  lemma ReadyMeansReturned<V>(w: World, j: JState<V>, o: nat)
    requires Inv(w) && StageOk(w, j) && o < |w.kern.ops| && w.kern.ops[o].target == Counter(j.fd)
    requires w.kern.ops[o].posted != [] && w.kern.ops[o].posted[0] >= 0
    ensures !j.stage.Running?
  {
    TookIt(w, o, j.fd);
    hide Sim, ExecOk, BlockedOk, WakersOk, AwaitingOk, RoundOk;
    assert FdOk(w.kern.fds[j.fd], j.fd, w.kern.ops);
    assert |w.kern.fds[j.fd].took| > 0;
  }

  lemma KeepsPoll<V>(jw: JWorld<V>, slot: nat, userData: nat)
    requires JInv(jw) && Sensible(jw.w.spec) && CanJ(jw, PollJoin(slot, userData))
    requires !CanPanic(jw.w, Io(PollIo(jw.j.h, jw.w.phase.task, Counter(jw.j.fd), slot, userData)))
    ensures var r := JStep(jw, PollJoin(slot, userData));
            && !r.Blocks? && (r.Panics? <==> FailedWait(jw)) && (r.Went? ==> JInv(r.to))
  {
    hide Inv, Sensible, Step, OnlyThrough, StageOk, ChanOk, CanAct, CanPanic, OnlyHandle, Agrees;
    var w, j := jw.w, jw.j;
    OwnPoll(w, j.h, w.phase.task, slot, userData, j.fd, Waiters(j));
    var a := PollIo(j.h, w.phase.task, Counter(j.fd), slot, userData);
    IoEffect(w, a);
    var w' := Step(w, Io(a)).value;
    SameStage(w, w', j, j);
    if w'.spec.handles[j.h].Owns? {
      InvHolders(w);
      InvHolders(w');
      KeepsWaiting(w, w', j);
    } else {
      InvOwner(w, j.h);
      var o := w.spec.handles[j.h].op;
      if w.spec.ops[o].results[0] >= 0 {
        ReadyMeansReturned(w, j, o);
        SameStage(w, w', j, j.(got := Some(j.stage.value), chan := []));
        ValueIsThere(j);
        assert [j.stage.value][1..] == [];
      }
    }
  }

  lemma KeepsWaiting<V>(w: World, w': World, j: JState<V>)
    requires WaiterOk(w, j) && Agrees(w) && Agrees(w') && j.alive && j.got.None?
    requires OnlyHandle(w.spec, w'.spec, j.h) && j.h in w'.spec.handles && w'.spec.handles[j.h].Owns?
    requires |w.kern.ops| <= |w'.kern.ops| && w.kern.ops == w'.kern.ops[..|w.kern.ops|]
    requires w'.kern.ops[w'.spec.handles[j.h].op].target == Counter(j.fd)
    requires w.spec.handles[j.h].Owns? ==> w'.spec.handles[j.h] == w.spec.handles[j.h]
    ensures WaiterOk(w', j)
  {
    assert forall o | 0 <= o < |w.kern.ops| :: w'.kern.ops[o] == w.kern.ops[o];
  }

  lemma InvOwner(w: World, h: nat)
    requires Inv(w) && h in w.spec.handles && w.spec.handles[h].Owns?
    ensures w.spec.handles[h].op < |w.spec.ops| == |w.kern.ops|
  {
    OwnedOps(w.code, w.kern, w.spec, w.link, h);
  }

  lemma SameStage<V>(w: World, w': World, j: JState<V>, j': JState<V>)
    requires StageOk(w, j) && j'.fd == j.fd && j'.child == j.child && j'.stage == j.stage
    requires w'.kern.fds == w.kern.fds && w'.phase == w.phase
    requires w'.hist.spawned == w.hist.spawned && w'.hist.finished == w.hist.finished
    ensures StageOk(w', j')
  {
  }

  /** Notify comes before send, but both are over before any joiner is polled again. */
  lemma ValueIsThere<V>(j: JState<V>)
    requires ChanOk(j) && !j.stage.Running? && !Leaving(j) && j.alive && j.got.None?
    ensures j.chan == [j.stage.value]
    ensures ChanOk(j.(got := Some(j.stage.value), chan := []))
  {
  }

  /** The joiner's waiter and receiver are dropped. */
  lemma DropsWaiter<V>(w: World, j: JState<V>, got: Option<V>)
    requires Inv(w) && Sensible(w.spec) && OnlyThrough(w.kern, w.spec, j.fd, Waiters(j)) && StageOk(w, j) && ChanOk(j)
    requires j.alive && !Leaving(j) && CanAct(w, Io(DropIo(j.h, true)))
    requires got == j.got || (j.stage.Over? && got == Some(j.stage.value))
    ensures var j' := j.(alive := false, chan := [], got := got);
            && Step(w, Io(DropIo(j.h, true))).Returned?
            && JInv(JWorld(Step(w, Io(DropIo(j.h, true))).value, j'))
  {
    hide Inv, Sensible, Step, CanAct, OnlyHandle, StageOk, OnlyThrough;
    assert j.h in w.spec.handles by { ThroughHandles(w.kern, w.spec, j.fd, Waiters(j)); }
    OwnDrop(w, j.h, j.fd, Waiters(j));
    IoEffect(w, DropIo(j.h, true));
    assert Waiters(j) - {j.h} == {};
    SameStage(w, Step(w, Io(DropIo(j.h, true))).value, j, j.(alive := false, chan := [], got := got));
  }

  lemma ThroughHandles(k: KState, s: SState, e: nat, hs: set<nat>)
    requires OnlyThrough(k, s, e, hs)
    ensures hs <= s.handles.Keys
  {
  }

  lemma KeepsDrop<V>(jw: JWorld<V>)
    requires JInv(jw) && Sensible(jw.w.spec) && CanJ(jw, DropJoin)
    ensures JStep(jw, DropJoin).Went? && JInv(JStep(jw, DropJoin).to)
  {
    hide Inv, Sensible, Step, CanAct, OnlyThrough, StageOk, ChanOk;
    DropsWaiter(jw.w, jw.j, jw.j.got);
  }

  lemma KeepsJoin<V>(jw: JWorld<V>)
    requires JInv(jw) && Sensible(jw.w.spec) && CanJ(jw, Join)
    ensures var r := JStep(jw, Join);
            if jw.j.stage.Over? then r.Went? && JInv(r.to) && r.to.j.got == Some(jw.j.stage.value) else r.Blocks?
  {
    hide Inv, Sensible, Step, CanAct, OnlyThrough, StageOk, ChanOk, WaiterOk;
    JoinIdle(jw.w, jw.j);
    if jw.j.stage.Over? {
      DropsWaiter(jw.w, jw.j, Some(jw.j.stage.value));
      assert [jw.j.stage.value][1..] == [];
    }
  }

  lemma JoinIdle<V>(w: World, j: JState<V>)
    requires StageOk(w, j) && ChanOk(j) && w.phase.Idle? && j.alive && j.got.None?
    ensures !Leaving(j) && j.chan == if j.stage.Over? then [j.stage.value] else []
  {
  }

  // ---------------------------------------------------------------- every act

  ghost predicate JCanPanic<V>(jw: JWorld<V>, a: JAct<V>) {
    match a
    case Other(act) => CanPanic(jw.w, act)
    case PollJoin(slot, userData) =>
      (jw.w.phase.Polling? && CanPanic(jw.w, Io(PollIo(jw.j.h, jw.w.phase.task, Counter(jw.j.fd), slot, userData))))
      || FailedWait(jw)
    case _ => false
  }

  lemma Panics<V>(jw: JWorld<V>, a: JAct<V>)
    requires JInv(jw) && Sensible(jw.w.spec) && CanJ(jw, a)
    requires match a
             case Other(act) => CanPanic(jw.w, act)
             case PollJoin(slot, userData) =>
               CanPanic(jw.w, Io(PollIo(jw.j.h, jw.w.phase.task, Counter(jw.j.fd), slot, userData)))
             case _ => false
    ensures JStep(jw, a).Panics?
  {
    hide Inv, Sensible, Step, CanAct, CanPanic;
    match a {
      case Other(act) => StepInv(jw.w, act);
      case PollJoin(slot, userData) =>
        StepInv(jw.w, Io(PollIo(jw.j.h, jw.w.phase.task, Counter(jw.j.fd), slot, userData)));
    }
  }

  /**
   Joining never blocks the thread. No act of the runtime, of the child or of an asynchronous
   joiner ever sleeps in the channel; only a synchronous `join` does, exactly if the child has not
   finished. The acts that panic are those that panic without a joiner and a poll whose read has failed.
   */
  lemma JoinNeverBlocks<V>(jw: JWorld<V>, a: JAct<V>)
    requires JInv(jw) && Sensible(jw.w.spec) && CanJ(jw, a)
    ensures JStep(jw, a).Blocks? <==> a.Join? && !jw.j.stage.Over?
    ensures JStep(jw, a).Panics? <==> JCanPanic(jw, a)
    ensures JStep(jw, a).Went? ==> JInv(JStep(jw, a).to)
  {
    hide JInv, Sensible, JStep, CanPanic, FailedWait;
    match a {
      case Other(act) => if CanPanic(jw.w, act) { Panics(jw, a); } else { KeepsOther(jw, act); }
      case Return(v) => KeepsReturn(jw, v);
      case Send => KeepsSend(jw);
      case End => KeepsEnd(jw);
      case PollJoin(slot, userData) =>
        if CanPanic(jw.w, Io(PollIo(jw.j.h, jw.w.phase.task, Counter(jw.j.fd), slot, userData))) {
          Panics(jw, a);
        } else {
          KeepsPoll(jw, slot, userData);
        }
      case Join => KeepsJoin(jw);
      case DropJoin => KeepsDrop(jw);
    }
  }

  // ---------------------------------------------------------------- runs

  ghost function JRun<V>(jw: JWorld<V>, acts: seq<JAct<V>>): JOutcome<V>
    requires Sensible(jw.w.spec)
    decreases |acts|
  {
    if acts == [] then Went(jw)
    else match JStep(jw, acts[0])
      case Went(to) => JRun(to, acts[1..])
      case r => r
  }

  ghost predicate CanJRun<V>(jw: JWorld<V>, acts: seq<JAct<V>>)
    requires Sensible(jw.w.spec)
    decreases |acts|
  {
    acts == [] || (CanJ(jw, acts[0]) && (JStep(jw, acts[0]).Went? ==> CanJRun(JStep(jw, acts[0]).to, acts[1..])))
  }

  ghost function Returns<V>(acts: seq<JAct<V>>): seq<V> {
    if acts == [] then [] else (if acts[0].Return? then [acts[0].value] else []) + Returns(acts[1..])
  }

  /** What the child's future has returned so far. */
  ghost function Result<V>(j: JState<V>): seq<V> {
    if j.stage.Running? then [] else [j.stage.value]
  }

  lemma ResultStep<V>(jw: JWorld<V>, a: JAct<V>)
    requires Sensible(jw.w.spec) && CanJ(jw, a) && JStep(jw, a).Went?
    ensures Result(JStep(jw, a).to.j) == Result(jw.j) + (if a.Return? then [a.value] else [])
  {
    hide Sensible, Step, CanAct, Avoids;
  }

  lemma GotResult<V>(jw: JWorld<V>)
    requires JInv(jw)
    ensures jw.j.got.Some? ==> Result(jw.j) == [jw.j.got.value]
  {
    hide Inv, OnlyThrough, StageOk, WaiterOk;
  }

  /** Whatever a joiner receives, in any run, is what the child's future returned, and it returned once. */
  lemma {:induction false} JoinerDelivers<V>(jw: JWorld<V>, acts: seq<JAct<V>>)
    requires JInv(jw) && Sensible(jw.w.spec) && CanJRun(jw, acts) && JRun(jw, acts).Went?
    ensures var jw' := JRun(jw, acts).to;
            && JInv(jw')
            && Result(jw'.j) == Result(jw.j) + Returns(acts)
            && (jw'.j.got.Some? ==> Result(jw.j) + Returns(acts) == [jw'.j.got.value])
    decreases |acts|
  {
    hide JInv, Sensible, JStep, CanJ, Result;
    if acts == [] {
      GotResult(jw);
      assert Result(jw.j) + [] == Result(jw.j);
    } else {
      JoinNeverBlocks(jw, acts[0]);
      ResultStep(jw, acts[0]);
      var mine := if acts[0].Return? then [acts[0].value] else [];
      assert Returns(acts) == mine + Returns(acts[1..]);
      assert Result(jw.j) + (mine + Returns(acts[1..])) == (Result(jw.j) + mine) + Returns(acts[1..]);
      hide Returns;
      JoinerDelivers(JStep(jw, acts[0]).to, acts[1..]);
    }
  }

  /** An act that ends the executor loop leaves the child finished. */
  lemma EndedByLoop<V>(jw: JWorld<V>, a: JAct<V>)
    requires JInv(jw) && Sensible(jw.w.spec) && CanJ(jw, a) && !jw.w.phase.Idle?
    requires JStep(jw, a).Went? && JStep(jw, a).to.w.phase.Idle?
    ensures JStep(jw, a).to.j.stage.Over?
  {
    hide JInv, Sensible, JStep, CanJ;
    if a.Other? {
      EndedByOther(jw, a);
    } else if a.End? {
      assert JStep(jw, a).to.j.stage.Over? by { EndIsOver(jw); }
    } else {
      SamePhase(jw, a);
    }
  }

  lemma EndIsOver<V>(jw: JWorld<V>)
    requires Sensible(jw.w.spec) && JStep(jw, End).Went?
    ensures JStep(jw, End).to.j.stage.Over?
  {
    hide Sensible, Step;
  }

  lemma EndedByOther<V>(jw: JWorld<V>, a: JAct<V>)
    requires JInv(jw) && Sensible(jw.w.spec) && CanJ(jw, a) && a.Other? && !jw.w.phase.Idle?
    requires JStep(jw, a).Went? && JStep(jw, a).to.w.phase.Idle?
    ensures JStep(jw, a).to.j.stage.Over?
  {
    hide Inv, JInv, Sensible, Step, CanAct, Avoids;
    JInvWorld(jw);
    LoopReturnsWhenAllFinished(jw.w, a.act);
    JoinNeverBlocks(jw, a);
    FinishedIsOver(JStep(jw, a).to);
  }

  lemma JInvWorld<V>(jw: JWorld<V>)
    requires JInv(jw)
    ensures Inv(jw.w)
  {
  }

  /** With no task left, the child is over. */
  lemma FinishedIsOver<V>(jw: JWorld<V>)
    requires JInv(jw) && jw.w.phase.Idle? && jw.w.hist.finished == jw.w.hist.spawned
    ensures jw.j.stage.Over?
  {
    hide Inv, OnlyThrough, ChanOk, WaiterOk;
  }

  lemma SamePhase<V>(jw: JWorld<V>, a: JAct<V>)
    requires Sensible(jw.w.spec) && JStep(jw, a).Went? && !a.Other? && !a.End?
    ensures JStep(jw, a).to.w.phase == jw.w.phase
  {
    hide Sensible, Step;
    match a {
      case Return(_) => IoEffect(jw.w, NotifyEvent(jw.j.fd));
      case PollJoin(slot, userData) => IoEffect(jw.w, PollIo(jw.j.h, jw.w.phase.task, Counter(jw.j.fd), slot, userData));
      case Join => IoEffect(jw.w, DropIo(jw.j.h, true));
      case DropJoin => IoEffect(jw.w, DropIo(jw.j.h, true));
      case _ =>
    }
  }

  /**
   `block_on`: spawn f, run the executor loop until it returns, join. However the run of the loop
   goes, if it returns then `join` does too, with the one value that f returned.
   */
  lemma BlockOn<V>(jw: JWorld<V>, acts: seq<JAct<V>>, last: JAct<V>) returns (v: V)
    requires JInv(jw) && Sensible(jw.w.spec) && jw.j.stage.Running?
    requires CanJRun(jw, acts) && JRun(jw, acts).Went? && Sensible(JRun(jw, acts).to.w.spec)
    requires var jw1 := JRun(jw, acts).to;
             && !jw1.w.phase.Idle? && CanJ(jw1, last) && JStep(jw1, last).Went?
             && var jw2 := JStep(jw1, last).to;
                jw2.w.phase.Idle? && CanJ(jw2, Join)
    ensures var jw2 := JStep(JRun(jw, acts).to, last).to;
            && JStep(jw2, Join).Went? && JStep(jw2, Join).to.j.got == Some(v)
            && Returns(acts + [last]) == [v]
  {
    hide Inv, Sensible, JInv, JStep, CanJ;
    JoinerDelivers(jw, acts);
    var jw1 := JRun(jw, acts).to;
    JoinNeverBlocks(jw1, last);
    EndedByLoop(jw1, last);
    ResultStep(jw1, last);
    ReturnsAppend(acts, last);
    var jw2 := JStep(jw1, last).to;
    KeepsJoin(jw2);
    v := jw2.j.stage.value;
  }

  lemma {:induction false} ReturnsAppend<V>(acts: seq<JAct<V>>, last: JAct<V>)
    ensures Returns(acts + [last]) == Returns(acts) + (if last.Return? then [last.value] else [])
  {
    var more := acts + [last];
    if acts == [] {
      assert more == [last] && more[1..] == [];
    } else {
      assert more[1..] == acts[1..] + [last] && more[0] == acts[0];
      var mine := if acts[0].Return? then [acts[0].value] else [];
      assert Returns(more) == mine + Returns(more[1..]) && Returns(acts) == mine + Returns(acts[1..]);
      hide Returns;
      ReturnsAppend(acts[1..], last);
    }
  }

  /**
   Nobody joins in vain: once the child has finished, the kernel can complete the waiter's read
   if it is still in flight.
   */
  lemma JoinProgress<V>(jw: JWorld<V>, o: nat)
    requires JInv(jw) && jw.j.stage.Over? && jw.j.alive && jw.j.got.None?
    requires jw.j.h in jw.w.spec.handles && jw.w.spec.handles[jw.j.h] == Owns(o)
    requires o < |jw.w.kern.ops| && jw.w.kern.ops[o].live
    ensures CanPost(jw.w.kern, o, 8, false)
  {
    InvHolders(jw.w);
    hide OnlyThrough, Sim, ExecOk, BlockedOk, WakersOk, AwaitingOk, RoundOk;
    var fd := jw.w.kern.fds[jw.j.fd];
    assert FdOk(fd, jw.j.fd, jw.w.kern.ops);
    assert fd.took == {};
  }
}
