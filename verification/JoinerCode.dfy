/**
 Spawned tasks and their joiners in the form of their source: objects on top of an event and a
 channel. Every method is tied to acts of the machine in `Joiner`. A channel tells when the thread
 would sleep in it; that it does not is up to the joiner's invariant.
 */
module JoinerCode {
  import opened Wrappers
  import opened Slabs
  import opened Reactor
  import opened ReactorCode
  import opened EventCode
  import opened Kernel
  import opened Spec
  import opened Simulation
  import opened Events
  import opened World
  import opened WorldProofs
  import opened PrivateEvent
  import opened Joiner
  import opened JoinerTheorems

  /** What `rx.recv()` comes to; `Sleeps` if it does not return. */
  datatype Received<V> = Got(value: V) | Disconnected | Sleeps

  /** `sync_channel(1)`: both ends of it. */
  class Channel<V> {
    var buffer: seq<V>
    var sending: bool
    var receiving: bool

    constructor ()
      ensures buffer == [] && sending && receiving
    {
      buffer, sending, receiving := [], true, true;
    }

    /**
     `tx.send(value)`: what was sent comes out last, unless nobody listens; a full channel puts the
     thread to sleep.
     */
    method Send(value: V) returns (sleeps: bool)
      modifies this`buffer
      ensures sleeps <==> receiving && old(buffer) != []
      ensures buffer == if receiving && !sleeps then old(buffer) + [value] else old(buffer)
    {
      sleeps := receiving && |buffer| >= CHANNEL_CAPACITY;
      if receiving && !sleeps {
        buffer := buffer + [value];
      }
    }

    /** `rx.recv()`: the oldest value; an empty channel puts the thread to sleep while the sender lives. */
    method Recv() returns (r: Received<V>)
      modifies this`buffer
      ensures r.Got? <==> old(buffer) != []
      ensures r.Got? ==> [r.value] + buffer == old(buffer)
      ensures !r.Got? ==> buffer == []
      ensures r.Sleeps? <==> old(buffer) == [] && sending
    {
      if buffer != [] {
        r := Got(buffer[0]);
        buffer := buffer[1..];
      } else {
        r := if sending then Sleeps else Disconnected;
      }
    }
  }

  /** The joiner may be polled by the running task. */
  ghost predicate MayPoll<V>(jw: JWorld<V>) {
    && jw.j.alive && jw.j.got.None? && !Leaving(jw.j) && jw.w.phase.Polling?
    && jw.j.h in jw.w.code.ios
    && (jw.j.h in jw.w.spec.handles && jw.w.spec.handles[jw.j.h].Owns?
        && jw.w.spec.handles[jw.j.h].op < |jw.w.spec.ops| ==>
          jw.w.spec.ops[jw.w.spec.handles[jw.j.h].op].obj == jw.w.phase.task)
  }

  /** The code of a poll of the joiner is what the machine does. */
  lemma JoinPollCode<V>(jw: JWorld<V>, io: OneshotIo, slot: nat, userData: nat)
    requires JInv(jw) && MayPoll(jw) && jw.w.code.ios[jw.j.h] == One(io)
    requires io.NewOne? ==> userData !in jw.w.code.ring.pending && slot !in jw.w.code.ring.oneshot
    requires io.NewOne? ==> jw.w.code.ring.queued < 1024
    ensures Sensible(jw.w.spec) && CanJ(jw, PollJoin(slot, userData))
    ensures var next := SubmitOrGetOneshot(io, jw.w.code.ring, jw.w.phase.task, slot, userData);
            var r := JStep(jw, PollJoin(slot, userData));
            && next.Returned?
            && var (io', ring') := next.value;
               && (r.Panics? <==> io'.FinishedOne? && io'.value < 0) && !r.Blocks?
               && (io'.FinishedOne? && io'.value >= 0 ==> jw.j.chan != [])
               && (r.Went? ==>
                     && JInv(r.to) && r.to.w.code.ring == ring'
                     && r.to.w.kern == (if io.NewOne? then Accept(jw.w.kern, Oneshot, Counter(jw.j.fd), userData)
                                        else jw.w.kern)
                     && jw.j.h in r.to.w.code.ios && r.to.w.code.ios[jw.j.h] == One(io')
                     && r.to.j == if io'.FinishedOne? then jw.j.(got := Some(jw.j.chan[0]), chan := jw.j.chan[1..])
                                  else jw.j)
  {
    hide Inv, JInv, Sensible, Step, SubmitOrGetOneshot;
    JInvParts(jw);
    var act := Io(PollIo(jw.j.h, jw.w.phase.task, Counter(jw.j.fd), slot, userData));
    assert CanAct(jw.w, act) && !CanPanic(jw.w, act);
    hide CanAct, CanPanic;
    StepInv(jw.w, act);
    JoinNeverBlocks(jw, PollJoin(slot, userData));
    PollCode(jw.w, jw.j.h, io, jw.w.phase.task, jw.j.fd, slot, userData);
    if jw.j.stage.Over? {
      ValueWhenOver(jw);
    }
  }

  lemma ValueWhenOver<V>(jw: JWorld<V>)
    requires JInv(jw) && jw.j.alive && jw.j.got.None? && jw.j.stage.Over?
    ensures jw.j.chan == [jw.j.stage.value]
  {
    hide Inv, OnlyThrough, StageOk, WaiterOk;
  }

  lemma JInvParts<V>(jw: JWorld<V>)
    requires JInv(jw)
    ensures Inv(jw.w) && Sensible(jw.w.spec) && jw.j.fd in jw.w.kern.fds
  {
    InvSensible(jw.w);
    hide Inv, Sensible, OnlyThrough;
  }

  class TaskJoiner<V> {
    const rx: Channel<V>
    const evt: Event
    const finished: EventWaiter

    /** The joiner, the ring and the kernel are those of the machine in state jw. */
    ghost predicate Models(jw: JWorld<V>)
      reads this, rx, finished, finished.io, evt.sys, evt.sys.ring, evt.sys.ring.Repr, evt.sys.ring.pending,
            evt.sys.ring.oneshot.slots, evt.sys.ring.multishot.slots
    {
      && finished.sys == evt.sys && finished.fd == evt.fd == jw.j.fd && finished.Valid()
      && {this, rx, evt} !! evt.sys.ring.Repr
      && rx.buffer == jw.j.chan && (rx.sending <==> !jw.j.stage.Over?) && (rx.receiving <==> jw.j.alive)
      && evt.sys.kern == jw.w.kern && evt.sys.ring.Model() == jw.w.code.ring
      && (jw.j.alive ==> jw.j.h in jw.w.code.ios && jw.w.code.ios[jw.j.h] == One(finished.io.state))
    }

    constructor (rx: Channel<V>, evt: Event, finished: EventWaiter)
      ensures this.rx == rx && this.evt == evt && this.finished == finished
    {
      this.rx, this.evt, this.finished := rx, evt, finished;
    }

    /** What `spawn` returns: the receiving end of a new channel and a waiter on a new event. */
    static method Spawn(sys: System, fd: nat, ghost w: World, ghost child: nat, ghost h: nat)
      returns (joiner: TaskJoiner<V>, ghost jw: JWorld<V>)
      requires sys.Valid() && Inv(w) && !w.phase.Top? && w.kern == sys.kern && w.code.ring == sys.ring.Model()
      requires fd !in w.kern.fds && child !in w.hist.spawned && h !in w.code.ios
      modifies sys`kern
      ensures fresh(joiner) && fresh(joiner.rx) && fresh(joiner.finished.io) && joiner.evt.sys == sys
      ensures joiner.Models(jw) && JInv(jw) && jw.j == JState(child, fd, h, Running, [], None, true)
      ensures sys.kern.fds == old(sys.kern.fds)[fd := EventFd(0, 0, 0, {})] && sys.kern.ops == old(sys.kern.ops)
    {
      hide Inv, JInv, Sensible, Step, WellFormed, Occupants;
      InvSensible(w);
      jw := SpawnJoiner(w, fd, child, h);
      SpawnCode(w, fd, child, h);
      var rx := new Channel<V>();
      var evt := new Event(sys, fd);
      var finished := evt.Wait();
      joiner := new TaskJoiner<V>(rx, evt, finished);
    }

    /** `poll`: the waiter, and when that is ready the value, without a wait. */
    method Poll(ghost jw: JWorld<V>, task: nat) returns (r: Outcome<Poll<V>>, ghost a: JAct<V>)
      requires Models(jw) && JInv(jw) && MayPoll(jw) && jw.w.phase.task == task
      requires finished.io.state.NewOne? ==> evt.sys.ring.queued < 1024
      modifies rx, evt.sys`kern, finished.io, evt.sys.ring.Repr
      ensures Sensible(jw.w.spec) && a.PollJoin? && CanJ(jw, a)
      ensures r.Panicked? <==> JStep(jw, a).Panics?
      ensures r.Returned? ==>
                && JStep(jw, a).Went?
                && var jw' := JStep(jw, a).to;
                   && Models(jw') && JInv(jw')
                   && jw'.j.got == if r.value.Ready? then Some(r.value.value) else None
    {
      hide Inv, JInv, Sensible, JStep, CanJ, SubmitOrGetOneshot, WellFormed, Occupants;
      CanPollJoiner(jw, finished.io.state);
      ghost var io := finished.io.state;
      var poll, slot, userData := finished.Poll(task);
      JoinPollCode(jw, io, slot, userData);
      a := PollJoin(slot, userData);
      match poll {
        case Pending => r := Returned(Pending);
        case Ready(v) =>
          if v < 0 {
            r := Panicked;
          } else {
            var received := rx.Recv();
            r := if received.Got? then Returned(Ready(received.value)) else Panicked;
          }
      }
    }

    /**
     `join`, from outside the executor: the value, after which the waiter is dropped with the
     joiner, or `None` if the thread goes to sleep, exactly if the child has not finished.
     */
    method Join(ghost jw: JWorld<V>) returns (v: Option<V>)
      requires Models(jw) && JInv(jw) && jw.j.alive && jw.j.got.None? && jw.w.phase.Idle?
      modifies rx, evt.sys.ring.Repr
      ensures Sensible(jw.w.spec) && CanJ(jw, JAct.Join)
      ensures v.None? <==> !jw.j.stage.Over?
      ensures v.None? ==> JStep(jw, JAct.Join).Blocks? && Models(jw)
      ensures v.Some? ==>
                && JStep(jw, JAct.Join).Went?
                && var jw' := JStep(jw, JAct.Join).to;
                   Models(jw') && JInv(jw') && jw'.j.got == v && v.value == jw.j.stage.value
    {
      hide Inv, JInv, Sensible, JStep, CanJ, DropOneshotIo, WellFormed, Occupants;
      JoinCode(jw, finished.io.state);
      var received := rx.Recv();
      if received.Got? {
        assert ([received.value] + rx.buffer)[0] == received.value;
        v := Some(received.value);
        finished.io.Drop();
        rx.receiving := false;
      } else {
        v := None;
      }
    }
  }

  /** What `spawn` puts around the future: notify, then send, with nothing of this thread in between. */
  class Wrapper<V> {
    const joiner: TaskJoiner<V>

    constructor (joiner: TaskJoiner<V>)
      ensures this.joiner == joiner
    {
      this.joiner := joiner;
    }

    method NotifyAndSend(value: V, ghost jw: JWorld<V>) returns (sleeps: bool)
      requires joiner.Models(jw) && JInv(jw) && Sensible(jw.w.spec) && CanJ(jw, Return(value))
      modifies joiner.evt.sys`kern, joiner.rx
      ensures !sleeps && JStep(jw, Return(value)).Went?
      ensures var jw1 := JStep(jw, Return(value)).to;
              && CanJ(jw1, JAct.Send) && JStep(jw1, JAct.Send).Went?
              && var jw2 := JStep(jw1, JAct.Send).to;
                 joiner.Models(jw2) && JInv(jw2) && jw2.j.stage == Sent(value)
    {
      hide Inv, JInv, Sensible, JStep, CanJ, FdsOk, CanPost, WellFormed, Occupants;
      SendCode(jw, value);
      joiner.evt.NotifyOne();
      sleeps := joiner.rx.Send(value);
    }
  }

  /** The two acts of the wrapper. */
  lemma SendCode<V>(jw: JWorld<V>, value: V)
    requires JInv(jw) && Sensible(jw.w.spec) && CanJ(jw, Return(value))
    ensures jw.j.fd in jw.w.kern.fds && JStep(jw, Return(value)).Went?
    ensures var jw1 := JStep(jw, Return(value)).to;
            && CanJ(jw1, JAct.Send) && JStep(jw1, JAct.Send).Went?
            && var jw2 := JStep(jw1, JAct.Send).to;
               && JInv(jw2) && jw2.j.stage == Sent(value) && jw2.j.h == jw.j.h && jw2.j.fd == jw.j.fd
               && jw2.j.alive == jw.j.alive && !jw.j.stage.Over?
               && (jw.j.alive ==> jw.j.chan == [])
               && jw2.j.chan == (if jw.j.alive then jw.j.chan + [value] else jw.j.chan)
               && jw2.w.kern == Notify(jw.w.kern, jw.j.fd) && jw2.w.code == jw.w.code
  {
    hide Inv, JInv, Sensible, Step, CanAct;
    JInvParts(jw);
    KeepsReturn(jw, value);
    ReturnCode(jw.w, jw.j.fd);
    KeepsSend(JStep(jw, Return(value)).to);
  }

  lemma ReturnCode(w: World, fd: nat)
    requires Sensible(w.spec) && Step(w, Io(NotifyEvent(fd))).Returned? && fd in w.kern.fds
    ensures var w' := Step(w, Io(NotifyEvent(fd))).value; w'.kern == Notify(w.kern, fd) && w'.code == w.code
  {
    hide Sensible;
  }

  /** A synchronous join. */
  lemma JoinCode<V>(jw: JWorld<V>, io: OneshotIo)
    requires JInv(jw) && jw.j.alive && jw.j.got.None? && jw.w.phase.Idle?
    requires jw.j.h in jw.w.code.ios && jw.w.code.ios[jw.j.h] == One(io)
    ensures Sensible(jw.w.spec) && CanJ(jw, JAct.Join)
    ensures jw.j.chan == if jw.j.stage.Over? then [jw.j.stage.value] else []
    ensures !jw.j.stage.Over? ==> JStep(jw, JAct.Join).Blocks?
    ensures jw.j.stage.Over? ==>
              && JStep(jw, JAct.Join).Went? && DropOneshotIo(io, jw.w.code.ring).Returned?
              && var jw' := JStep(jw, JAct.Join).to;
                 && JInv(jw') && jw'.j == jw.j.(alive := false, chan := [], got := Some(jw.j.stage.value))
                 && jw'.w.kern == jw.w.kern && jw'.w.code.ring == DropOneshotIo(io, jw.w.code.ring).value
  {
    hide Inv, JInv, Sensible, Step, CanAct, DropOneshotIo, JCanPanic;
    JInvParts(jw);
    JoinValue(jw);
    CanDropNow(jw.w, jw.j.h);
    JoinNeverBlocks(jw, JAct.Join);
    if jw.j.stage.Over? {
      assert [jw.j.stage.value][1..] == [];
      KeepsJoin(jw);
      DropAnyCode(jw.w, jw.j.h, io);
    }
  }

  lemma CanDropNow(w: World, h: nat)
    requires h in w.code.ios && w.phase.Idle?
    ensures CanAct(w, Io(DropIo(h, true)))
  {
  }

  lemma JoinValue<V>(jw: JWorld<V>)
    requires JInv(jw) && jw.j.alive && jw.j.got.None? && jw.w.phase.Idle?
    ensures jw.j.chan == if jw.j.stage.Over? then [jw.j.stage.value] else []
  {
    hide Inv, OnlyThrough, StageOk, ChanOk, WaiterOk;
    JoinIdle(jw.w, jw.j);
  }

  lemma DropAnyCode(w: World, h: nat, io: OneshotIo)
    requires Sensible(w.spec) && h in w.code.ios && w.code.ios[h] == One(io)
    requires Step(w, Io(DropIo(h, true))).Returned?
    ensures DropOneshotIo(io, w.code.ring).Returned?
    ensures var w' := Step(w, Io(DropIo(h, true))).value;
            w'.code.ring == DropOneshotIo(io, w.code.ring).value && w'.kern == w.kern
  {
    hide Sensible, SpecStep, DropOneshotIo;
  }

  lemma SpawnCode(w: World, fd: nat, child: nat, h: nat)
    requires Sensible(w.spec) && Step(w, Io(OpenEvent(fd))).Returned?
    ensures var w1 := Step(w, Io(OpenEvent(fd))).value;
            && Step(w1, Spawn(child)).Returned?
            && var w2 := Step(w1, Spawn(child)).value;
               && Step(w2, Io(NewIo(h, Oneshot))).Returned?
               && var w3 := Step(w2, Io(NewIo(h, Oneshot))).value;
                  w3.kern == OpenFd(w.kern, fd) && w3.code == w.code.(ios := w.code.ios[h := One(NewOne)])
  {
    hide Sensible;
  }

  lemma CanPollJoiner<V>(jw: JWorld<V>, io: OneshotIo)
    requires JInv(jw) && jw.j.alive && jw.j.h in jw.w.code.ios && jw.w.code.ios[jw.j.h] == One(io)
    ensures io.SubmittedOne? ==> GetResult(jw.w.code.ring.oneshot, io.slot).Returned?
  {
    hide FdsOk, ExecOk, WakersOk, BlockedOk, AwaitingOk, RoundOk, PendingOk, MultishotsOk, KernelOk, StageOk, ChanOk,
         WaiterOk;
    assert IoOk(jw.w.code.ios[jw.j.h], jw.j.h, jw.w.spec.handles[jw.j.h], jw.w.kern.ops, jw.w.spec.ops, jw.w.link);
  }
}
