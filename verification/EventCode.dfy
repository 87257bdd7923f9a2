/** Events and waiters in the form of their source: objects that share a ring and a kernel. */
module EventCode {
  import opened Wrappers
  import opened Slabs
  import opened Reactor
  import opened ReactorCode
  import opened Kernel
  import opened Spec
  import opened Simulation
  import opened Events
  import opened World

  /** What polling handle h with state io does to ring and kernel. */
  lemma PollCode(w: World, h: nat, io: OneshotIo, task: nat, fd: nat, slot: nat, userData: nat)
    requires Sensible(w.spec) && h in w.code.ios && w.code.ios[h] == One(io)
    requires Step(w, Io(PollIo(h, task, Counter(fd), slot, userData))).Returned?
    ensures var w' := Step(w, Io(PollIo(h, task, Counter(fd), slot, userData))).value;
            var next := SubmitOrGetOneshot(io, w.code.ring, task, slot, userData);
            && next.Returned? && w'.code == Code(next.value.1, w.code.ios[h := One(next.value.0)])
            && w'.kern == if io.NewOne? then Accept(w.kern, Oneshot, Counter(fd), userData) else w.kern
  {
    hide Sensible, SpecStep, SubmitOrGetOneshot;
  }

  /** The accounting of all eventfds survives a notification. */
  lemma NotifyKeeps(k: KState, fd: nat)
    requires fd in k.fds
    ensures FdsOk(k) ==> FdsOk(Notify(k, fd))
  {
    assert FdsOk(k) ==> FdOk(k.fds[fd], fd, k.ops);
  }

  /** What the objects of one thread share: the reactor's ring and, behind it, the kernel. */
  class System {
    const ring: ReactorInner
    var kern: KState

    ghost predicate Valid()
      reads ring, ring.Repr, ring.pending, ring.oneshot.slots, ring.multishot.slots
    {
      ring.Valid() && this !in ring.Repr
    }

    constructor ()
      ensures Valid() && fresh(ring) && fresh(ring.Repr) && ring.Model() == EmptyRing && kern == Boot
    {
      ring := new ReactorInner();
      kern := Boot;
    }
  }

  class Event {
    const sys: System
    const fd: nat

    /** `eventfd(0, ..)`, with the number that the kernel chose. */
    constructor (sys: System, fd: nat)
      requires fd !in sys.kern.fds
      modifies sys`kern
      ensures this.sys == sys && this.fd == fd && sys.kern == OpenFd(old(sys.kern), fd)
    {
      this.sys, this.fd := sys, fd;
      new;
      sys.kern := OpenFd(sys.kern, fd);
    }

    /**
     The eventfd's counter grows by one and nothing else happens to the kernel. No notification is
     lost: every read of this event in flight can now succeed, and so can any that comes later
     while the unit is there.
     */
    method NotifyOne()
      requires fd in sys.kern.fds
      modifies sys`kern
      ensures sys.kern.ops == old(sys.kern.ops) && sys.kern.cq == old(sys.kern.cq)
      ensures sys.kern.fds.Keys == old(sys.kern.fds).Keys
      ensures forall e | e in sys.kern.fds && e != fd :: sys.kern.fds[e] == old(sys.kern.fds)[e]
      ensures var was := old(sys.kern.fds)[fd];
              sys.kern.fds[fd] == EventFd(was.count + 1, was.sent + 1, was.foreign, was.took)
      ensures FdsOk(old(sys.kern)) ==> FdsOk(sys.kern)
      ensures forall o: nat | o < |sys.kern.ops| && sys.kern.ops[o].live && sys.kern.ops[o].target == Counter(fd) ::
                CanPost(sys.kern, o, 8, false)
      ensures sys.kern == Notify(old(sys.kern), fd)
    {
      NotifyKeeps(sys.kern, fd);
      sys.kern := Notify(sys.kern, fd);
    }

    method Wait() returns (waiter: EventWaiter)
      ensures fresh(waiter) && fresh(waiter.io) && waiter.sys == sys && waiter.fd == fd
      ensures waiter.io.ring == sys.ring && waiter.io.state == NewOne
    {
      waiter := new EventWaiter(sys, fd);
    }
  }

  class EventWaiter {
    const sys: System
    const fd: nat
    const io: OneshotUringIo

    constructor (sys: System, fd: nat)
      ensures this.sys == sys && this.fd == fd
      ensures fresh(io) && io.ring == sys.ring && io.state == NewOne
    {
      this.sys, this.fd := sys, fd;
      io := new OneshotUringIo(sys.ring);
    }

    /** The waiter is a handle of its own. */
    ghost predicate Valid()
      reads sys, sys.ring, sys.ring.Repr, sys.ring.pending, sys.ring.oneshot.slots, sys.ring.multishot.slots
    {
      sys.Valid() && io.ring == sys.ring && io !in sys.ring.Repr
    }

    /** `poll`: the entry that is submitted reads the eventfd. */
    method Poll(task: nat) returns (poll: Poll<int>, slot: nat, userData: nat)
      requires Valid()
      requires io.state.NewOne? ==> sys.ring.queued < 1024
      requires io.state.SubmittedOne? ==> GetResult(sys.ring.Model().oneshot, io.state.slot).Returned?
      modifies sys`kern, io, sys.ring.Repr
      ensures Valid()
      ensures old(io.state).NewOne? ==>
                userData !in old(sys.ring.Model().pending) && slot !in old(sys.ring.Model().oneshot)
      ensures Returned((io.state, sys.ring.Model()))
              == SubmitOrGetOneshot(old(io.state), old(sys.ring.Model()), task, slot, userData)
      ensures sys.kern == if old(io.state).NewOne? then Accept(old(sys.kern), Oneshot, Counter(fd), userData)
                          else old(sys.kern)
      ensures poll == OneshotPoll(io.state)
    {
      var submits := io.state.NewOne?;
      poll, slot, userData := io.SubmitOrGetResult(task);
      if submits {
        sys.kern := Accept(sys.kern, Oneshot, Counter(fd), userData);
      }
    }
  }
}
