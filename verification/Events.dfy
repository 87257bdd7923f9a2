/** Eventfds in semaphore mode: what is sent is counted, taken or still there. */
module Events {
  import opened Wrappers
  import opened Reactor
  import opened Kernel
  import opened Spec
  import opened Simulation

  /** A read that has completed successfully. */
  ghost predicate Won(op: KernelOp) {
    op.posted != [] && op.posted[0] >= 0
  }

  ghost predicate FdOk(e: EventFd, fd: nat, ops: seq<KernelOp>) {
    && e.sent == e.count + |e.took| + e.foreign
    && (forall o | o in e.took :: o < |ops|)
    && (forall o | 0 <= o < |ops| :: o in e.took <==> ops[o].target == Counter(fd) && Won(ops[o]))
  }

  /** Every notification is in the counter, with a completed read or with another thread. */
  ghost predicate FdsOk(k: KState) {
    && (forall fd | fd in k.fds :: FdOk(k.fds[fd], fd, k.ops))
    && (forall o | 0 <= o < |k.ops| && k.ops[o].target.Counter? :: k.ops[o].kind.Oneshot? && k.ops[o].target.fd in k.fds)
    && (forall o | 0 <= o < |k.ops| && k.ops[o].kind.Oneshot? ::
          |k.ops[o].posted| <= 1 && (k.ops[o].live <==> k.ops[o].posted == []))
  }

  lemma PostFd(k: KState, o: nat, res: int, more: bool, fd: nat)
    requires CanPost(k, o, res, more) && fd in k.fds && FdOk(k.fds[fd], fd, k.ops)
    requires k.ops[o].target.Counter? ==> k.ops[o].posted == []
    ensures FdOk(Post(k, o, res, more).fds[fd], fd, Post(k, o, res, more).ops)
  {
    assert k.ops[o].target == Counter(fd) ==> o !in k.fds[fd].took;
  }

  lemma PostFds(k: KState, o: nat, res: int, more: bool)
    requires FdsOk(k) && CanPost(k, o, res, more)
    ensures FdsOk(Post(k, o, res, more))
  {
    forall fd | fd in k.fds
      ensures FdOk(Post(k, o, res, more).fds[fd], fd, Post(k, o, res, more).ops)
    {
      PostFd(k, o, res, more, fd);
    }
    hide FdOk;
  }

  lemma AcceptFds(k: KState, kind: IoKind, target: Target, userData: nat)
    requires FdsOk(k) && (target.Counter? ==> kind.Oneshot? && target.fd in k.fds)
    ensures FdsOk(Accept(k, kind, target, userData))
  {
    forall fd | fd in k.fds
      ensures FdOk(k.fds[fd], fd, Accept(k, kind, target, userData).ops)
    {
      assert FdOk(k.fds[fd], fd, k.ops);
    }
    hide FdOk;
  }

  /** The law holds through every act of the reactor, the kernel and other threads. */
  lemma StepFds(c: Code, k: KState, a: RAct)
    requires FdsOk(k) && Enabled(c, k, a)
    ensures FdsOk(KernelStep(k, a, CodeSubmits(c, a)))
  {
    match a {
      case PollIo(h, _, target, _, userData) =>
        if CodeSubmits(c, a).Some? {
          hide FdsOk;
          AcceptFds(k, KindOf(c.ios[h]), target, userData);
        }
      case PostCqe(o, res, more) =>
        hide FdsOk;
        PostFds(k, o, res, more);
      case OpenEvent(fd) =>
        assert FdOk(EventFd(0, 0, 0, {}), fd, k.ops);
      case NotifyEvent(fd) =>
        assert FdOk(k.fds[fd], fd, k.ops);
      case TakeEvent(fd) =>
        assert FdOk(k.fds[fd], fd, k.ops);
      case _ =>
    }
  }

  // ---------------------------------------------------------------- waits and notifications

  /** The reads of an eventfd that have been submitted. */
  ghost function Waits(k: KState, fd: nat): set<nat> {
    set o | 0 <= o < |k.ops| && k.ops[o].target == Counter(fd)
  }

  /** The waits whose handle has been given a success. */
  ghost function Satisfied(k: KState, s: SState, fd: nat): set<nat>
    requires |k.ops| == |s.ops|
  {
    set o | 0 <= o < |k.ops| && k.ops[o].target == Counter(fd) && s.ops[o].taken != []
            && s.ops[o].results != [] && s.ops[o].results[0] >= 0
  }

  lemma {:induction false} SubsetSize(a: set<nat>, b: set<nat>)
    requires a <= b
    ensures |a| <= |b|
  {
    if a != {} {
      var x :| x in a;
      SubsetSize(a - {x}, b - {x});
    }
  }

  /** Successful waits never exceed notifications, nor what the kernel's reads have taken. */
  lemma WaitsNeverExceedNotifications(c: Code, k: KState, s: SState, l: Link, fd: nat)
    requires Sim(c, k, s, l) && FdsOk(k) && fd in k.fds
    ensures |Satisfied(k, s, fd)| <= |k.fds[fd].took| <= k.fds[fd].sent
  {
    hide PendingOk, OneshotsOk, MultishotsOk, HandlesOk, CqOk, OpsOk;
    assert FdOk(k.fds[fd], fd, k.ops);
    forall o | o in Satisfied(k, s, fd)
      ensures o in k.fds[fd].took
    {
      assert PostedOk(k.ops[o], s.ops[o], k.cq, o);
    }
    SubsetSize(Satisfied(k, s, fd), k.fds[fd].took);
  }

  /** The kernel has no read of this eventfd left that it could complete. */
  ghost predicate Settled(k: KState, fd: nat)
    requires fd in k.fds
  {
    k.fds[fd].count == 0 || forall o | o in Waits(k, fd) :: !k.ops[o].live
  }

  /** The waits whose read has failed. */
  ghost function FailedWaits(k: KState, fd: nat): set<nat> {
    set o | 0 <= o < |k.ops| && k.ops[o].target == Counter(fd) && k.ops[o].posted != [] && k.ops[o].posted[0] < 0
  }

  /**
   N notifications suffice for N waits, even if all were sent first. Once the kernel has settled,
   the reads that took a unit are as many as the notifications that other threads left over, or as
   the waits that did not fail, whichever is less; and if the notifications are enough, those
   waits have all completed.
   */
  lemma NotificationsSuffice(k: KState, fd: nat)
    requires FdsOk(k) && fd in k.fds && Settled(k, fd)
    ensures var units := k.fds[fd].sent - k.fds[fd].foreign;
            var waits := Waits(k, fd) - FailedWaits(k, fd);
            && units >= 0 && |k.fds[fd].took| == (if units <= |waits| then units else |waits|)
            && (units >= |waits| ==> k.fds[fd].took == waits)
  {
    assert FdOk(k.fds[fd], fd, k.ops);
    var took, waits := k.fds[fd].took, Waits(k, fd) - FailedWaits(k, fd);
    SubsetSize(took, waits);
    if k.fds[fd].count != 0 {
      assert took == waits;
    } else if |took| == |waits| {
      SameSizeSubset(took, waits);
    }
  }

  lemma {:induction false} SameSizeSubset(a: set<nat>, b: set<nat>)
    requires a <= b && |a| == |b|
    ensures a == b
  {
    if a != {} {
      var x :| x in a;
      SameSizeSubset(a - {x}, b - {x});
    }
  }
}
