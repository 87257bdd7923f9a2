/**
 An eventfd that only its owner notifies and reads, through handles of its own, is left alone
 by everything else that happens in the runtime.
 */
module PrivateEvent {
  import opened Wrappers
  import opened Reactor
  import opened Kernel
  import opened Spec
  import opened Simulation
  import opened Events
  import opened World
  import opened WorldProofs

  /** The act has nothing to do with eventfd e and the handles hs. */
  ghost predicate Avoids(act: Act, e: nat, hs: set<nat>) {
    act.Io? ==>
      match act.a
      case NewIo(h, _) => h !in hs
      case PollIo(h, _, target, _, _) => h !in hs && target != Counter(e)
      case DropIo(h, _) => h !in hs
      case OpenEvent(fd) => fd != e
      case NotifyEvent(fd) => fd != e
      case TakeEvent(fd) => fd != e
      case _ => true
  }

  /** The handles hs exist, and every read of e that still has a handle has one of them. */
  ghost predicate OnlyThrough(k: KState, s: SState, e: nat, hs: set<nat>) {
    && |k.ops| == |s.ops| && e in k.fds && hs <= s.handles.Keys
    && forall o | 0 <= o < |k.ops| && k.ops[o].target == Counter(e) && s.ops[o].holder.Some? ::
         s.ops[o].holder.value in hs
  }

  /** Nothing has changed for e and hs, but that the kernel may have completed more reads. */
  ghost predicate Untouched(k: KState, s: SState, k': KState, s': SState, e: nat, hs: set<nat>) {
    && |s.ops| == |k.ops| <= |k'.ops| == |s'.ops| && e in k.fds && e in k'.fds
    && k'.fds[e].sent == k.fds[e].sent && k'.fds[e].foreign == k.fds[e].foreign && k.fds[e].took <= k'.fds[e].took
    && (forall h | h in hs :: h in s.handles && h in s'.handles && s'.handles[h] == s.handles[h])
    && (forall o | 0 <= o < |k.ops| ::
          k'.ops[o].target == k.ops[o].target
          && (k.ops[o].target == Counter(e) ==> s'.ops[o].holder == s.ops[o].holder))
    && (forall o | |k.ops| <= o < |k'.ops| :: k'.ops[o].target != Counter(e))
  }

  lemma UntouchedKeeps(k: KState, s: SState, k': KState, s': SState, e: nat, hs: set<nat>)
    requires OnlyThrough(k, s, e, hs) && Untouched(k, s, k', s', e, hs)
    ensures OnlyThrough(k', s', e, hs)
  {
  }

  lemma KernelAvoids(k: KState, a: RAct, submits: Option<IoKind>, e: nat, hs: set<nat>)
    requires Avoids(Io(a), e, hs) && e in k.fds
    ensures var k' := KernelStep(k, a, submits);
            && |k.ops| <= |k'.ops| && e in k'.fds
            && k'.fds[e].sent == k.fds[e].sent && k'.fds[e].foreign == k.fds[e].foreign && k.fds[e].took <= k'.fds[e].took
            && (forall o | 0 <= o < |k.ops| :: k'.ops[o].target == k.ops[o].target)
            && (forall o | |k.ops| <= o < |k'.ops| :: k'.ops[o].target != Counter(e))
  {
  }

  lemma SpecAvoids(k: KState, s: SState, a: RAct, e: nat, hs: set<nat>)
    requires Sensible(s) && OnlyThrough(k, s, e, hs) && Avoids(Io(a), e, hs)
    requires forall h | h in s.handles && s.handles[h].Owns? :: s.ops[s.handles[h].op].holder == Some(h)
    ensures var s' := SpecStep(s, k, a).0;
            && |s.ops| <= |s'.ops|
            && (forall h | h in hs :: h in s.handles && h in s'.handles && s'.handles[h] == s.handles[h])
            && (forall o | 0 <= o < |k.ops| && k.ops[o].target == Counter(e) :: s'.ops[o].holder == s.ops[o].holder)
  {
  }

  lemma HandlesHold(c: Code, k: KState, s: SState, l: Link)
    requires Sim(c, k, s, l)
    ensures |k.ops| == |s.ops|
    ensures Sensible(s) && forall h | h in s.handles && s.handles[h].Owns? :: s.ops[s.handles[h].op].holder == Some(h)
    ensures forall o | 0 <= o < |s.ops| && s.ops[o].holder.Some? ::
              s.ops[o].holder.value in s.handles && s.handles[s.ops[o].holder.value] == Owns(o)
  {
    SimSensible(c, k, s, l);
    assert |s.ops| == |l.slot|;
    hide PendingOk, OneshotsOk, MultishotsOk, PostedOk, CqOk;
    assert forall h | h in s.handles :: IoOk(c.ios[h], h, s.handles[h], k.ops, s.ops, l);
  }

  lemma SameSizes(w: World)
    requires Inv(w)
    ensures |w.kern.ops| == |w.spec.ops|
  {
  }

  lemma AvoidsIo(w: World, a: RAct, e: nat, hs: set<nat>)
    requires Inv(w) && Sensible(w.spec) && CanAct(w, Io(a)) && !MayPanic(w.code, a)
    requires Avoids(Io(a), e, hs) && OnlyThrough(w.kern, w.spec, e, hs)
    ensures Step(w, Io(a)).Returned?
    ensures var w' := Step(w, Io(a)).value; Untouched(w.kern, w.spec, w'.kern, w'.spec, e, hs)
  {
    hide Sim, FdsOk, ExecOk, BlockedOk, WakersOk, AwaitingOk, RoundOk, CodeStep, SpecStep, MayPanic, Enabled, Sensible, Avoids,
         OnlyThrough;
    StepInv(w, Io(a));
    HandlesHold(w.code, w.kern, w.spec, w.link);
    assert e in w.kern.fds by { OnlyThroughOpen(w.kern, w.spec, e, hs); }
    KernelAvoids(w.kern, a, CodeSubmits(w.code, a), e, hs);
    SpecAvoids(w.kern, w.spec, a, e, hs);
    SameSizes(Step(w, Io(a)).value);
  }

  lemma OnlyThroughOpen(k: KState, s: SState, e: nat, hs: set<nat>)
    requires OnlyThrough(k, s, e, hs)
    ensures e in k.fds
  {
  }

  lemma ReactAvoids(k: KState, s: SState, s': SState, e: nat, hs: set<nat>)
    requires OnlyThrough(k, s, e, hs) && SameHolders(s, s')
    ensures Untouched(k, s, k.(cq := []), s', e, hs)
  {
  }

  /** Any act of the executor. */
  lemma AvoidsExec(w: World, act: Act, e: nat, hs: set<nat>)
    requires Inv(w) && Sensible(w.spec) && CanAct(w, act) && !CanPanic(w, act) && !act.Io?
    requires OnlyThrough(w.kern, w.spec, e, hs)
    ensures Step(w, act).Returned?
    ensures var w' := Step(w, act).value; Untouched(w.kern, w.spec, w'.kern, w'.spec, e, hs)
  {
    hide Inv, Sensible, React, Lands, OnlyThrough, Untouched;
    StepInv(w, act);
    if act.Iterate? && w.exec.runQ == [] {
      InvReact(w);
      ReactAvoids(w.kern, w.spec, React(w).value.spec, e, hs);
    } else {
      UntouchedSame(w.kern, w.spec, e, hs);
    }
  }

  lemma UntouchedSame(k: KState, s: SState, e: nat, hs: set<nat>)
    requires OnlyThrough(k, s, e, hs)
    ensures Untouched(k, s, k, s, e, hs)
  {
  }

  /** Whatever else the runtime does, a private eventfd and its handles are left alone. */
  lemma AvoidsAct(w: World, act: Act, e: nat, hs: set<nat>)
    requires Inv(w) && Sensible(w.spec) && CanAct(w, act) && !CanPanic(w, act)
    requires Avoids(act, e, hs) && OnlyThrough(w.kern, w.spec, e, hs)
    ensures Step(w, act).Returned? && Inv(Step(w, act).value)
    ensures var w' := Step(w, act).value;
            Untouched(w.kern, w.spec, w'.kern, w'.spec, e, hs) && OnlyThrough(w'.kern, w'.spec, e, hs)
  {
    hide Inv, Sensible, Avoids, CanAct, OnlyThrough, Step, Untouched, MayPanic;
    StepInv(w, act);
    if act.Io? {
      AvoidsIo(w, act.a, e, hs);
    } else {
      AvoidsExec(w, act, e, hs);
    }
    UntouchedKeeps(w.kern, w.spec, Step(w, act).value.kern, Step(w, act).value.spec, e, hs);
  }

  // ---------------------------------------------------------------- the owner's acts

  /** Handle h may have changed, gained an operation or let one go; nothing else has. */
  ghost predicate OnlyHandle(s: SState, s': SState, h: nat) {
    && s'.handles.Keys - {h} == s.handles.Keys - {h}
    && (forall g | g in s.handles && g != h :: g in s'.handles && s'.handles[g] == s.handles[g])
    && |s.ops| <= |s'.ops|
    && (forall o | 0 <= o < |s.ops| ::
          s'.ops[o].holder == s.ops[o].holder || (s.ops[o].holder == Some(h) && s'.ops[o].holder == None))
    && (forall o | |s.ops| <= o < |s'.ops| :: s'.ops[o].holder == Some(h))
  }

  lemma SpecOwnPoll(s: SState, k: KState, a: RAct)
    requires Sensible(s) && a.PollIo? && a.h in s.handles
    requires s.handles[a.h].Owns? ==>
               OpOk(s.ops[s.handles[a.h].op]) && s.ops[s.handles[a.h].op].holder == Some(a.h)
    ensures var s' := SpecStep(s, k, a).0;
            && OnlyHandle(s, s', a.h) && a.h in s'.handles
            && match s.handles[a.h]
               case Fresh(kind) =>
                 SpecSubmits(s, a) == Some(kind) && s'.handles[a.h] == Owns(|s.ops|) && |s'.ops| == |s.ops| + 1
               case Done(v) => s' == s && SpecSubmits(s, a) == None
               case Owns(o) =>
                 && SpecSubmits(s, a) == None && |s'.ops| == |s.ops|
                 && ((s'.handles[a.h] == Owns(o) && s'.ops[o].holder == Some(a.h)
                      && (s.ops[o].kind.Oneshot? ==> s.ops[o].results == []))
                     || (s.ops[o].kind.Oneshot? && s.ops[o].results != [] && s'.ops[o].holder == None
                         && s'.handles[a.h] == Done(s.ops[o].results[0])))
  {
  }

  /** What the owner of the eventfd learns from polling one of its handles. */
  lemma OwnPoll(w: World, h: nat, t: nat, slot: nat, userData: nat, e: nat, hs: set<nat>)
    requires var act := Io(PollIo(h, t, Counter(e), slot, userData));
             Inv(w) && Sensible(w.spec) && CanAct(w, act) && !CanPanic(w, act)
    requires OnlyThrough(w.kern, w.spec, e, hs) && h in hs
    requires h in w.spec.handles && !w.spec.handles[h].Done?
    requires w.spec.handles[h].Owns? ==>
               w.spec.handles[h].op < |w.kern.ops| && w.kern.ops[w.spec.handles[h].op].target == Counter(e)
    ensures var act := Io(PollIo(h, t, Counter(e), slot, userData));
            && Step(w, act).Returned? && Inv(Step(w, act).value)
            && var w' := Step(w, act).value;
               && w'.kern.fds == w.kern.fds && w'.phase == w.phase
               && OnlyThrough(w'.kern, w'.spec, e, hs) && OnlyHandle(w.spec, w'.spec, h)
               && |w.kern.ops| <= |w'.kern.ops| && w.kern.ops == w'.kern.ops[..|w.kern.ops|]
               && h in w'.spec.handles && h in w'.code.ios
               && (w'.spec.handles[h].Owns? ==>
                     && (w.spec.handles[h].Owns? ==>
                           w'.spec.handles[h] == w.spec.handles[h] && w.spec.ops[w.spec.handles[h].op].results == [])
                     && (w.spec.handles[h].Fresh? ==> |w.kern.ops| <= w'.spec.handles[h].op)
                     && w'.spec.handles[h].op < |w'.kern.ops|
                     && w'.kern.ops[w'.spec.handles[h].op].target == Counter(e)
                     && !(w'.code.ios[h].One? && w'.code.ios[h].one.FinishedOne?))
               && (!w'.spec.handles[h].Owns? ==>
                     && w.spec.handles[h].Owns? && w'.kern == w.kern
                     && var o := w.spec.handles[h].op;
                        && w.spec.ops[o].results != []
                        && w'.spec.handles[h] == Done(w.spec.ops[o].results[0])
                        && w'.code.ios[h] == One(FinishedOne(w.spec.ops[o].results[0]))
                        && w.kern.ops[o].posted != [] && w.kern.ops[o].posted[0] == w.spec.ops[o].results[0])
  {
    var a := PollIo(h, t, Counter(e), slot, userData);
    hide Sim, FdsOk, ExecOk, BlockedOk, WakersOk, AwaitingOk, RoundOk, CodeStep, SpecStep, MayPanic, Sensible, OnlyHandle,
         OnlyThrough;
    StepInv(w, Io(a));
    StepSimulates(w.code, w.kern, w.spec, w.link, a);
    OwnedOps(w.code, w.kern, w.spec, w.link, h);
    OneshotReads(w.kern);
    SpecOwnPoll(w.spec, w.kern, a);
    var w' := Step(w, Io(a)).value;
    OwnedOps(w'.code, w'.kern, w'.spec, w'.link, h);
    OwnThrough(w.kern, w.spec, w'.kern, w'.spec, e, hs, h);
  }

  lemma OneshotReads(k: KState)
    requires FdsOk(k)
    ensures forall o | 0 <= o < |k.ops| && k.ops[o].target.Counter? :: k.ops[o].kind.Oneshot?
  {
  }

  lemma OwnThrough(k: KState, s: SState, k': KState, s': SState, e: nat, hs: set<nat>, h: nat)
    requires OnlyThrough(k, s, e, hs) && h in hs && OnlyHandle(s, s', h) && h in s'.handles
    requires k'.fds == k.fds && |k.ops| <= |k'.ops| == |s'.ops| && k.ops == k'.ops[..|k.ops|]
    ensures OnlyThrough(k', s', e, hs)
  {
    assert forall o | 0 <= o < |k.ops| :: k'.ops[o] == k.ops[o];
  }

  /** What the simulation says about a handle, for its owner. */
  lemma OwnedOps(c: Code, k: KState, s: SState, l: Link, h: nat)
    requires Sim(c, k, s, l) && h in s.handles
    ensures |k.ops| == |s.ops| && h in c.ios
    ensures s.handles[h].Done? ==> c.ios[h] == One(FinishedOne(s.handles[h].value))
    ensures !s.handles[h].Done? ==> !(c.ios[h].One? && c.ios[h].one.FinishedOne?)
    ensures s.handles[h].Owns? ==>
              var o := s.handles[h].op;
              && o < |s.ops| && OpOk(s.ops[o]) && s.ops[o].holder == Some(h)
              && s.ops[o].kind == k.ops[o].kind
              && (s.ops[o].results != [] ==> k.ops[o].posted != [] && k.ops[o].posted[0] == s.ops[o].results[0])
  {
    assert |s.ops| == |l.slot|;
    hide PendingOk, OneshotsOk, MultishotsOk, CqOk;
    assert IoOk(c.ios[h], h, s.handles[h], k.ops, s.ops, l);
    if s.handles[h].Owns? {
      var o := s.handles[h].op;
      assert PostedOk(k.ops[o], s.ops[o], k.cq, o);
    }
  }

  /** The owner drops one of its handles. */
  lemma OwnDrop(w: World, h: nat, e: nat, hs: set<nat>)
    requires var act := Io(DropIo(h, true)); Inv(w) && Sensible(w.spec) && CanAct(w, act)
    requires OnlyThrough(w.kern, w.spec, e, hs) && h in w.spec.handles
    ensures var act := Io(DropIo(h, true));
            && Step(w, act).Returned? && Inv(Step(w, act).value)
            && var w' := Step(w, act).value;
               && w'.kern == w.kern && w'.phase == w.phase
               && w'.spec.handles == w.spec.handles - {h} && OnlyHandle(w.spec, w'.spec, h)
               && OnlyThrough(w'.kern, w'.spec, e, hs - {h})
  {
    var a := DropIo(h, true);
    hide Sim, FdsOk, ExecOk, BlockedOk, WakersOk, AwaitingOk, RoundOk, CodeStep, SpecStep, Sensible, OnlyHandle, OnlyThrough;
    StepInv(w, Io(a));
    OwnedOps(w.code, w.kern, w.spec, w.link, h);
    HandlesHold(w.code, w.kern, w.spec, w.link);
    SpecOwnDrop(w.kern, w.spec, a, e, hs);
  }

  lemma SpecOwnDrop(k: KState, s: SState, a: RAct, e: nat, hs: set<nat>)
    requires Sensible(s) && a.DropIo? && a.h in s.handles && OnlyThrough(k, s, e, hs)
    requires forall h | h in s.handles && s.handles[h].Owns? :: s.ops[s.handles[h].op].holder == Some(h)
    requires forall o | 0 <= o < |s.ops| && s.ops[o].holder == Some(a.h) :: s.handles[a.h] == Owns(o)
    ensures var s' := SpecStep(s, k, a).0;
            && s'.handles == s.handles - {a.h} && OnlyHandle(s, s', a.h) && OnlyThrough(k, s', e, hs - {a.h})
  {
  }

  /** The owner creates a handle, notifies, or another thread takes a unit. */
  lemma OwnOther(w: World, a: RAct, e: nat, hs: set<nat>)
    requires Inv(w) && Sensible(w.spec) && CanAct(w, Io(a)) && OnlyThrough(w.kern, w.spec, e, hs)
    requires a == NotifyEvent(e) || a == TakeEvent(e) || (a.NewIo? && a.kind.Oneshot?)
    ensures Step(w, Io(a)).Returned? && Inv(Step(w, Io(a)).value)
    ensures var w' := Step(w, Io(a)).value;
            && w'.phase == w.phase && w'.kern.ops == w.kern.ops && w'.spec.ops == w.spec.ops && e in w'.kern.fds
            && w'.kern.fds[e].took == w.kern.fds[e].took
            && w'.kern.fds[e].sent == w.kern.fds[e].sent + (if a.NotifyEvent? then 1 else 0)
            && w'.kern.fds[e].foreign == w.kern.fds[e].foreign + (if a.TakeEvent? then 1 else 0)
            && w'.spec.handles == (if a.NewIo? then w.spec.handles[a.h := Fresh(Oneshot)] else w.spec.handles)
            && (a.NewIo? ==> a.h !in w.spec.handles)
            && OnlyThrough(w'.kern, w'.spec, e, if a.NewIo? then hs + {a.h} else hs)
  {
    hide Sim, FdsOk, ExecOk, BlockedOk, WakersOk, AwaitingOk, RoundOk, Sensible;
    StepInv(w, Io(a));
    if a.NewIo? {
      PolledHandle(w.code, w.kern, w.spec, w.link, a.h);
    }
  }

  /** A new eventfd, which nobody reads. */
  lemma OpensEvent(w: World, fd: nat)
    requires Inv(w) && Sensible(w.spec) && CanAct(w, Io(OpenEvent(fd)))
    requires forall o | 0 <= o < |w.kern.ops| :: w.kern.ops[o].target != Counter(fd)
    ensures Step(w, Io(OpenEvent(fd))).Returned?
    ensures var w' := Step(w, Io(OpenEvent(fd))).value;
            && Inv(w') && w'.kern == w.kern.(fds := w.kern.fds[fd := EventFd(0, 0, 0, {})]) && w'.spec == w.spec
            && w'.code == w.code && w'.phase == w.phase && w'.exec == w.exec
            && w'.hist.spawned == w.hist.spawned && w'.hist.finished == w.hist.finished
            && OnlyThrough(w'.kern, w'.spec, fd, {}) && CanAct(w', Io(NotifyEvent(fd)))
  {
    hide Inv, Sensible, CanPanic;
    StepInv(w, Io(OpenEvent(fd)));
    SameSizes(w);
    assert !CanPanic(w, Io(OpenEvent(fd))) by { OpenIsSafe(w, fd); }
  }

  lemma OpenIsSafe(w: World, fd: nat)
    ensures !CanPanic(w, Io(OpenEvent(fd)))
  {
  }

  lemma NoReadsYet(w: World, fd: nat)
    requires Inv(w) && fd !in w.kern.fds
    ensures forall o | 0 <= o < |w.kern.ops| :: w.kern.ops[o].target != Counter(fd)
  {
    hide Sim, ExecOk, BlockedOk, WakersOk, AwaitingOk, RoundOk, FdOk;
  }

  /** A read that the kernel completed with success has taken a unit. */
  lemma TookIt(w: World, o: nat, e: nat)
    requires Inv(w) && e in w.kern.fds && o < |w.kern.ops| && w.kern.ops[o].target == Counter(e)
    requires w.kern.ops[o].posted != [] && w.kern.ops[o].posted[0] >= 0
    ensures o in w.kern.fds[e].took
  {
    hide Sim, ExecOk, BlockedOk, WakersOk, AwaitingOk, RoundOk;
    assert FdOk(w.kern.fds[e], e, w.kern.ops);
  }

  /** Acts on the reactor leave the executor alone. */
  lemma IoEffect(w: World, a: RAct)
    requires Sensible(w.spec) && Step(w, Io(a)).Returned?
    ensures var w' := Step(w, Io(a)).value;
            w'.phase == w.phase && w'.hist.spawned == w.hist.spawned && w'.hist.finished == w.hist.finished
            && w'.exec == w.exec
  {
    hide CodeStep, SpecStep, Sensible;
  }

  /** Handles and the holders of operations agree. */
  ghost predicate Agrees(w: World) {
    && |w.kern.ops| == |w.spec.ops|
    && (forall h | h in w.spec.handles && w.spec.handles[h].Owns? ::
          w.spec.handles[h].op < |w.spec.ops| && w.spec.ops[w.spec.handles[h].op].holder == Some(h))
    && forall o | 0 <= o < |w.spec.ops| && w.spec.ops[o].holder.Some? ::
         w.spec.ops[o].holder.value in w.spec.handles && w.spec.handles[w.spec.ops[o].holder.value] == Owns(o)
  }

  lemma InvHolders(w: World)
    requires Inv(w)
    ensures Agrees(w)
  {
    HandlesHold(w.code, w.kern, w.spec, w.link);
    hide Sim, ExecOk, BlockedOk, WakersOk, AwaitingOk, RoundOk, FdsOk;
  }

  lemma OwnerAgrees(w: World, h: nat)
    requires Agrees(w) && h in w.spec.handles && w.spec.handles[h].Owns?
    ensures w.spec.handles[h].op < |w.spec.ops| == |w.kern.ops| && w.spec.ops[w.spec.handles[h].op].holder == Some(h)
  {
  }
}
