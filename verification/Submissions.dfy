/**
 The submission queue, seen from outside: which submissions fit in and which one panics, counted
 in the acts of a run alone.
 */
module Submissions {
  import opened Wrappers
  import opened Reactor
  import opened Kernel
  import opened Spec
  import opened Simulation
  import opened ReactorTheorems
  import opened Streams
  import opened Events
  import opened World
  import opened WorldProofs
  import opened WorldTheorems

  // ---------------------------------------------------------------- runs of the reactor

  /** The submissions since the last flush, after one more act. */
  ghost function Counted(c: Code, a: RAct, n: nat): nat {
    if a.Flush? then 0 else if CodeSubmits(c, a).Some? then n + 1 else n
  }

  /** The submissions since the last flush, after a run, if there were n before it. */
  ghost function SinceFlush(c: Code, k: KState, acts: seq<RAct>, n: nat): nat
    decreases |acts|
  {
    if acts == [] then n
    else match CodeStep(c, k, acts[0])
      case Panicked => n
      case Returned((c', _)) =>
        SinceFlush(c', KernelStep(k, acts[0], CodeSubmits(c, acts[0])), acts[1..], Counted(c, acts[0], n))
  }

  lemma QueuedStep(c: Code, k: KState, a: RAct)
    requires CodeStep(c, k, a).Returned?
    ensures CodeStep(c, k, a).value.0.ring.queued == Counted(c, a, c.ring.queued)
  {
  }

  lemma {:induction false} QueuedRun(c: Code, k: KState, acts: seq<RAct>)
    requires CodeRun(c, k, acts).Returned?
    ensures CodeRun(c, k, acts).value.0.ring.queued == SinceFlush(c, k, acts, c.ring.queued)
    decreases |acts|
  {
    hide CodeStep, Counted, CodeSubmits, KernelStep;
    if acts != [] {
      QueuedStep(c, k, acts[0]);
      QueuedRun(CodeStep(c, k, acts[0]).value.0, KernelStep(k, acts[0], CodeSubmits(c, acts[0])), acts[1..]);
    }
  }

  /** The first poll of a handle. */
  ghost predicate FirstPoll(c: Code, a: RAct) {
    a.PollIo? && a.h in c.ios && IsNew(c.ios[a.h])
  }

  /**
   After any run of the reactor from start-up, the first poll of a handle panics exactly if 1024
   operations were submitted since the last flush; there are never more.
   */
  lemma SubmissionPanicsExactly(acts: seq<RAct>, a: RAct)
    requires CodeRun(NoCode, Boot, acts).Returned?
    ensures SinceFlush(NoCode, Boot, acts, 0) <= 1024
    ensures var (c, k, _) := CodeRun(NoCode, Boot, acts).value;
            FirstPoll(c, a) ==> (CodeStep(c, k, a).Panicked? <==> SinceFlush(NoCode, Boot, acts, 0) == 1024)
  {
    QueuedRun(NoCode, Boot, acts);
    QueuedBound(NoCode, Boot, acts);
    var (c, k, _) := CodeRun(NoCode, Boot, acts).value;
    hide CodeRun, SinceFlush;
    if FirstPoll(c, a) {
      FirstPollPanics(c, k, a);
    }
  }

  lemma FirstPollPanics(c: Code, k: KState, a: RAct)
    requires FirstPoll(c, a)
    ensures CodeStep(c, k, a).Panicked? <==> c.ring.queued >= 1024
    ensures CodeStep(c, k, a).Returned? ==> CodeStep(c, k, a).value.0.ring.queued == c.ring.queued + 1
  {
  }

  lemma BoundStep(c: Code, k: KState, a: RAct)
    requires CodeStep(c, k, a).Returned? && c.ring.queued <= 1024
    ensures CodeStep(c, k, a).value.0.ring.queued <= 1024
  {
  }

  lemma {:induction false} QueuedBound(c: Code, k: KState, acts: seq<RAct>)
    requires CodeRun(c, k, acts).Returned? && c.ring.queued <= 1024
    ensures CodeRun(c, k, acts).value.0.ring.queued <= 1024
    decreases |acts|
  {
    hide CodeStep, CodeSubmits, KernelStep;
    if acts != [] {
      BoundStep(c, k, acts[0]);
      QueuedBound(CodeStep(c, k, acts[0]).value.0, KernelStep(k, acts[0], CodeSubmits(c, acts[0])), acts[1..]);
    }
  }

  /** Every act of the run is the first poll of some handle, oneshot or multishot. */
  ghost predicate OnlyFirstPolls(c: Code, k: KState, acts: seq<RAct>)
    decreases |acts|
  {
    acts == []
    || (FirstPoll(c, acts[0])
        && (CodeStep(c, k, acts[0]).Returned? ==>
              OnlyFirstPolls(CodeStep(c, k, acts[0]).value.0, KernelStep(k, acts[0], CodeSubmits(c, acts[0])), acts[1..])))
  }

  /** A burst of submissions right after a flush fits in exactly if there are at most 1024 of them. */
  lemma BurstFits(c: Code, k: KState, acts: seq<RAct>)
    requires CodeStep(c, k, Flush).Returned? && OnlyFirstPolls(CodeStep(c, k, Flush).value.0, k, acts)
    ensures CodeRun(CodeStep(c, k, Flush).value.0, k, acts).Returned? <==> |acts| <= 1024
  {
    Burst(CodeStep(c, k, Flush).value.0, k, acts);
  }

  lemma {:induction false} Burst(c: Code, k: KState, acts: seq<RAct>)
    requires OnlyFirstPolls(c, k, acts) && c.ring.queued <= 1024
    ensures CodeRun(c, k, acts).Returned? <==> c.ring.queued + |acts| <= 1024
    decreases |acts|
  {
    hide CodeStep, FirstPoll, CodeSubmits, KernelStep;
    if acts != [] {
      FirstPollPanics(c, k, acts[0]);
      if CodeStep(c, k, acts[0]).Returned? {
        Burst(CodeStep(c, k, acts[0]).value.0, KernelStep(k, acts[0], CodeSubmits(c, acts[0])), acts[1..]);
      }
    }
  }

  // ---------------------------------------------------------------- runs of the whole runtime

  /** The submissions since the last act that went through `react`, after one more act. */
  ghost function Pushed(w: World, act: Act, n: nat): nat {
    if Reacts(w, act) then 0
    else if act.Io? && act.a.PollIo? && act.a.h in w.spec.handles && w.spec.handles[act.a.h].Fresh? then n + 1
    else n
  }

  /** The submissions since the last act that went through `react`, after a run, if there were n before it. */
  ghost function SinceReact(w: World, acts: seq<Act>, n: nat): nat
    requires Sensible(w.spec)
    decreases |acts|
  {
    if acts == [] then n
    else match Step(w, acts[0])
      case Panicked => n
      case Returned(w') => SinceReact(w', acts[1..], Pushed(w, acts[0], n))
  }

  lemma ReapQueued(w: World)
    requires Sensible(w.spec) && ReapWake(w).Returned?
    ensures ReapWake(w).value.code.ring.queued == w.code.ring.queued
  {
    hide Sensible, SpecStep;
  }

  lemma {:induction false} ReapAllQueued(w: World)
    requires Sensible(w.spec) && ReapAll(w).Returned?
    ensures ReapAll(w).value.code.ring.queued == w.code.ring.queued
    decreases |w.kern.cq|
  {
    hide Sensible, ReapWake;
    if w.kern.cq != [] {
      ReapQueued(w);
      ReapAllQueued(ReapWake(w).value);
    }
  }

  lemma IterateQueued(w: World)
    requires Sensible(w.spec) && Step(w, Iterate).Returned?
    ensures Step(w, Iterate).value.code.ring.queued == if w.exec.runQ == [] then 0 else w.code.ring.queued
  {
    hide Sensible, ReapAll;
    if w.exec.runQ == [] {
      ReapAllQueued(w.(code := w.code.(ring := w.code.ring.(queued := 0)), hist := w.hist.(due := {}, polled := [])));
    }
  }

  lemma IoQueued(w: World, a: RAct)
    requires Inv(w) && Sensible(w.spec) && CanAct(w, Io(a)) && Step(w, Io(a)).Returned?
    ensures Step(w, Io(a)).value.code.ring.queued == Pushed(w, Io(a), w.code.ring.queued)
  {
    hide Sim, FdsOk, ExecOk, WakersOk, BlockedOk, AwaitingOk, RoundOk, CodeStep, SpecStep, Sensible, Enabled, CodeSubmits;
    QueuedStep(w.code, w.kern, a);
    SameSubmits(w.code, w.kern, w.spec, w.link, a);
  }

  lemma WorldQueued(w: World, act: Act)
    requires Inv(w) && Sensible(w.spec) && CanAct(w, act) && Step(w, act).Returned?
    ensures Step(w, act).value.code.ring.queued == Pushed(w, act, w.code.ring.queued)
  {
    if act.Io? {
      hide Inv, Sensible, CanAct, Step, Pushed;
      IoQueued(w, act.a);
    } else if act.Iterate? {
      hide Inv, Sensible, CanAct, Step;
      IterateQueued(w);
    } else {
      hide Inv, Sensible, React;
    }
  }

  lemma WorldBound(w: World, act: Act)
    requires Inv(w) && Sensible(w.spec) && CanAct(w, act) && Step(w, act).Returned?
    ensures w.code.ring.queued <= 1024 ==> Step(w, act).value.code.ring.queued <= 1024
  {
    if act.Io? {
      hide Inv, CanAct, CodeStep, SpecStep, Sensible;
      if w.code.ring.queued <= 1024 {
        BoundStep(w.code, w.kern, act.a);
      }
    } else {
      hide Inv, Sensible, CanAct, Step;
      WorldQueued(w, act);
    }
  }

  lemma {:induction false} WorldRunQueued(w: World, acts: seq<Act>)
    requires Inv(w) && Sensible(w.spec) && CanRun(w, acts) && Run(w, acts).Returned?
    ensures Inv(Run(w, acts).value)
    ensures Run(w, acts).value.code.ring.queued == SinceReact(w, acts, w.code.ring.queued)
    ensures w.code.ring.queued <= 1024 ==> Run(w, acts).value.code.ring.queued <= 1024
    decreases |acts|
  {
    hide Inv, Sensible, CanAct, CanPanic, Step, Pushed;
    if acts != [] {
      StepInv(w, acts[0]);
      WorldQueued(w, acts[0]);
      WorldBound(w, acts[0]);
      WorldRunQueued(Step(w, acts[0]).value, acts[1..]);
    }
  }

  /**
   After any run from start-up, the first poll of a handle by a task panics exactly if 1024
   operations were submitted since the last act that went through `react`.
   */
  lemma FirstPollPanicsExactly(acts: seq<Act>, a: RAct)
    requires Sensible(Start.spec) && CanRun(Start, acts) && Run(Start, acts).Returned?
    requires Sensible(Run(Start, acts).value.spec) && CanAct(Run(Start, acts).value, Io(a)) && a.PollIo?
    requires a.h in Run(Start, acts).value.spec.handles && Run(Start, acts).value.spec.handles[a.h].Fresh?
    ensures SinceReact(Start, acts, 0) <= 1024
    ensures Step(Run(Start, acts).value, Io(a)).Panicked? <==> SinceReact(Start, acts, 0) == 1024
  {
    hide Inv, Sensible, CanAct, CanPanic, Step, Pushed;
    StartInv();
    WorldRunQueued(Start, acts);
    FreshPanics(Run(Start, acts).value, a);
  }

  lemma FreshPanics(w: World, a: RAct)
    requires Inv(w) && Sensible(w.spec) && CanAct(w, Io(a)) && a.PollIo?
    requires a.h in w.spec.handles && w.spec.handles[a.h].Fresh?
    ensures Step(w, Io(a)).Panicked? <==> w.code.ring.queued >= 1024
  {
    hide Sim, FdsOk, ExecOk, WakersOk, BlockedOk, AwaitingOk, RoundOk, CodeStep, SpecStep, Sensible, Enabled;
    SameNews(w.code, w.kern, w.spec, w.link);
    FirstPollPanics(w.code, w.kern, a);
  }
}
