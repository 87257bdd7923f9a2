/** What a handle is given over whole runs: streams arrive in order, results are taken once and stay. */
module Streams {
  import opened Wrappers
  import opened Reactor
  import opened Kernel
  import opened Spec
  import opened Simulation
  import opened ReactorTheorems

  /** The values that polls of handle h returned in a run. */
  function Heard(acts: seq<RAct>, obs: seq<Obs>, h: nat): seq<int>
    requires |acts| == |obs|
  {
    if acts == [] then []
    else
      (match (acts[0], obs[0])
       case (PollIo(g, _, _, _, _), Polled(Ready(Some(v)))) => if g == h then [v] else []
       case _ => [])
      + Heard(acts[1..], obs[1..], h)
  }

  /** Handle h exists throughout: it is neither dropped nor created anew. */
  predicate Keeps(acts: seq<RAct>, h: nat) {
    forall i | 0 <= i < |acts| :: !(acts[i].DropIo? && acts[i].h == h) && !(acts[i].NewIo? && acts[i].h == h)
  }

  /** How often the closure of handle h runs: once for every submission. */
  function Submissions(s: SState, k: KState, acts: seq<RAct>, h: nat): nat
    requires Sensible(s)
    decreases |acts|
  {
    if acts == [] then 0
    else
      var submits := SpecSubmits(s, acts[0]);
      (if submits.Some? && acts[0].h == h then 1 else 0)
      + Submissions(SpecStep(s, k, acts[0]).0, KernelStep(k, acts[0], submits), acts[1..], h)
  }

  /** The completion that is reaped next is for operation o, whose buffer is full. */
  ghost predicate Overflow(s: SState, k: KState, a: RAct, o: nat) {
    a.Reap? && k.cq != [] && k.cq[0].op == o && o < |s.ops| && |Buffer(s.ops[o])| >= 1024
  }

  /** How many completions for operation o arrive while 1024 of its results wait. */
  ghost function Overflows(s: SState, k: KState, acts: seq<RAct>, o: nat): nat
    requires Sensible(s)
    decreases |acts|
  {
    if acts == [] then 0
    else
      (if Overflow(s, k, acts[0], o) then 1 else 0)
      + Overflows(SpecStep(s, k, acts[0]).0, KernelStep(k, acts[0], SpecSubmits(s, acts[0])), acts[1..], o)
  }

  ghost predicate TakenOk(op: SpecOp) {
    forall i | 0 <= i < |op.taken| :: op.taken[i] < |op.results|
  }

  /** The values an operation has delivered. */
  ghost function Values(op: SpecOp): seq<int>
    requires TakenOk(op)
  {
    seq(|op.taken|, i requires 0 <= i < |op.taken| => op.results[op.taken[i]])
  }

  // ---------------------------------------------------------------- one act, seen from one handle

  /** Operations are only added, and their recorded results only extended. */
  ghost predicate Grows(s: SState, s': SState) {
    && |s.ops| <= |s'.ops|
    && forall o | 0 <= o < |s.ops| :: s'.ops[o].kind == s.ops[o].kind && s.ops[o].results <= s'.ops[o].results
  }

  /** Where a handle can go: from fresh to an operation of its own, from there to its result, never back. */
  ghost predicate Advances(s: SState, s': SState, h: nat) {
    && Grows(s, s') && h in s.handles && h in s'.handles
    && var to := s'.handles[h];
       match s.handles[h]
       case Fresh(kind) =>
         || to == Fresh(kind)
         || (to.Owns? && |s.ops| <= to.op < |s'.ops| && s'.ops[to.op].kind == kind)
         || (to.Done? && kind.Oneshot?)
       case Owns(o) =>
         || to == Owns(o)
         || (o < |s.ops| && s.ops[o].kind.Oneshot? && s'.ops[o].results != [] && to == Done(s'.ops[o].results[0]))
       case Done(v) => to == Done(v)
  }

  /** No operation has two handles. */
  ghost predicate Exclusive(s: SState) {
    forall g, h | g in s.handles && h in s.handles && s.handles[g].Owns? && s.handles[g] == s.handles[h] :: g == h
  }

  /** A oneshot handle that is still submitted has taken nothing. */
  ghost predicate Untaken(s: SState)
    requires Sensible(s)
  {
    forall h | h in s.handles && s.handles[h].Owns? && s.ops[s.handles[h].op].kind.Oneshot? ::
      s.ops[s.handles[h].op].lo == 0
  }

  lemma StepExclusive(s: SState, k: KState, a: RAct)
    requires Sensible(s) && Exclusive(s)
    ensures Exclusive(SpecStep(s, k, a).0)
    ensures Untaken(s) ==> Untaken(SpecStep(s, k, a).0)
  {
  }

  lemma SimExclusive(c: Code, k: KState, s: SState, l: Link)
    requires Sim(c, k, s, l)
    ensures Sensible(s) && Exclusive(s) && Untaken(s)
  {
    SimSensible(c, k, s, l);
    assert forall h | h in s.handles :: IoOk(c.ios[h], h, s.handles[h], k.ops, s.ops, l);
    hide PendingOk, OneshotsOk, MultishotsOk, PostedOk, CqOk;
  }

  lemma StepAdvances(s: SState, k: KState, a: RAct, h: nat)
    requires Sensible(s) && Untaken(s) && h in s.handles && Keeps([a], h)
    ensures Advances(s, SpecStep(s, k, a).0, h)
    ensures !s.handles[h].Fresh? ==> !(SpecSubmits(s, a).Some? && a.h == h)
    ensures s.handles[h].Fresh? ==>
              (SpecSubmits(s, a).Some? && a.h == h <==> !SpecStep(s, k, a).0.handles[h].Fresh?)
    ensures s.handles[h].Done? && a.PollIo? && a.h == h ==>
              SpecStep(s, k, a) == (s, Polled(Ready(Some(s.handles[h].value))))
  {
    assert [a][0] == a;
  }

  lemma SameOrLater(s: SState, s1: SState, s2: SState, h: nat)
    requires Sensible(s) && Advances(s, s1, h) && Advances(s1, s2, h)
    ensures Advances(s, s2, h)
  {
  }

  // ---------------------------------------------------------------- runs

  /**
   Submit once: however often a handle is polled and whatever happens in between, its closure
   runs at most once, it moves from fresh to submitted to finished and never back, and its
   result is the first one recorded for its own operation.
   */
  lemma {:induction false} SubmitOnce(s: SState, k: KState, acts: seq<RAct>, h: nat)
    requires Sensible(s) && Exclusive(s) && Untaken(s) && h in s.handles && Keeps(acts, h)
    ensures Advances(s, SpecRun(s, k, acts).0, h)
    ensures Submissions(s, k, acts, h)
            == if s.handles[h].Fresh? && !SpecRun(s, k, acts).0.handles[h].Fresh? then 1 else 0
    decreases |acts|
  {
    if acts != [] {
      assert forall i | 0 <= i < |acts[1..]| :: acts[1..][i] == acts[i + 1];
      var s' := SpecStep(s, k, acts[0]).0;
      var k' := KernelStep(k, acts[0], SpecSubmits(s, acts[0]));
      StepAdvances(s, k, acts[0], h);
      StepExclusive(s, k, acts[0]);
      hide SpecStep, Exclusive, Untaken;
      SubmitOnce(s', k', acts[1..], h);
      SameOrLater(s, s', SpecRun(s', k', acts[1..]).0, h);
    }
  }

  /** A oneshot handle yields the kernel's result for its own operation, and there is only one. */
  lemma OwnResult(c: Code, k: KState, s: SState, l: Link, acts: seq<RAct>, h: nat, o: nat)
    requires Sim(c, k, s, l) && EnabledRun(c, k, acts) && Peaceful(c, k, acts) && Keeps(acts, h)
    requires h in s.handles && s.handles[h] == Owns(o) && o < |s.ops| && s.ops[o].kind.Oneshot?
    ensures CodeRun(c, k, acts).Returned?
    ensures var (c', k', _) := CodeRun(c, k, acts).value;
            && h in c'.ios && o < |k'.ops|
            && c'.ios[h].One? && !c'.ios[h].one.NewOne?
            && (c'.ios[h].one.FinishedOne? ==> k'.ops[o].posted == [c'.ios[h].one.value] && !k'.ops[o].live)
  {
    SimExclusive(c, k, s, l);
    var l' := RunSimulates(c, k, s, l, acts);
    SubmitOnce(s, k, acts, h);
    var (c', k', _) := CodeRun(c, k, acts).value;
    var s' := SpecRun(s, k, acts).0;
    hide Sim, EnabledRun, Peaceful, CodeRun, SpecRun;
    OwnResultNow(c', k', s', l', h, o);
  }

  lemma OwnResultNow(c: Code, k: KState, s: SState, l: Link, h: nat, o: nat)
    requires Sim(c, k, s, l) && h in s.handles && o < |s.ops| && s.ops[o].kind.Oneshot?
    requires s.handles[h] == Owns(o) || (s.ops[o].results != [] && s.handles[h] == Done(s.ops[o].results[0]))
    ensures h in c.ios && o < |k.ops| && c.ios[h].One? && !c.ios[h].one.NewOne?
    ensures c.ios[h].one.FinishedOne? ==> k.ops[o].posted == [c.ios[h].one.value] && !k.ops[o].live
  {
    assert |l.slot| == |s.ops|;
    hide PendingOk, OneshotsOk, MultishotsOk;
    assert IoOk(c.ios[h], h, s.handles[h], k.ops, s.ops, l) && PostedOk(k.ops[o], s.ops[o], k.cq, o);
    if s.handles[h].Done? {
      assert OpOk(s.ops[o]);
      QueuedNone(k.cq, o);
    }
  }

  /** Once a handle is finished, every poll returns the same result again and submits nothing. */
  lemma {:induction false} StableResult(s: SState, k: KState, acts: seq<RAct>, h: nat)
    requires Sensible(s) && Exclusive(s) && Untaken(s) && h in s.handles && s.handles[h].Done? && Keeps(acts, h)
    ensures forall i | 0 <= i < |acts| && acts[i].PollIo? && acts[i].h == h ::
              SpecRun(s, k, acts).2[i] == Polled(Ready(Some(s.handles[h].value)))
    ensures Submissions(s, k, acts, h) == 0
    decreases |acts|
  {
    if acts != [] {
      assert forall i | 0 <= i < |acts[1..]| :: acts[1..][i] == acts[i + 1];
      StepAdvances(s, k, acts[0], h);
      StepExclusive(s, k, acts[0]);
      hide SpecStep, Exclusive, Untaken;
      StableResult(SpecStep(s, k, acts[0]).0, KernelStep(k, acts[0], SpecSubmits(s, acts[0])), acts[1..], h);
    }
  }

  // ---------------------------------------------------------------- multishot streams

  /** Handle h owns the multishot operation o, which has delivered `values` and lost `lost` results. */
  ghost predicate StreamAt(s: SState, h: nat, o: nat, values: seq<int>, lost: nat) {
    && h in s.handles && s.handles[h] == Owns(o) && o < |s.ops| && s.ops[o].kind.Multi?
    && TakenOk(s.ops[o]) && Values(s.ops[o]) == values && s.ops[o].lost == lost
  }

  lemma StepStream(s: SState, k: KState, a: RAct, h: nat, o: nat, values: seq<int>, lost: nat) returns (lost': nat)
    requires Sensible(s) && Exclusive(s) && StreamAt(s, h, o, values, lost) && Keeps([a], h)
    ensures StreamAt(SpecStep(s, k, a).0, h, o, values + Heard([a], [SpecStep(s, k, a).1], h), lost')
    ensures lost' == lost + if Overflow(s, k, a, o) then 1 else 0
  {
    assert [a][0] == a;
    var (s', obs) := SpecStep(s, k, a);
    lost' := s'.ops[o].lost;
    assert s.ops[o].taken <= s'.ops[o].taken && s.ops[o].results <= s'.ops[o].results;
    assert Heard([a][1..], [obs][1..], h) == [];
  }

  lemma HeardHead(acts: seq<RAct>, obs: seq<Obs>, h: nat)
    requires |acts| == |obs| > 0
    ensures Heard(acts, obs, h) == Heard([acts[0]], [obs[0]], h) + Heard(acts[1..], obs[1..], h)
  {
    assert Heard([acts[0]][1..], [obs[0]][1..], h) == [];
  }

  lemma {:induction false} StreamRun(s: SState, k: KState, acts: seq<RAct>, h: nat, o: nat, values: seq<int>, lost: nat)
    returns (lost': nat)
    requires Sensible(s) && Exclusive(s) && Keeps(acts, h) && StreamAt(s, h, o, values, lost)
    ensures StreamAt(SpecRun(s, k, acts).0, h, o, values + Heard(acts, SpecRun(s, k, acts).2, h), lost')
    ensures lost' == lost + Overflows(s, k, acts, o)
    decreases |acts|
  {
    hide SpecStep, Overflow, Values, TakenOk;
    if acts == [] {
      lost' := lost;
      assert values + [] == values;
    } else {
      hide StreamAt, Heard, Exclusive;
      var (s1, ob) := SpecStep(s, k, acts[0]);
      var k1 := KernelStep(k, acts[0], SpecSubmits(s, acts[0]));
      assert forall i | 0 <= i < |acts[1..]| :: acts[1..][i] == acts[i + 1];
      var lost1 := StepStream(s, k, acts[0], h, o, values, lost);
      StepExclusive(s, k, acts[0]);
      var rest := SpecRun(s1, k1, acts[1..]);
      assert SpecRun(s, k, acts) == (rest.0, rest.1, [ob] + rest.2);
      assert Overflows(s, k, acts, o) == (if Overflow(s, k, acts[0], o) then 1 else 0) + Overflows(s1, k1, acts[1..], o);
      hide SpecRun, Overflows;
      var first := Heard([acts[0]], [ob], h);
      lost' := StreamRun(s1, k1, acts[1..], h, o, values + first, lost1);
      HeardHead(acts, [ob] + rest.2, h);
      assert ([ob] + rest.2)[1..] == rest.2;
      assert values + first + Heard(acts[1..], rest.2, h) == values + (first + Heard(acts[1..], rest.2, h));
    }
  }

  /** What the slot of a multishot handle holds, and what the kernel has posted for it. */
  lemma StreamSlot(c: Code, k: KState, s: SState, l: Link, h: nat)
    requires Sim(c, k, s, l) && h in s.handles && s.handles[h].Owns?
    requires s.handles[h].op < |s.ops| && s.ops[s.handles[h].op].kind.Multi?
    ensures var o := s.handles[h].op; var op := s.ops[o];
            && h in c.ios && c.ios[h].Many? && c.ios[h].many.SubmittedMany? && c.ios[h].many.slot in c.ring.multishot
            && c.ring.multishot[c.ios[h].many.slot] == MultishotState(op.results[op.lo..], false, op.closed)
            && OpOk(op) && o < |k.ops| && k.ops[o].posted == op.results + Queued(k.cq, o)
            && (op.closed ==> Queued(k.cq, o) == [] && !k.ops[o].live)
  {
    HeldSlot(c, k, s, l, h);
    var o := s.handles[h].op;
    hide PendingOk, OneshotsOk, MultishotsOk, HandlesOk;
    assert PostedOk(k.ops[o], s.ops[o], k.cq, o);
    if s.ops[o].closed {
      QueuedNone(k.cq, o);
    }
  }

  /** The positions `taken` of `reaped` were delivered, in order, before position lo. */
  ghost predicate InOrder(heard: seq<int>, reaped: seq<int>, taken: seq<nat>, lo: nat) {
    && lo <= |reaped|
    && (forall i | 0 <= i < |taken| :: taken[i] < lo)
    && (forall i, j | 0 <= i < j < |taken| :: taken[i] < taken[j])
    && |heard| == |taken| && (forall i | 0 <= i < |taken| :: heard[i] == reaped[taken[i]])
  }

  lemma OpInOrder(op: SpecOp, heard: seq<int>)
    requires OpOk(op) && TakenOk(op) && Values(op) == heard
    ensures InOrder(heard, op.results, op.taken, op.lo)
    ensures |heard| + op.lost == op.lo
    ensures op.lost == 0 ==> heard + op.results[op.lo..] == op.results
  {
    if op.lost == 0 {
      assert heard == op.results[..op.lo];
    }
  }

  /**
   Stream fidelity. Follow a multishot handle from its submission through any run that keeps it:
   `reaped` is the part of the kernel's results that the reactor has processed, its buffer is a
   suffix of that of length at most 1024, and what the polls returned are results of ever
   later positions, all of them before the buffer. Of the rest, exactly as many were lost as there
   were completions that met a buffer of 1024; if there were none, what was returned followed by
   the buffer is everything reaped.
   */
  lemma StreamFidelity(c: Code, k: KState, s: SState, l: Link, acts: seq<RAct>, h: nat, o: nat)
    returns (reaped: seq<int>, lo: nat, taken: seq<nat>, slot: nat)
    requires Sim(c, k, s, l) && EnabledRun(c, k, acts) && Peaceful(c, k, acts) && Keeps(acts, h)
    requires StreamAt(s, h, o, [], 0)
    ensures CodeRun(c, k, acts).Returned? && Sensible(s)
    ensures var (c', k', obs) := CodeRun(c, k, acts).value;
            && o < |k'.ops| && k'.ops[o].posted == reaped + Queued(k'.cq, o)
            && HoldsMultishot(c', h, slot) && slot in c'.ring.multishot
            && InOrder(Heard(acts, obs, h), reaped, taken, lo)
            && var buffer := c'.ring.multishot[slot].results;
               && buffer == reaped[lo..] && |buffer| <= 1024
               && |Heard(acts, obs, h)| + Overflows(s, k, acts, o) + |buffer| == |reaped|
               && (Overflows(s, k, acts, o) == 0 ==> Heard(acts, obs, h) + buffer == reaped)
  {
    var l' := RunSimulates(c, k, s, l, acts);
    SimExclusive(c, k, s, l);
    var (c', k', obs) := CodeRun(c, k, acts).value;
    var s' := SpecRun(s, k, acts).0;
    var lost := StreamRun(s, k, acts, h, o, [], 0);
    hide Sim, EnabledRun, Peaceful, CodeRun, SpecRun, Heard, Overflows, InOrder;
    assert [] + Heard(acts, obs, h) == Heard(acts, obs, h);
    StreamSlot(c', k', s', l', h);
    OpInOrder(s'.ops[o], Heard(acts, obs, h));
    hide OpOk, TakenOk, Values;
    reaped, lo, taken, slot := s'.ops[o].results, s'.ops[o].lo, s'.ops[o].taken, c'.ios[h].many.slot;
    assert |s'.ops[o].results| - s'.ops[o].lo <= 1024 by { BufferBound(s'.ops[o]); }
  }

  /**
   A completion joins the buffer of its stream behind what is there. Only if 1024 results wait there
   already is one of them lost, the oldest; the handles' other streams are left alone.
   */
  lemma OldestIsLost(c: Code, k: KState, s: SState, l: Link, h: nat, slot: nat)
    requires Sim(c, k, s, l) && k.cq != [] && HoldsMultishot(c, h, slot)
    ensures CodeStep(c, k, Reap).Returned? && slot in c.ring.multishot
    ensures h in s.handles && s.handles[h].Owns? && k.cq[0].op < |k.ops|
    ensures var c' := CodeStep(c, k, Reap).value.0; var was := c.ring.multishot[slot].results;
            && HoldsMultishot(c', h, slot) && slot in c'.ring.multishot
            && c'.ring.multishot[slot].results
               == if s.handles[h] != Owns(k.cq[0].op) then was
                  else if |was| < 1024 then was + [k.cq[0].res]
                  else was[1..] + [k.cq[0].res]
  {
    hide Sim, CodeStep, SpecStep, MayPanic, Enabled, OpOk, NextCompletion;
    HolderOf(c, k, s, l, h, slot);
    SimSensible(c, k, s, l);
    CqHead(c, k, s, l);
    ReapEnabled(c, k);
    StepSimulates(c, k, s, l, Reap);
    var c', s' := CodeStep(c, k, Reap).value.0, SpecStep(s, k, Reap).0;
    var o := s.handles[h].op;
    ReapedOp(s, k, o);
    SameIos(c, k);
    StreamSlot(c, k, s, l, h);
    StreamSlot(c', KernelStep(k, Reap, None), s', l, h);
    BufferBound(s.ops[o]);
    LaterSuffix(s.ops[o].results, s.ops[o].lo, k.cq[0].res);
  }

  lemma LaterSuffix(results: seq<int>, lo: nat, res: int)
    requires lo <= |results|
    ensures (results + [res])[lo..] == results[lo..] + [res]
    ensures lo < |results| ==> (results + [res])[lo + 1..] == results[lo..][1..] + [res]
  {
  }

  lemma ReapEnabled(c: Code, k: KState)
    requires k.cq != [] && k.cq[0].op < |k.ops|
    ensures Enabled(c, k, Reap) && !MayPanic(c, Reap)
  {
  }

  lemma SameIos(c: Code, k: KState)
    requires CodeStep(c, k, Reap).Returned?
    ensures CodeStep(c, k, Reap).value.0.ios == c.ios
    ensures CodeSubmits(c, Reap) == None
  {
  }

  lemma HolderOf(c: Code, k: KState, s: SState, l: Link, h: nat, slot: nat)
    requires Sim(c, k, s, l) && HoldsMultishot(c, h, slot)
    ensures h in s.handles && s.handles[h].Owns? && s.handles[h].op < |s.ops|
    ensures s.ops[s.handles[h].op].kind.Multi? && slot in c.ring.multishot
  {
    assert |l.slot| == |s.ops|;
    hide PendingOk, OneshotsOk, KernelOk;
    assert h in s.handles && IoOk(c.ios[h], h, s.handles[h], k.ops, s.ops, l);
  }

  lemma CqHead(c: Code, k: KState, s: SState, l: Link)
    requires Sim(c, k, s, l) && k.cq != []
    ensures |k.ops| == |s.ops| && k.cq[0].op < |s.ops|
  {
    hide PendingOk, OneshotsOk, MultishotsOk, HandlesOk, OpsOk, PostedOk;
  }

  lemma ReapedOp(s: SState, k: KState, o: nat)
    requires Sensible(s) && k.cq != [] && k.cq[0].op < |s.ops| && o < |s.ops| && s.ops[o].kind.Multi?
    ensures var s' := SpecStep(s, k, Reap).0;
            && s'.handles == s.handles && |s'.ops| == |s.ops| && s'.ops[o].kind.Multi?
            && (k.cq[0].op != o ==> s'.ops[o] == s.ops[o])
            && (k.cq[0].op == o ==>
                  && s'.ops[o].results == s.ops[o].results + [k.cq[0].res]
                  && s'.ops[o].lo
                     == if |s.ops[o].results| - s.ops[o].lo >= 1024 then s.ops[o].lo + 1 else s.ops[o].lo)
  {
  }

  lemma BufferBound(op: SpecOp)
    requires OpOk(op)
    ensures op.lo <= |op.results| && |op.results| - op.lo <= 1024
  {
  }

  /**
   End of stream. A poll returns `Ready(None)` exactly when the final completion was processed
   and every buffered value was taken; the kernel has then nothing more to say.
   */
  lemma EndOfStream(c: Code, k: KState, s: SState, l: Link, a: RAct)
    requires Sim(c, k, s, l) && a.PollIo? && a.h in s.handles && s.handles[a.h].Owns?
    requires s.handles[a.h].op < |s.ops| && s.ops[s.handles[a.h].op].kind.Multi?
    ensures CodeStep(c, k, a).Returned?
    ensures var o := s.handles[a.h].op;
            (CodeStep(c, k, a).value.1 == Polled(Ready(None))
             <==> s.ops[o].closed && s.ops[o].lo == |s.ops[o].results|)
    ensures var o := s.handles[a.h].op;
            CodeStep(c, k, a).value.1 == Polled(Ready(None)) ==>
              o < |k.ops| && !k.ops[o].live && k.ops[o].posted == s.ops[o].results && CodeStep(c, k, a).value.0 == c
  {
    SimSensible(c, k, s, l);
    StreamSlot(c, k, s, l, a.h);
    HeldSlot(c, k, s, l, a.h);
    var o := s.handles[a.h].op;
    hide Sim, OpOk;
    PollMultishotResult(c, k, s, a, l.slot[o], k.ops[o].userData);
    assert s.ops[o].lo <= |s.ops[o].results|;
  }

  /** The stream of handle h is over: closed, and everything taken. */
  ghost predicate Over(s: SState, h: nat, o: nat) {
    && h in s.handles && s.handles[h] == Owns(o) && o < |s.ops| && s.ops[o].kind.Multi?
    && s.ops[o].closed && s.ops[o].lo == |s.ops[o].results|
  }

  lemma StepOver(s: SState, k: KState, a: RAct, h: nat, o: nat)
    requires Sensible(s) && Exclusive(s) && Over(s, h, o) && Keeps([a], h)
    requires k.cq != [] ==> k.cq[0].op != o
    ensures Over(SpecStep(s, k, a).0, h, o)
    ensures a.PollIo? && a.h == h ==> SpecStep(s, k, a).1 == Polled(Ready(None))
  {
    assert [a][0] == a;
  }

  lemma NothingForClosed(c: Code, k: KState, s: SState, l: Link, o: nat)
    requires Sim(c, k, s, l) && o < |s.ops| && s.ops[o].closed
    ensures k.cq != [] ==> k.cq[0].op != o
  {
    hide PendingOk, OneshotsOk, MultishotsOk, HandlesOk, PostedOk, OpsOk;
  }

  /** One act of a run of code and specification. */
  lemma RunHead(c: Code, k: KState, s: SState, l: Link, acts: seq<RAct>)
    returns (c': Code, k': KState, s': SState, l': Link, obs: Obs)
    requires Sim(c, k, s, l) && acts != [] && EnabledRun(c, k, acts) && Peaceful(c, k, acts)
    ensures Sensible(s) && CodeStep(c, k, acts[0]) == Returned((c', obs)) && SpecStep(s, k, acts[0]) == (s', obs)
    ensures k' == KernelStep(k, acts[0], CodeSubmits(c, acts[0]))
    ensures Sim(c', k', s', l') && EnabledRun(c', k', acts[1..]) && Peaceful(c', k', acts[1..])
  {
    hide Sim, CodeStep, SpecStep, MayPanic;
    StepSimulates(c, k, s, l, acts[0]);
    var submits := CodeSubmits(c, acts[0]);
    c', obs := CodeStep(c, k, acts[0]).value.0, CodeStep(c, k, acts[0]).value.1;
    k', s', l' := KernelStep(k, acts[0], submits), SpecStep(s, k, acts[0]).0, LinkStep(l, k, acts[0], submits);
  }

  lemma CodeRunHead(c: Code, k: KState, acts: seq<RAct>, c': Code, obs: Obs)
    requires acts != [] && CodeStep(c, k, acts[0]) == Returned((c', obs))
    ensures var rest := CodeRun(c', KernelStep(k, acts[0], CodeSubmits(c, acts[0])), acts[1..]);
            rest.Returned? ==>
              CodeRun(c, k, acts) == Returned((rest.value.0, rest.value.1, [obs] + rest.value.2))
  {
  }

  /** After the end of its stream, every poll of a handle returns `Ready(None)`. */
  lemma {:induction false} EndStays(c: Code, k: KState, s: SState, l: Link, acts: seq<RAct>, h: nat, o: nat)
    requires Sim(c, k, s, l) && EnabledRun(c, k, acts) && Peaceful(c, k, acts) && Keeps(acts, h) && Over(s, h, o)
    ensures CodeRun(c, k, acts).Returned?
    ensures forall i | 0 <= i < |acts| && acts[i].PollIo? && acts[i].h == h ::
              CodeRun(c, k, acts).value.2[i] == Polled(Ready(None))
    decreases |acts|
  {
    hide Sim, EnabledRun, Peaceful, CodeStep, SpecStep, Exclusive, Untaken;
    if acts != [] {
      SimExclusive(c, k, s, l);
      NothingForClosed(c, k, s, l, o);
      var c', k', s', l', ob := RunHead(c, k, s, l, acts);
      assert forall i | 0 <= i < |acts[1..]| :: acts[1..][i] == acts[i + 1];
      StepOver(s, k, acts[0], h, o);
      hide Over, CodeRun;
      EndStays(c', k', s', l', acts[1..], h, o);
      CodeRunHead(c, k, acts, c', ob);
      assert forall i | 1 <= i < |acts| :: acts[i] == acts[1..][i - 1];
    }
  }

  // ---------------------------------------------------------------- the same, said of the code

  /** How often the code runs the closure of handle h. */
  ghost function Closures(c: Code, k: KState, acts: seq<RAct>, h: nat): nat
    decreases |acts|
  {
    if acts == [] then 0
    else
      var submits := CodeSubmits(c, acts[0]);
      (if submits.Some? && acts[0].h == h then 1 else 0)
      + match CodeStep(c, k, acts[0])
        case Panicked => 0
        case Returned((c', _)) => Closures(c', KernelStep(k, acts[0], submits), acts[1..], h)
  }

  lemma {:induction false} SameSubmissions(c: Code, k: KState, s: SState, l: Link, acts: seq<RAct>, h: nat)
    requires Sim(c, k, s, l) && EnabledRun(c, k, acts) && Peaceful(c, k, acts)
    ensures Sensible(s) && Closures(c, k, acts, h) == Submissions(s, k, acts, h)
    decreases |acts|
  {
    SimSensible(c, k, s, l);
    hide Sim, EnabledRun, Peaceful, CodeStep, SpecStep, CodeSubmits, SpecSubmits;
    if acts != [] {
      SameSubmits(c, k, s, l, acts[0]);
      var c', k', s', l', _ := RunHead(c, k, s, l, acts);
      SameSubmissions(c', k', s', l', acts[1..], h);
    }
  }

  lemma SameSubmits(c: Code, k: KState, s: SState, l: Link, a: RAct)
    requires Sim(c, k, s, l)
    ensures CodeSubmits(c, a) == SpecSubmits(s, a)
  {
    assert |l.slot| == |s.ops|;
    hide PendingOk, OneshotsOk, MultishotsOk, KernelOk, OpsOk;
    assert a.PollIo? && a.h in s.handles ==> IoOk(c.ios[a.h], a.h, s.handles[a.h], k.ops, s.ops, l);
  }

  /**
   The closure passed to `submit_or_get_result` runs at most once for a handle, however often the
   handle is polled: once if the run takes the handle from new to submitted, otherwise never.
   */
  lemma ClosureRunsOnce(c: Code, k: KState, s: SState, l: Link, acts: seq<RAct>, h: nat)
    requires Sim(c, k, s, l) && EnabledRun(c, k, acts) && Peaceful(c, k, acts) && Keeps(acts, h) && h in c.ios
    ensures CodeRun(c, k, acts).Returned? && h in CodeRun(c, k, acts).value.0.ios
    ensures Closures(c, k, acts, h)
            == if IsNew(c.ios[h]) && !IsNew(CodeRun(c, k, acts).value.0.ios[h]) then 1 else 0
  {
    SimExclusive(c, k, s, l);
    SameNews(c, k, s, l);
    SameSubmissions(c, k, s, l, acts, h);
    SubmitOnce(s, k, acts, h);
    var l' := RunSimulates(c, k, s, l, acts);
    var (c', k', _) := CodeRun(c, k, acts).value;
    SameNews(c', k', SpecRun(s, k, acts).0, l');
  }

  lemma SameNews(c: Code, k: KState, s: SState, l: Link)
    requires Sim(c, k, s, l)
    ensures c.ios.Keys == s.handles.Keys
    ensures forall h | h in s.handles :: IsNew(c.ios[h]) <==> s.handles[h].Fresh?
    ensures forall h, v | h in s.handles :: c.ios[h] == One(FinishedOne(v)) <==> s.handles[h] == Done(v)
  {
    assert |l.slot| == |s.ops|;
    hide PendingOk, OneshotsOk, MultishotsOk, KernelOk, OpsOk;
    assert forall h | h in s.handles :: IoOk(c.ios[h], h, s.handles[h], k.ops, s.ops, l);
  }

  /** A finished oneshot handle answers every later poll with the same result. */
  lemma FinishedStays(c: Code, k: KState, s: SState, l: Link, acts: seq<RAct>, h: nat, v: int)
    requires Sim(c, k, s, l) && EnabledRun(c, k, acts) && Peaceful(c, k, acts) && Keeps(acts, h)
    requires h in c.ios && c.ios[h] == One(FinishedOne(v))
    ensures CodeRun(c, k, acts).Returned? && Closures(c, k, acts, h) == 0
    ensures forall i | 0 <= i < |acts| && acts[i].PollIo? && acts[i].h == h ::
              CodeRun(c, k, acts).value.2[i] == Polled(Ready(Some(v)))
  {
    SimExclusive(c, k, s, l);
    SameNews(c, k, s, l);
    SameSubmissions(c, k, s, l, acts, h);
    StableResult(s, k, acts, h);
    var _ := RunSimulates(c, k, s, l, acts);
  }
}
