/** What the simulation means for users of the reactor, over whole runs. */
module ReactorTheorems {
  import opened Wrappers
  import opened Reactor
  import opened Kernel
  import opened Spec
  import opened Simulation

  // ---------------------------------------------------------------- runs

  /** A run of the code: where it ends and what it shows, unless it panics. */
  function CodeRun(c: Code, k: KState, acts: seq<RAct>): (r: Outcome<(Code, KState, seq<Obs>)>)
    ensures r.Returned? ==> |r.value.2| == |acts|
    decreases |acts|
  {
    if acts == [] then Returned((c, k, []))
    else match CodeStep(c, k, acts[0])
      case Panicked => Panicked
      case Returned((c', obs)) =>
        match CodeRun(c', KernelStep(k, acts[0], CodeSubmits(c, acts[0])), acts[1..])
        case Panicked => Panicked
        case Returned((c'', k'', rest)) => Returned((c'', k'', [obs] + rest))
  }

  /** The same acts on the specification, which knows neither slots nor user data. */
  function SpecRun(s: SState, k: KState, acts: seq<RAct>): (r: (SState, KState, seq<Obs>))
    requires Sensible(s)
    ensures |r.2| == |acts| && Sensible(r.0)
    decreases |acts|
  {
    if acts == [] then (s, k, [])
    else
      var (s', obs) := SpecStep(s, k, acts[0]);
      var (s'', k'', rest) := SpecRun(s', KernelStep(k, acts[0], SpecSubmits(s, acts[0])), acts[1..]);
      (s'', k'', [obs] + rest)
  }

  /** Every act of the run makes sense when its turn comes. */
  ghost predicate EnabledRun(c: Code, k: KState, acts: seq<RAct>)
    decreases |acts|
  {
    acts == []
    || (Enabled(c, k, acts[0])
        && (CodeStep(c, k, acts[0]).Returned? ==>
              EnabledRun(CodeStep(c, k, acts[0]).value.0, KernelStep(k, acts[0], CodeSubmits(c, acts[0])), acts[1..])))
  }

  /** No submission meets a full queue and no cancellation is refused. */
  ghost predicate Peaceful(c: Code, k: KState, acts: seq<RAct>)
    decreases |acts|
  {
    acts == []
    || (!MayPanic(c, acts[0])
        && (CodeStep(c, k, acts[0]).Returned? ==>
              Peaceful(CodeStep(c, k, acts[0]).value.0, KernelStep(k, acts[0], CodeSubmits(c, acts[0])), acts[1..])))
  }

  lemma BootSim()
    ensures Sim(NoCode, Boot, Empty, NoLink) && Sensible(Empty)
  {
  }

  lemma {:induction false} RunSimulates(c: Code, k: KState, s: SState, l: Link, acts: seq<RAct>) returns (l': Link)
    requires Sim(c, k, s, l) && EnabledRun(c, k, acts)
    ensures Sensible(s)
    ensures CodeRun(c, k, acts).Panicked? <==> !Peaceful(c, k, acts)
    ensures Peaceful(c, k, acts) ==>
              var (c', k', obs) := CodeRun(c, k, acts).value;
              var (s', sk', sobs) := SpecRun(s, k, acts);
              obs == sobs && k' == sk' && Sim(c', k', s', l')
    decreases |acts|
  {
    SimSensible(c, k, s, l);
    hide Sim;
    l' := l;
    if acts != [] {
      var a := acts[0];
      StepSimulates(c, k, s, l, a);
      if !MayPanic(c, a) {
        var submits := CodeSubmits(c, a);
        l' := RunSimulates(CodeStep(c, k, a).value.0, KernelStep(k, a, submits), SpecStep(s, k, a).0,
                           LinkStep(l, k, a, submits), acts[1..]);
      }
    }
  }

  /**
   Recycled slots refine unique operation numbers: every run from start-up shows its user
   exactly what the specification shows, and it panics exactly when it submits to a full queue
   or the kernel refuses a cancellation.
   */
  lemma RefinesUniqueIds(acts: seq<RAct>)
    requires EnabledRun(NoCode, Boot, acts)
    ensures CodeRun(NoCode, Boot, acts).Panicked? <==> !Peaceful(NoCode, Boot, acts)
    ensures Sensible(Empty)
    ensures Peaceful(NoCode, Boot, acts) ==> CodeRun(NoCode, Boot, acts).value.2 == SpecRun(Empty, Boot, acts).2
  {
    BootSim();
    var _ := RunSimulates(NoCode, Boot, Empty, NoLink, acts);
  }

  // ---------------------------------------------------------------- ownership of slots

  ghost predicate HoldsOneshot(c: Code, h: nat, i: nat) {
    h in c.ios && c.ios[h] == One(SubmittedOne(i))
  }

  ghost predicate PendingOneshot(c: Code, u: nat, i: nat) {
    u in c.ring.pending && c.ring.pending[u].kind.Oneshot? && c.ring.pending[u].slot == i
  }

  /**
   A oneshot slot is marked dropped or has exactly one handle; it is unset or dropped exactly if
   one pending entry names it.
   */
  lemma OneshotOwnership(c: Code, k: KState, s: SState, l: Link)
    requires Sim(c, k, s, l)
    ensures forall i | i in c.ring.oneshot ::
              c.ring.oneshot[i].Dropped? <==> !exists h :: HoldsOneshot(c, h, i)
    ensures forall i, h, h' :: HoldsOneshot(c, h, i) && HoldsOneshot(c, h', i) ==> h == h'
    ensures forall i, h :: HoldsOneshot(c, h, i) ==> i in c.ring.oneshot
    ensures forall i :: (exists u :: PendingOneshot(c, u, i)) <==> i in c.ring.oneshot && !c.ring.oneshot[i].Set?
    ensures forall i, u, u' :: PendingOneshot(c, u, i) && PendingOneshot(c, u', i) ==> u == u'
  {
    forall h, i | HoldsOneshot(c, h, i)
      ensures i in c.ring.oneshot && s.handles[h] == Owns(l.one[i]) && !c.ring.oneshot[i].Dropped?
      ensures s.ops[l.one[i]].holder == Some(h)
    {
      assert IoOk(c.ios[h], h, s.handles[h], k.ops, s.ops, l);
    }
    forall i | i in c.ring.oneshot && !c.ring.oneshot[i].Dropped?
      ensures exists h :: HoldsOneshot(c, h, i)
    {
      var h := s.ops[l.one[i]].holder.value;
      assert IoOk(c.ios[h], h, s.handles[h], k.ops, s.ops, l);
      assert HoldsOneshot(c, h, i);
    }
    forall i | i in c.ring.oneshot && !c.ring.oneshot[i].Set?
      ensures exists u :: PendingOneshot(c, u, i)
    {
      var o := l.one[i];
      assert OpOk(s.ops[o]);
      assert PendingOneshot(c, k.ops[o].userData, i);
    }
    forall i, u | PendingOneshot(c, u, i)
      ensures i in c.ring.oneshot && !c.ring.oneshot[i].Set? && l.one[i] == l.ud[u]
    {
      assert OpOk(s.ops[l.ud[u]]);
    }
  }

  ghost predicate HoldsMultishot(c: Code, h: nat, i: nat) {
    h in c.ios && c.ios[h].Many? && c.ios[h].many.SubmittedMany? && c.ios[h].many.slot == i
  }

  /**
   A multishot slot is marked dropped or has exactly one handle. While it is unfinished it has a
   pending entry; no two unfinished slots share one, although entries of finished operations
   stay behind and may name the same slot.
   */
  lemma MultishotOwnership(c: Code, k: KState, s: SState, l: Link) returns (entry: map<nat, nat>)
    requires Sim(c, k, s, l)
    ensures forall i | i in c.ring.multishot ::
              c.ring.multishot[i].dropped <==> !exists h :: HoldsMultishot(c, h, i)
    ensures forall i, h, h' :: HoldsMultishot(c, h, i) && HoldsMultishot(c, h', i) ==> h == h'
    ensures forall i, h :: HoldsMultishot(c, h, i) ==> i in c.ring.multishot
    ensures forall i :: i in entry <==> i in c.ring.multishot && !c.ring.multishot[i].finished
    ensures forall i | i in entry ::
              && entry[i] in c.ring.pending && c.ring.pending[entry[i]].kind.Multi?
              && c.ring.pending[entry[i]].slot == i
    ensures forall i, j :: i in entry && j in entry && entry[i] == entry[j] ==> i == j
  {
    forall h, i | HoldsMultishot(c, h, i)
      ensures i in c.ring.multishot && s.handles[h] == Owns(l.many[i]) && !c.ring.multishot[i].dropped
      ensures s.ops[l.many[i]].holder == Some(h)
    {
      assert IoOk(c.ios[h], h, s.handles[h], k.ops, s.ops, l);
    }
    forall i | i in c.ring.multishot && !c.ring.multishot[i].dropped
      ensures exists h :: HoldsMultishot(c, h, i)
    {
      var h := s.ops[l.many[i]].holder.value;
      assert IoOk(c.ios[h], h, s.handles[h], k.ops, s.ops, l);
      assert HoldsMultishot(c, h, i);
    }
    entry := map i | i in c.ring.multishot && !c.ring.multishot[i].finished :: k.ops[l.many[i]].userData;
  }

  // ---------------------------------------------------------------- clean-up

  /** Nothing is in flight and no completion waits. */
  ghost predicate Quiet(k: KState) {
    k.cq == [] && forall o | 0 <= o < |k.ops| :: !k.ops[o].live
  }

  /** No handle has an operation that it could still ask for. */
  ghost predicate LetGo(c: Code) {
    forall h | h in c.ios ::
      !(c.ios[h].One? && c.ios[h].one.SubmittedOne?) && !(c.ios[h].Many? && c.ios[h].many.SubmittedMany?)
  }

  ghost function MultishotsOf(k: KState): set<nat> {
    set o | 0 <= o < |k.ops| && k.ops[o].kind.Multi?
  }

  lemma {:induction false} SameSize(m: map<nat, nat>, image: set<nat>)
    requires forall x | x in m :: m[x] in image
    requires forall x, y | x in m && y in m && m[x] == m[y] :: x == y
    requires forall y | y in image :: exists x :: x in m && m[x] == y
    ensures |m| == |image|
  {
    if m == map[] {
      assert image == {};
    } else {
      var x :| x in m;
      var m' := m - {x};
      forall y | y in image - {m[x]}
        ensures exists z :: z in m' && m'[z] == y
      {
        var z :| z in m && m[z] == y;
        assert z in m' && m'[z] == y;
      }
      SameSize(m', image - {m[x]});
      assert m.Keys == m'.Keys + {x};
    }
  }

  lemma AllReleased(c: Code, k: KState, s: SState, l: Link)
    requires Sim(c, k, s, l) && Quiet(k) && LetGo(c)
    ensures forall o | 0 <= o < |s.ops| :: s.ops[o].closed && s.ops[o].holder == None
  {
    assert |s.ops| == |l.slot|;
    hide PendingOk, OneshotsOk, MultishotsOk, OpsOk;
    assert forall h | h in s.handles :: IoOk(c.ios[h], h, s.handles[h], k.ops, s.ops, l);
    forall o | 0 <= o < |s.ops|
      ensures s.ops[o].closed && s.ops[o].holder == None
    {
      assert PostedOk(k.ops[o], s.ops[o], k.cq, o);
    }
  }

  /**
   When everything has completed and every handle has taken its result or is gone, no result
   slot is left over, and `pending` holds exactly one entry per multishot operation ever submitted.
   */
  lemma StoresDrain(c: Code, k: KState, s: SState, l: Link)
    requires Sim(c, k, s, l) && Quiet(k) && LetGo(c)
    ensures c.ring.oneshot == map[] && c.ring.multishot == map[]
    ensures |c.ring.pending| == |MultishotsOf(k)|
    ensures c.ring.pending.Keys == set o | o in MultishotsOf(k) :: k.ops[o].userData
  {
    AllReleased(c, k, s, l);
    assert forall o | 0 <= o < |s.ops| :: PostedOk(k.ops[o], s.ops[o], k.cq, o);
    hide HandlesOk, OpsOk, CqOk, PendingOk;
    PendingCount(c.ring.pending, k, s.ops, l);
  }

  lemma PendingCount(pending: map<nat, PendingIo>, k: KState, ops: seq<SpecOp>, l: Link)
    requires |k.ops| == |ops| && PendingOk(pending, k.ops, ops, l)
    requires forall o | 0 <= o < |ops| :: ops[o].closed && ops[o].kind == k.ops[o].kind
    ensures |pending| == |MultishotsOf(k)|
    ensures pending.Keys == set o | o in MultishotsOf(k) :: k.ops[o].userData
  {
    var owner := map u | u in pending :: l.ud[u];
    assert forall o | o in MultishotsOf(k) :: k.ops[o].userData in owner && owner[k.ops[o].userData] == o;
    SameSize(owner, MultishotsOf(k));
    assert owner.Keys == pending.Keys;
  }

  // ---------------------------------------------------------------- drop and completion commute

  lemma PendingDetermined(p: map<nat, PendingIo>, p': map<nat, PendingIo>, kops: seq<KernelOp>, ops: seq<SpecOp>, l: Link)
    requires |kops| == |ops| && PendingOk(p, kops, ops, l) && PendingOk(p', kops, ops, l)
    ensures p == p'
  {
  }

  lemma OneshotsDetermined(p: Oneshots, p': Oneshots, ops: seq<SpecOp>, l: Link)
    requires OneshotsOk(p, ops, l) && OneshotsOk(p', ops, l)
    ensures p == p'
  {
    hide OneSlot, HasSlot;
  }

  lemma MultishotsDetermined(p: Multishots, p': Multishots, ops: seq<SpecOp>, l: Link)
    requires MultishotsOk(p, ops, l) && MultishotsOk(p', ops, l)
    ensures p == p'
  {
    hide ManySlot, HasSlot;
  }

  /** The code's state is determined by what the specification and the owner maps say. */
  lemma CodeDetermined(c: Code, c': Code, k: KState, s: SState, l: Link)
    requires Sim(c, k, s, l) && Sim(c', k, s, l) && c.ring.queued == c'.ring.queued
    ensures c == c'
  {
    assert |k.ops| == |s.ops| == |l.slot|;
    hide OneshotsOk, MultishotsOk, PendingOk, KernelOk;
    forall h | h in s.handles
      ensures c.ios[h] == c'.ios[h]
    {
      assert IoOk(c.ios[h], h, s.handles[h], k.ops, s.ops, l) && IoOk(c'.ios[h], h, s.handles[h], k.ops, s.ops, l);
    }
    hide HandlesOk;
    assert c.ios == c'.ios;
    PendingDetermined(c.ring.pending, c'.ring.pending, k.ops, s.ops, l);
    OneshotsDetermined(c.ring.oneshot, c'.ring.oneshot, s.ops, l);
    MultishotsDetermined(c.ring.multishot, c'.ring.multishot, s.ops, l);
  }

  lemma SpecCommutes(s: SState, k: KState, h: nat)
    requires Sensible(s) && k.cq != [] && k.cq[0].op < |s.ops| && h in s.handles
    ensures var a := DropIo(h, true); var k' := k.(cq := k.cq[1..]);
            var dropped := SpecStep(s, k, a).0; var reaped := SpecStep(s, k, Reap).0;
            && SpecStep(dropped, k, Reap).0 == SpecStep(reaped, k', a).0
            && SpecStep(dropped, k, Reap).1 == SpecStep(s, k, Reap).1
            && SpecStep(reaped, k', a).1 == Silent
  {
  }

  /** A drop or a completion, done by both sides. */
  lemma Advance(c: Code, k: KState, s: SState, l: Link, a: RAct) returns (c': Code, s': SState, obs: Obs)
    requires Sim(c, k, s, l) && (if a.Reap? then k.cq != [] else a.DropIo? && a.h in c.ios && a.cancelled)
    ensures Sensible(s) && CodeStep(c, k, a) == Returned((c', obs)) && SpecStep(s, k, a) == (s', obs)
    ensures Sim(c', if a.Reap? then k.(cq := k.cq[1..]) else k, s', l)
    ensures c'.ring.queued == c.ring.queued
    ensures c'.ios == if a.Reap? then c.ios else c.ios - {a.h}
    ensures c.ios.Keys == s.handles.Keys && |k.ops| == |s.ops| && (k.cq != [] ==> k.cq[0].op < |k.ops|)
  {
    hide OneshotsOk, MultishotsOk, PendingOk, PostedOk, NextCompletion;
    StepSimulates(c, k, s, l, a);
    hide Sim;
    c', obs := CodeStep(c, k, a).value.0, CodeStep(c, k, a).value.1;
    s' := SpecStep(s, k, a).0;
    QueuedKept(c, k, a);
  }

  lemma QueuedKept(c: Code, k: KState, a: RAct)
    requires (a.DropIo? || a.Reap?) && CodeStep(c, k, a).Returned?
    ensures CodeStep(c, k, a).value.0.ring.queued == c.ring.queued
    ensures a.DropIo? && a.h in c.ios ==> CodeStep(c, k, a).value.0.ios == c.ios - {a.h}
    ensures a.Reap? ==> CodeStep(c, k, a).value.0.ios == c.ios
  {
  }

  /**
   Dropping a handle and reaping a completion, of the same operation or of another, may happen
   in either order: neither panics, the same task is woken and the same slots are freed.
   */
  lemma DropCommutesWithReap(c: Code, k: KState, s: SState, l: Link, h: nat)
    requires Sim(c, k, s, l) && h in c.ios && k.cq != []
    ensures var k' := k.(cq := k.cq[1..]);
            var dropped := CodeStep(c, k, DropIo(h, true));
            var reaped := CodeStep(c, k, Reap);
            && dropped.Returned? && reaped.Returned?
            && CodeStep(dropped.value.0, k, Reap).Returned?
            && CodeStep(reaped.value.0, k', DropIo(h, true))
               == Returned((CodeStep(dropped.value.0, k, Reap).value.0, Silent))
            && CodeStep(dropped.value.0, k, Reap).value.1 == reaped.value.1
  {
    var a := DropIo(h, true);
    hide CodeStep, SpecStep, Sim;
    var c1, s1, o1 := Advance(c, k, s, l, a);
    var c2, s2, o2 := Advance(c, k, s, l, Reap);
    var c12, s12, o12 := Advance(c1, k, s1, l, Reap);
    var c21, s21, o21 := Advance(c2, k.(cq := k.cq[1..]), s2, l, a);
    SpecCommutes(s, k, h);
    CodeDetermined(c12, c21, k.(cq := k.cq[1..]), s12, l);
  }
}
