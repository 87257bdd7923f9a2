/**
 The reactor with recycled slots simulates the specification with unique operation numbers.
 */
module Simulation {
  import opened Wrappers
  import opened Reactor
  import opened Kernel
  import opened Spec

  /** A handle in the user's hands. */
  datatype Io = One(one: OneshotIo) | Many(many: MultishotIo)

  /** Everything the reactor's code keeps: the ring and the handles that share it. */
  datatype Code = Code(ring: Ring, ios: map<nat, Io>)

  const NoCode := Code(EmptyRing, map[])

  /**
   What can happen to the reactor. `slot` and `userData` are the keys the two slabs hand out if
   the call submits; `cancelled` is the kernel's answer to a cancellation; `Flush` is
   `submit_and_wait`, `Reap` one round of the completion iterator.
   */
  datatype RAct =
    | NewIo(h: nat, kind: IoKind)
    | PollIo(h: nat, obj: nat, target: Target, slot: nat, userData: nat)
    | DropIo(h: nat, cancelled: bool)
    | Flush
    | Reap
    | PostCqe(op: nat, res: int, more: bool)
    | OpenEvent(fd: nat)
    | NotifyEvent(fd: nat)
    | TakeEvent(fd: nat)

  /** What the user of the reactor sees of one act. */
  datatype Obs = Silent | Polled(poll: Poll<Option<int>>) | Woke(obj: nat)

  predicate IsNew(io: Io) {
    match io
    case One(s) => s.NewOne?
    case Many(s) => s.NewMany?
  }

  function KindOf(io: Io): IoKind {
    if io.One? then Oneshot else Multi
  }

  // ---------------------------------------------------------------- the code

  function LiftPoll(p: Poll<int>): Poll<Option<int>> {
    match p
    case Pending => Pending
    case Ready(v) => Ready(Some(v))
  }

  function CodePoll(c: Code, h: nat, obj: nat, slot: nat, userData: nat): Outcome<(Code, Poll<Option<int>>)>
    requires h in c.ios
  {
    match c.ios[h]
    case One(io) =>
      (match SubmitOrGetOneshot(io, c.ring, obj, slot, userData)
       case Panicked => Panicked
       case Returned((io', ring')) => Returned((Code(ring', c.ios[h := One(io')]), LiftPoll(OneshotPoll(io')))))
    case Many(io) =>
      match SubmitOrGetMultishot(io, c.ring, obj, slot, userData)
      case Panicked => Panicked
      case Returned((io', ring', p)) => Returned((Code(ring', c.ios[h := Many(io')]), p))
  }

  function CodeDrop(c: Code, h: nat, cancelled: bool): Outcome<Code>
    requires h in c.ios
  {
    var r := match c.ios[h]
      case One(io) => DropOneshotIo(io, c.ring)
      case Many(io) => DropMultishotIo(io, c.ring, cancelled);
    match r
    case Panicked => Panicked
    case Returned(ring) => Returned(Code(ring, c.ios - {h}))
  }

  /** Acts that make sense in this state; nothing here restricts what a caller of the reactor may do. */
  ghost predicate Enabled(c: Code, k: KState, a: RAct) {
    match a
    case NewIo(h, _) => h !in c.ios
    case PollIo(h, _, target, slot, userData) =>
      && h in c.ios
      && (IsNew(c.ios[h]) ==>
            && userData !in c.ring.pending
            && slot !in (if c.ios[h].One? then c.ring.oneshot.Keys else c.ring.multishot.Keys))
      && (target.Counter? ==> target.fd in k.fds && c.ios[h].One?)
    case DropIo(h, _) => h in c.ios
    case Flush => true
    case Reap => k.cq != [] && k.cq[0].op < |k.ops|
    case PostCqe(o, res, more) => CanPost(k, o, res, more)
    case OpenEvent(fd) => fd !in k.fds
    case NotifyEvent(fd) => fd in k.fds
    case TakeEvent(fd) => fd in k.fds && k.fds[fd].count > 0
  }

  /** The kernel's part of an act, the same for the code and for the specification. */
  function KernelStep(k: KState, a: RAct, submits: Option<IoKind>): KState {
    match a
    case PollIo(_, _, target, _, userData) =>
      if submits.Some? then Accept(k, submits.value, target, userData) else k
    case Reap => if k.cq != [] then k.(cq := k.cq[1..]) else k
    case PostCqe(o, res, more) => if CanPost(k, o, res, more) then Post(k, o, res, more) else k
    case OpenEvent(fd) => OpenFd(k, fd)
    case NotifyEvent(fd) => if fd in k.fds then Notify(k, fd) else k
    case TakeEvent(fd) => if fd in k.fds && k.fds[fd].count > 0 then TakeForeign(k, fd) else k
    case _ => k
  }

  function CodeSubmits(c: Code, a: RAct): Option<IoKind> {
    if a.PollIo? && a.h in c.ios && IsNew(c.ios[a.h]) then Some(KindOf(c.ios[a.h])) else None
  }

  function CodeStep(c: Code, k: KState, a: RAct): Outcome<(Code, Obs)> {
    match a
    case NewIo(h, kind) =>
      Returned((c.(ios := c.ios[h := if kind.Oneshot? then One(NewOne) else Many(NewMany)]), Silent))
    case PollIo(h, obj, _, slot, userData) =>
      if h !in c.ios then Panicked
      else (match CodePoll(c, h, obj, slot, userData)
            case Panicked => Panicked
            case Returned((c', p)) => Returned((c', Polled(p))))
    case DropIo(h, cancelled) =>
      if h !in c.ios then Panicked
      else (match CodeDrop(c, h, cancelled)
            case Panicked => Panicked
            case Returned(c') => Returned((c', Silent)))
    case Flush => Returned((c.(ring := c.ring.(queued := 0)), Silent))
    case Reap =>
      if k.cq == [] || k.cq[0].op >= |k.ops| then Panicked
      else (match NextCompletion(c.ring, k.ops[k.cq[0].op].userData, k.cq[0].res, k.cq[0].more)
            case Panicked => Panicked
            case Returned((ring, obj)) => Returned((c.(ring := ring), Woke(obj))))
    case _ => Returned((c, Silent))
  }

  // ---------------------------------------------------------------- the specification

  function SpecSubmits(s: SState, a: RAct): Option<IoKind> {
    if a.PollIo? && a.h in s.handles && s.handles[a.h].Fresh? then Some(s.handles[a.h].kind) else None
  }

  predicate Sensible(s: SState) {
    && (forall h | h in s.handles && s.handles[h].Owns? :: s.handles[h].op < |s.ops|)
    && (forall o | 0 <= o < |s.ops| :: s.ops[o].lo <= |s.ops[o].results|)
  }

  function SpecStep(s: SState, k: KState, a: RAct): (r: (SState, Obs))
    requires Sensible(s)
    ensures Sensible(r.0)
  {
    match a
    case NewIo(h, kind) => (s.(handles := s.handles[h := Fresh(kind)]), Silent)
    case PollIo(h, obj, _, _, _) =>
      if h !in s.handles then (s, Silent)
      else var (s', p) := PollHandle(s, h, obj); (s', Polled(p))
    case DropIo(h, _) => (if h in s.handles then DropHandle(s, h) else s, Silent)
    case Reap =>
      if k.cq == [] || k.cq[0].op >= |s.ops| then (s, Silent)
      else (Spec.Reap(s, k.cq[0]), Woke(s.ops[k.cq[0].op].obj))
    case _ => (s, Silent)
  }

  // ---------------------------------------------------------------- the simulation relation

  /**
   The owner maps: the result slot of every operation, and for every key of the three slabs the
   operation that holds it (or held it last).
   */
  datatype Link = Link(slot: seq<nat>, ud: map<nat, nat>, one: map<nat, nat>, many: map<nat, nat>)

  const NoLink := Link([], map[], map[], map[])

  /** An operation keeps its result slot until it is closed and its handle has let go. */
  ghost predicate HasSlot(op: SpecOp) {
    !op.closed || op.holder.Some?
  }

  ghost function OneSlot(op: SpecOp): ResultState {
    if op.holder.None? then Dropped
    else if Buffer(op) == [] then Unset
    else Set(Buffer(op)[0])
  }

  ghost function ManySlot(op: SpecOp): MultishotState {
    MultishotState(Buffer(op), op.holder.None?, op.closed)
  }

  ghost predicate OpsOk(ops: seq<SpecOp>) {
    forall o | 0 <= o < |ops| :: OpOk(ops[o])
  }

  /** The queue holds only completions of open operations, and a final one comes last. */
  ghost predicate CqOk(cq: seq<Cqe>, ops: seq<SpecOp>) {
    && (forall i | 0 <= i < |cq| ::
          cq[i].op < |ops| && !ops[cq[i].op].closed && (ops[cq[i].op].kind.Oneshot? ==> !cq[i].more))
    && (forall i, j | 0 <= i < j < |cq| && cq[i].op == cq[j].op :: cq[i].more)
  }

  /** Whatever the kernel has posted was reaped or is in the queue; it stops with the final completion. */
  ghost predicate PostedOk(kop: KernelOp, op: SpecOp, cq: seq<Cqe>, o: nat) {
    && kop.kind == op.kind
    && kop.posted == op.results + Queued(cq, o)
    && (kop.live <==> !op.closed && !Closing(cq, o))
  }

  ghost predicate KernelOk(k: KState, ops: seq<SpecOp>) {
    && |k.ops| == |ops|
    && CqOk(k.cq, ops)
    && (forall o | 0 <= o < |ops| :: PostedOk(k.ops[o], ops[o], k.cq, o))
  }

  ghost predicate PendingOk(pending: map<nat, PendingIo>, kops: seq<KernelOp>, ops: seq<SpecOp>, l: Link)
    requires |kops| == |ops|
  {
    && |l.slot| == |ops|
    && (forall u | u in pending ::
          && u in l.ud && l.ud[u] < |ops|
          && kops[l.ud[u]].userData == u
          && (ops[l.ud[u]].kind.Multi? || !ops[l.ud[u]].closed)
          && pending[u] == PendingIo(ops[l.ud[u]].obj, l.slot[l.ud[u]], ops[l.ud[u]].kind))
    && (forall o | 0 <= o < |ops| && (ops[o].kind.Multi? || !ops[o].closed) ::
          kops[o].userData in pending && kops[o].userData in l.ud && l.ud[kops[o].userData] == o)
  }

  ghost predicate OneshotsOk(slots: Oneshots, ops: seq<SpecOp>, l: Link) {
    && |l.slot| == |ops|
    && (forall i | i in slots ::
          && i in l.one && l.one[i] < |ops|
          && ops[l.one[i]].kind.Oneshot? && HasSlot(ops[l.one[i]])
          && l.slot[l.one[i]] == i && slots[i] == OneSlot(ops[l.one[i]]))
    && (forall o | 0 <= o < |ops| && ops[o].kind.Oneshot? && HasSlot(ops[o]) ::
          l.slot[o] in slots && l.slot[o] in l.one && l.one[l.slot[o]] == o)
  }

  ghost predicate MultishotsOk(slots: Multishots, ops: seq<SpecOp>, l: Link) {
    && |l.slot| == |ops|
    && (forall i | i in slots ::
          && i in l.many && l.many[i] < |ops|
          && ops[l.many[i]].kind.Multi? && HasSlot(ops[l.many[i]])
          && l.slot[l.many[i]] == i && slots[i] == ManySlot(ops[l.many[i]]))
    && (forall o | 0 <= o < |ops| && ops[o].kind.Multi? && HasSlot(ops[o]) ::
          l.slot[o] in slots && l.slot[o] in l.many && l.many[l.slot[o]] == o)
  }

  ghost predicate IoOk(io: Io, h: nat, sh: SpecHandle, kops: seq<KernelOp>, ops: seq<SpecOp>, l: Link)
    requires |kops| == |ops| == |l.slot|
  {
    match sh
    case Fresh(kind) => io == if kind.Oneshot? then One(NewOne) else Many(NewMany)
    case Done(v) => io == One(FinishedOne(v))
    case Owns(o) =>
      && o < |ops| && ops[o].holder == Some(h)
      && io == if ops[o].kind.Oneshot? then One(SubmittedOne(l.slot[o]))
               else Many(SubmittedMany(l.slot[o], kops[o].userData))
  }

  ghost predicate HandlesOk(ios: map<nat, Io>, s: SState, kops: seq<KernelOp>, l: Link)
    requires |kops| == |s.ops| == |l.slot|
  {
    && ios.Keys == s.handles.Keys
    && (forall h | h in s.handles :: IoOk(ios[h], h, s.handles[h], kops, s.ops, l))
    && (forall o | 0 <= o < |s.ops| && s.ops[o].holder.Some? ::
          s.ops[o].holder.value in s.handles && s.handles[s.ops[o].holder.value] == Owns(o))
  }

  ghost predicate Sim(c: Code, k: KState, s: SState, l: Link) {
    && OpsOk(s.ops)
    && KernelOk(k, s.ops)
    && PendingOk(c.ring.pending, k.ops, s.ops, l)
    && OneshotsOk(c.ring.oneshot, s.ops, l)
    && MultishotsOk(c.ring.multishot, s.ops, l)
    && HandlesOk(c.ios, s, k.ops, l)
  }

  function LinkStep(l: Link, k: KState, a: RAct, submits: Option<IoKind>): Link {
    if submits.None? || !a.PollIo? then l
    else Link(
      l.slot + [a.slot],
      l.ud[a.userData := |k.ops|],
      if submits.value.Oneshot? then l.one[a.slot := |k.ops|] else l.one,
      if submits.value.Multi? then l.many[a.slot := |k.ops|] else l.many)
  }

  /** The only acts that can make the reactor panic. */
  predicate MayPanic(c: Code, a: RAct) {
    || (a.PollIo? && a.h in c.ios && IsNew(c.ios[a.h]) && c.ring.queued >= SQ_ENTRIES)
    || (a.DropIo? && a.h in c.ios && c.ios[a.h].Many? && c.ios[a.h].many.SubmittedMany? && !a.cancelled)
  }

  // ---------------------------------------------------------------- a new operation

  function NewOp(kind: IoKind, obj: nat, h: nat): SpecOp {
    SpecOp(kind, obj, Some(h), [], false, 0, [], 0)
  }

  lemma AcceptKernel(k: KState, ops: seq<SpecOp>, kind: IoKind, target: Target, userData: nat, obj: nat, h: nat)
    requires KernelOk(k, ops)
    ensures KernelOk(Accept(k, kind, target, userData), ops + [NewOp(kind, obj, h)])
  {
    var k' := Accept(k, kind, target, userData);
    var ops' := ops + [NewOp(kind, obj, h)];
    assert CqOk(k.cq, ops');
    forall o | 0 <= o < |ops'|
      ensures PostedOk(k'.ops[o], ops'[o], k.cq, o)
    {
      if o < |ops| {
        assert PostedOk(k.ops[o], ops[o], k.cq, o);
      } else {
        QueuedNone(k.cq, o);
      }
    }
    hide PostedOk, CqOk;
  }

  lemma AcceptPending(pending: map<nat, PendingIo>, kops: seq<KernelOp>, ops: seq<SpecOp>, l: Link, l': Link,
                      kop: KernelOp, op: SpecOp, slot: nat)
    requires |kops| == |ops| && PendingOk(pending, kops, ops, l)
    requires kop.userData !in pending && !op.closed
    requires l'.slot == l.slot + [slot] && l'.ud == l.ud[kop.userData := |ops|]
    ensures PendingOk(pending[kop.userData := PendingIo(op.obj, slot, op.kind)], kops + [kop], ops + [op], l')
  {
  }

  lemma AcceptOneshots(slots: Oneshots, ops: seq<SpecOp>, l: Link, l': Link, op: SpecOp, slot: nat)
    requires OneshotsOk(slots, ops, l)
    requires !op.closed && op.holder.Some? && op.results == [] && l'.slot == l.slot + [slot]
    requires if op.kind.Oneshot? then slot !in slots && l'.one == l.one[slot := |ops|] else l'.one == l.one
    ensures OneshotsOk(if op.kind.Oneshot? then slots[slot := Unset] else slots, ops + [op], l')
  {
    var ops' := ops + [op];
    assert forall o | 0 <= o < |ops| :: ops'[o] == ops[o] && l'.slot[o] == l.slot[o];
  }

  lemma AcceptMultishots(slots: Multishots, ops: seq<SpecOp>, l: Link, l': Link, op: SpecOp, slot: nat)
    requires MultishotsOk(slots, ops, l)
    requires !op.closed && op.holder.Some? && op.results == [] && l'.slot == l.slot + [slot]
    requires if op.kind.Multi? then slot !in slots && l'.many == l.many[slot := |ops|] else l'.many == l.many
    ensures MultishotsOk(if op.kind.Multi? then slots[slot := MultishotState([], false, false)] else slots, ops + [op], l')
  {
    var ops' := ops + [op];
    assert forall o | 0 <= o < |ops| :: ops'[o] == ops[o] && l'.slot[o] == l.slot[o];
  }

  lemma AcceptHandles(ios: map<nat, Io>, s: SState, kops: seq<KernelOp>, l: Link, l': Link,
                      h: nat, op: SpecOp, kop: KernelOp, slot: nat)
    requires |kops| == |s.ops| == |l.slot| && HandlesOk(ios, s, kops, l)
    requires h in s.handles && s.handles[h].Fresh? && op.holder == Some(h) && l'.slot == l.slot + [slot]
    ensures HandlesOk(
              ios[h := if op.kind.Oneshot? then One(SubmittedOne(slot)) else Many(SubmittedMany(slot, kop.userData))],
              SState(s.ops + [op], s.handles[h := Owns(|s.ops|)]), kops + [kop], l')
  {
    var ops' := s.ops + [op];
    assert forall o | 0 <= o < |s.ops| :: ops'[o] == s.ops[o];
  }

  // ---------------------------------------------------------------- a change to one operation

  lemma UpdatePending(pending: map<nat, PendingIo>, kops: seq<KernelOp>, ops: seq<SpecOp>, l: Link, o: nat, op: SpecOp)
    requires |kops| == |ops| && PendingOk(pending, kops, ops, l)
    requires o < |ops| && op.kind == ops[o].kind && op.obj == ops[o].obj && (ops[o].closed ==> op.closed)
    ensures PendingOk(if op.kind.Oneshot? && op.closed && !ops[o].closed then pending - {kops[o].userData} else pending,
                      kops, ops[o := op], l)
  {
  }

  /** The oneshot slots after operation o has become `op`. */
  ghost function OneshotsAfter(slots: Oneshots, ops: seq<SpecOp>, l: Link, o: nat, op: SpecOp): Oneshots
    requires o < |ops| == |l.slot|
  {
    if op.kind.Multi? || !HasSlot(ops[o]) then slots
    else if HasSlot(op) then slots[l.slot[o] := OneSlot(op)] else slots - {l.slot[o]}
  }

  ghost function MultishotsAfter(slots: Multishots, ops: seq<SpecOp>, l: Link, o: nat, op: SpecOp): Multishots
    requires o < |ops| == |l.slot|
  {
    if op.kind.Oneshot? || !HasSlot(ops[o]) then slots
    else if HasSlot(op) then slots[l.slot[o] := ManySlot(op)] else slots - {l.slot[o]}
  }

  lemma UpdateOneshots(slots: Oneshots, ops: seq<SpecOp>, l: Link, o: nat, op: SpecOp)
    requires OneshotsOk(slots, ops, l)
    requires o < |ops| && op.kind == ops[o].kind && (HasSlot(op) ==> HasSlot(ops[o]))
    ensures OneshotsOk(OneshotsAfter(slots, ops, l, o, op), ops[o := op], l)
  {
    hide OneSlot, HasSlot;
  }

  lemma UpdateMultishots(slots: Multishots, ops: seq<SpecOp>, l: Link, o: nat, op: SpecOp)
    requires MultishotsOk(slots, ops, l)
    requires o < |ops| && op.kind == ops[o].kind && (HasSlot(op) ==> HasSlot(ops[o]))
    ensures MultishotsOk(MultishotsAfter(slots, ops, l, o, op), ops[o := op], l)
  {
    hide ManySlot, HasSlot;
  }

  lemma UpdateKernel(k: KState, ops: seq<SpecOp>, o: nat, op: SpecOp)
    requires KernelOk(k, ops) && o < |ops|
    requires op.kind == ops[o].kind && op.results == ops[o].results && op.closed == ops[o].closed
    ensures KernelOk(k, ops[o := op])
  {
    assert forall p | 0 <= p < |ops| :: PostedOk(k.ops[p], ops[p], k.cq, p);
    hide Queued, Closing;
  }

  lemma UpdateHandles(ios: map<nat, Io>, s: SState, kops: seq<KernelOp>, l: Link, o: nat, op: SpecOp)
    requires |kops| == |s.ops| == |l.slot| && HandlesOk(ios, s, kops, l)
    requires o < |s.ops| && op.kind == s.ops[o].kind && op.holder == s.ops[o].holder
    ensures HandlesOk(ios, s.(ops := s.ops[o := op]), kops, l)
  {
  }

  /** The handle of operation o takes the result or goes away. */
  lemma ReleaseHandle(ios: map<nat, Io>, s: SState, kops: seq<KernelOp>, l: Link, h: nat, op: SpecOp)
    requires |kops| == |s.ops| == |l.slot| && HandlesOk(ios, s, kops, l)
    requires h in s.handles && s.handles[h].Owns? && op.holder == None
    ensures s.handles[h].op < |s.ops|
    ensures HandlesOk(ios - {h}, SState(s.ops[s.handles[h].op := op], s.handles - {h}), kops, l)
    ensures forall v :: HandlesOk(ios[h := One(FinishedOne(v))],
                                  SState(s.ops[s.handles[h].op := op], s.handles[h := Done(v)]), kops, l)
  {
  }

  // ---------------------------------------------------------------- a completion

  lemma ClosingHead(cq: seq<Cqe>, o: nat)
    requires cq != []
    ensures Closing(cq, o) <==> Closing(cq[1..], o) || (cq[0].op == o && !cq[0].more)
  {
    if Closing(cq, o) {
      var i :| 0 <= i < |cq| && cq[i].op == o && !cq[i].more;
      assert i > 0 ==> cq[1..][i - 1] == cq[i];
    }
    if Closing(cq[1..], o) {
      var i :| 0 <= i < |cq[1..]| && cq[1..][i].op == o && !cq[1..][i].more;
      assert cq[i + 1] == cq[1..][i];
    }
  }

  lemma ClosingAppend(cq: seq<Cqe>, c: Cqe, o: nat)
    ensures Closing(cq + [c], o) <==> Closing(cq, o) || (c.op == o && !c.more)
  {
    if Closing(cq, o) {
      var i :| 0 <= i < |cq| && cq[i].op == o && !cq[i].more;
      assert (cq + [c])[i] == cq[i];
    }
    assert (cq + [c])[|cq|] == c;
  }

  lemma ReapCq(cq: seq<Cqe>, ops: seq<SpecOp>, op: SpecOp)
    requires CqOk(cq, ops) && cq != [] && op.kind == ops[cq[0].op].kind && op.closed == !cq[0].more
    ensures CqOk(cq[1..], ops[cq[0].op := op])
    ensures op.closed ==> Queued(cq[1..], cq[0].op) == []
  {
    var rest := cq[1..];
    assert forall i | 0 <= i < |rest| :: rest[i] == cq[i + 1];
    if op.closed {
      QueuedNone(rest, cq[0].op);
    }
  }

  lemma ReapKernel(k: KState, ops: seq<SpecOp>)
    requires KernelOk(k, ops) && k.cq != []
    requires k.cq[0].op < |ops| && ops[k.cq[0].op].lo <= |ops[k.cq[0].op].results|
    ensures var c := k.cq[0]; KernelOk(k.(cq := k.cq[1..]), ops[c.op := Deliver(ops[c.op], c.res, c.more)])
  {
    var c := k.cq[0];
    var op := Deliver(ops[c.op], c.res, c.more);
    ReapCq(k.cq, ops, op);
    forall o | 0 <= o < |ops|
      ensures PostedOk(k.ops[o], ops[c.op := op][o], k.cq[1..], o)
    {
      hide CqOk;
      assert PostedOk(k.ops[o], ops[o], k.cq, o);
      ClosingHead(k.cq, o);
    }
    hide CqOk, PostedOk;
  }

  lemma PostCq(cq: seq<Cqe>, ops: seq<SpecOp>, c: Cqe)
    requires CqOk(cq, ops) && c.op < |ops| && !ops[c.op].closed && (ops[c.op].kind.Oneshot? ==> !c.more)
    requires !Closing(cq, c.op)
    ensures CqOk(cq + [c], ops)
  {
    assert forall i | 0 <= i < |cq| :: (cq + [c])[i] == cq[i];
    assert forall i | 0 <= i < |cq| && cq[i].op == c.op :: cq[i].more;
  }

  lemma PostKernel(k: KState, ops: seq<SpecOp>, o: nat, res: int, more: bool)
    requires KernelOk(k, ops) && CanPost(k, o, res, more)
    ensures KernelOk(Post(k, o, res, more), ops)
  {
    var c := Cqe(o, res, more);
    assert PostedOk(k.ops[o], ops[o], k.cq, o);
    PostCq(k.cq, ops, c);
    var k' := Post(k, o, res, more);
    forall p | 0 <= p < |ops|
      ensures PostedOk(k'.ops[p], ops[p], k.cq + [c], p)
    {
      hide CqOk;
      assert PostedOk(k.ops[p], ops[p], k.cq, p);
      QueuedAppend(k.cq, c, p);
      ClosingAppend(k.cq, c, p);
    }
    hide CqOk, PostedOk;
  }

  // ---------------------------------------------------------------- one lemma per act

  /** The state after an act, of both sides and of the owner maps. */
  ghost predicate SimAfter(c: Code, k: KState, s: SState, l: Link, a: RAct)
    requires Sensible(s)
  {
    && CodeSubmits(c, a) == SpecSubmits(s, a)
    && CodeStep(c, k, a).Returned?
    && CodeStep(c, k, a).value.1 == SpecStep(s, k, a).1
    && Sim(CodeStep(c, k, a).value.0, KernelStep(k, a, CodeSubmits(c, a)), SpecStep(s, k, a).0,
           LinkStep(l, k, a, CodeSubmits(c, a)))
  }

  lemma SimSensible(c: Code, k: KState, s: SState, l: Link)
    requires Sim(c, k, s, l)
    ensures Sensible(s)
  {
    hide OneshotsOk, MultishotsOk, PendingOk;
  }

  lemma SubmitResult(c: Code, k: KState, s: SState, a: RAct)
    requires a.PollIo? && a.h in c.ios && IsNew(c.ios[a.h]) && c.ring.queued < SQ_ENTRIES
    requires Sensible(s) && a.h in s.handles && s.handles[a.h] == Fresh(KindOf(c.ios[a.h]))
    ensures CodeSubmits(c, a) == SpecSubmits(s, a) == Some(KindOf(c.ios[a.h]))
    ensures SpecStep(s, k, a) == (SState(s.ops + [NewOp(KindOf(c.ios[a.h]), a.obj, a.h)], s.handles[a.h := Owns(|s.ops|)]),
                                  Polled(Pending))
    ensures CodeStep(c, k, a)
            == var kind := KindOf(c.ios[a.h]);
               Returned((Code(
                 Ring(c.ring.queued + 1, c.ring.pending[a.userData := PendingIo(a.obj, a.slot, kind)],
                      if kind.Oneshot? then c.ring.oneshot[a.slot := Unset] else c.ring.oneshot,
                      if kind.Multi? then c.ring.multishot[a.slot := MultishotState([], false, false)]
                      else c.ring.multishot),
                 c.ios[a.h := if kind.Oneshot? then One(SubmittedOne(a.slot)) else Many(SubmittedMany(a.slot, a.userData))]),
                 Polled(Pending)))
  {
  }

  lemma SimSubmit(c: Code, k: KState, s: SState, l: Link, a: RAct)
    requires Sim(c, k, s, l) && Enabled(c, k, a) && a.PollIo? && IsNew(c.ios[a.h]) && !MayPanic(c, a)
    requires Sensible(s)
    ensures SimAfter(c, k, s, l, a)
  {
    hide OneshotsOk, MultishotsOk, PendingOk, KernelOk, CodeStep, SpecStep;
    var kind := KindOf(c.ios[a.h]);
    assert s.handles[a.h] == Fresh(kind);
    hide HandlesOk;
    SubmitResult(c, k, s, a);
    var l' := LinkStep(l, k, a, Some(kind));
    SimSubmitted(c, k, s, l, l', a, kind);
  }

  lemma SimSubmitted(c: Code, k: KState, s: SState, l: Link, l': Link, a: RAct, kind: IoKind)
    requires Sim(c, k, s, l) && a.PollIo? && a.h in s.handles && s.handles[a.h] == Fresh(kind)
    requires a.userData !in c.ring.pending
    requires if kind.Oneshot? then a.slot !in c.ring.oneshot else a.slot !in c.ring.multishot
    requires l' == LinkStep(l, k, a, Some(kind))
    ensures Sim(Code(Ring(c.ring.queued + 1, c.ring.pending[a.userData := PendingIo(a.obj, a.slot, kind)],
                      if kind.Oneshot? then c.ring.oneshot[a.slot := Unset] else c.ring.oneshot,
                      if kind.Multi? then c.ring.multishot[a.slot := MultishotState([], false, false)]
                      else c.ring.multishot),
                 c.ios[a.h := if kind.Oneshot? then One(SubmittedOne(a.slot)) else Many(SubmittedMany(a.slot, a.userData))]),
                 Accept(k, kind, a.target, a.userData),
                 SState(s.ops + [NewOp(kind, a.obj, a.h)], s.handles[a.h := Owns(|s.ops|)]), l')
  {
    var op := NewOp(kind, a.obj, a.h);
    var kop := KernelOp(kind, a.target, a.userData, [], true);
    assert |k.ops| == |s.ops| == |l.slot|;
    hide OneshotsOk, MultishotsOk, PendingOk, HandlesOk, KernelOk;
    AcceptKernel(k, s.ops, kind, a.target, a.userData, a.obj, a.h);
    AcceptPending(c.ring.pending, k.ops, s.ops, l, l', kop, op, a.slot);
    AcceptOneshots(c.ring.oneshot, s.ops, l, l', op, a.slot);
    AcceptMultishots(c.ring.multishot, s.ops, l, l', op, a.slot);
    AcceptHandles(c.ios, s, k.ops, l, l', a.h, op, kop, a.slot);
  }

  /** What the relation says about a handle that has submitted. */
  lemma HeldSlot(c: Code, k: KState, s: SState, l: Link, h: nat)
    requires Sim(c, k, s, l) && h in s.handles && s.handles[h].Owns?
    ensures h in c.ios && s.handles[h].op < |s.ops| == |l.slot| == |k.ops|
    ensures var o := s.handles[h].op; var op := s.ops[o];
            && OpOk(op) && op.holder == Some(h)
            && (op.kind.Oneshot? ==>
                  && c.ios[h] == One(SubmittedOne(l.slot[o]))
                  && l.slot[o] in c.ring.oneshot && c.ring.oneshot[l.slot[o]] == OneSlot(op))
            && (op.kind.Multi? ==>
                  && c.ios[h] == Many(SubmittedMany(l.slot[o], k.ops[o].userData))
                  && l.slot[o] in c.ring.multishot && c.ring.multishot[l.slot[o]] == ManySlot(op))
  {
    hide OneSlot, ManySlot, Queued, Closing, OpOk, CqOk, PostedOk;
  }

  /** Operation o becomes `op`, in the specification and in its slot. */
  lemma SimUpdate(c: Code, k: KState, s: SState, l: Link, o: nat, op: SpecOp, c': Code, s': SState)
    requires Sim(c, k, s, l) && o < |s.ops| == |l.slot| == |k.ops| && OpOk(op)
    requires op.kind == s.ops[o].kind && op.obj == s.ops[o].obj
    requires op.results == s.ops[o].results && op.closed == s.ops[o].closed
    requires HasSlot(op) ==> HasSlot(s.ops[o])
    requires s'.ops == s.ops[o := op] && HandlesOk(c'.ios, s', k.ops, l)
    requires c'.ring == c.ring.(oneshot := OneshotsAfter(c.ring.oneshot, s.ops, l, o, op),
                                multishot := MultishotsAfter(c.ring.multishot, s.ops, l, o, op))
    ensures Sim(c', k, s', l)
  {
    hide OneshotsOk, MultishotsOk, PendingOk, HandlesOk, KernelOk, OpOk, HasSlot, OneshotsAfter, MultishotsAfter;
    UpdatePending(c.ring.pending, k.ops, s.ops, l, o, op);
    UpdateOneshots(c.ring.oneshot, s.ops, l, o, op);
    UpdateMultishots(c.ring.multishot, s.ops, l, o, op);
    UpdateKernel(k, s.ops, o, op);
  }

  lemma TakeOk(op: SpecOp)
    requires OpOk(op) && op.lo < |op.results|
    ensures OpOk(op.(lo := op.lo + 1, taken := op.taken + [op.lo], holder := if op.kind.Oneshot? then None else op.holder))
    ensures Buffer(op)[1..] == Buffer(op.(lo := op.lo + 1))
  {
  }

  lemma PollOneshotResult(c: Code, k: KState, s: SState, a: RAct, slot: nat)
    requires Sensible(s) && a.PollIo? && a.h in c.ios && a.h in s.handles && s.handles[a.h].Owns?
    requires var op := s.ops[s.handles[a.h].op];
             && op.kind.Oneshot? && op.holder.Some?
             && c.ios[a.h] == One(SubmittedOne(slot)) && slot in c.ring.oneshot && c.ring.oneshot[slot] == OneSlot(op)
    ensures CodeSubmits(c, a) == None
    ensures var o := s.handles[a.h].op; var op := s.ops[o];
            if op.lo < |op.results| then
              && CodeStep(c, k, a)
                 == Returned((Code(c.ring.(oneshot := c.ring.oneshot - {slot}),
                                   c.ios[a.h := One(FinishedOne(op.results[op.lo]))]),
                              Polled(Ready(Some(op.results[op.lo])))))
              && SpecStep(s, k, a)
                 == (SState(s.ops[o := op.(lo := op.lo + 1, taken := op.taken + [op.lo], holder := None)],
                            s.handles[a.h := Done(op.results[op.lo])]),
                     Polled(Ready(Some(op.results[op.lo]))))
            else
              CodeStep(c, k, a) == Returned((c, Polled(Pending))) && SpecStep(s, k, a) == (s, Polled(Pending))
  {
    assert c.ios[a.h := c.ios[a.h]] == c.ios;
  }

  lemma SimPollOneshot(c: Code, k: KState, s: SState, l: Link, a: RAct)
    requires Sim(c, k, s, l) && Sensible(s) && a.PollIo? && a.h in s.handles && s.handles[a.h].Owns?
    requires s.ops[s.handles[a.h].op].kind.Oneshot?
    ensures SimAfter(c, k, s, l, a)
  {
    hide OneshotsOk, MultishotsOk, PendingOk, HandlesOk, KernelOk, OpsOk, CodeStep, SpecStep;
    HeldSlot(c, k, s, l, a.h);
    var o := s.handles[a.h].op;
    var op := s.ops[o];
    PollOneshotResult(c, k, s, a, l.slot[o]);
    if op.lo < |op.results| {
      var op' := op.(lo := op.lo + 1, taken := op.taken + [op.lo], holder := None);
      TakeOk(op);
      ReleaseHandle(c.ios, s, k.ops, l, a.h, op');
      SimUpdate(c, k, s, l, o, op', CodeStep(c, k, a).value.0, SpecStep(s, k, a).0);
    }
  }

  lemma PollMultishotResult(c: Code, k: KState, s: SState, a: RAct, slot: nat, userData: nat)
    requires Sensible(s) && a.PollIo? && a.h in c.ios && a.h in s.handles && s.handles[a.h].Owns?
    requires var op := s.ops[s.handles[a.h].op];
             && op.kind.Multi? && op.holder.Some?
             && c.ios[a.h] == Many(SubmittedMany(slot, userData))
             && slot in c.ring.multishot && c.ring.multishot[slot] == ManySlot(op)
    ensures CodeSubmits(c, a) == None
    ensures var o := s.handles[a.h].op; var op := s.ops[o];
            if op.lo < |op.results| then
              var op' := op.(lo := op.lo + 1, taken := op.taken + [op.lo]);
              && CodeStep(c, k, a)
                 == Returned((Code(c.ring.(multishot := c.ring.multishot[slot := ManySlot(op')]), c.ios),
                              Polled(Ready(Some(op.results[op.lo])))))
              && SpecStep(s, k, a) == (s.(ops := s.ops[o := op']), Polled(Ready(Some(op.results[op.lo]))))
            else
              var p := Polled(if op.closed then Ready(None) else Pending);
              CodeStep(c, k, a) == Returned((c, p)) && SpecStep(s, k, a) == (s, p)
  {
    var op := s.ops[s.handles[a.h].op];
    assert c.ios[a.h := c.ios[a.h]] == c.ios;
    if op.lo < |op.results| {
      assert Buffer(op)[1..] == Buffer(op.(lo := op.lo + 1));
    }
  }

  lemma SimPollMultishot(c: Code, k: KState, s: SState, l: Link, a: RAct)
    requires Sim(c, k, s, l) && Sensible(s) && a.PollIo? && a.h in s.handles && s.handles[a.h].Owns?
    requires s.ops[s.handles[a.h].op].kind.Multi?
    ensures SimAfter(c, k, s, l, a)
  {
    hide OneshotsOk, MultishotsOk, PendingOk, HandlesOk, KernelOk, OpsOk, CodeStep, SpecStep;
    HeldSlot(c, k, s, l, a.h);
    var o := s.handles[a.h].op;
    var op := s.ops[o];
    PollMultishotResult(c, k, s, a, l.slot[o], k.ops[o].userData);
    if op.lo < |op.results| {
      var op' := op.(lo := op.lo + 1, taken := op.taken + [op.lo]);
      TakeOk(op);
      UpdateHandles(c.ios, s, k.ops, l, o, op');
      SimUpdate(c, k, s, l, o, op', CodeStep(c, k, a).value.0, SpecStep(s, k, a).0);
    }
  }

  lemma SimPollDone(c: Code, k: KState, s: SState, l: Link, a: RAct)
    requires Sim(c, k, s, l) && Sensible(s) && a.PollIo? && a.h in s.handles && s.handles[a.h].Done?
    ensures SimAfter(c, k, s, l, a)
  {
    assert c.ios[a.h] == One(FinishedOne(s.handles[a.h].value));
    assert c.ios[a.h := c.ios[a.h]] == c.ios;
    hide OneshotsOk, MultishotsOk, PendingOk, HandlesOk, KernelOk, OpsOk;
  }

  lemma DropResults(c: Code, k: KState, s: SState, a: RAct, slot: nat, userData: nat)
    requires Sensible(s) && a.DropIo? && a.h in c.ios && a.h in s.handles && s.handles[a.h].Owns?
    requires var op := s.ops[s.handles[a.h].op];
             && OpOk(op) && op.holder.Some?
             && (op.kind.Oneshot? ==>
                  && c.ios[a.h] == One(SubmittedOne(slot))
                  && slot in c.ring.oneshot && c.ring.oneshot[slot] == OneSlot(op))
             && (op.kind.Multi? ==>
                  && c.ios[a.h] == Many(SubmittedMany(slot, userData))
                  && slot in c.ring.multishot && c.ring.multishot[slot] == ManySlot(op)
                  && a.cancelled)
    ensures var o := s.handles[a.h].op; var op' := s.ops[o].(holder := None);
            && SpecStep(s, k, a) == (SState(s.ops[o := op'], s.handles - {a.h}), Silent)
            && CodeStep(c, k, a)
               == Returned((Code(
                    c.ring.(oneshot :=
                              if op'.kind.Multi? then c.ring.oneshot
                              else if HasSlot(op') then c.ring.oneshot[slot := OneSlot(op')] else c.ring.oneshot - {slot},
                            multishot :=
                              if op'.kind.Oneshot? then c.ring.multishot
                              else if HasSlot(op') then c.ring.multishot[slot := ManySlot(op')]
                              else c.ring.multishot - {slot}),
                    c.ios - {a.h}), Silent))
  {
  }

  lemma SimDropOwned(c: Code, k: KState, s: SState, l: Link, a: RAct)
    requires Sim(c, k, s, l) && Sensible(s) && a.DropIo? && a.h in s.handles && s.handles[a.h].Owns?
    requires !MayPanic(c, a)
    ensures SimAfter(c, k, s, l, a)
  {
    hide OneshotsOk, MultishotsOk, PendingOk, HandlesOk, KernelOk, OpsOk, CodeStep, SpecStep;
    HeldSlot(c, k, s, l, a.h);
    var o := s.handles[a.h].op;
    var op' := s.ops[o].(holder := None);
    DropResults(c, k, s, a, l.slot[o], k.ops[o].userData);
    ReleaseHandle(c.ios, s, k.ops, l, a.h, op');
    SimUpdate(c, k, s, l, o, op', CodeStep(c, k, a).value.0, SpecStep(s, k, a).0);
  }

  lemma DropUnowned(ios: map<nat, Io>, s: SState, kops: seq<KernelOp>, l: Link, h: nat)
    requires |kops| == |s.ops| == |l.slot| && HandlesOk(ios, s, kops, l)
    requires h in s.handles ==> !s.handles[h].Owns?
    ensures HandlesOk(ios - {h}, s.(handles := s.handles - {h}), kops, l)
    ensures forall kind :: HandlesOk(ios[h := if kind == Oneshot then One(NewOne) else Many(NewMany)],
                                     s.(handles := s.handles[h := Fresh(kind)]), kops, l)
  {
  }

  lemma SimDropUnowned(c: Code, k: KState, s: SState, l: Link, a: RAct)
    requires Sim(c, k, s, l) && Sensible(s) && a.DropIo? && a.h in s.handles && !s.handles[a.h].Owns?
    ensures !MayPanic(c, a) && SimAfter(c, k, s, l, a)
  {
    assert IoOk(c.ios[a.h], a.h, s.handles[a.h], k.ops, s.ops, l);
    DropUnowned(c.ios, s, k.ops, l, a.h);
    hide OneshotsOk, MultishotsOk, PendingOk, HandlesOk, KernelOk, OpsOk;
  }

  lemma SimNewIo(c: Code, k: KState, s: SState, l: Link, a: RAct)
    requires Sim(c, k, s, l) && Sensible(s) && a.NewIo? && a.h !in c.ios
    ensures SimAfter(c, k, s, l, a)
  {
    DropUnowned(c.ios, s, k.ops, l, a.h);
    hide OneshotsOk, MultishotsOk, PendingOk, HandlesOk, KernelOk, OpsOk;
  }

  lemma DeliverOk(op: SpecOp, res: int, more: bool)
    requires OpOk(op) && !op.closed && (op.kind.Oneshot? ==> !more)
    ensures OpOk(Deliver(op, res, more))
    ensures Buffer(Deliver(op, res, more)) == RingPush(Buffer(op), res)
  {
  }

  /** What the relation says about the operation whose completion is next. */
  lemma OpenSlot(c: Code, k: KState, s: SState, l: Link, o: nat)
    requires Sim(c, k, s, l) && o < |s.ops| && !s.ops[o].closed
    ensures |s.ops| == |l.slot| == |k.ops|
    ensures var op := s.ops[o]; var u := k.ops[o].userData;
            && OpOk(op) && u in c.ring.pending && c.ring.pending[u] == PendingIo(op.obj, l.slot[o], op.kind)
            && (op.kind.Oneshot? ==> l.slot[o] in c.ring.oneshot && c.ring.oneshot[l.slot[o]] == OneSlot(op))
            && (op.kind.Multi? ==> l.slot[o] in c.ring.multishot && c.ring.multishot[l.slot[o]] == ManySlot(op))
  {
    hide OneSlot, ManySlot, Queued, Closing, OpOk, CqOk, PostedOk, HandlesOk;
  }

  lemma ReapResult(ring: Ring, u: nat, op: SpecOp, slot: nat, res: int, more: bool)
    requires OpOk(op) && !op.closed && (op.kind.Oneshot? ==> !more)
    requires u in ring.pending && ring.pending[u] == PendingIo(op.obj, slot, op.kind)
    requires op.kind.Oneshot? ==> slot in ring.oneshot && ring.oneshot[slot] == OneSlot(op)
    requires op.kind.Multi? ==> slot in ring.multishot && ring.multishot[slot] == ManySlot(op)
    ensures var op' := Deliver(op, res, more);
            NextCompletion(ring, u, res, more)
            == Returned((ring.(
                 pending := if op.kind.Oneshot? then ring.pending - {u} else ring.pending,
                 oneshot :=
                   if op.kind.Multi? then ring.oneshot
                   else if HasSlot(op') then ring.oneshot[slot := OneSlot(op')] else ring.oneshot - {slot},
                 multishot :=
                   if op.kind.Oneshot? then ring.multishot
                   else if HasSlot(op') then ring.multishot[slot := ManySlot(op')] else ring.multishot - {slot}),
               op.obj))
  {
    DeliverOk(op, res, more);
    if op.kind.Multi? {
      var pushed := ring.multishot[slot := ManySlot(op).(results := RingPush(Buffer(op), res))];
      assert pushed - {slot} == ring.multishot - {slot};
      assert pushed[slot := ManySlot(Deliver(op, res, more))] == ring.multishot[slot := ManySlot(Deliver(op, res, more))];
    }
  }

  lemma SimReaped(c: Code, k: KState, s: SState, l: Link, ring: Ring)
    requires Sim(c, k, s, l) && k.cq != [] && k.cq[0].op < |s.ops| == |l.slot| == |k.ops|
    requires var e := k.cq[0]; var op := s.ops[e.op];
             && OpOk(op) && !op.closed && (op.kind.Oneshot? ==> !e.more)
             && ring == c.ring.(
                  pending := if op.kind.Oneshot? then c.ring.pending - {k.ops[e.op].userData} else c.ring.pending,
                  oneshot := OneshotsAfter(c.ring.oneshot, s.ops, l, e.op, Deliver(op, e.res, e.more)),
                  multishot := MultishotsAfter(c.ring.multishot, s.ops, l, e.op, Deliver(op, e.res, e.more)))
    ensures Sim(Code(ring, c.ios), k.(cq := k.cq[1..]), Spec.Reap(s, k.cq[0]), l)
  {
    hide OneshotsOk, MultishotsOk, PendingOk, HandlesOk, KernelOk, OpOk, OneshotsAfter, MultishotsAfter;
    var e := k.cq[0];
    var op := s.ops[e.op];
    assert op.lo <= |op.results| by { LoInRange(op); }
    var op' := Deliver(op, e.res, e.more);
    DeliverOk(op, e.res, e.more);
    ReapKernel(k, s.ops);
    UpdatePending(c.ring.pending, k.ops, s.ops, l, e.op, op');
    UpdateOneshots(c.ring.oneshot, s.ops, l, e.op, op');
    UpdateMultishots(c.ring.multishot, s.ops, l, e.op, op');
    UpdateHandles(c.ios, s, k.ops, l, e.op, op');
  }

  lemma LoInRange(op: SpecOp)
    requires OpOk(op)
    ensures op.lo <= |op.results|
  {
  }

  lemma SimReap(c: Code, k: KState, s: SState, l: Link)
    requires Sim(c, k, s, l) && Sensible(s) && k.cq != [] && k.cq[0].op < |k.ops|
    ensures SimAfter(c, k, s, l, Reap)
  {
    hide OneshotsOk, MultishotsOk, PendingOk, HandlesOk, NextCompletion, OpOk, OneSlot, ManySlot, PostedOk;
    var e := k.cq[0];
    OpenSlot(c, k, s, l, e.op);
    ReapResult(c.ring, k.ops[e.op].userData, s.ops[e.op], l.slot[e.op], e.res, e.more);
    var ring' := NextCompletion(c.ring, k.ops[e.op].userData, e.res, e.more).value.0;
    SimReaped(c, k, s, l, ring');
    hide Sim;
  }

  /** The runtime depends on nothing of a kernel operation but its user data. */
  lemma UserDataFrame(c: Code, s: SState, kops: seq<KernelOp>, kops': seq<KernelOp>, l: Link)
    requires |kops| == |kops'| == |s.ops| && PendingOk(c.ring.pending, kops, s.ops, l) && HandlesOk(c.ios, s, kops, l)
    requires forall o | 0 <= o < |kops| :: kops[o].userData == kops'[o].userData
    ensures PendingOk(c.ring.pending, kops', s.ops, l) && HandlesOk(c.ios, s, kops', l)
  {
    assert forall h | h in s.handles :: IoOk(c.ios[h], h, s.handles[h], kops, s.ops, l);
  }

  lemma SimPost(c: Code, k: KState, s: SState, l: Link, a: RAct)
    requires Sim(c, k, s, l) && Sensible(s) && a.PostCqe? && CanPost(k, a.op, a.res, a.more)
    ensures SimAfter(c, k, s, l, a)
  {
    hide OneshotsOk, MultishotsOk, PendingOk, HandlesOk, CqOk, PostedOk;
    PostKernel(k, s.ops, a.op, a.res, a.more);
    UserDataFrame(c, s, k.ops, Post(k, a.op, a.res, a.more).ops, l);
  }

  /** Acts on the submission queue and on eventfds, which the relation does not mention. */
  lemma SimOutside(c: Code, k: KState, s: SState, l: Link, a: RAct)
    requires Sim(c, k, s, l) && Sensible(s) && Enabled(c, k, a)
    requires a.Flush? || a.OpenEvent? || a.NotifyEvent? || a.TakeEvent?
    ensures SimAfter(c, k, s, l, a)
  {
    hide OneshotsOk, MultishotsOk, PendingOk, HandlesOk, CqOk, PostedOk;
  }

  // ---------------------------------------------------------------- one act

  /**
   Every act of the code is the same act of the specification, and it panics in exactly two
   cases: a submission to a full queue and a cancellation that the kernel refuses.
   */
  lemma StepSimulates(c: Code, k: KState, s: SState, l: Link, a: RAct)
    requires Sim(c, k, s, l) && Enabled(c, k, a)
    ensures Sensible(s)
    ensures CodeStep(c, k, a).Panicked? <==> MayPanic(c, a)
    ensures !MayPanic(c, a) ==> SimAfter(c, k, s, l, a)
  {
    SimSensible(c, k, s, l);
    assert c.ios.Keys == s.handles.Keys && |k.ops| == |s.ops| == |l.slot|;
    if !MayPanic(c, a) {
      match a {
        case NewIo(_, _) => SimNewIo(c, k, s, l, a);
        case PollIo(h, _, _, _, _) =>
          assert IoOk(c.ios[h], h, s.handles[h], k.ops, s.ops, l);
          match s.handles[h] {
            case Fresh(_) => SimSubmit(c, k, s, l, a);
            case Done(_) => SimPollDone(c, k, s, l, a);
            case Owns(o) =>
              if s.ops[o].kind.Oneshot? {
                SimPollOneshot(c, k, s, l, a);
              } else {
                SimPollMultishot(c, k, s, l, a);
              }
          }
        case DropIo(h, _) =>
          if s.handles[h].Owns? {
            SimDropOwned(c, k, s, l, a);
          } else {
            SimDropUnowned(c, k, s, l, a);
          }
        case Reap => SimReap(c, k, s, l);
        case PostCqe(_, _, _) => SimPost(c, k, s, l, a);
        case _ => SimOutside(c, k, s, l, a);
      }
    }
    hide Sim, SimAfter;
  }
}
