/**
 The reactor as its users may think of it: every submission has a number that is never used
 again, all results stay with their operation, and there are no slabs and no keys.
 */
module Spec {
  import opened Wrappers
  import opened Reactor
  import opened Kernel

  /**
   `results` is everything the reactor has taken from the kernel for this operation. Those from
   `lo` on wait for the handle, `taken` lists the positions that were delivered and `lost` counts
   the ones that were overwritten in the buffer.
   */
  datatype SpecOp = SpecOp(kind: IoKind, obj: nat, holder: Option<nat>, results: seq<int>,
                           closed: bool, lo: nat, taken: seq<nat>, lost: nat)

  datatype SpecHandle = Fresh(kind: IoKind) | Owns(op: nat) | Done(value: int)

  datatype SState = SState(ops: seq<SpecOp>, handles: map<nat, SpecHandle>)

  const Empty := SState([], map[])

  function Deliver(op: SpecOp, res: int, more: bool): SpecOp
    requires op.lo <= |op.results|
  {
    var full := op.kind.Multi? && |op.results| - op.lo >= BUFFER_LEN;
    op.(results := op.results + [res], closed := !more,
        lo := if full then op.lo + 1 else op.lo, lost := if full then op.lost + 1 else op.lost)
  }

  function PollHandle(s: SState, h: nat, obj: nat): (SState, Poll<Option<int>>)
    requires h in s.handles && (s.handles[h].Owns? ==> s.handles[h].op < |s.ops|)
  {
    match s.handles[h]
    case Fresh(kind) =>
      (SState(s.ops + [SpecOp(kind, obj, Some(h), [], false, 0, [], 0)], s.handles[h := Owns(|s.ops|)]), Pending)
    case Done(v) => (s, Ready(Some(v)))
    case Owns(o) =>
      var op := s.ops[o];
      if op.lo < |op.results| then
        var op' := op.(lo := op.lo + 1, taken := op.taken + [op.lo]);
        var v := op.results[op.lo];
        if op.kind.Oneshot? then
          (SState(s.ops[o := op'.(holder := None)], s.handles[h := Done(v)]), Ready(Some(v)))
        else
          (s.(ops := s.ops[o := op']), Ready(Some(v)))
      else
        (s, if op.kind.Multi? && op.closed then Ready(None) else Pending)
  }

  function DropHandle(s: SState, h: nat): SState
    requires h in s.handles && (s.handles[h].Owns? ==> s.handles[h].op < |s.ops|)
  {
    var handles := s.handles - {h};
    match s.handles[h]
    case Owns(o) => SState(s.ops[o := s.ops[o].(holder := None)], handles)
    case _ => SState(s.ops, handles)
  }

  /** One completion reaches the reactor. */
  function Reap(s: SState, c: Cqe): SState
    requires c.op < |s.ops| && s.ops[c.op].lo <= |s.ops[c.op].results|
  {
    s.(ops := s.ops[c.op := Deliver(s.ops[c.op], c.res, c.more)])
  }

  // ---------------------------------------------------------------- invariants of one operation

  /** The results that wait for the handle. */
  ghost function Buffer(op: SpecOp): seq<int> {
    if op.lo <= |op.results| then op.results[op.lo..] else []
  }

  ghost predicate OpOk(op: SpecOp) {
    && op.lo <= |op.results|
    && |op.results| - op.lo <= BUFFER_LEN
    && op.lo == |op.taken| + op.lost
    && (forall i | 0 <= i < |op.taken| :: op.taken[i] < op.lo)
    && (forall i, j | 0 <= i < j < |op.taken| :: op.taken[i] < op.taken[j])
    && (op.lost == 0 ==> forall i | 0 <= i < |op.taken| :: op.taken[i] == i)
    && (op.kind.Multi? && op.closed ==> op.results != [])
    && (op.kind.Oneshot? ==> op.lost == 0 && |op.results| == if op.closed then 1 else 0)
    && (op.kind.Oneshot? && op.holder.Some? ==> op.lo == 0)
  }
}
