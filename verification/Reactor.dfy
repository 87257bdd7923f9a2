/**
 The reactor's code on values: the two result stores, `submit_io`, the step that turns one
 completion into one waker, and the two handles. A panic is a result, not a precondition:
 `Simulation` proves which panics can be reached.
 */
module Reactor {
  import opened Wrappers

  const SQ_ENTRIES: nat := 1024
  const BUFFER_LEN: nat := 1024

  datatype IoKind = Oneshot | Multi

  /** `assocObj` is the waker of the submitting task, named by the task. */
  datatype PendingIo = PendingIo(assocObj: nat, slot: nat, kind: IoKind)

  datatype ResultState = Unset | Set(value: int) | Dropped

  datatype MultishotState = MultishotState(results: seq<int>, dropped: bool, finished: bool)

  datatype MultishotResult = Value(value: int) | NoValue | Finished

  type Oneshots = map<nat, ResultState>
  type Multishots = map<nat, MultishotState>

  /** `queued` counts the entries pushed to the submission queue since the last `submit_and_wait`. */
  datatype Ring = Ring(queued: nat, pending: map<nat, PendingIo>, oneshot: Oneshots, multishot: Multishots)

  const EmptyRing := Ring(0, map[], map[], map[])

  // ---------------------------------------------------------------- result.rs

  function SetResult(slots: Oneshots, result: int, idx: nat): Outcome<Oneshots> {
    if idx !in slots then Panicked
    else if slots[idx].Dropped? then Returned(slots - {idx})
    else Returned(slots[idx := Set(result)])
  }

  function GetResult(slots: Oneshots, idx: nat): Outcome<(Oneshots, Option<int>)> {
    if idx !in slots then Panicked
    else match slots[idx]
      case Unset => Returned((slots, None))
      case Set(v) => Returned((slots - {idx}, Some(v)))
      case Dropped => Panicked
  }

  function DropResult(slots: Oneshots, idx: nat): Outcome<Oneshots> {
    if idx !in slots then Panicked
    else if slots[idx].Set? then Returned(slots - {idx})
    else Returned(slots[idx := Dropped])
  }

  /** A push onto the ring buffer, which overwrites its oldest element when full. */
  function RingPush(buffer: seq<int>, value: int): seq<int> {
    if |buffer| < BUFFER_LEN then buffer + [value] else buffer[1..] + [value]
  }

  function PushResult(slots: Multishots, result: int, idx: nat): Outcome<Multishots> {
    if idx !in slots then Panicked
    else Returned(slots[idx := slots[idx].(results := RingPush(slots[idx].results, result))])
  }

  function PopResult(slots: Multishots, idx: nat): Outcome<(Multishots, MultishotResult)> {
    if idx !in slots then Panicked
    else
      var s := slots[idx];
      if s.results != [] then
        Returned((slots[idx := s.(results := s.results[1..])], Value(s.results[0])))
      else
        Returned((slots, if s.finished then Finished else NoValue))
  }

  function DropMultishot(slots: Multishots, idx: nat): Outcome<Multishots> {
    if idx !in slots then Panicked
    else if slots[idx].finished then Returned(slots - {idx})
    else Returned(slots[idx := slots[idx].(dropped := true)])
  }

  function SetFinished(slots: Multishots, idx: nat): Outcome<Multishots> {
    if idx !in slots then Panicked
    else if slots[idx].dropped then Returned(slots - {idx})
    else Returned(slots[idx := slots[idx].(finished := true)])
  }

  // ---------------------------------------------------------------- uring.rs

  /** `submit_io`, given the keys that the two slabs hand out. */
  function SubmitIo(ring: Ring, obj: nat, kind: IoKind, slot: nat, userData: nat): Outcome<Ring> {
    if ring.queued >= SQ_ENTRIES then Panicked
    else Returned(Ring(
      ring.queued + 1,
      ring.pending[userData := PendingIo(obj, slot, kind)],
      if kind.Oneshot? then ring.oneshot[slot := Unset] else ring.oneshot,
      if kind.Multi? then ring.multishot[slot := MultishotState([], false, false)] else ring.multishot))
  }

  /** `IoCompletionIter::next` for one completion: the new ring and the waker to call. */
  function NextCompletion(ring: Ring, userData: nat, res: int, more: bool): Outcome<(Ring, nat)> {
    if userData !in ring.pending then Panicked
    else
      var p := ring.pending[userData];
      match p.kind
      case Oneshot =>
        (match SetResult(ring.oneshot, res, p.slot)
         case Panicked => Panicked
         case Returned(slots) =>
           Returned((ring.(oneshot := slots, pending := ring.pending - {userData}), p.assocObj)))
      case Multi =>
        match PushResult(ring.multishot, res, p.slot)
        case Panicked => Panicked
        case Returned(slots) =>
          if more then Returned((ring.(multishot := slots), p.assocObj))
          else match SetFinished(slots, p.slot)
            case Panicked => Panicked
            case Returned(slots') => Returned((ring.(multishot := slots'), p.assocObj))
  }

  // ---------------------------------------------------------------- io/oneshot.rs, io/multishot.rs

  datatype OneshotIo = NewOne | SubmittedOne(slot: nat) | FinishedOne(value: int)

  datatype MultishotIo = NewMany | SubmittedMany(slot: nat, userData: nat)

  function OneshotPoll(io: OneshotIo): Poll<int> {
    match io
    case NewOne => Pending
    case SubmittedOne(_) => Pending
    case FinishedOne(v) => Ready(v)
  }

  function SubmitOrGetOneshot(io: OneshotIo, ring: Ring, obj: nat, slot: nat, userData: nat)
    : Outcome<(OneshotIo, Ring)>
  {
    match io
    case NewOne =>
      (match SubmitIo(ring, obj, Oneshot, slot, userData)
       case Panicked => Panicked
       case Returned(ring') => Returned((SubmittedOne(slot), ring')))
    case SubmittedOne(s) =>
      (match GetResult(ring.oneshot, s)
       case Panicked => Panicked
       case Returned((slots, res)) =>
         Returned((if res.Some? then FinishedOne(res.value) else io, ring.(oneshot := slots))))
    case FinishedOne(_) => Returned((io, ring))
  }

  function SubmitOrGetMultishot(io: MultishotIo, ring: Ring, obj: nat, slot: nat, userData: nat)
    : Outcome<(MultishotIo, Ring, Poll<Option<int>>)>
  {
    match io
    case NewMany =>
      (match SubmitIo(ring, obj, Multi, slot, userData)
       case Panicked => Panicked
       case Returned(ring') => Returned((SubmittedMany(slot, userData), ring', Pending)))
    case SubmittedMany(s, _) =>
      match PopResult(ring.multishot, s)
      case Panicked => Panicked
      case Returned((slots, res)) =>
        Returned((io, ring.(multishot := slots),
                  match res
                  case Value(v) => Ready(Some(v))
                  case NoValue => Pending
                  case Finished => Ready(None)))
  }

  function DropOneshotIo(io: OneshotIo, ring: Ring): Outcome<Ring> {
    if !io.SubmittedOne? then Returned(ring)
    else match DropResult(ring.oneshot, io.slot)
      case Panicked => Panicked
      case Returned(slots) => Returned(ring.(oneshot := slots))
  }

  /** `cancelled` says whether the kernel accepted `register_sync_cancel`. */
  function DropMultishotIo(io: MultishotIo, ring: Ring, cancelled: bool): Outcome<Ring> {
    if !io.SubmittedMany? then Returned(ring)
    else if !cancelled then Panicked
    else match DropMultishot(ring.multishot, io.slot)
      case Panicked => Panicked
      case Returned(slots) => Returned(ring.(multishot := slots))
  }
}
