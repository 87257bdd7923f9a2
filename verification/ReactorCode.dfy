/** The reactor in the form of its source: stores, ring and handles that are updated in place. */
module ReactorCode {
  import opened Wrappers
  import opened Slabs
  import opened Reactor

  class OneshotStore {
    const slots: Slab<ResultState>

    ghost predicate Valid()
      reads slots
    {
      slots.Valid()
    }

    constructor ()
      ensures Valid() && fresh(slots) && slots.Contents == map[]
    {
      slots := new Slab();
    }

    method CreateSlot() returns (idx: nat)
      requires Valid()
      modifies slots
      ensures Valid() && idx !in old(slots.Contents)
      ensures slots.Contents == old(slots.Contents)[idx := Unset]
    {
      idx := slots.Insert(Unset);
    }

    method SetResult(result: int, idx: nat)
      requires Valid() && idx in slots.Contents
      modifies slots
      ensures Valid()
      ensures Returned(slots.Contents) == Reactor.SetResult(old(slots.Contents), result, idx)
    {
      var entry := slots.Get(idx);
      if entry.Dropped? {
        var _ := slots.TryRemove(idx);
      } else {
        slots.Set(idx, Set(result));
      }
    }

    method GetResult(idx: nat) returns (res: Option<int>)
      requires Valid() && idx in slots.Contents && !slots.Contents[idx].Dropped?
      modifies slots
      ensures Valid()
      ensures Returned((slots.Contents, res)) == Reactor.GetResult(old(slots.Contents), idx)
    {
      var entry := slots.Get(idx);
      match entry {
        case Unset =>
          res := None;
        case Set(v) =>
          res := Some(v);
          var _ := slots.TryRemove(idx);
      }
    }

    method DropResult(idx: nat)
      requires Valid() && idx in slots.Contents
      modifies slots
      ensures Valid()
      ensures Returned(slots.Contents) == Reactor.DropResult(old(slots.Contents), idx)
    {
      var entry := slots.Get(idx);
      if entry.Set? {
        var _ := slots.TryRemove(idx);
      } else {
        slots.Set(idx, Dropped);
      }
    }
  }

  class MultishotStore {
    const slots: Slab<MultishotState>

    /** No buffer is longer than its ring of 1024. */
    ghost predicate Valid()
      reads slots
    {
      slots.Valid() && forall i | i in slots.Contents :: |slots.Contents[i].results| <= 1024
    }

    constructor ()
      ensures Valid() && fresh(slots) && slots.Contents == map[]
    {
      slots := new Slab();
    }

    method CreateSlot() returns (idx: nat)
      requires Valid()
      modifies slots
      ensures Valid() && idx !in old(slots.Contents)
      ensures slots.Contents == old(slots.Contents)[idx := MultishotState([], false, false)]
    {
      idx := slots.Insert(MultishotState([], false, false));
    }

    /** The buffer is now the last 1024 of everything in it and the new result. */
    method PushResult(result: int, idx: nat)
      requires Valid() && idx in slots.Contents
      modifies slots
      ensures Valid()
      ensures slots.Contents.Keys == old(slots.Contents).Keys
      ensures forall i | i in slots.Contents && i != idx :: slots.Contents[i] == old(slots.Contents)[i]
      ensures var was := old(slots.Contents)[idx]; var all := was.results + [result];
              slots.Contents[idx]
              == MultishotState(if |all| <= 1024 then all else all[|all| - 1024..], was.dropped, was.finished)
      ensures Returned(slots.Contents) == Reactor.PushResult(old(slots.Contents), result, idx)
    {
      var s := slots.Get(idx);
      slots.Set(idx, s.(results := RingPush(s.results, result)));
    }

    method PopResult(idx: nat) returns (res: MultishotResult)
      requires Valid() && idx in slots.Contents
      modifies slots
      ensures Valid()
      ensures Returned((slots.Contents, res)) == Reactor.PopResult(old(slots.Contents), idx)
    {
      var s := slots.Get(idx);
      if s.results != [] {
        res := Value(s.results[0]);
        slots.Set(idx, s.(results := s.results[1..]));
      } else if s.finished {
        res := Finished;
      } else {
        res := NoValue;
      }
    }

    method DropResult(idx: nat)
      requires Valid() && idx in slots.Contents
      modifies slots
      ensures Valid()
      ensures Returned(slots.Contents) == Reactor.DropMultishot(old(slots.Contents), idx)
    {
      var s := slots.Get(idx);
      if s.finished {
        var _ := slots.TryRemove(idx);
      } else {
        slots.Set(idx, s.(dropped := true));
      }
    }

    method SetFinished(idx: nat)
      requires Valid() && idx in slots.Contents
      modifies slots
      ensures Valid()
      ensures Returned(slots.Contents) == Reactor.SetFinished(old(slots.Contents), idx)
    {
      var s := slots.Get(idx);
      if s.dropped {
        var _ := slots.TryRemove(idx);
      } else {
        slots.Set(idx, s.(finished := true));
      }
    }
  }

  /** `ReactorInner`; the submission queue is represented by its length. */
  class ReactorInner {
    var queued: nat
    const pending: Slab<PendingIo>
    const oneshot: OneshotStore
    const multishot: MultishotStore
    ghost const Repr: set<object>

    ghost predicate Valid()
      reads Repr, pending, oneshot.slots, multishot.slots
    {
      && Repr == {this, pending, oneshot.slots, multishot.slots}
      && pending as object != oneshot.slots && pending as object != multishot.slots
      && oneshot.slots as object != multishot.slots
      && pending.Valid() && oneshot.Valid() && multishot.Valid()
    }

    ghost function Model(): Ring
      reads this, pending, oneshot.slots, multishot.slots
    {
      Ring(queued, pending.Contents, oneshot.slots.Contents, multishot.slots.Contents)
    }

    constructor ()
      ensures Valid() && fresh(Repr) && Model() == EmptyRing
    {
      queued := 0;
      var p := new Slab<PendingIo>();
      var o := new OneshotStore();
      var m := new MultishotStore();
      pending, oneshot, multishot := p, o, m;
      Repr := {this, p, o.slots, m.slots};
    }

    method CreateSlot(kind: IoKind) returns (slot: nat)
      requires Valid()
      modifies oneshot.slots, multishot.slots
      ensures Valid()
      ensures slot !in if kind.Oneshot? then old(oneshot.slots.Contents).Keys else old(multishot.slots.Contents).Keys
      ensures oneshot.slots.Contents
              == if kind.Oneshot? then old(oneshot.slots.Contents)[slot := Unset] else old(oneshot.slots.Contents)
      ensures multishot.slots.Contents
              == if kind.Oneshot? then old(multishot.slots.Contents)
                 else old(multishot.slots.Contents)[slot := MultishotState([], false, false)]
    {
      match kind {
        case Oneshot => slot := oneshot.CreateSlot();
        case Multi => slot := multishot.CreateSlot();
      }
    }

    method SubmitIo(obj: nat, kind: IoKind) returns (userData: nat, slot: nat)
      requires Valid() && queued < 1024
      modifies Repr
      ensures Valid()
      ensures userData !in old(Model().pending)
      ensures kind.Oneshot? ==> slot !in old(Model().oneshot)
      ensures kind.Multi? ==> slot !in old(Model().multishot)
      ensures queued == old(queued) + 1
      ensures Returned(Model()) == Reactor.SubmitIo(old(Model()), obj, kind, slot, userData)
    {
      slot := CreateSlot(kind);
      userData := pending.Insert(PendingIo(obj, slot, kind));
      queued := queued + 1;
    }

    /** `submit_and_wait`, which empties the submission queue. */
    method SubmitAndWait()
      requires Valid()
      modifies this
      ensures Valid() && Model() == old(Model()).(queued := 0)
    {
      queued := 0;
    }

    /** One round of the completion iterator; `NextCompletion` returning is what its `unwrap`s ask for. */
    method Next(userData: nat, res: int, more: bool) returns (obj: nat)
      requires Valid() && NextCompletion(Model(), userData, res, more).Returned?
      modifies Repr
      ensures Valid()
      ensures Returned((Model(), obj)) == NextCompletion(old(Model()), userData, res, more)
    {
      var p := pending.Get(userData);
      match p.kind {
        case Oneshot =>
          oneshot.SetResult(res, p.slot);
          var _ := pending.TryRemove(userData);
        case Multi =>
          multishot.PushResult(res, p.slot);
          if !more {
            multishot.SetFinished(p.slot);
          }
      }
      obj := p.assocObj;
    }
  }

  class OneshotUringIo {
    var state: OneshotIo
    const ring: ReactorInner

    constructor (ring: ReactorInner)
      ensures state == NewOne && this.ring == ring
    {
      state := NewOne;
      this.ring := ring;
    }

    /**
     `submit_or_get_result`: `slot` and `userData` are the keys used if the operation is
     submitted by this call.
     */
    method SubmitOrGetResult(obj: nat) returns (poll: Poll<int>, slot: nat, userData: nat)
      requires ring.Valid() && this !in ring.Repr
      requires state.NewOne? ==> ring.queued < 1024
      requires state.SubmittedOne? ==> GetResult(ring.Model().oneshot, state.slot).Returned?
      modifies this, ring.Repr
      ensures ring.Valid()
      ensures old(state).NewOne? ==>
                userData !in old(ring.Model().pending) && slot !in old(ring.Model().oneshot)
      ensures Returned((state, ring.Model())) == SubmitOrGetOneshot(old(state), old(ring.Model()), obj, slot, userData)
      ensures poll == OneshotPoll(state)
    {
      slot, userData := 0, 0;
      match state {
        case NewOne =>
          userData, slot := ring.SubmitIo(obj, Oneshot);
          state := SubmittedOne(slot);
          poll := Pending;
        case SubmittedOne(s) =>
          var res := ring.oneshot.GetResult(s);
          if res.Some? {
            state := FinishedOne(res.value);
          }
          poll := if res.Some? then Ready(res.value) else Pending;
        case FinishedOne(v) =>
          poll := Ready(v);
      }
    }

    /** The `Drop` implementation. */
    method Drop()
      requires ring.Valid() && DropOneshotIo(state, ring.Model()).Returned?
      modifies ring.Repr
      ensures ring.Valid()
      ensures Returned(ring.Model()) == DropOneshotIo(old(state), old(ring.Model()))
    {
      if state.SubmittedOne? {
        ring.oneshot.DropResult(state.slot);
      }
    }
  }

  class MultishotUringIo {
    var state: MultishotIo
    const ring: ReactorInner

    constructor (ring: ReactorInner)
      ensures state == NewMany && this.ring == ring
    {
      state := NewMany;
      this.ring := ring;
    }

    method SubmitOrGetResult(obj: nat) returns (poll: Poll<Option<int>>, slot: nat, userData: nat)
      requires ring.Valid() && this !in ring.Repr
      requires state.NewMany? ==> ring.queued < 1024
      requires state.SubmittedMany? ==> state.slot in ring.Model().multishot
      modifies this, ring.Repr
      ensures ring.Valid()
      ensures old(state).NewMany? ==>
                userData !in old(ring.Model().pending) && slot !in old(ring.Model().multishot)
      ensures Returned((state, ring.Model(), poll))
              == SubmitOrGetMultishot(old(state), old(ring.Model()), obj, slot, userData)
    {
      slot, userData := 0, 0;
      match state {
        case NewMany =>
          userData, slot := ring.SubmitIo(obj, Multi);
          state := SubmittedMany(slot, userData);
          poll := Pending;
        case SubmittedMany(s, _) =>
          var res := ring.multishot.PopResult(s);
          match res {
            case Value(v) => poll := Ready(Some(v));
            case NoValue => poll := Pending;
            case Finished => poll := Ready(None);
          }
      }
    }

    /** The `Drop` implementation, once the kernel has accepted the cancellation. */
    method Drop()
      requires ring.Valid() && DropMultishotIo(state, ring.Model(), true).Returned?
      modifies ring.Repr
      ensures ring.Valid()
      ensures Returned(ring.Model()) == DropMultishotIo(old(state), old(ring.Model()), true)
    {
      if state.SubmittedMany? {
        ring.multishot.DropResult(state.slot);
      }
    }
  }
}
