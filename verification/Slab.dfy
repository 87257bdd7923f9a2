/**
 A stand-in for the `slab` crate: a vector of entries in which the vacant ones form a
 linked free list, so that a freed key is the next one handed out.
 */
module Slabs {
  import opened Wrappers

  datatype Entry<T> = Vacant(next: nat) | Occupied(value: T)

  ghost function Occupants<T>(entries: seq<Entry<T>>): map<nat, T> {
    map k: nat | k < |entries| && entries[k].Occupied? :: entries[k].value
  }

  /** Walking the links from `next` visits the vacant keys in the order `free`, then leaves the vector. */
  ghost predicate FreeList<T>(entries: seq<Entry<T>>, next: nat, free: seq<nat>)
    decreases |free|
  {
    if free == [] then
      next == |entries|
    else
      next == free[0] < |entries| && entries[next].Vacant?
      && FreeList(entries, entries[next].next, free[1..])
  }

  ghost predicate WellFormed<T>(entries: seq<Entry<T>>, next: nat, free: seq<nat>) {
    && FreeList(entries, next, free)
    && (forall k: nat | k < |entries| :: entries[k].Vacant? <==> k in free)
    && (forall i, j | 0 <= i < j < |free| :: free[i] != free[j])
  }

  lemma {:induction false} FreeListFrame<T>(entries: seq<Entry<T>>, entries': seq<Entry<T>>, next: nat, free: seq<nat>)
    requires FreeList(entries, next, free) && |entries'| == |entries|
    requires forall k | k in free && k < |entries| :: entries'[k] == entries[k]
    ensures FreeList(entries', next, free)
    decreases |free|
  {
    if free != [] {
      FreeListFrame(entries, entries', entries[next].next, free[1..]);
    }
  }

  /** Filling the head of the free list. */
  lemma FillHead<T>(entries: seq<Entry<T>>, next: nat, free: seq<nat>, value: T)
    requires WellFormed(entries, next, free) && free != []
    ensures next < |entries| && entries[next].Vacant?
    ensures WellFormed(entries[next := Occupied(value)], entries[next].next, free[1..])
    ensures Occupants(entries[next := Occupied(value)]) == Occupants(entries)[next := value]
  {
    assert forall i | 0 <= i < |free[1..]| :: free[1..][i] == free[i + 1];
    FreeListFrame(entries, entries[next := Occupied(value)], entries[next].next, free[1..]);
  }

  /** Freeing a key puts it at the head of the free list. */
  lemma FreeKey<T>(entries: seq<Entry<T>>, next: nat, free: seq<nat>, key: nat)
    requires WellFormed(entries, next, free) && key < |entries| && entries[key].Occupied?
    ensures WellFormed(entries[key := Vacant(next)], key, [key] + free)
    ensures Occupants(entries[key := Vacant(next)]) == Occupants(entries) - {key}
  {
    FreeListFrame(entries, entries[key := Vacant(next)], next, free);
    assert ([key] + free)[1..] == free;
  }

  class Slab<T> {
    ghost var Contents: map<nat, T>
    ghost var Free: seq<nat>

    var entries: seq<Entry<T>>
    var next: nat
    var len: nat

    ghost predicate Valid()
      reads this
    {
      WellFormed(entries, next, Free) && Contents == Occupants(entries) && len == |Contents|
    }

    constructor ()
      ensures Valid() && Contents == map[]
    {
      entries, next, len, Free := [], 0, 0, [];
      Contents := map[];
    }

    method IsEmpty() returns (empty: bool)
      requires Valid()
      ensures empty <==> Contents == map[]
    {
      empty := len == 0;
    }

    /** `vacant_entry().key()` followed by `insert`. */
    method Insert(value: T) returns (key: nat)
      requires Valid()
      modifies this
      ensures Valid()
      ensures key !in old(Contents) && Contents == old(Contents)[key := value]
      ensures old(Free) != [] ==> [key] + Free == old(Free)
    {
      key := next;
      if key == |entries| {
        assert Free == [];
        entries := entries + [Occupied(value)];
        next := key + 1;
      } else {
        FillHead(entries, next, Free, value);
        next := entries[key].next;
        entries := entries[key := Occupied(value)];
        Free := Free[1..];
      }
      len := len + 1;
      Contents := Contents[key := value];
    }

    /** `try_remove`: a vacant or unknown key is left alone. */
    method TryRemove(key: nat) returns (r: Option<T>)
      requires Valid()
      modifies this
      ensures Valid()
      ensures r == if key in old(Contents) then Some(old(Contents)[key]) else None
      ensures Contents == old(Contents) - {key}
      ensures Free == if key in old(Contents) then [key] + old(Free) else old(Free)
    {
      if key < |entries| && entries[key].Occupied? {
        r := Some(entries[key].value);
        assert Contents == (Contents - {key})[key := Contents[key]];
        FreeKey(entries, next, Free, key);
        entries := entries[key := Vacant(next)];
        next := key;
        len := len - 1;
        Free := [key] + Free;
        Contents := Contents - {key};
      } else {
        r := None;
      }
    }

    /** `get(key).unwrap()`. */
    method Get(key: nat) returns (value: T)
      requires Valid() && key in Contents
      ensures value == Contents[key]
    {
      value := entries[key].value;
    }

    /** Assignment through `get_mut(key).unwrap()`. */
    method Set(key: nat, value: T)
      requires Valid() && key in Contents
      modifies this
      ensures Valid() && Free == old(Free)
      ensures Contents == old(Contents)[key := value]
    {
      entries := entries[key := Occupied(value)];
      FreeListFrame(old(entries), entries, next, Free);
      Contents := Contents[key := value];
      assert Contents.Keys == old(Contents).Keys && |Contents| == |Contents.Keys|;
    }
  }
}
