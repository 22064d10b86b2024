/** The engine's two non-owning dynamic arrays of pointers: the object list
    (the render registry) and the animation list (the play queue). Both keep
    a buffer, a count and a capacity, and double the capacity when full. */
module Lists {
  import opened Objects
  import opened Animations

  /** Initial capacity of both lists. */
  const DA_INIT_SIZE: nat := 12

  /** Bytes in a pointer and in the records `RA_Object` (a 4-byte id, an
      8-byte position, padding, a callback pointer) and `RA_Animation` (a
      4-byte id, padding, a pointer, two floats, two callback pointers) on an
      LP64 target. The lists' `init` sizes the first block by the record,
      although the block stores pointers. */
  const POINTER_BYTES: nat := 8
  const OBJECT_BYTES: nat := 24
  const ANIMATION_BYTES: nat := 40

  /** Pointer slots in the block a list's `init` allocates for `DA_INIT_SIZE`
      records of `recordBytes` bytes. */
  function InitialSlots(recordBytes: nat): nat {
    DA_INIT_SIZE * recordBytes / POINTER_BYTES
  }

  /** The footprint of a list as `push` leaves it when the block returned by
      `realloc` is dropped: `slots` is the length of the block the list still
      points to, and `dropped` counts the `realloc` calls whose result was
      dropped (each may have released that block). With `NDEBUG` the call is
      compiled out and the block is never grown. */
  datatype Layout = Layout(slots: nat, count: nat, capacity: nat, dropped: nat)

  /** `push` as written: when full, the recorded capacity doubles and the
      result of `realloc` is dropped; the element goes to slot `count` of the
      original block. */
  function PushAsWritten(l: Layout): Layout {
    if l.count == l.capacity then Layout(l.slots, l.count + 1, 2 * l.capacity, l.dropped + 1)
    else Layout(l.slots, l.count + 1, l.capacity, l.dropped)
  }

  /** A fresh list with a first block of `slots` pointers after `n` pushes as
      written. From the thirteenth push on, the list points at a block that a
      `realloc` call was free to release. */
  function PushedAsWritten(slots: nat, n: nat): (l: Layout)
    ensures l.slots == slots && l.count == n
    ensures DA_INIT_SIZE <= l.capacity && l.count <= l.capacity
    ensures l.dropped == 0 <==> n <= DA_INIT_SIZE
    decreases n
  {
    if n == 0 then Layout(slots, 0, DA_INIT_SIZE, 0)
    else PushAsWritten(PushedAsWritten(slots, n - 1))
  }

  /** The recorded capacity after `n` pushes as written, doubled at the 13th,
      25th and 49th pushes, and the number of `realloc` results dropped. */
  lemma {:induction false} CapacityAsWritten(slots: nat, n: nat)
    requires n <= 8 * DA_INIT_SIZE
    ensures PushedAsWritten(slots, n).capacity ==
              if n <= DA_INIT_SIZE then DA_INIT_SIZE
              else if n <= 2 * DA_INIT_SIZE then 2 * DA_INIT_SIZE
              else if n <= 4 * DA_INIT_SIZE then 4 * DA_INIT_SIZE
              else 8 * DA_INIT_SIZE
    ensures PushedAsWritten(slots, n).dropped ==
              if n <= DA_INIT_SIZE then 0
              else if n <= 2 * DA_INIT_SIZE then 1
              else if n <= 4 * DA_INIT_SIZE then 2
              else 3
  {
    if n > 0 {
      CapacityAsWritten(slots, n - 1);
    }
  }

  /** Object list as written without the `realloc` call: the first block has
      36 pointer slots; after 36 pushes the recorded capacity is 48, so the
      37th push does not grow and writes slot 36, one past the block. Every
      earlier push writes inside it. */
  lemma ObjectListOverrunAsWritten()
    ensures InitialSlots(OBJECT_BYTES) == 36
    ensures var l := PushedAsWritten(36, 36);
            l.count == l.slots && l.count < l.capacity == 48 && l.dropped == 2
    ensures forall k :: k < 36 ==> PushedAsWritten(36, k).count < PushedAsWritten(36, k).slots
  {
    CapacityAsWritten(36, 36);
  }

  /** Animation list as written without the `realloc` call: the first block
      has 60 pointer slots; after 60 pushes the recorded capacity is 96, so the
      61st push writes slot 60, one past the block. */
  lemma AnimationListOverrunAsWritten()
    ensures InitialSlots(ANIMATION_BYTES) == 60
    ensures var l := PushedAsWritten(60, 60);
            l.count == l.slots && l.count < l.capacity == 96 && l.dropped == 3
    ensures forall k :: k < 60 ==> PushedAsWritten(60, k).count < PushedAsWritten(60, k).slots
  {
    CapacityAsWritten(60, 60);
  }

  class ObjectList {
    var buf: array<RaObject?>
    var count: nat
    var capacity: nat
    /** The stored pointers, in order. The list never owns them. */
    ghost var Contents: seq<RaObject>

    ghost predicate Valid()
      reads this, buf
    {
      && DA_INIT_SIZE <= capacity
      && buf.Length == capacity
      && count <= capacity
      && |Contents| == count
      && forall i :: 0 <= i < count ==> buf[i] == Contents[i]
    }

    constructor ()
      ensures Valid() && fresh(buf)
      ensures Contents == [] && capacity == DA_INIT_SIZE
    {
      buf := new RaObject?[DA_INIT_SIZE];
      count, capacity := 0, DA_INIT_SIZE;
      Contents := [];
    }

    /** Appends at the tail, doubling the capacity first when the list is full. */
    method Push(obj: RaObject)
      requires Valid()
      modifies this, buf
      ensures Valid() && if old(count) < old(capacity) then buf == old(buf) else fresh(buf)
      ensures Contents == old(Contents) + [obj]
      ensures capacity == if old(count) == old(capacity) then 2 * old(capacity) else old(capacity)
    {
      if count == capacity {
        capacity := capacity * 2;
        var grown := new RaObject?[capacity];
        forall i | 0 <= i < count {
          grown[i] := buf[i];
        }
        buf := grown;
      }
      buf[count] := obj;
      count := count + 1;
      Contents := Contents + [obj];
    }

    /** Removes and returns the last element; null, and no change, when empty. */
    method Pop() returns (obj: RaObject?)
      requires Valid()
      modifies this
      ensures Valid() && buf == old(buf) && capacity == old(capacity)
      ensures old(Contents) == [] ==> obj == null && Contents == []
      ensures old(Contents) != [] ==>
                obj == old(Contents)[|old(Contents)| - 1] &&
                Contents == old(Contents)[..|old(Contents)| - 1]
    {
      if count == 0 {
        return null;
      }
      count := count - 1;
      obj := buf[count];
      Contents := Contents[..count];
    }

    /** The element at `idx`, or null when `idx` is past the end. */
    method GetAt(idx: nat) returns (obj: RaObject?)
      requires Valid()
      ensures idx < |Contents| ==> obj == Contents[idx]
      ensures |Contents| <= idx ==> obj == null
    {
      if count <= idx {
        return null;
      }
      obj := buf[idx];
    }

    /** Overwrites slot `idx`; an index past the end changes nothing. */
    method Set(idx: nat, obj: RaObject)
      requires Valid()
      modifies this, buf
      ensures Valid() && buf == old(buf) && count == old(count) && capacity == old(capacity)
      ensures Contents == if idx < old(count) then old(Contents)[idx := obj] else old(Contents)
    {
      if count <= idx {
        return;
      }
      buf[idx] := obj;
      Contents := Contents[idx := obj];
    }

    /** Membership by object id, not by reference: it is membership of `obj`
        itself only when no other stored object carries the same id. */
    method Contains(obj: RaObject) returns (found: bool)
      requires Valid()
      ensures found <==> exists i :: 0 <= i < |Contents| && Contents[i].id == obj.id
      ensures obj in Contents ==> found
      ensures (forall i :: 0 <= i < |Contents| && Contents[i].id == obj.id ==> Contents[i] == obj) ==>
                (found <==> obj in Contents)
    {
      var i := 0;
      while i < count
        invariant 0 <= i <= count
        invariant forall k :: 0 <= k < i ==> Contents[k].id != obj.id
      {
        if buf[i].id == obj.id {
          return true;
        }
        i := i + 1;
      }
      return false;
    }
  }

  class AnimationList {
    var buf: array<Animation?>
    var count: nat
    var capacity: nat
    /** The stored pointers, in order. The list never owns them. */
    ghost var Contents: seq<Animation>

    ghost predicate Valid()
      reads this, buf
    {
      && DA_INIT_SIZE <= capacity
      && buf.Length == capacity
      && count <= capacity
      && |Contents| == count
      && forall i :: 0 <= i < count ==> buf[i] == Contents[i]
    }

    constructor ()
      ensures Valid() && fresh(buf)
      ensures Contents == [] && capacity == DA_INIT_SIZE
    {
      buf := new Animation?[DA_INIT_SIZE];
      count, capacity := 0, DA_INIT_SIZE;
      Contents := [];
    }

    /** Appends at the tail, doubling the capacity first when the list is full. */
    method Push(anim: Animation)
      requires Valid()
      modifies this, buf
      ensures Valid() && if old(count) < old(capacity) then buf == old(buf) else fresh(buf)
      ensures Contents == old(Contents) + [anim]
      ensures capacity == if old(count) == old(capacity) then 2 * old(capacity) else old(capacity)
    {
      if count == capacity {
        capacity := capacity * 2;
        var grown := new Animation?[capacity];
        forall i | 0 <= i < count {
          grown[i] := buf[i];
        }
        buf := grown;
      }
      buf[count] := anim;
      count := count + 1;
      Contents := Contents + [anim];
    }

    /** Removes and returns the last element; null, and no change, when empty. */
    method Pop() returns (anim: Animation?)
      requires Valid()
      modifies this
      ensures Valid() && buf == old(buf) && capacity == old(capacity)
      ensures old(Contents) == [] ==> anim == null && Contents == []
      ensures old(Contents) != [] ==>
                anim == old(Contents)[|old(Contents)| - 1] &&
                Contents == old(Contents)[..|old(Contents)| - 1]
    {
      if count == 0 {
        return null;
      }
      count := count - 1;
      anim := buf[count];
      Contents := Contents[..count];
    }

    /** Removes and returns the head, shifting the rest left by one slot;
        null, and no change, when empty. */
    method PopFirst() returns (anim: Animation?)
      requires Valid()
      modifies this, buf
      ensures Valid() && buf == old(buf) && capacity == old(capacity)
      ensures old(Contents) == [] ==> anim == null && Contents == []
      ensures old(Contents) != [] ==> anim == old(Contents)[0] && Contents == old(Contents)[1..]
    {
      if count == 0 {
        return null;
      }
      anim := buf[0];
      var i := 1;
      while i < count
        modifies buf
        invariant 1 <= i <= count
        invariant forall k :: 0 <= k < i - 1 ==> buf[k] == Contents[k + 1]
        invariant forall k :: i <= k < count ==> buf[k] == Contents[k]
      {
        buf[i - 1] := buf[i];
        i := i + 1;
      }
      count := count - 1;
      Contents := Contents[1..];
    }

    /** The element at `idx`, or null when `idx` is past the end. */
    method GetAt(idx: nat) returns (anim: Animation?)
      requires Valid()
      ensures idx < |Contents| ==> anim == Contents[idx]
      ensures |Contents| <= idx ==> anim == null
    {
      if count <= idx {
        return null;
      }
      anim := buf[idx];
    }

    /** Overwrites slot `idx`; an index past the end changes nothing. */
    method Set(idx: nat, anim: Animation)
      requires Valid()
      modifies this, buf
      ensures Valid() && buf == old(buf) && count == old(count) && capacity == old(capacity)
      ensures Contents == if idx < old(count) then old(Contents)[idx := anim] else old(Contents)
    {
      if count <= idx {
        return;
      }
      buf[idx] := anim;
      Contents := Contents[idx := anim];
    }

    /** Membership by animation id, not by reference: it is membership of
        `anim` itself only when no other queued animation carries the same id. */
    method Contains(anim: Animation) returns (found: bool)
      requires Valid()
      ensures found <==> exists i :: 0 <= i < |Contents| && Contents[i].id == anim.id
      ensures anim in Contents ==> found
      ensures (forall i :: 0 <= i < |Contents| && Contents[i].id == anim.id ==> Contents[i] == anim) ==>
                (found <==> anim in Contents)
    {
      var i := 0;
      while i < count
        invariant 0 <= i <= count
        invariant forall k :: 0 <= k < i ==> Contents[k].id != anim.id
      {
        if buf[i].id == anim.id {
          return true;
        }
        i := i + 1;
      }
      return false;
    }
  }
}
