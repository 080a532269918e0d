/** Handle numbers of handles.cpp: allocation with recycling. */
module Handles {

  import opened Options
  import opened Sequences

  const INT_MAX := 2147483647

  datatype HandleType = HandleCurl | HandleSocket | HandleNone

  datatype Handle = Handle(kind: HandleType, pointer: nat)

  /** What a HandleManager holds: freed is the stack of recycled numbers, its
      top last. */
  datatype Table = Table(next: int, freed: seq<int>, used: map<int, Handle>)

  const EMPTY_TABLE := Table(1, [], map[])

  // Live and recycled numbers are disjoint and together exactly 1 .. next - 1.
  ghost predicate ValidTable(t: Table) {
    && 1 <= t.next <= INT_MAX && Unique(t.freed)
    && (forall n :: n in t.freed ==> 1 <= n < t.next)
    && (forall n :: n in t.used <==> 1 <= n < t.next && n !in t.freed)
  }

  ghost function Lookup(t: Table, n: int): Option<nat> {
    if n in t.used && t.used[n].kind.HandleCurl? then Some(t.used[n].pointer) else None
  }

  // The number that the next allocation gets; 0 for none.
  ghost function NextNumber(t: Table): int {
    if t.freed != [] then t.freed[|t.freed| - 1]
    else if t.next == INT_MAX then 0 else t.next
  }

  ghost function Allocated(t: Table, h: Handle): Table {
    if t.freed != [] then
      t.(freed := t.freed[..|t.freed| - 1], used := t.used[NextNumber(t) := h])
    else if t.next == INT_MAX then t
    else t.(next := t.next + 1, used := t.used[t.next := h])
  }

  ghost function Freed(t: Table, n: int): Table {
    if n in t.used then t.(freed := t.freed + [n], used := t.used - {n}) else t
  }

  // Allocation never hands out a live number, keeps all others, and fails only
  // with every number below INT_MAX live.
  lemma AllocateOk(t: Table, h: Handle)
    requires ValidTable(t)
    ensures ValidTable(Allocated(t, h))
    ensures var n := NextNumber(t);
            if n == 0 then Allocated(t, h) == t
            else n !in t.used && 1 <= n < INT_MAX && Allocated(t, h).used == t.used[n := h]
    ensures NextNumber(t) == 0 <==> forall n :: 1 <= n < INT_MAX ==> n in t.used
  {
    var n := NextNumber(t);
    if t.freed != [] {
      var rest := t.freed[..|t.freed| - 1];
      assert t.freed == rest + [n];
      UniqueLast(rest, n);
    } else if t.next < INT_MAX {
      assert t.next !in t.used;
    }
  }

  lemma FreeOk(t: Table, n: int)
    requires ValidTable(t)
    ensures ValidTable(Freed(t, n)) && Freed(t, n).used == t.used - {n}
    ensures n in t.used ==> NextNumber(Freed(t, n)) == n
  {
    if n in t.used {
      UniqueLast(t.freed, n);
    }
  }

  // Freeing what was just allocated leaves the same numbers live; so does
  // allocating what was just freed.
  lemma AllocateThenFree(t: Table, h: Handle)
    requires ValidTable(t) && NextNumber(t) != 0
    ensures Freed(Allocated(t, h), NextNumber(t)).used == t.used
    ensures NextNumber(Freed(Allocated(t, h), NextNumber(t))) == NextNumber(t)
  {
    AllocateOk(t, h);
    FreeOk(Allocated(t, h), NextNumber(t));
  }

  lemma FreeThenAllocate(t: Table, n: int)
    requires ValidTable(t) && n in t.used
    ensures Allocated(Freed(t, n), t.used[n]) == t
  {
    assert (t.freed + [n])[..|t.freed|] == t.freed;
    assert (t.used - {n})[n := t.used[n]] == t.used;
  }

  // What a number leads to, before and after: an allocation gives its number
  // the pointer, a free leaves the number leading nowhere, and no other number
  // leads anywhere else for it.
  lemma LookupTracks(t: Table, pointer: nat, n: int)
    requires ValidTable(t)
    ensures var m := NextNumber(t); var u := Allocated(t, Handle(HandleCurl, pointer));
            && (m != 0 ==> Lookup(u, m) == Some(pointer) && Lookup(t, m) == None)
            && forall k :: k != m ==> Lookup(u, k) == Lookup(t, k)
    ensures Lookup(Freed(t, n), n) == None
    ensures forall k :: k != n ==> Lookup(Freed(t, n), k) == Lookup(t, k)
  {
    AllocateOk(t, Handle(HandleCurl, pointer));
  }

  class HandleManager {
    var nextHandle: int
    var freedHandles: seq<int>
    var usedHandles: map<int, Handle>
    // The contexts deleted so far.
    ghost var deleted: seq<nat>

    ghost function Contents(): Table
      reads this
    {
      Table(nextHandle, freedHandles, usedHandles)
    }

    ghost predicate Valid()
      reads this
    {
      ValidTable(Contents())
    }

    constructor ()
      ensures Valid() && Contents() == EMPTY_TABLE && deleted == []
    {
      nextHandle, freedHandles, usedHandles, deleted := 1, [], map[], [];
    }

    method GetCurlPointer(handle: int) returns (pointer: Option<nat>)
      ensures pointer == Lookup(Contents(), handle)
    {
      if handle !in usedHandles || usedHandles[handle].kind != HandleCurl {
        return None;
      }
      return Some(usedHandles[handle].pointer);
    }

    method NewHandle(pointer: nat, kind: HandleType) returns (number: int)
      requires Valid()
      modifies this
      ensures Valid() && deleted == old(deleted)
      ensures number == NextNumber(old(Contents()))
      ensures Contents() == Allocated(old(Contents()), Handle(kind, pointer))
    {
      AllocateOk(Contents(), Handle(kind, pointer));
      if freedHandles != [] {
        number := freedHandles[|freedHandles| - 1];
        freedHandles := freedHandles[..|freedHandles| - 1];
      } else if nextHandle == INT_MAX {
        return 0;
      } else {
        number := nextHandle;
        nextHandle := nextHandle + 1;
      }
      usedHandles := usedHandles[number := Handle(kind, pointer)];
    }

    method FreeHandle(handle: int)
      requires Valid()
      modifies this
      ensures Valid() && Contents() == Freed(old(Contents()), handle)
      ensures var p := Lookup(old(Contents()), handle);
              deleted == if p.Some? then old(deleted) + [p.value] else old(deleted)
    {
      FreeOk(Contents(), handle);
      if handle in usedHandles {
        freedHandles := freedHandles + [handle];
        if usedHandles[handle].kind == HandleCurl {
          deleted := deleted + [usedHandles[handle].pointer];
        }
        usedHandles := usedHandles - {handle};
      }
    }
  }
}
