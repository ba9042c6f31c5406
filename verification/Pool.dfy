/** The pool and its counting pointers as one thread uses them: what each pointer operation does to the counts and,
    through the last release, to the sparse set. The interleavings of several threads are in `Lifecycle`. */
module Pools {
  import opened Handles
  import opened Options
  import opened SparseSets

  type Pointer = Option<uint64>

  predicate Names(p: Pointer, w: nat) {
    p.Some? && Who(p.value) == w
  }

  /** How many of the pointers name slot w. */
  function NamesOf(cells: seq<Pointer>, w: nat): nat {
    if cells == [] then 0 else (if Names(cells[0], w) then 1 else 0) + NamesOf(cells[1..], w)
  }

  lemma {:induction false} NamesUpdate(cells: seq<Pointer>, c: nat, p: Pointer, w: nat)
    requires c < |cells|
    ensures NamesOf(cells[c := p], w) + (if Names(cells[c], w) then 1 else 0) ==
            NamesOf(cells, w) + if Names(p, w) then 1 else 0
  {
    if c == 0 {
    } else {
      assert cells[c := p][1..] == cells[1..][c - 1 := p];
      NamesUpdate(cells[1..], c - 1, p, w);
    }
  }

  lemma {:induction false} NamedIsCounted(cells: seq<Pointer>, c: nat, w: nat)
    requires c < |cells| && Names(cells[c], w)
    ensures 1 <= NamesOf(cells, w)
  {
    if c == 0 {
    } else {
      NamedIsCounted(cells[1..], c - 1, w);
    }
  }

  /** Counts are exact, pointers are current, and a slot is in use exactly while somebody points to it. */
  ghost predicate Consistent(v: View, refCount: seq<nat>, cells: seq<Pointer>) {
    && |v.state| == |v.generation| == |refCount|
    && (forall c :: 0 <= c < |cells| && cells[c].Some? ==> v.IsValid(cells[c].value))
    && (forall w :: 0 <= w < |refCount| ==> refCount[w] == NamesOf(cells, w) && (refCount[w] == 0 <==> v.state[w] == 0))
  }

  /** The pool after a pointer equal to `dropped` went and `cells` are left: a slot nobody points to is pushed. */
  function Swept(v: View, dropped: Pointer, cells: seq<Pointer>): View
    requires |v.state| == |v.generation| && (dropped.Some? ==> Who(dropped.value) < |v.state|)
  {
    if dropped.Some? && NamesOf(cells, Who(dropped.value)) == 0 then v.Pushed(Who(dropped.value)) else v
  }

  lemma NothingSwept(v: View, p: Pointer, cells: seq<Pointer>)
    requires |v.state| == |v.generation| && (p.Some? ==> Who(p.value) < |v.state| && 1 <= NamesOf(cells, Who(p.value)))
    ensures Swept(v, p, cells) == v
  {
  }

  /** Dropping one pointer and giving its count back keeps pool, counts and pointers consistent. */
  lemma SweptConsistent(v: View, refCount: seq<nat>, before: seq<Pointer>, dropped: Pointer, after: seq<Pointer>,
                        counts: seq<nat>)
    requires Consistent(v, refCount, before) && |counts| == |refCount|
    requires dropped.Some? ==> Who(dropped.value) < |v.state|
    requires forall c :: 0 <= c < |after| && after[c].Some? ==> after[c] in before
    requires forall w :: 0 <= w < |counts| ==> counts[w] == NamesOf(after, w)
    requires forall w :: 0 <= w < |counts| && !Names(dropped, w) ==> (counts[w] == 0 <==> refCount[w] == 0)
    requires dropped.Some? ==> 1 <= refCount[Who(dropped.value)]
    ensures Consistent(Swept(v, dropped, after), counts, after)
  {
    var s := Swept(v, dropped, after);
    forall c | 0 <= c < |after| && after[c].Some?
      ensures s.IsValid(after[c].value)
    {
      var b :| 0 <= b < |before| && before[b] == after[c];
      NamedIsCounted(after, c, Who(after[c].value));
    }
  }

  class SparsePool {
    const slots: SparseSet
    var refCount: seq<nat>
    /** Every `SharedPoolPtr` there is. */
    var cells: seq<Pointer>

    ghost predicate Valid()
      reads this, slots, slots.sparse, slots.dense, slots.cursor
    {
      slots.Valid() && |refCount| == slots.N && Consistent(slots.Contents(), refCount, cells)
    }

    constructor (n: uint32, states: nat, pointers: nat)
      requires 1 <= states
      ensures Valid() && slots.N == n && slots.stateCount == states && cells == Nulls(pointers)
      ensures fresh(slots) && fresh(slots.sparse) && fresh(slots.dense) && fresh(slots.cursor)
    {
      slots := new SparseSet(n, states);
      refCount := seq(n, _ => 0);
      cells := Nulls(pointers);
      new;
      forall w | 0 <= w < n
        ensures NamesOf(cells, w) == 0
      {
        NullsNameNothing(cells, w);
      }
    }

    method AddRef(handle: uint64)
      requires Who(handle) < |refCount|
      modifies this`refCount
      ensures refCount == old(refCount)[Who(handle) := old(refCount)[Who(handle)] + 1]
    {
      refCount := refCount[Who(handle) := refCount[Who(handle)] + 1];
    }

    /** Whoever brings the count to zero pushes the slot. */
    method ReleaseRef(handle: uint64)
      requires slots.Valid() && Who(handle) < slots.N == |refCount| && 1 <= refCount[Who(handle)]
      modifies this`refCount, slots.sparse, slots.dense, slots.cursor
      ensures slots.Valid() && refCount == old(refCount)[Who(handle) := old(refCount)[Who(handle)] - 1]
      ensures slots.Contents() == if refCount[Who(handle)] == 0 then old(slots.Contents()).Pushed(Who(handle))
                                else old(slots.Contents())
    {
      refCount := refCount[Who(handle) := refCount[Who(handle)] - 1];
      if refCount[Who(handle)] == 0 {
        slots.Push(handle);
      }
    }

    /** A null pointer comes back exactly when the state is illegal or every slot is in use. A slot taken in state 0
        stays in the free region although it is pointed to: the pool stays consistent exactly when that does not
        happen. */
    method Acquire(state: nat, dst: nat)
      requires Valid() && dst < |cells| && cells[dst].None?
      modifies this, slots.sparse, slots.dense, slots.cursor
      ensures |cells| == |old(cells)| && slots.Valid()
      ensures Valid() <==> state > 0 || cells[dst].None?
      ensures cells[dst].None? <==> state >= slots.stateCount || old(slots.Contents()).SlotsIn(0) == {}
      ensures cells[dst].None? ==> cells == old(cells) && slots.Contents() == old(slots.Contents())
      ensures cells[dst].Some? ==>
                && cells == old(cells)[dst := cells[dst]] && Who(cells[dst].value) < |old(slots.Contents()).state|
                && old(slots.Contents()).state[Who(cells[dst].value)] == 0
                && old(slots.Contents()).IsValid(cells[dst].value)
                && slots.Contents() == old(slots.Contents()).Moved(Who(cells[dst].value), state)
    {
      InvalidHandleDecodes();
      var handle := slots.Pop(state);
      if !slots.IsValid(handle) {
        return;
      }
      refCount := refCount[Who(handle) := 0];
      AddRef(handle);
      cells := cells[dst := Some(handle)];
      forall w: nat
        ensures NamesOf(cells, w) == NamesOf(old(cells), w) + if w == Who(handle) then 1 else 0
      {
        NamesUpdate(old(cells), dst, Some(handle), w);
      }
    }

    /** Copy construction and copy assignment: the new reference is counted before the old one is given up, and a
        pointer assigned to itself is left alone. */
    method CopyAssign(dst: nat, src: nat)
      requires Valid() && dst < |cells| && src < |cells|
      modifies this, slots.sparse, slots.dense, slots.cursor
      ensures Valid() && cells == old(cells)[dst := old(cells)[src]]
      ensures (old(cells)[dst].Some? ==> Who(old(cells)[dst].value) < slots.N)
              && slots.Contents() == Swept(old(slots.Contents()), old(cells)[dst], cells)
    {
      hide NamesOf;
      ghost var v, counts, before := slots.Contents(), refCount, cells;
      var current, other := cells[dst], cells[src];
      CellIsCounted(v, counts, before, dst);
      CellIsCounted(v, counts, before, src);
      if dst == src {
        assert before[dst := before[src]] == before;
        NothingSwept(v, current, before);
        return;
      }
      cells := cells[dst := other];
      if other.Some? {
        AddRef(other.value);
      }
      if current.Some? {
        ReleaseRef(current.value);
      }
      forall w | 0 <= w < |refCount|
        ensures refCount[w] == NamesOf(cells, w) && (!Names(current, w) ==> (refCount[w] == 0 <==> counts[w] == 0))
      {
        NamesUpdate(before, dst, other, w);
      }
      SweptConsistent(v, counts, before, current, cells, refCount);
    }

    /** Move construction and move assignment: the source ends up null and no count changes for it. */
    method MoveAssign(dst: nat, src: nat)
      requires Valid() && dst < |cells| && src < |cells|
      modifies this, slots.sparse, slots.dense, slots.cursor
      ensures Valid()
      ensures cells == if dst == src then old(cells) else old(cells)[dst := old(cells)[src]][src := None]
      ensures (old(cells)[dst].Some? ==> Who(old(cells)[dst].value) < slots.N)
              && slots.Contents() == Swept(old(slots.Contents()), old(cells)[dst], cells)
    {
      ghost var v, counts, before := slots.Contents(), refCount, cells;
      var current, other := cells[dst], cells[src];
      CellIsCounted(v, counts, before, dst);
      CellIsCounted(v, counts, before, src);
      if dst != src {
        if current.Some? {
          ReleaseRef(current.value);
        }
        cells := cells[dst := other][src := None];
        forall w | 0 <= w < |refCount|
          ensures refCount[w] == NamesOf(cells, w) && (!Names(current, w) ==> refCount[w] == counts[w])
        {
          NamesUpdate(before, dst, other, w);
          NamesUpdate(before[dst := other], src, None, w);
        }
        SweptConsistent(v, counts, before, current, cells, refCount);
      }
    }

    /** `Reset` and destruction. */
    method Reset(c: nat)
      requires Valid() && c < |cells|
      modifies this, slots.sparse, slots.dense, slots.cursor
      ensures Valid() && cells == old(cells)[c := None]
      ensures (old(cells)[c].Some? ==> Who(old(cells)[c].value) < slots.N)
              && slots.Contents() == Swept(old(slots.Contents()), old(cells)[c], cells)
    {
      ghost var v, counts, before := slots.Contents(), refCount, cells;
      var current := cells[c];
      CellIsCounted(v, counts, before, c);
      if current.Some? {
        ReleaseRef(current.value);
      }
      cells := cells[c := None];
      forall w | 0 <= w < |refCount|
        ensures refCount[w] == NamesOf(cells, w) && (!Names(current, w) ==> refCount[w] == counts[w])
      {
        NamesUpdate(before, c, None, w);
      }
      SweptConsistent(v, counts, before, current, cells, refCount);
    }
  }

  lemma CellIsCounted(v: View, refCount: seq<nat>, cells: seq<Pointer>, c: nat)
    requires Consistent(v, refCount, cells) && c < |cells|
    ensures cells[c].Some? ==>
              && Who(cells[c].value) < |refCount| && 1 <= refCount[Who(cells[c].value)]
              && 1 <= NamesOf(cells, Who(cells[c].value))
  {
    if cells[c].Some? {
      NamedIsCounted(cells, c, Who(cells[c].value));
    }
  }

  function Nulls(n: nat): (cells: seq<Pointer>)
    ensures |cells| == n && forall c :: 0 <= c < n ==> cells[c].None?
  {
    seq(n, _ => None)
  }

  lemma {:induction false} NullsNameNothing(cells: seq<Pointer>, w: nat)
    requires forall c :: 0 <= c < |cells| ==> cells[c].None?
    ensures NamesOf(cells, w) == 0
  {
    if cells == [] {
    } else {
      NullsNameNothing(cells[1..], w);
    }
  }
}
