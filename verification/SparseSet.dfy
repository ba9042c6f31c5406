/** The state-partitioned sparse set: one permutation of the slots, cut into one contiguous region per state. */
module SparseSets {
  import opened Handles

  datatype Slot = Slot(where: uint32, generation: uint32, state: nat)

  /** What a client can observe: for each slot its state and its generation. */
  datatype View = View(state: seq<nat>, generation: seq<uint32>) {

    ghost predicate WellFormed(n: nat, stateCount: nat) {
      && |state| == |generation| == n
      && forall w :: 0 <= w < n ==> state[w] < stateCount
    }

    ghost predicate IsValid(handle: uint64) {
      Who(handle) < |generation| && generation[Who(handle)] == Generation(handle)
    }

    function HandleOf(who: uint32): uint64
      requires who < |generation|
    {
      MakeHandle(generation[who], who)
    }

    /** The whole meaning of moving a slot, however many regions it crosses. */
    function Moved(who: uint32, newState: nat): View
      requires who < |state|
    {
      this.(state := state[who := newState])
    }

    /** Returning a slot to the free state ends its generation. */
    function Pushed(who: uint32): View
      requires who < |state| && |state| == |generation|
    {
      View(state[who := 0], generation[who := NextGeneration(generation[who])])
    }

    ghost function SlotsIn(s: nat): set<int> {
      set w | 0 <= w < |state| && state[w] == s
    }
  }

  /** A move changes the sizes of two regions, by one each, and no other region. */
  lemma MoveShiftsOneSlot(v: View, who: uint32, newState: nat)
    requires who < |v.state| && v.state[who] != newState
    ensures |v.Moved(who, newState).SlotsIn(newState)| == |v.SlotsIn(newState)| + 1
    ensures |v.Moved(who, newState).SlotsIn(v.state[who])| == |v.SlotsIn(v.state[who])| - 1
    ensures forall s :: s != newState && s != v.state[who] ==> v.Moved(who, newState).SlotsIn(s) == v.SlotsIn(s)
  {
    var m := v.Moved(who, newState);
    assert m.SlotsIn(newState) == v.SlotsIn(newState) + {who};
    assert v.SlotsIn(v.state[who]) == m.SlotsIn(v.state[who]) + {who as int};
  }

  /** A sequence without repeats has as many elements as its set of values. */
  lemma {:induction false} SliceWithoutRepeats(a: seq<int>)
    requires forall i, j :: 0 <= i < j < |a| ==> a[i] != a[j]
    ensures |set x | x in a| == |a|
  {
    if a == [] {
    } else {
      var last := |a| - 1;
      SliceWithoutRepeats(a[..last]);
      assert (set x | x in a) == (set x | x in a[..last]) + {a[last]};
    }
  }

  /** Two entries of the dense array are exchanged and their two inverse entries follow. */
  ghost predicate IsSwap(dense: seq<uint32>, sparse: seq<Slot>, dense': seq<uint32>, sparse': seq<Slot>, a: nat, b: nat)
    requires |dense| == |dense'| && |sparse| == |sparse'| && a < |dense| && b < |dense|
  {
    && dense' == dense[a := dense[b]][b := dense[a]]
    && forall w :: 0 <= w < |sparse| ==>
         && sparse'[w].state == sparse[w].state && sparse'[w].generation == sparse[w].generation
         && sparse'[w].where == if w == dense[a] then b else if w == dense[b] then a else sparse[w].where
  }

  /** Each array is the inverse of the other. */
  ghost predicate AreInverse(dense: seq<uint32>, sparse: seq<Slot>) {
    && |dense| == |sparse|
    && (forall i :: 0 <= i < |dense| ==> dense[i] < |sparse| && sparse[dense[i]].where == i)
    && (forall w :: 0 <= w < |sparse| ==> sparse[w].where < |dense| && dense[sparse[w].where] == w)
  }

  lemma SwappedInverse(dense: seq<uint32>, sparse: seq<Slot>, dense': seq<uint32>, sparse': seq<Slot>, a: nat, b: nat)
    requires AreInverse(dense, sparse) && |dense'| == |dense| && |sparse'| == |sparse| && a < |dense| && b < |dense|
    requires IsSwap(dense, sparse, dense', sparse', a, b)
    ensures AreInverse(dense', sparse')
  {
  }

  /** Every slot lies in the region of its state. */
  ghost predicate InRegions(sparse: seq<Slot>, cursor: seq<uint32>, stateCount: nat)
    requires |cursor| == stateCount + 1
  {
    forall w :: 0 <= w < |sparse| ==>
      && sparse[w].state < stateCount
      && cursor[sparse[w].state] <= sparse[w].where < cursor[sparse[w].state + 1]
  }

  /** Exchanging two slots of one state moves no slot out of its region. */
  lemma SwappedRegions(dense: seq<uint32>, sparse: seq<Slot>, dense': seq<uint32>, sparse': seq<Slot>, a: nat, b: nat,
                       cursor: seq<uint32>, stateCount: nat)
    requires AreInverse(dense, sparse) && |dense'| == |dense| && |sparse'| == |sparse| && a < |dense| && b < |dense|
    requires IsSwap(dense, sparse, dense', sparse', a, b) && sparse[dense[a]].state == sparse[dense[b]].state
    requires |cursor| == stateCount + 1 && InRegions(sparse, cursor, stateCount)
    ensures InRegions(sparse', cursor, stateCount)
  {
  }

  class SparseSet {
    const N: uint32
    const stateCount: nat
    const sparse: array<Slot>
    const dense: array<uint32>
    /** State s owns dense[cursor[s] .. cursor[s + 1]). */
    const cursor: array<uint32>

    /** `dense` is a permutation of the slots and the `where` fields are its inverse. */
    ghost predicate Inverse()
      reads this, sparse, dense
    {
      && sparse.Length == N && dense.Length == N
      && (forall i :: 0 <= i < N ==> dense[i] < N && sparse[dense[i]].where == i)
      && (forall w :: 0 <= w < N ==> sparse[w].where < N && dense[sparse[w].where] == w)
    }

    /** The cursors rise from 0 to N, one boundary at a time. */
    ghost predicate Ordered()
      reads this, cursor
    {
      && 1 <= stateCount
      && cursor.Length == stateCount + 1
      && cursor[0] == 0 && cursor[stateCount] == N
      && (forall s {:trigger cursor[s + 1]} :: 0 <= s < stateCount ==> cursor[s] <= cursor[s + 1])
    }

    ghost predicate Partitioned()
      requires Inverse() && Ordered()
      reads this, sparse, dense, cursor
    {
      forall w :: 0 <= w < N ==>
        && sparse[w].state < stateCount
        && cursor[sparse[w].state] <= sparse[w].where < cursor[sparse[w].state + 1]
    }

    ghost predicate Valid()
      reads this, sparse, dense, cursor
    {
      dense != cursor && Inverse() && Ordered() && Partitioned()
    }

    lemma {:induction false} CursorsRise(s: nat, t: nat)
      requires Ordered() && s <= t <= stateCount
      ensures cursor[s] <= cursor[t]
      decreases t - s
    {
      if s == t {
      } else {
        CursorsRise(s + 1, t);
      }
    }

    lemma CursorsOrdered(s: nat)
      requires Ordered() && s <= stateCount
      ensures 0 <= cursor[s] <= N
    {
      CursorsRise(s, stateCount);
    }

    ghost function Contents(): (v: View)
      reads sparse
      ensures |v.state| == |v.generation| == sparse.Length
      ensures forall w :: 0 <= w < sparse.Length ==>
                v.state[w] == sparse[w].state && v.generation[w] == sparse[w].generation
    {
      var slots := sparse[..];
      View(seq(|slots|, i requires 0 <= i < |slots| => slots[i].state),
           seq(|slots|, i requires 0 <= i < |slots| => slots[i].generation))
    }

    constructor (n: uint32, states: nat)
      requires 1 <= states
      ensures Valid() && N == n && stateCount == states
      ensures fresh(sparse) && fresh(dense) && fresh(cursor)
      ensures forall w :: 0 <= w < n ==> Contents().state[w] == 0 && Contents().generation[w] == 0
    {
      N := n;
      stateCount := states;
      sparse := new Slot[n](i requires 0 <= i < n => Slot(i, 0, 0));
      dense := new uint32[n](i requires 0 <= i < n => i);
      cursor := new uint32[states + 1](i => if i == 0 then 0 else n);
    }

    /** Dense position i belongs to the region of state s exactly when the slot stored there is in state s. */
    lemma RegionsAreStates(i: nat, s: nat)
      requires Valid() && i < N && s < stateCount
      ensures sparse[dense[i]].state == s <==> cursor[s] <= i < cursor[s + 1]
    {
      var own := sparse[dense[i]].state;
      if own < s {
        CursorsRise(own + 1, s);
      } else if s < own {
        CursorsRise(s + 1, own);
      }
    }

    /** The width of a region is the number of slots in its state. */
    lemma RegionWidth(s: nat)
      requires Valid() && s < stateCount
      ensures |Contents().SlotsIn(s)| == cursor[s + 1] - cursor[s]
    {
      CursorsOrdered(s);
      CursorsOrdered(s + 1);
      SliceWithoutRepeats(dense[cursor[s]..cursor[s + 1]]);
      var region := dense[cursor[s]..cursor[s + 1]];
      forall w: int
        ensures (w in Contents().SlotsIn(s)) <==> (w in region)
      {
        if w in region {
          var k :| 0 <= k < |region| && region[k] == w;
          RegionsAreStates(cursor[s] + k, s);
        }
        if w in Contents().SlotsIn(s) {
          assert region[sparse[w].where - cursor[s]] == w;
        }
      }
      assert Contents().SlotsIn(s) == set w | w in region;
    }

    function IsValid(handle: uint64): (r: bool)
      requires Valid()
      reads this, sparse, dense, cursor
      ensures r == Contents().IsValid(handle)
    {
      Who(handle) < N && sparse[Who(handle)].generation == Generation(handle)
    }

    function GetHandle(who: uint32): (handle: uint64)
      requires Valid() && who < N
      reads this, sparse, dense, cursor
      ensures handle == Contents().HandleOf(who) && Contents().IsValid(handle)
    {
      MakeHandle(sparse[who].generation, who)
    }

    function GetState(handle: uint64): (s: nat)
      requires Valid() && Who(handle) < N
      reads this, sparse, dense, cursor
      ensures s == Contents().state[Who(handle)]
    {
      sparse[Who(handle)].state
    }

    lemma ValidAsSeqs()
      requires Valid()
      ensures AreInverse(dense[..], sparse[..]) && InRegions(sparse[..], cursor[..], stateCount)
    {
    }

    lemma ValidFromSeqs()
      requires sparse.Length == dense.Length == N && dense != cursor && Ordered()
      requires AreInverse(dense[..], sparse[..]) && InRegions(sparse[..], cursor[..], stateCount)
      ensures Valid()
    {
    }

    /** The three assignments: two entries change places and their inverse entries follow. */
    method Exchange(a: uint32, b: uint32)
      requires Inverse() && a < N && b < N
      modifies sparse, dense
      ensures IsSwap(old(dense[..]), old(sparse[..]), dense[..], sparse[..], a, b)
      ensures dense[b] == old(dense[a])
    {
      dense[a], dense[b] := dense[b], dense[a];
      sparse[dense[a]] := sparse[dense[a]].(where := a);
      sparse[dense[b]] := sparse[dense[b]].(where := b);
    }

    /** Exchanges two entries of one region and repairs the two inverse entries. */
    method SwapDense(a: uint32, b: uint32)
      requires Valid() && a < N && b < N && sparse[dense[a]].state == sparse[dense[b]].state
      modifies sparse, dense
      ensures Valid() && Contents() == old(Contents())
      ensures dense[b] == old(dense[a])
    {
      hide AreInverse, InRegions;
      ghost var d, s := dense[..], sparse[..];
      ValidAsSeqs();
      Exchange(a, b);
      SwappedInverse(d, s, dense[..], sparse[..], a, b);
      SwappedRegions(d, s, dense[..], sparse[..], a, b, cursor[..], stateCount);
      hide IsSwap;
      ValidFromSeqs();
      SwappedContents(d, s, a, b);
    }

    lemma SwappedContents(d: seq<uint32>, s: seq<Slot>, a: nat, b: nat)
      requires |d| == dense.Length && |s| == sparse.Length && a < |d| && b < |d|
      requires IsSwap(d, s, dense[..], sparse[..], a, b)
      ensures forall w :: 0 <= w < |s| ==>
                Contents().state[w] == s[w].state && Contents().generation[w] == s[w].generation
    {
    }

    /** Gives the last slot of a region to the next region by lowering the boundary between them. */
    method LowerBoundary(who: uint32, nextState: nat)
      requires Valid() && who < N && 0 < nextState < stateCount
      requires sparse[who].state == nextState - 1 && sparse[who].where == cursor[nextState] - 1
      modifies sparse, cursor
      ensures Valid() && Contents() == old(Contents()).Moved(who, nextState)
    {
      cursor[nextState] := cursor[nextState] - 1;
      sparse[who] := sparse[who].(state := nextState);
    }

    /** Gives the first slot of a region to the previous region by raising the boundary between them. */
    method RaiseBoundary(who: uint32, currentState: nat)
      requires Valid() && who < N && 0 < currentState < stateCount
      requires sparse[who].state == currentState && sparse[who].where == cursor[currentState]
      modifies sparse, cursor
      ensures Valid() && Contents() == old(Contents()).Moved(who, currentState - 1)
    {
      CursorsOrdered(currentState + 1);
      cursor[currentState] := cursor[currentState] + 1;
      sparse[who] := sparse[who].(state := currentState - 1);
    }

    /** One boundary swap upwards. The generation half of the handle is not looked at. */
    method IncrementState(handle: uint64)
      requires Valid() && Who(handle) < N
      modifies sparse, dense, cursor
      ensures Valid()
      ensures var from := old(Contents().state[Who(handle)]);
              Contents() == if from < stateCount - 1 then old(Contents()).Moved(Who(handle), from + 1)
                            else old(Contents())
    {
      var who := Who(handle);
      var currentState := sparse[who].state;
      if currentState >= stateCount - 1 {
        return;
      }
      var nextState := currentState + 1;
      var where := sparse[who].where;
      CursorsOrdered(nextState);
      var swapWith: uint32 := cursor[nextState] - 1;
      RegionsAreStates(swapWith, currentState);
      SwapDense(where, swapWith);
      LowerBoundary(who, nextState);
    }

    /** One boundary swap downwards. */
    method DecrementState(handle: uint64)
      requires Valid() && Who(handle) < N
      modifies sparse, dense, cursor
      ensures Valid()
      ensures var from := old(Contents().state[Who(handle)]);
              Contents() == if from > 0 then old(Contents()).Moved(Who(handle), from - 1) else old(Contents())
    {
      var who := Who(handle);
      var currentState := sparse[who].state;
      if currentState == 0 {
        return;
      }
      var where := sparse[who].where;
      CursorsOrdered(currentState);
      var swapWith := cursor[currentState];
      RegionsAreStates(swapWith, currentState);
      SwapDense(where, swapWith);
      RaiseBoundary(who, currentState);
    }

    method MoveToState(handle: uint64, newState: nat)
      requires Valid() && Who(handle) < N
      modifies sparse, dense, cursor
      ensures Valid()
      ensures Contents() == if newState < stateCount then old(Contents()).Moved(Who(handle), newState)
                            else old(Contents())
    {
      if newState >= stateCount {
        return;
      }
      var who := Who(handle);
      while sparse[who].state < newState
        invariant Valid()
        invariant Contents() == old(Contents()).Moved(who, sparse[who].state)
        decreases newState - sparse[who].state
      {
        IncrementState(handle);
      }
      while sparse[who].state > newState
        invariant Valid()
        invariant Contents() == old(Contents()).Moved(who, sparse[who].state)
        invariant newState <= sparse[who].state
        decreases sparse[who].state
      {
        DecrementState(handle);
      }
    }

    /** Fails exactly on an illegal state or an empty free region; otherwise moves some free slot and names it. */
    method Pop(state: nat) returns (handle: uint64)
      requires Valid()
      modifies sparse, dense, cursor
      ensures Valid()
      ensures handle == INVALID_HANDLE <==> state >= stateCount || old(Contents().SlotsIn(0)) == {}
      ensures handle == INVALID_HANDLE ==> Contents() == old(Contents())
      ensures handle != INVALID_HANDLE ==>
                && Who(handle) < N && old(Contents()).state[Who(handle)] == 0
                && handle == old(Contents()).HandleOf(Who(handle))
                && Contents() == old(Contents()).Moved(Who(handle), state)
    {
      RegionWidth(0);
      if state >= stateCount {
        return INVALID_HANDLE;
      }
      if cursor[0] == cursor[1] {
        return INVALID_HANDLE;
      }
      CursorsOrdered(1);
      RegionsAreStates(0, 0);
      handle := GetHandle(dense[cursor[0]]);
      assert dense[0] in Contents().SlotsIn(0);
      MoveToState(handle, state);
    }

    method Push(handle: uint64)
      requires Valid() && Who(handle) < N
      modifies sparse, dense, cursor
      ensures Valid()
      ensures Contents() == old(Contents()).Pushed(Who(handle))
    {
      var who := Who(handle);
      MoveToState(handle, 0);
      sparse[who] := sparse[who].(generation := NextGeneration(sparse[who].generation));
    }

    /** Lists every slot of the state exactly once, under its current handle; an illegal state lists nothing. */
    method GetIndicesInState(state: nat) returns (result: seq<uint64>)
      requires Valid()
      ensures state >= stateCount ==> result == []
      ensures state < stateCount ==> |result| == |Contents().SlotsIn(state)|
      ensures forall h :: h in result ==> Contents().IsValid(h) && Contents().state[Who(h)] == state
      ensures state < stateCount ==>
                forall w :: w in Contents().SlotsIn(state) ==> Contents().HandleOf(w) in result
      ensures forall a, b :: 0 <= a < b < |result| ==> Who(result[a]) != Who(result[b])
    {
      result := [];
      if state >= stateCount {
        return;
      }
      RegionWidth(state);
      CursorsOrdered(state);
      CursorsOrdered(state + 1);
      var i := cursor[state];
      while i < cursor[state + 1]
        invariant cursor[state] <= i <= cursor[state + 1]
        invariant |result| == i - cursor[state]
        invariant forall k :: 0 <= k < |result| ==> result[k] == GetHandle(dense[cursor[state] + k])
      {
        result := result + [GetHandle(dense[i])];
        i := i + 1;
      }
      ListingIsExact(result, state);
    }

    /** The handles of a whole region, in order. */
    lemma ListingIsExact(listing: seq<uint64>, state: nat)
      requires Valid() && state < stateCount && cursor[state] <= cursor[state + 1] <= N
      requires |listing| == cursor[state + 1] - cursor[state]
      requires forall k :: 0 <= k < |listing| ==> listing[k] == GetHandle(dense[cursor[state] + k])
      ensures forall h :: h in listing ==> Contents().IsValid(h) && Contents().state[Who(h)] == state
      ensures forall w :: w in Contents().SlotsIn(state) ==> Contents().HandleOf(w) in listing
      ensures forall a, b :: 0 <= a < b < |listing| ==> Who(listing[a]) != Who(listing[b])
    {
      forall k | 0 <= k < |listing|
        ensures Contents().IsValid(listing[k]) && Contents().state[Who(listing[k])] == state
        ensures sparse[Who(listing[k])].where == cursor[state] + k
      {
        RegionsAreStates(cursor[state] + k, state);
      }
      forall w | w in Contents().SlotsIn(state)
        ensures Contents().HandleOf(w) in listing
      {
        var k := sparse[w].where - cursor[state];
        assert listing[k] == Contents().HandleOf(w);
      }
    }
  }

  // ---- Whole runs of the set ----

  datatype SetOp = Move(who: uint32, newState: nat) | Push(who: uint32)

  ghost predicate RunLegal(ops: seq<SetOp>, n: nat) {
    forall k :: 0 <= k < |ops| ==> ops[k].who < n
  }

  function Run(v: View, ops: seq<SetOp>): (r: View)
    requires |v.state| == |v.generation| && RunLegal(ops, |v.state|)
    ensures |r.state| == |r.generation| == |v.state|
    decreases |ops|
  {
    if ops == [] then v else
      var op := ops[0];
      Run(if op.Push? then v.Pushed(op.who) else v.Moved(op.who, op.newState), ops[1..])
  }

  function PushesOf(ops: seq<SetOp>, who: uint32): nat {
    if ops == [] then 0 else (if ops[0] == SetOp.Push(who) then 1 else 0) + PushesOf(ops[1..], who)
  }

  lemma {:induction false} GenerationAfterRun(v: View, ops: seq<SetOp>, who: uint32)
    requires |v.state| == |v.generation| && RunLegal(ops, |v.state|) && who < |v.state|
    ensures Run(v, ops).generation[who] == Later(v.generation[who], PushesOf(ops, who))
    decreases |ops|
  {
    hide Later, NextGeneration;
    if ops == [] {
      LaterNow(v.generation[who]);
    } else {
      var op := ops[0];
      LaterNext(v.generation[who], PushesOf(ops[1..], who));
      GenerationAfterRun(if op.Push? then v.Pushed(op.who) else v.Moved(op.who, op.newState), ops[1..], who);
    }
  }

  /** A slot that starts at generation 0 has the number of its pushes modulo 2^32 after any run. */
  lemma GenerationFromZero(v: View, ops: seq<SetOp>, who: uint32)
    requires |v.state| == |v.generation| && RunLegal(ops, |v.state|) && who < |v.state| && v.generation[who] == 0
    ensures Run(v, ops).generation[who] == PushesOf(ops, who) % 0x1_0000_0000
  {
    GenerationAfterRun(v, ops, who);
  }

  lemma ValidIffCurrent(v: View, g: uint32, who: uint32)
    requires who < |v.generation|
    ensures v.IsValid(MakeHandle(g, who)) <==> v.generation[who] == g
  {
  }

  /** A handle taken now is valid after any run exactly when the run returned its slot a multiple of 2^32 times. */
  lemma StaleHandleBound(v: View, ops: seq<SetOp>, who: uint32)
    requires |v.state| == |v.generation| && RunLegal(ops, |v.state|) && who < |v.state|
    ensures Run(v, ops).IsValid(v.HandleOf(who)) <==> PushesOf(ops, who) % TWO_32 == 0
  {
    GenerationReturns(v, ops, who);
    ValidIffCurrent(Run(v, ops), v.generation[who], who);
  }

  /** Adding p to a 32-bit value and wrapping gives the value back exactly when 2^32 divides p. */
  lemma WrapReturns(g: uint32, p: nat)
    ensures Later(g, p) == g <==> p % TWO_32 == 0
  {
  }

  lemma GenerationReturns(v: View, ops: seq<SetOp>, who: uint32)
    requires |v.state| == |v.generation| && RunLegal(ops, |v.state|) && who < |v.state|
    ensures Run(v, ops).generation[who] == v.generation[who] <==> PushesOf(ops, who) % TWO_32 == 0
  {
    GenerationAfterRun(v, ops, who);
    WrapReturns(v.generation[who], PushesOf(ops, who));
  }

  /** The invalid handle is never valid, whatever was done to the set. */
  lemma InvalidNeverValid(v: View, n: uint32)
    requires |v.generation| == n
    ensures !v.IsValid(INVALID_HANDLE)
  {
  }
}
