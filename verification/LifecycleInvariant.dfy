/** Every step of the session pool's machine keeps its invariant. Each part of the invariant is carried over by a
    lemma that sees only the fields it depends on. */
module LifecycleInvariant {
  import opened Handles
  import opened SparseSets
  import opened Lifecycle

  // ---- Counting ----

  ghost predicate SameExceptAt(a: map<CellId, Ptr>, b: map<CellId, Ptr>, c: CellId) {
    && (forall d :: d != c ==> (d in a <==> d in b))
    && (forall d :: d != c && d in a && d in b ==> a[d] == b[d])
  }

  /** A cell that starts to count adds one to its slot and nothing to any other. */
  lemma CellGained(a: map<CellId, Ptr>, b: map<CellId, Ptr>, c: CellId, i: nat)
    requires SameExceptAt(a, b, c) && !Counts(a, c) && Counts(b, c)
    ensures |CountedAt(b, i)| == |CountedAt(a, i)| + if b[c].h.who == i then 1 else 0
  {
    forall d
      ensures d in CountedAt(b, i) <==> d in CountedAt(a, i) || (d == c && b[c].h.who == i)
    {
      if d != c && d in a {
        assert b[d] == a[d];
      }
    }
    if b[c].h.who == i {
      assert CountedAt(b, i) == CountedAt(a, i) + {c};
    } else {
      assert CountedAt(b, i) == CountedAt(a, i);
    }
  }

  lemma ConservedGain(count: seq<int>, a: map<CellId, Ptr>, b: map<CellId, Ptr>, c: CellId)
    requires Conserved(count, a) && SameExceptAt(a, b, c) && !Counts(a, c) && Counts(b, c) && b[c].h.who < |count|
    ensures Conserved(count[b[c].h.who := count[b[c].h.who] + 1], b)
  {
    forall i | 0 <= i < |count|
      ensures |CountedAt(b, i)| == |CountedAt(a, i)| + if b[c].h.who == i then 1 else 0
    {
      CellGained(a, b, c, i);
    }
  }

  lemma ConservedLoss(count: seq<int>, a: map<CellId, Ptr>, b: map<CellId, Ptr>, c: CellId)
    requires Conserved(count, a) && SameExceptAt(b, a, c) && Counts(a, c) && !Counts(b, c) && a[c].h.who < |count|
    ensures Conserved(count[a[c].h.who := count[a[c].h.who] - 1], b)
  {
    forall i | 0 <= i < |count|
      ensures |CountedAt(a, i)| == |CountedAt(b, i)| + if a[c].h.who == i then 1 else 0
    {
      CellGained(b, a, c, i);
    }
  }

  lemma ConservedNeutral(count: seq<int>, a: map<CellId, Ptr>, b: map<CellId, Ptr>, c: CellId)
    requires Conserved(count, a) && SameExceptAt(a, b, c) && !Counts(a, c) && !Counts(b, c)
    ensures Conserved(count, b)
  {
    forall i | 0 <= i < |count|
      ensures CountedAt(a, i) == CountedAt(b, i)
    {
    }
  }

  lemma CountedPositive(count: seq<int>, cells: map<CellId, Ptr>, c: CellId)
    requires Conserved(count, cells) && Counts(cells, c) && cells[c].h.who < |count|
    ensures 1 <= count[cells[c].h.who]
  {
    assert c in CountedAt(cells, cells[c].h.who);
  }

  lemma SubsetSize<T>(a: set<T>, b: set<T>)
    requires a <= b
    ensures |a| <= |b|
  {
    assert b == a + (b - a);
  }

  lemma TwoCellsTwoCounts(count: seq<int>, cells: map<CellId, Ptr>, c: CellId, d: CellId)
    requires Conserved(count, cells) && c != d && Counts(cells, c) && Counts(cells, d)
    requires cells[c].h.who == cells[d].h.who < |count|
    ensures 2 <= count[cells[c].h.who]
  {
    SubsetSize({c, d}, CountedAt(cells, cells[c].h.who));
  }

  // ---- Facts about states that satisfy the invariant ----

  /** Whatever a cell shows, counted or half-way through its reset, is a live session under its current handle. */
  lemma PointerIsLive(s: Sys, c: CellId)
    requires Inv(s) && c in s.cells
    ensures s.cells[c].h.who < N(s) && 1 <= s.count[s.cells[c].h.who]
    ensures s.cells[c].h.who !in s.claimed && s.cells[c].h.who !in s.dying
    ensures s.pool.state[s.cells[c].h.who] != IDLE && s.cells[c].h.generation == s.pool.generation[s.cells[c].h.who]
  {
    assert s.cells[c].h.who < N(s);
    if s.cells[c].Counted? {
      CountedPositive(s.count, s.cells, c);
    } else {
      CountedPositive(s.count, s.cells, Local(s.cells[c].owner, s.cells[c].via));
    }
  }

  /** A free slot is named by no pointer, so nobody counts towards it and the kernel owns none of its records. */
  lemma FreeIsUnnamed(s: Sys, i: nat)
    requires Inv(s) && i < N(s) && s.pool.state[i] == IDLE
    ensures s.count[i] == 0
    ensures Recv(i) !in s.cells && Send(i) !in s.cells && Disc(i) !in s.cells && Table(i) !in s.cells
    ensures forall c :: c in s.cells ==> s.cells[c].h.who != i
    ensures i !in s.claimed && i !in s.dying && i !in s.duty
    ensures Recv(i) !in s.inflight && Send(i) !in s.inflight && Disc(i) !in s.inflight
  {
  }

  /** A slot whose last reference is gone is shown by no cell at all. */
  lemma DyingIsUnnamed(s: Sys, i: nat)
    requires Inv(s) && i in s.dying
    ensures i < N(s) && s.pool.state[i] != IDLE && s.count[i] == 0
    ensures forall c :: c in s.cells ==> s.cells[c].h.who != i
  {
    forall c | c in s.cells
      ensures s.cells[c].h.who != i
    {
      PointerIsLive(s, c);
    }
  }

  lemma ClaimFacts(s: Sys, i: nat)
    requires Inv(s) && i in s.claimed
    ensures i < N(s) && s.pool.state[i] != IDLE && s.claimed[i].generation == s.pool.generation[i]
    ensures s.count[i] == 0 && i !in s.dying && i in s.unlisted && s.unlisted[i] == s.claimed[i].tid
  {
  }

  /** What the kernel completes names its own, live, listed session. */
  lemma InFlightFacts(s: Sys, c: CellId)
    requires Inv(s) && c in s.inflight
    ensures c.IsRecord() && Counts(s.cells, c) && s.cells[c].h.who == c.slot < N(s) && s.pool.state[c.slot] != IDLE
    ensures c !in s.turn && c.slot !in s.unlisted
  {
  }

  lemma SharedNamesOwn(s: Sys, c: CellId)
    requires Inv(s) && c in s.cells && !c.Local?
    ensures s.cells[c].h.who == c.slot < N(s) && c.slot !in s.unlisted
  {
  }

  /** Resetting the table entry or a record never drops the last reference: the thread doing it holds another. */
  lemma SharedIsNeverLast(s: Sys, t: Tid, c: CellId, k: nat)
    requires Inv(s) && Enabled(s, SubShared(t, c, k))
    ensures s.cells[c].h.who == c.slot < N(s) && 2 <= s.count[c.slot]
    ensures DoSubShared(s, t, c, k).dying == s.dying
  {
    hide Naming, Covered, Keyed, Conserved, Phases, InFlight, Turns, Unlisted, Pendings, Disconnects, Attempted,
         Listed, Accepts, Sends, Linked, Orphaned;
    SharedNamesOwn(s, c);
    TwoCellsTwoCounts(s.count, s.cells, c, Local(t, k));
  }

  // ---- Steps on cells ----

  /** A change to one local concerns no shared cell. */
  lemma LocalChange(s: Sys, b: map<CellId, Ptr>, t: Tid, k: nat)
    requires Inv(s) && SameExceptAt(s.cells, b, Local(t, k)) && (Local(t, k) in b ==> b[Local(t, k)].Counted?)
    ensures InFlight(s.inflight, b) && Sends(s.isSending, b) && Keyed(b, s.turn)
    ensures Listed(s.pool.state, s.attempts, b, s.unlisted)
    ensures Attempted(s.pool.state, s.attempts, s.turn, s.inflight, b)
    ensures Linked(s.pool.state, s.online, s.unlisted, s.inflight, b)
    ensures Orphaned(s.orphans, s.online, s.isSending, s.turn, s.inflight, b)
  {
    hide Naming, Covered, Keyed, Conserved, Phases, InFlight, Turns, Unlisted, Pendings, Disconnects, Attempted,
         Listed, Accepts, Sends, Linked, Orphaned;
    hide SameExceptAt;
    LocalRecords(s, b, t, k);
    LocalLinked(s, b, t, k);
  }

  lemma LocalRecords(s: Sys, b: map<CellId, Ptr>, t: Tid, k: nat)
    requires Shape(s) && SameExceptAt(s.cells, b, Local(t, k)) && (Local(t, k) in b ==> b[Local(t, k)].Counted?)
    ensures InFlight(s.inflight, s.cells) ==> InFlight(s.inflight, b)
    ensures Sends(s.isSending, s.cells) ==> Sends(s.isSending, b)
    ensures Listed(s.pool.state, s.attempts, s.cells, s.unlisted) ==> Listed(s.pool.state, s.attempts, b, s.unlisted)
    ensures Keyed(s.cells, s.turn) ==> Keyed(b, s.turn)
    ensures Attempted(s.pool.state, s.attempts, s.turn, s.inflight, s.cells) ==>
              Attempted(s.pool.state, s.attempts, s.turn, s.inflight, b)
  {
  }

  lemma LocalLinked(s: Sys, b: map<CellId, Ptr>, t: Tid, k: nat)
    requires Shape(s) && SameExceptAt(s.cells, b, Local(t, k))
    ensures Linked(s.pool.state, s.online, s.unlisted, s.inflight, s.cells) ==>
              Linked(s.pool.state, s.online, s.unlisted, s.inflight, b)
    ensures Orphaned(s.orphans, s.online, s.isSending, s.turn, s.inflight, s.cells) ==>
              Orphaned(s.orphans, s.online, s.isSending, s.turn, s.inflight, b)
  {
  }

  lemma LocalAdded(pool: View, cells: map<CellId, Ptr>, t: Tid, k: nat, h: Ref)
    requires |pool.state| == |pool.generation| && Naming(pool, cells) && Covered(cells) && Local(t, k) !in cells
    requires h.who < |pool.state| && pool.state[h.who] != IDLE && h.generation == pool.generation[h.who]
    ensures Naming(pool, cells[Local(t, k) := Counted(h)]) && Covered(cells[Local(t, k) := Counted(h)])
  {
  }

  lemma LocalRemoved(pool: View, cells: map<CellId, Ptr>, t: Tid, k: nat)
    requires |pool.state| == |pool.generation| && Naming(pool, cells) && Covered(cells) && NoFade(cells, t)
    ensures Naming(pool, cells - {Local(t, k)}) && Covered(cells - {Local(t, k)})
  {
  }

  lemma PhasesIncrement(s: Sys, i: nat, claimed: map<nat, Claim>)
    requires Shape(s) && Phases(s.pool, s.count, s.unlisted, s.claimed, s.dying) && i < N(s) && 0 <= s.count[i]
    requires i !in claimed && i !in s.dying && claimed == s.claimed - {i}
    ensures Phases(s.pool, s.count[i := s.count[i] + 1], s.unlisted, claimed, s.dying)
  {
  }

  lemma PhasesDecrement(s: Sys, i: nat, t: Tid)
    requires Shape(s) && Phases(s.pool, s.count, s.unlisted, s.claimed, s.dying) && i < N(s) && 1 <= s.count[i]
    requires s.pool.state[i] != IDLE
    ensures Phases(s.pool, Decrement(s, i, t).count, s.unlisted, s.claimed, Decrement(s, i, t).dying)
  {
  }

  /** A creator's session stays its creator's when the creator copies or drops its own locals. */
  lemma UnlistedLocal(s: Sys, b: map<CellId, Ptr>, dying: map<nat, Tid>, t: Tid, k: nat, i: nat)
    requires Unlisted(s.unlisted, s.cells, s.dying) && SameExceptAt(s.cells, b, Local(t, k))
    requires Local(t, k) in b ==> b[Local(t, k)].h.who == i
    requires i in s.unlisted ==> s.unlisted[i] == t
    requires forall j :: j in dying ==> (j in s.dying && dying[j] == s.dying[j]) || (j == i && dying[j] == t)
    ensures Unlisted(s.unlisted, b, dying)
  {
  }

  /** Whoever can copy a pointer to an unlisted session is its creator. */
  lemma CopierIsCreator(s: Sys, src: CellId, t: Tid)
    requires Unlisted(s.unlisted, s.cells, s.dying) && src in s.cells && (src.Local? ==> src.tid == t)
    ensures s.cells[src].h.who in s.unlisted ==> s.unlisted[s.cells[src].h.who] == t
  {
  }

  lemma FirstRefKeeps(s: Sys, t: Tid, i: nat, k: nat)
    requires Inv(s) && Enabled(s, FirstRef(t, i, k))
    ensures i < N(s) && Inv(DoFirstRef(s, t, i, k))
  {
    hide Naming, Covered, Keyed, Conserved, Phases, InFlight, Turns, Unlisted, Pendings, Disconnects, Attempted,
         Listed, Accepts, Sends, Linked, Orphaned;
    ClaimFacts(s, i);
    var h := Ref(i, s.claimed[i].generation);
    var b := s.cells[Local(t, k) := Counted(h)];
    LocalAdded(s.pool, s.cells, t, k, h);
    LocalChange(s, b, t, k);
    UnlistedLocal(s, b, s.dying, t, k, i);
    ConservedGain(s.count, s.cells, b, Local(t, k));
    PhasesIncrement(s, i, s.claimed - {i});
  }

  lemma CopyPtrKeeps(s: Sys, t: Tid, src: CellId, k: nat)
    requires Inv(s) && Enabled(s, CopyPtr(t, src, k))
    ensures s.cells[src].h.who < N(s) && Inv(DoCopyPtr(s, t, src, k))
  {
    hide Naming, Covered, Keyed, Conserved, Phases, InFlight, Turns, Unlisted, Pendings, Disconnects, Attempted,
         Listed, Accepts, Sends, Linked, Orphaned;
    var h := s.cells[src].h;
    var b := s.cells[Local(t, k) := Counted(h)];
    PointerIsLive(s, src);
    LocalAdded(s.pool, s.cells, t, k, h);
    LocalChange(s, b, t, k);
    CopierIsCreator(s, src, t);
    UnlistedLocal(s, b, s.dying, t, k, h.who);
    ConservedGain(s.count, s.cells, b, Local(t, k));
    PhasesIncrement(s, h.who, s.claimed);
  }

  lemma DropLocalKeeps(s: Sys, t: Tid, k: nat)
    requires Inv(s) && Enabled(s, DropLocal(t, k))
    ensures s.SlotOf(t, k) < N(s) && Inv(DoDropLocal(s, t, k))
  {
    hide Naming, Covered, Keyed, Conserved, Phases, InFlight, Turns, Unlisted, Pendings, Disconnects, Attempted,
         Listed, Accepts, Sends, Linked, Orphaned;
    var b := s.cells - {Local(t, k)};
    PointerIsLive(s, Local(t, k));
    LocalRemoved(s.pool, s.cells, t, k);
    LocalChange(s, b, t, k);
    CopierIsCreator(s, Local(t, k), t);
    UnlistedLocal(s, b, Decrement(s, s.SlotOf(t, k), t).dying, t, k, s.SlotOf(t, k));
    ConservedLoss(s.count, s.cells, b, Local(t, k));
    PhasesDecrement(s, s.SlotOf(t, k), t);
  }

  lemma StoredCells(pool: View, cells: map<CellId, Ptr>, c: CellId, h: Ref)
    requires |pool.state| == |pool.generation| && Naming(pool, cells) && Covered(cells) && c !in cells
    requires !c.Local? && c.slot == h.who < |pool.state|
    requires pool.state[h.who] != IDLE && h.generation == pool.generation[h.who]
    ensures Naming(pool, cells[c := Counted(h)]) && Covered(cells[c := Counted(h)])
  {
  }

  lemma StoredInFlight(inflight: map<CellId, Op>, turn: map<CellId, Tid>, cells: map<CellId, Ptr>, c: CellId, p: Ptr)
    requires InFlight(inflight, cells) && Keyed(cells, turn) && p.Counted?
    ensures InFlight(inflight, cells[c := p]) && Keyed(cells[c := p], turn)
  {
  }

  /** Moving a local into an empty shared cell of the same session keeps everything about the cells. */
  lemma StoreKeeps(s: Sys, t: Tid, k: nat, c: CellId)
    requires Inv(s) && s.Holds(t, k) && NoFade(s.cells, t)
    requires c !in s.cells && !c.Local? && c.slot == s.SlotOf(t, k)
    ensures var b := MovedInto(s, t, k, c);
            Naming(s.pool, b) && Covered(b) && Keyed(b, s.turn) && Conserved(s.count, b) && InFlight(s.inflight, b)
  {
    hide Naming, Covered, Keyed, Conserved, Phases, InFlight, Turns, Unlisted, Pendings, Disconnects, Attempted,
         Listed, Accepts, Sends, Linked, Orphaned;
    var mid, p := s.cells - {Local(t, k)}, s.cells[Local(t, k)];
    var b := MovedInto(s, t, k, c);
    PointerIsLive(s, Local(t, k));
    LocalRemoved(s.pool, s.cells, t, k);
    StoredCells(s.pool, mid, c, p.h);
    LocalChange(s, mid, t, k);
    StoredInFlight(s.inflight, s.turn, mid, c, p);
    ConservedLoss(s.count, s.cells, mid, Local(t, k));
    var less := s.count[p.h.who := s.count[p.h.who] - 1];
    ConservedGain(less, mid, b, c);
    assert less[p.h.who := less[p.h.who] + 1] == s.count;
  }

  /** The entry of a session that is not listed yet is empty, so moving a pointer into it releases nothing. */
  lemma UnlistedEntryIsEmpty(s: Sys, i: nat)
    requires Inv(s) && i in s.unlisted
    ensures Table(i) !in s.cells && Recv(i) !in s.cells && Send(i) !in s.cells && Disc(i) !in s.cells
  {
  }

  lemma StoreTableListed(s: Sys, t: Tid, k: nat)
    requires Shape(s) && Unlisted(s.unlisted, s.cells, s.dying) && Listed(s.pool.state, s.attempts, s.cells, s.unlisted)
    requires Pendings(s.pool.state, s.online, s.turn, s.inflight, s.unlisted) && s.Holds(t, k)
    requires Attempted(s.pool.state, s.attempts, s.turn, s.inflight, s.cells)
    ensures var n := DoStoreTable(s, t, k);
            && Unlisted(n.unlisted, n.cells, n.dying) && Listed(n.pool.state, n.attempts, n.cells, n.unlisted)
            && Pendings(n.pool.state, n.online, n.turn, n.inflight, n.unlisted)
            && Attempted(n.pool.state, n.attempts, n.turn, n.inflight, n.cells)
    ensures Sends(s.isSending, s.cells) ==> Sends(s.isSending, DoStoreTable(s, t, k).cells)
  {
  }

  lemma StoreTableLinked(s: Sys, t: Tid, k: nat)
    requires Shape(s) && s.Holds(t, k) && s.SlotOf(t, k) in s.unlisted
    requires Linked(s.pool.state, s.online, s.unlisted, s.inflight, s.cells)
    requires Orphaned(s.orphans, s.online, s.isSending, s.turn, s.inflight, s.cells)
    ensures var n := DoStoreTable(s, t, k);
            && Linked(n.pool.state, n.online, n.unlisted, n.inflight, n.cells)
            && Orphaned(n.orphans, n.online, n.isSending, n.turn, n.inflight, n.cells)
  {
  }

  lemma PhasesListed(s: Sys, i: nat)
    requires Shape(s) && Phases(s.pool, s.count, s.unlisted, s.claimed, s.dying) && i !in s.claimed
    ensures Phases(s.pool, s.count, s.unlisted - {i}, s.claimed, s.dying)
  {
  }

  lemma StoreTableKeeps(s: Sys, t: Tid, k: nat)
    requires Inv(s) && Enabled(s, StoreTable(t, k))
    ensures Inv(DoStoreTable(s, t, k)) && Table(s.SlotOf(t, k)) !in s.cells
  {
    hide Naming, Covered, Keyed, Conserved, Phases, InFlight, Turns, Unlisted, Pendings, Disconnects, Attempted,
         Listed, Accepts, Sends, Linked, Orphaned;
    UnlistedEntryIsEmpty(s, s.SlotOf(t, k));
    PointerIsLive(s, Local(t, k));
    PhasesListed(s, s.SlotOf(t, k));
    StoreTableListed(s, t, k);
    StoreTableLinked(s, t, k);
    StoreKeeps(s, t, k, Table(s.SlotOf(t, k)));
  }

  lemma StoreRecordListed(s: Sys, t: Tid, k: nat, c: CellId)
    requires Shape(s) && Unlisted(s.unlisted, s.cells, s.dying) && Listed(s.pool.state, s.attempts, s.cells, s.unlisted)
    requires Attempted(s.pool.state, s.attempts, s.turn, s.inflight, s.cells)
    requires s.Holds(t, k) && c.IsRecord() && c.slot == s.SlotOf(t, k) && c.slot !in s.unlisted && c in s.turn
    requires Turns(s.turn, s.inflight, s.isSending) && Sends(s.isSending, s.cells)
    ensures var n := DoStoreRecord(s, t, k, c);
            && Unlisted(n.unlisted, n.cells, n.dying) && Listed(n.pool.state, n.attempts, n.cells, n.unlisted)
            && Attempted(n.pool.state, n.attempts, n.turn, n.inflight, n.cells) && Sends(n.isSending, n.cells)
  {
  }

  lemma StoreRecordLinked(s: Sys, t: Tid, k: nat, c: CellId)
    requires Shape(s) && s.Holds(t, k) && c.IsRecord() && c in s.turn
    requires Linked(s.pool.state, s.online, s.unlisted, s.inflight, s.cells)
    requires Orphaned(s.orphans, s.online, s.isSending, s.turn, s.inflight, s.cells)
    ensures var n := DoStoreRecord(s, t, k, c);
            && Linked(n.pool.state, n.online, n.unlisted, n.inflight, n.cells)
            && Orphaned(n.orphans, n.online, n.isSending, n.turn, n.inflight, n.cells)
  {
  }

  lemma StoreRecordKeeps(s: Sys, t: Tid, k: nat, c: CellId)
    requires Inv(s) && Enabled(s, StoreRecord(t, k, c))
    ensures Inv(DoStoreRecord(s, t, k, c))
  {
    hide Naming, Covered, Keyed, Conserved, Phases, InFlight, Turns, Unlisted, Pendings, Disconnects, Attempted,
         Listed, Accepts, Sends, Linked, Orphaned;
    StoreRecordListed(s, t, k, c);
    StoreRecordLinked(s, t, k, c);
    StoreKeeps(s, t, k, c);
  }

  lemma FadeKeeps(pool: View, cells: map<CellId, Ptr>, turn: map<CellId, Tid>, c: CellId, t: Tid, k: nat)
    requires |pool.state| == |pool.generation| && Naming(pool, cells) && Covered(cells) && Keyed(cells, turn)
    requires Counts(cells, c) && !c.Local? && c.Key() in turn && turn[c.Key()] == t
    requires Counts(cells, Local(t, k)) && cells[Local(t, k)].h.who == cells[c].h.who
    ensures var b := cells[c := Fading(cells[c].h, t, k)]; Naming(pool, b) && Covered(b) && Keyed(b, turn)
  {
  }

  /** Only the table entry of a disconnecting session, or a record the thread has in its hands, may fade. */
  lemma FadeShared(s: Sys, t: Tid, c: CellId, k: nat)
    requires Shape(s) && InFlight(s.inflight, s.cells) && Turns(s.turn, s.inflight, s.isSending)
    requires Unlisted(s.unlisted, s.cells, s.dying) && Listed(s.pool.state, s.attempts, s.cells, s.unlisted)
    requires Disconnects(s.pool.state, s.attempts, s.duty)
    requires Attempted(s.pool.state, s.attempts, s.turn, s.inflight, s.cells)
    requires Enabled(s, SubShared(t, c, k)) && c.slot < N(s) && s.pool.state[c.slot] != IDLE
    ensures var b := s.cells[c := Fading(s.cells[c].h, t, k)];
            && InFlight(s.inflight, b) && Unlisted(s.unlisted, b, s.dying)
            && Listed(s.pool.state, s.attempts, b, s.unlisted)
            && Attempted(s.pool.state, s.attempts, s.turn, s.inflight, b)
    ensures Sends(s.isSending, s.cells) ==> Sends(s.isSending, s.cells[c := Fading(s.cells[c].h, t, k)])
  {
  }

  /** What a connected socket is named by does not fade: its disconnect record not at all, its table entry only while
      that record names it too. */
  lemma FadeLinked(s: Sys, t: Tid, c: CellId, k: nat)
    requires Shape(s) && Turns(s.turn, s.inflight, s.isSending) && Enabled(s, SubShared(t, c, k))
    requires Linked(s.pool.state, s.online, s.unlisted, s.inflight, s.cells)
    requires Orphaned(s.orphans, s.online, s.isSending, s.turn, s.inflight, s.cells)
    ensures var b := s.cells[c := Fading(s.cells[c].h, t, k)];
            && Linked(s.pool.state, s.online, s.unlisted, s.inflight, b)
            && Orphaned(s.orphans, s.online, s.isSending, s.turn, s.inflight, b)
  {
  }

  lemma SubSharedKeeps(s: Sys, t: Tid, c: CellId, k: nat)
    requires Inv(s) && Enabled(s, SubShared(t, c, k))
    ensures s.cells[c].h.who < N(s) && Inv(DoSubShared(s, t, c, k))
  {
    hide Naming, Covered, Keyed, Conserved, Phases, InFlight, Turns, Unlisted, Pendings, Disconnects, Attempted,
         Listed, Accepts, Sends, Linked, Orphaned;
    SharedIsNeverLast(s, t, c, k);
    PointerIsLive(s, c);
    var b := s.cells[c := Fading(s.cells[c].h, t, k)];
    FadeKeeps(s.pool, s.cells, s.turn, c, t, k);
    ConservedLoss(s.count, s.cells, b, c);
    PhasesDecrement(s, c.slot, t);
    FadeShared(s, t, c, k);
    FadeLinked(s, t, c, k);
  }

  lemma NullCells(pool: View, cells: map<CellId, Ptr>, turn: map<CellId, Tid>, c: CellId)
    requires |pool.state| == |pool.generation| && Naming(pool, cells) && Covered(cells) && Keyed(cells, turn)
    requires c in cells && cells[c].Fading?
    ensures Naming(pool, cells - {c}) && Covered(cells - {c}) && Keyed(cells - {c}, turn)
  {
  }

  lemma NullSharedListed(s: Sys, c: CellId)
    requires Shape(s) && InFlight(s.inflight, s.cells) && Unlisted(s.unlisted, s.cells, s.dying)
    requires Attempted(s.pool.state, s.attempts, s.turn, s.inflight, s.cells)
    requires Listed(s.pool.state, s.attempts, s.cells, s.unlisted) && c in s.cells && s.cells[c].Fading?
    ensures var b := s.cells - {c};
            && InFlight(s.inflight, b) && Unlisted(s.unlisted, b, s.dying)
            && Listed(s.pool.state, s.attempts, b, s.unlisted)
            && Attempted(s.pool.state, s.attempts, s.turn, s.inflight, b)
    ensures Sends(s.isSending, s.cells) ==> Sends(s.isSending, s.cells - {c})
  {
  }

  lemma NullSharedLinked(s: Sys, c: CellId)
    requires Shape(s) && c in s.cells && s.cells[c].Fading?
    requires Linked(s.pool.state, s.online, s.unlisted, s.inflight, s.cells)
    requires Orphaned(s.orphans, s.online, s.isSending, s.turn, s.inflight, s.cells)
    ensures Linked(s.pool.state, s.online, s.unlisted, s.inflight, s.cells - {c})
    ensures Orphaned(s.orphans, s.online, s.isSending, s.turn, s.inflight, s.cells - {c})
  {
  }

  lemma NullSharedKeeps(s: Sys, t: Tid, c: CellId)
    requires Inv(s) && Enabled(s, NullShared(t, c))
    ensures Inv(DoNullShared(s, c))
  {
    hide Naming, Covered, Keyed, Conserved, Phases, InFlight, Turns, Unlisted, Pendings, Disconnects, Attempted,
         Listed, Accepts, Sends, Linked, Orphaned;
    ConservedNeutral(s.count, s.cells, s.cells - {c}, c);
    NullCells(s.pool, s.cells, s.turn, c);
    NullSharedListed(s, c);
    NullSharedLinked(s, c);
  }

  // ---- Steps on the pool ----

  lemma PopNaming(s: Sys, i: nat)
    requires Shape(s) && Naming(s.pool, s.cells) && i < N(s)
    ensures Naming(s.pool.Moved(i, PENDING), s.cells)
  {
  }

  lemma PopPhases(s: Sys, t: Tid, i: nat)
    requires Shape(s) && Phases(s.pool, s.count, s.unlisted, s.claimed, s.dying)
    requires i < N(s) && s.count[i] == 0 && i !in s.claimed && i !in s.dying && s.pool.state[i] == IDLE
    ensures var n := DoPop(s, t, i); Phases(n.pool, s.count, n.unlisted, n.claimed, n.dying)
  {
  }

  lemma PopListed(s: Sys, t: Tid, i: nat)
    requires Shape(s) && Listed(s.pool.state, s.attempts, s.cells, s.unlisted) && i < N(s)
    ensures var n := DoPop(s, t, i); Listed(n.pool.state, n.attempts, s.cells, n.unlisted)
  {
  }

  lemma PopTurns(s: Sys, t: Tid, i: nat)
    requires Shape(s) && Turns(s.turn, s.inflight, s.isSending) && i < N(s)
    requires Recv(i) !in s.inflight && Send(i) !in s.inflight
    ensures var n := DoPop(s, t, i); Turns(n.turn, n.inflight, n.isSending)
  {
  }

  lemma PopKeyed(s: Sys, t: Tid, i: nat)
    requires Shape(s) && Keyed(s.cells, s.turn) && i < N(s)
    requires Table(i) !in s.cells && Recv(i) !in s.cells && Send(i) !in s.cells && Disc(i) !in s.cells
    ensures Keyed(s.cells, DoPop(s, t, i).turn)
  {
  }

  lemma PopPendings(s: Sys, t: Tid, i: nat)
    requires Shape(s) && Pendings(s.pool.state, s.online, s.turn, s.inflight, s.unlisted) && i < N(s)
    requires Send(i) !in s.inflight && Disc(i) !in s.inflight
    ensures var n := DoPop(s, t, i); Pendings(n.pool.state, n.online, n.turn, n.inflight, n.unlisted)
  {
  }

  lemma PopSends(s: Sys, i: nat)
    requires Sends(s.isSending, s.cells) && Send(i) !in s.cells && i < |s.isSending|
    ensures Sends(s.isSending[i := false], s.cells)
  {
  }

  lemma PopDisconnects(s: Sys, t: Tid, i: nat)
    requires Shape(s) && Disconnects(s.pool.state, s.attempts, s.duty) && i < N(s) && i !in s.duty
    requires Attempted(s.pool.state, s.attempts, s.turn, s.inflight, s.cells)
    requires Disc(i) !in s.inflight && Disc(i) !in s.cells
    ensures var n := DoPop(s, t, i);
            && Disconnects(n.pool.state, n.attempts, n.duty)
            && Attempted(n.pool.state, n.attempts, n.turn, n.inflight, s.cells)
  {
  }

  lemma PopUnlisted(s: Sys, t: Tid, i: nat)
    requires Unlisted(s.unlisted, s.cells, s.dying) && i !in s.dying
    requires forall c :: c in s.cells ==> s.cells[c].h.who != i
    ensures Unlisted(s.unlisted[i := t], s.cells, s.dying)
  {
  }

  lemma PopResetsNothing(s: Sys, i: nat)
    requires i < N(s) && s.count[i] == 0 && Recv(i) !in s.cells && Send(i) !in s.cells && Disc(i) !in s.cells
    ensures s.cells - {Recv(i), Send(i), Disc(i)} == s.cells && s.count[i := 0] == s.count
  {
  }

  lemma PopLinked(s: Sys, t: Tid, i: nat)
    requires Shape(s) && i < N(s) && s.pool.state[i] == IDLE && Disc(i) !in s.inflight
    requires Linked(s.pool.state, s.online, s.unlisted, s.inflight, s.cells)
    requires Orphaned(s.orphans, s.online, s.isSending, s.turn, s.inflight, s.cells)
    ensures var n := DoPop(s, t, i);
            && Linked(n.pool.state, n.online, n.unlisted, n.inflight, s.cells)
            && Orphaned(n.orphans, n.online, n.isSending, n.turn, n.inflight, s.cells)
  {
  }

  /** Claiming a free slot: re-initialising it finds its three record pointers null and its count zero. */
  lemma PopKeeps(s: Sys, t: Tid, i: nat)
    requires Inv(s) && Enabled(s, Pop(t, i))
    ensures Inv(DoPop(s, t, i)) && DoPop(s, t, i).cells == s.cells && DoPop(s, t, i).count == s.count
  {
    hide Naming, Covered, Keyed, Conserved, Phases, InFlight, Turns, Unlisted, Pendings, Disconnects, Attempted,
         Listed, Accepts, Sends, Linked, Orphaned;
    FreeIsUnnamed(s, i);
    PopNaming(s, i);
    PopPhases(s, t, i);
    PopListed(s, t, i);
    PopTurns(s, t, i);
    PopKeyed(s, t, i);
    PopPendings(s, t, i);
    PopSends(s, i);
    PopDisconnects(s, t, i);
    PopUnlisted(s, t, i);
    PopResetsNothing(s, i);
    PopLinked(s, t, i);
  }

  lemma PushNaming(s: Sys, i: nat)
    requires Shape(s) && Naming(s.pool, s.cells) && i < N(s)
    requires forall c :: c in s.cells ==> s.cells[c].h.who != i
    ensures s.pool.Pushed(i).WellFormed(N(s), STATE_COUNT) && Naming(s.pool.Pushed(i), s.cells)
  {
  }

  lemma PushPhases(s: Sys, i: nat)
    requires Shape(s) && Phases(s.pool, s.count, s.unlisted, s.claimed, s.dying) && i in s.dying && i < N(s)
    ensures var n := DoPushBack(s, i); Phases(n.pool, n.count, n.unlisted, n.claimed, n.dying)
  {
  }

  lemma PushListed(s: Sys, i: nat)
    requires Shape(s) && Listed(s.pool.state, s.attempts, s.cells, s.unlisted) && i < N(s)
    requires Unlisted(s.unlisted, s.cells, s.dying)
    requires Pendings(s.pool.state, s.online, s.turn, s.inflight, s.unlisted)
    ensures var n := DoPushBack(s, i);
            && Listed(n.pool.state, n.attempts, n.cells, n.unlisted) && Unlisted(n.unlisted, n.cells, n.dying)
            && Pendings(n.pool.state, n.online, n.turn, n.inflight, n.unlisted)
  {
  }

  lemma PushDisconnects(s: Sys, i: nat)
    requires Shape(s) && Disconnects(s.pool.state, s.attempts, s.duty) && i < N(s)
    requires Attempted(s.pool.state, s.attempts, s.turn, s.inflight, s.cells)
    ensures var n := DoPushBack(s, i);
            && Disconnects(n.pool.state, n.attempts, n.duty)
            && Attempted(n.pool.state, n.attempts, n.turn, n.inflight, n.cells)
  {
  }

  lemma PushLinked(s: Sys, i: nat)
    requires Shape(s) && i < N(s) && Table(i) !in s.cells && Disc(i) !in s.cells
    requires Linked(s.pool.state, s.online, s.unlisted, s.inflight, s.cells)
    ensures var n := DoPushBack(s, i); Linked(n.pool.state, n.online, n.unlisted, n.inflight, n.cells)
  {
  }

  /** Nor does a shared cell of the slot show anything. */
  lemma DyingCellsEmpty(s: Sys, i: nat)
    requires Inv(s) && i in s.dying
    ensures Table(i) !in s.cells && Disc(i) !in s.cells
  {
    hide Covered, Keyed, Conserved, Phases, InFlight, Turns, Unlisted, Pendings, Disconnects, Attempted,
         Listed, Accepts, Sends, Linked, Orphaned;
    DyingIsUnnamed(s, i);
  }

  lemma PushBackKeeps(s: Sys, t: Tid, i: nat)
    requires Inv(s) && Enabled(s, PushBack(t, i))
    ensures i < N(s) && Inv(DoPushBack(s, i))
  {
    hide Naming, Covered, Keyed, Conserved, Phases, InFlight, Turns, Unlisted, Pendings, Disconnects, Attempted,
         Listed, Accepts, Sends, Linked, Orphaned;
    DyingIsUnnamed(s, i);
    PushNaming(s, i);
    PushPhases(s, i);
    PushListed(s, i);
    PushDisconnects(s, i);
    DyingCellsEmpty(s, i);
    PushLinked(s, i);
  }

  /** Raising the state of a slot in use concerns neither its pointers nor its phase. */
  lemma StateRaised(s: Sys, i: nat, st: nat)
    requires Shape(s) && i < N(s) && s.pool.state[i] != IDLE && PENDING < st < STATE_COUNT
    ensures s.pool.Moved(i, st).WellFormed(N(s), STATE_COUNT)
    ensures Naming(s.pool, s.cells) ==> Naming(s.pool.Moved(i, st), s.cells)
    ensures Phases(s.pool, s.count, s.unlisted, s.claimed, s.dying) ==>
              Phases(s.pool.Moved(i, st), s.count, s.unlisted, s.claimed, s.dying)
    ensures Attempted(s.pool.state, s.attempts, s.turn, s.inflight, s.cells) ==>
              Attempted(s.pool.Moved(i, st).state, s.attempts, s.turn, s.inflight, s.cells)
    ensures Pendings(s.pool.state, s.online, s.turn, s.inflight, s.unlisted) ==>
              Pendings(s.pool.Moved(i, st).state, s.online, s.turn, s.inflight, s.unlisted)
  {
  }

  lemma LinkedRaised(s: Sys, i: nat, st: nat)
    requires Shape(s) && i < N(s) && PENDING < st < STATE_COUNT
    requires Linked(s.pool.state, s.online, s.unlisted, s.inflight, s.cells)
    ensures Linked(s.pool.Moved(i, st).state, s.online, s.unlisted, s.inflight, s.cells)
  {
  }

  lemma ConnectState(s: Sys, i: nat)
    requires Shape(s) && i < N(s) && s.pool.state[i] == PENDING && i !in s.unlisted
    requires Disconnects(s.pool.state, s.attempts, s.duty) && Listed(s.pool.state, s.attempts, s.cells, s.unlisted)
    ensures var n := DoConnect(s, i);
            Disconnects(n.pool.state, n.attempts, n.duty) && Listed(n.pool.state, n.attempts, n.cells, n.unlisted)
  {
  }

  lemma ConnectKeeps(s: Sys, t: Tid, k: nat)
    requires Inv(s) && Enabled(s, Connect(t, k))
    ensures s.SlotOf(t, k) < N(s) && Inv(DoConnect(s, s.SlotOf(t, k)))
  {
    hide Naming, Covered, Keyed, Conserved, Phases, InFlight, Turns, Unlisted, Pendings, Disconnects, Attempted,
         Listed, Accepts, Sends, Linked, Orphaned;
    PointerIsLive(s, Local(t, k));
    if s.pool.state[s.SlotOf(t, k)] == PENDING {
      StateRaised(s, s.SlotOf(t, k), CONNECTED);
      LinkedRaised(s, s.SlotOf(t, k), CONNECTED);
      ConnectState(s, s.SlotOf(t, k));
    }
  }

  lemma BeginDisconnectState(s: Sys, t: Tid, i: nat)
    requires Shape(s) && i < N(s) && (s.pool.state[i] == PENDING || s.pool.state[i] == CONNECTED)
    requires Disconnects(s.pool.state, s.attempts, s.duty) && Listed(s.pool.state, s.attempts, s.cells, s.unlisted)
    ensures var n := DoBeginDisconnect(s, t, i);
            Disconnects(n.pool.state, n.attempts, n.duty) && Listed(n.pool.state, n.attempts, n.cells, n.unlisted)
  {
  }

  lemma BeginDisconnectKeeps(s: Sys, t: Tid, k: nat, c: CellId)
    requires Inv(s) && Enabled(s, BeginDisconnect(t, k, c))
    ensures s.SlotOf(t, k) < N(s) && Inv(DoBeginDisconnect(s, t, s.SlotOf(t, k)))
  {
    hide Naming, Covered, Keyed, Conserved, Phases, InFlight, Turns, Unlisted, Pendings, Disconnects, Attempted,
         Listed, Accepts, Sends, Linked, Orphaned;
    PointerIsLive(s, Local(t, k));
    var i := s.SlotOf(t, k);
    if s.pool.state[i] == PENDING || s.pool.state[i] == CONNECTED {
      StateRaised(s, i, DISCONNECTING);
      LinkedRaised(s, i, DISCONNECTING);
      BeginDisconnectState(s, t, i);
    }
  }

  // ---- Steps on records, the send flag and the accept counter ----

  lemma AttemptState(s: Sys, t: Tid, i: nat)
    requires Shape(s) && Disconnects(s.pool.state, s.attempts, s.duty) && i in s.duty
    requires Attempted(s.pool.state, s.attempts, s.turn, s.inflight, s.cells)
    ensures i < N(s) && s.attempts[i] == 0 && s.pool.state[i] == DISCONNECTING
    ensures Disc(i) !in s.turn && Disc(i) !in s.inflight && Disc(i) !in s.cells
    ensures var n := DoAttemptDisconnect(s, t, i);
            && Disconnects(n.pool.state, n.attempts, n.duty)
            && Attempted(n.pool.state, n.attempts, n.turn, n.inflight, n.cells)
  {
  }

  lemma AttemptListed(s: Sys, t: Tid, i: nat)
    requires Shape(s) && Listed(s.pool.state, s.attempts, s.cells, s.unlisted) && i < N(s)
    ensures var n := DoAttemptDisconnect(s, t, i); Listed(n.pool.state, n.attempts, n.cells, n.unlisted)
  {
  }

  lemma AttemptRecords(s: Sys, t: Tid, i: nat)
    requires Shape(s) && Turns(s.turn, s.inflight, s.isSending) && Keyed(s.cells, s.turn) && i < N(s)
    requires Pendings(s.pool.state, s.online, s.turn, s.inflight, s.unlisted) && s.pool.state[i] != PENDING
    requires Disc(i) !in s.inflight && Disc(i) !in s.turn
    ensures var n := DoAttemptDisconnect(s, t, i);
            && Turns(n.turn, n.inflight, n.isSending) && Keyed(n.cells, n.turn)
            && Pendings(n.pool.state, n.online, n.turn, n.inflight, n.unlisted)
  {
  }

  lemma AttemptOrphaned(s: Sys, t: Tid, i: nat)
    requires Shape(s) && Orphaned(s.orphans, s.online, s.isSending, s.turn, s.inflight, s.cells) && i < N(s)
    ensures Orphaned(s.orphans, s.online, s.isSending, s.turn[Disc(i) := t], s.inflight, s.cells)
  {
  }

  lemma AttemptDisconnectKeeps(s: Sys, t: Tid, i: nat)
    requires Inv(s) && Enabled(s, AttemptDisconnect(t, i))
    ensures i < N(s) && Inv(DoAttemptDisconnect(s, t, i))
  {
    hide Naming, Covered, Keyed, Conserved, Phases, InFlight, Turns, Unlisted, Pendings, Disconnects, Attempted,
         Listed, Accepts, Sends, Linked, Orphaned;
    AttemptState(s, t, i);
    AttemptListed(s, t, i);
    AttemptRecords(s, t, i);
    AttemptOrphaned(s, t, i);
  }

  /** A thread that is not resetting anything can let go of a record. */
  lemma TurnDropped(s: Sys, t: Tid, c: CellId)
    requires Keyed(s.cells, s.turn) && NoFade(s.cells, t) && s.HasTurn(t, c)
    ensures Keyed(s.cells, s.turn - {c})
  {
  }

  lemma PostRecords(s: Sys, t: Tid, c: CellId, op: Op)
    requires Shape(s) && InFlight(s.inflight, s.cells) && Turns(s.turn, s.inflight, s.isSending)
    requires Pendings(s.pool.state, s.online, s.turn, s.inflight, s.unlisted)
    requires Attempted(s.pool.state, s.attempts, s.turn, s.inflight, s.cells) && Enabled(s, Post(t, c, op))
    ensures var n := DoPost(s, t, c, op);
            && InFlight(n.inflight, n.cells) && Turns(n.turn, n.inflight, n.isSending)
            && Pendings(n.pool.state, n.online, n.turn, n.inflight, n.unlisted)
            && Attempted(n.pool.state, n.attempts, n.turn, n.inflight, n.cells)
    ensures c !in s.inflight
  {
  }

  lemma AcceptPosted(inflight: map<CellId, Op>, c: CellId, op: Op)
    requires c !in inflight
    ensures |AcceptsInFlight(inflight[c := op])| == |AcceptsInFlight(inflight)| + if op.AcceptOp? then 1 else 0
  {
    if op.AcceptOp? {
      assert AcceptsInFlight(inflight[c := op]) == AcceptsInFlight(inflight) + {c};
    } else {
      assert AcceptsInFlight(inflight[c := op]) == AcceptsInFlight(inflight);
    }
  }

  /** Posting an accept turns the thread's unit into the kernel's. */
  lemma PostUnits(s: Sys, t: Tid, c: CellId, op: Op)
    requires Accepts(s.pendingAccepts, s.units, s.lost, s.inflight) && c !in s.inflight
    requires op.AcceptOp? ==> t in s.units
    ensures var n := DoPost(s, t, c, op); Accepts(n.pendingAccepts, n.units, n.lost, n.inflight)
  {
    AcceptPosted(s.inflight, c, op);
  }

  /** A posted disconnect's session is in the table, so it has no record posted null. */
  lemma PostLinked(s: Sys, t: Tid, c: CellId, op: Op)
    requires Shape(s) && Enabled(s, Post(t, c, op))
    requires Linked(s.pool.state, s.online, s.unlisted, s.inflight, s.cells)
    requires Orphaned(s.orphans, s.online, s.isSending, s.turn, s.inflight, s.cells)
    ensures var n := DoPost(s, t, c, op);
            && Linked(n.pool.state, n.online, n.unlisted, n.inflight, n.cells)
            && Orphaned(n.orphans, n.online, n.isSending, n.turn, n.inflight, n.cells)
  {
  }

  lemma PostKeeps(s: Sys, t: Tid, c: CellId, op: Op)
    requires Inv(s) && Enabled(s, Post(t, c, op))
    ensures Inv(DoPost(s, t, c, op))
  {
    hide Naming, Covered, Keyed, Conserved, Phases, InFlight, Turns, Unlisted, Pendings, Disconnects, Attempted,
         Listed, Accepts, Sends, Linked, Orphaned;
    TurnDropped(s, t, c);
    PostRecords(s, t, c, op);
    PostUnits(s, t, c, op);
    PostLinked(s, t, c, op);
  }

  lemma PostNullRecords(s: Sys, c: CellId)
    requires Shape(s) && Turns(s.turn, s.inflight, s.isSending)
    requires Pendings(s.pool.state, s.online, s.turn, s.inflight, s.unlisted)
    requires Attempted(s.pool.state, s.attempts, s.turn, s.inflight, s.cells) && c in s.turn
    ensures var n := DoPostNull(s, c);
            && Turns(n.turn, n.inflight, n.isSending)
            && Pendings(n.pool.state, n.online, n.turn, n.inflight, n.unlisted)
            && Attempted(n.pool.state, n.attempts, n.turn, n.inflight, n.cells)
  {
  }

  /** The socket is connected and the table entry gone, so the disconnect record names the session. */
  lemma PostNullOrphaned(s: Sys, t: Tid, c: CellId, op: Op)
    requires Shape(s) && Turns(s.turn, s.inflight, s.isSending) && Enabled(s, PostNull(t, c, op))
    requires Linked(s.pool.state, s.online, s.unlisted, s.inflight, s.cells)
    requires Orphaned(s.orphans, s.online, s.isSending, s.turn, s.inflight, s.cells)
    ensures var n := DoPostNull(s, c); Orphaned(n.orphans, n.online, n.isSending, n.turn, n.inflight, n.cells)
  {
  }

  lemma PostNullKeeps(s: Sys, t: Tid, c: CellId, op: Op)
    requires Inv(s) && Enabled(s, PostNull(t, c, op))
    ensures Inv(DoPostNull(s, c))
  {
    hide Naming, Covered, Keyed, Conserved, Phases, InFlight, Turns, Unlisted, Pendings, Disconnects, Attempted,
         Listed, Accepts, Sends, Linked, Orphaned;
    TurnDropped(s, t, c);
    PostNullRecords(s, c);
    PostNullOrphaned(s, t, c, op);
  }

  lemma PostLostRecords(s: Sys, t: Tid, c: CellId, op: Op)
    requires Shape(s) && Turns(s.turn, s.inflight, s.isSending)
    requires Pendings(s.pool.state, s.online, s.turn, s.inflight, s.unlisted)
    requires Attempted(s.pool.state, s.attempts, s.turn, s.inflight, s.cells) && c in s.turn
    requires Orphaned(s.orphans, s.online, s.isSending, s.turn, s.inflight, s.cells)
    requires Accepts(s.pendingAccepts, s.units, s.lost, s.inflight) && (op.AcceptOp? ==> t in s.units)
    ensures var n := DoPostLost(s, t, c, op);
            && Turns(n.turn, n.inflight, n.isSending)
            && Pendings(n.pool.state, n.online, n.turn, n.inflight, n.unlisted)
            && Attempted(n.pool.state, n.attempts, n.turn, n.inflight, n.cells)
            && Orphaned(n.orphans, n.online, n.isSending, n.turn, n.inflight, n.cells)
            && Accepts(n.pendingAccepts, n.units, n.lost, n.inflight)
  {
  }

  lemma PostLostKeeps(s: Sys, t: Tid, c: CellId, op: Op)
    requires Inv(s) && Enabled(s, PostLost(t, c, op))
    ensures Inv(DoPostLost(s, t, c, op))
  {
    hide Naming, Covered, Keyed, Conserved, Phases, InFlight, Turns, Unlisted, Pendings, Disconnects, Attempted,
         Listed, Accepts, Sends, Linked, Orphaned;
    TurnDropped(s, t, c);
    PostLostRecords(s, t, c, op);
  }

  lemma EstablishPendings(s: Sys, i: nat)
    requires Pendings(s.pool.state, s.online, s.turn, s.inflight, s.unlisted) && i < |s.online|
    ensures Pendings(s.pool.state, s.online[i := true], s.turn, s.inflight, s.unlisted)
  {
  }

  lemma EstablishLinked(s: Sys, i: nat)
    requires Shape(s) && i < N(s) && s.pool.state[i] != IDLE && i !in s.unlisted && Counts(s.cells, Table(i))
    requires Linked(s.pool.state, s.online, s.unlisted, s.inflight, s.cells)
    requires Orphaned(s.orphans, s.online, s.isSending, s.turn, s.inflight, s.cells)
    ensures var n := DoEstablish(s, i);
            && Linked(n.pool.state, n.online, n.unlisted, n.inflight, n.cells)
            && Orphaned(n.orphans, n.online, n.isSending, n.turn, n.inflight, n.cells)
  {
  }

  lemma ListedEntry(s: Sys, i: nat)
    requires Inv(s) && i < N(s) == |s.attempts| == |s.pool.state|
    requires s.pool.state[i] != IDLE && i !in s.unlisted && s.attempts[i] == 0
    ensures Counts(s.cells, Table(i))
  {
  }

  lemma EstablishKeeps(s: Sys, t: Tid, i: nat)
    requires Inv(s) && Enabled(s, Establish(t, i))
    ensures Inv(DoEstablish(s, i))
  {
    hide Naming, Covered, Keyed, Conserved, Phases, InFlight, Turns, Unlisted, Pendings, Disconnects, Attempted,
         Listed, Accepts, Sends, Linked, Orphaned;
    EstablishPendings(s, i);
    InFlightFacts(s, Recv(i));
    ListedEntry(s, i);
    EstablishLinked(s, i);
  }

  lemma HangupParts(s: Sys, i: nat)
    requires Shape(s) && i < N(s) && Disc(i) in s.inflight
    requires Pendings(s.pool.state, s.online, s.turn, s.inflight, s.unlisted)
    requires Linked(s.pool.state, s.online, s.unlisted, s.inflight, s.cells)
    requires Orphaned(s.orphans, s.online, s.isSending, s.turn, s.inflight, s.cells)
    ensures var n := DoHangup(s, i);
            && Pendings(n.pool.state, n.online, n.turn, n.inflight, n.unlisted)
            && Linked(n.pool.state, n.online, n.unlisted, n.inflight, n.cells)
            && Orphaned(n.orphans, n.online, n.isSending, n.turn, n.inflight, n.cells)
  {
  }

  lemma HangupKeeps(s: Sys, t: Tid, i: nat)
    requires Inv(s) && Enabled(s, Hangup(t, i))
    ensures Inv(DoHangup(s, i))
  {
    hide Naming, Covered, Keyed, Conserved, Phases, InFlight, Turns, Unlisted, Pendings, Disconnects, Attempted,
         Listed, Accepts, Sends, Linked, Orphaned;
    HangupParts(s, i);
  }

  lemma CompleteRecords(s: Sys, t: Tid, c: CellId)
    requires Shape(s) && InFlight(s.inflight, s.cells) && Turns(s.turn, s.inflight, s.isSending)
    requires Keyed(s.cells, s.turn) && Pendings(s.pool.state, s.online, s.turn, s.inflight, s.unlisted)
    requires Attempted(s.pool.state, s.attempts, s.turn, s.inflight, s.cells)
    requires c in s.inflight && c.slot < N(s) && c !in s.turn && c.slot !in s.unlisted
    ensures var n := DoComplete(s, t, c);
            && InFlight(n.inflight, n.cells) && Turns(n.turn, n.inflight, n.isSending)
            && Keyed(n.cells, n.turn) && Pendings(n.pool.state, n.online, n.turn, n.inflight, n.unlisted)
            && Attempted(n.pool.state, n.attempts, n.turn, n.inflight, n.cells)
  {
  }

  lemma CompleteUnits(s: Sys, t: Tid, c: CellId)
    requires Accepts(s.pendingAccepts, s.units, s.lost, s.inflight) && c in s.inflight
    ensures var n := DoComplete(s, t, c); Accepts(n.pendingAccepts, n.units, n.lost, n.inflight)
  {
    var n := DoComplete(s, t, c);
    AcceptPosted(n.inflight, c, s.inflight[c]);
    assert n.inflight[c := s.inflight[c]] == s.inflight;
  }

  lemma CompleteLinked(s: Sys, t: Tid, c: CellId)
    requires Shape(s) && c in s.inflight
    requires Linked(s.pool.state, s.online, s.unlisted, s.inflight, s.cells)
    requires Orphaned(s.orphans, s.online, s.isSending, s.turn, s.inflight, s.cells)
    ensures var n := DoComplete(s, t, c);
            && Linked(n.pool.state, n.online, n.unlisted, n.inflight, n.cells)
            && Orphaned(n.orphans, n.online, n.isSending, n.turn, n.inflight, n.cells)
  {
  }

  lemma CompleteKeeps(s: Sys, t: Tid, c: CellId)
    requires Inv(s) && Enabled(s, Complete(t, c))
    ensures Inv(DoComplete(s, t, c))
  {
    hide Naming, Covered, Keyed, Conserved, Phases, InFlight, Turns, Unlisted, Pendings, Disconnects, Attempted,
         Listed, Accepts, Sends, Linked, Orphaned;
    InFlightFacts(s, c);
    CompleteRecords(s, t, c);
    CompleteUnits(s, t, c);
    CompleteLinked(s, t, c);
  }

  lemma SendTaken(s: Sys, t: Tid, i: nat)
    requires Shape(s) && Turns(s.turn, s.inflight, s.isSending) && Keyed(s.cells, s.turn)
    requires Pendings(s.pool.state, s.online, s.turn, s.inflight, s.unlisted)
    requires Attempted(s.pool.state, s.attempts, s.turn, s.inflight, s.cells)
    requires i < N(s) && !s.isSending[i]
    ensures var n := DoTakeSend(s, t, i);
            && Turns(n.turn, n.inflight, n.isSending) && Keyed(n.cells, n.turn)
            && Pendings(n.pool.state, n.online, n.turn, n.inflight, n.unlisted)
            && Attempted(n.pool.state, n.attempts, n.turn, n.inflight, n.cells)
    ensures Sends(s.isSending, s.cells) ==> Sends(s.isSending[i := true], s.cells)
  {
  }

  /** The flag is set while a send record posted null is out, so taking it and clearing it concern no such record. */
  lemma FlagOrphaned(s: Sys, t: Tid, i: nat)
    requires Shape(s) && i < N(s) && Orphaned(s.orphans, s.online, s.isSending, s.turn, s.inflight, s.cells)
    ensures var n := DoTakeSend(s, t, i);
            !s.isSending[i] ==> Orphaned(n.orphans, n.online, n.isSending, n.turn, n.inflight, n.cells)
    ensures var n := DoGiveSend(s, i);
            Send(i) in s.turn ==> Orphaned(n.orphans, n.online, n.isSending, n.turn, n.inflight, n.cells)
  {
  }

  lemma TakeSendKeeps(s: Sys, t: Tid, i: nat)
    requires Inv(s) && Enabled(s, TakeSend(t, i))
    ensures Inv(DoTakeSend(s, t, i))
  {
    hide Naming, Covered, Keyed, Conserved, Phases, InFlight, Turns, Unlisted, Pendings, Disconnects, Attempted,
         Listed, Accepts, Sends, Linked, Orphaned;
    SendTaken(s, t, i);
    FlagOrphaned(s, t, i);
  }

  lemma SendGiven(s: Sys, i: nat)
    requires Shape(s) && Turns(s.turn, s.inflight, s.isSending)
    requires Pendings(s.pool.state, s.online, s.turn, s.inflight, s.unlisted)
    requires Attempted(s.pool.state, s.attempts, s.turn, s.inflight, s.cells) && Send(i) in s.turn
    ensures i < N(s)
    ensures var n := DoGiveSend(s, i);
            && Turns(n.turn, n.inflight, n.isSending)
            && Pendings(n.pool.state, n.online, n.turn, n.inflight, n.unlisted)
            && Attempted(n.pool.state, n.attempts, n.turn, n.inflight, n.cells)
    ensures Sends(s.isSending, s.cells) && Send(i) !in s.cells ==> Sends(s.isSending[i := false], s.cells)
  {
  }

  lemma GiveSendKeeps(s: Sys, t: Tid, i: nat)
    requires Inv(s) && Enabled(s, GiveSend(t, i))
    ensures i < N(s) && Inv(DoGiveSend(s, i)) && DoGiveSend(s, i).isSending == s.isSending[i := false]
  {
    hide Naming, Covered, Keyed, Conserved, Phases, InFlight, Turns, Unlisted, Pendings, Disconnects, Attempted,
         Listed, Accepts, Sends, Linked, Orphaned;
    TurnDropped(s, t, Send(i));
    SendGiven(s, i);
    FlagOrphaned(s, t, i);
  }

  lemma TakeUnitKeeps(s: Sys, t: Tid)
    requires Inv(s) && Enabled(s, TakeUnit(t))
    ensures Inv(DoTakeUnit(s, t))
  {
  }

  lemma SettleUnitKeeps(s: Sys, t: Tid)
    requires Inv(s) && Enabled(s, SettleUnit(t))
    ensures Inv(DoSettleUnit(s, t)) && 1 <= s.pendingAccepts
  {
  }

  ghost predicate OnCells(step: Step) {
    || step.Pop? || step.FirstRef? || step.CopyPtr? || step.StoreTable? || step.StoreRecord? || step.DropLocal?
    || step.SubShared? || step.NullShared? || step.PushBack?
  }

  lemma CellStepKeeps(s: Sys, step: Step)
    requires Inv(s) && Enabled(s, step) && OnCells(step)
    ensures Inv(Next(s, step))
  {
    hide Naming, Covered, Keyed, Conserved, Phases, InFlight, Turns, Unlisted, Pendings, Disconnects, Attempted,
         Listed, Accepts, Sends, Linked, Orphaned;
    match step
    case Pop(t, i) => PopKeeps(s, t, i);
    case FirstRef(t, i, k) => FirstRefKeeps(s, t, i, k);
    case CopyPtr(t, src, k) => CopyPtrKeeps(s, t, src, k);
    case StoreTable(t, k) => StoreTableKeeps(s, t, k);
    case StoreRecord(t, k, c) => StoreRecordKeeps(s, t, k, c);
    case DropLocal(t, k) => DropLocalKeeps(s, t, k);
    case SubShared(t, c, k) => SubSharedKeeps(s, t, c, k);
    case NullShared(t, c) => NullSharedKeeps(s, t, c);
    case PushBack(t, i) => PushBackKeeps(s, t, i);
  }

  /** Every enabled step keeps the invariant. */
  lemma NextKeeps(s: Sys, step: Step)
    requires Inv(s) && Enabled(s, step)
    ensures Inv(Next(s, step))
  {
    if OnCells(step) {
      hide *;
      CellStepKeeps(s, step);
    } else {
      hide Naming, Covered, Keyed, Conserved, Phases, InFlight, Turns, Unlisted, Pendings, Disconnects, Attempted,
           Listed, Accepts, Sends, Linked, Orphaned;
      match step
      case Connect(t, k) => ConnectKeeps(s, t, k);
      case BeginDisconnect(t, k, c) => BeginDisconnectKeeps(s, t, k, c);
      case AttemptDisconnect(t, i) => AttemptDisconnectKeeps(s, t, i);
      case Post(t, c, op) => PostKeeps(s, t, c, op);
      case PostNull(t, c, op) => PostNullKeeps(s, t, c, op);
      case PostLost(t, c, op) => PostLostKeeps(s, t, c, op);
      case Complete(t, c) => CompleteKeeps(s, t, c);
      case Establish(t, i) => EstablishKeeps(s, t, i);
      case Hangup(t, i) => HangupKeeps(s, t, i);
      case TakeSend(t, i) => TakeSendKeeps(s, t, i);
      case GiveSend(t, i) => GiveSendKeeps(s, t, i);
      case TakeUnit(t) => TakeUnitKeeps(s, t);
      case SettleUnit(t) => SettleUnitKeeps(s, t);
      case Sees(t, what) =>
    }
  }
}
