/** What one thread may rely on while any number of other threads take any number of steps. */
module Interference {
  import opened Handles
  import opened SparseSets
  import opened Lifecycle
  import opened LifecycleInvariant
  import opened LifecycleSteps
  import opened LifecycleRuns

  ghost predicate Held(s: Sys, t: Tid, i: nat) {
    exists k :: s.Holds(t, k) && s.cells[Local(t, k)].h.who == i
  }

  /** The thread's record belongs to a session that cannot go away under it: the record is non-null, or the thread
      holds the session, or the session is pending and its receive record is the thread's. */
  ghost predicate Anchored(s: Sys, t: Tid, c: CellId) {
    s.HasTurn(t, c) && c.IsRecord() && (c in s.cells || Held(s, t, c.slot) || (c.Recv? && Pending(s, c.slot)))
  }

  ghost predicate FadingBy(cells: map<CellId, Ptr>, c: CellId, t: Tid) {
    c in cells && cells[c].Fading? && cells[c].owner == t
  }

  /** The thread's own pointers and half-done resets are untouched. */
  ghost predicate OwnCells(t: Tid, s: Sys, s': Sys) {
    && (forall k :: SameCell(s.cells, s'.cells, Local(t, k)))
    && (forall c :: FadingBy(s.cells, c, t) ==> SameCell(s.cells, s'.cells, c))
    && (forall c :: FadingBy(s'.cells, c, t) ==> SameCell(s.cells, s'.cells, c))
  }

  /** Sessions the thread holds keep or raise their state and their attempts, stay listed, and do not come back to the
      table once their entry is gone. */
  ghost predicate HeldSessions(t: Tid, s: Sys, s': Sys) {
    forall i: nat :: Held(s, t, i) && i < |s.pool.state| ==>
      && i < |s'.pool.state| && s.pool.state[i] <= s'.pool.state[i]
      && i < |s.attempts| && i < |s'.attempts| && s.attempts[i] <= s'.attempts[i]
      && (!Pending(s, i) ==> !Pending(s', i))
      && (i !in s.unlisted ==> i !in s'.unlisted)
      && (i !in s.unlisted && Table(i) !in s.cells ==> Table(i) !in s'.cells)
  }

  ghost predicate OwnRecords(t: Tid, s: Sys, s': Sys) {
    forall c :: Anchored(s, t, c) ==>
      s'.HasTurn(t, c) && SameCell(s.cells, s'.cells, c) && (!Pending(s, c.slot) ==> !Pending(s', c.slot))
  }

  /** A pending session belongs to whoever has its receive record. */
  ghost predicate OwnPending(t: Tid, s: Sys, s': Sys) {
    forall i: nat :: Pending(s, i) && s.HasTurn(t, Recv(i)) ==>
      && Pending(s', i) && SameCell(s.cells, s'.cells, Table(i))
      && (i in s.unlisted <==> i in s'.unlisted) && (i in s.unlisted ==> s.unlisted[i] == s'.unlisted[i])
  }

  /** The table entry of a session is the thread's own while it has the session's disconnect record, and the socket
      stays connected or not as it was. */
  ghost predicate OwnEntries(t: Tid, s: Sys, s': Sys) {
    forall i: nat :: Anchored(s, t, Disc(i)) ==>
      SameCell(s.cells, s'.cells, Table(i)) && (s.Online(i) <==> s'.Online(i))
  }

  /** Thread t owes the first reference of slot i. */
  ghost predicate Claims(s: Sys, t: Tid, i: nat) {
    i in s.claimed && s.claimed[i].tid == t
  }

  /** Thread t owes the push of slot i. */
  ghost predicate Buries(s: Sys, t: Tid, i: nat) {
    i in s.dying && s.dying[i] == t
  }

  /** What the thread owes, nobody pays for it, and nobody runs up debts in its name. */
  ghost predicate OwnDebts(t: Tid, s: Sys, s': Sys) {
    && (forall i :: Claims(s, t, i) <==> Claims(s', t, i))
    && (forall i :: Buries(s, t, i) <==> Buries(s', t, i))
    && (forall i :: i in s.duty && s.duty[i] == t && Held(s, t, i) ==> i in s'.duty && s'.duty[i] == t)
    && s'.units[t] == s.units[t]
  }

  ghost predicate Rely(t: Tid, s: Sys, s': Sys) {
    && N(s') == N(s)
    && OwnCells(t, s, s')
    && HeldSessions(t, s, s')
    && OwnRecords(t, s, s')
    && OwnPending(t, s, s')
    && OwnEntries(t, s, s')
    && OwnDebts(t, s, s')
  }

  // ---- Each step of another thread respects the rely ----

  lemma OnlyOwnFades(s: Sys, step: Step, t: Tid, c: CellId)
    requires Inv(s) && Enabled(s, step) && step.t != t && FadingBy(Next(s, step).cells, c, t)
    ensures SameCell(s.cells, Next(s, step).cells, c)
  {
    hide Naming, Covered, Keyed, Conserved, Phases, InFlight, Turns, Unlisted, Pendings, Disconnects, Attempted,
         Listed, Accepts, Sends, Linked, Orphaned;
    Bounded(s);
    if !Touches(s, step, c) {
      CellUntouched(s, step, c);
    }
  }

  lemma StepOwnCells(t: Tid, s: Sys, step: Step)
    requires Inv(s) && Enabled(s, step) && step.t != t
    ensures OwnCells(t, s, Next(s, step))
  {
    hide Naming, Covered, Keyed, Conserved, Phases, InFlight, Turns, Unlisted, Pendings, Disconnects, Attempted,
         Listed, Accepts, Sends, Linked, Orphaned;
    var n := Next(s, step);
    if step.StoreTable? {
      UnlistedEntryIsEmpty(s, s.SlotOf(step.t, step.k));
    }
    if step.NullShared? {
      ResetterHasKey(s, step.c);
    }
    forall k
      ensures SameCell(s.cells, n.cells, Local(t, k))
    {
      CellUntouched(s, step, Local(t, k));
    }
    forall c | FadingBy(s.cells, c, t)
      ensures SameCell(s.cells, n.cells, c)
    {
      CellUntouched(s, step, c);
    }
    forall c | FadingBy(n.cells, c, t)
      ensures SameCell(s.cells, n.cells, c)
    {
      OnlyOwnFades(s, step, t, c);
    }
  }

  /** A session somebody holds is in use, counted, and neither claimed nor dying. */
  lemma HeldIsLive(s: Sys, t: Tid, i: nat)
    requires Inv(s) && Held(s, t, i)
    ensures i < N(s) && s.pool.state[i] != IDLE && 1 <= s.count[i] && i !in s.claimed && i !in s.dying
    ensures i in s.unlisted ==> s.unlisted[i] == t
  {
    hide Inv;
    var k :| s.Holds(t, k) && s.cells[Local(t, k)].h.who == i;
    PointerIsLive(s, Local(t, k));
    CreatorOf(s, Local(t, k), t);
  }

  lemma CreatorOf(s: Sys, src: CellId, t: Tid)
    requires Inv(s) && src in s.cells && (src.Local? ==> src.tid == t)
    ensures s.cells[src].h.who in s.unlisted ==> s.unlisted[s.cells[src].h.who] == t
  {
  }

  lemma OnlyPopUnlists(s: Sys, step: Step, i: nat)
    requires Inv(s) && Enabled(s, step) && i !in s.unlisted && !Is(step, Popped, i)
    ensures i !in Next(s, step).unlisted
  {
    hide Naming, Covered, Keyed, Conserved, Phases, InFlight, Turns, Unlisted, Pendings, Disconnects, Attempted,
         Listed, Accepts, Sends, Linked, Orphaned;
    Bounded(s);
  }

  lemma HangsUpLater(s: Sys, step: Step)
    requires Inv(s) && Enabled(s, step) && step.Hangup? && step.i < |s.pool.state|
    ensures s.pool.state[step.i] != PENDING
  {
    hide Naming, Covered, Keyed, Conserved, Phases, InFlight, Turns, Unlisted, Disconnects, Attempted, Listed, Accepts,
         Sends, Linked, Orphaned;
  }

  lemma OnlineLasts(s: Sys, step: Step, i: nat)
    requires Inv(s) && Enabled(s, step) && s.Online(i) && !Is(step, Popped, i) && !(step.Hangup? && step.i == i)
    ensures Next(s, step).Online(i)
  {
    hide Inv;
    ShapeOf(s);
    if step.Pop? || step.Establish? || step.Hangup? {
    } else {
      hide Next, Enabled;
      LinkSame(s, step);
    }
  }

  /** A session becomes pending on an unconnected socket only by being claimed. */
  lemma OnlyPopPends(s: Sys, step: Step, i: nat)
    requires Inv(s) && Enabled(s, step) && !Is(step, Popped, i) && !Pending(s, i)
    ensures !Pending(Next(s, step), i)
  {
    hide Inv, Next, Enabled;
    NextKeeps(s, step);
    StepSize(s, step);
    ShapeOf(s);
    ShapeOf(Next(s, step));
    if i < N(s) {
      StepOnSlot(s, step, i);
      if step.Hangup? && step.i == i {
        HangsUpLater(s, step);
      } else if s.Online(i) {
        OnlineLasts(s, step, i);
      }
    }
  }

  /** Only its creator's listing brings a session into the table. */
  lemma OnlyStoreLists(s: Sys, step: Step, i: nat)
    requires Inv(s) && Enabled(s, step) && i !in s.unlisted && Table(i) !in s.cells
    ensures Table(i) !in Next(s, step).cells
  {
    hide Inv, Next;
    if Touches(s, step, Table(i)) {
    } else {
      hide Enabled, Touches;
      CellUntouched(s, step, Table(i));
    }
  }

  lemma LiveNotRecycled(s: Sys, step: Step, i: nat)
    requires Enabled(s, step) && i < |s.pool.state| && s.pool.state[i] != IDLE && i !in s.dying
    ensures !Is(step, Popped, i) && !Is(step, Pushed, i)
  {
  }

  lemma StepHeldSessions(t: Tid, s: Sys, step: Step)
    requires Inv(s) && Enabled(s, step) && step.t != t
    ensures HeldSessions(t, s, Next(s, step))
  {
    hide Inv, Enabled, Next, Is;
    var n := Next(s, step);
    forall i: nat | Held(s, t, i) && i < |s.pool.state|
      ensures i < |n.pool.state| && s.pool.state[i] <= n.pool.state[i] && (i !in s.unlisted ==> i !in n.unlisted)
      ensures i < |s.attempts| && i < |n.attempts| && s.attempts[i] <= n.attempts[i]
      ensures !Pending(s, i) ==> !Pending(n, i)
      ensures i !in s.unlisted && Table(i) !in s.cells ==> Table(i) !in n.cells
    {
      HeldIsLive(s, t, i);
      LiveNotRecycled(s, step, i);
      ShapeOf(s);
      StepOnSlot(s, step, i);
      if !Pending(s, i) {
        OnlyPopPends(s, step, i);
      }
      if i !in s.unlisted {
        OnlyPopUnlists(s, step, i);
        if Table(i) !in s.cells {
          OnlyStoreLists(s, step, i);
        }
      }
    }
  }

  lemma AnchoredFacts(s: Sys, t: Tid, c: CellId)
    requires Inv(s) && Anchored(s, t, c)
    ensures c.IsRecord() && c.slot < N(s) && s.pool.state[c.slot] != IDLE && c !in s.inflight
  {
  }

  /** A step of another thread that hands out a record hands out one that nobody had. */
  lemma HandedOut(s: Sys, step: Step)
    requires Inv(s) && Enabled(s, step)
    ensures step.AttemptDisconnect? ==> Disc(step.i) !in s.turn
    ensures step.TakeSend? ==> Send(step.i) !in s.turn
    ensures step.Complete? ==> step.c !in s.turn
  {
  }

  lemma OthersTouchNot(t: Tid, s: Sys, step: Step, c: CellId)
    requires Inv(s) && Enabled(s, step) && step.t != t && s.HasTurn(t, c) && c.IsRecord()
    ensures !Touches(s, step, c)
  {
    hide Inv;
    if step.NullShared? {
      ResetterHasKey(s, step.c);
    }
  }

  lemma OthersTakeNot(t: Tid, s: Sys, step: Step, c: CellId)
    requires Inv(s) && Enabled(s, step) && step.t != t && s.HasTurn(t, c) && c.IsRecord()
    requires c.slot < N(s) == |s.pool.state| && s.pool.state[c.slot] != IDLE
    requires step.AttemptDisconnect? ==> Disc(step.i) !in s.turn
    requires step.TakeSend? ==> Send(step.i) !in s.turn
    requires step.Complete? ==> step.c !in s.turn
    ensures Next(s, step).HasTurn(t, c)
  {
    hide Inv, Next;
    TurnSame(s, step, t, c);
  }

  lemma RecordUntouched(t: Tid, s: Sys, step: Step, c: CellId)
    requires Inv(s) && Enabled(s, step) && step.t != t && Anchored(s, t, c)
    ensures var n := Next(s, step);
            n.HasTurn(t, c) && SameCell(s.cells, n.cells, c) && (!Pending(s, c.slot) ==> !Pending(n, c.slot))
  {
    hide Inv, Enabled, Next, SameCell, Touches, Is, Pending;
    AnchoredFacts(s, t, c);
    ShapeOf(s);
    HandedOut(s, step);
    OthersTouchNot(t, s, step, c);
    OthersTakeNot(t, s, step, c);
    CellUntouched(s, step, c);
    InUseNotPopped(s, step, c.slot);
    if !Pending(s, c.slot) {
      OnlyPopPends(s, step, c.slot);
    }
  }

  lemma InUseNotPopped(s: Sys, step: Step, i: nat)
    requires Enabled(s, step) && i < |s.pool.state| && s.pool.state[i] != IDLE
    ensures !Is(step, Popped, i)
  {
  }

  lemma StepOwnRecords(t: Tid, s: Sys, step: Step)
    requires Inv(s) && Enabled(s, step) && step.t != t
    ensures OwnRecords(t, s, Next(s, step))
  {
    hide Inv, Enabled, Next, SameCell, Anchored, Pending;
    forall c | Anchored(s, t, c)
      ensures Next(s, step).HasTurn(t, c) && SameCell(s.cells, Next(s, step).cells, c)
      ensures c.IsRecord() && (!Pending(s, c.slot) ==> !Pending(Next(s, step), c.slot))
    {
      AnchoredFacts(s, t, c);
      RecordUntouched(t, s, step, c);
    }
  }

  /** Nobody but its holder does anything to a pending session. */
  lemma PendingUntouched(t: Tid, s: Sys, step: Step, i: nat)
    requires Inv(s) && Enabled(s, step) && step.t != t && Pending(s, i) && s.HasTurn(t, Recv(i))
    ensures !((step.Pop? || step.PushBack? || step.Establish?) && step.i == i)
    ensures !((step.Connect? || step.BeginDisconnect? || step.StoreTable?) && s.SlotOf(step.t, step.k) == i)
    ensures !((step.SubShared? || step.NullShared?) && step.c == Table(i))
  {
    hide Naming, Covered, Conserved, Phases, InFlight, Attempted, Accepts, Sends;
    if step.PushBack? && step.i == i && i !in s.unlisted {
      SharedNamesOwn(s, Table(i));
      PointerIsLive(s, Table(i));
    }
  }

  lemma OfflineKept(s: Sys, step: Step, i: nat)
    requires Inv(s) && Enabled(s, step) && !s.Online(i) && !(step.Establish? && step.i == i)
    ensures !Next(s, step).Online(i)
  {
    hide Inv;
    ShapeOf(s);
  }

  lemma PendingState(t: Tid, s: Sys, step: Step, i: nat)
    requires Inv(s) && Enabled(s, step) && step.t != t && Pending(s, i) && s.HasTurn(t, Recv(i))
    ensures Pending(Next(s, step), i)
  {
    hide Inv;
    ShapeOf(s);
    PendingUntouched(t, s, step, i);
    OfflineKept(s, step, i);
    if OnPool(step) || step.Pop? {
      Bounded(s);
    } else {
      PoolSame(s, step);
    }
  }

  lemma UnlistedSame(s: Sys, step: Step, i: nat)
    requires Inv(s) && Enabled(s, step) && !step.Pop? && !step.StoreTable?
    ensures i in s.unlisted <==> i in Next(s, step).unlisted
    ensures i in s.unlisted ==> s.unlisted[i] == Next(s, step).unlisted[i]
  {
    hide Inv, Enabled;
  }

  lemma PendingUnlisted(t: Tid, s: Sys, step: Step, i: nat)
    requires Inv(s) && Enabled(s, step) && step.t != t && Pending(s, i) && s.HasTurn(t, Recv(i))
    ensures var n := Next(s, step);
            (i in s.unlisted <==> i in n.unlisted) && (i in s.unlisted ==> s.unlisted[i] == n.unlisted[i])
  {
    hide Inv;
    PendingUntouched(t, s, step, i);
    if step.Pop? || step.StoreTable? {
    } else {
      hide Next, Enabled;
      UnlistedSame(s, step, i);
    }
  }

  lemma PendingEntry(t: Tid, s: Sys, step: Step, i: nat)
    requires Inv(s) && Enabled(s, step) && step.t != t && Pending(s, i) && s.HasTurn(t, Recv(i))
    ensures SameCell(s.cells, Next(s, step).cells, Table(i))
  {
    hide Inv, SameCell, Next;
    PendingUntouched(t, s, step, i);
    CellUntouched(s, step, Table(i));
  }

  lemma StepOwnPending(t: Tid, s: Sys, step: Step)
    requires Inv(s) && Enabled(s, step) && step.t != t
    ensures OwnPending(t, s, Next(s, step))
  {
    hide Inv, Enabled, Next, Pending, SameCell;
    var n := Next(s, step);
    forall i: nat | Pending(s, i) && s.HasTurn(t, Recv(i))
      ensures Pending(n, i) && SameCell(s.cells, n.cells, Table(i))
      ensures (i in s.unlisted <==> i in n.unlisted) && (i in s.unlisted ==> s.unlisted[i] == n.unlisted[i])
    {
      PendingState(t, s, step, i);
      PendingUnlisted(t, s, step, i);
      PendingEntry(t, s, step, i);
    }
  }

  lemma ClaimSame(s: Sys, step: Step, t: Tid, i: nat)
    requires Inv(s) && Enabled(s, step) && !step.Pop? && !step.FirstRef?
    ensures Claims(Next(s, step), t, i) <==> Claims(s, t, i)
  {
    hide Inv, Enabled;
  }

  lemma ClaimUntouched(t: Tid, s: Sys, step: Step, i: nat)
    requires Inv(s) && Enabled(s, step) && step.t != t
    ensures Claims(s, t, i) <==> Claims(Next(s, step), t, i)
  {
    hide Inv;
    if step.Pop? {
      ShapeOf(s);
      FreeIsUnnamed(s, step.i);
    } else if step.FirstRef? {
      ClaimFacts(s, step.i);
    } else {
      hide Next, Enabled;
      ClaimSame(s, step, t, i);
    }
  }

  lemma DyingSame(s: Sys, step: Step, t: Tid, i: nat)
    requires Inv(s) && Enabled(s, step) && !step.DropLocal? && !step.PushBack?
    ensures Buries(Next(s, step), t, i) <==> Buries(s, t, i)
  {
    hide Inv, Enabled;
    if step.SubShared? {
      SharedIsNeverLast(s, step.t, step.c, step.k);
    }
  }

  lemma DyingUntouched(t: Tid, s: Sys, step: Step, i: nat)
    requires Inv(s) && Enabled(s, step) && step.t != t
    ensures Buries(s, t, i) <==> Buries(Next(s, step), t, i)
  {
    hide Inv;
    if step.DropLocal? {
      PointerIsLive(s, Local(step.t, step.k));
    } else if step.PushBack? {
      DyingIsUnnamed(s, step.i);
    } else {
      hide Next, Enabled;
      DyingSame(s, step, t, i);
    }
  }

  lemma DutyFacts(s: Sys, i: nat)
    requires Inv(s) && i in s.duty
    ensures i < N(s) && s.pool.state[i] == DISCONNECTING
  {
  }

  lemma DutyUntouched(t: Tid, s: Sys, step: Step, i: nat)
    requires Inv(s) && Enabled(s, step) && step.t != t && i in s.duty && s.duty[i] == t && Held(s, t, i)
    ensures var n := Next(s, step); i in n.duty && n.duty[i] == t
  {
    hide Naming, Covered, Keyed, Conserved, Phases, InFlight, Turns, Unlisted, Pendings, Disconnects, Attempted,
         Listed, Accepts, Sends, Linked, Orphaned;
    hide Held;
    Bounded(s);
    DutyFacts(s, i);
    HeldIsLive(s, t, i);
  }

  lemma UnitsUntouched(t: Tid, s: Sys, step: Step)
    requires Inv(s) && Enabled(s, step) && step.t != t
    ensures Next(s, step).units[t] == s.units[t]
  {
    hide Naming, Covered, Keyed, Conserved, Phases, InFlight, Turns, Unlisted, Pendings, Disconnects, Attempted,
         Listed, Accepts, Sends, Linked, Orphaned;
    Bounded(s);
  }

  /** Whoever has the disconnect record has it after the one attempt, and no disconnect is under way. */
  lemma DisconnectTurn(s: Sys, t: Tid, i: nat)
    requires Inv(s) && Anchored(s, t, Disc(i)) && i < N(s) == |s.pool.state| && s.pool.state[i] != IDLE
    ensures Disc(i) !in s.inflight && |s.attempts| == N(s) && s.attempts[i] == 1
  {
    hide Naming, Covered, Keyed, Conserved, Phases, InFlight, Unlisted, Pendings, Disconnects, Listed, Accepts, Sends,
         Linked, Orphaned;
  }

  lemma EntryOnline(t: Tid, s: Sys, step: Step, i: nat)
    requires Inv(s) && Enabled(s, step) && Anchored(s, t, Disc(i))
    ensures s.Online(i) <==> Next(s, step).Online(i)
  {
    hide Inv, Anchored;
    AnchoredFacts(s, t, Disc(i));
    ShapeOf(s);
    DisconnectTurn(s, t, i);
    if step.Pop? || step.Establish? || step.Hangup? {
    } else {
      hide Next, Enabled;
      LinkSame(s, step);
    }
  }

  lemma EntryNotTouched(t: Tid, s: Sys, step: Step, i: nat)
    requires Inv(s) && Enabled(s, step) && step.t != t && Anchored(s, t, Disc(i))
    ensures !Touches(s, step, Table(i))
  {
    hide Inv, Anchored;
    AnchoredFacts(s, t, Disc(i));
    AnchoredListed(s, t, i);
    if step.NullShared? {
      ResetterHasKey(s, step.c);
    }
  }

  /** A session whose disconnect record a thread has was not left to another thread to list. */
  lemma AnchoredListed(s: Sys, t: Tid, i: nat)
    requires Inv(s) && Anchored(s, t, Disc(i))
    ensures i in s.unlisted ==> s.unlisted[i] == t
    ensures s.HasTurn(t, Disc(i))
  {
    hide Inv;
    if Disc(i) in s.cells {
      SharedNamesOwn(s, Disc(i));
    } else {
      HeldIsLive(s, t, i);
    }
  }

  lemma StepOwnEntries(t: Tid, s: Sys, step: Step)
    requires Inv(s) && Enabled(s, step) && step.t != t
    ensures OwnEntries(t, s, Next(s, step))
  {
    hide Inv, Enabled, Next, SameCell, Touches, Anchored;
    forall i: nat | Anchored(s, t, Disc(i))
      ensures SameCell(s.cells, Next(s, step).cells, Table(i)) && (s.Online(i) <==> Next(s, step).Online(i))
    {
      EntryOnline(t, s, step, i);
      EntryNotTouched(t, s, step, i);
      CellUntouched(s, step, Table(i));
    }
  }

  lemma StepOwnDebts(t: Tid, s: Sys, step: Step)
    requires Inv(s) && Enabled(s, step) && step.t != t
    ensures OwnDebts(t, s, Next(s, step))
  {
    hide Inv, Enabled, Held, Next, Claims, Buries;
    var n := Next(s, step);
    forall i: nat
      ensures Claims(s, t, i) <==> Claims(n, t, i)
      ensures Buries(s, t, i) <==> Buries(n, t, i)
    {
      ClaimUntouched(t, s, step, i);
      DyingUntouched(t, s, step, i);
    }
    forall i | i in s.duty && s.duty[i] == t && Held(s, t, i)
      ensures i in n.duty && n.duty[i] == t
    {
      DutyUntouched(t, s, step, i);
    }
    UnitsUntouched(t, s, step);
  }

  /** A step of any other thread keeps the invariant and the rely. */
  lemma OthersStep(t: Tid, s: Sys, step: Step)
    requires Inv(s) && Enabled(s, step) && step.t != t
    ensures Inv(Next(s, step)) && Rely(t, s, Next(s, step))
  {
    hide Naming, Covered, Keyed, Conserved, Phases, InFlight, Turns, Unlisted, Pendings, Disconnects, Attempted,
         Listed, Accepts, Sends, Linked, Orphaned;
    hide OwnCells, HeldSessions, OwnRecords, OwnPending, OwnEntries, OwnDebts;
    NextKeeps(s, step);
    StepSize(s, step);
    StepOwnCells(t, s, step);
    StepHeldSessions(t, s, step);
    StepOwnRecords(t, s, step);
    StepOwnPending(t, s, step);
    StepOwnEntries(t, s, step);
    StepOwnDebts(t, s, step);
  }

  lemma RelyReflexive(t: Tid, s: Sys)
    requires Shape(s)
    ensures Rely(t, s, s)
  {
  }

  lemma AnchoredSurvives(t: Tid, s: Sys, s': Sys, c: CellId)
    requires Rely(t, s, s') && Anchored(s, t, c)
    ensures Anchored(s', t, c)
  {
  }

  lemma RelyTransitive(t: Tid, a: Sys, b: Sys, c: Sys)
    requires Shape(a) && Shape(b) && Shape(c) && Rely(t, a, b) && Rely(t, b, c)
    ensures Rely(t, a, c)
  {
    hide OwnCells, HeldSessions, OwnRecords, OwnPending, OwnEntries, OwnDebts;
    OwnCellsTransitive(t, a, b, c);
    HeldTransitive(t, a, b, c);
    RecordsTransitive(t, a, b, c);
    PendingTransitive(t, a, b, c);
    EntriesTransitive(t, a, b, c);
    DebtsTransitive(t, a, b, c);
  }

  lemma OwnCellsTransitive(t: Tid, a: Sys, b: Sys, c: Sys)
    requires OwnCells(t, a, b) && OwnCells(t, b, c)
    ensures OwnCells(t, a, c)
  {
    forall d | FadingBy(a.cells, d, t)
      ensures SameCell(a.cells, c.cells, d)
    {
      assert SameCell(a.cells, b.cells, d);
      assert FadingBy(b.cells, d, t);
    }
    forall d | FadingBy(c.cells, d, t)
      ensures SameCell(a.cells, c.cells, d)
    {
      assert SameCell(b.cells, c.cells, d);
      assert FadingBy(b.cells, d, t);
    }
  }

  lemma HeldTransitive(t: Tid, a: Sys, b: Sys, c: Sys)
    requires HeldSessions(t, a, b) && HeldSessions(t, b, c) && OwnCells(t, a, b)
    ensures HeldSessions(t, a, c)
  {
  }

  lemma AnchoredIsRecord(s: Sys, t: Tid, c: CellId)
    requires Anchored(s, t, c)
    ensures c.IsRecord()
  {
  }

  lemma RecordsTransitive(t: Tid, a: Sys, b: Sys, c: Sys)
    requires Rely(t, a, b) && OwnRecords(t, b, c)
    ensures OwnRecords(t, a, c)
  {
    hide OwnCells, HeldSessions, OwnPending, OwnEntries, OwnDebts, Anchored, Pending;
    forall d | Anchored(a, t, d)
      ensures c.HasTurn(t, d) && SameCell(a.cells, c.cells, d)
      ensures d.IsRecord() && (!Pending(a, d.slot) ==> !Pending(c, d.slot))
    {
      AnchoredIsRecord(a, t, d);
      AnchoredSurvives(t, a, b, d);
    }
  }

  lemma PendingTransitive(t: Tid, a: Sys, b: Sys, c: Sys)
    requires OwnRecords(t, a, b) && OwnPending(t, a, b) && OwnPending(t, b, c)
    ensures OwnPending(t, a, c)
  {
  }

  lemma EntriesTransitive(t: Tid, a: Sys, b: Sys, c: Sys)
    requires Rely(t, a, b) && OwnEntries(t, b, c)
    ensures OwnEntries(t, a, c)
  {
    hide OwnCells, HeldSessions, OwnRecords, OwnPending, OwnDebts, Anchored;
    forall i: nat | Anchored(a, t, Disc(i))
      ensures SameCell(a.cells, c.cells, Table(i)) && (a.Online(i) <==> c.Online(i))
    {
      AnchoredSurvives(t, a, b, Disc(i));
    }
  }

  lemma DebtsTransitive(t: Tid, a: Sys, b: Sys, c: Sys)
    requires OwnDebts(t, a, b) && OwnDebts(t, b, c) && OwnCells(t, a, b)
    ensures OwnDebts(t, a, c)
  {
  }

  /** Any finite run of other threads keeps the invariant and the rely. */
  lemma {:induction false} OthersRun(t: Tid, s: Sys, steps: seq<Step>, s': Sys)
    requires Inv(s) && Runs(s, steps, s') && forall k :: 0 <= k < |steps| ==> steps[k].t != t
    ensures Inv(s') && Rely(t, s, s')
    decreases |steps|
  {
    hide Rely;
    hide Naming, Covered, Keyed, Conserved, Phases, InFlight, Turns, Unlisted, Pendings, Disconnects, Attempted,
         Listed, Accepts, Sends, Linked, Orphaned;
    if steps == [] {
      RelyReflexive(t, s);
    } else {
      var n := Next(s, steps[0]);
      OthersStep(t, s, steps[0]);
      OthersRun(t, n, steps[1..], s');
      RelyTransitive(t, s, n, s');
    }
  }
}
