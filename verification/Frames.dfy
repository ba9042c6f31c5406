/** What code running on one thread keeps for its caller while it works on a session and all other threads run. */
module Frames {
  import opened Handles
  import opened SparseSets
  import opened Lifecycle
  import opened LifecycleInvariant
  import opened LifecycleSteps
  import opened LifecycleRuns
  import opened Interference

  /** Thread t has no local pointer at index k or above: its locals form a stack. */
  ghost predicate Clear(s: Sys, t: Tid, k: nat) {
    forall j :: j >= k ==> Local(t, j) !in s.cells
  }

  /** The slots whose first reference or whose push thread t owes. */
  ghost predicate Owes(s: Sys, t: Tid, owed: set<nat>) {
    forall i :: Claims(s, t, i) || Buries(s, t, i) <==> i in owed
  }

  /** Between two statements of thread t, with locals below k in scope. */
  ghost predicate Stands(s: Sys, t: Tid, k: nat, owed: set<nat>) {
    Inv(s) && NoFade(s.cells, t) && Clear(s, t, k) && Owes(s, t, owed)
  }

  /** ... owing nothing. */
  ghost predicate At(s: Sys, t: Tid, k: nat) {
    Stands(s, t, k, {})
  }

  ghost predicate HeldBelow(s: Sys, t: Tid, b: nat, i: nat) {
    exists j :: 0 <= j < b && s.Holds(t, j) && s.cells[Local(t, j)].h.who == i
  }

  /** What a callee leaves its caller: the locals below k; and of every session the caller holds below b, its
      listing and the records the caller has in its hands. */
  ghost predicate Frame(t: Tid, b: nat, k: nat, s: Sys, s': Sys) {
    && N(s') == N(s)
    && (forall j :: 0 <= j < k ==> SameCell(s.cells, s'.cells, Local(t, j)))
    && (forall i: nat :: HeldBelow(s, t, b, i) && i !in s.unlisted ==> i !in s'.unlisted)
    && (forall c: CellId :: c.IsRecord() && s.HasTurn(t, c) && HeldBelow(s, t, b, c.slot) ==>
          s'.HasTurn(t, c) && SameCell(s.cells, s'.cells, c))
  }

  lemma HeldBelowSame(t: Tid, b: nat, k: nat, s: Sys, s': Sys, i: nat)
    requires b <= k && forall j :: 0 <= j < k ==> SameCell(s.cells, s'.cells, Local(t, j))
    ensures HeldBelow(s, t, b, i) <==> HeldBelow(s', t, b, i)
  {
  }

  lemma FrameTransitive(t: Tid, b: nat, k: nat, x: Sys, y: Sys, z: Sys)
    requires b <= k && Frame(t, b, k, x, y) && Frame(t, b, k, y, z)
    ensures Frame(t, b, k, x, z)
  {
  }

  /** Other threads respect every frame. */
  lemma RelyFrames(t: Tid, b: nat, k: nat, s: Sys, s': Sys)
    requires Inv(s) && Rely(t, s, s') && b <= k
    ensures Frame(t, b, k, s, s')
  {
  }

  /** The session a step of the thread's own acts upon, if it acts on one at all. */
  ghost predicate ActsOn(s: Sys, step: Step, i: nat)
    requires Enabled(s, step)
  {
    match step
    case Pop(t, j) => i == j
    case FirstRef(t, j, k) => i == j
    case StoreTable(t, k) => i == s.SlotOf(t, k)
    case StoreRecord(t, k, c) => i == c.slot
    case SubShared(t, c, k) => i == c.slot
    case NullShared(t, c) => c.Local? || i == c.slot
    case PushBack(t, j) => i == j
    case AttemptDisconnect(t, j) => i == j
    case Post(t, c, op) => i == c.slot
    case PostNull(t, c, op) => i == c.slot
    case PostLost(t, c, op) => i == c.slot
    case Complete(t, c) => c.Local? || i == c.slot
    case TakeSend(t, j) => i == j
    case GiveSend(t, j) => i == j
    case _ => false
  }

  lemma ApartFrom(s: Sys, step: Step, c: CellId)
    requires Enabled(s, step) && c.IsRecord() && !ActsOn(s, step, c.slot)
    ensures !Touches(s, step, c) && !Is(step, Popped, c.slot)
  {
  }

  lemma TurnKept(s: Sys, step: Step, t: Tid, c: CellId)
    requires Inv(s) && Enabled(s, step) && c.IsRecord() && !ActsOn(s, step, c.slot) && s.HasTurn(t, c)
    ensures Next(s, step).HasTurn(t, c)
  {
    hide Inv, Next;
    TurnSame(s, step, t, c);
  }

  /** A step on a session the caller does not hold, writing no local of the caller, respects the frame. */
  lemma OwnStepFrames(t: Tid, b: nat, k: nat, s: Sys, step: Step)
    requires Inv(s) && Enabled(s, step) && b <= k
    requires forall j :: 0 <= j < k ==> !Touches(s, step, Local(t, j))
    requires forall i :: ActsOn(s, step, i) ==> !HeldBelow(s, t, b, i)
    ensures Frame(t, b, k, s, Next(s, step))
  {
    hide Inv, Enabled, Next, HeldBelow, SameCell, ActsOn, Touches;
    var n := Next(s, step);
    StepSize(s, step);
    forall j | 0 <= j < k
      ensures SameCell(s.cells, n.cells, Local(t, j))
    {
      CellUntouched(s, step, Local(t, j));
    }
    forall i: nat | HeldBelow(s, t, b, i) && i !in s.unlisted
      ensures i !in n.unlisted
    {
      ApartFrom(s, step, Recv(i));
      OnlyPopUnlists(s, step, i);
    }
    forall c: CellId | c.IsRecord() && s.HasTurn(t, c) && HeldBelow(s, t, b, c.slot)
      ensures n.HasTurn(t, c) && SameCell(s.cells, n.cells, c)
    {
      ApartFrom(s, step, c);
      TurnKept(s, step, t, c);
      CellUntouched(s, step, c);
    }
  }

  lemma OwnDebtsSame(s: Sys, step: Step, owed: set<nat>)
    requires Inv(s) && Enabled(s, step) && !step.Pop? && !step.FirstRef? && !step.DropLocal? && !step.PushBack?
    ensures Owes(s, step.t, owed) <==> Owes(Next(s, step), step.t, owed)
  {
    hide Inv, Enabled, Next, Claims, Buries;
    forall i: nat
      ensures Claims(Next(s, step), step.t, i) <==> Claims(s, step.t, i)
      ensures Buries(Next(s, step), step.t, i) <==> Buries(s, step.t, i)
    {
      ClaimSame(s, step, step.t, i);
      DyingSame(s, step, step.t, i);
    }
  }

  lemma DebtsKept(t: Tid, s: Sys, s': Sys, owed: set<nat>)
    requires OwnDebts(t, s, s') && Owes(s, t, owed)
    ensures Owes(s', t, owed)
  {
  }

  /** Within one incarnation neither the state nor the disconnect attempts fall, and a session that is no longer
      waiting for its connection does not wait for one again. */
  ghost predicate Rises(s: Sys, s': Sys, i: nat) {
    && i < N(s) == N(s') == |s.pool.state| == |s'.pool.state| == |s.attempts| == |s'.attempts|
    && s.pool.state[i] <= s'.pool.state[i] && s.attempts[i] <= s'.attempts[i] && (!Pending(s, i) ==> !Pending(s', i))
  }

  lemma RisesTransitive(x: Sys, y: Sys, z: Sys, i: nat)
    requires Rises(x, y, i) && Rises(y, z, i)
    ensures Rises(x, z, i)
  {
  }

  lemma StepRises(s: Sys, step: Step, i: nat)
    requires Inv(s) && Enabled(s, step) && i < N(s) && !Is(step, Popped, i) && !Is(step, Pushed, i)
    ensures Rises(s, Next(s, step), i)
  {
    hide Inv, Enabled, Next, Is, Pending;
    StepOnSlot(s, step, i);
    if !Pending(s, i) {
      OnlyPopPends(s, step, i);
    }
  }

  /** What stays true of the session in local h: who it is, that it is listed, that its state never falls, that its
      entry is gone once it is, the records the thread has in its hands; its table entry and whether its socket is
      connected while its disconnect record is the thread's; and, while it is pending on an unconnected socket and its
      receive record is the thread's, everything about it. */
  ghost predicate Keeps(t: Tid, h: nat, s: Sys, s': Sys)
    requires s.Holds(t, h)
  {
    var i := s.SlotOf(t, h);
    && s'.Holds(t, h) && s'.SlotOf(t, h) == i && Rises(s, s', i)
    && (i !in s.unlisted ==> i !in s'.unlisted && (Table(i) !in s.cells ==> Table(i) !in s'.cells))
    && (forall c: CellId :: c.IsRecord() && c.slot == i && s.HasTurn(t, c) ==>
          s'.HasTurn(t, c) && SameCell(s.cells, s'.cells, c))
    && (Pending(s, i) && s.HasTurn(t, Recv(i)) ==> Pending(s', i) && SameCell(s.cells, s'.cells, Table(i)))
    && (s.HasTurn(t, Disc(i)) ==> SameCell(s.cells, s'.cells, Table(i)) && (s.Online(i) <==> s'.Online(i)))
    && (i in s.duty && s.duty[i] == t ==> i in s'.duty && s'.duty[i] == t)
  }

  lemma RelyKeeps(t: Tid, h: nat, s: Sys, s': Sys)
    requires Inv(s) && Inv(s') && Rely(t, s, s') && s.Holds(t, h)
    ensures Keeps(t, h, s, s')
  {
    hide Naming, Covered, Keyed, Conserved, Phases, InFlight, Turns, Unlisted, Pendings, Disconnects, Attempted,
         Listed, Accepts, Sends, Linked, Orphaned;
    var i := s.SlotOf(t, h);
    assert Held(s, t, i);
    HeldIsLive(s, t, i);
    assert SameCell(s.cells, s'.cells, Local(t, h));
  }

  lemma UnitsKept(t: Tid, s: Sys, s': Sys)
    requires Rely(t, s, s')
    ensures s'.units[t] == s.units[t]
  {
  }

  /** Thread t, with locals below k, works on the listed session in its local h, which its caller, owning the locals
      below b, does not hold. */
  ghost predicate Serving(s: Sys, t: Tid, h: nat, k: nat, b: nat) {
    At(s, t, k) && b <= h < k && s.Holds(t, h)
    && s.SlotOf(t, h) !in s.unlisted && !HeldBelow(s, t, b, s.SlotOf(t, h))
  }

  /** Work on one session, as its caller sees it. */
  ghost predicate Served(t: Tid, h: nat, k: nat, b: nat, s: Sys, s': Sys)
    requires s.Holds(t, h)
  {
    && Serving(s', t, h, k, b) && s'.SlotOf(t, h) == s.SlotOf(t, h) && Rises(s, s', s.SlotOf(t, h))
    && Frame(t, b, k, s, s')
  }

  /** Records of the session other than c that the thread has in its hands are as they were. */
  ghost predicate OtherRecords(t: Tid, i: nat, c: CellId, s: Sys, s': Sys) {
    forall d: CellId :: d.IsRecord() && d.slot == i && d != c && s.HasTurn(t, d) ==>
      s'.HasTurn(t, d) && SameCell(s.cells, s'.cells, d)
  }

  lemma FrameWeaken(t: Tid, b: nat, k: nat, k2: nat, s: Sys, s': Sys)
    requires Frame(t, b, k, s, s') && k2 <= k
    ensures Frame(t, b, k2, s, s')
  {
  }

  lemma ServedTransitive(t: Tid, h: nat, k: nat, b: nat, x: Sys, y: Sys, z: Sys)
    requires x.Holds(t, h) && y.Holds(t, h) && Served(t, h, k, b, x, y) && Served(t, h, k, b, y, z)
    ensures Served(t, h, k, b, x, z)
  {
    hide Frame, Serving;
    assert b <= k by { FrameBase(t, h, k, b, y); }
    FrameTransitive(t, b, k, x, y, z);
  }

  lemma FrameBase(t: Tid, h: nat, k: nat, b: nat, s: Sys)
    requires Serving(s, t, h, k, b)
    ensures b <= k && s.Holds(t, h) && s.SlotOf(t, h) !in s.unlisted && At(s, t, k)
    ensures s.SlotOf(t, h) < N(s) == |s.pool.state| == |s.attempts| && s.pool.state[s.SlotOf(t, h)] != IDLE
    ensures !HeldBelow(s, t, b, s.SlotOf(t, h))
  {
  }

  lemma FadeCameFrom(t: Tid, s: Sys, s': Sys, c: CellId)
    requires OwnCells(t, s, s')
    ensures FadingBy(s'.cells, c, t) ==> FadingBy(s.cells, c, t)
  {
  }

  lemma FadesNothing(cells: map<CellId, Ptr>, t: Tid)
    ensures NoFade(cells, t) <==> forall c :: !FadingBy(cells, c, t)
  {
    assert forall c :: c in cells && cells[c].Fading? && cells[c].owner == t ==> FadingBy(cells, c, t);
  }

  lemma NoFadeKept(t: Tid, s: Sys, s': Sys)
    requires OwnCells(t, s, s') && NoFade(s.cells, t)
    ensures NoFade(s'.cells, t)
  {
    hide OwnCells, NoFade, FadingBy;
    FadesNothing(s.cells, t);
    FadesNothing(s'.cells, t);
    forall c
      ensures FadingBy(s'.cells, c, t) ==> FadingBy(s.cells, c, t)
    {
      FadeCameFrom(t, s, s', c);
    }
  }

  /** Clearing the thread's only half-reset cell ends all its resets. */
  lemma ResetEnds(cells: map<CellId, Ptr>, t: Tid, c: CellId)
    requires forall d :: FadingBy(cells, d, t) ==> d == c
    ensures NoFade(cells - {c}, t)
  {
    FadesNothing(cells - {c}, t);
    assert forall d :: FadingBy(cells - {c}, d, t) ==> FadingBy(cells, d, t);
  }

  lemma ClearKept(t: Tid, s: Sys, s': Sys, k: nat)
    requires OwnCells(t, s, s') && Clear(s, t, k)
    ensures Clear(s', t, k)
  {
  }

  /** A step of the thread's own on the session it serves, or on no session. */
  lemma OwnStepServes(t: Tid, h: nat, k: nat, b: nat, s: Sys, step: Step)
    requires Serving(s, t, h, k, b) && Enabled(s, step) && step.t == t
    requires (OnPool(step) || OnRecords(step)) && !step.PushBack? && !step.Complete?
    requires forall i :: ActsOn(s, step, i) ==> i == s.SlotOf(t, h)
    ensures Served(t, h, k, b, s, Next(s, step)) && Next(s, step).cells == s.cells
  {
    hide Naming, Covered, Keyed, Conserved, Phases, InFlight, Turns, Unlisted, Pendings, Disconnects, Attempted,
         Listed, Accepts, Sends, Linked, Orphaned;
    hide HeldBelow, Frame;
    FrameBase(t, h, k, b, s);
    var n, i := Next(s, step), s.SlotOf(t, h);
    NextKeeps(s, step);
    QuietStep(s, step);
    OwnStepFrames(t, b, k, s, step);
    StepRises(s, step, i);
    HeldBelowSame(t, b, k, s, n, i);
    OnlyPopUnlists(s, step, i);
    OwnDebtsSame(s, step, {});
  }

  lemma FrameLocals(t: Tid, b: nat, k: nat, s: Sys, s': Sys)
    requires Frame(t, b, k, s, s')
    ensures N(s') == N(s) && forall j :: 0 <= j < k ==> SameCell(s.cells, s'.cells, Local(t, j))
  {
  }

  lemma FadeStays(t: Tid, s: Sys, s': Sys, c: CellId)
    requires OwnCells(t, s, s') && FadingBy(s.cells, c, t)
    ensures FadingBy(s'.cells, c, t)
  {
  }

  /** Half-way through resetting cell c of the session in local h, and resetting nothing else. */
  ghost predicate Resetting(s: Sys, t: Tid, h: nat, k: nat, b: nat, c: CellId) {
    && Inv(s) && Clear(s, t, k) && Owes(s, t, {}) && b <= h < k && s.Holds(t, h)
    && !c.Local? && s.SlotOf(t, h) == c.slot < N(s) && c.slot !in s.unlisted && !HeldBelow(s, t, b, c.slot)
    && s.HasTurn(t, c.Key()) && FadingBy(s.cells, c, t) && forall d :: FadingBy(s.cells, d, t) ==> d == c
  }

  /** The first half of a reset: only the cell changes. */
  lemma SubFrames(t: Tid, h: nat, k: nat, b: nat, s: Sys, c: CellId)
    requires Serving(s, t, h, k, b) && Enabled(s, SubShared(t, c, h)) && c.slot == s.SlotOf(t, h)
    ensures var n := Next(s, SubShared(t, c, h));
            && Frame(t, b, k, s, n) && n.turn == s.turn && n.units == s.units && n.online == s.online
            && Rises(s, n, c.slot) && OtherRecords(t, c.slot, c, s, n) && Resetting(n, t, h, k, b, c)
  {
    hide Naming, Covered, Keyed, Conserved, Phases, InFlight, Turns, Unlisted, Pendings, Disconnects, Attempted,
         Listed, Accepts, Sends, Linked, Orphaned;
    hide Frame, HeldBelow;
    var step := SubShared(t, c, h);
    OwnStepFrames(t, b, k, s, step);
    FrameBase(t, h, k, b, s);
    SharedNamesOwn(s, c);
    var n := Next(s, step);
    NextKeeps(s, step);
    FrameLocals(t, b, k, s, n);
    HeldBelowSame(t, b, k, s, n, c.slot);
    OwnDebtsSame(s, step, {});
    StepRises(s, step, c.slot);
  }

  /** Other threads neither finish the reset nor add to it. */
  lemma RelyResets(t: Tid, h: nat, k: nat, b: nat, s: Sys, s': Sys, c: CellId)
    requires Resetting(s, t, h, k, b, c) && Inv(s') && Rely(t, s, s')
    ensures Resetting(s', t, h, k, b, c) && Frame(t, b, k, s, s') && Rises(s, s', c.slot)
    ensures OtherRecords(t, c.slot, c, s, s') && s'.units[t] == s.units[t]
    ensures s'.Holds(t, h) && s'.SlotOf(t, h) == c.slot && s'.HasTurn(t, c.Key())
    ensures s.HasTurn(t, Disc(c.slot)) ==> (s.Online(c.slot) <==> s'.Online(c.slot))
  {
    hide Inv, OwnCells, HeldSessions, OwnRecords, OwnPending, OwnEntries, OwnDebts, HeldBelow, Frame, Clear, Owes;
    hide FadingBy;
    RelyFrames(t, b, k, s, s');
    RelyKeeps(t, h, s, s');
    ClearKept(t, s, s', k);
    DebtsKept(t, s, s', {});
    UnitsKept(t, s, s');
    FadeStays(t, s, s', c);
    forall d
      ensures FadingBy(s'.cells, d, t) ==> d == c
    {
      FadeCameFrom(t, s, s', d);
    }
    FrameLocals(t, b, k, s, s');
    HeldBelowSame(t, b, k, s, s', c.slot);
  }

  /** The second half: the cell is null and the thread is resetting nothing. */
  lemma NullFrames(t: Tid, h: nat, k: nat, b: nat, s: Sys, c: CellId)
    requires Resetting(s, t, h, k, b, c)
    ensures Inv(s) && Enabled(s, NullShared(t, c)) && s.Holds(t, h) && s.SlotOf(t, h) == c.slot
    ensures var n := Next(s, NullShared(t, c));
            && Served(t, h, k, b, s, n) && n.cells == s.cells - {c} && n.turn == s.turn && n.units == s.units
            && n.online == s.online && OtherRecords(t, c.slot, c, s, n)
  {
    hide Naming, Covered, Keyed, Conserved, Phases, InFlight, Turns, Unlisted, Pendings, Disconnects, Attempted,
         Listed, Accepts, Sends, Linked, Orphaned;
    hide Frame, HeldBelow;
    var step := NullShared(t, c);
    var n := Next(s, step);
    OwnStepFrames(t, b, k, s, step);
    FrameLocals(t, b, k, s, n);
    HeldBelowSame(t, b, k, s, n, c.slot);
    NextKeeps(s, step);
    ResetEnds(s.cells, t, c);
    OwnDebtsSame(s, step, {});
    StepRises(s, step, c.slot);
  }

  /** Only cells and counts differ. */
  ghost predicate OnlyCells(s: Sys, n: Sys) {
    && n.turn == s.turn && n.pool == s.pool && n.unlisted == s.unlisted && n.units == s.units
    && n.inflight == s.inflight && n.duty == s.duty && n.attempts == s.attempts
    && n.online == s.online && N(n) == N(s)
  }

  lemma CellStep(s: Sys, step: Step)
    requires Inv(s) && Enabled(s, step) && (step.CopyPtr? || step.StoreRecord?)
    ensures OnlyCells(s, Next(s, step))
  {
  }

  /** Copying a pointer into the first free local. */
  lemma CopyFrames(t: Tid, k: nat, b: nat, s: Sys, src: CellId)
    requires At(s, t, k) && b <= k && Enabled(s, CopyPtr(t, src, k))
    ensures var n := Next(s, CopyPtr(t, src, k));
            && At(n, t, k + 1) && Frame(t, b, k, s, n) && OnlyCells(s, n)
            && n.cells == s.cells[Local(t, k) := Counted(s.cells[src].h)] && s.cells[src].h.who < N(s)
  {
    hide Naming, Covered, Keyed, Conserved, Phases, InFlight, Turns, Unlisted, Pendings, Disconnects, Attempted,
         Listed, Accepts, Sends, Linked, Orphaned;
    hide HeldBelow, Frame;
    var step := CopyPtr(t, src, k);
    NextKeeps(s, step);
    OwnDebtsSame(s, step, {});
    Bounded(s);
    CellStep(s, step);
    OwnStepFrames(t, b, k, s, step);
  }

  /** Moving the last local into a record of the session served. */
  lemma StoreFrames(t: Tid, h: nat, k: nat, b: nat, s: Sys, c: CellId)
    requires Serving(s, t, h, k + 1, b) && h < k && s.Holds(t, k) && c.IsRecord()
    requires s.SlotOf(t, h) == s.SlotOf(t, k) == c.slot && s.HasTurn(t, c) && c !in s.cells
    ensures Enabled(s, StoreRecord(t, k, c))
    ensures var n := Next(s, StoreRecord(t, k, c));
            && Serving(n, t, h, k, b) && Frame(t, b, k, s, n) && OnlyCells(s, n) && n.SlotOf(t, h) == c.slot
            && Rises(s, n, c.slot) && (Pending(s, c.slot) <==> Pending(n, c.slot))
            && n.turn == s.turn && n.units == s.units
            && n.cells == MovedInto(s, t, k, c)
  {
    hide Naming, Covered, Keyed, Conserved, Phases, InFlight, Turns, Unlisted, Pendings, Disconnects, Attempted,
         Listed, Accepts, Sends, Linked, Orphaned;
    hide HeldBelow, Frame;
    var step := StoreRecord(t, k, c);
    NextKeeps(s, step);
    OwnDebtsSame(s, step, {});
    CellStep(s, step);
    OwnStepFrames(t, b, k, s, step);
    FrameLocals(t, b, k, s, Next(s, step));
    HeldBelowSame(t, b, k, s, Next(s, step), c.slot);
    Bounded(s);
    StepRises(s, step, c.slot);
  }

  lemma FrameReflexive(t: Tid, b: nat, k: nat, s: Sys)
    ensures Frame(t, b, k, s, s)
  {
  }

  /** Copying the table entry of the session served. */
  lemma CopyEntry(t: Tid, h: nat, k: nat, b: nat, s: Sys, i: nat)
    requires Serving(s, t, h, k, b) && i == s.SlotOf(t, h) && Table(i) in s.cells
    ensures Enabled(s, CopyPtr(t, Table(i), k))
    ensures var n := Next(s, CopyPtr(t, Table(i), k));
            && Serving(n, t, h, k + 1, b) && Frame(t, b, k, s, n) && OnlyCells(s, n) && n.SlotOf(t, h) == i
            && Rises(s, n, i) && (Pending(s, i) <==> Pending(n, i)) && n.turn == s.turn && n.units == s.units
            && n.Holds(t, k) && n.SlotOf(t, k) == i && SameCell(s.cells, n.cells, Table(i))
            && (forall c: CellId :: c.IsRecord() ==> SameCell(s.cells, n.cells, c))
  {
    hide Inv, HeldBelow, Frame, NoFade;
    SharedNamesOwn(s, Table(i));
    assert Local(t, k) !in s.cells;
    CopyFrames(t, k, b, s, Table(i));
    FrameLocals(t, b, k, s, Next(s, CopyPtr(t, Table(i), k)));
    HeldBelowSame(t, b, k, s, Next(s, CopyPtr(t, Table(i), k)), i);
    StepRises(s, CopyPtr(t, Table(i), k), i);
  }

  /** The table entry of a listed session is null only after its one disconnect was attempted. */
  lemma NullEntryIsAttempted(s: Sys, i: nat)
    requires Inv(s) && i < |s.pool.state| && s.pool.state[i] != IDLE && i !in s.unlisted
    ensures |s.attempts| == |s.pool.state|
    ensures !Counts(s.cells, Table(i)) ==> s.attempts[i] == 1 && s.pool.state[i] == DISCONNECTING
    ensures s.pool.state[i] == PENDING ==> Counts(s.cells, Table(i))
  {
  }

  /** Handing a record to the kernel, or giving up one that names no session. */
  lemma PostFrames(t: Tid, h: nat, k: nat, b: nat, s: Sys, c: CellId, op: Op)
    requires Serving(s, t, h, k, b) && Suits(c, op) && c.slot == s.SlotOf(t, h) && s.HasTurn(t, c)
    requires if c in s.cells then
               Counts(s.cells, c) && (op.AcceptOp? ==> t in s.units)
               && (op.DisconnectOp? ==> Counts(s.cells, Table(c.slot)))
             else (op.RecvOp? || op.SendOp?) && Table(c.slot) !in s.cells
    requires op.RecvOp? || op.SendOp? ==> s.Online(c.slot)
    ensures var step := if c in s.cells then Post(t, c, op) else PostNull(t, c, op);
            Enabled(s, step) &&
            var n := Next(s, step);
            && Served(t, h, k, b, s, n) && n.cells == s.cells && n.turn == s.turn - {c}
            && (c in s.cells ==> n.inflight == s.inflight[c := op])
            && n.units[t] == s.units[t] - if op.AcceptOp? then 1 else 0
  {
    hide Naming, Covered, Keyed, Conserved, Phases, InFlight, Turns, Unlisted, Pendings, Disconnects, Attempted,
         Listed, Accepts, Sends, Linked, Orphaned;
    hide HeldBelow, Frame, Clear, NoFade;
    var step := if c in s.cells then Post(t, c, op) else PostNull(t, c, op);
    OwnStepServes(t, h, k, b, s, step);
  }

  lemma LostFrames(t: Tid, h: nat, k: nat, b: nat, s: Sys, c: CellId, op: Op)
    requires Serving(s, t, h, k, b) && Suits(c, op) && c.slot == s.SlotOf(t, h) && s.HasTurn(t, c)
    requires Counts(s.cells, c) && Unnoticed(op) && (op.AcceptOp? ==> t in s.units)
    ensures Enabled(s, PostLost(t, c, op))
    ensures var n := Next(s, PostLost(t, c, op));
            && Served(t, h, k, b, s, n) && n.cells == s.cells && n.turn == s.turn - {c}
            && n.units[t] == s.units[t] - if op.AcceptOp? then 1 else 0
  {
    hide Naming, Covered, Keyed, Conserved, Phases, InFlight, Turns, Unlisted, Pendings, Disconnects, Attempted,
         Listed, Accepts, Sends, Linked, Orphaned;
    hide HeldBelow, Frame, Clear, NoFade;
    OwnStepServes(t, h, k, b, s, PostLost(t, c, op));
  }

  /** Whoever has the disconnect record finds the table entry whole or null, never half-way through a reset. */
  lemma EntryCounts(s: Sys, t: Tid, i: nat)
    requires Inv(s) && NoFade(s.cells, t) && s.HasTurn(t, Disc(i))
    ensures Table(i) in s.cells ==> Counts(s.cells, Table(i))
  {
  }

  lemma BeginFrames(t: Tid, h: nat, k: nat, b: nat, s: Sys, c: CellId)
    requires Serving(s, t, h, k, b) && c.IsRecord() && c.slot == s.SlotOf(t, h) && s.HasTurn(t, c)
    requires c.Send? ==> !Pending(s, c.slot)
    ensures Enabled(s, BeginDisconnect(t, h, c))
    ensures var n, i := Next(s, BeginDisconnect(t, h, c)), c.slot;
            && Served(t, h, k, b, s, n) && n.cells == s.cells && n.turn == s.turn && n.units == s.units
            && n.pool.state[i] == DISCONNECTING
            && (if s.pool.state[i] == DISCONNECTING then n == s else i in n.duty && n.duty[i] == t)
  {
    hide Naming, Covered, Keyed, Conserved, Phases, InFlight, Turns, Unlisted, Pendings, Disconnects, Attempted,
         Listed, Accepts, Sends, Linked, Orphaned;
    hide HeldBelow, Frame, Clear, NoFade;
    FrameBase(t, h, k, b, s);
    OwnStepServes(t, h, k, b, s, BeginDisconnect(t, h, c));
  }

  lemma AttemptFrames(t: Tid, h: nat, k: nat, b: nat, s: Sys, i: nat)
    requires Serving(s, t, h, k, b) && i == s.SlotOf(t, h) && i in s.duty && s.duty[i] == t
    ensures Enabled(s, AttemptDisconnect(t, i))
    ensures var n := Next(s, AttemptDisconnect(t, i));
            && Served(t, h, k, b, s, n) && n.cells == s.cells && n.turn == s.turn[Disc(i) := t] && n.units == s.units
            && n.pool == s.pool && 1 <= n.attempts[i]
            && Disc(i) !in s.turn && Disc(i) !in n.cells && Counts(n.cells, Table(i))
  {
    FrameBase(t, h, k, b, s);
    NullEntryIsAttempted(s, i);
    hide Naming, Covered, Keyed, Conserved, Phases, InFlight, Turns, Unlisted, Pendings, Disconnects, Attempted,
         Listed, Accepts, Sends, Linked, Orphaned;
    hide HeldBelow, Frame, Clear, NoFade;
    AttemptState(s, t, i);
    OwnStepServes(t, h, k, b, s, AttemptDisconnect(t, i));
  }

  lemma TakeSendFrames(t: Tid, h: nat, k: nat, b: nat, s: Sys, i: nat)
    requires Serving(s, t, h, k, b) && i == s.SlotOf(t, h) && i < |s.isSending| && !s.isSending[i]
    ensures Enabled(s, TakeSend(t, i))
    ensures var n := Next(s, TakeSend(t, i));
            && Served(t, h, k, b, s, n) && n.cells == s.cells && n.turn == s.turn[Send(i) := t] && n.units == s.units
            && Send(i) !in s.turn && Send(i) !in n.cells
  {
    SendIsFree(s, i);
    hide Naming, Covered, Keyed, Conserved, Phases, InFlight, Turns, Unlisted, Pendings, Disconnects, Attempted,
         Listed, Accepts, Sends, Linked, Orphaned;
    hide HeldBelow, Frame, Clear, NoFade;
    OwnStepServes(t, h, k, b, s, TakeSend(t, i));
  }

  lemma SendIsFree(s: Sys, i: nat)
    requires Inv(s) && i < |s.isSending| && !s.isSending[i]
    ensures Send(i) !in s.turn && Send(i) !in s.cells
  {
  }

  lemma GiveSendFrames(t: Tid, h: nat, k: nat, b: nat, s: Sys, i: nat)
    requires Serving(s, t, h, k, b) && i == s.SlotOf(t, h) && s.HasTurn(t, Send(i)) && Send(i) !in s.cells
    ensures Enabled(s, GiveSend(t, i))
    ensures var n := Next(s, GiveSend(t, i));
            && Served(t, h, k, b, s, n) && n.cells == s.cells && n.turn == s.turn - {Send(i)} && n.units == s.units
            && i < |n.isSending| && !n.isSending[i]
  {
    hide Naming, Covered, Keyed, Conserved, Phases, InFlight, Turns, Unlisted, Pendings, Disconnects, Attempted,
         Listed, Accepts, Sends, Linked, Orphaned;
    hide HeldBelow, Frame, Clear, NoFade;
    OwnStepServes(t, h, k, b, s, GiveSend(t, i));
  }

  lemma ConnectFrames(t: Tid, h: nat, k: nat, b: nat, s: Sys, i: nat)
    requires Serving(s, t, h, k, b) && i == s.SlotOf(t, h) && s.HasTurn(t, Recv(i))
    ensures Enabled(s, Connect(t, h))
    ensures var n := Next(s, Connect(t, h));
            && Served(t, h, k, b, s, n) && n.cells == s.cells && n.turn == s.turn && n.units == s.units
            && n.pool.state[i] != PENDING
  {
    hide Naming, Covered, Keyed, Conserved, Phases, InFlight, Turns, Unlisted, Pendings, Disconnects, Attempted,
         Listed, Accepts, Sends, Linked, Orphaned;
    hide HeldBelow, Frame, Clear, NoFade;
    FrameBase(t, h, k, b, s);
    OwnStepServes(t, h, k, b, s, Connect(t, h));
  }

  /** Looking changes nothing. */
  lemma Looking(s: Sys, t: Tid, what: Sight)
    requires Inv(s) && NoFade(s.cells, t) && Sighted(s, what)
    ensures Enabled(s, Sees(t, what)) && Next(s, Sees(t, what)) == s
  {
    hide Inv;
  }

  // ---- Work that is not on behalf of a session in a local ----

  /** Other threads run while thread t stands between two statements. */
  lemma RelyAt(t: Tid, k: nat, s: Sys, s': Sys, owed: set<nat>)
    requires Stands(s, t, k, owed) && Inv(s') && Rely(t, s, s')
    ensures Stands(s', t, k, owed) && Frame(t, k, k, s, s') && s'.units[t] == s.units[t]
  {
    hide Inv, OwnCells, HeldSessions, OwnRecords, OwnPending, OwnEntries, NoFade, Clear, Frame, Owes;
    RelyFrames(t, k, k, s, s');
    NoFadeKept(t, s, s');
    ClearKept(t, s, s', k);
    DebtsKept(t, s, s', owed);
  }

  /** A session thread t has popped and that no local below k names: pending, its receive record null and the
      thread's. */
  ghost predicate Fresh(s: Sys, t: Tid, k: nat, i: nat) {
    Pending(s, i) && s.HasTurn(t, Recv(i)) && Recv(i) !in s.cells && !HeldBelow(s, t, k, i)
  }

  lemma FreshKept(t: Tid, k: nat, s: Sys, s': Sys, i: nat)
    requires Rely(t, s, s') && Fresh(s, t, k, i)
    ensures Fresh(s', t, k, i) && SameCell(s.cells, s'.cells, Table(i)) && (i in s.unlisted <==> i in s'.unlisted)
    ensures i in s.unlisted ==> s'.unlisted[i] == s.unlisted[i]
    ensures Claims(s, t, i) ==> Claims(s', t, i)
  {
  }

  lemma FreshUnheld(s: Sys, t: Tid, k: nat, i: nat)
    requires Fresh(s, t, k, i)
    ensures !HeldBelow(s, t, k, i) && Pending(s, i)
    ensures s.HasTurn(t, Recv(i)) && Recv(i) !in s.cells
  {
  }

  lemma FreshSame(t: Tid, k: nat, s: Sys, s': Sys, i: nat)
    requires Fresh(s, t, k, i) && Frame(t, k, k, s, s')
    requires s'.pool == s.pool && s'.online == s.online && s'.turn == s.turn
    requires SameCell(s.cells, s'.cells, Recv(i))
    ensures Fresh(s', t, k, i)
  {
  }

  lemma FrameNarrow(t: Tid, k: nat, s: Sys, s': Sys)
    requires Frame(t, k + 1, k + 1, s, s')
    ensures Frame(t, k, k, s, s')
  {
  }

  lemma PopFrames(t: Tid, k: nat, s: Sys, i: nat)
    requires At(s, t, k) && i < |s.pool.state| && s.pool.state[i] == IDLE
    ensures Enabled(s, Pop(t, i))
    ensures var n := Next(s, Pop(t, i));
            && Stands(n, t, k, {i}) && Frame(t, k, k, s, n) && n.units == s.units && Fresh(n, t, k, i)
            && Claims(n, t, i) && i in n.unlisted && n.unlisted[i] == t
  {
    hide Naming, Covered, Keyed, Conserved, Phases, InFlight, Turns, Unlisted, Pendings, Disconnects, Attempted,
         Listed, Accepts, Sends, Linked, Orphaned;
    hide HeldBelow, Frame;
    var n := Next(s, Pop(t, i));
    NotHeldWhenFree(s, t, k, i);
    NextKeeps(s, Pop(t, i));
    PopKeeps(s, t, i);
    OwnStepFrames(t, k, k, s, Pop(t, i));
    FrameLocals(t, k, k, s, n);
    HeldBelowSame(t, k, k, s, n, i);
  }

  lemma NotHeldWhenFree(s: Sys, t: Tid, k: nat, i: nat)
    requires Inv(s) && i < N(s) && s.pool.state[i] == IDLE
    ensures !HeldBelow(s, t, k, i)
  {
  }

  lemma DebtPaid(s: Sys, n: Sys, t: Tid, i: nat)
    requires Owes(s, t, {i}) && n.claimed == s.claimed - {i} && n.dying == s.dying - {i}
    ensures Owes(n, t, {})
  {
  }

  lemma FirstRefFrames(t: Tid, k: nat, s: Sys, i: nat)
    requires Stands(s, t, k, {i}) && Fresh(s, t, k, i) && i in s.unlisted && Claims(s, t, i)
    ensures Enabled(s, FirstRef(t, i, k))
    ensures var n := Next(s, FirstRef(t, i, k));
            && At(n, t, k + 1) && Frame(t, k, k, s, n) && n.units == s.units && Fresh(n, t, k, i)
            && n.Holds(t, k) && n.SlotOf(t, k) == i && n.unlisted == s.unlisted
  {
    hide Naming, Covered, Keyed, Conserved, Phases, InFlight, Turns, Unlisted, Pendings, Disconnects, Attempted,
         Listed, Accepts, Sends, Linked, Orphaned;
    hide HeldBelow, Frame;
    var step := FirstRef(t, i, k);
    assert Local(t, k) !in s.cells;
    var n := Next(s, step);
    NextKeeps(s, step);
    ClaimFacts(s, i);
    DebtPaid(s, n, t, i);
    OwnStepFrames(t, k, k, s, step);
    FrameLocals(t, k, k, s, n);
    HeldBelowSame(t, k, k, s, n, i);
  }

  lemma StoreTableFrames(t: Tid, k: nat, s: Sys, i: nat)
    requires At(s, t, k + 1) && Fresh(s, t, k, i) && i in s.unlisted && s.unlisted[i] == t
    requires s.Holds(t, k) && s.SlotOf(t, k) == i
    ensures Enabled(s, StoreTable(t, k)) && Table(i) !in s.cells
    ensures var n := Next(s, StoreTable(t, k));
            && At(n, t, k) && Frame(t, k, k, s, n) && n.units == s.units && Fresh(n, t, k, i)
            && Counts(n.cells, Table(i)) && n.cells[Table(i)].h.who == i && i !in n.unlisted
  {
    hide Naming, Covered, Keyed, Conserved, Phases, InFlight, Turns, Unlisted, Pendings, Disconnects, Attempted,
         Listed, Accepts, Sends, Linked, Orphaned;
    hide HeldBelow, Frame;
    var step := StoreTable(t, k);
    var n := Next(s, step);
    UnlistedEntryIsEmpty(s, i);
    NextKeeps(s, step);
    OwnDebtsSame(s, step, {});
    OwnStepFrames(t, k, k, s, step);
    FrameLocals(t, k, k, s, n);
    HeldBelowSame(t, k, k, s, n, i);
  }

  /** Taking a pointer to a listed session that the caller does not hold. */
  lemma CopyServes(t: Tid, k: nat, b: nat, s: Sys, src: CellId)
    requires At(s, t, k) && src in s.cells && !src.Local? && (src.IsRecord() ==> s.HasTurn(t, src))
    requires b <= k && !HeldBelow(s, t, b, src.slot)
    ensures Enabled(s, CopyPtr(t, src, k))
    ensures var n := Next(s, CopyPtr(t, src, k));
            && Serving(n, t, k, k + 1, b) && n.SlotOf(t, k) == src.slot && Frame(t, b, k, s, n)
            && n.pool == s.pool && n.online == s.online && n.turn == s.turn && n.units == s.units
            && n.inflight == s.inflight
            && (forall c: CellId :: !c.Local? ==> SameCell(s.cells, n.cells, c))
  {
    hide Inv, HeldBelow, Frame, NoFade;
    assert Local(t, k) !in s.cells;
    SharedNamesOwn(s, src);
    CopyFrames(t, k, b, s, src);
    FrameLocals(t, b, k, s, Next(s, CopyPtr(t, src, k)));
    HeldBelowSame(t, b, k, s, Next(s, CopyPtr(t, src, k)), src.slot);
  }

  lemma DropFrames(t: Tid, k: nat, s: Sys)
    requires At(s, t, k + 1) && s.Holds(t, k)
    ensures Enabled(s, DropLocal(t, k)) && s.SlotOf(t, k) < N(s)
    ensures var n, i := Next(s, DropLocal(t, k)), s.SlotOf(t, k);
            && Stands(n, t, k, if s.count[i] == 1 then {i} else {}) && (s.count[i] == 1 ==> Buries(n, t, i))
            && Frame(t, k, k, s, n) && n.units == s.units && n.turn == s.turn
            && (forall c: CellId :: !c.Local? ==> SameCell(s.cells, n.cells, c))
  {
    hide Naming, Covered, Keyed, Conserved, Phases, InFlight, Turns, Unlisted, Pendings, Disconnects, Attempted,
         Listed, Accepts, Sends, Linked, Orphaned;
    hide HeldBelow, Frame;
    var step := DropLocal(t, k);
    Bounded(s);
    NextKeeps(s, step);
    OwnStepFrames(t, k, k, s, step);
  }

  lemma PushFrames(t: Tid, k: nat, s: Sys, i: nat)
    requires Stands(s, t, k, {i}) && Buries(s, t, i)
    ensures Enabled(s, PushBack(t, i))
    ensures var n := Next(s, PushBack(t, i));
            At(n, t, k) && Frame(t, k, k, s, n) && n.units == s.units && n.cells == s.cells
  {
    hide Naming, Covered, Keyed, Conserved, Phases, InFlight, Turns, Unlisted, Pendings, Disconnects, Attempted,
         Listed, Accepts, Sends, Linked, Orphaned;
    hide HeldBelow, Frame;
    var step := PushBack(t, i);
    Bounded(s);
    NotHeldWhenDying(s, t, k, i);
    NextKeeps(s, step);
    DyingIsUnclaimed(s, i);
    DebtPaid(s, Next(s, step), t, i);
    OwnStepFrames(t, k, k, s, step);
  }

  lemma DyingIsUnclaimed(s: Sys, i: nat)
    requires Inv(s) && i in s.dying
    ensures i !in s.claimed
  {
  }

  lemma NotHeldWhenDying(s: Sys, t: Tid, k: nat, i: nat)
    requires Inv(s) && i in s.dying
    ensures !HeldBelow(s, t, k, i)
  {
    hide Inv;
    DyingIsUnnamed(s, i);
  }

  lemma UnitFrames(t: Tid, k: nat, s: Sys, step: Step)
    requires At(s, t, k) && (step == TakeUnit(t) || step == SettleUnit(t)) && Enabled(s, step)
    ensures var n := Next(s, step);
            && At(n, t, k) && Frame(t, k, k, s, n) && OnlyUnits(s, n)
            && n.units[t] == s.units[t] + if step.TakeUnit? then 1 else -1
  {
    hide Naming, Covered, Keyed, Conserved, Phases, InFlight, Turns, Unlisted, Pendings, Disconnects, Attempted,
         Listed, Accepts, Sends, Linked, Orphaned;
    hide HeldBelow, Frame;
    NextKeeps(s, step);
    OwnDebtsSame(s, step, {});
    OwnStepFrames(t, k, k, s, step);
  }

  ghost predicate OnlyUnits(s: Sys, n: Sys) {
    n == s.(units := n.units, pendingAccepts := n.pendingAccepts)
  }

  lemma InFlightSuits(s: Sys, c: CellId)
    requires Inv(s) && c in s.inflight
    ensures Suits(c, s.inflight[c]) && Counts(s.cells, c) && s.cells[c].h.who == c.slot
  {
  }

  /** A completion gives the record to the thread that dequeued it. */
  lemma CompleteFrames(t: Tid, s: Sys, c: CellId)
    requires At(s, t, 0) && c in s.inflight
    ensures Enabled(s, Complete(t, c))
    ensures var n := Next(s, Complete(t, c));
            && At(n, t, 0) && n.HasTurn(t, c) && c.IsRecord() && Counts(n.cells, c) && Suits(c, s.inflight[c])
            && n.online == s.online && (c.Send? ==> !Pending(n, c.slot))
            && n.units[t] == s.units[t] + if s.inflight[c].AcceptOp? then 1 else 0
  {
    hide Inv, Enabled, Next, NoFade;
    InFlightSuits(s, c);
    CompleteEffect(s, t, c);
    NextKeeps(s, Complete(t, c));
    QuietStep(s, Complete(t, c));
    OwnDebtsSame(s, Complete(t, c), {});
  }

  lemma CompleteEffect(s: Sys, t: Tid, c: CellId)
    requires Inv(s) && NoFade(s.cells, t) && c in s.inflight
    ensures Enabled(s, Complete(t, c))
    ensures var n := Next(s, Complete(t, c));
            && n.turn == s.turn[c := t] && n.online == s.online && (c.Send? ==> !Pending(n, c.slot))
            && n.units == if s.inflight[c].AcceptOp? then s.units + multiset{t} else s.units
  {
  }

  lemma RecordKept(t: Tid, s: Sys, s': Sys, c: CellId)
    requires Rely(t, s, s') && s.HasTurn(t, c) && c.IsRecord() && c in s.cells
    ensures s'.HasTurn(t, c) && SameCell(s.cells, s'.cells, c) && (!Pending(s, c.slot) ==> !Pending(s', c.slot))
    ensures c.Disc? ==> (s.Online(c.slot) <==> s'.Online(c.slot))
  {
    assert Anchored(s, t, c);
  }

  /** Work that respects the frame of locals below h + 1 leaves the session in local h as it was. */
  lemma FrameServes(t: Tid, h: nat, s: Sys, s': Sys, c: CellId)
    requires Serving(s, t, h, h + 1, 0) && At(s', t, h + 1) && Frame(t, h + 1, h + 1, s, s')
    requires c.IsRecord() && c.slot == s.SlotOf(t, h) && s.HasTurn(t, c)
    ensures Serving(s', t, h, h + 1, 0) && s'.SlotOf(t, h) == c.slot
    ensures s'.HasTurn(t, c) && SameCell(s.cells, s'.cells, c)
  {
    hide Inv, NoFade, Clear;
    assert SameCell(s.cells, s'.cells, Local(t, h));
    assert s.cells[Local(t, h)].h.who == c.slot;
    assert HeldBelow(s, t, h + 1, c.slot);
  }

  lemma DebtKept(t: Tid, s: Sys, s': Sys, i: nat)
    requires Rely(t, s, s') && Buries(s, t, i)
    ensures Buries(s', t, i)
  {
  }

  lemma SettleServes(t: Tid, h: nat, k: nat, b: nat, s: Sys)
    requires Serving(s, t, h, k, b) && t in s.units
    ensures Enabled(s, SettleUnit(t))
    ensures var n := Next(s, SettleUnit(t));
            Served(t, h, k, b, s, n) && OnlyUnits(s, n) && n.units[t] == s.units[t] - 1
  {
    hide Naming, Covered, Keyed, Conserved, Phases, InFlight, Turns, Unlisted, Pendings, Disconnects, Attempted,
         Listed, Accepts, Sends, Linked, Orphaned;
    hide HeldBelow, Frame, Clear, NoFade;
    OwnStepServes(t, h, k, b, s, SettleUnit(t));
  }

  lemma NothingBelow(s: Sys, t: Tid, i: nat)
    ensures !HeldBelow(s, t, 0, i)
  {
  }

  lemma StateBounds(s: Sys, i: nat)
    requires Inv(s) && i < N(s)
    ensures |s.pool.state| == |s.attempts| == N(s)
    ensures s.pool.state[i] <= DISCONNECTING && (s.pool.state[i] != IDLE ==> s.attempts[i] <= 1)
  {
  }
}
