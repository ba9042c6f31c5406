/** What one step of the machine changes, and what it leaves alone. */
module LifecycleSteps {
  import opened Handles
  import opened SparseSets
  import opened Lifecycle
  import opened LifecycleInvariant

  lemma Bounded(s: Sys)
    requires Inv(s)
    ensures forall c :: c in s.cells ==> s.cells[c].h.who < N(s) && s.pool.state[s.cells[c].h.who] != IDLE
    ensures forall i :: i in s.dying ==> i < N(s) && s.pool.state[i] != IDLE
    ensures forall i :: i in s.claimed ==> i < N(s)
    ensures forall i :: i in s.duty ==> i < N(s) && s.pool.state[i] != IDLE
    ensures forall c :: c in s.turn ==> c.slot < N(s)
  {
  }

  lemma ShapeOf(s: Sys)
    requires Inv(s)
    ensures Shape(s)
  {
  }

  lemma StepSize(s: Sys, step: Step)
    requires Inv(s) && Enabled(s, step)
    ensures N(Next(s, step)) == N(s)
  {
    hide Naming, Covered, Keyed, Conserved, Phases, InFlight, Turns, Unlisted, Pendings, Disconnects, Attempted,
         Listed, Accepts, Sends, Linked, Orphaned;
    Bounded(s);
  }

  lemma PoolSame(s: Sys, step: Step)
    requires Inv(s) && Enabled(s, step)
    requires !step.Pop? && !step.PushBack? && !step.Connect? && !step.BeginDisconnect? && !step.AttemptDisconnect?
    ensures Next(s, step).pool == s.pool && Next(s, step).attempts == s.attempts
  {
  }

  /** The step changes in whose hands the record is. */
  ghost predicate Passes(step: Step, c: CellId) {
    match step
    case Pop(t, i) => c == Recv(i) || c == Send(i) || c == Disc(i)
    case AttemptDisconnect(t, i) => c == Disc(i)
    case Post(t, d, op) => c == d
    case PostNull(t, d, op) => c == d
    case PostLost(t, d, op) => c == d
    case Complete(t, d) => c == d
    case TakeSend(t, i) => c == Send(i)
    case GiveSend(t, i) => c == Send(i)
    case _ => false
  }

  lemma TurnSame(s: Sys, step: Step, t: Tid, c: CellId)
    requires Inv(s) && Enabled(s, step) && !Passes(step, c)
    ensures Next(s, step).HasTurn(t, c) <==> s.HasTurn(t, c)
  {
    hide Inv, Enabled;
  }

  ghost predicate SameCell(a: map<CellId, Ptr>, b: map<CellId, Ptr>, c: CellId) {
    (c in a <==> c in b) && (c in a ==> a[c] == b[c])
  }

  /** The cells a step writes. */
  ghost predicate Touches(s: Sys, step: Step, c: CellId)
    requires Enabled(s, step)
  {
    match step
    case FirstRef(t, i, k) => c == Local(t, k)
    case CopyPtr(t, src, k) => c == Local(t, k)
    case StoreTable(t, k) => c == Local(t, k) || c == Table(s.SlotOf(t, k))
    case StoreRecord(t, k, d) => c == Local(t, k) || c == d
    case DropLocal(t, k) => c == Local(t, k)
    case SubShared(t, d, k) => c == d
    case NullShared(t, d) => c == d
    case _ => false
  }

  /** Steps on the pool's states and on records and counters; neither kind changes a pointer. */
  ghost predicate OnPool(step: Step) {
    step.PushBack? || step.Connect? || step.BeginDisconnect? || step.AttemptDisconnect?
  }

  ghost predicate OnRecords(step: Step) {
    step.Post? || step.PostNull? || step.PostLost? || step.Complete? || OnFlags(step)
  }

  ghost predicate OnFlags(step: Step) {
    || step.TakeSend? || step.GiveSend? || step.TakeUnit? || step.SettleUnit?
    || step.Establish? || step.Hangup? || step.Sees?
  }

  lemma QuietStep(s: Sys, step: Step)
    requires Inv(s) && Enabled(s, step) && (OnPool(step) || OnRecords(step))
    ensures Next(s, step).cells == s.cells
  {
    hide Inv, Enabled;
    hide DoPop, DoFirstRef, DoCopyPtr, DoStoreTable, DoStoreRecord, DoDropLocal, DoSubShared, DoNullShared,
         DoPushBack, DoConnect, DoBeginDisconnect, DoAttemptDisconnect, DoPost, DoPostNull, DoPostLost, DoComplete,
         DoEstablish, DoHangup, DoTakeSend, DoGiveSend, DoTakeUnit, DoSettleUnit;
  }

  lemma CellKept(s: Sys, step: Step, c: CellId)
    requires Inv(s) && Enabled(s, step) && !Touches(s, step, c) && !step.Pop? && !OnPool(step) && !OnRecords(step)
    ensures SameCell(s.cells, Next(s, step).cells, c)
  {
    hide Inv, Enabled;
  }

  lemma PopTouchesNothing(s: Sys, step: Step)
    requires Inv(s) && Enabled(s, step) && step.Pop?
    ensures Next(s, step).cells == s.cells
  {
    hide Inv;
    PopKeeps(s, step.t, step.i);
  }

  lemma CellUntouched(s: Sys, step: Step, c: CellId)
    requires Inv(s) && Enabled(s, step) && !Touches(s, step, c)
    ensures SameCell(s.cells, Next(s, step).cells, c)
  {
    hide Inv, Next, Enabled, OnPool, OnRecords;
    if step.Pop? {
      PopTouchesNothing(s, step);
    } else if OnPool(step) || OnRecords(step) {
      QuietStep(s, step);
    } else {
      CellKept(s, step, c);
    }
  }

  /** A half-done reset belongs to the thread that has the cell's key. */
  lemma ResetterHasKey(s: Sys, c: CellId)
    requires Inv(s) && c in s.cells && s.cells[c].Fading?
    ensures !c.Local? && s.HasTurn(s.cells[c].owner, c.Key())
  {
  }
}
