/** Whole runs of the session pool: any number of threads, any interleaving of their atomic steps. */
module LifecycleRuns {
  import opened Handles
  import opened SparseSets
  import opened Lifecycle
  import opened LifecycleInvariant
  import opened LifecycleSteps

  /** All slots free, no pointer, nothing posted. */
  ghost function Start(n: uint32): Sys {
    Sys(View(seq(n, _ => IDLE), seq(n, _ => 0)), seq(n, _ => 0), map[], map[], map[], map[], map[], {}, map[],
        map[], seq(n, _ => 0), seq(n, _ => false), seq(n, _ => false), 0, multiset{}, 0)
  }

  ghost function Init(n: uint32): (s: Sys)
    ensures Inv(s) && N(s) == n
  {
    StartKeeps(n);
    Start(n)
  }

  lemma StartKeeps(n: uint32)
    ensures Inv(Start(n)) && N(Start(n)) == n
  {
  }

  /** `steps`, taken by whichever threads they name, lead from s to s'. */
  ghost predicate Runs(s: Sys, steps: seq<Step>, s': Sys)
    requires Inv(s)
    decreases |steps|
  {
    if steps == [] then s' == s
    else
      Enabled(s, steps[0]) && (NextKeeps(s, steps[0]); Runs(Next(s, steps[0]), steps[1..], s'))
  }

  lemma {:induction false} RunKeeps(s: Sys, steps: seq<Step>, s': Sys)
    requires Inv(s) && Runs(s, steps, s')
    ensures Inv(s') && N(s') == N(s)
    decreases |steps|
  {
    hide Naming, Covered, Keyed, Conserved, Phases, InFlight, Turns, Unlisted, Pendings, Disconnects, Attempted,
         Listed, Accepts, Sends, Linked, Orphaned;
    if steps == [] {
    } else {
      NextKeeps(s, steps[0]);
      StepSize(s, steps[0]);
      RunKeeps(Next(s, steps[0]), steps[1..], s');
    }
  }

  /** The headline guarantees, for every reachable state. */
  lemma ReachableIsSafe(n: uint32, steps: seq<Step>, s: Sys)
    requires Runs(Init(n), steps, s)
    // each count is the number of pointers counting towards the slot
    ensures Shape(s) && N(s) == n
    ensures forall i :: 0 <= i < n ==> s.count[i] == |CountedAt(s.cells, i)|
    // every non-null pointer anywhere names a slot in use, under that slot's current generation
    ensures forall c :: c in s.cells ==>
              && s.cells[c].h.who < n && s.pool.state[s.cells[c].h.who] != IDLE
              && s.cells[c].h.generation == s.pool.generation[s.cells[c].h.who]
    // a free slot's records and table entry are null, and the kernel owns none of its records
    ensures forall i :: 0 <= i < n && s.pool.state[i] == IDLE ==>
              && Table(i) !in s.cells && Recv(i) !in s.cells && Send(i) !in s.cells && Disc(i) !in s.cells
              && Recv(i) !in s.inflight && Send(i) !in s.inflight && Disc(i) !in s.inflight
    // a slot in use that is neither claimed nor dying is named by a counted pointer
    ensures forall i :: 0 <= i < n && s.pool.state[i] != IDLE && i !in s.claimed && i !in s.dying ==>
              exists c :: c in s.cells && s.cells[c] == Counted(Ref(i, s.pool.generation[i]))
    // a connected session is in the manager's table under its current generation
    ensures forall i :: 0 <= i < n && s.pool.state[i] == CONNECTED ==>
              Table(i) in s.cells && s.cells[Table(i)] == Counted(Ref(i, s.pool.generation[i]))
    // the accept counter is exact, counting failures nobody noticed, and stays within its limit
    ensures s.pendingAccepts == |s.units| + |AcceptsInFlight(s.inflight)| + s.lost
    ensures 0 <= s.pendingAccepts <= MAX_ACCEPT
  {
    RunKeeps(Init(n), steps, s);
    Headlines(s);
    forall i | 0 <= i < n && s.pool.state[i] != IDLE && i !in s.claimed && i !in s.dying
      ensures exists c :: c in s.cells && s.cells[c] == Counted(Ref(i, s.pool.generation[i]))
    {
      LiveIsNamed(s, i);
    }
  }

  /** Nothing leaks: a slot stays in use only while it is pointed to, or while a thread owes its first reference or
      its push. */
  lemma LiveIsNamed(s: Sys, i: nat)
    requires Inv(s) && i < N(s) && s.pool.state[i] != IDLE && i !in s.claimed && i !in s.dying
    ensures exists c :: c in s.cells && s.cells[c] == Counted(Ref(i, s.pool.generation[i]))
  {
    assert CountedAt(s.cells, i) != {};
    var c :| c in CountedAt(s.cells, i);
  }

  lemma Headlines(s: Sys)
    requires Inv(s)
    ensures forall i :: 0 <= i < N(s) && s.pool.state[i] == IDLE ==>
              && Table(i) !in s.cells && Recv(i) !in s.cells && Send(i) !in s.cells && Disc(i) !in s.cells
              && Recv(i) !in s.inflight && Send(i) !in s.inflight && Disc(i) !in s.inflight
    ensures forall i :: 0 <= i < N(s) && s.pool.state[i] == CONNECTED ==>
              Table(i) in s.cells && s.cells[Table(i)] == Counted(Ref(i, s.pool.generation[i]))
  {
    hide Covered, Keyed, Conserved, Phases, Turns, Unlisted, Pendings, Attempted, Accepts, Sends, Linked, Orphaned;
  }

  // ---- One slot through a run ----

  datatype Kind = Popped | Pushed | Tried

  ghost predicate Is(step: Step, kind: Kind, i: nat) {
    match kind
    case Popped => step.Pop? && step.i == i
    case Pushed => step.PushBack? && step.i == i
    case Tried => step.AttemptDisconnect? && step.i == i
  }

  ghost function CountOf(steps: seq<Step>, kind: Kind, i: nat): nat {
    if steps == [] then 0 else (if Is(steps[0], kind, i) then 1 else 0) + CountOf(steps[1..], kind, i)
  }

  ghost function Busy(s: Sys, i: nat): int
    requires Shape(s) && i < N(s)
  {
    if s.pool.state[i] == IDLE then 0 else 1
  }

  /** A receive or send is posted null only for a session whose one disconnect was attempted and failed: the socket is
      still connected, and the disconnect record, which nobody will post again, still names the session. */
  lemma NullPostAfterDisconnect(s: Sys, t: Tid, c: CellId, op: Op)
    requires Inv(s) && Enabled(s, PostNull(t, c, op))
    ensures c.IsRecord() && (op.RecvOp? || op.SendOp?) && c.slot < N(s) == |s.attempts| == |s.pool.state|
    ensures s.attempts[c.slot] == 1 && s.pool.state[c.slot] == DISCONNECTING
    ensures Counts(s.cells, Disc(c.slot)) && Disc(c.slot) !in s.inflight
  {
  }

  /** All a single step can do to one slot's state, generation and disconnect attempts. */
  ghost predicate OnSlot(s: Sys, n: Sys, step: Step, i: nat)
    requires Shape(s) && Shape(n) && i < N(s) == N(n)
  {
    && Busy(n, i) == Busy(s, i) + (if Is(step, Popped, i) then 1 else 0) - (if Is(step, Pushed, i) then 1 else 0)
    && n.pool.generation[i] ==
       (if Is(step, Pushed, i) then NextGeneration(s.pool.generation[i]) else s.pool.generation[i])
    && (Is(step, Popped, i) ==> n.pool.state[i] == PENDING && n.attempts[i] == 0)
    && (!Is(step, Popped, i) && !Is(step, Pushed, i) ==>
          && s.pool.state[i] <= n.pool.state[i]
          && n.attempts[i] == s.attempts[i] + if Is(step, Tried, i) then 1 else 0)
  }

  lemma RecycleOnSlot(s: Sys, step: Step, i: nat)
    requires Inv(s) && Enabled(s, step) && Shape(s) && i < N(s)
    requires step.Pop? || step.PushBack? || step.AttemptDisconnect?
    ensures Shape(Next(s, step)) && N(Next(s, step)) == N(s) && OnSlot(s, Next(s, step), step, i)
  {
    hide Inv;
    Bounded(s);
    NextKeeps(s, step);
    ShapeOf(Next(s, step));
  }

  lemma RaiseOnSlot(s: Sys, step: Step, i: nat)
    requires Inv(s) && Enabled(s, step) && Shape(s) && i < N(s)
    requires step.Connect? || step.BeginDisconnect?
    ensures Shape(Next(s, step)) && N(Next(s, step)) == N(s) && OnSlot(s, Next(s, step), step, i)
  {
    hide Inv;
    Bounded(s);
    NextKeeps(s, step);
    ShapeOf(Next(s, step));
  }

  lemma StepOnSlot(s: Sys, step: Step, i: nat)
    requires Inv(s) && Enabled(s, step) && i < N(s)
    ensures Shape(s) && Shape(Next(s, step)) && N(Next(s, step)) == N(s) && OnSlot(s, Next(s, step), step, i)
  {
    hide Inv, Next, Enabled;
    ShapeOf(s);
    if step.Pop? || step.PushBack? || step.AttemptDisconnect? {
      RecycleOnSlot(s, step, i);
    } else if step.Connect? || step.BeginDisconnect? {
      RaiseOnSlot(s, step, i);
    } else {
      NextKeeps(s, step);
      ShapeOf(Next(s, step));
      StepSize(s, step);
      PoolSame(s, step);
    }
  }

  /** Claims and pushes of a slot alternate, starting with a claim: no slot is pushed twice, and none is claimed
      while it is in use. */
  lemma {:induction false} ClaimsAlternate(s: Sys, steps: seq<Step>, s': Sys, i: nat)
    requires Inv(s) && Runs(s, steps, s') && i < N(s)
    ensures Inv(s') && N(s') == N(s)
    ensures Busy(s', i) == Busy(s, i) + CountOf(steps, Popped, i) - CountOf(steps, Pushed, i)
    decreases |steps|
  {
    hide Naming, Covered, Keyed, Conserved, Phases, InFlight, Turns, Unlisted, Pendings, Disconnects, Attempted,
         Listed, Accepts, Sends, Linked, Orphaned;
    RunKeeps(s, steps, s');
    if steps == [] {
    } else {
      NextKeeps(s, steps[0]);
      StepOnSlot(s, steps[0], i);
      ClaimsAlternate(Next(s, steps[0]), steps[1..], s', i);
    }
  }

  lemma StepGeneration(s: Sys, step: Step, i: nat)
    requires Inv(s) && Enabled(s, step) && i < N(s)
    ensures |s.pool.generation| == N(s) == N(Next(s, step)) == |Next(s, step).pool.generation|
    ensures Next(s, step).pool.generation[i] ==
              if Is(step, Pushed, i) then NextGeneration(s.pool.generation[i]) else s.pool.generation[i]
  {
    hide Inv, Enabled, Next, NextGeneration;
    StepOnSlot(s, step, i);
  }

  /** The generation of a slot counts its pushes, modulo 2^32. */
  lemma {:induction false} GenerationCountsPushes(s: Sys, steps: seq<Step>, s': Sys, i: nat)
    requires Inv(s) && Runs(s, steps, s') && i < N(s)
    ensures Inv(s') && N(s') == N(s)
    ensures s'.pool.generation[i] == Later(s.pool.generation[i], CountOf(steps, Pushed, i))
    decreases |steps|
  {
    hide Inv, Next, Enabled, Later, NextGeneration, Is;
    RunKeeps(s, steps, s');
    ShapeOf(s);
    ShapeOf(s');
    if steps == [] {
      LaterNow(s.pool.generation[i]);
    } else {
      NextKeeps(s, steps[0]);
      StepGeneration(s, steps[0], i);
      GenerationCountsPushes(Next(s, steps[0]), steps[1..], s', i);
      LaterNext(s.pool.generation[i], CountOf(steps[1..], Pushed, i));
    }
  }

  /** So over any run from the start it is the number of pushes modulo 2^32. */
  lemma GenerationFromStart(n: uint32, steps: seq<Step>, s: Sys, i: nat)
    requires Runs(Init(n), steps, s) && i < n
    ensures i < |s.pool.generation| && s.pool.generation[i] == CountOf(steps, Pushed, i) % 0x1_0000_0000
  {
    hide Runs;
    GenerationCountsPushes(Init(n), steps, s, i);
    ShapeOf(s);
  }

  // ---- The send flag and the socket of one slot through a run ----

  ghost function FlagOf(s: Sys, i: nat): int
    requires i < |s.isSending|
  {
    if s.isSending[i] then 1 else 0
  }

  /** Sends taken and not given back since the slot was last claimed, if there were `before` of them at the start. */
  ghost function SendsOpen(steps: seq<Step>, i: nat, before: int): int
    decreases |steps|
  {
    if steps == [] then before
    else SendsOpen(steps[1..], i, OpenAfter(steps[0], i, before))
  }

  ghost function OpenAfter(step: Step, i: nat, before: int): int {
    if step.Pop? && step.i == i then 0
    else if step.TakeSend? && step.i == i then before + 1
    else if step.GiveSend? && step.i == i then before - 1
    else before
  }

  /** Whether the slot's socket is connected: since the last accept, disconnect or claim. */
  ghost function LinkedAfter(steps: seq<Step>, i: nat, before: bool): bool
    decreases |steps|
  {
    if steps == [] then before
    else LinkedAfter(steps[1..], i, LinkAfter(steps[0], i, before))
  }

  ghost function LinkAfter(step: Step, i: nat, before: bool): bool {
    if (step.Pop? || step.Hangup?) && step.i == i then false
    else if step.Establish? && step.i == i then true
    else before
  }

  lemma GiveSendIsSet(s: Sys, step: Step)
    requires Inv(s) && Enabled(s, step) && step.GiveSend?
    ensures step.i < |s.isSending| && s.isSending[step.i]
  {
  }

  lemma StepFlag(s: Sys, step: Step, i: nat)
    requires Inv(s) && Enabled(s, step) && i < N(s)
    ensures |s.isSending| == |Next(s, step).isSending| == N(s)
    ensures FlagOf(Next(s, step), i) == OpenAfter(step, i, FlagOf(s, i))
  {
    hide Inv;
    ShapeOf(s);
    if step.Pop? || step.TakeSend? {
    } else if step.GiveSend? {
      GiveSendIsSet(s, step);
    } else {
      hide Enabled;
      FlagSame(s, step);
    }
  }

  lemma FlagSame(s: Sys, step: Step)
    requires Inv(s) && Enabled(s, step) && !step.Pop? && !step.TakeSend? && !step.GiveSend?
    ensures Next(s, step).isSending == s.isSending
  {
    hide Inv, Enabled;
  }

  /** The send flag is set exactly while one send taken since the slot was claimed is not given back, in any run. */
  lemma {:induction false} FlagCountsSends(s: Sys, steps: seq<Step>, s': Sys, i: nat)
    requires Inv(s) && Runs(s, steps, s') && i < N(s)
    ensures N(s) == |s.isSending| == |s'.isSending|
    ensures FlagOf(s', i) == SendsOpen(steps, i, FlagOf(s, i))
    decreases |steps|
  {
    hide Inv, Next, Enabled, OpenAfter;
    ShapeOf(s);
    if steps == [] {
    } else {
      NextKeeps(s, steps[0]);
      StepSize(s, steps[0]);
      StepFlag(s, steps[0], i);
      FlagCountsSends(Next(s, steps[0]), steps[1..], s', i);
    }
  }

  /** Units taken minus units given back. */
  ghost function UnitsTaken(steps: seq<Step>): int
    decreases |steps|
  {
    if steps == [] then 0 else UnitStep(steps[0]) + UnitsTaken(steps[1..])
  }

  ghost function UnitStep(step: Step): int {
    if step.TakeUnit? then 1 else if step.SettleUnit? then -1 else 0
  }

  lemma StepCounter(s: Sys, step: Step)
    requires Inv(s) && Enabled(s, step)
    ensures Next(s, step).pendingAccepts == s.pendingAccepts + UnitStep(step)
  {
    hide Inv, Enabled;
  }

  /** The accept counter moves only when a unit is taken or given back, in any run: neither posting an accept, nor its
      completion, nor a failure nobody noticed changes it. */
  lemma {:induction false} CounterCountsUnits(s: Sys, steps: seq<Step>, s': Sys)
    requires Inv(s) && Runs(s, steps, s')
    ensures s'.pendingAccepts == s.pendingAccepts + UnitsTaken(steps)
    decreases |steps|
  {
    hide Inv, Next, Enabled, UnitStep;
    if steps == [] {
    } else {
      NextKeeps(s, steps[0]);
      StepCounter(s, steps[0]);
      CounterCountsUnits(Next(s, steps[0]), steps[1..], s');
    }
  }

  lemma StepLink(s: Sys, step: Step, i: nat)
    requires Inv(s) && Enabled(s, step) && i < N(s)
    ensures Next(s, step).Online(i) == LinkAfter(step, i, s.Online(i))
  {
    hide Inv;
    ShapeOf(s);
    if step.Pop? || step.Establish? || step.Hangup? {
    } else {
      hide Enabled;
      LinkSame(s, step);
    }
  }

  lemma LinkSame(s: Sys, step: Step)
    requires Inv(s) && Enabled(s, step) && !step.Pop? && !step.Establish? && !step.Hangup?
    ensures Next(s, step).online == s.online
  {
    hide Inv, Enabled;
  }

  /** A socket is connected exactly from the kernel's accept to the success of a disconnect, in any run. */
  lemma {:induction false} SocketFollowsKernel(s: Sys, steps: seq<Step>, s': Sys, i: nat)
    requires Inv(s) && Runs(s, steps, s') && i < N(s)
    ensures s'.Online(i) == LinkedAfter(steps, i, s.Online(i))
    decreases |steps|
  {
    hide Inv, Next, Enabled, LinkAfter;
    if steps == [] {
    } else {
      NextKeeps(s, steps[0]);
      StepSize(s, steps[0]);
      StepLink(s, steps[0], i);
      SocketFollowsKernel(Next(s, steps[0]), steps[1..], s', i);
    }
  }

  /** Within one incarnation the state never falls, whatever the threads do; it falls only by the final push. */
  lemma {:induction false} StateOnlyRises(s: Sys, steps: seq<Step>, s': Sys, i: nat)
    requires Inv(s) && Runs(s, steps, s') && i < N(s)
    requires s.pool.state[i] != IDLE && CountOf(steps, Pushed, i) == 0
    ensures Inv(s') && N(s') == N(s)
    ensures IDLE < s.pool.state[i] <= s'.pool.state[i]
    ensures s'.attempts[i] == s.attempts[i] + CountOf(steps, Tried, i)
    decreases |steps|
  {
    hide Naming, Covered, Keyed, Conserved, Phases, InFlight, Turns, Unlisted, Pendings, Disconnects, Attempted,
         Listed, Accepts, Sends, Linked, Orphaned;
    RunKeeps(s, steps, s');
    if steps == [] {
    } else {
      NextKeeps(s, steps[0]);
      StepOnSlot(s, steps[0], i);
      StateOnlyRises(Next(s, steps[0]), steps[1..], s', i);
    }
  }

  /** However many threads ask for it, one incarnation attempts at most one disconnect, and an incarnation that
      attempted one is in the disconnecting state. */
  lemma AtMostOneDisconnect(s: Sys, steps: seq<Step>, s': Sys, i: nat)
    requires Inv(s) && Runs(s, steps, s') && i < N(s)
    requires s.pool.state[i] != IDLE && CountOf(steps, Pushed, i) == 0
    ensures s.attempts[i] + CountOf(steps, Tried, i) <= 1
    ensures Shape(s') && N(s') == N(s)
    ensures s.attempts[i] + CountOf(steps, Tried, i) == 1 ==> s'.pool.state[i] == DISCONNECTING
  {
    StateOnlyRises(s, steps, s', i);
    AttemptsBounded(s', i);
  }

  lemma AttemptsBounded(s: Sys, i: nat)
    requires Inv(s) && i < N(s) && s.pool.state[i] != IDLE
    ensures s.attempts[i] <= 1 && (s.attempts[i] == 1 ==> s.pool.state[i] == DISCONNECTING)
  {
  }

  /** Only its completion takes a record away from the kernel; until then the record's pointer does not change. */
  lemma RecordStays(s: Sys, step: Step, c: CellId)
    requires Inv(s) && Enabled(s, step) && c in s.inflight && !(step.Complete? && step.c == c)
    ensures var n := Next(s, step); c in n.inflight && n.inflight[c] == s.inflight[c]
    ensures var n := Next(s, step); c in s.cells && c in n.cells && n.cells[c] == s.cells[c]
  {
    hide Inv, Enabled, Next, Touches;
    InFlightFacts(s, c);
    InFlightTouchedByNobody(s, step, c);
    CellUntouched(s, step, c);
    StillInFlight(s, step, c);
  }

  lemma InFlightTouchedByNobody(s: Sys, step: Step, c: CellId)
    requires Inv(s) && Enabled(s, step) && c in s.inflight
    ensures !Touches(s, step, c)
  {
    hide Inv;
    InFlightFacts(s, c);
    if step.NullShared? {
      ResetterHasKey(s, step.c);
    }
  }

  lemma InFlightSame(s: Sys, step: Step, c: CellId)
    requires Inv(s) && Enabled(s, step) && !step.Post? && !step.Complete? && c in s.inflight
    ensures c in Next(s, step).inflight && Next(s, step).inflight[c] == s.inflight[c]
  {
    hide Inv, Enabled;
  }

  lemma StillInFlight(s: Sys, step: Step, c: CellId)
    requires Inv(s) && Enabled(s, step) && c in s.inflight && c !in s.turn && !(step.Complete? && step.c == c)
    ensures var n := Next(s, step); c in n.inflight && n.inflight[c] == s.inflight[c]
  {
    hide Inv;
    if step.Post? || step.Complete? {
    } else {
      hide Next, Enabled;
      InFlightSame(s, step, c);
    }
  }

  /** In-flight protection: from posting to completion, over any run, the record keeps naming its session and the
      session's slot is not pushed. */
  lemma {:induction false} InFlightProtects(s: Sys, steps: seq<Step>, s': Sys, c: CellId)
    requires Inv(s) && Runs(s, steps, s') && c in s.inflight
    requires forall k :: 0 <= k < |steps| ==> !(steps[k].Complete? && steps[k].c == c)
    ensures c in s'.inflight && c in s.cells && c in s'.cells && s'.cells[c] == s.cells[c]
    ensures CountOf(steps, Pushed, c.slot) == 0
    decreases |steps|
  {
    hide Naming, Covered, Keyed, Conserved, Phases, InFlight, Turns, Unlisted, Pendings, Disconnects, Attempted,
         Listed, Accepts, Sends, Linked, Orphaned;
    hide Enabled;
    if steps != [] {
      var n := Next(s, steps[0]);
      NextKeeps(s, steps[0]);
      RecordStays(s, steps[0], c);
      InFlightNotPushed(s, steps[0], c);
      InFlightProtects(n, steps[1..], s', c);
    } else {
      InFlightFacts(s, c);
    }
  }

  lemma InFlightNotPushed(s: Sys, step: Step, c: CellId)
    requires Inv(s) && Enabled(s, step) && c in s.inflight
    ensures !Is(step, Pushed, c.slot)
  {
    hide Naming, Covered, Keyed, Conserved, Phases, Unlisted, Pendings, Disconnects, Attempted, Listed, Accepts,
         Sends, Linked, Orphaned;
    InFlightFacts(s, c);
    PointerIsLive(s, c);
  }

  lemma OrphanStays(s: Sys, step: Step, c: CellId)
    requires Inv(s) && Enabled(s, step) && c in s.orphans
    ensures c in Next(s, step).orphans && !Is(step, Pushed, c.slot)
  {
    hide Covered, Keyed, Conserved, Phases, InFlight, Turns, Unlisted, Pendings, Disconnects, Attempted, Listed,
         Accepts, Sends, Linked;
    if step.PushBack? {
      DyingIsUnnamed(s, step.i);
    }
  }

  /** The slot of a record posted null is never recycled, in whatever run follows: the record stays the kernel's, null
      and in nobody's hands, and its session stays disconnecting. */
  lemma {:induction false} OrphansStay(s: Sys, steps: seq<Step>, s': Sys, c: CellId)
    requires Inv(s) && Runs(s, steps, s') && c in s.orphans
    ensures Inv(s') && CountOf(steps, Pushed, c.slot) == 0 && c in s'.orphans
    ensures c !in s'.cells && c !in s'.turn && c !in s'.inflight
    ensures c.slot < |s'.pool.state| && s'.pool.state[c.slot] == DISCONNECTING
    decreases |steps|
  {
    hide Naming, Covered, Keyed, Conserved, Phases, InFlight, Turns, Unlisted, Pendings, Disconnects, Attempted,
         Listed, Accepts, Sends, Linked, Orphaned;
    hide Enabled;
    if steps == [] {
      OrphanFacts(s, c);
    } else {
      NextKeeps(s, steps[0]);
      OrphanStays(s, steps[0], c);
      OrphansStay(Next(s, steps[0]), steps[1..], s', c);
    }
  }

  /** In particular once a record was posted null. */
  lemma NullPostIsNeverRecycled(s: Sys, t: Tid, c: CellId, op: Op, steps: seq<Step>, s': Sys)
    requires Inv(s) && Enabled(s, PostNull(t, c, op)) && Inv(Next(s, PostNull(t, c, op)))
    requires Runs(Next(s, PostNull(t, c, op)), steps, s')
    ensures c.IsRecord() && CountOf(steps, Pushed, c.slot) == 0
    ensures c !in s'.cells && c !in s'.turn && c !in s'.inflight
  {
    hide Inv, Runs;
    OrphansStay(Next(s, PostNull(t, c, op)), steps, s', c);
  }

  /** The accept loop may take a unit exactly below a thousand, and sees the limit exactly at a thousand. */
  lemma AcceptLimit(s: Sys, t: Tid)
    requires Inv(s) && NoFade(s.cells, t)
    ensures Enabled(s, TakeUnit(t)) <==> s.pendingAccepts < 1000
    ensures Enabled(s, Sees(t, AtLimit)) <==> s.pendingAccepts == 1000
  {
  }

  lemma OrphanFacts(s: Sys, c: CellId)
    requires Inv(s) && c in s.orphans
    ensures c !in s.cells && c !in s.turn && c !in s.inflight
    ensures c.slot < |s.pool.state| && s.pool.state[c.slot] == DISCONNECTING
  {
  }
}
