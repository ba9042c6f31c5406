/** The code of the I/O threads as programs over the step machine. Every access to shared state is one machine step
    whose guard is proved at the call. All other threads may run between any two of them: `Take` demands that they
    could since the step before. */
module Server {
  import opened Handles
  import opened SparseSets
  import opened Lifecycle
  import opened LifecycleInvariant
  import opened LifecycleSteps
  import opened LifecycleRuns
  import opened Interference
  import opened Frames
  import opened Traces
  import Framing

  /** The handler of a completed record either handed it on, in a session at least in state `least`, or the session
      is being disconnected. */
  ghost predicate DisconnectsOr(s: Sys, c: CellId, least: nat)
    requires !c.Local?
  {
    c.slot < |s.pool.state|
    && (s.pool.state[c.slot] == DISCONNECTING || (c !in s.turn && least <= s.pool.state[c.slot]))
  }

  /** How a round of the accept loop, or the loop, ended. `Again` is a round that posted its accept. */
  datatype AcceptLoop = Again | LimitReached | OutOfSessions | NotPosted

  /** The accept of some new session was posted, or failed unnoticed. */
  ghost predicate TookAccept(before: seq<Step>, after: seq<Step>, t: Tid, i: nat) {
    TookSince(before, after, Post(t, Recv(i), AcceptOp)) || TookSince(before, after, PostLost(t, Recv(i), AcceptOp))
  }

  lemma TookAcceptWider(a: seq<Step>, b: seq<Step>, c: seq<Step>, d: seq<Step>, t: Tid, i: nat)
    requires a <= b && TookAccept(b, c, t, i) && c <= d
    ensures TookAccept(a, d, t, i)
  {
    if TookSince(b, c, Post(t, Recv(i), AcceptOp)) {
      TookWider(a, b, c, d, Post(t, Recv(i), AcceptOp));
    } else {
      TookWider(a, b, c, d, PostLost(t, Recv(i), AcceptOp));
    }
  }

  /** `step` is among those taken between the two records. */
  ghost predicate TookSince(before: seq<Step>, after: seq<Step>, step: Step) {
    before <= after && step in after[|before|..]
  }

  lemma TookOne(before: seq<Step>, after: seq<Step>, k: nat)
    requires before <= after && |before| <= k < |after|
    ensures TookSince(before, after, after[k])
  {
    assert after[|before|..][k - |before|] == after[k];
  }

  lemma TookWider(a: seq<Step>, b: seq<Step>, c: seq<Step>, d: seq<Step>, step: Step)
    requires a <= b && TookSince(b, c, step) && c <= d
    ensures TookSince(a, d, step)
  {
    var k :| 0 <= k < |c[|b|..]| && c[|b|..][k] == step;
    assert d[|b| + k] == step;
    TookOne(a, d, |b| + k);
  }

  /** A round of the accept loop leaves one of these: the swap failed, or took a unit. */
  ghost predicate IsRound(step: Step, t: Tid) {
    step == Sees(t, SwapFailed) || step == TakeUnit(t)
  }

  ghost function Rounds(steps: seq<Step>, t: Tid): nat {
    if steps == [] then 0
    else Rounds(steps[..|steps| - 1], t) + if IsRound(steps[|steps| - 1], t) then 1 else 0
  }

  lemma {:induction false} RoundsGrow(a: seq<Step>, b: seq<Step>, t: Tid)
    requires a <= b
    ensures Rounds(a, t) <= Rounds(b, t)
    decreases |b|
  {
    if a == b {
    } else {
      RoundsGrow(a, b[..|b| - 1], t);
    }
  }

  /** One more round. */
  lemma RoundsNext(a: seq<Step>, b: seq<Step>, k: nat, t: Tid)
    requires a <= b && |a| <= k < |b| && IsRound(b[k], t)
    ensures Rounds(a, t) + 1 <= Rounds(b, t)
  {
    RoundsGrow(a, b[..k], t);
    assert b[..k + 1][..k] == b[..k];
    RoundsGrow(b[..k + 1], b, t);
  }

  /** How the accept loop ended, read off the steps taken: it saw the counter at its limit; it saw no free slot and
      gave the unit back; it gave the unit of an accept that was refused back; or it was cut after `fuel` rounds. */
  ghost predicate LoopEnded(before: seq<Step>, after: seq<Step>, t: Tid, end: AcceptLoop, fuel: nat,
                            answers: seq<Answer>) {
    before <= after &&
    match end
    case Again => fuel <= Rounds(after[|before|..], t)
    case LimitReached => before < after && after[|after| - 1] == Sees(t, AtLimit)
    case OutOfSessions => TookSince(before, after, Sees(t, NoneFree)) && TookSince(before, after, SettleUnit(t))
    case NotPosted => TookSince(before, after, SettleUnit(t)) && Refused in answers
  }

  /** The k-th look is at the k-th session's table entry: a copy of the pointer in it, or the sight of a null entry. */
  ghost predicate LooksAt(looks: seq<Step>, t: Tid, tried: seq<nat>) {
    && |looks| == |tried|
    && forall j :: 0 <= j < |looks| ==>
         looks[j] == CopyPtr(t, Table(tried[j]), 0) || looks[j] == Sees(t, EntryNull(tried[j]))
  }

  /** The looks are among the steps, in that order. */
  ghost predicate InOrder(looks: seq<Step>, steps: seq<Step>)
    decreases |looks|
  {
    looks == [] ||
    exists k :: 0 <= k < |steps| && steps[k] == looks[|looks| - 1] && InOrder(looks[..|looks| - 1], steps[..k])
  }

  /** One call for every pointer found. */
  ghost function CallsFor(looks: seq<Step>, packet: seq<Framing.byte>): seq<Call>
    decreases |looks|
  {
    if looks == [] then []
    else
      var last := looks[|looks| - 1];
      CallsFor(looks[..|looks| - 1], packet) +
      if last.CopyPtr? && last.src.Table? then [SendPacket(last.t, last.src.slot, packet)] else []
  }

  lemma LookedAgain(looks: seq<Step>, steps: seq<Step>, more: seq<Step>, k: nat)
    requires InOrder(looks, steps) && steps <= more && |steps| <= k < |more|
    ensures InOrder(looks + [more[k]], more)
  {
    assert (looks + [more[k]])[..|looks|] == looks;
    InOrderWider(looks, steps, more[..k]);
  }

  lemma {:induction false} InOrderWider(looks: seq<Step>, steps: seq<Step>, more: seq<Step>)
    requires InOrder(looks, steps) && steps <= more
    ensures InOrder(looks, more)
  {
    if looks == [] {
    } else {
      var k :| 0 <= k < |steps| && steps[k] == looks[|looks| - 1] && InOrder(looks[..|looks| - 1], steps[..k]);
      assert more[k] == steps[k] && more[..k] == steps[..k];
    }
  }

  lemma RoundEnded(before: seq<Step>, mid: seq<Step>, after: seq<Step>, t: Tid, end: AcceptLoop, answers: seq<Answer>)
    requires before <= mid <= after && (end.OutOfSessions? || end.NotPosted?)
    requires end.OutOfSessions? ==> after == mid + [TakeUnit(t), Sees(t, NoneFree), SettleUnit(t)]
    requires end.NotPosted? ==> TookSince(mid, after, SettleUnit(t)) && Refused in answers
    ensures LoopEnded(before, after, t, end, 0, answers)
  {
    if end.OutOfSessions? {
      TookOne(before, after, |mid| + 1);
      TookOne(before, after, |mid| + 2);
    } else {
      TookWider(before, mid, after, after, SettleUnit(t));
    }
  }

  lemma JoinConnect(before: seq<Step>, t: Tid, h: nat, k: nat, i: nat, world: World, link: Linkup)
    requires link.pending
    ensures ((before + [Step.Connect(t, h)]) + SendSteps(t, h, k, i, world.fits, link.flag, link.send, world.send)) +
              (if Welcomed(link, world) then RegisterSteps(t, h, k, Recv(i), RecvOp, link.recv, world.recv) else []) ==
            before + ConnectSteps(t, h, k, i, world, link)
  {
  }

  lemma NoLooks(packet: seq<Framing.byte>)
    ensures InOrder([], []) && CallsFor([], packet) == []
  {
  }

  lemma CalledAgain(looks: seq<Step>, look: Step, packet: seq<Framing.byte>)
    ensures CallsFor(looks + [look], packet) ==
              CallsFor(looks, packet) +
              if look.CopyPtr? && look.src.Table? then [SendPacket(look.t, look.src.slot, packet)] else []
  {
    assert (looks + [look])[..|looks|] == looks;
  }

  /** Session i is connected and is not the sender. */
  ghost predicate Addressed(s: Sys, sender: Ref, i: nat) {
    && i < |s.pool.state| == |s.pool.generation|
    && s.pool.state[i] == CONNECTED && Ref(i, s.pool.generation[i]) != sender
  }

  lemma ConnectedIsListed(s: Sys, i: nat)
    requires Inv(s)
    ensures i < |s.pool.state| && s.pool.state[i] == CONNECTED ==> Counts(s.cells, Table(i))
  {
  }

  lemma ShapeAt(s: Sys, t: Tid, k: nat)
    requires At(s, t, k)
    ensures |s.pool.state| == |s.pool.generation| == N(s)
  {
    ShapeOf(s);
  }

  class IoThreads {
    var sys: Sys
    /** The steps these programs took, oldest first; those of the threads they ran among are not recorded. */
    ghost var taken: seq<Step>
    /** The calls of `SendPacket`, `OnRecv` and `OnSend` they made, oldest first. */
    ghost var calls: seq<Call>
    /** All other threads had their chance to run since the last of these steps. */
    ghost var yielded: bool

    constructor (sessions: uint32)
      ensures sys == Init(sessions) && taken == [] && calls == [] && yielded
    {
      taken, calls, yielded := [], [], true;
      sys := Sys(View(seq(sessions, _ => IDLE), seq(sessions, _ => 0)), seq(sessions, _ => 0), map[], map[], map[],
                 map[], map[], {}, map[], map[], seq(sessions, _ => 0), seq(sessions, _ => false),
                 seq(sessions, _ => false), 0, multiset{}, 0);
    }

    /** One atomic step of the machine. */
    method Take(step: Step)
      requires Inv(sys) && Enabled(sys, step) && yielded
      modifies `sys, `taken, `yielded
      ensures Inv(sys) && sys == Next(old(sys), step) && taken == old(taken) + [step] && !yielded
    {
      hide Inv, Enabled, Next;
      NextKeeps(sys, step);
      sys := Next(sys, step);
      taken := taken + [step];
      yielded := false;
    }

    /** Any finite run of the other threads, none included. A caller knows afterwards only what is ensured here, and
        `OthersRun` proves it of every such run. */
    method Interfere(t: Tid)
      requires Inv(sys)
      modifies `sys, `yielded
      ensures Inv(sys) && Rely(t, old(sys), sys) && yielded
    {
      ShapeOf(sys);
      RelyReflexive(t, sys);
      yielded := true;
    }

    /** Other threads run while thread t stands between two statements of work on a session. */
    method Pause(t: Tid, h: nat, k: nat, b: nat)
      requires Serving(sys, t, h, k, b)
      modifies `sys, `yielded
      ensures Served(t, h, k, b, old(sys), sys) && Keeps(t, h, old(sys), sys) && yielded
      ensures sys.units[t] == old(sys).units[t]
    {
      hide Inv, OwnCells, HeldSessions, OwnRecords, OwnPending, OwnEntries, OwnDebts, NoFade, Clear, Frame,
           HeldBelow, Owes;
      FrameBase(t, h, k, b, sys);
      Interfere(t);
      RelyFrames(t, b, k, old(sys), sys);
      RelyKeeps(t, h, old(sys), sys);
      NoFadeKept(t, old(sys), sys);
      ClearKept(t, old(sys), sys, k);
      DebtsKept(t, old(sys), sys, {});
      UnitsKept(t, old(sys), sys);
      FrameLocals(t, b, k, old(sys), sys);
      HeldBelowSame(t, b, k, old(sys), sys, sys.SlotOf(t, h));
    }

    /** `Reset` on the table entry or a record of the session in local h: give up the count, then clear the fields.
        The count given up is never the last, so nothing is recycled in between. */
    method ResetShared(t: Tid, h: nat, k: nat, b: nat, c: CellId)
      requires Serving(sys, t, h, k, b)
      requires !c.Local? && Counts(sys.cells, c) && c.slot == sys.SlotOf(t, h) && sys.HasTurn(t, c.Key()) && yielded
      requires sys.Online(c.slot) ==> !c.Disc? && (c.Table? ==> Counts(sys.cells, Disc(c.slot)))
      modifies `sys, `taken, `yielded
      ensures Served(t, h, k, b, old(sys), sys)
      ensures c !in sys.cells && sys.HasTurn(t, c.Key())
      ensures OtherRecords(t, c.slot, c, old(sys), sys)
      ensures old(sys).HasTurn(t, Disc(c.slot)) ==> (old(sys).Online(c.slot) <==> sys.Online(c.slot))
      ensures sys.units[t] == old(sys).units[t] && taken == old(taken) + [SubShared(t, c, h), NullShared(t, c)]
    {
      hide Inv, HeldBelow, Frame, NoFade, Clear, Owes, Next, Resetting, Rely, Pending;
      ghost var s0 := sys;
      FrameBase(t, h, k, b, s0);
      SubFrames(t, h, k, b, s0, c);
      Take(SubShared(t, c, h));
      ghost var s1 := sys;
      Interfere(t);
      ghost var s2 := sys;
      RelyResets(t, h, k, b, s1, s2, c);
      NullFrames(t, h, k, b, s2, c);
      Take(NullShared(t, c));
      FrameTransitive(t, b, k, s0, s1, s2);
      FrameTransitive(t, b, k, s0, s2, sys);
    }

    /** `sessionPtr_ = GetSession(handle_)`: copy the table entry, if there is one, and move the copy in. */
    method FillRecord(t: Tid, h: nat, k: nat, b: nat, c: CellId)
      requires Serving(sys, t, h, k, b)
      requires c.IsRecord() && c.slot == sys.SlotOf(t, h) && sys.HasTurn(t, c) && c !in sys.cells && yielded
      modifies `sys, `taken, `yielded
      ensures Served(t, h, k, b, old(sys), sys)
      ensures sys.HasTurn(t, c) && (c in sys.cells ==> Counts(sys.cells, c))
      ensures c !in sys.cells ==> Table(c.slot) !in sys.cells
      ensures c.Disc? ==> SameCell(old(sys).cells, sys.cells, Table(c.slot))
      ensures OtherRecords(t, c.slot, c, old(sys), sys)
      ensures c in sys.cells <==> Table(c.slot) in old(sys).cells
      ensures c !in sys.cells ==> sys.pool.state[c.slot] == DISCONNECTING && sys.attempts[c.slot] == 1
      ensures Pending(old(sys), c.slot) && old(sys).HasTurn(t, Recv(c.slot)) ==> c in sys.cells && Pending(sys, c.slot)
      ensures sys.units[t] == old(sys).units[t]
      ensures taken == old(taken) +
                       if c in sys.cells then [CopyPtr(t, Table(c.slot), k), StoreRecord(t, k, c)]
                       else [Sees(t, EntryNull(c.slot))]
    {
      hide Inv, Next, HeldBelow, Frame, Clear, NoFade, Owes, Enabled;
      FrameBase(t, h, k, b, sys);
      NullEntryIsAttempted(sys, c.slot);
      if Table(c.slot) in sys.cells {
        CopyThenStore(t, h, k, b, c);
      } else {
        FrameReflexive(t, b, k, sys);
        Looking(sys, t, EntryNull(c.slot));
        Take(Sees(t, EntryNull(c.slot)));
      }
    }

    method CopyThenStore(t: Tid, h: nat, k: nat, b: nat, c: CellId)
      requires Serving(sys, t, h, k, b) && c.IsRecord() && c.slot == sys.SlotOf(t, h) && Table(c.slot) in sys.cells
      requires sys.HasTurn(t, c) && c !in sys.cells && yielded
      modifies `sys, `taken, `yielded
      ensures Served(t, h, k, b, old(sys), sys)
      ensures sys.HasTurn(t, c) && Counts(sys.cells, c) && OtherRecords(t, c.slot, c, old(sys), sys)
      ensures c.Disc? ==> SameCell(old(sys).cells, sys.cells, Table(c.slot))
      ensures Pending(old(sys), c.slot) && old(sys).HasTurn(t, Recv(c.slot)) ==> Pending(sys, c.slot)
      ensures sys.units[t] == old(sys).units[t]
      ensures taken == old(taken) + [CopyPtr(t, Table(c.slot), k), StoreRecord(t, k, c)]
    {
      hide Inv, Next, HeldBelow, Frame, Clear, NoFade, Owes, Enabled, Rises, Pending;
      hide OnlyCells;
      FrameBase(t, h, k, b, sys);
      ghost var s0 := sys;
      CopyEntry(t, h, k, b, sys, c.slot);
      Take(CopyPtr(t, Table(c.slot), k));
      ghost var s1 := sys;
      Pause(t, h, k + 1, b);
      ghost var s2 := sys;
      FrameLocals(t, b, k + 1, s1, s2);
      FrameWeaken(t, b, k + 1, k, s1, s2);
      FrameTransitive(t, b, k, s0, s1, s2);
      RisesTransitive(s0, s1, s2, c.slot);
      StoreFrames(t, h, k, b, s2, c);
      Take(StoreRecord(t, k, c));
      FrameTransitive(t, b, k, s0, s2, sys);
      RisesTransitive(s0, s2, sys, c.slot);
    }

    /** The system call itself, on a filled record. A receive or send on a socket that is not connected fails, whatever
        the answer would have been. */
    method Hand(t: Tid, h: nat, k: nat, b: nat, c: CellId, op: Op, answer: Answer)
      returns (posted: bool, ghost online: bool)
      requires Serving(sys, t, h, k, b)
      requires Suits(c, op) && c.slot == sys.SlotOf(t, h) && sys.HasTurn(t, c)
      requires if c in sys.cells then
                 Counts(sys.cells, c) && (op.AcceptOp? ==> t in sys.units)
                 && (op.DisconnectOp? ==> Counts(sys.cells, Table(c.slot)))
               else (op.RecvOp? || op.SendOp?) && Table(c.slot) !in sys.cells
      requires yielded
      modifies `sys, `taken, `yielded
      ensures Served(t, h, k, b, old(sys), sys)
      ensures OtherRecords(t, c.slot, c, old(sys), sys)
      ensures posted == Posts(op, Met(c in old(sys).cells, online), answer)
      ensures taken == old(taken) + HandSteps(t, h, c, op, Met(c in old(sys).cells, online), answer)
      ensures posted ==> c !in sys.turn && sys.cells == old(sys).cells && c.slot < |sys.attempts|
      ensures posted && c in sys.cells && !answer.Unheard? ==> c in sys.inflight && sys.inflight[c] == op
      ensures !posted ==> sys.HasTurn(t, c) && (op.RecvOp? || op.SendOp? ==> c !in sys.cells)
      ensures sys.units[t] == old(sys).units[t] - if posted && op.AcceptOp? then 1 else 0
    {
      hide Inv, Next, HeldBelow, Frame, Clear, NoFade, Owes, Enabled;
      FrameBase(t, h, k, b, sys);
      FrameReflexive(t, b, k, sys);
      online := sys.Online(c.slot);
      posted := if Unnoticed(op) then answer != Refused else answer == Accepted && sys.Online(c.slot);
      if posted && answer == Unheard {
        LostFrames(t, h, k, b, sys, c, op);
        Take(PostLost(t, c, op));
      } else if posted {
        PostFrames(t, h, k, b, sys, c, op);
        Take(if c in sys.cells then Post(t, c, op) else PostNull(t, c, op));
      } else if op.RecvOp? || op.SendOp? {
        Fail(t, h, k, b, c, answer);
      }
    }

    /** The call for a receive or send failed: its record is cleared again. */
    method Fail(t: Tid, h: nat, k: nat, b: nat, c: CellId, answer: Answer)
      requires Serving(sys, t, h, k, b) && yielded
      requires (c.Recv? || c.Send?) && c.slot == sys.SlotOf(t, h) && sys.HasTurn(t, c)
      requires c in sys.cells ==> Counts(sys.cells, c)
      requires answer == Accepted ==> !sys.Online(c.slot)
      modifies `sys, `taken, `yielded
      ensures Served(t, h, k, b, old(sys), sys)
      ensures OtherRecords(t, c.slot, c, old(sys), sys)
      ensures taken == old(taken) + (if answer.Accepted? then [Sees(t, Offline(c.slot))] else [])
                                  + if c in old(sys).cells then ClearSteps(t, h, c) else []
      ensures sys.HasTurn(t, c) && c !in sys.cells
      ensures sys.units[t] == old(sys).units[t]
    {
      hide Inv, Next, HeldBelow, Frame, Clear, NoFade, Owes, Enabled;
      ghost var s0 := sys;
      FrameBase(t, h, k, b, sys);
      FrameReflexive(t, b, k, sys);
      if answer == Accepted {
        Looking(sys, t, Offline(c.slot));
        Take(Sees(t, Offline(c.slot)));
        Pause(t, h, k, b);
      }
      if c in sys.cells {
        ghost var s1 := sys;
        ResetShared(t, h, k, b, c);
        ServedTransitive(t, h, k, b, s0, s1, sys);
      }
    }

    /** The first half of the `Register` methods: everything up to the system call. */
    method Prepare(t: Tid, h: nat, k: nat, b: nat, c: CellId, op: Op)
      requires Serving(sys, t, h, k, b)
      requires Suits(c, op) && c.slot == sys.SlotOf(t, h) && sys.HasTurn(t, c) && c !in sys.cells
      requires op.AcceptOp? ==> Pending(sys, c.slot)
      requires op.DisconnectOp? ==> Table(c.slot) in sys.cells
      modifies `sys, `taken, `yielded
      ensures Served(t, h, k, b, old(sys), sys) && sys.HasTurn(t, c) && yielded
      ensures OtherRecords(t, c.slot, c, old(sys), sys)
      ensures if c in sys.cells then Counts(sys.cells, c) && (op.DisconnectOp? ==> Counts(sys.cells, Table(c.slot)))
              else (op.RecvOp? || op.SendOp?) && Table(c.slot) !in sys.cells
      ensures c.slot < N(sys) == |sys.pool.state| == |sys.attempts|
      ensures c !in sys.cells ==> sys.pool.state[c.slot] == DISCONNECTING && sys.attempts[c.slot] == 1
      ensures sys.units[t] == old(sys).units[t] && taken == old(taken) + FillSteps(t, k, c, c in sys.cells)
    {
      hide Inv, Next, HeldBelow, Frame, Clear, NoFade, Owes, Enabled;
      ghost var s0 := sys;
      Pause(t, h, k, b);
      ghost var s1 := sys;
      FillRecord(t, h, k, b, c);
      ghost var s2 := sys;
      ServedTransitive(t, h, k, b, s0, s1, s2);
      FrameBase(t, h, k, b, s2);
      Pause(t, h, k, b);
      ghost var s3 := sys;
      ServedTransitive(t, h, k, b, s0, s2, s3);
      FrameBase(t, h, k, b, s3);
      StateBounds(s3, c.slot);
      if op.DisconnectOp? {
        EntryCounts(s3, t, c.slot);
      }
    }

    /** `RegisterAccept`, `RegisterRecv`, `RegisterSend` and `RegisterDisconnect`. The call into the system fails or
        not, and fails for a receive or send on a socket that is not connected; a failed receive or send clears its
        record again, a failed accept or disconnect does not, and may be taken for a success. Only a receive or send of
        a session whose disconnect was attempted can be posted with a null pointer. */
    method Register(t: Tid, h: nat, k: nat, b: nat, c: CellId, op: Op, answer: Answer)
      returns (posted: bool, ghost met: Met)
      requires Serving(sys, t, h, k, b)
      requires Suits(c, op) && c.slot == sys.SlotOf(t, h) && sys.HasTurn(t, c) && c !in sys.cells
      requires op.AcceptOp? ==> Pending(sys, c.slot) && t in sys.units
      requires op.DisconnectOp? ==> Table(c.slot) in sys.cells
      modifies `sys, `taken, `yielded
      ensures Served(t, h, k, b, old(sys), sys)
      ensures OtherRecords(t, c.slot, c, old(sys), sys)
      ensures posted == Posts(op, met, answer)
      ensures taken == old(taken) + RegisterSteps(t, h, k, c, op, met, answer)
      ensures posted ==> c !in sys.turn && (met.filled <==> c in sys.cells)
      ensures posted && c in sys.cells && !answer.Unheard? ==> c in sys.inflight && sys.inflight[c] == op
      ensures posted && c !in sys.cells ==>
                (op.RecvOp? || op.SendOp?) && sys.pool.state[c.slot] == DISCONNECTING && sys.attempts[c.slot] == 1
      ensures !posted ==> sys.HasTurn(t, c) && (op.RecvOp? || op.SendOp? ==> c !in sys.cells)
      ensures sys.units[t] == old(sys).units[t] - if posted && op.AcceptOp? then 1 else 0
    {
      hide Inv, Next, HeldBelow, Frame, Clear, NoFade, Owes, Enabled, FillSteps, HandSteps, Posts;
      ghost var s0 := sys;
      Prepare(t, h, k, b, c, op);
      ghost var s1 := sys;
      ghost var online;
      posted, online := Hand(t, h, k, b, c, op, answer);
      met := Met(c in s1.cells, online);
      Framing.Associates(old(taken), FillSteps(t, k, c, met.filled), HandSteps(t, h, c, op, met, answer));
      ServedTransitive(t, h, k, b, s0, s1, sys);
      if posted {
        FrameBase(t, h, k, b, sys);
        StateBounds(sys, c.slot);
      }
    }

    /** `Session::Reset`, after a disconnect completed: the manager's pointer goes. */
    method ResetSession(t: Tid, h: nat, k: nat, b: nat)
      requires Serving(sys, t, h, k, b) && sys.HasTurn(t, Disc(sys.SlotOf(t, h))) && yielded
      requires sys.Online(sys.SlotOf(t, h)) ==> Counts(sys.cells, Disc(sys.SlotOf(t, h)))
      modifies `sys, `taken, `yielded
      ensures Served(t, h, k, b, old(sys), sys)
      ensures Table(sys.SlotOf(t, h)) !in sys.cells && sys.units[t] == old(sys).units[t]
      ensures taken == old(taken) + ResetSteps(t, h, sys.SlotOf(t, h), Table(sys.SlotOf(t, h)) in old(sys).cells)
    {
      hide Inv, Next, HeldBelow, Frame, Clear, NoFade, Owes, Enabled;
      var i := sys.SlotOf(t, h);
      FrameBase(t, h, k, b, sys);
      FrameReflexive(t, b, k, sys);
      EntryCounts(sys, t, i);
      if Table(i) in sys.cells {
        ResetShared(t, h, k, b, Table(i));
      } else {
        Looking(sys, t, EntryNull(i));
        Take(Sees(t, EntryNull(i)));
      }
    }

    /** The rest of `Disconnect`, for the thread that moved the session to the disconnecting state. */
    method Attempt(t: Tid, h: nat, k: nat, b: nat, i: nat, answer: Answer) returns (ok: bool, ghost met: Met)
      requires Serving(sys, t, h, k, b) && i == sys.SlotOf(t, h) && i in sys.duty && sys.duty[i] == t
      modifies `sys, `taken, `yielded
      ensures Served(t, h, k, b, old(sys), sys) && sys.pool.state[i] == DISCONNECTING && sys.attempts[i] == 1
      ensures ok == Posts(DisconnectOp, met, answer) && (ok ==> Disc(i) in sys.cells && met.filled)
      ensures taken == old(taken) +
                       ([AttemptDisconnect(t, i)] + RegisterSteps(t, h, k, Disc(i), DisconnectOp, met, answer))
      ensures OtherRecords(t, i, Disc(i), old(sys), sys)
      ensures sys.units[t] == old(sys).units[t]
    {
      hide Inv, Next, HeldBelow, Frame, Clear, NoFade, Owes, Enabled, RegisterSteps, Posts;
      ghost var s0 := sys;
      Pause(t, h, k, b);
      ghost var s1 := sys;
      AttemptFrames(t, h, k, b, s1, i);
      Take(AttemptDisconnect(t, i));
      ghost var s2 := sys;
      ServedTransitive(t, h, k, b, s0, s1, s2);
      ok, met := Register(t, h, k, b, Disc(i), DisconnectOp, answer);
      Framing.Associates(old(taken), [AttemptDisconnect(t, i)],
                         RegisterSteps(t, h, k, Disc(i), DisconnectOp, met, answer));
      ServedTransitive(t, h, k, b, s0, s2, sys);
      FrameBase(t, h, k, b, sys);
      AttemptsBounded(sys, i);
    }

    /** `Session::Disconnect`: whoever moves the session to the disconnecting state, and nobody else, posts the
        disconnect. */
    method Disconnect(t: Tid, h: nat, k: nat, b: nat, c: CellId, answer: Answer)
      returns (ok: bool, ghost already: bool, ghost met: Met)
      requires Serving(sys, t, h, k, b)
      requires c.IsRecord() && c.slot == sys.SlotOf(t, h) && sys.HasTurn(t, c) && yielded
      requires c.Send? ==> !Pending(sys, c.slot)
      modifies `sys, `taken, `yielded
      ensures Served(t, h, k, b, old(sys), sys) && sys.pool.state[c.slot] == DISCONNECTING
      ensures already == (old(sys).pool.state[c.slot] == DISCONNECTING)
      ensures if already then ok && sys == old(sys)
              else
                && sys.attempts[c.slot] == 1 && ok == Posts(DisconnectOp, met, answer)
                && (ok ==> Disc(c.slot) in sys.cells && met.filled)
      ensures taken == old(taken) + DisconnectSteps(t, h, k, c, already, met, answer)
      ensures OtherRecords(t, c.slot, Disc(c.slot), old(sys), sys)
      ensures sys.units[t] == old(sys).units[t]
    {
      hide Inv, Next, HeldBelow, Frame, Clear, NoFade, Owes, Enabled, RegisterSteps, Posts;
      var i := sys.SlotOf(t, h);
      ghost var s0 := sys;
      FrameBase(t, h, k, b, s0);
      var found := sys.pool.state[i] == DISCONNECTING;
      BeginFrames(t, h, k, b, s0, c);
      Take(BeginDisconnect(t, h, c));
      ok, already, met := true, found, NOTHING;
      if !found {
        ghost var s1, before := sys, taken;
        ok, met := Attempt(t, h, k, b, i, answer);
        ServedTransitive(t, h, k, b, s0, s1, sys);
        Framing.Associates(old(taken), [BeginDisconnect(t, h, c)], [AttemptDisconnect(t, i)] +
                           RegisterSteps(t, h, k, Disc(i), DisconnectOp, met, answer));
      }
    }

    /** `Session::SendPacket` on the record's side: a packet that fits is buffered, and the flag decides who posts. */
    method SendPacket(t: Tid, h: nat, k: nat, b: nat, packet: seq<Framing.byte>, fits: bool, answer: Answer)
      returns (ok: bool, ghost met: Met)
      requires Serving(sys, t, h, k, b) && yielded
      modifies `sys, `taken, `calls, `yielded
      ensures Served(t, h, k, b, old(sys), sys) && sys.SlotOf(t, h) < |old(sys).isSending|
      ensures calls == old(calls) + [Call.SendPacket(t, sys.SlotOf(t, h), packet)]
      ensures ok == Sent(fits, old(sys).isSending[sys.SlotOf(t, h)], met, answer)
      ensures taken == old(taken) +
                       SendSteps(t, h, k, sys.SlotOf(t, h), fits, old(sys).isSending[sys.SlotOf(t, h)], met, answer)
      ensures !fits || old(sys).isSending[sys.SlotOf(t, h)] ==> sys == old(sys)
      ensures fits && !old(sys).isSending[sys.SlotOf(t, h)] && !ok ==>
                sys.HasTurn(t, Send(sys.SlotOf(t, h))) && Send(sys.SlotOf(t, h)) !in sys.cells
      ensures OtherRecords(t, sys.SlotOf(t, h), Send(sys.SlotOf(t, h)), old(sys), sys)
      ensures sys.units[t] == old(sys).units[t]
    {
      hide Inv, Next, HeldBelow, Frame, Clear, NoFade, Owes, Enabled, RegisterSteps, Posts;
      var i := sys.SlotOf(t, h);
      FrameBase(t, h, k, b, sys);
      FrameReflexive(t, b, k, sys);
      ShapeOf(sys);
      calls := calls + [Call.SendPacket(t, i, packet)];
      ok, met := fits, NOTHING;
      if !fits {
        return;
      }
      if sys.isSending[i] {
        Looking(sys, t, FlagSet(i));
        Take(Sees(t, FlagSet(i)));
      } else {
        ghost var s0 := sys;
        TakeSendFrames(t, h, k, b, s0, i);
        Take(TakeSend(t, i));
        ghost var s1 := sys;
        ok, met := Register(t, h, k, b, Send(i), SendOp, answer);
        ServedTransitive(t, h, k, b, s0, s1, sys);
        Framing.Associates(old(taken), [TakeSend(t, i)], RegisterSteps(t, h, k, Send(i), SendOp, met, answer));
      }
    }

    /** `Session::OnSend`: clear the flag when everything is sent, post the rest otherwise. */
    method OnSend(t: Tid, h: nat, k: nat, b: nat, bytes: nat, drained: bool, answer: Answer)
      returns (ok: bool, ghost met: Met)
      requires Serving(sys, t, h, k, b)
      requires sys.HasTurn(t, Send(sys.SlotOf(t, h))) && Send(sys.SlotOf(t, h)) !in sys.cells && yielded
      modifies `sys, `taken, `calls, `yielded
      ensures Served(t, h, k, b, old(sys), sys)
      ensures calls == old(calls) + [Call.OnSend(t, sys.SlotOf(t, h), bytes)]
      ensures ok == (drained || Posts(SendOp, met, answer))
      ensures taken == old(taken) + OnSendSteps(t, h, k, sys.SlotOf(t, h), drained, met, answer)
      ensures drained ==> sys.SlotOf(t, h) < |sys.isSending| && !sys.isSending[sys.SlotOf(t, h)]
      ensures if ok then Send(sys.SlotOf(t, h)) !in sys.turn else sys.HasTurn(t, Send(sys.SlotOf(t, h)))
      ensures sys.units[t] == old(sys).units[t]
    {
      hide Inv, Next, HeldBelow, Frame, Clear, NoFade, Owes, Enabled, RegisterSteps, Posts;
      var i := sys.SlotOf(t, h);
      calls := calls + [Call.OnSend(t, i, bytes)];
      met := NOTHING;
      if drained {
        GiveSendFrames(t, h, k, b, sys, i);
        Take(GiveSend(t, i));
        ok := true;
      } else {
        ok, met := Register(t, h, k, b, Send(i), SendOp, answer);
      }
    }

    /** `Session::OnRecv` on the record's side: refuse an illegal frame or post the next receive. */
    method OnRecv(t: Tid, h: nat, k: nat, b: nat, bytes: nat, legal: bool, answer: Answer)
      returns (ok: bool, ghost met: Met)
      requires Serving(sys, t, h, k, b)
      requires sys.HasTurn(t, Recv(sys.SlotOf(t, h))) && Recv(sys.SlotOf(t, h)) !in sys.cells
      modifies `sys, `taken, `calls, `yielded
      ensures Served(t, h, k, b, old(sys), sys)
      ensures calls == old(calls) + [Call.OnRecv(t, sys.SlotOf(t, h), bytes)]
      ensures ok == (legal && Posts(RecvOp, met, answer)) && (!legal ==> sys == old(sys))
      ensures taken == old(taken) + OnRecvSteps(t, h, k, sys.SlotOf(t, h), legal, met, answer)
      ensures if ok then Recv(sys.SlotOf(t, h)) !in sys.turn else sys.HasTurn(t, Recv(sys.SlotOf(t, h)))
      ensures sys.units[t] == old(sys).units[t]
    {
      hide Inv, Next, HeldBelow, Frame, Clear, NoFade, Owes, Enabled, RegisterSteps, Posts;
      FrameBase(t, h, k, b, sys);
      FrameReflexive(t, b, k, sys);
      calls := calls + [Call.OnRecv(t, sys.SlotOf(t, h), bytes)];
      ok, met := legal, NOTHING;
      if legal {
        ok, met := Register(t, h, k, b, Recv(sys.SlotOf(t, h)), RecvOp, answer);
      }
    }

    /** `Session::Connect`: only from the pending state; then the welcome packet and the first receive. */
    method Connect(t: Tid, h: nat, k: nat, b: nat, world: World) returns (ok: bool, ghost link: Linkup)
      requires Serving(sys, t, h, k, b) && yielded
      requires sys.HasTurn(t, Recv(sys.SlotOf(t, h))) && Recv(sys.SlotOf(t, h)) !in sys.cells
      modifies `sys, `taken, `calls, `yielded
      ensures Served(t, h, k, b, old(sys), sys)
      ensures link.pending == (old(sys).pool.state[sys.SlotOf(t, h)] == PENDING)
      ensures ok == Traces.Connected(link, world)
      ensures taken == old(taken) + ConnectSteps(t, h, k, sys.SlotOf(t, h), world, link)
      ensures calls == old(calls) +
                       if link.pending then [Call.SendPacket(t, sys.SlotOf(t, h), world.welcome)] else []
      ensures if link.pending then CONNECTED <= sys.pool.state[sys.SlotOf(t, h)] else sys == old(sys)
      ensures if ok then Recv(sys.SlotOf(t, h)) !in sys.turn else sys.HasTurn(t, Recv(sys.SlotOf(t, h)))
      ensures sys.units[t] == old(sys).units[t]
    {
      hide Inv, Next, HeldBelow, Frame, Clear, NoFade, Owes, Enabled, RegisterSteps, SendSteps, Posts, Sent;
      var i := sys.SlotOf(t, h);
      FrameBase(t, h, k, b, sys);
      FrameReflexive(t, b, k, sys);
      ok, link := false, Linkup(false, false, NOTHING, NOTHING);
      if sys.pool.state[i] == PENDING {
        ghost var s0 := sys;
        ConnectFrames(t, h, k, b, s0, i);
        Take(Step.Connect(t, h));
        ghost var s1 := sys;
        Pause(t, h, k, b);
        ServedTransitive(t, h, k, b, s0, s1, sys);
        ghost var s2 := sys;
        ok, link := Welcome(t, h, k, b, i, world);
        ServedTransitive(t, h, k, b, s0, s2, sys);
        JoinConnect(old(taken), t, h, k, i, world, link);
      } else {
        Looking(sys, t, NotPending(i));
        Take(Sees(t, NotPending(i)));
      }
    }

    /** The rest of `Connect`, once the session is connected. */
    method Welcome(t: Tid, h: nat, k: nat, b: nat, i: nat, world: World) returns (ok: bool, ghost link: Linkup)
      requires Serving(sys, t, h, k, b) && yielded && i == sys.SlotOf(t, h)
      requires sys.HasTurn(t, Recv(i)) && Recv(i) !in sys.cells
      modifies `sys, `taken, `calls, `yielded
      ensures Served(t, h, k, b, old(sys), sys) && link.pending && ok == Traces.Connected(link, world)
      ensures taken == old(taken) + SendSteps(t, h, k, i, world.fits, link.flag, link.send, world.send) +
                       if Welcomed(link, world) then RegisterSteps(t, h, k, Recv(i), RecvOp, link.recv, world.recv)
                       else []
      ensures calls == old(calls) + [Call.SendPacket(t, i, world.welcome)]
      ensures if ok then Recv(i) !in sys.turn else sys.HasTurn(t, Recv(i))
      ensures sys.units[t] == old(sys).units[t]
    {
      hide Inv, Next, HeldBelow, Frame, Clear, NoFade, Owes, Enabled, RegisterSteps, SendSteps, Posts, Sent;
      ghost var s0 := sys;
      ghost var send, recv := NOTHING, NOTHING;
      ok, send := SendPacket(t, h, k, b, world.welcome, world.fits, world.send);
      ghost var flag := s0.isSending[i];
      if ok {
        ghost var s1 := sys;
        ok, recv := Register(t, h, k, b, Recv(i), RecvOp, world.recv);
        ServedTransitive(t, h, k, b, s0, s1, sys);
      }
      link := Linkup(true, flag, send, recv);
    }

    /** Other threads run while thread t works on no session. */
    method Preempt(t: Tid, k: nat, ghost owed: set<nat>)
      requires Stands(sys, t, k, owed)
      modifies `sys, `yielded
      ensures Stands(sys, t, k, owed) && Frame(t, k, k, old(sys), sys) && Rely(t, old(sys), sys) && yielded
      ensures sys.units[t] == old(sys).units[t]
    {
      hide Inv, NoFade, Clear, Frame, Rely, Owes;
      Interfere(t);
      RelyAt(t, k, old(sys), sys, owed);
    }

    /** `SessionManager::CreateSession`: claim a free slot, count its first reference, enter it in the table, return
        a copy of the entry. */
    method CreateSession(t: Tid, k: nat) returns (found: bool)
      requires At(sys, t, k) && yielded
      modifies `sys, `taken, `yielded
      ensures Frame(t, k, k, old(sys), sys) && sys.units[t] == old(sys).units[t]
      ensures !found ==> sys == old(sys) && taken == old(taken) + [Sees(t, NoneFree)]
      ensures found ==> Serving(sys, t, k, k + 1, k) && Fresh(sys, t, k, sys.SlotOf(t, k))
      ensures found ==> var i := sys.SlotOf(t, k);
                        taken == old(taken) +
                                 [Pop(t, i), FirstRef(t, i, k), StoreTable(t, k), CopyPtr(t, Table(i), k)]
    {
      hide Inv, Next, HeldBelow, Frame, Clear, NoFade, Owes, Enabled, Rely, Fresh;
      ghost var s0 := sys;
      FrameReflexive(t, k, k, s0);
      found := exists i :: 0 <= i < |sys.pool.state| && sys.pool.state[i] == IDLE;
      if !found {
        Looking(sys, t, NoneFree);
        Take(Sees(t, NoneFree));
        return;
      }
      var i: nat :| i < |sys.pool.state| && sys.pool.state[i] == IDLE;
      PopFrames(t, k, s0, i);
      Take(Pop(t, i));
      ghost var s1 := sys;
      Preempt(t, k, {i});
      ghost var s2 := sys;
      FreshKept(t, k, s1, s2, i);
      FrameTransitive(t, k, k, s0, s1, s2);

      FirstRefFrames(t, k, s2, i);
      Take(FirstRef(t, i, k));
      ghost var s3 := sys;
      FrameTransitive(t, k, k, s0, s2, s3);
      FinishCreate(t, k, i);
      FrameTransitive(t, k, k, s0, s3, sys);
    }

    /** The rest of `CreateSession`, from the pointer that `Acquire` returned. */
    method FinishCreate(t: Tid, k: nat, i: nat)
      requires At(sys, t, k + 1) && sys.Holds(t, k) && sys.SlotOf(t, k) == i
      requires Fresh(sys, t, k, i) && i in sys.unlisted && sys.unlisted[i] == t
      modifies `sys, `taken, `yielded
      ensures Frame(t, k, k, old(sys), sys) && sys.units[t] == old(sys).units[t]
      ensures Serving(sys, t, k, k + 1, k) && Fresh(sys, t, k, i) && sys.SlotOf(t, k) == i
      ensures taken == old(taken) + [StoreTable(t, k), CopyPtr(t, Table(i), k)]
    {
      hide Inv, Next, HeldBelow, Frame, Clear, NoFade, Owes, Enabled, Rely, Fresh;
      ghost var s3 := sys;
      Preempt(t, k + 1, {});
      ghost var s4 := sys;
      FreshKept(t, k, s3, s4, i);
      FrameLocals(t, k + 1, k + 1, s3, s4);
      FrameNarrow(t, k, s3, s4);

      // the pointer is valid: its generation is the slot's
      PointerIsLive(s4, Local(t, k));
      StoreTableFrames(t, k, s4, i);
      Take(StoreTable(t, k));
      ghost var s5 := sys;
      FrameTransitive(t, k, k, s3, s4, s5);
      Preempt(t, k, {});
      ghost var s6 := sys;
      FreshKept(t, k, s5, s6, i);
      FrameTransitive(t, k, k, s3, s5, s6);
      FreshUnheld(s6, t, k, i);
      CopyServes(t, k, k, s6, Table(i));
      Take(CopyPtr(t, Table(i), k));
      FreshSame(t, k, s6, sys, i);
      FrameTransitive(t, k, k, s3, s6, sys);
    }

    /** An accept that could not be posted: its unit is given back and the session disconnected. */
    method GiveUp(t: Tid, k: nat, i: nat, answer: Answer)
      requires Serving(sys, t, k, k + 1, k) && i == sys.SlotOf(t, k) && sys.HasTurn(t, Recv(i)) && t in sys.units
      modifies `sys, `taken, `yielded
      ensures Served(t, k, k + 1, k, old(sys), sys) && sys.units[t] == old(sys).units[t] - 1
      ensures i < |sys.pool.state| && sys.pool.state[i] == DISCONNECTING
      ensures old(taken) + [SettleUnit(t), BeginDisconnect(t, k, Recv(i))] <= taken
    {
      hide Inv, Next, HeldBelow, Frame, Clear, NoFade, Owes, Enabled, RegisterSteps;
      ghost var s0 := sys;
      Pause(t, k, k + 1, k);
      ghost var s1 := sys;
      SettleServes(t, k, k + 1, k, s1);
      Take(SettleUnit(t));
      ghost var s2 := sys;
      ServedTransitive(t, k, k + 1, k, s0, s1, s2);
      Pause(t, k, k + 1, k);
      ghost var s3 := sys;
      ServedTransitive(t, k, k + 1, k, s0, s2, s3);
      var _, _, _ := Disconnect(t, k, k + 1, k, Recv(i), answer);
      ServedTransitive(t, k, k + 1, k, s0, s3, sys);
    }

    /** The accept of a new session: posted, or given up exactly if the system refuses it. */
    method PostFor(t: Tid, k: nat, i: nat, answer: Answer) returns (posted: bool)
      requires Serving(sys, t, k, k + 1, k) && i == sys.SlotOf(t, k) && Fresh(sys, t, k, i) && t in sys.units
      modifies `sys, `taken, `yielded
      ensures Served(t, k, k + 1, k, old(sys), sys) && sys.units[t] == old(sys).units[t] - 1
      ensures old(taken) <= taken && posted == !answer.Refused?
      ensures if posted then TookAccept(old(taken), taken, t, i) else TookSince(old(taken), taken, SettleUnit(t))
    {
      hide Inv, Next, HeldBelow, Frame, Clear, NoFade, Owes, Enabled, TookSince;
      ghost var s0 := sys;
      ghost var met;
      posted, met := Register(t, k, k + 1, k, Recv(i), AcceptOp, answer);
      ghost var done := |taken| - 1;
      if !posted {
        ghost var s1 := sys;
        done := |taken|;
        var disconnect: Answer := *;
        GiveUp(t, k, i, disconnect);
        ServedTransitive(t, k, k + 1, k, s0, s1, sys);
      }
      TookOne(old(taken), taken, done);
    }

    /** The end of a local pointer's scope, or its `Reset`. Whoever drops the last reference returns the slot to the
        free region in a separate step and then posts accepts. */
    method ReleaseLocal(t: Tid, k: nat, fuel: nat, answers: seq<Answer>) returns (last: bool, end: AcceptLoop)
      requires At(sys, t, k + 1) && sys.Holds(t, k) && yielded
      modifies `sys, `taken, `yielded
      ensures At(sys, t, k) && Frame(t, k, k, old(sys), sys) && sys.units[t] == old(sys).units[t]
      ensures old(sys).SlotOf(t, k) < |old(sys).count| && last == (old(sys).count[old(sys).SlotOf(t, k)] == 1)
      ensures !last ==> taken == old(taken) + [DropLocal(t, k)]
      ensures last ==>
                LoopEnded(old(taken) + [DropLocal(t, k), PushBack(t, old(sys).SlotOf(t, k))], taken, t, end,
                          if fuel > 0 then fuel - 1 else 0, answers)
      ensures old(taken) + [DropLocal(t, k)] <= taken
      decreases fuel, 0
    {
      hide Inv, Next, HeldBelow, Frame, Clear, NoFade, Owes, Enabled, Rely;
      ghost var s0 := sys;
      var i := sys.SlotOf(t, k);
      DropFrames(t, k, s0);
      last, end := sys.count[i] == 1, Again;
      Take(DropLocal(t, k));
      ghost var s1 := sys;
      if last {
        Preempt(t, k, {i});
        ghost var s2 := sys;
        DebtKept(t, s1, s2, i);
        FrameTransitive(t, k, k, s0, s1, s2);
        PushFrames(t, k, s2, i);
        Take(PushBack(t, i));
        ghost var s3 := sys;
        FrameTransitive(t, k, k, s0, s2, s3);
        assert taken == old(taken) + [DropLocal(t, k), PushBack(t, i)];
        if fuel > 0 {
          end := PostAccept(t, k, fuel - 1, answers);
          FrameTransitive(t, k, k, s0, s3, sys);
        }
      }
    }

    /** `Listener::PostAccept`: take units while the counter is below its limit and post an accept for each, until a
        round fails. The loop and its re-entrant calls are followed for `fuel` rounds; what is ensured holds wherever
        they are cut, in which case the result is `Again`. The system answers as `answers` says, and accepts after
        that. */
    method PostAccept(t: Tid, k: nat, fuel: nat, answers: seq<Answer>) returns (end: AcceptLoop)
      requires At(sys, t, k)
      modifies `sys, `taken, `yielded
      ensures At(sys, t, k) && Frame(t, k, k, old(sys), sys) && sys.units[t] == old(sys).units[t]
      ensures LoopEnded(old(taken), taken, t, end, fuel, answers)
      decreases fuel, 3
    {
      hide Inv, Next, HeldBelow, Frame, Clear, NoFade, Owes, Rely, TookSince, Rounds;
      ghost var s0 := sys;
      FrameReflexive(t, k, k, s0);
      var left := fuel;
      end := Again;
      assert taken[|old(taken)|..] == [];
      while left > 0
        invariant left <= fuel && At(sys, t, k) && Frame(t, k, k, s0, sys) && sys.units[t] == s0.units[t]
        invariant end == Again && LoopEnded(old(taken), taken, t, Again, fuel - left, answers)
      {
        var answer := if fuel - left < |answers| then answers[fuel - left] else Accepted;
        left := left - 1;
        ghost var s1, took := sys, taken;
        Preempt(t, k, {});
        FrameTransitive(t, k, k, s0, s1, sys);
        var current := sys.pendingAccepts;
        if current >= MAX_ACCEPT {
          Looking(sys, t, AtLimit);
          Take(Sees(t, AtLimit));
          return LimitReached;
        }
        ghost var s2 := sys;
        end := Round(t, k, left, current, answer, answers);
        FrameTransitive(t, k, k, s0, s2, sys);
        RoundsNext(took[|old(taken)|..], taken[|old(taken)|..], |took| - |old(taken)|, t);
        if end != Again {
          RoundEnded(old(taken), took, taken, t, end, answers);
          return;
        }
      }
    }

    /** The compare-and-swap, which fails if the counter is not `current` any more and may fail anyway; and, if it took
        a unit, the rest of the round. */
    method Round(t: Tid, k: nat, fuel: nat, current: int, answer: Answer, answers: seq<Answer>)
      returns (end: AcceptLoop)
      requires At(sys, t, k) && current < MAX_ACCEPT
      modifies `sys, `taken, `yielded
      ensures At(sys, t, k) && Frame(t, k, k, old(sys), sys) && sys.units[t] == old(sys).units[t]
      ensures old(taken) < taken && IsRound(taken[|old(taken)|], t) && !end.LimitReached?
      ensures end.OutOfSessions? ==>
                taken == old(taken) + [TakeUnit(t), Sees(t, NoneFree), SettleUnit(t)]
      ensures end.NotPosted? ==> answer.Refused? && TookSince(old(taken), taken, SettleUnit(t))
      decreases fuel, 2
    {
      hide Inv, Next, HeldBelow, Frame, Clear, NoFade, Owes, Rely, TookSince;
      ghost var s0 := sys;
      Preempt(t, k, {});
      ghost var s1 := sys;
      var swaps: bool := *;
      if swaps && sys.pendingAccepts == current {
        UnitFrames(t, k, s1, TakeUnit(t));
        Take(TakeUnit(t));
        ghost var s2, mid := sys, taken;
        FrameTransitive(t, k, k, s0, s1, s2);
        end := PostOne(t, k, fuel, answer, answers);
        FrameTransitive(t, k, k, s0, s2, sys);
        if end.NotPosted? {
          TookWider(old(taken), mid, taken, taken, SettleUnit(t));
        }
      } else {
        Looking(sys, t, SwapFailed);
        Take(Sees(t, SwapFailed));
        end := Again;
      }
    }

    /** One round of `PostAccept`, from the unit just taken: the unit goes to the kernel or is given back. */
    method PostOne(t: Tid, k: nat, fuel: nat, answer: Answer, answers: seq<Answer>) returns (end: AcceptLoop)
      requires At(sys, t, k) && t in sys.units
      modifies `sys, `taken, `yielded
      ensures At(sys, t, k) && Frame(t, k, k, old(sys), sys) && sys.units[t] == old(sys).units[t] - 1
      ensures !end.LimitReached? && old(taken) <= taken
      ensures end.OutOfSessions? ==> taken == old(taken) + [Sees(t, NoneFree), SettleUnit(t)]
      ensures !end.OutOfSessions? ==> (end.NotPosted? <==> answer.Refused?)
      ensures end.Again? ==> exists i :: TookAccept(old(taken), taken, t, i)
      ensures end.NotPosted? ==> TookSince(old(taken), taken, SettleUnit(t))
      decreases fuel, 1
    {
      hide Inv, Next, HeldBelow, Frame, Clear, NoFade, Owes, Rely, Fresh, TookSince, TookAccept;
      ghost var s0 := sys;
      Preempt(t, k, {});
      ghost var s1 := sys;
      var found := CreateSession(t, k);
      ghost var s2 := sys;
      FrameTransitive(t, k, k, s0, s1, s2);
      if !found {
        Preempt(t, k, {});
        ghost var s4 := sys;
        FrameTransitive(t, k, k, s0, s2, s4);
        UnitFrames(t, k, s4, SettleUnit(t));
        Take(SettleUnit(t));
        FrameTransitive(t, k, k, s0, s4, sys);
        return OutOfSessions;
      }
      var i := sys.SlotOf(t, k);
      FreshUnheld(s2, t, k, i);
      ghost var took := taken;
      var posted := PostFor(t, k, i, answer);
      end := if posted then Again else NotPosted;
      ghost var s3, after := sys, taken;
      FrameWeaken(t, k, k + 1, k, s2, s3);
      FrameTransitive(t, k, k, s0, s2, s3);
      Preempt(t, k + 1, {});
      ghost var s5 := sys;
      FrameLocals(t, k + 1, k + 1, s3, s5);
      FrameNarrow(t, k, s3, s5);
      FrameTransitive(t, k, k, s0, s3, s5);
      var _, _ := ReleaseLocal(t, k, fuel, answers);
      FrameTransitive(t, k, k, s0, s5, sys);
      if posted {
        TookAcceptWider(old(taken), took, after, taken, t, i);
      } else {
        TookWider(old(taken), took, after, taken, SettleUnit(t));
      }
    }

    /** `Listener::HandleAccept` and `IocpCore::DispatchAccept`: the session is connected, or disconnected if anything
        failed. */
    method DispatchAccept(t: Tid, h: nat, k: nat, b: nat, world: World) returns (ghost seen: Seen)
      requires Serving(sys, t, h, k, b) && yielded
      requires sys.HasTurn(t, Recv(sys.SlotOf(t, h))) && Recv(sys.SlotOf(t, h)) !in sys.cells
      modifies `sys, `taken, `calls, `yielded
      ensures Served(t, h, k, b, old(sys), sys) && sys.units[t] == old(sys).units[t]
      ensures taken == old(taken) + HandleSteps(t, h, k, Recv(sys.SlotOf(t, h)), AcceptOp, 0, world, seen)
      ensures calls == old(calls) + HandlerCalls(t, sys.SlotOf(t, h), AcceptOp, false, 0, world, seen)
      ensures world.options ==> (seen.link.pending <==> old(sys).pool.state[sys.SlotOf(t, h)] == PENDING)
      ensures if Traces.Handled(AcceptOp, 0, world, seen) then
                Recv(sys.SlotOf(t, h)) !in sys.turn && CONNECTED <= sys.pool.state[sys.SlotOf(t, h)]
              else sys.pool.state[sys.SlotOf(t, h)] == DISCONNECTING
    {
      hide Inv, Next, HeldBelow, Frame, Clear, NoFade, Owes, Enabled, ConnectSteps, DisconnectSteps, Traces.Connected;
      ghost var s0 := sys;
      FrameBase(t, h, k, b, sys);
      FrameReflexive(t, b, k, sys);
      var ok := world.options;
      seen := UNSEEN;
      if ok {
        ghost var link;
        ok, link := Connect(t, h, k, b, world);
        seen := seen.(link := link);
      }
      if !ok {
        ghost var s1, already, disc := sys, false, NOTHING;
        already, disc := PauseAndDisconnect(t, h, k, b, Recv(sys.SlotOf(t, h)), world.disc);
        ServedTransitive(t, h, k, b, s0, s1, sys);
        seen := seen.(already := already, disc := disc);
      }
    }

    method PauseAndDisconnect(t: Tid, h: nat, k: nat, b: nat, c: CellId, answer: Answer)
      returns (ghost already: bool, ghost met: Met)
      requires Serving(sys, t, h, k, b)
      requires c.IsRecord() && c.slot == sys.SlotOf(t, h) && sys.HasTurn(t, c)
      requires c.Send? ==> !Pending(sys, c.slot)
      modifies `sys, `taken, `yielded
      ensures Served(t, h, k, b, old(sys), sys) && sys.pool.state[c.slot] == DISCONNECTING
      ensures taken == old(taken) + DisconnectSteps(t, h, k, c, already, met, answer)
      ensures sys.units[t] == old(sys).units[t]
    {
      hide Inv, Next, HeldBelow, Frame, Clear, NoFade, Owes, Enabled, DisconnectSteps;
      ghost var s0 := sys;
      Pause(t, h, k, b);
      ghost var s1 := sys;
      var ok: bool;
      ok, already, met := Disconnect(t, h, k, b, c, answer);
      ServedTransitive(t, h, k, b, s0, s1, sys);
    }

    /** `IocpCore::DispatchRecvSend`: no bytes, or a failed handler, disconnects the session. */
    method DispatchRecvSend(t: Tid, h: nat, k: nat, b: nat, c: CellId, op: Op, bytes: nat, world: World)
      returns (ghost seen: Seen)
      requires Serving(sys, t, h, k, b) && (op.RecvOp? || op.SendOp?) && Suits(c, op) && c.slot == sys.SlotOf(t, h)
      requires sys.HasTurn(t, c) && c !in sys.cells && (c.Send? ==> !Pending(sys, c.slot)) && yielded
      modifies `sys, `taken, `calls, `yielded
      ensures Served(t, h, k, b, old(sys), sys) && sys.units[t] == old(sys).units[t]
      ensures taken == old(taken) + HandleSteps(t, h, k, c, op, bytes, world, seen)
      ensures calls == old(calls) + HandlerCalls(t, c.slot, op, false, bytes, world, seen)
      ensures if Traces.Handled(op, bytes, world, seen) then c !in sys.turn
              else sys.pool.state[c.slot] == DISCONNECTING
    {
      hide Inv, Next, HeldBelow, Frame, Clear, NoFade, Owes, Enabled, OnRecvSteps, OnSendSteps, DisconnectSteps, Posts;
      ghost var s0 := sys;
      FrameBase(t, h, k, b, sys);
      FrameReflexive(t, b, k, sys);
      var ok := false;
      ghost var next := NOTHING;
      if bytes > 0 {
        if op.RecvOp? {
          ok, next := OnRecv(t, h, k, b, bytes, world.legal, world.recv);
        } else {
          ok, next := OnSend(t, h, k, b, bytes, world.drained, world.send);
        }
      }
      seen := UNSEEN.(next := next);
      if !ok {
        ghost var s1, already, disc := sys, false, NOTHING;
        already, disc := PauseAndDisconnect(t, h, k, b, c, world.disc);
        ServedTransitive(t, h, k, b, s0, s1, sys);
        seen := seen.(already := already, disc := disc);
      }
    }

    /** `IocpCore::Dispatch` and `IocpCore::HandleError` on a completed record, the session being in local h: the record
        is cleared and its handler called, or the session disconnected, or reset after its disconnect. */
    method Dispatch(t: Tid, h: nat, k: nat, b: nat, c: CellId, op: Op, failed: bool, bytes: nat, world: World)
      returns (ghost seen: Seen)
      requires Serving(sys, t, h, k, b) && Suits(c, op) && c.slot == sys.SlotOf(t, h)
      requires sys.HasTurn(t, c) && Counts(sys.cells, c) && (c.Send? ==> !Pending(sys, c.slot))
      requires op.DisconnectOp? && !failed ==> !sys.Online(c.slot)
      modifies `sys, `taken, `calls, `yielded
      ensures Served(t, h, k, b, old(sys), sys) && sys.units[t] == old(sys).units[t]
      ensures taken == old(taken) + DispatchSteps(t, h, k, c, op, failed, bytes, world, seen)
      ensures calls == old(calls) + HandlerCalls(t, c.slot, op, failed, bytes, world, seen)
      ensures op.DisconnectOp? ==> Table(c.slot) !in sys.cells
      ensures !op.DisconnectOp? ==> DisconnectsOr(sys, c, if op.AcceptOp? then CONNECTED else IDLE)
      ensures !op.DisconnectOp? && (failed || (bytes == 0 && !op.AcceptOp?)) ==> sys.pool.state[c.slot] == DISCONNECTING
    {
      hide Inv, Next, HeldBelow, Frame, Clear, NoFade, Owes, Enabled, DisconnectSteps, HandleSteps, ResetSteps;
      ghost var s0 := sys;
      Pause(t, h, k, b);
      ghost var s1 := sys;
      seen := UNSEEN;
      if failed && op.DisconnectOp? {
        ResetSession(t, h, k, b);
        seen := seen.(entry := Table(c.slot) in s1.cells);
        ServedTransitive(t, h, k, b, s0, s1, sys);
        return;
      }
      ResetShared(t, h, k, b, c);
      ghost var s2 := sys;
      ServedTransitive(t, h, k, b, s0, s1, s2);
      Pause(t, h, k, b);
      ghost var s3 := sys;
      ServedTransitive(t, h, k, b, s0, s2, s3);
      if failed {
        ghost var already, disc;
        already, disc := PauseAndDisconnect(t, h, k, b, c, world.disc);
        seen := seen.(already := already, disc := disc);
        ServedTransitive(t, h, k, b, s0, s3, sys);
        Framing.Associates(old(taken), ClearSteps(t, h, c), DisconnectSteps(t, h, k, c, already, disc, world.disc));
      } else {
        seen := DispatchTo(t, h, k, b, c, op, bytes, world);
        ServedTransitive(t, h, k, b, s0, s3, sys);
        Framing.Associates(old(taken), ClearSteps(t, h, c), HandleSteps(t, h, k, c, op, bytes, world, seen));
      }
    }

    /** The `switch` of `Dispatch`. */
    method DispatchTo(t: Tid, h: nat, k: nat, b: nat, c: CellId, op: Op, bytes: nat, world: World)
      returns (ghost seen: Seen)
      requires Serving(sys, t, h, k, b) && Suits(c, op) && c.slot == sys.SlotOf(t, h) && yielded
      requires sys.HasTurn(t, c) && c !in sys.cells && (c.Send? ==> !Pending(sys, c.slot))
      requires op.DisconnectOp? ==> !sys.Online(c.slot)
      modifies `sys, `taken, `calls, `yielded
      ensures Served(t, h, k, b, old(sys), sys) && sys.units[t] == old(sys).units[t]
      ensures taken == old(taken) + HandleSteps(t, h, k, c, op, bytes, world, seen)
      ensures calls == old(calls) + HandlerCalls(t, c.slot, op, false, bytes, world, seen)
      ensures op.DisconnectOp? ==> Table(c.slot) !in sys.cells
      ensures !op.DisconnectOp? ==> DisconnectsOr(sys, c, if op.AcceptOp? then CONNECTED else IDLE)
      ensures (op.RecvOp? || op.SendOp?) && bytes == 0 ==> sys.pool.state[c.slot] == DISCONNECTING
    {
      hide Inv, Next, HeldBelow, Frame, Clear, NoFade, Owes, Enabled, DisconnectSteps, ConnectSteps, ResetSteps;
      hide OnRecvSteps, OnSendSteps, Traces.Connected, Posts;
      match op
      case AcceptOp => seen := DispatchAccept(t, h, k, b, world);
      case DisconnectOp =>
        seen := UNSEEN.(entry := Table(c.slot) in sys.cells);
        ResetSession(t, h, k, b);
      case RecvOp => seen := DispatchRecvSend(t, h, k, b, c, op, bytes, world);
      case SendOp => seen := DispatchRecvSend(t, h, k, b, c, op, bytes, world);
    }

    /** The call to `Dispatch` or `HandleError`, which takes its own pointer, and the ends of both pointers' scopes. */
    method HandleWith(t: Tid, c: CellId, op: Op, failed: bool, bytes: nat, world: World, fuel: nat,
                      answers: seq<Answer>)
      returns (ghost seen: Seen)
      requires Serving(sys, t, 0, 1, 0) && Suits(c, op) && c.slot == sys.SlotOf(t, 0)
      requires sys.HasTurn(t, c) && Counts(sys.cells, c) && (c.Send? ==> !Pending(sys, c.slot))
      requires op.DisconnectOp? && !failed ==> !sys.Online(c.slot)
      modifies `sys, `taken, `calls, `yielded
      ensures At(sys, t, 0) && sys.units[t] == old(sys).units[t]
      ensures ((old(taken) + [CopyPtr(t, c, 1)]) + DispatchSteps(t, 1, 2, c, op, failed, bytes, world, seen))
                + [DropLocal(t, 1)] <= taken
      ensures calls == old(calls) + HandlerCalls(t, c.slot, op, failed, bytes, world, seen)
    {
      hide Inv, Next, HeldBelow, Frame, Clear, NoFade, Owes, Enabled, Rely, LoopEnded, DispatchSteps, HandlerCalls;
      Pause(t, 0, 1, 0);
      ghost var s1 := sys;
      NothingBelow(s1, t, c.slot);
      CopyServes(t, 1, 0, s1, c);
      Take(CopyPtr(t, c, 1));
      ghost var s2 := sys;
      FrameLocals(t, 0, 1, s1, s2);
      seen := Dispatch(t, 1, 2, 0, c, op, failed, bytes, world);
      FrameLocals(t, 0, 2, s2, sys);
      ReleaseBoth(t, fuel, answers);
    }

    /** The ends of both scopes. */
    method ReleaseBoth(t: Tid, fuel: nat, answers: seq<Answer>)
      requires At(sys, t, 2) && sys.Holds(t, 0) && sys.Holds(t, 1)
      modifies `sys, `taken, `yielded
      ensures At(sys, t, 0) && sys.units[t] == old(sys).units[t]
      ensures old(taken) + [DropLocal(t, 1)] <= taken
    {
      hide Inv, Next, HeldBelow, Frame, Clear, NoFade, Owes, Enabled, Rely, LoopEnded;
      ghost var s3 := sys;
      Preempt(t, 2, {});
      ghost var s4 := sys;
      FrameLocals(t, 2, 2, s3, s4);
      var _, _ := ReleaseLocal(t, 1, fuel, answers);
      ghost var s5 := sys;
      FrameLocals(t, 1, 1, s4, s5);
      Preempt(t, 1, {});
      FrameLocals(t, 1, 1, s5, sys);
      var _, _ := ReleaseLocal(t, 0, fuel, answers);
    }

    /** From the dequeued record to the worker's own pointer: the accept unit, if any, is the thread's. */
    method Dequeue(t: Tid, c: CellId)
      requires At(sys, t, 0) && c in sys.inflight && yielded
      modifies `sys, `taken, `yielded
      ensures Serving(sys, t, 0, 1, 0) && c.IsRecord() && c.slot == sys.SlotOf(t, 0) && Suits(c, old(sys).inflight[c])
      ensures sys.HasTurn(t, c) && Counts(sys.cells, c) && (c.Send? ==> !Pending(sys, c.slot))
      ensures c.Disc? ==> (sys.Online(c.slot) <==> old(sys).Online(c.slot))
      ensures sys.units[t] == old(sys).units[t] + if old(sys).inflight[c].AcceptOp? then 1 else 0
      ensures taken == old(taken) + [Complete(t, c), CopyPtr(t, c, 0)]
    {
      hide Inv, Next, HeldBelow, Frame, Clear, NoFade, Owes, Enabled, Rely;
      CompleteFrames(t, sys, c);
      Take(Complete(t, c));
      ghost var s1 := sys;
      Preempt(t, 0, {});
      RecordKept(t, s1, sys, c);
      NothingBelow(sys, t, c.slot);
      CopyServes(t, 0, 0, sys, c);
      Take(CopyPtr(t, c, 0));
    }

    /** `DecrementPendingAccepts`, while the worker's own pointer keeps the session. */
    method Decrement(t: Tid, c: CellId, fuel: nat, answers: seq<Answer>)
      requires Serving(sys, t, 0, 1, 0) && c.Recv? && c.slot == sys.SlotOf(t, 0)
      requires sys.HasTurn(t, c) && Counts(sys.cells, c) && t in sys.units
      modifies `sys, `taken, `yielded
      ensures Serving(sys, t, 0, 1, 0) && c.slot == sys.SlotOf(t, 0) && sys.HasTurn(t, c) && Counts(sys.cells, c)
      ensures sys.units[t] == old(sys).units[t] - 1
      ensures exists end :: LoopEnded(old(taken) + [SettleUnit(t)], taken, t, end, fuel, answers)
    {
      hide Inv, Next, HeldBelow, Frame, Clear, NoFade, Owes, Enabled, Rely;
      Pause(t, 0, 1, 0);
      SettleServes(t, 0, 1, 0, sys);
      Take(SettleUnit(t));
      ghost var s2 := sys;
      var end := PostAccept(t, 1, fuel, answers);
      FrameServes(t, 0, s2, sys, c);
    }

    /** One round of `IocpCore::WorkerThread`: the completion is dispatched, after the unit of an accept is given back;
        and however the handlers end, the thread is left with no local pointer, no half-done reset and the accept units
        it came with. A disconnect that did not fail has disconnected the socket. */
    method HandleCompletion(t: Tid, c: CellId, failed: bool, bytes: nat, world: World, fuel: nat,
                            answers: seq<Answer>)
      returns (ghost head: seq<Step>, ghost seen: Seen)
      requires At(sys, t, 0) && c in sys.inflight && yielded
      requires c.Disc? && !failed ==> !sys.Online(c.slot)
      modifies `sys, `taken, `calls, `yielded
      ensures At(sys, t, 0) && sys.units[t] == old(sys).units[t] && !c.Local?
      ensures var op := old(sys).inflight[c];
              && (if op.AcceptOp? then
                    exists end :: LoopEnded(old(taken) + [Complete(t, c), CopyPtr(t, c, 0), SettleUnit(t)], head, t,
                                            end, fuel, answers)
                  else head == old(taken) + [Complete(t, c), CopyPtr(t, c, 0)])
              && ((head + [CopyPtr(t, c, 1)]) + DispatchSteps(t, 1, 2, c, op, failed, bytes, world, seen))
                   + [DropLocal(t, 1)] <= taken
              && calls == old(calls) + HandlerCalls(t, c.slot, op, failed, bytes, world, seen)
    {
      hide Inv, Next, HeldBelow, Frame, Clear, NoFade, Owes, Enabled, Rely, Serving, At, LoopEnded, DispatchSteps;
      hide HandlerCalls;
      var op := sys.inflight[c];
      Dequeue(t, c);
      if op.AcceptOp? {
        Decrement(t, c, fuel, answers);
        assert (old(taken) + [Complete(t, c), CopyPtr(t, c, 0)]) + [SettleUnit(t)] ==
               old(taken) + [Complete(t, c), CopyPtr(t, c, 0), SettleUnit(t)];
      }
      head := taken;
      seen := HandleWith(t, c, op, failed, bytes, world, fuel, answers);
    }

    // ---- The packet worker ----

    /** `PacketHandler::SendToSession` on the slot half of a handle: whatever incarnation the table entry names, its
        pointer is taken and the packet sent. The pointer is always valid. */
    method SendToSession(t: Tid, i: nat, packet: seq<Framing.byte>, fits: bool, answer: Answer, fuel: nat,
                         answers: seq<Answer>)
      returns (reached: bool, ghost flag: bool, ghost met: Met)
      requires At(sys, t, 0) && yielded
      modifies `sys, `taken, `calls, `yielded
      ensures At(sys, t, 0) && sys.units[t] == old(sys).units[t] && old(taken) <= taken
      ensures reached <==> Table(i) in old(sys).cells
      ensures i < |old(sys).pool.state| && old(sys).pool.state[i] == CONNECTED ==> reached
      ensures if reached then
                ((old(taken) + [CopyPtr(t, Table(i), 0)]) + SendSteps(t, 0, 1, i, fits, flag, met, answer))
                  + [DropLocal(t, 0)] <= taken
              else sys == old(sys) && taken == old(taken) + [Sees(t, EntryNull(i))]
      ensures calls == old(calls) + if reached then [Call.SendPacket(t, i, packet)] else []
    {
      hide Inv, Next, HeldBelow, Frame, Clear, NoFade, Owes, Enabled, Rely;
      hide LoopEnded, OtherRecords, Pending, SendSteps, Sent;
      ConnectedIsListed(sys, i);
      reached, flag, met := Table(i) in sys.cells, false, NOTHING;
      if reached {
        NothingBelow(sys, t, i);
        CopyServes(t, 0, 0, sys, Table(i));
        Take(CopyPtr(t, Table(i), 0));
        Pause(t, 0, 1, 0);
        FrameBase(t, 0, 1, 0, sys);
        // IsValid holds: the pointer's generation is the slot's
        PointerIsLive(sys, Local(t, 0));
        ghost var s0 := sys;
        var ok: bool;
        ok, met := SendPacket(t, 0, 1, 0, packet, fits, answer);
        flag := s0.isSending[i];
        ghost var s1 := sys;
        Preempt(t, 1, {});
        FrameLocals(t, 1, 1, s1, sys);
        var _, _ := ReleaseLocal(t, 0, fuel, answers);
      } else {
        Looking(sys, t, EntryNull(i));
        Take(Sees(t, EntryNull(i)));
      }
    }

    /** `PacketHandler::Broadcast` while every other thread runs: the sessions connected when they are listed, except
        the sender, are tried once each, in some order, and nobody else. Trying a session is a look at its table
        entry; the packet is sent once to each session whose entry was not null then, and to nobody else. */
    method Broadcast(t: Tid, sender: Ref, packet: seq<Framing.byte>, fuel: nat, answers: seq<Answer>)
      returns (tried: seq<nat>, ghost looks: seq<Step>)
      requires At(sys, t, 0)
      modifies `sys, `taken, `calls, `yielded
      ensures At(sys, t, 0) && sys.units[t] == old(sys).units[t] && old(taken) <= taken
      ensures forall i: nat :: i in tried <==> Addressed(old(sys), sender, i)
      ensures forall a, b :: 0 <= a < b < |tried| ==> tried[a] != tried[b]
      ensures LooksAt(looks, t, tried) && InOrder(looks, taken[|old(taken)|..])
      ensures calls == old(calls) + CallsFor(looks, packet)
    {
      hide Inv, Next, HeldBelow, Frame, Clear, NoFade, Owes, Enabled, Rely, At, InOrder, CallsFor;
      ghost var s0, took := sys, taken;
      var listed := sys.pool;
      ShapeAt(sys, t, 0);
      tried, looks := [], [];
      NoLooks(packet);
      assert taken[|took|..] == [];
      var i := 0;
      while i < |listed.state|
        invariant 0 <= i <= |listed.state| && At(sys, t, 0) && sys.units[t] == s0.units[t] && took <= taken
        invariant forall j: nat :: j in tried <==> j < i && Addressed(s0, sender, j)
        invariant forall a :: 0 <= a < |tried| ==> tried[a] < i
        invariant forall a, b :: 0 <= a < b < |tried| ==> tried[a] != tried[b]
        invariant LooksAt(looks, t, tried) && InOrder(looks, taken[|took|..])
        invariant calls == old(calls) + CallsFor(looks, packet)
      {
        if listed.state[i] == CONNECTED && Ref(i, listed.generation[i]) != sender {
          Hurry(t);
          ghost var before := taken;
          var fits: bool, answer: Answer := *, *;
          ghost var flag, met;
          var reached: bool;
          reached, flag, met := SendToSession(t, i, packet, fits, answer, fuel, answers);
          tried := tried + [i];
          LookedAgain(looks, before[|took|..], taken[|took|..], |before| - |took|);
          CalledAgain(looks, taken[|before|], packet);
          looks := looks + [taken[|before|]];
        }
        i := i + 1;
      }
    }

    /** `Preempt` for a thread with no locals at all. */
    method Hurry(t: Tid)
      requires At(sys, t, 0)
      modifies `sys, `yielded
      ensures At(sys, t, 0) && sys.units[t] == old(sys).units[t] && yielded
    {
      Preempt(t, 0, {});
    }
  }
}
