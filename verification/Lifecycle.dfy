/** The reference-counted session pool as a step machine: every atomic step any thread can take on slots,
    counted pointer cells, overlapped records and the accept counter, in any interleaving. */
module Lifecycle {
  import opened Handles
  import opened SparseSets

  const IDLE := 0
  const PENDING := 1
  const CONNECTED := 2
  const DISCONNECTING := 3
  const STATE_COUNT := 4
  const MAX_ACCEPT: nat := 1000

  type Tid = nat

  /** A decoded handle; `HandleCodecInverse` shows that the encoded form carries the same pair. */
  datatype Ref = Ref(who: nat, generation: uint32)

  /** Every place that can hold a counting pointer to a session: the manager's table, the three overlapped
      records inside the session, and the local variables of threads. */
  datatype CellId =
    | Table(slot: nat)
    | Recv(slot: nat)
    | Send(slot: nat)
    | Disc(slot: nat)
    | Local(tid: Tid, k: nat)
  {
    predicate IsRecord() {
      Recv? || Send? || Disc?
    }

    /** The record a thread must have in its hands to reset this shared cell: a table entry is reset only on
        completion of the session's disconnect. */
    function Key(): CellId
      requires !Local?
    {
      if Table? then Disc(slot) else this
    }
  }

  /** A non-null pointer. While it is reset, the count is given up first and the fields are cleared later: in
      between it is `Fading`, and local `via` of the resetting thread names the same session. */
  datatype Ptr = Counted(h: Ref) | Fading(h: Ref, owner: Tid, via: nat)

  datatype Op = AcceptOp | RecvOp | SendOp | DisconnectOp

  /** The record each operation is posted on; an accept borrows the receive record. */
  predicate Suits(c: CellId, op: Op) {
    match op
    case AcceptOp => c.Recv?
    case RecvOp => c.Recv?
    case SendOp => c.Send?
    case DisconnectOp => c.Disc?
  }

  /** Who popped a slot and under which generation. */
  datatype Claim = Claim(tid: Tid, generation: uint32)

  datatype Sys = Sys(
    pool: View,
    count: seq<int>,
    /** Non-null pointers only. */
    cells: map<CellId, Ptr>,
    /** Slots popped and initialised whose first reference is not counted yet. */
    claimed: map<nat, Claim>,
    /** Slots whose last reference was dropped by a thread that still owes the push. */
    dying: map<nat, Tid>,
    /** Slots not yet entered in the manager's table in this incarnation. */
    unlisted: map<nat, Tid>,
    /** Operations owned by the kernel. */
    inflight: map<CellId, Op>,
    /** Records the kernel owns although they were posted with a null pointer. */
    orphans: set<CellId>,
    /** Records a thread may fill and post: the claimer's, the completing worker's, the send-flag holder's. */
    turn: map<CellId, Tid>,
    /** Sessions a thread moved to the disconnecting state and has not yet tried to disconnect. */
    duty: map<nat, Tid>,
    attempts: seq<nat>,
    isSending: seq<bool>,
    /** Whether the session's socket is connected: a receive or send posted on one that is not fails. */
    online: seq<bool>,
    pendingAccepts: int,
    /** One entry per accept unit a thread holds: taken and not posted, or completed and not given back. */
    units: multiset<Tid>,
    /** Accept units spent on calls that failed without the program noticing. */
    lost: nat)
  {
    ghost predicate Holds(t: Tid, k: nat) {
      Local(t, k) in cells && cells[Local(t, k)].Counted?
    }

    function SlotOf(t: Tid, k: nat): nat
      requires Holds(t, k)
    {
      cells[Local(t, k)].h.who
    }

    predicate Online(i: nat) {
      i < |online| && online[i]
    }

    ghost predicate HasTurn(t: Tid, c: CellId) {
      c in turn && turn[c] == t
    }
  }

  /** Session i is pending and no connection was accepted on its socket yet. */
  ghost predicate Pending(s: Sys, i: nat) {
    i < |s.pool.state| && s.pool.state[i] == PENDING && !s.Online(i)
  }

  // ---- The steps ----

  /** What a thread may find when it looks: a null table entry; a session not pending; a send flag that is set; a socket
      that is not connected; no free slot; the accept counter at its limit; a compare-and-swap that failed, as a weak
      one always may. */
  datatype Sight =
    | EntryNull(slot: nat)
    | NotPending(slot: nat)
    | FlagSet(slot: nat)
    | Offline(slot: nat)
    | NoneFree
    | AtLimit
    | SwapFailed

  datatype Step =
    | Pop(t: Tid, i: nat)
    | FirstRef(t: Tid, i: nat, k: nat)
    | CopyPtr(t: Tid, src: CellId, k: nat)
    | StoreTable(t: Tid, k: nat)
    | StoreRecord(t: Tid, k: nat, c: CellId)
    | DropLocal(t: Tid, k: nat)
    | SubShared(t: Tid, c: CellId, k: nat)
    | NullShared(t: Tid, c: CellId)
    | PushBack(t: Tid, i: nat)
    | Connect(t: Tid, k: nat)
    | BeginDisconnect(t: Tid, k: nat, c: CellId)
    | AttemptDisconnect(t: Tid, i: nat)
    | Post(t: Tid, c: CellId, op: Op)
    | PostNull(t: Tid, c: CellId, op: Op)
    | PostLost(t: Tid, c: CellId, op: Op)
    | Complete(t: Tid, c: CellId)
    | Establish(t: Tid, i: nat)
    | Hangup(t: Tid, i: nat)
    | TakeSend(t: Tid, i: nat)
    | GiveSend(t: Tid, i: nat)
    | TakeUnit(t: Tid)
    | SettleUnit(t: Tid)
    | Sees(t: Tid, what: Sight)

  /** Thread t is not half-way through resetting a shared cell. */
  ghost predicate NoFade(cells: map<CellId, Ptr>, t: Tid) {
    forall c :: c in cells && cells[c].Fading? ==> cells[c].owner != t
  }

  /** What the code guarantees where it takes each step. Resetting a shared cell is never interrupted by other
      work of the same thread, because it never drops a last reference (`SharedIsNeverLast`). `Establish` and
      `Hangup` are the kernel's: a socket is connected by an accept, once in an incarnation, and disconnected only by
      a disconnect that succeeds. The send flag may be set by a thread with no pointer to the session. */
  ghost predicate Enabled(s: Sys, step: Step) {
    && (step.NullShared? || step.Establish? || step.Hangup? || NoFade(s.cells, step.t))
    && match step
       case Pop(t, i) => i < |s.pool.state| && s.pool.state[i] == IDLE
       case FirstRef(t, i, k) => i in s.claimed && s.claimed[i].tid == t && Local(t, k) !in s.cells
       case CopyPtr(t, src, k) =>
         && src in s.cells && Local(t, k) !in s.cells
         && (src.Local? ==> src.tid == t)
         && (src.IsRecord() ==> s.HasTurn(t, src))
       case StoreTable(t, k) =>
         s.Holds(t, k) && s.SlotOf(t, k) in s.unlisted && s.unlisted[s.SlotOf(t, k)] == t
       case StoreRecord(t, k, c) =>
         && s.Holds(t, k) && c.IsRecord() && c.slot == s.SlotOf(t, k)
         && s.HasTurn(t, c) && c !in s.cells && c.slot !in s.unlisted
       case DropLocal(t, k) => s.Holds(t, k)
       case SubShared(t, c, k) =>
         && !c.Local? && Counts(s.cells, c) && s.HasTurn(t, c.Key())
         && s.Holds(t, k) && s.SlotOf(t, k) == c.slot
         && (s.Online(c.slot) ==> !c.Disc? && (c.Table? ==> Counts(s.cells, Disc(c.slot))))
       case NullShared(t, c) => c in s.cells && s.cells[c].Fading? && s.cells[c].owner == t
       case PushBack(t, i) => i in s.dying && s.dying[i] == t
       case Connect(t, k) => s.Holds(t, k) && s.HasTurn(t, Recv(s.SlotOf(t, k))) && s.SlotOf(t, k) !in s.unlisted
       case BeginDisconnect(t, k, c) =>
         && s.Holds(t, k) && c.IsRecord() && c.slot == s.SlotOf(t, k) && s.HasTurn(t, c)
         && (c.Send? ==> !Pending(s, c.slot))
       case AttemptDisconnect(t, i) => i in s.duty && s.duty[i] == t
       case Post(t, c, op) =>
         && Suits(c, op) && s.HasTurn(t, c) && Counts(s.cells, c)
         && (op.AcceptOp? ==> t in s.units) && (op.RecvOp? || op.SendOp? ==> s.Online(c.slot))
         && (op.DisconnectOp? ==> Counts(s.cells, Table(c.slot)))
       case PostNull(t, c, op) =>
         && Suits(c, op) && s.HasTurn(t, c) && c !in s.cells
         && (op.RecvOp? || op.SendOp?) && s.Online(c.slot) && Table(c.slot) !in s.cells
       case PostLost(t, c, op) =>
         && Suits(c, op) && s.HasTurn(t, c) && Counts(s.cells, c) && Unnoticed(op)
         && (op.AcceptOp? ==> t in s.units)
       case Complete(t, c) => c in s.inflight
       case Establish(t, i) =>
         && Recv(i) in s.inflight && s.inflight[Recv(i)].AcceptOp? && i < |s.online| == |s.attempts|
         && s.attempts[i] == 0
       case Hangup(t, i) => Disc(i) in s.inflight && i < |s.online|
       case TakeSend(t, i) => i < |s.isSending| && !s.isSending[i]
       case GiveSend(t, i) => s.HasTurn(t, Send(i)) && Send(i) !in s.cells
       case TakeUnit(t) => s.pendingAccepts < MAX_ACCEPT
       case SettleUnit(t) => t in s.units
       case Sees(t, what) => Sighted(s, what)
  }

  /** `AcceptEx` and `DisconnectEx` return a boolean, which is compared with `SOCKET_ERROR` and never equals it. */
  predicate Unnoticed(op: Op) {
    op.AcceptOp? || op.DisconnectOp?
  }

  ghost predicate Sighted(s: Sys, what: Sight) {
    match what
    case EntryNull(i) => Table(i) !in s.cells
    case NotPending(i) => i < |s.pool.state| && s.pool.state[i] != PENDING
    case FlagSet(i) => i < |s.isSending| && s.isSending[i]
    case Offline(i) => !s.Online(i)
    case NoneFree => forall i :: 0 <= i < |s.pool.state| ==> s.pool.state[i] != IDLE
    case AtLimit => MAX_ACCEPT <= s.pendingAccepts
    case SwapFailed => true
  }

  ghost predicate Counts(cells: map<CellId, Ptr>, c: CellId) {
    c in cells && cells[c].Counted?
  }

  /** `fetch_add(1)` on the count of a slot. */
  function Increment(s: Sys, i: nat): Sys
    requires i < |s.count|
  {
    s.(count := s.count[i := s.count[i] + 1])
  }

  /** `fetch_sub(1)` by thread t; whoever brings the count from one to zero owes the push. */
  function Decrement(s: Sys, i: nat, t: Tid): Sys
    requires i < |s.count|
  {
    s.(count := s.count[i := s.count[i] - 1],
       dying := if s.count[i] == 1 then s.dying[i := t] else s.dying)
  }

  function DoPop(s: Sys, t: Tid, i: nat): Sys
    requires Shape(s) && i < N(s)
  {
    s.(pool := s.pool.Moved(i, PENDING),
       count := s.count[i := 0],
       cells := s.cells - {Recv(i), Send(i), Disc(i)},
       claimed := s.claimed[i := Claim(t, s.pool.generation[i])],
       unlisted := s.unlisted[i := t],
       turn := (s.turn - {Send(i), Disc(i)})[Recv(i) := t],
       attempts := s.attempts[i := 0],
       isSending := s.isSending[i := false],
       online := s.online[i := false])
  }

  function DoFirstRef(s: Sys, t: Tid, i: nat, k: nat): Sys
    requires Shape(s) && i in s.claimed && i < N(s)
  {
    Increment(s, i).(cells := s.cells[Local(t, k) := Counted(Ref(i, s.claimed[i].generation))],
                     claimed := s.claimed - {i})
  }

  function DoCopyPtr(s: Sys, t: Tid, src: CellId, k: nat): Sys
    requires Shape(s) && src in s.cells && s.cells[src].h.who < N(s)
  {
    Increment(s, s.cells[src].h.who).(cells := s.cells[Local(t, k) := Counted(s.cells[src].h)])
  }

  /** Moving a local into another cell leaves every count alone. */
  function MovedInto(s: Sys, t: Tid, k: nat, c: CellId): map<CellId, Ptr>
    requires s.Holds(t, k)
  {
    (s.cells - {Local(t, k)})[c := s.cells[Local(t, k)]]
  }

  function DoDropLocal(s: Sys, t: Tid, k: nat): Sys
    requires Shape(s) && s.Holds(t, k) && s.SlotOf(t, k) < N(s)
  {
    Decrement(s, s.SlotOf(t, k), t).(cells := s.cells - {Local(t, k)})
  }

  function DoSubShared(s: Sys, t: Tid, c: CellId, k: nat): Sys
    requires Shape(s) && c in s.cells && s.cells[c].h.who < N(s)
  {
    Decrement(s, s.cells[c].h.who, t).(cells := s.cells[c := Fading(s.cells[c].h, t, k)])
  }

  function DoPushBack(s: Sys, i: nat): (n: Sys)
    requires Shape(s) && i < N(s)
    ensures n.cells == s.cells
  {
    s.(pool := s.pool.Pushed(i), dying := s.dying - {i}, duty := s.duty - {i})
  }

  function DoConnect(s: Sys, i: nat): (n: Sys)
    requires Shape(s) && i < N(s)
    ensures n == s.(pool := n.pool)
  {
    if s.pool.state[i] == PENDING then s.(pool := s.pool.Moved(i, CONNECTED)) else s
  }

  function DoBeginDisconnect(s: Sys, t: Tid, i: nat): (n: Sys)
    requires Shape(s) && i < N(s)
    ensures n == s.(pool := n.pool, duty := n.duty)
  {
    if s.pool.state[i] == PENDING || s.pool.state[i] == CONNECTED then
      s.(pool := s.pool.Moved(i, DISCONNECTING), duty := s.duty[i := t])
    else s
  }

  function DoAttemptDisconnect(s: Sys, t: Tid, i: nat): (n: Sys)
    requires Shape(s) && i < N(s)
    ensures n.cells == s.cells
  {
    s.(duty := s.duty - {i}, attempts := s.attempts[i := s.attempts[i] + 1], turn := s.turn[Disc(i) := t])
  }

  function DoPost(s: Sys, t: Tid, c: CellId, op: Op): (n: Sys)
    ensures n.cells == s.cells
  {
    s.(turn := s.turn - {c}, inflight := s.inflight[c := op],
       units := if op.AcceptOp? then s.units - multiset{t} else s.units)
  }

  /** Posted with a null pointer in its record: the kernel has the record from now on. Its completion, which would
      dereference the null pointer, is not followed further. */
  function DoPostNull(s: Sys, c: CellId): (n: Sys)
    ensures n.cells == s.cells
  {
    s.(turn := s.turn - {c}, orphans := s.orphans + {c})
  }

  /** The call failed and the program took it for a success: nobody has the record any more, and its pointer stays. */
  function DoPostLost(s: Sys, t: Tid, c: CellId, op: Op): (n: Sys)
    ensures n.cells == s.cells
  {
    s.(turn := s.turn - {c},
       units := if op.AcceptOp? then s.units - multiset{t} else s.units,
       lost := if op.AcceptOp? then s.lost + 1 else s.lost)
  }

  function DoComplete(s: Sys, t: Tid, c: CellId): (n: Sys)
    requires c in s.inflight
    ensures n.cells == s.cells
  {
    s.(inflight := s.inflight - {c}, turn := s.turn[c := t],
       units := if s.inflight[c].AcceptOp? then s.units + multiset{t} else s.units)
  }

  /** The kernel accepts a connection on a session's socket, some time before the accept's completion is seen. */
  function DoEstablish(s: Sys, i: nat): (n: Sys)
    requires i < |s.online|
    ensures n.cells == s.cells
  {
    s.(online := s.online[i := true])
  }

  /** A disconnect succeeds, some time before its completion is seen. */
  function DoHangup(s: Sys, i: nat): (n: Sys)
    requires i < |s.online|
    ensures n.cells == s.cells
  {
    s.(online := s.online[i := false])
  }

  function DoStoreTable(s: Sys, t: Tid, k: nat): Sys
    requires s.Holds(t, k)
  {
    s.(cells := MovedInto(s, t, k, Table(s.SlotOf(t, k))), unlisted := s.unlisted - {s.SlotOf(t, k)})
  }

  function DoStoreRecord(s: Sys, t: Tid, k: nat, c: CellId): Sys
    requires s.Holds(t, k)
  {
    s.(cells := MovedInto(s, t, k, c))
  }

  function DoNullShared(s: Sys, c: CellId): Sys {
    s.(cells := s.cells - {c})
  }

  function DoTakeSend(s: Sys, t: Tid, i: nat): (n: Sys)
    requires i < |s.isSending|
    ensures n.cells == s.cells
  {
    s.(isSending := s.isSending[i := true], turn := s.turn[Send(i) := t])
  }

  function DoGiveSend(s: Sys, i: nat): (n: Sys)
    requires i < |s.isSending|
    ensures n.cells == s.cells
  {
    s.(isSending := s.isSending[i := false], turn := s.turn - {Send(i)})
  }

  function DoTakeUnit(s: Sys, t: Tid): (n: Sys)
    ensures n.cells == s.cells
  {
    s.(pendingAccepts := s.pendingAccepts + 1, units := s.units + multiset{t})
  }

  function DoSettleUnit(s: Sys, t: Tid): (n: Sys)
    ensures n.cells == s.cells
  {
    s.(pendingAccepts := s.pendingAccepts - 1, units := s.units - multiset{t})
  }

  function Next(s: Sys, step: Step): Sys
    requires Inv(s) && Enabled(s, step)
  {
    hide Covered, Keyed, Conserved, InFlight, Sends, Unlisted, Pendings, Attempted, Listed, Accepts, Linked, Orphaned;
    match step
    case Pop(t, i) => DoPop(s, t, i)
    case FirstRef(t, i, k) => DoFirstRef(s, t, i, k)
    case CopyPtr(t, src, k) => DoCopyPtr(s, t, src, k)
    case StoreTable(t, k) => DoStoreTable(s, t, k)
    case StoreRecord(t, k, c) => DoStoreRecord(s, t, k, c)
    case DropLocal(t, k) => DoDropLocal(s, t, k)
    case SubShared(t, c, k) => DoSubShared(s, t, c, k)
    case NullShared(t, c) => DoNullShared(s, c)
    case PushBack(t, i) => DoPushBack(s, i)
    case Connect(t, k) => DoConnect(s, s.SlotOf(t, k))
    case BeginDisconnect(t, k, c) => DoBeginDisconnect(s, t, s.SlotOf(t, k))
    case AttemptDisconnect(t, i) => DoAttemptDisconnect(s, t, i)
    case Post(t, c, op) => DoPost(s, t, c, op)
    case PostNull(t, c, op) => DoPostNull(s, c)
    case PostLost(t, c, op) => DoPostLost(s, t, c, op)
    case Complete(t, c) => DoComplete(s, t, c)
    case Establish(t, i) => DoEstablish(s, i)
    case Hangup(t, i) => DoHangup(s, i)
    case TakeSend(t, i) => DoTakeSend(s, t, i)
    case GiveSend(t, i) => DoGiveSend(s, i)
    case TakeUnit(t) => DoTakeUnit(s, t)
    case SettleUnit(t) => DoSettleUnit(s, t)
    case Sees(t, what) => s
  }

  // ---- The invariant, part by part; each part names the fields it depends on ----

  function N(s: Sys): nat {
    |s.count|
  }

  ghost predicate Shape(s: Sys) {
    && N(s) < TWO_32
    && s.pool.WellFormed(N(s), STATE_COUNT)
    && |s.attempts| == |s.isSending| == |s.online| == N(s)
  }

  /** The pointer cells that count towards slot i. */
  ghost function CountedAt(cells: map<CellId, Ptr>, i: nat): set<CellId> {
    set c | c in cells && cells[c].Counted? && cells[c].h.who == i
  }

  /** Every pointer names a slot in use under its current generation; shared cells name their own session. */
  ghost predicate Naming(pool: View, cells: map<CellId, Ptr>)
    requires |pool.state| == |pool.generation|
  {
    forall c :: c in cells ==>
      && cells[c].h.who < |pool.state|
      && cells[c].h.generation == pool.generation[cells[c].h.who]
      && pool.state[cells[c].h.who] != IDLE
      && (if c.Local? then cells[c].Counted? else c.slot == cells[c].h.who)
  }

  /** A pointer half-way through its reset is covered by a local of the thread resetting it. */
  ghost predicate Covered(cells: map<CellId, Ptr>) {
    forall c :: c in cells && cells[c].Fading? ==> CoveredBy(cells, cells[c], Local(cells[c].owner, cells[c].via))
  }

  /** The thread resetting a shared cell has the cell's key in its hands, so no two threads reset the same cell. */
  ghost predicate Keyed(cells: map<CellId, Ptr>, turn: map<CellId, Tid>) {
    forall c :: c in cells && cells[c].Fading? ==>
      !c.Local? && c.Key() in turn && turn[c.Key()] == cells[c].owner
  }

  ghost predicate CoveredBy(cells: map<CellId, Ptr>, p: Ptr, l: CellId) {
    l in cells && cells[l].Counted? && cells[l].h.who == p.h.who
  }

  ghost predicate Conserved(count: seq<int>, cells: map<CellId, Ptr>) {
    forall i :: 0 <= i < |count| ==> count[i] == |CountedAt(cells, i)|
  }

  /** A slot is free, claimed, live or dying, and nothing else. */
  ghost predicate Phases(pool: View, count: seq<int>, unlisted: map<nat, Tid>, claimed: map<nat, Claim>,
                         dying: map<nat, Tid>)
    requires |pool.state| == |pool.generation| == |count|
  {
    && (forall i :: i in claimed ==>
          && i < |count| && pool.state[i] != IDLE && claimed[i].generation == pool.generation[i]
          && count[i] == 0 && i !in dying && i in unlisted && unlisted[i] == claimed[i].tid)
    && (forall i :: i in dying ==> i < |count| && pool.state[i] != IDLE && count[i] == 0)
    && (forall i :: 0 <= i < |count| && pool.state[i] != IDLE && count[i] == 0 ==> i in claimed || i in dying)
  }

  /** The kernel owns only records that suit the operation and name their session. */
  ghost predicate InFlight(inflight: map<CellId, Op>, cells: map<CellId, Ptr>) {
    forall c :: c in inflight ==> Suits(c, inflight[c]) && c in cells && cells[c].Counted?
  }

  /** While the send flag is clear the send record is null. */
  ghost predicate Sends(isSending: seq<bool>, cells: map<CellId, Ptr>) {
    forall i :: 0 <= i < |isSending| && !isSending[i] ==> Send(i) !in cells
  }

  /** A record is the kernel's or some thread's, never both; the send record only while the flag is set. */
  ghost predicate Turns(turn: map<CellId, Tid>, inflight: map<CellId, Op>, isSending: seq<bool>) {
    && (forall c :: c in turn ==> c.IsRecord() && c.slot < |isSending| && c !in inflight)
    && (forall i :: 0 <= i < |isSending| && !isSending[i] ==> Send(i) !in inflight && Send(i) !in turn)
  }

  /** Until its creator enters it in the table, a session is named by locals of its creator alone. */
  ghost predicate Unlisted(unlisted: map<nat, Tid>, cells: map<CellId, Ptr>, dying: map<nat, Tid>) {
    && (forall c :: c in cells && cells[c].h.who in unlisted ==> c.Local? && c.tid == unlisted[cells[c].h.who])
    && (forall i :: i in dying && i in unlisted ==> dying[i] == unlisted[i])
  }

  /** No send is under way on a pending session that nobody connected to. A pending session has no disconnect under
      way; until it is listed its receive record, if still in anyone's hands, is its creator's. */
  ghost predicate Pendings(state: seq<nat>, online: seq<bool>, turn: map<CellId, Tid>, inflight: map<CellId, Op>,
                           unlisted: map<nat, Tid>) {
    && (forall i: nat :: Send(i) in inflight ==> i < |online| && i < |state| && (online[i] || state[i] != PENDING))
    && (forall i :: 0 <= i < |state| && state[i] == PENDING ==>
          && Disc(i) !in turn && Disc(i) !in inflight
          && (i in unlisted && Recv(i) in turn ==> turn[Recv(i)] == unlisted[i]))
  }

  /** Within one incarnation the disconnecting state is entered once and leads to at most one attempt. */
  ghost predicate Disconnects(state: seq<nat>, attempts: seq<nat>, duty: map<nat, Tid>)
    requires |state| == |attempts|
  {
    && (forall i :: i in duty ==> i < |state| && state[i] != IDLE)
    && (forall i :: 0 <= i < |state| && state[i] != IDLE ==>
          attempts[i] + (if i in duty then 1 else 0) == if state[i] == DISCONNECTING then 1 else 0)
  }

  /** A disconnect record is used only after an attempt. */
  ghost predicate Attempted(state: seq<nat>, attempts: seq<nat>, turn: map<CellId, Tid>, inflight: map<CellId, Op>,
                            cells: map<CellId, Ptr>)
    requires |state| == |attempts|
  {
    forall i :: 0 <= i < |state| && state[i] != IDLE && (Disc(i) in turn || Disc(i) in inflight || Disc(i) in cells) ==>
      attempts[i] == 1
  }

  /** A listed session stays in the manager's table until its disconnect is attempted; a connected one is listed. */
  ghost predicate Listed(state: seq<nat>, attempts: seq<nat>, cells: map<CellId, Ptr>, unlisted: map<nat, Tid>)
    requires |state| == |attempts|
  {
    && (forall i :: 0 <= i < |state| && state[i] != IDLE && i !in unlisted && attempts[i] == 0 ==>
          Table(i) in cells && cells[Table(i)].Counted?)
    && (forall i :: 0 <= i < |state| && state[i] == CONNECTED ==> i !in unlisted)
  }

  ghost function AcceptsInFlight(inflight: map<CellId, Op>): set<CellId> {
    set c | c in inflight && inflight[c].AcceptOp?
  }

  /** The counter is the accepts the kernel owns, the units threads hold, and those lost. */
  ghost predicate Accepts(pendingAccepts: int, units: multiset<Tid>, lost: nat, inflight: map<CellId, Op>) {
    pendingAccepts == |units| + |AcceptsInFlight(inflight)| + lost && pendingAccepts <= MAX_ACCEPT
  }

  /** A connected socket belongs to a listed session that its table entry or its disconnect record names; the kernel
      has a disconnect only of a session with a table entry. */
  ghost predicate Linked(state: seq<nat>, online: seq<bool>, unlisted: map<nat, Tid>, inflight: map<CellId, Op>,
                         cells: map<CellId, Ptr>)
    requires |state| == |online|
  {
    && (forall i :: 0 <= i < |online| && online[i] ==>
          state[i] != IDLE && i !in unlisted && (Counts(cells, Table(i)) || Counts(cells, Disc(i))))
    && (forall i: nat :: Disc(i) in inflight ==> Counts(cells, Table(i)))
  }

  /** A record posted null is a receive or send record in nobody else's hands, null for good; its session is no longer
      in the table, its socket is still connected, and its disconnect record, which nobody has posted, names it. */
  ghost predicate Orphaned(orphans: set<CellId>, online: seq<bool>, isSending: seq<bool>, turn: map<CellId, Tid>,
                           inflight: map<CellId, Op>, cells: map<CellId, Ptr>)
    requires |online| == |isSending|
  {
    forall c :: c in orphans ==>
      && (c.Recv? || c.Send?) && c !in turn && c !in inflight && c !in cells
      && c.slot < |online| && online[c.slot] && (c.Send? ==> isSending[c.slot])
      && Table(c.slot) !in cells && Counts(cells, Disc(c.slot)) && Disc(c.slot) !in inflight
  }

  ghost predicate Inv(s: Sys) {
    && Shape(s)
    && Naming(s.pool, s.cells)
    && Covered(s.cells)
    && Keyed(s.cells, s.turn)
    && Conserved(s.count, s.cells)
    && Phases(s.pool, s.count, s.unlisted, s.claimed, s.dying)
    && InFlight(s.inflight, s.cells)
    && Sends(s.isSending, s.cells)
    && Turns(s.turn, s.inflight, s.isSending)
    && Unlisted(s.unlisted, s.cells, s.dying)
    && Pendings(s.pool.state, s.online, s.turn, s.inflight, s.unlisted)
    && Disconnects(s.pool.state, s.attempts, s.duty)
    && Attempted(s.pool.state, s.attempts, s.turn, s.inflight, s.cells)
    && Listed(s.pool.state, s.attempts, s.cells, s.unlisted)
    && Accepts(s.pendingAccepts, s.units, s.lost, s.inflight)
    && Linked(s.pool.state, s.online, s.unlisted, s.inflight, s.cells)
    && Orphaned(s.orphans, s.online, s.isSending, s.turn, s.inflight, s.cells)
  }
}
