/** The steps the code of an I/O thread takes, as sequences: one function for each piece of code, of what the system
    answered and of what the thread saw. */
module Traces {
  import opened Lifecycle
  import Framing

  /** How the system answers a call: it takes the operation; it fails; or it fails with a value the program takes for
      success, which only an accept or a disconnect can (`Unnoticed`). */
  datatype Answer = Accepted | Refused | Unheard

  /** What a `Register` method met: a pointer to fill its record with, and a connected socket. */
  datatype Met = Met(filled: bool, online: bool)

  const NOTHING := Met(false, false)

  /** Whether a `Register` method returns true. */
  predicate Posts(op: Op, met: Met, answer: Answer) {
    if Unnoticed(op) then !answer.Refused? else answer.Accepted? && met.online
  }

  function FillSteps(t: Tid, k: nat, c: CellId, filled: bool): seq<Step>
    requires !c.Local?
  {
    if filled then [CopyPtr(t, Table(c.slot), k), StoreRecord(t, k, c)] else [Sees(t, EntryNull(c.slot))]
  }

  /** The two halves of resetting cell c, under the thread's local h. */
  function ClearSteps(t: Tid, h: nat, c: CellId): seq<Step> {
    [SubShared(t, c, h), NullShared(t, c)]
  }

  function HandSteps(t: Tid, h: nat, c: CellId, op: Op, met: Met, answer: Answer): seq<Step>
    requires !c.Local?
  {
    if Posts(op, met, answer) then
      [if answer.Unheard? then PostLost(t, c, op) else if met.filled then Post(t, c, op) else PostNull(t, c, op)]
    else if Unnoticed(op) then []
    else
      (if answer.Accepted? then [Sees(t, Offline(c.slot))] else []) + if met.filled then ClearSteps(t, h, c) else []
  }

  function RegisterSteps(t: Tid, h: nat, k: nat, c: CellId, op: Op, met: Met, answer: Answer): seq<Step>
    requires !c.Local?
  {
    FillSteps(t, k, c, met.filled) + HandSteps(t, h, c, op, met, answer)
  }

  /** `Session::Disconnect`, by a thread that found the session disconnecting already or not. */
  function DisconnectSteps(t: Tid, h: nat, k: nat, c: CellId, already: bool, met: Met, answer: Answer): seq<Step>
    requires !c.Local?
  {
    [BeginDisconnect(t, h, c)] +
    if already then []
    else [AttemptDisconnect(t, c.slot)] + RegisterSteps(t, h, k, Disc(c.slot), DisconnectOp, met, answer)
  }

  /** `Session::SendPacket`, by a thread that found the flag set or not. */
  function SendSteps(t: Tid, h: nat, k: nat, i: nat, fits: bool, flag: bool, met: Met, answer: Answer): seq<Step> {
    if !fits then []
    else if flag then [Sees(t, FlagSet(i))]
    else [TakeSend(t, i)] + RegisterSteps(t, h, k, Send(i), SendOp, met, answer)
  }

  predicate Sent(fits: bool, flag: bool, met: Met, answer: Answer) {
    fits && (flag || Posts(SendOp, met, answer))
  }

  function OnSendSteps(t: Tid, h: nat, k: nat, i: nat, drained: bool, met: Met, answer: Answer): seq<Step> {
    if drained then [GiveSend(t, i)] else RegisterSteps(t, h, k, Send(i), SendOp, met, answer)
  }

  function OnRecvSteps(t: Tid, h: nat, k: nat, i: nat, legal: bool, met: Met, answer: Answer): seq<Step> {
    if legal then RegisterSteps(t, h, k, Recv(i), RecvOp, met, answer) else []
  }

  /** What `Session::Connect` met: the pending state; then the send flag, its welcome send and its first receive. */
  datatype Linkup = Linkup(pending: bool, flag: bool, send: Met, recv: Met)

  predicate Welcomed(link: Linkup, world: World) {
    Sent(world.fits, link.flag, link.send, world.send)
  }

  predicate Connected(link: Linkup, world: World) {
    link.pending && Welcomed(link, world) && Posts(RecvOp, link.recv, world.recv)
  }

  function ConnectSteps(t: Tid, h: nat, k: nat, i: nat, world: World, link: Linkup): seq<Step> {
    if !link.pending then [Sees(t, NotPending(i))]
    else
      [Step.Connect(t, h)] +
      (SendSteps(t, h, k, i, world.fits, link.flag, link.send, world.send) +
       if Welcomed(link, world) then RegisterSteps(t, h, k, Recv(i), RecvOp, link.recv, world.recv) else [])
  }

  /** `Session::Reset`. */
  function ResetSteps(t: Tid, h: nat, i: nat, entry: bool): seq<Step> {
    if entry then ClearSteps(t, h, Table(i)) else [Sees(t, EntryNull(i))]
  }

  /** What is outside the program when a completion is dispatched: whether the socket options can be set, the welcome
      packet and whether it fits, whether the bytes received are legal frames, whether the bytes sent drain the ring,
      and how the system answers the calls for a send, a receive and a disconnect. */
  datatype World = World(
    options: bool, welcome: seq<Framing.byte>, fits: bool, legal: bool, drained: bool,
    send: Answer, recv: Answer, disc: Answer)

  /** What the thread met while it dispatched a completion: in `Connect`; in the next send or receive it registered; in
      `Disconnect`, whether the session was disconnecting already and the record; and the table entry. */
  datatype Seen = Seen(link: Linkup, next: Met, already: bool, disc: Met, entry: bool)

  const UNSEEN := Seen(Linkup(false, false, NOTHING, NOTHING), NOTHING, false, NOTHING, false)

  /** The handler of an operation that did not fail returns true. */
  predicate Handled(op: Op, bytes: nat, world: World, seen: Seen) {
    match op
    case AcceptOp => world.options && Connected(seen.link, world)
    case RecvOp => bytes > 0 && world.legal && Posts(RecvOp, seen.next, world.recv)
    case SendOp => bytes > 0 && (world.drained || Posts(SendOp, seen.next, world.send))
    case DisconnectOp => true
  }

  function HandlerSteps(t: Tid, h: nat, k: nat, i: nat, op: Op, bytes: nat, world: World, seen: Seen): seq<Step> {
    match op
    case AcceptOp => if world.options then ConnectSteps(t, h, k, i, world, seen.link) else []
    case RecvOp => if bytes > 0 then OnRecvSteps(t, h, k, i, world.legal, seen.next, world.recv) else []
    case SendOp => if bytes > 0 then OnSendSteps(t, h, k, i, world.drained, seen.next, world.send) else []
    case DisconnectOp => ResetSteps(t, h, i, seen.entry)
  }

  /** A handler and, if it returned false or was not called for want of bytes, the disconnect. */
  function HandleSteps(t: Tid, h: nat, k: nat, c: CellId, op: Op, bytes: nat, world: World, seen: Seen): seq<Step>
    requires !c.Local?
  {
    HandlerSteps(t, h, k, c.slot, op, bytes, world, seen) +
    if Handled(op, bytes, world, seen) then []
    else DisconnectSteps(t, h, k, c, seen.already, seen.disc, world.disc)
  }

  /** `IocpCore::Dispatch`, or `HandleError` if the operation failed. */
  function DispatchSteps(t: Tid, h: nat, k: nat, c: CellId, op: Op, failed: bool, bytes: nat, world: World, seen: Seen)
    : seq<Step>
    requires !c.Local?
  {
    if failed && op.DisconnectOp? then ResetSteps(t, h, c.slot, seen.entry)
    else
      ClearSteps(t, h, c) +
      if failed then DisconnectSteps(t, h, k, c, seen.already, seen.disc, world.disc)
      else HandleSteps(t, h, k, c, op, bytes, world, seen)
  }

  // ---- Calls ----

  /** Calls of a session's methods: by which thread, on which session, with which packet or how many bytes. */
  datatype Call =
    | SendPacket(tid: Tid, slot: nat, packet: seq<Framing.byte>)
    | OnRecv(tid: Tid, slot: nat, bytes: nat)
    | OnSend(tid: Tid, slot: nat, bytes: nat)

  function HandlerCalls(t: Tid, i: nat, op: Op, failed: bool, bytes: nat, world: World, seen: Seen): seq<Call> {
    if failed then []
    else
      match op
      case AcceptOp => if world.options && seen.link.pending then [Call.SendPacket(t, i, world.welcome)] else []
      case RecvOp => if bytes > 0 then [Call.OnRecv(t, i, bytes)] else []
      case SendOp => if bytes > 0 then [Call.OnSend(t, i, bytes)] else []
      case DisconnectOp => []
  }

  // ---- What a dispatched completion leads to ----

  lemma InJoined(a: seq<Step>, b: seq<Step>, step: Step)
    ensures step in a + b <==> step in a || step in b
  {
    if step in a {
      var k :| 0 <= k < |a| && a[k] == step;
      assert (a + b)[k] == step;
    }
    if step in b {
      var k :| 0 <= k < |b| && b[k] == step;
      assert (a + b)[|a| + k] == step;
    }
  }

  lemma RegisterBegins(t: Tid, h: nat, k: nat, c: CellId, op: Op, met: Met, answer: Answer, step: Step)
    requires !c.Local? && (step.BeginDisconnect? || step.Connect? || step.GiveSend?)
    ensures step !in RegisterSteps(t, h, k, c, op, met, answer)
  {
  }

  /** The session is disconnected exactly if its operation failed, or moved no bytes, or its handler returned false. */
  lemma DisconnectsIff(t: Tid, h: nat, k: nat, c: CellId, op: Op, failed: bool, bytes: nat, world: World, seen: Seen)
    requires Suits(c, op)
    ensures BeginDisconnect(t, h, c) in DispatchSteps(t, h, k, c, op, failed, bytes, world, seen) <==>
              !op.DisconnectOp? &&
              (failed || ((op.RecvOp? || op.SendOp?) && bytes == 0) || !Handled(op, bytes, world, seen))
  {
    var step, i := BeginDisconnect(t, h, c), c.slot;
    var handler := HandlerSteps(t, h, k, i, op, bytes, world, seen);
    var end := DisconnectSteps(t, h, k, c, seen.already, seen.disc, world.disc);
    InJoined(ClearSteps(t, h, c), end, step);
    InJoined(ClearSteps(t, h, c), HandleSteps(t, h, k, c, op, bytes, world, seen), step);
    InJoined(handler, if Handled(op, bytes, world, seen) then [] else end, step);
    assert end[0] == step;
    HandlersBegin(t, h, k, i, op, bytes, world, seen, step);
  }

  lemma HandlersBegin(t: Tid, h: nat, k: nat, i: nat, op: Op, bytes: nat, world: World, seen: Seen, step: Step)
    requires step.BeginDisconnect?
    ensures step !in HandlerSteps(t, h, k, i, op, bytes, world, seen)
  {
    RegisterBegins(t, h, k, Send(i), SendOp, seen.next, world.send, step);
    RegisterBegins(t, h, k, Recv(i), RecvOp, seen.next, world.recv, step);
    RegisterBegins(t, h, k, Send(i), SendOp, seen.link.send, world.send, step);
    RegisterBegins(t, h, k, Recv(i), RecvOp, seen.link.recv, world.recv, step);
  }

  /** A completed send that drained the ring clears the record and the flag, and nothing else. */
  lemma DrainedClearsFlag(t: Tid, h: nat, k: nat, c: CellId, bytes: nat, world: World, seen: Seen)
    requires c.Send? && bytes > 0 && world.drained
    ensures DispatchSteps(t, h, k, c, SendOp, false, bytes, world, seen) ==
              [SubShared(t, c, h), NullShared(t, c), GiveSend(t, c.slot)]
  {
  }

  /** A receive with legal bytes ends with the next receive posted, or with the disconnect. */
  lemma ReceiveGoesOn(t: Tid, h: nat, k: nat, c: CellId, bytes: nat, world: World, seen: Seen)
    requires c.Recv? && bytes > 0 && world.legal && world.recv.Accepted? && seen.next == Met(true, true)
    ensures DispatchSteps(t, h, k, c, RecvOp, false, bytes, world, seen) ==
              [SubShared(t, c, h), NullShared(t, c), CopyPtr(t, Table(c.slot), k), StoreRecord(t, k, c),
               Post(t, c, RecvOp)]
  {
  }

  /** An accepted connection is connected exactly if its socket options could be set and it was still pending. */
  lemma ConnectsIff(t: Tid, h: nat, k: nat, c: CellId, failed: bool, bytes: nat, world: World, seen: Seen)
    requires c.Recv?
    ensures Step.Connect(t, h) in DispatchSteps(t, h, k, c, AcceptOp, failed, bytes, world, seen) <==>
              !failed && world.options && seen.link.pending
  {
    var step, i := Step.Connect(t, h), c.slot;
    var handler := HandlerSteps(t, h, k, i, AcceptOp, bytes, world, seen);
    var end := DisconnectSteps(t, h, k, c, seen.already, seen.disc, world.disc);
    InJoined(ClearSteps(t, h, c), end, step);
    InJoined(ClearSteps(t, h, c), HandleSteps(t, h, k, c, AcceptOp, bytes, world, seen), step);
    InJoined(handler, if Handled(AcceptOp, bytes, world, seen) then [] else end, step);
    RegisterBegins(t, h, k, Disc(i), DisconnectOp, seen.disc, world.disc, step);
    if world.options && seen.link.pending {
      assert handler[0] == step;
    }
  }
}
