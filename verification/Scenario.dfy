/** One run of a server with a single slot, step by step as its code takes them. An accept is posted and completed, the
    new session's welcome packet completes with no bytes, and the disconnect this leads to fails, all while another
    worker is about to post the session's first receive. The failed disconnect empties the table entry and leaves the
    socket connected, so that the receive is posted and names no session. */
module Scenario {
  import opened Handles
  import opened SparseSets
  import opened Lifecycle
  import opened LifecycleInvariant
  import opened LifecycleSteps
  import opened LifecycleRuns
  import opened Interference
  import opened Frames

  // ---- Runs, one step at a time ----

  ghost predicate Leads(a: Sys, b: Sys) {
    Inv(a) && exists steps :: Runs(a, steps, b)
  }

  lemma {:induction false} RunExtends(a: Sys, steps: seq<Step>, b: Sys, step: Step)
    requires Inv(a) && Runs(a, steps, b) && Inv(b) && Enabled(b, step)
    ensures Runs(a, steps + [step], Next(b, step))
    decreases |steps|
  {
    hide Inv, Enabled;
    if steps == [] {
      assert [step][1..] == [];
    } else {
      NextKeeps(a, steps[0]);
      assert (steps + [step])[1..] == steps[1..] + [step];
      RunExtends(Next(a, steps[0]), steps[1..], b, step);
    }
  }

  /** The session's only incarnation. */
  const P := Counted(Ref(0, 0))

  /** Every pointer names it, and none is half-way through a reset. */
  ghost predicate Whole(cells: map<CellId, Ptr>) {
    forall c :: c in cells ==> cells[c] == P
  }

  ghost predicate Reached(s: Sys) {
    Inv(s) && Leads(Start(1), s) && N(s) == |s.attempts| == |s.online| == 1
  }

  ghost predicate Here(s: Sys) {
    Reached(s) && Whole(s.cells)
  }

  lemma Takes(s: Sys, step: Step) returns (r: Sys)
    requires Reached(s) && Enabled(s, step)
    ensures r == Next(s, step) && Reached(r)
  {
    hide Inv, Enabled, Next;
    var steps :| Runs(Start(1), steps, s);
    RunExtends(Start(1), steps, s, step);
    NextKeeps(s, step);
    StepSize(s, step);
    ShapeOf(Next(s, step));
    return Next(s, step);
  }

  lemma Begins() returns (s: Sys)
    ensures Here(s) && s == Start(1)
  {
    StartKeeps(1);
    assert Runs(Start(1), [], Start(1));
    return Start(1);
  }

  // ---- What each kind of step does here ----

  lemma Copies(s: Sys, t: Tid, src: CellId, k: nat) returns (r: Sys)
    requires Here(s) && src in s.cells && !src.Local? && Local(t, k) !in s.cells
    requires src.IsRecord() ==> s.HasTurn(t, src)
    ensures Here(r) && r == s.(count := r.count, cells := s.cells[Local(t, k) := P])
  {
    hide Inv, Leads;
    r := Takes(s, CopyPtr(t, src, k));
  }

  lemma Stores(s: Sys, t: Tid, k: nat, c: CellId) returns (r: Sys)
    requires Here(s) && Local(t, k) in s.cells && c.IsRecord() && c.slot == 0 && s.HasTurn(t, c) && c !in s.cells
    requires 0 !in s.unlisted
    ensures Here(r) && r == s.(cells := (s.cells - {Local(t, k)})[c := P])
  {
    hide Inv, Leads;
    r := Takes(s, StoreRecord(t, k, c));
  }

  lemma Drops(s: Sys, t: Tid, k: nat) returns (r: Sys)
    requires Here(s) && Local(t, k) in s.cells
    ensures Here(r) && r == s.(count := r.count, dying := r.dying, cells := s.cells - {Local(t, k)})
  {
    hide Inv, Leads;
    r := Takes(s, DropLocal(t, k));
  }

  lemma Resets(s: Sys, t: Tid, c: CellId, k: nat) returns (r: Sys)
    requires Here(s) && Local(t, k) in s.cells && !c.Local? && c.slot == 0 && c in s.cells && s.HasTurn(t, c.Key())
    requires s.Online(0) ==> !c.Disc? && (c.Table? ==> Disc(0) in s.cells)
    ensures Here(r) && r == s.(count := r.count, dying := r.dying, cells := s.cells - {c})
  {
    hide Inv, Leads;
    var mid := Takes(s, SubShared(t, c, k));
    r := Takes(mid, NullShared(t, c));
  }

  lemma Posts(s: Sys, t: Tid, c: CellId, op: Op) returns (r: Sys)
    requires Here(s) && Suits(c, op) && c in s.cells && s.HasTurn(t, c) && c.slot == 0
    requires (op.AcceptOp? ==> t in s.units) && (op.RecvOp? || op.SendOp? ==> s.Online(0))
    requires op.DisconnectOp? ==> Table(0) in s.cells
    ensures Here(r) && r == s.(turn := s.turn - {c}, inflight := s.inflight[c := op], units := r.units)
  {
    hide Inv, Leads;
    r := Takes(s, Post(t, c, op));
  }

  lemma Completes(s: Sys, t: Tid, c: CellId) returns (r: Sys)
    requires Here(s) && c in s.inflight
    ensures Here(r) && r == s.(inflight := s.inflight - {c}, turn := s.turn[c := t], units := r.units)
    ensures s.inflight[c].AcceptOp? ==> t in r.units
  {
    hide Inv, Leads;
    r := Takes(s, Complete(t, c));
  }

  lemma TakesUnit(s: Sys, t: Tid) returns (r: Sys)
    requires Here(s) && s.pendingAccepts < MAX_ACCEPT
    ensures Here(r) && t in r.units
    ensures r == s.(pendingAccepts := s.pendingAccepts + 1, units := r.units)
  {
    hide Inv, Leads;
    r := Takes(s, TakeUnit(t));
  }

  lemma SettlesUnit(s: Sys, t: Tid) returns (r: Sys)
    requires Here(s) && t in s.units
    ensures Here(r) && r == s.(pendingAccepts := s.pendingAccepts - 1, units := r.units)
  {
    hide Inv, Leads;
    r := Takes(s, SettleUnit(t));
  }

  lemma TakesFlag(s: Sys, t: Tid) returns (r: Sys)
    requires Here(s) && s.isSending == [false]
    ensures Here(r) && r == s.(isSending := r.isSending, turn := s.turn[Send(0) := t])
  {
    hide Inv, Leads;
    r := Takes(s, TakeSend(t, 0));
  }

  // ---- The run ----

  /** Thread 0 claims the slot, lists the session and posts an accept on it. */
  lemma PostsAccept() returns (s: Sys)
    ensures Here(s) && s.cells == map[Table(0) := P, Recv(0) := P]
    ensures s.inflight == map[Recv(0) := AcceptOp] && s.turn == map[]
    ensures s.pool.state == [PENDING] && s.unlisted == map[] && s.isSending == [false] && s.pendingAccepts == 1
    ensures s.attempts == [0]
  {
    hide Leads, Inv;
    s := Creates();
    s := Copies(s, 0, Table(0), 1);
    s := Stores(s, 0, 1, Recv(0));
    s := Posts(s, 0, Recv(0), AcceptOp);
    s := Drops(s, 0, 0);
  }

  /** `CreateSession`. */
  lemma Creates() returns (s: Sys)
    ensures Here(s) && s.cells == map[Table(0) := P, Local(0, 0) := P]
    ensures s.inflight == map[] && s.turn == map[Recv(0) := 0] && 0 in s.units
    ensures s.pool.state == [PENDING] && s.unlisted == map[] && s.isSending == [false] && s.pendingAccepts == 1
    ensures s.attempts == [0]
  {
    hide Leads;
    s := Begins();
    s := TakesUnit(s, 0);
    s := Claims(s);
    s := Copies(s, 0, Table(0), 0);
  }

  lemma Claims(s: Sys) returns (r: Sys)
    requires Here(s) && s == Start(1).(pendingAccepts := 1, units := s.units)
    ensures Here(r) && r.cells == map[Table(0) := P] && r.inflight == map[] && r.turn == map[Recv(0) := 0]
    ensures r.pool.state == [PENDING] && r.unlisted == map[] && r.isSending == [false]
    ensures r.pendingAccepts == 1 && r.units == s.units && r.attempts == [0]
  {
    hide Inv, Leads;
    r := Takes(s, Pop(0, 0));
    r := Takes(r, FirstRef(0, 0, 0));
    r := Takes(r, StoreTable(0, 0));
  }

  /** The kernel accepts a connection; worker 1 takes the completion and finds no slot for another accept. */
  lemma Arrives() returns (s: Sys)
    ensures Here(s) && s.cells == map[Table(0) := P, Recv(0) := P, Local(1, 0) := P]
    ensures s.inflight == map[] && s.turn == map[Recv(0) := 1] && s.Online(0)
    ensures s.pool.state == [PENDING] && s.unlisted == map[] && s.isSending == [false]
  {
    hide Leads, Inv;
    s := PostsAccept();
    s := Takes(s, Establish(3, 0));
    s := Completes(s, 1, Recv(0));
    s := Copies(s, 1, Recv(0), 0);
    s := SettlesUnit(s, 1);
    s := TakesUnit(s, 1);
    s := SettlesUnit(s, 1);
  }

  /** Worker 1 connects the session. */
  lemma Connects() returns (s: Sys)
    ensures Here(s) && s.cells == map[Table(0) := P, Local(1, 0) := P, Local(1, 1) := P]
    ensures s.inflight == map[] && s.turn == map[Recv(0) := 1] && s.Online(0)
    ensures s.pool.state == [CONNECTED] && s.unlisted == map[] && s.isSending == [false]
  {
    hide Leads, Inv;
    s := Arrives();
    s := Copies(s, 1, Recv(0), 1);
    s := Resets(s, 1, Recv(0), 1);
    s := Takes(s, Step.Connect(1, 1));
  }

  /** Worker 1 sends the welcome packet. */
  lemma Welcomes() returns (s: Sys)
    ensures Here(s) && s.cells == map[Table(0) := P, Send(0) := P, Local(1, 0) := P, Local(1, 1) := P]
    ensures s.inflight == map[Send(0) := SendOp] && s.turn == map[Recv(0) := 1]
    ensures s.Online(0) && s.pool.state == [CONNECTED] && s.unlisted == map[]
  {
    hide Leads, Inv;
    s := Connects();
    s := TakesFlag(s, 1);
    s := Copies(s, 1, Table(0), 2);
    s := Stores(s, 1, 2, Send(0));
    s := Posts(s, 1, Send(0), SendOp);
  }

  /** The welcome packet completes with no bytes. */
  lemma Closes() returns (s: Sys)
    ensures Here(s)
    ensures s.cells == map[Table(0) := P, Local(1, 0) := P, Local(1, 1) := P, Local(2, 0) := P, Local(2, 1) := P]
    ensures s.inflight == map[] && s.turn == map[Recv(0) := 1, Send(0) := 2] && s.unlisted == map[]
    ensures s.Online(0) && s.pool.state == [CONNECTED]
  {
    hide Leads, Inv;
    s := Welcomes();
    s := Completes(s, 2, Send(0));
    s := Copies(s, 2, Send(0), 0);
    s := Copies(s, 2, Send(0), 1);
    s := Resets(s, 2, Send(0), 1);
  }

  /** Worker 2 begins the disconnect. */
  lemma BeginsDisconnect() returns (s: Sys)
    ensures Here(s) && s.Online(0)
    ensures s.cells == map[Table(0) := P, Local(1, 0) := P, Local(1, 1) := P, Local(2, 0) := P, Local(2, 1) := P]
    ensures s.inflight == map[] && s.turn == map[Recv(0) := 1, Send(0) := 2, Disc(0) := 2] && s.unlisted == map[]
  {
    hide Leads, Inv;
    s := Closes();
    s := Takes(s, BeginDisconnect(2, 1, Send(0)));
    s := Tries(s);
  }

  lemma Tries(s: Sys) returns (r: Sys)
    requires Here(s) && 0 in s.duty && s.duty[0] == 2
    ensures Here(r) && r == s.(duty := r.duty, attempts := r.attempts, turn := s.turn[Disc(0) := 2])
  {
    hide Leads, Inv;
    r := Takes(s, AttemptDisconnect(2, 0));
  }

  /** Worker 2 fills the disconnect record from the table. */
  lemma FillsDisconnect() returns (s: Sys)
    ensures Here(s) && s.Online(0) && s.inflight == map[] && s.unlisted == map[]
    ensures s.turn == map[Recv(0) := 1, Send(0) := 2, Disc(0) := 2]
    ensures s.cells == map[Table(0) := P, Disc(0) := P, Local(1, 0) := P, Local(1, 1) := P, Local(2, 0) := P,
                           Local(2, 1) := P]
  {
    hide Leads, Inv;
    s := BeginsDisconnect();
    s := Copies(s, 2, Table(0), 2);
    s := Stores(s, 2, 2, Disc(0));
  }

  /** Worker 2 posts the disconnect. */
  lemma PostsDisconnect() returns (s: Sys)
    ensures Here(s) && s.cells == map[Table(0) := P, Disc(0) := P, Local(1, 0) := P, Local(1, 1) := P]
    ensures s.inflight == map[Disc(0) := DisconnectOp] && s.turn == map[Recv(0) := 1, Send(0) := 2] && s.Online(0)
  {
    hide Leads, Inv;
    s := FillsDisconnect();
    s := Posts(s, 2, Disc(0), DisconnectOp);
    s := Drops(s, 2, 1);
    s := Drops(s, 2, 0);
  }

  /** A reachable state in which a disconnect has succeeded and a worker is ready to take its completion. */
  lemma DisconnectDoneIsReachable()
    ensures exists steps, s :: Runs(Init(1), steps, s) && Disc(0) in s.inflight && !s.Online(0) && At(s, 3, 0)
  {
    hide Inv, At;
    var s := PostsDisconnect();
    s := HangsUp(s);
    BystanderIsFree(s);
    var steps :| Runs(Start(1), steps, s);
    assert Runs(Init(1), steps, s);
  }

  lemma HangsUp(s: Sys) returns (r: Sys)
    requires Here(s) && Disc(0) in s.inflight
    ensures Here(r) && r == s.(online := [false])
  {
    hide Leads, Inv;
    r := Takes(s, Hangup(9, 0));
  }

  lemma BystanderIsFree(s: Sys)
    requires Here(s) && s.cells == map[Table(0) := P, Disc(0) := P, Local(1, 0) := P, Local(1, 1) := P]
    ensures At(s, 3, 0)
  {
    hide Inv, Leads;
    PointerIsLive(s, Table(0));
    Bounded(s);
  }

  /** The disconnect fails; worker 2 resets the session's table entry and leaves the disconnect record as it is. */
  lemma ResetsEntry() returns (s: Sys)
    ensures Here(s) && Recv(0) !in s.cells && Table(0) !in s.cells && s.HasTurn(1, Recv(0)) && s.Online(0)
  {
    hide Leads, Inv;
    s := PostsDisconnect();
    s := Completes(s, 2, Disc(0));
    s := Copies(s, 2, Disc(0), 0);
    s := Copies(s, 2, Disc(0), 1);
    s := Resets(s, 2, Table(0), 1);
  }

  /** A reachable state in which the kernel owns an accept and a worker is ready to take its completion. */
  lemma AcceptInFlightIsReachable()
    ensures exists steps, s :: Runs(Init(1), steps, s) && Recv(0) in s.inflight && At(s, 1, 0)
  {
    hide Inv, At;
    var s := PostsAccept();
    WorkerIsFree(s);
    var steps :| Runs(Start(1), steps, s);
    assert Runs(Init(1), steps, s);
  }

  lemma WorkerIsFree(s: Sys)
    requires Here(s) && s.cells == map[Table(0) := P, Recv(0) := P]
    ensures At(s, 1, 0)
  {
    hide Inv, Leads;
    PointerIsLive(s, Table(0));
    Bounded(s);
  }

  /** Worker 1 now posts the first receive, and its record names no session. */
  lemma NullPostIsReachable()
    ensures exists steps, s :: Runs(Init(1), steps, s) && Inv(s) && Enabled(s, PostNull(1, Recv(0), RecvOp))
  {
    hide Inv, Next;
    var s := ResetsEntry();
    var steps :| Runs(Start(1), steps, s);
    assert Runs(Init(1), steps, s);
  }
}
