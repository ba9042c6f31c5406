/** All interleavings of the receiving threads with the packet worker, over the memory of the packet pool: every copy
    writes the bytes the code copies, wherever they end. */
module TaskRuns {
  import opened Framing
  import opened Options
  import opened Blocks
  import opened ReceivePath
  import opened Tasks

  // ---- The machine ----

  /** One connection: all bytes received so far and those not yet cut into packets. */
  datatype Conn = Conn(stream: seq<byte>, window: seq<byte>)

  /** A handler being called: the id it was called for and the slot of its copy. */
  datatype Call = Call(id: nat, slot: nat)

  datatype Hall = Hall(
    conns: seq<Conn>,
    /** The packet pool: so many slots, and the memory they are in. */
    slots: nat,
    memory: seq<byte>,
    pushed: seq<Task>,
    queue: seq<Task>,
    /** The task the worker has popped and not finished, and the handler it is in, if any. */
    current: Option<Task>,
    call: Option<Call>,
    done: seq<Done>,
    stopping: bool)
  {
    /** The slot belongs to a queued task, the current one or its handler. */
    ghost predicate Busy(slot: nat) {
      || (exists k :: 0 <= k < |queue| && queue[k].slot == slot)
      || (current.Some? && current.value.slot == slot)
      || (call.Some? && call.value.slot == slot)
    }

    /** The pool hands out slots that belong to nobody. */
    ghost predicate Spare(slot: nat) {
      slot < slots && !Busy(slot)
    }

    /** The slots in use are the pool's, and its memory is large enough. */
    ghost predicate Roomy() {
      && BlockOf(slots) + BEHIND <= |memory|
      && (forall k :: 0 <= k < |queue| ==> queue[k].slot < slots)
      && (current.Some? ==> current.value.slot < slots)
      && (call.Some? ==> call.value.slot < slots)
    }
  }

  datatype Step =
    | Arrive(i: nat, chunk: seq<byte>)
    | Cut(i: nat, slot: nat)
    | Pop
    | Execute(copy: nat)
    | ChatReply(slot: nat, head: seq<byte>)
    | Finish
    | Shutdown
    | Other(slot: nat, bytes: seq<byte>)

  /** `Other` is whoever else uses the pool, within its own slot: the packets other code builds, and the handle and
      count fields the pool itself writes when a slot changes hands. */
  ghost predicate Enabled(s: Hall, step: Step, limit: nat) {
    match step
    case Arrive(i, chunk) => i < |s.conns|
    case Cut(i, slot) => i < |s.conns| && Peek(s.conns[i].window, limit).Frame? && s.Spare(slot)
    case Pop => s.current.None? && s.queue != [] && !s.stopping
    case Execute(copy) => s.current.Some? && s.call.None? && s.Spare(copy)
    case ChatReply(slot, head) =>
      && s.call.Some? && s.call.value.id == CHAT_ID && s.Spare(slot) && |head| == CHAT_HEAD && s.Roomy()
      && HEADER_SIZE <= SizeAt(s.memory, s.call.value.slot)
    case Finish => s.current.Some? && s.call.Some?
    case Shutdown => true
    case Other(slot, bytes) => s.Spare(slot) && |bytes| <= SLOT_SIZE
  }

  /** One turn of the parse loop: the packet at the front is copied into a block, posted and stepped over. */
  ghost function DoCut(s: Hall, i: nat, slot: nat, limit: nat): (n: Hall)
    requires s.Roomy() && i < |s.conns| && Peek(s.conns[i].window, limit).Frame? && slot < s.slots
    ensures n.Roomy() && n.slots == s.slots && |n.conns| == |s.conns|
  {
    var conn := s.conns[i];
    var size := Peek(conn.window, limit).size;
    var task := Task(i, slot, conn.window[..size]);
    s.(conns := s.conns[i := conn.(window := conn.window[size..])],
       memory := Overlaid(s.memory, BlockOf(slot), conn.window[..size]),
       pushed := s.pushed + [task], queue := s.queue + [task])
  }

  /** The worker looks at the header in the current task's slot: the task is dropped, or its handler is called. */
  ghost function DoExecute(s: Hall, copy: nat): (n: Hall)
    requires s.Roomy() && s.current.Some? && copy < s.slots
    ensures n.Roomy() && n.slots == s.slots && n.conns == s.conns
  {
    var task := s.current.value;
    if Known(IdAt(s.memory, task.slot)) then
      s.(memory := Executed(s.memory, task, copy), call := Some(Call(IdAt(s.memory, task.slot), copy)))
    else s.(current := None, done := s.done + [Dropped(task)])
  }

  /** The chat handler's answer: a new header with the sender's handle, then the message it was sent. */
  ghost function ChatAnswer(memory: seq<byte>, copy: nat, head: seq<byte>): (a: seq<byte>)
    requires Room(memory, copy) && HEADER_SIZE <= SizeAt(memory, copy)
    ensures |a| == |head| + SizeAt(memory, copy) - HEADER_SIZE
  {
    head + PacketAt(memory, copy)[HEADER_SIZE..]
  }

  /** The handler saw what its slot holds. */
  ghost function DoFinish(s: Hall): (n: Hall)
    requires s.Roomy() && s.current.Some? && s.call.Some?
    ensures n.Roomy() && n.slots == s.slots && n.conns == s.conns
  {
    var call := s.call.value;
    s.(current := None, call := None,
       done := s.done + [Handled(s.current.value, call.id, PacketAt(s.memory, call.slot))])
  }

  ghost function Next(s: Hall, step: Step, limit: nat): (n: Hall)
    requires s.Roomy() && Enabled(s, step, limit)
    ensures n.Roomy() && n.slots == s.slots && |n.conns| == |s.conns|
  {
    hide DoCut, DoExecute, DoFinish, Peek, PacketAt, SizeAt, Overlaid;
    match step
    case Arrive(i, chunk) =>
      s.(conns := s.conns[i := Conn(s.conns[i].stream + chunk, s.conns[i].window + chunk)])
    case Cut(i, slot) => DoCut(s, i, slot, limit)
    case Pop => s.(queue := s.queue[1..], current := Some(s.queue[0]))
    case Execute(copy) => DoExecute(s, copy)
    case ChatReply(slot, head) =>
      s.(memory := Overlaid(s.memory, BlockOf(slot), ChatAnswer(s.memory, s.call.value.slot, head)))
    case Finish => DoFinish(s)
    case Shutdown => s.(stopping := true)
    case Other(slot, bytes) => s.(memory := Overlaid(s.memory, BlockOf(slot), bytes))
  }

  ghost predicate Runs(s: Hall, steps: seq<Step>, s': Hall, limit: nat)
    requires s.Roomy()
    decreases |steps|
  {
    if steps == [] then s' == s
    else Enabled(s, steps[0], limit) && Runs(Next(s, steps[0], limit), steps[1..], s', limit)
  }

  /** Any memory may be there at the start. */
  ghost function Start(n: nat, slots: nat, memory: seq<byte>): (s: Hall)
    requires BlockOf(slots) + BEHIND <= |memory|
    ensures s.Roomy()
  {
    Hall(seq(n, _ => Conn([], [])), slots, memory, [], [], None, None, [], false)
  }

  // ---- Order ----

  /** The bytes a run delivers to connection i, in order. */
  function StreamOf(steps: seq<Step>, i: nat): seq<byte> {
    if steps == [] then []
    else (if steps[0].Arrive? && steps[0].i == i then steps[0].chunk else []) + StreamOf(steps[1..], i)
  }

  /** The packets of session i among the tasks, in order. */
  function PacketsOf(tasks: seq<Task>, i: nat): seq<seq<byte>> {
    if tasks == [] then []
    else (if tasks[0].session == i then [tasks[0].frame] else []) + PacketsOf(tasks[1..], i)
  }

  /** Tasks popped so far. */
  function Popped(s: Hall): seq<Task> {
    TasksOf(s.done) + if s.current.Some? then [s.current.value] else []
  }

  ghost predicate Ordered(s: Hall, limit: nat) {
    && Popped(s) + s.queue == s.pushed
    && (forall k :: 0 <= k < |s.pushed| ==>
          s.pushed[k].session < |s.conns| && WellFormed(s.pushed[k].frame, limit))
    && forall i :: 0 <= i < |s.conns| ==>
         CutSoFar(s.conns[i].stream, PacketsOf(s.pushed, i), s.conns[i].window, limit)
  }

  lemma {:induction false} PacketsAppend(a: seq<Task>, b: seq<Task>, i: nat)
    ensures PacketsOf(a + b, i) == PacketsOf(a, i) + PacketsOf(b, i)
  {
    if a == [] {
      assert a + b == b;
    } else {
      assert (a + b)[1..] == a[1..] + b;
      PacketsAppend(a[1..], b, i);
    }
  }

  /** More bytes at the end change nothing that was cut before. */
  lemma CutKept(stream: seq<byte>, cut: seq<seq<byte>>, window: seq<byte>, chunk: seq<byte>, limit: nat)
    requires CutSoFar(stream, cut, window, limit)
    ensures CutSoFar(stream + chunk, cut, window + chunk, limit)
  {
    hide Parse;
    ParseAppend(stream, chunk, limit);
    ParseAppend(window, chunk, limit);
    var p := Parse(window, limit);
    if !p.illegal {
      Associates(cut, p.frames, Parse(p.rest + chunk, limit).frames);
    }
  }

  lemma StepOrdered(s: Hall, step: Step, limit: nat)
    requires s.Roomy() && Ordered(s, limit) && Enabled(s, step, limit)
    ensures Ordered(Next(s, step, limit), limit)
  {
    hide CutSoFar, PacketsOf, Overlaid, Executed, IdAt, SizeAt, PacketAt, WellFormed, Peek;
    match step
    case Arrive(i, chunk) => CutKept(s.conns[i].stream, PacketsOf(s.pushed, i), s.conns[i].window, chunk, limit);
    case Cut(i, slot) => CutOrdered(s, i, slot, limit);
    case Pop =>
    case Execute(copy) => TasksAppend(s.done, Dropped(s.current.value));
    case ChatReply(slot, head) =>
    case Finish =>
      var call := s.call.value;
      TasksAppend(s.done, Handled(s.current.value, call.id, PacketAt(s.memory, call.slot)));
    case Shutdown =>
    case Other(slot, bytes) =>
  }

  lemma TasksAppend(done: seq<Done>, last: Done)
    ensures TasksOf(done + [last]) == TasksOf(done) + [last.task]
  {
  }

  lemma CutOrdered(s: Hall, i: nat, slot: nat, limit: nat)
    requires s.Roomy() && Ordered(s, limit) && slot < s.slots
    requires i < |s.conns| && Peek(s.conns[i].window, limit).Frame?
    ensures Ordered(DoCut(s, i, slot, limit), limit)
  {
    hide CutSoFar;
    var n := DoCut(s, i, slot, limit);
    var conn, size := s.conns[i], Peek(s.conns[i].window, limit).size;
    var task := Task(i, slot, conn.window[..size]);
    assert Popped(n) + n.queue == (Popped(s) + s.queue) + [task];
    CutOneMore(conn.stream, PacketsOf(s.pushed, i), conn.window, size, limit);
    forall j | 0 <= j < |n.conns|
      ensures CutSoFar(n.conns[j].stream, PacketsOf(n.pushed, j), n.conns[j].window, limit)
    {
      PacketsAppend(s.pushed, [task], j);
      assert PacketsOf([task], j) == if j == i then [task.frame] else [];
      if j != i {
        assert PacketsOf(s.pushed, j) + [] == PacketsOf(s.pushed, j);
      }
    }
  }

  lemma StepStream(s: Hall, step: Step, limit: nat)
    requires s.Roomy() && Enabled(s, step, limit)
    ensures var n := Next(s, step, limit);
            forall i :: 0 <= i < |s.conns| ==>
              n.conns[i].stream == s.conns[i].stream + if step.Arrive? && step.i == i then step.chunk else []
  {
    hide Overlaid, Executed, PacketAt, SizeAt, IdAt, Peek, ChatAnswer;
  }

  lemma {:induction false} RunOrdered(s: Hall, steps: seq<Step>, s': Hall, limit: nat)
    requires s.Roomy() && Ordered(s, limit) && Runs(s, steps, s', limit)
    ensures s'.Roomy() && Ordered(s', limit) && |s'.conns| == |s.conns|
    ensures forall i :: 0 <= i < |s.conns| ==> s'.conns[i].stream == s.conns[i].stream + StreamOf(steps, i)
    decreases |steps|
  {
    hide Ordered, Next, Enabled;
    if steps == [] {
    } else {
      StepOrdered(s, steps[0], limit);
      StepStream(s, steps[0], limit);
      RunOrdered(Next(s, steps[0], limit), steps[1..], s', limit);
    }
  }

  lemma QueuedArePrefix(s: Hall, limit: nat, i: nat)
    requires Ordered(s, limit) && i < |s.conns|
    ensures PacketsOf(s.pushed, i) <= Parse(s.conns[i].stream, limit).frames
  {
  }

  lemma DoneArePrefix(s: Hall, limit: nat, i: nat)
    requires Ordered(s, limit)
    ensures TasksOf(s.done) <= s.pushed && PacketsOf(TasksOf(s.done), i) <= PacketsOf(s.pushed, i)
  {
    hide CutSoFar, PacketsOf;
    var left := s.pushed[|s.done|..];
    assert TasksOf(s.done) + left == s.pushed;
    PacketsAppend(TasksOf(s.done), left, i);
  }

  lemma StartOrdered(n: nat, slots: nat, memory: seq<byte>, limit: nat)
    requires BlockOf(slots) + BEHIND <= |memory|
    ensures Ordered(Start(n, slots, memory), limit)
  {
  }

  /** After shutdown began the worker finishes the task it is in, if any, and pops no other. */
  lemma ShutdownStops(s: Hall, steps: seq<Step>, s': Hall, limit: nat)
    requires s.Roomy() && Runs(s, [Shutdown] + steps, s', limit)
    ensures Popped(s') == Popped(s)
  {
    assert ([Shutdown] + steps)[1..] == steps;
    StoppingStops(Next(s, Shutdown, limit), steps, s', limit);
  }

  lemma {:induction false} StoppingStops(s: Hall, steps: seq<Step>, s': Hall, limit: nat)
    requires s.Roomy() && s.stopping && Runs(s, steps, s', limit)
    ensures s'.stopping && Popped(s') == Popped(s)
    decreases |steps|
  {
    if steps == [] {
    } else {
      hide Overlaid, Executed, PacketAt, SizeAt, IdAt, Peek, ChatAnswer;
      StoppingStops(Next(s, steps[0], limit), steps[1..], s', limit);
    }
  }

  // ---- Contents ----

  /** All copies of the frame, the answer to a chat packet included, end before the next slot: 1040 bytes on, and the
      answer is eight bytes longer. */
  predicate Fits(frame: seq<byte>) {
    |frame| <= if 4 <= |frame| && frame[2] == 2 && frame[3] == 0 then 1032 else 1040
  }

  ghost predicate AllFit(tasks: seq<Task>) {
    forall k :: 0 <= k < |tasks| ==> Fits(tasks[k].frame)
  }

  /** No slot is used twice. */
  ghost predicate Placed(s: Hall) {
    && (forall j, k :: 0 <= j < k < |s.queue| ==> s.queue[j].slot != s.queue[k].slot)
    && (s.current.Some? ==> forall k :: 0 <= k < |s.queue| ==> s.queue[k].slot != s.current.value.slot)
    && (s.call.Some? ==> s.current.Some? && s.call.value.slot != s.current.value.slot)
    && (s.call.Some? ==> forall k :: 0 <= k < |s.queue| ==> s.queue[k].slot != s.call.value.slot)
  }

  ghost predicate Intact(memory: seq<byte>, task: Task) {
    Holds(memory, task.slot, task.frame) && WholePacket(task) && Fits(task.frame)
  }

  /** The slot of every queued task and of the current one holds its frame, and so does the handler's. */
  ghost predicate Kept(s: Hall) {
    && (forall k :: 0 <= k < |s.queue| ==> Intact(s.memory, s.queue[k]))
    && (s.current.Some? ==> Intact(s.memory, s.current.value))
    && (s.call.Some? && s.current.Some? ==>
          && Holds(s.memory, s.call.value.slot, s.current.value.frame)
          && HasHandler(s.current.value.frame) && s.call.value.id == s.current.value.frame[2])
    && (forall k :: 0 <= k < |s.done| ==> AsPromised(s.done[k]))
  }

  lemma StartKept(n: nat, slots: nat, memory: seq<byte>)
    requires BlockOf(slots) + BEHIND <= |memory|
    ensures Placed(Start(n, slots, memory)) && Kept(Start(n, slots, memory))
  {
  }

  /** A copy that ends before the next slot, made in a spare slot, harms nobody. */
  lemma SpareCopyKeeps(s: Hall, slot: nat, bytes: seq<byte>)
    requires s.Roomy() && Kept(s) && s.Spare(slot) && |bytes| <= SLOT_SIZE
    ensures Kept(s.(memory := Overlaid(s.memory, BlockOf(slot), bytes)))
  {
    hide Holds, Overlaid, AsPromised;
    forall k | 0 <= k < |s.queue|
      ensures Intact(Overlaid(s.memory, BlockOf(slot), bytes), s.queue[k])
    {
      FittingCopiesKeep(s.memory, s.queue[k].slot, s.queue[k].frame, slot, bytes);
    }
    if s.current.Some? {
      FittingCopiesKeep(s.memory, s.current.value.slot, s.current.value.frame, slot, bytes);
      if s.call.Some? {
        FittingCopiesKeep(s.memory, s.call.value.slot, s.current.value.frame, slot, bytes);
      }
    }
  }

  lemma CutKeepsFrames(s: Hall, i: nat, slot: nat, limit: nat)
    requires s.Roomy() && Placed(s) && Kept(s) && Enabled(s, Cut(i, slot), limit)
    requires Fits(s.conns[i].window[..Peek(s.conns[i].window, limit).size])
    ensures Placed(DoCut(s, i, slot, limit)) && Kept(DoCut(s, i, slot, limit))
  {
    var window := s.conns[i].window;
    var frame := window[..Peek(window, limit).size];
    var n := DoCut(s, i, slot, limit);
    SpareCopyKeeps(s, slot, frame);
    hide Holds, AsPromised;
    var m := s.(memory := Overlaid(s.memory, BlockOf(slot), frame));
    assert n.memory == m.memory && n.queue == m.queue + [Task(i, slot, frame)];
    assert Intact(n.memory, Task(i, slot, frame)) by {
      NewlyHeld(s.memory, slot, frame);
    }
  }

  lemma NewlyHeld(memory: seq<byte>, slot: nat, bytes: seq<byte>)
    requires BlockOf(slot) + |bytes| <= |memory|
    ensures Holds(Overlaid(memory, BlockOf(slot), bytes), slot, bytes)
  {
  }

  lemma ExecuteKeeps(s: Hall, copy: nat, limit: nat)
    requires s.Roomy() && Placed(s) && Kept(s) && Enabled(s, Execute(copy), limit)
    ensures Placed(DoExecute(s, copy)) && Kept(DoExecute(s, copy))
  {
    var task := s.current.value;
    HeldIsRead(s.memory, task.slot, task.frame);
    HeldIsHandled(s.memory, task, copy);
    hide Holds, HeaderAt, SizeAt, IdAt, PacketAt, Known, HasHandler, AsPromised, Outcome;
    if Known(IdAt(s.memory, task.slot)) {
      SpareCopyKeeps(s, copy, task.frame);
    }
  }

  lemma ChatAnswerFits(memory: seq<byte>, copy: nat, head: seq<byte>, frame: seq<byte>)
    requires Room(memory, copy) && Holds(memory, copy, frame) && HEADER_SIZE <= |frame| == SizeField(frame)
    requires |head| == CHAT_HEAD && frame[2] == 2 && frame[3] == 0 && Fits(frame)
    ensures HEADER_SIZE <= SizeAt(memory, copy) && |ChatAnswer(memory, copy, head)| <= SLOT_SIZE
  {
    HeldIsRead(memory, copy, frame);
  }

  lemma ChatReplyKeeps(s: Hall, slot: nat, head: seq<byte>, limit: nat)
    requires s.Roomy() && Placed(s) && Kept(s) && Enabled(s, ChatReply(slot, head), limit)
    ensures var n := Next(s, ChatReply(slot, head), limit); Placed(n) && Kept(n)
  {
    ChatAnswerFits(s.memory, s.call.value.slot, head, s.current.value.frame);
    hide Holds, SizeAt, PacketAt, HeaderAt, ChatAnswer, Overlaid, AsPromised;
    SpareCopyKeeps(s, slot, ChatAnswer(s.memory, s.call.value.slot, head));
  }

  lemma FinishKeeps(s: Hall)
    requires s.Roomy() && Placed(s) && Kept(s) && s.current.Some? && s.call.Some?
    ensures Placed(DoFinish(s)) && Kept(DoFinish(s))
  {
    HeldIsRead(s.memory, s.call.value.slot, s.current.value.frame);
  }

  lemma StepKept(s: Hall, step: Step, limit: nat)
    requires s.Roomy() && Placed(s) && Kept(s) && Enabled(s, step, limit) && AllFit(Next(s, step, limit).pushed)
    ensures Placed(Next(s, step, limit)) && Kept(Next(s, step, limit))
  {
    hide Holds, Overlaid, Executed, HeaderAt, SizeAt, IdAt, PacketAt, AsPromised;
    match step
    case Arrive(i, chunk) =>
    case Cut(i, slot) =>
      assert Next(s, step, limit).pushed[|s.pushed|].frame ==
             s.conns[i].window[..Peek(s.conns[i].window, limit).size];
      CutKeepsFrames(s, i, slot, limit);
    case Pop =>
    case Execute(copy) => ExecuteKeeps(s, copy, limit);
    case ChatReply(slot, head) => ChatReplyKeeps(s, slot, head, limit);
    case Finish => FinishKeeps(s);
    case Shutdown =>
    case Other(slot, bytes) => SpareCopyKeeps(s, slot, bytes);
  }

  lemma {:induction false} RunKept(s: Hall, steps: seq<Step>, s': Hall, limit: nat)
    requires s.Roomy() && Placed(s) && Kept(s) && Runs(s, steps, s', limit)
    requires AllFit(s'.pushed)
    ensures s'.Roomy() && Placed(s') && Kept(s')
    decreases |steps|
  {
    hide Kept, Placed, Enabled, Next, AllFit;
    if steps == [] {
    } else {
      RunFits(Next(s, steps[0], limit), steps[1..], s', limit);
      StepKept(s, steps[0], limit);
      RunKept(Next(s, steps[0], limit), steps[1..], s', limit);
    }
  }

  lemma StepPushes(s: Hall, step: Step, limit: nat)
    requires s.Roomy() && Enabled(s, step, limit)
    ensures s.pushed <= Next(s, step, limit).pushed
  {
    hide Overlaid, Executed, PacketAt, SizeAt, IdAt, Peek, ChatAnswer;
  }

  lemma {:induction false} RunFits(s: Hall, steps: seq<Step>, s': Hall, limit: nat)
    requires s.Roomy() && Runs(s, steps, s', limit) && AllFit(s'.pushed)
    ensures AllFit(s.pushed)
    decreases |steps|
  {
    hide Enabled, Next;
    if steps == [] {
    } else {
      StepPushes(s, steps[0], limit);
      RunFits(Next(s, steps[0], limit), steps[1..], s', limit);
    }
  }

  /** While every frame cut so far fits, every task done was handled as promised: exactly the known ids reached their
      handlers, which saw their frames byte for byte, frames of their sessions' streams; and a handler being called
      has its frame in its slot. */
  lemma HandlersSeeTheFrames(n: nat, slots: nat, memory: seq<byte>, steps: seq<Step>, s: Hall, limit: nat)
    requires BlockOf(slots) + BEHIND <= |memory| && Runs(Start(n, slots, memory), steps, s, limit)
    requires AllFit(s.pushed)
    ensures forall k :: 0 <= k < |s.done| ==>
              && AsPromised(s.done[k]) && s.done[k].task.session < n
              && s.done[k].task.frame in Parse(StreamOf(steps, s.done[k].task.session), limit).frames
    ensures s.call.Some? && s.current.Some? ==> Holds(s.memory, s.call.value.slot, s.current.value.frame)
  {
    hide Parse, Runs, PacketsOf, StreamOf, AsPromised, CutSoFar, Intact;
    StartKept(n, slots, memory);
    RunKept(Start(n, slots, memory), steps, s, limit);
    StartOrdered(n, slots, memory, limit);
    RunOrdered(Start(n, slots, memory), steps, s, limit);
    forall k | 0 <= k < |s.done|
      ensures s.done[k].task.session < n
      ensures s.done[k].task.frame in Parse(StreamOf(steps, s.done[k].task.session), limit).frames
    {
      var i := s.done[k].task.session;
      DoneArePrefix(s, limit, i);
      assert TasksOf(s.done)[k] == s.pushed[k];
      WireToHandler(n, slots, memory, steps, s, limit, i);
      PacketIsListed(TasksOf(s.done), k);
    }
  }

  lemma {:induction false} PacketIsListed(tasks: seq<Task>, k: nat)
    requires k < |tasks|
    ensures tasks[k].frame in PacketsOf(tasks, tasks[k].session)
  {
    if k == 0 {
    } else {
      PacketIsListed(tasks[1..], k - 1);
    }
  }

  /** What the handlers of session i saw, call by call. */
  function SeenBy(done: seq<Done>, i: nat): seq<seq<byte>> {
    if done == [] then []
    else (if done[0].Handled? && done[0].task.session == i then [done[0].seen] else []) + SeenBy(done[1..], i)
  }

  /** The packets with a handler. */
  function KnownOf(packets: seq<seq<byte>>): seq<seq<byte>> {
    if packets == [] then []
    else
      (if HasHandler(packets[0]) then [packets[0]] else []) + KnownOf(packets[1..])
  }

  lemma {:induction false} KnownAppend(a: seq<seq<byte>>, b: seq<seq<byte>>)
    ensures KnownOf(a + b) == KnownOf(a) + KnownOf(b)
  {
    if a == [] {
      assert a + b == b;
    } else {
      assert (a + b)[1..] == a[1..] + b;
      KnownAppend(a[1..], b);
    }
  }

  lemma KnownPrefix(a: seq<seq<byte>>, b: seq<seq<byte>>)
    requires a <= b
    ensures KnownOf(a) <= KnownOf(b)
  {
    assert b == a + b[|a|..];
    KnownAppend(a, b[|a|..]);
  }

  lemma {:induction false} SeenAreKnown(done: seq<Done>, i: nat)
    requires forall k :: 0 <= k < |done| ==> AsPromised(done[k])
    ensures SeenBy(done, i) == KnownOf(PacketsOf(TasksOf(done), i))
  {
    if done == [] {
    } else {
      SeenAreKnown(done[1..], i);
      assert TasksOf(done)[1..] == TasksOf(done[1..]);
      var frame := done[0].task.frame;
      var rest := PacketsOf(TasksOf(done[1..]), i);
      if done[0].task.session == i {
        assert ([frame] + rest)[1..] == rest;
        assert PacketsOf(TasksOf(done), i) == [frame] + rest;
      } else {
        assert [] + rest == rest && [] + SeenBy(done[1..], i) == SeenBy(done[1..], i);
      }
    }
  }

  /** For every session, in every interleaving: the tasks done are, in order and each once, a prefix of those queued,
      which stand for a prefix of the frames of the stream received. While every frame cut fits, the bytes its
      handlers saw, call by call, are a prefix of the known packets of that stream. */
  lemma WireToHandler(n: nat, slots: nat, memory: seq<byte>, steps: seq<Step>, s: Hall, limit: nat, i: nat)
    requires BlockOf(slots) + BEHIND <= |memory| && Runs(Start(n, slots, memory), steps, s, limit) && i < n
    ensures TasksOf(s.done) <= s.pushed
    ensures PacketsOf(TasksOf(s.done), i) <= PacketsOf(s.pushed, i) <= Parse(StreamOf(steps, i), limit).frames
    ensures AllFit(s.pushed) ==> SeenBy(s.done, i) <= KnownOf(Parse(StreamOf(steps, i), limit).frames)
  {
    hide Ordered, Parse, Runs, PacketsOf, StreamOf, AllFit, AsPromised, Intact;
    StartOrdered(n, slots, memory, limit);
    RunOrdered(Start(n, slots, memory), steps, s, limit);
    assert [] + StreamOf(steps, i) == StreamOf(steps, i);
    QueuedArePrefix(s, limit, i);
    DoneArePrefix(s, limit, i);
    if AllFit(s.pushed) {
      StartKept(n, slots, memory);
      RunKept(Start(n, slots, memory), steps, s, limit);
      SeenAreKnown(s.done, i);
      KnownPrefix(PacketsOf(TasksOf(s.done), i), Parse(StreamOf(steps, i), limit).frames);
    }
  }

  /** Nothing is lost: once the queue is drained and no whole frame waits in the session's ring, exactly the frames of
      its stream were executed; and if all frames cut fit, its handlers saw exactly the known ones, byte for byte. */
  lemma DrainedMeansAllExecuted(n: nat, slots: nat, memory: seq<byte>, steps: seq<Step>, s: Hall, limit: nat, i: nat)
    requires BlockOf(slots) + BEHIND <= |memory| && Runs(Start(n, slots, memory), steps, s, limit) && i < n
    requires s.queue == [] && s.current.None? && i < |s.conns| && !Peek(s.conns[i].window, limit).Frame?
    ensures PacketsOf(TasksOf(s.done), i) == Parse(StreamOf(steps, i), limit).frames
    ensures AllFit(s.pushed) ==> SeenBy(s.done, i) == KnownOf(Parse(StreamOf(steps, i), limit).frames)
  {
    hide Runs, Parse, PacketsOf, StreamOf, AllFit, AsPromised, Intact, Peek;
    StartOrdered(n, slots, memory, limit);
    RunOrdered(Start(n, slots, memory), steps, s, limit);
    assert TasksOf(s.done) == s.pushed;
    CutAll(s.conns[i].stream, PacketsOf(s.pushed, i), s.conns[i].window, limit);
    assert [] + StreamOf(steps, i) == StreamOf(steps, i);
    if AllFit(s.pushed) {
      StartKept(n, slots, memory);
      RunKept(Start(n, slots, memory), steps, s, limit);
      SeenAreKnown(s.done, i);
    }
  }
}
