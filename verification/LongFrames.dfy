/** Frames that do not fit: for each of them there is a run in which no other frame is long and yet a handler is not
    called for what its client sent. Together with `HandlersSeeTheFrames` this makes `Fits` the exact condition. */
module LongFrames {
  import opened Framing
  import opened Options
  import opened Blocks
  import opened Tasks
  import opened TaskRuns

  // ---- Runs, one step at a time ----

  /** Some run leads there. */
  ghost predicate Reached(start: Hall, s: Hall, limit: nat)
    requires start.Roomy()
  {
    s.Roomy() && exists steps :: Runs(start, steps, s, limit)
  }

  lemma {:induction false} RunExtends(a: Hall, steps: seq<Step>, b: Hall, step: Step, limit: nat)
    requires a.Roomy() && Runs(a, steps, b, limit) && b.Roomy() && Enabled(b, step, limit)
    ensures Runs(a, steps + [step], Next(b, step, limit), limit)
    decreases |steps|
  {
    hide Enabled, Next;
    if steps == [] {
      assert ([] + [step])[1..] == [];
    } else {
      assert (steps + [step])[1..] == steps[1..] + [step];
      RunExtends(Next(a, steps[0], limit), steps[1..], b, step, limit);
    }
  }

  lemma Takes(start: Hall, s: Hall, step: Step, limit: nat) returns (n: Hall)
    requires start.Roomy() && Reached(start, s, limit) && Enabled(s, step, limit)
    ensures n == Next(s, step, limit) && Reached(start, n, limit)
  {
    hide Enabled, Next;
    var steps :| Runs(start, steps, s, limit);
    RunExtends(start, steps, s, step, limit);
    return Next(s, step, limit);
  }

  // ---- The packet that is ruined ----

  /** A move packet whose first byte is neither of the two. */
  function Small(x: byte, y: byte): (m: seq<byte>)
    ensures WellFormed(m, 7) && IdField(m) == 1 && m[0] != x && m[0] != y
  {
    var first: byte := if x != 4 && y != 4 then 4 else if x != 5 && y != 5 then 5 else 6;
    [first, 0, 1, 0] + seq(first - 4, _ => 0)
  }

  ghost predicate Ruined(s: Hall) {
    exists k :: 0 <= k < |s.done| && !AsPromised(s.done[k])
  }

  /** No frame but f is long. */
  ghost predicate OnlyLong(tasks: seq<Task>, f: seq<byte>) {
    forall k :: 0 <= k < |tasks| ==> tasks[k].frame == f || Fits(tasks[k].frame)
  }

  /** A task whose slot and whose handler's slot both start with another byte is not handled as promised. */
  lemma WrongByte(memory: seq<byte>, task: Task, copy: nat)
    requires Room(memory, task.slot) && Room(memory, copy)
    requires HEADER_SIZE <= |task.frame| && Known(IdField(task.frame))
    requires memory[BlockOf(task.slot)] != task.frame[0] && memory[BlockOf(copy)] != task.frame[0]
    ensures !AsPromised(Outcome(memory, task, copy))
  {
    if Known(IdAt(memory, task.slot)) {
      var packet, after := PacketAt(memory, task.slot), Executed(memory, task, copy);
      assert packet == [] || packet[0] == memory[BlockOf(task.slot)];
      WrongByteSeen(after, task.frame, copy);
    }
  }

  lemma WrongByteSeen(memory: seq<byte>, frame: seq<byte>, slot: nat)
    requires Room(memory, slot) && frame != [] && memory[BlockOf(slot)] != frame[0]
    ensures PacketAt(memory, slot) != frame
  {
    var seen := PacketAt(memory, slot);
    assert seen == [] || seen[0] == memory[BlockOf(slot)];
  }

  /** The current task is executed, and its handler, if it has one, returns. */
  lemma Completes(start: Hall, s: Hall, copy: nat, limit: nat) returns (r: Hall)
    requires start.Roomy() && Reached(start, s, limit) && Enabled(s, Execute(copy), limit)
    ensures Reached(start, r, limit) && r.pushed == s.pushed
    ensures s.Roomy() && r.done == s.done + [Outcome(s.memory, s.current.value, copy)]
  {
    hide Executed, PacketAt, IdAt, AsPromised;
    r := Takes(start, s, Execute(copy), limit);
    if r.call.Some? {
      r := Takes(start, r, Finish, limit);
    }
  }

  lemma WrongByteRuins(start: Hall, s: Hall, copy: nat, limit: nat) returns (r: Hall)
    requires start.Roomy() && Reached(start, s, limit) && Enabled(s, Execute(copy), limit)
    requires var task := s.current.value;
             && HEADER_SIZE <= |task.frame| && Known(IdField(task.frame))
             && s.memory[BlockOf(task.slot)] != task.frame[0] && s.memory[BlockOf(copy)] != task.frame[0]
    ensures Reached(start, r, limit) && r.pushed == s.pushed && Ruined(r)
  {
    WrongByte(s.memory, s.current.value, copy);
    hide AsPromised, Outcome;
    r := Completes(start, s, copy, limit);
    assert r.done[|s.done|] == Outcome(s.memory, s.current.value, copy);
  }

  lemma FrontIs(a: seq<byte>, rest: seq<byte>, limit: nat)
    requires WellFormed(a, limit)
    ensures Peek(a + rest, limit) == Frame(|a|)
    ensures (a + rest)[..|a|] == a && (a + rest)[|a|..] == rest
  {
  }

  /** Two packets arrive at connection 0 and are cut, into these slots. */
  lemma CutsTwo(start: Hall, a: seq<byte>, b: seq<byte>, at: nat, bt: nat, limit: nat) returns (s: Hall)
    requires start.Roomy() && start.conns != [] && start.conns[0].window == [] && start.pushed == start.queue == []
    requires start.current.None? && start.call.None?
    requires WellFormed(a, limit) && WellFormed(b, limit) && at < start.slots && bt < start.slots && at != bt
    ensures Reached(start, s, limit) && s.pushed == s.queue == [Task(0, at, a), Task(0, bt, b)]
    ensures s.memory == Overlaid(Overlaid(start.memory, BlockOf(at), a), BlockOf(bt), b)
    ensures s.slots == start.slots && s.current.None? && s.call.None? && s.stopping == start.stopping
    ensures s.done == start.done
  {
    FrontIs(a, b, limit);
    FrontIs(b, [], limit);
    assert b + [] == b;
    hide Overlaid, Peek, WellFormed;
    assert Runs(start, [], start, limit);
    s := Takes(start, start, Arrive(0, a + b), limit);
    assert s.conns[0].window == a + b;
    s := Takes(start, s, Cut(0, at), limit);
    assert s.pushed == s.queue == [Task(0, at, a)] && s.conns[0].window == b;
    s := Takes(start, s, Cut(0, bt), limit);
  }

  /** A frame that reaches the next slot by its first copy: the packet there is ruined. */
  lemma OverlongRuins(start: Hall, f: seq<byte>, limit: nat) returns (s: Hall)
    requires Fresh(start) && WellFormed(f, limit) && SLOT_SIZE < |f|
    ensures start.Roomy() && Reached(start, s, limit) && OnlyLong(s.pushed, f) && Ruined(s)
  {
    var m := Small(f[SLOT_SIZE], if 2 * SLOT_SIZE < |f| then f[2 * SLOT_SIZE] else start.memory[2 * SLOT_SIZE]);
    s := CutsTwo(start, m, f, 1, 0, limit);
    assert s.memory[SLOT_SIZE] == f[SLOT_SIZE];
    assert s.memory[2 * SLOT_SIZE] != m[0];
    s := Takes(start, s, Pop, limit);
    s := WrongByteRuins(start, s, 2, limit);
  }

  /** Nothing has happened yet, in a pool of at least five slots. */
  ghost predicate Fresh(start: Hall) {
    && start.Roomy() && 5 <= start.slots && start.conns != [] && start.conns[0].window == []
    && start.pushed == start.queue == [] && start.current.None? && start.call.None? && !start.stopping
  }

  /** The chat handler is in its call for f, in slot 3, with m waiting in slot 1. */
  lemma ChatIsCalled(start: Hall, f: seq<byte>, m: seq<byte>, limit: nat) returns (s: Hall)
    requires Fresh(start) && WellFormed(f, limit) && WellFormed(m, limit) && |m| <= 6
    requires |f| <= SLOT_SIZE && IdField(f) == CHAT_ID
    ensures start.Roomy() && Reached(start, s, limit)
    ensures s.pushed == [Task(0, 2, f), Task(0, 1, m)] && s.queue == [Task(0, 1, m)] && !s.stopping
    ensures s.current == Some(Task(0, 2, f)) && s.call == Some(Call(CHAT_ID, 3)) && s.slots == start.slots
    ensures Holds(s.memory, 3, f) && s.memory[4 * SLOT_SIZE] == start.memory[4 * SLOT_SIZE]
  {
    s := ChatIsQueued(start, f, m, limit);
    HeldIsHandled(s.memory, Task(0, 2, f), 3);
    HeldIsRead(s.memory, 2, f);
    hide Holds, SizeAt, IdAt, PacketAt, HeaderAt;
    s := Takes(start, s, Pop, limit);
    s := Takes(start, s, Execute(3), limit);
  }

  lemma ChatIsQueued(start: Hall, f: seq<byte>, m: seq<byte>, limit: nat) returns (s: Hall)
    requires Fresh(start) && WellFormed(f, limit) && WellFormed(m, limit) && |m| <= 6 && |f| <= SLOT_SIZE
    ensures start.Roomy() && Reached(start, s, limit)
    ensures s.pushed == s.queue == [Task(0, 2, f), Task(0, 1, m)] && !s.stopping
    ensures s.current.None? && s.call.None? && s.slots == start.slots
    ensures Holds(s.memory, 2, f) && s.memory[4 * SLOT_SIZE] == start.memory[4 * SLOT_SIZE]
  {
    s := CutsTwo(start, f, m, 2, 1, limit);
    NewlyHeld(start.memory, 2, f);
    FittingCopiesKeep(Overlaid(start.memory, BlockOf(2), f), 2, f, 1, m);
  }

  /** The answer, eight bytes longer than the packet, is written into slot 0. */
  lemma ChatAnswers(start: Hall, f: seq<byte>, m: seq<byte>, limit: nat) returns (s: Hall)
    requires Fresh(start) && WellFormed(f, limit) && WellFormed(m, limit) && |m| <= 6
    requires IdField(f) == CHAT_ID && SLOT_SIZE - 8 < |f| <= SLOT_SIZE
    ensures start.Roomy() && Reached(start, s, limit)
    ensures s.pushed == [Task(0, 2, f), Task(0, 1, m)] && s.queue == [Task(0, 1, m)] && !s.stopping
    ensures s.current.Some? && s.call.Some? && s.slots == start.slots
    ensures s.memory[SLOT_SIZE] == f[SLOT_SIZE - 8] && s.memory[4 * SLOT_SIZE] == start.memory[4 * SLOT_SIZE]
  {
    s := ChatIsCalled(start, f, m, limit);
    HeldIsRead(s.memory, 3, f);
    var head: seq<byte> := seq(CHAT_HEAD, _ => 0);
    assert ChatAnswer(s.memory, 3, head) == head + f[HEADER_SIZE..];
    hide Holds, PacketAt, HeaderAt;
    s := Takes(start, s, ChatReply(0, head), limit);
  }

  /** A chat packet whose answer reaches the next slot. */
  lemma LongChatRuins(start: Hall, f: seq<byte>, limit: nat) returns (s: Hall)
    requires Fresh(start) && WellFormed(f, limit) && IdField(f) == CHAT_ID && SLOT_SIZE - 8 < |f| <= SLOT_SIZE
    ensures start.Roomy() && Reached(start, s, limit) && OnlyLong(s.pushed, f) && Ruined(s)
  {
    var m := Small(f[SLOT_SIZE - 8], start.memory[4 * SLOT_SIZE]);
    s := ChatAnswers(start, f, m, limit);
    s := Takes(start, s, Finish, limit);
    s := Takes(start, s, Pop, limit);
    s := WrongByteRuins(start, s, 4, limit);
  }

  /** The exact condition on a frame: in every reachable state in which no other frame was long every task done was
      handled as promised, if and only if the frame fits. */
  lemma FitsExactly(n: nat, slots: nat, memory: seq<byte>, f: seq<byte>, limit: nat)
    requires 1 <= n && 5 <= slots && BlockOf(slots) + BEHIND <= |memory| && WellFormed(f, limit)
    ensures Fits(f) <==>
              forall s :: Reached(Start(n, slots, memory), s, limit) && OnlyLong(s.pushed, f) ==> !Ruined(s)
  {
    var start := Start(n, slots, memory);
    if Fits(f) {
      forall s | Reached(start, s, limit) && OnlyLong(s.pushed, f)
        ensures !Ruined(s)
      {
        var steps :| Runs(start, steps, s, limit);
        HandlersSeeTheFrames(n, slots, memory, steps, s, limit);
      }
    } else if SLOT_SIZE < |f| {
      var s := OverlongRuins(start, f, limit);
    } else {
      var s := LongChatRuins(start, f, limit);
    }
  }
}
