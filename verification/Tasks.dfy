/** From the wire to the packet handlers: frames cut by the receiving threads are copied into packet blocks, travel
    through one queue to the single worker thread, and are copied again for their handlers, in any interleaving. */
module Tasks {
  import opened Framing
  import opened Options
  import opened Blocks
  import opened ReceivePath

  /** PACKET_ID: zero means none, and ids from here on are unknown. */
  const PACKET_ID_COUNT := 6
  const CHAT_ID := 2
  /** The chat reply puts a session handle between the header and the message. */
  const CHAT_HEAD: nat := HEADER_SIZE + 8

  /** Ids with a handler. */
  predicate Known(id: nat) {
    1 <= id < PACKET_ID_COUNT
  }

  /** A queued closure: the session it was posted for and the slot of its copy of the packet. The frame that was copied
      there is recorded; nothing but a contract looks at it. */
  datatype Task = Task(session: nat, slot: nat, frame: seq<byte>)

  /** What became of a task: its handler was called and saw these bytes in its own copy, or it was dropped. */
  datatype Done = Handled(task: Task, id: nat, seen: seq<byte>) | Dropped(task: Task)

  predicate WholePacket(task: Task) {
    4 <= |task.frame| == (task.frame[0] as int) + 256 * (task.frame[1] as int)
  }

  /** Bytes 2 and 3, the low one first, are the id of one of the five handlers: move, chat, register, login, logout. */
  predicate HasHandler(frame: seq<byte>) {
    4 <= |frame| && frame[3] == 0 && 1 <= frame[2] <= 5
  }

  /** Exactly the frames with a handler reach the handler of their id, byte for byte. */
  predicate AsPromised(done: Done) {
    match done
    case Handled(task, id, seen) => HasHandler(task.frame) && id == task.frame[2] && seen == task.frame
    case Dropped(task) => !HasHandler(task.frame)
  }

  function TasksOf(done: seq<Done>): (t: seq<Task>)
    ensures |t| == |done| && forall k :: 0 <= k < |t| ==> t[k] == done[k].task
  {
    seq(|done|, k requires 0 <= k < |done| => done[k].task)
  }

  /** There is room for whatever a header in the slot may announce. */
  predicate Room(memory: seq<byte>, slot: nat) {
    BlockOf(slot) + BEHIND + CHAT_HEAD <= |memory|
  }

  /** `Execute`: the header in the task's slot decides; the handler's copy is made in another slot. */
  function Executed(memory: seq<byte>, task: Task, copy: nat): (m: seq<byte>)
    requires Room(memory, task.slot) && Room(memory, copy)
    ensures |m| == |memory|
  {
    if Known(IdAt(memory, task.slot)) then Overlaid(memory, BlockOf(copy), PacketAt(memory, task.slot)) else memory
  }

  /** ... and the handler sees what is in its own slot then. */
  function Outcome(memory: seq<byte>, task: Task, copy: nat): (d: Done)
    requires Room(memory, task.slot) && Room(memory, copy)
    ensures d.task == task
  {
    if Known(IdAt(memory, task.slot)) then
      Handled(task, IdAt(memory, task.slot), PacketAt(Executed(memory, task, copy), copy))
    else Dropped(task)
  }

  /** A task whose slot holds its frame is handled as promised, whatever slot its copy is made in. */
  lemma HeldIsHandled(memory: seq<byte>, task: Task, copy: nat)
    requires Room(memory, task.slot) && Room(memory, copy) && WholePacket(task)
    requires Holds(memory, task.slot, task.frame)
    ensures Known(IdAt(memory, task.slot)) <==> HasHandler(task.frame)
    ensures HasHandler(task.frame) ==> IdAt(memory, task.slot) == task.frame[2]
    ensures HasHandler(task.frame) ==> Holds(Executed(memory, task, copy), copy, task.frame)
    ensures AsPromised(Outcome(memory, task, copy))
  {
    HeldIsRead(memory, task.slot, task.frame);
    if HasHandler(task.frame) {
      HeldIsRead(Executed(memory, task, copy), copy, task.frame);
    }
  }

  // ---- The queue and its worker ----

  class TaskQueue {
    var tasks: seq<Task>
    var isShuttingDown: bool
    ghost var pushed: seq<Task>
    ghost var popped: seq<Task>

    /** First in, first out: what was popped followed by what is queued is what was pushed. */
    ghost predicate Valid()
      reads this
    {
      popped + tasks == pushed
    }

    constructor ()
      ensures Valid() && tasks == [] && pushed == [] && !isShuttingDown
    {
      tasks, isShuttingDown, pushed, popped := [], false, [], [];
    }

    method Push(task: Task)
      requires Valid()
      modifies this`tasks, this`pushed
      ensures Valid() && pushed == old(pushed) + [task]
    {
      tasks := tasks + [task];
      pushed := pushed + [task];
    }

    method Shutdown()
      requires Valid()
      modifies this`isShuttingDown
      ensures Valid() && isShuttingDown
    {
      isShuttingDown := true;
    }

    /** Called when the wait is over. Shutting down wins over queued tasks. */
    method Pop() returns (task: Option<Task>)
      requires Valid() && (tasks != [] || isShuttingDown)
      modifies this`tasks, this`popped
      ensures Valid() && (task.None? <==> isShuttingDown)
      ensures if isShuttingDown then tasks == old(tasks) && popped == old(popped)
              else old(tasks) == [task.value] + tasks && popped == old(popped) + [task.value]
    {
      if isShuttingDown {
        return None;
      }
      task := Some(tasks[0]);
      popped := popped + [tasks[0]];
      tasks := tasks[1..];
    }
  }

  /** The slots of these tasks are different from each other and from the spare one, and each holds its task's frame,
      which ends before the next slot. */
  ghost predicate Stored(memory: seq<byte>, tasks: seq<Task>, spare: nat) {
    && (forall k :: 0 <= k < |tasks| ==>
          tasks[k].slot != spare && |tasks[k].frame| <= SLOT_SIZE && Holds(memory, tasks[k].slot, tasks[k].frame))
    && forall j, k :: 0 <= j < k < |tasks| ==> tasks[j].slot != tasks[k].slot
  }

  class PacketHandler {
    const queue: TaskQueue
    const packets: PacketPool
    /** Every task executed so far and what became of it. */
    var done: seq<Done>

    /** Everything popped was executed, in order. */
    ghost predicate Valid()
      reads this, queue
    {
      queue.Valid() && TasksOf(done) == queue.popped
    }

    constructor (slots: nat)
      ensures Valid() && fresh(queue) && fresh(packets) && fresh(packets.memory)
      ensures queue.pushed == [] && done == [] && packets.memory.Length == BlockOf(slots) + BEHIND
    {
      queue := new TaskQueue();
      packets := new PacketPool(slots);
      done := [];
    }

    method PostTask(task: Task)
      requires Valid()
      modifies queue
      ensures Valid() && queue.pushed == old(queue.pushed) + [task] && queue.popped == old(queue.popped)
      ensures queue.isShuttingDown == old(queue.isShuttingDown)
    {
      queue.Push(task);
    }

    /** An unknown id, or one without a handler, is dropped; the handler gets a second copy of the packet. Both are
        decided by what the task's slot holds, which is its frame unless another copy ran over it. */
    method Execute(task: Task, copy: nat)
      requires Room(packets.memory[..], task.slot) && Room(packets.memory[..], copy)
      modifies this`done, packets.memory
      ensures packets.memory[..] == Executed(old(packets.memory[..]), task, copy)
      ensures done == old(done) + [Outcome(old(packets.memory[..]), task, copy)]
      ensures WholePacket(task) && Holds(old(packets.memory[..]), task.slot, task.frame) ==>
                var frame, last := task.frame, done[|old(done)|];
                && (last.Handled? <==> frame[3] == 0 && 1 <= frame[2] <= 5)
                && (last.Handled? ==> last.id == frame[2] && last.seen == frame)
                && AsPromised(last)
    {
      ghost var before := packets.memory[..];
      if WholePacket(task) && Holds(before, task.slot, task.frame) {
        HeldIsHandled(before, task, copy);
      }
      hide Holds, PacketAt, HeaderAt, SizeAt, IdAt, AsPromised;
      var _, id := packets.ReadHeader(task.slot);
      if id >= PACKET_ID_COUNT {
        done := done + [Dropped(task)];
        return;
      }
      if id == 0 {
        done := done + [Dropped(task)];
        return;
      }
      packets.CopyAgain(task.slot, copy, task.frame);
      var seen := packets.ReadPacket(copy);
      done := done + [Handled(task, id, seen)];
    }

    /** The worker's loop, up to the point where it would wait: it executes exactly the queued tasks in order, unless
        the queue is shutting down, in which case it stops at once. If their slots hold their frames, every handler is
        called for what its client sent. */
    method WorkerThreadFunc(spare: nat)
      requires Valid() && Room(packets.memory[..], spare)
      requires forall k :: 0 <= k < |queue.tasks| ==>
                 WholePacket(queue.tasks[k]) && Room(packets.memory[..], queue.tasks[k].slot)
      modifies this`done, queue, packets.memory
      ensures Valid() && queue.pushed == old(queue.pushed) && queue.isShuttingDown == old(queue.isShuttingDown)
      ensures TasksOf(done) == if queue.isShuttingDown then old(queue.popped) else queue.pushed
      ensures Stored(old(packets.memory[..]), old(queue.tasks), spare) ==>
                forall k :: |old(done)| <= k < |done| ==> AsPromised(done[k])
    {
      hide Executed, Outcome, Stored, AsPromised, PacketAt, IdAt, Holds;
      ghost var stored := Stored(packets.memory[..], queue.tasks, spare);
      while queue.tasks != [] || queue.isShuttingDown
        invariant Valid() && queue.pushed == old(queue.pushed) && queue.isShuttingDown == old(queue.isShuttingDown)
        invariant queue.isShuttingDown ==> queue.popped == old(queue.popped)
        invariant Room(packets.memory[..], spare)
        invariant forall k :: 0 <= k < |queue.tasks| ==>
                    WholePacket(queue.tasks[k]) && Room(packets.memory[..], queue.tasks[k].slot)
        invariant |old(done)| <= |done| && (stored ==> Stored(packets.memory[..], queue.tasks, spare))
        invariant stored ==> forall k :: |old(done)| <= k < |done| ==> AsPromised(done[k])
        decreases |queue.tasks|
      {
        ghost var before, memory := queue.tasks, packets.memory[..];
        var task := queue.Pop();
        if task.None? {
          break;
        }
        assert before[0] == task.value && before[1..] == queue.tasks;
        if stored {
          FirstIsHeld(memory, before, spare);
        }
        Execute(task.value, spare);
        if stored {
          ExecuteLeavesRest(memory, task.value, queue.tasks, spare);
        }
      }
      assert queue.isShuttingDown || queue.popped == queue.pushed;
    }
  }

  lemma FirstIsHeld(memory: seq<byte>, tasks: seq<Task>, spare: nat)
    requires Stored(memory, tasks, spare) && tasks != []
    ensures Holds(memory, tasks[0].slot, tasks[0].frame)
  {
  }

  /** Making a handler's copy in the spare slot leaves the packets of the other tasks alone. */
  lemma ExecuteLeavesRest(memory: seq<byte>, task: Task, rest: seq<Task>, spare: nat)
    requires Room(memory, task.slot) && Room(memory, spare) && WholePacket(task)
    requires Stored(memory, [task] + rest, spare)
    ensures Stored(Executed(memory, task, spare), rest, spare)
  {
    var all := [task] + rest;
    assert all[0] == task && all[1..] == rest;
    HeldIsRead(memory, task.slot, task.frame);
    forall k | 0 <= k < |rest|
      ensures Holds(Executed(memory, task, spare), rest[k].slot, rest[k].frame)
    {
      assert all[k + 1] == rest[k];
      FittingCopiesKeep(memory, rest[k].slot, rest[k].frame, spare, PacketAt(memory, task.slot));
    }
  }
}
