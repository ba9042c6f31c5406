/** Broadcasting to every connected session, while no other thread runs. */
module Broadcasting {
  import opened Handles
  import opened SparseSets
  import opened Framing
  import opened Options
  import Lifecycle
  import LifecycleRuns

  const CONNECTED := Lifecycle.CONNECTED

  class SessionManager {
    const sessions: SparseSet
    /** `sessionPtrs_`: the handle in each non-null entry. */
    var table: seq<Option<uint64>>
    /** The packets each session's `SendPacket` was called with, oldest first. */
    var sent: seq<seq<seq<byte>>>

    /** A non-null entry names its own slot, as the whole server keeps it (`Naming`). */
    ghost predicate Valid()
      reads this, sessions, sessions.sparse, sessions.dense, sessions.cursor
    {
      && sessions.Valid() && CONNECTED < sessions.stateCount
      && |table| == |sent| == sessions.N
      && forall w :: 0 <= w < |table| && table[w].Some? ==> Who(table[w].value) == w
    }

    /** Session w is connected, is not the sender, and its table entry is of the current incarnation. */
    ghost predicate Receives(w: nat, sender: uint64)
      requires sessions.Valid() && w < sessions.N == |table|
      reads this`table, sessions, sessions.sparse, sessions.dense, sessions.cursor
    {
      && sessions.Contents().state[w] == CONNECTED
      && sessions.Contents().HandleOf(w) != sender
      && table[w] == Some(sessions.Contents().HandleOf(w))
    }

    constructor (n: uint32, states: nat)
      requires CONNECTED < states
      ensures Valid() && sessions.N == n
      ensures fresh(sessions) && fresh(sessions.sparse) && fresh(sessions.dense) && fresh(sessions.cursor)
    {
      sessions := new SparseSet(n, states);
      table := seq(n, _ => None);
      sent := seq(n, _ => []);
    }

    /** Looks at the slot half of the handle only; a null or outdated entry receives nothing. */
    method SendToSession(handle: uint64, packet: seq<byte>)
      requires Valid() && Who(handle) < sessions.N
      modifies this`sent
      ensures var entry := table[Who(handle)];
              sent == if entry.Some? && sessions.Contents().IsValid(entry.value)
                      then old(sent)[Who(handle) := old(sent)[Who(handle)] + [packet]] else old(sent)
    {
      var session := table[Who(handle)];
      if session.Some? && sessions.IsValid(session.value) {
        sent := sent[Who(session.value) := sent[Who(session.value)] + [packet]];
      }
    }

    lemma ListedReceives(handle: uint64, sender: uint64)
      requires Valid() && sessions.Contents().IsValid(handle) && Who(handle) < sessions.N
      requires sessions.Contents().state[Who(handle)] == CONNECTED
      ensures var entry := table[Who(handle)];
              Receives(Who(handle), sender) <==>
                handle != sender && entry.Some? && sessions.Contents().IsValid(entry.value)
    {
    }

    lemma ReceiverIsListed(handles: seq<uint64>, w: nat, sender: uint64)
      requires Valid() && w < sessions.N && Receives(w, sender)
      requires forall v :: v in sessions.Contents().SlotsIn(CONNECTED) ==> sessions.Contents().HandleOf(v) in handles
      ensures Served(handles, w)
    {
    }

    /** Exactly the sessions described by `Receives` are sent the packet, once each; nobody else is sent anything. */
    method Broadcast(sender: uint64, packet: seq<byte>)
      requires Valid()
      modifies this`sent
      ensures Valid()
      ensures forall w :: 0 <= w < sessions.N ==>
                sent[w] == old(sent)[w] + if Receives(w, sender) then [packet] else []
    {
      hide Served, Receives;
      var handles := sessions.GetIndicesInState(CONNECTED);
      ServedNone();
      var i := 0;
      while i < |handles|
        invariant 0 <= i <= |handles| && Valid()
        invariant forall w :: 0 <= w < sessions.N ==>
                    sent[w] == old(sent)[w] + if Served(handles[..i], w) && Receives(w, sender) then [packet] else []
      {
        ServedNext(handles, i);
        ListedReceives(handles[i], sender);
        if handles[i] != sender {
          SendToSession(handles[i], packet);
        }
        i := i + 1;
      }
      assert handles[..i] == handles;
      forall w | 0 <= w < sessions.N && Receives(w, sender)
        ensures Served(handles, w)
      {
        ReceiverIsListed(handles, w, sender);
      }
    }

    /** While every connected session's entry is current the receivers are the connected sessions except the sender. */
    lemma ReceiversAreConnected(sender: uint64, w: nat)
      requires Valid() && w < sessions.N
      requires forall v :: 0 <= v < sessions.N && sessions.Contents().state[v] == CONNECTED ==>
                 table[v] == Some(sessions.Contents().HandleOf(v))
      ensures Receives(w, sender) <==>
                sessions.Contents().state[w] == CONNECTED && !(Who(sender) == w && sessions.Contents().IsValid(sender))
    {
      HandleCodecInverse(sender, sessions.Contents().generation[w], w);
    }

    /** The manager's set and table are those of a state of the server: a non-null entry holds the encoded handle. */
    ghost predicate Shows(s: Lifecycle.Sys)
      requires Valid()
      reads this, sessions, sessions.sparse, sessions.dense, sessions.cursor
    {
      && sessions.Contents() == s.pool
      && forall w :: 0 <= w < sessions.N ==>
           if Lifecycle.Table(w) in s.cells then
             && s.cells[Lifecycle.Table(w)].h.who < TWO_32
             && table[w] == Some(MakeHandle(s.cells[Lifecycle.Table(w)].h.generation,
                                            s.cells[Lifecycle.Table(w)].h.who))
           else table[w] == None
    }

    /** In every reachable state of the server, whatever its threads did, a broadcast goes to exactly the connected
        sessions that are not its sender. */
    lemma ReachableReceivers(n: uint32, steps: seq<Lifecycle.Step>, s: Lifecycle.Sys, sender: uint64, w: nat)
      requires Valid() && sessions.N == n && w < n
      requires LifecycleRuns.Runs(LifecycleRuns.Init(n), steps, s) && Shows(s)
      ensures Receives(w, sender) <==>
                sessions.Contents().state[w] == CONNECTED && !(Who(sender) == w && sessions.Contents().IsValid(sender))
    {
      hide LifecycleRuns.Runs;
      LifecycleRuns.ReachableIsSafe(n, steps, s);
      ReceiversAreConnected(sender, w);
    }
  }

  ghost predicate Served(handles: seq<uint64>, w: nat) {
    exists k :: 0 <= k < |handles| && Who(handles[k]) == w
  }

  lemma ServedNone()
    ensures forall w :: !Served([], w)
  {
  }

  lemma ServedNext(handles: seq<uint64>, i: nat)
    requires i < |handles|
    requires forall a, b :: 0 <= a < b < |handles| ==> Who(handles[a]) != Who(handles[b])
    ensures forall w :: Served(handles[..i + 1], w) <==> Served(handles[..i], w) || w == Who(handles[i])
    ensures !Served(handles[..i], Who(handles[i]))
  {
    forall w: nat
      ensures Served(handles[..i + 1], w) <==> Served(handles[..i], w) || w == Who(handles[i])
    {
      if Served(handles[..i], w) {
        var k :| 0 <= k < i && Who(handles[..i][k]) == w;
        assert Who(handles[..i + 1][k]) == w;
      }
      assert handles[..i + 1][i] == handles[i];
    }
  }
}
