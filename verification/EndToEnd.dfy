/** Both directions of a connection, from the packets handed in to the packets taken out. */
module EndToEnd {
  import opened Framing
  import opened Blocks
  import opened SendPath
  import opened ReceivePath
  import opened Clients

  const BUFFER_SIZE: nat := 65536

  predicate AllWellFormed(packets: seq<seq<byte>>) {
    forall k :: 0 <= k < |packets| ==> WellFormed(packets[k], BUFFER_SIZE)
  }

  /** Cut a session off at any moment: what its peer can parse from the bytes reported sent is a prefix, in
      order and unaltered, of the packets the session accepted. */
  lemma DeliveredIsPrefix(s: Sender)
    requires s.Valid() && AllWellFormed(s.accepted)
    ensures Parse(s.wire, BUFFER_SIZE).frames <= s.accepted && !Parse(s.wire, BUFFER_SIZE).illegal
    ensures s.Unsent() == [] ==> Parse(s.wire, BUFFER_SIZE) == Parsed(s.accepted, [], false)
  {
    ParseFlatten(s.accepted, BUFFER_SIZE);
    ParsePrefix(s.wire, s.Unsent(), BUFFER_SIZE);
    if Parse(s.wire, BUFFER_SIZE).illegal {
      IllegalIsFinal(s.wire, s.Unsent(), BUFFER_SIZE);
    }
    if s.Unsent() == [] {
      assert s.wire + [] == s.wire;
    }
  }

  predicate AllWithin(packets: seq<seq<byte>>, size: nat) {
    forall k :: 0 <= k < |packets| ==> |packets[k]| <= size
  }

  lemma {:induction false} SelectedKeeps(packets: seq<seq<byte>>, chosen: seq<bool>, size: nat)
    requires |packets| == |chosen|
    ensures AllWellFormed(packets) ==> AllWellFormed(Selected(packets, chosen))
    ensures AllWithin(packets, size) ==> AllWithin(Selected(packets, chosen), size)
  {
    if packets == [] {
    } else {
      SelectedKeeps(packets[1..], chosen[1..], size);
    }
  }

  /** Server to client: arbitrary partial sends on one side, arbitrary short reads on the other. The client receives, in
      order and byte for byte, a prefix of the packets the session kept; while every post succeeds, exactly those whose
      `SendPacket` returned true, and all packets if they fit the send ring together. */
  method ServerToClient(packets: seq<seq<byte>>, block: array<byte>, reliable: bool)
    returns (sent: seq<bool>, received: seq<seq<byte>>, ghost kept: seq<bool>)
    requires AllWellFormed(packets) && HEADER_SIZE <= block.Length
    requires forall k :: 0 <= k < |packets| ==> |packets[k]| <= block.Length
    modifies block
    ensures |sent| == |kept| == |packets| && forall k :: 0 <= k < |sent| && sent[k] ==> kept[k]
    ensures received <= Selected(packets, kept)
    ensures reliable ==> received == Selected(packets, sent)
    ensures |Flatten(packets)| <= 65536 ==> Selected(packets, kept) == packets
    ensures reliable && |Flatten(packets)| <= 65536 ==> received == packets
  {
    var sender := new Sender(BUFFER_SIZE);
    sent, kept := Transmit(sender, packets, reliable);
    SelectedKeeps(packets, kept, block.Length);
    if |Flatten(packets)| <= BUFFER_SIZE {
      forall k | 0 <= k < |packets|
        ensures kept[k]
      {
        PrefixFits(packets, k, BUFFER_SIZE);
      }
      AllSelected(packets, kept);
    }
    DeliveredIsPrefix(sender);
    ghost var whole := Parse(sender.wire, BUFFER_SIZE);
    ParseConserves(sender.wire, BUFFER_SIZE);
    if reliable {
      assert |sender.wire + sender.Unsent()| == |sender.wire|;
    }

    var socket := new Socket(sender.wire, true);
    var client := new Client(socket);
    var count := |Parse(sender.wire, BUFFER_SIZE).frames|;
    received := client.ReceivePackets(count, block, whole.frames, whole.rest);
  }

  /** Client to server: the packets queued for execution are, in order, a prefix of the packets sent, however the writes
      and the completions split the stream; while every post succeeds, all of them. */
  method ClientToServer(packets: seq<seq<byte>>, reliable: bool) returns (tasks: seq<seq<byte>>)
    requires AllWellFormed(packets)
    ensures tasks <= packets
    ensures reliable ==> tasks == packets
  {
    var socket := new Socket([], true);
    var client := new Client(socket);
    var buffer := Concatenate(packets);
    var _ := client.SendByte(buffer);
    assert socket.outgoing == Flatten(packets);

    var receiver := new Receiver(BUFFER_SIZE);
    ghost var taken;
    var ok, rest;
    ok, taken, rest := ReceiveStream(receiver, socket.outgoing, reliable);
    ParseFlatten(packets, BUFFER_SIZE);
    ParsePrefix(taken, rest, BUFFER_SIZE);
    tasks := receiver.tasks;
  }

  /** The send buffer a client fills with consecutive packets. */
  method Concatenate(packets: seq<seq<byte>>) returns (buffer: seq<byte>)
    ensures buffer == Flatten(packets)
  {
    buffer := [];
    var k := |packets|;
    while k > 0
      invariant 0 <= k <= |packets| && buffer == Flatten(packets[k..])
    {
      k := k - 1;
      assert packets[k..][1..] == packets[k + 1..];
      buffer := packets[k] + buffer;
    }
    assert packets[0..] == packets;
  }

  /** The pool has room for the longest packet behind the slot it is copied to. */
  predicate RoomBehind(n: nat, slot: nat) {
    BlockOf(slot) + BUFFER_SIZE <= n
  }

  /** The copies made of a stream's packets all stay inside their blocks, whatever the pool's memory holds, exactly when
      no packet is longer than a block. The size check of the receive loop does not imply this: it only bounds a packet
      by the ring. */
  lemma CopiesStayIffTheyFit(stream: seq<byte>, n: nat, slot: nat)
    requires RoomBehind(n, slot)
    ensures var frames := Parse(stream, BUFFER_SIZE).frames;
            && (forall k :: 0 <= k < |frames| ==> |frames[k]| < BUFFER_SIZE)
            && ((forall k :: 0 <= k < |frames| ==> StaysInBlock(n, slot, frames[k])) <==>
                AllWithin(frames, 1024))
  {
    FramesWellFormed(stream, BUFFER_SIZE);
    var frames := Parse(stream, BUFFER_SIZE).frames;
    forall k | 0 <= k < |frames|
      ensures StaysInBlock(n, slot, frames[k]) <==> |frames[k]| <= 1024
    {
      CopyReaches(n, slot, frames[k]);
    }
  }

  /** 1041 bytes under a truthful header. */
  function LongPacket(): (packet: seq<byte>)
    ensures |packet| == 1041 && WellFormed(packet, BUFFER_SIZE)
  {
    [17, 4, 1, 0] + seq(1037, _ => 0)
  }

  /** One packet that the receive loop accepts and whose copy changes the pool's count of its slot and the packet in the
      next slot. */
  lemma AcceptedPacketMayNotFit(n: nat, slot: nat)
    requires RoomBehind(n, slot)
    ensures Parse(LongPacket(), BUFFER_SIZE) == Parsed([LongPacket()], [], false)
    ensures !Spares(n, slot, LongPacket(), COUNT_AT, SLOT_SIZE)
    ensures !Spares(n, slot, LongPacket(), SLOT_SIZE, 2 * SLOT_SIZE)
  {
    var packet := LongPacket();
    ParseFlatten([packet], BUFFER_SIZE);
    FlattenSnoc([], packet);
    assert [] + [packet] == [packet] && [] + packet == packet;
    CopyReaches(n, slot, packet);
  }
}
