/** The sending half of a session: packets are appended behind at most one asynchronous send. */
module SendPath {
  import opened Framing
  import opened Rings

  predicate AllNonEmpty(packets: seq<seq<byte>>) {
    forall k :: 0 <= k < |packets| ==> packets[k] != []
  }

  lemma AllNonEmptySnoc(packets: seq<seq<byte>>, packet: seq<byte>)
    ensures AllNonEmpty(packets + [packet]) <==> AllNonEmpty(packets) && packet != []
  {
    if AllNonEmpty(packets + [packet]) {
      assert (packets + [packet])[|packets|] == packet;
      assert forall k :: 0 <= k < |packets| ==> (packets + [packet])[k] == packets[k];
    }
  }

  lemma FlattenSnoc(packets: seq<seq<byte>>, packet: seq<byte>)
    ensures Flatten(packets + [packet]) == Flatten(packets) + packet
  {
    FlattenAppend(packets, [packet]);
    assert [packet][1..] == [];
    assert Flatten([packet]) == packet + [];
  }

  lemma PrefixMoves(a: seq<byte>, b: seq<byte>, n: nat)
    requires n <= |b|
    ensures (a + b[..n]) + b[n..] == a + b
  {
  }

  class Sender {
    const ring: MirroredRingBuffer
    var recvPos: nat
    var sendPos: nat
    var isSending: bool
    /** The buffer last handed to the kernel. */
    var wsaOff: nat
    var wsaLen: nat

    /** The kernel's side: a send is posted and has not completed. */
    var outstanding: bool
    /** A post failed: `isSending` stays set although nothing will complete. */
    ghost var stuck: bool
    /** What the posted buffer held when it was posted. */
    ghost var postedBytes: seq<byte>
    /** Bytes reported sent, oldest first. */
    var wire: seq<byte>
    /** Packets that passed the capacity check, oldest first. */
    ghost var accepted: seq<seq<byte>>

    /** The ring's positions and the pipeline equation. */
    ghost predicate Positions()
      reads this, ring.data
    {
      && ring.Valid()
      && recvPos <= sendPos && recvPos < ring.size
      && sendPos - recvPos <= ring.size
      && wire + Unsent() == Flatten(accepted)
    }

    /** How the flag, the outstanding send and the buffered bytes belong together while the send lock is free. */
    ghost predicate Protocol()
      reads this, ring.data
    {
      && (isSending <==> outstanding || stuck)
      && !(outstanding && stuck)
      && (!isSending ==> recvPos == sendPos)
      && (outstanding ==> wsaOff == recvPos && wsaLen <= sendPos - recvPos)
      && (outstanding && AllNonEmpty(accepted) ==> 0 < wsaLen)
      && (stuck && AllNonEmpty(accepted) ==> recvPos < sendPos)
      && (outstanding ==> wsaOff + wsaLen <= 2 * ring.size && ring.Valid() && ring.View(wsaOff, wsaLen) == postedBytes)
    }

    ghost predicate Valid()
      reads this, ring.data
    {
      Positions() && Protocol()
    }

    /** Buffered bytes the kernel has not reported sent. */
    ghost function Unsent(): seq<byte>
      requires ring.Valid() && recvPos <= sendPos && sendPos <= 2 * ring.size
      reads this, ring.data
    {
      ring.View(recvPos, sendPos - recvPos)
    }

    constructor (size: nat)
      requires HEADER_SIZE <= size < 0x1_0000_0000
      ensures Valid() && !isSending && !stuck && wire == [] && accepted == [] && ring.size == size
      ensures fresh(ring) && fresh(ring.data)
    {
      ring := new MirroredRingBuffer(size);
      recvPos, sendPos, isSending, wsaOff, wsaLen := 0, 0, false, 0, 0;
      wire := [];
      outstanding, stuck, postedBytes, accepted := false, false, [], [];
    }

    /** A set flag means buffered bytes, and a clear one none. */
    ghost predicate FlagMeansBytes()
      requires ring.Valid() && recvPos <= sendPos && sendPos <= 2 * ring.size
      reads this, ring.data
    {
      isSending <==> Unsent() != []
    }

    /** No bytes wait with nobody sending them. */
    ghost predicate NobodyWaits()
      requires ring.Valid() && recvPos <= sendPos && sendPos <= 2 * ring.size
      reads this, ring.data
    {
      Unsent() != [] ==> outstanding
    }

    /** While every packet accepted has bytes the flag means bytes, and they wait with nobody sending them exactly
        when a post has failed. `SendPacket` and `OnSend` say for any packets when each of the two is kept. */
    lemma NoLostWakeUp()
      requires Valid() && AllNonEmpty(accepted)
      ensures FlagMeansBytes() && (NobodyWaits() <==> !stuck)
    {
    }

    method RegisterSend(postSucceeds: bool) returns (ok: bool)
      requires Positions() && isSending && !outstanding && !stuck
      requires AllNonEmpty(accepted) ==> recvPos < sendPos
      modifies this`wsaOff, this`wsaLen, this`outstanding, this`stuck, this`postedBytes
      ensures Valid() && ok == postSucceeds && outstanding == postSucceeds && stuck == !postSucceeds
      ensures outstanding ==> postedBytes == Unsent()
    {
      wsaOff := recvPos;
      wsaLen := sendPos - recvPos;
      outstanding, stuck, postedBytes := postSucceeds, !postSucceeds, Unsent();
      return postSucceeds;
    }

    /** Buffers a packet behind everything accepted before, or refuses it and changes nothing. */
    method Append(packet: seq<byte>)
      requires Valid() && sendPos - recvPos + |packet| <= ring.size
      modifies this`sendPos, this`accepted, ring.data
      ensures Positions() && sendPos == old(sendPos) + |packet|
      ensures accepted == old(accepted) + [packet] && Unsent() == old(Unsent()) + packet
      ensures outstanding ==> ring.View(wsaOff, wsaLen) == old(ring.View(wsaOff, wsaLen))
    {
      CopyAppends(ring.data[..], recvPos, sendPos - recvPos, packet);
      ring.CopyIn(sendPos, packet);
      FlattenSnoc(accepted, packet);
      sendPos := sendPos + |packet|;
      accepted := accepted + [packet];
      assert Unsent() == old(Unsent()) + packet;
      assert wire + (old(Unsent()) + packet) == (wire + old(Unsent())) + packet;
    }

    /** Copies `header.size` bytes; `packet` is exactly those bytes. */
    method SendPacket(packet: seq<byte>, postSucceeds: bool) returns (ok: bool)
      requires Valid() && |packet| < 0x1_0000
      modifies this, ring.data
      ensures Valid() && wire == old(wire)
      ensures var fits := |old(Unsent())| + |packet| <= ring.size;
              && accepted == (if fits then old(accepted) + [packet] else old(accepted))
              && Unsent() == (if fits then old(Unsent()) + packet else old(Unsent()))
              && (ok <==> fits && (old(isSending) || postSucceeds))
              && stuck == (old(stuck) || (fits && !old(isSending) && !postSucceeds))
              && outstanding == (old(outstanding) || (fits && !old(isSending) && postSucceeds))
      ensures old(outstanding) ==>
                && wsaOff == old(wsaOff) && wsaLen == old(wsaLen)
                && ring.View(wsaOff, wsaLen) == old(ring.View(wsaOff, wsaLen))
      ensures old(FlagMeansBytes()) ==> (FlagMeansBytes() <==> old(isSending) || packet != [])
      ensures old(NobodyWaits()) ==>
                (NobodyWaits() <==> old(outstanding) || packet == [] || |packet| > ring.size
                                    || (!old(isSending) && postSucceeds))
    {
      if sendPos - recvPos + |packet| > ring.size {
        return false;
      }
      Append(packet);
      AllNonEmptySnoc(old(accepted), packet);
      ok := true;
      if !isSending {
        isSending := true;
        ok := RegisterSend(postSucceeds);
      }
    }

    method ReturnToFirstMapping()
      requires ring.Valid() && recvPos <= sendPos <= 2 * ring.size && sendPos - recvPos <= ring.size
      requires recvPos < 2 * ring.size
      modifies this`recvPos, this`sendPos
      ensures recvPos <= sendPos <= 2 * ring.size && recvPos < ring.size && sendPos - recvPos <= ring.size
      ensures Unsent() == old(Unsent())
    {
      if recvPos >= ring.size {
        Rebase(ring.data[..], recvPos, sendPos - recvPos);
        recvPos := recvPos - ring.size;
        sendPos := sendPos - ring.size;
      }
    }

    /** Removes reported bytes from the front of the ring and returns to the first mapping. */
    method Advance(bytesTransferred: nat)
      requires Valid() && outstanding && bytesTransferred <= wsaLen
      modifies this`recvPos, this`sendPos, this`wire
      ensures Positions()
      ensures wire == old(wire) + postedBytes[..bytesTransferred]
      ensures Unsent() == old(Unsent())[bytesTransferred..]
    {
      ghost var window := Unsent();
      WindowSplit(ring.data[..], recvPos, sendPos - recvPos, bytesTransferred);
      WindowSplit(ring.data[..], recvPos, wsaLen, bytesTransferred);
      var reported := ring.CopyOut(wsaOff, bytesTransferred);
      wire := wire + reported;
      PrefixMoves(old(wire), window, bytesTransferred);
      recvPos := recvPos + bytesTransferred;
      assert Unsent() == window[bytesTransferred..];
      ReturnToFirstMapping();
    }

    /** A completion of between one and the posted number of bytes; zero bytes never reach this method. */
    method OnSend(bytesTransferred: nat, postSucceeds: bool) returns (ok: bool)
      requires Valid() && outstanding && 1 <= bytesTransferred <= wsaLen
      modifies this
      ensures Valid() && accepted == old(accepted)
      ensures wire == old(wire) + old(postedBytes)[..bytesTransferred]
      ensures Unsent() == old(Unsent())[bytesTransferred..]
      ensures isSending <==> Unsent() != []
      ensures ok <==> Unsent() == [] || postSucceeds
      ensures stuck <==> Unsent() != [] && !postSucceeds
      ensures FlagMeansBytes() && (NobodyWaits() <==> Unsent() == [] || postSucceeds)
    {
      assert isSending;
      Advance(bytesTransferred);
      outstanding := false;
      if recvPos == sendPos {
        isSending := false;
        return true;
      }
      ok := RegisterSend(postSucceeds);
    }
  }

  /** Completions of arbitrary sizes, each followed by a post that succeeds or not, for as long as bytes are with the
      kernel. On a reliable socket every post succeeds. */
  method Drain(s: Sender, reliable: bool)
    requires s.Valid() && (reliable ==> !s.stuck)
    modifies s
    ensures s.Valid() && s.accepted == old(s.accepted) && (reliable ==> !s.stuck)
    ensures s.wire + s.Unsent() == Flatten(s.accepted)
    ensures AllNonEmpty(s.accepted) && !s.stuck ==> !s.isSending && s.wire == Flatten(s.accepted)
  {
    while s.outstanding && s.wsaLen > 0
      invariant s.Valid() && (reliable ==> !s.stuck) && s.accepted == old(s.accepted)
      decreases |s.Unsent()|
    {
      var n :| 1 <= n <= s.wsaLen;
      var post: bool := *;
      var _ := s.OnSend(n, reliable || post);
    }
    if AllNonEmpty(s.accepted) {
      s.NoLostWakeUp();
      assert s.wire + [] == s.wire;
    }
  }

  /** Any packets, with any number of completions of any size between them. What is on the wire and what is buffered
      are together, in order, exactly the packets that were kept; `SendPacket` returns true only for a kept packet,
      and on a reliable socket exactly for those. A packet is kept whenever all packets up to it fit the ring together.
      If every kept packet has bytes and no post failed, all of them are on the wire in the end. */
  method Transmit(s: Sender, packets: seq<seq<byte>>, reliable: bool) returns (sent: seq<bool>, ghost kept: seq<bool>)
    requires s.Valid() && !s.stuck && s.accepted == []
    requires forall k :: 0 <= k < |packets| ==> |packets[k]| < 0x1_0000
    modifies s, s.ring.data
    ensures s.Valid() && |sent| == |kept| == |packets| && s.accepted == Selected(packets, kept)
    ensures forall k :: 0 <= k < |sent| && sent[k] ==> kept[k]
    ensures reliable ==> !s.stuck && sent == kept
    ensures forall k :: 0 <= k < |kept| && FitTogether(packets, k, s.ring.size) ==> kept[k]
    ensures s.wire + s.Unsent() == Flatten(s.accepted)
    ensures AllNonEmpty(s.accepted) && !s.stuck ==> s.wire == Flatten(s.accepted)
  {
    NothingUnsent(s);
    sent, kept := [], [];
    while |sent| < |packets|
      invariant s.Valid() && |sent| == |kept| <= |packets|
      invariant s.accepted == Selected(packets[..|sent|], kept)
      invariant forall k :: 0 <= k < |sent| && sent[k] ==> kept[k]
      invariant reliable ==> !s.stuck && sent == kept
      invariant |s.Unsent()| <= |Flatten(packets[..|sent|])|
      invariant forall k :: 0 <= k < |kept| && FitTogether(packets, k, s.ring.size) ==> kept[k]
    {
      hide Selected;
      ghost var k := |sent|;
      var ok, fits := SendOne(s, packets[|sent|], reliable);
      SelectedSnoc(packets[..k], kept, packets[k], fits);
      assert packets[..k + 1] == packets[..k] + [packets[k]];
      FlattenSnoc(packets[..k], packets[k]);
      sent, kept := sent + [ok], kept + [fits];
    }
    assert packets[..|sent|] == packets;
    Drain(s, reliable);
  }

  /** The first packets, up to the k-th, fit a ring of that size together. */
  ghost predicate FitTogether(packets: seq<seq<byte>>, k: nat, size: nat) {
    k < |packets| && |Flatten(packets[..k + 1])| <= size
  }

  /** A sender that accepted nothing has nothing unsent. */
  lemma NothingUnsent(s: Sender)
    requires s.Valid() && s.accepted == []
    ensures s.Unsent() == []
  {
    assert |s.wire + s.Unsent()| == 0;
  }

  lemma PrefixFits(packets: seq<seq<byte>>, k: nat, size: nat)
    requires k < |packets| && |Flatten(packets)| <= size
    ensures FitTogether(packets, k, size)
  {
    assert packets == packets[..k + 1] + packets[k + 1..];
    FlattenAppend(packets[..k + 1], packets[k + 1..]);
  }

  lemma {:induction false} AllSelected(packets: seq<seq<byte>>, chosen: seq<bool>)
    requires |packets| == |chosen| && forall k :: 0 <= k < |chosen| ==> chosen[k]
    ensures Selected(packets, chosen) == packets
  {
    if packets == [] {
    } else {
      AllSelected(packets[1..], chosen[1..]);
    }
  }

  /** Some completions and one packet, which is kept if there was room for it before the completions already. */
  method SendOne(s: Sender, packet: seq<byte>, reliable: bool) returns (ok: bool, ghost fits: bool)
    requires s.Valid() && (reliable ==> !s.stuck) && |packet| < 0x1_0000
    modifies s, s.ring.data
    ensures s.Valid() && (reliable ==> !s.stuck && ok == fits) && (ok ==> fits)
    ensures s.accepted == old(s.accepted) + if fits then [packet] else []
    ensures |old(s.Unsent())| + |packet| <= s.ring.size ==> fits
    ensures |s.Unsent()| <= |old(s.Unsent())| + |packet|
  {
    SomeCompletions(s, reliable);
    fits := |s.Unsent()| + |packet| <= s.ring.size;
    var post: bool := *;
    ok := s.SendPacket(packet, reliable || post);
  }

  /** Any number of completions, of any sizes. */
  method SomeCompletions(s: Sender, reliable: bool)
    requires s.Valid() && (reliable ==> !s.stuck)
    modifies s
    ensures s.Valid() && (reliable ==> !s.stuck) && s.accepted == old(s.accepted)
    ensures |s.Unsent()| <= |old(s.Unsent())|
  {
    while *
      invariant s.Valid() && (reliable ==> !s.stuck) && s.accepted == old(s.accepted)
      invariant |s.Unsent()| <= |old(s.Unsent())|
      decreases |s.Unsent()|
    {
      if !s.outstanding || s.wsaLen == 0 {
        break;
      }
      var n :| 1 <= n <= s.wsaLen;
      var post: bool := *;
      var _ := s.OnSend(n, reliable || post);
    }
  }

  /** An empty packet on an idle session is posted as an empty send: the flag is set with no bytes behind it. */
  method EmptyPacketIsPosted() returns (s: Sender)
    ensures s.Valid() && !s.stuck && s.accepted == [[]]
    ensures s.isSending && s.outstanding && s.wsaLen == 0 && s.Unsent() == [] && !s.FlagMeansBytes()
  {
    s := new Sender(65536);
    var _ := s.SendPacket([], true);
  }

  /** A failed post leaves a byte waiting with nobody sending it. */
  method FailedPostStrandsBytes() returns (s: Sender)
    ensures s.Valid() && s.accepted == [[7]]
    ensures s.isSending && !s.outstanding && s.Unsent() == [7] && !s.NobodyWaits()
  {
    s := new Sender(65536);
    var _ := s.SendPacket([7], false);
  }

  /** A set flag alone does not get a packet sent: after an empty packet whose post failed, the next packet's bytes wait
      although the flag was set and nothing was waiting before. */
  method SetFlagStrandsBytes() returns (s: Sender)
    ensures s.Valid() && s.accepted == [[], [7]] && s.isSending && s.Unsent() == [7] && !s.NobodyWaits()
  {
    s := new Sender(65536);
    var _ := s.SendPacket([], false);
    assert s.isSending && s.NobodyWaits();
    var _ := s.SendPacket([7], true);
  }

  function Selected(packets: seq<seq<byte>>, chosen: seq<bool>): seq<seq<byte>>
    requires |packets| == |chosen|
  {
    if packets == [] then [] else
      (if chosen[0] then [packets[0]] else []) + Selected(packets[1..], chosen[1..])
  }

  lemma {:induction false} SelectedSnoc(packets: seq<seq<byte>>, chosen: seq<bool>, p: seq<byte>, c: bool)
    requires |packets| == |chosen|
    ensures Selected(packets + [p], chosen + [c]) == Selected(packets, chosen) + (if c then [p] else [])
  {
    if packets == [] {
    } else {
      SelectedSnoc(packets[1..], chosen[1..], p, c);
      assert (packets + [p])[1..] == packets[1..] + [p] && (chosen + [c])[1..] == chosen[1..] + [c];
    }
  }
}
