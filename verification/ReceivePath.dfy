/** The receiving half of a session: the ring filled by completions and the loop that cuts packets out of it. */
module ReceivePath {
  import opened Framing
  import opened Handles
  import opened Rings

  /** `size - sendPos + recvPos` in 64-bit unsigned arithmetic, narrowed to the 32-bit buffer length. */
  function PostedLength(size: nat, sendPos: nat, recvPos: nat): nat {
    (((size - sendPos) % TWO_64 + recvPos) % TWO_64) % TWO_32
  }

  /** The intermediate difference may wrap below zero; the sum wraps back to the exact free space. */
  lemma PostedLengthIsFreeSpace(size: nat, sendPos: nat, recvPos: nat)
    requires recvPos <= sendPos <= recvPos + size && size < TWO_32 && sendPos <= 2 * size
    ensures PostedLength(size, sendPos, recvPos) == size - (sendPos - recvPos)
  {
  }

  /** `cut` packets have been taken off the front of `stream`, and `window` is what is left. */
  ghost predicate CutSoFar(stream: seq<byte>, cut: seq<seq<byte>>, window: seq<byte>, limit: nat) {
    var p := Parse(window, limit);
    Parse(stream, limit) == Parsed(cut + p.frames, p.rest, p.illegal)
  }

  /** One completion keeps a receiver in step with the parse of everything received. */
  lemma InStep(received: seq<byte>, chunk: seq<byte>, limit: nat)
    requires !Parse(received, limit).illegal
    ensures var before, p, after := Parse(received, limit), Parse(Parse(received, limit).rest + chunk, limit),
                                    Parse(received + chunk, limit);
            && after.frames == before.frames + p.frames
            && after.rest == p.rest && after.illegal == p.illegal
  {
    ParseAppend(received, chunk, limit);
  }

  lemma CutNone(stream: seq<byte>, limit: nat)
    ensures CutSoFar(stream, [], stream, limit)
  {
  }

  lemma CutOneMore(stream: seq<byte>, cut: seq<seq<byte>>, window: seq<byte>, n: nat, limit: nat)
    requires CutSoFar(stream, cut, window, limit) && Peek(window, limit) == Frame(n)
    ensures CutSoFar(stream, cut + [window[..n]], window[n..], limit)
  {
  }

  lemma CutAll(stream: seq<byte>, cut: seq<seq<byte>>, window: seq<byte>, limit: nat)
    requires CutSoFar(stream, cut, window, limit) && !Peek(window, limit).Frame?
    ensures Parse(stream, limit) == Parsed(cut, window, Peek(window, limit).Illegal?)
  {
  }

  class Receiver {
    const ring: MirroredRingBuffer
    var recvPos: nat
    var sendPos: nat
    /** The buffer last handed to the kernel. */
    var wsaOff: nat
    var wsaLen: nat
    /** The packets `AcquirePacket` was called with and tasks were posted for, oldest first. */
    var tasks: seq<seq<byte>>

    ghost predicate Valid()
      reads this
    {
      && ring.Valid()
      && recvPos <= sendPos <= 2 * ring.size
      && sendPos - recvPos <= ring.size
    }

    /** Between completions the read position is rebased into the first mapping. */
    ghost predicate Ready()
      reads this
    {
      Valid() && recvPos < ring.size
    }

    /** Received bytes not yet cut into packets. */
    ghost function Unparsed(): seq<byte>
      requires Valid()
      reads this, ring.data
    {
      ring.View(recvPos, sendPos - recvPos)
    }

    constructor (size: nat)
      requires HEADER_SIZE <= size < 0x1_0000_0000
      ensures Ready() && Unparsed() == [] && tasks == [] && ring.size == size
      ensures fresh(ring) && fresh(ring.data)
    {
      ring := new MirroredRingBuffer(size);
      recvPos, sendPos, wsaOff, wsaLen, tasks := 0, 0, 0, 0, [];
    }

    /** Posts a receive for exactly the free space; only a full ring is refused before the system call. */
    method RegisterRecv(postSucceeds: bool) returns (ok: bool)
      requires Ready()
      modifies this`wsaOff, this`wsaLen
      ensures ok <==> sendPos - recvPos < ring.size && postSucceeds
      ensures ok ==> wsaOff == sendPos && wsaLen == ring.size - (sendPos - recvPos) && wsaOff + wsaLen < 2 * ring.size
    {
      PostedLengthIsFreeSpace(ring.size, sendPos, recvPos);
      wsaLen := PostedLength(ring.size, sendPos, recvPos);
      if wsaLen == 0 {
        return false;
      }
      wsaOff := sendPos;
      return postSucceeds;
    }

    /** The kernel's half of a completion: it fills the front of the posted buffer. */
    method KernelFill(chunk: seq<byte>)
      requires Ready() && wsaOff == sendPos && wsaLen == ring.size - (sendPos - recvPos) && |chunk| <= wsaLen
      modifies ring.data
      ensures ring.View(recvPos, sendPos - recvPos + |chunk|) == old(Unparsed()) + chunk
    {
      CopyAppends(ring.data[..], recvPos, sendPos - recvPos, chunk);
      ring.CopyIn(wsaOff, chunk);
    }

    /** Reads the header at the read position, if there is a whole one, and checks its size. */
    method PeekFront() returns (front: Front)
      requires Valid() && sendPos < 2 * ring.size
      ensures front == Peek(Unparsed(), ring.size)
    {
      var availableData := sendPos - recvPos;
      if availableData < HEADER_SIZE {
        return Incomplete;
      }
      var size := (ring.At(recvPos) as int) + 256 * (ring.At(recvPos + 1) as int);
      assert size == SizeField(Unparsed());
      if size < HEADER_SIZE || size >= ring.size {
        return Illegal;
      }
      if availableData < size {
        return Incomplete;
      }
      return Frame(size);
    }

    method ReturnToFirstMapping()
      requires Valid() && sendPos < 2 * ring.size
      modifies this`recvPos, this`sendPos
      ensures Ready() && Unparsed() == old(Unparsed())
    {
      if recvPos >= ring.size {
        Rebase(ring.data[..], recvPos, sendPos - recvPos);
        recvPos := recvPos - ring.size;
        sendPos := sendPos - ring.size;
      }
    }

    /** Copies the packet at the read position into a block, queues it and steps over it. */
    method TakePacket(size: nat) returns (ghost packet: seq<byte>)
      requires Valid() && size <= sendPos - recvPos
      modifies this`recvPos, this`tasks
      ensures Valid() && packet == old(Unparsed())[..size] && Unparsed() == old(Unparsed())[size..]
      ensures tasks == old(tasks) + [packet]
    {
      var block := ring.CopyOut(recvPos, size);
      WindowSplit(ring.data[..], recvPos, sendPos - recvPos, size);
      tasks := tasks + [block];
      recvPos := recvPos + size;
      packet := block;
    }

    method OnRecv(bytesTransferred: nat, postSucceeds: bool) returns (ok: bool)
      requires Ready() && bytesTransferred <= ring.size - (sendPos - recvPos)
      modifies this
      ensures Valid()
      ensures var p := Parse(old(ring.View(recvPos, sendPos - recvPos + bytesTransferred)), ring.size);
              && tasks == old(tasks) + p.frames
              && Unparsed() == p.rest
              && (ok <==> !p.illegal && postSucceeds)
              && (!p.illegal ==> Ready() && |Unparsed()| < ring.size)
      ensures ok ==> wsaOff == sendPos && wsaLen == ring.size - |Unparsed()|
    {
      hide CutSoFar, Peek;
      sendPos := sendPos + bytesTransferred;
      ghost var stream := Unparsed();
      assert stream == old(ring.View(recvPos, sendPos - recvPos + bytesTransferred));
      ghost var cut: seq<seq<byte>> := [];
      CutNone(stream, ring.size);

      while true
        invariant Valid() && sendPos < 2 * ring.size
        invariant tasks == old(tasks) + cut
        invariant CutSoFar(stream, cut, Unparsed(), ring.size)
        decreases sendPos - recvPos
      {
        ghost var window := Unparsed();
        var front := PeekFront();
        if front.Illegal? {
          CutAll(stream, cut, window, ring.size);
          assert tasks == old(tasks) + Parse(stream, ring.size).frames;
          return false;
        }
        if front.Incomplete? {
          break;
        }
        ghost var packet := TakePacket(front.size);
        CutOneMore(stream, cut, window, front.size, ring.size);
        cut := cut + [packet];
      }

      CutAll(stream, cut, Unparsed(), ring.size);
      assert tasks == old(tasks) + Parse(stream, ring.size).frames;
      ReturnToFirstMapping();
      ok := RegisterRecv(postSucceeds);
    }
  }

  /** What a receiver holds once it has consumed `received`, with its next receive posted. */
  ghost predicate HasConsumed(r: Receiver, received: seq<byte>)
    reads r, r.ring.data
  {
    && r.Ready()
    && r.wsaOff == r.sendPos && r.wsaLen == r.ring.size - (r.sendPos - r.recvPos) && 0 < r.wsaLen
    && !Parse(received, r.ring.size).illegal
    && r.Unparsed() == Parse(received, r.ring.size).rest
    && r.tasks == Parse(received, r.ring.size).frames
  }

  /** A stream, delivered in completions of any sizes the posted buffers allow; each next receive is posted or not, and
      on a reliable socket always is. `taken` is what was delivered. Room is always left for the next completion, and
      the packets queued depend on the bytes delivered alone. */
  method ReceiveStream(r: Receiver, stream: seq<byte>, reliable: bool)
    returns (ok: bool, ghost taken: seq<byte>, unread: seq<byte>)
    requires r.Ready() && r.Unparsed() == [] && r.tasks == []
    modifies r, r.ring.data
    ensures r.Valid() && taken + unread == stream
    ensures r.tasks == Parse(taken, r.ring.size).frames
    ensures ok ==> unread == [] && !Parse(stream, r.ring.size).illegal
    ensures ok ==> r.Unparsed() == Parse(stream, r.ring.size).rest
    ensures reliable ==> r.tasks == Parse(stream, r.ring.size).frames
    ensures reliable ==> (ok <==> !Parse(stream, r.ring.size).illegal)
  {
    var post: bool := *;
    ok := r.RegisterRecv(reliable || post);
    taken, unread := [], stream;
    while ok && unread != []
      invariant r.Valid() && taken + unread == stream && (ok ==> HasConsumed(r, taken))
      invariant r.tasks == Parse(taken, r.ring.size).frames
      invariant reliable && !ok ==> Parse(taken, r.ring.size).illegal
      decreases |unread|
    {
      var n :| 1 <= n <= r.wsaLen && n <= |unread|;
      var chunk, rest := unread[..n], unread[n..];
      assert (taken + chunk) + rest == stream;
      post := *;
      ok := CompleteRecv(r, chunk, taken, reliable || post);
      taken, unread := taken + chunk, rest;
    }
    if ok {
      assert taken + [] == taken;
    } else if reliable {
      IllegalIsFinal(taken, unread, r.ring.size);
    }
  }

  /** One completion of the posted receive, dispatched to the session. */
  method CompleteRecv(r: Receiver, chunk: seq<byte>, ghost received: seq<byte>, postSucceeds: bool) returns (ok: bool)
    requires HasConsumed(r, received) && |chunk| <= r.wsaLen
    modifies r, r.ring.data
    ensures r.Valid()
    ensures ok <==> !Parse(received + chunk, r.ring.size).illegal && postSucceeds
    ensures ok ==> HasConsumed(r, received + chunk)
    ensures r.tasks == Parse(received + chunk, r.ring.size).frames
  {
    hide Parse;
    InStep(received, chunk, r.ring.size);
    r.KernelFill(chunk);
    ok := r.OnRecv(|chunk|, postSucceeds);
  }
}
