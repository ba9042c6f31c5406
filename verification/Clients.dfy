/** The peer: a blocking socket with short reads and writes, and the loops that frame packets on it. */
module Clients {
  import opened Framing

  /** The bytes `ReceivePacket` takes off the front: a header alone when its size field is below a header. */
  function ClientFrame(s: seq<byte>): nat
    requires HEADER_SIZE <= |s|
  {
    if SizeField(s) < HEADER_SIZE then HEADER_SIZE else SizeField(s)
  }

  predicate ClientCanRead(s: seq<byte>) {
    HEADER_SIZE <= |s| && ClientFrame(s) <= |s|
  }

  class Socket {
    /** Bytes the peer sends before closing, and bytes written so far. */
    var incoming: seq<byte>
    var outgoing: seq<byte>
    /** Calls on a reliable socket report no error. */
    const reliable: bool

    constructor (incoming: seq<byte>, reliable: bool)
      ensures this.incoming == incoming && this.outgoing == [] && this.reliable == reliable
    {
      this.incoming, this.outgoing, this.reliable := incoming, [], reliable;
    }

    /** recv: some of the pending bytes, zero once the peer has closed, or a negative error. */
    method Recv(len: nat) returns (result: int, bytes: seq<byte>)
      requires 0 < len
      modifies this`incoming
      ensures result <= len
      ensures result > 0 ==> |bytes| == result && old(incoming) == bytes + incoming
      ensures result <= 0 ==> incoming == old(incoming)
      ensures result == 0 ==> incoming == []
      ensures reliable ==> result >= 0
    {
      if !reliable {
        result :| -1 <= result <= 0;
        if result < 0 {
          return result, [];
        }
      }
      if incoming == [] {
        return 0, [];
      }
      result :| 1 <= result <= len && result <= |incoming|;
      bytes := incoming[..result];
      incoming := incoming[result..];
    }

    /** send: some of the bytes, zero if the peer has closed, or a negative error. */
    method Send(bytes: seq<byte>) returns (result: int)
      requires bytes != []
      modifies this`outgoing
      ensures result <= |bytes|
      ensures outgoing == old(outgoing) + (if result > 0 then bytes[..result] else [])
      ensures reliable ==> result > 0
    {
      if !reliable {
        result :| -1 <= result <= 1;
        if result <= 0 {
          return;
        }
      }
      result :| 1 <= result <= |bytes|;
      outgoing := outgoing + bytes[..result];
    }
  }

  class Client {
    const socket: Socket

    constructor (socket: Socket)
      ensures this.socket == socket
    {
      this.socket := socket;
    }

    /** On success everything was written, in order; on failure some prefix was. */
    method SendByte(buffer: seq<byte>) returns (ok: bool)
      modifies socket
      ensures socket.incoming == old(socket.incoming)
      ensures exists n :: 0 <= n <= |buffer| && socket.outgoing == old(socket.outgoing) + buffer[..n]
      ensures ok ==> socket.outgoing == old(socket.outgoing) + buffer
      ensures socket.reliable ==> ok
    {
      var bytesSent := 0;
      while bytesSent < |buffer|
        invariant 0 <= bytesSent <= |buffer|
        invariant socket.incoming == old(socket.incoming)
        invariant socket.outgoing == old(socket.outgoing) + buffer[..bytesSent]
      {
        ghost var before := socket.outgoing;
        var result := socket.Send(buffer[bytesSent..]);
        if result <= 0 {
          return false;
        }
        assert buffer[..bytesSent + result] == buffer[..bytesSent] + buffer[bytesSent..][..result];
        bytesSent := bytesSent + result;
      }
      assert buffer[..bytesSent] == buffer;
      return true;
    }

    /** Fills `len` bytes of the buffer; a non-positive length reads nothing and succeeds. */
    method ReceiveByte(buffer: array<byte>, off: nat, len: int) returns (ok: bool)
      requires off <= buffer.Length && off + len <= buffer.Length
      modifies socket`incoming, buffer
      ensures buffer[..off] == old(buffer[..off])
      ensures ok ==> var n := if len < 0 then 0 else len;
                     old(socket.incoming) == buffer[off..off + n] + socket.incoming
      ensures socket.reliable ==> (ok <==> len <= |old(socket.incoming)|)
    {
      var bytesReceived := 0;
      while bytesReceived < len
        invariant 0 <= bytesReceived && (bytesReceived <= len || bytesReceived == 0)
        invariant off + bytesReceived <= buffer.Length
        invariant buffer[..off] == old(buffer[..off])
        invariant old(socket.incoming) == buffer[off..off + bytesReceived] + socket.incoming
      {
        var result, bytes := socket.Recv(len - bytesReceived);
        if result <= 0 {
          return false;
        }
        Fill(buffer, off + bytesReceived, bytes);
        assert buffer[off..off + bytesReceived + result] == buffer[off..off + bytesReceived] + bytes;
        bytesReceived := bytesReceived + result;
      }
      return true;
    }

    /** The bytes a read places in the buffer. */
    static method Fill(buffer: array<byte>, at: nat, bytes: seq<byte>)
      requires at + |bytes| <= buffer.Length
      modifies buffer
      ensures buffer[at..at + |bytes|] == bytes
      ensures buffer[..at] == old(buffer[..at])
    {
      forall k | 0 <= k < |bytes| {
        buffer[at + k] := bytes[k];
      }
    }

    /** Reads one header and then the rest of its packet. The buffer must hold the packet the peer announces. */
    method ReceivePacket(buffer: array<byte>) returns (ok: bool)
      requires HEADER_SIZE <= buffer.Length
      requires HEADER_SIZE <= |socket.incoming| ==> SizeField(socket.incoming) <= buffer.Length
      modifies socket`incoming, buffer
      ensures ok ==>
                && ClientCanRead(old(socket.incoming)) && ClientFrame(old(socket.incoming)) <= buffer.Length
                && old(socket.incoming) == buffer[..ClientFrame(old(socket.incoming))] + socket.incoming
      ensures socket.reliable ==> (ok <==> ClientCanRead(old(socket.incoming)))
    {
      ghost var stream := socket.incoming;
      ok := ReceiveByte(buffer, 0, HEADER_SIZE);
      if !ok {
        return;
      }
      ghost var header := buffer[..HEADER_SIZE];
      assert buffer[0..HEADER_SIZE] == header;
      var size := (buffer[0] as int) + 256 * (buffer[1] as int);
      assert size == SizeField(stream);
      assert stream[HEADER_SIZE..] == socket.incoming;
      ok := ReceiveByte(buffer, HEADER_SIZE, size - HEADER_SIZE);
      if ok {
        var n := if size < HEADER_SIZE then HEADER_SIZE else size;
        assert buffer[..n] == header + buffer[HEADER_SIZE..n];
        assert stream == header + (buffer[HEADER_SIZE..n] + socket.incoming);
      }
    }

    /** As many packets as asked for, as the test clients receive them; `rest` is what follows them. */
    method ReceivePackets(count: nat, buffer: array<byte>, ghost packets: seq<seq<byte>>, ghost rest: seq<byte>)
      returns (received: seq<seq<byte>>)
      requires socket.reliable && count == |packets| && socket.incoming == Flatten(packets) + rest
      requires HEADER_SIZE <= buffer.Length
      requires forall k :: 0 <= k < |packets| ==> WellFormed(packets[k], 0x1_0000) && |packets[k]| <= buffer.Length
      modifies socket`incoming, buffer
      ensures received == packets && socket.incoming == rest
    {
      received := [];
      while |received| < count
        invariant |received| <= count
        invariant received == packets[..|received|]
        invariant socket.incoming == Flatten(packets[|received|..]) + rest
      {
        ghost var k := |received|;
        ghost var packet, tail := packets[k], Flatten(packets[k + 1..]) + rest;
        assert packets[k..][1..] == packets[k + 1..];
        Associates(packet, Flatten(packets[k + 1..]), rest);
        assert socket.incoming == packet + tail;
        PeekStable(packet, tail, 0x1_0000);
        assert SizeField(packet + tail) == |packet|;
        var ok := ReceivePacket(buffer);
        assert buffer[..|packet|] == packet by {
          assert (packet + tail)[..|packet|] == packet;
        }
        assert socket.incoming == tail by {
          assert (packet + tail)[|packet|..] == tail;
        }
        var size := (buffer[0] as int) + 256 * (buffer[1] as int);
        received := received + [buffer[..size]];
      }
      assert packets[|received|..] == [] && [] + rest == rest;
    }
  }
}
