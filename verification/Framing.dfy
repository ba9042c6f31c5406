/** Length-prefixed frames on a byte stream: the greedy parse that receiving must agree with. */
module Framing {

  type byte = b: int | 0 <= b < 256

  /** sizeof(PACKET_HEADER): a 16-bit size followed by a 16-bit packet id. */
  const HEADER_SIZE: nat := 4
  const MAX_PACKET_SIZE: nat := 1024

  /** The little-endian `size` field. */
  function SizeField(s: seq<byte>): (n: nat)
    requires HEADER_SIZE <= |s|
    ensures n < 0x1_0000
  {
    (s[0] as int) + 256 * (s[1] as int)
  }

  /** The little-endian `id` field. */
  function IdField(s: seq<byte>): (n: nat)
    requires HEADER_SIZE <= |s|
    ensures n < 0x1_0000
  {
    (s[2] as int) + 256 * (s[3] as int)
  }

  /** What the front of a stream offers a greedy parser whose ring holds `limit` bytes. */
  datatype Front = Incomplete | Illegal | Frame(size: nat)

  function Peek(s: seq<byte>, limit: nat): (f: Front)
    ensures f.Frame? ==> HEADER_SIZE <= f.size <= |s| && f.size < limit && f.size == SizeField(s)
    ensures f.Incomplete? && HEADER_SIZE <= |s| ==> |s| < SizeField(s) < limit
  {
    if |s| < HEADER_SIZE then Incomplete
    else if SizeField(s) < HEADER_SIZE || SizeField(s) >= limit then Illegal
    else if |s| < SizeField(s) then Incomplete
    else Frame(SizeField(s))
  }

  /** Complete frames in order, the bytes after them, and whether those start with an illegal size. */
  datatype Parsed = Parsed(frames: seq<seq<byte>>, rest: seq<byte>, illegal: bool)

  function Parse(s: seq<byte>, limit: nat): (p: Parsed)
    ensures p.illegal <==> Peek(p.rest, limit).Illegal?
    ensures !p.illegal ==> Peek(p.rest, limit).Incomplete?
    decreases |s|
  {
    match Peek(s, limit)
    case Incomplete => Parsed([], s, false)
    case Illegal => Parsed([], s, true)
    case Frame(n) =>
      var tail := Parse(s[n..], limit);
      Parsed([s[..n]] + tail.frames, tail.rest, tail.illegal)
  }

  function Flatten(chunks: seq<seq<byte>>): seq<byte> {
    if chunks == [] then [] else chunks[0] + Flatten(chunks[1..])
  }

  /** A packet whose first two bytes, the low one first, are its size, and that a ring of `limit` bytes accepts. */
  predicate WellFormed(packet: seq<byte>, limit: nat) {
    4 <= |packet| < limit && (packet[0] as int) + 256 * (packet[1] as int) == |packet|
  }

  lemma Associates<T>(a: seq<T>, b: seq<T>, c: seq<T>)
    ensures (a + b) + c == a + (b + c)
  {
  }

  lemma {:induction false} FlattenAppend(a: seq<seq<byte>>, b: seq<seq<byte>>)
    ensures Flatten(a + b) == Flatten(a) + Flatten(b)
  {
    if a == [] {
      assert a + b == b;
    } else {
      FlattenAppend(a[1..], b);
      assert (a + b)[1..] == a[1..] + b && (a + b)[0] == a[0];
      Associates(a[0], Flatten(a[1..]), Flatten(b));
    }
  }

  /** Nothing is lost: the frames followed by the remainder are the stream. */
  lemma {:induction false} ParseConserves(s: seq<byte>, limit: nat)
    ensures Flatten(Parse(s, limit).frames) + Parse(s, limit).rest == s
    decreases |s|
  {
    var f := Peek(s, limit);
    if !f.Frame? {
    } else {
      var tail := Parse(s[f.size..], limit);
      ParseConserves(s[f.size..], limit);
      var frames := [s[..f.size]] + tail.frames;
      assert frames[1..] == tail.frames;
      assert Flatten(frames) == s[..f.size] + Flatten(tail.frames);
      Associates(s[..f.size], Flatten(tail.frames), tail.rest);
    }
  }

  /** Every frame found is one the size check accepts. */
  lemma {:induction false} FramesWellFormed(s: seq<byte>, limit: nat)
    ensures forall k :: 0 <= k < |Parse(s, limit).frames| ==> WellFormed(Parse(s, limit).frames[k], limit)
    decreases |s|
  {
    var f := Peek(s, limit);
    if !f.Frame? {
    } else {
      FramesWellFormed(s[f.size..], limit);
    }
  }

  /** More bytes never change what was already decided about the front. */
  lemma PeekStable(a: seq<byte>, b: seq<byte>, limit: nat)
    requires !Peek(a, limit).Incomplete?
    ensures Peek(a + b, limit) == Peek(a, limit)
  {
  }

  /** Parsing resumes from the remainder: the law that makes receiving independent of chunk boundaries. */
  lemma {:induction false} ParseAppend(a: seq<byte>, b: seq<byte>, limit: nat)
    ensures var p, q := Parse(a, limit), Parse(a + b, limit);
            if p.illegal then q == Parsed(p.frames, p.rest + b, true)
            else q == Parsed(p.frames + Parse(p.rest + b, limit).frames,
                             Parse(p.rest + b, limit).rest, Parse(p.rest + b, limit).illegal)
    decreases |a|
  {
    hide SizeField;
    var f := Peek(a, limit);
    if f.Incomplete? {
      assert [] + Parse(a + b, limit).frames == Parse(a + b, limit).frames;
    } else {
      PeekStable(a, b, limit);
    }
    if f.Frame? {
      assert (a + b)[f.size..] == a[f.size..] + b;
      assert (a + b)[..f.size] == a[..f.size];
      ParseAppend(a[f.size..], b, limit);
      Associates([a[..f.size]], Parse(a[f.size..], limit).frames,
                 Parse(Parse(a[f.size..], limit).rest + b, limit).frames);
    }
  }

  /** A stream made of well-formed packets parses into exactly those packets. */
  lemma {:induction false} ParseFlatten(packets: seq<seq<byte>>, limit: nat)
    requires forall k :: 0 <= k < |packets| ==> WellFormed(packets[k], limit)
    ensures Parse(Flatten(packets), limit) == Parsed(packets, [], false)
  {
    if packets == [] {
    } else {
      var p, tail := packets[0], Flatten(packets[1..]);
      assert Peek(p, limit) == Frame(|p|);
      PeekStable(p, tail, limit);
      assert (p + tail)[|p|..] == tail && (p + tail)[..|p|] == p;
      ParseFlatten(packets[1..], limit);
    }
  }

  /** The parse is the only way to cut a stream into well-formed packets followed by a front that is no frame. */
  lemma ParseUnique(packets: seq<seq<byte>>, rest: seq<byte>, limit: nat)
    requires forall k :: 0 <= k < |packets| ==> WellFormed(packets[k], limit)
    requires !Peek(rest, limit).Frame?
    ensures Parse(Flatten(packets) + rest, limit) == Parsed(packets, rest, Peek(rest, limit).Illegal?)
  {
    ParseFlatten(packets, limit);
    ParseAppend(Flatten(packets), rest, limit);
    assert [] + rest == rest && packets + [] == packets;
  }

  /** A prefix of a stream yields a prefix of its frames. */
  lemma ParsePrefix(a: seq<byte>, b: seq<byte>, limit: nat)
    ensures Parse(a, limit).frames <= Parse(a + b, limit).frames
  {
    ParseAppend(a, b, limit);
  }

  /** Once illegal, a stream stays illegal and yields no further frame. */
  lemma IllegalIsFinal(a: seq<byte>, b: seq<byte>, limit: nat)
    requires Parse(a, limit).illegal
    ensures Parse(a + b, limit).illegal && Parse(a + b, limit).frames == Parse(a, limit).frames
  {
    ParseAppend(a, b, limit);
  }

  /** The unparsed remainder of a legal stream never fills the ring, so a receive can always be posted. */
  lemma RestLeavesRoom(s: seq<byte>, limit: nat)
    requires HEADER_SIZE <= limit && !Parse(s, limit).illegal
    ensures |Parse(s, limit).rest| < limit
  {
  }

  // ---- Runs of completions ----

  /** The receiving side of one session, as its completions see it. */
  datatype Intake = Intake(unparsed: seq<byte>, delivered: seq<seq<byte>>, rejected: bool)

  /** One completion: parse the remainder together with the new bytes, unless the session was rejected. */
  function Receive(r: Intake, chunk: seq<byte>, limit: nat): Intake {
    if r.rejected then r else
      var p := Parse(r.unparsed + chunk, limit);
      Intake(p.rest, r.delivered + p.frames, p.illegal)
  }

  function ReceiveAll(r: Intake, chunks: seq<seq<byte>>, limit: nat): Intake
    decreases |chunks|
  {
    if chunks == [] then r else ReceiveAll(Receive(r, chunks[0], limit), chunks[1..], limit)
  }

  lemma {:induction false} ReceiveAllFrom(s: seq<byte>, r: Intake, chunks: seq<seq<byte>>, limit: nat)
    requires r.delivered == Parse(s, limit).frames && r.rejected == Parse(s, limit).illegal
    requires !r.rejected ==> r.unparsed == Parse(s, limit).rest
    ensures var q, p := ReceiveAll(r, chunks, limit), Parse(s + Flatten(chunks), limit);
            && q.delivered == p.frames && q.rejected == p.illegal
            && (!q.rejected ==> q.unparsed == p.rest)
    decreases |chunks|
  {
    hide Parse;
    if chunks == [] {
      assert s + Flatten(chunks) == s;
    } else {
      ParseAppend(s, chunks[0], limit);
      ReceiveAllFrom(s + chunks[0], Receive(r, chunks[0], limit), chunks[1..], limit);
      assert (s + chunks[0]) + Flatten(chunks[1..]) == s + Flatten(chunks);
    }
  }

  /** However a stream is split into completions, the packets delivered, the remainder kept and the verdict
      are those of one greedy parse of the whole stream. */
  lemma ChunkingIndependence(chunks: seq<seq<byte>>, limit: nat)
    requires HEADER_SIZE <= limit
    ensures var q, p := ReceiveAll(Intake([], [], false), chunks, limit), Parse(Flatten(chunks), limit);
            && q.delivered == p.frames && q.rejected == p.illegal
            && (!q.rejected ==> q.unparsed == p.rest)
  {
    ReceiveAllFrom([], Intake([], [], false), chunks, limit);
    assert [] + Flatten(chunks) == Flatten(chunks);
  }
}
