/** Messages on the byte stream between a client and the service: each side writes a four byte size,
    most significant byte first, and the message; each side reads sizes and messages in turn. */
module Framing {
  import opened Types
  import NodeSpec

  type Byte = x: nat | x < 256
  type Message = seq<Byte>

  const MAX_BUFFER: nat := 8192
  const SIZE_OF_SIZE: nat := 4

  /** htonl, byte by byte. */
  function BigEndian(n: u32): Message {
    var a := n / 0x100;
    var b := a / 0x100;
    [b / 0x100, b % 0x100, a % 0x100, n % 0x100]
  }

  /** ntohl of the first four bytes. */
  function SizeAt(s: Message): u32
    requires |s| >= SIZE_OF_SIZE
  {
    var a: nat, b: nat, c: nat, d: nat := s[0], s[1], s[2], s[3];
    ((a * 0x100 + b) * 0x100 + c) * 0x100 + d
  }

  lemma SizeRead(n: u32, rest: Message)
    ensures SizeAt(BigEndian(n) + rest) == n
  {
  }

  lemma SameSize(s: Message, t: Message)
    requires |s| >= SIZE_OF_SIZE && |t| >= SIZE_OF_SIZE && s[..SIZE_OF_SIZE] == t[..SIZE_OF_SIZE]
    ensures SizeAt(s) == SizeAt(t)
  {
    assert forall i :: 0 <= i < SIZE_OF_SIZE ==> s[i] == s[..SIZE_OF_SIZE][i] && t[i] == t[..SIZE_OF_SIZE][i];
  }

  // ---- writing -------------------------------------------------------------------------

  /** The writer refuses what does not fit the buffer together with its size. */
  predicate Accepted(m: Message) { |m| + SIZE_OF_SIZE <= MAX_BUFFER }

  function Frame(m: Message): Message { if Accepted(m) then BigEndian(|m|) + m else [] }

  function Written(ms: seq<Message>): Message { if ms == [] then [] else Frame(ms[0]) + Written(ms[1..]) }

  /** The writer's buffer: size first, then the message; zero reports a refusal. */
  method Write(m: Message) returns (bytes: Message, total: nat)
    requires |m| < 0x8000_0000
    ensures bytes == Frame(m) && total == |bytes|
  {
    var size: u32 := |m|;
    total := (size + SIZE_OF_SIZE) % U32;
    if total > MAX_BUFFER {
      return [], 0;
    }
    var buffer := new Byte[MAX_BUFFER](_ => 0);
    var header := BigEndian(size);
    Copy(buffer, 0, header);
    Copy(buffer, SIZE_OF_SIZE, m);
    bytes := buffer[..total];
    assert bytes == header + m;
  }

  /** memcpy into the buffer at an offset. */
  method Copy(buffer: array<Byte>, at: nat, m: Message)
    requires at + |m| <= buffer.Length
    modifies buffer
    ensures buffer[..at] == old(buffer[..at]) && buffer[at..at + |m|] == m
  {
    var i := 0;
    while i < |m|
      invariant i <= |m| && buffer[..at] == old(buffer[..at]) && buffer[at..at + i] == m[..i]
    {
      buffer[at + i] := m[i];
      i := i + 1;
    }
  }

  // ---- reading -------------------------------------------------------------------------

  /** A size the reader goes on to read a message for; any other is dropped on its own. */
  predicate Sane(size: u32) { 0 < size <= MAX_BUFFER - SIZE_OF_SIZE }

  /** The messages handed over before the stream runs dry. */
  function Handed(s: Message): seq<Message>
    decreases |s|
  {
    if |s| < SIZE_OF_SIZE then []
    else
      var rest := s[SIZE_OF_SIZE..];
      var size := SizeAt(s);
      if !Sane(size) then Handed(rest)
      else if |rest| < size then []
      else [rest[..size]] + Handed(rest[size..])
  }

  /** The reader's loop. */
  method Read(s: Message) returns (ms: seq<Message>)
    ensures ms == Handed(s)
  {
    hide SizeAt;
    ms := [];
    var at := 0;
    while |s| - at >= SIZE_OF_SIZE
      invariant at <= |s| && ms + Handed(s[at..]) == Handed(s)
    {
      var size := SizeAt(s[at..]);
      at := at + SIZE_OF_SIZE;
      assert s[at - SIZE_OF_SIZE..][SIZE_OF_SIZE..] == s[at..];
      if Sane(size) {
        if |s| - at < size {
          return;
        }
        assert s[at..][size..] == s[at + size..] && s[at..][..size] == s[at..at + size];
        ms := ms + [s[at..at + size]];
        at := at + size;
      }
    }
  }

  // ---- both together -------------------------------------------------------------------

  /** What survives the trip: messages that are neither empty nor refused. */
  predicate Carried(m: Message) { 0 < |m| && Accepted(m) }

  lemma FrameRead(m: Message, rest: Message)
    ensures Handed(Frame(m) + rest) == (if Carried(m) then [m] else []) + Handed(rest)
  {
    if Accepted(m) {
      var s := BigEndian(|m|) + m + rest;
      assert Frame(m) + rest == s;
      SizeRead(|m|, m + rest);
      assert s == BigEndian(|m|) + (m + rest);
      assert s[SIZE_OF_SIZE..] == m + rest;
      assert (m + rest)[|m|..] == rest && (m + rest)[..|m|] == m;
    } else {
      assert Frame(m) + rest == rest;
    }
  }

  /** Reading what was written yields exactly the accepted, non-empty messages, in order. */
  lemma {:induction false} RoundTrip(ms: seq<Message>)
    ensures Handed(Written(ms)) == NodeSpec.FilterSeq(ms, Carried)
    decreases |ms|
  {
    if ms != [] {
      FrameRead(ms[0], Written(ms[1..]));
      RoundTrip(ms[1..]);
    }
  }

  /** Wherever the stream is cut, what has been handed over so far is a prefix of all that will be. */
  lemma {:induction false} CutAnywhere(s: Message, i: nat)
    requires i <= |s|
    ensures Handed(s[..i]) <= Handed(s)
    decreases |s|
  {
    hide SizeAt;
    if i >= SIZE_OF_SIZE {
      var rest := s[SIZE_OF_SIZE..];
      var size := SizeAt(s);
      SameSize(s[..i], s);
      assert s[..i][SIZE_OF_SIZE..] == rest[..i - SIZE_OF_SIZE];
      if !Sane(size) {
        CutAnywhere(rest, i - SIZE_OF_SIZE);
      } else if i - SIZE_OF_SIZE >= size {
        assert rest[..i - SIZE_OF_SIZE][size..] == rest[size..][..i - SIZE_OF_SIZE - size];
        assert rest[..i - SIZE_OF_SIZE][..size] == rest[..size];
        CutAnywhere(rest[size..], i - SIZE_OF_SIZE - size);
      }
    }
  }
}
