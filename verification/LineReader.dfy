/** Reading one bounded line from a buffered stream that arrives in chunks of any size. */
module LineReader {

  newtype Byte = x: int | 0 <= x < 256

  const NEWLINE: Byte := 10

  datatype LineError = Io | InvalidUtf8 | TooLarge

  datatype Line = Read(bytes: seq<Byte>) | Failed(error: LineError)

  /** The bytes up to and including the first newline, or all of them. */
  function FirstLine(stream: seq<Byte>): (line: seq<Byte>)
    ensures line <= stream
  {
    if stream == [] then []
    else if stream[0] == NEWLINE then [NEWLINE]
    else [stream[0]] + FirstLine(stream[1..])
  }

  predicate Terminated(line: seq<Byte>) {
    line != [] && line[|line| - 1] == NEWLINE
  }

  /** What reading a line means, on the whole stream: `breaks` says that the connection fails
  after its last byte instead of ending. */
  function ReadLine(
    stream: seq<Byte>, breaks: bool, limit: nat, utf8: seq<Byte> -> bool): Line
  {
    var line := FirstLine(stream);
    if |line| > limit then Failed(TooLarge)
    else if !Terminated(line) && breaks then Failed(Io)
    else if !utf8(line) then Failed(InvalidUtf8)
    else Read(line)
  }

  lemma {:induction false} FirstLineAcross(a: seq<Byte>, b: seq<Byte>)
    ensures FirstLine(a + b) == if NEWLINE in a then FirstLine(a) else a + FirstLine(b)
    ensures NEWLINE in a <==> Terminated(FirstLine(a))
    ensures NEWLINE !in a ==> FirstLine(a) == a
  {
    if a == [] {
      assert a + b == b;
    } else {
      assert (a + b)[1..] == a[1..] + b;
      FirstLineAcross(a[1..], b);
      assert a == [a[0]] + a[1..];
      if a[0] != NEWLINE && NEWLINE in a {
        assert NEWLINE in a[1..];
      }
    }
  }

  function Flatten(chunks: seq<seq<Byte>>): seq<Byte> {
    if chunks == [] then [] else chunks[0] + Flatten(chunks[1..])
  }

  /** A buffered reader: the bytes of the current chunk, and the chunks still to arrive. */
  class BufferedReader {
    var chunks: seq<seq<Byte>>
    const breaks: bool

    constructor (chunks: seq<seq<Byte>>, breaks: bool)
      requires forall c | c in chunks :: c != []
      ensures this.chunks == chunks && this.breaks == breaks && Valid()
    {
      this.chunks, this.breaks := chunks, breaks;
    }

    ghost predicate Valid()
      reads this
    {
      forall c | c in chunks :: c != []
    }

    ghost function Stream(): seq<Byte>
      reads this
    {
      Flatten(chunks)
    }

    method Consume(n: nat)
      requires Valid() && chunks != [] && n <= |chunks[0]|
      modifies this`chunks
      ensures Valid() && old(Stream()) == old(chunks[0][..n]) + Stream()
    {
      var rest := chunks[0][n..];
      assert chunks[0] == chunks[0][..n] + rest;
      assert forall c | c in chunks[1..] :: c in chunks;
      if rest == [] {
        chunks := chunks[1..];
      } else {
        chunks := [rest] + chunks[1..];
      }
    }

    /** Read one line.  The result depends only on the bytes, not on how they are chunked, and
    a line that is read leaves exactly the bytes after it. */
    method ReadLineBounded(limit: nat, utf8: seq<Byte> -> bool) returns (r: Line)
      requires Valid()
      modifies this`chunks
      ensures Valid()
      ensures r == ReadLine(old(Stream()), breaks, limit, utf8)
      ensures r.Read? ==> old(Stream()) == r.bytes + Stream()
    {
      hide FirstLine, Flatten;
      ghost var whole := Stream();
      var bytes: seq<Byte> := [];
      while chunks != []
        invariant Valid()
        invariant whole == bytes + Stream() && NEWLINE !in bytes && |bytes| <= limit
        decreases |Stream()|
      {
        var available := chunks[0];
        assert available in chunks;
        var length := LineLength(available);
        FirstChunk(chunks);
        OneChunk(whole, bytes, available, Flatten(chunks[1..]));
        if |bytes| + length > limit { return Failed(TooLarge); }
        var taken := available[..length];
        Consume(length);
        assert bytes + (taken + Stream()) == bytes + taken + Stream();
        bytes := bytes + taken;
        if taken[length - 1] == NEWLINE {
          return if utf8(bytes) then Read(bytes) else Failed(InvalidUtf8);
        }
      }
      FirstLineAcross(bytes, []);
      NoChunks();
      assert whole == bytes;
      if breaks { return Failed(Io); }
      return if utf8(bytes) then Read(bytes) else Failed(InvalidUtf8);
    }
  }

  lemma FirstChunk(chunks: seq<seq<Byte>>)
    requires chunks != []
    ensures Flatten(chunks) == chunks[0] + Flatten(chunks[1..])
  {
  }

  lemma NoChunks()
    ensures Flatten([]) == []
  {
  }

  /** The line continues through a chunk without a newline and ends in one with a newline. */
  lemma OneChunk(whole: seq<Byte>, bytes: seq<Byte>, available: seq<Byte>, rest: seq<Byte>)
    requires whole == bytes + (available + rest) && NEWLINE !in bytes
    ensures |bytes| + |FirstLine(available)| <= |FirstLine(whole)|
    ensures NEWLINE in available <==> Terminated(FirstLine(available))
    ensures NEWLINE in available ==> FirstLine(whole) == bytes + FirstLine(available)
    ensures NEWLINE !in available ==> FirstLine(available) == available
  {
    FirstLineAcross(bytes, available + rest);
    FirstLineAcross(available, rest);
  }

  method LineLength(available: seq<Byte>) returns (length: nat)
    requires available != []
    ensures 0 < length <= |available| && available[..length] == FirstLine(available)
    ensures available[length - 1] != NEWLINE ==> NEWLINE !in available[..length] && length == |available|
  {
    length := 0;
    while length < |available| && available[length] != NEWLINE
      invariant length <= |available| && NEWLINE !in available[..length]
    {
      length := length + 1;
    }
    FirstLineAcross(available[..length], available[length..]);
    assert available == available[..length] + available[length..];
    if length < |available| {
      length := length + 1;
    }
  }
}
