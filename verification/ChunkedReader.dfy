/** Reading a request body in the chunked transfer coding (section 4.1 of RFC 7230):
    IPPServer.read_specified, read_chunk_size, read_chunk and read_all_chunks of ippd. */
module ChunkedReader {
  import opened Bytes
  import opened StateReasons

  type ByteString = seq<Byte>

  const LF: Byte := 10
  const CR: Byte := 13
  const SEMICOLON: Byte := 59
  const UNDERSCORE: Byte := 95

  // int (line, base=16)

  predicate IsSpace(b: Byte) {
    b == 32 || 9 <= b <= 13
  }

  /** The value of a hexadecimal digit of either case. */
  function Digit(b: Byte): (v: Option<nat>)
    ensures v.Some? ==> v.value < 16
  {
    if 48 <= b <= 57 then Some(b - 48)
    else if 65 <= b <= 70 then Some(b - 55)
    else if 97 <= b <= 102 then Some(b - 87)
    else None
  }

  function StripLeft(s: ByteString): ByteString {
    if s != [] && IsSpace(s[0]) then StripLeft(s[1..]) else s
  }

  function StripRight(s: ByteString): ByteString {
    if s != [] && IsSpace(s[|s| - 1]) then StripRight(s[..|s| - 1]) else s
  }

  /** Digits, with single underscores between them. */
  predicate Digits(s: ByteString) {
    && s != [] && Digit(s[|s| - 1]).Some?
    && (|s| == 1 || Digits(if s[|s| - 2] == UNDERSCORE then s[..|s| - 2] else s[..|s| - 1]))
  }

  function DigitsValue(s: ByteString): nat
    requires Digits(s)
  {
    Digit(s[|s| - 1]).value
      + if |s| == 1 then 0
        else 16 * DigitsValue(if s[|s| - 2] == UNDERSCORE then s[..|s| - 2] else s[..|s| - 1])
  }

  function SkipPrefix(s: ByteString): ByteString {
    if |s| >= 2 && s[0] == 48 && (s[1] == 88 || s[1] == 120) then
      if |s| >= 3 && s[2] == UNDERSCORE then s[3..] else s[2..]
    else s
  }

  function Magnitude(s: ByteString): Option<nat> {
    var digits := SkipPrefix(s);
    if Digits(digits) then Some(DigitsValue(digits)) else None
  }

  /** None stands for ValueError. White space around the number, a sign, a prefix 0x and
      underscores between digits are all accepted. */
  function ParseInt(text: ByteString): Option<int> {
    var s := StripRight(StripLeft(text));
    if s != [] && s[0] == 43 then Lifted(Magnitude(s[1..]), 1)
    else if s != [] && s[0] == 45 then Lifted(Magnitude(s[1..]), -1)
    else Lifted(Magnitude(s), 1)
  }

  function Lifted(v: Option<nat>, sign: int): Option<int> {
    if v.Some? then Some(sign * v.value) else None
  }

  // What the reader computes from a stream of bytes

  /** How many bytes readline takes: up to and including the first LF, or everything. */
  function LineEnd(s: ByteString): (n: nat)
    ensures n <= |s| && (s != [] ==> 0 < n)
    ensures LF !in s[..n] ==> n == |s|
  {
    if s == [] then 0
    else if s[0] == LF then 1
    else
      var n := LineEnd(s[1..]);
      assert s[..n + 1] == [s[0]] + s[1..][..n];
      n + 1
  }

  /** What comes before the first semicolon. */
  function BeforeExtension(line: ByteString): ByteString {
    if line == [] || line[0] == SEMICOLON then [] else [line[0]] + BeforeExtension(line[1..])
  }

  function SizeOf(line: ByteString): Option<int> {
    ParseInt(BeforeExtension(line))
  }

  datatype Outcome =
    | Body(data: ByteString)
    | IncompleteRead(partial: ByteString, expected: int)
    | ValueError

  function Length(size: int): nat {
    if size < 0 then 0 else size
  }

  /** read_specified: exactly `length` bytes (none for a negative length), or an IncompleteRead
      with everything that was left and the number of bytes missing. */
  function Specified(s: ByteString, length: int): (Outcome, ByteString) {
    var n := Length(length);
    if n <= |s| then (Body(s[..n]), s[n..]) else (IncompleteRead(s, n - |s|), [])
  }

  function OneChunk(s: ByteString, size: int): (r: (Outcome, ByteString))
    ensures r.0.Body? ==> |r.1| + Length(size) + 2 == |s| && r.0.data == s[..Length(size)]
  {
    var (data, rest) := Specified(s, size);
    if !data.Body? then (data, rest)
    else
      var (crlf, left) := Specified(rest, 2);
      if !crlf.Body? then (crlf, left) else (data, left)
  }

  function Prefixed(data: ByteString, r: (Outcome, ByteString)): (Outcome, ByteString) {
    if r.0.Body? then (Body(data + r.0.data), r.1) else r
  }

  /** read_all_chunks: its result, and what it leaves in the stream. */
  function AllChunks(s: ByteString): (Outcome, ByteString)
    decreases |s|
  {
    var n := LineEnd(s);
    var size := SizeOf(s[..n]);
    if size == None then (ValueError, s[n..])
    else if size == Some(0) then (Body([]), s[n..])
    else
      var (chunk, left) := OneChunk(s[n..], size.value);
      if !chunk.Body? then (chunk, left) else Prefixed(chunk.data, AllChunks(left))
  }

  // The reader

  function Concat(parts: seq<ByteString>): ByteString {
    if parts == [] then [] else parts[0] + Concat(parts[1..])
  }

  lemma {:induction false} ConcatAppend(parts: seq<ByteString>, last: ByteString)
    ensures Concat(parts + [last]) == Concat(parts) + last
  {
    if parts == [] {
      assert parts + [last] == [last] && Concat([last]) == last + Concat([]);
    } else {
      ConcatAppend(parts[1..], last);
      assert (parts + [last])[1..] == parts[1..] + [last];
    }
  }

  /** rfile. */
  class Stream {
    var rest: ByteString

    constructor (bytes: ByteString)
      ensures rest == bytes
    {
      rest := bytes;
    }

    /** At least one byte unless the stream has ended; how many, the socket decides. */
    method Read(length: nat) returns (part: ByteString)
      requires 0 < length
      modifies this
      ensures |part| <= length && old(rest) == part + rest
      ensures part == [] <==> old(rest) == []
    {
      var n: nat :| n <= length && n <= |rest| && (n == 0 ==> rest == []);
      part, rest := rest[..n], rest[n..];
    }

    method ReadLine() returns (line: ByteString)
      modifies this
      ensures line == old(rest)[..LineEnd(old(rest))] && rest == old(rest)[LineEnd(old(rest))..]
    {
      var n := LineEnd(rest);
      line, rest := rest[..n], rest[n..];
    }
  }

  class IPPServer {
    const rfile: Stream

    constructor (rfile: Stream)
      ensures this.rfile == rfile
    {
      this.rfile := rfile;
    }

    method ReadSpecified(length: int) returns (r: Outcome)
      modifies rfile
      ensures (r, rfile.rest) == Specified(old(rfile.rest), length)
      ensures if length <= |old(rfile.rest)|
              then r.Body? && old(rfile.rest) == r.data + rfile.rest && |r.data| == (if length < 0 then 0 else length)
              else r == IncompleteRead(old(rfile.rest), length - |old(rfile.rest)|) && rfile.rest == []
    {
      var data: seq<ByteString> := [];
      var missing := length;
      while missing > 0
        invariant Concat(data) + rfile.rest == old(rfile.rest)
        invariant |Concat(data)| + Length(missing) == Length(length)
      {
        var part := rfile.Read(missing);
        if part == [] {
          assert rfile.rest == [] && Concat(data) + [] == Concat(data);
          return IncompleteRead(Concat(data), missing);
        }
        ConcatAppend(data, part);
        data := data + [part];
        missing := missing - |part|;
      }
      r := Body(Concat(data));
    }

    method ReadChunkSize() returns (size: Option<int>)
      modifies rfile
      ensures var n := LineEnd(old(rfile.rest));
              size == SizeOf(old(rfile.rest)[..n]) && rfile.rest == old(rfile.rest)[n..]
    {
      var line := rfile.ReadLine();
      size := ParseInt(BeforeExtension(line));
    }

    method ReadChunk(size: int) returns (r: Outcome)
      modifies rfile
      ensures (r, rfile.rest) == OneChunk(old(rfile.rest), size)
    {
      r := ReadSpecified(size);
      if r.Body? {
        var crlf := ReadSpecified(2);
        if !crlf.Body? {
          r := crlf;
        }
      }
    }

    /** However the socket splits what it delivers, the result is that of AllChunks. */
    method ReadAllChunks() returns (r: Outcome)
      modifies rfile
      ensures (r, rfile.rest) == AllChunks(old(rfile.rest))
    {
      var data: seq<ByteString> := [];
      PrefixedByNothing(AllChunks(rfile.rest));
      while true
        invariant AllChunks(old(rfile.rest)) == Prefixed(Concat(data), AllChunks(rfile.rest))
        decreases |rfile.rest|
      {
        ghost var s := rfile.rest;
        var size := ReadChunkSize();
        if size == None {
          return ValueError;
        }
        if size.value == 0 {
          break;
        }
        var chunk := ReadChunk(size.value);
        if !chunk.Body? {
          return chunk;
        }
        ConcatAppend(data, chunk.data);
        PrefixedTwice(Concat(data), chunk.data, AllChunks(rfile.rest));
        data := data + [chunk.data];
      }
      assert Concat(data) + [] == Concat(data);
      r := Body(Concat(data));
    }
  }

  lemma PrefixedByNothing(r: (Outcome, ByteString))
    ensures Prefixed([], r) == r
  {
    if r.0.Body? {
      assert [] + r.0.data == r.0.data;
    }
  }

  lemma PrefixedTwice(a: ByteString, b: ByteString, r: (Outcome, ByteString))
    ensures Prefixed(a, Prefixed(b, r)) == Prefixed(a + b, r)
  {
    if r.0.Body? {
      assert a + (b + r.0.data) == (a + b) + r.0.data;
    }
  }

  // What it accepts

  /** A line with a size, that many bytes, and two more that are not looked at. */
  datatype Frame = Frame(line: ByteString, data: ByteString, end: ByteString)

  predicate GoodLine(line: ByteString) {
    line != [] && line[|line| - 1] == LF && LF !in line[..|line| - 1]
  }

  predicate GoodFrame(f: Frame) {
    && GoodLine(f.line) && |f.end| == 2
    && SizeOf(f.line).Some? && SizeOf(f.line).value != 0 && |f.data| == Length(SizeOf(f.line).value)
  }

  /** A line with size zero; the end of the stream may stand for its LF. */
  predicate LastLine(line: ByteString, tail: ByteString) {
    SizeOf(line) == Some(0) && (GoodLine(line) || (LF !in line && tail == []))
  }

  function Framed(frames: seq<Frame>): ByteString {
    if frames == [] then [] else frames[0].line + frames[0].data + frames[0].end + Framed(frames[1..])
  }

  function Datas(frames: seq<Frame>): seq<ByteString> {
    if frames == [] then [] else [frames[0].data] + Datas(frames[1..])
  }

  ghost predicate Represents(frames: seq<Frame>, last: ByteString, s: ByteString, data: ByteString, tail: ByteString) {
    && (forall f :: f in frames ==> GoodFrame(f))
    && LastLine(last, tail)
    && s == Framed(frames) + last + tail
    && data == Concat(Datas(frames))
  }

  lemma {:induction false} LineEndOf(line: ByteString, tail: ByteString)
    requires GoodLine(line) || (LF !in line && tail == [])
    ensures LineEnd(line + tail) == |line|
  {
    if |line| > 1 {
      assert (line + tail)[1..] == line[1..] + tail;
      assert GoodLine(line) ==> GoodLine(line[1..]) by {
        if GoodLine(line) {
          assert line[1..][..|line[1..]| - 1] == line[..|line| - 1][1..];
        }
      }
      assert GoodLine(line) ==> line[0] == line[..|line| - 1][0];
      LineEndOf(line[1..], tail);
    }
  }

  lemma LineIsGood(s: ByteString)
    ensures var line := s[..LineEnd(s)]; GoodLine(line) || (LF !in line && s[LineEnd(s)..] == [])
    decreases |s|
  {
    if s != [] && s[0] != LF {
      LineIsGood(s[1..]);
      var n := LineEnd(s[1..]);
      assert s[..n + 1] == [s[0]] + s[1..][..n];
      if GoodLine(s[1..][..n]) {
        assert s[..n + 1][..n] == [s[0]] + s[1..][..n][..n - 1];
      }
    }
  }

  lemma Cut(a: ByteString, b: ByteString)
    ensures (a + b)[..|a|] == a && (a + b)[|a|..] == b
  {
  }

  lemma Regroup(a: ByteString, b: ByteString, c: ByteString, d: ByteString)
    ensures a + b + c + d == a + (b + (c + d))
  {
  }

  lemma LineSplit(line: ByteString, tail: ByteString)
    requires GoodLine(line) || (LF !in line && tail == [])
    ensures LineEnd(line + tail) == |line| && (line + tail)[..|line|] == line && (line + tail)[|line|..] == tail
  {
    LineEndOf(line, tail);
    Cut(line, tail);
  }

  lemma ChunkSplit(data: ByteString, end: ByteString, left: ByteString, size: int)
    requires |data| == Length(size) && |end| == 2
    ensures OneChunk(data + (end + left), size) == (Body(data), left)
  {
    Cut(data, end + left);
    Cut(end, left);
  }

  lemma OneFrame(f: Frame, left: ByteString)
    requires GoodFrame(f)
    ensures AllChunks(f.line + f.data + f.end + left) == Prefixed(f.data, AllChunks(left))
  {
    Regroup(f.line, f.data, f.end, left);
    LineSplit(f.line, f.data + (f.end + left));
    ChunkSplit(f.data, f.end, left, SizeOf(f.line).value);
  }

  lemma NoFrames(last: ByteString, tail: ByteString)
    requires LastLine(last, tail)
    ensures AllChunks(last + tail) == (Body([]), tail)
  {
    LineSplit(last, tail);
  }

  lemma FramedMore(frames: seq<Frame>, last: ByteString, tail: ByteString)
    requires frames != []
    ensures var f := frames[0];
            Framed(frames) + last + tail == f.line + f.data + f.end + (Framed(frames[1..]) + last + tail)
    ensures Concat(Datas(frames)) == frames[0].data + Concat(Datas(frames[1..]))
  {
    var d := Datas(frames);
    assert d[1..] == Datas(frames[1..]);
  }

  /** Decoding inverts framing, and stops right after the line with size zero. */
  lemma {:induction false} DecodeUndoesFraming(frames: seq<Frame>, last: ByteString, tail: ByteString)
    requires forall f :: f in frames ==> GoodFrame(f)
    requires LastLine(last, tail)
    ensures AllChunks(Framed(frames) + last + tail) == (Body(Concat(Datas(frames))), tail)
  {
    if frames == [] {
      assert Framed(frames) + last + tail == last + tail;
      NoFrames(last, tail);
    } else {
      DecodeUndoesFraming(frames[1..], last, tail);
      FramedMore(frames, last, tail);
      OneFrame(frames[0], Framed(frames[1..]) + last + tail);
    }
  }

  lemma ChunkParts(s: ByteString, size: int)
    requires OneChunk(s, size).0.Body?
    ensures Length(size) + 2 <= |s|
    ensures s == s[..Length(size)] + (s[Length(size)..Length(size) + 2] + OneChunk(s, size).1)
  {
    var m := Length(size);
    assert s[m..][2..] == s[m + 2..];
  }

  lemma FrameIs(s: ByteString, n: nat, m: nat, left: ByteString)
    requires n + m + 2 <= |s| && s[n..] == s[n..][..m] + (s[n..][m..m + 2] + left)
    ensures s == s[..n] + s[n..][..m] + s[n..][m..m + 2] + left
  {
    assert s == s[..n] + s[n..];
    Regroup(s[..n], s[n..][..m], s[n..][m..m + 2], left);
  }

  lemma FirstFrame(s: ByteString) returns (f: Frame, left: ByteString)
    requires AllChunks(s).0.Body? && SizeOf(s[..LineEnd(s)]) != Some(0)
    ensures GoodFrame(f) && s == f.line + f.data + f.end + left
    ensures AllChunks(s) == Prefixed(f.data, AllChunks(left)) && |left| < |s|
  {
    var n := LineEnd(s);
    var line, rest := s[..n], s[n..];
    FirstChunk(s);
    var size := SizeOf(line).value;
    left := OneChunk(rest, size).1;
    ChunkParts(rest, size);
    var m := Length(size);
    f := Frame(line, rest[..m], rest[m..m + 2]);
    FrameIs(s, n, m, left);
  }

  lemma FirstChunk(s: ByteString)
    requires AllChunks(s).0.Body? && SizeOf(s[..LineEnd(s)]) != Some(0)
    ensures var n := LineEnd(s);
      && 0 < n && GoodLine(s[..n]) && SizeOf(s[..n]).Some?
      && var r := OneChunk(s[n..], SizeOf(s[..n]).value);
         r.0.Body? && AllChunks(s) == Prefixed(r.0.data, AllChunks(r.1))
  {
    LineIsGood(s);
  }

  lemma RepresentsMore(f: Frame, more: seq<Frame>, last: ByteString, s: ByteString, left: ByteString, data: ByteString, tail: ByteString)
    requires GoodFrame(f) && s == f.line + f.data + f.end + left && Represents(more, last, left, data, tail)
    ensures Represents([f] + more, last, s, f.data + data, tail)
  {
    assert ([f] + more)[1..] == more;
    FramedMore([f] + more, last, tail);
  }

  /** Whatever is accepted is framed. */
  lemma {:induction false} FramesOf(s: ByteString) returns (frames: seq<Frame>, last: ByteString)
    requires AllChunks(s).0.Body?
    ensures Represents(frames, last, s, AllChunks(s).0.data, AllChunks(s).1)
    decreases |s|
  {
    var n := LineEnd(s);
    if SizeOf(s[..n]) == Some(0) {
      OnlyLastLine(s);
      frames, last := [], s[..n];
    } else {
      var f, left := FirstFrame(s);
      var more;
      more, last := FramesOf(left);
      frames := [f] + more;
      var r := AllChunks(left);
      RepresentsMore(f, more, last, s, left, r.0.data, r.1);
    }
  }

  lemma OnlyLastLine(s: ByteString)
    requires SizeOf(s[..LineEnd(s)]) == Some(0)
    ensures Represents([], s[..LineEnd(s)], s, [], s[LineEnd(s)..])
  {
    LineIsGood(s);
    assert s == [] + s[..LineEnd(s)] + s[LineEnd(s)..];
  }

  /** A stream is decoded to `data`, leaving `tail`, exactly when it is made of frames carrying
      `data`, a line with size zero, and `tail`. */
  lemma AcceptsExactlyFramings(s: ByteString, data: ByteString, tail: ByteString)
    ensures AllChunks(s) == (Body(data), tail) <==>
              exists frames, last :: Represents(frames, last, s, data, tail)
  {
    if AllChunks(s) == (Body(data), tail) {
      var frames, last := FramesOf(s);
    }
    forall frames, last | Represents(frames, last, s, data, tail) ensures AllChunks(s) == (Body(data), tail) {
      DecodeUndoesFraming(frames, last, tail);
    }
  }

  // What it does not accept

  lemma FramedThen(frames: seq<Frame>, rest: ByteString)
    requires frames != []
    ensures var f := frames[0];
            Framed(frames) + rest == f.line + f.data + f.end + (Framed(frames[1..]) + rest)
    ensures Concat(Datas(frames)) == frames[0].data + Concat(Datas(frames[1..]))
  {
    assert Datas(frames)[1..] == Datas(frames[1..]);
  }

  lemma {:induction false} FramesThen(frames: seq<Frame>, rest: ByteString)
    requires forall f :: f in frames ==> GoodFrame(f)
    ensures AllChunks(Framed(frames) + rest) == Prefixed(Concat(Datas(frames)), AllChunks(rest))
  {
    if frames == [] {
      assert Framed(frames) + rest == rest;
      PrefixedByNothing(AllChunks(rest));
    } else {
      var f, more := frames[0], frames[1..];
      FramesThen(more, rest);
      FramedThen(frames, rest);
      OneFrame(f, Framed(more) + rest);
      PrefixedTwice(f.data, Concat(Datas(more)), AllChunks(rest));
    }
  }

  /** After any number of chunks: a size that is no number is an error, and the stream is left after
      its line. */
  lemma BadSizeFails(frames: seq<Frame>, line: ByteString, tail: ByteString)
    requires forall f :: f in frames ==> GoodFrame(f)
    requires (GoodLine(line) || (LF !in line && tail == [])) && SizeOf(line) == None
    ensures AllChunks(Framed(frames) + (line + tail)) == (ValueError, tail)
  {
    FramesThen(frames, line + tail);
    LineSplit(line, tail);
  }

  lemma CutChunk(part: ByteString, n: nat)
    requires |part| < n + 2
    ensures OneChunk(part, n) ==
              if |part| < n then (IncompleteRead(part, n - |part|), [])
              else (IncompleteRead(part[n..], n + 2 - |part|), [])
  {
  }

  lemma ChunkFails(line: ByteString, part: ByteString, r: (Outcome, ByteString))
    requires GoodLine(line) && SizeOf(line).Some? && SizeOf(line).value > 0
    requires r == OneChunk(part, SizeOf(line).value) && !r.0.Body?
    ensures AllChunks(line + part) == r
  {
    LineSplit(line, part);
  }

  /** A stream that ends inside a chunk is an error with what there is of the chunk's data, or of the
      two bytes after it, and with how much is missing. */
  lemma CutChunkFails(frames: seq<Frame>, line: ByteString, part: ByteString)
    requires forall f :: f in frames ==> GoodFrame(f)
    requires GoodLine(line) && SizeOf(line).Some? && SizeOf(line).value > 0
    requires |part| < SizeOf(line).value + 2
    ensures var n := SizeOf(line).value;
            AllChunks(Framed(frames) + (line + part)) ==
              if |part| < n then (IncompleteRead(part, n - |part|), [])
              else (IncompleteRead(part[n..], n + 2 - |part|), [])
  {
    var n: nat := SizeOf(line).value;
    CutChunk(part, n);
    ChunkFails(line, part, OneChunk(part, n));
    FramesThen(frames, line + part);
  }

  // What a sender that follows the standard writes

  const LOWER := "0123456789abcdef"
  const UPPER := "0123456789ABCDEF"

  /** The place of a byte in a table. */
  function PlaceIn(table: string, b: Byte): (v: Option<nat>)
    ensures v.Some? ==> v.value < |table| && table[v.value] as int == b
    ensures v.None? ==> forall k :: 0 <= k < |table| ==> table[k] as int != b
  {
    var last := |table| - 1;
    if table == "" then None
    else if table[last] as int == b then Some(last)
    else PlaceIn(table[..last], b)
  }

  lemma TablesAre(v: nat)
    requires v < 16
    ensures LOWER[v] as int == if v < 10 then 48 + v else 87 + v
    ensures UPPER[v] as int == if v < 10 then 48 + v else 55 + v
  {
  }

  /** The value of a digit: its place in one of the two tables. */
  function HexDigit(b: Byte): (v: Option<nat>)
    ensures v == Digit(b)
  {
    var l, u := PlaceIn(LOWER, b), PlaceIn(UPPER, b);
    PlacesAre(b, l, u);
    if l.Some? then l else u
  }

  lemma PlacesAre(b: Byte, l: Option<nat>, u: Option<nat>)
    requires l == PlaceIn(LOWER, b) && u == PlaceIn(UPPER, b)
    ensures Digit(b) == if l.Some? then l else u
  {
    if l.Some? {
      TablesAre(l.value);
    }
    if u.Some? {
      TablesAre(u.value);
    }
    if Digit(b).Some? {
      TablesAre(Digit(b).value);
    }
  }

  predicate HexText(s: ByteString) {
    s != [] && forall i :: 0 <= i < |s| ==> HexDigit(s[i]).Some?
  }

  function HexValue(s: ByteString): nat
    requires forall i :: 0 <= i < |s| ==> HexDigit(s[i]).Some?
  {
    if s == [] then 0 else 16 * HexValue(s[..|s| - 1]) + HexDigit(s[|s| - 1]).value
  }

  lemma SingleByte(b: Byte)
    ensures ParseInt([b]) == Digit(b)
  {
    if Digit(b).Some? {
      assert StripLeft([b]) == [b] && StripRight([b]) == [b];
    } else {
      NoNumber(b);
    }
  }

  lemma NoNumber(b: Byte)
    requires Digit(b) == None
    ensures ParseInt([b]) == None
  {
    assert Magnitude([]) == None && Magnitude([b]) == None;
    if IsSpace(b) {
      assert [b][1..] == [];
      assert StripRight(StripLeft([b])) == [];
    } else {
      assert StripRight(StripLeft([b])) == [b] && [b][1..] == [];
    }
  }

  /** A digit of either case has the value of its place... */
  lemma DigitParses(v: nat, lower: Byte, upper: Byte)
    requires v < 16
    requires lower == "0123456789abcdef"[v] as int && upper == "0123456789ABCDEF"[v] as int
    ensures ParseInt([lower]) == Some(v) && ParseInt([upper]) == Some(v)
  {
    TablesAre(v);
    SingleByte(lower);
    SingleByte(upper);
  }

  /** ... and no other single byte is a number. */
  lemma OnlyDigitsParse(b: Byte)
    ensures ParseInt([b]).Some? <==>
              exists v :: 0 <= v < 16 && (b == "0123456789abcdef"[v] as int || b == "0123456789ABCDEF"[v] as int)
  {
    SingleByte(b);
    if Digit(b).Some? {
      var v := Digit(b).value;
      TablesAre(v);
      assert b == "0123456789abcdef"[v] as int || b == "0123456789ABCDEF"[v] as int;
    }
    forall v | 0 <= v < 16 && (b == "0123456789abcdef"[v] as int || b == "0123456789ABCDEF"[v] as int)
      ensures Digit(b).Some?
    {
      TablesAre(v);
    }
  }

  /** A chunk extension: nothing, or a semicolon and anything without a line feed. */
  predicate Extension(s: ByteString) {
    s == [] || (s[0] == SEMICOLON && LF !in s)
  }

  datatype Chunk = Chunk(size: ByteString, extension: ByteString, data: ByteString)

  predicate WellFormed(c: Chunk) {
    HexText(c.size) && Extension(c.extension) && HexValue(c.size) == |c.data|
  }

  function SizeLine(c: Chunk): ByteString {
    c.size + c.extension + [CR, LF]
  }

  /** A chunked body: chunks that are not empty, then one of size zero (section 4.1 of RFC 7230). */
  function Encode(chunks: seq<Chunk>, last: Chunk): ByteString {
    if chunks == [] then SizeLine(last)
    else SizeLine(chunks[0]) + chunks[0].data + [CR, LF] + Encode(chunks[1..], last)
  }

  function Payload(chunks: seq<Chunk>): ByteString {
    if chunks == [] then [] else chunks[0].data + Payload(chunks[1..])
  }

  predicate DigitText(s: ByteString) {
    s != [] && forall i :: 0 <= i < |s| ==> Digit(s[i]).Some?
  }

  lemma HexIsDigitText(s: ByteString)
    requires HexText(s)
    ensures DigitText(s)
  {
  }

  lemma {:induction false} HexIsDigits(s: ByteString)
    requires HexText(s)
    ensures Digits(s) && DigitsValue(s) == HexValue(s)
  {
    if |s| > 1 {
      HexIsDigits(s[..|s| - 1]);
      assert s[|s| - 2] != UNDERSCORE;
    }
  }

  lemma SpacesStripped(s: ByteString, space: ByteString)
    requires DigitText(s) && (space == [] || space == [CR] || space == [CR, LF])
    ensures StripRight(StripLeft(s + space)) == s
  {
    assert StripLeft(s + space) == s + space;
    assert StripRight(s) == s;
    assert (s + [CR])[..|s|] == s;
    if space == [] {
      assert s + space == s;
    } else if space == [CR, LF] {
      assert (s + space)[..|s| + 1] == s + [CR];
    }
  }

  lemma NoPrefix(s: ByteString)
    requires DigitText(s)
    ensures SkipPrefix(s) == s && s[0] != 43 && s[0] != 45
  {
  }

  lemma UnsignedParses(text: ByteString, s: ByteString)
    requires StripRight(StripLeft(text)) == s && s != [] && s[0] != 43 && s[0] != 45
    ensures ParseInt(text) == Lifted(Magnitude(s), 1)
  {
  }

  lemma NumberParses(s: ByteString, space: ByteString)
    requires DigitText(s) && Digits(s) && (space == [] || space == [CR] || space == [CR, LF])
    ensures ParseInt(s + space) == Some(DigitsValue(s))
  {
    SpacesStripped(s, space);
    NoPrefix(s);
    UnsignedParses(s + space, s);
  }

  lemma HexParses(s: ByteString, space: ByteString)
    requires HexText(s) && (space == [] || space == [CR] || space == [CR, LF])
    ensures ParseInt(s + space) == Some(HexValue(s))
  {
    HexIsDigitText(s);
    HexIsDigits(s);
    NumberParses(s, space);
  }

  lemma {:induction false} ExtensionCut(s: ByteString, more: ByteString)
    requires SEMICOLON !in s && (more == [] || more[0] == SEMICOLON)
    ensures BeforeExtension(s + more) == s
  {
    if s != [] {
      ExtensionCut(s[1..], more);
      assert (s + more)[1..] == s[1..] + more;
    }
  }

  lemma SizeLineIs(c: Chunk)
    requires HexText(c.size) && Extension(c.extension)
    ensures GoodLine(SizeLine(c)) && SizeOf(SizeLine(c)) == Some(HexValue(c.size))
  {
    var line := SizeLine(c);
    assert line[..|line| - 1] == c.size + c.extension + [CR];
    if c.extension == [] {
      assert line == c.size + [CR, LF] == (c.size + [CR, LF]) + [];
      ExtensionCut(c.size + [CR, LF], []);
      HexParses(c.size, [CR, LF]);
    } else {
      assert line == c.size + (c.extension + [CR, LF]);
      ExtensionCut(c.size, c.extension + [CR, LF]);
      assert c.size + [] == c.size;
      HexParses(c.size, []);
    }
  }

  /** Decoding inverts encoding, for any chunks, any spelling of their sizes and any extensions.
      `tail` is left: the trailer is not read. */
  lemma {:induction false} DecodeUndoesEncode(chunks: seq<Chunk>, last: Chunk, tail: ByteString)
    requires forall c :: c in chunks ==> WellFormed(c) && c.data != []
    requires WellFormed(last) && last.data == []
    ensures AllChunks(Encode(chunks, last) + tail) == (Body(Payload(chunks)), tail)
  {
    if chunks == [] {
      SizeLineIs(last);
      LineEndOf(SizeLine(last), tail);
      var s := SizeLine(last) + tail;
      assert s[..|SizeLine(last)|] == SizeLine(last) && s[|SizeLine(last)|..] == tail;
    } else {
      DecodeUndoesEncode(chunks[1..], last, tail);
      var c := chunks[0];
      SizeLineIs(c);
      var f := Frame(SizeLine(c), c.data, [CR, LF]);
      var left := Encode(chunks[1..], last) + tail;
      assert Encode(chunks, last) + tail == f.line + f.data + f.end + left;
      OneFrame(f, left);
    }
  }

  // What else int accepts

  predicate Spaces(s: ByteString) {
    forall i :: 0 <= i < |s| ==> s[i] in [9, 10, 11, 12, 13, 32]
  }

  lemma {:induction false} StripLeftOf(before: ByteString, s: ByteString)
    requires Spaces(before) && s != [] && !IsSpace(s[0])
    ensures StripLeft(before + s) == s
  {
    if before == [] {
      assert before + s == s;
    } else {
      assert before[0] in [9, 10, 11, 12, 13, 32];
      assert (before + s)[0] == before[0] && (before + s)[1..] == before[1..] + s;
      StripLeftOf(before[1..], s);
    }
  }

  lemma {:induction false} StripRightOf(s: ByteString, after: ByteString)
    requires Spaces(after) && s != [] && !IsSpace(s[|s| - 1])
    ensures StripRight(s + after) == s
  {
    if after == [] {
      assert s + after == s;
    } else {
      var n := |after| - 1;
      assert after[n] in [9, 10, 11, 12, 13, 32];
      assert (s + after)[|s| + n] == after[n] && (s + after)[..|s| + n] == s + after[..n];
      StripRightOf(s, after[..n]);
    }
  }

  predicate Sign(s: ByteString) {
    s == [] || s == [43] || s == [45]
  }

  predicate BasePrefix(s: ByteString) {
    s == [] || s == [48, 120] || s == [48, 88] || s == [48, 120, 95] || s == [48, 88, 95]
  }

  lemma PrefixSkipped(prefix: ByteString, s: ByteString)
    requires BasePrefix(prefix) && DigitText(s)
    ensures SkipPrefix(prefix + s) == s
  {
    if prefix == [] {
      assert prefix + s == s;
    } else if |prefix| == 2 {
      assert (prefix + s)[2] == s[0] && (prefix + s)[2..] == s;
    } else {
      assert (prefix + s)[3..] == s;
    }
  }

  lemma SignedNumber(sign: ByteString, prefix: ByteString, s: ByteString, text: ByteString)
    requires Sign(sign) && BasePrefix(prefix) && DigitText(s) && text == sign + (prefix + s)
    ensures !IsSpace(text[0]) && !IsSpace(text[|text| - 1])
    ensures sign == [] ==> text == prefix + s && text[0] != 43 && text[0] != 45
    ensures sign != [] ==> text[0] == sign[0] && text[1..] == prefix + s
  {
    assert text[|text| - 1] == s[|s| - 1];
    if sign == [] {
      assert text == prefix + s;
    }
  }

  /** White space around the number, a sign and the prefix 0x are accepted, and so is a negative size. */
  lemma DecoratedParses(before: ByteString, sign: ByteString, prefix: ByteString, s: ByteString, after: ByteString)
    requires Spaces(before) && Spaces(after) && Sign(sign) && BasePrefix(prefix) && HexText(s)
    ensures ParseInt(before + (sign + (prefix + s)) + after) == Some((if sign == [45] then -1 else 1) * HexValue(s))
  {
    HexIsDigitText(s);
    HexIsDigits(s);
    var text := sign + (prefix + s);
    SignedNumber(sign, prefix, s, text);
    assert before + text + after == before + (text + after);
    StripLeftOf(before, text + after);
    StripRightOf(text, after);
    PrefixSkipped(prefix, s);
    assert Magnitude(prefix + s) == Some(HexValue(s));
  }

  lemma AfterUnderscore(a: ByteString, d: Byte)
    requires Digits(a) && Digit(d).Some?
    ensures Digits(a + [95] + [d]) && DigitsValue(a + [95] + [d]) == 16 * DigitsValue(a) + Digit(d).value
  {
    var t := a + [95] + [d];
    assert t[|t| - 1] == d && t[|t| - 2] == 95 && t[..|t| - 2] == a;
  }

  lemma AfterDigit(a: ByteString, d: Byte)
    requires Digits(a) && Digit(d).Some?
    ensures Digits(a + [d]) && DigitsValue(a + [d]) == 16 * DigitsValue(a) + Digit(d).value
  {
    var t := a + [d];
    assert t[|t| - 1] == d && t[|t| - 2] == a[|a| - 1] && t[..|t| - 1] == a;
  }

  lemma DigitsOfText(s: ByteString)
    requires DigitText(s)
    ensures Digits(s)
  {
    if |s| > 1 {
      assert DigitText(s[..|s| - 1]);
      DigitsOfText(s[..|s| - 1]);
      assert s[|s| - 2] != 95;
    }
  }

  lemma LastApart(a: ByteString, b: ByteString, d: Byte)
    ensures a + [95] + (b + [d]) == (a + [95] + b) + [d] && a + (b + [d]) == (a + b) + [d]
    ensures b == [] ==> a + [95] + b == a + [95] && a + b == a
  {
  }

  lemma {:induction false} UnderscoreAmongDigits(a: ByteString, b: ByteString)
    requires DigitText(a) && DigitText(b)
    ensures Digits(a + [95] + b) && Digits(a + b) && DigitsValue(a + [95] + b) == DigitsValue(a + b)
  {
    var more, d := b[..|b| - 1], b[|b| - 1];
    assert b == more + [d];
    LastApart(a, more, d);
    DigitsOfText(a);
    if more == [] {
      AfterUnderscore(a, d);
      AfterDigit(a, d);
    } else {
      UnderscoreAmongDigits(a, more);
      AfterDigit(a + [95] + more, d);
      AfterDigit(a + more, d);
    }
  }

  lemma HexConcat(a: ByteString, b: ByteString)
    requires HexText(a) && HexText(b)
    ensures HexText(a + b)
  {
    forall i | 0 <= i < |a + b| ensures HexDigit((a + b)[i]).Some? {
      assert (a + b)[i] == if i < |a| then a[i] else b[i - |a|];
    }
  }

  /** One underscore between two digits is skipped. */
  lemma UnderscoreIsSkipped(a: ByteString, b: ByteString)
    requires HexText(a) && HexText(b)
    ensures HexText(a + b) && Digits(a + [95] + b) && DigitsValue(a + [95] + b) == HexValue(a + b)
  {
    HexConcat(a, b);
    HexIsDigitText(a);
    HexIsDigitText(b);
    HexIsDigits(a + b);
    UnderscoreAmongDigits(a, b);
  }

  // A stream that breaks off

  /** No leading zero. */
  predicate Plain(c: Chunk) {
    c.size != [] && c.size[0] != 48
  }

  lemma {:induction false} PlainIsPositive(s: ByteString)
    requires HexText(s) && s[0] != 48
    ensures HexValue(s) > 0
  {
    if |s| > 1 {
      PlainIsPositive(s[..|s| - 1]);
    }
  }

  lemma PrefixSplit(a: ByteString, b: ByteString, p: ByteString)
    requires p <= a + b
    ensures p < a || (p == a + p[|a|..] && p[|a|..] <= b)
  {
    if |p| < |a| {
      assert p == (a + b)[..|p|] == a[..|p|];
    } else {
      assert p[..|a|] == (a + b)[..|p|][..|a|] == a;
      assert p[|a|..] == (a + b)[..|p|][|a|..] == b[..|p| - |a|];
    }
  }

  lemma LineFeedLast(s: ByteString)
    ensures s + [CR, LF] == s + [CR] + [LF]
  {
    assert [CR, LF] == [CR] + [LF];
  }

  lemma NoLineFeed(c: Chunk, p: ByteString)
    requires HexText(c.size) && Extension(c.extension) && p < SizeLine(c)
    ensures p <= c.size + c.extension + [CR] && LF !in p && LineEnd(p) == |p|
  {
    LineFeedLast(c.size + c.extension);
    PrefixSplit(c.size + c.extension + [CR], [LF], p);
    SizeLineIs(c);
    assert LF !in SizeLine(c)[..|SizeLine(c)| - 1];
    assert p == SizeLine(c)[..|SizeLine(c)| - 1][..|p|];
    LineEndOf(p, []);
    assert p + [] == p;
  }

  lemma BrokenSize(size: ByteString, p: ByteString)
    requires HexText(size) && size[0] != 48 && p <= size + [CR]
    ensures SizeOf(p) != Some(0)
  {
    PrefixSplit(size, [CR], p);
    ExtensionCut(p, []);
    assert p + [] == p;
    if p < size {
      if p != [] {
        HexParses(p, []);
        PlainIsPositive(p);
      }
    } else {
      HexParses(size, p[|size|..]);
      PlainIsPositive(size);
    }
  }

  lemma BrokenExtension(size: ByteString, more: ByteString)
    requires HexText(size) && size[0] != 48 && more != [] && more[0] == SEMICOLON
    ensures SizeOf(size + more) != Some(0)
  {
    ExtensionCut(size, more);
    assert size + [] == size;
    HexParses(size, []);
    PlainIsPositive(size);
  }

  /** Part of a size line, broken off before its LF: a part of the size, or all of it. */
  lemma BrokenLine(c: Chunk, p: ByteString)
    requires HexText(c.size) && Plain(c) && Extension(c.extension) && p < SizeLine(c)
    ensures SizeOf(p) != Some(0) && LineEnd(p) == |p|
  {
    NoLineFeed(c, p);
    var more := c.extension + [CR];
    assert c.size + c.extension + [CR] == c.size + more;
    PrefixSplit(c.size, more, p);
    if p < c.size || c.extension == [] {
      if p < c.size {
        assert p <= c.size + [CR];
      }
      BrokenSize(c.size, p);
    } else if p == c.size {
      BrokenSize(c.size, p);
    } else {
      BrokenExtension(c.size, p[|c.size|..]);
    }
  }

  lemma NothingAfterBrokenLine(p: ByteString)
    requires LineEnd(p) == |p| && SizeOf(p) != Some(0)
    ensures !AllChunks(p).0.Body?
  {
    assert p[..|p|] == p && p[|p|..] == [];
  }

  /** The stream breaks off inside the data of a chunk, or the two bytes after it. */
  lemma BrokenData(line: ByteString, part: ByteString)
    requires GoodLine(line) && SizeOf(line).Some? && SizeOf(line).value != 0
    requires |part| < Length(SizeOf(line).value) + 2
    ensures !AllChunks(line + part).0.Body?
  {
    LineSplit(line, part);
  }

  /** With no leading zeros a body that breaks off is never taken for a shorter one. */
  lemma {:induction false} TruncationIsNoticed(chunks: seq<Chunk>, last: Chunk, p: ByteString)
    requires forall c :: c in chunks ==> WellFormed(c) && c.data != [] && Plain(c)
    requires WellFormed(last) && last.data == []
    requires p <= Encode(chunks, last) && AllChunks(p).0.Body?
    ensures AllChunks(p).0.data == Payload(chunks)
    decreases |chunks|, 1
  {
    if chunks == [] {
      LastLineGivesNothing(last, p);
    } else {
      TruncatedLater(chunks, last, p);
    }
  }

  lemma WholeLine(c: Chunk, p: ByteString)
    requires WellFormed(c) && Plain(c) && AllChunks(p).0.Body?
    ensures !(p < SizeLine(c))
  {
    if p < SizeLine(c) {
      BrokenLine(c, p);
      NothingAfterBrokenLine(p);
    }
  }

  lemma FirstLineIsWhole(c: Chunk, more: ByteString, p: ByteString) returns (part: ByteString)
    requires WellFormed(c) && Plain(c) && p <= SizeLine(c) + more && AllChunks(p).0.Body?
    ensures p == SizeLine(c) + part && part <= more
  {
    WholeLine(c, p);
    PrefixSplit(SizeLine(c), more, p);
    part := p[|SizeLine(c)|..];
  }

  lemma FirstChunkIsWhole(c: Chunk, more: ByteString, part: ByteString) returns (left: ByteString)
    requires WellFormed(c) && c.data != [] && part <= c.data + [CR, LF] + more
    requires AllChunks(SizeLine(c) + part).0.Body?
    ensures part == c.data + [CR, LF] + left && left <= more
  {
    SizeLineIs(c);
    if |part| < |c.data| + 2 {
      BrokenData(SizeLine(c), part);
    }
    PrefixSplit(c.data + [CR, LF], more, part);
    left := if |c.data| + 2 <= |part| then part[|c.data| + 2..] else [];
  }

  lemma TruncatedLater(chunks: seq<Chunk>, last: Chunk, p: ByteString)
    requires forall c :: c in chunks ==> WellFormed(c) && c.data != [] && Plain(c)
    requires WellFormed(last) && last.data == [] && chunks != []
    requires p <= Encode(chunks, last) && AllChunks(p).0.Body?
    ensures AllChunks(p).0.data == Payload(chunks)
    decreases |chunks|, 0
  {
    var c := chunks[0];
    var rest := Encode(chunks[1..], last);
    Regroup(SizeLine(c), c.data, [CR, LF], rest);
    var part := FirstLineIsWhole(c, c.data + ([CR, LF] + rest), p);
    assert c.data + ([CR, LF] + rest) == c.data + [CR, LF] + rest;
    var left := FirstChunkIsWhole(c, rest, part);
    assert p == SizeLine(c) + c.data + [CR, LF] + left;
    SizeLineIs(c);
    OneFrame(Frame(SizeLine(c), c.data, [CR, LF]), left);
    TruncationIsNoticed(chunks[1..], last, left);
  }

  lemma LastLineGivesNothing(last: Chunk, p: ByteString)
    requires WellFormed(last) && last.data == [] && p <= SizeLine(last) && AllChunks(p).0.Body?
    ensures AllChunks(p).0.data == []
  {
    if p == SizeLine(last) {
      SizeLineIs(last);
      NoFrames(p, []);
      assert p + [] == p;
    } else {
      NoLineFeed(last, p);
      if SizeOf(p) != Some(0) {
        NothingAfterBrokenLine(p);
      }
    }
  }

  lemma AfterChunk(c: Chunk, left: ByteString)
    requires WellFormed(c) && c.data != []
    ensures AllChunks(SizeLine(c) + c.data + [CR, LF] + left) == Prefixed(c.data, AllChunks(left))
  {
    SizeLineIs(c);
    OneFrame(Frame(SizeLine(c), c.data, [CR, LF]), left);
  }

  lemma ChunkBefore(chunks: seq<Chunk>, last: Chunk, left: ByteString, p: ByteString)
    requires chunks != [] && WellFormed(chunks[0]) && chunks[0].data != []
    requires left <= Encode(chunks[1..], last) && AllChunks(left).0.Body?
    requires |AllChunks(left).0.data| < |Payload(chunks[1..])|
    requires p == SizeLine(chunks[0]) + chunks[0].data + [CR, LF] + left
    ensures p <= Encode(chunks, last) && AllChunks(p).0.Body?
    ensures |AllChunks(p).0.data| < |Payload(chunks)|
  {
    AfterChunk(chunks[0], left);
  }

  lemma RestIsWellFormed(chunks: seq<Chunk>)
    requires chunks != [] && forall c :: c in chunks ==> WellFormed(c) && c.data != []
    ensures WellFormed(chunks[0]) && chunks[0].data != []
    ensures forall c :: c in chunks[1..] ==> WellFormed(c) && c.data != []
  {
    assert chunks[0] in chunks && forall c :: c in chunks[1..] ==> c in chunks;
  }

  lemma ZeroIsAll()
    ensures AllChunks([48]) == (Body([]), [])
  {
    SingleByte(48);
    ExtensionCut([48], []);
    assert [48] + [] == [48];
    NoFrames([48], []);
  }

  lemma ZeroComesFirst(chunks: seq<Chunk>, last: Chunk)
    requires chunks != [] && WellFormed(chunks[0]) && chunks[0].data != [] && !Plain(chunks[0])
    ensures [48] <= Encode(chunks, last) && AllChunks([48]).0.Body?
    ensures |AllChunks([48]).0.data| < |Payload(chunks)|
  {
    ZeroIsAll();
    assert Encode(chunks, last)[0] == SizeLine(chunks[0])[0] == chunks[0].size[0];
  }

  /** With one there is a place where it is. */
  lemma {:induction false} LeadingZeroHidesTruncation(chunks: seq<Chunk>, last: Chunk, i: nat) returns (p: ByteString)
    requires forall c :: c in chunks ==> WellFormed(c) && c.data != []
    requires i < |chunks| && !Plain(chunks[i])
    ensures p <= Encode(chunks, last) && AllChunks(p).0.Body?
    ensures |AllChunks(p).0.data| < |Payload(chunks)|
  {
    assert chunks[0] in chunks;
    if i == 0 {
      p := [48];
      ZeroComesFirst(chunks, last);
    } else {
      RestIsWellFormed(chunks);
      var left := LeadingZeroHidesTruncation(chunks[1..], last, i - 1);
      p := SizeLine(chunks[0]) + chunks[0].data + [CR, LF] + left;
      ChunkBefore(chunks, last, left, p);
    }
  }

  /** A broken-off body is told from a complete one exactly when no chunk size starts with 0. */
  lemma TruncationNoticedIffPlain(chunks: seq<Chunk>, last: Chunk)
    requires forall c :: c in chunks ==> WellFormed(c) && c.data != []
    requires WellFormed(last) && last.data == []
    ensures (forall p :: p <= Encode(chunks, last) && AllChunks(p).0.Body? ==> AllChunks(p).0.data == Payload(chunks))
       <==> (forall c :: c in chunks ==> Plain(c))
  {
    if forall c :: c in chunks ==> Plain(c) {
      forall p | p <= Encode(chunks, last) && AllChunks(p).0.Body?
        ensures AllChunks(p).0.data == Payload(chunks)
      {
        TruncationIsNoticed(chunks, last, p);
      }
    } else {
      var i :| 0 <= i < |chunks| && !Plain(chunks[i]);
      var p := LeadingZeroHidesTruncation(chunks, last, i);
    }
  }

  // Spellings

  /** Every size has a spelling in either case. */
  function Spell(n: nat, upper: bool): (s: ByteString)
    ensures HexText(s)
  {
    TablesAre(n % 16);
    var d: Byte := (if upper then UPPER else LOWER)[n % 16] as int;
    if n < 16 then [d] else Spell(n / 16, upper) + [d]
  }

  lemma {:induction false} SpellValue(n: nat, upper: bool)
    ensures HexValue(Spell(n, upper)) == n
  {
    TablesAre(n % 16);
    if n >= 16 {
      SpellValue(n / 16, upper);
      assert Spell(n, upper)[..|Spell(n, upper)| - 1] == Spell(n / 16, upper);
    }
  }

  /** A size line in either case gives the size back. */
  lemma SpellingParses(n: nat, upper: bool)
    ensures SizeOf(Spell(n, upper) + [13, 10]) == Some(n)
  {
    var s := Spell(n, upper);
    SpellValue(n, upper);
    SizeLineIs(Chunk(s, [], []));
    assert s + [] + [CR, LF] == s + [13, 10];
  }

  /** A chunk of ten bytes whose size is written in upper case, with an extension. */
  lemma TenBytes(data: ByteString, tail: ByteString)
    requires |data| == 10
    ensures AllChunks([65, 59, 120, 13, 10] + data + [13, 10] + [48, 13, 10] + tail) == (Body(data), tail)
  {
    var c, last := Chunk([65], [59, 120], data), Chunk([48], [], []);
    assert HexValue([65]) == 10 && HexValue([48]) == 0 by {
      assert [65][..0] == [] && [48][..0] == [];
    }
    assert SizeLine(c) == [65, 59, 120, 13, 10] && SizeLine(last) == [48, 13, 10];
    assert [c][1..] == [] && Encode([], last) == SizeLine(last);
    assert Payload([c]) == data + [] == data;
    DecodeUndoesEncode([c], last, tail);
  }
}
