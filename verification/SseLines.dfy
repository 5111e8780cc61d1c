/**
 The byte-level line splitter of a streaming reply. Bytes arrive in arbitrary network chunks;
 only complete lines are decoded. Decoding is a parameter: the splitter never looks inside it.
 */
module SseLines {
  import opened Common

  const NEWLINE: Byte := 10

  /** Bytes left over after the last newline of `buf + bytes`. */
  function Rest(buf: seq<Byte>, bytes: seq<Byte>): seq<Byte> {
    if bytes == [] then buf
    else if bytes[|bytes| - 1] == NEWLINE then []
    else Rest(buf, bytes[..|bytes| - 1]) + [bytes[|bytes| - 1]]
  }

  /** Lines completed by `bytes` after a buffer `buf`, byte by byte. */
  function Lines(buf: seq<Byte>, bytes: seq<Byte>): seq<seq<Byte>> {
    if bytes == [] then []
    else
      var pre := bytes[..|bytes| - 1];
      Lines(buf, pre) + if bytes[|bytes| - 1] == NEWLINE then [Rest(buf, pre) + [NEWLINE]] else []
  }

  /** The same for bytes that come in chunks: all the lines, and what is left over. */
  function ChunkLines(buf: seq<Byte>, chunks: seq<seq<Byte>>): seq<seq<Byte>> {
    if chunks == [] then []
    else
      var pre := chunks[..|chunks| - 1];
      ChunkLines(buf, pre) + Lines(ChunkRest(buf, pre), chunks[|chunks| - 1])
  }

  function ChunkRest(buf: seq<Byte>, chunks: seq<seq<Byte>>): seq<Byte> {
    if chunks == [] then buf else Rest(ChunkRest(buf, chunks[..|chunks| - 1]), chunks[|chunks| - 1])
  }

  /** A decoded line without its line ending. */
  function TrimEnd(s: string): string {
    if s != "" && (s[|s| - 1] == '\r' || s[|s| - 1] == '\n') then TrimEnd(s[..|s| - 1]) else s
  }

  function Texts(decode: seq<Byte> -> string, lines: seq<seq<Byte>>): seq<string> {
    seq(|lines|, i requires 0 <= i < |lines| => TrimEnd(decode(lines[i])))
  }

  class SseLineBuffer {
    var buf: seq<Byte>
    const decode: seq<Byte> -> string

    constructor (decode: seq<Byte> -> string)
      ensures this.decode == decode && buf == []
    {
      this.decode := decode;
      buf := [];
    }

    /** Position of the first newline in the buffer. */
    method FindNewline() returns (idx: nat)
      requires NEWLINE in buf
      ensures idx < |buf| && buf[idx] == NEWLINE && NEWLINE !in buf[..idx]
    {
      idx := 0;
      while buf[idx] != NEWLINE
        invariant 0 <= idx < |buf| && NEWLINE !in buf[..idx]
        decreases |buf| - idx
      {
        idx := idx + 1;
      }
    }

    /** Append a chunk and drain every line it completes. */
    method PushBytes(bytes: seq<Byte>) returns (lines: seq<string>)
      requires NEWLINE !in buf
      modifies this
      ensures NEWLINE !in buf
      ensures buf == Rest(old(buf), bytes)
      ensures lines == Texts(decode, Lines(old(buf), bytes))
    {
      ghost var raw: seq<seq<Byte>> := [];
      ghost var all := buf + bytes;
      SplitWhole(buf, bytes);
      buf := buf + bytes;
      lines := [];
      while NEWLINE in buf
        invariant lines == Texts(decode, raw)
        invariant Lines([], all) == raw + Lines([], buf) && Rest([], all) == Rest([], buf)
        decreases |buf|
      {
        var idx := FindNewline();
        SplitFirst(buf, idx);
        DrainOne(raw, buf[..idx + 1], Lines([], buf[idx + 1..]));
        raw := raw + [buf[..idx + 1]];
        lines := lines + [TrimEnd(decode(buf[..idx + 1]))];
        buf := buf[idx + 1..];
      }
      SplitNone([], buf);
      assert raw + [] == raw;
    }

    /** The bytes that were never newline-terminated, as a last line. */
    method TakeRemainder() returns (line: Option<string>)
      modifies this
      ensures line == if old(buf) == [] then None else Some(TrimEnd(decode(old(buf))))
      ensures buf == []
    {
      if buf == [] { return None; }
      line := Some(TrimEnd(decode(buf)));
      buf := [];
    }
  }

  lemma {:induction false} DrainOne<T>(done: seq<T>, x: T, todo: seq<T>)
    ensures done + ([x] + todo) == (done + [x]) + todo
  {
  }

  // ------------------------------------------------------------ laws of the splitter

  lemma {:induction false} SplitAppend(buf: seq<Byte>, a: seq<Byte>, b: seq<Byte>)
    ensures Rest(buf, a + b) == Rest(Rest(buf, a), b)
    ensures Lines(buf, a + b) == Lines(buf, a) + Lines(Rest(buf, a), b)
  {
    if b == [] {
      assert a + b == a;
    } else {
      assert (a + b)[..|a + b| - 1] == a + b[..|b| - 1];
      SplitAppend(buf, a, b[..|b| - 1]);
    }
  }

  /** Without a newline everything stays in the buffer. */
  lemma {:induction false} SplitNone(buf: seq<Byte>, bytes: seq<Byte>)
    requires NEWLINE !in bytes
    ensures Lines(buf, bytes) == [] && Rest(buf, bytes) == buf + bytes
  {
    if bytes != [] {
      SplitNone(buf, bytes[..|bytes| - 1]);
      assert bytes == bytes[..|bytes| - 1] + [bytes[|bytes| - 1]];
    }
  }

  /** A newline-free buffer is just bytes that came earlier. */
  lemma {:induction false} SplitWhole(buf: seq<Byte>, bytes: seq<Byte>)
    requires NEWLINE !in buf
    ensures Lines([], buf + bytes) == Lines(buf, bytes) && Rest([], buf + bytes) == Rest(buf, bytes)
  {
    SplitNone([], buf);
    assert [] + buf == buf;
    SplitAppend([], buf, bytes);
  }

  lemma {:induction false} SplitRest(buf: seq<Byte>, bytes: seq<Byte>)
    requires NEWLINE !in buf
    ensures NEWLINE !in Rest(buf, bytes)
  {
    if bytes != [] { SplitRest(buf, bytes[..|bytes| - 1]); }
  }

  /** The first newline ends the first line. */
  lemma {:induction false} SplitFirst(bytes: seq<Byte>, idx: nat)
    requires idx < |bytes| && bytes[idx] == NEWLINE && NEWLINE !in bytes[..idx]
    ensures Lines([], bytes) == [bytes[..idx + 1]] + Lines([], bytes[idx + 1..])
    ensures Rest([], bytes) == Rest([], bytes[idx + 1..])
  {
    var first := bytes[..idx + 1];
    assert first == bytes[..idx] + [NEWLINE];
    OneLine(bytes[..idx]);
    SplitAppend([], first, bytes[idx + 1..]);
    assert bytes == first + bytes[idx + 1..];
  }

  lemma {:induction false} OneLine(plain: seq<Byte>)
    requires NEWLINE !in plain
    ensures Lines([], plain + [NEWLINE]) == [plain + [NEWLINE]] && Rest([], plain + [NEWLINE]) == []
  {
    SplitNone([], plain);
    assert (plain + [NEWLINE])[..|plain|] == plain && [] + plain == plain;
  }

  /** A line is bytes up to and including its only newline. */
  ghost predicate IsLine(line: seq<Byte>) {
    line != [] && line[|line| - 1] == NEWLINE && NEWLINE !in line[..|line| - 1]
  }

  /** A text loses all line-ending characters at its end, and nothing else. */
  lemma {:induction false} TrimEndIs(body: string, ending: string)
    requires body == "" || (body[|body| - 1] != '\r' && body[|body| - 1] != '\n')
    requires forall i :: 0 <= i < |ending| ==> ending[i] == '\r' || ending[i] == '\n'
    ensures TrimEnd(body + ending) == body
  {
    if ending == "" {
      assert body + ending == body;
    } else {
      var n := |ending| - 1;
      TrimEndIs(body, ending[..n]);
      assert (body + ending)[..|body| + n] == body + ending[..n];
    }
  }

  /** No byte is lost or duplicated. */
  lemma {:induction false} SplitConserves(buf: seq<Byte>, bytes: seq<Byte>)
    ensures Concat(Lines(buf, bytes)) + Rest(buf, bytes) == buf + bytes
  {
    if bytes != [] {
      var pre, b := bytes[..|bytes| - 1], bytes[|bytes| - 1];
      SplitConserves(buf, pre);
      OneMoreByte(Lines(buf, pre), Rest(buf, pre), buf + pre, b);
      assert buf + bytes == buf + pre + [b];
    }
  }

  lemma {:induction false} OneMoreByte(lines: seq<seq<Byte>>, rest: seq<Byte>, all: seq<Byte>, b: Byte)
    requires Concat(lines) + rest == all
    ensures Concat(lines + [rest + [b]]) + [] == all + [b]
    ensures Concat(lines + []) + (rest + [b]) == all + [b]
  {
    ConcatAppend(lines, [rest + [b]]);
    assert Concat([rest + [b]]) == rest + [b];
    Assoc(Concat(lines), rest, [b]);
    assert lines + [] == lines;
  }

  /** Every line ends at its only newline. */
  lemma {:induction false} LinesAreLines(buf: seq<Byte>, bytes: seq<Byte>)
    requires NEWLINE !in buf
    ensures forall k :: 0 <= k < |Lines(buf, bytes)| ==> IsLine(Lines(buf, bytes)[k])
  {
    if bytes != [] {
      var pre := bytes[..|bytes| - 1];
      LinesAreLines(buf, pre);
      SplitRest(buf, pre);
      var line := Rest(buf, pre) + [NEWLINE];
      assert line[..|line| - 1] == Rest(buf, pre);
    }
  }

  lemma {:induction false} ChunksAreWhole(buf: seq<Byte>, chunks: seq<seq<Byte>>)
    ensures ChunkLines(buf, chunks) == Lines(buf, Concat(chunks))
    ensures ChunkRest(buf, chunks) == Rest(buf, Concat(chunks))
  {
    if chunks != [] {
      var pre, last := chunks[..|chunks| - 1], chunks[|chunks| - 1];
      ChunksAreWhole(buf, pre);
      assert chunks == pre + [last];
      ConcatAppend(pre, [last]);
      assert Concat([last]) == last;
      SplitAppend(buf, Concat(pre), last);
    }
  }

  /**
   However a byte stream is cut into chunks, the lines and the remainder are the same; together
   they are the stream, and the buffer never holds a newline.
   */
  lemma {:induction false} ChunkingIndependent(a: seq<seq<Byte>>, b: seq<seq<Byte>>)
    requires Concat(a) == Concat(b)
    ensures ChunkLines([], a) == ChunkLines([], b) && ChunkRest([], a) == ChunkRest([], b)
    ensures Concat(ChunkLines([], a)) + ChunkRest([], a) == Concat(a)
    ensures NEWLINE !in ChunkRest([], a)
  {
    ChunksAreWhole([], a);
    ChunksAreWhole([], b);
    SplitConserves([], Concat(a));
    SplitRest([], Concat(a));
  }
}
