/**
 Reassembling a streamed reply from its lines. JSON, UTF-8 and Unicode white space are
 parameters (`Wire`); everything else follows the accumulator.
 */
module StreamReply {
  import opened Common
  import opened Utf8Text
  import opened SseLines
  import ToolNames

  /** A piece of a tool call: `arguments` arrive in fragments, `id` and `name` once. */
  datatype Piece = Piece(index: nat, id: Option<string>, name: Option<string>, arguments: Option<string>)

  datatype Choice = Choice(finish: Option<string>, content: Option<string>, pieces: seq<Piece>)

  datatype Chunk = Chunk(usage: Option<(nat, nat)>, choices: seq<Choice>)

  /**
   The foreign functions of the wire: decoding bytes, white space, parsing a payload or a call's
   arguments; and the codec that says which tool a name on the wire means.
   */
  datatype Wire = Wire(decode: seq<Byte> -> string, white: char -> bool, parse: string -> Option<Chunk>,
                       json: string -> Option<Json>, name: string -> (string, string))

  datatype Frag = Frag(id: string, name: string, arguments: string)

  datatype Acc = Acc(
    content: string,
    calls: map<nat, Frag>,
    tokensIn: nat,
    tokensOut: nat,
    done: bool,
    finish: Option<string>)

  const EMPTY := Acc("", map[], 0, 0, false, None)

  datatype Error = Decode | CutOff | TokenLimit

  datatype ToolCall = ToolCall(id: string, extension: string, tool: string, args: Json)

  datatype Response = Response(content: Option<string>, calls: seq<ToolCall>, tokensIn: nat, tokensOut: nat)

  /** What a line means to the accumulator. */
  datatype Line = Skip | DoneMark | Data(chunk: Chunk) | Bad

  function ReadLine(w: Wire, text: string): Line {
    var line := Trim(w.white, text);
    if line == "" || !("data:" <= line) then Skip
    else
      var payload := Trim(w.white, line[5..]);
      if payload == "[DONE]" then DoneMark
      else
        match w.parse(payload)
        case None => Bad
        case Some(chunk) => Data(chunk)
  }

  /** The letters of the field name are not white space. */
  ghost predicate FieldOk(white: char -> bool) {
    !white('d') && !white('a') && !white('t') && !white(':')
  }

  /** What a payload means. */
  function Payload(w: Wire, p: string): Line {
    if p == "[DONE]" then DoneMark else if w.parse(p).Some? then Data(w.parse(p).value) else Bad
  }

  /** A data line is read as its payload: what follows the field name, without white space around it. */
  lemma {:induction false} DataLine(w: Wire, a: string, b: string, p: string, c: string)
    requires AllWhite(w.white, a) && AllWhite(w.white, b) && AllWhite(w.white, c) && Tight(w.white, p) && FieldOk(w.white)
    ensures ReadLine(w, a + ("data:" + b + p) + c) == Payload(w, p)
  {
    if p == "" { NoPayload(w, a, b, c); } else { SomePayload(w, a, b, p, c); }
  }

  lemma {:induction false} SomePayload(w: Wire, a: string, b: string, p: string, c: string)
    requires AllWhite(w.white, a) && AllWhite(w.white, b) && AllWhite(w.white, c) && FieldOk(w.white)
    requires p != "" && Tight(w.white, p)
    ensures ReadLine(w, a + ("data:" + b + p) + c) == Payload(w, p)
  {
    FieldParts(b, p);
    TrimIs(w.white, a, "data:" + b + p, c);
    TrimIs(w.white, b, p, "");
    ReadsPayload(w, a + ("data:" + b + p) + c, "data:" + b + p, p);
  }

  lemma {:induction false} FieldParts(b: string, p: string)
    requires p != ""
    ensures var m := "data:" + b + p;
            m[0] == 'd' && m[|m| - 1] == p[|p| - 1] && "data:" <= m && m[5..] == b + p + ""
  {
  }

  lemma {:induction false} ReadsPayload(w: Wire, text: string, line: string, p: string)
    requires Trim(w.white, text) == line && "data:" <= line && Trim(w.white, line[5..]) == p
    ensures ReadLine(w, text) == Payload(w, p)
  {
  }

  lemma {:induction false} NoPayload(w: Wire, a: string, b: string, c: string)
    requires AllWhite(w.white, a) && AllWhite(w.white, b) && AllWhite(w.white, c) && FieldOk(w.white)
    ensures ReadLine(w, a + ("data:" + b + "") + c) == Payload(w, "")
  {
    assert a + ("data:" + b + "") + c == a + "data:" + (b + c);
    TrimIs(w.white, a, "data:", b + c);
    assert "data:"[5..] == "" + "" + "";
    TrimIs(w.white, "", "", "");
  }

  /** Every other line, blank or not, is skipped. */
  lemma {:induction false} OtherLine(w: Wire, a: string, m: string, c: string)
    requires AllWhite(w.white, a) && AllWhite(w.white, c) && Tight(w.white, m) && !("data:" <= m)
    ensures ReadLine(w, a + m + c) == Skip
  {
    TrimIs(w.white, a, m, c);
  }

  // ------------------------------------------------------------ the accumulator

  function OrElse(o: Option<string>, old_: string): string {
    if o.Some? then o.value else old_
  }

  function Text(o: Option<string>): string {
    OrElse(o, "")
  }

  function AddPiece(calls: map<nat, Frag>, p: Piece): map<nat, Frag> {
    var f := if p.index in calls then calls[p.index] else Frag("", "", "");
    calls[p.index := Frag(OrElse(p.id, f.id), OrElse(p.name, f.name), f.arguments + Text(p.arguments))]
  }

  function AddPieces(calls: map<nat, Frag>, ps: seq<Piece>): map<nat, Frag> {
    if ps == [] then calls else AddPiece(AddPieces(calls, ps[..|ps| - 1]), ps[|ps| - 1])
  }

  /** A choice whose text is emitted. */
  predicate Bearing(c: Choice) {
    Text(c.content) != ""
  }

  function AddChoice(acc: Acc, c: Choice): Acc {
    acc.(finish := if c.finish.Some? then c.finish else acc.finish,
         content := acc.content + Text(c.content),
         calls := AddPieces(acc.calls, c.pieces))
  }

  function AddChoices(acc: Acc, cs: seq<Choice>): Acc {
    if cs == [] then acc else AddChoice(AddChoices(acc, cs[..|cs| - 1]), cs[|cs| - 1])
  }

  /** The delta a chunk emits: the text of its last choice that has any. */
  function Emitted(cs: seq<Choice>): Option<string> {
    if cs == [] then None
    else if Bearing(cs[|cs| - 1]) then cs[|cs| - 1].content
    else Emitted(cs[..|cs| - 1])
  }

  function AddChunk(acc: Acc, chunk: Chunk): Acc {
    var used := if chunk.usage.Some? then acc.(tokensIn := chunk.usage.value.0, tokensOut := chunk.usage.value.1)
                else acc;
    AddChoices(used, chunk.choices)
  }

  /** One line: the new state and what it emits, or a decode error. */
  function PushLine(acc: Acc, line: Line): Result<(Acc, Option<string>), Error> {
    match line
    case Skip => Ok((acc, None))
    case DoneMark => Ok((acc.(done := true), None))
    case Bad => Err(Decode)
    case Data(chunk) => Ok((AddChunk(acc, chunk), Emitted(chunk.choices)))
  }

  class StreamAccumulator {
    var content: string
    var calls: map<nat, Frag>
    var tokensIn: nat
    var tokensOut: nat
    var done: bool
    var finish: Option<string>

    function View(): Acc
      reads this
    {
      Acc(content, calls, tokensIn, tokensOut, done, finish)
    }

    constructor ()
      ensures View() == EMPTY
    {
      content, calls, tokensIn, tokensOut, done, finish := "", map[], 0, 0, false, None;
    }

    method Push(w: Wire, text: string) returns (r: Result<Option<string>, Error>)
      modifies this
      ensures var spec := PushLine(old(View()), ReadLine(w, text));
              if spec.Err? then r == Err(spec.error) && View() == old(View())
              else r == Ok(spec.value.1) && View() == spec.value.0
    {
      var line := ReadLine(w, text);
      if line.Skip? { return Ok(None); }
      if line.DoneMark? {
        done := true;
        return Ok(None);
      }
      if line.Bad? { return Err(Decode); }
      var emit := AddData(line.chunk);
      r := Ok(emit);
    }

    method AddData(chunk: Chunk) returns (emit: Option<string>)
      modifies this
      ensures View() == AddChunk(old(View()), chunk) && emit == Emitted(chunk.choices)
    {
      if chunk.usage.Some? { tokensIn, tokensOut := chunk.usage.value.0, chunk.usage.value.1; }
      ghost var start := View();
      emit := None;
      var cs := chunk.choices;
      for i := 0 to |cs|
        invariant View() == AddChoices(start, cs[..i]) && emit == Emitted(cs[..i])
      {
        ChoicesPush(start, cs, i);
        if cs[i].finish.Some? { finish := cs[i].finish; }
        if cs[i].content.Some? && cs[i].content.value != "" {
          content := content + cs[i].content.value;
          emit := cs[i].content;
        }
        AddFragments(cs[i].pieces);
      }
      assert cs[..|cs|] == cs;
    }

    method AddFragments(ps: seq<Piece>)
      modifies this`calls
      ensures calls == AddPieces(old(calls), ps)
    {
      for i := 0 to |ps|
        invariant calls == AddPieces(old(calls), ps[..i])
      {
        assert ps[..i + 1][..i] == ps[..i];
        var f := if ps[i].index in calls then calls[ps[i].index] else Frag("", "", "");
        if ps[i].id.Some? { f := f.(id := ps[i].id.value); }
        if ps[i].name.Some? { f := f.(name := ps[i].name.value); }
        if ps[i].arguments.Some? { f := f.(arguments := f.arguments + ps[i].arguments.value); }
        assert forall t: string :: t + "" == t;
        calls := calls[ps[i].index := f];
      }
      assert ps[..|ps|] == ps;
    }

    /** The response: the calls in the order of their index. */
    method Finish(w: Wire) returns (r: Response)
      ensures r == ResponseOf(w, View())
    {
      var out := [];
      var left := calls.Keys;
      ghost var taken: seq<nat> := [];
      assert taken + SortedKeys(left) == SortedKeys(left);
      while left != {}
        invariant Taken(calls.Keys, taken, left) && out == CallsFor(w, calls, taken)
        decreases |left|
      {
        var next := Smallest(left);
        TakeNext(calls.Keys, taken, left, next);
        CallsPush(w, calls, taken, next);
        out := out + [BuildCall(w, calls[next])];
        taken := taken + [next];
        left := left - {next};
      }
      assert taken + [] == taken;
      r := Response(if content == "" then None else Some(content), out, tokensIn, tokensOut);
    }
  }

  /** The keys taken so far, and those left, are the keys in increasing order. */
  ghost predicate Taken(keys: set<nat>, taken: seq<nat>, left: set<nat>) {
    && left <= keys && (forall k :: 0 <= k < |taken| ==> taken[k] in keys)
    && taken + SortedKeys(left) == SortedKeys(keys)
  }

  lemma {:induction false} TakeNext(keys: set<nat>, taken: seq<nat>, left: set<nat>, next: nat)
    requires Taken(keys, taken, left) && next in left && forall i :: i in left ==> next <= i
    ensures Taken(keys, taken + [next], left - {next})
  {
    Assoc(taken, [next], SortedKeys(left - {next}));
  }

  method Smallest(s: set<nat>) returns (m: nat)
    requires s != {}
    ensures m in s && forall i :: i in s ==> m <= i
  {
    m :| m in s;
    var left := s - {m};
    while left != {}
      invariant m in s && left <= s && forall i :: i in s && i !in left ==> m <= i
      decreases |left|
    {
      var i :| i in left;
      if i < m { m := i; }
      left := left - {i};
    }
  }

  // ------------------------------------------------------------ the response

  const MALFORMED_KEY := "__malformed_arguments"
  const ECHO_BYTES: nat := 512

  /** As much of unreadable arguments as is echoed: the longest prefix of 512 bytes. */
  function Echo(raw: string): string {
    assert raw[..0] == "";
    raw[..KeptLen(raw, 0, |raw|, ECHO_BYTES)]
  }

  /** A call's arguments: none for blank text, flagged when they are not JSON. */
  function Args(w: Wire, raw: string): Json {
    if Trim(w.white, raw) == "" then JObj(map[])
    else
      match w.json(raw)
      case Some(v) => v
      case None => JObj(map[MALFORMED_KEY := JStr(Echo(raw))])
  }

  /** Blank arguments are none, JSON is decoded, and anything else is flagged with as much of it as fits 512 bytes. */
  lemma {:induction false} ArgsExactly(w: Wire, raw: string)
    ensures AllWhite(w.white, raw) ==> Args(w, raw) == JObj(map[])
    ensures !AllWhite(w.white, raw) && w.json(raw).Some? ==> Args(w, raw) == w.json(raw).value
    ensures !AllWhite(w.white, raw) && w.json(raw).None? ==>
              exists kept :: && Args(w, raw) == JObj(map["__malformed_arguments" := JStr(kept)])
                             && kept <= raw && Utf8(kept) <= 512
                             && forall longer :: kept < longer <= raw ==> Utf8(longer) > 512
  {
    if AllWhite(w.white, raw) {
      TrimLeftAll(w.white, raw);
    } else {
      TrimLeavesSome(w.white, raw);
      if w.json(raw).None? {
        EchoIsLongest(raw);
        assert Args(w, raw) == JObj(map["__malformed_arguments" := JStr(Echo(raw))]);
      }
    }
  }

  lemma {:induction false} TrimLeavesSome(white: char -> bool, s: string)
    requires !AllWhite(white, s)
    ensures Trim(white, s) != ""
  {
    if white(s[0]) {
      assert s == [s[0]] + s[1..];
      TrimLeavesSome(white, s[1..]);
    } else {
      TrimRightKeepsFirst(white, s);
    }
  }

  lemma {:induction false} TrimRightKeepsFirst(white: char -> bool, s: string)
    requires s != "" && !white(s[0])
    ensures TrimRight(white, s) != ""
  {
    if white(s[|s| - 1]) { TrimRightKeepsFirst(white, s[..|s| - 1]); }
  }

  lemma {:induction false} EchoIsLongest(raw: string)
    ensures Echo(raw) <= raw && Utf8(Echo(raw)) <= 512
    ensures forall longer :: Echo(raw) < longer <= raw ==> Utf8(longer) > 512
  {
    assert raw[..0] == "";
    var n := KeptLen(raw, 0, |raw|, ECHO_BYTES);
    forall longer | Echo(raw) < longer <= raw ensures Utf8(longer) > 512 {
      assert longer == raw[..|longer|];
      Utf8Grows(raw, n + 1, |longer|);
    }
  }

  function BuildCall(w: Wire, f: Frag): ToolCall {
    ToolCall(f.id, w.name(f.name).0, w.name(f.name).1, Args(w, f.arguments))
  }

  function CallsFor(w: Wire, calls: map<nat, Frag>, keys: seq<nat>): seq<ToolCall>
    requires forall k :: 0 <= k < |keys| ==> keys[k] in calls
  {
    seq(|keys|, k requires 0 <= k < |keys| => BuildCall(w, calls[keys[k]]))
  }

  lemma {:induction false} CallsPush(w: Wire, calls: map<nat, Frag>, keys: seq<nat>, next: nat)
    requires (forall k :: 0 <= k < |keys| ==> keys[k] in calls) && next in calls
    ensures forall k :: 0 <= k < |keys + [next]| ==> (keys + [next])[k] in calls
    ensures CallsFor(w, calls, keys + [next]) == CallsFor(w, calls, keys) + [BuildCall(w, calls[next])]
  {
  }

  lemma {:induction false} LeastExists(s: set<nat>, x: nat)
    requires x in s
    ensures exists m :: m in s && forall i :: i in s ==> m <= i
    decreases x
  {
    if i :| i in s && i < x {
      LeastExists(s, i);
    } else {
      assert x in s && forall i :: i in s ==> x <= i;
    }
  }

  ghost function Least(s: set<nat>): (m: nat)
    requires s != {}
    ensures m in s && forall i :: i in s ==> m <= i
  {
    var x :| x in s;
    LeastExists(s, x);
    var m :| m in s && forall i :: i in s ==> m <= i;
    m
  }

  /** The elements of a set in increasing order. */
  ghost function SortedKeys(s: set<nat>): (r: seq<nat>)
    ensures (forall k :: 0 <= k < |r| ==> r[k] in s) && (forall i :: i in s ==> i in r)
    ensures forall j, k :: 0 <= j < k < |r| ==> r[j] < r[k]
  {
    if s == {} then [] else [Least(s)] + SortedKeys(s - {Least(s)})
  }

  ghost function ResponseOf(w: Wire, acc: Acc): Response {
    Response(if acc.content == "" then None else Some(acc.content), CallsFor(w, acc.calls, SortedKeys(acc.calls.Keys)),
             acc.tokensIn, acc.tokensOut)
  }

  // ------------------------------------------------------------ a whole stream

  /** The state, the emitted deltas and the first error after some lines. */
  datatype Progress = Progress(acc: Acc, deltas: seq<string>, error: Option<Error>)

  function Advance(p: Progress, line: Line): Progress {
    if p.error.Some? then p
    else
      match PushLine(p.acc, line)
      case Err(e) => p.(error := Some(e))
      case Ok((acc, emit)) => p.(acc := acc, deltas := p.deltas + if emit.Some? then [emit.value] else [])
  }

  function AdvanceAll(p: Progress, lines: seq<Line>): Progress {
    if lines == [] then p else Advance(AdvanceAll(p, lines[..|lines| - 1]), lines[|lines| - 1])
  }

  const BEGIN := Progress(EMPTY, [], None)

  function ReadLines(w: Wire, raw: seq<seq<Byte>>): seq<Line> {
    if raw == [] then []
    else ReadLines(w, raw[..|raw| - 1]) + [ReadLine(w, TrimEnd(w.decode(raw[|raw| - 1])))]
  }

  /** Chunk by chunk: the lines each chunk completes are pushed before the next is read. */
  function AfterChunks(w: Wire, chunks: seq<seq<Byte>>): Progress {
    if chunks == [] then BEGIN
    else
      var pre := chunks[..|chunks| - 1];
      AdvanceAll(AfterChunks(w, pre), ReadLines(w, Lines(ChunkRest([], pre), chunks[|chunks| - 1])))
  }

  /** The end of the stream: a last line without a newline, then the completeness check. */
  ghost function Reply(w: Wire, chunks: seq<seq<Byte>>): (Result<Response, Error>, seq<string>) {
    var rest := ChunkRest([], chunks);
    var p := AdvanceAll(AfterChunks(w, chunks), ReadLines(w, if rest == [] then [] else [rest]));
    (Concluded(w, p), p.deltas)
  }

  /** What comes of it: the first error, or that the stream was cut off, or the response. */
  ghost function Concluded(w: Wire, p: Progress): Result<Response, Error> {
    if p.error.Some? then Err(p.error.value)
    else if Incomplete(p.acc).Some? then Err(Incomplete(p.acc).value)
    else Ok(ResponseOf(w, p.acc))
  }

  function Incomplete(acc: Acc): Option<Error> {
    if !acc.done && acc.finish.None? then Some(CutOff)
    else if acc.finish == Some("length") && acc.calls != map[] then Some(TokenLimit)
    else None
  }

  /** The first error ends it: later lines change nothing. */
  lemma {:induction false} ErrorStays(p: Progress, lines: seq<Line>)
    requires p.error.Some?
    ensures AdvanceAll(p, lines) == p
  {
    if lines != [] { ErrorStays(p, lines[..|lines| - 1]); }
  }

  lemma {:induction false} ErrorStaysInChunks(w: Wire, chunks: seq<seq<Byte>>, n: nat)
    requires n <= |chunks| && AfterChunks(w, chunks[..n]).error.Some?
    ensures AfterChunks(w, chunks) == AfterChunks(w, chunks[..n])
    decreases |chunks|
  {
    if n < |chunks| {
      var pre := chunks[..|chunks| - 1];
      assert pre[..n] == chunks[..n];
      ErrorStaysInChunks(w, pre, n);
      ErrorStays(AfterChunks(w, pre), ReadLines(w, Lines(ChunkRest([], pre), chunks[|chunks| - 1])));
    } else {
      assert chunks[..n] == chunks;
    }
  }

  lemma {:induction false} ReadTexts(w: Wire, raw: seq<seq<Byte>>, n: nat)
    requires n <= |raw|
    ensures |ReadLines(w, raw)| == |raw| && ReadLines(w, raw)[..n] == ReadLines(w, raw[..n])
    ensures n < |raw| ==> ReadLines(w, raw)[n] == ReadLine(w, Texts(w.decode, raw)[n])
  {
    var a, b := raw[..n], raw[n..];
    assert raw == a + b;
    ReadLinesAppend(w, a, b);
    ReadLinesCount(w, a);
    ReadLinesCount(w, b);
    if n < |raw| {
      assert b == [raw[n]] + raw[n + 1..];
      ReadLinesAppend(w, [raw[n]], raw[n + 1..]);
    }
  }

  lemma {:induction false} ReadLinesCount(w: Wire, raw: seq<seq<Byte>>)
    ensures |ReadLines(w, raw)| == |raw|
  {
    if raw != [] { ReadLinesCount(w, raw[..|raw| - 1]); }
  }

  /** The lines of one chunk, pushed one by one until the first error. */
  method PushLines(acc: StreamAccumulator, w: Wire, texts: seq<string>, ghost raw: seq<seq<Byte>>)
    returns (shown: seq<string>, error: Option<Error>)
    requires texts == Texts(w.decode, raw)
    modifies acc
    ensures var p := AdvanceAll(Progress(old(acc.View()), [], None), ReadLines(w, raw));
            acc.View() == p.acc && shown == p.deltas && error == p.error
  {
    shown, error := [], None;
    ghost var lines := ReadLines(w, raw);
    ghost var begin := Progress(acc.View(), [], None);
    ReadTexts(w, raw, 0);
    for i := 0 to |texts|
      invariant AdvanceAll(begin, lines[..i]) == Progress(acc.View(), shown, None) && error.None?
    {
      ReadTexts(w, raw, i);
      AdvanceNext(begin, lines, i);
      var r := acc.Push(w, texts[i]);
      if r.Err? {
        error := Some(r.error);
        return;
      }
      if r.value.Some? { shown := shown + [r.value.value]; }
    }
    assert lines[..|texts|] == lines;
  }

  /** One more line; after an error the rest changes nothing. */
  lemma {:induction false} AdvanceNext(begin: Progress, lines: seq<Line>, i: nat)
    requires i < |lines|
    ensures var p := Advance(AdvanceAll(begin, lines[..i]), lines[i]);
            && AdvanceAll(begin, lines[..i + 1]) == p
            && (p.error.Some? ==> AdvanceAll(begin, lines) == p)
  {
    assert lines[..i + 1][..i] == lines[..i];
    var p := AdvanceAll(begin, lines[..i + 1]);
    if p.error.Some? {
      assert lines == lines[..i + 1] + lines[i + 1..];
      AdvanceAppend(begin, lines[..i + 1], lines[i + 1..]);
      ErrorStays(p, lines[i + 1..]);
    }
  }

  /** Deltas only grow at the end. */
  lemma {:induction false} DeltasPrefix(acc: Acc, before: seq<string>, lines: seq<Line>)
    ensures var p, q := AdvanceAll(Progress(acc, [], None), lines), AdvanceAll(Progress(acc, before, None), lines);
            q.acc == p.acc && q.error == p.error && q.deltas == before + p.deltas
  {
    if lines != [] { DeltasPrefix(acc, before, lines[..|lines| - 1]); }
  }

  /** The streaming call: push what each chunk completes, flush the remainder, check the end. */
  method CompleteStreaming(w: Wire, chunks: seq<seq<Byte>>) returns (r: Result<Response, Error>, deltas: seq<string>)
    ensures (r, deltas) == Reply(w, chunks)
  {
    var acc := new StreamAccumulator();
    var buffer := new SseLineBuffer(w.decode);
    deltas := [];
    for n := 0 to |chunks|
      invariant buffer.buf == ChunkRest([], chunks[..n]) && NEWLINE !in buffer.buf
      invariant AfterChunks(w, chunks[..n]) == Progress(acc.View(), deltas, None)
    {
      assert chunks[..n + 1][..n] == chunks[..n];
      ghost var raw := Lines(buffer.buf, chunks[n]);
      var texts := buffer.PushBytes(chunks[n]);
      var error;
      deltas, error := PushMore(acc, w, texts, deltas, raw);
      if error.Some? {
        ReplyFailed(w, chunks, n + 1);
        return Err(error.value), deltas;
      }
    }
    assert chunks[..|chunks|] == chunks;
    ghost var rest := buffer.buf;
    var last := buffer.TakeRemainder();
    if last.Some? {
      var error;
      deltas, error := PushMore(acc, w, [last.value], deltas, [rest]);
      if error.Some? { return Err(error.value), deltas; }
    }
    r := Conclude(acc, w, deltas);
  }

  /** More lines, with what they emit added to the deltas. */
  method PushMore(acc: StreamAccumulator, w: Wire, texts: seq<string>, deltas: seq<string>, ghost raw: seq<seq<Byte>>)
    returns (deltas': seq<string>, error: Option<Error>)
    requires texts == Texts(w.decode, raw)
    modifies acc
    ensures AdvanceAll(Progress(old(acc.View()), deltas, None), ReadLines(w, raw)) == Progress(acc.View(), deltas', error)
  {
    DeltasPrefix(acc.View(), deltas, ReadLines(w, raw));
    var shown;
    shown, error := PushLines(acc, w, texts, raw);
    deltas' := deltas + shown;
  }

  method Conclude(acc: StreamAccumulator, w: Wire, ghost deltas: seq<string>) returns (r: Result<Response, Error>)
    ensures r == Concluded(w, Progress(acc.View(), deltas, None))
  {
    var incomplete := Incomplete(acc.View());
    if incomplete.Some? { return Err(incomplete.value); }
    var response := acc.Finish(w);
    r := Ok(response);
  }

  /** An error in some chunk is the reply. */
  lemma {:induction false} ReplyFailed(w: Wire, chunks: seq<seq<Byte>>, n: nat)
    requires n <= |chunks| && AfterChunks(w, chunks[..n]).error.Some?
    ensures var p := AfterChunks(w, chunks[..n]); Reply(w, chunks) == (Err(p.error.value), p.deltas)
  {
    ErrorStaysInChunks(w, chunks, n);
    var rest := ChunkRest([], chunks);
    ErrorStays(AfterChunks(w, chunks), ReadLines(w, if rest == [] then [] else [rest]));
  }

  lemma {:induction false} AdvanceAppend(p: Progress, a: seq<Line>, b: seq<Line>)
    ensures AdvanceAll(p, a + b) == AdvanceAll(AdvanceAll(p, a), b)
  {
    if b == [] {
      assert a + b == a;
    } else {
      assert (a + b)[..|a + b| - 1] == a + b[..|b| - 1];
      AdvanceAppend(p, a, b[..|b| - 1]);
    }
  }

  lemma {:induction false} ReadLinesAppend(w: Wire, a: seq<seq<Byte>>, b: seq<seq<Byte>>)
    ensures ReadLines(w, a + b) == ReadLines(w, a) + ReadLines(w, b)
  {
    if b == [] {
      assert a + b == a;
    } else {
      assert (a + b)[..|a + b| - 1] == a + b[..|b| - 1];
      ReadLinesAppend(w, a, b[..|b| - 1]);
    }
  }

  lemma {:induction false} ChunksAreLines(w: Wire, chunks: seq<seq<Byte>>)
    ensures AfterChunks(w, chunks) == AdvanceAll(BEGIN, ReadLines(w, ChunkLines([], chunks)))
  {
    if chunks != [] {
      var pre := chunks[..|chunks| - 1];
      ChunksAreLines(w, pre);
      var a, b := ChunkLines([], pre), Lines(ChunkRest([], pre), chunks[|chunks| - 1]);
      ReadLinesAppend(w, a, b);
      AdvanceAppend(BEGIN, ReadLines(w, a), ReadLines(w, b));
    }
  }

  /** However the network cuts the stream, the deltas and the reply or first error are the same. */
  lemma {:induction false} ReplyIgnoresChunking(w: Wire, a: seq<seq<Byte>>, b: seq<seq<Byte>>)
    requires Concat(a) == Concat(b)
    ensures Reply(w, a) == Reply(w, b)
  {
    ChunkingIndependent(a, b);
    ChunksAreLines(w, a);
    ChunksAreLines(w, b);
  }

  // ------------------------------------------------------------ reassembly

  /** The chunks of a line sequence, in order. */
  function Chunks(lines: seq<Line>): seq<Chunk> {
    if lines == [] then []
    else Chunks(lines[..|lines| - 1]) + if lines[|lines| - 1].Data? then [lines[|lines| - 1].chunk] else []
  }

  function PiecesOfChoices(cs: seq<Choice>): seq<Piece> {
    if cs == [] then [] else PiecesOfChoices(cs[..|cs| - 1]) + cs[|cs| - 1].pieces
  }

  /** All tool-call pieces in arrival order. */
  function Pieces(chunks: seq<Chunk>): seq<Piece> {
    if chunks == [] then []
    else Pieces(chunks[..|chunks| - 1]) + PiecesOfChoices(chunks[|chunks| - 1].choices)
  }

  /** The pieces of one call, in arrival order. */
  function Of(ps: seq<Piece>, index: nat): seq<Piece> {
    if ps == [] then []
    else Of(ps[..|ps| - 1], index) + if ps[|ps| - 1].index == index then [ps[|ps| - 1]] else []
  }

  /** A call put together from its own pieces alone. */
  function Joined(own: seq<Piece>): Frag {
    if own == [] then Frag("", "", "")
    else
      var f, p := Joined(own[..|own| - 1]), own[|own| - 1];
      Frag(OrElse(p.id, f.id), OrElse(p.name, f.name), f.arguments + Text(p.arguments))
  }

  function Arguments(own: seq<Piece>): seq<string> {
    seq(|own|, i requires 0 <= i < |own| => Text(own[i].arguments))
  }

  lemma {:induction false} JoinedArguments(own: seq<Piece>)
    ensures Joined(own).arguments == Concat(Arguments(own))
  {
    if own != [] {
      var pre, p := own[..|own| - 1], own[|own| - 1];
      JoinedArguments(pre);
      assert Arguments(own) == Arguments(pre) + [Text(p.arguments)];
      ConcatAppend(Arguments(pre), [Text(p.arguments)]);
      assert Concat([Text(p.arguments)]) == Text(p.arguments);
    }
  }

  lemma {:induction false} AddPiecesAppend(calls: map<nat, Frag>, a: seq<Piece>, b: seq<Piece>)
    ensures AddPieces(calls, a + b) == AddPieces(AddPieces(calls, a), b)
  {
    if b == [] {
      assert a + b == a;
    } else {
      assert (a + b)[..|a + b| - 1] == a + b[..|b| - 1];
      AddPiecesAppend(calls, a, b[..|b| - 1]);
    }
  }

  /** Accumulating pieces joins each call's own pieces, whatever comes between them. */
  lemma {:induction false} PiecesAreJoined(ps: seq<Piece>, index: nat)
    ensures index in AddPieces(map[], ps) <==> Of(ps, index) != []
    ensures index in AddPieces(map[], ps) ==> AddPieces(map[], ps)[index] == Joined(Of(ps, index))
  {
    if ps != [] {
      var pre, p := ps[..|ps| - 1], ps[|ps| - 1];
      PiecesAreJoined(pre, index);
      if p.index == index {
        var own := Of(ps, index);
        assert own[..|own| - 1] == Of(pre, index);
      } else {
        assert Of(ps, index) == Of(pre, index);
      }
    }
  }

  lemma {:induction false} ChoicesPush(acc: Acc, cs: seq<Choice>, i: nat)
    requires i < |cs|
    ensures AddChoices(acc, cs[..i + 1]) == AddChoice(AddChoices(acc, cs[..i]), cs[i])
    ensures Emitted(cs[..i + 1]) == if Bearing(cs[i]) then cs[i].content else Emitted(cs[..i])
  {
    assert cs[..i + 1][..i] == cs[..i];
  }

  lemma {:induction false} ChoicesAddPieces(acc: Acc, cs: seq<Choice>)
    ensures AddChoices(acc, cs).calls == AddPieces(acc.calls, PiecesOfChoices(cs))
    ensures AddChoices(acc, cs).done == acc.done
  {
    if cs != [] {
      ChoicesAddPieces(acc, cs[..|cs| - 1]);
      AddPiecesAppend(acc.calls, PiecesOfChoices(cs[..|cs| - 1]), cs[|cs| - 1].pieces);
    }
  }

  /** After any lines without an error, the calls are those of the pieces. */
  lemma {:induction false} CallsAreOfPieces(lines: seq<Line>)
    requires AdvanceAll(BEGIN, lines).error.None?
    ensures AdvanceAll(BEGIN, lines).acc.calls == AddPieces(map[], Pieces(Chunks(lines)))
  {
    if lines != [] {
      var pre, line := lines[..|lines| - 1], lines[|lines| - 1];
      CallsAreOfPieces(pre);
      CallsOfLine(AdvanceAll(BEGIN, pre), line);
      PiecesOfLines(lines);
    }
  }

  /** The fragments one line brings. */
  function PiecesOfLine(line: Line): seq<Piece> {
    if line.Data? then PiecesOfChoices(line.chunk.choices) else []
  }

  lemma {:induction false} CallsOfLine(p: Progress, line: Line)
    requires Advance(p, line).error.None?
    ensures p.error.None? && Advance(p, line).acc.calls == AddPieces(p.acc.calls, PiecesOfLine(line))
  {
    if line.Data? { ChunkAddsPieces(p.acc, line.chunk); }
  }

  lemma {:induction false} PiecesOfLines(lines: seq<Line>)
    requires lines != []
    ensures var pre, line := lines[..|lines| - 1], lines[|lines| - 1];
            AddPieces(map[], Pieces(Chunks(lines))) == AddPieces(AddPieces(map[], Pieces(Chunks(pre))), PiecesOfLine(line))
  {
    var pre, line := lines[..|lines| - 1], lines[|lines| - 1];
    if line.Data? {
      PiecesPush(Chunks(pre), line.chunk);
    } else {
      assert Chunks(pre) + [] == Chunks(pre);
    }
  }

  lemma {:induction false} ChunkAddsPieces(acc: Acc, chunk: Chunk)
    ensures AddChunk(acc, chunk).calls == AddPieces(acc.calls, PiecesOfChoices(chunk.choices))
  {
    var used := if chunk.usage.Some?
      then acc.(tokensIn := chunk.usage.value.0, tokensOut := chunk.usage.value.1) else acc;
    ChoicesAddPieces(used, chunk.choices);
  }

  lemma {:induction false} PiecesPush(chunks: seq<Chunk>, chunk: Chunk)
    ensures AddPieces(map[], Pieces(chunks + [chunk])) ==
            AddPieces(AddPieces(map[], Pieces(chunks)), PiecesOfChoices(chunk.choices))
  {
    assert (chunks + [chunk])[..|chunks|] == chunks;
    AddPiecesAppend(map[], Pieces(chunks), PiecesOfChoices(chunk.choices));
  }

  /**
   Reassembly: each tool call's arguments are its own fragments joined in arrival order, and
   exactly the indices that occur become calls, whatever the interleaving.
   */
  lemma {:induction false} ToolCallsReassembled(lines: seq<Line>, index: nat)
    requires AdvanceAll(BEGIN, lines).error.None?
    ensures var calls, own := AdvanceAll(BEGIN, lines).acc.calls, Of(Pieces(Chunks(lines)), index);
            && (index in calls <==> own != [])
            && (index in calls ==> calls[index] == Joined(own) && calls[index].arguments == Concat(Arguments(own)))
  {
    CallsAreOfPieces(lines);
    PiecesAreJoined(Pieces(Chunks(lines)), index);
    JoinedArguments(Of(Pieces(Chunks(lines)), index));
  }

  /** Two streams whose pieces agree call by call give the same calls. */
  lemma {:induction false} InterleavingDoesNotMatter(a: seq<Line>, b: seq<Line>)
    requires AdvanceAll(BEGIN, a).error.None? && AdvanceAll(BEGIN, b).error.None?
    requires forall i :: Of(Pieces(Chunks(a)), i) == Of(Pieces(Chunks(b)), i)
    ensures AdvanceAll(BEGIN, a).acc.calls == AdvanceAll(BEGIN, b).acc.calls
  {
    var x, y := AdvanceAll(BEGIN, a).acc.calls, AdvanceAll(BEGIN, b).acc.calls;
    forall i: nat ensures (i in x <==> i in y) && (i in x ==> x[i] == y[i]) {
      ToolCallsReassembled(a, i);
      ToolCallsReassembled(b, i);
    }
  }

  // ------------------------------------------------------------ deltas and content

  function Bearers(cs: seq<Choice>): nat {
    if cs == [] then 0 else Bearers(cs[..|cs| - 1]) + if Bearing(cs[|cs| - 1]) then 1 else 0
  }

  function ContentOf(cs: seq<Choice>): string {
    if cs == [] then "" else ContentOf(cs[..|cs| - 1]) + Text(cs[|cs| - 1].content)
  }

  lemma {:induction false} ChoicesAddContent(acc: Acc, cs: seq<Choice>)
    ensures AddChoices(acc, cs).content == acc.content + ContentOf(cs)
  {
    if cs != [] {
      ChoicesAddContent(acc, cs[..|cs| - 1]);
      assert acc.content + ContentOf(cs) == acc.content + ContentOf(cs[..|cs| - 1]) + Text(cs[|cs| - 1].content);
    }
  }

  /** A chunk's delta is its content exactly when at most one choice bears text; else it is shorter. */
  lemma {:induction false} EmittedIsContent(cs: seq<Choice>)
    ensures Bearers(cs) <= 1 ==> Text(Emitted(cs)) == ContentOf(cs)
    ensures Bearers(cs) > 1 ==> |Text(Emitted(cs))| < |ContentOf(cs)|
    ensures Emitted(cs).Some? <==> Bearers(cs) > 0
    ensures Bearers(cs) == 0 ==> ContentOf(cs) == ""
    ensures Bearers(cs) > 0 ==> ContentOf(cs) != ""
  {
    if cs != [] { EmittedIsContent(cs[..|cs| - 1]); }
  }

  /** What a line adds to the content. */
  function LineContent(line: Line): string {
    if line.Data? then ContentOf(line.chunk.choices) else ""
  }

  /** What the consumer is shown of a line. */
  function Shown(line: Line): string {
    if line.Data? then Text(Emitted(line.chunk.choices)) else ""
  }

  predicate SingleBearer(line: Line) {
    line.Data? ==> Bearers(line.chunk.choices) <= 1
  }

  /**
   What the consumer was shown adds up to the reply's content exactly when no chunk carries text
   in two choices; with such a chunk it is strictly shorter.
   */
  lemma {:induction false} DeltasAreContent(lines: seq<Line>)
    requires AdvanceAll(BEGIN, lines).error.None?
    ensures var p := AdvanceAll(BEGIN, lines);
            && |Concat(p.deltas)| <= |p.acc.content|
            && (Concat(p.deltas) == p.acc.content <==> SingleBearers(lines))
            && (|Concat(p.deltas)| == |p.acc.content| <==> SingleBearers(lines))
  {
    if lines != [] {
      var n := |lines| - 1;
      DeltasAreContent(lines[..n]);
      DeltaStep(AdvanceAll(BEGIN, lines[..n]), lines[n]);
    }
  }

  /** No chunk has two content-bearing choices. */
  predicate SingleBearers(lines: seq<Line>) {
    lines == [] || (SingleBearers(lines[..|lines| - 1]) && SingleBearer(lines[|lines| - 1]))
  }

  lemma {:induction false} SingleBearersAll(lines: seq<Line>)
    ensures SingleBearers(lines) <==> forall k :: 0 <= k < |lines| ==> SingleBearer(lines[k])
  {
    if lines != [] {
      var n := |lines| - 1;
      SingleBearersAll(lines[..n]);
      assert forall k :: 0 <= k < n ==> lines[k] == lines[..n][k];
    }
  }

  lemma {:induction false} DeltaStep(p: Progress, line: Line)
    requires p.error.None? && Advance(p, line).error.None?
    ensures var q := Advance(p, line);
            && Concat(q.deltas) == Concat(p.deltas) + Shown(line)
            && q.acc.content == p.acc.content + LineContent(line)
            && |Shown(line)| <= |LineContent(line)|
            && (SingleBearer(line) ==> Shown(line) == LineContent(line))
            && (!SingleBearer(line) ==> |Shown(line)| < |LineContent(line)|)
  {
    if line.Data? {
      var cs, usage := line.chunk.choices, line.chunk.usage;
      EmittedIsContent(cs);
      ChoicesAddContent(if usage.Some? then p.acc.(tokensIn := usage.value.0, tokensOut := usage.value.1) else p.acc, cs);
      var more := if Emitted(cs).Some? then [Emitted(cs).value] else [];
      ConcatAppend(p.deltas, more);
      assert Concat(more) == Text(Emitted(cs));
    } else {
      assert p.deltas + [] == p.deltas;
    }
  }

  /** Two choices with text in one chunk: only the second reaches the consumer. */
  lemma {:induction false} TwoBearersLoseText()
    ensures exists lines :: AdvanceAll(BEGIN, lines).error.None?
              && Concat(AdvanceAll(BEGIN, lines).deltas) == "b" && AdvanceAll(BEGIN, lines).acc.content == "ab"
  {
    var a, b := Choice(None, Some("a"), []), Choice(None, Some("b"), []);
    var lines := [Data(Chunk(None, [a, b]))];
    assert lines[..0] == [] && [a, b][..1] == [a] && [a][..0] == [];
    assert AddChoices(EMPTY, [a]).content == "a";
    assert AddChoices(EMPTY, [a, b]).content == "ab";
    assert AdvanceAll(BEGIN, lines).deltas == ["b"];
    assert Concat(["b"]) == "b";
  }

  // ------------------------------------------------------------ completeness

  function LastFinish(cs: seq<Choice>): Option<string> {
    if cs == [] then None
    else if cs[|cs| - 1].finish.Some? then cs[|cs| - 1].finish
    else LastFinish(cs[..|cs| - 1])
  }

  /** The last finish reason any choice reported. */
  function FinishReason(lines: seq<Line>): Option<string> {
    if lines == [] then None
    else
      var line := lines[|lines| - 1];
      var own := if line.Data? then LastFinish(line.chunk.choices) else None;
      if own.Some? then own else FinishReason(lines[..|lines| - 1])
  }

  lemma {:induction false} ChoicesFinish(acc: Acc, cs: seq<Choice>)
    ensures AddChoices(acc, cs).finish == if LastFinish(cs).Some? then LastFinish(cs) else acc.finish
    ensures AddChoices(acc, cs).done == acc.done
  {
    if cs != [] { ChoicesFinish(acc, cs[..|cs| - 1]); }
  }

  lemma {:induction false} EndMarks(lines: seq<Line>)
    requires AdvanceAll(BEGIN, lines).error.None?
    ensures AdvanceAll(BEGIN, lines).acc.finish == FinishReason(lines)
    ensures AdvanceAll(BEGIN, lines).acc.done <==> DoneMark in lines
    ensures Bad !in lines
  {
    if lines != [] {
      var pre, line := lines[..|lines| - 1], lines[|lines| - 1];
      EndMarks(pre);
      assert forall x :: x in lines <==> x in pre || x == line by {
        assert lines == pre + [line];
      }
      MarksOfLine(AdvanceAll(BEGIN, pre), line);
    }
  }

  lemma {:induction false} MarksOfLine(p: Progress, line: Line)
    requires Advance(p, line).error.None?
    ensures var own := if line.Data? then LastFinish(line.chunk.choices) else None;
            Advance(p, line).acc.finish == if own.Some? then own else p.acc.finish
    ensures Advance(p, line).acc.done <==> p.acc.done || line.DoneMark?
    ensures !line.Bad? && p.error.None?
  {
    if line.Data? { ChunkFinish(p.acc, line.chunk); }
  }

  lemma {:induction false} ChunkFinish(acc: Acc, chunk: Chunk)
    ensures var last := LastFinish(chunk.choices);
            AddChunk(acc, chunk).finish == if last.Some? then last else acc.finish
    ensures AddChunk(acc, chunk).done == acc.done
  {
    var used := if chunk.usage.Some?
      then acc.(tokensIn := chunk.usage.value.0, tokensOut := chunk.usage.value.1) else acc;
    ChoicesFinish(used, chunk.choices);
  }

  lemma {:induction false} BadIsAnError(lines: seq<Line>)
    ensures AdvanceAll(BEGIN, lines).error.Some? <==> Bad in lines
  {
    if lines != [] {
      var pre, line := lines[..|lines| - 1], lines[|lines| - 1];
      BadIsAnError(pre);
      assert lines == pre + [line];
    }
  }

  /** All lines of a stream, the unterminated last one included. */
  function AllLines(w: Wire, chunks: seq<seq<Byte>>): seq<Line> {
    var rest := ChunkRest([], chunks);
    ReadLines(w, ChunkLines([], chunks) + if rest == [] then [] else [rest])
  }

  /**
   A reply is returned exactly when every line decodes, the stream said it was done or gave a
   finish reason, and no tool call was cut at the token limit.
   */
  lemma {:induction false} ReplyExactlyWhenComplete(w: Wire, chunks: seq<seq<Byte>>)
    ensures var lines := AllLines(w, chunks);
            Reply(w, chunks).0.Ok? <==>
              && Bad !in lines
              && (DoneMark in lines || FinishReason(lines).Some?)
              && (FinishReason(lines) == Some("length") ==> Pieces(Chunks(lines)) == [])
  {
    ReplyIsOfLines(w, chunks);
    CompleteExactly(AllLines(w, chunks));
  }

  /** The reply is a function of the lines alone. */
  lemma {:induction false} ReplyIsOfLines(w: Wire, chunks: seq<seq<Byte>>)
    ensures var p := AdvanceAll(BEGIN, AllLines(w, chunks)); Reply(w, chunks) == (Concluded(w, p), p.deltas)
  {
    var rest := ChunkRest([], chunks);
    var tail := if rest == [] then [] else [rest];
    ChunksAreLines(w, chunks);
    ReadLinesAppend(w, ChunkLines([], chunks), tail);
    AdvanceAppend(BEGIN, ReadLines(w, ChunkLines([], chunks)), ReadLines(w, tail));
  }

  lemma {:induction false} CompleteExactly(lines: seq<Line>)
    ensures var p := AdvanceAll(BEGIN, lines);
            (p.error.None? && Incomplete(p.acc).None?) <==>
              && Bad !in lines
              && (DoneMark in lines || FinishReason(lines).Some?)
              && (FinishReason(lines) == Some("length") ==> Pieces(Chunks(lines)) == [])
  {
    BadIsAnError(lines);
    if Bad !in lines {
      EndMarks(lines);
      CallsAreOfPieces(lines);
      NoCallsNoPieces(Pieces(Chunks(lines)));
    }
  }

  lemma {:induction false} NoCallsNoPieces(ps: seq<Piece>)
    ensures AddPieces(map[], ps) == map[] <==> ps == []
  {
    if ps != [] { assert ps[|ps| - 1].index in AddPieces(map[], ps); }
  }

  // ------------------------------------------------------------ what the response holds

  /** The text the consumer was shown is the response's content exactly when no chunk has two texts, and shorter otherwise. */
  lemma {:induction false} ReplyShowsContent(w: Wire, chunks: seq<seq<Byte>>)
    requires Reply(w, chunks).0.Ok?
    ensures var (r, deltas) := Reply(w, chunks);
            var lines := AllLines(w, chunks);
            && (Concat(deltas) == Text(r.value.content) <==> forall k :: 0 <= k < |lines| ==> SingleBearer(lines[k]))
            && (Concat(deltas) != Text(r.value.content) ==> |Concat(deltas)| < |Text(r.value.content)|)
            && r.value.content != Some("")
  {
    ReplyIsOfLines(w, chunks);
    DeltasAreContent(AllLines(w, chunks));
    SingleBearersAll(AllLines(w, chunks));
  }

  /** The indices that occur among some pieces. */
  function Indices(ps: seq<Piece>): set<nat> {
    set k | 0 <= k < |ps| :: ps[k].index
  }

  lemma {:induction false} OwnPieces(ps: seq<Piece>, index: nat)
    ensures index in Indices(ps) <==> Of(ps, index) != []
  {
    if ps != [] {
      var n := |ps| - 1;
      OwnPieces(ps[..n], index);
      assert index in Indices(ps[..n]) ==> index in Indices(ps) by {
        if index in Indices(ps[..n]) {
          var k :| 0 <= k < n && ps[..n][k].index == index;
          assert ps[k].index == index;
        }
      }
      assert index in Indices(ps) && ps[n].index != index ==> index in Indices(ps[..n]) by {
        if index in Indices(ps) && ps[n].index != index {
          var k :| 0 <= k < |ps| && ps[k].index == index;
          assert ps[..n][k].index == index;
        }
      }
    }
  }

  /** The calls of a response, from the pieces alone: by increasing index, each from its own pieces in arrival order. */
  ghost function ExpectedCalls(w: Wire, ps: seq<Piece>): seq<ToolCall> {
    var keys := SortedKeys(Indices(ps));
    seq(|keys|, k requires 0 <= k < |keys| => BuildCall(w, Joined(Of(ps, keys[k]))))
  }

  lemma {:induction false} CallsAreExpected(w: Wire, ps: seq<Piece>)
    ensures var calls := AddPieces(map[], ps); CallsFor(w, calls, SortedKeys(calls.Keys)) == ExpectedCalls(w, ps)
  {
    var calls := AddPieces(map[], ps);
    forall i: nat ensures i in calls <==> i in Indices(ps) {
      PiecesAreJoined(ps, i);
      OwnPieces(ps, i);
    }
    assert calls.Keys == Indices(ps);
    var keys := SortedKeys(calls.Keys);
    forall k | 0 <= k < |keys| ensures calls[keys[k]] == Joined(Of(ps, keys[k])) {
      PiecesAreJoined(ps, keys[k]);
    }
  }

  /** The response has exactly the calls of the stream's fragments, in index order, whatever the interleaving. */
  lemma {:induction false} ReplyCallsReassembled(w: Wire, chunks: seq<seq<Byte>>)
    requires Reply(w, chunks).0.Ok?
    ensures var ps := Pieces(Chunks(AllLines(w, chunks)));
            Reply(w, chunks).0.value.calls == ExpectedCalls(w, ps)
  {
    ReplyIsOfLines(w, chunks);
    CallsAreOfPieces(AllLines(w, chunks));
    CallsAreExpected(w, Pieces(Chunks(AllLines(w, chunks))));
  }

  /** The `k`-th call's arguments are the fragments of the `k`-th index, joined. */
  lemma {:induction false} ExpectedArguments(w: Wire, ps: seq<Piece>, k: nat)
    requires k < |ExpectedCalls(w, ps)|
    ensures var own := Of(ps, SortedKeys(Indices(ps))[k]);
            own != [] && ExpectedCalls(w, ps)[k].args == Args(w, Concat(Arguments(own)))
  {
    var index := SortedKeys(Indices(ps))[k];
    OwnPieces(ps, index);
    JoinedArguments(Of(ps, index));
  }

  /** A call to a declared tool reaches that tool, unless another declared tool has the same wire name. */
  lemma {:induction false} CallsReachTheirTool(w: Wire, digest: (string, string) -> string, tools: seq<ToolNames.Pair>,
                                                p: ToolNames.Pair, f: Frag)
    requires forall n :: w.name(n) == ToolNames.DecodeWith(digest, tools, n)
    requires p in tools && f.name == ToolNames.WireToolName(digest, p.0, p.1)
    requires forall q :: q in tools && q != p ==> ToolNames.WireToolName(digest, q.0, q.1) != f.name
    ensures BuildCall(w, f).extension == p.0 && BuildCall(w, f).tool == p.1
  {
    ToolNames.DecodesDeclaredTools(digest, tools, p);
  }

  /** The last token counts any line reported, or none. */
  function LastUsage(lines: seq<Line>): (nat, nat) {
    if lines == [] then (0, 0)
    else
      var line := lines[|lines| - 1];
      if line.Data? && line.chunk.usage.Some? then line.chunk.usage.value else LastUsage(lines[..|lines| - 1])
  }

  lemma {:induction false} ChoicesKeepUsage(acc: Acc, cs: seq<Choice>)
    ensures AddChoices(acc, cs).tokensIn == acc.tokensIn && AddChoices(acc, cs).tokensOut == acc.tokensOut
  {
    if cs != [] { ChoicesKeepUsage(acc, cs[..|cs| - 1]); }
  }

  lemma {:induction false} UsageOfLines(lines: seq<Line>)
    requires AdvanceAll(BEGIN, lines).error.None?
    ensures var acc := AdvanceAll(BEGIN, lines).acc; (acc.tokensIn, acc.tokensOut) == LastUsage(lines)
  {
    if lines != [] {
      var pre, line := lines[..|lines| - 1], lines[|lines| - 1];
      UsageOfLines(pre);
      UsageOfLine(AdvanceAll(BEGIN, pre), line);
    }
  }

  lemma {:induction false} UsageOfLine(p: Progress, line: Line)
    requires Advance(p, line).error.None?
    ensures p.error.None?
    ensures var acc := Advance(p, line).acc;
            (acc.tokensIn, acc.tokensOut) ==
              if line.Data? && line.chunk.usage.Some? then line.chunk.usage.value else (p.acc.tokensIn, p.acc.tokensOut)
  {
    if line.Data? {
      var usage := line.chunk.usage;
      ChoicesKeepUsage(if usage.Some? then p.acc.(tokensIn := usage.value.0, tokensOut := usage.value.1) else p.acc,
                       line.chunk.choices);
    }
  }

  /** The response counts the tokens the stream last reported. */
  lemma {:induction false} ReplyCountsTokens(w: Wire, chunks: seq<seq<Byte>>)
    requires Reply(w, chunks).0.Ok?
    ensures var r := Reply(w, chunks).0.value; (r.tokensIn, r.tokensOut) == LastUsage(AllLines(w, chunks))
  {
    ReplyIsOfLines(w, chunks);
    UsageOfLines(AllLines(w, chunks));
  }

  /** Which error ends a stream: a line that does not decode, then a missing end, then a tool call cut at the limit. */
  lemma {:induction false} WhichError(w: Wire, chunks: seq<seq<Byte>>)
    requires Reply(w, chunks).0.Err?
    ensures var lines, e := AllLines(w, chunks), Reply(w, chunks).0.error;
            && (e == Decode <==> Bad in lines)
            && (e == CutOff <==> Bad !in lines && DoneMark !in lines && FinishReason(lines).None?)
  {
    ReplyIsOfLines(w, chunks);
    var lines := AllLines(w, chunks);
    BadIsAnError(lines);
    OnlyDecodeErrors(lines);
    if Bad !in lines { EndMarks(lines); }
  }

  lemma {:induction false} OnlyDecodeErrors(lines: seq<Line>)
    ensures AdvanceAll(BEGIN, lines).error.Some? ==> AdvanceAll(BEGIN, lines).error == Some(Decode)
  {
    if lines != [] { OnlyDecodeErrors(lines[..|lines| - 1]); }
  }
}
