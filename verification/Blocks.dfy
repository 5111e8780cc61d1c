/**
 The document blocks of a message: how they are written, and that no name and no text can forge
 one.
 */
module Blocks {
  import opened Common
  import opened AttachmentRefs
  import opened DocumentText

  // ------------------------------------------------------------ writing blocks

  /** The only causes of a failed read the model is told about. */
  datatype Cause = Missing | Oversized | NotNow

  /** Why the model is told something instead of being given a file. */
  datatype Why =
    | NoVision | OverBudget | NoText | NotAnImage | TextLimit | Withheld | TooMany
    | LoadFailed(cause: Cause)
    | Truncated(chars: nat)

  /** What became of one attachment. */
  datatype Item =
    | Sent(n: nat, mime: string, bytes: seq<Byte>)
    | Block(n: nat, name: string, body: string, cut: bool)
    | Note(n: nat, kind: Kind, why: Why)

  /** The fixed wording: any sentences without newline or delimiter. */
  datatype Style = Style(note: (nat, Kind, Why) -> string, before: nat -> string, after: nat -> string,
                         unreadable: nat -> string)

  ghost predicate Clean(s: string) {
    '\n' !in s && OPEN !in s && CLOSE !in s
  }

  ghost predicate StyleOk(style: Style) {
    && (forall n, k, w :: Clean(style.note(n, k, w)))
    && (forall n :: Clean(style.before(n)))
    && (forall n :: Clean(style.after(n)))
    && (forall n :: Clean(style.unreadable(n)))
  }

  function Marker(n: nat, nonce: string, word: string): string {
    [OPEN] + "attached document " + Decimal(n) + " " + nonce + " " + word + [CLOSE]
  }

  function NoteLine(style: Style, n: nat, kind: Kind, why: Why): string {
    "[" + style.note(n, kind, why) + "]"
  }

  function IntroLine(style: Style, nonce: string, n: nat): string {
    "[" + style.before(n) + Marker(n, nonce, "end") + style.after(n) + "]"
  }

  /** The text one item adds to the message. */
  function ItemText(style: Style, nonce: string, item: Item): string {
    match item
    case Sent(_, _, _) => ""
    case Note(n, kind, why) => "\n" + NoteLine(style, n, kind, why)
    case Block(n, name, body, cut) =>
      BlockText(style, nonce, n, name, body) + if cut then "\n" + NoteLine(style, n, Document, Truncated(|body|)) else ""
  }

  function BlockText(style: Style, nonce: string, n: nat, name: string, body: string): string {
    "\n\n" + IntroLine(style, nonce, n) + "\n" + Marker(n, nonce, "begin") + "\nname: " + name + "\n" + body + "\n"
    + Marker(n, nonce, "end")
  }

  function Render(style: Style, nonce: string, items: seq<Item>): string {
    if items == [] then "" else Render(style, nonce, items[..|items| - 1]) + ItemText(style, nonce, items[|items| - 1])
  }

  // ------------------------------------------------------------ lines

  /** The lines of a text. */
  function Lines(s: string): (r: seq<string>)
    ensures r != []
  {
    if s == "" then [""]
    else
      var r := Lines(s[..|s| - 1]);
      if s[|s| - 1] == '\n' then r + [""] else Extended(r, s[|s| - 1])
  }

  function Joined(lines: seq<string>): string
    requires lines != []
  {
    if |lines| == 1 then lines[0] else Joined(lines[..|lines| - 1]) + "\n" + lines[|lines| - 1]
  }

  lemma {:induction false} JoinedLines(s: string)
    ensures Joined(Lines(s)) == s
  {
    if s != "" {
      var pre, c := s[..|s| - 1], s[|s| - 1];
      JoinedLines(pre);
      var r, all := Lines(pre), Lines(s);
      assert s == pre + [c];
      if c == '\n' {
        assert all[..|all| - 1] == r;
        assert Joined(all) == Joined(r) + "\n" + "";
      } else if |r| > 1 {
        assert all[..|all| - 1] == r[..|r| - 1];
        assert Joined(r) == Joined(r[..|r| - 1]) + "\n" + r[|r| - 1];
      }
    }
  }

  /** The lines after one more character of the last line. */
  function Extended(lines: seq<string>, c: char): seq<string>
    requires lines != []
  {
    lines[..|lines| - 1] + [lines[|lines| - 1] + [c]]
  }

  /** A newline separates the lines before it from those after it. */
  lemma {:induction false} LinesSplit(a: string, b: string)
    ensures Lines(a + "\n" + b) == Lines(a) + Lines(b)
  {
    if b == "" {
      assert a + "\n" + b == a + "\n";
    } else {
      LinesSplit(a, b[..|b| - 1]);
      LinesSplitStep(a, b[..|b| - 1], b[|b| - 1]);
      assert b[..|b| - 1] + [b[|b| - 1]] == b;
    }
  }

  lemma {:induction false} LinesSplitStep(a: string, b: string, c: char)
    requires Lines(a + "\n" + b) == Lines(a) + Lines(b)
    ensures Lines(a + "\n" + (b + [c])) == Lines(a) + Lines(b + [c])
  {
    Assoc(a + "\n", b, [c]);
    Assoc(Lines(a), Lines(b), [""]);
  }

  lemma {:induction false} OneLine(s: string)
    requires '\n' !in s
    ensures Lines(s) == [s]
  {
    if s != "" {
      OneLine(s[..|s| - 1]);
      assert s == s[..|s| - 1] + [s[|s| - 1]];
    }
  }

  /** Every line is made of the text's own characters. */
  lemma {:induction false} LinesWithout(s: string, c: char)
    requires c !in s
    ensures forall k :: 0 <= k < |Lines(s)| ==> c !in Lines(s)[k]
  {
    if s != "" { LinesWithout(s[..|s| - 1], c); }
  }

  // ------------------------------------------------------------ the lines of the message

  /** The lines one item writes. */
  function ItemLines(style: Style, nonce: string, item: Item): seq<string> {
    match item
    case Sent(_, _, _) => []
    case Note(n, kind, why) => ["[" + style.note(n, kind, why) + "]"]
    case Block(n, name, body, cut) =>
      ["", IntroLine(style, nonce, n)] + BlockLines(nonce, n, name, body)
      + if cut then ["[" + style.note(n, Document, Truncated(|body|)) + "]"] else []
  }

  function BlockLines(nonce: string, n: nat, name: string, body: string): seq<string> {
    [Marker(n, nonce, "begin"), "name: " + name] + Lines(body) + [Marker(n, nonce, "end")]
  }

  function AllLines(style: Style, nonce: string, items: seq<Item>): seq<string> {
    if items == [] then [] else ItemLines(style, nonce, items[0]) + AllLines(style, nonce, items[1..])
  }

  lemma {:induction false} AllLinesPush(style: Style, nonce: string, items: seq<Item>, item: Item)
    ensures AllLines(style, nonce, items + [item]) == AllLines(style, nonce, items) + ItemLines(style, nonce, item)
  {
    if items == [] {
      assert AllLines(style, nonce, [item][1..]) == [];
    } else {
      assert (items + [item])[1..] == items[1..] + [item];
      AllLinesPush(style, nonce, items[1..], item);
    }
  }

  /** What a name and a text look like once sanitised. */
  ghost predicate CleanItem(item: Item) {
    item.Block? ==> Clean(item.name) && OPEN !in item.body && CLOSE !in item.body
  }

  lemma {:induction false} DigitsAreClean(n: nat)
    ensures Clean(Decimal(n))
  {
    if n >= 10 { DigitsAreClean(n / 10); }
  }

  /** A marker is one line. */
  lemma {:induction false} MarkerIsOneLine(n: nat, nonce: string, word: string)
    requires Clean(nonce) && (word == "begin" || word == "end")
    ensures '\n' !in Marker(n, nonce, word) && IsMarker(Marker(n, nonce, word))
  {
    DigitsAreClean(n);
  }

  lemma {:induction false} IntroIsOneLine(style: Style, nonce: string, n: nat)
    requires Clean(nonce) && StyleOk(style)
    ensures '\n' !in IntroLine(style, nonce, n) && !IsMarker(IntroLine(style, nonce, n))
  {
    MarkerIsOneLine(n, nonce, "end");
    assert Clean(style.before(n)) && Clean(style.after(n));
  }

  lemma {:induction false} NoteIsOneLine(style: Style, n: nat, kind: Kind, why: Why)
    requires StyleOk(style)
    ensures '\n' !in NoteLine(style, n, kind, why) && !IsMarker(NoteLine(style, n, kind, why))
  {
    assert Clean(style.note(n, kind, why));
  }

  /** Adding a line to a text adds it to its lines. */
  lemma {:induction false} AddLine(text: string, line: string)
    requires '\n' !in line
    ensures Lines(text + "\n" + line) == Lines(text) + [line]
  {
    LinesSplit(text, line);
    OneLine(line);
  }

  lemma {:induction false} BlockTextLines(text: string, nonce: string, n: nat, name: string, body: string)
    requires Clean(nonce) && Clean(name)
    ensures var begin, end := Marker(n, nonce, "begin"), Marker(n, nonce, "end");
            Lines(text + "\n" + begin + "\nname: " + name + "\n" + body + "\n" + end) ==
              Lines(text) + BlockLines(nonce, n, name, body)
  {
    MarkerIsOneLine(n, nonce, "begin");
    MarkerIsOneLine(n, nonce, "end");
    FourLines(text, Marker(n, nonce, "begin"), name, body, Marker(n, nonce, "end"));
  }

  lemma {:induction false} FourLines(text: string, begin: string, name: string, body: string, end: string)
    requires '\n' !in begin && '\n' !in name && '\n' !in end
    ensures Lines(text + "\n" + begin + "\nname: " + name + "\n" + body + "\n" + end) ==
            Lines(text) + ([begin, "name: " + name] + Lines(body) + [end])
  {
    var t1 := text + "\n" + begin;
    var t2 := t1 + "\n" + ("name: " + name);
    AddLine(text, begin);
    AddLine(t1, "name: " + name);
    LinesSplit(t2, body);
    AddLine(t2 + "\n" + body, end);
    NameLine(t1, name);
    FourParts(Lines(text), begin, "name: " + name, Lines(body), end);
  }

  lemma {:induction false} NameLine(text: string, name: string)
    ensures text + "\n" + ("name: " + name) == text + "\nname: " + name
  {
    assert "\n" + "name: " == "\nname: ";
    Assoc(text, "\n", "name: " + name);
    Assoc("\n", "name: ", name);
    Assoc(text, "\nname: ", name);
  }

  lemma {:induction false} FourParts(a: seq<string>, b: string, c: string, d: seq<string>, e: string)
    ensures ((a + [b]) + [c]) + d + [e] == a + ([b, c] + d + [e])
  {
  }

  /** Each item adds exactly its own lines, after whatever is there. */
  lemma {:induction false} ItemAddsLines(style: Style, nonce: string, text: string, item: Item)
    requires Clean(nonce) && StyleOk(style) && CleanItem(item)
    ensures Lines(text + ItemText(style, nonce, item)) == Lines(text) + ItemLines(style, nonce, item)
  {
    match item {
      case Sent(_, _, _) => assert text + "" == text;
      case Note(n, kind, why) =>
        NoteIsOneLine(style, n, kind, why);
        AddLine(text, NoteLine(style, n, kind, why));
        assert text + ("\n" + NoteLine(style, n, kind, why)) == text + "\n" + NoteLine(style, n, kind, why);
      case Block(n, name, body, cut) => BlockAddsLines(style, nonce, text, n, name, body, cut);
    }
  }

  lemma {:induction false} BlockAddsLines(style: Style, nonce: string, text: string, n: nat, name: string, body: string, cut: bool)
    requires Clean(nonce) && StyleOk(style) && Clean(name)
    ensures Lines(text + ItemText(style, nonce, Block(n, name, body, cut))) ==
            Lines(text) + ItemLines(style, nonce, Block(n, name, body, cut))
  {
    var intro, note := IntroLine(style, nonce, n), NoteLine(style, n, Document, Truncated(|body|));
    var plain := BlockText(style, nonce, n, name, body);
    var lines := ["", intro] + BlockLines(nonce, n, name, body);
    PlainBlockLines(style, nonce, text, n, name, body);
    if cut {
      NoteIsOneLine(style, n, Document, Truncated(|body|));
      AddLine(text + plain, note);
      Assoc(text + plain, "\n", note);
      Assoc(text, plain, "\n" + note);
      Assoc(Lines(text), lines, [note]);
    } else {
      assert plain + "" == plain && lines + [] == lines;
    }
  }

  lemma {:induction false} PlainBlockLines(style: Style, nonce: string, text: string, n: nat, name: string, body: string)
    requires Clean(nonce) && StyleOk(style) && Clean(name)
    ensures Lines(text + BlockText(style, nonce, n, name, body)) ==
            Lines(text) + (["", IntroLine(style, nonce, n)] + BlockLines(nonce, n, name, body))
  {
    var intro := IntroLine(style, nonce, n);
    var t1 := text + "\n" + "";
    var t2 := t1 + "\n" + intro;
    AddLine(text, "");
    IntroIsOneLine(style, nonce, n);
    AddLine(t1, intro);
    BlockTextLines(t2, nonce, n, name, body);
    assert text + ("\n\n" + intro) == t2;
    Spread(text, "\n\n" + intro, Marker(n, nonce, "begin"), name, body, Marker(n, nonce, "end"));
    assert Lines(t2) == Lines(text) + ["", intro];
    Assoc(Lines(text), ["", intro], BlockLines(nonce, n, name, body));
  }

  lemma {:induction false} Spread(text: string, intro: string, begin: string, name: string, body: string, end: string)
    ensures text + (intro + "\n" + begin + "\nname: " + name + "\n" + body + "\n" + end) ==
            (text + intro) + "\n" + begin + "\nname: " + name + "\n" + body + "\n" + end
  {
    var b0 := intro + "\n" + begin;
    var b1 := b0 + "\nname: " + name;
    var b2 := b1 + "\n" + body;
    Assoc(text, b2 + "\n", end);
    Assoc(text, b2, "\n");
    Assoc(text, b1 + "\n", body);
    Assoc(text, b1, "\n");
    Assoc(text, b0 + "\nname: ", name);
    Assoc(text, b0, "\nname: ");
    Assoc(text, intro + "\n", begin);
    Assoc(text, intro, "\n");
  }

  ghost predicate AllClean(items: seq<Item>) {
    forall i :: 0 <= i < |items| ==> CleanItem(items[i])
  }

  lemma {:induction false} RenderLines(style: Style, nonce: string, items: seq<Item>)
    requires Clean(nonce) && StyleOk(style) && AllClean(items)
    ensures Lines(Render(style, nonce, items)) == [""] + AllLines(style, nonce, items)
  {
    if items == [] {
      OneLine("");
    } else {
      SplitLast(items);
      RenderLines(style, nonce, items[..|items| - 1]);
      RenderPush(style, nonce, items[..|items| - 1], items[|items| - 1]);
    }
  }

  lemma {:induction false} RenderPush(style: Style, nonce: string, pre: seq<Item>, item: Item)
    requires Clean(nonce) && StyleOk(style) && CleanItem(item)
    requires Lines(Render(style, nonce, pre)) == [""] + AllLines(style, nonce, pre)
    ensures Lines(Render(style, nonce, pre + [item])) == [""] + AllLines(style, nonce, pre + [item])
  {
    assert (pre + [item])[..|pre|] == pre;
    AllLinesPush(style, nonce, pre, item);
    ItemAddsLines(style, nonce, Render(style, nonce, pre), item);
    Assoc([""], AllLines(style, nonce, pre), ItemLines(style, nonce, item));
  }

  // ------------------------------------------------------------ reading blocks back

  /** A line that a reader takes for a marker. */
  predicate IsMarker(line: string) {
    line != "" && line[0] == OPEN
  }

  /** A block as read back: its two marker lines, the name and the text between them. */
  datatype Doc = Doc(begin: string, name: string, body: string, end: string)

  function NextMarker(lines: seq<string>, from: nat): (k: nat)
    requires from <= |lines|
    ensures from <= k <= |lines| && (k < |lines| ==> IsMarker(lines[k]))
    ensures forall j :: from <= j < k ==> !IsMarker(lines[j])
    decreases |lines| - from
  {
    if from == |lines| || IsMarker(lines[from]) then from else NextMarker(lines, from + 1)
  }

  /** A reader that knows only the delimiter: a block runs from one marker line to the next. */
  function ReadBlocks(lines: seq<string>): seq<Doc> {
    if lines == [] then []
    else if !IsMarker(lines[0]) then ReadBlocks(lines[1..])
    else
      var e := NextMarker(lines, 1);
      if e == |lines| || e < 3 || |lines[1]| < 6 then []
      else [Doc(lines[0], lines[1][6..], Joined(lines[2..e]), lines[e])] + ReadBlocks(lines[e + 1..])
  }

  /** The marker lines, in order. */
  function MarkerLines(lines: seq<string>): seq<string> {
    if lines == [] then [] else (if IsMarker(lines[0]) then [lines[0]] else []) + MarkerLines(lines[1..])
  }

  /** What an item must read back as. */
  function DocOf(nonce: string, item: Item): seq<Doc> {
    if item.Block? then [Doc(Marker(item.n, nonce, "begin"), item.name, item.body, Marker(item.n, nonce, "end"))] else []
  }

  function Docs(nonce: string, items: seq<Item>): seq<Doc> {
    if items == [] then [] else DocOf(nonce, items[0]) + Docs(nonce, items[1..])
  }

  /** The begin and end markers of some blocks, in order. */
  function MarkersOf(docs: seq<Doc>): seq<string> {
    if docs == [] then [] else [docs[0].begin, docs[0].end] + MarkersOf(docs[1..])
  }

  lemma {:induction false} SkipLines(plain: seq<string>, rest: seq<string>)
    requires forall k :: 0 <= k < |plain| ==> !IsMarker(plain[k])
    ensures ReadBlocks(plain + rest) == ReadBlocks(rest) && MarkerLines(plain + rest) == MarkerLines(rest)
  {
    if plain == [] {
      assert plain + rest == rest;
    } else {
      SkipLines(plain[1..], rest);
      assert plain + rest == [plain[0]] + (plain[1..] + rest);
    }
  }

  lemma {:induction false} ReadOne(begin: string, name: string, body: seq<string>, end: string, rest: seq<string>)
    requires IsMarker(begin) && IsMarker(end) && body != []
    requires forall k :: 0 <= k < |body| ==> !IsMarker(body[k])
    ensures var lines := [begin, "name: " + name] + body + [end] + rest;
            && ReadBlocks(lines) == [Doc(begin, name, Joined(body), end)] + ReadBlocks(rest)
            && MarkerLines(lines) == [begin, end] + MarkerLines(rest)
  {
    var named := "name: " + name;
    var lines := [begin, named] + body + [end] + rest;
    NextAfterBody(begin, named, body, end, rest);
    assert named[6..] == name;
    var plain := [named] + body;
    assert lines[1..] == plain + ([end] + rest);
    SkipLines(plain, [end] + rest);
    assert ([end] + rest)[1..] == rest;
  }

  lemma {:induction false} NextAfterBody(begin: string, named: string, body: seq<string>, end: string, rest: seq<string>)
    requires IsMarker(end) && !IsMarker(named) && forall k :: 0 <= k < |body| ==> !IsMarker(body[k])
    ensures var lines, e := [begin, named] + body + [end] + rest, 2 + |body|;
            && NextMarker(lines, 1) == e && lines[0] == begin && lines[1] == named
            && lines[2..e] == body && lines[e] == end && lines[e + 1..] == rest
  {
    var lines, e := [begin, named] + body + [end] + rest, 2 + |body|;
    assert lines[e] == end;
    assert forall j :: 2 <= j < e ==> lines[j] == body[j - 2];
    assert lines[2..e] == body && lines[e + 1..] == rest;
  }

  lemma {:induction false} ReadItem(style: Style, nonce: string, item: Item, rest: seq<string>)
    requires Clean(nonce) && StyleOk(style) && CleanItem(item)
    ensures ReadBlocks(ItemLines(style, nonce, item) + rest) == DocOf(nonce, item) + ReadBlocks(rest)
    ensures MarkerLines(ItemLines(style, nonce, item) + rest) == MarkersOf(DocOf(nonce, item)) + MarkerLines(rest)
  {
    match item {
      case Sent(_, _, _) => assert [] + rest == rest;
      case Note(n, kind, why) =>
        NoteIsOneLine(style, n, kind, why);
      case Block(n, name, body, cut) => ReadBlock(style, nonce, n, name, body, cut, rest);
    }
  }

  lemma {:induction false} ReadBlock(style: Style, nonce: string, n: nat, name: string, body: string, cut: bool, rest: seq<string>)
    requires Clean(nonce) && StyleOk(style) && OPEN !in body
    ensures var item := Block(n, name, body, cut);
            && ReadBlocks(ItemLines(style, nonce, item) + rest) == DocOf(nonce, item) + ReadBlocks(rest)
            && MarkerLines(ItemLines(style, nonce, item) + rest) == MarkersOf(DocOf(nonce, item)) + MarkerLines(rest)
  {
    var note := NoteLine(style, n, Document, Truncated(|body|));
    var tail := if cut then [note] else [];
    var head, block := ["", IntroLine(style, nonce, n)], BlockLines(nonce, n, name, body);
    NoteIsOneLine(style, n, Document, Truncated(|body|));
    IntroIsOneLine(style, nonce, n);
    SkipLines(tail, rest);
    ReadBlockLines(nonce, n, name, body, tail + rest);
    SkipLines(head, block + (tail + rest));
    Assoc(head, block, tail + rest);
    Assoc(head + block, tail, rest);
    MarkersOfBlock(nonce, Block(n, name, body, cut));
  }

  lemma {:induction false} MarkersOfBlock(nonce: string, item: Item)
    requires item.Block?
    ensures MarkersOf(DocOf(nonce, item)) == [Marker(item.n, nonce, "begin"), Marker(item.n, nonce, "end")]
  {
    assert DocOf(nonce, item)[1..] == [];
  }

  lemma {:induction false} ReadBlockLines(nonce: string, n: nat, name: string, body: string, rest: seq<string>)
    requires Clean(nonce) && OPEN !in body
    ensures var begin, end := Marker(n, nonce, "begin"), Marker(n, nonce, "end");
            && ReadBlocks(BlockLines(nonce, n, name, body) + rest) == [Doc(begin, name, body, end)] + ReadBlocks(rest)
            && MarkerLines(BlockLines(nonce, n, name, body) + rest) == [begin, end] + MarkerLines(rest)
  {
    MarkerIsOneLine(n, nonce, "begin");
    MarkerIsOneLine(n, nonce, "end");
    LinesWithout(body, OPEN);
    JoinedLines(body);
    ReadOne(Marker(n, nonce, "begin"), name, Lines(body), Marker(n, nonce, "end"), rest);
  }

  lemma {:induction false} ReadAll(style: Style, nonce: string, items: seq<Item>)
    requires Clean(nonce) && StyleOk(style) && AllClean(items)
    ensures ReadBlocks(AllLines(style, nonce, items)) == Docs(nonce, items)
    ensures MarkerLines(AllLines(style, nonce, items)) == MarkersOf(Docs(nonce, items))
  {
    if items != [] {
      ReadAll(style, nonce, items[1..]);
      ReadItem(style, nonce, items[0], AllLines(style, nonce, items[1..]));
      MarkersOfFirst(nonce, items[0], Docs(nonce, items[1..]));
    }
  }

  lemma {:induction false} MarkersOfFirst(nonce: string, item: Item, docs: seq<Doc>)
    ensures MarkersOf(DocOf(nonce, item) + docs) == MarkersOf(DocOf(nonce, item)) + MarkersOf(docs)
  {
    if item.Block? {
      assert (DocOf(nonce, item) + docs)[1..] == docs && DocOf(nonce, item)[1..] == [];
    } else {
      assert DocOf(nonce, item) + docs == docs;
    }
  }

  /** Text before the first space is read off the joined text. */
  lemma {:induction false} FirstSpace(a: string, b: string, x: string, y: string)
    requires ' ' !in a && ' ' !in b && a + " " + x == b + " " + y
    ensures a == b && x == y
  {
    var s := a + " " + x;
    assert s[|a|] == ' ' && s[|b|] == ' ' && s[..|a|] == a && s[..|b|] == b;
    assert forall k :: 0 <= k < |a| ==> s[k] in a;
    assert forall k :: 0 <= k < |b| ==> s[k] in b;
    assert |a| == |b|;
    assert a == (a + " " + x)[..|a|] && b == (b + " " + y)[..|b|];
    assert x == (a + " " + x)[|a| + 1..] && y == (b + " " + y)[|b| + 1..];
  }

  lemma {:induction false} DigitsHaveNoSpace(n: nat)
    ensures ' ' !in Decimal(n) && Decimal(n) != ""
  {
    if n >= 10 { DigitsHaveNoSpace(n / 10); }
  }

  lemma {:induction false} DecimalIsInjective(n: nat, m: nat)
    requires Decimal(n) == Decimal(m)
    ensures n == m
  {
    DigitsHaveNoSpace(n / 10);
    DigitsHaveNoSpace(m / 10);
    var d := Decimal(n);
    assert d[|d| - 1] == ('0' as int + n % 10) as char && d[|d| - 1] == ('0' as int + m % 10) as char;
    if n >= 10 && m >= 10 {
      assert Decimal(n / 10) == d[..|d| - 1] && Decimal(m / 10) == d[..|d| - 1];
      DecimalIsInjective(n / 10, m / 10);
    }
  }

  /** A marker says which block, which message and which end it belongs to. */
  lemma {:induction false} MarkersAreDistinct(n: nat, nonce: string, word: string, m: nat, other: string, name: string)
    requires ' ' !in nonce && ' ' !in other && Marker(n, nonce, word) == Marker(m, other, name)
    ensures n == m && nonce == other && word == name
  {
    MarkerParts(n, nonce, word);
    MarkerParts(m, other, name);
    DigitsHaveNoSpace(n);
    DigitsHaveNoSpace(m);
    var a, b := nonce + " " + word, other + " " + name;
    FirstSpace(Decimal(n), Decimal(m), a, b);
    DecimalIsInjective(n, m);
    FirstSpace(nonce, other, word, name);
  }

  lemma {:induction false} MarkerParts(n: nat, nonce: string, word: string)
    ensures var s, k := Marker(n, nonce, word), |"attached document "| + 1;
            |s| > k && s[k..|s| - 1] == Decimal(n) + " " + (nonce + " " + word)
  {
    var head, text := [OPEN] + "attached document ", Decimal(n) + " " + (nonce + " " + word);
    assert Marker(n, nonce, word) == head + text + [CLOSE];
  }

  /** The line before a block quotes the end marker of that block. */
  lemma {:induction false} IntroQuotesTheEnd(style: Style, nonce: string, n: nat)
    requires StyleOk(style)
    ensures exists a, b :: Clean(a) && Clean(b) && IntroLine(style, nonce, n) == a + Marker(n, nonce, "end") + b
  {
    var a, b := "[" + style.before(n), style.after(n) + "]";
    assert Clean(style.before(n)) && Clean(style.after(n));
    assert Clean(a) && Clean(b);
    assert IntroLine(style, nonce, n) == a + Marker(n, nonce, "end") + b;
  }

  /**
   No name and no text can forge a marker: the lines that start with the delimiter are exactly the
   begin and end lines written for the blocks, in order, and splitting on them gives back every
   name and every text.
   */
  lemma {:induction false} Unforgeable(style: Style, nonce: string, items: seq<Item>)
    requires Clean(nonce) && StyleOk(style) && AllClean(items)
    ensures var lines := Lines(Render(style, nonce, items));
            && MarkerLines(lines) == MarkersOf(Docs(nonce, items))
            && ReadBlocks(lines) == Docs(nonce, items)
  {
    RenderLines(style, nonce, items);
    ReadAll(style, nonce, items);
  }
}
