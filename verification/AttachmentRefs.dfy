/**
 Attachment references of a message: which entries of the flow node's list become references,
 and why the others do not. Unicode categories are a parameter.
 */
module AttachmentRefs {
  import opened Common

  const MAX_ATTACHMENTS: nat := 5
  const MAX_NAME_CHARS: nat := 120
  const ARTIFACT_SCHEME := "artifact://"
  const ARTIFACT_ID_LEN: nat := 64
  const U64_MAX: nat := 0xFFFF_FFFF_FFFF_FFFF

  /** The foreign facts about characters: which are stripped everywhere, and which are white space. */
  datatype CharClass = CharClass(stripped: char -> bool, white: char -> bool)

  datatype Kind = Image | Document

  datatype Ref = Ref(id: string, mime: string, name: Option<string>, size: Option<nat>, kind: Kind, textRef: Option<string>)

  datatype SkipCode = Duplicate | InvalidReference | OverLimit | NotStored | Host(code: Option<string>)

  predicate IsHex(c: char) {
    '0' <= c <= '9' || 'a' <= c <= 'f'
  }

  predicate IsArtifactRef(s: string) {
    && ARTIFACT_SCHEME <= s
    && |s| == |ARTIFACT_SCHEME| + ARTIFACT_ID_LEN
    && forall i :: |ARTIFACT_SCHEME| <= i < |s| ==> IsHex(s[i])
  }

  // ------------------------------------------------------------ display text

  function Filtered(s: string, drop: char -> bool): (r: string)
    ensures forall i :: 0 <= i < |r| ==> !drop(r[i]) && r[i] in s
  {
    if s == "" then "" else Filtered(s[..|s| - 1], drop) + if drop(s[|s| - 1]) then "" else [s[|s| - 1]]
  }

  /** A display name: nothing `drop` names, at most 120 characters, no white space at the ends. */
  function DisplayName(white: char -> bool, drop: char -> bool, raw: string): (r: string)
    ensures |r| <= MAX_NAME_CHARS
    ensures forall i :: 0 <= i < |r| ==> !drop(r[i]) && r[i] in raw
    ensures r != "" ==> !white(r[0]) && !white(r[|r| - 1])
  {
    var cleaned := Filtered(raw, drop);
    Trim(white, cleaned[..Min(|cleaned|, MAX_NAME_CHARS)])
  }

  lemma {:induction false} NothingFiltered(s: string, drop: char -> bool)
    requires forall i :: 0 <= i < |s| ==> !drop(s[i])
    ensures Filtered(s, drop) == s
  {
    if s != "" {
      NothingFiltered(s[..|s| - 1], drop);
      SplitLast(s);
    }
  }

  lemma {:induction false} FilteredAppend(a: string, b: string, drop: char -> bool)
    ensures Filtered(a + b, drop) == Filtered(a, drop) + Filtered(b, drop)
  {
    if b == "" {
      assert a + b == a && Filtered(a, drop) + "" == Filtered(a, drop);
    } else {
      assert (a + b)[..|a + b| - 1] == a + b[..|b| - 1];
      FilteredAppend(a, b[..|b| - 1], drop);
    }
  }

  /** A clean name of at most 120 characters is kept as it is. */
  lemma {:induction false} CleanStays(white: char -> bool, drop: char -> bool, name: string)
    requires Tight(white, name) && |name| <= 120 && forall i :: 0 <= i < |name| ==> !drop(name[i])
    ensures DisplayName(white, drop, name) == name
  {
    NothingFiltered(name, drop);
    assert name[..|name|] == name && "" + name + "" == name;
    TrimIs(white, "", name, "");
  }

  /** What is dropped from a name leaves no trace, and white space around the rest goes. */
  lemma {:induction false} DroppedLeavesNoTrace(white: char -> bool, drop: char -> bool, a: string, c: char, b: string)
    requires drop(c)
    ensures DisplayName(white, drop, a + [c] + b) == DisplayName(white, drop, a + b)
  {
    FilteredOut(a, c, b, drop);
  }

  lemma {:induction false} FilteredOut(a: string, c: char, b: string, drop: char -> bool)
    requires drop(c)
    ensures Filtered(a + [c] + b, drop) == Filtered(a + b, drop)
  {
    FilteredAppend(a + [c], b, drop);
    FilteredAppend(a, [c], drop);
    FilteredAppend(a, b, drop);
    assert [c][..0] == "" && Filtered([c], drop) == "";
    assert Filtered(a, drop) + "" == Filtered(a, drop);
  }

  // ------------------------------------------------------------ one entry

  datatype Entry = Use(ref: Ref) | Skipped(code: SkipCode)

  function StringAt(v: Option<Json>, key: string): Option<string> {
    if v.None? then None
    else
      var m := v.value.Get(key);
      if m.Some? && m.value.JStr? then Some(m.value.s) else None
  }

  function UrlOf(item: Json): string {
    var url := StringAt(Some(item), "url");
    if url.Some? then url.value else ""
  }

  function KindOf(meta: Option<Json>, mime: string): Kind {
    match StringAt(meta, "kind")
    case Some("image") => Image
    case Some("document") => Document
    case _ => if "image/" <= mime then Image else Document
  }

  function HostCode(note: Option<Json>): SkipCode {
    var code := StringAt(note, "code");
    if code.Some? then Host(code) else if StringAt(note, "message").Some? then Host(None) else NotStored
  }

  function MakeRef(cls: CharClass, item: Json, meta: Option<Json>): Ref {
    var mime := StringAt(Some(item), "mime_type");
    var m := if mime.Some? then mime.value else "application/octet-stream";
    var text := StringAt(meta, "text_ref");
    var raw := StringAt(Some(item), "name");
    var name := if raw.Some? then DisplayName(cls.white, cls.stripped, raw.value) else "";
    var size := item.Get("size_bytes");
    Ref(UrlOf(item), m, if name == "" then None else Some(name),
        if size.Some? && size.value.JNum? && 0 <= size.value.n <= U64_MAX then Some(size.value.n) else None,
        KindOf(meta, m), if text.Some? && IsArtifactRef(text.value) then text else None)
  }

  function RefIds(refs: seq<Ref>): (ids: seq<string>)
    ensures |ids| == |refs| && forall i :: 0 <= i < |refs| ==> ids[i] == refs[i].id
  {
    seq(|refs|, i requires 0 <= i < |refs| => refs[i].id)
  }

  /** What becomes of one entry, given the references taken before it. */
  function Classify(cls: CharClass, refs: seq<Ref>, item: Json, meta: Option<Json>, note: Option<Json>): Entry {
    var url := UrlOf(item);
    if ARTIFACT_SCHEME <= url && !IsArtifactRef(url) then Skipped(InvalidReference)
    else if !IsArtifactRef(url) then Skipped(HostCode(note))
    else if url in RefIds(refs) then Skipped(Duplicate)
    else if |refs| >= MAX_ATTACHMENTS then Skipped(OverLimit)
    else Use(MakeRef(cls, item, meta))
  }

  // ------------------------------------------------------------ the whole list

  function At(list: Option<seq<Json>>, i: nat): Option<Json> {
    if list.Some? && i < |list.value| then Some(list.value[i]) else None
  }

  function AsArray(v: Json): Option<seq<Json>> {
    if v.JArr? then Some(v.items) else None
  }

  /** One verdict per entry, in order. */
  function Entries(cls: CharClass, list: seq<Json>, meta: Json, notes: Json): (es: seq<Entry>)
    ensures |es| == |list|
  {
    if list == [] then []
    else
      var n := |list| - 1;
      var before := Entries(cls, list[..n], meta, notes);
      before + [Classify(cls, Refs(before), list[n], At(AsArray(meta), n), At(AsArray(notes), n))]
  }

  function Refs(es: seq<Entry>): seq<Ref> {
    if es == [] then [] else Refs(es[..|es| - 1]) + if es[|es| - 1].Use? then [es[|es| - 1].ref] else []
  }

  function Skips(es: seq<Entry>): seq<SkipCode> {
    if es == [] then [] else Skips(es[..|es| - 1]) + if es[|es| - 1].Skipped? then [es[|es| - 1].code] else []
  }

  lemma {:induction false} PushEntry(es: seq<Entry>, e: Entry)
    ensures Refs(es + [e]) == Refs(es) + if e.Use? then [e.ref] else []
    ensures Skips(es + [e]) == Skips(es) + if e.Skipped? then [e.code] else []
  {
    assert (es + [e])[..|es|] == es;
  }

  lemma {:induction false} NextEntry(cls: CharClass, list: seq<Json>, meta: Json, notes: Json, n: nat)
    requires n < |list|
    ensures var before := Entries(cls, list[..n], meta, notes);
            Entries(cls, list[..n + 1], meta, notes) ==
              before + [Classify(cls, Refs(before), list[n], At(AsArray(meta), n), At(AsArray(notes), n))]
  {
    assert list[..n + 1][..n] == list[..n];
  }

  method ParseFlowAttachments(cls: CharClass, attachments: Json, meta: Json, notes: Json)
    returns (refs: seq<Ref>, skips: seq<SkipCode>)
    ensures var list := if attachments.JArr? then attachments.items else [];
            refs == Refs(Entries(cls, list, meta, notes)) && skips == Skips(Entries(cls, list, meta, notes))
  {
    refs, skips := [], [];
    if !attachments.JArr? { return; }
    var list := attachments.items;
    for index := 0 to |list|
      invariant refs == Refs(Entries(cls, list[..index], meta, notes))
      invariant skips == Skips(Entries(cls, list[..index], meta, notes))
    {
      var e := Classify(cls, refs, list[index], At(AsArray(meta), index), At(AsArray(notes), index));
      NextEntry(cls, list, meta, notes, index);
      PushEntry(Entries(cls, list[..index], meta, notes), e);
      if e.Use? { refs := refs + [e.ref]; } else { skips := skips + [e.code]; }
    }
    assert list[..|list|] == list;
  }

  // ------------------------------------------------------------ what the references are

  /** The valid references of a list, in order and with repetitions. */
  function ValidUrls(list: seq<Json>): seq<string> {
    if list == [] then []
    else
      var url := UrlOf(list[|list| - 1]);
      ValidUrls(list[..|list| - 1]) + if IsArtifactRef(url) then [url] else []
  }

  /** First occurrences only. */
  function FirstDistinct(urls: seq<string>): seq<string> {
    if urls == [] then []
    else
      var before, u := FirstDistinct(urls[..|urls| - 1]), urls[|urls| - 1];
      if u in before then before else before + [u]
  }

  function Take(urls: seq<string>, n: nat): seq<string> {
    urls[..Min(|urls|, n)]
  }

  /**
   The references are the first five distinct valid ones in order, and every entry gives exactly
   one reference or one skip code.
   */
  lemma {:induction false} FirstFiveDistinct(cls: CharClass, list: seq<Json>, meta: Json, notes: Json)
    ensures var es := Entries(cls, list, meta, notes);
            && RefIds(Refs(es)) == Take(FirstDistinct(ValidUrls(list)), 5)
            && |Refs(es)| + |Skips(es)| == |list|
            && |Refs(es)| <= 5
  {
    if list != [] {
      var n := |list| - 1;
      FirstFiveDistinct(cls, list[..n], meta, notes);
      var before, es := Entries(cls, list[..n], meta, notes), Entries(cls, list, meta, notes);
      PushEntry(before, es[n]);
      NextRef(cls, Refs(before), list[..n], list[n], At(AsArray(meta), n), At(AsArray(notes), n));
      SplitLast(list);
    }
  }

  lemma {:induction false} NextRef(cls: CharClass, refs: seq<Ref>, list: seq<Json>, item: Json, meta: Option<Json>, note: Option<Json>)
    requires RefIds(refs) == Take(FirstDistinct(ValidUrls(list)), MAX_ATTACHMENTS)
    ensures var e := Classify(cls, refs, item, meta, note);
            && RefIds(refs + if e.Use? then [e.ref] else []) == Take(FirstDistinct(ValidUrls(list + [item])), MAX_ATTACHMENTS)
            && (e.Use? ==> |refs| < MAX_ATTACHMENTS)
  {
    var url, e := UrlOf(item), Classify(cls, refs, item, meta, note);
    NextUrl(refs, ValidUrls(list), url);
    assert (list + [item])[..|list|] == list;
    if e.Use? { IdsPush(refs, e.ref); } else { assert refs + [] == refs; }
    if !IsArtifactRef(url) { assert ValidUrls(list) + [] == ValidUrls(list); }
  }

  lemma {:induction false} IdsPush(refs: seq<Ref>, r: Ref)
    ensures RefIds(refs + [r]) == RefIds(refs) + [r.id]
  {
  }

  /** One more valid reference: kept exactly when it is new and there is room. */
  lemma {:induction false} NextUrl(refs: seq<Ref>, urls: seq<string>, url: string)
    requires RefIds(refs) == Take(FirstDistinct(urls), MAX_ATTACHMENTS)
    ensures Take(FirstDistinct(urls + [url]), MAX_ATTACHMENTS) ==
            RefIds(refs) + if url in RefIds(refs) || |refs| >= MAX_ATTACHMENTS then [] else [url]
  {
    assert (urls + [url])[..|urls|] == urls;
    var d := FirstDistinct(urls);
    if url in d && |d| <= MAX_ATTACHMENTS { assert Take(d, MAX_ATTACHMENTS) == d; }
  }

  // ------------------------------------------------------------ what one entry says

  /** A reference is the scheme and 64 lower-case hexadecimal digits. */
  lemma {:induction false} ArtifactRefIs(digits: string)
    ensures IsArtifactRef("artifact://" + digits) <==>
              |digits| == 64 && forall i :: 0 <= i < 64 ==> digits[i] in "0123456789abcdef"
    ensures forall s :: IsArtifactRef(s) ==> "artifact://" <= s
  {
    var s := "artifact://" + digits;
    assert forall i :: 11 <= i < |s| ==> s[i] == digits[i - 11];
    assert forall i :: 0 <= i < |digits| ==> digits[i] == s[i + 11];
    HexDigits();
  }

  lemma {:induction false} HexDigits()
    ensures forall c: char :: IsHex(c) <==> c in "0123456789abcdef"
  {
    forall c: char ensures IsHex(c) <==> c in "0123456789abcdef" {
      var all := "0123456789abcdef";
      if '0' <= c <= '9' { assert all[c as int - '0' as int] == c; }
      if 'a' <= c <= 'f' { assert all[10 + c as int - 'a' as int] == c; }
    }
  }

  /** The member is there and is this string. */
  predicate Says(v: Option<Json>, key: string, text: string) {
    v.Some? && v.value.JObj? && key in v.value.fields && v.value.fields[key] == JStr(text)
  }

  ghost predicate SaysNothing(v: Option<Json>, key: string) {
    forall text :: !Says(v, key, text)
  }

  /** The reference made of an entry, field by field. */
  ghost predicate RefSays(cls: CharClass, item: Json, meta: Option<Json>, r: Ref) {
    && Says(Some(item), "url", r.id) && IsArtifactRef(r.id)
    && (if SaysNothing(Some(item), "mime_type") then r.mime == "application/octet-stream" else Says(Some(item), "mime_type", r.mime))
    && (forall n :: r.size == Some(n) <==> item.JObj? && "size_bytes" in item.fields && item.fields["size_bytes"] == JNum(n) && 0 <= n <= U64_MAX)
    && (Says(meta, "kind", "image") ==> r.kind == Image)
    && (Says(meta, "kind", "document") ==> r.kind == Document)
    && (!Says(meta, "kind", "image") && !Says(meta, "kind", "document") ==> (r.kind == Image <==> "image/" <= r.mime))
    && (forall t :: r.textRef == Some(t) <==> Says(meta, "text_ref", t) && IsArtifactRef(t))
    && (SaysNothing(Some(item), "name") ==> r.name == None)
    && (forall name :: Says(Some(item), "name", name) ==>
          r.name == var shown := DisplayName(cls.white, cls.stripped, name); if shown == "" then None else Some(shown))
  }

  /** Why an entry was skipped: exactly what holds of it. */
  ghost predicate SkipSays(refs: seq<Ref>, item: Json, note: Option<Json>, code: SkipCode) {
    var url := UrlOf(item);
    match code
    case InvalidReference => "artifact://" <= url && !IsArtifactRef(url)
    case Duplicate => IsArtifactRef(url) && url in RefIds(refs)
    case OverLimit => IsArtifactRef(url) && url !in RefIds(refs) && |refs| >= 5
    case Host(Some(c)) => !("artifact://" <= url) && Says(note, "code", c)
    case Host(None) => !("artifact://" <= url) && SaysNothing(note, "code") && !SaysNothing(note, "message")
    case NotStored => !("artifact://" <= url) && SaysNothing(note, "code") && SaysNothing(note, "message")
  }

  lemma {:induction false} StringSays(v: Option<Json>, key: string)
    ensures StringAt(v, key).Some? ==> Says(v, key, StringAt(v, key).value) && !SaysNothing(v, key)
    ensures StringAt(v, key).None? ==> SaysNothing(v, key)
    ensures forall t :: Says(v, key, t) ==> StringAt(v, key) == Some(t)
  {
  }

  lemma {:induction false} ClassifySays(cls: CharClass, refs: seq<Ref>, item: Json, meta: Option<Json>, note: Option<Json>)
    ensures var e := Classify(cls, refs, item, meta, note);
            && (e.Use? ==> RefSays(cls, item, meta, e.ref) && |refs| < 5 && e.ref.id !in RefIds(refs))
            && (e.Skipped? ==> SkipSays(refs, item, note, e.code))
  {
    StringSays(Some(item), "url");
    var e := Classify(cls, refs, item, meta, note);
    if e.Use? {
      MakeRefSays(cls, item, meta);
    } else {
      StringSays(note, "code");
      StringSays(note, "message");
    }
  }

  lemma {:induction false} MakeRefSays(cls: CharClass, item: Json, meta: Option<Json>)
    requires IsArtifactRef(UrlOf(item))
    ensures RefSays(cls, item, meta, MakeRef(cls, item, meta))
  {
    StringSays(Some(item), "url");
    StringSays(Some(item), "mime_type");
    StringSays(Some(item), "name");
    StringSays(meta, "kind");
    StringSays(meta, "text_ref");
  }

  lemma {:induction false} EntryAt(cls: CharClass, list: seq<Json>, meta: Json, notes: Json, i: nat)
    requires i < |list|
    ensures Entries(cls, list, meta, notes)[i] == EntryFor(cls, list, meta, notes, i)
  {
    EntriesPrefix(cls, list, meta, notes, i + 1);
    NextEntry(cls, list, meta, notes, i);
    assert Entries(cls, list, meta, notes)[i] == Entries(cls, list, meta, notes)[..i + 1][i];
  }

  lemma {:induction false} EntriesPrefix(cls: CharClass, list: seq<Json>, meta: Json, notes: Json, n: nat)
    requires n <= |list|
    ensures Entries(cls, list, meta, notes)[..n] == Entries(cls, list[..n], meta, notes)
    decreases |list|
  {
    if n == |list| {
      assert list[..n] == list;
    } else {
      assert list[..|list| - 1][..n] == list[..n];
      EntriesPrefix(cls, list[..|list| - 1], meta, notes, n);
    }
  }

  ghost function EntryFor(cls: CharClass, list: seq<Json>, meta: Json, notes: Json, i: nat): Entry
    requires i < |list|
  {
    Classify(cls, Refs(Entries(cls, list[..i], meta, notes)), list[i], At(AsArray(meta), i), At(AsArray(notes), i))
  }

  /** Every entry is used or skipped as its own object, and the metadata and note at its index, say. */
  lemma {:induction false} EntrySays(cls: CharClass, list: seq<Json>, meta: Json, notes: Json, i: nat)
    requires i < |list|
    ensures var e, before := Entries(cls, list, meta, notes)[i], Refs(Entries(cls, list[..i], meta, notes));
            var m := if meta.JArr? && i < |meta.items| then Some(meta.items[i]) else None;
            var n := if notes.JArr? && i < |notes.items| then Some(notes.items[i]) else None;
            && (e.Use? ==> RefSays(cls, list[i], m, e.ref) && |before| < 5 && e.ref.id !in RefIds(before))
            && (e.Skipped? ==> SkipSays(before, list[i], n, e.code))
  {
    EntryAt(cls, list, meta, notes, i);
    ClassifySays(cls, Refs(Entries(cls, list[..i], meta, notes)), list[i], At(AsArray(meta), i), At(AsArray(notes), i));
  }
}
