/**
 Function names for the model: an `(extension id, tool name)` pair joined into one string, and
 the codec that keeps such names acceptable to providers and maps them back.
 */
module ToolNames {
  import opened Common

  // ------------------------------------------------------------ the plain encoding

  /** Every dot becomes `_DOT_`. */
  function Escape(s: string): string {
    if s == "" then "" else (if s[0] == '.' then "_DOT_" else [s[0]]) + Escape(s[1..])
  }

  /** Every `_DOT_`, from the left, becomes a dot. */
  function Unescape(s: string): string {
    if s == "" then ""
    else if "_DOT_" <= s then "." + Unescape(s[5..])
    else [s[0]] + Unescape(s[1..])
  }

  /** Position of the first `_FN_`. */
  function FindFn(s: string): (r: Option<nat>)
    ensures r.Some? ==> r.value + 4 <= |s|
  {
    if s == "" then None
    else if "_FN_" <= s then Some(0)
    else
      var r := FindFn(s[1..]);
      if r.None? then None else Some(r.value + 1)
  }

  function EncodeToolName(e: string, t: string): string {
    if e == "" then t else Escape(e) + "_FN_" + t
  }

  function SplitToolName(name: string): (string, string) {
    var at := FindFn(name);
    if at.None? then ("", name) else (Unescape(name[..at.value]), name[at.value + 4..])
  }

  // ------------------------------------------------------------ when it round-trips

  /** `s` goes on as `FN` and then ends or meets a separator. */
  predicate FnEnds(s: string) {
    s == "FN" || "FN_" <= s || "FN." <= s
  }

  /** Somewhere in the id, a `.` or `_` is followed by `FN` and another `.`, `_` or the end. */
  predicate FnClash(e: string) {
    e != "" && (((e[0] == '_' || e[0] == '.') && FnEnds(e[1..])) || FnClash(e[1..]))
  }

  /** Somewhere in the id, `_DOT` is followed by `_` or `.`. */
  predicate DotClash(e: string) {
    e != "" && ("_DOT_" <= e || "_DOT." <= e || DotClash(e[1..]))
  }

  /** The pairs that survive encoding and splitting. */
  predicate Faithful(e: string, t: string) {
    if e == "" then FindFn(t).None? else !FnClash(e) && !DotClash(e)
  }

  lemma {:induction false} EscapeDot(s: string)
    ensures "DOT_" <= Escape(s) <==> "DOT_" <= s || "DOT." <= s
  {
    EscapeStarts("DOT", s);
    assert "DOT" + "_" == "DOT_" && "DOT" + "." == "DOT.";
  }

  /** An underscore after some plain characters was an underscore or a dot before escaping. */
  lemma {:induction false} EscapeStarts(p: string, s: string)
    requires '_' !in p && '.' !in p
    ensures p + "_" <= Escape(s) <==> p + "_" <= s || p + "." <= s
  {
    if s == "" {
      assert Escape(s) == "";
    } else if p == "" {
      EscapeHead(s);
    } else {
      EscapeHead(s);
      PrefixHead(p + "_", Escape(s));
      PrefixHead(p + "_", s);
      PrefixHead(p + ".", s);
      assert (p + "_")[1..] == p[1..] + "_" && (p + ".")[1..] == p[1..] + ".";
      EscapeStarts(p[1..], s[1..]);
    }
  }

  lemma {:induction false} EscapeHead(s: string)
    requires s != ""
    ensures s[0] != '.' ==> |Escape(s)| > 0 && Escape(s)[0] == s[0] && Escape(s)[1..] == Escape(s[1..])
    ensures s[0] == '.' ==> "_DOT_" <= Escape(s) && Escape(s)[5..] == Escape(s[1..])
  {
  }

  /** Unescaping undoes escaping exactly for ids without a dot clash. */
  lemma {:induction false} UnescapeEscape(e: string)
    ensures Unescape(Escape(e)) == e <==> !DotClash(e)
  {
    if e != "" {
      UnescapeEscape(e[1..]);
      EscapeHead(e);
      if e[0] == '.' { UnescapeDot(e); } else { UnescapeOther(e); }
    }
  }

  lemma {:induction false} UnescapeDot(e: string)
    requires e != "" && e[0] == '.' && (Unescape(Escape(e[1..])) == e[1..] <==> !DotClash(e[1..]))
    ensures Unescape(Escape(e)) == e <==> !DotClash(e)
  {
    EscapeHead(e);
    assert e == "." + e[1..];
  }

  lemma {:induction false} UnescapeOther(e: string)
    requires e != "" && e[0] != '.' && (Unescape(Escape(e[1..])) == e[1..] <==> !DotClash(e[1..]))
    ensures Unescape(Escape(e)) == e <==> !DotClash(e)
  {
    EscapeHead(e);
    EscapeDot(e[1..]);
    var x := Escape(e);
    PrefixHead("_DOT_", x);
    PrefixHead("_DOT_", e);
    PrefixHead("_DOT.", e);
    assert "_DOT_"[1..] == "DOT_" && "_DOT."[1..] == "DOT.";
    assert e == [e[0]] + e[1..];
  }

  lemma {:induction false} PrefixHead(p: string, x: string)
    requires p != "" && x != ""
    ensures p <= x <==> p[0] == x[0] && p[1..] <= x[1..]
  {
    assert p == [p[0]] + p[1..] && x == [x[0]] + x[1..];
    if p[0] == x[0] && p[1..] <= x[1..] {
      forall i | 0 <= i < |p| ensures p[i] == x[i] {
        if i > 0 { assert p[i] == p[1..][i - 1] && x[i] == x[1..][i - 1]; }
      }
    }
    if p <= x {
      forall i | 0 <= i < |p[1..]| ensures p[1..][i] == x[1..][i] { assert p[i + 1] == x[i + 1]; }
    }
  }

  /** The first character after escaping, and what follows it. */
  lemma {:induction false} EncodedHead(s: string, t: string)
    ensures var x := Escape(s) + "_FN_" + t;
            && x != "" && x[0] == (if s == "" || s[0] == '.' then '_' else s[0])
            && (s != "" && s[0] != '.' ==> x[1..] == Escape(s[1..]) + "_FN_" + t)
  {
    if s != "" { EscapeHead(s); }
  }

  lemma {:induction false} EscapeFn(s: string, t: string)
    ensures "FN_" <= Escape(s) + "_FN_" + t <==> FnEnds(s)
  {
    var x := Escape(s) + "_FN_" + t;
    EncodedHead(s, t);
    PrefixHead("FN_", x);
    assert "FN_"[1..] == "N_" && "N_"[1..] == "_";
    if s != "" && s[0] == 'F' {
      var a := s[1..];
      EncodedHead(a, t);
      PrefixHead("N_", x[1..]);
      if a != "" && a[0] == 'N' {
        var b := a[1..];
        EncodedHead(b, t);
        PrefixHead("_", x[1..][1..]);
        assert s == "FN" + b;
      }
    }
  }

  /** The first `_FN_` is the one the encoder wrote exactly for ids without a name clash. */
  lemma {:induction false} FirstFn(e: string, t: string)
    ensures var at := FindFn(Escape(e) + "_FN_" + t);
            && at.Some? && at.value <= |Escape(e)|
            && (at.value == |Escape(e)| <==> !FnClash(e))
  {
    if e == "" {
      assert "_FN_" <= Escape(e) + "_FN_" + t;
    } else {
      FirstFn(e[1..], t);
      if e[0] == '.' { FirstFnDot(e, t); } else { FirstFnOther(e, t); }
    }
  }

  /** What the induction hypothesis says of the rest. */
  predicate FnFound(e: string, t: string) {
    var at := FindFn(Escape(e) + "_FN_" + t);
    && at.Some? && at.value <= |Escape(e)|
    && (at.value == |Escape(e)| <==> !FnClash(e))
  }

  lemma {:induction false} FirstFnDot(e: string, t: string)
    requires e != "" && e[0] == '.' && FnFound(e[1..], t)
    ensures FnFound(e, t)
  {
    var y := Escape(e[1..]) + "_FN_" + t;
    EscapeFn(e[1..], t);
    SkipDot(y);
    Assoc("_DOT_", Escape(e[1..]), "_FN_");
    Assoc("_DOT_", Escape(e[1..]) + "_FN_", t);
    assert Escape(e) == "_DOT_" + Escape(e[1..]);
  }

  lemma {:induction false} FirstFnOther(e: string, t: string)
    requires e != "" && e[0] != '.' && FnFound(e[1..], t)
    ensures FnFound(e, t)
  {
    var y := Escape(e[1..]) + "_FN_" + t;
    EscapeFn(e[1..], t);
    Assoc([e[0]], Escape(e[1..]), "_FN_");
    Assoc([e[0]], Escape(e[1..]) + "_FN_", t);
    assert Escape(e) == [e[0]] + Escape(e[1..]);
    if e[0] == '_' && "FN_" <= y { FindFnHere(y); } else { FindFnSkip(e[0], y); }
  }

  /** A head that starts no `_FN_` only shifts the first one. */
  lemma {:induction false} FindFnSkip(c: char, s: string)
    requires FindFn(s).Some? && (c == '_' ==> !("FN_" <= s))
    ensures FindFn([c] + s) == Some(FindFn(s).value + 1)
  {
    PrefixHead("_FN_", [c] + s);
    assert ([c] + s)[1..] == s && "_FN_"[1..] == "FN_";
  }

  lemma {:induction false} FindFnHere(y: string)
    requires "FN_" <= y
    ensures FindFn(['_'] + y) == Some(0)
  {
    PrefixHead("_FN_", ['_'] + y);
    assert (['_'] + y)[1..] == y && "_FN_"[1..] == "FN_";
  }

  /** An escaped dot hides no `_FN_`, unless its last underscore starts one. */
  lemma {:induction false} SkipDot(y: string)
    requires FindFn(y).Some?
    ensures FindFn("_DOT_" + y) == if "FN_" <= y then Some(4) else Some(FindFn(y).value + 5)
  {
    if "FN_" <= y { FindFnHere(y); } else { FindFnSkip('_', y); }
    SkipDotHead(['_'] + y);
    DotParts(y);
  }

  lemma {:induction false} SkipDotHead(z: string)
    requires FindFn(z).Some?
    ensures FindFn(['_'] + ("DOT" + z)) == Some(FindFn(z).value + 4)
  {
    FindFnSkipAll("DOT", z);
    assert ("DOT" + z)[0] == 'D' && "FN_"[0] == 'F';
    FindFnSkip('_', "DOT" + z);
  }

  lemma {:induction false} DotParts(y: string)
    ensures "_DOT_" + y == ['_'] + ("DOT" + (['_'] + y))
  {
  }

  lemma {:induction false} FindFnSkipAll(p: string, s: string)
    requires FindFn(s).Some? && '_' !in p
    ensures FindFn(p + s) == Some(FindFn(s).value + |p|)
  {
    if p == "" {
      assert p + s == s;
    } else {
      FindFnSkipAll(p[1..], s);
      FindFnSkip(p[0], p[1..] + s);
      assert p + s == [p[0]] + (p[1..] + s);
    }
  }

  /**
   The plain encoding is undone by splitting exactly on the faithful pairs; every other id is
   cut in the wrong place or gets a dot it did not have.
   */
  lemma {:induction false} RoundTripExactly(e: string, t: string)
    ensures SplitToolName(EncodeToolName(e, t)) == (e, t) <==> Faithful(e, t)
  {
    if e != "" {
      var name := EncodeToolName(e, t);
      FirstFn(e, t);
      var at := FindFn(name).value;
      UnescapeEscape(e);
      if !FnClash(e) {
        assert name[..at] == Escape(e) && name[at + 4..] == t;
      } else {
        assert |name[at + 4..]| > |t|;
      }
    } else if FindFn(t).Some? {
      assert |t[FindFn(t).value + 4..]| < |t|;
    }
  }

  /** Distinct faithful pairs have distinct names. */
  lemma {:induction false} EncodingIsInjective(e: string, t: string, f: string, u: string)
    requires Faithful(e, t) && Faithful(f, u) && EncodeToolName(e, t) == EncodeToolName(f, u)
    ensures e == f && t == u
  {
    RoundTripExactly(e, t);
    RoundTripExactly(f, u);
  }

  /** The claim that both escapes always round-trip fails, for instance here. */
  lemma {:induction false} NotEveryPairRoundTrips()
    ensures SplitToolName(EncodeToolName("a_FN", "x")) != ("a_FN", "x")
    ensures SplitToolName(EncodeToolName("a_DOT_b", "x")) != ("a_DOT_b", "x")
  {
    var e, f := "a_FN", "a_DOT_b";
    assert e[1..] == "_FN" && e[1..][1..] == "FN";
    assert FnClash(e[1..]) && FnClash(e);
    assert f[1..] == "_DOT_b";
    assert "_DOT_" <= f[1..];
    assert DotClash(f[1..]) && DotClash(f);
    RoundTripExactly(e, "x");
    RoundTripExactly(f, "x");
  }

  /** The dot-separated segments of an id. */
  function Segments(s: string): (r: seq<string>)
    ensures r != []
  {
    if s == "" then [""]
    else if s[0] == '.' then [""] + Segments(s[1..])
    else
      var r := Segments(s[1..]);
      [[s[0]] + r[0]] + r[1..]
  }

  lemma {:induction false} FirstSegmentFn(s: string)
    requires '_' !in s
    ensures FnEnds(s) <==> Segments(s)[0] == "FN"
  {
    SegmentHead(s);
    if s != "" && s[0] == 'F' {
      var a := s[1..];
      SegmentHead(a);
      if a != "" && a[0] == 'N' {
        SegmentHead(a[1..]);
        assert |s| > 2 ==> a[1..][0] == s[2];
      }
    }
  }

  /** The first segment is empty, or starts with the first character. */
  lemma {:induction false} SegmentHead(s: string)
    ensures if s == "" || s[0] == '.' then Segments(s)[0] == "" else Segments(s)[0] == [s[0]] + Segments(s[1..])[0]
  {
  }

  /** For ids without underscores: only a later segment `FN` stands in the way. */
  lemma {:induction false} WithoutUnderscores(e: string, t: string)
    requires e != "" && '_' !in e
    ensures Faithful(e, t) <==> "FN" !in Segments(e)[1..]
  {
    NoUnderscoreClash(e);
  }

  lemma {:induction false} NoUnderscoreClash(e: string)
    requires '_' !in e
    ensures !DotClash(e) && (FnClash(e) <==> "FN" in Segments(e)[1..])
  {
    if e != "" {
      NoUnderscoreClash(e[1..]);
      FirstSegmentFn(e[1..]);
      var r := Segments(e[1..]);
      if e[0] == '.' {
        assert Segments(e)[1..] == r && r == [r[0]] + r[1..];
      } else {
        assert Segments(e)[1..] == r[1..];
      }
    }
  }

  lemma {:induction false} EscapeHasNoDot(e: string)
    ensures '.' !in Escape(e)
  {
    if e != "" { EscapeHasNoDot(e[1..]); }
  }

  /** A name has a dot only if the tool name has. */
  lemma {:induction false} NoDots(e: string, t: string)
    requires '.' !in t
    ensures '.' !in EncodeToolName(e, t)
  {
    EscapeHasNoDot(e);
  }

  // ------------------------------------------------------------ wire names

  const MAX_WIRE_LEN: nat := 64
  const DIGEST_LEN: nat := 8
  const MIN_EXT_SLUG: nat := 8
  const BODY_BUDGET: nat := 55

  predicate WireChar(c: char) {
    'a' <= c <= 'z' || 'A' <= c <= 'Z' || '0' <= c <= '9' || c == '_' || c == '-'
  }

  predicate AllWire(s: string) {
    forall i :: 0 <= i < |s| ==> WireChar(s[i])
  }

  predicate IsWireSafe(name: string) {
    name != "" && |name| <= MAX_WIRE_LEN && AllWire(name)
  }

  /** Keep letters, digits and dashes; any run of the rest is one underscore. */
  function Slugged(raw: string, afterUnderscore: bool): string {
    if raw == "" then ""
    else if WireChar(raw[0]) && raw[0] != '_' then [raw[0]] + Slugged(raw[1..], false)
    else (if afterUnderscore then "" else "_") + Slugged(raw[1..], true)
  }

  function DropLeft(s: string): string {
    if s != "" && s[0] == '_' then DropLeft(s[1..]) else s
  }

  /** Without trailing underscores, and without trailing dashes too when `dash`. */
  function DropRight(s: string, dash: bool): string {
    if s != "" && (s[|s| - 1] == '_' || (dash && s[|s| - 1] == '-')) then DropRight(s[..|s| - 1], dash) else s
  }

  function Slug(raw: string): string {
    DropRight(DropLeft(Slugged(raw, false)), false)
  }

  function ClampTo(s: string, max: nat): string {
    if |s| <= max then s else DropRight(s[..max], true)
  }

  function Compose(ext: string, tool: string, budget: nat): string {
    if ext == "" then ClampTo(tool, budget)
    else
      var reserved := Min(|ext|, MIN_EXT_SLUG);
      var t := ClampTo(tool, Max(budget - (4 + reserved), 0));
      var x := ClampTo(ext, Max(budget - (4 + |t|), 0));
      if x == "" then t else if t == "" then x else x + "_FN_" + t
  }

  /** The plain name when it is acceptable and splits back, else a readable body and a digest. */
  function WireToolName(digest: (string, string) -> string, e: string, t: string): string {
    var plain := EncodeToolName(e, t);
    if IsWireSafe(plain) && SplitToolName(plain) == (e, t) then plain
    else
      var body := Compose(Slug(e), Slug(t), BODY_BUDGET);
      if body == "" then digest(e, t) else body + "_" + digest(e, t)
  }

  /** The digest is eight characters a provider accepts. */
  ghost predicate DigestOk(digest: (string, string) -> string) {
    forall e, t :: |digest(e, t)| == DIGEST_LEN && AllWire(digest(e, t))
  }

  lemma {:induction false} SluggedIsWire(raw: string, after: bool)
    ensures AllWire(Slugged(raw, after))
  {
    if raw != "" {
      SluggedIsWire(raw[1..], false);
      SluggedIsWire(raw[1..], true);
    }
  }

  lemma {:induction false} DropLeftIsWire(s: string)
    requires AllWire(s)
    ensures AllWire(DropLeft(s))
  {
    if s != "" { DropLeftIsWire(s[1..]); }
  }

  lemma {:induction false} DropRightIsWire(s: string, dash: bool)
    requires AllWire(s)
    ensures AllWire(DropRight(s, dash)) && |DropRight(s, dash)| <= |s|
  {
    if s != "" { DropRightIsWire(s[..|s| - 1], dash); }
  }

  lemma {:induction false} SlugIsWire(raw: string)
    ensures AllWire(Slug(raw))
  {
    SluggedIsWire(raw, false);
    DropLeftIsWire(Slugged(raw, false));
    DropRightIsWire(DropLeft(Slugged(raw, false)), false);
  }

  lemma {:induction false} ClampIsWire(s: string, max: nat)
    requires AllWire(s)
    ensures AllWire(ClampTo(s, max)) && |ClampTo(s, max)| <= max
  {
    if |s| > max { DropRightIsWire(s[..max], true); }
  }

  lemma {:induction false} ComposeFits(ext: string, tool: string, budget: nat)
    requires AllWire(ext) && AllWire(tool) && budget >= 4 + MIN_EXT_SLUG
    ensures AllWire(Compose(ext, tool, budget)) && |Compose(ext, tool, budget)| <= budget
  {
    if ext == "" {
      ClampIsWire(tool, budget);
    } else {
      var max := Max(budget - (4 + Min(|ext|, MIN_EXT_SLUG)), 0);
      ClampIsWire(tool, max);
      ClampIsWire(ext, Max(budget - (4 + |ClampTo(tool, max)|), 0));
    }
  }

  predicate LetterOrDigit(c: char) {
    'a' <= c <= 'z' || 'A' <= c <= 'Z' || '0' <= c <= '9'
  }

  /** What providers accept as a function name: 1 to 64 letters, digits, underscores and dashes. */
  predicate Accepted(name: string) {
    1 <= |name| <= 64 && forall i :: 0 <= i < |name| ==> LetterOrDigit(name[i]) || name[i] == '_' || name[i] == '-'
  }

  /** Every pair gets a name a provider accepts, however odd the id. */
  lemma {:induction false} EveryNameIsWireSafe(digest: (string, string) -> string, e: string, t: string)
    requires DigestOk(digest)
    ensures Accepted(WireToolName(digest, e, t))
  {
    SlugIsWire(e);
    SlugIsWire(t);
    ComposeFits(Slug(e), Slug(t), BODY_BUDGET);
  }

  // ------------------------------------------------------------ what a wire name shows

  /** Kept in a slug as it is: letters, digits and dashes. */
  predicate Kept(c: char) {
    LetterOrDigit(c) || c == '-'
  }

  predicate AllKept(s: string) {
    forall i :: 0 <= i < |s| ==> Kept(s[i])
  }

  predicate NoneKept(s: string) {
    forall i :: 0 <= i < |s| ==> !Kept(s[i])
  }

  lemma {:induction false} SluggedKeeps(a: string, rest: string, after: bool)
    requires AllKept(a) && a != ""
    ensures Slugged(a + rest, after) == a + Slugged(rest, false)
  {
    assert (a + rest)[1..] == a[1..] + rest && a == [a[0]] + a[1..];
    if |a| > 1 {
      SluggedKeeps(a[1..], rest, false);
    } else {
      assert a[1..] + rest == rest;
    }
  }

  lemma {:induction false} SluggedSkips(sep: string, rest: string, after: bool)
    requires NoneKept(sep) && sep != ""
    ensures Slugged(sep + rest, after) == (if after then "" else "_") + Slugged(rest, true)
  {
    assert (sep + rest)[1..] == sep[1..] + rest;
    if |sep| > 1 {
      SluggedSkips(sep[1..], rest, true);
    } else {
      assert sep[1..] + rest == rest;
    }
  }

  /** After an underscore, a slug goes on as one that starts there. */
  lemma {:induction false} SluggedAfter(rest: string)
    ensures DropLeft(Slugged(rest, false)) == Slugged(rest, true) == DropLeft(Slugged(rest, true))
  {
    if rest != "" && !Kept(rest[0]) {
      SluggedAfter(rest[1..]);
      assert Slugged(rest, false)[1..] == Slugged(rest[1..], true);
    }
  }

  lemma {:induction false} DropRightAfter(a: string, s: string)
    requires a != "" && a[|a| - 1] != '_'
    ensures DropRight(a + "_" + s, false) ==
            if DropRight(s, false) == "" then a else a + "_" + DropRight(s, false)
  {
    var x := a + "_" + s;
    if s == "" {
      assert x[..|x| - 1] == a;
    } else if s[|s| - 1] == '_' {
      DropRightAfter(a, s[..|s| - 1]);
      assert x[..|x| - 1] == a + "_" + s[..|s| - 1];
    }
  }

  /** Text of letters, digits and dashes is its own slug. */
  lemma {:induction false} SlugOfWord(a: string)
    requires AllKept(a)
    ensures Slug(a) == a
  {
    if a != "" {
      SluggedKeeps(a, "", false);
      assert a + "" == a;
    }
  }

  /** Anything else in front is dropped. */
  lemma {:induction false} SlugSkipsLeading(sep: string, rest: string)
    requires NoneKept(sep)
    ensures Slug(sep + rest) == Slug(rest)
  {
    if sep == "" {
      assert sep + rest == rest;
    } else {
      SluggedSkips(sep, rest, false);
      SluggedAfter(rest);
      assert ("_" + Slugged(rest, true))[1..] == Slugged(rest, true);
    }
  }

  /** Any run of the rest between two words is one underscore, and nothing at the end. */
  lemma {:induction false} SlugJoinsWords(a: string, sep: string, rest: string)
    requires AllKept(a) && a != "" && NoneKept(sep) && sep != ""
    ensures Slug(a + (sep + rest)) == if Slug(rest) == "" then a else a + "_" + Slug(rest)
  {
    SluggedKeeps(a, sep + rest, false);
    SluggedSkips(sep, rest, false);
    SluggedAfter(rest);
    var s := Slugged(rest, true);
    assert a + ("_" + s) == a + "_" + s;
    DropRightAfter(a, s);
  }

  /** The two slugs as one body. */
  function Join(x: string, y: string): string {
    if x == "" then y else if y == "" then x else x + "_FN_" + y
  }

  lemma {:induction false} DropRightIsPrefix(s: string, dash: bool)
    ensures DropRight(s, dash) <= s
  {
    if s != "" { DropRightIsPrefix(s[..|s| - 1], dash); }
  }

  lemma {:induction false} ClampIsPrefix(s: string, max: nat)
    ensures ClampTo(s, max) <= s
  {
    if |s| > max { DropRightIsPrefix(s[..max], true); }
  }

  /**
   The body is a beginning of each slug: all of both when they fit 55 characters, all of the tool's up
   to 43, and all of the extension's up to 8.
   */
  lemma {:induction false} BodyKeepsBoth(ext: string, tool: string)
    ensures exists x, y :: x <= ext && y <= tool && Compose(ext, tool, BODY_BUDGET) == Join(x, y)
                           && (|ext| + 4 + |tool| <= 55 ==> x == ext && y == tool)
                           && (|tool| <= 43 ==> y == tool) && (|ext| <= 8 ==> x == ext)
  {
    if ext == "" {
      ClampIsPrefix(tool, BODY_BUDGET);
      assert Compose(ext, tool, BODY_BUDGET) == Join("", ClampTo(tool, BODY_BUDGET));
    } else {
      var y := ClampTo(tool, 51 - Min(|ext|, 8));
      ClampIsPrefix(tool, 51 - Min(|ext|, 8));
      assert |y| <= 51 - Min(|ext|, 8) by { if |tool| > 51 - Min(|ext|, 8) { DropRightIsPrefix(tool[..51 - Min(|ext|, 8)], true); } }
      var x := ClampTo(ext, 51 - |y|);
      ClampIsPrefix(ext, 51 - |y|);
      assert Compose(ext, tool, BODY_BUDGET) == Join(x, y);
    }
  }

  /**
   A tool keeps its plain name exactly when a provider accepts it and it splits back; any other tool is
   called by its slugs and its digest, whole when they fit.
   */
  lemma {:induction false} NamesAreReadable(digest: (string, string) -> string, e: string, t: string)
    ensures var wire, plain, x, y := WireToolName(digest, e, t), EncodeToolName(e, t), Slug(e), Slug(t);
            if Accepted(plain) && Faithful(e, t) then wire == plain
            else if x == "" && y == "" then wire == digest(e, t)
            else |x| + 4 + |y| <= 55 ==> wire == Join(x, y) + "_" + digest(e, t)
  {
    RoundTripExactly(e, t);
    BodyKeepsBoth(Slug(e), Slug(t));
  }

  // ------------------------------------------------------------ the codec

  type Pair = (string, string)

  /** The first declared pair with a given wire name. */
  function FirstWith(digest: (string, string) -> string, tools: seq<Pair>, wire: string): (r: Option<Pair>)
    ensures r.Some? ==> r.value in tools && WireToolName(digest, r.value.0, r.value.1) == wire
  {
    if tools == [] then None
    else
      var before := FirstWith(digest, tools[..|tools| - 1], wire);
      var last := tools[|tools| - 1];
      if before.Some? then before
      else if WireToolName(digest, last.0, last.1) == wire then Some(last)
      else None
  }

  class ToolNameCodec {
    var byWire: map<string, Pair>
    const digest: (string, string) -> string

    ghost predicate Of(tools: seq<Pair>)
      reads this
    {
      forall wire :: FirstWith(digest, tools, wire) == if wire in byWire then Some(byWire[wire]) else None
    }

    constructor (digest: (string, string) -> string, tools: seq<Pair>)
      ensures this.digest == digest && Of(tools)
    {
      this.digest := digest;
      byWire := map[];
      new;
      for i := 0 to |tools|
        invariant this.digest == digest && Of(tools[..i])
      {
        assert tools[..i + 1][..i] == tools[..i];
        var wire := WireToolName(digest, tools[i].0, tools[i].1);
        if wire !in byWire || byWire[wire] == tools[i] {
          byWire := byWire[wire := tools[i]];
        }
      }
      assert tools[..|tools|] == tools;
    }

    method Decode(wire: string, ghost tools: seq<Pair>) returns (pair: Pair)
      requires Of(tools)
      ensures pair == DecodeWith(digest, tools, wire)
    {
      if wire in byWire { return byWire[wire]; }
      pair := SplitToolName(wire);
    }
  }

  function DecodeWith(digest: (string, string) -> string, tools: seq<Pair>, wire: string): Pair {
    var first := FirstWith(digest, tools, wire);
    if first.Some? then first.value else SplitToolName(wire)
  }

  lemma {:induction false} DeclaredHasFirst(digest: (string, string) -> string, tools: seq<Pair>, p: Pair)
    requires p in tools
    ensures FirstWith(digest, tools, WireToolName(digest, p.0, p.1)).Some?
  {
    if p != tools[|tools| - 1] { DeclaredHasFirst(digest, tools[..|tools| - 1], p); }
  }

  /**
   Decoding the name of a declared tool gives that tool unless a different tool with the same
   name was declared; two tools whose plain names are kept never share one.
   */
  lemma {:induction false} DecodesDeclaredTools(digest: (string, string) -> string, tools: seq<Pair>, p: Pair)
    requires p in tools
    ensures var wire := WireToolName(digest, p.0, p.1);
            && (DecodeWith(digest, tools, wire) != p ==>
                  exists q :: q in tools && q != p && WireToolName(digest, q.0, q.1) == wire)
            && DecodeWith(digest, tools, wire) in tools
            && WireToolName(digest, DecodeWith(digest, tools, wire).0, DecodeWith(digest, tools, wire).1) == wire
  {
    DeclaredHasFirst(digest, tools, p);
  }

  /** Of several declared tools with one name, the first is meant. */
  lemma {:induction false} DecodesTheFirst(digest: (string, string) -> string, tools: seq<Pair>, i: nat)
    requires i < |tools|
    requires forall j :: 0 <= j < i ==>
               WireToolName(digest, tools[j].0, tools[j].1) != WireToolName(digest, tools[i].0, tools[i].1)
    ensures DecodeWith(digest, tools, WireToolName(digest, tools[i].0, tools[i].1)) == tools[i]
  {
    FirstIs(digest, tools, i);
  }

  lemma {:induction false} FirstIs(digest: (string, string) -> string, tools: seq<Pair>, i: nat)
    requires i < |tools|
    requires forall j :: 0 <= j < i ==>
               WireToolName(digest, tools[j].0, tools[j].1) != WireToolName(digest, tools[i].0, tools[i].1)
    ensures FirstWith(digest, tools, WireToolName(digest, tools[i].0, tools[i].1)) == Some(tools[i])
  {
    if i < |tools| - 1 { FirstIs(digest, tools[..|tools| - 1], i); }
  }

  /** A name nobody declared is split: the plain name of a faithful pair still reaches that pair. */
  lemma {:induction false} UndeclaredNamesAreSplit(digest: (string, string) -> string, tools: seq<Pair>, e: string, t: string)
    requires Faithful(e, t)
    requires forall j :: 0 <= j < |tools| ==> WireToolName(digest, tools[j].0, tools[j].1) != EncodeToolName(e, t)
    ensures DecodeWith(digest, tools, EncodeToolName(e, t)) == (e, t)
  {
    RoundTripExactly(e, t);
  }

  lemma {:induction false} PlainNamesDoNotCollide(digest: (string, string) -> string, p: Pair, q: Pair)
    requires WireToolName(digest, p.0, p.1) == EncodeToolName(p.0, p.1) && Faithful(p.0, p.1)
    requires WireToolName(digest, q.0, q.1) == EncodeToolName(q.0, q.1) && Faithful(q.0, q.1)
    requires WireToolName(digest, p.0, p.1) == WireToolName(digest, q.0, q.1)
    ensures p == q
  {
    EncodingIsInjective(p.0, p.1, q.0, q.1);
  }
}
