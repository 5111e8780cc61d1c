/**
 Document text before it is written into the prompt: sanitising it and keeping what fits the budgets.
 */
module DocumentText {
  import opened Common
  import opened AttachmentRefs
  import opened Utf8Text

  const OPEN: char := '\U{27E6}'
  const CLOSE: char := '\U{27E7}'
  const ZWNJ: char := '\U{200C}'
  const ZWJ: char := '\U{200D}'
  const LINE_SEP: char := '\U{2028}'
  const PARA_SEP: char := '\U{2029}'

  /** What is assumed of the character classes. */
  ghost predicate ClassOk(cls: CharClass) {
    && cls.stripped('\n') && cls.stripped('\r') && cls.stripped('\t')
    && cls.stripped(LINE_SEP) && cls.stripped(PARA_SEP)
    && !cls.stripped(OPEN) && !cls.stripped(CLOSE) && !cls.stripped('(') && !cls.stripped(')')
  }

  // ------------------------------------------------------------ sanitising

  /** What is left of one character. */
  function SanitizeChar(cls: CharClass, c: char): string {
    if c == '\n' || c == '\t' || c == ZWNJ || c == ZWJ then [c]
    else if c == LINE_SEP || c == PARA_SEP then "\n"
    else if c == OPEN then "("
    else if c == CLOSE then ")"
    else if cls.stripped(c) then ""
    else [c]
  }

  function Sanitize(cls: CharClass, raw: string): (r: string)
    ensures OPEN !in r && CLOSE !in r
  {
    if raw == "" then "" else Sanitize(cls, raw[..|raw| - 1]) + SanitizeChar(cls, raw[|raw| - 1])
  }

  lemma {:induction false} SanitizeAppend(cls: CharClass, a: string, b: string)
    ensures Sanitize(cls, a + b) == Sanitize(cls, a) + Sanitize(cls, b)
  {
    if b == "" {
      assert a + b == a && Sanitize(cls, a) + "" == Sanitize(cls, a);
    } else {
      var pre, c := b[..|b| - 1], b[|b| - 1];
      SanitizeAppend(cls, a, pre);
      assert (a + b)[..|a + b| - 1] == a + pre && (a + b)[|a + b| - 1] == c;
      Assoc(Sanitize(cls, a), Sanitize(cls, pre), SanitizeChar(cls, c));
    }
  }

  /** A character that sanitising leaves alone. */
  predicate Plain(cls: CharClass, c: char) {
    SanitizeChar(cls, c) == [c]
  }

  lemma {:induction false} SanitizedIsPlain(cls: CharClass, raw: string)
    requires ClassOk(cls)
    ensures forall i :: 0 <= i < |Sanitize(cls, raw)| ==> Plain(cls, Sanitize(cls, raw)[i])
  {
    if raw != "" { SanitizedIsPlain(cls, raw[..|raw| - 1]); }
  }

  lemma {:induction false} PlainIsFixed(cls: CharClass, s: string)
    requires forall i :: 0 <= i < |s| ==> Plain(cls, s[i])
    ensures Sanitize(cls, s) == s
  {
    if s != "" { PlainIsFixed(cls, s[..|s| - 1]); }
  }

  /** An ordinary character: not stripped and no delimiter; or one of the four kept although they are stripped. */
  predicate Ordinary(cls: CharClass, c: char) {
    c in "\n\t\U{200C}\U{200D}" || (!cls.stripped(c) && c !in "\U{27E6}\U{27E7}\U{2028}\U{2029}")
  }

  /** What becomes of each character of a text, where it stands. */
  lemma {:induction false} SanitizeExactly(cls: CharClass, a: string, c: char, b: string)
    requires ClassOk(cls)
    ensures Sanitize(cls, a + [c] + b) == Sanitize(cls, a) + Becomes(cls, c) + Sanitize(cls, b)
  {
    SanitizeAppend(cls, a + [c], b);
    SanitizeAppend(cls, a, [c]);
    OneBecomes(cls, c);
  }

  /** Ordinary characters stay, separators become newlines, delimiters parentheses, and the rest goes. */
  function Becomes(cls: CharClass, c: char): string {
    if Ordinary(cls, c) then [c]
    else if c == '\U{2028}' || c == '\U{2029}' then "\n"
    else if c == '\U{27E6}' then "(" else if c == '\U{27E7}' then ")" else ""
  }

  lemma {:induction false} OneBecomes(cls: CharClass, c: char)
    requires ClassOk(cls)
    ensures Sanitize(cls, [c]) == Becomes(cls, c)
  {
    assert [c][..0] == "" && Sanitize(cls, [c]) == "" + SanitizeChar(cls, c);
    assert "" + SanitizeChar(cls, c) == SanitizeChar(cls, c);
  }

  /** Text of ordinary characters is not changed. */
  lemma {:induction false} OrdinaryTextStays(cls: CharClass, s: string)
    requires forall i :: 0 <= i < |s| ==> Ordinary(cls, s[i])
    ensures Sanitize(cls, s) == s
  {
    PlainIsFixed(cls, s);
  }

  /** Sanitising twice is sanitising once. */
  lemma {:induction false} SanitizeIdempotent(cls: CharClass, raw: string)
    requires ClassOk(cls)
    ensures Sanitize(cls, Sanitize(cls, raw)) == Sanitize(cls, raw)
  {
    SanitizedIsPlain(cls, raw);
    PlainIsFixed(cls, Sanitize(cls, raw));
  }

  // ------------------------------------------------------------ keeping what fits

  /** The sanitised text kept. */
  function KeptText(cls: CharClass, raw: string, cap: nat, bytes: nat): (body: string)
    ensures |body| <= cap && Utf8(body) <= bytes && OPEN !in body && CLOSE !in body
  {
    var s := Sanitize(cls, raw);
    assert s[..0] == "";
    s[..KeptLen(s, 0, cap, bytes)]
  }

  /** Something of the text was cut. */
  predicate IsCut(cls: CharClass, raw: string, cap: nat, bytes: nat) {
    |KeptText(cls, raw, cap, bytes)| < |Sanitize(cls, raw)|
  }

  /** What is kept is the longest prefix of the sanitised text within both limits. */
  lemma {:induction false} KeptTextIsLongest(cls: CharClass, raw: string, cap: nat, bytes: nat)
    ensures var body, s := KeptText(cls, raw, cap, bytes), Sanitize(cls, raw);
            && body <= s && |body| <= cap && Utf8(body) <= bytes
            && OPEN !in body && CLOSE !in body
            && (IsCut(cls, raw, cap, bytes) <==> body != s)
            && (forall longer :: body < longer <= s ==> |longer| > cap || Utf8(longer) > bytes)
  {
    var s := Sanitize(cls, raw);
    assert s[..0] == "";
    var n := KeptLen(s, 0, cap, bytes);
    assert n < |s| ==> s[..n] != s;
    assert s[..|s|] == s;
    forall longer | s[..n] < longer <= s ensures |longer| > cap || Utf8(longer) > bytes {
      assert longer == s[..|longer|];
      Utf8Grows(s, n + 1, |longer|);
    }
  }

  lemma {:induction false} CutMeansLess(cls: CharClass, raw: string, cap: nat, bytes: nat)
    ensures IsCut(cls, raw, cap, bytes) <==> KeptText(cls, raw, cap, bytes) != Sanitize(cls, raw)
  {
    KeptTextIsLongest(cls, raw, cap, bytes);
  }

  /** Something is kept exactly when there is a character and the first one fits. */
  lemma {:induction false} KeptSomething(cls: CharClass, raw: string, cap: nat, bytes: nat)
    ensures var s := Sanitize(cls, raw);
            KeptText(cls, raw, cap, bytes) != "" <==> s != "" && cap > 0 && Utf8Len(s[0]) <= bytes
  {
    var s := Sanitize(cls, raw);
    if s != "" {
      assert s[..1][..0] == "" && s[..1][0] == s[0];
      KeptTextIsLongest(cls, raw, cap, bytes);
      if KeptText(cls, raw, cap, bytes) == "" {
        assert "" < s[..1] <= s;
      } else {
        FirstFits(KeptText(cls, raw, cap, bytes));
      }
    }
  }

  lemma {:induction false} FirstFits(body: string)
    requires body != ""
    ensures Utf8Len(body[0]) <= Utf8(body)
  {
    assert body[..1][..0] == "" && body[..|body|] == body;
    Utf8Grows(body, 1, |body|);
  }

  /** Keeping text that was kept already changes nothing. */
  lemma {:induction false} KeptTextIdempotent(cls: CharClass, raw: string, cap: nat, bytes: nat)
    requires ClassOk(cls)
    ensures var body := KeptText(cls, raw, cap, bytes);
            KeptText(cls, body, cap, bytes) == body && !IsCut(cls, body, cap, bytes)
  {
    var body := KeptText(cls, raw, cap, bytes);
    KeptTextIsLongest(cls, raw, cap, bytes);
    SanitizedIsPlain(cls, raw);
    PlainIsFixed(cls, body);
    WholeFits(cls, body, cap, bytes);
  }

  lemma {:induction false} KeptPrefix(cls: CharClass, raw: string, body: string, cap: nat, bytes: nat)
    requires body < Sanitize(cls, raw) && |body| <= cap && Utf8(body) <= bytes
    requires |body| == cap || Utf8(body) + Utf8Len(Sanitize(cls, raw)[|body|]) > bytes
    ensures KeptText(cls, raw, cap, bytes) == body && IsCut(cls, raw, cap, bytes)
  {
    var s, n := Sanitize(cls, raw), |body|;
    assert s[..0] == "" && s[..n] == body && s[..n + 1][..n] == s[..n];
    KeptLenIs(s, n, cap, bytes);
  }

  /** The loop over the lazily sanitised characters. */
  method KeepText(cls: CharClass, raw: string, cap: nat, bytes: nat) returns (body: string, taken: nat, cut: bool)
    ensures body == KeptText(cls, raw, cap, bytes) && taken == |body|
    ensures cut == IsCut(cls, raw, cap, bytes)
  {
    body, taken, cut := "", 0, false;
    var size := 0;
    for i := 0 to |raw|
      invariant body == Sanitize(cls, raw[..i])
      invariant taken == |body| <= cap && size == Utf8(body) <= bytes
    {
      var kept := SanitizeChar(cls, raw[i]);
      KeepStep(cls, raw, i, cap, bytes);
      if kept != "" {
        if taken == cap || size + Utf8Len(kept[0]) > bytes {
          return body, taken, true;
        }
        body, taken, size := body + kept, taken + 1, size + Utf8Len(kept[0]);
      }
    }
    assert raw[..|raw|] == raw;
    WholeFits(cls, raw, cap, bytes);
  }

  /** One more character: it is added if it fits, and otherwise what was kept so far is all. */
  lemma {:induction false} KeepStep(cls: CharClass, raw: string, i: nat, cap: nat, bytes: nat)
    requires i < |raw|
    requires |Sanitize(cls, raw[..i])| <= cap && Utf8(Sanitize(cls, raw[..i])) <= bytes
    ensures var body, kept := Sanitize(cls, raw[..i]), SanitizeChar(cls, raw[i]);
            && Sanitize(cls, raw[..i + 1]) == body + kept
            && (kept == "" ==> Sanitize(cls, raw[..i + 1]) == body)
            && (kept != "" ==> |kept| == 1 && Utf8(body + kept) == Utf8(body) + Utf8Len(kept[0]))
            && (kept != "" && (|body| == cap || Utf8(body) + Utf8Len(kept[0]) > bytes) ==>
                  body == KeptText(cls, raw, cap, bytes) && IsCut(cls, raw, cap, bytes))
  {
    var body, kept := Sanitize(cls, raw[..i]), SanitizeChar(cls, raw[i]);
    SanitizeSteps(cls, raw, i);
    if kept != "" {
      assert (body + kept)[..|body|] == body && (body + kept)[|body|] == kept[0];
      assert Sanitize(cls, raw)[|body|] == kept[0];
      if |body| == cap || Utf8(body) + Utf8Len(kept[0]) > bytes { KeptPrefix(cls, raw, body, cap, bytes); }
    } else {
      assert body + kept == body;
    }
  }

  lemma {:induction false} WholeFits(cls: CharClass, raw: string, cap: nat, bytes: nat)
    requires |Sanitize(cls, raw)| <= cap && Utf8(Sanitize(cls, raw)) <= bytes
    ensures KeptText(cls, raw, cap, bytes) == Sanitize(cls, raw) && !IsCut(cls, raw, cap, bytes)
  {
    var s := Sanitize(cls, raw);
    assert s[..0] == "" && s[..|s|] == s;
    KeptLenIs(s, |s|, cap, bytes);
  }

  lemma {:induction false} SanitizeSteps(cls: CharClass, raw: string, i: nat)
    requires i < |raw|
    ensures Sanitize(cls, raw[..i + 1]) == Sanitize(cls, raw[..i]) + SanitizeChar(cls, raw[i])
    ensures Sanitize(cls, raw[..i + 1]) <= Sanitize(cls, raw)
  {
    assert raw[..i + 1][..i] == raw[..i];
    assert raw == raw[..i + 1] + raw[i + 1..];
    SanitizeAppend(cls, raw[..i + 1], raw[i + 1..]);
  }

  const FALLBACK_NAME := "file"

  /** The name shown in a block: one line, no delimiter, never empty. */
  function SanitizeName(cls: CharClass, raw: Option<string>): (r: string)
    ensures OPEN !in r && CLOSE !in r && 0 < |r| <= MAX_NAME_CHARS
    ensures ClassOk(cls) ==> '\n' !in r && (forall i :: 0 <= i < |r| ==> !cls.stripped(r[i]) || r == FALLBACK_NAME)
  {
    var name := DisplayName(cls.white, c => cls.stripped(c) || c == OPEN || c == CLOSE,
                            if raw.Some? then raw.value else "");
    if name == "" then FALLBACK_NAME else name
  }

  /** A clean short name is shown as it is; a missing one, or one that is all white space, as `file`. */
  lemma {:induction false} CleanNameStays(cls: CharClass, name: string)
    requires Tight(cls.white, name) && |name| <= 120
    requires forall i :: 0 <= i < |name| ==> !cls.stripped(name[i]) && name[i] != '\U{27E6}' && name[i] != '\U{27E7}'
    ensures SanitizeName(cls, Some(name)) == if name == "" then "file" else name
    ensures SanitizeName(cls, None) == "file"
  {
    var drop := c => cls.stripped(c) || c == OPEN || c == CLOSE;
    CleanStays(cls.white, drop, name);
    CleanStays(cls.white, drop, "");
  }
}
