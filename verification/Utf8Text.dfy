/** Sizes of text in UTF-8, and the longest prefix that fits a limit. */
module Utf8Text {

  /** Bytes of a character in UTF-8. */
  function Utf8Len(c: char): nat {
    var n := c as int;
    if n < 0x80 then 1 else if n < 0x800 then 2 else if n < 0x10000 then 3 else 4
  }

  /** The bytes of a character, by the table of section 3 of RFC 3629. */
  function Encoded(c: char): seq<int> {
    var n := c as int;
    if n <= 0x7F then [n]
    else if n <= 0x7FF then [0xC0 + n / 0x40, 0x80 + n % 0x40]
    else if n <= 0xFFFF then [0xE0 + n / 0x1000, 0x80 + n / 0x40 % 0x40, 0x80 + n % 0x40]
    else [0xF0 + n / 0x40000, 0x80 + n / 0x1000 % 0x40, 0x80 + n / 0x40 % 0x40, 0x80 + n % 0x40]
  }

  function EncodedText(s: string): seq<int> {
    if s == "" then [] else EncodedText(s[..|s| - 1]) + Encoded(s[|s| - 1])
  }

  /** The size of a text is the number of bytes of its encoding. */
  lemma {:induction false} Utf8IsEncodedLength(s: string)
    ensures Utf8(s) == |EncodedText(s)|
    ensures forall k :: 0 <= k < |EncodedText(s)| ==> 0 <= EncodedText(s)[k] < 0x100
  {
    if s != "" { Utf8IsEncodedLength(s[..|s| - 1]); }
  }

  function Utf8(s: string): nat {
    if s == "" then 0 else Utf8(s[..|s| - 1]) + Utf8Len(s[|s| - 1])
  }

  lemma {:induction false} Utf8Grows(s: string, a: nat, b: nat)
    requires a <= b <= |s|
    ensures Utf8(s[..a]) + (b - a) <= Utf8(s[..b])
    decreases b
  {
    if a < b {
      Utf8Grows(s, a, b - 1);
      assert s[..b][..b - 1] == s[..b - 1];
    }
  }

  /** The first `n` characters fit both limits. */
  predicate Fits(s: string, n: nat, cap: nat, bytes: nat) {
    n <= |s| && n <= cap && Utf8(s[..n]) <= bytes
  }

  /** Length of the longest prefix that fits, found by taking characters while they do. */
  function KeptLen(s: string, from: nat, cap: nat, bytes: nat): (n: nat)
    requires Fits(s, from, cap, bytes)
    ensures Fits(s, n, cap, bytes) && from <= n
    ensures n < |s| ==> !Fits(s, n + 1, cap, bytes)
    decreases |s| - from
  {
    if Fits(s, from + 1, cap, bytes) then KeptLen(s, from + 1, cap, bytes) else from
  }

  /** The length `KeptLen` finds is the only one that fits and cannot be extended. */
  lemma {:induction false} KeptLenIs(s: string, n: nat, cap: nat, bytes: nat)
    requires Fits(s, n, cap, bytes) && !Fits(s, n + 1, cap, bytes) && s[..0] == ""
    ensures KeptLen(s, 0, cap, bytes) == n
  {
    var m := KeptLen(s, 0, cap, bytes);
    if m < n {
      Utf8Grows(s, m + 1, n);
    } else if n < m {
      Utf8Grows(s, n + 1, m);
    }
  }
}
