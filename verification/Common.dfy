/** Small types shared by the other modules. */
module Common {

  datatype Option<+T> = None | Some(value: T)

  datatype Result<+T, +E> = Ok(value: T) | Err(error: E)

  const U32_MAX: nat := 0xFFFF_FFFF

  type Byte = x: int | 0 <= x < 256

  /** A decoded JSON value, as far as the runtime looks into one. */
  datatype Json =
    | JNull
    | JBool(b: bool)
    | JNum(n: int)
    | JStr(s: string)
    | JArr(items: seq<Json>)
    | JObj(fields: map<string, Json>)
  {
    /** The member `key` of an object; anything else has no members. */
    function Get(key: string): Option<Json> {
      if JObj? && key in fields then Some(fields[key]) else None
    }
  }

  function Min(a: int, b: int): int {
    if a <= b then a else b
  }

  function Max(a: int, b: int): int {
    if a >= b then a else b
  }

  // ------------------------------------------------------------ text

  function TrimLeft(white: char -> bool, s: string): (r: string)
    ensures forall i :: 0 <= i < |r| ==> r[i] in s
    ensures |r| <= |s| && (r != "" ==> !white(r[0]))
  {
    if s != "" && white(s[0]) then TrimLeft(white, s[1..]) else s
  }

  function TrimRight(white: char -> bool, s: string): (r: string)
    ensures r <= s
    ensures r != "" ==> !white(r[|r| - 1])
  {
    if s != "" && white(s[|s| - 1]) then TrimRight(white, s[..|s| - 1]) else s
  }

  function Trim(white: char -> bool, s: string): string {
    TrimRight(white, TrimLeft(white, s))
  }

  predicate AllWhite(white: char -> bool, s: string) {
    forall i :: 0 <= i < |s| ==> white(s[i])
  }

  /** No white space at the ends. */
  predicate Tight(white: char -> bool, s: string) {
    s == "" || (!white(s[0]) && !white(s[|s| - 1]))
  }

  /** Trimming takes the white space off both ends and nothing else. */
  lemma {:induction false} TrimIs(white: char -> bool, a: string, m: string, b: string)
    requires AllWhite(white, a) && AllWhite(white, b) && Tight(white, m)
    ensures Trim(white, a + m + b) == m
  {
    if m == "" {
      assert a + m + b == a + b;
      TrimLeftAll(white, a + b);
    } else {
      assert a + m + b == a + (m + b);
      TrimLeftIs(white, a, m + b);
      TrimRightIs(white, m, b);
    }
  }

  lemma {:induction false} TrimLeftIs(white: char -> bool, a: string, m: string)
    requires AllWhite(white, a) && m != "" && !white(m[0])
    ensures TrimLeft(white, a + m) == m
  {
    if a == "" {
      assert a + m == m;
    } else {
      assert (a + m)[1..] == a[1..] + m;
      TrimLeftIs(white, a[1..], m);
    }
  }

  lemma {:induction false} TrimLeftAll(white: char -> bool, a: string)
    requires AllWhite(white, a)
    ensures TrimLeft(white, a) == ""
  {
    if a != "" { TrimLeftAll(white, a[1..]); }
  }

  lemma {:induction false} TrimRightIs(white: char -> bool, m: string, b: string)
    requires AllWhite(white, b) && m != "" && !white(m[|m| - 1])
    ensures TrimRight(white, m + b) == m
  {
    if b == "" {
      assert m + b == m;
    } else {
      assert (m + b)[..|m + b| - 1] == m + b[..|b| - 1];
      TrimRightIs(white, m, b[..|b| - 1]);
    }
  }

  // ------------------------------------------------------------ sequences

  /** All the parts, one after the other. */
  function Concat<T>(parts: seq<seq<T>>): seq<T> {
    if parts == [] then [] else parts[0] + Concat(parts[1..])
  }

  lemma {:induction false} ConcatAppend<T>(a: seq<seq<T>>, b: seq<seq<T>>)
    ensures Concat(a + b) == Concat(a) + Concat(b)
  {
    if a == [] {
      assert a + b == b;
    } else {
      assert (a + b)[1..] == a[1..] + b;
      ConcatAppend(a[1..], b);
    }
  }

  lemma {:induction false} Assoc<T>(a: seq<T>, b: seq<T>, c: seq<T>)
    ensures (a + b) + c == a + (b + c)
  {
  }

  lemma {:induction false} SplitLast<T>(s: seq<T>)
    requires s != []
    ensures s == s[..|s| - 1] + [s[|s| - 1]]
  {
  }

  /** Decimal digits of a natural number. */
  function Decimal(n: nat): string {
    if n < 10 then [('0' as int + n) as char] else Decimal(n / 10) + [('0' as int + n % 10) as char]
  }
}
