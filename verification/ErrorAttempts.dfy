/**
 The table that counts handler errors per stream sequence. It keeps at most
 `ERROR_ATTEMPTS_CAP` sequences and evicts the least recently recorded one.

 `TableMatchesHistory` describes the table after any trace of records and clears by the trace
 alone, without a table: which sequences are still counted, and with which count.
 */
module ErrorAttempts {
  import opened Common

  const ERROR_ATTEMPTS_CAP: nat := 4096
  const I64_MAX: int := 0x7FFF_FFFF_FFFF_FFFF

  type Sequence = nat

  datatype Table = Table(counts: map<Sequence, int>, order: seq<Sequence>)

  const EMPTY := Table(map[], [])

  function Elems(order: seq<Sequence>): set<Sequence> {
    set q | q in order
  }

  ghost predicate NoDuplicates(order: seq<Sequence>) {
    forall i, j :: 0 <= i < j < |order| ==> order[i] != order[j]
  }

  /** Every counted sequence stands once in `order`, and the cap holds. */
  ghost predicate Valid(t: Table) {
    NoDuplicates(t.order) && Elems(t.order) == t.counts.Keys && |t.order| <= ERROR_ATTEMPTS_CAP
  }

  // ------------------------------------------------------------ specification

  function Without(order: seq<Sequence>, s: Sequence): seq<Sequence> {
    if order == [] then []
    else if order[0] == s then Without(order[1..], s)
    else [order[0]] + Without(order[1..], s)
  }

  function Bump(count: int): int {
    if count < I64_MAX then count + 1 else count
  }

  function Record(t: Table, s: Sequence): Table {
    if s in t.counts then
      Table(t.counts[s := Bump(t.counts[s])], Without(t.order, s) + [s])
    else if |t.counts| >= ERROR_ATTEMPTS_CAP && t.order != [] then
      Table((t.counts - {t.order[0]})[s := 1], t.order[1..] + [s])
    else
      Table(t.counts[s := 1], t.order + [s])
  }

  function Clear(t: Table, s: Sequence): Table {
    if s in t.counts then Table(t.counts - {s}, Without(t.order, s)) else t
  }

  // ------------------------------------------------------------ the mutable table

  class ErrorTable {
    var counts: map<Sequence, int>
    var order: seq<Sequence>

    function View(): Table
      reads this
    {
      Table(counts, order)
    }

    constructor ()
      ensures View() == EMPTY && Valid(View())
    {
      counts, order := map[], [];
    }

    /** Record one more error; returns the new count. */
    method RecordError(s: Sequence) returns (count: int)
      requires Valid(View())
      modifies this
      ensures Valid(View()) && View() == Record(old(View()), s)
      ensures s in counts && count == counts[s]
    {
      RecordKeepsValid(View(), s);
      if s in counts {
        MoveToBack(s);
      } else {
        MakeRoom();
        order := order + [s];
      }
      count := if s in counts then Bump(counts[s]) else 1;
      counts := counts[s := count];
    }

    /** Refresh a tracked sequence: move it to the back without duplicating it. */
    method MoveToBack(s: Sequence)
      requires Valid(View()) && s in counts
      modifies this`order
      ensures order == Without(old(order), s) + [s]
    {
      assert s in Elems(order);
      var pos := 0;
      while order[pos] != s
        invariant 0 <= pos < |order| && s !in order[..pos]
        decreases |order| - pos
      {
        pos := pos + 1;
      }
      WithoutUnique(order, s, pos);
      order := order[..pos] + order[pos + 1..] + [s];
    }

    /** Evict the oldest sequences until there is room for one more. */
    method MakeRoom()
      requires Valid(View())
      modifies this
      ensures View() == if old(|counts| >= ERROR_ATTEMPTS_CAP && order != [])
                        then Table(old(counts) - {old(order)[0]}, old(order)[1..]) else old(View())
    {
      CountsAreOrder(View());
      while |counts| >= ERROR_ATTEMPTS_CAP && order != []
        invariant View() == old(View()) || (|counts| < ERROR_ATTEMPTS_CAP
                    && old(|counts| >= ERROR_ATTEMPTS_CAP && order != [])
                    && View() == Table(old(counts) - {old(order)[0]}, old(order)[1..]))
        decreases |order|
      {
        assert order[0] in Elems(order);
        counts, order := counts - {order[0]}, order[1..];
      }
    }

    /** Forget a sequence that was acked or terminated. */
    method ClearSequence(s: Sequence)
      requires Valid(View())
      modifies this
      ensures Valid(View()) && View() == Clear(old(View()), s)
    {
      ClearKeepsValid(View(), s);
      if s in counts {
        counts := counts - {s};
        var kept: seq<Sequence> := [];
        for i := 0 to |order|
          invariant order == old(order) && counts == old(counts) - {s}
          invariant kept == Without(order[..i], s)
        {
          assert order[..i + 1] == order[..i] + [order[i]];
          WithoutPush(order[..i], order[i], s);
          if order[i] != s { kept := kept + [order[i]]; }
        }
        assert order[..|order|] == order;
        order := kept;
      }
    }
  }

  // ------------------------------------------------------------ validity

  lemma {:induction false} WithoutPush(order: seq<Sequence>, q: Sequence, s: Sequence)
    ensures Without(order + [q], s) == Without(order, s) + if q == s then [] else [q]
  {
    if order == [] {
      assert order + [q] == [q];
    } else {
      assert (order + [q])[1..] == order[1..] + [q];
      WithoutPush(order[1..], q, s);
    }
  }

  lemma {:induction false} WithoutUnique(order: seq<Sequence>, s: Sequence, pos: nat)
    requires NoDuplicates(order) && pos < |order| && order[pos] == s
    ensures Without(order, s) == order[..pos] + order[pos + 1..]
  {
    if pos == 0 {
      WithoutAbsent(order[1..], s);
    } else {
      WithoutUnique(order[1..], s, pos - 1);
      assert order[..pos] == [order[0]] + order[1..][..pos - 1];
      assert order[pos + 1..] == order[1..][pos..];
    }
  }

  lemma {:induction false} WithoutAbsent(order: seq<Sequence>, s: Sequence)
    requires s !in order
    ensures Without(order, s) == order
  {
    if order != [] { WithoutAbsent(order[1..], s); }
  }

  lemma {:induction false} WithoutElems(order: seq<Sequence>, s: Sequence)
    ensures Elems(Without(order, s)) == Elems(order) - {s}
  {
    if order != [] {
      WithoutElems(order[1..], s);
      assert Elems(order) == {order[0]} + Elems(order[1..]);
      if order[0] != s {
        assert Elems(Without(order, s)) == {order[0]} + Elems(Without(order[1..], s));
      }
    }
  }

  lemma {:induction false} WithoutKeepsOrder(order: seq<Sequence>, s: Sequence)
    requires NoDuplicates(order)
    ensures NoDuplicates(Without(order, s)) && Elems(Without(order, s)) == Elems(order) - {s}
    ensures |Without(order, s)| == if s in order then |order| - 1 else |order|
  {
    WithoutElems(order, s);
    if s in order {
      var pos :| 0 <= pos < |order| && order[pos] == s;
      WithoutUnique(order, s, pos);
    } else {
      WithoutAbsent(order, s);
    }
  }

  lemma {:induction false} PushKeepsOrder(order: seq<Sequence>, s: Sequence)
    requires NoDuplicates(order) && s !in order
    ensures NoDuplicates(order + [s]) && Elems(order + [s]) == Elems(order) + {s}
  {
  }

  lemma {:induction false} SizeOfDistinct(order: seq<Sequence>)
    requires NoDuplicates(order)
    ensures |Elems(order)| == |order|
  {
    if order == [] {
      assert Elems(order) == {};
    } else {
      SizeOfDistinct(order[1..]);
      assert Elems(order) == Elems(order[1..]) + {order[0]};
    }
  }

  lemma {:induction false} CountsAreOrder(t: Table)
    requires Valid(t)
    ensures |t.counts| == |t.order|
  {
    SizeOfDistinct(t.order);
    assert |t.counts| == |t.counts.Keys|;
  }

  lemma {:induction false} RefreshKeepsValid(t: Table, s: Sequence)
    requires Valid(t) && s in t.counts
    ensures Valid(Record(t, s))
  {
    assert s in Elems(t.order);
    WithoutKeepsOrder(t.order, s);
    assert s !in Elems(Without(t.order, s));
    PushKeepsOrder(Without(t.order, s), s);
  }

  lemma {:induction false} InsertKeepsValid(t: Table, s: Sequence)
    requires Valid(t) && s !in t.counts
    ensures Valid(Record(t, s))
  {
    CountsAreOrder(t);
    assert s !in Elems(t.order);
    if |t.counts| >= ERROR_ATTEMPTS_CAP {
      EvictKeepsValid(t, s);
    } else {
      PushKeepsOrder(t.order, s);
    }
  }

  lemma {:induction false} EvictKeepsValid(t: Table, s: Sequence)
    requires Valid(t) && s !in t.order && t.order != []
    ensures Valid(Table((t.counts - {t.order[0]})[s := 1], t.order[1..] + [s]))
  {
    PushKeepsOrder(t.order[1..], s);
    assert (t.counts - {t.order[0]}).Keys == t.counts.Keys - {t.order[0]};
  }

  lemma {:induction false} RecordKeepsValid(t: Table, s: Sequence)
    requires Valid(t)
    ensures Valid(Record(t, s))
  {
    if s in t.counts { RefreshKeepsValid(t, s); } else { InsertKeepsValid(t, s); }
  }

  lemma {:induction false} ClearKeepsValid(t: Table, s: Sequence)
    requires Valid(t)
    ensures Valid(Clear(t, s))
  {
    if s in t.counts { WithoutKeepsOrder(t.order, s); }
  }

  // ------------------------------------------------------------ traces

  datatype Op = Recorded(s: Sequence) | Cleared(s: Sequence)

  function Apply(t: Table, op: Op): Table {
    match op
    case Recorded(s) => Record(t, s)
    case Cleared(s) => Clear(t, s)
  }

  /** The table after a trace of operations. */
  function After(ops: seq<Op>): Table {
    if ops == [] then EMPTY else Apply(After(ops[..|ops| - 1]), ops[|ops| - 1])
  }

  /**
   Other sequences recorded since the last operation on `s` and not cleared since: the ones
   that are newer than `s` in the table.
   */
  function NewerThan(ops: seq<Op>, s: Sequence): set<Sequence> {
    if ops == [] then {}
    else
      var op, before := ops[|ops| - 1], NewerThan(ops[..|ops| - 1], s);
      if op.s == s then {} else if op.Recorded? then before + {op.s} else before - {op.s}
  }

  /**
   Records of `s` since it was last cleared or pushed out by 4096 newer
   sequences; read off the trace alone.
   */
  function ErrorsSince(ops: seq<Op>, s: Sequence): nat {
    if ops == [] then 0
    else
      var op, before := ops[|ops| - 1], ErrorsSince(ops[..|ops| - 1], s);
      if op == Recorded(s) then before + 1
      else if op == Cleared(s) then 0
      else if |NewerThan(ops, s)| >= 4096 then 0
      else before
  }

  /** The sequences behind `s` in the order. */
  function Behind(order: seq<Sequence>, s: Sequence): set<Sequence> {
    if order == [] then {} else if order[0] == s then Elems(order[1..]) else Behind(order[1..], s)
  }

  lemma {:induction false} AfterIsValid(ops: seq<Op>)
    ensures Valid(After(ops))
  {
    if ops != [] {
      var t, op := After(ops[..|ops| - 1]), ops[|ops| - 1];
      AfterIsValid(ops[..|ops| - 1]);
      if op.Recorded? { RecordKeepsValid(t, op.s); } else { ClearKeepsValid(t, op.s); }
    }
  }

  /** Removing another sequence removes it from those behind `s`. */
  lemma {:induction false} BehindWithout(order: seq<Sequence>, s: Sequence, q: Sequence)
    requires s in order && q != s
    ensures Behind(Without(order, q), s) == Behind(order, s) - {q}
  {
    if order[0] == s {
      assert Without(order, q)[1..] == Without(order[1..], q);
      WithoutElems(order[1..], q);
    } else {
      BehindWithout(order[1..], s, q);
      if order[0] != q { assert Without(order, q)[1..] == Without(order[1..], q); }
    }
  }

  lemma {:induction false} BehindPush(order: seq<Sequence>, s: Sequence, q: Sequence)
    requires s in order
    ensures Behind(order + [q], s) == Behind(order, s) + {q}
  {
    assert (order + [q])[1..] == order[1..] + [q];
    if order[0] != s { BehindPush(order[1..], s, q); }
  }

  lemma {:induction false} BehindLast(order: seq<Sequence>, s: Sequence)
    requires s !in order
    ensures Behind(order + [s], s) == {}
  {
    if order == [] {
      assert (order + [s])[1..] == [];
    } else {
      assert (order + [s])[1..] == order[1..] + [s];
      BehindLast(order[1..], s);
    }
  }

  /** `s` is the oldest exactly when all the others are behind it. */
  lemma {:induction false} OldestHasAllBehind(order: seq<Sequence>, s: Sequence)
    requires NoDuplicates(order) && s in order
    ensures Behind(order, s) <= Elems(order)
    ensures |Behind(order, s)| < |order| && (|Behind(order, s)| == |order| - 1 <==> order[0] == s)
  {
    if order[0] == s {
      SizeOfDistinct(order[1..]);
    } else {
      OldestHasAllBehind(order[1..], s);
    }
  }

  /** What recording `q` leaves of `s`, given the sequences that are then newer. */
  ghost predicate KeptBehind(t: Table, u: Table, s: Sequence, newer: set<Sequence>)
    requires s in t.counts
  {
    && (s in u.counts <==> |newer| < ERROR_ATTEMPTS_CAP)
    && (s in u.counts ==> u.counts[s] == t.counts[s] && Behind(u.order, s) == newer)
  }

  lemma {:induction false} RefreshOther(t: Table, s: Sequence, q: Sequence)
    requires Valid(t) && s in t.counts && q in t.counts && q != s
    ensures KeptBehind(t, Record(t, q), s, Behind(t.order, s) + {q})
  {
    assert s in Elems(t.order);
    var newer, rest := Behind(t.order, s), Without(t.order, q);
    BehindWithout(t.order, s, q);
    WithoutElems(t.order, q);
    assert s in Elems(rest);
    BehindPush(rest, s, q);
    assert newer - {q} + {q} == newer + {q};
    RefreshKeepsValid(t, q);
    OldestHasAllBehind(rest + [q], s);
  }

  lemma {:induction false} InsertOther(t: Table, s: Sequence, q: Sequence)
    requires Valid(t) && s in t.counts && q !in t.counts
    ensures KeptBehind(t, Record(t, q), s, Behind(t.order, s) + {q})
  {
    assert s in Elems(t.order) && q !in Elems(t.order);
    CountsAreOrder(t);
    OldestHasAllBehind(t.order, s);
    var newer := Behind(t.order, s);
    assert |newer + {q}| == |newer| + 1;
    if |t.counts| < ERROR_ATTEMPTS_CAP {
      BehindPush(t.order, s, q);
    } else if t.order[0] != s {
      BehindPush(t.order[1..], s, q);
    }
  }

  /** One record of another sequence: what happens to `s` depends on how many are newer. */
  lemma {:induction false} RecordOther(t: Table, s: Sequence, q: Sequence)
    requires Valid(t) && s in t.counts && q != s
    ensures KeptBehind(t, Record(t, q), s, Behind(t.order, s) + {q})
  {
    if q in t.counts { RefreshOther(t, s, q); } else { InsertOther(t, s, q); }
  }

  /**
   After every trace: a sequence is tracked exactly when the trace says it has errors left to
   count, its count is that number, and the sequences behind it are those newer than it.
   */
  lemma {:induction false} TableMatchesHistory(ops: seq<Op>, s: Sequence)
    ensures s in After(ops).counts <==> ErrorsSince(ops, s) > 0
    ensures s in After(ops).counts ==>
              && After(ops).counts[s] == Min(ErrorsSince(ops, s), I64_MAX)
              && Behind(After(ops).order, s) == NewerThan(ops, s)
  {
    if ops != [] {
      var pre, op := ops[..|ops| - 1], ops[|ops| - 1];
      var t := After(pre);
      AfterIsValid(pre);
      TableMatchesHistory(pre, s);
      if op.Recorded? {
        if op.s == s { RecordSelf(t, s); } else if s in t.counts { RecordOther(t, s, op.s); }
      } else if op.s != s && s in t.counts {
        ClearOther(t, s, op.s);
      }
    }
  }

  lemma {:induction false} RecordSelf(t: Table, s: Sequence)
    requires Valid(t)
    ensures Behind(Record(t, s).order, s) == {}
  {
    if s in t.counts {
      WithoutElems(t.order, s);
      assert s !in Elems(Without(t.order, s));
      BehindLast(Without(t.order, s), s);
    } else {
      assert s !in Elems(t.order);
      BehindLast(t.order, s);
      if t.order != [] { BehindLast(t.order[1..], s); }
    }
  }

  lemma {:induction false} ClearOther(t: Table, s: Sequence, q: Sequence)
    requires Valid(t) && s in t.counts && q != s
    ensures s in Clear(t, q).counts && Clear(t, q).counts[s] == t.counts[s]
    ensures Behind(Clear(t, q).order, s) == Behind(t.order, s) - {q}
    ensures |Behind(t.order, s) - {q}| < ERROR_ATTEMPTS_CAP
  {
    assert s in Elems(t.order);
    OldestHasAllBehind(t.order, s);
    NewerThanSize(Behind(t.order, s) - {q}, Behind(t.order, s));
    if q in t.counts { BehindWithout(t.order, s, q); } else { assert q !in Elems(t.order); }
  }

  /** Distinct other sequences recorded in a trace. */
  function OthersRecorded(ops: seq<Op>, s: Sequence): set<Sequence> {
    set k | 0 <= k < |ops| && ops[k].Recorded? && ops[k].s != s :: ops[k].s
  }

  lemma {:induction false} NewerAreOthers(ops: seq<Op>, s: Sequence, n: nat)
    requires n <= |ops|
    ensures NewerThan(ops[..n], s) <= OthersRecorded(ops, s)
  {
    if n > 0 {
      assert ops[..n][..n - 1] == ops[..n - 1];
      NewerAreOthers(ops, s, n - 1);
    }
  }

  lemma {:induction false} FewNewer(ops: seq<Op>, s: Sequence, n: nat)
    requires n <= |ops|
    ensures |NewerThan(ops[..n], s)| <= |OthersRecorded(ops, s)|
  {
    NewerAreOthers(ops, s, n);
    NewerThanSize(NewerThan(ops[..n], s), OthersRecorded(ops, s));
  }

  lemma {:induction false} NewerAreRecorded(pre: seq<Op>, ops: seq<Op>, s: Sequence)
    requires pre != [] && pre[|pre| - 1] == Recorded(s)
    ensures NewerThan(pre + ops, s) <= OthersRecorded(ops, s)
  {
    if ops == [] {
      assert pre + ops == pre;
    } else {
      var n := |ops| - 1;
      assert (pre + ops)[..|pre + ops| - 1] == pre + ops[..n];
      NewerAreRecorded(pre, ops[..n], s);
      assert OthersRecorded(ops[..n], s) <= OthersRecorded(ops, s) by {
        forall q | q in OthersRecorded(ops[..n], s) ensures q in OthersRecorded(ops, s) {
          var k :| 0 <= k < n && ops[..n][k].Recorded? && ops[..n][k].s != s && ops[..n][k].s == q;
          assert ops[k].s == q;
        }
      }
    }
  }

  /**
   A sequence that was not cleared since its last record keeps its exact count as long as
   fewer than the cap's number of distinct other sequences were recorded since then.
   */
  lemma {:induction false} KeptWhileFewOthers(pre: seq<Op>, ops: seq<Op>, s: Sequence)
    requires pre != [] && pre[|pre| - 1] == Recorded(s)
    requires forall k :: 0 <= k < |ops| ==> ops[k].s != s
    requires |OthersRecorded(ops, s)| < 4096
    ensures s in After(pre).counts && s in After(pre + ops).counts
    ensures After(pre + ops).counts[s] == After(pre).counts[s]
  {
    TableMatchesHistory(pre, s);
    TableMatchesHistory(pre + ops, s);
    ErrorsStay(pre, ops, s);
  }

  lemma {:induction false} ErrorsStay(pre: seq<Op>, ops: seq<Op>, s: Sequence)
    requires pre != [] && pre[|pre| - 1] == Recorded(s)
    requires forall k :: 0 <= k < |ops| ==> ops[k].s != s
    requires |OthersRecorded(ops, s)| < 4096
    ensures ErrorsSince(pre + ops, s) == ErrorsSince(pre, s) > 0
  {
    if ops == [] {
      assert pre + ops == pre;
    } else {
      var n := |ops| - 1;
      assert (pre + ops)[..|pre + ops| - 1] == pre + ops[..n];
      assert ops == ops[..n] + [ops[n]];
      NewerAreRecorded(pre, ops, s);
      NewerThanSize(NewerThan(pre + ops, s), OthersRecorded(ops, s));
      assert OthersRecorded(ops[..n], s) <= OthersRecorded(ops, s) by {
        forall q | q in OthersRecorded(ops[..n], s) ensures q in OthersRecorded(ops, s) {
          var k :| 0 <= k < n && ops[..n][k].Recorded? && ops[..n][k].s != s && ops[..n][k].s == q;
          assert ops[k].s == q;
        }
      }
      NewerThanSize(OthersRecorded(ops[..n], s), OthersRecorded(ops, s));
      ErrorsStay(pre, ops[..n], s);
    }
  }

  lemma {:induction false} NewerThanSize(a: set<Sequence>, b: set<Sequence>)
    requires a <= b
    ensures |a| <= |b|
  {
    assert b == a + (b - a);
  }
}
