/**
 How one delivery of a request is settled, and the error budget of a request whose
 deliveries interleave with those of any number of others through the shared table.
 Durations are in milliseconds; a message's age is a whole number of seconds.
 */
module Settlement {
  import opened Common
  import opened ErrorAttempts

  const SECOND: nat := 1000
  const MAX_DELIVER: int := 6
  const CONSUMER_MAX_DELIVER: int := 100
  const BUSY_BUDGET_MARGIN: nat := 60 * SECOND
  const BUSY_REDELIVER_DELAY: nat := 5 * SECOND
  const BUSY_REDELIVER_MAX_DELAY: nat := 60 * SECOND
  const ERROR_REDELIVER_DELAY: nat := 2 * SECOND
  const LOCK_WAIT: nat := 5 * SECOND
  const HANDLE_MARGIN: nat := 30 * SECOND
  const HANDLE_TIMEOUT: nat := 240 * SECOND
  const HANDLE_TIMEOUT_CEILING: nat := 30 * 60 * SECOND
  const MAX_BUSY_BUDGET: nat := HANDLE_TIMEOUT_CEILING + BUSY_BUDGET_MARGIN

  datatype Disposition = Handled | Busy | Rejected
  datatype Outcome = Done(disposition: Disposition) | Failed
  datatype AckKind = Ack | Nak(delay: nat) | Term
  datatype BusyPolicy = Redeliver | Respond

  function Pow2(n: nat): nat {
    if n == 0 then 1 else 2 * Pow2(n - 1)
  }

  function Clamp(x: int, lo: int, hi: int): int {
    Min(Max(x, lo), hi)
  }

  /** Delay after `delivered` deliveries of a busy request: 5, 10, 20, 40, then 60 seconds. */
  function BusyDelay(delivered: int): nat {
    var exp := Clamp(delivered - 1, 0, 16);
    Min(BUSY_REDELIVER_DELAY * Pow2(exp), BUSY_REDELIVER_MAX_DELAY)
  }

  function HandleTimeoutFor(step: Option<nat>): nat {
    if step.None? then HANDLE_TIMEOUT
    else Clamp(step.value + LOCK_WAIT + HANDLE_MARGIN, HANDLE_TIMEOUT, HANDLE_TIMEOUT_CEILING)
  }

  function BusyBudget(step: Option<nat>): nat {
    HandleTimeoutFor(step) + BUSY_BUDGET_MARGIN
  }

  function BusyPolicyFor(delivered: int, age: nat, budget: nat): BusyPolicy {
    if delivered >= CONSUMER_MAX_DELIVER - 1 || age + BusyDelay(delivered) > budget then Respond else Redeliver
  }

  function Settle(result: Outcome, delivered: int, errorAttempts: int): AckKind {
    match result
    case Done(Handled) => Ack
    case Done(Busy) => Nak(BusyDelay(delivered))
    case Done(Rejected) => Term
    case Failed =>
      if errorAttempts >= MAX_DELIVER || delivered >= CONSUMER_MAX_DELIVER then Term
      else Nak(ERROR_REDELIVER_DELAY)
  }

  /** The busy delays, as the table of the schedule gives them. */
  lemma {:induction false} BusyDelaySchedule(delivered: int)
    ensures BusyDelay(delivered) ==
      if delivered <= 1 then 5 * SECOND else if delivered == 2 then 10 * SECOND
      else if delivered == 3 then 20 * SECOND else if delivered == 4 then 40 * SECOND else 60 * SECOND
  {
    assert Pow2(0) == 1 && Pow2(1) == 2 && Pow2(2) == 4 && Pow2(3) == 8;
    if delivered > 4 { Pow2Grows(4, Clamp(delivered - 1, 0, 16)); assert Pow2(4) == 16; }
  }

  lemma {:induction false} Pow2Grows(a: nat, b: nat)
    requires a <= b
    ensures 1 <= Pow2(a) <= Pow2(b)
    decreases b
  {
    if a < b { Pow2Grows(a, b - 1); } else if a > 0 { Pow2Grows(a - 1, a - 1); }
  }

  /** The handler's bound follows the agent's own timeout: 35 seconds more, but between 4 and 30 minutes. */
  lemma {:induction false} HandleTimeoutFollows(step: Option<nat>)
    ensures HandleTimeoutFor(step) ==
            if step.None? || step.value <= 205_000 then 240_000
            else if step.value >= 1_765_000 then 1_800_000 else step.value + 35_000
    ensures BusyBudget(step) == HandleTimeoutFor(step) + 60_000
  {
  }

  /** A busy request is put off exactly while the next delivery would still be within the budget and there is one left. */
  lemma {:induction false} BusyPolicyExactly(delivered: int, age: nat, budget: nat)
    ensures BusyPolicyFor(delivered, age, budget) == Redeliver <==> delivered < 99 && age + BusyDelay(delivered) <= budget
  {
  }

  /** Whatever an agent's timeout, its busy budget is between 5 and 31 minutes. */
  lemma BusyBudgetIsFinite(step: Option<nat>)
    ensures HANDLE_TIMEOUT + BUSY_BUDGET_MARGIN <= BusyBudget(step) <= MAX_BUSY_BUDGET
  {
  }

  // ------------------------------------------------------------ one delivery

  /** The table, the settlement and the attempt number after one delivery. */
  function SettleDelivery(t: Table, result: Outcome, sequence: Option<Sequence>, delivered: int)
    : (Table, AckKind, int)
  {
    var counted := if result.Failed? && sequence.Some? then Record(t, sequence.value) else t;
    var attempt :=
      if !result.Failed? then 0
      else if sequence.None? then MAX_DELIVER
      else if sequence.value in counted.counts then counted.counts[sequence.value] else 0;
    var kind := Settle(result, delivered, attempt);
    (if sequence.Some? && !kind.Nak? then Clear(counted, sequence.value) else counted, kind, attempt)
  }

  method SettleAndCount(table: ErrorTable, result: Outcome, sequence: Option<Sequence>, delivered: int)
    returns (kind: AckKind, attempt: int)
    requires Valid(table.View())
    modifies table
    ensures Valid(table.View())
    ensures (table.View(), kind, attempt) == SettleDelivery(old(table.View()), result, sequence, delivered)
  {
    attempt := 0;
    if result.Failed? {
      if sequence.Some? {
        attempt := table.RecordError(sequence.value);
      } else {
        attempt := MAX_DELIVER;
      }
    }
    kind := Settle(result, delivered, attempt);
    if sequence.Some? && !kind.Nak? {
      table.ClearSequence(sequence.value);
    }
  }

  // ------------------------------------------------------------ many requests

  /** One delivery of some request, as the settlement sees it. */
  datatype Delivery = Delivery(sequence: Option<Sequence>, result: Outcome, delivered: int)

  function TableAfter(ds: seq<Delivery>): Table {
    if ds == [] then EMPTY
    else
      var d := ds[|ds| - 1];
      SettleDelivery(TableAfter(ds[..|ds| - 1]), d.result, d.sequence, d.delivered).0
  }

  function KindOf(ds: seq<Delivery>, d: Delivery): AckKind {
    SettleDelivery(TableAfter(ds), d.result, d.sequence, d.delivered).1
  }

  /** Handler errors of request `s` since its last settlement other than a Nak. */
  function ErrorsOf(ds: seq<Delivery>, s: Sequence): nat {
    if ds == [] then 0
    else
      var d, before := ds[|ds| - 1], ErrorsOf(ds[..|ds| - 1], s);
      if d.sequence != Some(s) then before
      else
        match d.result
        case Done(Busy) => before
        case Done(_) => 0
        case Failed => if before + 1 >= MAX_DELIVER || d.delivered >= CONSUMER_MAX_DELIVER then 0 else before + 1
  }

  /** The table operations a delivery performs. */
  function OpsOf(ds: seq<Delivery>): seq<Op> {
    if ds == [] then []
    else
      var pre, d := ds[..|ds| - 1], ds[|ds| - 1];
      if d.sequence.None? then OpsOf(pre)
      else
        OpsOf(pre) + (if d.result.Failed? then [Recorded(d.sequence.value)] else [])
                   + (if KindOf(pre, d).Nak? then [] else [Cleared(d.sequence.value)])
  }

  /** No failure of another request ever pushes a tracked `s` out of the table. */
  ghost predicate NeverEvicted(ds: seq<Delivery>, s: Sequence) {
    forall n :: 0 <= n < |OpsOf(ds)| && OpsOf(ds)[n].s != s && s in After(OpsOf(ds)[..n]).counts ==>
      |NewerThan(OpsOf(ds)[..n + 1], s)| < 4096
  }

  /** A request is not evicted as long as fewer than the cap's number of other requests fail. */
  lemma {:induction false} FewOthersNeverEvict(ds: seq<Delivery>, s: Sequence)
    requires |OthersRecorded(OpsOf(ds), s)| < 4096
    ensures NeverEvicted(ds, s)
  {
    forall n | 0 <= n < |OpsOf(ds)| && OpsOf(ds)[n].s != s && s in After(OpsOf(ds)[..n]).counts
      ensures |NewerThan(OpsOf(ds)[..n + 1], s)| < ERROR_ATTEMPTS_CAP
    {
      FewNewer(OpsOf(ds), s, n + 1);
    }
  }

  lemma {:induction false} TableIsOps(ds: seq<Delivery>)
    ensures TableAfter(ds) == After(OpsOf(ds))
  {
    if ds != [] {
      var pre, d := ds[..|ds| - 1], ds[|ds| - 1];
      TableIsOps(pre);
      if d.sequence.Some? {
        var ops, s := OpsOf(pre), d.sequence.value;
        var rec := if d.result.Failed? then [Recorded(s)] else [];
        var clr := if KindOf(pre, d).Nak? then [] else [Cleared(s)];
        if d.result.Failed? { assert (ops + rec)[..|ops|] == ops; } else { assert ops + rec == ops; }
        if KindOf(pre, d).Nak? {
          assert ops + rec + clr == ops + rec;
        } else {
          assert (ops + rec + clr)[..|ops + rec|] == ops + rec;
        }
      }
    }
  }

  lemma {:induction false} EvictedPrefix(ds: seq<Delivery>, s: Sequence)
    requires ds != [] && NeverEvicted(ds, s)
    ensures NeverEvicted(ds[..|ds| - 1], s)
  {
    var ops := OpsOf(ds[..|ds| - 1]);
    assert ops <= OpsOf(ds);
    forall n | 0 <= n < |ops| && ops[n].s != s && s in After(ops[..n]).counts
      ensures |NewerThan(ops[..n + 1], s)| < ERROR_ATTEMPTS_CAP
    {
      assert ops[..n] == OpsOf(ds)[..n] && ops[..n + 1] == OpsOf(ds)[..n + 1];
    }
  }

  /**
   The shared table serves each request as a private counter would: as long as a request is not
   evicted, its count is its own errors since its last settlement other than a Nak, and it
   is tracked exactly when there are any.
   */
  lemma {:induction false} PrivateCounter(ds: seq<Delivery>, s: Sequence)
    requires NeverEvicted(ds, s)
    ensures ErrorsSince(OpsOf(ds), s) == ErrorsOf(ds, s) < MAX_DELIVER
    ensures s in TableAfter(ds).counts <==> ErrorsOf(ds, s) > 0
    ensures s in TableAfter(ds).counts ==> TableAfter(ds).counts[s] == ErrorsOf(ds, s)
  {
    TableIsOps(ds);
    TableMatchesHistory(OpsOf(ds), s);
    if ds != [] {
      var pre, d := ds[..|ds| - 1], ds[|ds| - 1];
      EvictedPrefix(ds, s);
      PrivateCounter(pre, s);
      SplitLast(ds);
      if d.sequence == Some(s) { CountOwn(pre, d, s); } else if d.sequence.Some? { CountOther(pre, d, s); }
    }
  }

  /** A delivery of the request itself. */
  lemma {:induction false} CountOwn(pre: seq<Delivery>, d: Delivery, s: Sequence)
    requires d.sequence == Some(s) && ErrorsSince(OpsOf(pre), s) == ErrorsOf(pre, s) < MAX_DELIVER
    requires s in TableAfter(pre).counts <==> ErrorsOf(pre, s) > 0
    requires s in TableAfter(pre).counts ==> TableAfter(pre).counts[s] == ErrorsOf(pre, s)
    ensures ErrorsSince(OpsOf(pre + [d]), s) == ErrorsOf(pre + [d], s) < MAX_DELIVER
    ensures d.result.Failed? ==> (KindOf(pre, d).Term? <==>
              ErrorsOf(pre, s) + 1 >= MAX_DELIVER || d.delivered >= CONSUMER_MAX_DELIVER)
  {
    KindOfOwn(pre, d, s);
    assert (pre + [d])[..|pre|] == pre;
    SinceDelivery(OpsOf(pre), d.result.Failed?, KindOf(pre, d).Nak?, s);
  }

  lemma {:induction false} KindOfOwn(pre: seq<Delivery>, d: Delivery, s: Sequence)
    requires d.sequence == Some(s) && ErrorsOf(pre, s) < MAX_DELIVER
    requires s in TableAfter(pre).counts <==> ErrorsOf(pre, s) > 0
    requires s in TableAfter(pre).counts ==> TableAfter(pre).counts[s] == ErrorsOf(pre, s)
    ensures d.result.Failed? ==> !KindOf(pre, d).Ack?
    ensures d.result.Failed? ==> (KindOf(pre, d).Term? <==>
              ErrorsOf(pre, s) + 1 >= MAX_DELIVER || d.delivered >= CONSUMER_MAX_DELIVER)
    ensures d.result.Done? ==> (KindOf(pre, d).Nak? <==> d.result == Done(Busy))
  {
  }

  /** What the operations of one delivery do to its request's count. */
  lemma {:induction false} SinceDelivery(ops: seq<Op>, failed: bool, nak: bool, s: Sequence)
    ensures ErrorsSince(ops + (if failed then [Recorded(s)] else []) + (if nak then [] else [Cleared(s)]), s) ==
            if !nak then 0 else ErrorsSince(ops, s) + if failed then 1 else 0
  {
    var rec := if failed then [Recorded(s)] else [];
    var mid := ops + rec;
    if failed { assert mid[..|ops|] == ops; } else { assert mid == ops; }
    if nak { assert mid + [] == mid; } else { assert (mid + [Cleared(s)])[..|mid|] == mid; }
  }

  /** One operation on another sequence leaves the count of `s`, unless it evicts `s`. */
  lemma {:induction false} OtherOp(ops: seq<Op>, op: Op, s: Sequence)
    requires op.s != s && (s in After(ops).counts ==> |NewerThan(ops + [op], s)| < ERROR_ATTEMPTS_CAP)
    ensures ErrorsSince(ops + [op], s) == ErrorsSince(ops, s)
  {
    assert (ops + [op])[..|ops|] == ops;
    TableMatchesHistory(ops, s);
  }

  /** A delivery of another request. */
  lemma {:induction false} CountOther(pre: seq<Delivery>, d: Delivery, s: Sequence)
    requires d.sequence.Some? && d.sequence.value != s && NeverEvicted(pre + [d], s)
    ensures ErrorsSince(OpsOf(pre + [d]), s) == ErrorsSince(OpsOf(pre), s)
  {
    var ops, all := OpsOf(pre), OpsOf(pre + [d]);
    assert (pre + [d])[..|pre|] == pre;
    assert ops <= all && all[..|ops|] == ops;
    if |all| > |ops| {
      var one := all[..|ops| + 1];
      assert one == ops + [all[|ops|]];
      OtherOp(ops, all[|ops|], s);
      if |all| > |ops| + 1 {
        assert all[..|ops| + 2] == all == one + [all[|ops| + 1]];
        OtherOp(one, all[|ops| + 1], s);
      } else {
        assert all == one;
      }
    } else {
      assert all == ops;
    }
  }

  /**
   For any interleaving with other requests: a failing delivery ends the request exactly on its
   sixth error since its last settlement other than a Nak, or at the delivery backstop; busy
   deliveries never count; and after the delivery the request is tracked exactly when it was
   Nak'd and has errors.
   */
  lemma {:induction false} ErrorBudget(ds: seq<Delivery>, d: Delivery, s: Sequence)
    requires NeverEvicted(ds + [d], s) && d.sequence == Some(s)
    ensures d.result.Failed? ==> (KindOf(ds, d).Term? <==>
              ErrorsOf(ds, s) + 1 == MAX_DELIVER || d.delivered >= CONSUMER_MAX_DELIVER)
    ensures d.result == Done(Busy) ==> ErrorsOf(ds + [d], s) == ErrorsOf(ds, s)
    ensures s in TableAfter(ds + [d]).counts <==>
              KindOf(ds, d).Nak? && ErrorsOf(ds, s) + (if d.result.Failed? then 1 else 0) > 0
  {
    assert (ds + [d])[..|ds|] == ds;
    EvictedPrefix(ds + [d], s);
    PrivateCounter(ds, s);
    PrivateCounter(ds + [d], s);
    CountOwn(ds, d, s);
  }
}
