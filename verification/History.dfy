/**
 Dropping old turns from a transcript. The unit is a whole turn (a user message and all up
 to the next one), system messages stay, and neither the newest turn nor one that holds the
 parked call is dropped.
 */
module History {
  import opened Common
  import opened Transcript

  function NonSystem(ms: seq<Message>): nat {
    if ms == [] then 0 else NonSystem(ms[..|ms| - 1]) + if ms[|ms| - 1].System? then 0 else 1
  }

  function Systems(ms: seq<Message>): (r: seq<Message>)
    ensures forall k :: 0 <= k < |r| ==> r[k].System?
  {
    if ms == [] then []
    else Systems(ms[..|ms| - 1]) + if ms[|ms| - 1].System? then [ms[|ms| - 1]] else []
  }

  /** End of the turn that starts at `i`: the next user message, or the end. */
  function TurnEnd(ms: seq<Message>, i: nat): (end: nat)
    requires i < |ms|
    ensures i < end <= |ms| && (end < |ms| ==> ms[end].User?)
    ensures forall k :: i < k < end ==> !ms[k].User?
    decreases |ms| - i
  {
    if i + 1 < |ms| && !ms[i + 1].User? then TurnEnd(ms, i + 1) else i + 1
  }

  predicate Mentions(m: Message, c: CallId) {
    Made(m, c) || (m.Tool? && m.callId == c)
  }

  predicate HoldsProtected(ms: seq<Message>, i: nat, end: nat, keep: Option<CallId>)
    requires i <= end <= |ms|
  {
    keep.Some? && exists k :: i <= k < end && Mentions(ms[k], keep.value)
  }

  /** A turn may start at `i`: only system messages before it, or a user message there. */
  ghost predicate Boundary(ms: seq<Message>, i: nat) {
    i <= |ms| && ((forall k :: 0 <= k < i ==> ms[k].System?) || (i < |ms| && ms[i].User?))
  }

  /** The oldest droppable turn `[start, end)` at or after `from`. */
  function OldestRemovable(ms: seq<Message>, from: nat, keep: Option<CallId>): (r: Option<(nat, nat)>)
    requires from <= |ms|
    ensures r.Some? ==> from <= r.value.0 < r.value.1 < |ms| && ms[r.value.1].User?
                        && !ms[r.value.0].System? && !HoldsProtected(ms, r.value.0, r.value.1, keep)
    ensures r.Some? && Boundary(ms, from) ==> Boundary(ms, r.value.0)
    decreases |ms| - from
  {
    if from == |ms| then None
    else if ms[from].System? then OldestRemovable(ms, from + 1, keep)
    else
      var end := TurnEnd(ms, from);
      if end == |ms| then None
      else if HoldsProtected(ms, from, end, keep) then OldestRemovable(ms, end, keep)
      else Some((from, end))
  }

  function DropTurn(ms: seq<Message>, i: nat, end: nat): seq<Message>
    requires i <= end <= |ms|
  {
    ms[..i] + Systems(ms[i..end]) + ms[end..]
  }

  function Truncated(ms: seq<Message>, max: nat, keep: Option<CallId>): seq<Message>
    decreases NonSystem(ms)
  {
    if NonSystem(ms) <= max then ms
    else
      var turn := OldestRemovable(ms, 0, keep);
      if turn.None? then ms
      else
        DropTurnShrinks(ms, turn.value.0, turn.value.1);
        Truncated(DropTurn(ms, turn.value.0, turn.value.1), max, keep)
  }

  // ---------------------------------------------------------------- counting

  lemma {:induction false} NonSystemAppend(a: seq<Message>, b: seq<Message>)
    ensures NonSystem(a + b) == NonSystem(a) + NonSystem(b)
  {
    if b == [] {
      assert a + b == a;
    } else {
      assert (a + b)[..|a + b| - 1] == a + b[..|b| - 1];
      NonSystemAppend(a, b[..|b| - 1]);
    }
  }

  lemma {:induction false} SystemsAppend(a: seq<Message>, b: seq<Message>)
    ensures Systems(a + b) == Systems(a) + Systems(b)
  {
    if b == [] {
      assert a + b == a;
    } else {
      assert (a + b)[..|a + b| - 1] == a + b[..|b| - 1];
      SystemsAppend(a, b[..|b| - 1]);
    }
  }

  lemma {:induction false} SystemsOnly(ms: seq<Message>)
    ensures NonSystem(Systems(ms)) == 0 && Systems(Systems(ms)) == Systems(ms)
  {
    if ms != [] {
      SystemsOnly(ms[..|ms| - 1]);
      var last := if ms[|ms| - 1].System? then [ms[|ms| - 1]] else [];
      NonSystemAppend(Systems(ms[..|ms| - 1]), last);
      SystemsAppend(Systems(ms[..|ms| - 1]), last);
    }
  }

  lemma {:induction false} DropTurnShrinks(ms: seq<Message>, i: nat, end: nat)
    requires i < end <= |ms| && !ms[i].System?
    ensures NonSystem(DropTurn(ms, i, end)) < NonSystem(ms)
  {
    var a, b, c := ms[..i], ms[i..end], ms[end..];
    assert ms == a + b + c;
    NonSystemAppend(a + b, c);
    NonSystemAppend(a, b);
    NonSystemAppend(a + Systems(b), c);
    NonSystemAppend(a, Systems(b));
    SystemsOnly(b);
    assert b == [b[0]] + b[1..];
    NonSystemAppend([b[0]], b[1..]);
  }

  // ------------------------------------------------ what dropping a turn keeps

  lemma {:induction false} ScanSystems(ms: seq<Message>)
    requires forall k :: 0 <= k < |ms| ==> ms[k].System?
    ensures Unanswered(ms) == Some({})
  {
    if ms != [] { ScanSystems(ms[..|ms| - 1]); }
  }

  /** Before a user message nothing waits. */
  lemma {:induction false} QuietBeforeUser(ms: seq<Message>, i: nat)
    requires i < |ms| && ms[i].User? && Unanswered(ms).Some?
    ensures Unanswered(ms[..i]) == Some({})
  {
    assert ms == ms[..i + 1] + ms[i + 1..];
    ScanAppend({}, ms[..i + 1], ms[i + 1..]);
    assert ms[..i + 1][..i] == ms[..i];
  }

  lemma {:induction false} DropTurnScan(ms: seq<Message>, i: nat, end: nat)
    requires i < end < |ms| && ms[end].User? && Boundary(ms, i) && Unanswered(ms).Some?
    ensures Unanswered(DropTurn(ms, i, end)) == Unanswered(ms)
  {
    var a, b, c := ms[..i], ms[i..end], ms[end..];
    assert Unanswered(a) == Some({}) by {
      if ms[i].User? { QuietBeforeUser(ms, i); } else { ScanSystems(a); }
    }
    QuietBeforeUser(ms, end);
    ScanSystems(Systems(b));
    ScanAppend({}, a, Systems(b));
    ScanAppend({}, a + Systems(b), c);
    assert ms == ms[..end] + c;
    ScanAppend({}, ms[..end], c);
  }

  lemma {:induction false} DropTurnKeepsSystems(ms: seq<Message>, i: nat, end: nat)
    requires i <= end <= |ms|
    ensures Systems(DropTurn(ms, i, end)) == Systems(ms)
  {
    var a, b, c := ms[..i], ms[i..end], ms[end..];
    assert ms == a + b + c;
    SystemsAppend(a + Systems(b), c);
    SystemsAppend(a, Systems(b));
    SystemsOnly(b);
    SystemsAppend(a + b, c);
    SystemsAppend(a, b);
  }

  /** Truncation keeps the pairing of calls and results, call by call. */
  lemma {:induction false} TruncatedScan(ms: seq<Message>, max: nat, keep: Option<CallId>)
    requires Unanswered(ms).Some?
    ensures Unanswered(Truncated(ms, max, keep)) == Unanswered(ms)
    decreases NonSystem(ms)
  {
    var turn := OldestRemovable(ms, 0, keep);
    if NonSystem(ms) > max && turn.Some? {
      DropTurnShrinks(ms, turn.value.0, turn.value.1);
      DropTurnScan(ms, turn.value.0, turn.value.1);
      TruncatedScan(DropTurn(ms, turn.value.0, turn.value.1), max, keep);
    }
  }

  /** The messages that mention call `c`, in order. */
  function Mentioning(ms: seq<Message>, c: CallId): seq<Message> {
    if ms == [] then []
    else Mentioning(ms[..|ms| - 1], c) + if Mentions(ms[|ms| - 1], c) then [ms[|ms| - 1]] else []
  }

  lemma {:induction false} MentioningAppend(a: seq<Message>, b: seq<Message>, c: CallId)
    ensures Mentioning(a + b, c) == Mentioning(a, c) + Mentioning(b, c)
  {
    if b == [] {
      assert a + b == a;
    } else {
      assert (a + b)[..|a + b| - 1] == a + b[..|b| - 1];
      MentioningAppend(a, b[..|b| - 1], c);
    }
  }

  lemma {:induction false} MentioningNone(ms: seq<Message>, c: CallId)
    requires forall k :: 0 <= k < |ms| ==> !Mentions(ms[k], c)
    ensures Mentioning(ms, c) == []
  {
    if ms != [] { MentioningNone(ms[..|ms| - 1], c); }
  }

  lemma {:induction false} DropTurnKeepsProtected(ms: seq<Message>, i: nat, end: nat, c: CallId)
    requires i <= end <= |ms| && !HoldsProtected(ms, i, end, Some(c))
    ensures Mentioning(DropTurn(ms, i, end), c) == Mentioning(ms, c)
  {
    var a, b, d := ms[..i], ms[i..end], ms[end..];
    assert ms == a + b + d;
    MentioningAppend(a + b, d, c);
    MentioningAppend(a, b, c);
    MentioningAppend(a + Systems(b), d, c);
    MentioningAppend(a, Systems(b), c);
    forall k | 0 <= k < |b| ensures !Mentions(b[k], c) { assert b[k] == ms[i + k]; }
    MentioningNone(b, c);
    MentioningNone(Systems(b), c);
  }

  lemma {:induction false} MentioningHas(ms: seq<Message>, c: CallId, m: Message)
    ensures m in Mentioning(ms, c) <==> m in ms && Mentions(m, c)
  {
    if ms != [] {
      MentioningHas(ms[..|ms| - 1], c, m);
      SplitLast(ms);
    }
  }

  /** Truncation keeps everything that mentions the protected call. */
  lemma {:induction false} TruncatedProtects(ms: seq<Message>, max: nat, c: CallId)
    ensures Mentioning(Truncated(ms, max, Some(c)), c) == Mentioning(ms, c)
    decreases NonSystem(ms)
  {
    var turn := OldestRemovable(ms, 0, Some(c));
    if NonSystem(ms) > max && turn.Some? {
      var i, end := turn.value.0, turn.value.1;
      DropTurnShrinks(ms, i, end);
      DropTurnKeepsProtected(ms, i, end, c);
      TruncatedProtects(DropTurn(ms, i, end), max, c);
    }
  }

  ghost predicate IsNewestUser(ms: seq<Message>, user: nat) {
    user < |ms| && ms[user].User? && forall k :: user < k < |ms| ==> !ms[k].User?
  }

  /** Dropping an earlier turn only shifts the newest one. */
  lemma {:induction false} DropTurnShifts(ms: seq<Message>, i: nat, end: nat, user: nat) returns (moved: nat)
    requires i <= end < |ms| && ms[end].User? && IsNewestUser(ms, user)
    ensures var ns := DropTurn(ms, i, end); IsNewestUser(ns, moved) && ns[moved..] == ms[user..]
  {
    assert end <= user;
    var ns, kept := DropTurn(ms, i, end), i + |Systems(ms[i..end])|;
    assert ns[kept..] == ms[end..];
    moved := kept + (user - end);
    assert ns[moved..] == ns[kept..][user - end..] == ms[user..];
    forall k | moved < k < |ns| ensures !ns[k].User? { assert ns[k] == ms[user..][k - moved]; }
    assert ns[moved] == ms[user..][0];
  }

  /**
   Truncation keeps every system message, everything that mentions the parked call and the
   newest turn, and stops only when the bound is met or nothing more may be dropped.
   */
  lemma {:induction false} TruncatedKeeps(ms: seq<Message>, max: nat, keep: Option<CallId>, user: nat)
    requires IsNewestUser(ms, user)
    ensures var r := Truncated(ms, max, keep);
            && Systems(r) == Systems(ms)
            && (keep.Some? ==> Mentioning(r, keep.value) == Mentioning(ms, keep.value))
            && (exists at: nat :: IsNewestUser(r, at) && r[at..] == ms[user..])
            && (NonSystem(r) <= max || forall st: nat :: !Removable(r, st, keep))
    decreases NonSystem(ms)
  {
    TruncatedEnough(ms, max, keep);
    var turn := OldestRemovable(ms, 0, keep);
    if NonSystem(ms) > max && turn.Some? {
      var i, end := turn.value.0, turn.value.1;
      DropTurnShrinks(ms, i, end);
      DropTurnKeepsSystems(ms, i, end);
      if keep.Some? { DropTurnKeepsProtected(ms, i, end, keep.value); }
      var moved := DropTurnShifts(ms, i, end, user);
      TruncatedKeeps(DropTurn(ms, i, end), max, keep, moved);
    }
  }

  // ------------------------------------------------ what an unprotected truncation drops

  ghost predicate LeadSystem(ms: seq<Message>, n: nat) {
    n <= |ms| && forall k :: 0 <= k < n ==> ms[k].System?
  }

  /** Where the turn of message `at` starts: at its user message, or at the first message of all. */
  function TurnStart(ms: seq<Message>, at: nat): (st: nat)
    requires at < |ms|
    ensures st <= at
    ensures forall k :: st < k <= at ==> !ms[k].User?
    ensures ms[st].User? || forall k :: 0 <= k < st ==> ms[k].System?
    ensures ms[st].System? ==> forall k :: 0 <= k <= at ==> ms[k].System?
  {
    if ms[at].User? || (forall k :: 0 <= k < at ==> ms[k].System?) then at else TurnStart(ms, at - 1)
  }

  ghost predicate IsTurnStart(ms: seq<Message>, st: nat) {
    st < |ms| && !ms[st].System? && (ms[st].User? || LeadSystem(ms, st))
  }

  /** The turn that starts at `st` is the newest. */
  ghost predicate IsNewest(ms: seq<Message>, st: nat) {
    forall k :: st < k < |ms| ==> !ms[k].User?
  }

  /** The turn that starts at `st` may be dropped: it is not the newest, and nothing in it is of the parked call. */
  ghost predicate Removable(ms: seq<Message>, st: nat, keep: Option<CallId>) {
    && IsTurnStart(ms, st) && !IsNewest(ms, st)
    && (keep.Some? ==> forall k :: st <= k < TurnEnd(ms, st) ==>
          !Made(ms[k], keep.value) && !(ms[k].Tool? && ms[k].callId == keep.value))
  }

  /** The walk over the turns finds the oldest that may be dropped, and misses none. */
  lemma {:induction false} OldestIsFound(ms: seq<Message>, from: nat, keep: Option<CallId>)
    requires from <= |ms| && (LeadSystem(ms, from) || (from < |ms| && ms[from].User?))
    ensures var r := OldestRemovable(ms, from, keep);
            && (r.Some? ==> Removable(ms, r.value.0, keep) && r.value.1 == TurnEnd(ms, r.value.0))
            && (forall st: nat :: from <= st < (if r.Some? then r.value.0 else |ms|) ==> !Removable(ms, st, keep))
    decreases |ms| - from
  {
    if from < |ms| && ms[from].System? {
      OldestIsFound(ms, from + 1, keep);
    } else if from < |ms| {
      var end := TurnEnd(ms, from);
      OneTurn(ms, from, end, keep);
      if end < |ms| && HoldsProtected(ms, from, end, keep) { OldestIsFound(ms, end, keep); }
    }
  }

  /** Only its first message starts a turn, and the turn may go unless it is the newest or protected. */
  lemma {:induction false} OneTurn(ms: seq<Message>, from: nat, end: nat, keep: Option<CallId>)
    requires IsTurnStart(ms, from) && end == TurnEnd(ms, from)
    ensures Removable(ms, from, keep) <==> end < |ms| && !HoldsProtected(ms, from, end, keep)
    ensures forall st: nat :: from < st < end ==> !Removable(ms, st, keep)
  {
    assert forall st: nat :: from < st < end ==> !IsTurnStart(ms, st);
    if end < |ms| { assert ms[end].User? && !IsNewest(ms, from); }
  }

  /**
   What truncation does: while there is too much, it drops the oldest turn that may be dropped, all of it
   but its system messages; within the bound, or with nothing left to drop, it changes nothing.
   */
  lemma {:induction false} TruncatedExactly(ms: seq<Message>, max: nat, keep: Option<CallId>)
    ensures NonSystem(ms) <= max || (forall st: nat :: !Removable(ms, st, keep)) ==> Truncated(ms, max, keep) == ms
    ensures forall st: nat ::
              NonSystem(ms) > max && Removable(ms, st, keep) && (forall o: nat :: o < st ==> !Removable(ms, o, keep)) ==>
                var end := TurnEnd(ms, st);
                Truncated(ms, max, keep) == Truncated(ms[..st] + Systems(ms[st..end]) + ms[end..], max, keep)
  {
    OldestIsFound(ms, 0, keep);
    var r := OldestRemovable(ms, 0, keep);
    forall st: nat | Removable(ms, st, keep) && (forall o: nat :: o < st ==> !Removable(ms, o, keep))
      ensures r.Some? && st == r.value.0
    {
      assert st < |ms|;
    }
  }

  /** Truncation stops only within the bound or with nothing left to drop. */
  lemma {:induction false} TruncatedEnough(ms: seq<Message>, max: nat, keep: Option<CallId>)
    ensures var r := Truncated(ms, max, keep); NonSystem(r) <= max || forall st: nat :: !Removable(r, st, keep)
    decreases NonSystem(ms)
  {
    var turn := OldestRemovable(ms, 0, keep);
    OldestIsFound(ms, 0, keep);
    if NonSystem(ms) > max && turn.Some? {
      DropTurnShrinks(ms, turn.value.0, turn.value.1);
      TruncatedEnough(DropTurn(ms, turn.value.0, turn.value.1), max, keep);
    }
  }

  /** The transcript ends with message `m`. */
  predicate EndsWith(ms: seq<Message>, m: Message) {
    ms != [] && ms[|ms| - 1] == m
  }

  /** The last message stays. */
  lemma {:induction false} TruncatedLast(ms: seq<Message>, max: nat, keep: Option<CallId>, m: Message)
    requires EndsWith(ms, m)
    ensures EndsWith(Truncated(ms, max, keep), m)
    decreases NonSystem(ms)
  {
    var turn := OldestRemovable(ms, 0, keep);
    if NonSystem(ms) > max && turn.Some? {
      DropTurnShrinks(ms, turn.value.0, turn.value.1);
      DropTurnLast(ms, turn.value.0, turn.value.1, m);
      TruncatedLast(DropTurn(ms, turn.value.0, turn.value.1), max, keep, m);
    }
  }

  lemma {:induction false} DropTurnLast(ms: seq<Message>, i: nat, end: nat, m: Message)
    requires i <= end < |ms| && EndsWith(ms, m)
    ensures EndsWith(DropTurn(ms, i, end), m)
  {
  }

  /** The turn that starts at `st` survives an unprotected truncation. */
  ghost predicate Survives(ms: seq<Message>, st: nat, max: nat)
    requires st <= |ms|
  {
    IsNewest(ms, st) || NonSystem(ms[st..]) <= max
  }

  /** Without a protected call, the first turn is what is dropped first, unless it is the newest. */
  lemma {:induction false} FirstTurnGoes(ms: seq<Message>, from: nat) returns (i: nat)
    requires LeadSystem(ms, from)
    ensures LeadSystem(ms, i) && (i < |ms| ==> !ms[i].System?)
    ensures var turn := OldestRemovable(ms, from, None);
            if i == |ms| || TurnEnd(ms, i) == |ms| then turn.None? else turn == Some((i, TurnEnd(ms, i)))
    decreases |ms| - from
  {
    if from < |ms| && ms[from].System? {
      i := FirstTurnGoes(ms, from + 1);
    } else {
      i := from;
    }
  }

  /** A turn start is the first one, or comes after it. */
  lemma {:induction false} StartsAfter(ms: seq<Message>, i: nat, st: nat)
    requires LeadSystem(ms, i) && (i < |ms| ==> !ms[i].System?) && IsTurnStart(ms, st)
    ensures i < |ms| && i <= st && (st == i || st >= TurnEnd(ms, i))
    ensures TurnEnd(ms, i) == |ms| ==> st == i && IsNewest(ms, st)
    ensures st == i && TurnEnd(ms, i) < |ms| ==> !IsNewest(ms, st)
  {
  }

  lemma {:induction false} NonSystemFrom(ms: seq<Message>, st: nat)
    requires st <= |ms|
    ensures NonSystem(ms[st..]) <= NonSystem(ms)
    ensures LeadSystem(ms, st) ==> NonSystem(ms[st..]) == NonSystem(ms)
  {
    assert ms == ms[..st] + ms[st..];
    NonSystemAppend(ms[..st], ms[st..]);
    if LeadSystem(ms, st) { NoneInSystems(ms[..st]); }
  }

  lemma {:induction false} NoneInSystems(ms: seq<Message>)
    requires forall k :: 0 <= k < |ms| ==> ms[k].System?
    ensures NonSystem(ms) == 0
  {
    if ms != [] { NoneInSystems(ms[..|ms| - 1]); }
  }

  /** Replacing what is before a user message moves the turns after it. */
  lemma {:induction false} TurnStartMoves(head: seq<Message>, ms: seq<Message>, j: nat, at: nat)
    requires j <= at < |ms| && ms[j].User?
    ensures j <= TurnStart(ms, at) && TurnStart(head + ms[j..], |head| + at - j) == |head| + TurnStart(ms, at) - j
    decreases at
  {
    var ns := head + ms[j..];
    assert ns[|head|] == ms[j] && ns[|head| + at - j] == ms[at];
    if j < at && !ms[at].User? { TurnStartMoves(head, ms, j, at - 1); }
  }

  /** Truncation adds nothing. */
  lemma {:induction false} TruncatedHas(ms: seq<Message>, max: nat, keep: Option<CallId>, m: Message)
    requires m in Truncated(ms, max, keep)
    ensures m in ms
    decreases NonSystem(ms)
  {
    var turn := OldestRemovable(ms, 0, keep);
    if NonSystem(ms) > max && turn.Some? {
      var i, end := turn.value.0, turn.value.1;
      DropTurnShrinks(ms, i, end);
      TruncatedHas(DropTurn(ms, i, end), max, keep, m);
      DropTurnHas(ms, i, end, m);
    }
  }

  lemma {:induction false} DropTurnHas(ms: seq<Message>, i: nat, end: nat, m: Message)
    requires i <= end <= |ms| && m in DropTurn(ms, i, end)
    ensures m in ms
  {
    if m in Systems(ms[i..end]) { SystemsHas(ms[i..end], m); }
  }

  lemma {:induction false} SystemsHas(ms: seq<Message>, m: Message)
    requires m in Systems(ms)
    ensures m in ms
  {
    if ms != [] && m in Systems(ms[..|ms| - 1]) { SystemsHas(ms[..|ms| - 1], m); }
  }
}
