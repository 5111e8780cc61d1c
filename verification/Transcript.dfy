/**
 The chat transcript and what makes it acceptable to a provider.

 A provider refuses a history in which a tool result does not answer a call of the
 assistant turn right before its run of results, or in which a call stays unanswered.
 `ProviderValid` says that by position; `Unanswered` says it as a single left-to-right
 scan, which the edits of a transcript are easy to follow through. `ScanIsPairing` and
 `ScanIsProviderValid` show that the two agree.
 */
module Transcript {
  import opened Common

  type CallId = string

  datatype Call = Call(id: CallId, extension: string)

  datatype Message =
    | System(text: string)
    | User(text: string)
    | Assistant(text: string, calls: seq<Call>)
    | Tool(callId: CallId, content: Json)

  function Ids(calls: seq<Call>): set<CallId> {
    set c | c in calls :: c.id
  }

  ghost predicate DistinctIds(calls: seq<Call>) {
    forall i, j :: 0 <= i < j < |calls| ==> calls[i].id != calls[j].id
  }

  predicate Made(m: Message, c: CallId) {
    m.Assistant? && exists k :: 0 <= k < |m.calls| && m.calls[k].id == c
  }

  /** Everything strictly between `lo` and `hi` is a tool result. */
  ghost predicate ToolsBetween(ms: seq<Message>, lo: int, hi: int)
    requires -1 <= lo && hi <= |ms|
  {
    forall k :: lo < k < hi ==> ms[k].Tool?
  }

  /** The result at `j` answers call `c` of the assistant turn at `at`. */
  ghost predicate Answers(ms: seq<Message>, at: nat, j: nat, c: CallId)
    requires at < |ms| && j < |ms|
  {
    at < j && ms[j].Tool? && ms[j].callId == c && Made(ms[at], c) && ToolsBetween(ms, at, j)
  }

  ghost predicate Answered(ms: seq<Message>, at: nat, c: CallId)
    requires at < |ms|
  {
    exists j: nat :: j < |ms| && Answers(ms, at, j, c)
  }

  /** Each tool result sits in the run right after an assistant turn that made the call. */
  ghost predicate NoOrphan(ms: seq<Message>) {
    forall j: nat :: j < |ms| && ms[j].Tool? ==>
      exists at: nat :: at < j && Answers(ms, at, j, ms[j].callId)
  }

  /** No run of results answers the same call twice. */
  ghost predicate NoRepeat(ms: seq<Message>) {
    forall i: nat, j: nat :: i < j < |ms| && ms[i].Tool? && ms[j].Tool? && ToolsBetween(ms, i, j) ==>
      ms[i].callId != ms[j].callId
  }

  ghost predicate DistinctCalls(ms: seq<Message>) {
    forall at: nat :: at < |ms| && ms[at].Assistant? ==> DistinctIds(ms[at].calls)
  }

  /** `c` is made by the last assistant turn, has no result, and only results follow the turn. */
  ghost predicate OpenAt(ms: seq<Message>, at: nat, c: CallId)
    requires at < |ms|
  {
    Made(ms[at], c) && !Answered(ms, at, c) && ToolsBetween(ms, at, |ms|)
  }

  /** Results and calls pair up, except that exactly the calls `open` of the last turn wait. */
  ghost predicate Pairing(ms: seq<Message>, open: set<CallId>) {
    && NoOrphan(ms) && NoRepeat(ms) && DistinctCalls(ms)
    && (forall at: nat, c :: at < |ms| && Made(ms[at], c) ==>
          Answered(ms, at, c) || (c in open && OpenAt(ms, at, c)))
    && (forall c :: c in open ==> exists at: nat :: at < |ms| && OpenAt(ms, at, c))
  }

  /** What a provider accepts: no orphan, no repeated and no missing tool result. */
  ghost predicate ProviderValid(ms: seq<Message>) {
    && NoOrphan(ms) && NoRepeat(ms) && DistinctCalls(ms)
    && forall at: nat, c :: at < |ms| && Made(ms[at], c) ==> Answered(ms, at, c)
  }

  // ---------------------------------------------------------------- the scan

  /** The unanswered calls after one more message; `None` when the message does not fit. */
  ghost function ScanStep(open: set<CallId>, m: Message): Option<set<CallId>> {
    match m
    case Tool(c, _) => if c in open then Some(open - {c}) else None
    case Assistant(_, calls) => if open == {} && DistinctIds(calls) then Some(Ids(calls)) else None
    case _ => if open == {} then Some({}) else None
  }

  /** Scan `ms` with `open` calls waiting before it. */
  ghost function ScanFrom(open: set<CallId>, ms: seq<Message>): Option<set<CallId>> {
    if ms == [] then Some(open) else
    var s := ScanFrom(open, ms[..|ms| - 1]);
    if s.None? then None else ScanStep(s.value, ms[|ms| - 1])
  }

  /** The calls of `ms` that wait for a result, or `None` when `ms` is malformed. */
  ghost function Unanswered(ms: seq<Message>): Option<set<CallId>> {
    ScanFrom({}, ms)
  }

  lemma {:induction false} ScanAppend(open: set<CallId>, a: seq<Message>, b: seq<Message>)
    ensures ScanFrom(open, a + b) ==
            (var s := ScanFrom(open, a); if s.None? then None else ScanFrom(s.value, b))
  {
    if b == [] {
      assert a + b == a;
    } else {
      assert (a + b)[..|a + b| - 1] == a + b[..|b| - 1];
      ScanAppend(open, a, b[..|b| - 1]);
    }
  }

  lemma {:induction false} ScanPush(open: set<CallId>, ms: seq<Message>, m: Message)
    requires ScanFrom(open, ms).Some?
    ensures ScanFrom(open, ms + [m]) == ScanStep(ScanFrom(open, ms).value, m)
  {
    assert (ms + [m])[..|ms + [m]| - 1] == ms;
  }

  // ---------------------------------------- the scan decides the pairing

  /** Appending a message keeps what earlier positions answer. */
  lemma {:induction false} AnswersKeeps(ms: seq<Message>, m: Message)
    ensures forall at: nat, j: nat, c :: at < |ms| && j < |ms| ==>
      (Answers(ms + [m], at, j, c) <==> Answers(ms, at, j, c))
  {
    var ns := ms + [m];
    assert forall k :: 0 <= k < |ms| ==> ns[k] == ms[k];
    forall at: nat, j: nat, c | at < |ms| && j < |ms|
      ensures Answers(ns, at, j, c) <==> Answers(ms, at, j, c)
    {
      assert ToolsBetween(ns, at, j) <==> ToolsBetween(ms, at, j);
    }
  }

  lemma {:induction false} NoRepeatPush(ms: seq<Message>, m: Message)
    ensures NoRepeat(ms + [m]) ==> NoRepeat(ms)
    ensures !m.Tool? && NoRepeat(ms) ==> NoRepeat(ms + [m])
    ensures NoRepeat(ms) && m.Tool?
            && (forall i: nat :: i < |ms| && ms[i].Tool? && ToolsBetween(ms, i, |ms|) ==> ms[i].callId != m.callId)
            ==> NoRepeat(ms + [m])
  {
    var ns := ms + [m];
    forall i: nat, j: nat | i < j <= |ms|
      ensures ToolsBetween(ns, i, j) <==> ToolsBetween(ms, i, j)
    {
      assert forall k :: i < k < j ==> ns[k] == ms[k];
    }
    if NoRepeat(ns) {
      forall i: nat, j: nat | i < j < |ms| && ms[i].Tool? && ms[j].Tool? && ToolsBetween(ms, i, j)
        ensures ms[i].callId != ms[j].callId
      {
        assert ns[i].callId != ns[j].callId;
      }
    }
  }

  lemma {:induction false} NoOrphanPush(ms: seq<Message>, m: Message, home: nat)
    requires NoOrphan(ms)
    requires m.Tool? ==> home < |ms| && Answers(ms + [m], home, |ms|, m.callId)
    ensures NoOrphan(ms + [m])
  {
    var ns := ms + [m];
    AnswersKeeps(ms, m);
    forall j: nat | j < |ns| && ns[j].Tool?
      ensures exists at: nat :: at < j && Answers(ns, at, j, ns[j].callId)
    {
      if j < |ms| {
        var at: nat :| at < j && Answers(ms, at, j, ms[j].callId);
        assert Answers(ns, at, j, ns[j].callId);
      }
    }
  }

  /** In a paired transcript an open call has no result in its run. */
  lemma {:induction false} OpenIsFresh(ms: seq<Message>, home: nat, c: CallId, i: nat)
    requires NoOrphan(ms) && home < |ms| && OpenAt(ms, home, c)
    requires i < |ms| && ms[i].Tool? && ToolsBetween(ms, i, |ms|)
    ensures ms[i].callId != c
  {
    var at: nat :| at < i && Answers(ms, at, i, ms[i].callId);
    assert ToolsBetween(ms, at, |ms|);
    SameTurn(ms, at, home, |ms|);
  }

  /** Another call of the same turn stays open when one is answered. */
  lemma {:induction false} StaysOpen(ms: seq<Message>, m: Message, at: nat, c: CallId)
    requires m.Tool? && m.callId != c && at < |ms| && OpenAt(ms, at, c)
    ensures OpenAt(ms + [m], at, c)
  {
    var ns := ms + [m];
    AnswersKeeps(ms, m);
    forall j: nat | j < |ns|
      ensures !Answers(ns, at, j, c)
    {
      assert j < |ms| ==> !Answers(ms, at, j, c);
    }
  }

  /** A result that fits the scan extends the pairing. */
  lemma {:induction false} PairingPushTool(ms: seq<Message>, open: set<CallId>, m: Message)
    requires Pairing(ms, open) && m.Tool? && m.callId in open
    ensures Pairing(ms + [m], open - {m.callId})
  {
    var ns, id := ms + [m], m.callId;
    var home: nat :| home < |ms| && OpenAt(ms, home, id);
    assert ToolsBetween(ns, home, |ms|) by { assert forall k :: home < k < |ms| ==> ns[k] == ms[k]; }
    assert Answers(ns, home, |ms|, id);
    NoOrphanPush(ms, m, home);
    assert NoRepeat(ns) by {
      NoRepeatPush(ms, m);
      forall i: nat | i < |ms| && ms[i].Tool? && ToolsBetween(ms, i, |ms|)
        ensures ms[i].callId != id
      {
        OpenIsFresh(ms, home, id, i);
      }
    }
    forall at: nat, c | at < |ns| && Made(ns[at], c)
      ensures Answered(ns, at, c) || (c in open - {id} && OpenAt(ns, at, c))
    {
      MadeAfterPush(ms, open, m, home, at, c);
    }
    forall c | c in open - {id}
      ensures exists at: nat :: at < |ns| && OpenAt(ns, at, c)
    {
      var at: nat :| at < |ms| && OpenAt(ms, at, c);
      StaysOpen(ms, m, at, c);
    }
  }

  lemma {:induction false} MadeAfterPush(ms: seq<Message>, open: set<CallId>, m: Message, home: nat, at: nat, c: CallId)
    requires Pairing(ms, open) && m.Tool? && home < |ms| && OpenAt(ms, home, m.callId)
    requires Answers(ms + [m], home, |ms|, m.callId)
    requires at <= |ms| && Made((ms + [m])[at], c)
    ensures Answered(ms + [m], at, c) || (c in open - {m.callId} && OpenAt(ms + [m], at, c))
  {
    AnswersKeeps(ms, m);
    if Answered(ms, at, c) {
      var j: nat :| j < |ms| && Answers(ms, at, j, c);
      assert Answers(ms + [m], at, j, c);
    } else if c == m.callId {
      SameTurn(ms, at, home, |ms|);
    } else {
      StaysOpen(ms, m, at, c);
    }
  }

  /** Only results between each of two turns and the same later point: one turn. */
  lemma {:induction false} SameTurn(ms: seq<Message>, a: nat, b: nat, hi: nat)
    requires a < hi <= |ms| && b < hi && !ms[a].Tool? && !ms[b].Tool?
    requires ToolsBetween(ms, a, hi) && ToolsBetween(ms, b, hi)
    ensures a == b
  {
    assert !ms[a].Tool? && !ms[b].Tool?;
  }

  /** Anything but a result may follow once nothing waits. */
  lemma {:induction false} PairingPushOther(ms: seq<Message>, m: Message)
    requires Pairing(ms, {}) && !m.Tool? && (m.Assistant? ==> DistinctIds(m.calls))
    ensures Pairing(ms + [m], if m.Assistant? then Ids(m.calls) else {})
  {
    var ns := ms + [m];
    var open := if m.Assistant? then Ids(m.calls) else {};
    AnswersKeeps(ms, m);
    NoRepeatPush(ms, m);
    forall at: nat, c | at < |ns| && Made(ns[at], c)
      ensures Answered(ns, at, c) || (c in open && OpenAt(ns, at, c))
    {
      if at < |ms| {
        assert Answered(ms, at, c);
        var j: nat :| j < |ms| && Answers(ms, at, j, c);
        assert Answers(ns, at, j, c);
      } else {
        assert OpenAt(ns, at, c);
      }
    }
    forall c | c in open
      ensures exists at: nat :: at < |ns| && OpenAt(ns, at, c)
    {
      assert OpenAt(ns, |ms|, c);
    }
    NoOrphanPush(ms, m, 0);
  }

  /** A pairing restricts to every prefix, with the open set the scan computes. */
  lemma {:induction false} PairingPop(ms: seq<Message>, m: Message, open: set<CallId>) returns (before: set<CallId>)
    requires Pairing(ms + [m], open)
    ensures Pairing(ms, before) && ScanStep(before, m) == Some(open)
  {
    var ns := ms + [m];
    AnswersKeeps(ms, m);
    NoRepeatPush(ms, m);
    assert NoOrphan(ms) && DistinctCalls(ms) by {
      forall j: nat | j < |ms| && ms[j].Tool?
        ensures exists at: nat :: at < j && Answers(ms, at, j, ms[j].callId)
      {
        assert ns[j] == ms[j];
        var at: nat :| at < j && Answers(ns, at, j, ns[j].callId);
        assert Answers(ms, at, j, ms[j].callId);
      }
      assert forall at: nat :: at < |ms| ==> ms[at] == ns[at];
    }
    if m.Tool? {
      before := open + {m.callId};
      var home: nat :| home < |ms| && Answers(ns, home, |ms|, m.callId);
      PairingPopTool(ms, m, open, home);
    } else {
      before := {};
      PairingPopOther(ms, m, open);
    }
  }

  lemma {:induction false} PairingPopTool(ms: seq<Message>, m: Message, open: set<CallId>, home: nat)
    requires Pairing(ms + [m], open) && m.Tool? && home < |ms|
    requires Answers(ms + [m], home, |ms|, m.callId)
    requires NoOrphan(ms) && NoRepeat(ms) && DistinctCalls(ms)
    ensures m.callId !in open && Pairing(ms, open + {m.callId})
  {
    var ns, id := ms + [m], m.callId;
    AnswersKeeps(ms, m);
    assert ToolsBetween(ms, home, |ms|) by { assert forall k :: home < k < |ms| ==> ns[k] == ms[k]; }
    forall j: nat | j < |ms|
      ensures !Answers(ms, home, j, id)
    {
      assert home < j ==> ToolsBetween(ns, j, |ms|);
      assert ns[j].Tool? && home < j ==> ns[j].callId != ns[|ms|].callId;
    }
    assert OpenAt(ms, home, id);
    forall at: nat | at < |ns|
      ensures !OpenAt(ns, at, id)
    {
      assert Answered(ns, home, id);
      assert at < home ==> !ns[home].Tool?;
      assert home < at ==> ns[at].Tool? || at == |ns|;
    }
    assert id !in open;
    forall at: nat, c | at < |ms| && Made(ms[at], c)
      ensures Answered(ms, at, c) || (c in open + {id} && OpenAt(ms, at, c))
    {
      assert ns[at] == ms[at];
      if Answered(ns, at, c) {
        var j: nat :| j < |ns| && Answers(ns, at, j, c);
        if j < |ms| {
          assert Answers(ms, at, j, c);
        } else {
          SameTurn(ns, at, home, |ms|);
        }
      } else {
        assert OpenAt(ns, at, c);
        NotYetAnswered(ms, m, at, c);
      }
    }
    forall c | c in open + {id}
      ensures exists at: nat :: at < |ms| && OpenAt(ms, at, c)
    {
      if c != id {
        var at: nat :| at < |ns| && OpenAt(ns, at, c);
        assert at < |ms|;
        NotYetAnswered(ms, m, at, c);
      }
    }
  }

  /** A call open after a result was open before it. */
  lemma {:induction false} NotYetAnswered(ms: seq<Message>, m: Message, at: nat, c: CallId)
    requires at < |ms| && OpenAt(ms + [m], at, c)
    ensures OpenAt(ms, at, c)
  {
    var ns := ms + [m];
    AnswersKeeps(ms, m);
    assert ToolsBetween(ms, at, |ms|) by { assert forall k :: at < k < |ms| ==> ns[k] == ms[k]; }
    forall j: nat | j < |ms|
      ensures !Answers(ms, at, j, c)
    {
      assert !Answers(ns, at, j, c);
    }
  }

  lemma {:induction false} PairingPopOther(ms: seq<Message>, m: Message, open: set<CallId>)
    requires Pairing(ms + [m], open) && !m.Tool?
    requires NoOrphan(ms) && NoRepeat(ms) && DistinctCalls(ms)
    ensures Pairing(ms, {}) && ScanStep({}, m) == Some(open)
  {
    var ns := ms + [m];
    AnswersKeeps(ms, m);
    forall at: nat, c | at < |ms| && Made(ms[at], c)
      ensures Answered(ms, at, c)
    {
      assert ns[at] == ms[at];
      assert Made(ns[at], c) && ns[|ms|] == m;
      assert !OpenAt(ns, at, c);
      assert Answered(ns, at, c);
      var j: nat :| j < |ns| && Answers(ns, at, j, c);
      assert Answers(ms, at, j, c);
    }
    var made := if m.Assistant? then Ids(m.calls) else {};
    forall c | c in made
      ensures c in open
    {
      assert Made(ns[|ms|], c);
      assert !Answered(ns, |ms|, c);
    }
    forall c | c in open
      ensures c in made
    {
      var at: nat :| at < |ns| && OpenAt(ns, at, c);
      assert !ns[|ms|].Tool?;
    }
    assert open == made;
    if m.Assistant? { assert ns[|ms|] == m; }
  }

  /** The scan finds the open calls of exactly the transcripts that pair up. */
  lemma {:induction false} ScanIsPairing(ms: seq<Message>, open: set<CallId>)
    ensures Unanswered(ms) == Some(open) <==> Pairing(ms, open)
  {
    if ms == [] {
      if Pairing(ms, open) { assert open == {}; }
    } else {
      var pre, m := ms[..|ms| - 1], ms[|ms| - 1];
      assert ms == pre + [m];
      if Unanswered(ms) == Some(open) {
        var before := Unanswered(pre).value;
        ScanIsPairing(pre, before);
        if m.Tool? { PairingPushTool(pre, before, m); } else { PairingPushOther(pre, m); }
      }
      if Pairing(ms, open) {
        var before := PairingPop(pre, m, open);
        ScanIsPairing(pre, before);
      }
    }
  }

  /** A transcript is acceptable exactly when the scan ends with nothing waiting. */
  lemma {:induction false} ScanIsProviderValid(ms: seq<Message>)
    ensures Unanswered(ms) == Some({}) <==> ProviderValid(ms)
  {
    ScanIsPairing(ms, {});
  }
}
