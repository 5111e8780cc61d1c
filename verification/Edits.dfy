/**
 The in-place edits of a transcript: recording a tool result, announcing unread files in one, and
 inserting the placeholder of a parked call. Each edit is a function on the message sequence;
 the lemmas say what it does to the calls that wait for a result and what is read back.
 */
module Edits {
  import opened Common
  import opened Transcript

  // ------------------------------------------------------------ finding a call

  /** Position of the latest assistant turn that made call `c`. */
  function LatestAssistantWith(ms: seq<Message>, c: CallId): (r: Option<nat>)
    ensures r.Some? ==> r.value < |ms| && Made(ms[r.value], c)
                        && forall k :: r.value < k < |ms| ==> !Made(ms[k], c)
    ensures r.None? ==> forall k :: 0 <= k < |ms| ==> !Made(ms[k], c)
  {
    if ms == [] then None
    else if Made(ms[|ms| - 1], c) then Some(|ms| - 1)
    else LatestAssistantWith(ms[..|ms| - 1], c)
  }

  /** End of the run of results that follows position `at`. */
  function ToolRunEnd(ms: seq<Message>, at: nat): (end: nat)
    requires at < |ms|
    ensures at < end <= |ms| && ToolsBetween(ms, at, end)
    ensures end < |ms| ==> !ms[end].Tool?
    decreases |ms| - at
  {
    if at + 1 < |ms| && ms[at + 1].Tool? then ToolRunEnd(ms, at + 1) else at + 1
  }

  /** First result for `c` in `[lo, hi)`. */
  function FindResult(ms: seq<Message>, lo: nat, hi: nat, c: CallId): (r: Option<nat>)
    requires lo <= hi <= |ms|
    ensures r.Some? ==> lo <= r.value < hi && ms[r.value].Tool? && ms[r.value].callId == c
    ensures r.Some? ==> forall k :: lo <= k < r.value ==> !(ms[k].Tool? && ms[k].callId == c)
    ensures r.None? ==> forall k :: lo <= k < hi ==> !(ms[k].Tool? && ms[k].callId == c)
    decreases hi - lo
  {
    if lo == hi then None
    else if ms[lo].Tool? && ms[lo].callId == c then Some(lo)
    else FindResult(ms, lo + 1, hi, c)
  }

  /** Where the result of the latest call `c` stands, if it has one. */
  function ResultOf(ms: seq<Message>, c: CallId): (r: Option<nat>)
    ensures r.Some? ==> r.value < |ms| && ms[r.value].Tool? && ms[r.value].callId == c
  {
    var at := LatestAssistantWith(ms, c);
    if at.None? then None else FindResult(ms, at.value + 1, ToolRunEnd(ms, at.value), c)
  }

  // ------------------------------------------------------------ the edits

  /** Record `v` as the result of the latest call `c`: overwrite its result, or add one. */
  function Patched(ms: seq<Message>, c: CallId, v: Json): seq<Message> {
    var at := LatestAssistantWith(ms, c);
    if at.None? then ms
    else
      var end := ToolRunEnd(ms, at.value);
      var slot := FindResult(ms, at.value + 1, end, c);
      if slot.Some? then ms[slot.value := Tool(c, v)]
      else ms[..end] + [Tool(c, v)] + ms[end..]
  }

  const AWAITING := JObj(map["status" := JStr("awaiting_user_input")])

  /** Give the latest call `c` a placeholder result if it has none; `None` when the call is gone. */
  function WithPlaceholder(ms: seq<Message>, c: CallId): Option<seq<Message>> {
    var at := LatestAssistantWith(ms, c);
    if at.None? then None
    else if ResultOf(ms, c).Some? then Some(ms)
    else Some(ms[..at.value + 1] + [Tool(c, AWAITING)] + ms[at.value + 1..])
  }

  /** The sentence that tells the model how many files it could not be given. */
  function UnreadNote(count: nat): Json {
    JStr("[The user attached " + Decimal(count) + " file(s) that cannot be opened here.]")
  }

  const NOTE_KEY := "user_attachments_note"

  /** Put the note in a result: as a member of an object, or beside any other value. */
  function Announced(content: Json, count: nat): Json {
    match content
    case JObj(fields) => JObj(fields[NOTE_KEY := UnreadNote(count)])
    case other => JObj(map["result" := other, NOTE_KEY := UnreadNote(count)])
  }

  /** Announce `count` unread files in the result of the latest call `c`. */
  function AnnounceUnread(ms: seq<Message>, c: CallId, count: nat): seq<Message> {
    var slot := ResultOf(ms, c);
    if count == 0 || slot.None? then ms
    else ms[slot.value := Tool(c, Announced(ms[slot.value].content, count))]
  }

  // ------------------------------------------------ what the edits do to the scan

  /** The content of a result does not matter to the scan. */
  lemma {:induction false} ScanIgnoresContent(open: set<CallId>, ms: seq<Message>, j: nat, v: Json)
    requires j < |ms| && ms[j].Tool?
    ensures ScanFrom(open, ms[j := Tool(ms[j].callId, v)]) == ScanFrom(open, ms)
  {
    var ns := ms[j := Tool(ms[j].callId, v)];
    var n := |ms| - 1;
    if j == n {
      assert ns[..n] == ms[..n];
    } else {
      assert ns[..n] == ms[..n][j := Tool(ms[j].callId, v)];
      ScanIgnoresContent(open, ms[..n], j, v);
    }
  }

  /** An open call belongs to the latest turn that made it, and nothing but results follow. */
  lemma {:induction false} OpenCallIsLatest(ms: seq<Message>, open: set<CallId>, c: CallId)
    requires Unanswered(ms) == Some(open) && c in open
    ensures LatestAssistantWith(ms, c).Some?
    ensures var at := LatestAssistantWith(ms, c).value;
            ToolRunEnd(ms, at) == |ms| && FindResult(ms, at + 1, |ms|, c).None?
  {
    ScanIsPairing(ms, open);
    var home: nat :| home < |ms| && OpenAt(ms, home, c);
    OpenIsLatest(ms, home, c);
  }

  lemma {:induction false} OpenIsLatest(ms: seq<Message>, home: nat, c: CallId)
    requires home < |ms| && OpenAt(ms, home, c)
    ensures LatestAssistantWith(ms, c) == Some(home)
    ensures ToolRunEnd(ms, home) == |ms| && FindResult(ms, home + 1, |ms|, c).None?
  {
    assert forall k :: home < k < |ms| ==> !Made(ms[k], c);
    var slot := FindResult(ms, home + 1, |ms|, c);
    if slot.Some? {
      assert Answers(ms, home, slot.value, c);
      assert false;
    }
  }

  /** A made call without a result in its run is open, at the very end of the transcript. */
  lemma {:induction false} MissingResultIsOpen(ms: seq<Message>, open: set<CallId>, c: CallId)
    requires Unanswered(ms) == Some(open)
    requires LatestAssistantWith(ms, c).Some? && ResultOf(ms, c).None?
    ensures c in open && ToolRunEnd(ms, LatestAssistantWith(ms, c).value) == |ms|
  {
    ScanIsPairing(ms, open);
    var at := LatestAssistantWith(ms, c).value;
    var end := ToolRunEnd(ms, at);
    forall j: nat | j < |ms|
      ensures !Answers(ms, at, j, c)
    {
      assert at < end < j ==> !ms[end].Tool?;
    }
    assert !Answered(ms, at, c);
    assert Made(ms[at], c) && OpenAt(ms, at, c);
  }

  /** Patching answers `c` when it waits, and otherwise leaves the waiting calls alone. */
  lemma {:induction false} PatchedScan(ms: seq<Message>, open: set<CallId>, c: CallId, v: Json)
    requires Unanswered(ms) == Some(open)
    ensures Unanswered(Patched(ms, c, v)) == Some(open - {c})
  {
    if c in open { OpenCallIsLatest(ms, open, c); }
    var at := LatestAssistantWith(ms, c);
    if at.Some? {
      var slot := ResultOf(ms, c);
      if slot.Some? {
        ScanIgnoresContent({}, ms, slot.value, v);
      } else {
        MissingResultIsOpen(ms, open, c);
        assert ms[..|ms|] == ms && ms[|ms|..] == [];
        assert Patched(ms, c, v) == ms + [Tool(c, v)];
        ScanPush({}, ms, Tool(c, v));
      }
    }
    assert c !in open ==> open - {c} == open;
  }

  lemma {:induction false} AnnounceUnreadScan(ms: seq<Message>, c: CallId, count: nat)
    ensures Unanswered(AnnounceUnread(ms, c, count)) == Unanswered(ms)
  {
    var slot := ResultOf(ms, c);
    if count != 0 && slot.Some? {
      ScanIgnoresContent({}, ms, slot.value, Announced(ms[slot.value].content, count));
    }
  }

  /** A call that stays open through a run of results may as well be answered before the run. */
  lemma {:induction false} AnswerEarlier(open: set<CallId>, ts: seq<Message>, left: set<CallId>, c: CallId)
    requires forall k :: 0 <= k < |ts| ==> ts[k].Tool?
    requires ScanFrom(open, ts) == Some(left) && c in left
    ensures c in open && ScanFrom(open - {c}, ts) == Some(left - {c})
  {
    if ts != [] {
      var pre, last := ts[..|ts| - 1], ts[|ts| - 1];
      var mid := ScanFrom(open, pre).value;
      AnswerEarlier(open, pre, mid, c);
      assert mid - {c} - {last.callId} == mid - {last.callId} - {c};
    }
  }

  /** The placeholder answers exactly the parked call. */
  lemma {:induction false} PlaceholderScan(ms: seq<Message>, open: set<CallId>, c: CallId)
    requires Unanswered(ms) == Some(open)
    ensures WithPlaceholder(ms, c).Some? ==> Unanswered(WithPlaceholder(ms, c).value) == Some(open - {c})
    ensures WithPlaceholder(ms, c).None? ==> c !in open
  {
    if c in open { OpenCallIsLatest(ms, open, c); }
    var at := LatestAssistantWith(ms, c);
    if at.Some? && ResultOf(ms, c).None? {
      MissingResultIsOpen(ms, open, c);
      var head, run := ms[..at.value + 1], ms[at.value + 1..];
      assert ms == head + run;
      ScanAppend({}, head, run);
      var made := Unanswered(head).value;
      AnswerEarlier(made, run, open, c);
      ScanPush({}, head, Tool(c, AWAITING));
      ScanAppend({}, head + [Tool(c, AWAITING)], run);
    } else {
      assert c !in open;
      assert open - {c} == open;
    }
  }

  // ------------------------------------------------ further laws of the patch

  /** A patch of a call whose first result stands at `place` rewrites that message. */
  lemma {:induction false} PatchRewrites(ms: seq<Message>, c: CallId, w: Json, at: nat, place: nat)
    requires StandsAt(ms, c, at, place)
    ensures Patched(ms, c, w) == ms[place := Tool(c, w)]
  {
    FoundAt(ms, c, at, place);
  }

  /** The latest call `c` is at `at`, and its first result at `place`. */
  ghost predicate StandsAt(ms: seq<Message>, c: CallId, at: nat, place: nat) {
    && at < place < |ms| && Made(ms[at], c) && (forall k :: at < k < |ms| ==> !Made(ms[k], c))
    && ms[place].Tool? && ms[place].callId == c && ToolsBetween(ms, at, place)
    && (forall k :: at < k < place ==> ms[k].callId != c)
  }

  lemma {:induction false} FoundAt(ms: seq<Message>, c: CallId, at: nat, place: nat)
    requires StandsAt(ms, c, at, place)
    ensures LatestAssistantWith(ms, c) == Some(at) && ResultOf(ms, c) == Some(place)
  {
    assert LatestAssistantWith(ms, c) == Some(at);
    var end := ToolRunEnd(ms, at);
    assert place < end;
    assert FindResult(ms, at + 1, end, c) == Some(place);
  }

  /** Inserting and then overwriting is inserting the final value. */
  lemma {:induction false} InsertThenUpdate<T>(s: seq<T>, i: nat, x: T, y: T)
    requires i <= |s|
    ensures var r := s[..i] + [x] + s[i..];
            && |r| == |s| + 1 && r[i] == x && (forall k :: 0 <= k < i ==> r[k] == s[k])
            && (forall k :: i < k < |r| ==> r[k] == s[k - 1]) && r[i := y] == s[..i] + [y] + s[i..]
  {
  }

  /** The last result written for a call is the one that stays. */
  lemma {:induction false} PatchLastWriteWins(ms: seq<Message>, c: CallId, v: Json, w: Json)
    ensures Patched(Patched(ms, c, v), c, w) == Patched(ms, c, w)
  {
    var latest := LatestAssistantWith(ms, c);
    if latest.Some? {
      var at := latest.value;
      var slot := FindResult(ms, at + 1, ToolRunEnd(ms, at), c);
      if slot.Some? {
        PatchReplaced(ms, c, v, w, at, slot.value);
      } else {
        PatchInserted(ms, c, v, w, at);
      }
    }
  }

  /** A result that was replaced is found and rewritten by the next write. */
  lemma {:induction false} PatchReplaced(ms: seq<Message>, c: CallId, v: Json, w: Json, at: nat, slot: nat)
    requires LatestAssistantWith(ms, c) == Some(at) && FindResult(ms, at + 1, ToolRunEnd(ms, at), c) == Some(slot)
    ensures Patched(Patched(ms, c, v), c, w) == Patched(ms, c, w)
  {
    ReplacedIsFound(ms, c, v, at, slot);
    PatchRewrites(ms[slot := Tool(c, v)], c, w, at, slot);
    UpdateTwice(ms, slot, Tool(c, v), Tool(c, w));
  }

  lemma {:induction false} UpdateTwice<T>(s: seq<T>, i: nat, x: T, y: T)
    requires i < |s|
    ensures s[i := x][i := y] == s[i := y]
  {
  }

  lemma {:induction false} ReplacedIsFound(ms: seq<Message>, c: CallId, v: Json, at: nat, slot: nat)
    requires LatestAssistantWith(ms, c) == Some(at) && FindResult(ms, at + 1, ToolRunEnd(ms, at), c) == Some(slot)
    ensures slot < |ms| && StandsAt(ms[slot := Tool(c, v)], c, at, slot)
  {
  }

  /** A result that had to be added is found and rewritten by the next write. */
  lemma {:induction false} PatchInserted(ms: seq<Message>, c: CallId, v: Json, w: Json, at: nat)
    requires LatestAssistantWith(ms, c) == Some(at) && FindResult(ms, at + 1, ToolRunEnd(ms, at), c).None?
    ensures Patched(Patched(ms, c, v), c, w) == Patched(ms, c, w)
  {
    var end := ToolRunEnd(ms, at);
    InsertThenUpdate(ms, end, Tool(c, v), Tool(c, w));
    InsertedIsFound(ms, c, v, at);
    PatchRewrites(ms[..end] + [Tool(c, v)] + ms[end..], c, w, at, end);
  }

  lemma {:induction false} InsertedIsFound(ms: seq<Message>, c: CallId, v: Json, at: nat)
    requires LatestAssistantWith(ms, c) == Some(at) && FindResult(ms, at + 1, ToolRunEnd(ms, at), c).None?
    ensures var end := ToolRunEnd(ms, at); StandsAt(ms[..end] + [Tool(c, v)] + ms[end..], c, at, end)
  {
    var end := ToolRunEnd(ms, at);
    var ns := ms[..end] + [Tool(c, v)] + ms[end..];
    forall k | at < k < |ns| ensures !Made(ns[k], c) {
      assert k > end ==> ns[k] == ms[k - 1] && k - 1 > at;
    }
  }

  /** What the transcript says the latest call `c` returned. */
  function ContentOf(ms: seq<Message>, c: CallId): Option<Json> {
    var slot := ResultOf(ms, c);
    if slot.Some? then Some(ms[slot.value].content) else None
  }

  /** What was written is what is read, as long as the turn that made the call is there. */
  lemma {:induction false} PatchReadBack(ms: seq<Message>, c: CallId, v: Json)
    ensures ContentOf(Patched(ms, c, v), c) == if LatestAssistantWith(ms, c).Some? then Some(v) else None
    ensures LatestAssistantWith(Patched(ms, c, v), c) == LatestAssistantWith(ms, c)
  {
    var latest := LatestAssistantWith(ms, c);
    if latest.Some? {
      var at, end := latest.value, ToolRunEnd(ms, latest.value);
      var slot := FindResult(ms, at + 1, end, c);
      if slot.Some? {
        ReplacedIsFound(ms, c, v, at, slot.value);
        FoundAt(ms[slot.value := Tool(c, v)], c, at, slot.value);
      } else {
        InsertedIsFound(ms, c, v, at);
        FoundAt(ms[..end] + [Tool(c, v)] + ms[end..], c, at, end);
      }
    }
  }

  /** The note about unread files is added to what the call returned, and only there. */
  lemma {:induction false} AnnounceReadBack(ms: seq<Message>, c: CallId, count: nat)
    ensures var was := ContentOf(ms, c);
            ContentOf(AnnounceUnread(ms, c, count), c) ==
              if was.Some? && count > 0 then Some(Announced(was.value, count)) else was
  {
    var slot := ResultOf(ms, c);
    if slot.Some? && count > 0 {
      var at := LatestAssistantWith(ms, c).value;
      var v := Announced(ms[slot.value].content, count);
      ReplacedIsFound(ms, c, v, at, slot.value);
      FoundAt(ms[slot.value := Tool(c, v)], c, at, slot.value);
    }
  }

  /** An announcement adds one member to an object and wraps any other value; nothing of the result is lost. */
  lemma {:induction false} AnnouncedKeeps(v: Json, count: nat)
    ensures var a := Announced(v, count);
            && a.JObj?
            && a.fields.Keys == (if v.JObj? then v.fields.Keys else {"result"}) + {"user_attachments_note"}
            && a.fields["user_attachments_note"]
               == JStr("[The user attached " + Decimal(count) + " file(s) that cannot be opened here.]")
            && (!v.JObj? ==> a.fields["result"] == v)
            && (v.JObj? ==> forall k :: k in v.fields && k != "user_attachments_note" ==> a.fields[k] == v.fields[k])
  {
    assert |"result"| != |NOTE_KEY|;
  }

  /** A call that is held reads as waiting for the user, or as what it returned before. */
  lemma {:induction false} PlaceholderReadBack(ms: seq<Message>, c: CallId)
    ensures WithPlaceholder(ms, c).Some? <==> LatestAssistantWith(ms, c).Some?
    ensures WithPlaceholder(ms, c).Some? ==>
              ContentOf(WithPlaceholder(ms, c).value, c) ==
                if ContentOf(ms, c).Some? then ContentOf(ms, c)
                else Some(JObj(map["status" := JStr("awaiting_user_input")]))
  {
    var latest := LatestAssistantWith(ms, c);
    if latest.Some? && ResultOf(ms, c).None? {
      var at, ns := latest.value, WithPlaceholder(ms, c).value;
      InsertThenUpdate(ms, at + 1, Tool(c, AWAITING), Tool(c, AWAITING));
      assert forall k :: at + 1 < k < |ns| ==> ns[k] == ms[k - 1];
      FoundAt(ns, c, at, at + 1);
    }
  }

  /** Writing a result and then announcing unread files in it. */
  lemma {:induction false} PatchThenAnnounce(ms: seq<Message>, c: CallId, v: Json, count: nat)
    ensures ContentOf(AnnounceUnread(Patched(ms, c, v), c, count), c) ==
            if LatestAssistantWith(ms, c).None? then None else Some(if count > 0 then Announced(v, count) else v)
  {
    PatchReadBack(ms, c, v);
    AnnounceReadBack(Patched(ms, c, v), c, count);
  }

  /** For an open call, adding its result at the end is recording it. */
  lemma {:induction false} AnswerOpen(ms: seq<Message>, open: set<CallId>, c: CallId, v: Json)
    requires Unanswered(ms) == Some(open) && c in open
    ensures ms + [Tool(c, v)] == Patched(ms, c, v)
    ensures Unanswered(ms + [Tool(c, v)]) == Some(open - {c}) && ContentOf(ms + [Tool(c, v)], c) == Some(v)
  {
    OpenCallIsLatest(ms, open, c);
    assert ms[..|ms|] + [Tool(c, v)] + ms[|ms|..] == ms + [Tool(c, v)];
    PatchedScan(ms, open, c, v);
    PatchReadBack(ms, c, v);
  }

  /** A message that is neither a result nor makes the call changes nothing about what it returned. */
  lemma {:induction false} PushKeepsContent(ms: seq<Message>, c: CallId, m: Message)
    requires ContentOf(ms, c).Some? && !m.Tool? && !Made(m, c)
    ensures ContentOf(ms + [m], c) == ContentOf(ms, c)
  {
    var at, place := LatestAssistantWith(ms, c).value, ResultOf(ms, c).value;
    var ns := ms + [m];
    assert forall k :: 0 <= k < |ms| ==> ns[k] == ms[k];
    assert StandsAt(ns, c, at, place);
    FoundAt(ns, c, at, place);
  }

  /** A patch touches one message: it rewrites the call's result or adds one, and no other changes. */
  lemma {:induction false} PatchTouchesOneResult(ms: seq<Message>, c: CallId, v: Json)
    ensures var ns := Patched(ms, c, v);
            || ns == ms
            || (exists j: nat :: j < |ms| && ms[j].Tool? && ms[j].callId == c && ns == ms[j := Tool(c, v)])
            || (exists j: nat :: j <= |ms| && ns == ms[..j] + [Tool(c, v)] + ms[j..])
    ensures |ms| <= |Patched(ms, c, v)| <= |ms| + 1
  {
    var at := LatestAssistantWith(ms, c);
    if at.Some? {
      var end := ToolRunEnd(ms, at.value);
      var slot := FindResult(ms, at.value + 1, end, c);
      if slot.Some? {
        assert Patched(ms, c, v) == ms[slot.value := Tool(c, v)];
      } else {
        assert Patched(ms, c, v) == ms[..end] + [Tool(c, v)] + ms[end..];
      }
    }
  }
}
