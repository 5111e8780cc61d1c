/**
 Suspending and resuming a `flow:` tool. `Conv` is the value of a conversation; the functions
 say what each operation makes of it, and the class `ConversationState` holds the two fields
 and edits them in place as the runtime does.
 */
module Conversation {
  import opened Common
  import opened Transcript
  import opened Edits
  import opened History

  const IDLE_TTL: int := 60 * 60
  const MAX_SIDE_TURNS: nat := 20
  const MAX_AGE: int := 24 * 60 * 60

  datatype Policy = CancelPark | SideTurn

  /** A parked tool call; times are in seconds. */
  datatype Pending = Pending(
    callId: CallId,
    flowRef: string,
    snapshot: Json,
    expiresAt: int,
    presentation: Option<Json>,
    parkedAt: Option<int>,
    sideTurns: nat,
    unannounced: nat)

  datatype Conv = Conv(messages: seq<Message>, pending: Option<Pending>)

  datatype Taken =
    | Nothing
    | Resume(parked: Pending, payload: Json)
    | Cancelled(callId: CallId, result: Json)
    | Side

  datatype FlowOutcome = Completed(result: Json) | Waiting(snapshot: Json, card: Json)

  datatype End = FinalReply | ConversationEnded | AwaitingToolInput | OutOfTime

  // ------------------------------------------------------------ specification

  predicate IsExpired(p: Pending, now: int) {
    now >= p.expiresAt
  }

  predicate SideTurnAllowed(p: Pending, now: int) {
    && !IsExpired(p, now)
    && (p.parkedAt.Some? ==> now < p.parkedAt.value + MAX_AGE)
    && p.sideTurns < MAX_SIDE_TURNS
    && p.presentation.Some?
  }

  function BeginSideTurn(p: Pending, now: int): Pending {
    var idle := now + IDLE_TTL;
    p.(sideTurns := p.sideTurns + 1,
       expiresAt := if p.parkedAt.Some? then Min(idle, p.parkedAt.value + MAX_AGE) else idle)
  }

  function CancelResult(reason: string): Json {
    JObj(map["status" := JStr("cancelled"), "reason" := JStr(reason)])
  }

  const EXPIRED := "the step waiting for the user expired before they answered"
  const TYPED := "the user sent a message instead of completing this step"
  const ENDED := "the conversation ended"

  /** Answer a parked call as cancelled and forget the park. */
  function Cancel(s: Conv, p: Pending, reason: string): (Conv, Taken) {
    var answered := Patched(s.messages, p.callId, CancelResult(reason));
    (Conv(AnnounceUnread(answered, p.callId, p.unannounced), None), Cancelled(p.callId, CancelResult(reason)))
  }

  /** What the start of a step makes of a parked call. */
  function TakePending(s: Conv, payload: Option<Json>, now: int, policy: Policy): (Conv, Taken) {
    if s.pending.None? then (s, Nothing)
    else
      var p := s.pending.value;
      var held := WithPlaceholder(s.messages, p.callId);
      if policy.SideTurn? && payload.None? && SideTurnAllowed(p, now) && held.Some? then
        (Conv(held.value, Some(BeginSideTurn(p, now))), Side)
      else if IsExpired(p, now) then Cancel(s, p, EXPIRED)
      else if payload.Some? then (s.(pending := None), Resume(p, payload.value))
      else Cancel(s, p, TYPED)
  }

  function Rearmed(p: Pending, snapshot: Json, card: Json, now: int, files: nat): Pending {
    p.(snapshot := snapshot, expiresAt := now + IDLE_TTL, presentation := Some(card), sideTurns := 0,
       unannounced := Min(p.unannounced + Min(files, U32_MAX), U32_MAX))
  }

  /** The resumed flow finished, or parked again; `files` came with the user's answer. */
  function ResumePending(s: Conv, p: Pending, outcome: FlowOutcome, now: int, files: nat): Conv {
    match outcome
    case Completed(result) =>
      s.(messages := AnnounceUnread(Patched(s.messages, p.callId, result), p.callId, p.unannounced + files))
    case Waiting(snapshot, card) => s.(pending := Some(Rearmed(p, snapshot, card, now, files)))
  }

  /** After a side turn: re-offer the card, or cancel the park if the conversation ended. */
  function FinishSideTurn(s: Conv, end: End): (Conv, End, Option<Json>) {
    if end.ConversationEnded? then
      if s.pending.None? then (s, end, None)
      else (Conv(Patched(s.messages, s.pending.value.callId, CancelResult(ENDED)), None), end, None)
    else if s.pending.Some? && s.pending.value.presentation.Some? then
      (s, AwaitingToolInput, s.pending.value.presentation)
    else (s, end, None)
  }

  const BEHIND := JObj(map["error" := JStr("another step is waiting for the user")])

  function ParkedId(s: Conv): Option<CallId> {
    if s.pending.Some? then Some(s.pending.value.callId) else None
  }

  function TruncateConv(s: Conv, max: nat): Conv {
    s.(messages := Truncated(s.messages, max, ParkedId(s)))
  }

  // ------------------------------------------------------------ the mutable state

  class ConversationState {
    var messages: seq<Message>
    var pending: Option<Pending>

    function View(): Conv
      reads this
    {
      Conv(messages, pending)
    }

    constructor ()
      ensures View() == Conv([], None)
    {
      messages := [];
      pending := None;
    }

    /** Scan backwards for the turn that made the call. */
    method LatestTurn(callId: CallId) returns (turn: Option<nat>)
      ensures turn == LatestAssistantWith(messages, callId)
    {
      var i := |messages|;
      assert messages[..i] == messages;
      while i > 0
        invariant 0 <= i <= |messages|
        invariant LatestAssistantWith(messages[..i], callId) == LatestAssistantWith(messages, callId)
      {
        if Made(messages[i - 1], callId) { return Some(i - 1); }
        assert messages[..i][..i - 1] == messages[..i - 1];
        i := i - 1;
      }
      turn := None;
    }

    /** End of the run of results that answers the turn at `at`. */
    method RunEnd(at: nat) returns (end: nat)
      requires at < |messages|
      ensures end == ToolRunEnd(messages, at)
    {
      end := at + 1;
      while end < |messages| && messages[end].Tool?
        invariant at < end <= |messages|
        invariant ToolRunEnd(messages, end - 1) == ToolRunEnd(messages, at)
      {
        end := end + 1;
      }
    }

    /** The slot of the call's result in `[lo, hi)`. */
    method FindIn(lo: nat, hi: nat, callId: CallId) returns (slot: Option<nat>)
      requires lo <= hi <= |messages|
      ensures slot == FindResult(messages, lo, hi, callId)
    {
      for k := lo to hi
        invariant FindResult(messages, k, hi, callId) == FindResult(messages, lo, hi, callId)
      {
        if messages[k].Tool? && messages[k].callId == callId { return Some(k); }
      }
      slot := None;
    }

    method PatchToolResult(callId: CallId, content: Json)
      modifies this
      ensures messages == Patched(old(messages), callId, content) && pending == old(pending)
    {
      var turn := LatestTurn(callId);
      if turn.None? { return; }
      var end := RunEnd(turn.value);
      var slot := FindIn(turn.value + 1, end, callId);
      if slot.Some? {
        messages := messages[slot.value := Tool(callId, content)];
      } else {
        messages := messages[..end] + [Tool(callId, content)] + messages[end..];
      }
    }

    method AnnounceUnreadAttachments(callId: CallId, count: nat)
      modifies this
      ensures messages == AnnounceUnread(old(messages), callId, count) && pending == old(pending)
    {
      if count == 0 { return; }
      var turn := LatestTurn(callId);
      if turn.None? { return; }
      var end := RunEnd(turn.value);
      var slot := FindIn(turn.value + 1, end, callId);
      if slot.None? { return; }
      messages := messages[slot.value := Tool(callId, Announced(messages[slot.value].content, count))];
    }

    method EnsurePlaceholder() returns (held: bool)
      modifies this
      ensures pending == old(pending)
      ensures held <==> pending.Some? && WithPlaceholder(old(messages), pending.value.callId).Some?
      ensures messages == if held then WithPlaceholder(old(messages), pending.value.callId).value else old(messages)
    {
      if pending.None? { return false; }
      var callId := pending.value.callId;
      var turn := LatestTurn(callId);
      if turn.None? { return false; }
      var end := RunEnd(turn.value);
      var slot := FindIn(turn.value + 1, end, callId);
      if slot.Some? { return true; }
      messages := messages[..turn.value + 1] + [Tool(callId, AWAITING)] + messages[turn.value + 1..];
      return true;
    }

    method TakeParked(payload: Option<Json>, now: int, policy: Policy) returns (taken: Taken)
      modifies this
      ensures (View(), taken) == TakePending(old(View()), payload, now, policy)
    {
      if pending.None? { return Nothing; }
      if policy.SideTurn? && payload.None? && SideTurnAllowed(pending.value, now) {
        var held := EnsurePlaceholder();
        if held {
          pending := Some(BeginSideTurn(pending.value, now));
          return Side;
        }
      }
      var parked := pending.value;
      pending := None;
      var reason := TYPED;
      if IsExpired(parked, now) {
        reason := EXPIRED;
      } else if payload.Some? {
        return Resume(parked, payload.value);
      }
      PatchToolResult(parked.callId, CancelResult(reason));
      AnnounceUnreadAttachments(parked.callId, parked.unannounced);
      taken := Cancelled(parked.callId, CancelResult(reason));
    }

    method ResumeParked(parked: Pending, outcome: FlowOutcome, now: int, files: nat) returns (card: Option<Json>)
      modifies this
      ensures View() == ResumePending(old(View()), parked, outcome, now, files)
      ensures card == if outcome.Waiting? then Some(outcome.card) else None
    {
      match outcome
      case Completed(result) =>
        PatchToolResult(parked.callId, result);
        AnnounceUnreadAttachments(parked.callId, parked.unannounced + files);
        card := None;
      case Waiting(snapshot, shown) =>
        pending := Some(Rearmed(parked, snapshot, shown, now, files));
        card := Some(shown);
    }

    method FinishSide(end: End) returns (ended: End, card: Option<Json>)
      modifies this
      ensures (View(), ended, card) == FinishSideTurn(old(View()), end)
    {
      ended, card := end, None;
      if end.ConversationEnded? {
        if pending.Some? {
          var callId := pending.value.callId;
          pending := None;
          PatchToolResult(callId, CancelResult(ENDED));
        }
        return;
      }
      if pending.Some? && pending.value.presentation.Some? {
        ended, card := AwaitingToolInput, pending.value.presentation;
      }
    }

    /** An open call behind a parked one is answered, and no other call is. */
    method RefuseBehind(call: Call)
      modifies this
      ensures messages == old(messages) + [Tool(call.id, BEHIND)] && pending == old(pending)
      ensures var was := Unanswered(old(messages));
              was.Some? && call.id in was.value ==>
                && Unanswered(messages) == Some(was.value - {call.id})
                && ContentOf(messages, call.id) == Some(JObj(map["error" := JStr("another step is waiting for the user")]))
                && messages == Patched(old(messages), call.id, BEHIND)
    {
      ghost var was := Unanswered(messages);
      if was.Some? && call.id in was.value { AnswerOpen(messages, was.value, call.id, BEHIND); }
      messages := messages + [Tool(call.id, BEHIND)];
    }

    /** The first droppable turn, found by walking over the turns. */
    method OldestTurn(keep: Option<CallId>) returns (turn: Option<(nat, nat)>)
      ensures turn == OldestRemovable(messages, 0, keep)
    {
      var i := 0;
      while i < |messages|
        invariant 0 <= i <= |messages|
        invariant OldestRemovable(messages, i, keep) == OldestRemovable(messages, 0, keep)
      {
        if messages[i].System? {
          i := i + 1;
        } else {
          var end := i + 1;
          while end < |messages| && !messages[end].User?
            invariant i < end <= |messages|
            invariant TurnEnd(messages, end - 1) == TurnEnd(messages, i)
          {
            end := end + 1;
          }
          if end >= |messages| { return None; }
          if !HoldsProtected(messages, i, end, keep) { return Some((i, end)); }
          i := end;
        }
      }
      turn := None;
    }

    method TruncateHistory(maxTurns: nat)
      modifies this
      ensures View() == TruncateConv(old(View()), maxTurns)
    {
      var keep := ParkedId(View());
      ghost var start := messages;
      while NonSystem(messages) > maxTurns
        invariant Truncated(messages, maxTurns, keep) == Truncated(start, maxTurns, keep)
        invariant pending == old(pending)
        decreases NonSystem(messages)
      {
        var turn := OldestTurn(keep);
        if turn.None? { return; }
        DropTurnShrinks(messages, turn.value.0, turn.value.1);
        messages := DropTurn(messages, turn.value.0, turn.value.1);
      }
    }
  }

  // ------------------------------------------------------------ what each operation keeps

  /** Only the parked call may wait between two steps. */
  ghost predicate Rested(s: Conv) {
    && Unanswered(s.messages).Some?
    && Unanswered(s.messages).value <= (if s.pending.Some? then {s.pending.value.callId} else {})
  }

  /** Nothing waits: the transcript may go to the model. */
  ghost predicate Ready(s: Conv) {
    Unanswered(s.messages) == Some({})
  }

  lemma {:induction false} CancelReady(s: Conv, p: Pending, reason: string)
    requires Unanswered(s.messages).Some? && Unanswered(s.messages).value <= {p.callId}
    ensures Ready(Cancel(s, p, reason).0)
  {
    var open := Unanswered(s.messages).value;
    PatchedScan(s.messages, open, p.callId, CancelResult(reason));
    AnnounceUnreadScan(Patched(s.messages, p.callId, CancelResult(reason)), p.callId, p.unannounced);
    assert open - {p.callId} == {};
  }

  /** However a step starts, the model may be called next, unless the answer goes to the flow. */
  lemma {:induction false} TakePendingReady(s: Conv, payload: Option<Json>, now: int, policy: Policy)
    requires Rested(s)
    ensures var (t, taken) := TakePending(s, payload, now, policy);
            && (taken.Resume? ==> t.pending.None? && t.messages == s.messages && s.pending == Some(taken.parked))
            && (!taken.Resume? ==> Ready(t))
            && (taken.Side? <==> t.pending.Some?)
  {
    if s.pending.Some? {
      var p := s.pending.value;
      var open := Unanswered(s.messages).value;
      PlaceholderScan(s.messages, open, p.callId);
      assert open - {p.callId} == {};
      CancelReady(s, p, EXPIRED);
      CancelReady(s, p, TYPED);
    } else {
      assert Unanswered(s.messages).value == {};
    }
  }

  /** What a call is recorded to have returned when its park is cancelled. */
  function CancelledWith(reason: string, unread: nat): Json {
    var why := JObj(map["status" := JStr("cancelled"), "reason" := JStr(reason)]);
    if unread > 0 then Announced(why, unread) else why
  }

  /** The user's message may be a side turn: within the hour, the day and the 20 turns, with a card to re-offer. */
  predicate MayBeSide(p: Pending, now: int) {
    && now < p.expiresAt && p.sideTurns < 20 && p.presentation.Some?
    && (p.parkedAt.Some? ==> now < p.parkedAt.value + 86_400)
  }

  /**
   Which way a step starts: the answer reaches the flow exactly when there is one and the park has
   not expired; without one a side turn is granted exactly when the policy and the park allow it and
   the parked turn is there; a cancelled call is recorded as cancelled, for the reason that holds.
   */
  lemma {:induction false} TakePendingExactly(s: Conv, payload: Option<Json>, now: int, policy: Policy)
    ensures var (t, taken) := TakePending(s, payload, now, policy);
            && (taken.Nothing? <==> s.pending.None?)
            && (taken.Resume? <==> s.pending.Some? && payload.Some? && now < s.pending.value.expiresAt)
            && (taken.Resume? ==> taken.payload == payload.value)
            && (s.pending.Some? ==>
                  var p := s.pending.value;
                  var turn := LatestAssistantWith(s.messages, p.callId);
                  && (taken.Side? <==> policy.SideTurn? && payload.None? && MayBeSide(p, now) && turn.Some?)
                  && (taken.Cancelled? ==>
                        ContentOf(t.messages, p.callId) ==
                          if turn.None? then None
                          else Some(CancelledWith(
                                 if now >= p.expiresAt then "the step waiting for the user expired before they answered"
                                 else "the user sent a message instead of completing this step", p.unannounced))))
  {
    if s.pending.Some? {
      var c, n := s.pending.value.callId, s.pending.value.unannounced;
      var why := CancelResult(if now >= s.pending.value.expiresAt then EXPIRED else TYPED);
      PatchThenAnnounce(s.messages, c, why, n);
    }
  }

  /** During a side turn the parked call reads as waiting for the user, or as what was recorded before. */
  lemma {:induction false} SideTurnHoldsTheCall(s: Conv, payload: Option<Json>, now: int, policy: Policy)
    requires TakePending(s, payload, now, policy).1.Side?
    ensures var c, t := s.pending.value.callId, TakePending(s, payload, now, policy).0;
            ContentOf(t.messages, c) ==
              if ContentOf(s.messages, c).Some? then ContentOf(s.messages, c)
              else Some(JObj(map["status" := JStr("awaiting_user_input")]))
  {
    PlaceholderReadBack(s.messages, s.pending.value.callId);
  }

  /** A completed flow's result is what the call returned, with the files nobody read announced. */
  lemma {:induction false} ResumeRecords(s: Conv, p: Pending, result: Json, now: int, files: nat)
    ensures var t, n := ResumePending(s, p, Completed(result), now, files), p.unannounced + files;
            ContentOf(t.messages, p.callId) ==
              if LatestAssistantWith(s.messages, p.callId).None? then None
              else Some(if n > 0 then Announced(result, n) else result)
  {
    PatchThenAnnounce(s.messages, p.callId, result, p.unannounced + files);
  }

  /** A resumed flow leaves the transcript ready, or parks the same call again. */
  lemma {:induction false} ResumeKeeps(s: Conv, p: Pending, outcome: FlowOutcome, now: int, files: nat)
    requires s.pending.None? && Unanswered(s.messages).Some? && Unanswered(s.messages).value <= {p.callId}
    ensures var t := ResumePending(s, p, outcome, now, files);
            if outcome.Completed? then Ready(t) && t.pending.None?
            else Rested(t) && ParkedId(t) == Some(p.callId)
  {
    if outcome.Completed? {
      var open := Unanswered(s.messages).value;
      PatchedScan(s.messages, open, p.callId, outcome.result);
      AnnounceUnreadScan(Patched(s.messages, p.callId, outcome.result), p.callId, p.unannounced + files);
      assert open - {p.callId} == {};
    }
  }

  /**
   How a side turn ends: a conversation that ended cancels the park for that reason, and otherwise
   the park stays as it was and the user is offered its card again.
   */
  lemma {:induction false} FinishSideTurnExactly(s: Conv, end: End)
    requires s.pending.Some?
    ensures var (t, ended, card) := FinishSideTurn(s, end);
            var p := s.pending.value;
            if end == ConversationEnded then
              && t.pending.None? && ended == ConversationEnded && card.None?
              && ContentOf(t.messages, p.callId) ==
                   if LatestAssistantWith(s.messages, p.callId).None? then None
                   else Some(CancelledWith("the conversation ended", 0))
            else
              && t == s && card == p.presentation
              && ended == if p.presentation.Some? then AwaitingToolInput else end
  {
    PatchReadBack(s.messages, s.pending.value.callId, CancelResult(ENDED));
  }

  lemma {:induction false} FinishSideTurnReady(s: Conv, end: End)
    requires Ready(s)
    ensures Ready(FinishSideTurn(s, end).0)
    ensures FinishSideTurn(s, end).0.pending.Some? ==> FinishSideTurn(s, end).0 == s
  {
    if end.ConversationEnded? && s.pending.Some? {
      PatchedScan(s.messages, {}, s.pending.value.callId, CancelResult(ENDED));
      assert {} - {s.pending.value.callId} == {};
    }
  }
}
