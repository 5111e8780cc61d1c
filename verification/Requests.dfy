/**
 What the model is sent over whole runs: whether a resumed flow's result is still in the request,
 and who speaks first in it.
 */
module Requests {
  import opened Common
  import opened Transcript
  import opened Edits
  import opened History
  import opened Conversation
  import opened AgentLoop
  import opened ParkedCalls

  // ------------------------------------------------------------ is the result in the request?

  /** A result stands where it did when only what is before its turn is replaced. */
  lemma {:induction false} TailKeepsContent(head: seq<Message>, ms: seq<Message>, j: nat, c: CallId)
    requires ContentOf(ms, c).Some? && j <= LatestAssistantWith(ms, c).value
    ensures ContentOf(head + ms[j..], c) == ContentOf(ms, c)
    ensures LatestAssistantWith(head + ms[j..], c) == Some(|head| + LatestAssistantWith(ms, c).value - j)
  {
    var at, place, d := LatestAssistantWith(ms, c).value, ResultOf(ms, c).value, |head| - j;
    assert StandsAt(ms, c, at, place);
    TailStands(head, ms, j, c, at, place);
    FoundAt(head + ms[j..], c, at + d, place + d);
  }

  lemma {:induction false} TailStands(head: seq<Message>, ms: seq<Message>, j: nat, c: CallId, at: nat, place: nat)
    requires StandsAt(ms, c, at, place) && j <= at
    ensures StandsAt(head + ms[j..], c, |head| + at - j, |head| + place - j)
    ensures (head + ms[j..])[|head| + place - j] == ms[place]
  {
    var ns, d := head + ms[j..], |head| - j;
    assert forall k :: |head| <= k < |ns| ==> ns[k] == ms[k - d];
  }

  /** Where the turn of the latest call `c` starts. */
  function CallTurn(ms: seq<Message>, c: CallId): nat
    requires HasTurn(ms, c)
  {
    TurnStart(ms, LatestAssistantWith(ms, c).value)
  }

  /** Dropping an earlier turn changes neither a result nor whether its turn survives. */
  lemma {:induction false} DropEarlier(ms: seq<Message>, i: nat, end: nat, max: nat, c: CallId)
    requires i < end < |ms| && ms[end].User? && ContentOf(ms, c).Some? && end <= CallTurn(ms, c)
    ensures var ns := DropTurn(ms, i, end);
            && ContentOf(ns, c) == ContentOf(ms, c)
            && (Survives(ns, CallTurn(ns, c), max) <==> Survives(ms, CallTurn(ms, c), max))
  {
    ReplaceEarlier(ms[..i] + Systems(ms[i..end]), ms, end, max, c);
  }

  lemma {:induction false} ReplaceEarlier(head: seq<Message>, ms: seq<Message>, j: nat, max: nat, c: CallId)
    requires ContentOf(ms, c).Some? && j <= CallTurn(ms, c) && ms[j].User?
    ensures var ns := head + ms[j..];
            && ContentOf(ns, c) == ContentOf(ms, c)
            && (Survives(ns, CallTurn(ns, c), max) <==> Survives(ms, CallTurn(ms, c), max))
  {
    TailKeepsContent(head, ms, j, c);
    TurnStartMoves(head, ms, j, LatestAssistantWith(ms, c).value);
    var ns, st := head + ms[j..], |head| + CallTurn(ms, c) - j;
    assert CallTurn(ns, c) == st;
    SurvivesMoved(head, ms, j, CallTurn(ms, c), max);
    assert Survives(ns, st, max) <==> Survives(ms, CallTurn(ms, c), max);
  }

  lemma {:induction false} SurvivesMoved(head: seq<Message>, ms: seq<Message>, j: nat, st: nat, max: nat)
    requires j <= st <= |ms|
    ensures Survives(head + ms[j..], |head| + st - j, max) <==> Survives(ms, st, max)
  {
    var ns, d := head + ms[j..], |head| - j;
    assert ns[st + d..] == ms[st..];
    assert forall k :: st < k < |ms| ==> ns[k + d] == ms[k];
    assert forall k :: st + d < k < |ns| ==> ns[k] == ms[k - d];
  }

  /** Dropping the call's own turn loses the call for good. */
  lemma {:induction false} DropOwn(ms: seq<Message>, i: nat, end: nat, max: nat, c: CallId)
    requires i < end < |ms| && LeadSystem(ms, i) && LatestAssistantWith(ms, c).Some? && LatestAssistantWith(ms, c).value < end
    ensures LatestAssistantWith(Truncated(DropTurn(ms, i, end), max, None), c).None?
  {
    var ns := DropTurn(ms, i, end);
    var n := i + |Systems(ms[i..end])|;
    forall k | 0 <= k < |ns| ensures !Made(ns[k], c) {
      assert k < i ==> ns[k] == ms[k];
      assert i <= k < n ==> ns[k] == Systems(ms[i..end])[k - i];
      assert n <= k ==> ns[k] == ms[end + k - n];
    }
    var r := Truncated(ns, max, None);
    forall k | 0 <= k < |r| ensures !Made(r[k], c) { TruncatedHas(ns, max, None, r[k]); }
  }

  /** An unprotected truncation keeps a result exactly when its turn is the newest or all from it on fits. */
  lemma {:induction false} TruncatedContent(ms: seq<Message>, max: nat, c: CallId)
    requires ContentOf(ms, c).Some?
    ensures ContentOf(Truncated(ms, max, None), c) == if Survives(ms, CallTurn(ms, c), max) then ContentOf(ms, c) else None
    decreases NonSystem(ms)
  {
    var st := CallTurn(ms, c);
    var i := FirstTurnGoes(ms, 0);
    StartsAfter(ms, i, st);
    NonSystemFrom(ms, st);
    var end := TurnEnd(ms, i);
    if NonSystem(ms) > max && end < |ms| {
      TruncatedDrops(ms, max, None, i, end);
      DropTurnShrinks(ms, i, end);
      if st == i {
        DropOwn(ms, i, end, max, c);
      } else {
        DropEarlier(ms, i, end, max, c);
        TruncatedContent(DropTurn(ms, i, end), max, c);
      }
    }
  }

  lemma {:induction false} TruncatedDrops(ms: seq<Message>, max: nat, keep: Option<CallId>, i: nat, end: nat)
    requires NonSystem(ms) > max && OldestRemovable(ms, 0, keep) == Some((i, end))
    ensures Truncated(ms, max, keep) == Truncated(DropTurn(ms, i, end), max, keep)
  {
  }

  /**
   In every run, a completed flow's result is in the request that follows exactly when the parked
   turn is the newest, or all that was said from it on is within the history limit. The park is no
   longer there to protect it.
   */
  lemma {:induction false} ResultIsSentExactly(s: State, events: seq<Event>, e: Event, max: nat)
    requires Init(s) && Rooted(s.live.messages, s.live.pending)
    requires Exec(s, events).phase.Resuming? && e.FlowReturns? && e.outcome.Completed?
    ensures var t := Exec(s, events);
            var u, p := Step(t, e), t.phase.parked;
            && HasTurn(u.live.messages, p.callId)
            && ContentOf(Sent(u, max), p.callId) ==
                 if Survives(u.live.messages, CallTurn(u.live.messages, p.callId), max)
                 then Some(WithNote(e.outcome.result, Unread(e, p))) else None
  {
    var t := Exec(s, events);
    ParkedTurnStays(s, events);
    ReachableInv(s, events);
    FlowRecords(t, e);
    TruncatedContent(Step(t, e).live.messages, max, t.phase.parked.callId);
  }

  // ------------------------------------------------------------ are the tools' values in the request?

  /** What the next call of the batch is answered with; `None` when the event does not answer it. */
  ghost function AnswerBy(t: State, e: Event): Option<Json> {
    if !Enabled(t, e) then None
    else if e.AnswerUnrun? then Some(e.content)
    else if !e.Dispatch? then None
    else if MustRefuse(t.phase, t.phase.todo[0])
    then Some(JObj(map["error" := JStr("another step is waiting for the user")]))
    else if e.ran.Value? then Some(e.ran.content) else None
  }

  /** Call `id` returned `v`, in the turn that is being answered. */
  ghost predicate Returned(ms: seq<Message>, id: CallId, v: Json) {
    ContentOf(ms, id) == Some(v) && forall k :: LatestAssistantWith(ms, id).value < k < |ms| ==> ms[k].Tool?
  }

  lemma {:induction false} ReturnedPush(ms: seq<Message>, id: CallId, v: Json, other: CallId, w: Json)
    requires Returned(ms, id, v) && other != id
    ensures Returned(ms + [Tool(other, w)], id, v)
  {
    var at, place := LatestAssistantWith(ms, id).value, ResultOf(ms, id).value;
    var ns := ms + [Tool(other, w)];
    assert forall k :: 0 <= k < |ms| ==> ns[k] == ms[k];
    assert StandsAt(ns, id, at, place);
    FoundAt(ns, id, at, place);
  }

  lemma {:induction false} AnswerReturns(ms: seq<Message>, open: set<CallId>, id: CallId, v: Json)
    requires Unanswered(ms) == Some(open) && id in open
    ensures Returned(ms + [Tool(id, v)], id, v)
  {
    OpenCallIsLatest(ms, open, id);
    AnswerOpen(ms, open, id, v);
    PatchReadBack(ms, id, v);
    var at := LatestAssistantWith(ms, id).value;
    assert ToolsBetween(ms, at, |ms|);
  }

  /** Truncation, protected or not, keeps what the newest turn's calls returned. */
  lemma {:induction false} NewestIsKept(ms: seq<Message>, max: nat, keep: Option<CallId>, id: CallId, v: Json)
    requires Returned(ms, id, v)
    ensures ContentOf(Truncated(ms, max, keep), id) == Some(v)
  {
    if user: nat :| IsNewestUser(ms, user) {
      TruncatedKeeps(ms, max, keep, user);
      var at: nat :| IsNewestUser(Truncated(ms, max, keep), at) && Truncated(ms, max, keep)[at..] == ms[user..];
      SameTail(ms, Truncated(ms, max, keep), user, at, id, v);
    } else {
      NoUserAtAll(ms);
    }
  }

  lemma {:induction false} SameTail(ms: seq<Message>, r: seq<Message>, user: nat, at: nat, id: CallId, v: Json)
    requires Returned(ms, id, v) && user < |ms| && ms[user].User? && at <= |r| && r[at..] == ms[user..]
    ensures ContentOf(r, id) == Some(v)
  {
    assert r == r[..at] + ms[user..];
    TailKeepsContent(r[..at], ms, user, id);
  }

  lemma {:induction false} NoUserAtAll(ms: seq<Message>)
    requires forall user: nat :: !IsNewestUser(ms, user)
    ensures forall k :: 0 <= k < |ms| ==> !ms[k].User?
  {
    var k := |ms|;
    while k > 0
      invariant 0 <= k <= |ms| && forall j :: k <= j < |ms| ==> !ms[j].User?
    {
      assert !IsNewestUser(ms, k - 1);
      k := k - 1;
    }
  }

  /** Answering the rest of the batch keeps what a call returned. */
  ghost predicate StillReturned(t: State, id: CallId, v: Json) {
    Returned(t.live.messages, id, v) && (t.phase.Acting? ==> id !in Ids(t.phase.todo))
  }

  lemma {:induction false} ReturnedStep(t: State, e: Event, id: CallId, v: Json)
    requires Inv(t) && t.phase.Acting? && StillReturned(t, id, v) && !e.Abort?
    ensures StillReturned(Step(t, e), id, v)
  {
    if Enabled(t, e) && t.phase.todo != [] {
      var next := t.phase.todo[0];
      assert next.id in Ids(t.phase.todo);
      IdsOfRest(t.phase.todo);
      var w := if e.AnswerUnrun? then e.content else if e.Dispatch? && MustRefuse(t.phase, next) then BEHIND
               else if e.Dispatch? && e.ran.Value? then e.ran.content else AWAITING;
      ReturnedPush(t.live.messages, id, v, next.id, w);
    }
  }

  lemma {:induction false} AnswerStep(t: State, e: Event)
    requires Inv(t) && AnswerBy(t, e).Some?
    ensures StillReturned(Step(t, e), t.phase.todo[0].id, AnswerBy(t, e).value)
  {
    var next := t.phase.todo[0];
    assert next.id in Ids(t.phase.todo);
    IdsOfRest(t.phase.todo);
    AnswerReturns(t.live.messages, Unanswered(t.live.messages).value, next.id, AnswerBy(t, e).value);
  }

  lemma {:induction false} ReturnedThroughout(t: State, more: seq<Event>, id: CallId, v: Json)
    requires Inv(t) && StillReturned(t, id, v) && StaysActing(t, more)
    ensures Inv(Exec(t, more)) && StillReturned(Exec(t, more), id, v)
  {
    if more != [] {
      var n := |more| - 1;
      StaysActingPrefix(t, more);
      ReturnedThroughout(t, more[..n], id, v);
      StepKeeps(Exec(t, more[..n]), more[n]);
      ReturnedStep(Exec(t, more[..n]), more[n], id, v);
    }
  }

  /** The batch is worked on, and the step is not cut short. */
  ghost predicate StaysActing(t: State, more: seq<Event>) {
    forall k :: 0 <= k < |more| ==> Exec(t, more[..k]).phase.Acting? && !more[k].Abort?
  }

  lemma {:induction false} StaysActingPrefix(t: State, more: seq<Event>)
    requires more != [] && StaysActing(t, more)
    ensures StaysActing(t, more[..|more| - 1])
  {
    var pre := more[..|more| - 1];
    forall k | 0 <= k < |pre| ensures Exec(t, pre[..k]).phase.Acting? && !pre[k].Abort? {
      assert pre[..k] == more[..k] && pre[k] == more[k];
    }
  }

  /**
   In every run, what a call of a batch was answered with, the tool's own value or a refusal, is what the
   next request holds for it, whatever the other calls of the batch return and whatever is truncated.
   */
  lemma {:induction false} ToolValueIsSent(s: State, events: seq<Event>, e: Event, more: seq<Event>, max: nat)
    requires Init(s) && AnswerBy(Exec(s, events), e).Some?
    requires StaysActing(Step(Exec(s, events), e), more) && Exec(Step(Exec(s, events), e), more).phase.Thinking?
    ensures var t := Exec(s, events);
            ContentOf(Sent(Exec(Step(t, e), more), max), t.phase.todo[0].id) == AnswerBy(t, e)
  {
    var t := Exec(s, events);
    var id, v := t.phase.todo[0].id, AnswerBy(t, e).value;
    ReachableInv(s, events);
    StepKeeps(t, e);
    AnswerStep(t, e);
    ReturnedThroughout(Step(t, e), more, id, v);
    var u := Exec(Step(t, e), more);
    NewestIsKept(u.live.messages, max, ParkedId(u.live), id, v);
  }

  // ------------------------------------------------------------ who spoke last

  /** What was said in event `e`, as the message it leaves; `None` when nobody spoke. */
  ghost function SaidIn(t: State, e: Event): Option<Message> {
    if !Enabled(t, e) then None
    else
      match e
      case Opening(text) => Some(Assistant(text, []))
      case StartStep(_, _, _, text) => if Step(t, e).phase.Thinking? then Some(User(text)) else None
      case CallLlm(_, reply) => if reply.Calls? then Some(Assistant(reply.text, reply.calls)) else None
      case Finish(_, reply) =>
        if t.phase.end == FinalReply || t.phase.end == ConversationEnded then Some(Assistant(reply, [])) else None
      case _ => None
  }

  /**
   What the user, the model or the agent said is the last message of the transcript, and what the next
   request ends with if nothing is said in between; a final reply and an opening are stored so.
   */
  lemma {:induction false} LastWord(t: State, e: Event, max: nat)
    requires SaidIn(t, e).Some?
    ensures var u, m := Step(t, e), SaidIn(t, e).value;
            && EndsWith(u.live.messages, m) && EndsWith(Sent(u, max), m)
            && (e.Finish? || e.Opening? ==> u.saved == u.live && u.phase == Resting)
  {
    var u := Step(t, e);
    if e.StartStep? {
      StartSays(t, e);
    } else if e.CallLlm? {
      LlmSays(t, e);
    } else if e.Finish? {
      FinishSays(t, e);
    }
    TruncatedLast(u.live.messages, max, ParkedId(u.live), SaidIn(t, e).value);
  }

  lemma {:induction false} StartSays(t: State, e: Event)
    requires e.StartStep? && SaidIn(t, e).Some?
    ensures EndsWith(Step(t, e).live.messages, User(e.text))
  {
  }

  lemma {:induction false} LlmSays(t: State, e: Event)
    requires e.CallLlm? && SaidIn(t, e).Some?
    ensures EndsWith(Step(t, e).live.messages, Assistant(e.reply.text, e.reply.calls))
  {
  }

  lemma {:induction false} FinishSays(t: State, e: Event)
    requires e.Finish? && SaidIn(t, e).Some?
    ensures EndsWith(Step(t, e).live.messages, Assistant(e.text, []))
    ensures Step(t, e).saved == Step(t, e).live && Step(t, e).phase == Resting
  {
    var c := FinishSaves(t, e);
    PushedStays(c, Assistant(e.text, []), e.maxTurns);
  }

  lemma {:induction false} FinishSaves(t: State, e: Event) returns (c: Conv)
    requires e.Finish? && SaidIn(t, e).Some?
    ensures Step(t, e) == Save(TruncateConv(Push(c, Assistant(e.text, [])), e.maxTurns))
  {
    c := if t.phase.side then FinishSideTurn(t.live, t.phase.end).0 else t.live;
  }

  lemma {:induction false} PushedStays(c: Conv, m: Message, max: nat)
    ensures EndsWith(TruncateConv(Push(c, m), max).messages, m)
  {
    TruncatedLast(Push(c, m).messages, max, ParkedId(c), m);
  }

  /**
   Why a step ends: time ran out, the user is asked for the input of a flow that waits, the conversation
   ended, or there is a reply (the model's, or the one that stands for a blocked end).
   */
  lemma {:induction false} WhyAStepEnds(t: State, e: Event)
    requires Inv(t) && Enabled(t, e) && !t.phase.Finishing? && Step(t, e).phase.Finishing?
    ensures var end := Step(t, e).phase.end;
            && (end == OutOfTime <==> e == TimeUp || e == BatchDone(true) || (e.CallLlm? && e.reply == LlmTimesOut))
            && (end == AwaitingToolInput <==>
                  (e.FlowReturns? && e.outcome.Waiting?) || (e == BatchDone(false) && t.live.pending.Some?))
            && (end == ConversationEnded <==> e.CallLlm? && e.reply == Ends(false))
            && (end == FinalReply <==> e.CallLlm? && (e.reply == Replies || e.reply == Ends(true)))
  {
  }

  /** A step goes on exactly as long as the model makes calls, they are run in time and none of them parks. */
  lemma {:induction false} WhenAStepGoesOn(t: State, e: Event)
    requires Inv(t) && Enabled(t, e)
    ensures t.phase.Thinking? ==>
              (Step(t, e).phase.Acting? <==> e.CallLlm? && e.reply.Calls?)
              && (Step(t, e).phase.Resting? <==> e == Abort || (e.CallLlm? && e.reply == LlmFails))
    ensures t.phase.Acting? && t.phase.todo == [] ==>
              (Step(t, e).phase.Thinking? <==> e == BatchDone(false) && !t.phase.suspended)
    ensures Step(t, e).phase.Acting? && t.phase.Thinking? ==> Step(t, e).phase.todo == e.reply.calls
    ensures Step(t, e).phase.Acting? && t.phase.Acting? ==> Step(t, e).phase.todo == t.phase.todo[1..]
  {
  }

  // ------------------------------------------------------------ who speaks first

  /** A message that may come first: the user's, or (if `opening`) an opening message of the agent. */
  predicate MayOpen(m: Message, opening: bool) {
    m.User? || (opening && m.Assistant? && m.calls == [])
  }

  /** The first message that is not a system message may come first. */
  predicate Opens(ms: seq<Message>, opening: bool) {
    ms == [] || if ms[0].System? then Opens(ms[1..], opening) else MayOpen(ms[0], opening)
  }

  /** Somebody spoke. */
  predicate Spoken(ms: seq<Message>) {
    ms != [] && (!ms[0].System? || Spoken(ms[1..]))
  }

  /** Edits after somebody spoke do not change who spoke first. */
  lemma {:induction false} LaterEdits(ms: seq<Message>, ns: seq<Message>, n: nat, opening: bool)
    requires Opens(ms, opening) && n < |ms| && n < |ns| && !ms[n].System?
    requires forall k :: 0 <= k <= n ==> ns[k] == ms[k]
    ensures Opens(ns, opening) && Spoken(ns)
  {
    assert ns[0] == ms[0];
    if ms[0].System? {
      assert forall k :: 0 <= k <= n - 1 ==> ns[1..][k] == ns[k + 1] && ms[1..][k] == ms[k + 1];
      LaterEdits(ms[1..], ns[1..], n - 1, opening);
    }
  }

  lemma {:induction false} PushOpens(ms: seq<Message>, m: Message, opening: bool)
    requires Opens(ms, opening) && (Spoken(ms) || MayOpen(m, opening)) && !m.System?
    ensures Opens(ms + [m], opening) && Spoken(ms + [m])
  {
    if ms != [] {
      assert (ms + [m])[1..] == ms[1..] + [m] && (ms + [m])[0] == ms[0];
      if ms[0].System? { PushOpens(ms[1..], m, opening); }
    }
  }

  /** System messages in front change nothing. */
  lemma {:induction false} SystemsFirst(head: seq<Message>, ms: seq<Message>, opening: bool)
    requires forall k :: 0 <= k < |head| ==> head[k].System?
    ensures Opens(head + ms, opening) == Opens(ms, opening) && Spoken(head + ms) == Spoken(ms)
  {
    if head == [] {
      assert head + ms == ms;
    } else {
      assert (head + ms)[1..] == head[1..] + ms;
      SystemsFirst(head[1..], ms, opening);
    }
  }

  lemma {:induction false} PatchOpens(ms: seq<Message>, c: CallId, v: Json, opening: bool)
    requires Opens(ms, opening)
    ensures Opens(Patched(ms, c, v), opening) && (Spoken(ms) ==> Spoken(Patched(ms, c, v)))
  {
    var at := LatestAssistantWith(ms, c);
    if at.Some? { LaterEdits(ms, Patched(ms, c, v), at.value, opening); }
  }

  lemma {:induction false} AnnounceOpens(ms: seq<Message>, c: CallId, count: nat, opening: bool)
    requires Opens(ms, opening)
    ensures Opens(AnnounceUnread(ms, c, count), opening) && (Spoken(ms) ==> Spoken(AnnounceUnread(ms, c, count)))
  {
    var at := LatestAssistantWith(ms, c);
    if at.Some? { LaterEdits(ms, AnnounceUnread(ms, c, count), at.value, opening); }
  }

  lemma {:induction false} PlaceholderOpens(ms: seq<Message>, c: CallId, opening: bool)
    requires Opens(ms, opening) && WithPlaceholder(ms, c).Some?
    ensures Opens(WithPlaceholder(ms, c).value, opening)
  {
    LaterEdits(ms, WithPlaceholder(ms, c).value, LatestAssistantWith(ms, c).value, opening);
  }

  lemma {:induction false} DropOpens(ms: seq<Message>, i: nat, end: nat, opening: bool)
    requires Opens(ms, opening) && i < end < |ms| && ms[end].User?
    ensures Opens(DropTurn(ms, i, end), opening) && Spoken(DropTurn(ms, i, end))
  {
    if k :| 0 <= k < i && !ms[k].System? {
      LaterEdits(ms, DropTurn(ms, i, end), k, opening);
    } else {
      SystemsFirst(ms[..i] + Systems(ms[i..end]), ms[end..], opening);
    }
  }

  lemma {:induction false} TruncateOpens(ms: seq<Message>, max: nat, keep: Option<CallId>, opening: bool)
    requires Opens(ms, opening)
    ensures Opens(Truncated(ms, max, keep), opening) && (Spoken(ms) ==> Spoken(Truncated(ms, max, keep)))
    decreases NonSystem(ms)
  {
    var turn := OldestRemovable(ms, 0, keep);
    if NonSystem(ms) > max && turn.Some? {
      var i, end := turn.value.0, turn.value.1;
      DropTurnShrinks(ms, i, end);
      DropOpens(ms, i, end, opening);
      TruncateOpens(DropTurn(ms, i, end), max, keep, opening);
    }
  }

  ghost predicate OpensState(t: State, opening: bool) {
    && Opens(t.live.messages, opening) && Opens(t.saved.messages, opening)
    && (!t.phase.Resting? ==> Spoken(t.live.messages))
  }

  lemma {:induction false} TakeOpens(c: Conv, payload: Option<Json>, now: int, policy: Policy, opening: bool)
    requires Opens(c.messages, opening)
    ensures Opens(TakePending(c, payload, now, policy).0.messages, opening)
  {
    if c.pending.Some? {
      var id := c.pending.value.callId;
      var v := CancelResult(if IsExpired(c.pending.value, now) then EXPIRED else TYPED);
      if WithPlaceholder(c.messages, id).Some? { PlaceholderOpens(c.messages, id, opening); }
      AnswerOpens(c.messages, id, v, c.pending.value.unannounced, opening);
    }
  }

  lemma {:induction false} StartOpens(t: State, e: Event, opening: bool)
    requires OpensState(t, opening) && RootedState(t) && t.phase.Resting? && e.StartStep?
    ensures OpensState(Step(t, e), opening)
  {
    var (c, taken) := TakePending(t.live, e.payload, e.now, e.policy);
    TakeOpens(t.live, e.payload, e.now, e.policy, opening);
    if taken.Resume? {
      LaterEdits(t.live.messages, t.live.messages, LatestAssistantWith(t.live.messages, t.live.pending.value.callId).value, opening);
    } else {
      PushOpens(c.messages, User(e.text), opening);
    }
  }

  lemma {:induction false} FlowOpens(t: State, e: Event, opening: bool)
    requires OpensState(t, opening) && t.phase.Resuming? && e.FlowReturns?
    ensures OpensState(Step(t, e), opening)
  {
    ResumeOpens(t.live, t.phase.parked, e.outcome, e.now, e.files, opening);
    FlowStep(t, e);
  }

  lemma {:induction false} FlowStep(t: State, e: Event)
    requires t.phase.Resuming? && e.FlowReturns?
    ensures Step(t, e).saved == t.saved && !Step(t, e).phase.Resting?
    ensures Step(t, e).live == ResumePending(t.live, t.phase.parked, e.outcome, e.now, e.files)
  {
  }

  lemma {:induction false} ResumeOpens(c: Conv, p: Pending, outcome: FlowOutcome, now: int, files: nat, opening: bool)
    requires Opens(c.messages, opening) && Spoken(c.messages)
    ensures var ms := ResumePending(c, p, outcome, now, files).messages; Opens(ms, opening) && Spoken(ms)
  {
    if outcome.Completed? { AnswerOpens(c.messages, p.callId, outcome.result, p.unannounced + files, opening); }
  }

  lemma {:induction false} AnswerOpens(ms: seq<Message>, c: CallId, v: Json, count: nat, opening: bool)
    requires Opens(ms, opening)
    ensures var ns := AnnounceUnread(Patched(ms, c, v), c, count); Opens(ns, opening) && (Spoken(ms) ==> Spoken(ns))
  {
    PatchOpens(ms, c, v, opening);
    AnnounceOpens(Patched(ms, c, v), c, count, opening);
  }

  lemma {:induction false} LlmOpens(t: State, e: Event, opening: bool)
    requires OpensState(t, opening) && e.CallLlm? && Enabled(t, e)
    ensures OpensState(Step(t, e), opening)
  {
    var c := TruncateConv(t.live, e.maxTurns);
    TruncateOpens(t.live.messages, e.maxTurns, ParkedId(t.live), opening);
    TruncateOpens(c.messages, e.maxTurns, ParkedId(c), opening);
    if e.reply.Calls? { PushOpens(c.messages, Assistant(e.reply.text, e.reply.calls), opening); }
  }

  lemma {:induction false} DispatchOpens(t: State, e: Event, opening: bool)
    requires OpensState(t, opening) && e.Dispatch? && Enabled(t, e)
    ensures OpensState(Step(t, e), opening)
  {
    var id := t.phase.todo[0].id;
    var v := if MustRefuse(t.phase, t.phase.todo[0]) then BEHIND else if e.ran.Value? then e.ran.content else AWAITING;
    PushOpens(t.live.messages, Tool(id, v), opening);
  }

  lemma {:induction false} FinishOpens(t: State, e: Event, opening: bool)
    requires OpensState(t, opening) && e.Finish? && Enabled(t, e)
    ensures OpensState(Step(t, e), opening)
  {
    var c := if t.phase.side then FinishSideTurn(t.live, t.phase.end).0 else t.live;
    if t.live.pending.Some? { PatchOpens(t.live.messages, t.live.pending.value.callId, CancelResult(ENDED), opening); }
    PushOpens(c.messages, Assistant(e.text, []), opening);
    TruncateOpens(c.messages, e.maxTurns, ParkedId(c), opening);
    TruncateOpens(c.messages + [Assistant(e.text, [])], e.maxTurns, ParkedId(c), opening);
  }

  lemma {:induction false} StepOpens(t: State, e: Event, opening: bool)
    requires OpensState(t, opening) && RootedState(t) && (e.Opening? ==> opening)
    ensures OpensState(Step(t, e), opening)
  {
    if Enabled(t, e) {
      match e
      case Opening(text) => PushOpens(t.live.messages, Assistant(text, []), opening);
      case StartStep(_, _, _, _) => StartOpens(t, e, opening);
      case FlowReturns(_, _, _) => FlowOpens(t, e, opening);
      case CallLlm(_, _) => LlmOpens(t, e, opening);
      case AnswerUnrun(content) => PushOpens(t.live.messages, Tool(t.phase.todo[0].id, content), opening);
      case Dispatch(_) => DispatchOpens(t, e, opening);
      case Finish(_, _) => FinishOpens(t, e, opening);
      case _ =>
    }
  }

  lemma {:induction false} OpensThroughout(s: State, events: seq<Event>, opening: bool)
    requires Init(s) && Rooted(s.live.messages, s.live.pending) && Opens(s.live.messages, opening)
    requires forall k :: 0 <= k < |events| ==> (events[k].Opening? ==> opening)
    ensures OpensState(Exec(s, events), opening)
  {
    if events != [] {
      var n := |events| - 1;
      OpensThroughout(s, events[..n], opening);
      ParkedTurnStays(s, events[..n]);
      StepOpens(Exec(s, events[..n]), events[n], opening);
    }
  }

  /**
   In every run, the first message of a request that is not a system message is the user's, or the
   agent's opening message; without an opening message it is always the user's.
   */
  lemma {:induction false} UserSpeaksFirst(s: State, events: seq<Event>, maxTurns: nat, reply: LlmReply, opening: bool)
    requires Init(s) && Rooted(s.live.messages, s.live.pending) && Opens(s.live.messages, opening)
    requires forall k :: 0 <= k < |events| ==> (events[k].Opening? ==> opening)
    requires Enabled(Exec(s, events), CallLlm(maxTurns, reply))
    ensures var sent := Sent(Exec(s, events), maxTurns); Opens(sent, opening) && Spoken(sent)
  {
    OpensThroughout(s, events, opening);
    var t := Exec(s, events);
    TruncateOpens(t.live.messages, maxTurns, ParkedId(t.live), opening);
  }
}
