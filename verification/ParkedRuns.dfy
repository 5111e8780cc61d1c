/**
 Runs from an empty conversation, event by event: where the code does not do what is documented or
 hoped for, at an input.
 */
module ParkedRuns {
  import opened Common
  import opened Transcript
  import opened Edits
  import opened History
  import opened Conversation
  import opened AgentLoop
  import opened SideTurns
  import opened ParkedCalls
  import opened Requests

  lemma {:induction false} ExecFirst(s: State, e: Event, rest: seq<Event>)
    ensures Exec(s, [e] + rest) == Exec(Step(s, e), rest)
  {
    var all := [e] + rest;
    if rest == [] {
      assert all[..0] == [];
    } else {
      assert all[..|all| - 1] == [e] + rest[..|rest| - 1];
      ExecFirst(s, e, rest[..|rest| - 1]);
    }
  }

  lemma {:induction false} ShortIsKept(ms: seq<Message>, max: nat, keep: Option<CallId>)
    requires |ms| <= max
    ensures Truncated(ms, max, keep) == ms
  {
    NonSystemSize(ms);
  }

  lemma {:induction false} NonSystemSize(ms: seq<Message>)
    ensures NonSystem(ms) <= |ms|
    ensures (forall k :: 0 <= k < |ms| ==> !ms[k].System?) ==> NonSystem(ms) == |ms|
  {
    if ms != [] { NonSystemSize(ms[..|ms| - 1]); }
  }

  // ------------------------------------------------------------ a step whose only call parks

  const CALL := Call("c", "flow:form")
  const ASKED := [User("book it"), Assistant("", [CALL])]
  const PARK := NewPark(CALL, JNull, JNull, 0)

  function ParkRun(placeholder: bool): seq<Event> {
    [StartStep(None, 0, SideTurn, "book it"), CallLlm(10, Calls("", [CALL])),
     Dispatch(Parks(JNull, JNull, 0, placeholder)), BatchDone(false), Finish(10, "")]
  }

  function ParkedConv(placeholder: bool): Conv {
    Conv(if placeholder then ASKED + [Tool("c", AWAITING)] else ASKED, Some(PARK))
  }

  lemma {:induction false} ParkRunEnds(placeholder: bool)
    ensures Exec(NEW, ParkRun(placeholder)) == Save(ParkedConv(placeholder))
  {
    var es, c := ParkRun(placeholder), ParkedConv(placeholder);
    var a := State(Conv([ASKED[0]], None), NEW.saved, Thinking(false));
    var b := State(Conv(ASKED, None), NEW.saved, Acting(false, [CALL], false));
    var d := State(c, NEW.saved, Acting(false, [], true));
    assert Step(NEW, es[0]) == a by { assert [] + [ASKED[0]] == [ASKED[0]]; }
    assert Step(a, es[1]) == b by {
      ShortIsKept([ASKED[0]], 10, None);
      assert [ASKED[0]] + [ASKED[1]] == ASKED;
    }
    assert Step(b, es[2]) == d by { assert [CALL][1..] == []; }
    ParkRests(d, es[3], es[4]);
    ExecFive(NEW, a, b, d, Step(d, es[3]), Save(c), es);
  }

  /** A step that parked and has nothing left to do ends as it is. */
  lemma {:induction false} ParkRests(t: State, done: Event, finish: Event)
    requires t.phase == Acting(false, [], true) && done == BatchDone(false) && finish.Finish?
    requires |t.live.messages| <= finish.maxTurns
    ensures Step(Step(t, done), finish) == Save(t.live)
  {
    ShortIsKept(t.live.messages, finish.maxTurns, ParkedId(t.live));
  }

  /** With a placeholder the call is parked and answered at once; without one it is parked and waits. */
  lemma {:induction false} ParkedAndAnswered(placeholder: bool)
    ensures Init(NEW)
    ensures var t := Exec(NEW, ParkRun(placeholder));
            && t.phase.Resting? && ParkedId(t.live) == Some("c")
            && Unanswered(t.live.messages) == Some(if placeholder then {} else {"c"})
  {
    ParkRunEnds(placeholder);
    AskedWaits();
    if placeholder {
      AnswerOpen(ASKED, {"c"}, "c", AWAITING);
      assert {"c"} - {"c"} == {};
    }
  }

  lemma {:induction false} AskedWaits()
    ensures Unanswered([]) == Some({}) && Unanswered(ASKED) == Some({"c"})
  {
    assert [] + [ASKED[0]] == [ASKED[0]] && [ASKED[0]] + [ASKED[1]] == ASKED;
    ScanPush({}, [], ASKED[0]);
    ScanPush({}, [ASKED[0]], ASKED[1]);
    assert Ids([CALL]) == {"c"};
  }

  // ------------------------------------------------------------ single events

  lemma {:induction false} StepResume(c: Conv, e: Event)
    requires c.pending.Some? && e.StartStep? && e.payload.Some? && e.now < c.pending.value.expiresAt
    ensures Step(Save(c), e) == State(c.(pending := None), c, Resuming(c.pending.value))
  {
  }

  lemma {:induction false} StepSide(c: Conv, e: Event)
    requires c.pending.Some? && e.StartStep? && e.payload.None? && e.policy.SideTurn?
    requires SideTurnAllowed(c.pending.value, e.now) && WithPlaceholder(c.messages, c.pending.value.callId) == Some(c.messages)
    ensures GrantsSide(Save(c), e)
    ensures Step(Save(c), e) ==
            State(Conv(c.messages + [User(e.text)], Some(BeginSideTurn(c.pending.value, e.now))), c, Thinking(true))
  {
  }

  lemma {:induction false} StepRepark(t: State, e: Event)
    requires t.phase.Resuming? && e.FlowReturns? && e.outcome.Waiting?
    ensures Step(t, e) ==
            State(t.live.(pending := Some(Rearmed(t.phase.parked, e.outcome.snapshot, e.outcome.card, e.now, e.files))),
                  t.saved, Finishing(false, AwaitingToolInput))
  {
  }

  lemma {:induction false} StepReply(t: State, e: Event)
    requires t.phase == Thinking(true) && e.CallLlm? && (e.reply.Replies? || e.reply == Ends(false))
    requires |t.live.messages| <= e.maxTurns
    ensures Step(t, e) == t.(phase := Finishing(true, if e.reply.Replies? then FinalReply else ConversationEnded))
  {
    ShortIsKept(t.live.messages, e.maxTurns, ParkedId(t.live));
  }

  /** The end of a step whose park stays: what was said is stored. */
  lemma {:induction false} StepFinish(t: State, e: Event)
    requires t.phase == Finishing(false, AwaitingToolInput) || t.phase == Finishing(true, FinalReply)
    requires e.Finish? && |t.live.messages| < e.maxTurns && t.live.pending.Some?
    ensures Step(t, e) == Save(if t.phase.side then Push(t.live, Assistant(e.text, [])) else t.live)
  {
    ShortIsKept(t.live.messages, e.maxTurns, ParkedId(t.live));
    ShortIsKept(t.live.messages + [Assistant(e.text, [])], e.maxTurns, ParkedId(t.live));
  }

  lemma {:induction false} StepComplete(t: State, e: Event)
    requires t.phase.Resuming? && e.FlowReturns? && e.outcome.Completed? && t.phase.parked.unannounced + e.files == 0
    ensures Step(t, e) ==
            State(t.live.(messages := Patched(t.live.messages, t.phase.parked.callId, e.outcome.result)), t.saved, Thinking(false))
  {
  }

  // ------------------------------------------------------------ the cap on side turns can be passed

  const TYPED_AT_1 := StartStep(None, 1, SideTurn, "how long?")

  /** The parked call's placeholder, found where it is. */
  lemma {:induction false} PlaceholderStands(more: seq<Message>)
    requires forall k :: 0 <= k < |more| ==> !Made(more[k], "c")
    ensures var ms := ASKED + [Tool("c", AWAITING)] + more;
            && StandsAt(ms, "c", 1, 2) && LatestAssistantWith(ms, "c") == Some(1) && ResultOf(ms, "c") == Some(2)
            && WithPlaceholder(ms, "c") == Some(ms)
            && forall v :: Patched(ms, "c", v) == ASKED + [Tool("c", v)] + more
  {
    var ms := ASKED + [Tool("c", AWAITING)] + more;
    assert ms[1] == ASKED[1] && ms[1].calls[0].id == "c" && ms[2] == Tool("c", AWAITING);
    assert forall k :: 3 <= k < |ms| ==> ms[k] == more[k - 3];
    assert StandsAt(ms, "c", 1, 2);
    FoundAt(ms, "c", 1, 2);
    forall v ensures Patched(ms, "c", v) == ASKED + [Tool("c", v)] + more {
      assert ms[2 := Tool("c", v)] == ASKED + [Tool("c", v)] + more;
    }
  }

  /** From the parked conversation, one more side turn than the cap can be granted, each by a step cut short. */
  lemma {:induction false} CapCanBePassed()
    ensures var t, n := Exec(NEW, ParkRun(true)), MAX_SIDE_TURNS + 1;
            && Init(t) && GrantsSide(t, TYPED_AT_1) && SideTurnsLeft(t.live.pending) == MAX_SIDE_TURNS
            && FreeRun(t, AbortedTurns(TYPED_AT_1, n), n)
  {
    ParkRunEnds(true);
    ParkedAndAnswered(true);
    var t := Save(ParkedConv(true));
    assert ASKED + [Tool("c", AWAITING)] + [] == t.live.messages;
    PlaceholderStands([]);
    StepSide(t.live, TYPED_AT_1);
    AbortedSideTurnsAreFree(t, TYPED_AT_1, MAX_SIDE_TURNS + 1);
  }

  // ------------------------------------------------------------ the result is not in the request

  /** One side turn, then the user answers the form. */
  function SideRun(): seq<Event> {
    [TYPED_AT_1, CallLlm(10, Replies), Finish(10, "a minute"), StartStep(Some(JNull), 2, SideTurn, ""),
     FlowReturns(Completed(JBool(true)), 2, 0)]
  }

  const CHAT := [User("how long?"), Assistant("a minute", [])]

  lemma {:induction false} SideRunEnds()
    ensures var u := Exec(Save(ParkedConv(true)), SideRun());
            u.live == Conv(ASKED + [Tool("c", JBool(true))] + CHAT, None) && u.phase == Thinking(false)
  {
    var es, s := SideRun(), Save(ParkedConv(true));
    SideChat();
    var a := Step(s, es[0]);
    var b := Step(a, es[1]);
    var c := Step(b, es[2]);
    StepResume(c.live, es[3]);
    var d := Step(c, es[3]);
    PlaceholderStands(CHAT);
    StepComplete(d, es[4]);
    ExecFive(s, a, b, c, d, Step(d, es[4]), es);
  }

  /** The side turn itself. */
  lemma {:induction false} SideChat()
    ensures var es, s := SideRun(), Save(ParkedConv(true));
            Step(Step(Step(s, es[0]), es[1]), es[2]) ==
              Save(Conv(ASKED + [Tool("c", AWAITING)] + CHAT, Some(BeginSideTurn(PARK, 1))))
  {
    var es, s := SideRun(), Save(ParkedConv(true));
    var told := ASKED + [Tool("c", AWAITING)];
    assert told + [] == told;
    PlaceholderStands([]);
    StepSide(s.live, es[0]);
    var a := Step(s, es[0]);
    StepReply(a, es[1]);
    StepFinish(Step(a, es[1]), es[2]);
    assert told + [CHAT[0]] + [CHAT[1]] == told + CHAT;
  }

  /** With a short history limit, the answered form's result is dropped before the model sees it. */
  lemma {:induction false} ResultNotSent()
    ensures var t := Exec(NEW, ParkRun(true));
            var u := Exec(t, SideRun());
            && Init(t) && ContentOf(u.live.messages, "c") == Some(JBool(true))
            && Enabled(u, CallLlm(2, Replies)) && ContentOf(Sent(u, 2), "c") == None
  {
    ParkRunEnds(true);
    ParkedAndAnswered(true);
    SideRunEnds();
    AnswerIsDropped();
  }

  lemma {:induction false} AnswerIsDropped()
    ensures var ms := ASKED + [Tool("c", JBool(true))] + CHAT;
            ContentOf(ms, "c") == Some(JBool(true)) && ContentOf(Truncated(ms, 2, None), "c") == None
  {
    var ms := ASKED + [Tool("c", JBool(true))] + CHAT;
    assert ms[1] == ASKED[1] && ms[1].calls[0].id == "c";
    assert StandsAt(ms, "c", 1, 2);
    FoundAt(ms, "c", 1, 2);
    NonSystemSize(ms);
    assert ms[0..] == ms && ms[3].User? && TurnStart(ms, 1) == TurnStart(ms, 0) == 0;
    TruncatedContent(ms, 2, "c");
  }

  // ------------------------------------------------------------ the end of the conversation forgets files

  /** The answer comes with a file and the flow parks again; then the conversation ends in a side turn. */
  function FileRun(): seq<Event> {
    [StartStep(Some(JNull), 1, SideTurn, ""), FlowReturns(Waiting(JNull, JNull), 1, 1), Finish(10, ""),
     StartStep(None, 2, SideTurn, "never mind"), CallLlm(10, Ends(false)), Finish(10, "goodbye")]
  }

  const BYE := [User("never mind"), Assistant("goodbye", [])]

  lemma {:induction false} FileRunEnds()
    ensures var t := Exec(Save(ParkedConv(true)), FileRun()[..5]);
            && t.phase == Finishing(true, ConversationEnded) && t.live.pending.Some? && t.live.pending.value.unannounced == 1
            && t.live.messages == ASKED + [Tool("c", AWAITING)] + [BYE[0]] && ParkedId(t.live) == Some("c")
  {
    var es, s := FileRun()[..5], Save(ParkedConv(true));
    var told := ASKED + [Tool("c", AWAITING)];
    assert told + [] == told;
    PlaceholderStands([]);
    StepResume(s.live, es[0]);
    var a := Step(s, es[0]);
    StepRepark(a, es[1]);
    var b := Step(a, es[1]);
    StepFinish(b, es[2]);
    var c := Step(b, es[2]);
    StepSide(c.live, es[3]);
    var d := Step(c, es[3]);
    StepReply(d, es[4]);
    ExecFive(s, a, b, c, d, Step(d, es[4]), es);
  }

  /** The conversation ends in the side turn. */
  lemma {:induction false} FileRunLast(t: State)
    requires t.phase == Finishing(true, ConversationEnded) && ParkedId(t.live) == Some("c")
    requires t.live.messages == ASKED + [Tool("c", AWAITING)] + [BYE[0]]
    ensures Step(t, FileRun()[5]) == Save(Conv(ASKED + [Tool("c", CancelResult(ENDED))] + BYE, None))
  {
    PlaceholderStands([BYE[0]]);
    var over := ASKED + [Tool("c", CancelResult(ENDED))] + BYE;
    assert ASKED + [Tool("c", CancelResult(ENDED))] + [BYE[0]] + [BYE[1]] == over;
    ShortIsKept(over, 10, None);
  }

  lemma {:induction false} ExecFive(s: State, a: State, b: State, c: State, d: State, t: State, es: seq<Event>)
    requires |es| == 5 && Step(s, es[0]) == a && Step(a, es[1]) == b && Step(b, es[2]) == c
    requires Step(c, es[3]) == d && Step(d, es[4]) == t
    ensures Exec(s, es) == t
  {
    assert es[4..] == [es[4]] + [] && es[3..] == [es[3]] + es[4..] && es[2..] == [es[2]] + es[3..];
    assert es[1..] == [es[1]] + es[2..] && es == [es[0]] + es[1..];
    ExecFirst(s, es[0], es[1..]);
    ExecFirst(a, es[1], es[2..]);
    ExecFirst(b, es[2], es[3..]);
    ExecFirst(c, es[3], es[4..]);
    ExecFirst(d, es[4], []);
  }

  /** A file waits to be announced when the conversation ends; the stored result says nothing of it. */
  lemma {:induction false} EndForgetsFiles()
    ensures Exec(NEW, ParkRun(true)) == Save(ParkedConv(true))
    ensures var t := Exec(Save(ParkedConv(true)), FileRun()[..5]);
            var u := Step(t, FileRun()[5]);
            && t.live.pending.Some? && t.live.pending.value.unannounced == 1
            && u.phase.Resting? && u.saved.pending.None?
            && ContentOf(u.saved.messages, "c") == Some(CancelResult(ENDED)) && !Tells(CancelResult(ENDED), 1)
  {
    ParkRunEnds(true);
    FileRunEnds();
    FileRunLast(Exec(Save(ParkedConv(true)), FileRun()[..5]));
    EndedResult();
  }

  lemma {:induction false} EndedResult()
    ensures ContentOf(ASKED + [Tool("c", CancelResult(ENDED))] + BYE, "c") == Some(CancelResult(ENDED))
    ensures !Tells(CancelResult(ENDED), 1)
  {
    var ms := ASKED + [Tool("c", CancelResult(ENDED))] + BYE;
    assert ms[1] == ASKED[1] && ms[1].calls[0].id == "c";
    assert StandsAt(ms, "c", 1, 2);
    FoundAt(ms, "c", 1, 2);
  }

  // ------------------------------------------------------------ the agent speaks first

  /** With an opening message, the history handed to the model does not start at a user message. */
  lemma {:induction false} OpeningIsSentFirst(hello: string, text: string)
    ensures var t := Exec(NEW, [Opening(hello), StartStep(None, 0, CancelPark, text)]);
            Enabled(t, CallLlm(10, Replies)) && Sent(t, 10) == [Assistant(hello, []), User(text)]
  {
    var es := [Opening(hello), StartStep(None, 0, CancelPark, text)];
    var a := Save(Conv([Assistant(hello, [])], None));
    assert [] + [Assistant(hello, [])] == [Assistant(hello, [])];
    assert Step(NEW, es[0]) == a;
    assert es == [es[0]] + [es[1]] && [es[1]] + [] == [es[1]];
    ExecFirst(NEW, es[0], [es[1]]);
    ExecFirst(a, es[1], []);
    assert [Assistant(hello, [])] + [User(text)] == [Assistant(hello, []), User(text)];
    ShortIsKept([Assistant(hello, []), User(text)], 10, None);
  }
}
