/**
 What becomes of a parked call over whole runs: the turn that made it stays until it has its result,
 the result tells of unread files, and between steps the call waits exactly as long as no
 placeholder was put in.
 */
module ParkedCalls {
  import opened Common
  import opened Transcript
  import opened Edits
  import opened History
  import opened Conversation
  import opened AgentLoop
  import opened SideTurns

  // ------------------------------------------------------------ the turn stays

  /** The turn that made call `c` is in the transcript. */
  predicate HasTurn(ms: seq<Message>, c: CallId) {
    LatestAssistantWith(ms, c).Some?
  }

  lemma {:induction false} PushKeepsTurn(ms: seq<Message>, m: Message, c: CallId)
    requires HasTurn(ms, c)
    ensures HasTurn(ms + [m], c)
  {
  }

  lemma {:induction false} PlaceholderKeepsTurn(ms: seq<Message>, c: CallId)
    requires WithPlaceholder(ms, c).Some?
    ensures HasTurn(WithPlaceholder(ms, c).value, c)
  {
    var at := LatestAssistantWith(ms, c).value;
    if ResultOf(ms, c).None? {
      var ns := WithPlaceholder(ms, c).value;
      assert ns[at] == ms[at];
    }
  }

  lemma {:induction false} TruncateKeepsTurn(ms: seq<Message>, max: nat, c: CallId)
    requires HasTurn(ms, c)
    ensures HasTurn(Truncated(ms, max, Some(c)), c)
  {
    var ns := Truncated(ms, max, Some(c));
    TruncatedProtects(ms, max, c);
    forall m | m in ms && Made(m, c) ensures m in ns {
      MentioningHas(ms, c, m);
      MentioningHas(ns, c, m);
    }
  }

  /** The park, if any, has its turn. */
  ghost predicate Rooted(messages: seq<Message>, p: Option<Pending>) {
    p.Some? ==> HasTurn(messages, p.value.callId)
  }

  lemma {:induction false} TruncateKeepsRoot(c: Conv, max: nat)
    requires Rooted(c.messages, c.pending)
    ensures Rooted(TruncateConv(c, max).messages, TruncateConv(c, max).pending)
  {
    if c.pending.Some? { TruncateKeepsTurn(c.messages, max, c.pending.value.callId); }
  }

  lemma {:induction false} PushKeepsRoot(c: Conv, m: Message)
    requires Rooted(c.messages, c.pending)
    ensures Rooted(Push(c, m).messages, Push(c, m).pending)
  {
    if c.pending.Some? { PushKeepsTurn(c.messages, m, c.pending.value.callId); }
  }

  ghost predicate RootedState(t: State) {
    Rooted(t.live.messages, Carried(t)) && Rooted(t.saved.messages, t.saved.pending)
  }

  lemma {:induction false} StartKeepsRoot(t: State, e: Event)
    requires RootedState(t) && t.phase.Resting? && e.StartStep?
    ensures RootedState(Step(t, e))
  {
    var (c, taken) := TakePending(t.live, e.payload, e.now, e.policy);
    if taken.Side? {
      PlaceholderKeepsTurn(t.live.messages, t.live.pending.value.callId);
      PushKeepsRoot(c, User(e.text));
    }
  }

  lemma {:induction false} LlmKeepsRoot(t: State, e: Event)
    requires RootedState(t) && e.CallLlm? && Enabled(t, e)
    ensures RootedState(Step(t, e))
  {
    var c := TruncateConv(t.live, e.maxTurns);
    TruncateKeepsRoot(t.live, e.maxTurns);
    TruncateKeepsRoot(c, e.maxTurns);
    if e.reply.Calls? { PushKeepsRoot(c, Assistant(e.reply.text, e.reply.calls)); }
  }

  lemma {:induction false} DispatchKeepsRoot(t: State, e: Event)
    requires Inv(t) && RootedState(t) && e.Dispatch? && Enabled(t, e)
    ensures RootedState(Step(t, e))
  {
    var call := t.phase.todo[0];
    if MustRefuse(t.phase, call) {
      PushKeepsRoot(t.live, Tool(call.id, BEHIND));
    } else if e.ran.Value? {
      PushKeepsRoot(t.live, Tool(call.id, e.ran.content));
    } else {
      assert call.id in Ids(t.phase.todo);
      OpenCallIsLatest(t.live.messages, Unanswered(t.live.messages).value, call.id);
      var parked := t.live.(pending := Some(NewPark(call, e.ran.snapshot, e.ran.card, e.ran.now)));
      PushKeepsRoot(parked, Tool(call.id, AWAITING));
    }
  }

  lemma {:induction false} FinishKeepsRoot(t: State, e: Event)
    requires RootedState(t) && e.Finish? && Enabled(t, e)
    ensures RootedState(Step(t, e))
  {
    var c := if t.phase.side then FinishSideTurn(t.live, t.phase.end).0 else t.live;
    PushKeepsRoot(c, Assistant(e.text, []));
    TruncateKeepsRoot(c, e.maxTurns);
    TruncateKeepsRoot(Push(c, Assistant(e.text, [])), e.maxTurns);
  }

  lemma {:induction false} StepKeepsRoot(t: State, e: Event)
    requires Inv(t) && RootedState(t)
    ensures RootedState(Step(t, e))
  {
    if Enabled(t, e) {
      match e
      case Opening(text) => PushKeepsRoot(t.live, Assistant(text, []));
      case StartStep(_, _, _, _) => StartKeepsRoot(t, e);
      case CallLlm(_, _) => LlmKeepsRoot(t, e);
      case AnswerUnrun(content) => PushKeepsRoot(t.live, Tool(t.phase.todo[0].id, content));
      case Dispatch(_) => DispatchKeepsRoot(t, e);
      case Finish(_, _) => FinishKeepsRoot(t, e);
      case _ =>
    }
  }

  /** In every reachable state with a park, live, stored or with the flow, the parked turn is there. */
  lemma {:induction false} ParkedTurnStays(s: State, events: seq<Event>)
    requires Init(s) && Rooted(s.live.messages, s.live.pending)
    ensures RootedState(Exec(s, events))
  {
    if events != [] {
      var n := |events| - 1;
      ParkedTurnStays(s, events[..n]);
      ReachableInv(s, events[..n]);
      StepKeepsRoot(Exec(s, events[..n]), events[n]);
    }
  }

  const NEW := State(Conv([], None), Conv([], None), Resting)

  /** Every conversation that a run from the empty one leaves in the store is a proper start, its park rooted. */
  lemma {:induction false} StoredIsProper(events: seq<Event>)
    ensures var t := Exec(NEW, events);
            Init(State(t.saved, t.saved, Resting)) && Rooted(t.saved.messages, t.saved.pending)
  {
    assert Unanswered(NEW.live.messages) == Some({});
    ReachableInv(NEW, events);
    ParkedTurnStays(NEW, events);
  }

  // ------------------------------------------------------------ every park gets its result

  function WithNote(v: Json, files: nat): Json {
    if files > 0 then Announced(v, files) else v
  }

  /** What the call of a park returned, once event `e` has ended the park (before a save truncates). */
  ghost function ResultAfter(t: State, e: Event, c: CallId): Option<Json> {
    if e.Finish? && t.phase.Finishing? then ContentOf(FinishSideTurn(t.live, t.phase.end).0.messages, c)
    else ContentOf(Step(t, e).live.messages, c)
  }

  /** The files the user sent with answers that nobody read, when event `e` ends the park. */
  function Unread(e: Event, p: Pending): nat {
    p.unannounced + if e.FlowReturns? then e.files else 0
  }

  /**
   What ends a park and what is then recorded. A step that is cut short only ends a park that it
   made itself: one that was never stored.
   */
  ghost predicate Recorded(t: State, e: Event, p: Pending) {
    match e
    case StartStep(_, now, _, _) =>
      ResultAfter(t, e, p.callId) ==
        Some(WithNote(CancelResult(if now >= p.expiresAt then EXPIRED else TYPED), Unread(e, p)))
    case FlowReturns(outcome, _, _) =>
      outcome.Completed? && ResultAfter(t, e, p.callId) == Some(WithNote(outcome.result, Unread(e, p)))
    case Finish(_, _) =>
      && t.phase.Finishing? && t.phase.side && t.phase.end.ConversationEnded?
      && ResultAfter(t, e, p.callId) == Some(CancelResult(ENDED))
    case Abort => t.saved.pending.None?
    case _ => false
  }

  lemma {:induction false} StartRecords(t: State, e: Event)
    requires t.phase.Resting? && e.StartStep? && t.live.pending.Some? && RootedState(t)
    requires Carried(Step(t, e)).None?
    ensures Recorded(t, e, t.live.pending.value)
  {
    var p := t.live.pending.value;
    TakePendingExactly(t.live, e.payload, e.now, e.policy);
    PushKeepsContent(TakePending(t.live, e.payload, e.now, e.policy).0.messages, p.callId, User(e.text));
  }

  lemma {:induction false} FlowRecords(t: State, e: Event)
    requires t.phase.Resuming? && e.FlowReturns? && e.outcome.Completed? && RootedState(t)
    ensures Recorded(t, e, t.phase.parked)
  {
    ResumeRecords(t.live, t.phase.parked, e.outcome.result, e.now, e.files);
  }

  lemma {:induction false} EndRecords(t: State, e: Event)
    requires t.phase.Finishing? && e.Finish? && t.live.pending.Some? && RootedState(t)
    requires Carried(Step(t, e)).None?
    ensures Recorded(t, e, t.live.pending.value)
  {
    PatchReadBack(t.live.messages, t.live.pending.value.callId, CancelResult(ENDED));
  }

  /**
   In every run, whatever ends a park records its call's result: the flow's own, or a cancellation
   with the reason that holds. A stored park is never ended by a step that is cut short.
   */
  lemma {:induction false} EveryParkGetsItsResult(s: State, events: seq<Event>, e: Event)
    requires Init(s) && Rooted(s.live.messages, s.live.pending)
    requires var t := Exec(s, events); Carried(t).Some? && Carried(Step(t, e)).None?
    ensures Recorded(Exec(s, events), e, Carried(Exec(s, events)).value)
  {
    var t := Exec(s, events);
    ParkedTurnStays(s, events);
    ReachableInv(s, events);
    if e.StartStep? {
      StartRecords(t, e);
    } else if e.FlowReturns? {
      FlowRecords(t, e);
    } else if e.Finish? {
      EndRecords(t, e);
    }
  }

  /** The result tells the model of `files` unread files. */
  predicate Tells(v: Json, files: nat) {
    v.JObj? && NOTE_KEY in v.fields && v.fields[NOTE_KEY] == UnreadNote(files)
  }

  /**
   In every run, when a park with unread files ends, the result tells of them, exactly unless the
   conversation ended in a side turn: that end forgets them.
   */
  lemma {:induction false} UnreadFilesAreToldExactly(s: State, events: seq<Event>, e: Event)
    requires Init(s) && Rooted(s.live.messages, s.live.pending) && !e.Abort?
    requires var t := Exec(s, events);
             Carried(t).Some? && Carried(Step(t, e)).None? && Unread(e, Carried(t).value) > 0
    ensures var t := Exec(s, events);
            var p := Carried(t).value;
            var v := ResultAfter(t, e, p.callId);
            && v.Some?
            && (Tells(v.value, Unread(e, p)) <==> !(InSideTurn(t.phase) && t.phase.Finishing? && t.phase.end.ConversationEnded?))
  {
    EveryParkGetsItsResult(s, events, e);
    ReachableInv(s, events);
  }

  // ------------------------------------------------------------ does the parked call wait?

  /** The parked call has no result yet. */
  ghost predicate Waits(c: Conv, p: Pending) {
    Unanswered(c.messages).Some? && p.callId in Unanswered(c.messages).value
  }

  /** Whether the park, live and as stored, has a placeholder. */
  datatype Placed = Placed(live: bool, saved: bool)

  /**
   What an event does to it: a park brings one or not, a side turn puts one in, storing and cutting a
   step short copy it to and from the store.
   */
  ghost function PlacedNext(t: State, e: Event, h: Placed): Placed {
    if e.Abort? then Placed(h.saved, h.saved)
    else
      var live := if ParksAfresh(t, e) then e.ran.placeholder else h.live || GrantsSide(t, e);
      Placed(live, if Saves(t, e) then live else h.saved)
  }

  /** The history of placeholders alone; a call found parked in the store has what it has there. */
  ghost function PlacedBy(s: State, events: seq<Event>): Placed {
    if events == [] then
      var h := s.live.pending.Some? && !Waits(s.live, s.live.pending.value);
      Placed(h, h)
    else
      var n := |events| - 1;
      PlacedNext(Exec(s, events[..n]), events[n], PlacedBy(s, events[..n]))
  }

  ghost predicate WaitsUnless(c: Conv, p: Option<Pending>, h: bool) {
    p.Some? ==> (Waits(c, p.value) <==> !h)
  }

  ghost predicate PlacedOk(live: Conv, phase: Phase, h: bool) {
    match phase
    case Resting => WaitsUnless(live, live.pending, h)
    case Finishing(_, _) => WaitsUnless(live, live.pending, h)
    case Resuming(p) => WaitsUnless(live, Some(p), h)
    case Thinking(side) => side ==> h
    case Acting(side, todo, suspended) =>
      && (side ==> h)
      && (suspended ==> live.pending.Some? && live.pending.value.callId !in Ids(todo) && WaitsUnless(live, live.pending, h))
  }

  ghost predicate PlacedInv(t: State, h: Placed) {
    PlacedOk(t.live, t.phase, h.live) && WaitsUnless(t.saved, t.saved.pending, h.saved)
  }

  lemma {:induction false} StartPlaced(t: State, e: Event, h: Placed)
    requires Inv(t) && PlacedInv(t, h) && t.phase.Resting? && e.StartStep?
    ensures PlacedInv(Step(t, e), PlacedNext(t, e, h))
  {
    TakePendingReady(t.live, e.payload, e.now, e.policy);
  }

  lemma {:induction false} LlmPlaced(t: State, e: Event, h: Placed)
    requires Inv(t) && PlacedInv(t, h) && e.CallLlm? && Enabled(t, e)
    ensures PlacedInv(Step(t, e), PlacedNext(t, e, h))
  {
    var c := TruncateConv(t.live, e.maxTurns);
    TruncateKeepsOpen(t.live, e.maxTurns);
    TruncateKeepsOpen(c, e.maxTurns);
  }

  /** Answering the next call of the batch leaves the parked one as it was. */
  lemma {:induction false} AnswerPlaced(live: Conv, side: bool, todo: seq<Call>, suspended: bool, v: Json, h: bool)
    requires todo != [] && PhaseOk(live, Acting(side, todo, suspended)) && PlacedOk(live, Acting(side, todo, suspended), h)
    ensures PlacedOk(Push(live, Tool(todo[0].id, v)), Acting(side, todo[1..], suspended), h)
  {
    assert todo[0].id in Ids(todo);
    ScanPush({}, live.messages, Tool(todo[0].id, v));
    IdsOfRest(todo);
  }

  lemma {:induction false} ParkPlaced(t: State, e: Event, h: Placed)
    requires Inv(t) && PlacedInv(t, h) && ParksAfresh(t, e)
    ensures PlacedInv(Step(t, e), PlacedNext(t, e, h))
  {
    var call := t.phase.todo[0];
    IdsOfRest(t.phase.todo);
    assert call.id in Ids(t.phase.todo);
    ScanPush({}, t.live.messages, Tool(call.id, AWAITING));
  }

  lemma {:induction false} DispatchPlaced(t: State, e: Event, h: Placed)
    requires Inv(t) && PlacedInv(t, h) && e.Dispatch? && Enabled(t, e)
    ensures PlacedInv(Step(t, e), PlacedNext(t, e, h))
  {
    var side, todo, suspended := t.phase.side, t.phase.todo, t.phase.suspended;
    if MustRefuse(t.phase, todo[0]) {
      AnswerPlaced(t.live, side, todo, suspended, BEHIND, h.live);
    } else if e.ran.Value? {
      AnswerPlaced(t.live, side, todo, suspended, e.ran.content, h.live);
    } else {
      ParkPlaced(t, e, h);
    }
  }

  lemma {:induction false} FinishPlaced(t: State, e: Event, h: Placed)
    requires Inv(t) && PlacedInv(t, h) && e.Finish? && Enabled(t, e)
    ensures PlacedInv(Step(t, e), PlacedNext(t, e, h))
  {
    var c := if t.phase.side then FinishSideTurn(t.live, t.phase.end).0 else t.live;
    if t.phase.side { FinishSideTurnReady(t.live, t.phase.end); }
    if t.phase.end.FinalReply? || t.phase.end.ConversationEnded? {
      PushReady(c, Assistant(e.text, []));
      TruncateKeepsOpen(Push(c, Assistant(e.text, [])), e.maxTurns);
    } else {
      TruncateKeepsOpen(c, e.maxTurns);
    }
  }

  lemma {:induction false} StepPlaced(t: State, e: Event, h: Placed)
    requires Inv(t) && PlacedInv(t, h)
    ensures PlacedInv(Step(t, e), PlacedNext(t, e, h))
  {
    if Enabled(t, e) {
      match e
      case Opening(text) =>
        assert Unanswered(t.live.messages) == Some({});
        PushReady(t.live, Assistant(text, []));
      case StartStep(_, _, _, _) => StartPlaced(t, e, h);
      case CallLlm(_, _) => LlmPlaced(t, e, h);
      case AnswerUnrun(content) => AnswerPlaced(t.live, t.phase.side, t.phase.todo, t.phase.suspended, content, h.live);
      case Dispatch(_) => DispatchPlaced(t, e, h);
      case BatchDone(_) => assert Ids([]) == {};
      case Finish(_, _) => FinishPlaced(t, e, h);
      case _ =>
    }
  }

  lemma {:induction false} PlacedThroughout(s: State, events: seq<Event>)
    requires Init(s)
    ensures PlacedInv(Exec(s, events), PlacedBy(s, events))
  {
    if events != [] {
      var n := |events| - 1;
      PlacedThroughout(s, events[..n]);
      ReachableInv(s, events[..n]);
      StepPlaced(Exec(s, events[..n]), events[n], PlacedBy(s, events[..n]));
    }
  }

  /**
   In every run, between two steps: the parked call has no result exactly when its park was recorded
   without a placeholder and no side turn was stored since. Otherwise nothing waits at all.
   */
  lemma {:induction false} ParkedCallWaitsExactly(s: State, events: seq<Event>)
    requires Init(s)
    requires Exec(s, events).phase.Resting? && Exec(s, events).live.pending.Some?
    ensures var c := Exec(s, events).live;
            Unanswered(c.messages) == Some(if PlacedBy(s, events).live then {} else {c.pending.value.callId})
  {
    PlacedThroughout(s, events);
    ReachableInv(s, events);
    var c := Exec(s, events).live;
    var open, id := Unanswered(c.messages).value, c.pending.value.callId;
    if id in open { assert open == {id}; } else { assert open == {}; }
  }

  // ------------------------------------------------------------ what a park holds

  /** What the last event that parked a call said of it. */
  datatype Said = Said(callId: CallId, flowRef: string, snapshot: Json, card: Option<Json>)

  function SaidOf(p: Pending): Said {
    Said(p.callId, p.flowRef, p.snapshot, p.presentation)
  }

  /** What was last said of the park, live and as stored. */
  datatype LastSaid = LastSaid(live: Option<Said>, saved: Option<Said>)

  /** The flow a `flow:` tool runs. */
  function FlowOf(call: Call): string {
    if "flow:" <= call.extension then call.extension[5..] else ""
  }

  ghost function SaidNext(t: State, e: Event, i: LastSaid): LastSaid {
    if e.Abort? then LastSaid(i.saved, i.saved)
    else
      var live :=
        if ParksAfresh(t, e) then
          Some(Said(t.phase.todo[0].id, FlowOf(t.phase.todo[0]), e.ran.snapshot, Some(e.ran.card)))
        else if ParksAgain(t, e) && i.live.Some? then
          Some(Said(i.live.value.callId, i.live.value.flowRef, e.outcome.snapshot, Some(e.outcome.card)))
        else i.live;
      LastSaid(live, if Saves(t, e) then live else i.saved)
  }

  /** By the events alone. */
  ghost function SaidBy(s: State, events: seq<Event>): LastSaid {
    if events == [] then
      var i := if s.live.pending.Some? then Some(SaidOf(s.live.pending.value)) else None;
      LastSaid(i, i)
    else
      var n := |events| - 1;
      SaidNext(Exec(s, events[..n]), events[n], SaidBy(s, events[..n]))
  }

  ghost predicate HoldsSaid(p: Option<Pending>, i: Option<Said>) {
    p.Some? ==> i == Some(SaidOf(p.value))
  }

  lemma {:induction false} SaidStep(t: State, e: Event, i: LastSaid)
    requires Inv(t) && HoldsSaid(Carried(t), i.live) && HoldsSaid(t.saved.pending, i.saved)
    ensures HoldsSaid(Carried(Step(t, e)), SaidNext(t, e, i).live)
    ensures HoldsSaid(Step(t, e).saved.pending, SaidNext(t, e, i).saved)
  {
    if e.Abort? {
    } else if ParksAfresh(t, e) {
      assert IsFlow(t.phase.todo[0]);
    } else {
      CarriedStep(t, e);
    }
  }

  /**
   In every run, a park, live, stored or with the flow, holds the call and flow it was made for, and the
   snapshot and card of the last event that parked it: that is what the next answer is run against.
   */
  lemma {:induction false} ParkHoldsTheLatest(s: State, events: seq<Event>)
    requires Init(s)
    ensures var t, i := Exec(s, events), SaidBy(s, events);
            HoldsSaid(Carried(t), i.live) && HoldsSaid(t.saved.pending, i.saved)
  {
    if events != [] {
      var n := |events| - 1;
      ParkHoldsTheLatest(s, events[..n]);
      ReachableInv(s, events[..n]);
      SaidStep(Exec(s, events[..n]), events[n], SaidBy(s, events[..n]));
    }
  }

  /** Right after an event that parks: an hour to answer, no side turn used, and a new park also starts its age and has no unread files. */
  lemma {:induction false} FreshlyParked(t: State, e: Event)
    requires Inv(t) && (ParksAfresh(t, e) || ParksAgain(t, e))
    ensures var p, now := Carried(Step(t, e)), if e.Dispatch? then e.ran.now else e.now;
            && p.Some? && p.value.expiresAt == now + 3600 && p.value.sideTurns == 0
            && (e.Dispatch? ==> p.value.parkedAt == Some(now) && p.value.unannounced == 0)
            && (e.FlowReturns? ==>
                  && p.value.parkedAt == t.phase.parked.parkedAt
                  && p.value.unannounced == Min(t.phase.parked.unannounced + Min(e.files, U32_MAX), U32_MAX))
  {
  }

  /** A side turn leaves the user an hour, but no more than the age of the park allows. */
  lemma {:induction false} SideTurnExtends(t: State, e: Event)
    requires GrantsSide(t, e)
    ensures var p, q := Carried(t).value, Carried(Step(t, e));
            && Carried(t).Some? && q.Some? && q.value.sideTurns == p.sideTurns + 1
            && q.value.expiresAt ==
                 (if p.parkedAt.Some? && p.parkedAt.value + 86_400 < e.now + 3600 then p.parkedAt.value + 86_400 else e.now + 3600)
  {
  }
}
