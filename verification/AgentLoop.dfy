/**
 Whole runs of a conversation: steps of the agent loop as a state machine over events.

 A step starts by taking the parked call, lets the model answer, runs the calls the model
 makes, and ends by saving the conversation. `Abort` is any exit that saves nothing. Every
 theorem is about `Exec(s, events)` for arbitrary event sequences; an event that cannot
 happen in a state leaves it unchanged.
 */
module AgentLoop {
  import opened Common
  import opened Transcript
  import opened Edits
  import opened History
  import opened Conversation

  datatype Phase =
    | Resting
    | Resuming(parked: Pending)
    | Thinking(side: bool)
    | Acting(side: bool, todo: seq<Call>, suspended: bool)
    | Finishing(side: bool, end: End)

  /** `live` is the conversation being edited, `saved` what the store holds. */
  datatype State = State(live: Conv, saved: Conv, phase: Phase)

  datatype LlmReply =
    | LlmFails
    | LlmTimesOut
    | Calls(text: string, calls: seq<Call>)
    | Ends(blocked: bool)
    | Replies

  datatype CallOutcome =
    | Value(content: Json)
    | Parks(snapshot: Json, card: Json, now: int, placeholder: bool)

  datatype Event =
    | Opening(text: string)
    | StartStep(payload: Option<Json>, now: int, policy: Policy, text: string)
    | FlowReturns(outcome: FlowOutcome, now: int, files: nat)
    | CallLlm(maxTurns: nat, reply: LlmReply)
    | TimeUp
    | AnswerUnrun(content: Json)
    | Dispatch(ran: CallOutcome)
    | BatchDone(timedOut: bool)
    | Finish(maxTurns: nat, text: string)
    | Abort

  predicate IsFlow(call: Call) {
    "flow:" <= call.extension
  }

  /** Later calls wait behind a parked one, and a side turn starts no second flow. */
  predicate MustRefuse(phase: Phase, call: Call) {
    phase.Acting? && (phase.suspended || (phase.side && IsFlow(call)))
  }

  ghost predicate Enabled(s: State, e: Event) {
    match e
    case Opening(_) => s.phase.Resting? && s.live.messages == []
    case StartStep(_, _, _, _) => s.phase.Resting?
    case FlowReturns(_, _, _) => s.phase.Resuming?
    case CallLlm(_, reply) =>
      s.phase.Thinking? && (reply.Calls? ==> reply.calls != [] && DistinctIds(reply.calls))
    case TimeUp => s.phase.Thinking?
    case AnswerUnrun(_) => s.phase.Acting? && s.phase.todo != []
    case Dispatch(outcome) =>
      s.phase.Acting? && s.phase.todo != [] && (outcome.Parks? ==> IsFlow(s.phase.todo[0]))
    case BatchDone(_) => s.phase.Acting? && s.phase.todo == []
    case Finish(_, _) => s.phase.Finishing?
    case Abort => true
  }

  function Push(c: Conv, m: Message): Conv {
    c.(messages := c.messages + [m])
  }

  function Save(c: Conv): State {
    State(c, c, Resting)
  }

  function Start(s: State, payload: Option<Json>, now: int, policy: Policy, text: string): State {
    var (t, taken) := TakePending(s.live, payload, now, policy);
    if taken.Resume? then s.(live := t, phase := Resuming(taken.parked))
    else s.(live := Push(t, User(text)), phase := Thinking(taken.Side?))
  }

  /** The history handed to the model by a `CallLlm`. */
  function Sent(s: State, maxTurns: nat): seq<Message> {
    TruncateConv(s.live, maxTurns).messages
  }

  function AfterLlm(s: State, maxTurns: nat, reply: LlmReply): State
    requires s.phase.Thinking?
  {
    var t := TruncateConv(s.live, maxTurns);
    var side := s.phase.side;
    match reply
    case LlmFails => Save(TruncateConv(t, maxTurns))
    case LlmTimesOut => s.(live := t, phase := Finishing(side, OutOfTime))
    case Calls(text, calls) => s.(live := Push(t, Assistant(text, calls)), phase := Acting(side, calls, false))
    case Ends(blocked) => s.(live := t, phase := Finishing(side, if blocked then FinalReply else ConversationEnded))
    case Replies => s.(live := t, phase := Finishing(side, FinalReply))
  }

  function NewPark(call: Call, snapshot: Json, card: Json, now: int): Pending {
    Pending(call.id, call.extension[Min(5, |call.extension|)..], snapshot, now + IDLE_TTL, Some(card), Some(now), 0, 0)
  }

  function AfterDispatch(s: State, outcome: CallOutcome): State
    requires s.phase.Acting? && s.phase.todo != []
  {
    var call, rest := s.phase.todo[0], s.phase.(todo := s.phase.todo[1..]);
    if MustRefuse(s.phase, call) then s.(live := Push(s.live, Tool(call.id, BEHIND)), phase := rest)
    else
      match outcome
      case Value(content) => s.(live := Push(s.live, Tool(call.id, content)), phase := rest)
      case Parks(snapshot, card, now, placeholder) =>
        var parked := s.live.(pending := Some(NewPark(call, snapshot, card, now)));
        s.(live := if placeholder then Push(parked, Tool(call.id, AWAITING)) else parked,
           phase := rest.(suspended := true))
  }

  function AfterLoop(s: State, maxTurns: nat, reply: string): State
    requires s.phase.Finishing?
  {
    var t := if s.phase.side then FinishSideTurn(s.live, s.phase.end).0 else s.live;
    var replied := s.phase.end.FinalReply? || s.phase.end.ConversationEnded?;
    Save(TruncateConv(if replied then Push(t, Assistant(reply, [])) else t, maxTurns))
  }

  ghost function Step(s: State, e: Event): State {
    if !Enabled(s, e) then s
    else
      match e
      case Opening(text) => Save(Push(s.live, Assistant(text, [])))
      case StartStep(payload, now, policy, text) => Start(s, payload, now, policy, text)
      case FlowReturns(outcome, now, files) =>
        s.(live := ResumePending(s.live, s.phase.parked, outcome, now, files),
           phase := if outcome.Waiting? then Finishing(false, AwaitingToolInput) else Thinking(false))
      case CallLlm(maxTurns, reply) => AfterLlm(s, maxTurns, reply)
      case TimeUp => s.(phase := Finishing(s.phase.side, OutOfTime))
      case AnswerUnrun(content) =>
        s.(live := Push(s.live, Tool(s.phase.todo[0].id, content)),
           phase := s.phase.(todo := s.phase.todo[1..]))
      case Dispatch(outcome) => AfterDispatch(s, outcome)
      case BatchDone(timedOut) =>
        s.(phase := if timedOut then Finishing(s.phase.side, OutOfTime)
                    else if s.phase.suspended then Finishing(s.phase.side, AwaitingToolInput)
                    else Thinking(s.phase.side))
      case Finish(maxTurns, reply) => AfterLoop(s, maxTurns, reply)
      case Abort => State(s.saved, s.saved, Resting)
  }

  ghost function Exec(s: State, events: seq<Event>): State {
    if events == [] then s
    else Step(Exec(s, events[..|events| - 1]), events[|events| - 1])
  }

  // ------------------------------------------------------------ transcript safety

  /** What holds of the live conversation in each phase. */
  ghost predicate PhaseOk(live: Conv, phase: Phase) {
    match phase
    case Resting => Rested(live)
    case Resuming(p) => live.pending.None? && Rested(live.(pending := Some(p)))
    case Thinking(side) => Ready(live) && live.pending.Some? == side
    case Acting(side, todo, suspended) =>
      && !(side && suspended) && live.pending.Some? == (side || suspended) && DistinctIds(todo)
      && Unanswered(live.messages).Some?
      && Ids(todo) <= Unanswered(live.messages).value
      && Unanswered(live.messages).value <=
           Ids(todo) + if suspended then {live.pending.value.callId} else {}
    case Finishing(side, end) =>
      && Rested(live) && (side ==> live.pending.Some?)
      && (side || end.FinalReply? || end.ConversationEnded? ==> Ready(live))
  }

  ghost predicate Inv(s: State) {
    Rested(s.saved) && PhaseOk(s.live, s.phase)
  }

  lemma {:induction false} PushReady(c: Conv, m: Message)
    requires Ready(c) && (m.System? || m.User? || (m.Assistant? && m.calls == []))
    ensures Ready(Push(c, m)) && Rested(Push(c, m))
  {
    ScanPush({}, c.messages, m);
    assert Ids([]) == {};
  }

  lemma {:induction false} TruncateKeepsOpen(c: Conv, max: nat)
    requires Unanswered(c.messages).Some?
    ensures Unanswered(TruncateConv(c, max).messages) == Unanswered(c.messages)
    ensures TruncateConv(c, max).pending == c.pending
  {
    TruncatedScan(c.messages, max, ParkedId(c));
  }

  lemma {:induction false} StartKeeps(s: State, payload: Option<Json>, now: int, policy: Policy, text: string)
    requires Inv(s) && s.phase.Resting?
    ensures Inv(Start(s, payload, now, policy, text))
  {
    var (t, taken) := TakePending(s.live, payload, now, policy);
    TakePendingReady(s.live, payload, now, policy);
    if !taken.Resume? { PushReady(t, User(text)); }
  }

  lemma {:induction false} LlmKeeps(s: State, maxTurns: nat, reply: LlmReply)
    requires Inv(s) && Enabled(s, CallLlm(maxTurns, reply))
    ensures Inv(AfterLlm(s, maxTurns, reply))
  {
    TruncateKeepsOpen(s.live, maxTurns);
    var t := TruncateConv(s.live, maxTurns);
    TruncateKeepsOpen(t, maxTurns);
    if reply.Calls? { ScanPush({}, t.messages, Assistant(reply.text, reply.calls)); }
  }

  /** Answering the next call of the batch. */
  lemma {:induction false} AnswerNext(live: Conv, side: bool, todo: seq<Call>, suspended: bool, v: Json)
    requires todo != [] && PhaseOk(live, Acting(side, todo, suspended))
    ensures PhaseOk(Push(live, Tool(todo[0].id, v)), Acting(side, todo[1..], suspended))
  {
    var open, call := Unanswered(live.messages).value, todo[0];
    assert call.id in Ids(todo);
    ScanPush({}, live.messages, Tool(call.id, v));
    IdsOfRest(todo);
  }

  lemma {:induction false} IdsOfRest(todo: seq<Call>)
    requires todo != [] && DistinctIds(todo)
    ensures Ids(todo[1..]) == Ids(todo) - {todo[0].id} && DistinctIds(todo[1..])
  {
    assert todo == [todo[0]] + todo[1..];
    forall c | c in todo[1..] ensures c.id != todo[0].id {
      var k :| 0 <= k < |todo[1..]| && todo[1..][k] == c;
      assert todo[k + 1] == c;
    }
  }

  lemma {:induction false} DispatchKeeps(s: State, outcome: CallOutcome)
    requires Inv(s) && Enabled(s, Dispatch(outcome))
    ensures Inv(AfterDispatch(s, outcome))
  {
    var todo := s.phase.todo;
    var call := todo[0];
    if MustRefuse(s.phase, call) {
      AnswerNext(s.live, s.phase.side, todo, s.phase.suspended, BEHIND);
    } else if outcome.Value? {
      AnswerNext(s.live, s.phase.side, todo, s.phase.suspended, outcome.content);
    } else {
      IdsOfRest(todo);
      var parked := s.live.(pending := Some(NewPark(call, outcome.snapshot, outcome.card, outcome.now)));
      if outcome.placeholder {
        assert call.id in Ids(todo);
        ScanPush({}, parked.messages, Tool(call.id, AWAITING));
      }
    }
  }

  lemma {:induction false} FinishKeeps(s: State, maxTurns: nat, reply: string)
    requires Inv(s) && s.phase.Finishing?
    ensures Inv(AfterLoop(s, maxTurns, reply))
  {
    if s.phase.side { FinishSideTurnReady(s.live, s.phase.end); }
    var t := if s.phase.side then FinishSideTurn(s.live, s.phase.end).0 else s.live;
    var replied := s.phase.end.FinalReply? || s.phase.end.ConversationEnded?;
    if replied { PushReady(t, Assistant(reply, [])); }
    TruncateKeepsOpen(if replied then Push(t, Assistant(reply, [])) else t, maxTurns);
  }

  /** Every step of the machine keeps the invariant. */
  lemma {:induction false} StepKeeps(s: State, e: Event)
    requires Inv(s)
    ensures Inv(Step(s, e))
  {
    if Enabled(s, e) {
      match e
      case Opening(text) =>
        assert Unanswered(s.live.messages) == Some({});
        PushReady(s.live, Assistant(text, []));
      case StartStep(payload, now, policy, text) => StartKeeps(s, payload, now, policy, text);
      case FlowReturns(outcome, now, files) => ResumeKeeps(s.live, s.phase.parked, outcome, now, files);
      case CallLlm(maxTurns, reply) => LlmKeeps(s, maxTurns, reply);
      case TimeUp =>
      case AnswerUnrun(content) => AnswerNext(s.live, s.phase.side, s.phase.todo, s.phase.suspended, content);
      case Dispatch(outcome) => DispatchKeeps(s, outcome);
      case BatchDone(timedOut) =>
        assert Ids([]) == {};
        assert !s.phase.suspended ==> Unanswered(s.live.messages).value == {};
      case Finish(maxTurns, reply) => FinishKeeps(s, maxTurns, reply);
      case Abort =>
    }
  }

  /** A conversation as the store hands it out. */
  ghost predicate Init(s: State) {
    s.phase.Resting? && s.saved == s.live && Rested(s.live)
  }

  lemma {:induction false} ReachableInv(s: State, events: seq<Event>)
    requires Init(s)
    ensures Inv(Exec(s, events))
  {
    if events != [] {
      ReachableInv(s, events[..|events| - 1]);
      StepKeeps(Exec(s, events[..|events| - 1]), events[|events| - 1]);
    }
  }

  /**
   In every run, whatever the user, the flow and the model do, the history handed to the
   model is one a provider accepts.
   */
  lemma {:induction false} EveryRequestIsValid(s: State, events: seq<Event>, maxTurns: nat, reply: LlmReply)
    requires Init(s) && Enabled(Exec(s, events), CallLlm(maxTurns, reply))
    ensures ProviderValid(Sent(Exec(s, events), maxTurns))
  {
    ReachableInv(s, events);
    TruncateKeepsOpen(Exec(s, events).live, maxTurns);
    ScanIsProviderValid(Sent(Exec(s, events), maxTurns));
  }

  /** In every reachable state, no result is orphaned or repeated, and at rest only the parked call may wait. */
  lemma {:induction false} NeverOrphaned(s: State, events: seq<Event>)
    requires Init(s)
    ensures var t := Exec(s, events);
            && NoOrphan(t.live.messages) && NoRepeat(t.live.messages)
            && NoOrphan(t.saved.messages) && NoRepeat(t.saved.messages)
            && (t.phase.Resting? ==> forall at: nat, c :: at < |t.live.messages| && Made(t.live.messages[at], c) ==>
                  Answered(t.live.messages, at, c) || ParkedId(t.live) == Some(c))
  {
    ReachableInv(s, events);
    var t := Exec(s, events);
    ScanIsPairing(t.live.messages, Unanswered(t.live.messages).value);
    ScanIsPairing(t.saved.messages, Unanswered(t.saved.messages).value);
  }
}
