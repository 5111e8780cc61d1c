/**
 How long a park lasts: side turns in whole runs. A side turn answers a typed message while a call
 stays parked; the cap counts those that were stored.
 */
module SideTurns {
  import opened Common
  import opened Conversation
  import opened AgentLoop

  /** The event answers a typed message while the park stays. */
  ghost predicate GrantsSide(s: State, e: Event) {
    Enabled(s, e) && e.StartStep? && TakePending(s.live, e.payload, e.now, e.policy).1.Side?
  }

  ghost predicate ParksAfresh(s: State, e: Event) {
    Enabled(s, e) && e.Dispatch? && e.ran.Parks? && !MustRefuse(s.phase, s.phase.todo[0])
  }

  ghost predicate ParksAgain(s: State, e: Event) {
    Enabled(s, e) && e.FlowReturns? && e.outcome.Waiting?
  }

  /** The event ends the step by storing the conversation. */
  ghost predicate Saves(s: State, e: Event) {
    Enabled(s, e) && (e.Opening? || e.Finish? || (e.CallLlm? && e.reply.LlmFails?))
  }

  /** The park a state carries, also while its answer is with the flow. */
  function Carried(s: State): Option<Pending> {
    if s.phase.Resuming? then Some(s.phase.parked) else s.live.pending
  }

  /** No event of the run parks a call. */
  ghost predicate NoPark(s: State, events: seq<Event>) {
    forall k :: 0 <= k < |events| ==>
      !ParksAfresh(Exec(s, events[..k]), events[k]) && !ParksAgain(Exec(s, events[..k]), events[k])
  }

  ghost predicate NoFreshPark(s: State, events: seq<Event>) {
    forall k :: 0 <= k < |events| ==> !ParksAfresh(Exec(s, events[..k]), events[k])
  }

  // ------------------------------------------------------------ one event

  /** One event other than an abort keeps the carried park, drops it, or grants it a side turn. */
  lemma {:induction false} CarriedStep(s: State, e: Event)
    requires !e.Abort? && !ParksAfresh(s, e) && (s.phase.Resuming? ==> s.live.pending.None?)
    ensures var c := Carried(Step(s, e));
            || c.None? || c == Carried(s)
            || (GrantsSide(s, e) && s.phase.Resting? && SideTurnAllowed(Carried(s).value, e.now)
                && c == Some(BeginSideTurn(Carried(s).value, e.now)))
            || (ParksAgain(s, e) && Carried(s).Some? && c.value.callId == Carried(s).value.callId
                && c.value.parkedAt == Carried(s).value.parkedAt)
    ensures GrantsSide(s, e) ==> Carried(Step(s, e)) == Some(BeginSideTurn(Carried(s).value, e.now))
    ensures Saves(s, e) ==> Step(s, e).saved == Step(s, e).live && Step(s, e).phase.Resting?
    ensures !Saves(s, e) ==> Step(s, e).saved == s.saved
  {
    if Enabled(s, e) {
      match e
      case Finish(maxTurns, text) =>
      case _ =>
    }
  }

  // ------------------------------------------------------------ the cap

  /** Side turns granted and stored, and those granted by the step still running. */
  ghost function SideTurnsOf(s: State, events: seq<Event>): (nat, nat) {
    if events == [] then (0, 0)
    else
      var n := |events| - 1;
      var (stored, running) := SideTurnsOf(s, events[..n]);
      var t, e := Exec(s, events[..n]), events[n];
      (StoredNext(t, e, stored, running), RunningNext(t, e, running))
  }

  ghost function StoredNext(t: State, e: Event, stored: nat, running: nat): nat {
    if !e.Abort? && Saves(t, e) then stored + running else stored
  }

  ghost function RunningNext(t: State, e: Event, running: nat): nat {
    if e.Abort? || Saves(t, e) then 0 else running + if GrantsSide(t, e) then 1 else 0
  }

  /** `p` is `base` after `turns` more side turns. */
  predicate GrewBy(base: Option<Pending>, p: Option<Pending>, turns: nat) {
    p.Some? ==> base.Some? && p.value.sideTurns == base.value.sideTurns + turns
  }

  /** What the cap leaves a park. */
  function SideTurnsLeft(p: Option<Pending>): nat {
    if p.Some? && p.value.sideTurns < 20 then 20 - p.value.sideTurns else 0
  }

  /**
   Without a new park, the side turns that are ever stored, together with one still running,
   never exceed what the cap left when the run began.
   */
  lemma {:induction false} StoredTurnsAreBounded(s: State, events: seq<Event>)
    requires Init(s) && NoPark(s, events)
    ensures var (stored, running) := SideTurnsOf(s, events);
            && GrewBy(s.live.pending, Exec(s, events).saved.pending, stored)
            && GrewBy(s.live.pending, Carried(Exec(s, events)), stored + running)
            && stored + running <= SideTurnsLeft(s.live.pending)
  {
    if events != [] {
      var n := |events| - 1;
      var pre, e := events[..n], events[n];
      NoParkPrefix(s, events);
      StoredTurnsAreBounded(s, pre);
      ReachableInv(s, pre);
      var (stored, running) := SideTurnsOf(s, pre);
      SideTurnsStep(s.live.pending, Exec(s, pre), e, stored, running);
    }
  }

  lemma {:induction false} NoParkPrefix(s: State, events: seq<Event>)
    requires events != [] && NoPark(s, events)
    ensures NoPark(s, events[..|events| - 1])
  {
    var pre := events[..|events| - 1];
    forall k | 0 <= k < |pre|
      ensures !ParksAfresh(Exec(s, pre[..k]), pre[k]) && !ParksAgain(Exec(s, pre[..k]), pre[k])
    {
      assert pre[..k] == events[..k];
    }
  }

  lemma {:induction false} SideTurnsStep(base: Option<Pending>, t: State, e: Event, stored: nat, running: nat)
    requires Inv(t) && !ParksAfresh(t, e) && !ParksAgain(t, e)
    requires GrewBy(base, t.saved.pending, stored) && GrewBy(base, Carried(t), stored + running)
    requires stored + running <= SideTurnsLeft(base)
    ensures var stored', running' := StoredNext(t, e, stored, running), RunningNext(t, e, running);
            && GrewBy(base, Step(t, e).saved.pending, stored')
            && GrewBy(base, Carried(Step(t, e)), stored' + running')
            && stored' + running' <= SideTurnsLeft(base)
  {
    if !e.Abort? { CarriedStep(t, e); }
  }

  // ------------------------------------------------------------ granted, stored and refunded

  ghost function Granted(s: State, events: seq<Event>): nat {
    if events == [] then 0
    else
      var n := |events| - 1;
      Granted(s, events[..n]) + if GrantsSide(Exec(s, events[..n]), events[n]) then 1 else 0
  }

  /** A side turn is being answered. */
  predicate InSideTurn(phase: Phase) {
    (phase.Thinking? || phase.Acting? || phase.Finishing?) && phase.side
  }

  /** The step is cut short in a side turn, which is then forgotten. */
  predicate CutsSideTurn(t: State, e: Event) {
    e.Abort? && InSideTurn(t.phase)
  }

  /** The side turns granted by steps that were cut short. */
  ghost function Refunded(s: State, events: seq<Event>): nat {
    if events == [] then 0
    else
      var n := |events| - 1;
      Refunded(s, events[..n]) + if CutsSideTurn(Exec(s, events[..n]), events[n]) then 1 else 0
  }

  /** Every side turn granted is stored, still running, or was cut short: no other way to lose one. */
  lemma {:induction false} GrantedAreAccounted(s: State, events: seq<Event>)
    requires Init(s)
    ensures var (stored, running) := SideTurnsOf(s, events);
            && Granted(s, events) == stored + running + Refunded(s, events)
            && running == if InSideTurn(Exec(s, events).phase) then 1 else 0
  {
    if events != [] {
      var n := |events| - 1;
      GrantedAreAccounted(s, events[..n]);
      InSideTurnNext(Exec(s, events[..n]), events[n]);
    }
  }

  lemma {:induction false} InSideTurnNext(t: State, e: Event)
    ensures InSideTurn(Step(t, e).phase) <==> GrantsSide(t, e) || (InSideTurn(t.phase) && !e.Abort? && !Saves(t, e))
    ensures GrantsSide(t, e) ==> !InSideTurn(t.phase) && !Saves(t, e) && !e.Abort?
    ensures Saves(t, e) ==> !InSideTurn(Step(t, e).phase)
  {
    if Enabled(t, e) {
      match e
      case FlowReturns(_, _, _) =>
      case _ =>
    }
  }

  ghost predicate NoSideTurnCut(s: State, events: seq<Event>) {
    forall k :: 0 <= k < |events| ==> !CutsSideTurn(Exec(s, events[..k]), events[k])
  }

  lemma {:induction false} NothingRefunded(s: State, events: seq<Event>)
    ensures NoSideTurnCut(s, events) <==> Refunded(s, events) == 0
  {
    if events != [] {
      NothingRefunded(s, events[..|events| - 1]);
      NoSideTurnCutLast(s, events);
    }
  }

  lemma {:induction false} NoSideTurnCutLast(s: State, events: seq<Event>)
    requires events != []
    ensures var n := |events| - 1;
            NoSideTurnCut(s, events) <==> NoSideTurnCut(s, events[..n]) && !CutsSideTurn(Exec(s, events[..n]), events[n])
  {
    var n := |events| - 1;
    var pre := events[..n];
    assert forall k :: 0 <= k < n ==> pre[k] == events[k] && pre[..k] == events[..k];
    if NoSideTurnCut(s, pre) && !CutsSideTurn(Exec(s, pre), events[n]) {
      forall k | 0 <= k < |events| ensures !CutsSideTurn(Exec(s, events[..k]), events[k]) {
        if k < n { assert !CutsSideTurn(Exec(s, pre[..k]), pre[k]); }
      }
    }
    if NoSideTurnCut(s, events) {
      forall k | 0 <= k < n ensures !CutsSideTurn(Exec(s, pre[..k]), pre[k]) {
        assert !CutsSideTurn(Exec(s, events[..k]), events[k]);
      }
    }
  }

  /**
   At most as many side turns are granted between two parks as the cap leaves, provided no step is
   cut short in a side turn; and in general the cap is exceeded by no more than the steps that
   were, so it holds exactly when those fit into what the stored and running ones leave of it.
   */
  lemma {:induction false} SideTurnsAreBounded(s: State, events: seq<Event>)
    requires Init(s) && NoPark(s, events)
    ensures NoSideTurnCut(s, events) ==> Granted(s, events) <= SideTurnsLeft(s.live.pending)
    ensures Granted(s, events) <= SideTurnsLeft(s.live.pending) + Refunded(s, events)
    ensures var (stored, running) := SideTurnsOf(s, events);
            Granted(s, events) <= SideTurnsLeft(s.live.pending) <==>
              Refunded(s, events) <= SideTurnsLeft(s.live.pending) - stored - running
  {
    StoredTurnsAreBounded(s, events);
    GrantedAreAccounted(s, events);
    NothingRefunded(s, events);
  }

  /** The run `[StartStep, Abort]`, `n` times. */
  function AbortedTurns(e: Event, n: nat): seq<Event> {
    if n == 0 then [] else AbortedTurns(e, n - 1) + [e, Abort]
  }

  /**
   Without that proviso the cap fails: a step that is cut short gives its side turn back, so any
   number of them can be granted while the same call stays parked.
   */
  lemma {:induction false} AbortedSideTurnsAreFree(s: State, e: Event, n: nat)
    requires Init(s) && GrantsSide(s, e)
    ensures FreeRun(s, AbortedTurns(e, n), n)
  {
    if n == 0 {
      FreeEmpty(s);
    } else {
      AbortedSideTurnsAreFree(s, e, n - 1);
      AbortedOnce(s, AbortedTurns(e, n - 1), e, n - 1);
    }
  }

  /** A run without a park that grants `n` side turns, all of them refunded, and changes nothing. */
  ghost predicate FreeRun(s: State, run: seq<Event>, n: nat) {
    Exec(s, run) == s && NoPark(s, run) && Granted(s, run) == n && Refunded(s, run) == n
  }

  lemma {:induction false} FreeEmpty(s: State)
    ensures FreeRun(s, [], 0)
  {
  }

  lemma {:induction false} AbortedOnce(s: State, pre: seq<Event>, e: Event, n: nat)
    requires Init(s) && GrantsSide(s, e) && FreeRun(s, pre, n)
    ensures FreeRun(s, pre + [e, Abort], n + 1)
  {
    assert pre + [e, Abort] == pre + [e] + [Abort];
    AbortUndoes(s, e);
    NoParkPush(s, pre, e);
    NoParkPush(s, pre + [e], Abort);
  }

  lemma {:induction false} NoParkPush(s: State, events: seq<Event>, e: Event)
    requires NoPark(s, events) && !ParksAfresh(Exec(s, events), e) && !ParksAgain(Exec(s, events), e)
    ensures NoPark(s, events + [e])
  {
    var all := events + [e];
    forall k | 0 <= k < |all| ensures !ParksAfresh(Exec(s, all[..k]), all[k]) && !ParksAgain(Exec(s, all[..k]), all[k]) {
      if k < |events| { assert all[..k] == events[..k]; } else { assert all[..k] == events; }
    }
  }

  lemma {:induction false} AbortUndoes(s: State, e: Event)
    requires s.phase.Resting? && s.saved == s.live && GrantsSide(s, e)
    ensures Step(Step(s, e), Abort) == s && !GrantsSide(Step(s, e), Abort)
    ensures CutsSideTurn(Step(s, e), Abort) && !CutsSideTurn(s, e)
  {
  }

  // ------------------------------------------------------------ typed messages

  /** The user types instead of answering the form. */
  ghost predicate TypesMessage(t: State, e: Event) {
    Enabled(t, e) && e.StartStep? && e.payload.None?
  }

  ghost function Typed(s: State, events: seq<Event>): nat {
    if events == [] then 0
    else
      var n := |events| - 1;
      Typed(s, events[..n]) + if TypesMessage(Exec(s, events[..n]), events[n]) then 1 else 0
  }

  /** No step is cut short. */
  ghost predicate NoCut(s: State, events: seq<Event>) {
    forall k :: 0 <= k < |events| ==> (events[k].Abort? ==> Exec(s, events[..k]).phase.Resting?)
  }

  /** Between two steps the store holds the conversation. */
  lemma {:induction false} RestIsStored(s: State, events: seq<Event>)
    requires Init(s)
    ensures Exec(s, events).phase.Resting? ==> Exec(s, events).saved == Exec(s, events).live
  {
    if events != [] {
      var n := |events| - 1;
      RestIsStored(s, events[..n]);
    }
  }

  /** `p` is `base` after answering `typed` messages beside it, which the cap allows. */
  ghost predicate Outlasted(base: Option<Pending>, p: Option<Pending>, typed: nat) {
    p.Some? ==> GrewBy(base, p, typed) && typed <= SideTurnsLeft(base)
  }

  lemma {:induction false} OutlastedStep(base: Option<Pending>, t: State, e: Event, typed: nat)
    requires Inv(t) && !ParksAfresh(t, e) && !ParksAgain(t, e)
    requires e.Abort? ==> t.phase.Resting? && t.saved == t.live
    requires Outlasted(base, Carried(t), typed)
    ensures Outlasted(base, Carried(Step(t, e)), typed + if TypesMessage(t, e) then 1 else 0)
  {
    if !e.Abort? {
      CarriedStep(t, e);
      if TypesMessage(t, e) { TypedCancelsOrGrants(t, e); }
    }
  }

  lemma {:induction false} TypedCancelsOrGrants(t: State, e: Event)
    requires TypesMessage(t, e)
    ensures Carried(Step(t, e)).Some? ==> GrantsSide(t, e)
  {
  }

  lemma {:induction false} NoCutPrefix(s: State, events: seq<Event>)
    requires events != [] && NoCut(s, events)
    ensures NoCut(s, events[..|events| - 1])
  {
    var pre := events[..|events| - 1];
    assert forall k :: 0 <= k < |pre| ==> pre[k] == events[k] && pre[..k] == events[..k];
  }

  /** As long as the park is there, each typed message took one of its side turns. */
  lemma {:induction false} ParkOutlasts(s: State, events: seq<Event>)
    requires Init(s) && NoPark(s, events) && NoCut(s, events)
    ensures Outlasted(s.live.pending, Carried(Exec(s, events)), Typed(s, events))
  {
    if events != [] {
      var n := |events| - 1;
      var pre := events[..n];
      NoParkPrefix(s, events);
      NoCutPrefix(s, events);
      ParkOutlasts(s, pre);
      ReachableInv(s, pre);
      RestIsStored(s, pre);
      OutlastedStep(s.live.pending, Exec(s, pre), events[n], Typed(s, pre));
    }
  }

  /**
   Typed messages alone end a park: with no new park and no step cut short, one more message than
   the cap leaves, and no park is left, neither in the conversation nor, between steps, in the store.
   */
  lemma {:induction false} TypedMessagesEndThePark(s: State, events: seq<Event>)
    requires Init(s) && NoPark(s, events) && NoCut(s, events)
    requires Typed(s, events) > SideTurnsLeft(s.live.pending)
    ensures var t := Exec(s, events); Carried(t).None? && (t.phase.Resting? ==> t.saved.pending.None?)
  {
    ParkOutlasts(s, events);
    RestIsStored(s, events);
  }

  // ------------------------------------------------------------ the age of a park

  ghost predicate SamePark(base: Option<Pending>, p: Option<Pending>) {
    p.Some? ==> base.Some? && p.value.callId == base.value.callId && p.value.parkedAt == base.value.parkedAt
  }

  lemma {:induction false} SameParkThroughout(s: State, events: seq<Event>)
    requires Init(s) && NoFreshPark(s, events)
    ensures SamePark(s.live.pending, Exec(s, events).saved.pending)
    ensures SamePark(s.live.pending, Carried(Exec(s, events)))
  {
    if events != [] {
      var n := |events| - 1;
      NoFreshParkPrefix(s, events);
      SameParkThroughout(s, events[..n]);
      ReachableInv(s, events[..n]);
      SameParkStep(s.live.pending, Exec(s, events[..n]), events[n]);
    }
  }

  lemma {:induction false} NoFreshParkPrefix(s: State, events: seq<Event>)
    requires events != [] && NoFreshPark(s, events)
    ensures NoFreshPark(s, events[..|events| - 1])
  {
    var pre := events[..|events| - 1];
    forall k | 0 <= k < |pre| ensures !ParksAfresh(Exec(s, pre[..k]), pre[k]) { assert pre[..k] == events[..k]; }
  }

  lemma {:induction false} SameParkStep(base: Option<Pending>, t: State, e: Event)
    requires Inv(t) && !ParksAfresh(t, e)
    requires SamePark(base, t.saved.pending) && SamePark(base, Carried(t))
    ensures SamePark(base, Step(t, e).saved.pending) && SamePark(base, Carried(Step(t, e)))
  {
    if !e.Abort? { CarriedStep(t, e); }
  }

  /**
   However often the flow parks again, no side turn is granted once the first park is a day
   old, and a granted one never moves the expiry past that day.
   */
  lemma {:induction false} SideTurnsEndWithTheDay(s: State, events: seq<Event>, e: Event)
    requires Init(s) && NoFreshPark(s, events)
    requires s.live.pending.Some? && s.live.pending.value.parkedAt.Some?
    requires GrantsSide(Exec(s, events), e)
    ensures var deadline := s.live.pending.value.parkedAt.value + MAX_AGE;
            && e.now < deadline
            && Carried(Step(Exec(s, events), e)).Some?
            && Carried(Step(Exec(s, events), e)).value.expiresAt <= deadline
  {
    SameParkThroughout(s, events);
    ReachableInv(s, events);
    CarriedStep(Exec(s, events), e);
  }
}
