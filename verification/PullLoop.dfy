/**
 The pull loop of the durable consumer: in-flight permits, the count of failed pulls in a row
 and the escalating backoff. The loop is a class whose methods are the points where the
 environment acts; `Step` gives each method's effect on the loop's value, and the theorems are
 about every sequence of such events. Delays are in milliseconds.
 */
module PullLoop {
  import opened Common
  import opened Settlement

  const MAX_INFLIGHT: nat := 256
  const PULL_BATCH: nat := 16
  const RECREATE_AFTER_FAULTS: nat := 3
  const BACKOFF_BASE: nat := 500
  const BACKOFF_MAX: nat := 30 * SECOND
  const MAX_ACK_PENDING_RETRY: nat := 500
  const EMPTY_BATCH_FLOOR: nat := 50

  datatype Fault = MaxAckPending | ConsumerGone | Unavailable | Other

  datatype Place = Top | Holding | Pulling(requested: nat, received: nat, paused: bool)

  /** Free permits, slots held for the next pull, running handlers, and the two counters. */
  datatype Loop = Loop(free: nat, slots: nat, running: nat, attempt: nat, faults: nat, place: Place)

  datatype Event =
    | Acquire
    | Opened
    | OpenFails(created: bool)
    | Message
    | PullError(fault: Fault, created: bool)
    | BatchEnds
    | HandlerDone

  const START := Loop(MAX_INFLIGHT, 0, 0, 0, 0, Top)

  function Bumped(n: nat): nat {
    Min(n + 1, U32_MAX)
  }

  function Backoff(attempt: nat): nat {
    Min(BACKOFF_BASE * Pow2(Min(attempt, 16)), BACKOFF_MAX)
  }

  function EmptyBatchDelay(received: nat, entropy: nat): nat {
    if received > 0 then 0 else EMPTY_BATCH_FLOOR + entropy % EMPTY_BATCH_FLOOR
  }

  /** Give back the slots that were not used. */
  function Dropped(s: Loop): Loop {
    s.(free := s.free + s.slots, slots := 0, place := Top)
  }

  /** Re-creating the consumer: the backoff escalates; a success restarts the fault count. */
  function Recreated(s: Loop, created: bool): Loop {
    s.(attempt := Bumped(s.attempt), faults := if created then 0 else s.faults)
  }

  function RecreateDelay(created: bool, fastOnSuccess: bool, escalated: nat): nat {
    if created && fastOnSuccess then Backoff(0) else escalated
  }

  /** A failed pull: re-create after enough of them in a row, else pause and escalate. */
  function PullFailed(s: Loop, created: bool): Loop {
    var t := s.(faults := Bumped(s.faults));
    if t.faults >= RECREATE_AFTER_FAULTS then Recreated(t, created) else t.(attempt := Bumped(t.attempt))
  }

  predicate Enabled(s: Loop, e: Event) {
    match e
    case Acquire => s.place.Top? && s.free > 0
    case Opened => s.place.Holding?
    case OpenFails(_) => s.place.Holding?
    case Message => s.place.Pulling?
    case PullError(_, _) => s.place.Pulling?
    case BatchEnds => s.place.Pulling?
    case HandlerDone => s.running > 0
  }

  function Step(s: Loop, e: Event): Loop {
    if !Enabled(s, e) then s
    else
      match e
      case Acquire => var n := Min(s.free, PULL_BATCH); s.(free := s.free - n, slots := s.slots + n, place := Holding)
      case Opened => s.(place := Pulling(s.slots, 0, false))
      case OpenFails(created) => PullFailed(Dropped(s), created)
      case Message =>
        var t := s.(attempt := 0, faults := 0, place := s.place.(received := s.place.received + 1));
        if s.slots > 0 then t.(slots := s.slots - 1, running := s.running + 1) else t
      case PullError(MaxAckPending, _) => s.(attempt := 0, faults := 0, place := s.place.(paused := true))
      case PullError(ConsumerGone, created) => Dropped(Recreated(s, created))
      case PullError(_, created) =>
        var t := PullFailed(s, created);
        if Bumped(s.faults) >= RECREATE_AFTER_FAULTS then Dropped(t) else t.(place := s.place.(paused := true))
      case BatchEnds => Dropped(if s.place.paused then s else s.(attempt := 0, faults := 0))
      case HandlerDone => s.(free := s.free + 1, running := s.running - 1)
  }

  function Exec(s: Loop, events: seq<Event>): Loop {
    if events == [] then s else Step(Exec(s, events[..|events| - 1]), events[|events| - 1])
  }

  // ------------------------------------------------------------ the mutable loop

  class Puller {
    var free: nat
    var slots: nat
    var running: nat
    var attempt: nat
    var faults: nat
    var place: Place

    function View(): Loop
      reads this
    {
      Loop(free, slots, running, attempt, faults, place)
    }

    constructor ()
      ensures View() == START
    {
      free, slots, running, attempt, faults, place := MAX_INFLIGHT, 0, 0, 0, 0, Top;
    }

    /** One slot, then as many more as are free right now, up to a batch. */
    method AcquireBatch()
      requires Enabled(View(), Acquire) && slots == 0
      modifies this
      ensures View() == Step(old(View()), Acquire)
    {
      free, slots := free - 1, slots + 1;
      while slots < PULL_BATCH && free > 0
        invariant free + slots == old(free) && 1 <= slots <= PULL_BATCH
        invariant running == old(running) && attempt == old(attempt) && faults == old(faults)
      {
        free, slots := free - 1, slots + 1;
      }
      place := Holding;
    }

    method DropSlots()
      modifies this
      ensures View() == Dropped(old(View()))
    {
      free, slots, place := free + slots, 0, Top;
    }

    method RecordFault() returns (recreate: bool)
      modifies this`faults
      ensures faults == Bumped(old(faults)) && recreate == (faults >= RECREATE_AFTER_FAULTS)
    {
      faults := Bumped(faults);
      recreate := faults >= RECREATE_AFTER_FAULTS;
    }

    method RecreateConsumer(created: bool, fastOnSuccess: bool) returns (delay: nat)
      modifies this`attempt, this`faults
      ensures View() == Recreated(old(View()), created)
      ensures delay == RecreateDelay(created, fastOnSuccess, Backoff(old(attempt)))
    {
      var escalated := Backoff(attempt);
      attempt := Bumped(attempt);
      if created { faults := 0; }
      delay := RecreateDelay(created, fastOnSuccess, escalated);
    }

    method OnOpenFailed(created: bool) returns (delay: nat)
      requires Enabled(View(), OpenFails(created))
      modifies this
      ensures View() == Step(old(View()), OpenFails(created))
      ensures delay == DelayOf(old(View()), OpenFails(created))
    {
      DropSlots();
      var recreate := RecordFault();
      if recreate {
        delay := RecreateConsumer(created, true);
      } else {
        delay := Backoff(attempt);
        attempt := Bumped(attempt);
      }
    }

    /** Returns whether a slot ran the message; without one it is left for redelivery. */
    method OnMessage() returns (ran: bool)
      requires Enabled(View(), Message)
      modifies this
      ensures View() == Step(old(View()), Message) && ran == (old(slots) > 0)
    {
      place := place.(received := place.received + 1);
      attempt, faults := 0, 0;
      if slots == 0 { return false; }
      slots, running := slots - 1, running + 1;
      return true;
    }

    method OnPullError(fault: Fault, created: bool) returns (delay: nat)
      requires Enabled(View(), PullError(fault, created))
      modifies this
      ensures View() == Step(old(View()), PullError(fault, created))
      ensures delay == DelayOf(old(View()), PullError(fault, created))
    {
      place := place.(paused := true);
      match fault {
        case MaxAckPending =>
          attempt, faults := 0, 0;
          delay := MAX_ACK_PENDING_RETRY;
        case ConsumerGone =>
          delay := RecreateConsumer(created, false);
          DropSlots();
        case _ =>
          var recreate := RecordFault();
          if recreate {
            delay := RecreateConsumer(created, true);
            DropSlots();
          } else {
            delay := Backoff(attempt);
            attempt := Bumped(attempt);
          }
      }
    }

    method OnBatchEnd(entropy: nat) returns (delay: nat)
      requires Enabled(View(), BatchEnds)
      modifies this
      ensures View() == Step(old(View()), BatchEnds)
      ensures if old(place).paused || old(place).received > 0 then delay == 0
              else EMPTY_BATCH_FLOOR <= delay < 2 * EMPTY_BATCH_FLOOR
    {
      delay := 0;
      if !place.paused {
        attempt, faults := 0, 0;
        delay := EmptyBatchDelay(place.received, entropy);
      }
      DropSlots();
    }
  }

  /** The pause an error event takes. */
  function DelayOf(s: Loop, e: Event): nat {
    match e
    case PullError(MaxAckPending, _) => MAX_ACK_PENDING_RETRY
    case PullError(ConsumerGone, created) => RecreateDelay(created, false, Backoff(s.attempt))
    case PullError(_, created) =>
      if Bumped(s.faults) >= RECREATE_AFTER_FAULTS then RecreateDelay(created, true, Backoff(s.attempt))
      else Backoff(s.attempt)
    case OpenFails(created) =>
      if Bumped(s.faults) >= RECREATE_AFTER_FAULTS then RecreateDelay(created, true, Backoff(s.attempt))
      else Backoff(s.attempt)
    case _ => 0
  }

  /** A pull that brought nothing is followed by a short pause of varying length, any other by none. */
  lemma {:induction false} EmptyPullsPause(received: nat, entropy: nat)
    ensures if received > 0 then EmptyBatchDelay(received, entropy) == 0 else 50 <= EmptyBatchDelay(received, entropy) < 100
  {
  }

  // ------------------------------------------------------------ permits

  /** No permit is lost or made, and a pull asks for no more messages than it has slots. */
  ghost predicate Conserved(s: Loop) {
    && s.free + s.slots + s.running == 256
    && (s.place.Top? ==> s.slots == 0)
    && (s.place.Holding? ==> 1 <= s.slots <= PULL_BATCH)
    && (s.place.Pulling? ==> s.slots == Max(s.place.requested - s.place.received, 0))
  }

  lemma {:induction false} PermitsAreConserved(events: seq<Event>)
    ensures Conserved(Exec(START, events))
  {
    if events != [] {
      PermitsAreConserved(events[..|events| - 1]);
    }
  }

  /** If the server honours the batch size, every delivered message finds a slot. */
  lemma {:induction false} EveryMessageRuns(events: seq<Event>)
    requires var s := Exec(START, events); s.place.Pulling? && s.place.received < s.place.requested
    ensures var s := Exec(START, events); Step(s, Message).running == s.running + 1
  {
    PermitsAreConserved(events);
  }

  /** A batch takes what is free up to 16 permits, at least one, and pulls that many messages. */
  lemma {:induction false} BatchSize(events: seq<Event>)
    requires Enabled(Exec(START, events), Acquire)
    ensures var s := Exec(START, events);
            var t := Step(s, Acquire);
            && t.slots == (if s.free < 16 then s.free else 16) && t.slots >= 1 && t.free == s.free - t.slots
            && Step(t, Opened).place == Pulling(t.slots, 0, false)
  {
    PermitsAreConserved(events);
  }

  // ------------------------------------------------------------ faults and backoff

  /** The consumer answered: a message, a full queue, or a pull that ended without an error. */
  predicate ProofOfLife(s: Loop, e: Event) {
    Enabled(s, e) && (e.Message? || (e.PullError? && e.fault.MaxAckPending?) || (e.BatchEnds? && !s.place.paused))
  }

  predicate FailedPull(s: Loop, e: Event) {
    Enabled(s, e) && (e.OpenFails? || (e.PullError? && (e.fault.Unavailable? || e.fault.Other?)))
  }

  predicate Gone(s: Loop, e: Event) {
    Enabled(s, e) && e.PullError? && e.fault.ConsumerGone?
  }

  function NextFailed(s: Loop, e: Event, before: nat): nat {
    if ProofOfLife(s, e) then 0
    else if Gone(s, e) then if e.created then 0 else before
    else if !FailedPull(s, e) then before
    else if before + 1 >= RECREATE_AFTER_FAULTS && e.created then 0
    else before + 1
  }

  /** Failed pulls since the last proof of life or successful re-creation, by the events alone. */
  function FailedPulls(events: seq<Event>): nat {
    if events == [] then 0
    else
      var pre := events[..|events| - 1];
      NextFailed(Exec(START, pre), events[|events| - 1], FailedPulls(pre))
  }

  function NextEscalations(s: Loop, e: Event, before: nat): nat {
    if ProofOfLife(s, e) then 0 else if Gone(s, e) || FailedPull(s, e) then before + 1 else before
  }

  /** Fault pauses and re-creations since the last proof of life, by the events alone. */
  function Escalations(events: seq<Event>): nat {
    if events == [] then 0
    else
      var pre := events[..|events| - 1];
      NextEscalations(Exec(START, pre), events[|events| - 1], Escalations(pre))
  }

  lemma {:induction false} FaultsStep(s: Loop, e: Event, failed: nat)
    requires s.faults == Min(failed, U32_MAX)
    ensures Step(s, e).faults == Min(NextFailed(s, e, failed), U32_MAX)
  {
  }

  lemma {:induction false} AttemptStep(s: Loop, e: Event, escalations: nat)
    requires s.attempt == Min(escalations, U32_MAX)
    ensures Step(s, e).attempt == Min(NextEscalations(s, e, escalations), U32_MAX)
  {
  }

  /** The counters are what they are called, up to saturation, in every run. */
  lemma {:induction false} CountersMatchHistory(events: seq<Event>)
    ensures Exec(START, events).faults == Min(FailedPulls(events), U32_MAX)
    ensures Exec(START, events).attempt == Min(Escalations(events), U32_MAX)
  {
    if events != [] {
      var pre, e := events[..|events| - 1], events[|events| - 1];
      CountersMatchHistory(pre);
      FaultsStep(Exec(START, pre), e, FailedPulls(pre));
      AttemptStep(Exec(START, pre), e, Escalations(pre));
    }
  }

  lemma {:induction false} BackoffGrows(a: nat, b: nat)
    requires a <= b
    ensures Backoff(a) <= Backoff(b)
  {
    Pow2Grows(Min(a, 16), Min(b, 16));
  }

  lemma {:induction false} BackoffCap(a: nat)
    requires a >= 6
    ensures Backoff(a) == BACKOFF_MAX
  {
    Pow2Grows(6, Min(a, 16));
    assert Pow2(6) == 64 by { assert Pow2(4) == 16; }
  }

  /** The pauses after 0, 1, 2, ... escalations: half a second, doubling up to 30 seconds. */
  lemma {:induction false} BackoffSchedule(attempt: nat)
    ensures Backoff(attempt) ==
            if attempt == 0 then 500 else if attempt == 1 then 1_000 else if attempt == 2 then 2_000
            else if attempt == 3 then 4_000 else if attempt == 4 then 8_000 else if attempt == 5 then 16_000 else 30_000
  {
    if attempt >= 6 {
      BackoffCap(attempt);
    } else {
      assert Pow2(0) == 1 && Pow2(1) == 2 && Pow2(2) == 4 && Pow2(3) == 8;
      assert Pow2(4) == 16 && Pow2(5) == 32;
    }
  }

  /**
   How long a failed pull pauses, by the events alone: the escalating pause, except that the third
   failure in a row whose re-creation succeeds pauses half a second only; a consumer that is gone
   always takes the escalating pause, and a full queue half a second.
   */
  lemma {:induction false} FaultPauses(events: seq<Event>, e: Event)
    requires FailedPull(Exec(START, events), e) || Gone(Exec(START, events), e) || (e.PullError? && e.fault.MaxAckPending?)
    ensures var escalated := Backoff(Escalations(events));
            DelayOf(Exec(START, events), e) ==
              if e.PullError? && e.fault.MaxAckPending? then 500
              else if FailedPull(Exec(START, events), e) && FailedPulls(events) >= 2 && e.created then 500
              else escalated
  {
    CountersMatchHistory(events);
    BackoffSchedule(0);
    if Escalations(events) > U32_MAX {
      BackoffCap(Escalations(events));
      BackoffCap(U32_MAX);
    }
  }

  /**
   A consumer that is gone, or the third failure in a row, abandons the pull and gives every slot
   back; any other error of a pull keeps it, its slots and its batch.
   */
  lemma {:induction false} RecreationAbandonsThePull(events: seq<Event>, e: Event)
    requires Enabled(Exec(START, events), e) && e.PullError?
    ensures var s := Exec(START, events);
            var t := Step(s, e);
            && t.running == s.running
            && if Gone(s, e) || (FailedPull(s, e) && FailedPulls(events) >= 2)
               then t.place == Top && t.slots == 0 && t.free == s.free + s.slots
               else t.place == s.place.(paused := true) && t.slots == s.slots && t.free == s.free
  {
    CountersMatchHistory(events);
  }

  /** Without a proof of life the backoff attempt never goes down. */
  lemma {:induction false} AttemptGrows(events: seq<Event>, i: nat, j: nat)
    requires i <= j <= |events|
    requires forall k :: i <= k < j ==> !ProofOfLife(Exec(START, events[..k]), events[k])
    ensures Exec(START, events[..i]).attempt <= Exec(START, events[..j]).attempt
    decreases j
  {
    if i < j {
      AttemptGrows(events, i, j - 1);
      assert events[..j][..j - 1] == events[..j - 1];
      var s := Exec(START, events[..j - 1]);
      CountersMatchHistory(events[..j - 1]);
      AttemptStep(s, events[j - 1], s.attempt);
      assert Exec(START, events[..j]) == Step(s, events[j - 1]);
    }
  }

  /**
   A consumer that something keeps deleting is re-created ever more slowly: without a proof of
   life in between, the pauses never shrink, and from the sixth escalation on they are 30 s.
   */
  lemma {:induction false} GoneDelaysEscalate(events: seq<Event>, i: nat, j: nat)
    requires i < j < |events|
    requires Gone(Exec(START, events[..i]), events[i]) && Gone(Exec(START, events[..j]), events[j])
    requires forall k :: i <= k < j ==> !ProofOfLife(Exec(START, events[..k]), events[k])
    ensures DelayOf(Exec(START, events[..i]), events[i]) <= DelayOf(Exec(START, events[..j]), events[j])
    ensures Escalations(events[..j]) >= 6 ==> DelayOf(Exec(START, events[..j]), events[j]) == 30 * SECOND
  {
    AttemptGrows(events, i, j);
    BackoffGrows(Exec(START, events[..i]).attempt, Exec(START, events[..j]).attempt);
    CountersMatchHistory(events[..j]);
    if Escalations(events[..j]) >= 6 { BackoffCap(Exec(START, events[..j]).attempt); }
  }
}
