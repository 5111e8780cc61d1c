/**
 The life of a request: each delivery is handled, answered or not, and settled; a Nak brings
 another delivery. Publishes are atomic and settlements reach the server; whether a publish
 succeeds, how the handler ends and what other requests do is up to the environment.
 */
module RequestLife {
  import opened Common
  import opened ErrorAttempts
  import opened Settlement

  datatype Dispatched = Answered | SessionBusy | Broken

  /** Why a response was published. */
  datatype Response = Reply | Invalid | BusySession | InvokeFailed | TimedOut

  /** What the environment decides about one delivery. */
  datatype Env = Env(
    correlated: bool,
    wellFormed: bool,
    dispatched: Dispatched,
    stepTimeout: Option<nat>,
    outlivesBound: bool,
    publishOk: bool,
    timeoutPublishOk: bool,
    finalPublishOk: (bool, bool))

  /** A delivery's metadata; `None` when the message carries none. */
  datatype Metadata = Metadata(sequence: Sequence, delivered: int, age: nat)

  // ------------------------------------------------------------ handling one delivery

  function Delivered(meta: Option<Metadata>): int {
    if meta.Some? then meta.value.delivered else CONSUMER_MAX_DELIVER
  }

  function SequenceOf(meta: Option<Metadata>): Option<Sequence> {
    if meta.Some? then Some(meta.value.sequence) else None
  }

  function PolicyOf(meta: Option<Metadata>, env: Env): BusyPolicy {
    BusyPolicyFor(Delivered(meta), if meta.Some? then meta.value.age else 0, BusyBudget(env.stepTimeout))
  }

  /** The handler proper: refuse, run, answer; or leave a busy session for later. */
  function HandleOutcome(env: Env, busy: BusyPolicy): (Outcome, seq<Response>) {
    if !env.wellFormed && !env.correlated then (Done(Rejected), [])
    else if !env.wellFormed then if env.publishOk then (Done(Rejected), [Invalid]) else (Failed, [])
    else if env.dispatched.SessionBusy? && busy.Redeliver? then (Done(Busy), [])
    else if !env.publishOk then (Failed, [])
    else
      (Done(Handled),
       [match env.dispatched case Answered => Reply case SessionBusy => BusySession case Broken => InvokeFailed])
  }

  /** The handler under its time bound. */
  function Handle(meta: Option<Metadata>, env: Env): (Outcome, seq<Response>) {
    if env.outlivesBound then
      (Done(Rejected), if env.correlated && env.timeoutPublishOk then [TimedOut] else [])
    else HandleOutcome(env, PolicyOf(meta, env))
  }

  /** The best-effort answer when a failed delivery is the last. */
  function FinalError(env: Env): seq<Response> {
    if env.correlated && (env.finalPublishOk.0 || env.finalPublishOk.1) then [InvokeFailed] else []
  }

  /** One delivery: the table after it, its settlement and the responses it published. */
  function HandleOne(t: Table, meta: Option<Metadata>, env: Env): (Table, AckKind, seq<Response>) {
    var (result, responses) := Handle(meta, env);
    var (table, kind, _) := SettleDelivery(t, result, SequenceOf(meta), Delivered(meta));
    (table, kind, responses + if result.Failed? && kind.Term? then FinalError(env) else [])
  }

  /** The bridge: a log of published responses and the shared error table. */
  class Bridge {
    var log: seq<Response>
    const table: ErrorTable

    constructor ()
      ensures log == [] && table.View() == EMPTY && fresh(table)
    {
      log := [];
      table := new ErrorTable();
    }

    method Publish(r: Response, ok: bool) returns (published: bool)
      modifies this`log
      ensures published == ok && log == old(log) + if ok then [r] else []
    {
      if ok { log := log + [r]; }
      return ok;
    }

    method HandleMessage(env: Env, busy: BusyPolicy) returns (result: Outcome)
      modifies this`log
      ensures result == HandleOutcome(env, busy).0
      ensures log == old(log) + HandleOutcome(env, busy).1
    {
      if !env.wellFormed {
        if env.correlated {
          var ok := Publish(Invalid, env.publishOk);
          if !ok { return Failed; }
        }
        return Done(Rejected);
      }
      var response := Reply;
      if env.dispatched.SessionBusy? {
        if busy.Redeliver? { return Done(Busy); }
        response := BusySession;
      } else if env.dispatched.Broken? {
        response := InvokeFailed;
      }
      var ok := Publish(response, env.publishOk);
      result := if ok then Done(Handled) else Failed;
    }

    /** Two attempts at a last answer; nothing when nobody waits for one. */
    method PublishFinalError(env: Env)
      modifies this`log
      ensures log == old(log) + FinalError(env)
    {
      if !env.correlated { return; }
      var ok := Publish(InvokeFailed, env.finalPublishOk.0);
      if !ok { ok := Publish(InvokeFailed, env.finalPublishOk.1); }
    }

    method HandleDelivery(meta: Option<Metadata>, env: Env) returns (kind: AckKind)
      requires Valid(table.View())
      modifies this`log, table
      ensures Valid(table.View())
      ensures var (t, k, responses) := HandleOne(old(table.View()), meta, env);
              table.View() == t && kind == k && log == old(log) + responses
    {
      var result := HandleWithinBound(meta, env);
      var attempt;
      kind, attempt := SettleAndCount(table, result, SequenceOf(meta), Delivered(meta));
      if result.Failed? && kind.Term? { PublishFinalError(env); }
    }

    /** The handler under its time limit. */
    method HandleWithinBound(meta: Option<Metadata>, env: Env) returns (result: Outcome)
      modifies this`log
      ensures result == Handle(meta, env).0 && log == old(log) + Handle(meta, env).1
    {
      if env.outlivesBound {
        if env.correlated { var ok := Publish(TimedOut, env.timeoutPublishOk); }
        return Done(Rejected);
      }
      result := HandleMessage(env, PolicyOf(meta, env));
    }
  }

  // ------------------------------------------------------------ at most one response

  /** One delivery of the request under study, with the table it finds. */
  datatype Attempt = Attempt(table: Table, meta: Option<Metadata>, env: Env)

  function KindAt(a: Attempt): AckKind {
    HandleOne(a.table, a.meta, a.env).1
  }

  function ResponsesAt(a: Attempt): seq<Response> {
    HandleOne(a.table, a.meta, a.env).2
  }

  /** A request is delivered again only after a Nak. */
  ghost predicate LifeOf(run: seq<Attempt>) {
    forall k :: 0 <= k < |run| - 1 ==> KindAt(run[k]).Nak?
  }

  function AllResponses(run: seq<Attempt>): seq<Response> {
    if run == [] then [] else AllResponses(run[..|run| - 1]) + ResponsesAt(run[|run| - 1])
  }

  /** One delivery answers at most once, never with a Nak, always with an Ack. */
  lemma {:induction false} OneDelivery(a: Attempt)
    ensures |ResponsesAt(a)| <= 1
    ensures KindAt(a).Nak? ==> ResponsesAt(a) == []
    ensures KindAt(a).Ack? ==> |ResponsesAt(a)| == 1
    ensures KindAt(a).Nak? ==> Delivered(a.meta) < CONSUMER_MAX_DELIVER
  {
  }

  lemma {:induction false} NoneBeforeTheLast(run: seq<Attempt>)
    requires forall k :: 0 <= k < |run| ==> KindAt(run[k]).Nak?
    ensures AllResponses(run) == []
  {
    if run != [] {
      NoneBeforeTheLast(run[..|run| - 1]);
      OneDelivery(run[|run| - 1]);
    }
  }

  /**
   Over its whole life, whatever the table holds and whether or not deliveries carry metadata,
   a request gets at most one response, on its last delivery; an Ack means exactly one; and a
   Nak always leaves a delivery to come.
   */
  lemma {:induction false} AtMostOneResponse(run: seq<Attempt>)
    requires LifeOf(run) && run != []
    ensures |AllResponses(run)| <= 1
    ensures AllResponses(run) == ResponsesAt(run[|run| - 1]) && AllResponses(run[..|run| - 1]) == []
    ensures KindAt(run[|run| - 1]).Ack? ==> |AllResponses(run)| == 1
    ensures forall k :: 0 <= k < |run| && KindAt(run[k]).Nak? ==> Delivered(run[k].meta) <= CONSUMER_MAX_DELIVER - 1
  {
    NoneBeforeTheLast(run[..|run| - 1]);
    OneDelivery(run[|run| - 1]);
    forall k | 0 <= k < |run| && KindAt(run[k]).Nak?
      ensures Delivered(run[k].meta) <= CONSUMER_MAX_DELIVER - 1
    {
      OneDelivery(run[k]);
    }
  }

  // ------------------------------------------------------------ a bounded life

  /** A delivery of any request, with its metadata. */
  datatype Visit = Visit(meta: Metadata, env: Env)

  function AsDelivery(v: Visit): Delivery {
    Delivery(Some(v.meta.sequence), Handle(Some(v.meta), v.env).0, v.meta.delivered)
  }

  function Deliveries(visits: seq<Visit>): (ds: seq<Delivery>)
    ensures |ds| == |visits|
  {
    if visits == [] then [] else Deliveries(visits[..|visits| - 1]) + [AsDelivery(visits[|visits| - 1])]
  }

  lemma {:induction false} DeliveryAt(visits: seq<Visit>, k: nat)
    requires k < |visits|
    ensures Deliveries(visits)[k] == AsDelivery(visits[k])
  {
    var n := |visits| - 1;
    if k < n { DeliveryAt(visits[..n], k); }
  }

  function Settled(before: seq<Visit>, v: Visit): AckKind {
    KindOf(Deliveries(before), AsDelivery(v))
  }

  /** What became of request `s` so far; `ready` is the earliest age of its next delivery. */
  datatype Life = Life(deliveries: nat, busyNaks: nat, errorNaks: nat, ready: nat, over: bool)

  function LifeAfter(visits: seq<Visit>, s: Sequence): Life {
    if visits == [] then Life(0, 0, 0, 0, false)
    else
      var pre, v := visits[..|visits| - 1], visits[|visits| - 1];
      var life := LifeAfter(pre, s);
      if v.meta.sequence != s then life
      else NextLife(life, Settled(pre, v), AsDelivery(v).result.Failed?, v.meta.age)
  }

  /** One more delivery, settled at some age. */
  function NextLife(life: Life, kind: AckKind, failed: bool, age: nat): Life {
    match kind
    case Nak(delay) =>
      Life(life.deliveries + 1, life.busyNaks + (if failed then 0 else 1),
           life.errorNaks + (if failed then 1 else 0), age + delay, false)
    case _ => life.(deliveries := life.deliveries + 1, over := true)
  }

  /**
   The server redelivers `s` only after a Nak and not before the delay it asked for, and counts
   its deliveries.
   */
  ghost predicate Honest(visits: seq<Visit>, s: Sequence) {
    forall n :: 0 <= n < |visits| && visits[n].meta.sequence == s ==>
      var life := LifeAfter(visits[..n], s);
      !life.over && visits[n].meta.delivered == life.deliveries + 1 && visits[n].meta.age >= life.ready
  }

  /** The first `n` busy delays, added up. */
  function BusySum(n: nat): nat {
    if n == 0 then 0 else BusySum(n - 1) + BusyDelay(n)
  }

  lemma {:induction false} BusySumValue(n: nat)
    ensures n >= 4 ==> BusySum(n) == 75 * SECOND + (n - 4) * 60 * SECOND
  {
    BusyDelaySchedule(n);
    if n > 4 {
      BusySumValue(n - 1);
    } else if n == 4 {
      BusyDelaySchedule(1);
      BusyDelaySchedule(2);
      BusyDelaySchedule(3);
      assert BusySum(0) == 0 && BusySum(1) == 5 * SECOND && BusySum(2) == 15 * SECOND && BusySum(3) == 35 * SECOND;
    }
  }

  lemma {:induction false} BusyDelayGrows(a: int, b: int)
    requires a <= b
    ensures BusyDelay(a) <= BusyDelay(b)
  {
    BusyDelaySchedule(a);
    BusyDelaySchedule(b);
  }

  /** The budget pays for at most 33 busy delays. */
  lemma {:induction false} BudgetPaysFor33(n: nat)
    requires BusySum(n) <= MAX_BUSY_BUDGET
    ensures n <= 33
  {
    BusySumValue(n);
  }

  /** A busy outcome means the policy was to redeliver. */
  lemma {:induction false} BusyMeansRedeliver(v: Visit)
    requires AsDelivery(v).result == Done(Busy)
    ensures v.meta.age + BusyDelay(v.meta.delivered) <= MAX_BUSY_BUDGET
  {
    BusyBudgetIsFinite(v.env.stepTimeout);
  }

  /** What is known of an unfinished request. */
  ghost predicate LifeInv(visits: seq<Visit>, s: Sequence) {
    var life := LifeAfter(visits, s);
    && BusySum(life.busyNaks) <= Min(life.ready, MAX_BUSY_BUDGET)
    && life.errorNaks < MAX_DELIVER
    && life.deliveries == life.busyNaks + life.errorNaks + (if life.over then 1 else 0)
    && (!life.over ==> ErrorsOf(Deliveries(visits), s) == life.errorNaks)
  }

  lemma {:induction false} LifeStep(pre: seq<Visit>, v: Visit, s: Sequence)
    requires LifeInv(pre, s) && v.meta.sequence == s && NeverEvicted(Deliveries(pre + [v]), s)
    requires var life := LifeAfter(pre, s);
             !life.over && v.meta.delivered == life.deliveries + 1 && v.meta.age >= life.ready
    ensures LifeInv(pre + [v], s)
  {
    var visits, life, d := pre + [v], LifeAfter(pre, s), AsDelivery(v);
    assert visits[..|pre|] == pre;
    assert Deliveries(visits)[..|pre|] == Deliveries(pre);
    ErrorBudget(Deliveries(pre), d, s);
    if d.result == Done(Busy) {
      BusyMeansRedeliver(v);
      BusyDelayGrows(life.busyNaks + 1, v.meta.delivered);
    } else if d.result.Failed? {
      BudgetPaysFor33(life.busyNaks);
    }
  }

  lemma {:induction false} LifeHolds(visits: seq<Visit>, s: Sequence)
    requires Honest(visits, s) && NeverEvicted(Deliveries(visits), s)
    ensures LifeInv(visits, s)
  {
    if visits != [] {
      var n := |visits| - 1;
      var pre, v := visits[..n], visits[n];
      assert visits == pre + [v];
      assert Deliveries(visits)[..n] == Deliveries(pre);
      EvictedPrefix(Deliveries(visits), s);
      assert Honest(pre, s) by {
        forall k | 0 <= k < n ensures pre[..k] == visits[..k] && pre[k] == visits[k] {}
      }
      LifeHolds(pre, s);
      if v.meta.sequence == s { LifeStep(pre, v, s); }
    }
  }

  /**
   For any interleaving with other requests and any agent timeouts: a request is Nak'd as busy at
   most 33 times and for errors at most 5 times, so it is settled by its 39th delivery; the
   delivery backstop is never what ends it.
   */
  lemma {:induction false} BoundedLife(visits: seq<Visit>, s: Sequence)
    requires Honest(visits, s) && NeverEvicted(Deliveries(visits), s)
    ensures var life := LifeAfter(visits, s);
            && life.busyNaks <= 33 && life.errorNaks <= 5 && life.deliveries <= 39
            && (life.deliveries == 39 ==> life.over)
    ensures forall n :: 0 <= n < |visits| && visits[n].meta.sequence == s ==>
              visits[n].meta.delivered < CONSUMER_MAX_DELIVER - 1
  {
    LifeHolds(visits, s);
    BudgetPaysFor33(LifeAfter(visits, s).busyNaks);
    forall n | 0 <= n < |visits| && visits[n].meta.sequence == s
      ensures visits[n].meta.delivered < CONSUMER_MAX_DELIVER - 1
    {
      HonestPrefix(visits, s, n);
      LifeHolds(visits[..n], s);
      BudgetPaysFor33(LifeAfter(visits[..n], s).busyNaks);
    }
  }

  // ------------------------------------------------------------ answered in time

  /** The delivery as an attempt at the request, with the table the deliveries before it left. */
  function AttemptOf(before: seq<Visit>, v: Visit): Attempt {
    Attempt(TableAfter(Deliveries(before)), Some(v.meta), v.env)
  }

  /** All responses request `s` got. */
  function ResponsesTo(visits: seq<Visit>, s: Sequence): seq<Response> {
    if visits == [] then []
    else
      var pre, v := visits[..|visits| - 1], visits[|visits| - 1];
      ResponsesTo(pre, s) + if v.meta.sequence == s then ResponsesAt(AttemptOf(pre, v)) else []
  }

  /** Somebody waits for the answer, and the answers of last resort can be published. */
  predicate Answerable(env: Env) {
    env.correlated && env.timeoutPublishOk && (env.finalPublishOk.0 || env.finalPublishOk.1)
  }

  /** A delivery that settles an answerable request for good answers it. */
  lemma {:induction false} SettledIsAnswered(a: Attempt)
    requires Answerable(a.env) && !KindAt(a).Nak?
    ensures |ResponsesAt(a)| == 1
  {
  }

  /** The handler finished in time on a request it could read. */
  predicate Ran(env: Env) {
    !env.outlivesBound && env.wellFormed
  }

  /** The session was busy, and it is too late to put the request off. */
  predicate TooLateToWait(a: Attempt) {
    a.env.dispatched.SessionBusy? && PolicyOf(a.meta, a.env) == Respond
  }

  /** The answer could not be published, and that was the last try. */
  predicate LastTryFailed(a: Attempt) {
    && !a.env.outlivesBound && !a.env.publishOk && KindAt(a) == Term
    && if a.env.wellFormed then a.env.dispatched.SessionBusy? ==> TooLateToWait(a) else a.env.correlated
  }

  /** Which response a delivery publishes, and exactly when. */
  lemma {:induction false} WhichResponse(a: Attempt)
    ensures var env, r := a.env, ResponsesAt(a);
            && (r == [Reply] <==> Ran(env) && env.dispatched == Answered && env.publishOk)
            && (r == [BusySession] <==> Ran(env) && TooLateToWait(a) && env.publishOk)
            && (r == [Invalid] <==> !env.outlivesBound && !env.wellFormed && env.correlated && env.publishOk)
            && (r == [TimedOut] <==> env.outlivesBound && env.correlated && env.timeoutPublishOk)
            && (r == [InvokeFailed] <==>
                  || (Ran(env) && env.dispatched == Broken && env.publishOk)
                  || (LastTryFailed(a) && env.correlated && (env.finalPublishOk.0 || env.finalPublishOk.1)))
  {
    var r := Handle(a.meta, a.env).1;
    assert r + [] == r && [] + FinalError(a.env) == FinalError(a.env);
  }

  /** A delivery without metadata is its request's last: it is never put off, and a busy session says so. */
  lemma {:induction false} WithoutMetadata(a: Attempt)
    requires a.meta.None?
    ensures !KindAt(a).Nak?
    ensures a.env.dispatched.SessionBusy? && Ran(a.env) && a.env.publishOk ==> ResponsesAt(a) == [BusySession]
    ensures Answerable(a.env) ==> |ResponsesAt(a)| == 1
  {
    if Answerable(a.env) { SettledIsAnswered(a); }
  }

  /** How a delivery is settled, and exactly when, apart from the count of errors. */
  lemma {:induction false} HowSettled(a: Attempt)
    ensures var env := a.env;
            && (KindAt(a) == Ack <==> Ran(env) && env.publishOk && (env.dispatched == SessionBusy ==> TooLateToWait(a)))
            && (env.outlivesBound ==> KindAt(a) == Term)
            && (!env.outlivesBound && !env.wellFormed && (env.publishOk || !env.correlated) ==> KindAt(a) == Term)
            && (Ran(env) && env.dispatched == SessionBusy && !TooLateToWait(a) ==> KindAt(a) == Nak(BusyDelay(Delivered(a.meta))))
            && (KindAt(a).Nak? && !(Ran(env) && env.dispatched == SessionBusy && !TooLateToWait(a)) ==> KindAt(a) == Nak(2_000))
  {
  }

  /**
   An answerable request gets exactly one response, when it is settled for good, which is by its
   39th delivery; and no request ever gets two.
   */
  lemma {:induction false} AnsweredExactlyOnce(visits: seq<Visit>, s: Sequence)
    requires Honest(visits, s) && NeverEvicted(Deliveries(visits), s)
    ensures var life := LifeAfter(visits, s);
            && |ResponsesTo(visits, s)| <= (if life.over then 1 else 0)
            && (life.deliveries >= 39 ==> life.over)
            && ((forall n :: 0 <= n < |visits| && visits[n].meta.sequence == s ==> Answerable(visits[n].env)) ==>
                  |ResponsesTo(visits, s)| == if life.over then 1 else 0)
  {
    BoundedLife(visits, s);
    if visits != [] {
      var n := |visits| - 1;
      var pre, v := visits[..n], visits[n];
      HonestPrefix(visits, s, n);
      AnsweredExactlyOnce(pre, s);
      assert forall k :: 0 <= k < n ==> pre[k] == visits[k];
      if v.meta.sequence == s { AnsweredStep(pre, v, s); }
    }
  }

  /** What a request got is what its last delivery published: which response that is, `WhichResponse` says. */
  lemma {:induction false} AnswerIsTheLast(visits: seq<Visit>, s: Sequence, n: nat)
    requires Honest(visits, s) && NeverEvicted(Deliveries(visits), s)
    requires n < |visits| && visits[n].meta.sequence == s
    requires forall k :: n < k < |visits| ==> visits[k].meta.sequence != s
    ensures ResponsesTo(visits, s) == ResponsesAt(AttemptOf(visits[..n], visits[n]))
  {
    var last := |visits| - 1;
    HonestPrefix(visits, s, last);
    if n == last {
      AnsweredExactlyOnce(visits[..last], s);
    } else {
      assert visits[..last][..n] == visits[..n];
      AnswerIsTheLast(visits[..last], s, n);
    }
  }

  /**
   The caller gets the agent's reply exactly when the request's last delivery could be read, ran in
   time, was answered and could be published; and a busy, invalid or late request is told so.
   */
  lemma {:induction false} ReplyReachesTheCaller(visits: seq<Visit>, s: Sequence, n: nat)
    requires Honest(visits, s) && NeverEvicted(Deliveries(visits), s)
    requires n < |visits| && visits[n].meta.sequence == s
    requires forall k :: n < k < |visits| ==> visits[k].meta.sequence != s
    ensures var env, a, r := visits[n].env, AttemptOf(visits[..n], visits[n]), ResponsesTo(visits, s);
            && (r == [Reply] <==> Ran(env) && env.dispatched == Answered && env.publishOk)
            && (r == [BusySession] <==> Ran(env) && TooLateToWait(a) && env.publishOk)
            && (r == [Invalid] <==> !env.outlivesBound && !env.wellFormed && env.correlated && env.publishOk)
            && (r == [TimedOut] <==> env.outlivesBound && env.correlated && env.timeoutPublishOk)
  {
    AnswerIsTheLast(visits, s, n);
    WhichResponse(AttemptOf(visits[..n], visits[n]));
  }

  lemma {:induction false} AnsweredStep(pre: seq<Visit>, v: Visit, s: Sequence)
    requires v.meta.sequence == s && !LifeAfter(pre, s).over
    ensures (pre + [v])[..|pre|] == pre
    ensures var r := ResponsesAt(AttemptOf(pre, v));
            && |r| <= (if LifeAfter(pre + [v], s).over then 1 else 0)
            && (Answerable(v.env) ==> |r| == if LifeAfter(pre + [v], s).over then 1 else 0)
  {
    assert (pre + [v])[..|pre|] == pre;
    var a := AttemptOf(pre, v);
    assert KindAt(a) == Settled(pre, v);
    OneDelivery(a);
    if Answerable(v.env) && !KindAt(a).Nak? { SettledIsAnswered(a); }
  }

  lemma {:induction false} HonestPrefix(visits: seq<Visit>, s: Sequence, n: nat)
    requires n <= |visits| && Honest(visits, s) && NeverEvicted(Deliveries(visits), s)
    ensures Honest(visits[..n], s) && NeverEvicted(Deliveries(visits[..n]), s)
    decreases |visits| - n
  {
    if n == |visits| {
      assert visits[..n] == visits;
    } else {
      HonestPrefix(visits, s, n + 1);
      var longer := visits[..n + 1];
      assert longer[..n] == visits[..n];
      assert Deliveries(longer)[..n] == Deliveries(visits[..n]);
      EvictedPrefix(Deliveries(longer), s);
      forall k | 0 <= k < n ensures visits[..n][..k] == visits[..k] && visits[..n][k] == visits[k] {}
    }
  }

  // ------------------------------------------------------------ the bound is attained

  /** The age after `n` deliveries that were busy 33 times and then failed. */
  function WorstAge(n: nat): nat {
    if n <= 33 then BusySum(n) else WorstAge(n - 1) + ERROR_REDELIVER_DELAY
  }

  function WorstVisit(s: Sequence, n: nat): Visit
    requires n > 0
  {
    Visit(Metadata(s, n, WorstAge(n - 1)),
          Env(true, true, if n <= 33 then SessionBusy else Answered, Some(HANDLE_TIMEOUT_CEILING),
              false, n > 38, false, (false, false)))
  }

  /** Busy 33 times as early as allowed, then failing five times, then answered. */
  function WorstRun(s: Sequence, n: nat): seq<Visit> {
    if n == 0 then [] else WorstRun(s, n - 1) + [WorstVisit(s, n)]
  }

  lemma {:induction false} AloneNeverEvicted(ds: seq<Delivery>, s: Sequence)
    requires forall k :: 0 <= k < |ds| ==> ds[k].sequence == Some(s)
    ensures forall k :: 0 <= k < |OpsOf(ds)| ==> OpsOf(ds)[k].s == s
    ensures NeverEvicted(ds, s)
  {
    if ds != [] { AloneNeverEvicted(ds[..|ds| - 1], s); }
  }

  lemma {:induction false} WorstRunAlone(s: Sequence, n: nat)
    ensures |WorstRun(s, n)| == n
    ensures forall k :: 0 <= k < n ==> Deliveries(WorstRun(s, n))[k].sequence == Some(s)
    ensures NeverEvicted(Deliveries(WorstRun(s, n)), s)
  {
    WorstRunOnly(s, n);
    forall k | 0 <= k < n ensures Deliveries(WorstRun(s, n))[k].sequence == Some(s) {
      DeliveryAt(WorstRun(s, n), k);
    }
    AloneNeverEvicted(Deliveries(WorstRun(s, n)), s);
  }

  lemma {:induction false} WorstRunOnly(s: Sequence, n: nat)
    ensures |WorstRun(s, n)| == n
    ensures forall k :: 0 <= k < n ==> WorstRun(s, n)[k].meta.sequence == s
  {
    if n > 0 { WorstRunOnly(s, n - 1); }
  }

  /** The settlement of the `n`-th delivery of the worst run. */
  lemma {:induction false} WorstSettled(s: Sequence, n: nat)
    requires 0 < n <= 39 && ErrorsOf(Deliveries(WorstRun(s, n - 1)), s) == Max(n - 34, 0)
    ensures Settled(WorstRun(s, n - 1), WorstVisit(s, n)) == WorstKind(n)
  {
    WorstResult(s, n);
    WorstRunAlone(s, n);
    SettledAsWorst(WorstRun(s, n - 1), WorstVisit(s, n), s, n);
  }

  function WorstOutcome(n: nat): Outcome {
    if n <= 33 then Done(Busy) else if n <= 38 then Failed else Done(Handled)
  }

  lemma {:induction false} SettledAsWorst(pre: seq<Visit>, v: Visit, s: Sequence, n: nat)
    requires v.meta.sequence == s && v.meta.delivered == n <= 39 && AsDelivery(v).result == WorstOutcome(n)
    requires NeverEvicted(Deliveries(pre + [v]), s) && ErrorsOf(Deliveries(pre), s) == Max(n - 34, 0)
    ensures Settled(pre, v) == WorstKind(n)
  {
    if 33 < n <= 38 { FailedSettled(pre, v, s); }
  }

  lemma {:induction false} FailedSettled(pre: seq<Visit>, v: Visit, s: Sequence)
    requires v.meta.sequence == s && AsDelivery(v).result.Failed? && NeverEvicted(Deliveries(pre + [v]), s)
    requires ErrorsOf(Deliveries(pre), s) + 1 < MAX_DELIVER && v.meta.delivered < CONSUMER_MAX_DELIVER
    ensures Settled(pre, v) == Nak(ERROR_REDELIVER_DELAY)
  {
    ErrorBudget(Deliveries(pre), AsDelivery(v), s);
  }

  lemma {:induction false} WorstResult(s: Sequence, n: nat)
    requires 0 < n <= 39
    ensures AsDelivery(WorstVisit(s, n)).result == WorstOutcome(n)
  {
    if n <= 33 {
      BusySumValue(n);
      BusySumGrows(n, 33);
      BusySumValue(33);
    }
  }

  lemma {:induction false} WorstErrors(s: Sequence, n: nat)
    requires 0 < n < 39 && ErrorsOf(Deliveries(WorstRun(s, n - 1)), s) == Max(n - 34, 0)
    ensures ErrorsOf(Deliveries(WorstRun(s, n)), s) == Max(n - 33, 0)
  {
    WorstResult(s, n);
  }

  lemma {:induction false} BusySumGrows(a: nat, b: nat)
    requires a <= b
    ensures BusySum(a) <= BusySum(b)
    decreases b
  {
    if a < b { BusySumGrows(a, b - 1); }
  }

  lemma {:induction false} HonestPush(pre: seq<Visit>, v: Visit, s: Sequence)
    requires Honest(pre, s)
    requires var life := LifeAfter(pre, s);
             !life.over && v.meta.delivered == life.deliveries + 1 && v.meta.age >= life.ready
    ensures Honest(pre + [v], s)
  {
    var visits := pre + [v];
    forall n | 0 <= n < |visits| && visits[n].meta.sequence == s
      ensures var life := LifeAfter(visits[..n], s);
              !life.over && visits[n].meta.delivered == life.deliveries + 1 && visits[n].meta.age >= life.ready
    {
      if n < |pre| { assert visits[..n] == pre[..n] && visits[n] == pre[n]; } else { assert visits[..n] == pre; }
    }
  }

  function WorstLife(n: nat): Life {
    Life(n, Min(n, 33), Clamp(n - 33, 0, 5), WorstAge(Min(n, 38)), n == 39)
  }

  lemma {:induction false} WorstStep(s: Sequence, n: nat)
    requires 0 < n <= 39 && ErrorsOf(Deliveries(WorstRun(s, n - 1)), s) == Max(n - 34, 0)
    requires LifeAfter(WorstRun(s, n - 1), s) == WorstLife(n - 1)
    ensures LifeAfter(WorstRun(s, n), s) == WorstLife(n)
  {
    WorstSettled(s, n);
    WorstResult(s, n);
    WorstLifeNext(n);
  }

  /** How the `n`-th delivery of the worst run is settled. */
  function WorstKind(n: nat): AckKind {
    if n <= 33 then Nak(BusyDelay(n)) else if n <= 38 then Nak(ERROR_REDELIVER_DELAY) else Ack
  }

  lemma {:induction false} WorstLifeNext(n: nat)
    requires 0 < n <= 39
    ensures NextLife(WorstLife(n - 1), WorstKind(n), 33 < n <= 38, WorstAge(n - 1)) == WorstLife(n)
  {
  }

  /** The bounds are exact: one request can be Nak'd 33 times as busy and five times for errors. */
  lemma {:induction false} WorstCase(s: Sequence, n: nat)
    requires n <= 39
    ensures Honest(WorstRun(s, n), s) && NeverEvicted(Deliveries(WorstRun(s, n)), s)
    ensures LifeAfter(WorstRun(s, n), s) == WorstLife(n)
    ensures n < 39 ==> ErrorsOf(Deliveries(WorstRun(s, n)), s) == Max(n - 33, 0)
  {
    WorstRunAlone(s, n);
    if n > 0 {
      WorstCase(s, n - 1);
      if n < 39 { WorstErrors(s, n); }
      WorstSettled(s, n);
      HonestPush(WorstRun(s, n - 1), WorstVisit(s, n), s);
      WorstStep(s, n);
    }
  }
}
