/**
 Turning the attachments of one message into images and text, under a byte budget, two character
 caps and a text guard. Files are fetched concurrently but consumed in order; what a fetch sees
 of the budget when it starts is a parameter (`Sched`). The reader, lossy UTF-8 decoding, the
 character classes, the guard and the wording are parameters too.
 */
module Materialize {
  import opened Common
  import opened AttachmentRefs
  import opened Utf8Text
  import opened DocumentText
  import opened Blocks
  import Guardrails

  const DOC_CHAR_CAP: nat := 15_000
  const DOC_TOTAL_CAP: nat := 30_000
  const TURN_BYTE_BUDGET: nat := 20 * 1024 * 1024

  datatype Fetched = Fetched(mime: string, bytes: seq<Byte>)

  datatype ReadError = NotFound | Unauthorized | PurposeNotGranted | TooLarge | Unavailable(detail: string)

  type Reader = string -> Result<Fetched, ReadError>

  type TextGuard = string -> Guardrails.TextVerdict

  /** What one message is materialised with. */
  datatype World = World(read: Reader, lossy: seq<Byte> -> string, cls: CharClass, guard: Option<TextGuard>,
                         vision: bool, style: Style, nonce: string)

  /** The facts relied on: character classes, wording without newline or delimiter, a plain nonce. */
  ghost predicate WorldOk(w: World) {
    ClassOk(w.cls) && StyleOk(w.style) && Clean(w.nonce)
  }

  // ------------------------------------------------------------ plans

  datatype Plan = Fetch(id: string) | Skip(why: Why)

  /** A declared size that cannot fit after the earlier ones. */
  predicate DeclaredTooBig(declared: nat, size: Option<nat>) {
    size.Some? && declared + size.value > TURN_BYTE_BUDGET
  }

  /** Sum of the declared sizes of the images planned for fetching. */
  function Declared(vision: bool, refs: seq<Ref>): (d: nat)
    ensures d <= TURN_BYTE_BUDGET
  {
    if refs == [] then 0
    else
      var d, r := Declared(vision, refs[..|refs| - 1]), refs[|refs| - 1];
      if r.kind.Image? && vision && r.size.Some? && !DeclaredTooBig(d, r.size) then d + r.size.value else d
  }

  function PlanFor(vision: bool, r: Ref, declared: nat): Plan {
    if r.kind.Document? then if r.textRef.Some? then Fetch(r.textRef.value) else Skip(NoText)
    else if !vision then Skip(NoVision)
    else if DeclaredTooBig(declared, r.size) then Skip(OverBudget)
    else Fetch(r.id)
  }

  function PlanOf(vision: bool, used: seq<Ref>, k: nat): Plan
    requires k < |used|
  {
    PlanFor(vision, used[k], Declared(vision, used[..k]))
  }

  method PlanAll(vision: bool, used: seq<Ref>) returns (plans: seq<Plan>)
    ensures |plans| == |used|
    ensures forall k :: 0 <= k < |used| ==> plans[k] == PlanOf(vision, used, k)
  {
    plans := [];
    var declared := 0;
    for i := 0 to |used|
      invariant |plans| == i && declared == Declared(vision, used[..i])
      invariant forall k :: 0 <= k < i ==> plans[k] == PlanOf(vision, used, k)
    {
      var r := used[i];
      assert used[..i + 1][..i] == used[..i];
      plans := plans + [PlanFor(vision, r, declared)];
      if r.kind.Image? && vision && r.size.Some? && !DeclaredTooBig(declared, r.size) {
        declared := declared + r.size.value;
      }
    }
  }

  /** The declared size of an image that is planned for fetching; 0 of anything else. */
  function PlannedSize(vision: bool, used: seq<Ref>, k: nat): nat
    requires k < |used|
  {
    if used[k].kind.Image? && used[k].size.Some? && PlanOf(vision, used, k).Fetch? then used[k].size.value else 0
  }

  /** The declared sizes of the images among the first `k` files that are planned for fetching, added up. */
  function PlannedBefore(vision: bool, used: seq<Ref>, k: nat): nat
    requires k <= |used|
  {
    if k == 0 then 0 else PlannedBefore(vision, used, k - 1) + PlannedSize(vision, used, k - 1)
  }

  lemma {:induction false} DeclaredIsPlanned(vision: bool, used: seq<Ref>, k: nat)
    requires k <= |used|
    ensures Declared(vision, used[..k]) == PlannedBefore(vision, used, k)
  {
    if k > 0 {
      DeclaredIsPlanned(vision, used, k - 1);
      assert used[..k][..k - 1] == used[..k - 1];
    }
  }

  /**
   Each plan, exactly: a document is fetched by its text, an image by its id, unless it cannot be seen
   or its declared size, with those of the earlier images to be fetched, is over 20 MiB.
   */
  lemma {:induction false} PlannedExactly(vision: bool, used: seq<Ref>, k: nat)
    requires k < |used|
    ensures var r := used[k];
            PlanOf(vision, used, k) ==
              if r.kind == Document then (if r.textRef.Some? then Fetch(r.textRef.value) else Skip(NoText))
              else if !vision then Skip(NoVision)
              else if r.size.Some? && PlannedBefore(vision, used, k) + r.size.value > 20 * 1024 * 1024 then Skip(OverBudget)
              else Fetch(r.id)
  {
    DeclaredIsPlanned(vision, used, k);
  }

  /** The declared sizes of all images, added up. */
  function AllDeclared(used: seq<Ref>): nat {
    if used == [] then 0
    else
      var r := used[|used| - 1];
      AllDeclared(used[..|used| - 1]) + if r.kind == Image && r.size.Some? then r.size.value else 0
  }

  lemma {:induction false} PlannedWithinAll(vision: bool, used: seq<Ref>, k: nat)
    requires k < |used|
    ensures PlannedBefore(vision, used, k) + (if used[k].kind == Image && used[k].size.Some? then used[k].size.value else 0) <=
            AllDeclared(used)
  {
    AllDeclaredGrows(used, k + 1);
    PlannedWithin(vision, used, k);
    assert used[..k + 1][..k] == used[..k];
  }

  lemma {:induction false} PlannedWithin(vision: bool, used: seq<Ref>, k: nat)
    requires k <= |used|
    ensures PlannedBefore(vision, used, k) <= AllDeclared(used[..k])
  {
    if k > 0 {
      PlannedWithin(vision, used, k - 1);
      assert used[..k][..k - 1] == used[..k - 1];
    }
  }

  lemma {:induction false} AllDeclaredGrows(used: seq<Ref>, k: nat)
    requires k <= |used|
    ensures AllDeclared(used[..k]) <= AllDeclared(used)
    decreases |used| - k
  {
    if k < |used| {
      AllDeclaredGrows(used, k + 1);
      assert used[..k + 1][..k] == used[..k];
    } else {
      assert used[..k] == used;
    }
  }

  /** If all declared sizes fit, every image is fetched by a model that can see it. */
  lemma {:induction false} AllImagesAreFetched(used: seq<Ref>, k: nat)
    requires k < |used| && used[k].kind == Image && AllDeclared(used) <= 20 * 1024 * 1024
    ensures PlanOf(true, used, k) == Fetch(used[k].id)
  {
    PlannedExactly(true, used, k);
    PlannedWithinAll(true, used, k);
  }

  // ------------------------------------------------------------ one fetched file

  function CauseOf(e: ReadError): Cause {
    match e
    case NotFound => Missing
    case TooLarge => Oversized
    case _ => NotNow
  }

  function ImageItem(n: nat, got: Fetched, kept: nat): Item {
    if kept + |got.bytes| > TURN_BYTE_BUDGET then Note(n, Image, OverBudget)
    else if !("image/" <= got.mime) then Note(n, Image, NotAnImage)
    else Sent(n, got.mime, got.bytes)
  }

  predicate IsTextMime(mime: string) {
    mime == "text/plain" || mime == "text/markdown" || mime == "text/csv" || mime == "application/json"
  }

  datatype Guarded = Held | Shown(body: string, cut: bool)

  /** The text kept and passed by the guard; a rewrite goes through the same sanitising and caps. */
  function GuardedText(w: World, raw: string, cap: nat, bytes: nat): (g: Guarded)
    ensures g.Shown? ==> |g.body| <= cap && Utf8(g.body) <= bytes && OPEN !in g.body && CLOSE !in g.body
  {
    var body, cut := KeptText(w.cls, raw, cap, bytes), IsCut(w.cls, raw, cap, bytes);
    if body == "" || w.guard.None? then Shown(body, cut)
    else
      match w.guard.value(body)
      case Withhold => Held
      case Allow(text) =>
        if text == body then Shown(body, cut)
        else Shown(KeptText(w.cls, text, cap, bytes), cut || IsCut(w.cls, text, cap, bytes))
  }

  function Cap(charsLeft: nat): (c: nat)
    ensures c <= DOC_CHAR_CAP && c <= charsLeft
  {
    Min(DOC_CHAR_CAP, charsLeft)
  }

  function DocItem(w: World, n: nat, r: Ref, got: Fetched, charsLeft: nat, bytesLeft: nat): (item: Item)
    ensures KeptChars(item) <= Cap(charsLeft) && KeptBytes(item) <= bytesLeft && item.n == n && !item.Sent?
  {
    if !IsTextMime(got.mime) then Note(n, Document, NoText)
    else if charsLeft == 0 then Note(n, Document, TextLimit)
    else
      match GuardedText(w, w.lossy(got.bytes), Cap(charsLeft), bytesLeft)
      case Held => Note(n, Document, Withheld)
      case Shown(body, cut) =>
        if body == "" then Note(n, Document, if cut then OverBudget else NoText)
        else Block(n, SanitizeName(w.cls, r.name), body, cut)
  }

  /** Bytes an item keeps: image bytes, or UTF-8 bytes of document text. */
  function KeptBytes(item: Item): nat {
    match item
    case Sent(_, _, bytes) => |bytes|
    case Block(_, _, body, _) => Utf8(body)
    case Note(_, _, _) => 0
  }

  function KeptChars(item: Item): nat {
    if item.Block? then |item.body| else 0
  }

  // ------------------------------------------------------------ the whole message

  function BytesLeft(kept: nat): nat {
    if kept <= TURN_BYTE_BUDGET then TURN_BYTE_BUDGET - kept else 0
  }

  /** What becomes of the `k`-th file; `early` is whether its fetch found the budget spent. */
  function ItemFor(w: World, used: seq<Ref>, k: nat, early: bool, kept: nat, charsLeft: nat): (item: Item)
    requires k < |used|
    ensures KeptChars(item) <= Cap(charsLeft) && item.n == k + 1
  {
    var r := used[k];
    match PlanOf(w.vision, used, k)
    case Skip(why) => Note(k + 1, r.kind, why)
    case Fetch(id) =>
      if early then Note(k + 1, r.kind, OverBudget)
      else
        match w.read(id)
        case Err(e) => Note(k + 1, r.kind, LoadFailed(CauseOf(e)))
        case Ok(got) =>
          if r.kind.Image? then ImageItem(k + 1, got, kept)
          else DocItem(w, k + 1, r, got, charsLeft, BytesLeft(kept))
  }

  /** What becomes of each file, given whether it starts late and the two counters. */
  type Consumer = (nat, bool, nat, nat) -> Item

  function ConsumerOf(w: World, used: seq<Ref>): Consumer {
    (k: nat, early: bool, kept: nat, charsLeft: nat) =>
      if k < |used| then ItemFor(w, used, k, early, kept, charsLeft) else Note(k + 1, Document, TooMany)
  }

  datatype Progress = Progress(items: seq<Item>, kept: nat, charsLeft: nat)

  function With(p: Progress, item: Item): Progress {
    Progress(p.items + [item], p.kept + KeptBytes(item), Max(0, p.charsLeft - KeptChars(item)))
  }

  /** Whether fetches check the budget when they start, and after how many consumed files each one starts. */
  datatype Sched = NoCheck | Starts(at: nat -> nat)

  /** A fetch starts before its own file is consumed. */
  function Start(at: nat -> nat, k: nat): (j: nat)
    ensures j <= k
  {
    Min(at(k), k)
  }

  /** The first `i` files consumed; `NoCheck` is a run without the early check. */
  function After(consume: Consumer, sched: Sched, i: nat): (p: Progress)
    ensures |p.items| == i
    decreases i, 0
  {
    if i == 0 then Progress([], 0, DOC_TOTAL_CAP)
    else
      var p := After(consume, sched, i - 1);
      With(p, consume(i - 1, Early(consume, sched, i - 1), p.kept, p.charsLeft))
  }

  /** The `k`-th fetch finds the budget spent. */
  predicate Early(consume: Consumer, sched: Sched, k: nat)
    decreases k, 1
  {
    sched.Starts? && After(consume, sched, Start(sched.at, k)).kept >= TURN_BYTE_BUDGET
  }

  /** One note for each file past the fifth. */
  function Excess(refs: seq<Ref>, n: nat): (items: seq<Item>)
    requires n <= |refs|
    ensures |items| == |refs| - n
    ensures forall i :: 0 <= i < |items| ==> items[i] == Note(n + i + 1, refs[n + i].kind, TooMany)
    decreases |refs| - n
  {
    if n == |refs| then [] else [Note(n + 1, refs[n].kind, TooMany)] + Excess(refs, n + 1)
  }

  function Used(refs: seq<Ref>): seq<Ref> {
    refs[..Min(|refs|, MAX_ATTACHMENTS)]
  }

  function Items(w: World, refs: seq<Ref>, sched: Sched): (items: seq<Item>)
    ensures |items| == |refs|
  {
    var used := Used(refs);
    After(ConsumerOf(w, used), sched, |used|).items + Excess(refs, |used|)
  }

  /** An item stays what it was when its file was consumed. */
  lemma {:induction false} ItemAt(consume: Consumer, sched: Sched, i: nat, k: nat)
    requires k < i
    ensures var p := After(consume, sched, k);
            After(consume, sched, i).items[k] == consume(k, Early(consume, sched, k), p.kept, p.charsLeft)
    decreases i
  {
    if k < i - 1 { ItemAt(consume, sched, i - 1, k); }
  }

  // ------------------------------------------------------------ budgets

  function TotalBytes(items: seq<Item>): nat {
    if items == [] then 0 else TotalBytes(items[..|items| - 1]) + KeptBytes(items[|items| - 1])
  }

  function TotalChars(items: seq<Item>): nat {
    if items == [] then 0 else TotalChars(items[..|items| - 1]) + KeptChars(items[|items| - 1])
  }

  ghost predicate InBudget(p: Progress) {
    && p.kept == TotalBytes(p.items) <= TURN_BYTE_BUDGET
    && p.charsLeft + TotalChars(p.items) == DOC_TOTAL_CAP
    && forall k :: 0 <= k < |p.items| ==> KeptChars(p.items[k]) <= DOC_CHAR_CAP
  }

  /** No file takes more than what is left. */
  ghost predicate Fitting(consume: Consumer) {
    forall k: nat, early: bool, kept: nat, charsLeft: nat ::
      && KeptChars(consume(k, early, kept, charsLeft)) <= Cap(charsLeft)
      && (kept <= TURN_BYTE_BUDGET ==> kept + KeptBytes(consume(k, early, kept, charsLeft)) <= TURN_BYTE_BUDGET)
  }

  lemma {:induction false} ConsumerFits(w: World, used: seq<Ref>)
    ensures Fitting(ConsumerOf(w, used))
  {
  }

  lemma {:induction false} AfterInBudget(consume: Consumer, sched: Sched, i: nat)
    requires Fitting(consume)
    ensures InBudget(After(consume, sched, i))
  {
    if i > 0 {
      AfterInBudget(consume, sched, i - 1);
      var p := After(consume, sched, i - 1);
      StaysInBudget(p, consume(i - 1, Early(consume, sched, i - 1), p.kept, p.charsLeft));
    }
  }

  lemma {:induction false} StaysInBudget(p: Progress, item: Item)
    requires InBudget(p) && KeptChars(item) <= Cap(p.charsLeft) && p.kept + KeptBytes(item) <= TURN_BYTE_BUDGET
    ensures InBudget(With(p, item))
  {
    assert (p.items + [item])[..|p.items|] == p.items;
  }

  /**
   Whatever sizes were declared, whatever the guard rewrote and whenever the fetches started: the
   byte counter is exactly what is kept and within the budget, every document keeps at most
   15,000 characters and all together at most 30,000.
   */
  lemma {:induction false} BudgetsHold(w: World, used: seq<Ref>, sched: Sched, i: nat)
    ensures var p := After(ConsumerOf(w, used), sched, i);
            && p.kept == TotalBytes(p.items) <= 20 * 1024 * 1024
            && p.charsLeft + TotalChars(p.items) == 30_000
            && forall k :: 0 <= k < |p.items| ==> KeptChars(p.items[k]) <= 15_000
  {
    ConsumerFits(w, used);
    AfterInBudget(ConsumerOf(w, used), sched, i);
  }

  /** The counter a fetch sees is never ahead of the one its file is consumed with. */
  lemma {:induction false} KeptGrows(consume: Consumer, sched: Sched, j: nat, i: nat)
    requires j <= i
    ensures After(consume, sched, j).kept <= After(consume, sched, i).kept
    decreases i
  {
    if j < i { KeptGrows(consume, sched, j, i - 1); }
  }

  // ------------------------------------------------------------ schedule independence

  predicate EmptyImage(item: Item) {
    item.Sent? && item.bytes == []
  }

  /** Once the budget is spent there is little left to lose by not fetching. */
  ghost predicate Spendable(consume: Consumer) {
    && (forall k: nat, kept: nat, charsLeft: nat :: consume(k, true, kept, charsLeft).Note?)
    && (forall k: nat, charsLeft: nat :: var item := consume(k, false, TURN_BYTE_BUDGET, charsLeft); item.Note? || EmptyImage(item))
  }

  /** With the budget spent, a fetched file gives a note, unless it is an empty image. */
  lemma {:induction false} ConsumerIsSpendable(w: World, used: seq<Ref>)
    ensures Spendable(ConsumerOf(w, used))
  {
    forall k: nat, charsLeft: nat | k < |used|
      ensures var item := ItemFor(w, used, k, false, TURN_BYTE_BUDGET, charsLeft); item.Note? || EmptyImage(item)
    {
      SpentGivesNote(w, used, k, charsLeft);
    }
  }

  lemma {:induction false} SpentGivesNote(w: World, used: seq<Ref>, k: nat, charsLeft: nat)
    requires k < |used|
    ensures var item := ItemFor(w, used, k, false, TURN_BYTE_BUDGET, charsLeft); item.Note? || EmptyImage(item)
  {
  }

  /** The same file in a run with the early check (`a`) and in one without (`b`). */
  ghost predicate Agree(a: Item, b: Item, early: bool) {
    if early && EmptyImage(b) then a.Note? else a == b || (a.Note? && b.Note?)
  }

  ghost predicate SameCounters(consume: Consumer, at: nat -> nat, i: nat) {
    var a, b := After(consume, Starts(at), i), After(consume, NoCheck, i);
    a.kept == b.kept && a.charsLeft == b.charsLeft
  }

  lemma {:induction false} StepAgrees(consume: Consumer, at: nat -> nat, k: nat)
    requires Fitting(consume) && Spendable(consume)
    ensures var p, early := After(consume, Starts(at), k), Early(consume, Starts(at), k);
            var a, b := consume(k, early, p.kept, p.charsLeft), consume(k, false, p.kept, p.charsLeft);
            Agree(a, b, early) && KeptBytes(a) == KeptBytes(b) && KeptChars(a) == KeptChars(b)
  {
    if Early(consume, Starts(at), k) {
      EarlyIsSpent(consume, at, k);
    }
  }

  /** A fetch that finds the budget spent is consumed with the budget exactly spent. */
  lemma {:induction false} EarlyIsSpent(consume: Consumer, at: nat -> nat, k: nat)
    requires Fitting(consume) && Early(consume, Starts(at), k)
    ensures After(consume, Starts(at), k).kept == TURN_BYTE_BUDGET
  {
    KeptGrows(consume, Starts(at), Start(at, k), k);
    AfterInBudget(consume, Starts(at), k);
  }

  lemma {:induction false} CountersAgree(consume: Consumer, at: nat -> nat, i: nat)
    requires Fitting(consume) && Spendable(consume)
    ensures SameCounters(consume, at, i)
  {
    if i > 0 {
      CountersAgree(consume, at, i - 1);
      NextCounters(consume, at, i - 1);
    }
  }

  lemma {:induction false} NextCounters(consume: Consumer, at: nat -> nat, k: nat)
    requires Fitting(consume) && Spendable(consume) && SameCounters(consume, at, k)
    ensures SameCounters(consume, at, k + 1)
  {
    var p, q := After(consume, Starts(at), k), After(consume, NoCheck, k);
    var a := consume(k, Early(consume, Starts(at), k), p.kept, p.charsLeft);
    var b := consume(k, false, q.kept, q.charsLeft);
    StepAgrees(consume, at, k);
    assert After(consume, Starts(at), k + 1) == With(p, a) && After(consume, NoCheck, k + 1) == With(q, b);
  }

  lemma {:induction false} ItemsAgree(consume: Consumer, at: nat -> nat, i: nat, k: nat)
    requires Fitting(consume) && Spendable(consume) && k < i
    ensures Agree(After(consume, Starts(at), i).items[k], After(consume, NoCheck, i).items[k], Early(consume, Starts(at), k))
  {
    ItemAt(consume, Starts(at), i, k);
    ItemAt(consume, NoCheck, i, k);
    CountersAgree(consume, at, k);
    StepAgrees(consume, at, k);
  }

  /**
   Whatever the fetches see of the budget, each file ends as in a run without the early check, up
   to the wording of a note. The exact exception: an empty image, when its fetch finds the budget
   spent.
   */
  lemma {:induction false} ScheduleIndependent(w: World, used: seq<Ref>, at: nat -> nat, i: nat)
    ensures var c := ConsumerOf(w, used);
            var a, b := After(c, Starts(at), i), After(c, NoCheck, i);
            && a.kept == b.kept && a.charsLeft == b.charsLeft
            && forall k :: 0 <= k < i ==> Agree(a.items[k], b.items[k], Early(c, Starts(at), k))
  {
    var c := ConsumerOf(w, used);
    ConsumerFits(w, used);
    ConsumerIsSpendable(w, used);
    CountersAgree(c, at, i);
    forall k | 0 <= k < i
      ensures Agree(After(c, Starts(at), i).items[k], After(c, NoCheck, i).items[k], Early(c, Starts(at), k))
    {
      ItemsAgree(c, at, i, k);
    }
  }

  /** The images sent, in order. */
  function Images(items: seq<Item>): seq<Fetched> {
    if items == [] then []
    else
      var last := items[|items| - 1];
      Images(items[..|items| - 1]) + if last.Sent? then [Fetched(last.mime, last.bytes)] else []
  }

  ghost predicate NoEmptyImages(w: World) {
    forall id :: w.read(id).Ok? && "image/" <= w.read(id).value.mime ==> w.read(id).value.bytes != []
  }

  /** What the model is shown: everything but the notes. */
  function Visible(items: seq<Item>): seq<Item> {
    if items == [] then []
    else
      var last := items[|items| - 1];
      Visible(items[..|items| - 1]) + if last.Note? then [] else [last]
  }

  lemma {:induction false} SameVisible(a: seq<Item>, b: seq<Item>)
    requires |a| == |b|
    requires forall k :: 0 <= k < |a| ==> a[k] == b[k] || (a[k].Note? && b[k].Note?)
    ensures Visible(a) == Visible(b) && Images(a) == Images(b)
  {
    if a != [] {
      var n := |a| - 1;
      SameVisible(a[..n], b[..n]);
      assert a[n] == b[n] || (a[n].Note? && b[n].Note?);
    }
  }

  lemma {:induction false} NotEmpty(w: World, used: seq<Ref>, sched: Sched, i: nat, k: nat)
    requires NoEmptyImages(w) && k < i <= |used|
    ensures !EmptyImage(After(ConsumerOf(w, used), sched, i).items[k])
  {
    var c := ConsumerOf(w, used);
    ItemAt(c, sched, i, k);
  }

  /** With a reader that has no empty images, the schedule changes no image and no document block. */
  lemma {:induction false} SameOutput(w: World, refs: seq<Ref>, at: nat -> nat)
    requires NoEmptyImages(w)
    ensures Visible(Items(w, refs, Starts(at))) == Visible(Items(w, refs, NoCheck))
    ensures Images(Items(w, refs, Starts(at))) == Images(Items(w, refs, NoCheck))
  {
    forall k | 0 <= k < |refs|
      ensures var a, b := Items(w, refs, Starts(at))[k], Items(w, refs, NoCheck)[k]; a == b || (a.Note? && b.Note?)
    {
      SameItem(w, refs, at, k);
    }
    SameVisible(Items(w, refs, Starts(at)), Items(w, refs, NoCheck));
  }

  lemma {:induction false} SameItem(w: World, refs: seq<Ref>, at: nat -> nat, k: nat)
    requires NoEmptyImages(w) && k < |refs|
    ensures var a, b := Items(w, refs, Starts(at))[k], Items(w, refs, NoCheck)[k]; a == b || (a.Note? && b.Note?)
  {
    var used := Used(refs);
    if k < |used| {
      ConsumerFits(w, used);
      ConsumerIsSpendable(w, used);
      ItemsAgree(ConsumerOf(w, used), at, |used|, k);
      NotEmpty(w, used, NoCheck, |used|, k);
    }
  }

  const MAX_ARTIFACT_BYTES: nat := 10 * 1024 * 1024

  /** What a reader over the artifact door can answer with: a valid id, and at most 10 MiB. */
  ghost predicate DoorReader(read: Reader) {
    forall id :: read(id).Ok? ==> IsArtifactRef(id) && |read(id).value.bytes| <= MAX_ARTIFACT_BYTES
  }

  /** Three fetches in flight: each starts before its own file is consumed and at most two files ahead. */
  ghost predicate ThreeInFlight(at: nat -> nat) {
    forall k: nat :: at(k) <= k <= at(k) + 2
  }

  function ArtifactId(digit: char): string {
    ARTIFACT_SCHEME + seq(ARTIFACT_ID_LEN, i => digit)
  }

  /** An image of undeclared size. */
  function ImageRef(digit: char): Ref {
    Ref(ArtifactId(digit), "image/png", None, None, Image, None)
  }

  lemma {:induction false} ArtifactIds(a: char, b: char)
    ensures IsHex(a) ==> IsArtifactRef(ArtifactId(a))
    ensures ArtifactId(a) == ArtifactId(b) <==> a == b
  {
    assert ArtifactId(a)[|ARTIFACT_SCHEME|] == a && ArtifactId(b)[|ARTIFACT_SCHEME|] == b;
  }

  /** Files `1` and `2` are full images, `4` is an empty one and nothing else is there. */
  function Door(full: seq<Byte>): Reader {
    id =>
      if id == ArtifactId('1') || id == ArtifactId('2') then Ok(Fetched("image/png", full))
      else if id == ArtifactId('4') then Ok(Fetched("image/png", []))
      else Err(NotFound)
  }

  const FOUR_IMAGES := [ImageRef('1'), ImageRef('2'), ImageRef('3'), ImageRef('4')]

  lemma {:induction false} DoorIsReader(full: seq<Byte>)
    requires |full| <= MAX_ARTIFACT_BYTES
    ensures DoorReader(Door(full))
    ensures var read := Door(full);
            && read(ArtifactId('1')) == read(ArtifactId('2')) == Ok(Fetched("image/png", full))
            && read(ArtifactId('3')) == Err(NotFound) && read(ArtifactId('4')) == Ok(Fetched("image/png", []))
  {
    ArtifactIds('1', '3');
    ArtifactIds('1', '4');
    ArtifactIds('2', '3');
    ArtifactIds('2', '4');
    ArtifactIds('4', '3');
  }

  /**
   Two images of 10 MiB, a missing one and an empty one: whether the last is sent depends on whether
   its fetch starts after the first file was consumed or after the second.
   */
  lemma {:induction false} EmptyImageDependsOnSchedule(base: World, full: seq<Byte>)
    requires |full| == MAX_ARTIFACT_BYTES
    ensures var w := base.(vision := true, read := Door(full));
            var c := ConsumerOf(w, FOUR_IMAGES);
            && DoorReader(w.read) && ThreeInFlight(TWO_AHEAD) && ThreeInFlight(ONE_AHEAD)
            && After(c, Starts(TWO_AHEAD), 4).items[3] == Sent(4, "image/png", [])
            && After(c, Starts(ONE_AHEAD), 4).items[3] == Note(4, Image, OverBudget)
  {
    var w := base.(vision := true, read := Door(full));
    DoorIsReader(full);
    EmptyImageFourth(w, full, TWO_AHEAD);
    EmptyImageFourth(w, full, ONE_AHEAD);
  }

  /** Every fetch starts while the two files before its own are still to be consumed, or only one. */
  const TWO_AHEAD: nat -> nat := k => if k < 2 then 0 else k - 2
  const ONE_AHEAD: nat -> nat := k => if k < 1 then 0 else k - 1

  lemma {:induction false} EmptyImageFourth(w: World, full: seq<Byte>, at: nat -> nat)
    requires w.vision && w.read == Door(full) && |full| == MAX_ARTIFACT_BYTES
    ensures After(ConsumerOf(w, FOUR_IMAGES), Starts(at), 4).items[3] ==
            if Start(at, 3) < 2 then Sent(4, "image/png", []) else Note(4, Image, OverBudget)
  {
    var c := ConsumerOf(w, FOUR_IMAGES);
    var p := After(c, Starts(at), 3);
    DoorIsReader(full);
    SpentAfterTwo(w, full, at);
    ItemAt(c, Starts(at), 4, 3);
    EmptyItem(w, FOUR_IMAGES, 3, Early(c, Starts(at), 3), p.charsLeft);
  }

  lemma {:induction false} SpentAfterTwo(w: World, full: seq<Byte>, at: nat -> nat)
    requires w.vision && w.read == Door(full) && |full| == MAX_ARTIFACT_BYTES
    ensures var c := ConsumerOf(w, FOUR_IMAGES);
            && After(c, Starts(at), 0).kept == 0 && After(c, Starts(at), 1).kept == MAX_ARTIFACT_BYTES
            && After(c, Starts(at), 2).kept == TURN_BYTE_BUDGET && After(c, Starts(at), 3).kept == TURN_BYTE_BUDGET
  {
    var c := ConsumerOf(w, FOUR_IMAGES);
    DoorIsReader(full);
    var p0, p1, p2 := After(c, Starts(at), 0), After(c, Starts(at), 1), After(c, Starts(at), 2);
    FullItem(w, FOUR_IMAGES, 0, full, p0.kept, p0.charsLeft);
    assert !Early(c, Starts(at), 0) && p1.kept == MAX_ARTIFACT_BYTES;
    FullItem(w, FOUR_IMAGES, 1, full, p1.kept, p1.charsLeft);
    assert !Early(c, Starts(at), 1) && p2.kept == TURN_BYTE_BUDGET;
    MissingItem(w, FOUR_IMAGES, 2, Early(c, Starts(at), 2), p2.kept, p2.charsLeft);
  }

  /** An image of undeclared size. */
  ghost predicate PlainImage(w: World, used: seq<Ref>, k: nat)
    requires k < |used|
  {
    w.vision && used[k].kind.Image? && used[k].size.None?
  }

  lemma {:induction false} FullItem(w: World, used: seq<Ref>, k: nat, full: seq<Byte>, kept: nat, charsLeft: nat)
    requires k < |used| && PlainImage(w, used, k) && w.read(used[k].id) == Ok(Fetched("image/png", full))
    requires kept + |full| <= TURN_BYTE_BUDGET
    ensures ItemFor(w, used, k, false, kept, charsLeft) == Sent(k + 1, "image/png", full)
  {
  }

  lemma {:induction false} MissingItem(w: World, used: seq<Ref>, k: nat, early: bool, kept: nat, charsLeft: nat)
    requires k < |used| && PlainImage(w, used, k) && w.read(used[k].id).Err?
    ensures ItemFor(w, used, k, early, kept, charsLeft).Note?
  {
  }

  lemma {:induction false} EmptyItem(w: World, used: seq<Ref>, k: nat, early: bool, charsLeft: nat)
    requires k < |used| && PlainImage(w, used, k) && w.read(used[k].id) == Ok(Fetched("image/png", []))
    ensures ItemFor(w, used, k, early, TURN_BYTE_BUDGET, charsLeft) ==
            if early then Note(k + 1, Image, OverBudget) else Sent(k + 1, "image/png", [])
  {
  }

  // ------------------------------------------------------------ no silent drop

  /** The item tells the truth about its file: what is sent was read, what is noted has that kind. */
  ghost predicate Accounts(w: World, r: Ref, n: nat, item: Item) {
    item.n == n &&
    match item
    case Sent(_, mime, bytes) =>
      r.kind.Image? && w.vision && "image/" <= mime && w.read(r.id) == Ok(Fetched(mime, bytes))
    case Block(_, name, body, _) =>
      && r.kind.Document? && r.textRef.Some? && body != "" && name == SanitizeName(w.cls, r.name)
      && w.read(r.textRef.value).Ok? && IsTextMime(w.read(r.textRef.value).value.mime)
    case Note(_, kind, _) => kind == r.kind
  }

  predicate IsTooMany(item: Item) {
    item.Note? && item.why.TooMany?
  }

  lemma {:induction false} ItemAccounts(w: World, used: seq<Ref>, k: nat, early: bool, kept: nat, charsLeft: nat)
    requires k < |used|
    ensures var item := ItemFor(w, used, k, early, kept, charsLeft); Accounts(w, used[k], k + 1, item) && !IsTooMany(item)
  {
  }

  lemma {:induction false} UsedAreAccounted(w: World, used: seq<Ref>, sched: Sched, k: nat)
    requires k < |used|
    ensures var item := After(ConsumerOf(w, used), sched, |used|).items[k];
            Accounts(w, used[k], k + 1, item) && !IsTooMany(item)
  {
    var c := ConsumerOf(w, used);
    ItemAt(c, sched, |used|, k);
    ItemAccounts(w, used, k, Early(c, sched, k), After(c, sched, k).kept, After(c, sched, k).charsLeft);
  }

  /** Every reference gets exactly one image, block or note, in order; only those past the fifth are too many. */
  lemma {:induction false} NoSilentDrop(w: World, refs: seq<Ref>, sched: Sched)
    ensures |Items(w, refs, sched)| == |refs|
    ensures forall k :: 0 <= k < |refs| ==>
              && Accounts(w, refs[k], k + 1, Items(w, refs, sched)[k])
              && (IsTooMany(Items(w, refs, sched)[k]) <==> k >= 5)
  {
    forall k | 0 <= k < |refs|
      ensures Accounts(w, refs[k], k + 1, Items(w, refs, sched)[k])
      ensures IsTooMany(Items(w, refs, sched)[k]) <==> k >= 5
    {
      NthAccounted(w, refs, sched, k);
    }
  }

  lemma {:induction false} NthAccounted(w: World, refs: seq<Ref>, sched: Sched, k: nat)
    requires k < |refs|
    ensures Accounts(w, refs[k], k + 1, Items(w, refs, sched)[k])
    ensures IsTooMany(Items(w, refs, sched)[k]) <==> k >= 5
  {
    var used := Used(refs);
    if k < |used| {
      UsedAreAccounted(w, used, sched, k);
    } else {
      assert Items(w, refs, sched)[k] == Excess(refs, |used|)[k - |used|] == Note(k + 1, refs[k].kind, TooMany);
    }
  }

  /** After parsing there are never too many: every entry of the list has one reference or one skip code, every reference one item. */
  lemma {:induction false} ParsedEndToEnd(w: World, list: seq<Json>, meta: Json, notes: Json, sched: Sched)
    ensures var es := Entries(w.cls, list, meta, notes);
            |Items(w, Refs(es), sched)| + |Skips(es)| == |list|
    ensures var refs := Refs(Entries(w.cls, list, meta, notes));
            forall k :: 0 <= k < |refs| ==> !IsTooMany(Items(w, refs, sched)[k])
  {
    FirstFiveDistinct(w.cls, list, meta, notes);
    AtMostFive(w, Refs(Entries(w.cls, list, meta, notes)), sched);
  }

  lemma {:induction false} AtMostFive(w: World, refs: seq<Ref>, sched: Sched)
    requires |refs| <= MAX_ATTACHMENTS
    ensures |Items(w, refs, sched)| == |refs|
    ensures forall k :: 0 <= k < |refs| ==> !IsTooMany(Items(w, refs, sched)[k])
  {
    NoSilentDrop(w, refs, sched);
  }

  // ------------------------------------------------------------ what is shown

  function CharsLeft(used: nat): nat {
    if used <= 30_000 then 30_000 - used else 0
  }

  /** The decoded text of a document. */
  ghost function TextOf(w: World, r: Ref): string
    requires r.textRef.Some? && w.read(r.textRef.value).Ok?
  {
    w.lossy(w.read(r.textRef.value).value.bytes)
  }

  /** The declared size, with those of the earlier images to be fetched, is over 20 MiB. */
  ghost predicate DeclaredOver(w: World, used: seq<Ref>, k: nat)
    requires k < |used|
  {
    used[k].size.Some? && PlannedBefore(w.vision, used, k) + used[k].size.value > 20 * 1024 * 1024
  }

  /** The image can be sent, with `bytes` left of the budget. */
  ghost predicate Sendable(w: World, used: seq<Ref>, k: nat, bytes: nat)
    requires k < |used|
  {
    var r := used[k];
    && r.kind.Image? && w.vision && !DeclaredOver(w, used, k)
    && w.read(r.id).Ok? && "image/" <= w.read(r.id).value.mime && |w.read(r.id).value.bytes| <= bytes
  }

  /** The document's text was read as text. */
  ghost predicate Readable(w: World, r: Ref) {
    && r.kind.Document? && r.textRef.Some? && w.read(r.textRef.value).Ok?
    && w.read(r.textRef.value).value.mime in ["text/plain", "text/markdown", "text/csv", "application/json"]
  }

  /** The guard allows what was kept, but writes something else instead. */
  ghost predicate Rewrites(w: World, body: string) {
    body != "" && w.guard.Some? && w.guard.value(body).Allow? && w.guard.value(body).text != body
  }

  /** Something of the text fits, the guard does not withhold it, and something of a rewrite fits too. */
  ghost predicate Showable(w: World, r: Ref, chars: nat, bytes: nat) {
    && Readable(w, r) && chars > 0
    && var body := KeptText(w.cls, TextOf(w, r), Cap(chars), bytes);
    && body != "" && (w.guard.None? || w.guard.value(body).Allow?)
    && (Rewrites(w, body) ==> KeptText(w.cls, w.guard.value(body).text, Cap(chars), bytes) != "")
  }

  /** Nothing is left: of the text, or of what the guard made of it. */
  ghost predicate Emptied(w: World, raw: string, cap: nat, bytes: nat) {
    var body := KeptText(w.cls, raw, cap, bytes);
    body == "" || (Rewrites(w, body) && KeptText(w.cls, w.guard.value(body).text, cap, bytes) == "")
  }

  /** Something of the text, or of what the guard made of it, did not fit. */
  ghost predicate DidNotFit(w: World, raw: string, cap: nat, bytes: nat) {
    var body := KeptText(w.cls, raw, cap, bytes);
    body != Sanitize(w.cls, raw) ||
    (Rewrites(w, body) && KeptText(w.cls, w.guard.value(body).text, cap, bytes) != Sanitize(w.cls, w.guard.value(body).text))
  }

  /** The image is to be fetched. */
  ghost predicate Wanted(w: World, used: seq<Ref>, k: nat)
    requires k < |used|
  {
    used[k].kind.Image? && w.vision && !DeclaredOver(w, used, k)
  }

  /** The reader failed for this cause. */
  ghost predicate FailedFor(w: World, id: string, cause: Cause) {
    && w.read(id).Err?
    && (cause == Missing <==> w.read(id).error == NotFound) && (cause == Oversized <==> w.read(id).error == TooLarge)
  }

  /** The reason given is the reason: at most one holds of a file, and none of a file that is shown. */
  ghost predicate TrueReason(w: World, used: seq<Ref>, k: nat, why: Why, chars: nat, bytes: nat)
    requires k < |used|
  {
    var r := used[k];
    match why
    case NoVision => r.kind.Image? && !w.vision
    case NotAnImage =>
      && Wanted(w, used, k) && w.read(r.id).Ok?
      && |w.read(r.id).value.bytes| <= bytes && !("image/" <= w.read(r.id).value.mime)
    case LoadFailed(cause) =>
      if r.kind.Image? then Wanted(w, used, k) && FailedFor(w, r.id, cause)
      else r.textRef.Some? && FailedFor(w, r.textRef.value, cause)
    case TextLimit => Readable(w, r) && chars == 0
    case Withheld =>
      && Readable(w, r) && chars > 0 && w.guard.Some?
      && var body := KeptText(w.cls, TextOf(w, r), Cap(chars), bytes);
         body != "" && w.guard.value(body).Withhold?
    case OverBudget =>
      if r.kind.Image?
      then w.vision && (DeclaredOver(w, used, k) || (w.read(r.id).Ok? && |w.read(r.id).value.bytes| > bytes))
      else
        && Readable(w, r) && chars > 0
        && Emptied(w, TextOf(w, r), Cap(chars), bytes) && DidNotFit(w, TextOf(w, r), Cap(chars), bytes)
    case NoText =>
      && r.kind.Document?
      && (r.textRef.Some? ==>
            && w.read(r.textRef.value).Ok?
            && (Readable(w, r) ==>
                  && chars > 0
                  && Emptied(w, TextOf(w, r), Cap(chars), bytes) && !DidNotFit(w, TextOf(w, r), Cap(chars), bytes)))
    case _ => false
  }

  lemma {:induction false} ItemExactlyWhen(w: World, used: seq<Ref>, k: nat, kept: nat, charsLeft: nat)
    requires k < |used| && kept <= TURN_BYTE_BUDGET
    ensures var item := ItemFor(w, used, k, false, kept, charsLeft);
            && (item.Sent? <==> Sendable(w, used, k, BytesLeft(kept)))
            && (item.Block? <==> Showable(w, used[k], charsLeft, BytesLeft(kept)))
  {
    DeclaredIsPlanned(w.vision, used, k);
    if Readable(w, used[k]) { GuardedExactly(w, TextOf(w, used[k]), Cap(charsLeft), BytesLeft(kept)); }
  }

  lemma {:induction false} NoteExactlyWhen(w: World, used: seq<Ref>, k: nat, why: Why, kept: nat, charsLeft: nat)
    requires k < |used| && kept <= TURN_BYTE_BUDGET
    ensures ItemFor(w, used, k, false, kept, charsLeft) == Note(k + 1, used[k].kind, why) <==>
            TrueReason(w, used, k, why, charsLeft, BytesLeft(kept))
  {
    if used[k].kind.Image? {
      DeclaredIsPlanned(w.vision, used, k);
    } else if Readable(w, used[k]) {
      TextNoteExactlyWhen(w, used, k, why, charsLeft, BytesLeft(kept));
    }
  }

  lemma {:induction false} TextNoteExactlyWhen(w: World, used: seq<Ref>, k: nat, why: Why, chars: nat, bytes: nat)
    requires k < |used| && Readable(w, used[k])
    ensures DocItem(w, k + 1, used[k], w.read(used[k].textRef.value).value, chars, bytes) == Note(k + 1, Document, why) <==>
            TrueReason(w, used, k, why, chars, bytes)
  {
    GuardedExactly(w, TextOf(w, used[k]), Cap(chars), bytes);
  }

  /** The guarded text, through what is kept and what the guard says of it. */
  lemma {:induction false} GuardedExactly(w: World, raw: string, cap: nat, bytes: nat)
    ensures var g, body := GuardedText(w, raw, cap, bytes), KeptText(w.cls, raw, cap, bytes);
            && (g.Held? <==> body != "" && w.guard.Some? && w.guard.value(body).Withhold?)
            && (g.Shown? ==> (g.body == "" <==> Emptied(w, raw, cap, bytes)))
            && (g.Shown? ==> (g.cut <==> DidNotFit(w, raw, cap, bytes)))
  {
    var body := KeptText(w.cls, raw, cap, bytes);
    CutMeansLess(w.cls, raw, cap, bytes);
    if Rewrites(w, body) { CutMeansLess(w.cls, w.guard.value(body).text, cap, bytes); }
  }

  /**
   Nothing that could be shown is left out: without the early check, an image is sent exactly when
   it can be read, seen and fits what the items before it left; a document is shown exactly when
   something of it passes the caps and the guard; and a note gives a reason exactly when it is the reason.
   */
  lemma {:induction false} ShownExactlyWhen(w: World, used: seq<Ref>, k: nat)
    requires k < |used|
    ensures var items := After(ConsumerOf(w, used), NoCheck, |used|).items;
            var chars, bytes := CharsLeft(TotalChars(items[..k])), BytesLeft(TotalBytes(items[..k]));
            && (items[k].Sent? <==> Sendable(w, used, k, bytes))
            && (items[k].Block? <==> Showable(w, used[k], chars, bytes))
            && forall why :: items[k] == Note(k + 1, used[k].kind, why) <==> TrueReason(w, used, k, why, chars, bytes)
  {
    var c := ConsumerOf(w, used);
    ItemsPrefix(c, NoCheck, |used|, k);
    ItemAt(c, NoCheck, |used|, k);
    BudgetsHold(w, used, NoCheck, k);
    var p := After(c, NoCheck, k);
    ItemExactlyWhen(w, used, k, p.kept, p.charsLeft);
    forall why
      ensures ItemFor(w, used, k, false, p.kept, p.charsLeft) == Note(k + 1, used[k].kind, why) <==>
              TrueReason(w, used, k, why, p.charsLeft, BytesLeft(p.kept))
    {
      NoteExactlyWhen(w, used, k, why, p.kept, p.charsLeft);
    }
  }

  lemma {:induction false} ItemsPrefix(consume: Consumer, sched: Sched, i: nat, k: nat)
    requires k <= i
    ensures After(consume, sched, i).items[..k] == After(consume, sched, k).items
    decreases i
  {
    if k < i { ItemsPrefix(consume, sched, i - 1, k); }
  }

  // ------------------------------------------------------------ the blocks

  lemma {:induction false} ItemsAreClean(w: World, refs: seq<Ref>, sched: Sched)
    requires ClassOk(w.cls)
    ensures AllClean(Items(w, refs, sched))
  {
    var used := Used(refs);
    forall k | 0 <= k < |used| ensures CleanItem(After(ConsumerOf(w, used), sched, |used|).items[k]) {
      NthIsClean(w, used, sched, k);
    }
  }

  lemma {:induction false} NthIsClean(w: World, used: seq<Ref>, sched: Sched, k: nat)
    requires k < |used| && ClassOk(w.cls)
    ensures CleanItem(After(ConsumerOf(w, used), sched, |used|).items[k])
  {
    var c := ConsumerOf(w, used);
    ItemAt(c, sched, |used|, k);
    ItemIsClean(w, used, k, Early(c, sched, k), After(c, sched, k).kept, After(c, sched, k).charsLeft);
  }

  lemma {:induction false} ItemIsClean(w: World, used: seq<Ref>, k: nat, early: bool, kept: nat, charsLeft: nat)
    requires k < |used| && ClassOk(w.cls)
    ensures CleanItem(ItemFor(w, used, k, early, kept, charsLeft))
  {
  }

  /** Whatever the names, the texts and the guard's rewrites: the output's blocks cannot be forged. */
  lemma {:induction false} OutputUnforgeable(w: World, refs: seq<Ref>, sched: Sched)
    requires WorldOk(w)
    ensures var items := Items(w, refs, sched);
            var lines := Lines(Render(w.style, w.nonce, items));
            && MarkerLines(lines) == MarkersOf(Docs(w.nonce, items))
            && ReadBlocks(lines) == Docs(w.nonce, items)
  {
    ItemsAreClean(w, refs, sched);
    Unforgeable(w.style, w.nonce, Items(w, refs, sched));
  }

  /** Without a rewrite, a block holds the longest prefix of its sanitised text that fits all the limits. */
  lemma {:induction false} BlocksAreLongest(w: World, used: seq<Ref>, sched: Sched, k: nat)
    requires k < |used| && After(ConsumerOf(w, used), sched, |used|).items[k].Block?
    requires w.guard.Some? ==> NeverRewrites(w.guard.value)
    ensures used[k].textRef.Some? && w.read(used[k].textRef.value).Ok?
    ensures var p := After(ConsumerOf(w, used), sched, k);
            var item := After(ConsumerOf(w, used), sched, |used|).items[k];
            LongestFitting(item.body, item.cut, Sanitize(w.cls, TextOf(w, used[k])),
                           Min(15_000, 30_000 - TotalChars(p.items)), 20 * 1024 * 1024 - TotalBytes(p.items))
  {
    BlocksFit(w, used, sched, k);
    LeftFor(w, used, sched, k);
  }

  /** What is left for the `k`-th file. */
  lemma {:induction false} LeftFor(w: World, used: seq<Ref>, sched: Sched, k: nat)
    ensures var p := After(ConsumerOf(w, used), sched, k);
            && Cap(p.charsLeft) == Min(15_000, 30_000 - TotalChars(p.items))
            && BytesLeft(p.kept) == 20 * 1024 * 1024 - TotalBytes(p.items)
  {
    BudgetsHold(w, used, sched, k);
  }

  lemma {:induction false} BlocksFit(w: World, used: seq<Ref>, sched: Sched, k: nat)
    requires k < |used| && After(ConsumerOf(w, used), sched, |used|).items[k].Block?
    requires w.guard.Some? ==> NeverRewrites(w.guard.value)
    ensures used[k].textRef.Some? && w.read(used[k].textRef.value).Ok?
    ensures var p := After(ConsumerOf(w, used), sched, k);
            var item := After(ConsumerOf(w, used), sched, |used|).items[k];
            LongestFitting(item.body, item.cut, Sanitize(w.cls, TextOf(w, used[k])), Cap(p.charsLeft), BytesLeft(p.kept))
  {
    var c := ConsumerOf(w, used);
    ItemAt(c, sched, |used|, k);
    LongestItem(w, used, k, Early(c, sched, k), After(c, sched, k).kept, After(c, sched, k).charsLeft);
  }

  /** The body is the longest prefix within the limits, and is marked as cut exactly when it is not everything. */
  ghost predicate LongestFitting(body: string, cut: bool, s: string, cap: int, bytes: int) {
    && body <= s && |body| <= cap && Utf8(body) <= bytes
    && (cut <==> body != s)
    && forall longer :: body < longer <= s ==> |longer| > cap || Utf8(longer) > bytes
  }

  ghost predicate NeverRewrites(guard: TextGuard) {
    forall t :: guard(t).Allow? ==> guard(t).text == t
  }

  lemma {:induction false} LongestItem(w: World, used: seq<Ref>, k: nat, early: bool, kept: nat, charsLeft: nat)
    requires k < |used| && ItemFor(w, used, k, early, kept, charsLeft).Block?
    requires w.guard.Some? ==> NeverRewrites(w.guard.value)
    ensures used[k].textRef.Some? && w.read(used[k].textRef.value).Ok?
    ensures var item := ItemFor(w, used, k, early, kept, charsLeft);
            LongestFitting(item.body, item.cut, Sanitize(w.cls, TextOf(w, used[k])), Cap(charsLeft), BytesLeft(kept))
  {
    ItemAccounts(w, used, k, early, kept, charsLeft);
    LongestText(w, TextOf(w, used[k]), Cap(charsLeft), BytesLeft(kept));
  }

  lemma {:induction false} LongestText(w: World, raw: string, cap: nat, bytes: nat)
    requires w.guard.Some? ==> NeverRewrites(w.guard.value)
    ensures var g := GuardedText(w, raw, cap, bytes);
            g.Shown? ==> LongestFitting(g.body, g.cut, Sanitize(w.cls, raw), cap, bytes)
  {
    KeptTextIsLongest(w.cls, raw, cap, bytes);
  }

  // ------------------------------------------------------------ the guard

  /** Because keeping kept text changes nothing, comparing the guard's answer with the text first is only a shortcut. */
  lemma {:induction false} RewriteOfTheSameText(w: World, raw: string, cap: nat, bytes: nat)
    requires ClassOk(w.cls) && w.guard.Some? && KeptText(w.cls, raw, cap, bytes) != ""
    requires w.guard.value(KeptText(w.cls, raw, cap, bytes)).Allow?
    ensures var text := w.guard.value(KeptText(w.cls, raw, cap, bytes)).text;
            GuardedText(w, raw, cap, bytes) ==
              Shown(KeptText(w.cls, text, cap, bytes), IsCut(w.cls, raw, cap, bytes) || IsCut(w.cls, text, cap, bytes))
  {
    KeptTextIdempotent(w.cls, raw, cap, bytes);
  }

  /** A guard that returns every text unchanged gives the output of no guard at all. */
  lemma {:induction false} IdentityGuard(w: World, guard: TextGuard, refs: seq<Ref>, sched: Sched)
    requires forall t :: guard(t) == Guardrails.Allow(t)
    ensures Items(w.(guard := Some(guard)), refs, sched) == Items(w.(guard := None), refs, sched)
  {
    var used := Used(refs);
    var a, b := ConsumerOf(w.(guard := Some(guard)), used), ConsumerOf(w.(guard := None), used);
    forall k: nat, early, kept: nat, charsLeft: nat
      ensures a(k, early, kept, charsLeft) == b(k, early, kept, charsLeft)
    {
      if k < |used| { IdentityItem(w, guard, used, k, early, kept, charsLeft); }
    }
    SameConsumers(a, b, sched, |used|);
  }

  lemma {:induction false} SameConsumers(a: Consumer, b: Consumer, sched: Sched, i: nat)
    requires forall k: nat, early: bool, kept: nat, charsLeft: nat :: a(k, early, kept, charsLeft) == b(k, early, kept, charsLeft)
    ensures After(a, sched, i) == After(b, sched, i)
  {
    if i > 0 {
      SameConsumers(a, b, sched, i - 1);
      if sched.Starts? { SameConsumers(a, b, sched, Start(sched.at, i - 1)); }
      var p, early := After(a, sched, i - 1), Early(a, sched, i - 1);
      assert early == Early(b, sched, i - 1);
      assert a(i - 1, early, p.kept, p.charsLeft) == b(i - 1, early, p.kept, p.charsLeft);
    }
  }

  lemma {:induction false} IdentityItem(w: World, guard: TextGuard, used: seq<Ref>, k: nat, early: bool, kept: nat, charsLeft: nat)
    requires k < |used| && forall t :: guard(t) == Guardrails.Allow(t)
    ensures ItemFor(w.(guard := Some(guard)), used, k, early, kept, charsLeft) ==
            ItemFor(w.(guard := None), used, k, early, kept, charsLeft)
  {
    var r := used[k];
    var a, b := w.(guard := Some(guard)), w.(guard := None);
    if r.kind.Document? && r.textRef.Some? && w.read(r.textRef.value).Ok? {
      var raw := w.lossy(w.read(r.textRef.value).value.bytes);
      assert GuardedText(a, raw, Cap(charsLeft), BytesLeft(kept)) == GuardedText(b, raw, Cap(charsLeft), BytesLeft(kept));
    }
  }

  /** The guard is the inbound chain's document guard, by that guard's own contract. */
  ghost predicate ChainGuard(guard: TextGuard, chain: seq<Guardrails.Guardrail>, eval: Guardrails.Evaluator) {
    forall t :: guard(t).Allow? ==>
      && Guardrails.RunChain(chain, t, eval).Pass? && Guardrails.NoFailure(chain, t, eval)
      && Guardrails.RunChain(chain, t, eval).content == guard(t).text
  }

  /**
   Every document shown passed the whole inbound chain, without an evaluation failing, on exactly
   the text that would be shown; what is shown is what the chain left of it, kept again.
   */
  lemma {:induction false} ShownTextPassedTheChain(w: World, used: seq<Ref>, sched: Sched, k: nat,
                                                    chain: seq<Guardrails.Guardrail>, eval: Guardrails.Evaluator)
    requires ClassOk(w.cls) && w.guard.Some? && ChainGuard(w.guard.value, chain, eval)
    requires k < |used| && After(ConsumerOf(w, used), sched, |used|).items[k].Block?
    ensures used[k].textRef.Some? && w.read(used[k].textRef.value).Ok?
    ensures var p := After(ConsumerOf(w, used), sched, k);
            Passed(w, TextOf(w, used[k]), Cap(p.charsLeft), BytesLeft(p.kept), chain, eval,
                   After(ConsumerOf(w, used), sched, |used|).items[k].body)
  {
    var c := ConsumerOf(w, used);
    ItemAt(c, sched, |used|, k);
    var p := After(c, sched, k);
    ItemAccounts(w, used, k, Early(c, sched, k), p.kept, p.charsLeft);
    ShownPassed(w, TextOf(w, used[k]), Cap(p.charsLeft), BytesLeft(p.kept), chain, eval);
  }

  /** The chain passed what was kept of `raw`, and `shown` is what it left of that, kept again. */
  ghost predicate Passed(w: World, raw: string, cap: nat, bytes: nat, chain: seq<Guardrails.Guardrail>,
                         eval: Guardrails.Evaluator, shown: string) {
    var checked := KeptText(w.cls, raw, cap, bytes);
    var outcome := Guardrails.RunChain(chain, checked, eval);
    && outcome.Pass? && Guardrails.NoFailure(chain, checked, eval)
    && shown == KeptText(w.cls, outcome.content, cap, bytes)
  }

  lemma {:induction false} ShownPassed(w: World, raw: string, cap: nat, bytes: nat,
                                        chain: seq<Guardrails.Guardrail>, eval: Guardrails.Evaluator)
    requires ClassOk(w.cls) && w.guard.Some? && ChainGuard(w.guard.value, chain, eval)
    requires GuardedText(w, raw, cap, bytes).Shown? && GuardedText(w, raw, cap, bytes).body != ""
    ensures Passed(w, raw, cap, bytes, chain, eval, GuardedText(w, raw, cap, bytes).body)
  {
    RewriteOfTheSameText(w, raw, cap, bytes);
  }

  // ------------------------------------------------------------ the code

  /** What is handed to the model. */
  class Materialized {
    var images: seq<Fetched>
    var text: string

    constructor ()
      ensures images == [] && text == ""
    {
      images, text := [], "";
    }

    /** The output says exactly what became of these files. */
    ghost predicate Shows(w: World, items: seq<Item>)
      reads this
    {
      images == Images(items) && text == Render(w.style, w.nonce, items)
    }

    method PushNote(w: World, n: nat, kind: Kind, why: Why, ghost items: seq<Item>)
      requires Shows(w, items)
      modifies this
      ensures Shows(w, items + [Note(n, kind, why)])
    {
      assert (items + [Note(n, kind, why)])[..|items|] == items;
      text := text + ("\n" + NoteLine(w.style, n, kind, why));
      assert images + [] == images;
    }

    method PushImage(w: World, n: nat, got: Fetched, kept: nat, ghost items: seq<Item>) returns (added: nat)
      requires Shows(w, items)
      modifies this
      ensures Shows(w, items + [ImageItem(n, got, kept)])
      ensures added == KeptBytes(ImageItem(n, got, kept))
    {
      added := 0;
      if kept + |got.bytes| > TURN_BYTE_BUDGET {
        PushNote(w, n, Image, OverBudget, items);
      } else if !("image/" <= got.mime) {
        PushNote(w, n, Image, NotAnImage, items);
      } else {
        ghost var item := Sent(n, got.mime, got.bytes);
        assert (items + [item])[..|items|] == items && text + "" == text;
        images := images + [got];
        added := |got.bytes|;
      }
    }

    /** Keep what fits, and let the guard see exactly that. */
    method GuardText(w: World, raw: string, cap: nat, bytes: nat) returns (withheld: bool, body: string, taken: nat, cut: bool)
      ensures withheld == GuardedText(w, raw, cap, bytes).Held?
      ensures !withheld ==> GuardedText(w, raw, cap, bytes) == Shown(body, cut) && taken == |body|
    {
      withheld := false;
      body, taken, cut := KeepText(w.cls, raw, cap, bytes);
      if taken > 0 && w.guard.Some? {
        match w.guard.value(body) {
          case Withhold => withheld := true;
          case Allow(other) =>
            if other != body {
              var again;
              body, taken, again := KeepText(w.cls, other, cap, bytes);
              cut := cut || again;
            }
        }
      }
    }

    method PushDocument(w: World, n: nat, r: Ref, got: Fetched, charsLeft: nat, bytesLeft: nat, ghost items: seq<Item>)
      returns (left: nat, added: nat)
      requires Shows(w, items)
      modifies this
      ensures var item := DocItem(w, n, r, got, charsLeft, bytesLeft);
              Shows(w, items + [item]) && left == charsLeft - KeptChars(item) && added == KeptBytes(item)
    {
      left, added := charsLeft, 0;
      if !IsTextMime(got.mime) {
        PushNote(w, n, Document, NoText, items);
        return;
      }
      if charsLeft == 0 {
        PushNote(w, n, Document, TextLimit, items);
        return;
      }
      var withheld, body, taken, cut := GuardText(w, w.lossy(got.bytes), Cap(charsLeft), bytesLeft);
      if withheld {
        PushNote(w, n, Document, Withheld, items);
      } else if taken == 0 {
        PushNote(w, n, Document, if cut then OverBudget else NoText, items);
      } else {
        left, added := charsLeft - taken, Utf8(body);
        PushBlock(w, n, SanitizeName(w.cls, r.name), body, cut, items);
      }
    }

    method PushBlock(w: World, n: nat, name: string, body: string, cut: bool, ghost items: seq<Item>)
      requires Shows(w, items)
      modifies this
      ensures Shows(w, items + [Block(n, name, body, cut)])
    {
      ghost var item := Block(n, name, body, cut);
      assert (items + [item])[..|items|] == items && images + [] == images;
      ghost var before := text;
      text := text + BlockText(w.style, w.nonce, n, name, body);
      if cut {
        Assoc(before, BlockText(w.style, w.nonce, n, name, body), "\n" + NoteLine(w.style, n, Document, Truncated(|body|)));
        text := text + ("\n" + NoteLine(w.style, n, Document, Truncated(|body|)));
      } else {
        assert BlockText(w.style, w.nonce, n, name, body) + "" == BlockText(w.style, w.nonce, n, name, body);
      }
    }
  }

  /** The attachments of one message; `hasReader` is whether files can be opened at all. */
  method Materialize(w: World, hasReader: bool, refs: seq<Ref>, at: nat -> nat) returns (out: Materialized)
    ensures fresh(out)
    ensures refs == [] ==> out.images == [] && out.text == ""
    ensures refs != [] && !hasReader ==> out.images == [] && out.text == "\n[" + w.style.unreadable(|refs|) + "]"
    ensures hasReader ==> out.Shows(w, Items(w, refs, Starts(at)))
  {
    out := new Materialized();
    if refs == [] {
      return;
    }
    if !hasReader {
      out.text := out.text + ("\n[" + w.style.unreadable(|refs|) + "]");
      return;
    }
    ghost var items := ConsumeAll(w, Used(refs), at, out, ConsumerOf(w, Used(refs)));
    ExcessNotes(w, refs, |Used(refs)|, out, items);
  }

  /** Consume the fetches in order. */
  method ConsumeAll(w: World, used: seq<Ref>, at: nat -> nat, out: Materialized, ghost c: Consumer)
    returns (ghost items: seq<Item>)
    requires Consumes(c, w, used) && out.Shows(w, [])
    modifies out
    ensures items == After(c, Starts(at), |used|).items && out.Shows(w, items)
  {
    var plans := PlanAll(w.vision, used);
    // `log[j]` is the counter after `j` files, for the fetches that started then.
    var charsLeft, log := DOC_TOTAL_CAP, [0];
    items := [];
    for i := 0 to |used|
      invariant |log| == i + 1 && out.Shows(w, items) && Logged(c, at, log, Progress(items, log[i], charsLeft))
    {
      ghost var item := c(i, log[Start(at, i)] >= TURN_BYTE_BUDGET, log[i], charsLeft);
      LogNext(c, at, log, Progress(items, log[i], charsLeft), item);
      charsLeft, log, items := ConsumeNext(w, used, at, plans[i], charsLeft, log, out, items, item);
    }
  }

  /** The next file: its fetch saw the counter of the moment it started. */
  method ConsumeNext(w: World, used: seq<Ref>, at: nat -> nat, plan: Plan, charsLeft: nat, log: seq<nat>,
                     out: Materialized, ghost items: seq<Item>, ghost item: Item)
    returns (charsLeft': nat, log': seq<nat>, ghost items': seq<Item>)
    requires 0 < |log| <= |used| && plan == PlanOf(w.vision, used, |log| - 1) && out.Shows(w, items)
    requires item == ItemFor(w, used, |log| - 1, log[Start(at, |log| - 1)] >= TURN_BYTE_BUDGET, log[|log| - 1], charsLeft)
    modifies out
    ensures var p := With(Progress(items, log[|log| - 1], charsLeft), item);
            log' == log + [p.kept] && items' == p.items && charsLeft' == p.charsLeft && out.Shows(w, items')
  {
    var i, kept := |log| - 1, log[|log| - 1];
    var early := log[Start(at, i)] >= TURN_BYTE_BUDGET;
    var kept';
    kept', charsLeft' := ConsumeOne(w, used, i, plan, early, kept, charsLeft, out, items, item);
    WithIs(Progress(items, kept, charsLeft), item, kept', charsLeft');
    log', items' := log + [kept'], items + [item];
  }

  lemma {:induction false} WithIs(p: Progress, item: Item, kept: nat, charsLeft: nat)
    requires kept == p.kept + KeptBytes(item) && charsLeft == p.charsLeft - KeptChars(item)
    ensures With(p, item) == Progress(p.items + [item], kept, charsLeft)
  {
  }

  /** The byte counter after each of the first `i` files. */
  ghost function KeptLog(c: Consumer, at: nat -> nat, i: nat): (log: seq<nat>)
    ensures |log| == i + 1
  {
    (if i == 0 then [] else KeptLog(c, at, i - 1)) + [After(c, Starts(at), i).kept]
  }

  lemma {:induction false} KeptLogAt(c: Consumer, at: nat -> nat, i: nat, j: nat)
    requires j <= i
    ensures KeptLog(c, at, i)[j] == After(c, Starts(at), j).kept
  {
    if j < i { KeptLogAt(c, at, i - 1, j); }
  }

  /** The counters are those of the run so far, and the log has the byte counter after each file. */
  ghost predicate Logged(c: Consumer, at: nat -> nat, log: seq<nat>, p: Progress) {
    log != [] && After(c, Starts(at), |log| - 1) == p && log == KeptLog(c, at, |log| - 1)
  }

  lemma {:induction false} LogNext(c: Consumer, at: nat -> nat, log: seq<nat>, p: Progress, item: Item)
    requires Logged(c, at, log, p)
    requires item == c(|log| - 1, log[Start(at, |log| - 1)] >= TURN_BYTE_BUDGET, p.kept, p.charsLeft)
    ensures Logged(c, at, log + [With(p, item).kept], With(p, item))
  {
    var i := |log| - 1;
    KeptLogAt(c, at, i, Start(at, i));
    NextProgress(c, at, i, log[Start(at, i)], p);
    assert KeptLog(c, at, i + 1) == log + [With(p, item).kept];
  }

  lemma {:induction false} NextProgress(c: Consumer, at: nat -> nat, i: nat, seen: nat, p: Progress)
    requires After(c, Starts(at), i) == p && seen == After(c, Starts(at), Start(at, i)).kept
    ensures After(c, Starts(at), i + 1) == With(p, c(i, seen >= TURN_BYTE_BUDGET, p.kept, p.charsLeft))
  {
    assert Early(c, Starts(at), i) == (seen >= TURN_BYTE_BUDGET);
  }

  ghost predicate Consumes(c: Consumer, w: World, used: seq<Ref>) {
    forall k: nat, early: bool, kept: nat, charsLeft: nat :: k < |used| ==>
      c(k, early, kept, charsLeft) == ItemFor(w, used, k, early, kept, charsLeft)
  }

  /** One finished fetch, in order. */
  method ConsumeOne(w: World, used: seq<Ref>, i: nat, plan: Plan, early: bool, kept: nat, charsLeft: nat,
                    out: Materialized, ghost items: seq<Item>, ghost item: Item) returns (kept': nat, charsLeft': nat)
    requires i < |used| && plan == PlanOf(w.vision, used, i) && out.Shows(w, items)
    requires item == ItemFor(w, used, i, early, kept, charsLeft)
    modifies out
    ensures out.Shows(w, items + [item]) && kept' == kept + KeptBytes(item) && charsLeft' == charsLeft - KeptChars(item)
  {
    kept', charsLeft' := kept, charsLeft;
    var n, r := i + 1, used[i];
    match plan {
      case Skip(why) => out.PushNote(w, n, r.kind, why, items);
      case Fetch(id) =>
        if early {
          out.PushNote(w, n, r.kind, OverBudget, items);
        } else {
          var got := w.read(id);
          if got.Err? {
            out.PushNote(w, n, r.kind, LoadFailed(CauseOf(got.error)), items);
          } else {
            kept', charsLeft' := ConsumeFetched(w, n, r, got.value, kept, charsLeft, out, items);
          }
        }
    }
  }

  /** A file that was read. */
  method ConsumeFetched(w: World, n: nat, r: Ref, got: Fetched, kept: nat, charsLeft: nat, out: Materialized,
                        ghost items: seq<Item>) returns (kept': nat, charsLeft': nat)
    requires out.Shows(w, items)
    modifies out
    ensures var item := if r.kind.Image? then ImageItem(n, got, kept) else DocItem(w, n, r, got, charsLeft, BytesLeft(kept));
            out.Shows(w, items + [item]) && kept' == kept + KeptBytes(item) && charsLeft' == charsLeft - KeptChars(item)
  {
    charsLeft' := charsLeft;
    var added;
    if r.kind.Image? {
      added := out.PushImage(w, n, got, kept, items);
    } else {
      charsLeft', added := out.PushDocument(w, n, r, got, charsLeft, BytesLeft(kept), items);
    }
    kept' := kept + added;
  }

  /** The notes for the files past the fifth. */
  method ExcessNotes(w: World, refs: seq<Ref>, from: nat, out: Materialized, ghost items: seq<Item>)
    requires from <= |refs| && out.Shows(w, items)
    modifies out
    ensures out.Shows(w, items + Excess(refs, from))
  {
    ghost var all := items;
    for n := from to |refs|
      invariant out.Shows(w, all)
      invariant all + Excess(refs, n) == items + Excess(refs, from)
    {
      ghost var note := Note(n + 1, refs[n].kind, TooMany);
      out.PushNote(w, n + 1, refs[n].kind, TooMany, all);
      Assoc(all, [note], Excess(refs, n + 1));
      all := all + [note];
    }
    assert all + [] == all;
  }
}
