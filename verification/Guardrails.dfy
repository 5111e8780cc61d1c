/**
 The guardrail chain and the guard that applies it to document text. The evaluator is a
 parameter: any function from the guardrail and the content it is shown to a verdict or error.
 */
module Guardrails {
  import opened Common

  datatype Mode = Enforce | Monitor

  datatype Guardrail = Guardrail(extension: string, capability: string, mandatory: bool, mode: Mode, config: Json)

  datatype DenyInfo = DenyInfo(code: string, message: string, details: Option<string>)

  datatype Verdict = Accept | Update(content: string) | Deny(info: DenyInfo)

  /** `None` is an evaluator that could not be invoked. */
  type Evaluator = (Guardrail, string) -> Option<Verdict>

  datatype Action = Blocked | Monitored

  datatype Observation = Observation(extension: string, capability: string, code: string, action: Action)

  datatype Outcome =
    | Pass(content: string, observations: seq<Observation>)
    | Denied(info: DenyInfo, observation: Observation)

  const INTERNAL := DenyInfo("internal", "A required guardrail is unavailable.", None)

  function Observed(g: Guardrail, code: string, action: Action): Observation {
    Observation(g.extension, g.capability, code, action)
  }

  // ------------------------------------------------------------ the chain

  /** What one guardrail makes of some content. */
  function Judge(g: Guardrail, content: string, verdict: Option<Verdict>): Outcome {
    match verdict
    case Some(Accept) => Pass(content, [])
    case Some(Update(new_)) => Pass(new_, [])
    case Some(Deny(info)) =>
      if g.mode.Enforce? then Denied(info, Observed(g, info.code, Blocked))
      else Pass(content, [Observed(g, info.code, Monitored)])
    case None =>
      if g.mandatory then Denied(INTERNAL, Observed(g, INTERNAL.code, Blocked)) else Pass(content, [])
  }

  /** Run a chain on what an earlier one left. */
  function Then(first: Outcome, chain: seq<Guardrail>, eval: Evaluator): Outcome {
    match first
    case Denied(_, _) => first
    case Pass(content, observations) =>
      match RunChain(chain, content, eval)
      case Denied(info, o) => Denied(info, o)
      case Pass(c, os) => Pass(c, observations + os)
  }

  /** Each guardrail sees what the previous ones left; the first that blocks ends the chain. */
  function RunChain(chain: seq<Guardrail>, content: string, eval: Evaluator): Outcome {
    if chain == [] then Pass(content, [])
    else
      match RunChain(chain[..|chain| - 1], content, eval)
      case Denied(info, o) => Denied(info, o)
      case Pass(c, os) =>
        var g := chain[|chain| - 1];
        match Judge(g, c, eval(g, c))
        case Denied(info, o) => Denied(info, o)
        case Pass(c', os') => Pass(c', os + os')
  }

  /** The evaluations a run makes: each guardrail with the content it is shown. */
  function Evaluations(chain: seq<Guardrail>, content: string, eval: Evaluator): seq<(Guardrail, string)> {
    if chain == [] then []
    else
      var pre := chain[..|chain| - 1];
      var before := RunChain(pre, content, eval);
      Evaluations(pre, content, eval) + if before.Pass? then [(chain[|chain| - 1], before.content)] else []
  }

  /** The chain as a loop; `errored` is the flag the document guard wraps around the evaluator. */
  method RunChainTracked(chain: seq<Guardrail>, content: string, eval: Evaluator) returns (r: Outcome, errored: bool)
    ensures r == RunChain(chain, content, eval)
    ensures errored <==> !NoFailure(chain, content, eval)
  {
    var current, observations := content, [];
    errored := false;
    ghost var log := [];
    for i := 0 to |chain|
      invariant RunChain(chain[..i], content, eval) == Pass(current, observations)
      invariant log == Evaluations(chain[..i], content, eval)
      invariant errored <==> exists k :: 0 <= k < |log| && Failed(log[k], eval)
    {
      var g := chain[i];
      assert chain[..i + 1][..i] == chain[..i];
      log := log + [(g, current)];
      assert log[|log| - 1] == (g, current) && log[..|log| - 1] == Evaluations(chain[..i], content, eval);
      var verdict := eval(g, current);
      if verdict.None? { errored := true; }
      match Judge(g, current, verdict) {
        case Denied(info, o) =>
          DeniedStays(chain, i + 1, content, eval);
          return Denied(info, o), errored;
        case Pass(c, os) => current, observations := c, observations + os;
      }
    }
    assert chain[..|chain|] == chain;
    r := Pass(current, observations);
  }

  predicate Failed(e: (Guardrail, string), eval: Evaluator) {
    eval(e.0, e.1).None?
  }

  /** Once denied, the rest of the chain is neither evaluated nor able to change the outcome. */
  lemma {:induction false} DeniedStays(chain: seq<Guardrail>, n: nat, content: string, eval: Evaluator)
    requires n <= |chain| && RunChain(chain[..n], content, eval).Denied?
    ensures RunChain(chain, content, eval) == RunChain(chain[..n], content, eval)
    ensures Evaluations(chain, content, eval) == Evaluations(chain[..n], content, eval)
    decreases |chain|
  {
    if n == |chain| {
      assert chain[..n] == chain;
    } else {
      var pre := chain[..|chain| - 1];
      assert pre[..n] == chain[..n];
      DeniedStays(pre, n, content, eval);
    }
  }

  // ------------------------------------------------------------ chain laws

  /** Running `a + b` is running `b` on what `a` left, with the observations joined. */
  lemma {:induction false} ChainsCompose(a: seq<Guardrail>, b: seq<Guardrail>, content: string, eval: Evaluator)
    ensures RunChain(a + b, content, eval) == Then(RunChain(a, content, eval), b, eval)
  {
    if b == [] {
      assert a + b == a;
      var first := RunChain(a, content, eval);
      if first.Pass? { assert first.observations + [] == first.observations; }
    } else {
      var pre, g := b[..|b| - 1], b[|b| - 1];
      assert (a + b)[..|a + b| - 1] == a + pre;
      ChainsCompose(a, pre, content, eval);
      var first := RunChain(a, content, eval);
      if first.Pass? {
        var mid := RunChain(pre, first.content, eval);
        if mid.Pass? {
          var last := Judge(g, mid.content, eval(g, mid.content));
          if last.Pass? {
            assert first.observations + mid.observations + last.observations
                == first.observations + (mid.observations + last.observations);
          }
        }
      }
    }
  }

  /** The guardrail blocks: an enforced denial, or a mandatory one that could not be evaluated. */
  predicate Blocks(g: Guardrail, content: string, eval: Evaluator) {
    Judge(g, content, eval(g, content)).Denied?
  }

  /** From the verdict alone: what blocks is an enforced denial, or a mandatory guardrail that could not be evaluated. */
  lemma {:induction false} BlocksExactly(g: Guardrail, content: string, eval: Evaluator)
    ensures var v := eval(g, content);
            Blocks(g, content, eval) <==> (v.None? && g.mandatory) || (v.Some? && v.value.Deny? && g.mode == Enforce)
  {
  }

  /**
   The evaluator is called on exactly the chain's prefix up to the first guardrail that blocks,
   each with the content the earlier ones left.
   */
  lemma {:induction false} EvaluatesUpToTheFirstBlock(chain: seq<Guardrail>, content: string, eval: Evaluator)
    ensures var log := Evaluations(chain, content, eval);
            && |log| <= |chain|
            && (forall k :: 0 <= k < |log| ==> log[k].0 == chain[k])
            && (forall k :: 0 <= k < |log| - 1 ==> !Blocks(log[k].0, log[k].1, eval))
            && (RunChain(chain, content, eval).Denied? <==>
                  |log| > 0 && Blocks(log[|log| - 1].0, log[|log| - 1].1, eval))
            && (RunChain(chain, content, eval).Pass? ==> |log| == |chain|)
  {
    if chain != [] {
      var n := |chain| - 1;
      var pre := chain[..n];
      EvaluatesUpToTheFirstBlock(pre, content, eval);
      var log, all := Evaluations(pre, content, eval), Evaluations(chain, content, eval);
      var before := RunChain(pre, content, eval);
      if before.Pass? {
        assert all == log + [(chain[n], before.content)];
        assert Blocks(chain[n], before.content, eval) <==> RunChain(chain, content, eval).Denied?;
      } else {
        assert all == log;
      }
    }
  }

  /** Each guardrail is shown exactly what the ones before it left. */
  lemma {:induction false} ShownWhatIsLeft(chain: seq<Guardrail>, content: string, eval: Evaluator, k: nat)
    requires k < |Evaluations(chain, content, eval)|
    ensures k < |chain| && RunChain(chain[..k], content, eval).Pass?
    ensures RunChain(chain[..k], content, eval).content == Evaluations(chain, content, eval)[k].1
  {
    var n := |chain| - 1;
    var pre := chain[..n];
    EvaluatesUpToTheFirstBlock(pre, content, eval);
    if k < |Evaluations(pre, content, eval)| {
      ShownWhatIsLeft(pre, content, eval, k);
      assert pre[..k] == chain[..k];
    } else {
      assert k == n;
    }
  }

  /** What the content is after a verdict that does not block. */
  function ContentAfter(content: string, verdict: Option<Verdict>): string {
    if verdict.Some? && verdict.value.Update? then verdict.value.content else content
  }

  /** The denials among some evaluations, in order, each as only monitored. */
  function MonitoredDenials(log: seq<(Guardrail, string)>, eval: Evaluator): seq<Observation> {
    if log == [] then []
    else
      var (g, c) := log[|log| - 1];
      var v := eval(g, c);
      MonitoredDenials(log[..|log| - 1], eval) +
      if v.Some? && v.value.Deny? then [Observation(g.extension, g.capability, v.value.info.code, Monitored)] else []
  }

  /** The content a chain's evaluations end with, by the verdicts alone. */
  function LastContent(log: seq<(Guardrail, string)>, content: string, eval: Evaluator): string {
    if log == [] then content else ContentAfter(log[|log| - 1].1, eval(log[|log| - 1].0, log[|log| - 1].1))
  }

  /**
   A chain that passes, by its verdicts alone: each guardrail is shown the content after the verdict
   before it, the result is the content after the last one, and the observations are exactly the
   monitored denials, in order.
   */
  lemma {:induction false} PassedByVerdicts(chain: seq<Guardrail>, content: string, eval: Evaluator)
    requires RunChain(chain, content, eval).Pass?
    ensures var log, r := Evaluations(chain, content, eval), RunChain(chain, content, eval);
            && ShownInTurn(log, content, eval)
            && r.content == LastContent(log, content, eval)
            && r.observations == MonitoredDenials(log, eval)
  {
    if chain != [] {
      var n := |chain| - 1;
      PassedByVerdicts(chain[..n], content, eval);
      LogPush(Evaluations(chain[..n], content, eval), (chain[n], RunChain(chain[..n], content, eval).content), content, eval);
    }
  }

  /** Each guardrail is shown the content after the verdict before it. */
  ghost predicate ShownInTurn(log: seq<(Guardrail, string)>, content: string, eval: Evaluator) {
    forall k :: 0 <= k < |log| ==> log[k].1 == LastContent(log[..k], content, eval)
  }

  lemma {:induction false} LogPush(log: seq<(Guardrail, string)>, x: (Guardrail, string), content: string, eval: Evaluator)
    requires ShownInTurn(log, content, eval) && x.1 == LastContent(log, content, eval)
    ensures ShownInTurn(log + [x], content, eval)
    ensures LastContent(log + [x], content, eval) == ContentAfter(x.1, eval(x.0, x.1))
    ensures MonitoredDenials(log + [x], eval) == MonitoredDenials(log, eval) + MonitoredDenials([x], eval)
  {
    var all := log + [x];
    assert all[..|log|] == log && [x][..0] == [];
    forall k | 0 <= k < |all| ensures all[k].1 == LastContent(all[..k], content, eval) {
      if k < |log| { assert all[..k] == log[..k]; }
    }
  }

  /** A chain that is denied, by its verdicts alone: the last evaluation says why, and is observed as blocked. */
  lemma {:induction false} DeniedByVerdict(chain: seq<Guardrail>, content: string, eval: Evaluator)
    requires RunChain(chain, content, eval).Denied?
    ensures var log, r := Evaluations(chain, content, eval), RunChain(chain, content, eval);
            && log != []
            && var (g, c) := log[|log| - 1];
            && (if eval(g, c).Some? then eval(g, c) == Some(Deny(r.info)) && g.mode == Enforce
                else g.mandatory && r.info == DenyInfo("internal", "A required guardrail is unavailable.", None))
            && r.observation == Observation(g.extension, g.capability, r.info.code, Blocked)
  {
    var pre := chain[..|chain| - 1];
    if RunChain(pre, content, eval).Denied? {
      DeniedByVerdict(pre, content, eval);
      assert Evaluations(chain, content, eval) == Evaluations(pre, content, eval);
    }
  }

  // ------------------------------------------------------------ the document guard

  datatype TextVerdict = Allow(text: string) | Withhold

  /** No guardrail could not be evaluated. */
  ghost predicate NoFailure(chain: seq<Guardrail>, text: string, eval: Evaluator) {
    forall k :: 0 <= k < |Evaluations(chain, text, eval)| ==> !Failed(Evaluations(chain, text, eval)[k], eval)
  }

  /** Check a document's text with the inbound chain. */
  method Check(chain: seq<Guardrail>, text: string, eval: Evaluator) returns (v: TextVerdict)
    ensures v.Allow? <==> RunChain(chain, text, eval).Pass? && NoFailure(chain, text, eval)
    ensures v.Allow? ==> RunChain(chain, text, eval).content == v.text
  {
    var outcome, errored := RunChainTracked(chain, text, eval);
    match outcome {
      case Denied(_, _) => v := Withhold;
      case Pass(content, _) => v := if errored then Withhold else Allow(content);
    }
  }

  /**
   A document is only shown when the message path would pass it with the same content; and where
   the message path fails open on an optional guardrail, the document is withheld.
   */
  lemma {:induction false} FailOpenIsWithheld(chain: seq<Guardrail>, text: string, eval: Evaluator, g: Guardrail)
    requires g in chain && (forall c :: eval(g, c).None?) && RunChain(chain, text, eval).Pass?
    ensures !g.mandatory && !NoFailure(chain, text, eval)
  {
    EvaluatesUpToTheFirstBlock(chain, text, eval);
    var k :| 0 <= k < |chain| && chain[k] == g;
    var log := Evaluations(chain, text, eval);
    assert log[k].0 == g && Failed(log[k], eval);
    if k == |log| - 1 { assert !Blocks(log[k].0, log[k].1, eval); }
  }

  // ------------------------------------------------------------ assembling a chain

  datatype Ref = Ref(capability: string, mode: Mode, config: Json)

  /** The extension that offers a capability, if any. */
  type Registry = string -> Option<string>

  function Resolve(registry: Registry, r: Ref, mandatory: bool): Option<Guardrail> {
    var extension := registry(r.capability);
    if extension.None? then None else Some(Guardrail(extension.value, r.capability, mandatory, r.mode, r.config))
  }

  function Resolved(registry: Registry, refs: seq<Ref>, mandatory: bool): (gs: seq<Guardrail>)
    ensures forall k :: 0 <= k < |gs| ==> gs[k].mandatory == mandatory && registry(gs[k].capability) == Some(gs[k].extension)
  {
    if refs == [] then []
    else
      var last := Resolve(registry, refs[|refs| - 1], mandatory);
      Resolved(registry, refs[..|refs| - 1], mandatory) + if last.Some? then [last.value] else []
  }

  function Unresolved(registry: Registry, refs: seq<Ref>): seq<string> {
    if refs == [] then []
    else
      var r := refs[|refs| - 1];
      Unresolved(registry, refs[..|refs| - 1]) + if registry(r.capability).None? then [r.capability] else []
  }

  method AssembleChain(registry: Registry, mandatory: seq<Ref>, agent: seq<Ref>)
    returns (r: Result<seq<Guardrail>, seq<string>>)
    ensures r == if Unresolved(registry, mandatory) != [] then Err(Unresolved(registry, mandatory))
                 else Ok(Resolved(registry, mandatory, true) + Resolved(registry, agent, false))
  {
    var chain: seq<Guardrail>, unresolved := [], [];
    for i := 0 to |mandatory|
      invariant chain == Resolved(registry, mandatory[..i], true)
      invariant unresolved == Unresolved(registry, mandatory[..i])
    {
      assert mandatory[..i + 1][..i] == mandatory[..i];
      var g := Resolve(registry, mandatory[i], true);
      if g.Some? { chain := chain + [g.value]; } else { unresolved := unresolved + [mandatory[i].capability]; }
    }
    assert mandatory[..|mandatory|] == mandatory;
    if unresolved != [] { return Err(unresolved); }
    for i := 0 to |agent|
      invariant chain == Resolved(registry, mandatory, true) + Resolved(registry, agent[..i], false)
    {
      assert agent[..i + 1][..i] == agent[..i];
      var g := Resolve(registry, agent[i], false);
      if g.Some? { chain := chain + [g.value]; }
    }
    assert agent[..|agent|] == agent;
    r := Ok(chain);
  }

  /** A chain is assembled exactly when every mandatory guardrail resolves, and then holds all of them, first. */
  lemma {:induction false} NoMandatoryIsSkipped(registry: Registry, mandatory: seq<Ref>)
    ensures Unresolved(registry, mandatory) == [] <==>
              forall k :: 0 <= k < |mandatory| ==> registry(mandatory[k].capability).Some?
    ensures Unresolved(registry, mandatory) == [] ==>
              && |Resolved(registry, mandatory, true)| == |mandatory|
              && forall k :: 0 <= k < |mandatory| ==> Resolved(registry, mandatory, true)[k].capability == mandatory[k].capability
  {
    if mandatory != [] {
      var n := |mandatory| - 1;
      var pre := mandatory[..n];
      NoMandatoryIsSkipped(registry, pre);
      assert forall k :: 0 <= k < n ==> mandatory[k] == pre[k];
      if registry(mandatory[n].capability).Some? {
        assert Unresolved(registry, mandatory) == Unresolved(registry, pre);
      } else {
        assert Unresolved(registry, mandatory)[|Unresolved(registry, pre)|] == mandatory[n].capability;
      }
    }
  }

  /** The references that some extension offers, or that none does. */
  function Offered(registry: Registry, refs: seq<Ref>, offered: bool): (r: seq<Ref>)
    ensures forall k :: 0 <= k < |r| ==> registry(r[k].capability).Some? == offered
  {
    if refs == [] then []
    else
      var last := refs[|refs| - 1];
      Offered(registry, refs[..|refs| - 1], offered) + if registry(last.capability).Some? == offered then [last] else []
  }

  /**
   What is assembled: the references that resolve, in order, each with its extension, its own mode and
   configuration; what is reported are the capabilities of the others, in order.
   */
  lemma {:induction false} ResolvedInOrder(registry: Registry, refs: seq<Ref>, mandatory: bool)
    ensures var kept, gs := Offered(registry, refs, true), Resolved(registry, refs, mandatory);
            && |gs| == |kept|
            && forall k :: 0 <= k < |kept| ==>
                 gs[k] == Guardrail(registry(kept[k].capability).value, kept[k].capability, mandatory, kept[k].mode, kept[k].config)
    ensures var lost, names := Offered(registry, refs, false), Unresolved(registry, refs);
            |names| == |lost| && forall k :: 0 <= k < |lost| ==> names[k] == lost[k].capability
  {
    if refs != [] { ResolvedInOrder(registry, refs[..|refs| - 1], mandatory); }
  }
}
