/**
 The two orders the shrinker relies on (crates/tiv-core/src/shrink.rs): which kinds simplify
 which, and the five-part complexity every simplification lowers.
 */
module ShrinkOrder {
  import opened Sequences
  import opened Plan
  import opened PlanCompiler

  // ---------- kind simplification ----------

  predicate ScriptSimplifies(source: Script, candidate: Script) {
    || source == candidate
    || candidate == Single(Normal)
    || (source.TransportRetry? && (candidate == Single(CommitThenClose) || candidate == TransportRetry(Normal)))
  }

  predicate SameCall(a: Action, b: Action) {
    || (a.DriveCheckout? && b.DriveCheckout?)
    || (a.RetryBusinessRequest? && b.RetryBusinessRequest?)
    || (a.ConfirmPaymentIntent? && b.ConfirmPaymentIntent?)
    || (a.RetryProviderRequest? && b.RetryProviderRequest?)
  }

  predicate Simplifies(source: Action, candidate: Action) {
    || source == candidate
    || (source.DelayWebhook? && candidate.DelayWebhook? && candidate.milliseconds <= source.milliseconds)
    || (source.DropWebhook? && candidate.DeliverWebhook?)
    || (SameCall(source, candidate) && ScriptSimplifies(source.script, candidate.script))
  }

  /** One normal call; or a script cut short; or one whose last call is normal instead. */
  predicate CallsSimplify(source: seq<ProviderOutcome>, candidate: seq<ProviderOutcome>) {
    || candidate == [Normal]
    || (candidate != [] && candidate <= source)
    || (|candidate| == |source| > 0
        && candidate == source[..|source| - 1] + [Normal])
  }

  /** What a simplification does to an action: less delay, no drop, simpler calls, or nothing. */
  lemma SimplifiesMeans(source: Action, candidate: Action)
    ensures Simplifies(source, candidate) <==>
      match source
      case DelayWebhook(d) => candidate.DelayWebhook? && candidate.milliseconds <= d
      case DropWebhook => candidate == DropWebhook || candidate == DeliverWebhook
      case _ =>
        if HasScript(source)
        then SameCall(source, candidate) && CallsSimplify(source.script.Outcomes(), candidate.script.Outcomes())
        else candidate == source
  {
    if HasScript(source) && SameCall(source, candidate) {
      ScriptSimplifiesMeans(source.script, candidate.script);
    }
  }

  lemma ScriptSimplifiesMeans(source: Script, candidate: Script)
    ensures ScriptSimplifies(source, candidate) <==> CallsSimplify(source.Outcomes(), candidate.Outcomes())
  {
    var s, c := source.Outcomes(), candidate.Outcomes();
    assert candidate == Single(Normal) <==> c == [Normal];
    assert source == candidate <==> c == s;
    match source
    case Single(o) =>
      assert s[..|s| - 1] + [Normal] == [Normal];
      assert c <= s <==> c == s;
    case TransportRetry(r) =>
      assert s[..|s| - 1] + [Normal] == [CommitThenClose, Normal];
      assert c <= s <==> c == s || c == [CommitThenClose] by {
        assert s[..1] == [CommitThenClose];
        if c <= s && |c| == 1 { assert c == s[..1]; }
      }
      assert candidate == TransportRetry(Normal) <==> c == [CommitThenClose, Normal];
      assert candidate == Single(CommitThenClose) <==> c == [CommitThenClose];
  }

  lemma SimplifiesTransitive(a: Action, b: Action, c: Action)
    requires Simplifies(a, b) && Simplifies(b, c)
    ensures Simplifies(a, c)
  {
  }

  // ---------- complexity ----------

  datatype Complexity = Complexity(
    actionCount: nat,
    faultActionCount: nat,
    providerFaultScore: nat,
    providerCallCount: nat,
    delayMilliseconds: nat)

  /** Field by field, in declaration order. */
  predicate Less(a: Complexity, b: Complexity) {
    || a.actionCount < b.actionCount
    || (a.actionCount == b.actionCount
        && (|| a.faultActionCount < b.faultActionCount
            || (a.faultActionCount == b.faultActionCount
                && (|| a.providerFaultScore < b.providerFaultScore
                    || (a.providerFaultScore == b.providerFaultScore
                        && (|| a.providerCallCount < b.providerCallCount
                            || (a.providerCallCount == b.providerCallCount
                                && a.delayMilliseconds < b.delayMilliseconds)))))))
  }

  function Plus(a: Complexity, b: Complexity): Complexity {
    Complexity(
      a.actionCount + b.actionCount,
      a.faultActionCount + b.faultActionCount,
      a.providerFaultScore + b.providerFaultScore,
      a.providerCallCount + b.providerCallCount,
      a.delayMilliseconds + b.delayMilliseconds)
  }

  function FaultScore(o: ProviderOutcome): nat {
    match o
    case Normal => 0
    case PreExecute429 => 1
    case PreExecute500 => 1
    case PostExecute500 => 2
    case CommitThenClose => 3
    case CommitThenDelay => 3
  }

  function ScriptScore(script: Script): nat {
    match script
    case Single(o) => FaultScore(o)
    case TransportRetry(r) => FaultScore(CommitThenClose) + FaultScore(r)
  }

  /** What one action adds. */
  function Weight(a: Action): Complexity {
    if HasScript(a) then
      var score := ScriptScore(a.script);
      Complexity(1, if score > 0 then 1 else 0, score, |a.script.Outcomes()|, 0)
    else if a.DelayWebhook? then Complexity(1, 1, 0, 0, a.milliseconds)
    else if a.DuplicateWebhook? || a.ReorderWebhooks? || a.DropWebhook? || a.KillApplication?
    then Complexity(1, 1, 0, 0, 0)
    else Complexity(1, 0, 0, 0, 0)
  }

  const ZERO := Complexity(0, 0, 0, 0, 0)

  function ComplexityOf(actions: seq<Action>): Complexity {
    if actions == [] then ZERO
    else Plus(ComplexityOf(actions[..|actions| - 1]), Weight(actions[|actions| - 1]))
  }

  // ---------- what the components count ----------

  /** Every outcome met by some call of the list, in order. */
  function AllOutcomes(actions: seq<Action>): seq<ProviderOutcome> {
    if actions == [] then []
    else
      var a := actions[|actions| - 1];
      AllOutcomes(actions[..|actions| - 1]) + if HasScript(a) then a.script.Outcomes() else []
  }

  /** One for anything but a normal outcome, one more if it committed, one more if no response came back. */
  function Severity(o: ProviderOutcome): nat {
    if o == Normal then 0
    else 1 + (if o.Commits() then 1 else 0) + (if o == CommitThenClose || o == CommitThenDelay then 1 else 0)
  }

  function TotalSeverity(outcomes: seq<ProviderOutcome>): nat {
    if outcomes == [] then 0
    else TotalSeverity(outcomes[..|outcomes| - 1]) + Severity(outcomes[|outcomes| - 1])
  }

  /** A call that meets anything but normal outcomes, or a fault of the webhooks or of the process. */
  predicate IsFaulty(a: Action) {
    || (HasScript(a) && exists k :: 0 <= k < |a.script.Outcomes()| && a.script.Outcomes()[k] != Normal)
    || a.DelayWebhook? || a.DuplicateWebhook? || a.ReorderWebhooks? || a.DropWebhook? || a.KillApplication?
  }

  function TotalDelay(actions: seq<Action>): nat {
    if actions == [] then 0
    else
      TotalDelay(actions[..|actions| - 1])
      + if actions[|actions| - 1].DelayWebhook? then actions[|actions| - 1].milliseconds else 0
  }

  lemma SeverityAdds(outcomes: seq<ProviderOutcome>, script: Script)
    ensures TotalSeverity(outcomes + script.Outcomes()) == TotalSeverity(outcomes) + ScriptScore(script)
  {
    var all := outcomes + script.Outcomes();
    assert all[..|all| - 1] == outcomes + script.Outcomes()[..|script.Outcomes()| - 1];
    if script.TransportRetry? {
      var most := outcomes + [CommitThenClose];
      assert most[..|most| - 1] == outcomes;
    } else {
      assert outcomes + [] == outcomes;
    }
  }

  lemma FaultyIsScored(a: Action)
    ensures Weight(a).faultActionCount == if IsFaulty(a) then 1 else 0
  {
    if HasScript(a) {
      assert a.script.Outcomes()[0] == Normal || a.script.Outcomes()[0] != Normal;
    }
  }

  lemma OneMoreAction(before: seq<Action>, a: Action)
    ensures |Filter(b => IsFaulty(b), before + [a])|
         == |Filter(b => IsFaulty(b), before)| + Weight(a).faultActionCount
    ensures TotalSeverity(AllOutcomes(before + [a]))
         == TotalSeverity(AllOutcomes(before)) + Weight(a).providerFaultScore
    ensures |AllOutcomes(before + [a])| == |AllOutcomes(before)| + Weight(a).providerCallCount
    ensures TotalDelay(before + [a]) == TotalDelay(before) + Weight(a).delayMilliseconds
  {
    assert (before + [a])[..|before|] == before;
    FaultyIsScored(a);
    FilterConcat(b => IsFaulty(b), before, [a]);
    assert [a][1..] == [];
    if HasScript(a) {
      SeverityAdds(AllOutcomes(before), a.script);
    } else {
      assert AllOutcomes(before) + [] == AllOutcomes(before);
    }
    hide IsFaulty, TotalSeverity, ScriptScore;
  }

  /** The five components: length, faulty actions, severity of all outcomes, calls, and delay. */
  lemma {:induction false} ComplexityMeans(actions: seq<Action>)
    ensures var c := ComplexityOf(actions);
            && c.actionCount == |actions|
            && c.faultActionCount == |Filter(a => IsFaulty(a), actions)|
            && c.providerFaultScore == TotalSeverity(AllOutcomes(actions))
            && c.providerCallCount == |AllOutcomes(actions)|
            && c.delayMilliseconds == TotalDelay(actions)
  {
    ComplexityCounts(actions);
    if actions != [] {
      var n := |actions| - 1;
      assert actions == actions[..n] + [actions[n]];
      ComplexityMeans(actions[..n]);
      OneMoreAction(actions[..n], actions[n]);
      hide Weight, IsFaulty, TotalSeverity, AllOutcomes, TotalDelay, Filter;
    }
  }

  function Fields(c: Complexity): (r: seq<nat>)
    ensures |r| == 5
  {
    [c.actionCount, c.faultActionCount, c.providerFaultScore, c.providerCallCount, c.delayMilliseconds]
  }

  /** The first component to differ is the `k`-th, where `a` is smaller. */
  predicate SmallerAt(a: seq<nat>, b: seq<nat>, k: int) {
    0 <= k < |a| == |b| && a[k] < b[k] && forall j :: 0 <= j < k ==> a[j] == b[j]
  }

  lemma LessMeans(a: Complexity, b: Complexity)
    ensures Less(a, b) <==> exists k :: SmallerAt(Fields(a), Fields(b), k)
  {
    var x, y := Fields(a), Fields(b);
    assert Less(a, b) <==>
      (SmallerAt(x, y, 0) || SmallerAt(x, y, 1) || SmallerAt(x, y, 2) || SmallerAt(x, y, 3) || SmallerAt(x, y, 4));
    forall k | SmallerAt(x, y, k) ensures k == 0 || k == 1 || k == 2 || k == 3 || k == 4 {}
  }

  const U32_MAX: nat := 0xFFFF_FFFF

  function SaturatingAdd(a: nat, b: nat, max: nat): nat {
    if a + b > max then max else a + b
  }

  /** Every counter of a short list with bounded delays fits its machine width. */
  lemma {:induction false} ComplexityFits(actions: seq<Action>)
    requires forall a :: a in actions && a.DelayWebhook? ==> a.milliseconds <= 5000
    ensures var c := ComplexityOf(actions);
            && c.actionCount == |actions|
            && c.faultActionCount <= |actions|
            && c.providerFaultScore <= 6 * |actions|
            && c.providerCallCount <= 2 * |actions|
            && c.delayMilliseconds <= 5000 * |actions|
  {
    hide Weight;
    if actions != [] {
      var last := |actions| - 1;
      ComplexityFits(actions[..last]);
      assert actions[last] in actions;
      WeightFits(actions[last]);
    }
  }

  lemma WeightFits(a: Action)
    requires a.DelayWebhook? ==> a.milliseconds <= 5000
    ensures var w := Weight(a);
            && w.actionCount == 1 && w.faultActionCount <= 1 && w.providerFaultScore <= 6
            && w.providerCallCount <= 2 && w.delayMilliseconds <= 5000
  {
  }

  lemma {:induction false} ComplexityCounts(actions: seq<Action>)
    ensures ComplexityOf(actions).actionCount == |actions|
  {
    if actions != [] {
      ComplexityCounts(actions[..|actions| - 1]);
    }
  }

  const U64_MAX: nat := 0xFFFF_FFFF_FFFF_FFFF

  /** One action's contribution to the saturating counters; the action count is set beforehand. */
  function Accumulate(c: Complexity, a: Action): Complexity {
    if HasScript(a) then
      var score := ScriptScore(a.script);
      var called := c.(providerCallCount := SaturatingAdd(c.providerCallCount, |a.script.Outcomes()|, U32_MAX));
      if score > 0 then
        called.(faultActionCount := SaturatingAdd(c.faultActionCount, 1, U32_MAX),
                providerFaultScore := SaturatingAdd(c.providerFaultScore, score, U32_MAX))
      else called
    else if a.DelayWebhook? then
      c.(faultActionCount := SaturatingAdd(c.faultActionCount, 1, U32_MAX),
         delayMilliseconds := SaturatingAdd(c.delayMilliseconds, a.milliseconds, U64_MAX))
    else if a.DuplicateWebhook? || a.ReorderWebhooks? || a.DropWebhook? || a.KillApplication? then
      c.(faultActionCount := SaturatingAdd(c.faultActionCount, 1, U32_MAX))
    else c
  }

  lemma AccumulateAdds(c: Complexity, a: Action)
    requires c.faultActionCount <= 40 && c.providerFaultScore <= 240 && c.providerCallCount <= 80
    requires c.delayMilliseconds <= 200000 && (a.DelayWebhook? ==> a.milliseconds <= 5000)
    ensures Accumulate(c, a) == Plus(c, Weight(a)).(actionCount := c.actionCount)
  {
  }

  /** The loop of shrink.rs with its saturating counters; on replayable lists nothing saturates. */
  method ComputeComplexity(actions: seq<Action>) returns (c: Complexity)
    requires |actions| <= MAX_ACTIONS_PER_CASE
    requires forall a :: a in actions && a.DelayWebhook? ==> a.milliseconds <= 5000
    ensures c == ComplexityOf(actions)
  {
    c := ZERO.(actionCount := if |actions| > U32_MAX then U32_MAX else |actions|);
    for i := 0 to |actions|
      invariant c == ComplexityOf(actions[..i]).(actionCount := |actions|)
    {
      hide Weight, Accumulate;
      assert actions[..i + 1][..i] == actions[..i];
      ComplexityFits(actions[..i]);
      AccumulateAdds(c, actions[i]);
      c := Accumulate(c, actions[i]);
    }
    assert actions[..|actions|] == actions;
    ComplexityCounts(actions);
  }

  // ---------- the two orders agree ----------

  lemma LessIsStrictTotal(a: Complexity, b: Complexity, c: Complexity)
    ensures !Less(a, a)
    ensures Less(a, b) && Less(b, c) ==> Less(a, c)
    ensures a == b || Less(a, b) || Less(b, a)
  {
  }

  lemma LessIsTransitive(a: Complexity, b: Complexity, c: Complexity)
    requires Less(a, b) && Less(b, c)
    ensures Less(a, c)
  {
  }

  lemma LessAdds(a: Complexity, b: Complexity, c: Complexity, d: Complexity)
    requires (a == c || Less(a, c)) && (b == d || Less(b, d))
    ensures Plus(a, b) == Plus(c, d) || Less(Plus(a, b), Plus(c, d))
    ensures Less(a, c) || Less(b, d) ==> Less(Plus(a, b), Plus(c, d))
  {
  }

  lemma ScriptWeightFalls(source: Script, candidate: Script)
    requires ScriptSimplifies(source, candidate) && source != candidate
    ensures ScriptScore(source) > 0
    ensures candidate == Single(Normal)
         || (ScriptScore(candidate) > 0
             && (ScriptScore(candidate) < ScriptScore(source)
                 || (ScriptScore(candidate) == ScriptScore(source) && |candidate.Outcomes()| < |source.Outcomes()|)))
  {
  }

  /** A proper simplification is strictly less complex. */
  lemma SimplificationLowersWeight(source: Action, candidate: Action)
    requires Simplifies(source, candidate) && source != candidate
    ensures Less(Weight(candidate), Weight(source))
  {
    if SameCall(source, candidate) {
      ScriptWeightFalls(source.script, candidate.script);
    }
  }

  /** Simplification is a partial order. */
  lemma SimplificationIsPartialOrder(a: Action, b: Action, c: Action)
    ensures Simplifies(a, a)
    ensures Simplifies(a, b) && Simplifies(b, a) ==> a == b
    ensures Simplifies(a, b) && Simplifies(b, c) ==> Simplifies(a, c)
  {
    if Simplifies(a, b) && Simplifies(b, a) && a != b {
      SimplificationLowersWeight(a, b);
      SimplificationLowersWeight(b, a);
    }
    if Simplifies(a, b) && Simplifies(b, c) { SimplifiesTransitive(a, b, c); }
  }

  predicate PointwiseSimpler(source: seq<Action>, candidate: seq<Action>) {
    |source| == |candidate| && forall i :: 0 <= i < |source| ==> Simplifies(source[i], candidate[i])
  }

  /** Simplifying actions in place lowers the complexity, strictly unless nothing changed. */
  lemma {:induction false} PointwiseLowersComplexity(source: seq<Action>, candidate: seq<Action>)
    requires PointwiseSimpler(source, candidate)
    ensures source == candidate || Less(ComplexityOf(candidate), ComplexityOf(source))
  {
    hide Less, Weight, Simplifies;
    if source != [] {
      var n := |source| - 1;
      PointwiseLowersComplexity(source[..n], candidate[..n]);
      assert source == source[..n] + [source[n]] && candidate == candidate[..n] + [candidate[n]];
      if source[n] != candidate[n] {
        SimplificationLowersWeight(source[n], candidate[n]);
      }
      LessAdds(ComplexityOf(candidate[..n]), Weight(candidate[n]), ComplexityOf(source[..n]), Weight(source[n]));
    }
  }

  /** `candidate` is a subsequence of `source`, at `indices`, with each kept action simplified or unchanged. */
  predicate Embeds(source: seq<Action>, candidate: seq<Action>, indices: seq<nat>) {
    && |indices| == |candidate| && Ascending(indices, |source|)
    && forall i :: 0 <= i < |indices| ==> Simplifies(source[indices[i]], candidate[i])
  }

  lemma {:induction false} AscendingIsBounded(indices: seq<nat>, bound: nat)
    requires Ascending(indices, bound)
    ensures |indices| <= bound
    ensures |indices| == bound ==> forall i :: 0 <= i < bound ==> indices[i] == i
  {
    if indices != [] {
      var n := |indices| - 1;
      AscendingIsBounded(indices[..n], indices[n]);
    }
  }

  /** Deleting and simplifying lowers the complexity, strictly unless nothing changed at all. */
  lemma EmbeddingLowersComplexity(source: seq<Action>, candidate: seq<Action>, indices: seq<nat>)
    requires Embeds(source, candidate, indices)
    ensures source == candidate || Less(ComplexityOf(candidate), ComplexityOf(source))
    ensures |candidate| <= |source|
  {
    AscendingIsBounded(indices, |source|);
    ComplexityCounts(source);
    ComplexityCounts(candidate);
    if |indices| == |source| {
      PointwiseLowersComplexity(source, candidate);
    }
  }

  /** Embeddings compose: simplifying what was already simplified stays a simplification of the source. */
  lemma EmbeddingsCompose(a: seq<Action>, b: seq<Action>, c: seq<Action>, ab: seq<nat>, bc: seq<nat>)
    requires Embeds(a, b, ab) && Embeds(b, c, bc)
    ensures Embeds(a, c, Select(ab, bc))
  {
    var ac := Select(ab, bc);
    forall i | 0 <= i < |ac| ensures Simplifies(a[ac[i]], c[i]) {
      SimplifiesTransitive(a[ab[bc[i]]], b[bc[i]], c[i]);
    }
  }
}
