/** Replaying a list of actions: the strict validator and the greedy normaliser. */
module PlanReplay {
  import opened Wrappers
  import opened Sequences
  import opened Plan
  import opened PlanInvariant
  import opened PlanCompiler

  // ---------- the strict validator ----------

  /** How many actions were eligible before each action of an accepted run. */
  ghost predicate CountsEligible(spec: Spec, legacy: bool, actions: seq<Action>, counts: seq<nat>) {
    && |counts| == |actions|
    && forall i :: 0 <= i < |actions| ==> CountsEligibleAt(spec, legacy, actions[..i], counts[i])
  }

  ghost predicate CountsEligibleAt(spec: Spec, legacy: bool, before: seq<Action>, count: nat) {
    var s := Run(spec, Initial(legacy), before);
    s.Some? && count == |EligibleActions(spec, s.value)|
  }

  /** An accepted schedule: valid capabilities, at most forty actions, and a complete run. */
  predicate Replayable(spec: Spec, legacy: bool, actions: seq<Action>) {
    ValidSpec(spec) && |actions| <= MAX_ACTIONS_PER_CASE && Feasible(spec, legacy, actions)
  }

  /** One round of the loop: the next state and the eligible count, or `None` when the action is not eligible. */
  method ReplayAction(spec: Spec, ghost legacy: bool, ghost before: seq<Action>, s: State, a: Action)
    returns (step: Option<(State, nat)>)
    requires ValidSpec(spec) && Inv(spec, s) && Run(spec, Initial(legacy), before) == Some(s)
    ensures step.None? ==> Run(spec, Initial(legacy), before + [a]).None?
    ensures step.Some? ==>
      && Run(spec, Initial(legacy), before + [a]) == Some(step.value.0) && Inv(spec, step.value.0)
      && CountsEligibleAt(spec, legacy, before, step.value.1)
  {
    hide CanTake, Apply, EligibleActions, Inv, Run, CountsEligibleAt, Initial;
    var eligible := EligibleActions(spec, s);
    ReplayStep(spec, legacy, before, s, a);
    if a !in eligible {
      return None;
    }
    var next := Apply(s, a);
    if next.None? {
      return None;
    }
    return Some((next.value, |eligible|));
  }

  lemma ReplayStep(spec: Spec, legacy: bool, before: seq<Action>, s: State, a: Action)
    requires ValidSpec(spec) && Inv(spec, s) && Run(spec, Initial(legacy), before) == Some(s)
    ensures CountsEligibleAt(spec, legacy, before, |EligibleActions(spec, s)|)
    ensures a !in EligibleActions(spec, s) ==> Run(spec, Initial(legacy), before + [a]).None?
    ensures a in EligibleActions(spec, s) ==>
      && Apply(s, a).Some? && Inv(spec, Apply(s, a).value)
      && Run(spec, Initial(legacy), before + [a]) == Apply(s, a)
  {
    hide CanTake, Apply, EligibleActions, Inv, Run, CountsEligibleAt;
    EligibleIffCanTake(spec, s, a);
    RunAppend(spec, Initial(legacy), before, a);
    CountedHere(spec, legacy, before, s);
    if a in EligibleActions(spec, s) {
      EligibleApplies(spec, s, a);
    }
  }

  /** The loop: takes every action in turn, and asks for completion at the end. */
  method ReplayAll(spec: Spec, actions: seq<Action>, legacy: bool)
    returns (result: Result<seq<nat>, PlanValidationError>)
    requires ValidSpec(spec)
    ensures result.Ok? <==> Feasible(spec, legacy, actions)
    ensures result.Ok? ==> CountsEligible(spec, legacy, actions, result.value)
    ensures result.Err? ==> result == Err(PlanIsNotFeasible)
  {
    var state := Initial(legacy);
    var counts: seq<nat> := [];
    hide Inv, Run, CountsEligible, CountsEligibleAt, Initial, ValidSpec;
    StartOfReplay(spec, legacy);
    for i := 0 to |actions|
      invariant Run(spec, Initial(legacy), actions[..i]) == Some(state) && Inv(spec, state)
      invariant CountsEligible(spec, legacy, actions[..i], counts)
    {
      assert actions[..i + 1] == actions[..i] + [actions[i]];
      var step := ReplayAction(spec, legacy, actions[..i], state, actions[i]);
      if step.None? {
        RunNeedsPrefix(spec, Initial(legacy), actions, i + 1);
        return Err(PlanIsNotFeasible);
      }
      CountsGrow(spec, legacy, actions[..i], counts, actions[i], step.value.1);
      state, counts := step.value.0, counts + [step.value.1];
    }
    assert actions[..|actions|] == actions;
    if !state.phase.Complete? {
      return Err(PlanIsNotFeasible);
    }
    return Ok(counts);
  }

  method ValidateReplayActionKinds(spec: Spec, actions: seq<Action>, legacy: bool)
    returns (result: Result<seq<nat>, PlanValidationError>)
    ensures result.Ok? <==> Replayable(spec, legacy, actions)
    ensures result.Ok? ==> CountsEligible(spec, legacy, actions, result.value)
    ensures !ValidSpec(spec) ==> result == Err(ValidateSpec(spec).error)
    ensures ValidSpec(spec) && |actions| > MAX_ACTIONS_PER_CASE ==> result == Err(CapabilityOutsideV1Bounds)
    ensures ValidSpec(spec) && |actions| <= MAX_ACTIONS_PER_CASE && result.Err? ==> result == Err(PlanIsNotFeasible)
  {
    var checked := ValidateSpec(spec);
    if checked.Err? {
      return Err(checked.error);
    }
    if |actions| > MAX_ACTIONS_PER_CASE {
      return Err(CapabilityOutsideV1Bounds);
    }
    result := ReplayAll(spec, actions, legacy);
  }

  lemma StartOfReplay(spec: Spec, legacy: bool)
    requires ValidSpec(spec)
    ensures Run(spec, Initial(legacy), []) == Some(Initial(legacy)) && Inv(spec, Initial(legacy))
    ensures CountsEligible(spec, legacy, [], [])
  {
    InitialInv(spec, legacy);
  }

  lemma CountedHere(spec: Spec, legacy: bool, before: seq<Action>, s: State)
    requires Run(spec, Initial(legacy), before) == Some(s)
    ensures CountsEligibleAt(spec, legacy, before, |EligibleActions(spec, s)|)
  {
    hide Run, EligibleActions;
  }

  lemma CountsGrow(spec: Spec, legacy: bool, actions: seq<Action>, counts: seq<nat>, a: Action, count: nat)
    requires CountsEligible(spec, legacy, actions, counts)
    requires CountsEligibleAt(spec, legacy, actions, count)
    ensures CountsEligible(spec, legacy, actions + [a], counts + [count])
  {
    hide CountsEligibleAt;
    forall i | 0 <= i < |actions| + 1
      ensures CountsEligibleAt(spec, legacy, (actions + [a])[..i], (counts + [count])[i])
    {
      if i < |actions| {
        assert (actions + [a])[..i] == actions[..i];
      } else {
        assert (actions + [a])[..i] == actions;
      }
    }
  }

  lemma {:induction false} RunNeedsPrefix(spec: Spec, s: State, actions: seq<Action>, n: nat)
    requires n <= |actions| && Run(spec, s, actions[..n]).None?
    ensures Run(spec, s, actions).None?
    decreases |actions|
  {
    hide Step;
    if n < |actions| {
      var last := |actions| - 1;
      assert actions[..last][..n] == actions[..n];
      RunNeedsPrefix(spec, s, actions[..last], n);
    } else {
      assert actions[..n] == actions;
    }
  }

  /** A compiled plan replays, and no recorded count exceeds the replayed one. */
  lemma CompiledPlanReplays(
    planned: PlannedCase, spec: Spec, legacy: bool, draw: (nat, nat) -> nat, counts: seq<nat>)
    requires ValidSpec(spec) && spec.BudgetInRange() && WellPlanned(planned, spec, legacy, draw)
    requires CountsEligible(spec, legacy, Kinds(planned.actions), counts)
    ensures Replayable(spec, legacy, Kinds(planned.actions))
    ensures forall i :: 0 <= i < |counts| ==> 1 <= planned.actions[i].eligibleCount <= counts[i]
  {
    hide Decided, Run, EligibleActions, Feasible;
    var actions := planned.actions;
    forall i | 0 <= i < |counts| ensures 1 <= actions[i].eligibleCount <= counts[i] {
      assert DecidedAfter(spec, legacy, draw, actions[..i], actions[i]);
      KindsPrefix(actions, i);
      assert CountsEligibleAt(spec, legacy, Kinds(actions)[..i], counts[i]);
      RecordedCount(spec, Run(spec, Initial(legacy), Kinds(actions[..i])).value, spec.maxActions - i, draw, actions[i]);
    }
  }

  // ---------- the greedy normaliser ----------

  /** The state a greedy pass is in: ineligible actions are passed over. */
  function Walk(spec: Spec, s: State, actions: seq<Action>): State {
    if actions == [] then s
    else
      var last := |actions| - 1;
      var t := Walk(spec, s, actions[..last]);
      var u := Step(spec, t, actions[last]);
      if u.Some? then u.value else t
  }

  /** The indices a greedy pass keeps. */
  function Retained(spec: Spec, s: State, actions: seq<Action>): (r: seq<nat>)
    ensures forall i :: 0 <= i < |r| ==> r[i] < |actions|
  {
    if actions == [] then []
    else
      var last := |actions| - 1;
      var before := Retained(spec, s, actions[..last]);
      if Step(spec, Walk(spec, s, actions[..last]), actions[last]).Some? then before + [last] else before
  }

  /** The schedule a greedy pass keeps. */
  function Normalized(spec: Spec, s: State, actions: seq<Action>): seq<Action> {
    Select(actions, Retained(spec, s, actions))
  }

  method NormalizeReplayActionKinds(spec: Spec, actions: seq<Action>, legacy: bool)
    returns (retained: Option<seq<nat>>)
    ensures retained.Some? <==>
      ValidSpec(spec) && Walk(spec, Initial(legacy), actions).phase.Complete?
    ensures retained.Some? ==> retained.value == Retained(spec, Initial(legacy), actions)
  {
    if ValidateSpec(spec).Err? {
      return None;
    }
    var state := Initial(legacy);
    var kept: seq<nat> := [];
    InitialInv(spec, legacy);
    hide CanTake, Apply, EligibleActions, Inv;
    for i := 0 to |actions|
      invariant state == Walk(spec, Initial(legacy), actions[..i]) && Inv(spec, state)
      invariant kept == Retained(spec, Initial(legacy), actions[..i])
    {
      var a := actions[i];
      var eligible := EligibleActions(spec, state);
      EligibleIffCanTake(spec, state, a);
      assert actions[..i + 1][..i] == actions[..i];
      if a in eligible {
        EligibleApplies(spec, state, a);
        var next := Apply(state, a);
        if next.None? {
          return None;
        }
        state := next.value;
        kept := kept + [i];
      }
    }
    assert actions[..|actions|] == actions;
    return if state.phase.Complete? then Some(kept) else None;
  }

  /** What is kept is a subsequence that runs, and it runs to where the greedy pass ended. */
  lemma {:induction false} RetainedRuns(spec: Spec, s: State, actions: seq<Action>)
    ensures Ascending(Retained(spec, s, actions), |actions|)
    ensures Run(spec, s, Normalized(spec, s, actions)) == Some(Walk(spec, s, actions))
  {
    hide Step, Select, Run;
    if actions == [] {
      NothingRuns(spec, s, actions);
    } else {
      var last := |actions| - 1;
      RetainedRuns(spec, s, actions[..last]);
      var before := Normalized(spec, s, actions[..last]);
      SelectFromPrefix(actions, last, Retained(spec, s, actions[..last]));
      if Step(spec, Walk(spec, s, actions[..last]), actions[last]).Some? {
        RunAppend(spec, s, before, actions[last]);
      }
    }
  }

  /** An action is kept exactly when it can be taken after what was kept before it. */
  lemma {:induction false} KeptExactlyWhenPossible(spec: Spec, s: State, actions: seq<Action>, i: nat)
    requires ValidSpec(spec) && Inv(spec, s) && i < |actions|
    ensures i in Retained(spec, s, actions) <==> CanTake(spec, Walk(spec, s, actions[..i]), actions[i])
  {
    hide CanTake, Apply, Inv;
    var last := |actions| - 1;
    if i < last {
      KeptExactlyWhenPossible(spec, s, actions[..last], i);
      assert actions[..last][..i] == actions[..i];
    } else {
      WalkKeepsInv(spec, s, actions[..last]);
      var t := Walk(spec, s, actions[..last]);
      if CanTake(spec, t, actions[last]) { EligibleApplies(spec, t, actions[last]); }
    }
  }

  lemma {:induction false} WalkKeepsInv(spec: Spec, s: State, actions: seq<Action>)
    requires ValidSpec(spec) && Inv(spec, s)
    ensures Inv(spec, Walk(spec, s, actions))
  {
    hide CanTake, Apply, Inv;
    if actions != [] {
      var last := |actions| - 1;
      WalkKeepsInv(spec, s, actions[..last]);
      var t := Walk(spec, s, actions[..last]);
      if Step(spec, t, actions[last]).Some? { EligibleApplies(spec, t, actions[last]); }
    }
  }

  lemma NothingRuns(spec: Spec, s: State, actions: seq<Action>)
    ensures Select(actions, []) == [] && Run(spec, s, []) == Some(s)
  {
  }

  lemma SelectFromPrefix(actions: seq<Action>, n: nat, indices: seq<nat>)
    requires n < |actions| && forall i :: 0 <= i < |indices| ==> indices[i] < n
    ensures Select(actions, indices) == Select(actions[..n], indices)
    ensures Select(actions, indices + [n]) == Select(actions[..n], indices) + [actions[n]]
  {
  }

  function Indices(n: nat): seq<nat> {
    seq(n, i => i)
  }

  /** A schedule that already runs is left unchanged. */
  lemma {:induction false} RunIsUnchanged(spec: Spec, s: State, actions: seq<Action>)
    requires Run(spec, s, actions).Some?
    ensures Walk(spec, s, actions) == Run(spec, s, actions).value
    ensures Retained(spec, s, actions) == Indices(|actions|)
    ensures Normalized(spec, s, actions) == actions
  {
    hide Step;
    if actions != [] {
      var last := |actions| - 1;
      RunIsUnchanged(spec, s, actions[..last]);
      assert Indices(|actions|) == Indices(last) + [last];
    }
  }

  /** Normalising is sound, and normalising again keeps everything. */
  lemma NormalizationIsSound(spec: Spec, legacy: bool, actions: seq<Action>)
    requires ValidSpec(spec) && Walk(spec, Initial(legacy), actions).phase.Complete?
    ensures var kept := Normalized(spec, Initial(legacy), actions);
            && Ascending(Retained(spec, Initial(legacy), actions), |actions|)
            && Feasible(spec, legacy, kept)
            && (|kept| <= MAX_ACTIONS_PER_CASE ==> Replayable(spec, legacy, kept))
            && Retained(spec, Initial(legacy), kept) == Indices(|kept|)
            && Normalized(spec, Initial(legacy), kept) == kept
  {
    hide Run, Walk, Retained;
    RetainedRuns(spec, Initial(legacy), actions);
    RunIsUnchanged(spec, Initial(legacy), Normalized(spec, Initial(legacy), actions));
  }

  /** A feasible schedule survives normalisation whole. */
  lemma FeasibleIsFixed(spec: Spec, legacy: bool, actions: seq<Action>)
    requires Feasible(spec, legacy, actions)
    ensures Walk(spec, Initial(legacy), actions).phase.Complete?
    ensures Normalized(spec, Initial(legacy), actions) == actions
  {
    RunIsUnchanged(spec, Initial(legacy), actions);
  }
}
