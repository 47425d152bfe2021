/**
 Shrink candidates: lineage, replay, cut-point and complexity checks, and why a proposal the
 workflow accepts is never rejected by any of the others.

 A candidate's identity hash is modelled as its source and schedule themselves.
 */
module Shrink {
  import opened Wrappers
  import opened Sequences
  import opened Plan
  import opened PlanInvariant
  import opened PlanCompiler
  import opened PlanReplay
  import opened PlanLedger
  import opened TraceSimulation
  import opened ShrinkOrder

  datatype ShrinkAction = ShrinkAction(source: nat, kind: Action)

  type Schedule = seq<ShrinkAction>

  datatype Candidate = Candidate(source: PlannedCase, schedule: Schedule, actions: seq<PlannedAction>)

  datatype ShrinkError =
    | InvalidSource
    | InvalidLineage
    | InvalidSchedule(error: PlanValidationError)
    | InvalidReferenceCutPoint
    | DoesNotSimplifySource
    | InvalidMaterialization
    | SourceMismatch

  function KindsOf(schedule: Schedule): (r: seq<Action>)
    ensures |r| == |schedule|
    ensures forall i :: 0 <= i < |schedule| ==> r[i] == schedule[i].kind
  {
    seq(|schedule|, i requires 0 <= i < |schedule| => schedule[i].kind)
  }

  /** What a recompiled, exactly matching source artifact guarantees. */
  predicate ValidSource(source: PlannedCase) {
    && ValidSpec(source.spec)
    && |source.actions| <= source.spec.maxActions <= MAX_ACTIONS_PER_CASE
    && NumberedFromOne(source.actions)
    && Feasible(source.spec, source.legacy, Kinds(source.actions))
  }

  /** Every compiled case is a valid source. */
  lemma CompiledIsValidSource(planned: PlannedCase, draw: (nat, nat) -> nat)
    requires ValidSpec(planned.spec) && planned.spec.BudgetInRange()
    requires WellPlanned(planned, planned.spec, planned.legacy, draw)
    ensures ValidSource(planned)
  {
    hide Run, Decided, Feasible;
    forall i | 0 <= i < |planned.actions| ensures planned.actions[i].id == i + 1 {
      assert DecidedAfter(planned.spec, planned.legacy, draw, planned.actions[..i], planned.actions[i]);
    }
  }

  // ---------- lineage ----------

  function SourceIndices(schedule: Schedule): (r: seq<nat>)
    ensures |r| == |schedule|
  {
    seq(|schedule|, i requires 0 <= i < |schedule| => if schedule[i].source == 0 then 0 else schedule[i].source - 1)
  }

  /** Strictly increasing source actions, each kept or simplified. */
  predicate Descends(source: seq<Action>, schedule: Schedule) {
    && (forall i :: 0 <= i < |schedule| ==> schedule[i].source >= 1)
    && Embeds(source, KindsOf(schedule), SourceIndices(schedule))
  }

  /** The first source action with this identifier. */
  method FindSource(planned: seq<PlannedAction>, id: nat) returns (found: Option<PlannedAction>)
    requires NumberedFromOne(planned)
    ensures found == if 1 <= id <= |planned| then Some(planned[id - 1]) else None
  {
    for i := 0 to |planned|
      invariant !(1 <= id <= i)
    {
      if planned[i].id == id {
        return Some(planned[i]);
      }
    }
    return None;
  }

  predicate DescendsAt(source: seq<Action>, schedule: Schedule, i: nat)
    requires i < |schedule|
  {
    && 1 <= schedule[i].source <= |source|
    && Simplifies(source[schedule[i].source - 1], schedule[i].kind)
    && (i > 0 ==> schedule[i - 1].source < schedule[i].source)
  }

  lemma {:induction false} StepsAscend(source: seq<Action>, schedule: Schedule, i: nat, j: nat)
    requires forall k :: 0 <= k < |schedule| ==> DescendsAt(source, schedule, k)
    requires i < j < |schedule|
    ensures schedule[i].source < schedule[j].source
  {
    assert DescendsAt(source, schedule, j);
    if i < j - 1 {
      StepsAscend(source, schedule, i, j - 1);
    }
  }

  lemma DescendsStepwise(source: seq<Action>, schedule: Schedule)
    ensures Descends(source, schedule) <==> forall i :: 0 <= i < |schedule| ==> DescendsAt(source, schedule, i)
  {
    hide Simplifies;
    if forall i :: 0 <= i < |schedule| ==> DescendsAt(source, schedule, i) {
      forall i, j | 0 <= i < j < |schedule| ensures SourceIndices(schedule)[i] < SourceIndices(schedule)[j] {
        StepsAscend(source, schedule, i, j);
        assert DescendsAt(source, schedule, i) && DescendsAt(source, schedule, j);
      }
      forall i | 0 <= i < |schedule|
        ensures SourceIndices(schedule)[i] < |source|
        ensures Simplifies(source[SourceIndices(schedule)[i]], KindsOf(schedule)[i])
      {
        assert DescendsAt(source, schedule, i);
      }
      assert Ascending(SourceIndices(schedule), |source|);
      assert forall i :: 0 <= i < |schedule| ==> DescendsAt(source, schedule, i) ==> schedule[i].source >= 1;
    }
    if Descends(source, schedule) {
      forall i | 0 <= i < |schedule| ensures DescendsAt(source, schedule, i) {
        assert Simplifies(source[SourceIndices(schedule)[i]], KindsOf(schedule)[i]);
        if i > 0 { assert SourceIndices(schedule)[i - 1] < SourceIndices(schedule)[i]; }
      }
    }
  }

  method ValidateLineage(planned: seq<PlannedAction>, schedule: Schedule) returns (ok: bool)
    requires NumberedFromOne(planned)
    ensures ok <==> Descends(Kinds(planned), schedule)
  {
    DescendsStepwise(Kinds(planned), schedule);
    hide Descends, Simplifies;
    var previous: Option<nat> := None;
    for i := 0 to |schedule|
      invariant forall j :: 0 <= j < i ==> DescendsAt(Kinds(planned), schedule, j)
      invariant previous == if i == 0 then None else Some(schedule[i - 1].source)
    {
      var entry := schedule[i];
      if previous.Some? && entry.source <= previous.value {
        assert !DescendsAt(Kinds(planned), schedule, i);
        return false;
      }
      var original := FindSource(planned, entry.source);
      if original.None? || !Simplifies(original.value.kind, entry.kind) {
        assert !DescendsAt(Kinds(planned), schedule, i);
        return false;
      }
      previous := Some(entry.source);
    }
    return true;
  }

  // ---------- reference cut points ----------

  /** The shrinker's own rule: the action just before a kill must produce the effect the cut point names. */
  predicate PreviousSupports(previous: Action, cutPoint: CutPoint) {
    match cutPoint
    case ClientRequestForwarded =>
      (previous.DriveCheckout? || previous.RetryBusinessRequest?) && previous.script.Terminal() == CommitThenDelay
    case ClientResponseObserved =>
      (previous.DriveCheckout? || previous.RetryBusinessRequest?) && previous.script.Terminal() != CommitThenDelay
    case WebhookRequestForwarded => previous.DeliverWebhook? || previous.DuplicateWebhook?
    case WebhookResponseObserved => previous.DeliverWebhook? || previous.DuplicateWebhook?
    case SqlProbe => previous.DriveCheckout?
  }

  predicate CutPointsSupported(actions: seq<Action>) {
    forall i :: 0 <= i < |actions| && actions[i].KillApplication? ==>
      i > 0 && PreviousSupports(actions[i - 1], actions[i].cutPoint)
  }

  /** The planner's rule is the shrinker's, but it offers the SQL probe after a normal drive only. */
  lemma SupportedObservation(previous: Action, cutPoint: CutPoint)
    ensures Supports(ObservationAfter(previous), cutPoint)
       <==> PreviousSupports(previous, cutPoint) && (cutPoint.SqlProbe? ==> previous.script.Terminal() == Normal)
    ensures PreviousSupports(previous, cutPoint)
       <==> Supports(ObservationAfter(previous), cutPoint) || (cutPoint.SqlProbe? && previous.DriveCheckout?)
  {
  }

  lemma ObservationIsLast(spec: Spec, s: State, a: Action)
    requires Step(spec, s, a).Some? && !s.legacy && s.kills == 0
    ensures Step(spec, s, a).value.observation == ObservationAfter(a)
  {
  }

  lemma KillIsSupported(spec: Spec, s: State, a: Action)
    requires ValidSpec(spec) && Inv(spec, s) && !s.legacy && a.KillApplication? && Step(spec, s, a).Some?
    ensures s.kills == 0 && Supports(s.observation, a.cutPoint)
  {
  }

  lemma KillsNeverFall(spec: Spec, s: State, a: Action)
    requires Step(spec, s, a).Some?
    ensures s.kills <= Step(spec, s, a).value.kills && Step(spec, s, a).value.legacy == s.legacy
  {
  }

  /** Under the current policy, whatever the planner accepts satisfies the shrinker's cut-point rule. */
  lemma CurrentPolicySupportsCutPoints(spec: Spec, actions: seq<Action>)
    requires ValidSpec(spec) && Run(spec, Initial(false), actions).Some?
    ensures CutPointsSupported(actions)
  {
    hide Step, Supports, PreviousSupports, Inv;
    var s0 := Initial(false);
    InitialInv(spec, false);
    forall i | 0 <= i < |actions| && actions[i].KillApplication?
      ensures i > 0 && PreviousSupports(actions[i - 1], actions[i].cutPoint)
    {
      RunPrefix(spec, s0, actions, i);
      RunKeepsInv(spec, s0, actions[..i]);
      KillIsSupported(spec, Run(spec, s0, actions[..i]).value, actions[i]);
      if i == 0 {
        NothingObservedYet(actions[0].cutPoint);
      } else {
        RunPrefix(spec, s0, actions, i - 1);
        RunKeepsInv(spec, s0, actions[..i - 1]);
        var before := Run(spec, s0, actions[..i - 1]).value;
        KillsNeverFall(spec, before, actions[i - 1]);
        ObservationIsLast(spec, before, actions[i - 1]);
        SupportedObservation(actions[i - 1], actions[i].cutPoint);
      }
    }
  }

  lemma NothingObservedYet(cutPoint: CutPoint)
    ensures !Supports(NoObservation, cutPoint)
  {
  }

  // ---------- materialising a schedule ----------

  /** The replayed action list of a schedule: renumbered, with freshly counted eligible actions. */
  function CandidateActions(spec: Spec, legacy: bool, kinds: seq<Action>): (r: seq<PlannedAction>)
    ensures |r| == |kinds|
  {
    seq(|kinds|, i requires 0 <= i < |kinds| =>
      PlannedAction(i + 1, i + 1, if i == 0 then {} else {i}, i,
                    |EligibleActions(spec, Walk(spec, Initial(legacy), kinds[..i]))|, kinds[i]))
  }

  function ReplayError(actions: seq<Action>): PlanValidationError {
    if |actions| > MAX_ACTIONS_PER_CASE then CapabilityOutsideV1Bounds else PlanIsNotFeasible
  }

  function MaterializeSchedule(source: PlannedCase, schedule: Schedule): Result<Candidate, ShrinkError> {
    var kinds := KindsOf(schedule);
    if !Descends(Kinds(source.actions), schedule) then Err(InvalidLineage)
    else if !Replayable(source.spec, source.legacy, kinds) then Err(InvalidSchedule(ReplayError(kinds)))
    else if !CutPointsSupported(kinds) then Err(InvalidReferenceCutPoint)
    else if !Less(ComplexityOf(kinds), ComplexityOf(Kinds(source.actions))) then Err(DoesNotSimplifySource)
    else Ok(Candidate(source, schedule, CandidateActions(source.spec, source.legacy, kinds)))
  }

  lemma {:induction false} RunDelaysAreBounded(spec: Spec, s: State, actions: seq<Action>)
    requires ValidSpec(spec) && Run(spec, s, actions).Some?
    ensures forall a :: a in actions && a.DelayWebhook? ==> a.milliseconds <= 5000
  {
    hide Apply;
    if actions != [] {
      RunDelaysAreBounded(spec, s, actions[..|actions| - 1]);
      var a := actions[|actions| - 1];
      assert a.DelayWebhook? ==> a.milliseconds in spec.delays;
    }
  }

  lemma CountsAreWalked(spec: Spec, legacy: bool, kinds: seq<Action>, counts: seq<nat>, i: nat)
    requires CountsEligible(spec, legacy, kinds, counts) && i < |kinds|
    ensures counts[i] == |EligibleActions(spec, Walk(spec, Initial(legacy), kinds[..i]))|
  {
    hide EligibleActions, Step;
    assert CountsEligibleAt(spec, legacy, kinds[..i], counts[i]);
    RunIsUnchanged(spec, Initial(legacy), kinds[..i]);
  }

  method CheckCutPoints(actions: seq<Action>) returns (ok: bool)
    ensures ok <==> CutPointsSupported(actions)
  {
    hide PreviousSupports;
    for i := 0 to |actions|
      invariant forall j :: 0 <= j < i && actions[j].KillApplication? ==>
        j > 0 && PreviousSupports(actions[j - 1], actions[j].cutPoint)
    {
      if actions[i].KillApplication? {
        if i == 0 || !PreviousSupports(actions[i - 1], actions[i].cutPoint) {
          return false;
        }
      }
    }
    return true;
  }

  method MaterializeCandidate(source: PlannedCase, schedule: Schedule)
    returns (result: Result<Candidate, ShrinkError>)
    requires ValidSource(source)
    ensures result == MaterializeSchedule(source, schedule)
  {
    hide Descends, Feasible, Less, CutPointsSupported, EligibleActions, NumberedFromOne;
    var lineage := ValidateLineage(source.actions, schedule);
    if !lineage {
      return Err(InvalidLineage);
    }
    var kinds := KindsOf(schedule);
    var counts := ValidateReplayActionKinds(source.spec, kinds, source.legacy);
    if counts.Err? {
      return Err(InvalidSchedule(counts.error));
    }
    var supported := CheckCutPoints(kinds);
    if !supported {
      return Err(InvalidReferenceCutPoint);
    }
    DelaysOfFeasible(source.spec, source.legacy, kinds);
    DelaysOfFeasible(source.spec, source.legacy, Kinds(source.actions));
    var mine := ComputeComplexity(kinds);
    var original := ComputeComplexity(Kinds(source.actions));
    if !Less(mine, original) {
      return Err(DoesNotSimplifySource);
    }
    var actions := MaterializeActions(source.spec, source.legacy, kinds, counts.value);
    return Ok(Candidate(source, schedule, actions));
  }

  /** Renumbers a replayed schedule and records its eligible counts. */
  method MaterializeActions(ghost spec: Spec, ghost legacy: bool, kinds: seq<Action>, counts: seq<nat>)
    returns (actions: seq<PlannedAction>)
    requires CountsEligible(spec, legacy, kinds, counts)
    ensures actions == CandidateActions(spec, legacy, kinds)
  {
    hide EligibleActions, CountsEligibleAt;
    actions := [];
    for i := 0 to |kinds|
      invariant |actions| == i
      invariant forall j :: 0 <= j < i ==> actions[j] == CandidateActions(spec, legacy, kinds)[j]
    {
      CountsAreWalked(spec, legacy, kinds, counts, i);
      actions := actions + [PlannedAction(i + 1, i + 1, if i == 0 then {} else {i}, i, counts[i], kinds[i])];
    }
  }

  function RecordedCounts(actions: seq<PlannedAction>): (r: seq<nat>)
    ensures |r| == |actions|
  {
    seq(|actions|, i requires 0 <= i < |actions| => actions[i].eligibleCount)
  }

  /**
   A checked candidate carries its schedule as a plan of its own: numbered afresh, each action
   depending on the one before, with the eligible counts a replay of it would find.
   */
  lemma CandidatesAreNumbered(c: Candidate)
    requires MaterializeSchedule(c.source, c.schedule) == Ok(c)
    ensures Kinds(c.actions) == KindsOf(c.schedule)
    ensures forall i :: 0 <= i < |c.actions| ==> Numbered(c.actions[i], i)
    ensures CountsEligible(c.source.spec, c.source.legacy, Kinds(c.actions), RecordedCounts(c.actions))
  {
    hide Descends, CutPointsSupported, Less, ComplexityOf, EligibleActions, Run, Walk;
    var spec, kinds := c.source.spec, KindsOf(c.schedule);
    var s0 := Initial(c.source.legacy);
    assert Kinds(c.actions) == kinds;
    forall i | 0 <= i < |kinds|
      ensures CountsEligibleAt(spec, c.source.legacy, kinds[..i], RecordedCounts(c.actions)[i])
    {
      RunPrefix(spec, s0, kinds, i);
      RunIsUnchanged(spec, s0, kinds[..i]);
    }
  }

  lemma DelaysOfFeasible(spec: Spec, legacy: bool, actions: seq<Action>)
    requires ValidSpec(spec) && Feasible(spec, legacy, actions)
    ensures forall a :: a in actions && a.DelayWebhook? ==> a.milliseconds <= 5000
  {
    RunDelaysAreBounded(spec, Initial(legacy), actions);
  }

  // ---------- only the cut-point rule can reject a feasible proposal ----------

  /** `proposal` was obtained from `current` by deleting and simplifying entries. */
  predicate Derived(current: Schedule, proposal: Schedule, indices: seq<nat>) {
    && Embeds(KindsOf(current), KindsOf(proposal), indices)
    && forall i :: 0 <= i < |proposal| ==> proposal[i].source == current[indices[i]].source
  }

  /** The source itself, or a schedule that descends from it: what the generator may be asked to shrink. */
  predicate ValidCurrent(source: PlannedCase, current: Schedule) {
    Descends(Kinds(source.actions), current)
  }

  /** Only the unchanged source schedule is refused for not simplifying the source. */
  lemma OnlyTheSourceDoesNotSimplify(source: PlannedCase, schedule: Schedule)
    requires Descends(Kinds(source.actions), schedule)
    ensures KindsOf(schedule) == Kinds(source.actions)
         || Less(ComplexityOf(KindsOf(schedule)), ComplexityOf(Kinds(source.actions)))
    ensures |schedule| <= |source.actions|
  {
    EmbeddingLowersComplexity(Kinds(source.actions), KindsOf(schedule), SourceIndices(schedule));
  }

  /** Deriving from a descendant stays in the lineage. */
  lemma DerivedDescends(source: seq<Action>, current: Schedule, proposal: Schedule, indices: seq<nat>)
    requires Descends(source, current) && Derived(current, proposal, indices)
    ensures Descends(source, proposal)
  {
    EmbeddingsCompose(source, KindsOf(current), KindsOf(proposal), SourceIndices(current), indices);
    assert SourceIndices(proposal) == Select(SourceIndices(current), indices);
  }

  lemma DerivedSelects(current: Schedule, proposal: Schedule, indices: seq<nat>, kept: seq<nat>)
    requires Derived(current, proposal, indices) && Ascending(kept, |proposal|)
    ensures Derived(current, Select(proposal, kept), Select(indices, kept))
    ensures KindsOf(Select(proposal, kept)) == Select(KindsOf(proposal), kept)
  {
    hide Simplifies;
  }

  function NormalizedSchedule(source: PlannedCase, proposal: Schedule): Schedule {
    Select(proposal, Retained(source.spec, Initial(source.legacy), KindsOf(proposal)))
  }

  predicate Completable(source: PlannedCase, proposal: Schedule) {
    Walk(source.spec, Initial(source.legacy), KindsOf(proposal)).phase.Complete?
  }

  lemma ProperlyLower(current: Schedule, proposal: Schedule, indices: seq<nat>, kept: seq<nat>)
    requires Derived(current, proposal, indices) && KindsOf(proposal) != KindsOf(current)
    requires Ascending(kept, |proposal|)
    ensures Less(ComplexityOf(KindsOf(Select(proposal, kept))), ComplexityOf(KindsOf(current)))
  {
    var result := Select(proposal, kept);
    DerivedSelects(current, proposal, indices, kept);
    EmbeddingLowersComplexity(KindsOf(current), KindsOf(result), Select(indices, kept));
    AscendingIsBounded(kept, |proposal|);
    AscendingIsBounded(indices, |current|);
    if |kept| == |proposal| {
      assert result == proposal;
    }
  }

  /**
   A properly reduced proposal that normalises to a complete run always yields a candidate that is
   strictly simpler than both the current schedule and the source, unless it breaks the cut-point
   rule, which the current policy rules out.
   */
  lemma FeasibleProposalsMaterialize(source: PlannedCase, current: Schedule, proposal: Schedule, indices: seq<nat>)
    requires ValidSource(source) && ValidCurrent(source, current)
    requires Derived(current, proposal, indices) && KindsOf(proposal) != KindsOf(current)
    requires Completable(source, proposal)
    ensures var kept := NormalizedSchedule(source, proposal);
            && Less(ComplexityOf(KindsOf(kept)), ComplexityOf(KindsOf(current)))
            && (if CutPointsSupported(KindsOf(kept))
                then MaterializeSchedule(source, kept).Ok? && MaterializeSchedule(source, kept).value.schedule == kept
                else MaterializeSchedule(source, kept) == Err(InvalidReferenceCutPoint))
            && (!source.legacy ==> CutPointsSupported(KindsOf(kept)))
  {
    assert |indices| == |proposal|;
    hide Less, Simplifies, CutPointsSupported, Descends, Retained, Walk, Run, Derived;
    var kinds := KindsOf(proposal);
    var retained := Retained(source.spec, Initial(source.legacy), kinds);
    var kept := NormalizedSchedule(source, proposal);
    NormalizationIsSound(source.spec, source.legacy, kinds);
    DerivedSelects(current, proposal, indices, retained);
    DerivedDescends(Kinds(source.actions), current, kept, Select(indices, retained));
    ProperlyLower(current, proposal, indices, retained);
    OnlyTheSourceDoesNotSimplify(source, current);
    OnlyTheSourceDoesNotSimplify(source, kept);
    if KindsOf(current) != Kinds(source.actions) {
      LessIsTransitive(ComplexityOf(KindsOf(kept)), ComplexityOf(KindsOf(current)),
                       ComplexityOf(Kinds(source.actions)));
    }
    if !source.legacy {
      CurrentPolicySupportsCutPoints(source.spec, KindsOf(kept));
    }
  }
}
