/**
 The memoised search for the shortest completion: its closed form, why the closed form is the
 true shortest length, and why the provisional empty entry never leaks into an answer.
 */
module PlanDistance {
  import opened Wrappers
  import opened Plan
  import opened PlanInvariant

  /** Shortest completion of a healthy state. */
  function PhaseDistance(spec: Spec, phase: Phase, objects: nat): int {
    var eventsAfterConfirm := 2 * objects * spec.EventsPerProvider() + 2;
    match phase
    case Start => 4 + 2 * spec.EventsPerProvider()
    case CheckoutRetryable(_, ambiguous) =>
      if ambiguous then eventsAfterConfirm + 2
      else eventsAfterConfirm + 2 + 2 * spec.EventsPerProvider()
    case CheckoutResponseHeld => eventsAfterConfirm + 2
    case PaymentIntentKnown => eventsAfterConfirm + 1
    case ConfirmRetryable(_, _) => eventsAfterConfirm + 1
    case ConfirmResponseHeld => eventsAfterConfirm + 1
    case Confirmed => eventsAfterConfirm
    case Events(e) => 2 * (objects * spec.EventsPerProvider() - e.generated) + e.pending + 2
    case Quiesced => 1
    case Complete => 0
  }

  /** The closed form: a restart, then the healthy distance. It does not depend on kills or policy. */
  function Distance(spec: Spec, s: State): int {
    (if s.healthy then 0 else 1) + PhaseDistance(spec, s.phase, s.objects)
  }

  lemma DistanceInRange(spec: Spec, s: State)
    requires ValidSpec(spec) && Inv(spec, s)
    ensures 0 <= Distance(spec, s) <= 61
    ensures Distance(spec, s) == 0 <==> s.phase.Complete?
  {
    ObjectsFitOneByte(spec, s);
  }

  lemma StartLosesOne(spec: Spec, s: State, a: Action)
    requires Inv(spec, s) && s.healthy && s.phase.Start?
    requires PhaseAllows(spec, s.phase, s.objects, a) && Apply(s, a).Some?
    ensures Distance(spec, Apply(s, a).value) >= Distance(spec, s) - 1
  {
  }

  lemma RetryLosesOne(spec: Spec, s: State, a: Action)
    requires Inv(spec, s) && s.healthy && s.phase.CheckoutRetryable?
    requires PhaseAllows(spec, s.phase, s.objects, a) && Apply(s, a).Some?
    ensures Distance(spec, Apply(s, a).value) >= Distance(spec, s) - 1
  {
  }

  lemma PaymentLosesOne(spec: Spec, s: State, a: Action)
    requires Inv(spec, s) && s.healthy && !s.phase.Start? && !s.phase.CheckoutRetryable? && !s.phase.Events?
    requires PhaseAllows(spec, s.phase, s.objects, a) && Apply(s, a).Some?
    ensures Distance(spec, Apply(s, a).value) >= Distance(spec, s) - 1
  {
  }

  lemma EventLosesOne(spec: Spec, s: State, a: Action)
    requires ValidSpec(spec) && Inv(spec, s) && s.healthy && s.phase.Events?
    requires PhaseAllows(spec, s.phase, s.objects, a) && Apply(s, a).Some?
    ensures Distance(spec, Apply(s, a).value) >= Distance(spec, s) - 1
  {
    ObjectsFitOneByte(spec, s);
  }

  /** No accepted action shortens the distance by more than one. */
  lemma StepLosesAtMostOne(spec: Spec, s: State, a: Action)
    requires ValidSpec(spec) && Inv(spec, s) && CanTake(spec, s, a) && Apply(s, a).Some?
    ensures Distance(spec, Apply(s, a).value) >= Distance(spec, s) - 1
  {
    if s.healthy && PhaseAllows(spec, s.phase, s.objects, a) {
      if s.phase.Events? {
        EventLosesOne(spec, s, a);
      } else if s.phase.Start? {
        StartLosesOne(spec, s, a);
      } else if s.phase.CheckoutRetryable? {
        RetryLosesOne(spec, s, a);
      } else {
        PaymentLosesOne(spec, s, a);
      }
    }
  }

  /** The action a shortest completion takes next. */
  function Advance(spec: Spec, s: State): Action {
    if !s.healthy then RestartAndAwaitHealth
    else
      match s.phase
      case Start => DriveCheckout(Single(Normal))
      case CheckoutRetryable(_, ambiguous) =>
        if ambiguous then RetrievePaymentIntent else RetryBusinessRequest(Single(Normal))
      case CheckoutResponseHeld => ReleaseProviderGate
      case PaymentIntentKnown => ConfirmPaymentIntent(Single(Normal))
      case ConfirmRetryable(_, _) => RetryProviderRequest(Single(Normal))
      case ConfirmResponseHeld => ReleaseProviderGate
      case Confirmed => GenerateProviderEvent
      case Events(e) =>
        if e.generated < s.objects * spec.EventsPerProvider() then GenerateProviderEvent
        else if e.pending > 0 then DeliverWebhook
        else WaitForQuiescence
      case Quiesced => CheckCheckpoint
      case Complete => CheckCheckpoint
  }

  lemma AdvanceIsEligible(spec: Spec, s: State)
    requires ValidSpec(spec) && Inv(spec, s) && !s.phase.Complete?
    ensures CanTake(spec, s, Advance(spec, s))
  {
    ObjectsFitOneByte(spec, s);
  }

  lemma CheckoutAdvanceShortens(spec: Spec, s: State)
    requires ValidSpec(spec) && Inv(spec, s) && s.healthy && (s.phase.Start? || s.phase.CheckoutRetryable?)
    requires Apply(s, Advance(spec, s)).Some?
    ensures Distance(spec, Apply(s, Advance(spec, s)).value) == Distance(spec, s) - 1
  {
    var t := Apply(s, Advance(spec, s)).value;
    assert t.healthy && t.phase.PaymentIntentKnown?;
  }

  lemma EventAdvanceShortens(spec: Spec, s: State)
    requires ValidSpec(spec) && Inv(spec, s) && s.healthy && s.phase.Events?
    requires Apply(s, Advance(spec, s)).Some?
    ensures Distance(spec, Apply(s, Advance(spec, s)).value) == Distance(spec, s) - 1
  {
  }

  lemma KnownAdvanceShortens(spec: Spec, s: State)
    requires ValidSpec(spec) && Inv(spec, s) && s.healthy
    requires s.phase.CheckoutResponseHeld? || s.phase.PaymentIntentKnown? || s.phase.ConfirmRetryable?
    requires Apply(s, Advance(spec, s)).Some?
    ensures Distance(spec, Apply(s, Advance(spec, s)).value) == Distance(spec, s) - 1
  {
  }

  lemma ConfirmedAdvanceShortens(spec: Spec, s: State)
    requires ValidSpec(spec) && Inv(spec, s) && s.healthy
    requires s.phase.ConfirmResponseHeld? || s.phase.Confirmed? || s.phase.Quiesced?
    requires Apply(s, Advance(spec, s)).Some?
    ensures Distance(spec, Apply(s, Advance(spec, s)).value) == Distance(spec, s) - 1
  {
  }

  lemma AdvanceShortens(spec: Spec, s: State)
    requires ValidSpec(spec) && Inv(spec, s) && !s.phase.Complete?
    requires Apply(s, Advance(spec, s)).Some?
    ensures Distance(spec, Apply(s, Advance(spec, s)).value) == Distance(spec, s) - 1
  {
    if s.healthy {
      if s.phase.Start? || s.phase.CheckoutRetryable? {
        CheckoutAdvanceShortens(spec, s);
      } else if s.phase.Events? {
        EventAdvanceShortens(spec, s);
      } else {
        if s.phase.CheckoutResponseHeld? || s.phase.PaymentIntentKnown? || s.phase.ConfirmRetryable? {
          KnownAdvanceShortens(spec, s);
        } else {
          ConfirmedAdvanceShortens(spec, s);
        }
      }
    }
  }

  /** Some accepted action shortens the distance by exactly one: the planner is never stuck. */
  lemma AdvanceLosesOne(spec: Spec, s: State)
    requires ValidSpec(spec) && Inv(spec, s) && !s.phase.Complete?
    ensures CanTake(spec, s, Advance(spec, s))
    ensures Apply(s, Advance(spec, s)).Some?
    ensures Distance(spec, Apply(s, Advance(spec, s)).value) == Distance(spec, s) - 1
  {
    AdvanceIsEligible(spec, s);
    CanTakeKeepsInv(spec, s, Advance(spec, s));
    AdvanceShortens(spec, s);
  }

  // ---------- the closed form is the shortest length ----------

  predicate Completes(spec: Spec, s: State, actions: seq<Action>) {
    Run(spec, s, actions).Some? && Run(spec, s, actions).value.phase.Complete?
  }

  ghost predicate IsShortest(spec: Spec, s: State, d: int) {
    && (exists actions :: |actions| == d && Completes(spec, s, actions))
    && (forall actions :: Completes(spec, s, actions) ==> d <= |actions|)
  }

  lemma {:induction false} RunLosesAtMostItsLength(spec: Spec, s: State, actions: seq<Action>)
    requires ValidSpec(spec) && Inv(spec, s) && Run(spec, s, actions).Some?
    ensures Distance(spec, Run(spec, s, actions).value) >= Distance(spec, s) - |actions|
  {
    if actions != [] {
      var last := |actions| - 1;
      RunLosesAtMostItsLength(spec, s, actions[..last]);
      RunKeepsInv(spec, s, actions[..last]);
      StepLosesAtMostOne(spec, Run(spec, s, actions[..last]).value, actions[last]);
    }
  }

  lemma {:induction false} ShortestCompletion(spec: Spec, s: State) returns (actions: seq<Action>)
    requires ValidSpec(spec) && Inv(spec, s)
    ensures |actions| == Distance(spec, s) && Completes(spec, s, actions)
    decreases Distance(spec, s)
  {
    DistanceInRange(spec, s);
    if s.phase.Complete? {
      actions := [];
    } else {
      var a := Advance(spec, s);
      AdvanceLosesOne(spec, s);
      CanTakeKeepsInv(spec, s, a);
      var t := Apply(s, a).value;
      DistanceInRange(spec, t);
      var rest := ShortestCompletion(spec, t);
      RunAppend(spec, s, [], a);
      assert [] + [a] == [a];
      RunConcat(spec, s, [a], rest);
      actions := [a] + rest;
    }
  }

  /** `Distance` is the length of a shortest accepted completion, from every reachable state. */
  lemma DistanceIsShortest(spec: Spec, s: State)
    requires ValidSpec(spec) && Inv(spec, s)
    ensures IsShortest(spec, s, Distance(spec, s))
  {
    var best := ShortestCompletion(spec, s);
    forall actions | Completes(spec, s, actions) ensures Distance(spec, s) <= |actions| {
      RunLosesAtMostItsLength(spec, s, actions);
      RunKeepsInv(spec, s, actions);
      DistanceInRange(spec, Run(spec, s, actions).value);
    }
  }

  // ---------- the memoised search ----------

  /** An answered entry holds the exact distance; an unanswered one belongs to a state still being searched. */
  ghost predicate CacheSound(spec: Spec, entries: map<State, Option<nat>>, searching: set<State>) {
    forall s :: s in entries ==>
      if s in searching then entries[s] == None
      else Inv(spec, s) && !s.phase.Complete? && entries[s].Some? && entries[s].value == Distance(spec, s)
  }

  /** Nothing that was answered or opened is forgotten or answered differently. */
  ghost predicate Remembers(before: map<State, Option<nat>>, after: map<State, Option<nat>>) {
    forall s :: s in before ==> s in after && after[s] == before[s]
  }

  function AddOne(distance: Option<nat>): Option<nat> {
    match distance
    case None => None
    case Some(d) => Some(d + 1)
  }

  class DistanceCache {
    var entries: map<State, Option<nat>>

    constructor ()
      ensures entries == map[]
    {
      entries := map[];
    }

    /**
     The recursive search of plan.rs. The caller's own states carry `None` while they are open;
     each of them has a larger potential than any state reached below it, so it is never read back.
     */
    method MinimumActions(spec: Spec, s: State, ghost searching: set<State>) returns (minimum: Option<nat>)
      requires ValidSpec(spec) && Inv(spec, s)
      requires CacheSound(spec, entries, searching)
      requires forall open :: open in searching ==> Potential(spec, open) > Potential(spec, s)
      modifies this
      ensures minimum.Some? && minimum.value == Distance(spec, s)
      ensures CacheSound(spec, entries, searching)
      ensures Remembers(old(entries), entries) && (!s.phase.Complete? ==> s in entries)
      decreases Potential(spec, s)
    {
      hide CanTake, Apply, Step, Inv, Distance, Potential, EligibleActions;
      PotentialInRange(spec, s);
      DistanceInRange(spec, s);
      if s.phase.Complete? {
        return Some(0);
      }
      if s in entries {
        return entries[s];
      }
      entries := entries[s := None];
      var best: Option<nat> := None;
      var eligible := EligibleActions(spec, s);
      EligibleIffCanTake(spec, s, Advance(spec, s));
      AdvanceLosesOne(spec, s);
      for i := 0 to |eligible|
        invariant CacheSound(spec, entries, searching + {s})
        invariant Remembers(old(entries), entries) && s in entries
        invariant best.Some? ==> best.value >= Distance(spec, s) - 1
        invariant forall j :: 0 <= j < i && eligible[j] == Advance(spec, s) ==>
          best.Some? && best.value == Distance(spec, s) - 1
      {
        var a := eligible[i];
        EligibleIffCanTake(spec, s, a);
        StepLowersPotential(spec, s, a);
        EligibleApplies(spec, s, a);
        StepLosesAtMostOne(spec, s, a);
        var next := Apply(s, a);
        if next.Some? {
          var distance := MinimumActions(spec, next.value, searching + {s});
          if distance.Some? && (best.None? || distance.value < best.value) {
            best := distance;
          }
        }
      }
      minimum := AddOne(best);
      entries := entries[s := minimum];
    }
  }
}
