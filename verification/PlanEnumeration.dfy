/**
 The enumeration of eligible actions repeats nothing, so that its length is the number of actions
 that can be taken: the count the replay validator records.
 */
module PlanEnumeration {
  import opened Wrappers
  import opened Sequences
  import opened Plan
  import opened PlanInvariant
  import opened PlanReplay

  /** The capability lists are listings of sets, as in the source. */
  predicate WithoutRepeats(spec: Spec) {
    Distinct(spec.outcomes) && Distinct(spec.delays) && Distinct(spec.cutPoints)
  }

  lemma ScriptsAreDistinct(spec: Spec, firsts: seq<ProviderOutcome>)
    requires WithoutRepeats(spec) && Distinct(firsts)
    ensures Distinct(ScriptsStartingWith(spec, firsts))
  {
    var f := first => BusinessScripts(spec, first);
    forall first ensures Distinct(f(first)) {
      if first == CommitThenClose { DistinctMap((retry: ProviderOutcome) => TransportRetry(retry), spec.outcomes); }
    }
    forall a, b, script | a != b && script in f(a) ensures script !in f(b) {
      assert script.Outcomes()[0] == a;
    }
    DistinctFlatMap(f, firsts);
  }

  lemma RetriesAreDistinct(spec: Spec, attempts: nat)
    requires WithoutRepeats(spec)
    ensures Distinct(RetryOutcomes(spec, attempts))
  {
    DistinctFilter(o => attempts < 2 || o == Normal, spec.outcomes);
  }

  lemma CheckoutActionsAreDistinct(spec: Spec, attempts: nat)
    requires WithoutRepeats(spec)
    ensures Distinct(Map(script => DriveCheckout(script), ScriptsStartingWith(spec, spec.outcomes)))
    ensures Distinct(Map(script => RetryBusinessRequest(script),
                         ScriptsStartingWith(spec, RetryOutcomes(spec, attempts))))
  {
    RetriesAreDistinct(spec, attempts);
    ScriptsAreDistinct(spec, spec.outcomes);
    ScriptsAreDistinct(spec, RetryOutcomes(spec, attempts));
    DistinctMap((script: Script) => DriveCheckout(script), ScriptsStartingWith(spec, spec.outcomes));
    DistinctMap((script: Script) => RetryBusinessRequest(script),
                ScriptsStartingWith(spec, RetryOutcomes(spec, attempts)));
  }

  lemma ConfirmActionsAreDistinct(spec: Spec, attempts: nat)
    requires WithoutRepeats(spec)
    ensures Distinct(Map(o => ConfirmPaymentIntent(Single(o)), spec.outcomes))
    ensures Distinct(Map(o => RetryProviderRequest(Single(o)), RetryOutcomes(spec, attempts)))
  {
    RetriesAreDistinct(spec, attempts);
    DistinctMap((o: ProviderOutcome) => ConfirmPaymentIntent(Single(o)), spec.outcomes);
    DistinctMap((o: ProviderOutcome) => RetryProviderRequest(Single(o)), RetryOutcomes(spec, attempts));
  }

  lemma EventActionsAreDistinct(spec: Spec, e: EventState, objects: nat)
    requires WithoutRepeats(spec)
    ensures Distinct(EventActions(spec, e, objects))
  {
    var delays := Map((d: nat) => DelayWebhook(d), spec.delays);
    DistinctMap((d: nat) => DelayWebhook(d), spec.delays);
    forall a | a in delays ensures a.DelayWebhook? {
      MapMembers((d: nat) => DelayWebhook(d), spec.delays, a);
    }
    hide Map;
    var waits := if e.delayUsed then [] else delays;
    var drop := if spec.allowDrop then [DropWebhook] else [];
    DistinctConcat([DeliverWebhook], waits);
    DistinctConcat([DeliverWebhook] + waits, drop);
    var first := if e.pending > 0 then [DeliverWebhook] + waits + drop else [];
    var second := if e.pending >= 2 && spec.allowReorder && !e.reorderUsed then [ReorderWebhooks] else [];
    var third := if e.delivered > 0 && e.duplicates < spec.duplicateMax then [DuplicateWebhook] else [];
    var last := if e.generated > 0 && e.pending == 0 then [WaitForQuiescence] else [];
    DistinctConcat(first, second);
    DistinctConcat(first + second, third);
    DistinctConcat(first + second + third, last);
  }

  lemma PhaseActionsAreDistinct(spec: Spec, phase: Phase, objects: nat)
    requires WithoutRepeats(spec)
    ensures Distinct(PhaseActions(spec, phase, objects))
  {
    hide WithoutRepeats, EventActions, RetryOutcomes, ScriptsStartingWith;
    match phase
    case Start => CheckoutActionsAreDistinct(spec, 0);
    case CheckoutRetryable(n, ambiguous) =>
      CheckoutActionsAreDistinct(spec, n);
      var retries := Map((s: Script) => RetryBusinessRequest(s), ScriptsStartingWith(spec, RetryOutcomes(spec, n)));
      forall a | a in retries ensures a.RetryBusinessRequest? {
        MapMembers((s: Script) => RetryBusinessRequest(s), ScriptsStartingWith(spec, RetryOutcomes(spec, n)), a);
      }
      DistinctConcat(retries, if ambiguous then [RetrievePaymentIntent] else []);
    case PaymentIntentKnown => ConfirmActionsAreDistinct(spec, 0);
    case ConfirmRetryable(n, ambiguous) =>
      ConfirmActionsAreDistinct(spec, n);
      var retries := Map((o: ProviderOutcome) => RetryProviderRequest(Single(o)), RetryOutcomes(spec, n));
      forall a | a in retries ensures a.RetryProviderRequest? {
        MapMembers((o: ProviderOutcome) => RetryProviderRequest(Single(o)), RetryOutcomes(spec, n), a);
      }
      DistinctConcat(retries, if ambiguous then [RetrievePaymentIntent] else []);
    case Events(e) => EventActionsAreDistinct(spec, e, objects);
    case _ =>
  }

  lemma KillActionsAreDistinct(spec: Spec, s: State)
    requires WithoutRepeats(spec)
    ensures Distinct(KillActions(spec, s)) && forall a :: a in KillActions(spec, s) ==> a.KillApplication?
  {
    var offered := Filter(c => CutPointReachable(s, c), spec.cutPoints);
    DistinctFilter(c => CutPointReachable(s, c), spec.cutPoints);
    DistinctMap((c: CutPoint) => KillApplication(c), offered);
    forall a | a in KillActions(spec, s) ensures a.KillApplication? {
      MapMembers((c: CutPoint) => KillApplication(c), offered, a);
    }
  }

  lemma EligibleIsDistinct(spec: Spec, s: State)
    requires WithoutRepeats(spec)
    ensures Distinct(EligibleActions(spec, s))
  {
    PhaseActionsAreDistinct(spec, s.phase, s.objects);
    KillActionsAreDistinct(spec, s);
    forall a | a in PhaseActions(spec, s.phase, s.objects) ensures !a.KillApplication? {
      PhaseMembers(spec, s.phase, s.objects, a);
    }
    hide PhaseActions, KillActions, WithoutRepeats;
    DistinctConcat(PhaseActions(spec, s.phase, s.objects), KillActions(spec, s));
  }

  /** The recorded count is the number of actions that can be taken. */
  lemma EligibleCounts(spec: Spec, s: State, takeable: set<Action>)
    requires WithoutRepeats(spec) && forall a :: a in takeable <==> CanTake(spec, s, a)
    ensures |EligibleActions(spec, s)| == |takeable|
  {
    EligibleIsDistinct(spec, s);
    forall a ensures a in takeable <==> a in EligibleActions(spec, s) {
      EligibleIffCanTake(spec, s, a);
    }
    hide EligibleActions, CanTake;
    DistinctCounts(EligibleActions(spec, s), takeable);
  }

  /** The counts of an accepted replay: how many actions could be taken before each one. */
  lemma ReplayCounts(
    spec: Spec, legacy: bool, actions: seq<Action>, counts: seq<nat>, i: nat, takeable: set<Action>)
    requires WithoutRepeats(spec) && CountsEligible(spec, legacy, actions, counts) && i < |actions|
    requires Run(spec, Initial(legacy), actions[..i]).Some?
    requires forall a :: a in takeable <==> CanTake(spec, Run(spec, Initial(legacy), actions[..i]).value, a)
    ensures counts[i] == |takeable|
  {
    hide CanTake, Run, EligibleActions, WithoutRepeats;
    assert CountsEligibleAt(spec, legacy, actions[..i], counts[i]);
    EligibleCounts(spec, Run(spec, Initial(legacy), actions[..i]).value, takeable);
  }
}
