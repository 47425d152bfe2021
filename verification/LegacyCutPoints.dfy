/**
 When the shrinker's cut-point rule (crates/tiv-core/src/shrink.rs) can refuse a schedule the legacy
 planner policy (crates/tiv-core/src/plan.rs) completes. The legacy policy looks at the phase alone,
 so it can place a kill after an action that did not produce the effect the cut point names. Whether
 it ever does is a matter of the specification's capabilities; the condition is exact.
 */
module LegacyCutPoints {
  import opened Wrappers
  import opened Plan
  import opened PlanInvariant
  import opened PlanDistance
  import opened PlanCompiler
  import opened PlanLedger
  import opened PlanReplay
  import opened ShrinkOrder
  import opened Shrink
  import opened Generator
  import opened CompilerReach

  /** A failed checkout may already have committed, so that a retry commits a second object. */
  predicate CreatesSeveral(spec: Spec) {
    CommitThenClose in spec.outcomes || PostExecute500 in spec.outcomes
  }

  /** Some webhook fault other than a duplicate can happen after the first delivery. */
  predicate DisturbsDelivered(spec: Spec) {
    || ((spec.delays != [] || spec.allowDrop) && (spec.allowStaleEvent || CreatesSeveral(spec)))
    || (spec.allowReorder && CreatesSeveral(spec))
  }

  predicate IsWebhook(cutPoint: CutPoint) {
    cutPoint == WebhookRequestForwarded || cutPoint == WebhookResponseObserved
  }

  /** The capabilities under which the legacy policy can break the cut-point rule. */
  predicate CanBreakTheRule(spec: Spec) {
    && spec.maxKills == 1
    && exists c :: c in spec.cutPoints && (IsWebhook(c) ==> DisturbsDelivered(spec))
  }

  // ---------- the shortest break ----------

  /** How many checkout calls it takes to commit so many objects: a transport retry commits two at once. */
  function BusinessCost(spec: Spec, objects: nat): nat {
    if CommitThenClose in spec.outcomes then (objects + 1) / 2 else objects
  }

  /**
   Checkout, confirmation, every event generated and settled, kill, restart, wait and check, and one
   more for a fault that settles no event.
   */
  function BreakLength(spec: Spec, objects: nat, fault: nat): nat {
    BusinessCost(spec, objects) + 2 * objects * spec.EventsPerProvider() + 5 + fault
  }

  /**
   The shortest break at a webhook cut point: a drop also settles an event, a delay does not, and a
   reordering needs three events.
   */
  function ShortestWebhookBreak(spec: Spec): nat {
    var several := spec.allowStaleEvent || CreatesSeveral(spec);
    if spec.allowDrop && several then BreakLength(spec, if spec.allowStaleEvent then 1 else 2, 0)
    else if spec.delays != [] && several then BreakLength(spec, if spec.allowStaleEvent then 1 else 2, 1)
    else BreakLength(spec, if spec.allowStaleEvent then 2 else 3, 1)
  }

  /** The length of a shortest complete legacy schedule that breaks the rule. */
  function ShortestBreak(spec: Spec): nat {
    if exists c :: c in spec.cutPoints && !IsWebhook(c) then 6 + 2 * spec.EventsPerProvider()
    else ShortestWebhookBreak(spec)
  }

  // ---------- breaking the rule needs the capabilities ----------

  predicate AtMostOne(s: State) {
    s.objects <= 1 && (s.phase.Start? || s.phase.CheckoutRetryable? ==> s.objects == 0)
  }

  lemma OneStaysOne(spec: Spec, s: State, a: Action)
    requires !CreatesSeveral(spec) && AtMostOne(s) && s.healthy && !a.KillApplication? && Step(spec, s, a).Some?
    ensures AtMostOne(Step(spec, s, a).value)
  {
  }

  /** Without an ambiguous commit there is one provider object until a kill sends checkout back. */
  lemma {:induction false} OneObjectBeforeAKill(spec: Spec, legacy: bool, actions: seq<Action>)
    requires ValidSpec(spec) && !CreatesSeveral(spec)
    requires Run(spec, Initial(legacy), actions).Some? && Run(spec, Initial(legacy), actions).value.kills == 0
    ensures AtMostOne(Run(spec, Initial(legacy), actions).value)
  {
    hide Step, AtMostOne, Inv;
    if actions == [] {
      NothingCreatedYet(legacy);
    } else {
      var last := |actions| - 1;
      InitialInv(spec, legacy);
      RunKeepsInv(spec, Initial(legacy), actions[..last]);
      var s := Run(spec, Initial(legacy), actions[..last]).value;
      NotYetKilled(spec, s, actions[last]);
      OneObjectBeforeAKill(spec, legacy, actions[..last]);
      OneStaysOne(spec, s, actions[last]);
    }
  }

  lemma NothingCreatedYet(legacy: bool)
    ensures AtMostOne(Initial(legacy))
  {
  }

  lemma NotYetKilled(spec: Spec, s: State, a: Action)
    requires Inv(spec, s) && Step(spec, s, a).Some? && Step(spec, s, a).value.kills == 0
    ensures s.kills == 0 && s.healthy && !a.KillApplication?
  {
  }

  /** What happened just before an unsupported kill at a webhook cut point. */
  lemma DisturbedBefore(spec: Spec, s: State, a: Action)
    requires ValidSpec(spec) && Inv(spec, s) && s.kills == 0 && s.healthy && !a.KillApplication?
    requires Step(spec, s, a).Some? && !a.DeliverWebhook? && !a.DuplicateWebhook?
    requires Step(spec, s, a).value.phase.Events? && Step(spec, s, a).value.phase.events.delivered > 0
    ensures var t := Step(spec, s, a).value;
            var e := t.phase.events;
            && e.generated == s.objects * spec.EventsPerProvider() && t.objects == s.objects
            && FaultFits(spec, e, a)
  {
    ObjectsFitOneByte(spec, s);
    if a.DelayWebhook? {
      assert a.milliseconds in spec.delays;
    }
  }

  /** A fault other than a duplicate was allowed, left its mark, and found enough events. */
  predicate FaultFits(spec: Spec, e: EventState, a: Action) {
    match a
    case DropWebhook => spec.allowDrop && e.generated >= 2
    case DelayWebhook(_) => spec.delays != [] && e.generated >= 2 && e.delayUsed
    case ReorderWebhooks => spec.allowReorder && e.generated >= 3 && e.reorderUsed
    case _ => false
  }

  /** So many events need several objects, or two events for each. */
  lemma FaultNeedsSeveral(spec: Spec, e: EventState, objects: nat, a: Action)
    requires FaultFits(spec, e, a) && e.generated == objects * spec.EventsPerProvider()
    requires CreatesSeveral(spec) || objects <= 1
    ensures DisturbsDelivered(spec)
    ensures objects >= if spec.allowStaleEvent && !a.ReorderWebhooks? then 1 else 2
    ensures a.ReorderWebhooks? && !spec.allowStaleEvent ==> objects >= 3
  {
  }

  /** A kill that the action before it does not support. */
  predicate BreaksAt(actions: seq<Action>, i: int) {
    && 0 <= i < |actions| && actions[i].KillApplication?
    && !(i > 0 && PreviousSupports(actions[i - 1], actions[i].cutPoint))
  }

  lemma FirstBreak(actions: seq<Action>) returns (i: nat)
    requires !CutPointsSupported(actions)
    ensures BreaksAt(actions, i)
  {
    i :| 0 <= i < |actions| && actions[i].KillApplication?
         && !(i > 0 && PreviousSupports(actions[i - 1], actions[i].cutPoint));
  }

  /** At a webhook cut point, the fault just before the kill and the events it found. */
  lemma WebhookBreak(spec: Spec, actions: seq<Action>, i: nat) returns (s: State)
    requires ValidSpec(spec) && Run(spec, Initial(true), actions).Some? && BreaksAt(actions, i)
    requires IsWebhook(actions[i].cutPoint)
    ensures i > 0 && Run(spec, Initial(true), actions[..i]) == Some(s) && s.kills == 0 && s.phase.Events?
    ensures s.phase.events.generated == s.objects * spec.EventsPerProvider()
    ensures FaultFits(spec, s.phase.events, actions[i - 1]) && (CreatesSeveral(spec) || s.objects <= 1)
  {
    hide Step, PreviousSupports, Inv, CreatesSeveral, FaultFits;
    var s0 := Initial(true);
    InitialInv(spec, true);
    RunUpTo(spec, s0, actions, i);
    s := Run(spec, s0, actions[..i]).value;
    KillNeeds(spec, s, actions[i]);
    assert i > 0;
    RunUpTo(spec, s0, actions, i - 1);
    var t := Run(spec, s0, actions[..i - 1]).value;
    NotYetKilled(spec, t, actions[i - 1]);
    if !CreatesSeveral(spec) { OneObjectBeforeAKill(spec, true, actions[..i]); }
    Unsupported(actions[i - 1], actions[i].cutPoint);
    DisturbedBefore(spec, t, actions[i - 1]);
  }

  lemma BreakingNeedsTheCapabilities(spec: Spec, actions: seq<Action>)
    requires ValidSpec(spec) && Run(spec, Initial(true), actions).Some? && !CutPointsSupported(actions)
    ensures CanBreakTheRule(spec)
  {
    hide Step, PreviousSupports, Inv, DisturbsDelivered, CreatesSeveral, FaultFits;
    var i := FirstBreak(actions);
    InitialInv(spec, true);
    RunUpTo(spec, Initial(true), actions, i);
    KillNeeds(spec, Run(spec, Initial(true), actions[..i]).value, actions[i]);
    if IsWebhook(actions[i].cutPoint) {
      var s := WebhookBreak(spec, actions, i);
      FaultNeedsSeveral(spec, s.phase.events, s.objects, actions[i - 1]);
    }
  }

  lemma RunUpTo(spec: Spec, s0: State, actions: seq<Action>, i: nat)
    requires ValidSpec(spec) && Inv(spec, s0) && i < |actions| && Run(spec, s0, actions).Some?
    ensures Run(spec, s0, actions[..i]).Some? && Inv(spec, Run(spec, s0, actions[..i]).value)
    ensures Run(spec, s0, actions[..i]).value.legacy == s0.legacy
    ensures Run(spec, s0, actions[..i + 1]) == Step(spec, Run(spec, s0, actions[..i]).value, actions[i])
    ensures Run(spec, s0, actions[..i + 1]).Some?
  {
    hide Step, Inv;
    RunPrefix(spec, s0, actions, i);
    RunKeepsInv(spec, s0, actions[..i]);
  }

  lemma KillNeeds(spec: Spec, s: State, kill: Action)
    requires ValidSpec(spec) && Inv(spec, s) && s.legacy && kill.KillApplication? && Step(spec, s, kill).Some?
    ensures spec.maxKills == 1 && s.kills == 0 && kill.cutPoint in spec.cutPoints && !s.phase.Start?
    ensures IsWebhook(kill.cutPoint) ==> s.phase.Events? && s.phase.events.delivered > 0
  {
  }

  lemma Unsupported(previous: Action, cutPoint: CutPoint)
    requires IsWebhook(cutPoint) && !PreviousSupports(previous, cutPoint)
    ensures !previous.DeliverWebhook? && !previous.DuplicateWebhook?
  {
  }

  // ---------- no break is shorter ----------

  /** How many actions a run without a kill has needed at least. */
  function Spent(spec: Spec, s: State): int {
    var cost := BusinessCost(spec, s.objects);
    match s.phase
    case CheckoutRetryable(_, _) => cost
    case CheckoutResponseHeld => cost
    case PaymentIntentKnown => cost
    case ConfirmRetryable(_, _) => cost + 1
    case ConfirmResponseHeld => cost + 1
    case Confirmed => cost + 1
    case Events(e) =>
      cost + 1 + 2 * e.generated - e.pending + (if e.delayUsed then 1 else 0) + (if e.reorderUsed then 1 else 0)
    case _ => 0
  }

  lemma BusinessSpendsOne(spec: Spec, s: State, a: Action)
    requires s.healthy && !a.KillApplication? && Step(spec, s, a).Some?
    requires (s.phase.Start? && s.objects == 0) || s.phase.CheckoutRetryable?
    ensures Spent(spec, Step(spec, s, a).value) <= Spent(spec, s) + 1
  {
  }

  lemma PaymentSpendsOne(spec: Spec, s: State, a: Action)
    requires s.healthy && !a.KillApplication? && Step(spec, s, a).Some?
    requires !s.phase.Start? && !s.phase.CheckoutRetryable? && !s.phase.Events?
    ensures Spent(spec, Step(spec, s, a).value) <= Spent(spec, s) + 1
  {
    hide BusinessCost, EventAllowed, ConfirmScriptAllowed;
  }

  lemma EventSpendsOne(spec: Spec, s: State, a: Action)
    requires s.healthy && !a.KillApplication? && Step(spec, s, a).Some? && s.phase.Events?
    requires s.phase.events.pending <= s.phase.events.generated
    ensures Spent(spec, Step(spec, s, a).value) <= Spent(spec, s) + 1
  {
    hide BusinessCost, TargetEvents;
  }

  lemma {:induction false} SpentAtMostLength(spec: Spec, legacy: bool, actions: seq<Action>)
    requires ValidSpec(spec)
    requires Run(spec, Initial(legacy), actions).Some? && Run(spec, Initial(legacy), actions).value.kills == 0
    ensures Spent(spec, Run(spec, Initial(legacy), actions).value) <= |actions|
  {
    hide Step, Inv, BusinessCost;
    if actions != [] {
      var last := |actions| - 1;
      InitialInv(spec, legacy);
      RunKeepsInv(spec, Initial(legacy), actions[..last]);
      var s := Run(spec, Initial(legacy), actions[..last]).value;
      NotYetKilled(spec, s, actions[last]);
      SpentAtMostLength(spec, legacy, actions[..last]);
      SpendingStarts(spec, s);
      hide Spent;
      if s.phase.Start? || s.phase.CheckoutRetryable? {
        BusinessSpendsOne(spec, s, actions[last]);
      } else if s.phase.Events? {
        EventSpendsOne(spec, s, actions[last]);
      } else {
        PaymentSpendsOne(spec, s, actions[last]);
      }
    }
  }

  lemma SpendingStarts(spec: Spec, s: State)
    requires Inv(spec, s)
    ensures s.phase.Start? ==> s.objects == 0
    ensures s.phase.Events? ==> s.phase.events.pending <= s.phase.events.generated
  {
  }

  /** A complete run is at least as long as what comes before a kill, the kill, and the distance from there. */
  lemma LongAfterKill(spec: Spec, actions: seq<Action>, i: nat)
    requires ValidSpec(spec) && Feasible(spec, true, actions) && i < |actions| && actions[i].KillApplication?
    ensures Run(spec, Initial(true), actions[..i]).Some?
    ensures var s := Run(spec, Initial(true), actions[..i]).value;
            |actions| >= i + 2 + PhaseDistance(spec, s.phase, s.objects)
    ensures |actions| >= 6 + 2 * spec.EventsPerProvider()
  {
    hide Step, Inv, Distance;
    var s0 := Initial(true);
    InitialInv(spec, true);
    RunUpTo(spec, s0, actions, i);
    var s := Run(spec, s0, actions[..i]).value;
    RunKeepsInv(spec, s0, actions[..i + 1]);
    var t := Run(spec, s0, actions[..i + 1]).value;
    RunConcat(spec, s0, actions[..i + 1], actions[i + 1..]);
    assert actions[..i + 1] + actions[i + 1..] == actions;
    DistanceIsShortest(spec, t);
    assert Completes(spec, t, actions[i + 1..]);
    RunLosesAtMostItsLength(spec, s0, actions[..i]);
    KillLengthens(spec, s, actions[i]);
    StartDistance(spec);
  }

  lemma KillLengthens(spec: Spec, s: State, a: Action)
    requires Inv(spec, s) && a.KillApplication? && Step(spec, s, a).Some?
    ensures Distance(spec, s) == PhaseDistance(spec, s.phase, s.objects)
    ensures Distance(spec, Step(spec, s, a).value) >= 1 + PhaseDistance(spec, s.phase, s.objects)
  {
  }

  lemma StartDistance(spec: Spec)
    ensures Distance(spec, Initial(true)) == 4 + 2 * spec.EventsPerProvider()
  {
  }

  lemma CostGrows(spec: Spec, fewer: nat, objects: nat, fault: nat)
    requires fewer <= objects
    ensures BreakLength(spec, fewer, fault) <= BreakLength(spec, objects, fault)
  {
  }

  /** The events of the fault just before the kill account for the shortest webhook break. */
  lemma FaultAccounts(spec: Spec, e: EventState, objects: nat, a: Action)
    requires FaultFits(spec, e, a) && e.generated == objects * spec.EventsPerProvider()
    requires CreatesSeveral(spec) || objects <= 1
    ensures BreakLength(spec, objects, (if e.delayUsed then 1 else 0) + (if e.reorderUsed then 1 else 0))
         >= ShortestWebhookBreak(spec)
  {
    FaultNeedsSeveral(spec, e, objects, a);
    var fault := (if e.delayUsed then 1 else 0) + (if e.reorderUsed then 1 else 0);
    CostGrows(spec, if spec.allowStaleEvent then 1 else 2, objects, fault);
    if a.ReorderWebhooks? {
      CostGrows(spec, if spec.allowStaleEvent then 2 else 3, objects, fault);
    }
    hide BusinessCost;
  }

  /** No complete legacy schedule that breaks the rule is shorter than the closed form. */
  lemma BreakingIsLong(spec: Spec, actions: seq<Action>)
    requires ValidSpec(spec) && Feasible(spec, true, actions) && !CutPointsSupported(actions)
    ensures |actions| >= ShortestBreak(spec)
  {
    hide Step, PreviousSupports, Inv, CreatesSeveral, FaultFits, BreakLength, ShortestWebhookBreak;
    var i := FirstBreak(actions);
    InitialInv(spec, true);
    RunUpTo(spec, Initial(true), actions, i);
    KillNeeds(spec, Run(spec, Initial(true), actions[..i]).value, actions[i]);
    LongAfterKill(spec, actions, i);
    if IsWebhook(actions[i].cutPoint) {
      var s := WebhookBreak(spec, actions, i);
      SpentAtMostLength(spec, true, actions[..i]);
      FaultAccounts(spec, s.phase.events, s.objects, actions[i - 1]);
      SpentInEvents(spec, s);
    }
  }

  lemma SpentInEvents(spec: Spec, s: State)
    requires s.phase.Events? && s.phase.events.generated == s.objects * spec.EventsPerProvider()
    ensures var e := s.phase.events;
            Spent(spec, s) + 2 + PhaseDistance(spec, s.phase, s.objects)
            == BreakLength(spec, s.objects, (if e.delayUsed then 1 else 0) + (if e.reorderUsed then 1 else 0))
  {
  }

  // ---------- the capabilities are enough ----------

  /** A run with room left for a shortest completion extends to a replayable schedule. */
  lemma Finish(spec: Spec, prefix: seq<Action>, s: State) returns (actions: seq<Action>)
    requires ValidSpec(spec) && Run(spec, Initial(true), prefix) == Some(s)
    requires |prefix| + Distance(spec, s) <= MAX_ACTIONS_PER_CASE
    ensures prefix <= actions && Replayable(spec, true, actions) && |actions| == |prefix| + Distance(spec, s)
  {
    hide Step, Inv, Distance;
    InitialInv(spec, true);
    RunKeepsInv(spec, Initial(true), prefix);
    var rest := ShortestCompletion(spec, s);
    RunConcat(spec, Initial(true), prefix, rest);
    actions := prefix + rest;
  }

  /** A kill the policy allows after an action that does not support it, and then the shortest way home. */
  lemma BreakWith(spec: Spec, prefix: seq<Action>, s: State, cutPoint: CutPoint) returns (actions: seq<Action>)
    requires ValidSpec(spec) && Run(spec, Initial(true), prefix) == Some(s) && prefix != []
    requires s.healthy && (s.phase.Confirmed? || s.phase.Events?) && KillAllowed(spec, s, KillApplication(cutPoint))
    requires !PreviousSupports(prefix[|prefix| - 1], cutPoint)
    requires |prefix| + 2 + PhaseDistance(spec, s.phase, s.objects) <= MAX_ACTIONS_PER_CASE
    ensures Replayable(spec, true, actions) && !CutPointsSupported(actions)
    ensures |actions| == |prefix| + 2 + PhaseDistance(spec, s.phase, s.objects)
  {
    hide PreviousSupports, Run, KillAllowed, PhaseDistance, Replayable, CutPointsSupported, CanTake, Apply;
    var kill := KillApplication(cutPoint);
    var t := Killed(spec, s, cutPoint);
    var longer := Extend(spec, Initial(true), prefix, s, kill, t);
    actions := Finish(spec, longer, t);
    var i := |prefix|;
    assert actions[i] == longer[i] == kill && actions[i - 1] == longer[i - 1] == prefix[i - 1];
    BreaksTheRule(actions, i);
  }

  /** The state after a kill, and how far it is from completion. */
  lemma Killed(spec: Spec, s: State, cutPoint: CutPoint) returns (t: State)
    requires s.healthy && (s.phase.Confirmed? || s.phase.Events?) && KillAllowed(spec, s, KillApplication(cutPoint))
    ensures CanTake(spec, s, KillApplication(cutPoint)) && Apply(s, KillApplication(cutPoint)) == Some(t)
    ensures Distance(spec, t) == 1 + PhaseDistance(spec, s.phase, s.objects)
  {
    hide PhaseDistance;
    t := Observe(s, KillApplication(cutPoint)).(healthy := false, kills := s.kills + 1);
  }

  lemma BreaksTheRule(actions: seq<Action>, i: nat)
    requires 0 < i < |actions| && actions[i].KillApplication?
    requires !PreviousSupports(actions[i - 1], actions[i].cutPoint)
    ensures !CutPointsSupported(actions)
  {
    hide PreviousSupports;
  }

  function ConfirmedWith(objects: nat): State {
    State(Confirmed, objects, true, 0, true, NoObservation)
  }

  function CheckoutWith(attempts: nat, objects: nat): State {
    State(CheckoutRetryable(attempts, true), objects, true, 0, true, NoObservation)
  }

  function KnownWith(objects: nat): State {
    State(PaymentIntentKnown, objects, true, 0, true, NoObservation)
  }

  function EventsWith(objects: nat, events: EventState): State {
    State(Events(events), objects, true, 0, true, NoObservation)
  }

  function OneDelivered(target: nat): EventState
    requires target > 0
  {
    EventState(target, target - 1, 1, 0, false, false)
  }

  lemma OneCommit(spec: Spec) returns (prefix: seq<Action>)
    requires ValidSpec(spec)
    ensures Run(spec, Initial(true), prefix) == Some(KnownWith(1)) && |prefix| == BusinessCost(spec, 1)
  {
    prefix := Extend(spec, Initial(true), [], Initial(true), DriveCheckout(Single(Normal)), KnownWith(1));
  }

  lemma TwoByTransport(spec: Spec) returns (prefix: seq<Action>)
    requires ValidSpec(spec) && CommitThenClose in spec.outcomes
    ensures Run(spec, Initial(true), prefix) == Some(KnownWith(2)) && |prefix| == BusinessCost(spec, 2)
  {
    prefix := Extend(spec, Initial(true), [], Initial(true), DriveCheckout(TransportRetry(Normal)), KnownWith(2));
  }

  lemma ThreeByTransport(spec: Spec) returns (prefix: seq<Action>)
    requires ValidSpec(spec) && CommitThenClose in spec.outcomes
    ensures Run(spec, Initial(true), prefix) == Some(KnownWith(3)) && |prefix| == BusinessCost(spec, 3)
  {
    var s0 := Initial(true);
    prefix := Extend(spec, s0, [], s0, DriveCheckout(TransportRetry(CommitThenClose)), CheckoutWith(0, 2));
    prefix := Extend(spec, s0, prefix, CheckoutWith(0, 2), RetryBusinessRequest(Single(Normal)), KnownWith(3));
  }

  lemma TwoByFailure(spec: Spec) returns (prefix: seq<Action>)
    requires ValidSpec(spec) && PostExecute500 in spec.outcomes
    ensures Run(spec, Initial(true), prefix) == Some(KnownWith(2)) && |prefix| == 2
  {
    var s0 := Initial(true);
    prefix := Extend(spec, s0, [], s0, DriveCheckout(Single(PostExecute500)), CheckoutWith(0, 1));
    prefix := Extend(spec, s0, prefix, CheckoutWith(0, 1), RetryBusinessRequest(Single(Normal)), KnownWith(2));
  }

  lemma ThreeByFailure(spec: Spec) returns (prefix: seq<Action>)
    requires ValidSpec(spec) && PostExecute500 in spec.outcomes
    ensures Run(spec, Initial(true), prefix) == Some(KnownWith(3)) && |prefix| == 3
  {
    var s0 := Initial(true);
    prefix := Extend(spec, s0, [], s0, DriveCheckout(Single(PostExecute500)), CheckoutWith(0, 1));
    prefix := Extend(spec, s0, prefix, CheckoutWith(0, 1), RetryBusinessRequest(Single(PostExecute500)),
                     CheckoutWith(1, 2));
    prefix := Extend(spec, s0, prefix, CheckoutWith(1, 2), RetryBusinessRequest(Single(Normal)), KnownWith(3));
  }

  /** A known payment with one, two or three provider objects, in as few checkout calls as possible. */
  lemma Checkout(spec: Spec, objects: nat) returns (prefix: seq<Action>)
    requires ValidSpec(spec) && 1 <= objects <= 3 && (objects > 1 ==> CreatesSeveral(spec))
    ensures Run(spec, Initial(true), prefix) == Some(KnownWith(objects)) && |prefix| == BusinessCost(spec, objects)
  {
    hide Run;
    if objects == 1 {
      prefix := OneCommit(spec);
    } else if CommitThenClose in spec.outcomes {
      if objects == 2 { prefix := TwoByTransport(spec); } else { prefix := ThreeByTransport(spec); }
    } else {
      if objects == 2 { prefix := TwoByFailure(spec); } else { prefix := ThreeByFailure(spec); }
    }
  }

  /** A confirmed payment. */
  lemma Confirm(spec: Spec, objects: nat) returns (prefix: seq<Action>)
    requires ValidSpec(spec) && 1 <= objects <= 3 && (objects > 1 ==> CreatesSeveral(spec))
    ensures Run(spec, Initial(true), prefix) == Some(ConfirmedWith(objects))
    ensures |prefix| == BusinessCost(spec, objects) + 1 >= 2
    ensures prefix[|prefix| - 1] == ConfirmPaymentIntent(Single(Normal))
  {
    hide Run;
    var known := Checkout(spec, objects);
    prefix := Extend(spec, Initial(true), known, KnownWith(objects),
                     ConfirmPaymentIntent(Single(Normal)), ConfirmedWith(objects));
  }

  lemma {:induction false} Generate(spec: Spec, prefix: seq<Action>, objects: nat, n: nat) returns (longer: seq<Action>)
    requires ValidSpec(spec) && Run(spec, Initial(true), prefix) == Some(ConfirmedWith(objects))
    requires 1 <= n <= TargetEvents(spec, objects)
    ensures Run(spec, Initial(true), longer) == Some(EventsWith(objects, EventState(n, n, 0, 0, false, false)))
    ensures |longer| == |prefix| + n
  {
    hide Run;
    if n == 1 {
      longer := Extend(spec, Initial(true), prefix, ConfirmedWith(objects), GenerateProviderEvent,
                       EventsWith(objects, EventState(1, 1, 0, 0, false, false)));
    } else {
      var shorter := Generate(spec, prefix, objects, n - 1);
      longer := Extend(spec, Initial(true), shorter, EventsWith(objects, EventState(n - 1, n - 1, 0, 0, false, false)),
                       GenerateProviderEvent, EventsWith(objects, EventState(n, n, 0, 0, false, false)));
    }
  }

  lemma FewEvents(spec: Spec, objects: nat)
    requires 1 <= objects <= 3
    ensures 1 <= objects * spec.EventsPerProvider() == TargetEvents(spec, objects) <= 6
  {
  }

  lemma FirstDelivery(spec: Spec, objects: nat, target: nat)
    requires target > 0 && target == TargetEvents(spec, objects)
    ensures CanTake(spec, EventsWith(objects, EventState(target, target, 0, 0, false, false)), DeliverWebhook)
    ensures Apply(EventsWith(objects, EventState(target, target, 0, 0, false, false)), DeliverWebhook)
         == Some(EventsWith(objects, OneDelivered(target)))
  {
    hide TargetEvents;
  }

  /** One of the generated events is delivered. */
  lemma DeliverOne(spec: Spec, objects: nat) returns (prefix: seq<Action>)
    requires ValidSpec(spec) && 1 <= objects <= 3 && (objects > 1 ==> CreatesSeveral(spec))
    ensures var target := objects * spec.EventsPerProvider();
            && 1 <= target == TargetEvents(spec, objects) <= 6
            && |prefix| == BusinessCost(spec, objects) + 2 + target
            && Run(spec, Initial(true), prefix) == Some(EventsWith(objects, OneDelivered(target)))
  {
    var target := objects * spec.EventsPerProvider();
    FewEvents(spec, objects);
    hide Run, CanTake, Apply, TargetEvents, BusinessCost;
    var confirmed := Confirm(spec, objects);
    var generated := Generate(spec, confirmed, objects, target);
    FirstDelivery(spec, objects, target);
    prefix := Extend(spec, Initial(true), generated,
                     EventsWith(objects, EventState(target, target, 0, 0, false, false)),
                     DeliverWebhook, EventsWith(objects, OneDelivered(target)));
  }

  /** The cheapest fault the capabilities allow right after the first delivery, and the objects it needs. */
  lemma DisturbOnce(spec: Spec) returns (objects: nat, fault: Action, e: EventState)
    requires ValidSpec(spec) && DisturbsDelivered(spec)
    ensures 1 <= objects <= 3 && (objects > 1 ==> CreatesSeveral(spec))
    ensures var target := objects * spec.EventsPerProvider();
            && 1 <= target && CanTake(spec, EventsWith(objects, OneDelivered(target)), fault)
            && Apply(EventsWith(objects, OneDelivered(target)), fault) == Some(EventsWith(objects, e))
            && e.generated == target && e.delivered == 1
    ensures fault.DelayWebhook? || fault.DropWebhook? || fault.ReorderWebhooks?
    ensures BusinessCost(spec, objects) + e.generated + e.pending + 7 == ShortestWebhookBreak(spec)
  {
    var several := spec.allowStaleEvent || CreatesSeveral(spec);
    if spec.allowDrop && several {
      objects, fault := if spec.allowStaleEvent then 1 else 2, DropWebhook;
      var before := OneDelivered(objects * spec.EventsPerProvider());
      e := before.(pending := before.pending - 1);
    } else if spec.delays != [] && several {
      objects, fault := if spec.allowStaleEvent then 1 else 2, DelayWebhook(spec.delays[0]);
      e := OneDelivered(objects * spec.EventsPerProvider()).(delayUsed := true);
    } else {
      objects, fault := if spec.allowStaleEvent then 2 else 3, ReorderWebhooks;
      e := OneDelivered(objects * spec.EventsPerProvider()).(reorderUsed := true);
    }
  }

  /** The kill at a webhook cut point after a drop, a delay or a reordering. */
  lemma BreakAfterAFault(spec: Spec, cutPoint: CutPoint) returns (actions: seq<Action>)
    requires ValidSpec(spec) && spec.maxKills == 1 && cutPoint in spec.cutPoints
    requires IsWebhook(cutPoint) && DisturbsDelivered(spec)
    ensures Replayable(spec, true, actions) && !CutPointsSupported(actions)
    ensures |actions| == ShortestWebhookBreak(spec)
  {
    var objects, fault, e := DisturbOnce(spec);
    CheckoutIsShort(spec, objects);
    hide Run, Replayable, CutPointsSupported, CanTake, Apply, DisturbsDelivered, CreatesSeveral, BusinessCost,
      ShortestWebhookBreak, TargetEvents;
    var prefix := DeliverOne(spec, objects);
    var target := objects * spec.EventsPerProvider();
    var longer := Extend(spec, Initial(true), prefix, EventsWith(objects, OneDelivered(target)),
                         fault, EventsWith(objects, e));
    actions := BreakWith(spec, longer, EventsWith(objects, e), cutPoint);
  }

  lemma CheckoutIsShort(spec: Spec, objects: nat)
    requires 1 <= objects <= 3
    ensures BusinessCost(spec, objects) <= 3
  {
  }

  /** The kill at any other cut point after the confirmation. */
  lemma BreakAfterConfirming(spec: Spec, cutPoint: CutPoint) returns (actions: seq<Action>)
    requires ValidSpec(spec) && spec.maxKills == 1 && cutPoint in spec.cutPoints && !IsWebhook(cutPoint)
    ensures Replayable(spec, true, actions) && !CutPointsSupported(actions)
    ensures |actions| == 6 + 2 * spec.EventsPerProvider()
  {
    var prefix := Confirm(spec, 1);
    hide Run, Replayable, CutPointsSupported;
    actions := BreakWith(spec, prefix, ConfirmedWith(1), cutPoint);
  }

  /** A complete schedule of the shortest length that breaks the rule. */
  lemma BreakTheRule(spec: Spec) returns (actions: seq<Action>)
    requires ValidSpec(spec) && CanBreakTheRule(spec)
    ensures Replayable(spec, true, actions) && !CutPointsSupported(actions) && |actions| == ShortestBreak(spec)
  {
    hide DisturbsDelivered, Replayable, CutPointsSupported, ShortestWebhookBreak;
    if c :| c in spec.cutPoints && !IsWebhook(c) {
      actions := BreakAfterConfirming(spec, c);
    } else {
      var c :| c in spec.cutPoints && (IsWebhook(c) ==> DisturbsDelivered(spec));
      actions := BreakAfterAFault(spec, c);
    }
  }

  ghost predicate Breaks(spec: Spec, actions: seq<Action>) {
    Replayable(spec, true, actions) && !CutPointsSupported(actions)
  }

  /** Exactly the specifications under which some complete legacy schedule breaks the cut-point rule. */
  lemma LegacyBreaksTheRule(spec: Spec)
    requires ValidSpec(spec)
    ensures (exists actions :: Breaks(spec, actions)) <==> CanBreakTheRule(spec)
  {
    hide CanBreakTheRule, CutPointsSupported, ShortestBreak;
    if actions :| Breaks(spec, actions) {
      BreakingNeedsTheCapabilities(spec, actions);
    }
    if CanBreakTheRule(spec) {
      var actions := BreakTheRule(spec);
      assert Breaks(spec, actions);
    }
  }

  /**
   The closed form is the length of a shortest one: some schedule of at most `n` actions breaks the
   rule exactly from there on.
   */
  lemma ShortestBreakIsExact(spec: Spec, n: nat)
    requires ValidSpec(spec)
    ensures (exists actions :: Breaks(spec, actions) && |actions| <= n)
       <==> CanBreakTheRule(spec) && ShortestBreak(spec) <= n
  {
    hide CanBreakTheRule, CutPointsSupported, ShortestBreak;
    if actions :| Breaks(spec, actions) && |actions| <= n {
      BreakingNeedsTheCapabilities(spec, actions);
      BreakingIsLong(spec, actions);
    }
    if CanBreakTheRule(spec) && ShortestBreak(spec) <= n {
      var actions := BreakTheRule(spec);
      assert Breaks(spec, actions);
    }
  }

  // ---------- the error itself ----------

  ghost predicate RefusedForItsCutPoints(spec: Spec, legacy: bool, source: PlannedCase, schedule: Schedule) {
    && source.spec == spec && source.legacy == legacy && ValidSource(source)
    && MaterializeSchedule(source, schedule) == Err(InvalidReferenceCutPoint)
  }

  /** A valid source whose own schedule is `actions`. */
  lemma SourceOf(spec: Spec, legacy: bool, actions: seq<Action>) returns (source: PlannedCase, schedule: Schedule)
    requires Replayable(spec, legacy, actions) && spec.BudgetInRange() && |actions| <= spec.maxActions
    ensures source.spec == spec && source.legacy == legacy && ValidSource(source)
    ensures Descends(Kinds(source.actions), schedule) && KindsOf(schedule) == actions
  {
    hide Descends, Run, EligibleActions;
    source := PlannedCase(legacy, spec, |actions|, CandidateActions(spec, legacy, actions));
    assert Kinds(source.actions) == actions;
    schedule := SourceSchedule(source);
    SourceIsCurrent(source);
  }

  /** The budget covers a break, and the legacy policy makes it. */
  predicate CanBeRefused(spec: Spec, legacy: bool) {
    legacy && CanBreakTheRule(spec) && ShortestBreak(spec) <= spec.maxActions
  }

  /** `InvalidReferenceCutPoint` is reachable exactly for legacy sources whose budget covers a break. */
  lemma CutPointErrorIsReachable(spec: Spec, legacy: bool)
    requires ValidSpec(spec) && spec.BudgetInRange()
    ensures (exists source, schedule :: RefusedForItsCutPoints(spec, legacy, source, schedule))
       <==> CanBeRefused(spec, legacy)
  {
    if source, schedule :| RefusedForItsCutPoints(spec, legacy, source, schedule) {
      RefusedNeedsTheBudget(spec, legacy, source, schedule);
    }
    if CanBeRefused(spec, legacy) {
      hide CanBreakTheRule, CutPointsSupported, Descends, Replayable, Less, ComplexityOf, ShortestBreak;
      var actions := BreakTheRule(spec);
      var source, schedule := SourceOf(spec, true, actions);
      assert RefusedForItsCutPoints(spec, true, source, schedule);
    }
  }

  lemma RefusedNeedsTheBudget(spec: Spec, legacy: bool, source: PlannedCase, schedule: Schedule)
    requires ValidSpec(spec) && RefusedForItsCutPoints(spec, legacy, source, schedule)
    ensures CanBeRefused(spec, legacy)
  {
    RefusedBreaksTheRule(spec, legacy, source, schedule);
    hide CanBreakTheRule, CutPointsSupported, ShortestBreak, RefusedForItsCutPoints;
    if legacy {
      BreakingNeedsTheCapabilities(spec, KindsOf(schedule));
      BreakingIsLong(spec, KindsOf(schedule));
    } else {
      CurrentPolicySupportsCutPoints(spec, KindsOf(schedule));
    }
  }

  lemma RefusedBreaksTheRule(spec: Spec, legacy: bool, source: PlannedCase, schedule: Schedule)
    requires RefusedForItsCutPoints(spec, legacy, source, schedule)
    ensures Replayable(spec, legacy, KindsOf(schedule)) && !CutPointsSupported(KindsOf(schedule))
    ensures |schedule| <= spec.maxActions
  {
    hide Replayable, CutPointsSupported, Descends, Less, ComplexityOf, Feasible;
    OnlyTheSourceDoesNotSimplify(source, schedule);
  }

  /**
   The error is reached from a compiled source under the same condition: some random stream compiles
   a schedule the shrinker then refuses to take as it is.
   */
  lemma CompiledSourceIsRefused(spec: Spec, legacy: bool)
    requires ValidSpec(spec) && spec.BudgetInRange()
    ensures (exists source :: IsCompiled(spec, legacy, source)
               && MaterializeSchedule(source, SourceSchedule(source)) == Err(InvalidReferenceCutPoint))
       <==> CanBeRefused(spec, legacy)
  {
    hide CanBreakTheRule, CutPointsSupported, Descends, Replayable, Less, ComplexityOf, DecidedFrom, ShortestBreak,
      PlanFor;
    if source :| IsCompiled(spec, legacy, source)
                 && MaterializeSchedule(source, SourceSchedule(source)) == Err(InvalidReferenceCutPoint) {
      CompiledIsValid(spec, legacy, source);
      RefusedNeedsTheBudget(spec, legacy, source, SourceSchedule(source));
    }
    if CanBeRefused(spec, legacy) {
      var actions := BreakTheRule(spec);
      CompiledFor(spec, actions);
      var source := PlanFor(spec, true, actions);
      CompiledIsValid(spec, true, source);
      SourceIsCurrent(source);
    }
  }

  lemma CompiledFor(spec: Spec, actions: seq<Action>)
    requires Replayable(spec, true, actions) && |actions| <= spec.maxActions
    ensures IsCompiled(spec, true, PlanFor(spec, true, actions))
  {
    EveryScheduleIsCompiled(spec, true, actions);
  }

  lemma CompiledIsValid(spec: Spec, legacy: bool, source: PlannedCase)
    requires ValidSpec(spec) && spec.BudgetInRange() && IsCompiled(spec, legacy, source)
    ensures ValidSource(source) && source.spec == spec && source.legacy == legacy
  {
    var draw :| WellPlanned(source, spec, legacy, draw);
    hide Feasible, DecidedFrom, ValidSource;
    CompiledIsValidSource(source, draw);
  }
}
