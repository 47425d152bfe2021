/**
 What every reachable planner state satisfies, why each eligible action applies, and the
 potential every transition lowers.
 */
module PlanInvariant {
  import opened Wrappers
  import opened Sequences
  import opened Plan

  // ---------- the enumeration lists exactly the actions that can be taken ----------

  lemma BusinessScriptMembers(spec: Spec, attempts: nat, script: Script)
    ensures script in ScriptsStartingWith(spec, RetryOutcomes(spec, attempts))
       <==> BusinessScriptAllowed(spec, attempts, script)
  {
    var f := first => BusinessScripts(spec, first);
    FlatMapMembers(f, RetryOutcomes(spec, attempts), script);
    forall o ensures script in BusinessScripts(spec, o) <==>
      (match script case Single(x) => x == o && o != CommitThenClose
                    case TransportRetry(r) => o == CommitThenClose && r in spec.outcomes)
    {
      MapMembers(retry => TransportRetry(retry), spec.outcomes, script);
    }
    if BusinessScriptAllowed(spec, attempts, script) {
      var o := if script.Single? then script.only else CommitThenClose;
      assert o in RetryOutcomes(spec, attempts) && script in f(o);
    }
  }

  lemma FirstScriptMembers(spec: Spec, script: Script)
    ensures script in ScriptsStartingWith(spec, spec.outcomes) <==> BusinessScriptAllowed(spec, 0, script)
  {
    KeepAll(spec.outcomes);
    BusinessScriptMembers(spec, 0, script);
  }

  lemma {:induction false} KeepAll(outcomes: seq<ProviderOutcome>)
    ensures Filter(o => 0 < 2 || o == Normal, outcomes) == outcomes
  {
    if outcomes != [] {
      KeepAll(outcomes[1..]);
    }
  }

  lemma PhaseMembers(spec: Spec, phase: Phase, objects: nat, a: Action)
    ensures a in PhaseActions(spec, phase, objects) <==> PhaseAllows(spec, phase, objects, a)
  {
    match phase
    case Start =>
      var scripts := ScriptsStartingWith(spec, spec.outcomes);
      MapMembers(script => DriveCheckout(script), scripts, a);
      if a.DriveCheckout? { FirstScriptMembers(spec, a.script); }
    case CheckoutRetryable(n, _) =>
      var scripts := ScriptsStartingWith(spec, RetryOutcomes(spec, n));
      MapMembers(script => RetryBusinessRequest(script), scripts, a);
      if a.RetryBusinessRequest? { BusinessScriptMembers(spec, n, a.script); }
    case PaymentIntentKnown =>
      MapMembers(o => ConfirmPaymentIntent(Single(o)), spec.outcomes, a);
    case ConfirmRetryable(n, _) =>
      MapMembers(o => RetryProviderRequest(Single(o)), RetryOutcomes(spec, n), a);
    case Events(e) =>
      MapMembers(d => DelayWebhook(d), spec.delays, a);
    case _ =>
  }

  /** The enumerated eligible actions are exactly the actions that can be taken. */
  lemma EligibleIffCanTake(spec: Spec, s: State, a: Action)
    ensures a in EligibleActions(spec, s) <==> CanTake(spec, s, a)
  {
    if s.healthy {
      PhaseMembers(spec, s.phase, s.objects, a);
      if s.kills < spec.maxKills {
        MapMembers(c => KillApplication(c), Filter(c => CutPointReachable(s, c), spec.cutPoints), a);
      }
    }
  }

  /** A specification is valid within the bounds of version 1; a missing normal outcome is reported first. */
  lemma ValidMeans(spec: Spec)
    ensures ValidSpec(spec) <==>
      && (exists i :: 0 <= i < |spec.outcomes| && spec.outcomes[i].Normal?)
      && spec.duplicateMax < 4 && spec.maxKills < 2
      && (forall i :: 0 <= i < |spec.delays| ==> spec.delays[i] < 5001)
    ensures ValidateSpec(spec) == Err(MissingNormalProviderOutcome) <==>
      forall i :: 0 <= i < |spec.outcomes| ==> !spec.outcomes[i].Normal?
    ensures ValidateSpec(spec) != Err(PlanIsNotFeasible)
  {
    assert Normal in spec.outcomes <==> exists i :: 0 <= i < |spec.outcomes| && spec.outcomes[i].Normal?;
    assert forall i :: 0 <= i < |spec.delays| ==> spec.delays[i] in spec.delays;
  }

  // ---------- the reachable-state invariant ----------

  /** How many provider objects can exist: seven before the reset a kill may force, five more after it. */
  function MaxObjects(phase: Phase, kills: nat): nat {
    match phase
    case Start => 0
    case CheckoutRetryable(n, _) => if kills == 0 then 2 * n + 2 else 2 * n + 7
    case _ => if kills == 0 then 7 else 12
  }

  /** Phases that cannot be entered without a committed provider object. */
  predicate NeedsObject(phase: Phase) {
    match phase
    case Start => false
    case CheckoutRetryable(_, ambiguous) => ambiguous
    case _ => true
  }

  predicate EventsInRange(spec: Spec, e: EventState, objects: nat) {
    && 1 <= e.generated <= objects * spec.EventsPerProvider()
    && e.pending + e.delivered <= e.generated
    && e.duplicates <= spec.duplicateMax
    && (e.generated < objects * spec.EventsPerProvider() ==>
          e.pending == e.generated && e.delivered == 0 && e.duplicates == 0 && !e.delayUsed && !e.reorderUsed)
  }

  /** An observation is only remembered in the phase its effect leads to. */
  predicate ObservationFits(s: State) {
    match s.observation
    case NoObservation => true
    case InitialCheckoutResponse => s.phase.PaymentIntentKnown?
    case CheckoutResponse => s.phase.PaymentIntentKnown? || s.phase.CheckoutRetryable?
    case CheckoutRequestHeld => s.phase.CheckoutResponseHeld?
    case WebhookDelivery => s.phase.Events?
  }

  predicate Inv(spec: Spec, s: State) {
    && s.kills <= spec.maxKills <= 1
    && (!s.healthy ==> s.kills == 1 && !s.phase.Complete? && !s.phase.Start?)
    && s.objects <= MaxObjects(s.phase, s.kills)
    && (NeedsObject(s.phase) ==> s.objects >= 1)
    && (s.phase.CheckoutRetryable? || s.phase.ConfirmRetryable? ==> s.phase.attempts <= 2)
    && (s.phase.Events? ==> EventsInRange(spec, s.phase.events, s.objects))
    && (s.phase.Start? ==> s.kills == 0)
    && (s.legacy || s.kills == 1 ==> s.observation == NoObservation)
    && ObservationFits(s)
  }

  lemma InitialInv(spec: Spec, legacy: bool)
    requires ValidSpec(spec)
    ensures Inv(spec, Initial(legacy))
  {
  }

  lemma ObjectsFitOneByte(spec: Spec, s: State)
    requires Inv(spec, s)
    ensures s.objects <= 12
    ensures TargetEvents(spec, s.objects) == s.objects * spec.EventsPerProvider() <= 24
  {
  }

  /** No checked or saturating byte operation of the planner ever triggers. */
  lemma CountersStaySmall(spec: Spec, s: State)
    requires ValidSpec(spec) && Inv(spec, s)
    ensures s.objects <= 12 && s.kills <= 1
    ensures s.phase.CheckoutRetryable? || s.phase.ConfirmRetryable? ==> s.phase.attempts <= 2
    ensures s.phase.Events? ==>
      s.phase.events.generated <= 24 && s.phase.events.pending <= 24
      && s.phase.events.delivered <= 24 && s.phase.events.duplicates <= 3
  {
    ObjectsFitOneByte(spec, s);
  }

  lemma KillKeepsInv(spec: Spec, s: State, a: Action)
    requires ValidSpec(spec) && Inv(spec, s) && s.healthy && KillAllowed(spec, s, a)
    ensures Apply(s, a).Some? && Inv(spec, Apply(s, a).value)
  {
    var t := Apply(s, a).value;
    assert t.kills == 1 && !s.phase.Start? && !s.phase.Complete?;
  }

  lemma StartKeepsInv(spec: Spec, s: State, a: Action)
    requires ValidSpec(spec) && Inv(spec, s) && s.healthy && s.phase.Start?
    requires PhaseAllows(spec, s.phase, s.objects, a)
    ensures Apply(s, a).Some? && Inv(spec, Apply(s, a).value)
  {
    hide EventsInRange;
  }

  lemma RetryKeepsInv(spec: Spec, s: State, a: Action)
    requires ValidSpec(spec) && Inv(spec, s) && s.healthy && s.phase.CheckoutRetryable?
    requires PhaseAllows(spec, s.phase, s.objects, a)
    ensures Apply(s, a).Some? && Inv(spec, Apply(s, a).value)
  {
    hide EventsInRange;
  }

  lemma CheckoutKeepsInv(spec: Spec, s: State, a: Action)
    requires ValidSpec(spec) && Inv(spec, s) && s.healthy
    requires s.phase.Start? || s.phase.CheckoutRetryable? || s.phase.CheckoutResponseHeld?
    requires PhaseAllows(spec, s.phase, s.objects, a)
    ensures Apply(s, a).Some? && Inv(spec, Apply(s, a).value)
  {
    hide EventsInRange;
    if s.phase.Start? {
      StartKeepsInv(spec, s, a);
    } else if s.phase.CheckoutRetryable? {
      RetryKeepsInv(spec, s, a);
    }
  }

  lemma ConfirmKeepsInv(spec: Spec, s: State, a: Action)
    requires ValidSpec(spec) && Inv(spec, s) && s.healthy
    requires s.phase.PaymentIntentKnown? || s.phase.ConfirmRetryable? || s.phase.ConfirmResponseHeld?
             || s.phase.Confirmed?
    requires PhaseAllows(spec, s.phase, s.objects, a)
    ensures Apply(s, a).Some? && Inv(spec, Apply(s, a).value)
  {
    ObjectsFitOneByte(spec, s);
  }

  /** Webhook actions keep the event counters within the target. */
  lemma EventCountersKept(spec: Spec, e: EventState, objects: nat, a: Action)
    requires EventsInRange(spec, e, objects) && TargetEvents(spec, objects) == objects * spec.EventsPerProvider()
    requires EventAllowed(spec, e, objects, a) && !a.WaitForQuiescence?
    ensures ApplyEvent(Events(e), a).Some? && ApplyEvent(Events(e), a).value.Events?
    ensures EventsInRange(spec, ApplyEvent(Events(e), a).value.events, objects)
  {
    hide TargetEvents;
  }

  lemma EventsKeepInv(spec: Spec, s: State, a: Action)
    requires ValidSpec(spec) && Inv(spec, s) && s.healthy && (s.phase.Events? || s.phase.Quiesced?)
    requires PhaseAllows(spec, s.phase, s.objects, a)
    ensures Apply(s, a).Some? && Inv(spec, Apply(s, a).value)
  {
    ObjectsFitOneByte(spec, s);
    if s.phase.Events? && !a.WaitForQuiescence? {
      EventCountersKept(spec, s.phase.events, s.objects, a);
    }
    hide EventsInRange, TargetEvents;
  }

  lemma CanTakeKeepsInv(spec: Spec, s: State, a: Action)
    requires ValidSpec(spec) && Inv(spec, s) && CanTake(spec, s, a)
    ensures Apply(s, a).Some? && Inv(spec, Apply(s, a).value)
  {
    if s.healthy && KillAllowed(spec, s, a) {
      KillKeepsInv(spec, s, a);
    } else if s.healthy {
      if s.phase.Start? || s.phase.CheckoutRetryable? || s.phase.CheckoutResponseHeld? {
        CheckoutKeepsInv(spec, s, a);
      } else if s.phase.Events? || s.phase.Quiesced? {
        EventsKeepInv(spec, s, a);
      } else {
        ConfirmKeepsInv(spec, s, a);
      }
    }
  }

  /** Every eligible action of a reachable state applies, and leads to a reachable state. */
  lemma EligibleApplies(spec: Spec, s: State, a: Action)
    requires ValidSpec(spec) && Inv(spec, s) && CanTake(spec, s, a)
    ensures Step(spec, s, a).Some? && Step(spec, s, a) == Apply(s, a) && Inv(spec, Step(spec, s, a).value)
  {
    CanTakeKeepsInv(spec, s, a);
  }

  lemma ApplyKeepsPolicy(s: State, a: Action)
    requires Apply(s, a).Some?
    ensures Apply(s, a).value.legacy == s.legacy
  {
  }

  lemma {:induction false} RunKeepsInv(spec: Spec, s: State, actions: seq<Action>)
    requires ValidSpec(spec) && Inv(spec, s) && Run(spec, s, actions).Some?
    ensures Inv(spec, Run(spec, s, actions).value)
    ensures Run(spec, s, actions).value.legacy == s.legacy
  {
    if actions != [] {
      var last := |actions| - 1;
      RunKeepsInv(spec, s, actions[..last]);
      var t := Run(spec, s, actions[..last]).value;
      EligibleApplies(spec, t, actions[last]);
      ApplyKeepsPolicy(t, actions[last]);
    }
  }

  // ---------- the potential ----------

  function Rank(phase: Phase): int {
    match phase
    case Start => 14
    case CheckoutRetryable(n, _) => 13 - n
    case CheckoutResponseHeld => 10
    case PaymentIntentKnown => 9
    case ConfirmRetryable(n, _) => 8 - n
    case ConfirmResponseHeld => 5
    case Confirmed => 4
    case Events(_) => 3
    case Quiesced => 2
    case Complete => 1
  }

  function EventWork(spec: Spec, s: State): int {
    if !s.phase.Events? then 0
    else
      var e := s.phase.events;
      2 * (s.objects * spec.EventsPerProvider() - e.generated) + e.pending
      + (spec.duplicateMax - e.duplicates)
      + (if e.delayUsed then 0 else 1) + (if e.reorderUsed then 0 else 1)
  }

  /** Kills left, then health, then phase, then event work: one number, lexicographic by its weights. */
  function Potential(spec: Spec, s: State): int {
    4000 * (spec.maxKills - s.kills) + (if s.healthy then 0 else 2000) + 100 * Rank(s.phase) + EventWork(spec, s)
  }

  lemma PotentialInRange(spec: Spec, s: State)
    requires ValidSpec(spec) && Inv(spec, s)
    ensures 0 <= EventWork(spec, s) < 100
    ensures 1 <= Rank(s.phase) <= 14
    ensures 0 < Potential(spec, s)
  {
    ObjectsFitOneByte(spec, s);
  }

  lemma EventActionLowersWork(spec: Spec, s: State, a: Action)
    requires ValidSpec(spec) && Inv(spec, s) && s.healthy && s.phase.Events?
    requires EventAllowed(spec, s.phase.events, s.objects, a) && !a.WaitForQuiescence?
    ensures Apply(s, a).Some?
    ensures Apply(s, a).value.phase.Events? && Apply(s, a).value.healthy && Apply(s, a).value.kills == s.kills
    ensures EventWork(spec, Apply(s, a).value) < EventWork(spec, s)
  {
    ObjectsFitOneByte(spec, s);
    hide TargetEvents, MaxObjects, ObservationFits, NeedsObject;
  }

  lemma CanTakeLowersPotential(spec: Spec, s: State, a: Action)
    requires ValidSpec(spec) && Inv(spec, s) && CanTake(spec, s, a)
    requires Apply(s, a).Some? && Inv(spec, Apply(s, a).value)
    ensures Potential(spec, Apply(s, a).value) < Potential(spec, s)
  {
    var t := Apply(s, a).value;
    PotentialInRange(spec, s);
    PotentialInRange(spec, t);
    if s.healthy && !KillAllowed(spec, s, a) {
      if s.phase.Events? && !a.WaitForQuiescence? {
        EventActionLowersWork(spec, s, a);
      } else {
        RankFalls(spec, s, a);
      }
    }
  }

  lemma CheckoutRankFalls(spec: Spec, s: State, a: Action)
    requires Inv(spec, s) && s.healthy && (s.phase.Start? || s.phase.CheckoutRetryable?)
    requires PhaseAllows(spec, s.phase, s.objects, a) && Apply(s, a).Some? && Inv(spec, Apply(s, a).value)
    ensures Rank(Apply(s, a).value.phase) < Rank(s.phase)
    ensures Apply(s, a).value.healthy && Apply(s, a).value.kills == s.kills
  {
    hide EventsInRange, MaxObjects, ObservationFits, NeedsObject;
  }

  lemma RankFalls(spec: Spec, s: State, a: Action)
    requires Inv(spec, s) && s.healthy && PhaseAllows(spec, s.phase, s.objects, a)
    requires !s.phase.Events? || a.WaitForQuiescence?
    requires Apply(s, a).Some? && Inv(spec, Apply(s, a).value)
    ensures Rank(Apply(s, a).value.phase) < Rank(s.phase)
    ensures Apply(s, a).value.healthy && Apply(s, a).value.kills == s.kills
  {
    hide EventsInRange, MaxObjects, ObservationFits, NeedsObject;
    if s.phase.Start? || s.phase.CheckoutRetryable? {
      CheckoutRankFalls(spec, s, a);
    }
  }

  /** The workflow is acyclic: every accepted action lowers the potential. */
  lemma StepLowersPotential(spec: Spec, s: State, a: Action)
    requires ValidSpec(spec) && Inv(spec, s) && CanTake(spec, s, a)
    ensures Step(spec, s, a).Some?
    ensures 0 < Potential(spec, Step(spec, s, a).value) < Potential(spec, s)
  {
    CanTakeKeepsInv(spec, s, a);
    CanTakeLowersPotential(spec, s, a);
    PotentialInRange(spec, Apply(s, a).value);
  }

  /** Capabilities under which twelve objects can be created. */
  predicate CreatesTwelve(spec: Spec) {
    && ValidSpec(spec)
    && CommitThenClose in spec.outcomes
    && ClientResponseObserved in spec.cutPoints
    && spec.maxKills == 1
  }

  function Checkout(n: nat, ambiguous: bool, objects: nat, kills: nat, legacy: bool): State {
    State(CheckoutRetryable(n, ambiguous), objects, true, kills, legacy,
          if legacy || kills == 1 then NoObservation else CheckoutResponse)
  }

  function Known(objects: nat, kills: nat, legacy: bool): State {
    State(PaymentIntentKnown, objects, true, kills, legacy,
          if legacy || kills == 1 then NoObservation else CheckoutResponse)
  }

  lemma HeavyDrive(spec: Spec, legacy: bool)
    requires CreatesTwelve(spec)
    ensures CanTake(spec, Initial(legacy), DriveCheckout(TransportRetry(CommitThenClose)))
    ensures Apply(Initial(legacy), DriveCheckout(TransportRetry(CommitThenClose)))
         == Some(Checkout(0, true, 2, 0, legacy))
  {
  }

  lemma HeavyRetry(spec: Spec, n: nat, ambiguous: bool, objects: nat, kills: nat, legacy: bool)
    requires CreatesTwelve(spec) && n < 2 && kills <= 1 && objects <= 12
    ensures CanTake(spec, Checkout(n, ambiguous, objects, kills, legacy),
                    RetryBusinessRequest(TransportRetry(CommitThenClose)))
    ensures Apply(Checkout(n, ambiguous, objects, kills, legacy), RetryBusinessRequest(TransportRetry(CommitThenClose)))
         == Some(Checkout(n + 1, true, objects + 2, kills, legacy))
  {
  }

  lemma HeavyNormal(spec: Spec, objects: nat, kills: nat, legacy: bool)
    requires CreatesTwelve(spec) && kills <= 1 && objects <= 12
    ensures CanTake(spec, Checkout(2, true, objects, kills, legacy), RetryBusinessRequest(Single(Normal)))
    ensures Apply(Checkout(2, true, objects, kills, legacy), RetryBusinessRequest(Single(Normal)))
         == Some(Known(objects + 1, kills, legacy))
  {
  }

  lemma HeavyKill(spec: Spec, objects: nat, legacy: bool)
    requires CreatesTwelve(spec)
    ensures var s := Known(objects, 0, legacy);
            var a := KillApplication(ClientResponseObserved);
            var t := State(CheckoutRetryable(0, false), objects, false, 1, legacy, NoObservation);
            && CanTake(spec, s, a) && Apply(s, a) == Some(t)
            && CanTake(spec, t, RestartAndAwaitHealth)
            && Apply(t, RestartAndAwaitHealth) == Some(Checkout(0, false, objects, 1, legacy))
  {
  }

  lemma RetryOnce(
    spec: Spec, s0: State, actions: seq<Action>, n: nat, ambiguous: bool, objects: nat, kills: nat, legacy: bool)
    returns (longer: seq<Action>)
    requires CreatesTwelve(spec) && n < 2 && kills <= 1 && objects <= 12
    requires Run(spec, s0, actions) == Some(Checkout(n, ambiguous, objects, kills, legacy))
    ensures Run(spec, s0, longer) == Some(Checkout(n + 1, true, objects + 2, kills, legacy))
  {
    HeavyRetry(spec, n, ambiguous, objects, kills, legacy);
    longer := Extend(spec, s0, actions, Checkout(n, ambiguous, objects, kills, legacy),
                     RetryBusinessRequest(TransportRetry(CommitThenClose)),
                     Checkout(n + 1, true, objects + 2, kills, legacy));
  }

  lemma NormalOnce(spec: Spec, s0: State, actions: seq<Action>, objects: nat, kills: nat, legacy: bool)
    returns (longer: seq<Action>)
    requires CreatesTwelve(spec) && kills <= 1 && objects <= 12
    requires Run(spec, s0, actions) == Some(Checkout(2, true, objects, kills, legacy))
    ensures Run(spec, s0, longer) == Some(Known(objects + 1, kills, legacy))
  {
    HeavyNormal(spec, objects, kills, legacy);
    longer := Extend(spec, s0, actions, Checkout(2, true, objects, kills, legacy),
                     RetryBusinessRequest(Single(Normal)), Known(objects + 1, kills, legacy));
  }

  lemma RetryTwice(spec: Spec, s0: State, actions: seq<Action>, ambiguous: bool, objects: nat, kills: nat, legacy: bool)
    returns (longer: seq<Action>)
    requires CreatesTwelve(spec) && kills <= 1 && objects <= 7
    requires Run(spec, s0, actions) == Some(Checkout(0, ambiguous, objects, kills, legacy))
    ensures Run(spec, s0, longer) == Some(Checkout(2, true, objects + 4, kills, legacy))
  {
    hide CanTake, Apply, Step;
    longer := RetryOnce(spec, s0, actions, 0, ambiguous, objects, kills, legacy);
    longer := RetryOnce(spec, s0, longer, 1, true, objects + 2, kills, legacy);
  }

  /** Two retries and a normal one: five more objects. */
  lemma FiveMoreObjects(
    spec: Spec, s0: State, actions: seq<Action>, ambiguous: bool, objects: nat, kills: nat, legacy: bool)
    returns (longer: seq<Action>)
    requires CreatesTwelve(spec) && kills <= 1 && objects <= 7
    requires Run(spec, s0, actions) == Some(Checkout(0, ambiguous, objects, kills, legacy))
    ensures Run(spec, s0, longer) == Some(Known(objects + 5, kills, legacy))
  {
    longer := RetryTwice(spec, s0, actions, ambiguous, objects, kills, legacy);
    longer := NormalOnce(spec, s0, longer, objects + 4, kills, legacy);
  }

  /** The bound of twelve objects is met, under either policy, whenever the capabilities allow it. */
  lemma TwelveObjectsAreReached(spec: Spec, legacy: bool) returns (actions: seq<Action>)
    requires CreatesTwelve(spec)
    ensures Run(spec, Initial(legacy), actions) == Some(Known(12, 1, legacy))
  {
    var s0 := Initial(legacy);
    HeavyDrive(spec, legacy);
    actions := Extend(spec, s0, [], s0, DriveCheckout(TransportRetry(CommitThenClose)),
                      Checkout(0, true, 2, 0, legacy));
    actions := FiveMoreObjects(spec, s0, actions, true, 2, 0, legacy);
    HeavyKill(spec, 7, legacy);
    var down := State(CheckoutRetryable(0, false), 7, false, 1, legacy, NoObservation);
    actions := Extend(spec, s0, actions, Known(7, 0, legacy), KillApplication(ClientResponseObserved), down);
    actions := Extend(spec, s0, actions, down, RestartAndAwaitHealth, Checkout(0, false, 7, 1, legacy));
    actions := FiveMoreObjects(spec, s0, actions, false, 7, 1, legacy);
  }

  /** Extends a known run by one named transition. */
  lemma Extend(spec: Spec, s0: State, actions: seq<Action>, s: State, a: Action, t: State)
    returns (longer: seq<Action>)
    requires Run(spec, s0, actions) == Some(s)
    requires CanTake(spec, s, a) && Apply(s, a) == Some(t)
    ensures longer == actions + [a] && Run(spec, s0, longer) == Some(t)
  {
    longer := actions + [a];
    RunAppend(spec, s0, actions, a);
  }
}
