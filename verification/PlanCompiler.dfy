/**
 The budget-guided compiler: at every step it keeps the eligible actions that can still finish
 within the budget and draws one of them.
 */
module PlanCompiler {
  import opened Wrappers
  import opened Sequences
  import opened Decision
  import opened Plan
  import opened PlanInvariant
  import opened PlanDistance

  // ---------- the derived order on actions ----------

  function OutcomeRank(o: ProviderOutcome): nat {
    match o
    case Normal => 0
    case PreExecute429 => 1
    case PreExecute500 => 2
    case PostExecute500 => 3
    case CommitThenClose => 4
    case CommitThenDelay => 5
  }

  function CutPointRank(c: CutPoint): nat {
    match c
    case ClientRequestForwarded => 0
    case ClientResponseObserved => 1
    case WebhookRequestForwarded => 2
    case WebhookResponseObserved => 3
    case SqlProbe => 4
  }

  function VariantRank(a: Action): nat {
    match a
    case DriveCheckout(_) => 0
    case RetrievePaymentIntent => 1
    case ReleaseProviderGate => 2
    case RetryBusinessRequest(_) => 3
    case ConfirmPaymentIntent(_) => 4
    case RetryProviderRequest(_) => 5
    case GenerateProviderEvent => 6
    case DeliverWebhook => 7
    case DuplicateWebhook => 8
    case DelayWebhook(_) => 9
    case ReorderWebhooks => 10
    case DropWebhook => 11
    case KillApplication(_) => 12
    case RestartAndAwaitHealth => 13
    case WaitForQuiescence => 14
    case CheckCheckpoint => 15
  }

  predicate HasScript(a: Action) {
    a.DriveCheckout? || a.RetryBusinessRequest? || a.ConfirmPaymentIntent? || a.RetryProviderRequest?
  }

  function FirstField(a: Action): nat {
    if HasScript(a) then OutcomeRank(a.script.Outcomes()[0])
    else if a.DelayWebhook? then a.milliseconds
    else if a.KillApplication? then CutPointRank(a.cutPoint)
    else 0
  }

  function SecondField(a: Action): nat {
    if HasScript(a) && a.script.TransportRetry? then 1 + OutcomeRank(a.script.retry) else 0
  }

  /** Field-by-field comparison in declaration order. */
  predicate ActionLess(a: Action, b: Action) {
    || VariantRank(a) < VariantRank(b)
    || (VariantRank(a) == VariantRank(b)
        && (FirstField(a) < FirstField(b) || (FirstField(a) == FirstField(b) && SecondField(a) < SecondField(b))))
  }

  lemma OutcomeRankInjective(a: ProviderOutcome, b: ProviderOutcome)
    requires OutcomeRank(a) == OutcomeRank(b)
    ensures a == b
  {
  }

  lemma FieldsInjective(a: Action, b: Action)
    requires VariantRank(a) == VariantRank(b) && FirstField(a) == FirstField(b) && SecondField(a) == SecondField(b)
    ensures a == b
  {
    if HasScript(a) {
      OutcomeRankInjective(a.script.Outcomes()[0], b.script.Outcomes()[0]);
      if a.script.TransportRetry? { OutcomeRankInjective(a.script.retry, b.script.retry); }
    }
  }

  lemma ActionOrder(items: set<Action>)
    ensures StrictOrderOn(ActionLess, items)
  {
    forall a, b | a in items && b in items && a != b ensures ActionLess(a, b) || ActionLess(b, a) {
      if !ActionLess(a, b) && !ActionLess(b, a) { FieldsInjective(a, b); }
    }
  }

  /** Each action before the next; by transitivity, before all that follow. */
  predicate InOrder(actions: seq<Action>) {
    forall i :: 0 < i < |actions| ==> ActionLess(actions[i - 1], actions[i])
  }

  /** The kinds of action compare in the order they are declared in, whatever they carry. */
  lemma KindsInOrder(a: Script, b: Script, c: Script, d: Script, ms: nat, cutPoint: CutPoint)
    ensures InOrder(
              [DriveCheckout(a), RetrievePaymentIntent, ReleaseProviderGate, RetryBusinessRequest(b),
               ConfirmPaymentIntent(c), RetryProviderRequest(d), GenerateProviderEvent, DeliverWebhook,
               DuplicateWebhook, DelayWebhook(ms), ReorderWebhooks, DropWebhook, KillApplication(cutPoint),
               RestartAndAwaitHealth, WaitForQuiescence, CheckCheckpoint])
  {
    hide FirstField, SecondField;
  }

  function Call(kind: nat, script: Script): Action {
    if kind == 0 then DriveCheckout(script)
    else if kind == 1 then RetryBusinessRequest(script)
    else if kind == 2 then ConfirmPaymentIntent(script)
    else RetryProviderRequest(script)
  }

  lemma OutcomesInOrder()
    ensures OutcomeRank(Normal) < OutcomeRank(PreExecute429) < OutcomeRank(PreExecute500)
            < OutcomeRank(PostExecute500) < OutcomeRank(CommitThenClose) < OutcomeRank(CommitThenDelay)
  {
  }

  /** Calls of one kind compare by their first outcome; without a retry comes before any with one. */
  lemma CallsInOrder(kind: nat, a: Script, b: Script)
    ensures ActionLess(Call(kind, a), Call(kind, b)) <==>
      || OutcomeRank(a.Outcomes()[0]) < OutcomeRank(b.Outcomes()[0])
      || (a.Outcomes()[0] == b.Outcomes()[0] && b.TransportRetry?
          && (a.TransportRetry? ==> OutcomeRank(a.retry) < OutcomeRank(b.retry)))
  {
    if OutcomeRank(a.Outcomes()[0]) == OutcomeRank(b.Outcomes()[0]) {
      OutcomeRankInjective(a.Outcomes()[0], b.Outcomes()[0]);
    }
    hide OutcomeRank;
  }

  lemma FaultsInOrder(i: nat, j: nat)
    ensures ActionLess(DelayWebhook(i), DelayWebhook(j)) <==> i < j
    ensures InOrder(
              [KillApplication(ClientRequestForwarded), KillApplication(ClientResponseObserved),
               KillApplication(WebhookRequestForwarded), KillApplication(WebhookResponseObserved),
               KillApplication(SqlProbe)])
  {
  }

  // ---------- planned cases ----------

  datatype PlannedAction = PlannedAction(
    id: nat,
    logicalSequence: nat,
    dependencies: set<nat>,
    decisionNumber: nat,
    eligibleCount: nat,
    kind: Action)

  datatype PlannedCase = PlannedCase(
    legacy: bool,
    spec: Spec,
    decisionCount: nat,
    actions: seq<PlannedAction>)

  datatype CompileError =
    | InvalidSpec(error: PlanValidationError)
    | BudgetCannotReachCheckpoint(maxActions: nat)
    | NoEligibleAction

  function Kinds(actions: seq<PlannedAction>): (r: seq<Action>)
    ensures |r| == |actions|
    ensures forall i :: 0 <= i < |actions| ==> r[i] == actions[i].kind
  {
    seq(|actions|, i requires 0 <= i < |actions| => actions[i].kind)
  }

  /** Identity, sequence, decision number and dependency all follow from the position. */
  predicate Numbered(p: PlannedAction, index: nat) {
    && p.id == index + 1
    && p.logicalSequence == index + 1
    && p.decisionNumber == index
    && p.dependencies == if index == 0 then {} else {index}
  }

  /** The next action leaves a completion that fits in the remaining budget. */
  predicate CanFinish(spec: Spec, s: State, a: Action, remaining: int) {
    Apply(s, a).Some? && Distance(spec, Apply(s, a).value) < remaining
  }

  function SafeActions(spec: Spec, s: State, remaining: int): seq<Action> {
    Filter(a => CanFinish(spec, s, a, remaining), EligibleActions(spec, s))
  }

  /** One recorded decision: the position of the draw in the sorted set of safe actions. */
  ghost predicate Decided(spec: Spec, s: State, remaining: int, draw: (nat, nat) -> nat, p: PlannedAction) {
    exists listing ::
      && IsListing(ActionLess, SafeActions(spec, s, remaining), listing)
      && listing != []
      && p.eligibleCount == |listing|
      && p.kind == listing[draw(p.decisionNumber, |listing|) % |listing|]
  }

  /** Every planned action is numbered by its position and was decided in the state its predecessors lead to. */
  ghost predicate DecidedFrom(spec: Spec, legacy: bool, draw: (nat, nat) -> nat, actions: seq<PlannedAction>) {
    forall i :: 0 <= i < |actions| ==> DecidedAfter(spec, legacy, draw, actions[..i], actions[i])
  }

  ghost predicate DecidedAfter(
    spec: Spec, legacy: bool, draw: (nat, nat) -> nat, before: seq<PlannedAction>, p: PlannedAction)
  {
    var s := Run(spec, Initial(legacy), Kinds(before));
    Numbered(p, |before|) && s.Some? && Decided(spec, s.value, spec.maxActions - |before|, draw, p)
  }

  /** What a successful compilation promises. */
  ghost predicate WellPlanned(planned: PlannedCase, spec: Spec, legacy: bool, draw: (nat, nat) -> nat) {
    && planned.legacy == legacy && planned.spec == spec
    && planned.decisionCount == |planned.actions| <= spec.maxActions
    && Feasible(spec, legacy, Kinds(planned.actions))
    && DecidedFrom(spec, legacy, draw, planned.actions)
  }

  lemma KindsPrefix(actions: seq<PlannedAction>, i: nat)
    requires i <= |actions|
    ensures Kinds(actions[..i]) == Kinds(actions)[..i]
  {
  }

  lemma AdvanceIsSafe(spec: Spec, s: State, remaining: int)
    requires ValidSpec(spec) && Inv(spec, s) && !s.phase.Complete? && Distance(spec, s) <= remaining
    ensures Advance(spec, s) in SafeActions(spec, s, remaining)
  {
    AdvanceLosesOne(spec, s);
    EligibleIffCanTake(spec, s, Advance(spec, s));
  }

  lemma SafeIsEligible(spec: Spec, s: State, remaining: int, a: Action)
    requires a in SafeActions(spec, s, remaining)
    ensures CanTake(spec, s, a) && CanFinish(spec, s, a, remaining)
  {
    EligibleIffCanTake(spec, s, a);
  }

  /** The eligible actions that keep a completion within the remaining budget, by way of the shared memo. */
  method FilterSafe(spec: Spec, s: State, remaining: nat, cache: DistanceCache) returns (safe: seq<Action>)
    requires ValidSpec(spec) && Inv(spec, s)
    requires CacheSound(spec, cache.entries, {})
    modifies cache
    ensures CacheSound(spec, cache.entries, {})
    ensures forall a :: a in safe <==> a in SafeActions(spec, s, remaining)
  {
    hide CanTake, Apply, Step, Inv, Distance, Potential, EligibleActions;
    var eligible := EligibleActions(spec, s);
    safe := [];
    for i := 0 to |eligible|
      invariant CacheSound(spec, cache.entries, {})
      invariant forall a :: a in safe <==> a in eligible[..i] && CanFinish(spec, s, a, remaining)
    {
      var a := eligible[i];
      EligibleIffCanTake(spec, s, a);
      EligibleApplies(spec, s, a);
      var next := Apply(s, a);
      if next.Some? {
        var distance := cache.MinimumActions(spec, next.value, {});
        if distance.Some? && distance.value < remaining {
          safe := safe + [a];
        }
      }
      assert eligible[..i + 1] == eligible[..i] + [a];
    }
    assert eligible[..|eligible|] == eligible;
  }

  /** One round of the loop: filter, draw, record. */
  method DecideNext(
    spec: Spec, s: State, remaining: nat, n: nat, cache: DistanceCache, decisions: DecisionEngine)
    returns (planned: Option<PlannedAction>)
    requires ValidSpec(spec) && Inv(spec, s) && !s.phase.Complete?
    requires CacheSound(spec, cache.entries, {})
    requires Distance(spec, s) <= remaining
    requires decisions.position == decisions.decisionNumber == n
    modifies cache, decisions
    ensures CacheSound(spec, cache.entries, {})
    ensures decisions.position == decisions.decisionNumber == n + 1
    ensures planned.Some? && Numbered(planned.value, n)
    ensures Decided(spec, s, remaining, decisions.draw, planned.value)
    ensures CanTake(spec, s, planned.value.kind)
    ensures var next := Apply(s, planned.value.kind);
            next.Some? && Inv(spec, next.value) && 0 <= Distance(spec, next.value) < remaining
            && Potential(spec, next.value) < Potential(spec, s)
    ensures Step(spec, s, planned.value.kind) == Apply(s, planned.value.kind)
    ensures 0 < Potential(spec, s) && 0 < remaining
  {
    hide Inv, CacheSound, Distance, Potential, Apply, CanTake;
    PotentialInRange(spec, s);
    DistanceInRange(spec, s);
    var safe := FilterSafe(spec, s, remaining, cache);
    AdvanceIsSafe(spec, s, remaining);
    ActionOrder(Elements(safe));
    var decision := decisions.Choose(ActionLess, safe);
    if decision.None? {
      return None;
    }
    var kind := decision.value.selected;
    SafeIsEligible(spec, s, remaining, kind);
    StepLowersPotential(spec, s, kind);
    EligibleApplies(spec, s, kind);
    DistanceInRange(spec, Apply(s, kind).value);
    planned := Some(PlannedAction(
      n + 1, n + 1, if n == 0 then {} else {n}, decision.value.ordinal, decision.value.eligibleCount, kind));
    assert Elements(safe) == Elements(SafeActions(spec, s, remaining));
    assert Decided(spec, s, remaining, decisions.draw, planned.value) by {
      var listing :| IsListing(ActionLess, safe, listing) && |listing| == decision.value.eligibleCount
                     && decision.value.selected == listing[decisions.draw(n, |listing|) % |listing|];
      assert IsListing(ActionLess, SafeActions(spec, s, remaining), listing);
    }
  }

  /** Compilation succeeds exactly when the budget covers a shortest case; it never runs out of actions. */
  method CompileWithScheduler(spec: Spec, legacy: bool, draw: (nat, nat) -> nat)
    returns (result: Result<PlannedCase, CompileError>)
    requires spec.BudgetInRange()
    ensures !ValidSpec(spec) ==> result == Err(InvalidSpec(ValidateSpec(spec).error))
    ensures ValidSpec(spec) && spec.maxActions < 4 + 2 * spec.EventsPerProvider() ==>
      result == Err(BudgetCannotReachCheckpoint(spec.maxActions))
    ensures ValidSpec(spec) && spec.maxActions >= 4 + 2 * spec.EventsPerProvider() ==>
      result.Ok? && WellPlanned(result.value, spec, legacy, draw)
  {
    var checked := ValidateSpec(spec);
    if checked.Err? {
      return Err(InvalidSpec(checked.error));
    }
    hide *;
    var state := Initial(legacy);
    StartOfCompilation(spec, legacy, draw);
    var cache := new DistanceCache();
    var minimum := cache.MinimumActions(spec, state, {});
    if minimum.None? {
      return Err(NoEligibleAction);
    }
    if minimum.value > spec.maxActions {
      return Err(BudgetCannotReachCheckpoint(spec.maxActions));
    }
    var decisions := new DecisionEngine(draw);
    result := CompileLoop(spec, legacy, draw, cache, decisions);
  }

  /** The loop itself, once the budget is known to cover a shortest case. */
  method CompileLoop(
    spec: Spec, legacy: bool, ghost draw: (nat, nat) -> nat, cache: DistanceCache, decisions: DecisionEngine)
    returns (result: Result<PlannedCase, CompileError>)
    requires ValidSpec(spec) && CacheSound(spec, cache.entries, {})
    requires decisions.draw == draw && decisions.position == decisions.decisionNumber == 0
    requires 4 + 2 * spec.EventsPerProvider() <= spec.maxActions
    modifies cache, decisions
    ensures result.Ok? && WellPlanned(result.value, spec, legacy, draw)
  {
    hide *;
    var state := Initial(legacy);
    StartOfCompilation(spec, legacy, draw);
    var actions: seq<PlannedAction> := [];
    while !state.phase.Complete?
      invariant Inv(spec, state)
      invariant CacheSound(spec, cache.entries, {})
      invariant Run(spec, Initial(legacy), Kinds(actions)) == Some(state)
      invariant |actions| + Distance(spec, state) <= spec.maxActions
      invariant 0 <= Distance(spec, state)
      invariant decisions.draw == draw && decisions.position == decisions.decisionNumber == |actions|
      invariant DecidedFrom(spec, legacy, draw, actions)
      decreases Potential(spec, state)
    {
      var remaining := spec.maxActions - |actions|;
      var planned := DecideNext(spec, state, remaining, |actions|, cache, decisions);
      if planned.None? {
        return Err(NoEligibleAction);
      }
      var next := Apply(state, planned.value.kind);
      if next.None? {
        return Err(NoEligibleAction);
      }
      ExtendPlan(spec, legacy, draw, actions, state, planned.value);
      actions := actions + [planned.value];
      state := next.value;
    }
    result := Ok(PlannedCase(legacy, spec, |actions|, actions));
    EndOfCompilation(spec, legacy, draw, actions, state);
  }

  lemma StartOfCompilation(spec: Spec, legacy: bool, draw: (nat, nat) -> nat)
    requires ValidSpec(spec)
    ensures Inv(spec, Initial(legacy))
    ensures CacheSound(spec, map[], {})
    ensures Distance(spec, Initial(legacy)) == 4 + 2 * spec.EventsPerProvider()
    ensures Run(spec, Initial(legacy), Kinds([])) == Some(Initial(legacy))
    ensures DecidedFrom(spec, legacy, draw, [])
  {
    InitialInv(spec, legacy);
  }

  lemma EndOfCompilation(
    spec: Spec, legacy: bool, draw: (nat, nat) -> nat, actions: seq<PlannedAction>, s: State)
    requires Run(spec, Initial(legacy), Kinds(actions)) == Some(s) && s.phase.Complete?
    requires |actions| <= spec.maxActions && DecidedFrom(spec, legacy, draw, actions)
    ensures WellPlanned(PlannedCase(legacy, spec, |actions|, actions), spec, legacy, draw)
  {
    hide Run, DecidedFrom;
  }

  lemma ExtendPlan(
    spec: Spec, legacy: bool, draw: (nat, nat) -> nat, actions: seq<PlannedAction>, s: State, p: PlannedAction)
    requires DecidedFrom(spec, legacy, draw, actions)
    requires Run(spec, Initial(legacy), Kinds(actions)) == Some(s)
    requires Numbered(p, |actions|)
    requires Decided(spec, s, spec.maxActions - |actions|, draw, p)
    ensures DecidedFrom(spec, legacy, draw, actions + [p])
    ensures Run(spec, Initial(legacy), Kinds(actions + [p])) == Step(spec, s, p.kind)
  {
    hide Decided, Numbered, Step;
    var longer := actions + [p];
    assert DecidedAfter(spec, legacy, draw, actions, p);
    forall i | 0 <= i < |longer| ensures DecidedAfter(spec, legacy, draw, longer[..i], longer[i]) {
      if i < |actions| {
        assert longer[..i] == actions[..i];
      } else {
        assert longer[..i] == actions;
      }
    }
    assert Kinds(longer) == Kinds(actions) + [p.kind];
    RunAppend(spec, Initial(legacy), Kinds(actions), p.kind);
  }

  // ---------- what the recorded decisions amount to ----------

  lemma {:induction false} SetNoLargerThanList<T>(s: seq<T>)
    ensures |Elements(s)| <= |s|
  {
    if s != [] {
      SetNoLargerThanList(s[1..]);
      assert Elements(s) == {s[0]} + Elements(s[1..]);
    }
  }

  /** A recorded count is the number of distinct safe actions, at least one and at most the eligible ones. */
  lemma RecordedCount(spec: Spec, s: State, remaining: int, draw: (nat, nat) -> nat, p: PlannedAction)
    requires Decided(spec, s, remaining, draw, p)
    ensures p.eligibleCount == |Elements(SafeActions(spec, s, remaining))|
    ensures 1 <= p.eligibleCount <= |EligibleActions(spec, s)|
    ensures CanTake(spec, s, p.kind)
  {
    hide CanTake, EligibleActions;
    var safe := SafeActions(spec, s, remaining);
    var listing :| IsListing(ActionLess, safe, listing) && listing != [] && p.eligibleCount == |listing|
                   && p.kind == listing[draw(p.decisionNumber, |listing|) % |listing|];
    ActionOrder(Elements(safe));
    IncreasingIsDistinct(ActionLess, listing);
    SetNoLargerThanList(safe);
    assert p.kind in Elements(listing);
    SafeIsEligible(spec, s, remaining, p.kind);
  }

  lemma SameDecision(
    spec: Spec, s: State, remaining: int, draw: (nat, nat) -> nat, index: nat, p: PlannedAction, q: PlannedAction)
    requires Decided(spec, s, remaining, draw, p) && Decided(spec, s, remaining, draw, q)
    requires Numbered(p, index) && Numbered(q, index)
    ensures p == q
  {
    hide SafeActions, ActionLess;
    var safe := SafeActions(spec, s, remaining);
    var a :| IsListing(ActionLess, safe, a) && a != [] && p.eligibleCount == |a|
             && p.kind == a[draw(p.decisionNumber, |a|) % |a|];
    var b :| IsListing(ActionLess, safe, b) && b != [] && q.eligibleCount == |b|
             && q.kind == b[draw(q.decisionNumber, |b|) % |b|];
    ActionOrder(Elements(safe));
    ListingForgetsEnumeration(ActionLess, safe, safe, a, b);
  }

  lemma {:induction false} SamePrefix(
    spec: Spec, legacy: bool, draw: (nat, nat) -> nat, a: seq<PlannedAction>, b: seq<PlannedAction>, n: nat)
    requires DecidedFrom(spec, legacy, draw, a) && DecidedFrom(spec, legacy, draw, b)
    requires n <= |a| && n <= |b|
    ensures a[..n] == b[..n]
  {
    hide Decided, Numbered, Run;
    if n > 0 {
      var i := n - 1;
      SamePrefix(spec, legacy, draw, a, b, i);
      assert DecidedAfter(spec, legacy, draw, a[..i], a[i]) && DecidedAfter(spec, legacy, draw, b[..i], b[i]);
      SameDecision(spec, Run(spec, Initial(legacy), Kinds(a[..i])).value, spec.maxActions - i, draw, i, a[i], b[i]);
      assert a[..n] == a[..i] + [a[i]] && b[..n] == b[..i] + [b[i]];
    }
  }

  lemma NothingFollowsCompletion(spec: Spec, legacy: bool, draw: (nat, nat) -> nat, a: seq<PlannedAction>, n: nat)
    requires DecidedFrom(spec, legacy, draw, a) && n <= |a|
    requires Feasible(spec, legacy, Kinds(a[..n]))
    requires ValidSpec(spec)
    ensures n == |a|
  {
    hide Run, Decided, CanTake, Inv, EligibleActions, SafeActions, Elements;
    if n < |a| {
      var s := Run(spec, Initial(legacy), Kinds(a[..n])).value;
      InitialInv(spec, legacy);
      RunKeepsInv(spec, Initial(legacy), Kinds(a[..n]));
      CompleteIsFinal(spec, s, a[n].kind);
      assert DecidedAfter(spec, legacy, draw, a[..n], a[n]);
      RecordedCount(spec, s, spec.maxActions - n, draw, a[n]);
    }
  }

  lemma CompleteIsFinal(spec: Spec, s: State, a: Action)
    requires Inv(spec, s) && s.phase.Complete?
    ensures !CanTake(spec, s, a)
  {
  }

  /** One draw stream has one plan: recompiling a stored plan reproduces it exactly. */
  lemma CompilationIsDeterministic(
    a: PlannedCase, b: PlannedCase, spec: Spec, legacy: bool, draw: (nat, nat) -> nat)
    requires ValidSpec(spec)
    requires WellPlanned(a, spec, legacy, draw) && WellPlanned(b, spec, legacy, draw)
    ensures a == b
  {
    hide DecidedFrom, Feasible;
    var n := if |a.actions| <= |b.actions| then |a.actions| else |b.actions|;
    SamePrefix(spec, legacy, draw, a.actions, b.actions, n);
    assert a.actions[..|a.actions|] == a.actions && b.actions[..|b.actions|] == b.actions;
    if n == |a.actions| {
      NothingFollowsCompletion(spec, legacy, draw, b.actions, n);
    } else {
      NothingFollowsCompletion(spec, legacy, draw, a.actions, n);
    }
  }
}
