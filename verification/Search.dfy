/**
 The shrink search loop (crates/tiv-runtime/src/configured_shrink.rs): a cached accept/reject walk
 down the frontiers, under a candidate limit and a deadline.

 Attempts, the deadline and cancellation are arbitrary: each attempt may complete with any
 result, run out of budget, or fail.
 */
module Search {
  import opened Wrappers
  import opened Sequences
  import opened PlanCompiler
  import opened PlanReplay
  import opened ShrinkOrder
  import opened Shrink
  import opened Frontier
  import opened Generator

  const ATTEMPT_COUNT: nat := 3

  datatype FailureIdentity = FailureIdentity(invariantId: nat, checkpointId: nat)

  datatype InvariantOutcome = InvariantOutcome(identity: FailureIdentity, violated: bool, witnesses: nat)

  /** What one completed attempt leaves: its reset, its trace (captured gates apart), its journal, its invariants. */
  datatype Execution = Execution(
    beforeOid: nat,
    afterOid: nat,
    beforeMarker: nat,
    afterMarker: nat,
    durableTrace: nat,
    gates: nat,
    journalRecords: nat,
    journalHash: Option<nat>,
    invariants: seq<InvariantOutcome>)

  datatype AttemptResult = Held | Violation(identity: FailureIdentity)

  /** Identifiers compare by invariant, then by checkpoint. */
  predicate Before(a: FailureIdentity, b: FailureIdentity) {
    a.invariantId < b.invariantId || (a.invariantId == b.invariantId && a.checkpointId < b.checkpointId)
  }

  /** Invariants decide before checkpoints, and the order is strict and total. */
  lemma BeforeMeans(a: FailureIdentity, b: FailureIdentity)
    ensures a.invariantId < b.invariantId ==> Before(a, b) && !Before(b, a)
    ensures a.invariantId == b.invariantId ==> (Before(a, b) <==> a.checkpointId < b.checkpointId)
  {
  }

  function Violations(outcomes: seq<InvariantOutcome>): seq<FailureIdentity> {
    Map((o: InvariantOutcome) => o.identity, Filter((o: InvariantOutcome) => o.violated, outcomes))
  }

  function Least(identities: seq<FailureIdentity>): (r: FailureIdentity)
    requires identities != []
    ensures r in identities
  {
    if |identities| == 1 then identities[0]
    else
      var rest := Least(identities[1..]);
      if Before(rest, identities[0]) then rest else identities[0]
  }

  /** The expected violation when it is there, else the least other one, else held. */
  function AttemptResultOf(expected: FailureIdentity, outcomes: seq<InvariantOutcome>): AttemptResult {
    var violations := Violations(outcomes);
    if expected in violations then Violation(expected)
    else if violations == [] then Held
    else Violation(Least(violations))
  }

  lemma {:induction false} LeastIsLeast(identities: seq<FailureIdentity>, a: FailureIdentity)
    requires a in identities
    ensures a == Least(identities) || Before(Least(identities), a)
  {
    if |identities| > 1 && a != identities[0] {
      LeastIsLeast(identities[1..], a);
    }
  }

  lemma ViolationMembers(outcomes: seq<InvariantOutcome>, a: FailureIdentity)
    ensures a in Violations(outcomes) <==> exists o :: o in outcomes && o.violated && o.identity == a
  {
    var violated := Filter((o: InvariantOutcome) => o.violated, outcomes);
    MapMembers((o: InvariantOutcome) => o.identity, violated, a);
  }

  /** Some outcome says that this invariant was violated at this checkpoint. */
  ghost predicate IsViolated(outcomes: seq<InvariantOutcome>, identity: FailureIdentity) {
    exists o :: o in outcomes && o.violated && o.identity == identity
  }

  /** The expected violation takes precedence; failing that the least one counts; without any the attempt held. */
  lemma ResultMeans(expected: FailureIdentity, outcomes: seq<InvariantOutcome>)
    ensures AttemptResultOf(expected, outcomes) == Violation(expected) <==> IsViolated(outcomes, expected)
    ensures AttemptResultOf(expected, outcomes).Held? <==> forall o :: o in outcomes ==> !o.violated
    ensures forall i :: AttemptResultOf(expected, outcomes) == Violation(i) && i != expected ==>
      IsViolated(outcomes, i) && forall j :: IsViolated(outcomes, j) ==> i == j || Before(i, j)
  {
    var violations := Violations(outcomes);
    forall i ensures i in violations <==> IsViolated(outcomes, i) {
      ViolationMembers(outcomes, i);
    }
    forall o | o in outcomes && o.violated ensures violations != [] {
      assert IsViolated(outcomes, o.identity);
    }
    if violations != [] {
      assert IsViolated(outcomes, violations[0]);
      forall j | IsViolated(outcomes, j) ensures Least(violations) == j || Before(Least(violations), j) {
        LeastIsLeast(violations, j);
      }
    }
  }

  /** An attempt's result depends on which invariants were violated, not on the order they were checked in. */
  lemma ResultForgetsOrder(expected: FailureIdentity, a: seq<InvariantOutcome>, b: seq<InvariantOutcome>)
    requires forall o :: o in a <==> o in b
    ensures AttemptResultOf(expected, a) == AttemptResultOf(expected, b)
  {
    forall i ensures i in Violations(a) <==> i in Violations(b) {
      ViolationMembers(a, i);
      ViolationMembers(b, i);
    }
    hide Violations;
    LeastForgetsOrder(Violations(a), Violations(b));
  }

  lemma LeastForgetsOrder(a: seq<FailureIdentity>, b: seq<FailureIdentity>)
    requires forall i :: i in a <==> i in b
    ensures a == [] <==> b == []
    ensures a != [] ==> Least(a) == Least(b)
  {
    assert a != [] ==> a[0] in b;
    assert b != [] ==> b[0] in a;
    if a != [] {
      LeastIsLeast(a, Least(b));
      LeastIsLeast(b, Least(a));
    }
  }

  /** What one attempt may come to. */
  datatype Attempt = Completed(execution: Execution) | OutOfBudget | Errored

  /** The materialised trace of one execution of a candidate; gates are captured anew each time. */
  datatype ShrinkTrace = ShrinkTrace(candidate: Candidate, durable: nat, gates: nat)

  /** Same candidate and same captures, gates apart. */
  predicate MatchesReplayAuthority(authority: ShrinkTrace, executed: ShrinkTrace) {
    authority.candidate == executed.candidate && authority.durable == executed.durable
  }

  function TraceOf(candidate: Candidate, e: Execution): ShrinkTrace {
    ShrinkTrace(candidate, e.durableTrace, e.gates)
  }

  datatype Evaluation = Evaluation(
    candidate: Candidate, executions: seq<Execution>, matching: nat, accepted: bool, authority: ShrinkTrace)

  datatype Verdict = Evaluated(evaluation: Evaluation) | Expired | Failed

  predicate Matches(expected: FailureIdentity, e: Execution) {
    AttemptResultOf(expected, e.invariants) == Violation(expected)
  }

  function MatchingCount(expected: FailureIdentity, executions: seq<Execution>): nat {
    |Filter(e => Matches(expected, e), executions)|
  }

  /** The positions of the executions in which the expected invariant is violated. */
  ghost function Violating(expected: FailureIdentity, executions: seq<Execution>): set<nat> {
    set i | 0 <= i < |executions| && IsViolated(executions[i].invariants, expected)
  }

  lemma ViolatingGrows(expected: FailureIdentity, before: seq<Execution>, e: Execution)
    ensures |before| !in Violating(expected, before)
    ensures Violating(expected, before + [e])
         == Violating(expected, before) + (if IsViolated(e.invariants, expected) then {|before|} else {})
  {
    hide IsViolated;
  }

  lemma MatchingGrows(expected: FailureIdentity, before: seq<Execution>, e: Execution)
    ensures MatchingCount(expected, before + [e])
         == MatchingCount(expected, before) + (if IsViolated(e.invariants, expected) then 1 else 0)
  {
    hide AttemptResultOf, IsViolated;
    ResultMeans(expected, e.invariants);
    FilterConcat(e => Matches(expected, e), before, [e]);
    assert [e][1..] == [];
  }

  lemma NoneMatch(expected: FailureIdentity)
    ensures MatchingCount(expected, []) == 0 && Violating(expected, []) == {}
  {
  }

  /** The number of attempts that match is the number of those in which the expected invariant is violated. */
  lemma {:induction false} MatchingCounts(expected: FailureIdentity, executions: seq<Execution>)
    ensures MatchingCount(expected, executions) == |Violating(expected, executions)|
  {
    hide MatchingCount, Violating, IsViolated;
    if executions == [] {
      NoneMatch(expected);
    } else {
      var n := |executions| - 1;
      var before, last := executions[..n], executions[n];
      assert executions == before + [last];
      MatchingCounts(expected, before);
      ViolatingGrows(expected, before, last);
      MatchingGrows(expected, before, last);
    }
  }

  /** At least two of the executions violate the expected invariant. */
  ghost predicate ReproducedTwice(expected: FailureIdentity, executions: seq<Execution>) {
    exists i, j :: 0 <= i < j < |executions|
      && IsViolated(executions[i].invariants, expected) && IsViolated(executions[j].invariants, expected)
  }

  lemma TwiceMeansTwo(expected: FailureIdentity, executions: seq<Execution>)
    ensures MatchingCount(expected, executions) >= 2 <==> ReproducedTwice(expected, executions)
  {
    MatchingCounts(expected, executions);
    hide MatchingCount, IsViolated;
    var all := Violating(expected, executions);
    if |all| >= 2 {
      var i :| i in all;
      assert |all - {i}| == |all| - 1;
      var j :| j in all - {i};
      assert i in all && j in all && i != j;
    }
    if ReproducedTwice(expected, executions) {
      var i, j :| 0 <= i < j < |executions|
                  && IsViolated(executions[i].invariants, expected) && IsViolated(executions[j].invariants, expected);
      assert all == {i, j} + (all - {i, j});
    }
  }

  /** Three attempts with one durable trace, accepted when at least two reproduce the expected failure. */
  predicate EvaluationCoherent(e: Evaluation, expected: FailureIdentity) {
    && |e.executions| == ATTEMPT_COUNT
    && (forall i :: 0 <= i < ATTEMPT_COUNT ==> e.executions[i].durableTrace == e.executions[0].durableTrace)
    && e.authority == TraceOf(e.candidate, e.executions[0])
    && e.matching == MatchingCount(expected, e.executions)
    && (e.accepted <==> e.matching >= 2)
  }

  /** Every attempt before the `i`-th completed, with the trace of the first. */
  predicate Reaches(attempt: nat -> Attempt, i: nat) {
    forall j :: 0 <= j < i ==>
      && attempt(0).Completed? && attempt(j).Completed?
      && attempt(j).execution.durableTrace == attempt(0).execution.durableTrace
  }

  /** The first attempt that does not complete ran out of budget. */
  ghost predicate Expires(attempt: nat -> Attempt) {
    exists i: nat :: i < ATTEMPT_COUNT && Reaches(attempt, i) && attempt(i).OutOfBudget?
  }

  /** The first attempt that goes wrong reports an error, or runs another trace than the first one. */
  ghost predicate GoesWrong(attempt: nat -> Attempt) {
    exists i: nat :: i < ATTEMPT_COUNT && Reaches(attempt, i)
      && (attempt(i).Errored? || (attempt(i).Completed? && !Reaches(attempt, i + 1)))
  }

  /** The three attempts of one candidate; the first one's trace is the authority for the others. */
  method EvaluateCandidate(candidate: Candidate, expected: FailureIdentity, attempt: nat -> Attempt)
    returns (verdict: Verdict)
    ensures verdict.Evaluated? ==>
      && verdict.evaluation.candidate == candidate
      && EvaluationCoherent(verdict.evaluation, expected)
      && forall i :: 0 <= i < ATTEMPT_COUNT ==> attempt(i) == Completed(verdict.evaluation.executions[i])
    ensures verdict.Evaluated? ==>
      (verdict.evaluation.accepted <==> ReproducedTwice(expected, verdict.evaluation.executions))
    ensures verdict.Evaluated? <==> Reaches(attempt, ATTEMPT_COUNT)
    ensures verdict.Expired? <==> Expires(attempt)
    ensures verdict.Failed? <==> GoesWrong(attempt)
  {
    var executions: seq<Execution> := [];
    var authority: Option<ShrinkTrace> := None;
    for i := 0 to ATTEMPT_COUNT
      invariant |executions| == i
      invariant forall j :: 0 <= j < i ==> attempt(j) == Completed(executions[j])
      invariant forall j :: 0 <= j < i ==> executions[j].durableTrace == executions[0].durableTrace
      invariant authority == if i == 0 then None else Some(TraceOf(candidate, executions[0]))
    {
      match attempt(i) {
        case OutOfBudget => return Expired;
        case Errored => return Failed;
        case Completed(execution) =>
          var trace := TraceOf(candidate, execution);
          if authority.Some? && !MatchesReplayAuthority(authority.value, trace) {
            assert Reaches(attempt, i) && !Reaches(attempt, i + 1);
            return Failed;
          }
          if authority.None? {
            authority := Some(trace);
          }
          executions := executions + [execution];
      }
    }
    var matching := MatchingCount(expected, executions);
    TwiceMeansTwo(expected, executions);
    return Evaluated(Evaluation(candidate, executions, matching, matching >= 2, authority.value));
  }

  // ---------- the loop ----------

  datatype Completion = Complete | BudgetExhausted | SourceInconclusive

  datatype SearchState = SearchState(
    best: Option<Candidate>,
    bestTrace: Option<ShrinkTrace>,
    evaluations: seq<Evaluation>,
    cache: map<Schedule, bool>,
    cacheHits: nat,
    accepted: nat)

  datatype SearchResult =
    | Finished(completion: Completion, state: SearchState)
    | EvaluationFailed(state: SearchState)
    | GenerationFailed(error: ShrinkError)

  function CandidateComplexity(c: Candidate): Complexity {
    ComplexityOf(KindsOf(c.schedule))
  }

  function AcceptedCount(evaluations: seq<Evaluation>): nat {
    |Filter((e: Evaluation) => e.accepted, evaluations)|
  }

  /** No schedule is evaluated twice, and the cache answers exactly what was evaluated. */
  ghost predicate CacheExact(state: SearchState) {
    && (forall i, j :: 0 <= i < j < |state.evaluations| ==>
          state.evaluations[i].candidate.schedule != state.evaluations[j].candidate.schedule)
    && (forall i :: 0 <= i < |state.evaluations| ==>
          var e := state.evaluations[i];
          e.candidate.schedule in state.cache && state.cache[e.candidate.schedule] == e.accepted)
    && (forall s :: s in state.cache ==>
          exists i :: 0 <= i < |state.evaluations| && state.evaluations[i].candidate.schedule == s)
  }

  /** Accepted candidates get strictly simpler, and the best one is the last of them. */
  ghost predicate Descending(state: SearchState) {
    && (forall i, j ::
          0 <= i < j < |state.evaluations| && state.evaluations[i].accepted && state.evaluations[j].accepted ==>
            Less(CandidateComplexity(state.evaluations[j].candidate),
                 CandidateComplexity(state.evaluations[i].candidate)))
    && (state.best.None? ==>
          state.bestTrace.None? && forall i :: 0 <= i < |state.evaluations| ==> !state.evaluations[i].accepted)
    && (state.best.Some? ==>
          exists k :: IsLastAccepted(state.evaluations, k) && state.evaluations[k].candidate == state.best.value
                    && state.bestTrace == Some(state.evaluations[k].authority))
  }

  ghost predicate IsLastAccepted(evaluations: seq<Evaluation>, k: int) {
    && 0 <= k < |evaluations| && evaluations[k].accepted
    && forall j :: k < j < |evaluations| ==> !evaluations[j].accepted
  }

  /** Everything evaluated is a checked candidate of the source. */
  ghost predicate AllChecked(
    recompiles: PlannedCase -> bool, source: PlannedCase, expected: FailureIdentity, state: SearchState)
  {
    && (forall i :: 0 <= i < |state.evaluations| ==>
          var e := state.evaluations[i];
          EvaluationCoherent(e, expected) && Revalidate(recompiles, e.candidate).Ok? && e.candidate.source == source)
    && (state.best.Some? ==> Revalidate(recompiles, state.best.value).Ok? && state.best.value.source == source)
    && state.accepted == AcceptedCount(state.evaluations)
  }

  ghost predicate SearchInv(
    recompiles: PlannedCase -> bool, source: PlannedCase, expected: FailureIdentity, limit: nat, state: SearchState)
  {
    && CacheExact(state) && Descending(state) && AllChecked(recompiles, source, expected, state)
    && |state.evaluations| <= limit
  }

  function CurrentFrontier(source: PlannedCase, state: SearchState): seq<Candidate> {
    FullFrontier(source, CurrentSchedule(source, state.best))
  }

  /** The candidate was evaluated and rejected. */
  ghost predicate WasRejected(state: SearchState, c: Candidate) {
    exists i :: 0 <= i < |state.evaluations|
      && state.evaluations[i].candidate.schedule == c.schedule && !state.evaluations[i].accepted
  }

  lemma BestIsSimplest(state: SearchState, i: nat)
    requires Descending(state) && i < |state.evaluations| && state.evaluations[i].accepted
    ensures state.best.Some?
    ensures state.evaluations[i].candidate == state.best.value
         || Less(CandidateComplexity(state.best.value), CandidateComplexity(state.evaluations[i].candidate))
  {
    hide Less, CandidateComplexity;
    var k :| IsLastAccepted(state.evaluations, k) && state.evaluations[k].candidate == state.best.value;
  }

  lemma CurrentComplexity(source: PlannedCase, state: SearchState, c: Candidate)
    requires ValidSource(source) && state.best.Some? && c in CurrentFrontier(source, state)
    ensures Less(CandidateComplexity(c), CandidateComplexity(state.best.value))
  {
    hide Less, Emit, ComplexityOf;
    EmitIsGenuine(source, state.best.value.schedule, Proposals(state.best.value.schedule));
    assert Genuine(source, state.best.value.schedule, c);
  }

  /** No accepted candidate can come back: a cached member of the current frontier was rejected. */
  lemma CachedIsRejected(
    recompiles: PlannedCase -> bool, source: PlannedCase, expected: FailureIdentity, limit: nat,
    state: SearchState, c: Candidate)
    requires ValidSource(source) && SearchInv(recompiles, source, expected, limit, state)
    requires c in CurrentFrontier(source, state) && c.schedule in state.cache
    ensures WasRejected(state, c) && !state.cache[c.schedule]
  {
    hide Less, CurrentFrontier, EvaluationCoherent, Revalidate, Descending;
    var i :| 0 <= i < |state.evaluations| && state.evaluations[i].candidate.schedule == c.schedule;
    var e := state.evaluations[i];
    if e.accepted {
      BestIsSimplest(state, i);
      CurrentComplexity(source, state, c);
      assert CandidateComplexity(c) == CandidateComplexity(e.candidate);
      LessIsStrictTotal(CandidateComplexity(c), CandidateComplexity(state.best.value), CandidateComplexity(c));
    }
  }

  /** The state after one more evaluation. */
  function Recorded(state: SearchState, e: Evaluation): SearchState {
    SearchState(
      if e.accepted then Some(e.candidate) else state.best,
      if e.accepted then Some(e.authority) else state.bestTrace,
      state.evaluations + [e],
      state.cache[e.candidate.schedule := e.accepted],
      state.cacheHits,
      if e.accepted then state.accepted + 1 else state.accepted)
  }

  lemma RecordedCache(state: SearchState, e: Evaluation)
    requires CacheExact(state) && e.candidate.schedule !in state.cache
    ensures CacheExact(Recorded(state, e))
  {
    var next := Recorded(state, e);
    forall s | s in next.cache
      ensures exists i :: 0 <= i < |next.evaluations| && next.evaluations[i].candidate.schedule == s
    {
      if s == e.candidate.schedule {
        assert next.evaluations[|state.evaluations|] == e;
      } else {
        var i :| 0 <= i < |state.evaluations| && state.evaluations[i].candidate.schedule == s;
        assert next.evaluations[i] == state.evaluations[i];
      }
    }
  }

  lemma RecordedDescends(source: PlannedCase, state: SearchState, e: Evaluation)
    requires ValidSource(source) && Descending(state) && e.candidate in CurrentFrontier(source, state)
    ensures Descending(Recorded(state, e))
  {
    hide Less, CandidateComplexity, CurrentFrontier;
    var next := Recorded(state, e);
    var n := |state.evaluations|;
    if e.accepted {
      assert IsLastAccepted(next.evaluations, n);
      forall i | 0 <= i < n && state.evaluations[i].accepted
        ensures Less(CandidateComplexity(e.candidate), CandidateComplexity(state.evaluations[i].candidate))
      {
        BestIsSimplest(state, i);
        CurrentComplexity(source, state, e.candidate);
        if state.evaluations[i].candidate != state.best.value {
          LessIsTransitive(CandidateComplexity(e.candidate), CandidateComplexity(state.best.value),
                           CandidateComplexity(state.evaluations[i].candidate));
        }
      }
    } else if state.best.Some? {
      var k :| IsLastAccepted(state.evaluations, k) && state.evaluations[k].candidate == state.best.value
               && state.bestTrace == Some(state.evaluations[k].authority);
      assert IsLastAccepted(next.evaluations, k);
    }
  }

  lemma AcceptedCountGrows(evaluations: seq<Evaluation>, e: Evaluation)
    ensures AcceptedCount(evaluations + [e]) == AcceptedCount(evaluations) + if e.accepted then 1 else 0
  {
    var keep := (e: Evaluation) => e.accepted;
    FilterConcat(keep, evaluations, [e]);
    assert [e][1..] == [];
  }

  lemma RecordedChecked(
    recompiles: PlannedCase -> bool, source: PlannedCase, expected: FailureIdentity, state: SearchState, e: Evaluation)
    requires AllChecked(recompiles, source, expected, state)
    requires EvaluationCoherent(e, expected) && Revalidate(recompiles, e.candidate).Ok? && e.candidate.source == source
    ensures AllChecked(recompiles, source, expected, Recorded(state, e))
  {
    AcceptedCountGrows(state.evaluations, e);
    hide Revalidate, EvaluationCoherent, AcceptedCount;
  }

  lemma RecordedKeepsInv(
    recompiles: PlannedCase -> bool, source: PlannedCase, expected: FailureIdentity, limit: nat,
    state: SearchState, e: Evaluation)
    requires ValidSource(source) && recompiles(source)
    requires SearchInv(recompiles, source, expected, limit, state)
    requires |state.evaluations| < limit && e.candidate.schedule !in state.cache
    requires e.candidate in CurrentFrontier(source, state) && EvaluationCoherent(e, expected)
    ensures SearchInv(recompiles, source, expected, limit, Recorded(state, e))
  {
    hide CacheExact, Descending, Revalidate, EvaluationCoherent, FullFrontier, CurrentSchedule, AllChecked;
    RecordedCache(state, e);
    RecordedDescends(source, state, e);
    FrontierRevalidates(recompiles, source, CurrentSchedule(source, state.best), e.candidate);
    RecordedChecked(recompiles, source, expected, state, e);
  }

  lemma RejectionsStay(state: SearchState, next: SearchState, c: Candidate)
    requires WasRejected(state, c) && state.evaluations <= next.evaluations
    ensures WasRejected(next, c)
  {
    var i :| 0 <= i < |state.evaluations|
             && state.evaluations[i].candidate.schedule == c.schedule && !state.evaluations[i].accepted;
    assert next.evaluations[i] == state.evaluations[i];
  }

  // ---------- what is evaluated, and when ----------

  /** The candidate accepted last. */
  ghost function LastAccepted(evaluations: seq<Evaluation>): Option<Candidate> {
    if evaluations == [] then None
    else
      var last := evaluations[|evaluations| - 1];
      if last.accepted then Some(last.candidate) else LastAccepted(evaluations[..|evaluations| - 1])
  }

  ghost predicate IsEvaluated(evaluations: seq<Evaluation>, c: Candidate) {
    exists k :: 0 <= k < |evaluations| && evaluations[k].candidate.schedule == c.schedule
  }

  /** The first candidate of the batch that has not been evaluated yet. */
  ghost predicate IsNext(batch: seq<Candidate>, evaluations: seq<Evaluation>, c: Candidate) {
    exists i :: 0 <= i < |batch| && batch[i] == c && !IsEvaluated(evaluations, c)
      && forall j :: 0 <= j < i ==> IsEvaluated(evaluations, batch[j])
  }

  /** The batch the generator offers when `best` is the best candidate so far. */
  function BatchAfter(source: PlannedCase, best: Option<Candidate>): seq<Candidate> {
    Take(FullFrontier(source, CurrentSchedule(source, best)), MAX_SHRINK_CANDIDATES)
  }

  /** Turn `k` found budget left and took the next candidate of the batch of that moment. */
  ghost predicate TakenInOrder(
    source: PlannedCase, exhausted: nat -> bool, evaluations: seq<Evaluation>, k: nat)
    requires k < |evaluations|
  {
    && !exhausted(k)
    && IsNext(BatchAfter(source, LastAccepted(evaluations[..k])), evaluations[..k], evaluations[k].candidate)
  }

  /** The whole trail of a search: each turn in order, with budget left, evaluated by its own attempts. */
  ghost predicate Trail(
    source: PlannedCase, attempts: nat -> nat -> Attempt, exhausted: nat -> bool, state: SearchState)
  {
    && FromAttempts(attempts, state.evaluations)
    && state.best == LastAccepted(state.evaluations)
    && forall k :: 0 <= k < |state.evaluations| ==> TakenInOrder(source, exhausted, state.evaluations, k)
  }

  lemma TrailGrows(
    source: PlannedCase, attempts: nat -> nat -> Attempt, exhausted: nat -> bool, state: SearchState, e: Evaluation)
    requires Trail(source, attempts, exhausted, state) && FromAttempts(attempts, Recorded(state, e).evaluations)
    requires !exhausted(|state.evaluations|)
    requires IsNext(BatchAfter(source, state.best), state.evaluations, e.candidate)
    ensures Trail(source, attempts, exhausted, Recorded(state, e))
  {
    hide IsNext, BatchAfter, FromAttempts;
    var next := Recorded(state, e).evaluations;
    var n := |state.evaluations|;
    assert next[..n] == state.evaluations && next[n] == e;
    forall k | 0 <= k < |next| ensures TakenInOrder(source, exhausted, next, k) {
      if k < n {
        assert next[..k] == state.evaluations[..k] && TakenInOrder(source, exhausted, state.evaluations, k);
      }
    }
  }

  /** Everything before `i` in the batch was rejected and `batch[i]` is not cached: it is the next one. */
  lemma UncachedIsNext(
    recompiles: PlannedCase -> bool, source: PlannedCase, expected: FailureIdentity, limit: nat,
    state: SearchState, batch: seq<Candidate>, i: nat)
    requires SearchInv(recompiles, source, expected, limit, state) && i < |batch|
    requires batch[i].schedule !in state.cache
    requires forall j :: 0 <= j < i ==> WasRejected(state, batch[j])
    ensures IsNext(batch, state.evaluations, batch[i])
  {
    hide AllChecked, Descending;
    forall j | 0 <= j < i ensures IsEvaluated(state.evaluations, batch[j]) {
      assert WasRejected(state, batch[j]);
    }
  }

  lemma NextIsNotRejected(state: SearchState, batch: seq<Candidate>, c: Candidate)
    requires IsNext(batch, state.evaluations, c)
    ensures c in batch && !WasRejected(state, c)
  {
  }

  /** A candidate is waiting to be evaluated. */
  ghost predicate HasNext(source: PlannedCase, state: SearchState) {
    exists c :: IsNext(BatchAfter(source, state.best), state.evaluations, c)
  }

  /** No candidate is waiting once the whole batch was rejected. */
  lemma RejectedHasNoNext(source: PlannedCase, state: SearchState)
    requires forall c :: c in BatchAfter(source, state.best) ==> WasRejected(state, c)
    ensures !HasNext(source, state)
  {
    hide BatchAfter, WasRejected, IsNext;
    if c :| IsNext(BatchAfter(source, state.best), state.evaluations, c) {
      NextIsNotRejected(state, BatchAfter(source, state.best), c);
    }
  }

  /** Evaluation `k` is what the attempts of turn `k` came to. */
  ghost predicate FromAttempts(attempts: nat -> nat -> Attempt, evaluations: seq<Evaluation>) {
    forall k, i :: 0 <= k < |evaluations| && 0 <= i < |evaluations[k].executions| ==>
      attempts(k)(i) == Completed(evaluations[k].executions[i])
  }

  /** The limit is reached, the deadline has passed, or the next evaluation would not finish in time. */
  ghost predicate OutOfBudgetAt(limit: nat, attempts: nat -> nat -> Attempt, exhausted: nat -> bool, n: nat) {
    n == limit || exhausted(n) || Expires(attempts(n))
  }

  /** Budget is left, and the next evaluation goes wrong. */
  ghost predicate FailsWithinBudget(limit: nat, attempts: nat -> nat -> Attempt, exhausted: nat -> bool, n: nat) {
    n < limit && !exhausted(n) && GoesWrong(attempts(n))
  }

  datatype Pass = AcceptedOne | AllRejected | BudgetSpent | Aborted

  /**
   One pass over a batch: stop at the first acceptance, at the budget, or at a failure. It stops
   early only with a candidate waiting, and fails only on one it had the budget to evaluate.
   */
  method SearchBatch(
    recompiles: PlannedCase -> bool, source: PlannedCase, expected: FailureIdentity, limit: nat,
    candidates: seq<Candidate>, attempts: nat -> nat -> Attempt, exhausted: nat -> bool, start: SearchState)
    returns (pass: Pass, state: SearchState)
    requires ValidSource(source) && recompiles(source)
    requires SearchInv(recompiles, source, expected, limit, start)
    requires candidates == BatchAfter(source, start.best) && Trail(source, attempts, exhausted, start)
    ensures SearchInv(recompiles, source, expected, limit, state) && Trail(source, attempts, exhausted, state)
    ensures pass.AcceptedOne? ==> |start.evaluations| < |state.evaluations|
    ensures !pass.AcceptedOne? ==> state.best == start.best
    ensures pass.BudgetSpent? ==>
      HasNext(source, state) && OutOfBudgetAt(limit, attempts, exhausted, |state.evaluations|)
    ensures pass.Aborted? ==>
      HasNext(source, state) && FailsWithinBudget(limit, attempts, exhausted, |state.evaluations|)
    ensures pass.AllRejected? ==> forall c :: c in candidates ==> WasRejected(state, c)
  {
    hide SearchInv, CurrentFrontier, WasRejected, EvaluationCoherent, FromAttempts, Expires, GoesWrong, Reaches,
      BatchAfter, IsNext, Trail;
    state := start;
    for i := 0 to |candidates|
      invariant SearchInv(recompiles, source, expected, limit, state)
      invariant state.best == start.best && start.evaluations <= state.evaluations
      invariant Trail(source, attempts, exhausted, state)
      invariant forall j :: 0 <= j < i ==> WasRejected(state, candidates[j])
    {
      var c := candidates[i];
      BatchIsFrontier(source, state, c);
      if c.schedule in state.cache {
        CachedIsRejected(recompiles, source, expected, limit, state, c);
        ghost var before := state;
        state := state.(cacheHits := state.cacheHits + 1);
        HitKeepsAll(recompiles, source, expected, limit, attempts, exhausted, before);
        RejectionsAllStay(before, state, candidates[..i + 1]);
        continue;
      }
      EvaluationsWithinLimit(recompiles, source, expected, limit, state);
      UncachedIsNext(recompiles, source, expected, limit, state, candidates, i);
      assert IsNext(BatchAfter(source, state.best), state.evaluations, c);
      if |state.evaluations| == limit || exhausted(|state.evaluations|) {
        return BudgetSpent, state;
      }
      var verdict := EvaluateCandidate(c, expected, attempts(|state.evaluations|));
      match verdict {
        case Expired => return BudgetSpent, state;
        case Failed => return Aborted, state;
        case Evaluated(e) =>
          TurnIsRecorded(recompiles, source, expected, limit, attempts, exhausted, state, e);
          ghost var before := state;
          state := Recorded(state, e);
          if e.accepted {
            return AcceptedOne, state;
          }
          RecordedRejection(before, e);
          RejectionsAllStay(before, state, candidates[..i]);
      }
    }
    forall c | c in candidates ensures WasRejected(state, c) {
      var j :| 0 <= j < |candidates| && candidates[j] == c;
    }
    return AllRejected, state;
  }

  /** One more evaluated candidate, taken in its turn. */
  lemma TurnIsRecorded(
    recompiles: PlannedCase -> bool, source: PlannedCase, expected: FailureIdentity, limit: nat,
    attempts: nat -> nat -> Attempt, exhausted: nat -> bool, state: SearchState, e: Evaluation)
    requires ValidSource(source) && recompiles(source)
    requires SearchInv(recompiles, source, expected, limit, state) && Trail(source, attempts, exhausted, state)
    requires |state.evaluations| < limit && !exhausted(|state.evaluations|)
    requires e.candidate.schedule !in state.cache && e.candidate in CurrentFrontier(source, state)
    requires IsNext(BatchAfter(source, state.best), state.evaluations, e.candidate)
    requires EvaluationCoherent(e, expected)
    requires forall i :: 0 <= i < ATTEMPT_COUNT ==> attempts(|state.evaluations|)(i) == Completed(e.executions[i])
    ensures SearchInv(recompiles, source, expected, limit, Recorded(state, e))
    ensures Trail(source, attempts, exhausted, Recorded(state, e))
  {
    hide SearchInv, CurrentFrontier, EvaluationCoherent, FromAttempts, BatchAfter, IsNext, Trail, Recorded;
    TrailIsFromAttempts(source, attempts, exhausted, state);
    RecordedKeepsInv(recompiles, source, expected, limit, state, e);
    RecordedIsFromAttempts(attempts, state, expected, e);
    TrailGrows(source, attempts, exhausted, state, e);
  }

  lemma BatchIsFrontier(source: PlannedCase, state: SearchState, c: Candidate)
    requires c in BatchAfter(source, state.best)
    ensures c in CurrentFrontier(source, state)
  {
    hide FullFrontier;
  }

  lemma TrailIsFromAttempts(
    source: PlannedCase, attempts: nat -> nat -> Attempt, exhausted: nat -> bool, state: SearchState)
    requires Trail(source, attempts, exhausted, state)
    ensures FromAttempts(attempts, state.evaluations)
  {
    hide FromAttempts, TakenInOrder;
  }

  lemma HitKeepsAll(
    recompiles: PlannedCase -> bool, source: PlannedCase, expected: FailureIdentity, limit: nat,
    attempts: nat -> nat -> Attempt, exhausted: nat -> bool, state: SearchState)
    requires SearchInv(recompiles, source, expected, limit, state) && Trail(source, attempts, exhausted, state)
    ensures var next := state.(cacheHits := state.cacheHits + 1);
            SearchInv(recompiles, source, expected, limit, next) && Trail(source, attempts, exhausted, next)
  {
    HitKeepsInv(recompiles, source, expected, limit, state);
    hide SearchInv, FromAttempts, TakenInOrder;
  }

  lemma RejectionsAllStay(state: SearchState, next: SearchState, candidates: seq<Candidate>)
    requires state.evaluations <= next.evaluations
    requires forall j :: 0 <= j < |candidates| ==> WasRejected(state, candidates[j])
    ensures forall j :: 0 <= j < |candidates| ==> WasRejected(next, candidates[j])
  {
    hide WasRejected;
    forall j | 0 <= j < |candidates| ensures WasRejected(next, candidates[j]) {
      RejectionsStay(state, next, candidates[j]);
    }
  }

  lemma RecordedIsFromAttempts(
    attempts: nat -> nat -> Attempt, state: SearchState, expected: FailureIdentity, e: Evaluation)
    requires FromAttempts(attempts, state.evaluations) && EvaluationCoherent(e, expected)
    requires forall i :: 0 <= i < ATTEMPT_COUNT ==> attempts(|state.evaluations|)(i) == Completed(e.executions[i])
    ensures FromAttempts(attempts, Recorded(state, e).evaluations)
  {
  }

  lemma HitKeepsInv(
    recompiles: PlannedCase -> bool, source: PlannedCase, expected: FailureIdentity, limit: nat, state: SearchState)
    requires SearchInv(recompiles, source, expected, limit, state)
    ensures SearchInv(recompiles, source, expected, limit, state.(cacheHits := state.cacheHits + 1))
  {
    hide Revalidate, EvaluationCoherent, Less, CandidateComplexity, AcceptedCount;
  }

  lemma EvaluationsWithinLimit(
    recompiles: PlannedCase -> bool, source: PlannedCase, expected: FailureIdentity, limit: nat, state: SearchState)
    requires SearchInv(recompiles, source, expected, limit, state)
    ensures |state.evaluations| <= limit
  {
  }

  lemma RecordedRejection(state: SearchState, e: Evaluation)
    requires !e.accepted
    ensures WasRejected(Recorded(state, e), e.candidate)
  {
    assert Recorded(state, e).evaluations[|state.evaluations|] == e;
  }

  /** Every member of the whole, untruncated frontier of the best schedule was evaluated and rejected. */
  ghost predicate LocallyMinimal(source: PlannedCase, state: SearchState) {
    && |CurrentFrontier(source, state)| <= MAX_SHRINK_CANDIDATES
    && forall c :: c in CurrentFrontier(source, state) ==> WasRejected(state, c)
  }

  /**
   The search. It never fails to generate; it evaluates no schedule twice and at most `limit` of
   them, each in its turn, with budget left; accepted candidates get strictly simpler. It fails only
   on a candidate that was waiting and whose evaluation goes wrong; it reports `Complete` exactly at
   a local minimum, and otherwise a waiting candidate was out of budget or the frontier was cut off.
   */
  method RunSearch(
    recompiles: PlannedCase -> bool, source: PlannedCase, expected: FailureIdentity, limit: nat,
    attempts: nat -> nat -> Attempt, exhausted: nat -> bool)
    returns (result: SearchResult)
    requires forall p :: recompiles(p) ==> ValidSource(p)
    requires recompiles(source)
    ensures !result.GenerationFailed?
    ensures SearchInv(recompiles, source, expected, limit, result.state)
    ensures Trail(source, attempts, exhausted, result.state)
    ensures result.EvaluationFailed? ==>
      && HasNext(source, result.state)
      && FailsWithinBudget(limit, attempts, exhausted, |result.state.evaluations|)
    ensures result.Finished? ==> EndsAs(source, limit, attempts, exhausted, result.completion, result.state)
    ensures result.Finished? ==> (result.completion.Complete? <==> LocallyMinimal(source, result.state))
  {
    hide SearchInv, CurrentFrontier, Revalidate, WasRejected, FullFrontier, ValidSource, Expires, GoesWrong, Reaches,
      Trail, HasNext, BatchAfter, LocallyMinimal, OutOfBudgetAt, FailsWithinBudget;
    var state := SearchState(None, None, [], map[], 0, 0);
    StartKeepsInv(recompiles, source, expected, limit);
    StartOfTrail(source, attempts, exhausted);
    while true
      invariant SearchInv(recompiles, source, expected, limit, state) && Trail(source, attempts, exhausted, state)
      decreases limit - |state.evaluations|
    {
      BestIsChecked(recompiles, source, expected, limit, state);
      var batch := CandidateBatch(recompiles, source, state.best, MAX_SHRINK_CANDIDATES);
      match batch {
        case Err(e) => return GenerationFailed(e);
        case Ok(b) =>
          BatchIs(source, state, b);
          if b.candidates == [] {
            NothingLeft(source, state);
            return Finished(Completion.Complete, state);
          }
          var pass: Pass;
          pass, state := SearchBatch(
            recompiles, source, expected, limit, b.candidates, attempts, exhausted, state);
          match pass {
            case AcceptedOne => EvaluationsWithinLimit(recompiles, source, expected, limit, state);
            case BudgetSpent =>
              WaitingIsNotMinimal(source, state);
              return Finished(BudgetExhausted, state);
            case Aborted => return EvaluationFailed(state);
            case AllRejected =>
              BatchIs(source, state, b);
              NothingLeft(source, state);
              return Finished(if b.truncated then BudgetExhausted else Completion.Complete, state);
          }
      }
    }
  }

  /** How a finished search ended: nothing waiting, or a waiting candidate out of budget. */
  ghost predicate EndsAs(
    source: PlannedCase, limit: nat, attempts: nat -> nat -> Attempt, exhausted: nat -> bool,
    completion: Completion, state: SearchState)
  {
    match completion
    case Complete => !HasNext(source, state) && |CurrentFrontier(source, state)| <= MAX_SHRINK_CANDIDATES
    case BudgetExhausted =>
      if HasNext(source, state) then OutOfBudgetAt(limit, attempts, exhausted, |state.evaluations|)
      else |CurrentFrontier(source, state)| > MAX_SHRINK_CANDIDATES
    case SourceInconclusive => false
  }

  lemma StartOfTrail(source: PlannedCase, attempts: nat -> nat -> Attempt, exhausted: nat -> bool)
    ensures Trail(source, attempts, exhausted, SearchState(None, None, [], map[], 0, 0))
  {
  }

  lemma BatchIs(source: PlannedCase, state: SearchState, b: Batch)
    requires var frontier := FullFrontier(source, CurrentSchedule(source, state.best));
             b == Batch(Take(frontier, MAX_SHRINK_CANDIDATES), |frontier| > MAX_SHRINK_CANDIDATES)
    ensures b.candidates == BatchAfter(source, state.best)
    ensures b.truncated <==> |CurrentFrontier(source, state)| > MAX_SHRINK_CANDIDATES
    ensures b.candidates == [] ==> !b.truncated
  {
    hide FullFrontier;
  }

  lemma NothingLeft(source: PlannedCase, state: SearchState)
    requires forall c :: c in BatchAfter(source, state.best) ==> WasRejected(state, c)
    ensures !HasNext(source, state)
    ensures LocallyMinimal(source, state) <==> |CurrentFrontier(source, state)| <= MAX_SHRINK_CANDIDATES
  {
    hide FullFrontier, WasRejected, HasNext;
    RejectedHasNoNext(source, state);
  }

  lemma WaitingIsNotMinimal(source: PlannedCase, state: SearchState)
    requires HasNext(source, state)
    ensures !LocallyMinimal(source, state)
  {
    hide BatchAfter, WasRejected, IsNext, CurrentFrontier;
    var c :| IsNext(BatchAfter(source, state.best), state.evaluations, c);
    NextIsNotRejected(state, BatchAfter(source, state.best), c);
    BatchIsFrontier(source, state, c);
  }

  lemma StartKeepsInv(recompiles: PlannedCase -> bool, source: PlannedCase, expected: FailureIdentity, limit: nat)
    ensures SearchInv(recompiles, source, expected, limit, SearchState(None, None, [], map[], 0, 0))
  {
  }

  lemma BestIsChecked(
    recompiles: PlannedCase -> bool, source: PlannedCase, expected: FailureIdentity, limit: nat, state: SearchState)
    requires SearchInv(recompiles, source, expected, limit, state)
    ensures state.best.Some? ==> Revalidate(recompiles, state.best.value).Ok? && state.best.value.source == source
  {
  }

  /** The proposal cannot be normalised to an allowed complete run, or it was evaluated and rejected. */
  ghost predicate TriedInVain(source: PlannedCase, state: SearchState, p: Schedule) {
    Completable(source, p) && (!source.legacy || CutPointsSupported(KindsOf(NormalizedSchedule(source, p)))) ==>
      exists k :: 0 <= k < |state.evaluations| && !state.evaluations[k].accepted
        && state.evaluations[k].candidate.schedule == NormalizedSchedule(source, p)
  }

  /**
   At a local minimum, everything that is proposed of the best schedule was tried in vain. A legacy
   source has one more way out: the normalised run may break the cut-point rule, which a current
   source never does.
   */
  lemma ProposalsWereRejected(
    recompiles: PlannedCase -> bool, source: PlannedCase, expected: FailureIdentity, limit: nat,
    state: SearchState, p: Schedule)
    requires forall p :: recompiles(p) ==> ValidSource(p)
    requires recompiles(source)
    requires SearchInv(recompiles, source, expected, limit, state) && LocallyMinimal(source, state)
    requires p in Proposals(CurrentSchedule(source, state.best))
    ensures TriedInVain(source, state, p)
  {
    hide Completable, NormalizedSchedule, CutPointsSupported, CandidateOf, Proposals, Revalidate;
    var current := CurrentSchedule(source, state.best);
    BestDescends(recompiles, source, expected, limit, state);
    FrontierIsEveryFeasibleProposal(source, current, p);
    if Completable(source, p) && (!source.legacy || CutPointsSupported(KindsOf(NormalizedSchedule(source, p)))) {
      var c := CandidateOf(source, current, p).value;
      assert WasRejected(state, c);
    }
  }

  /**
   At a local minimum no single step helps: deleting any one action, deleting a kill with its
   restart, simplifying any action in place, and deleting any chunk were all tried in vain.
   */
  lemma SingleStepsWereRejected(
    recompiles: PlannedCase -> bool, source: PlannedCase, expected: FailureIdentity, limit: nat,
    state: SearchState, i: nat)
    requires forall p :: recompiles(p) ==> ValidSource(p)
    requires recompiles(source)
    requires SearchInv(recompiles, source, expected, limit, state) && LocallyMinimal(source, state)
    requires i < |CurrentSchedule(source, state.best)|
    ensures var current := CurrentSchedule(source, state.best);
            && TriedInVain(source, state, RemoveRange(current, i, i + 1))
            && (current[i].kind.KillApplication? ==>
                  TriedInVain(source, state, RemoveRange(current, i, KillEnd(current, i))))
            && (forall kind :: SimplifiesAt(current, i, kind) ==>
                  TriedInVain(source, state, ReplaceKind(current, i, kind)))
            && (forall p :: IsChunkDeletion(current, p) ==> TriedInVain(source, state, p))
  {
    hide TriedInVain, SearchInv, LocallyMinimal, IsChunkDeletion, SimplifiesAt, Proposals, RemoveRange, ReplaceKind,
      ValidSource, CurrentSchedule;
    var current := CurrentSchedule(source, state.best);
    SingleDeletionsAreProposed(current, i);
    ProposalsWereRejected(recompiles, source, expected, limit, state, RemoveRange(current, i, i + 1));
    if current[i].kind.KillApplication? {
      var p := RemoveRange(current, i, KillEnd(current, i));
      assert IsKillAt(current, p, i);
      ProposalsAre(current, p);
      ProposalsWereRejected(recompiles, source, expected, limit, state, p);
    }
    forall kind | SimplifiesAt(current, i, kind) ensures TriedInVain(source, state, ReplaceKind(current, i, kind)) {
      ProposalsAre(current, ReplaceKind(current, i, kind));
      ProposalsWereRejected(recompiles, source, expected, limit, state, ReplaceKind(current, i, kind));
    }
    forall p | IsChunkDeletion(current, p) ensures TriedInVain(source, state, p) {
      ProposalsAre(current, p);
      ProposalsWereRejected(recompiles, source, expected, limit, state, p);
    }
  }

  lemma BestDescends(
    recompiles: PlannedCase -> bool, source: PlannedCase, expected: FailureIdentity, limit: nat, state: SearchState)
    requires forall p :: recompiles(p) ==> ValidSource(p)
    requires recompiles(source)
    requires SearchInv(recompiles, source, expected, limit, state)
    ensures ValidCurrent(source, CurrentSchedule(source, state.best))
  {
    hide Descends, Replayable, CutPointsSupported, Less, ComplexityOf;
    SourceIsCurrent(source);
    if state.best.Some? {
      BestIsChecked(recompiles, source, expected, limit, state);
    }
  }
}
