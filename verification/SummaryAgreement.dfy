/**
 Writer and reader agree: a shrink run (crates/tiv-runtime/src/configured_shrink.rs) that ends
 normally leaves an artifact the minimised-replay loader accepts exactly when it accepted a
 candidate. The two sides compute counts, verdicts and flags separately.
 */
module SummaryAgreement {
  import opened Wrappers
  import opened Sequences
  import opened PlanCompiler
  import opened ShrinkOrder
  import opened Shrink
  import opened Generator
  import opened Search
  import opened ShrinkSummary
  import opened SummaryReader

  // ---------- what a completed attempt provides ----------

  /** A reset that changed the database and its marker, a journal, and five coherent invariant outcomes. */
  predicate ProperExecution(e: Execution) {
    && e.beforeOid != 0 && e.afterOid != 0 && e.beforeOid != e.afterOid && e.beforeMarker != e.afterMarker
    && e.journalRecords > 0 && e.journalHash.Some?
    && |e.invariants| == INVARIANT_COUNT && InvariantsCoherent(e.invariants)
  }

  predicate FreshFrom(e: Execution, f: Execution) {
    e.afterOid != f.afterOid && e.afterMarker != f.afterMarker
  }

  /** Proper executions, each on a database of its own. */
  predicate ProperGroup(executions: seq<Execution>) {
    && (forall i :: 0 <= i < |executions| ==> ProperExecution(executions[i]))
    && forall i, j :: 0 <= i < j < |executions| ==> FreshFrom(executions[i], executions[j])
  }

  /** Whatever the attempts of one evaluation complete with is proper. */
  ghost predicate ProperAttempts(attempt: nat -> Attempt) {
    && (forall i :: attempt(i).Completed? ==> ProperExecution(attempt(i).execution))
    && forall i, j :: i < j && attempt(i).Completed? && attempt(j).Completed? ==>
         FreshFrom(attempt(i).execution, attempt(j).execution)
  }

  lemma CompletedIsProper(attempt: nat -> Attempt, executions: seq<Execution>)
    requires ProperAttempts(attempt)
    requires forall i :: 0 <= i < |executions| ==> attempt(i) == Completed(executions[i])
    ensures ProperGroup(executions)
  {
    hide ProperExecution, FreshFrom;
  }

  // ---------- one attempt, three attempts ----------

  lemma WrittenAttemptIsCoherent(number: nat, actionCount: nat, expected: FailureIdentity, e: Execution)
    requires ProperExecution(e)
    ensures AttemptCoherent(WriteAttempt(number, actionCount, expected, e), number, actionCount, expected)
  {
    hide AttemptResultOf, InvariantsCoherent, VerdictOf, FailureOf;
  }

  lemma WrittenBaselinesAreDistinct(actionCount: nat, expected: FailureIdentity, executions: seq<Execution>)
    requires |executions| == ATTEMPT_COUNT && ProperGroup(executions)
    ensures HasDistinctFreshBaselines(WriteAttempts(actionCount, expected, executions))
  {
    var documents := WriteAttempts(actionCount, expected, executions);
    forall i, j | 0 <= i < j < |documents|
      ensures documents[i].afterOid != documents[j].afterOid && documents[i].afterMarker != documents[j].afterMarker
    {
      assert FreshFrom(executions[i], executions[j]);
    }
    DistinctBaselines(documents);
  }

  /** The loader recounts what the writer counted. */
  lemma WrittenCountIsRecounted(actionCount: nat, expected: FailureIdentity, executions: seq<Execution>)
    ensures MatchingFailureCount(Results(expected, WriteAttempts(actionCount, expected, executions)), expected)
         == MatchingCount(expected, executions)
  {
    hide AttemptResultOf;
    FilterPointwise(
      (r: AttemptResult) => r == Violation(expected),
      Results(expected, WriteAttempts(actionCount, expected, executions)),
      e => Matches(expected, e), executions);
  }

  // ---------- candidates ----------

  lemma WrittenStoredAttempt(
    recompiles: PlannedCase -> bool, expected: FailureIdentity, e: Evaluation, selected: Option<ShrinkTrace>, i: nat)
    requires EvaluationCoherent(e, expected) && ProperGroup(e.executions) && i < ATTEMPT_COUNT
    requires Revalidate(recompiles, e.candidate).Ok?
    requires selected.Some? ==> selected.value == e.authority
    ensures StoredAttemptCoherent(
      recompiles, WriteCandidateFiles(expected, e), WriteEvaluation(expected, e), expected, selected, i)
  {
    hide Revalidate, AttemptCoherent, WriteAttempt, MatchingCount, IdentityOf, CandidateComplexity;
    WrittenAttemptIsCoherent(i + 1, |e.candidate.actions|, expected, e.executions[i]);
  }

  lemma WrittenCandidateIsCoherent(
    recompiles: PlannedCase -> bool, expected: FailureIdentity, e: Evaluation, selected: Option<ShrinkTrace>)
    requires EvaluationCoherent(e, expected) && ProperGroup(e.executions)
    requires Revalidate(recompiles, e.candidate).Ok?
    requires selected.Some? ==> selected.value == e.authority
    ensures CandidateCoherent(
      recompiles, WriteCandidateFiles(expected, e), WriteEvaluation(expected, e), expected, selected)
  {
    hide Revalidate, StoredAttemptCoherent, WriteAttempt, MatchingFailureCount, IdentityOf, CandidateComplexity,
      HasDistinctFreshBaselines;
    WrittenBaselinesAreDistinct(|e.candidate.actions|, expected, e.executions);
    WrittenCountIsRecounted(|e.candidate.actions|, expected, e.executions);
    forall i | 0 <= i < ATTEMPT_COUNT
      ensures StoredAttemptCoherent(
        recompiles, WriteCandidateFiles(expected, e), WriteEvaluation(expected, e), expected, selected, i)
    {
      WrittenStoredAttempt(recompiles, expected, e, selected, i);
    }
  }

  /** Everything the search hands to the writer. */
  ghost predicate Writable(
    recompiles: PlannedCase -> bool, request: Request, originals: seq<Execution>, state: SearchState)
  {
    && SearchInv(recompiles, request.original.planned, request.header.expected, request.candidateLimit, state)
    && OriginalsCoherent(request.original, originals) && ProperGroup(originals)
    && forall k :: 0 <= k < |state.evaluations| ==> ProperGroup(state.evaluations[k].executions)
  }

  lemma IdentitiesAreDistinct(
    recompiles: PlannedCase -> bool, source: PlannedCase, expected: FailureIdentity, limit: nat, state: SearchState)
    requires SearchInv(recompiles, source, expected, limit, state)
    ensures forall i, j :: 0 <= i < j < |state.evaluations| ==>
      IdentityOf(state.evaluations[i].candidate) != IdentityOf(state.evaluations[j].candidate)
  {
    hide AllChecked, Descending;
  }

  /** The best trace is that of the one evaluation of the best candidate, which was accepted. */
  lemma BestIsWritten(
    recompiles: PlannedCase -> bool, source: PlannedCase, expected: FailureIdentity, limit: nat, state: SearchState)
    returns (k: nat)
    requires SearchInv(recompiles, source, expected, limit, state) && state.accepted != 0
    ensures state.best.Some? && state.bestTrace.Some? && state.bestTrace.value.candidate == state.best.value
    ensures k < |state.evaluations| && state.evaluations[k].accepted
    ensures state.evaluations[k].authority == state.bestTrace.value
    ensures state.evaluations[k].candidate == state.bestTrace.value.candidate
    ensures Revalidate(recompiles, state.best.value).Ok? && state.best.value.source == source
  {
    hide CacheExact, Revalidate, MatchingCount, Less, CandidateComplexity;
    if forall e :: e in state.evaluations ==> !e.accepted {
      FilterNone((e: Evaluation) => e.accepted, state.evaluations);
      assert false;
    }
    k :| IsLastAccepted(state.evaluations, k) && state.evaluations[k].candidate == state.best.value
         && state.bestTrace == Some(state.evaluations[k].authority);
    assert EvaluationCoherent(state.evaluations[k], expected);
  }

  lemma AcceptedIsCounted(evaluations: seq<Evaluation>, k: nat)
    requires k < |evaluations| && evaluations[k].accepted
    ensures AcceptedCount(evaluations) > 0
  {
    assert evaluations[k] in Filter((e: Evaluation) => e.accepted, evaluations);
  }

  lemma NothingAcceptedNothingMinimized(
    recompiles: PlannedCase -> bool, source: PlannedCase, expected: FailureIdentity, limit: nat, state: SearchState)
    requires SearchInv(recompiles, source, expected, limit, state) && state.accepted == 0
    ensures state.bestTrace.None?
  {
    hide CacheExact, Revalidate, EvaluationCoherent, Less, CandidateComplexity, AcceptedCount;
    if state.best.Some? {
      var k :| IsLastAccepted(state.evaluations, k);
      AcceptedIsCounted(state.evaluations, k);
    }
  }

  lemma WrittenEvidenceAt(
    recompiles: PlannedCase -> bool, request: Request, completion: Completion, originals: seq<Execution>,
    state: SearchState, best: nat, k: nat)
    requires Writable(recompiles, request, originals, state)
    requires best < |state.evaluations| && state.evaluations[best].accepted
    requires state.bestTrace == Some(state.evaluations[best].authority)
    requires state.evaluations[best].candidate == state.bestTrace.value.candidate
    requires k < |state.evaluations|
    ensures EvidenceAt(recompiles, Finalize(request, completion, originals, state), state.bestTrace.value, k)
  {
    hide SearchInv, Revalidate, EvaluationCoherent, CandidateCoherent, IdentityOf, WriteAllFiles, ProperGroup,
      OriginalsCoherent, WriteOriginalFiles, WriteAttempts, WriteCandidateFiles, CandidateComplexity, ResultOf,
      MatchingCount;
    var source, expected, limit := request.original.planned, request.header.expected, request.candidateLimit;
    var trace := state.bestTrace.value;
    var e := state.evaluations[k];
    EvaluationFacts(recompiles, source, expected, limit, state, k);
    SameIdentitySameTurn(recompiles, source, expected, limit, state, best, k);
    FilesOfTurn(recompiles, source, expected, limit, state, k);
    FilesCarryTheCandidate(expected, e);
    WrittenCandidateIsCoherent(recompiles, expected, e, SelectedFor(WriteEvaluation(expected, e), trace));
  }

  lemma SameIdentitySameTurn(
    recompiles: PlannedCase -> bool, source: PlannedCase, expected: FailureIdentity, limit: nat, state: SearchState,
    j: nat, k: nat)
    requires SearchInv(recompiles, source, expected, limit, state)
    requires j < |state.evaluations| && k < |state.evaluations|
    ensures IdentityOf(state.evaluations[j].candidate) == IdentityOf(state.evaluations[k].candidate) ==> j == k
  {
    IdentitiesAreDistinct(recompiles, source, expected, limit, state);
    hide SearchInv, IdentityOf;
  }

  lemma FilesOfTurn(
    recompiles: PlannedCase -> bool, source: PlannedCase, expected: FailureIdentity, limit: nat, state: SearchState,
    k: nat)
    requires SearchInv(recompiles, source, expected, limit, state) && k < |state.evaluations|
    ensures var files := WriteAllFiles(expected, state.evaluations);
            var id := IdentityOf(state.evaluations[k].candidate);
            id in files && files[id] == WriteCandidateFiles(expected, state.evaluations[k])
  {
    IdentitiesAreDistinct(recompiles, source, expected, limit, state);
    hide SearchInv, IdentityOf, WriteAllFiles, WriteCandidateFiles;
    FilesAreKept(expected, state.evaluations, k);
  }

  lemma FilesCarryTheCandidate(expected: FailureIdentity, e: Evaluation)
    ensures WriteCandidateFiles(expected, e).candidate == e.candidate
  {
    hide WriteAttempts, IdentityOf, CandidateComplexity;
  }

  lemma EvaluationFacts(
    recompiles: PlannedCase -> bool, source: PlannedCase, expected: FailureIdentity, limit: nat,
    state: SearchState, k: nat)
    requires SearchInv(recompiles, source, expected, limit, state) && k < |state.evaluations|
    ensures EvaluationCoherent(state.evaluations[k], expected)
    ensures Revalidate(recompiles, state.evaluations[k].candidate).Ok?
  {
    hide Revalidate, EvaluationCoherent, CacheExact, Descending, AcceptedCount;
  }

  lemma WrittenDocuments(
    recompiles: PlannedCase -> bool, source: PlannedCase, expected: FailureIdentity, limit: nat, state: SearchState,
    best: nat)
    requires SearchInv(recompiles, source, expected, limit, state) && best < |state.evaluations|
    ensures var documents := Map((e: Evaluation) => WriteEvaluation(expected, e), state.evaluations);
            && DistinctDocuments(documents)
            && Selects(documents, state.evaluations[best].authority, best)
  {
    hide SearchInv, IdentityOf, WriteAttempts, CandidateComplexity, MatchingCount, Revalidate, DistinctDocuments;
    DistinctIsWritten(recompiles, source, expected, limit, state);
    EvaluationFacts(recompiles, source, expected, limit, state, best);
  }

  lemma DistinctIsWritten(
    recompiles: PlannedCase -> bool, source: PlannedCase, expected: FailureIdentity, limit: nat, state: SearchState)
    requires SearchInv(recompiles, source, expected, limit, state)
    ensures DistinctDocuments(Map((e: Evaluation) => WriteEvaluation(expected, e), state.evaluations))
  {
    hide SearchInv, IdentityOf, WriteAttempts, CandidateComplexity;
    IdentitiesAreDistinct(recompiles, source, expected, limit, state);
  }

  lemma WrittenEvidence(
    recompiles: PlannedCase -> bool, request: Request, completion: Completion, originals: seq<Execution>,
    state: SearchState, best: nat)
    requires Writable(recompiles, request, originals, state)
    requires best < |state.evaluations| && state.evaluations[best].accepted
    requires state.bestTrace == Some(state.evaluations[best].authority)
    requires state.evaluations[best].candidate == state.bestTrace.value.candidate
    ensures var artifact := Finalize(request, completion, originals, state);
            forall k :: 0 <= k < |artifact.summary.candidates| ==>
              EvidenceAt(recompiles, artifact, state.bestTrace.value, k)
  {
    hide EvidenceAt, Writable, WriteAllFiles, WriteOriginalFiles, WriteAttempts, WriteEvaluation, MatchingCount,
      ResultOf;
    forall k | 0 <= k < |state.evaluations|
      ensures EvidenceAt(recompiles, Finalize(request, completion, originals, state), state.bestTrace.value, k)
    {
      WrittenEvidenceAt(recompiles, request, completion, originals, state, best, k);
    }
  }

  lemma WrittenCandidatesAreCoherent(
    recompiles: PlannedCase -> bool, request: Request, completion: Completion, originals: seq<Execution>,
    state: SearchState)
    requires Writable(recompiles, request, originals, state) && state.accepted != 0
    ensures state.bestTrace.Some?
    ensures CandidatesCoherent(recompiles, Finalize(request, completion, originals, state), state.bestTrace.value)
  {
    hide EvidenceAt, SearchInv, DistinctDocuments, WriteAllFiles, WriteOriginalFiles, WriteAttempts, WriteEvaluation,
      MatchingCount, ResultOf, IdentityOf, ProperGroup, OriginalsCoherent, Revalidate;
    var source, expected, limit := request.original.planned, request.header.expected, request.candidateLimit;
    var best := BestIsWritten(recompiles, source, expected, limit, state);
    WrittenDocuments(recompiles, source, expected, limit, state, best);
    WrittenEvidence(recompiles, request, completion, originals, state, best);
    var artifact := Finalize(request, completion, originals, state);
    assert Selects(artifact.summary.candidates, state.bestTrace.value, best);
  }

  // ---------- the original attempts and the numbers ----------

  lemma WrittenOriginalsAreCoherent(
    recompiles: PlannedCase -> bool, request: Request, completion: Completion, originals: seq<Execution>,
    state: SearchState)
    requires Writable(recompiles, request, originals, state)
    ensures OriginalAttemptsCoherent(Finalize(request, completion, originals, state))
  {
    var expected := request.header.expected;
    var count := |request.original.planned.actions|;
    hide SearchInv, AttemptCoherent, HasDistinctFreshBaselines, WriteAllFiles, WriteAttempt, MatchingCount,
      WriteEvaluation;
    WrittenBaselinesAreDistinct(count, expected, originals);
    forall i | 0 <= i < |originals|
      ensures StoredOriginalCoherent(Finalize(request, completion, originals, state), i)
    {
      WrittenAttemptIsCoherent(i + 1, count, expected, originals[i]);
    }
  }

  lemma WrittenAcceptedCount(expected: FailureIdentity, evaluations: seq<Evaluation>)
    ensures AcceptedDocuments(Map((e: Evaluation) => WriteEvaluation(expected, e), evaluations))
         == AcceptedCount(evaluations)
  {
    hide WriteAttempts, IdentityOf, CandidateComplexity;
    FilterPointwise(
      (d: EvaluationDocument) => d.accepted,
      Map((e: Evaluation) => WriteEvaluation(expected, e), evaluations),
      (e: Evaluation) => e.accepted, evaluations);
  }

  lemma MatchingIsAtMostAll(expected: FailureIdentity, executions: seq<Execution>)
    ensures MatchingCount(expected, executions) <= |executions|
  {
  }

  /** A checked candidate has no more actions than its source. */
  lemma CandidateIsNoLonger(recompiles: PlannedCase -> bool, c: Candidate)
    requires Revalidate(recompiles, c).Ok?
    ensures |c.actions| <= |c.source.actions|
  {
    hide CutPointsSupported, Less, ComplexityOf, Simplifies;
    AscendingIsBounded(SourceIndices(c.schedule), |c.source.actions|);
  }

  lemma CountsOfState(
    recompiles: PlannedCase -> bool, source: PlannedCase, expected: FailureIdentity, limit: nat, state: SearchState)
    requires SearchInv(recompiles, source, expected, limit, state)
    ensures state.accepted == AcceptedCount(state.evaluations) && |state.evaluations| <= limit
  {
  }

  lemma WrittenNumbersAreCoherent(
    recompiles: PlannedCase -> bool, request: Request, completion: Completion, originals: seq<Execution>,
    state: SearchState)
    requires Writable(recompiles, request, originals, state) && state.accepted != 0
    requires 1 <= request.candidateLimit <= 60 && 1 <= request.maxTime <= 600_000
    requires MatchingCount(request.header.expected, originals) >= 2 && !completion.SourceInconclusive?
    ensures state.bestTrace.Some?
    ensures NumbersCoherent(Finalize(request, completion, originals, state), state.bestTrace.value)
  {
    var expected := request.header.expected;
    var best := BestIsWritten(recompiles, request.original.planned, expected, request.candidateLimit, state);
    CandidateIsNoLonger(recompiles, state.best.value);
    CountsOfState(recompiles, request.original.planned, expected, request.candidateLimit, state);
    WrittenAcceptedCount(expected, state.evaluations);
    MatchingIsAtMostAll(expected, originals);
    hide SearchInv, Revalidate, MatchingCount, AcceptedCount, AcceptedDocuments, WriteAllFiles, WriteOriginalFiles,
      WriteAttempts, WriteEvaluation, ProperGroup;
  }

  /** A finished search that accepted a candidate leaves an artifact the loader accepts; otherwise it does not. */
  lemma WrittenIsReadable(
    recompiles: PlannedCase -> bool, request: Request, completion: Completion, originals: seq<Execution>,
    state: SearchState)
    requires Writable(recompiles, request, originals, state) && recompiles(request.original.planned)
    requires 1 <= request.candidateLimit <= 60 && 1 <= request.maxTime <= 600_000
    requires MatchingCount(request.header.expected, originals) >= 2 && !completion.SourceInconclusive?
    ensures Readable(recompiles, Finalize(request, completion, originals, state)) <==> state.accepted > 0
  {
    var source, expected, limit := request.original.planned, request.header.expected, request.candidateLimit;
    if state.accepted == 0 {
      hide SearchInv, SummaryCoherent, Revalidate;
      NothingAcceptedNothingMinimized(recompiles, source, expected, limit, state);
    } else {
      hide SearchInv, Revalidate, NumbersCoherent, OriginalAttemptsCoherent, CandidatesCoherent,
        MatchingFailureCount, MatchingCount, WriteAllFiles, WriteOriginalFiles, WriteEvaluation;
      var best := BestIsWritten(recompiles, source, expected, limit, state);
      WrittenNumbersAreCoherent(recompiles, request, completion, originals, state);
      WrittenOriginalsAreCoherent(recompiles, request, completion, originals, state);
      WrittenCandidatesAreCoherent(recompiles, request, completion, originals, state);
      WrittenCountIsRecounted(|source.actions|, expected, originals);
    }
  }

  lemma InconclusiveIsNotReadable(
    recompiles: PlannedCase -> bool, request: Request, originals: seq<Execution>, state: SearchState)
    ensures !Readable(recompiles, Finalize(request, SourceInconclusive, originals, state))
  {
    hide SummaryCoherent, Revalidate;
  }

  // ---------- a whole shrink run ----------

  /** All three original attempts reproduce the recorded trace, and two of them the failure. */
  predicate Conclusive(request: Request, original: nat -> Attempt) {
    && OriginalReaches(request.original, original, ATTEMPT_COUNT)
    && MatchingCount(request.header.expected, Executions(original)) >= 2
  }

  /** A run is conclusive when its original attempts repeat the trace and two of them violate the expected invariant. */
  lemma ConclusiveMeans(request: Request, original: nat -> Attempt)
    ensures Conclusive(request, original) <==>
      && OriginalReaches(request.original, original, ATTEMPT_COUNT)
      && ReproducedTwice(request.header.expected, Executions(original))
  {
    hide MatchingCount, ReproducedTwice;
    if OriginalReaches(request.original, original, ATTEMPT_COUNT) {
      TwiceMeansTwo(request.header.expected, Executions(original));
    }
  }

  const NOTHING_SEARCHED := SearchState(None, None, [], map[], 0, 0)

  /** The original attempts that completed: all three, or those before the one that ran out of budget. */
  ghost predicate CompletedPrefix(original: nat -> Attempt, executions: seq<Execution>) {
    && |executions| <= ATTEMPT_COUNT
    && (forall i :: 0 <= i < |executions| ==> original(i) == Completed(executions[i]))
    && (|executions| < ATTEMPT_COUNT ==> original(|executions|).OutOfBudget?)
  }

  /** The summary of a run that never went on to search. */
  ghost predicate WrittenInconclusive(request: Request, original: nat -> Attempt, artifact: Artifact) {
    exists executions :: CompletedPrefix(original, executions)
      && artifact == Finalize(request, SourceInconclusive, executions, NOTHING_SEARCHED)
  }

  lemma InconclusiveIsWritten(request: Request, original: nat -> Attempt, executions: seq<Execution>)
    requires CompletedPrefix(original, executions)
    ensures WrittenInconclusive(
              request, original, Finalize(request, SourceInconclusive, executions, NOTHING_SEARCHED))
  {
  }

  /** What a search of this request may leave behind. */
  ghost predicate Searched(
    recompiles: PlannedCase -> bool, request: Request, attempts: nat -> nat -> Attempt, exhausted: nat -> bool,
    state: SearchState)
  {
    && SearchInv(recompiles, request.original.planned, request.header.expected, request.candidateLimit, state)
    && Trail(request.original.planned, attempts, exhausted, state)
  }

  /**
   From the original attempts to the written artifact. The run goes on to search only when at least
   two of the three original attempts reproduce the failure, and the loader accepts what it writes
   exactly when a candidate was accepted. What is written is the summary of the attempts that
   completed and of the search's final state. Nothing is written only when an original attempt went
   wrong, or the search had a candidate waiting and the budget for it, and its evaluation did.
   */
  method RunShrink(
    recompiles: PlannedCase -> bool, request: Request, original: nat -> Attempt,
    attempts: nat -> nat -> Attempt, exhausted: nat -> bool)
    returns (written: Option<Artifact>, ghost final: SearchState)
    requires forall p :: recompiles(p) ==> ValidSource(p)
    requires recompiles(request.original.planned)
    requires 1 <= request.candidateLimit <= 60 && 1 <= request.maxTime <= 600_000
    requires ProperAttempts(original) && forall n: nat :: ProperAttempts(attempts(n))
    ensures OriginalGoesWrong(request.original, original) ==> written.None?
    ensures written.None? && !OriginalGoesWrong(request.original, original) ==>
      && Conclusive(request, original) && Searched(recompiles, request, attempts, exhausted, final)
      && HasNext(request.original.planned, final)
      && FailsWithinBudget(request.candidateLimit, attempts, exhausted, |final.evaluations|)
    ensures written.Some? ==>
      (written.value.summary.completion.SourceInconclusive? <==> !Conclusive(request, original))
    ensures written.Some? && Conclusive(request, original) ==>
      var completion := written.value.summary.completion;
      && Searched(recompiles, request, attempts, exhausted, final)
      && EndsAs(request.original.planned, request.candidateLimit, attempts, exhausted, completion, final)
      && (completion.Complete? <==> LocallyMinimal(request.original.planned, final))
      && written.value == Finalize(request, completion, Executions(original), final)
      && written.value.minimized == final.bestTrace
      && written.value.summary.originalMatching >= 2
    ensures written.Some? && !Conclusive(request, original) ==>
      WrittenInconclusive(request, original, written.value)
    ensures written.Some? ==>
      (Readable(recompiles, written.value) <==> written.value.summary.acceptedCandidates > 0)
  {
    hide ValidSource, SearchInv, LocallyMinimal, ProperGroup, ProperAttempts, Revalidate, Readable, MatchingCount,
      WriteAllFiles, WriteOriginalFiles, WriteAttempts, WriteEvaluation, FromAttempts, Trail, HasNext, EndsAs,
      FailsWithinBudget, WrittenInconclusive;
    var source, expected, limit := request.original.planned, request.header.expected, request.candidateLimit;
    final := NOTHING_SEARCHED;
    var verdict := EvaluateOriginal(request.original, original);
    match verdict {
      case OriginalsFailed => return None, final;
      case OriginalsExpired(executions) =>
        InconclusiveIsNotReadable(recompiles, request, executions, NOTHING_SEARCHED);
        InconclusiveIsWritten(request, original, executions);
        return Some(Finalize(request, SourceInconclusive, executions, NOTHING_SEARCHED)), final;
      case OriginalsCompleted(executions) =>
        assert executions == Executions(original);
        if MatchingCount(expected, executions) < 2 {
          InconclusiveIsNotReadable(recompiles, request, executions, NOTHING_SEARCHED);
          InconclusiveIsWritten(request, original, executions);
          return Some(Finalize(request, SourceInconclusive, executions, NOTHING_SEARCHED)), final;
        }
        var result := RunSearch(recompiles, source, expected, limit, attempts, exhausted);
        match result {
          case EvaluationFailed(state) => return None, state;
          case GenerationFailed(_) => return None, final;
          case Finished(completion, state) =>
            CompletedIsProper(original, executions);
            TrailIsFromAttempts(source, attempts, exhausted, state);
            SearchIsProper(recompiles, source, expected, limit, attempts, state);
            SearchIsConclusive(source, limit, attempts, exhausted, completion, state);
            WrittenIsReadable(recompiles, request, completion, executions, state);
            return Some(Finalize(request, completion, executions, state)), state;
        }
    }
  }

  lemma SearchIsConclusive(
    source: PlannedCase, limit: nat, attempts: nat -> nat -> Attempt, exhausted: nat -> bool,
    completion: Completion, state: SearchState)
    requires EndsAs(source, limit, attempts, exhausted, completion, state)
    ensures !completion.SourceInconclusive?
  {
    hide HasNext, CurrentFrontier, OutOfBudgetAt;
  }

  lemma SearchIsProper(
    recompiles: PlannedCase -> bool, source: PlannedCase, expected: FailureIdentity, limit: nat,
    attempts: nat -> nat -> Attempt, state: SearchState)
    requires forall n: nat :: ProperAttempts(attempts(n))
    requires SearchInv(recompiles, source, expected, limit, state) && FromAttempts(attempts, state.evaluations)
    ensures forall k :: 0 <= k < |state.evaluations| ==> ProperGroup(state.evaluations[k].executions)
  {
    hide SearchInv, ProperAttempts, ProperGroup;
    forall k | 0 <= k < |state.evaluations| ensures ProperGroup(state.evaluations[k].executions) {
      CompletedIsProper(attempts(k), state.evaluations[k].executions);
    }
  }
}
