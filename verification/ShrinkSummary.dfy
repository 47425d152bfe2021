/**
 What a shrink run leaves behind (crates/tiv-runtime/src/configured_shrink.rs): the evidence of
 every attempt, the evaluations, and the summary that ties them together.

 Values are taken as already decoded; a candidate's identity is its source and its schedule.
 */
module ShrinkSummary {
  import opened Wrappers
  import opened Sequences
  import opened PlanCompiler
  import opened ShrinkOrder
  import opened Shrink
  import opened Search

  // ---------- documents ----------

  datatype AttemptVerdict = HeldVerdict | ExpectedViolation | OtherViolation

  datatype AttemptDocument = AttemptDocument(
    attempt: nat,
    traceMatchesAuthority: bool,
    beforeOid: nat,
    afterOid: nat,
    beforeMarker: nat,
    afterMarker: nat,
    executedActions: nat,
    journalRecords: nat,
    journalHash: Option<nat>,
    verdict: AttemptVerdict,
    failure: Option<FailureIdentity>,
    invariants: seq<InvariantOutcome>)

  datatype CandidateIdentity = CandidateIdentity(source: PlannedCase, schedule: Schedule)

  datatype EvaluationDocument = EvaluationDocument(
    candidateId: CandidateIdentity,
    actionCount: nat,
    complexity: Complexity,
    matching: nat,
    accepted: bool,
    attempts: seq<AttemptDocument>)

  /** The replay being shrunk, as both the source document and the summary name it. */
  datatype SourceHeader = SourceHeader(replayId: nat, runId: nat, caseId: nat, expected: FailureIdentity)

  datatype SourceDocument = SourceDocument(header: SourceHeader, originalTraceRetained: bool)

  datatype SummaryDocument = SummaryDocument(
    shrinkId: nat,
    header: SourceHeader,
    completion: Completion,
    candidateLimit: nat,
    maxTime: nat,
    originalAttemptCount: nat,
    originalMatching: nat,
    evaluatedCandidates: nat,
    cacheHits: nat,
    acceptedCandidates: nat,
    originalActionCount: nat,
    bestActionCount: nat,
    minimizedTraceWritten: bool,
    originalAttempts: seq<AttemptDocument>,
    candidates: seq<EvaluationDocument>)

  /** The trace of the case as planned, before any shrinking. */
  datatype CaseTrace = CaseTrace(planned: PlannedCase, durable: nat, gates: nat)

  predicate MatchesOriginal(authority: CaseTrace, executed: CaseTrace) {
    authority.planned == executed.planned && authority.durable == executed.durable
  }

  datatype OriginalFiles = OriginalFiles(document: AttemptDocument, trace: CaseTrace)

  datatype AttemptFiles = AttemptFiles(document: AttemptDocument, trace: ShrinkTrace)

  datatype CandidateFiles = CandidateFiles(
    candidate: Candidate, evaluation: EvaluationDocument, attempts: seq<AttemptFiles>)

  datatype ArtifactResult = Counterexample | BudgetExhaustedResult | Inconclusive

  datatype Artifact = Artifact(
    runId: nat,
    result: ArtifactResult,
    source: SourceDocument,
    original: CaseTrace,
    minimized: Option<ShrinkTrace>,
    originalFiles: seq<OriginalFiles>,
    candidateFiles: map<CandidateIdentity, CandidateFiles>,
    summary: SummaryDocument)

  /** One shrink run: its name, the replay it starts from, its limits. */
  datatype Request = Request(
    shrinkId: nat, header: SourceHeader, original: CaseTrace, candidateLimit: nat, maxTime: nat)

  // ---------- writing ----------

  function IdentityOf(c: Candidate): CandidateIdentity {
    CandidateIdentity(c.source, c.schedule)
  }

  function VerdictOf(expected: FailureIdentity, result: AttemptResult): AttemptVerdict {
    match result
    case Held => HeldVerdict
    case Violation(identity) => if identity == expected then ExpectedViolation else OtherViolation
  }

  function FailureOf(result: AttemptResult): Option<FailureIdentity> {
    match result
    case Held => None
    case Violation(identity) => Some(identity)
  }

  function WriteAttempt(attempt: nat, actionCount: nat, expected: FailureIdentity, e: Execution): AttemptDocument {
    var result := AttemptResultOf(expected, e.invariants);
    AttemptDocument(
      attempt, true, e.beforeOid, e.afterOid, e.beforeMarker, e.afterMarker, actionCount,
      e.journalRecords, e.journalHash, VerdictOf(expected, result), FailureOf(result), e.invariants)
  }

  function WriteAttempts(actionCount: nat, expected: FailureIdentity, executions: seq<Execution>)
    : (r: seq<AttemptDocument>)
    ensures |r| == |executions|
    ensures forall i :: 0 <= i < |r| ==> r[i] == WriteAttempt(i + 1, actionCount, expected, executions[i])
  {
    seq(|executions|, i requires 0 <= i < |executions| => WriteAttempt(i + 1, actionCount, expected, executions[i]))
  }

  function WriteEvaluation(expected: FailureIdentity, e: Evaluation): EvaluationDocument {
    EvaluationDocument(
      IdentityOf(e.candidate), |e.candidate.actions|, CandidateComplexity(e.candidate), e.matching, e.accepted,
      WriteAttempts(|e.candidate.actions|, expected, e.executions))
  }

  function WriteCandidateFiles(expected: FailureIdentity, e: Evaluation): CandidateFiles {
    var document := WriteEvaluation(expected, e);
    CandidateFiles(e.candidate, document,
                   seq(|e.executions|, i requires 0 <= i < |e.executions| =>
                     AttemptFiles(document.attempts[i], TraceOf(e.candidate, e.executions[i]))))
  }

  /** One directory per evaluated candidate, named by its identity; a later one would replace an earlier one. */
  function WriteAllFiles(expected: FailureIdentity, evaluations: seq<Evaluation>)
    : map<CandidateIdentity, CandidateFiles>
  {
    if evaluations == [] then map[]
    else
      var last := evaluations[|evaluations| - 1];
      WriteAllFiles(expected, evaluations[..|evaluations| - 1])[
        IdentityOf(last.candidate) := WriteCandidateFiles(expected, last)]
  }

  /** Distinct candidates keep distinct directories, so nothing written is lost. */
  lemma {:induction false} FilesAreKept(expected: FailureIdentity, evaluations: seq<Evaluation>, k: nat)
    requires forall i, j :: 0 <= i < j < |evaluations| ==>
      IdentityOf(evaluations[i].candidate) != IdentityOf(evaluations[j].candidate)
    requires k < |evaluations|
    ensures IdentityOf(evaluations[k].candidate) in WriteAllFiles(expected, evaluations)
    ensures WriteAllFiles(expected, evaluations)[IdentityOf(evaluations[k].candidate)]
         == WriteCandidateFiles(expected, evaluations[k])
  {
    hide WriteCandidateFiles, IdentityOf;
    var n := |evaluations| - 1;
    if k < n {
      FilesAreKept(expected, evaluations[..n], k);
      assert IdentityOf(evaluations[k].candidate) != IdentityOf(evaluations[n].candidate);
    }
  }

  function WriteOriginalFiles(request: Request, executions: seq<Execution>): (r: seq<OriginalFiles>)
    ensures |r| == |executions|
  {
    var documents := WriteAttempts(|request.original.planned.actions|, request.header.expected, executions);
    seq(|executions|, i requires 0 <= i < |executions| =>
      OriginalFiles(documents[i], CaseTrace(request.original.planned, executions[i].durableTrace, executions[i].gates)))
  }

  function WriteSummary(request: Request, completion: Completion, originals: seq<Execution>, state: SearchState)
    : SummaryDocument
  {
    var expected := request.header.expected;
    var originalCount := |request.original.planned.actions|;
    SummaryDocument(
      request.shrinkId,
      request.header,
      completion,
      request.candidateLimit,
      request.maxTime,
      |originals|,
      MatchingCount(expected, originals),
      |state.evaluations|,
      state.cacheHits,
      state.accepted,
      originalCount,
      if state.bestTrace.Some? then |state.bestTrace.value.candidate.actions| else originalCount,
      state.bestTrace.Some?,
      WriteAttempts(originalCount, expected, originals),
      Map((e: Evaluation) => WriteEvaluation(expected, e), state.evaluations))
  }

  function ResultOf(completion: Completion): ArtifactResult {
    match completion
    case Complete => Counterexample
    case BudgetExhausted => BudgetExhaustedResult
    case SourceInconclusive => Inconclusive
  }

  function Finalize(request: Request, completion: Completion, originals: seq<Execution>, state: SearchState): Artifact {
    Artifact(
      request.shrinkId,
      ResultOf(completion),
      SourceDocument(request.header, true),
      request.original,
      state.bestTrace,
      WriteOriginalFiles(request, originals),
      WriteAllFiles(request.header.expected, state.evaluations),
      WriteSummary(request, completion, originals, state))
  }

  /** The execution a candidate's stored attempt speaks of. */
  function ReadBack(files: AttemptFiles): Execution {
    var d := files.document;
    Execution(d.beforeOid, d.afterOid, d.beforeMarker, d.afterMarker, files.trace.durable, files.trace.gates,
              d.journalRecords, d.journalHash, d.invariants)
  }

  function ReadOriginalBack(files: OriginalFiles): Execution {
    var d := files.document;
    Execution(d.beforeOid, d.afterOid, d.beforeMarker, d.afterMarker, files.trace.durable, files.trace.gates,
              d.journalRecords, d.journalHash, d.invariants)
  }

  /** Reading back what is written of an evaluation, or of the original attempts, gives the executions again. */
  lemma WrittenReadsBack(request: Request, e: Evaluation)
    ensures var files := WriteCandidateFiles(request.header.expected, e);
            && files.candidate == e.candidate && files.evaluation.matching == e.matching
            && files.evaluation.accepted == e.accepted
            && |files.attempts| == |e.executions|
            && (forall i :: 0 <= i < |e.executions| ==> ReadBack(files.attempts[i]) == e.executions[i])
    ensures var files := WriteOriginalFiles(request, e.executions);
            forall i :: 0 <= i < |e.executions| ==> ReadOriginalBack(files[i]) == e.executions[i]
  {
  }

  /** What the summary reports of a run. */
  lemma SummaryReports(request: Request, completion: Completion, originals: seq<Execution>, state: SearchState)
    ensures var artifact := Finalize(request, completion, originals, state);
            var summary := artifact.summary;
            && summary.cacheHits == state.cacheHits && summary.acceptedCandidates == state.accepted
            && summary.evaluatedCandidates == |state.evaluations| == |summary.candidates|
            && summary.candidateLimit == request.candidateLimit && summary.maxTime == request.maxTime
            && summary.completion == completion && summary.header == artifact.source.header == request.header
            && (summary.originalMatching >= 2 <==> ReproducedTwice(request.header.expected, originals))
            && (artifact.result.Inconclusive? <==> completion.SourceInconclusive?)
            && (artifact.result.Counterexample? <==> completion.Complete?)
  {
    TwiceMeansTwo(request.header.expected, originals);
    hide MatchingCount, ReproducedTwice, WriteAllFiles, WriteOriginalFiles, WriteAttempts;
  }

  // ---------- the original attempts ----------

  datatype OriginalVerdict =
    | OriginalsCompleted(executions: seq<Execution>)
    | OriginalsExpired(executions: seq<Execution>)
    | OriginalsFailed

  /** Three attempts of the unshrunk case, each reproducing the recorded trace. */
  predicate OriginalsCoherent(original: CaseTrace, executions: seq<Execution>) {
    && |executions| == ATTEMPT_COUNT
    && forall i :: 0 <= i < |executions| ==> executions[i].durableTrace == original.durable
  }

  /** Every attempt before the `i`-th completed with the recorded trace. */
  predicate OriginalReaches(original: CaseTrace, attempt: nat -> Attempt, i: nat) {
    forall j :: 0 <= j < i ==> attempt(j).Completed? && attempt(j).execution.durableTrace == original.durable
  }

  /** The first attempt that does not complete ran out of budget. */
  ghost predicate OriginalExpires(original: CaseTrace, attempt: nat -> Attempt) {
    exists i: nat :: i < ATTEMPT_COUNT && OriginalReaches(original, attempt, i) && attempt(i).OutOfBudget?
  }

  /** The first attempt that goes wrong reports an error, or runs another trace than the recorded one. */
  ghost predicate OriginalGoesWrong(original: CaseTrace, attempt: nat -> Attempt) {
    exists i: nat :: i < ATTEMPT_COUNT && OriginalReaches(original, attempt, i)
      && (attempt(i).Errored? || (attempt(i).Completed? && !OriginalReaches(original, attempt, i + 1)))
  }

  /** The three executions of attempts that all complete. */
  function Executions(attempt: nat -> Attempt): (r: seq<Execution>)
    requires forall i :: 0 <= i < ATTEMPT_COUNT ==> attempt(i).Completed?
    ensures |r| == ATTEMPT_COUNT && forall i :: 0 <= i < ATTEMPT_COUNT ==> attempt(i) == Completed(r[i])
  {
    seq(ATTEMPT_COUNT, i requires 0 <= i < ATTEMPT_COUNT => attempt(i).execution)
  }

  method EvaluateOriginal(original: CaseTrace, attempt: nat -> Attempt) returns (verdict: OriginalVerdict)
    ensures verdict.OriginalsCompleted? <==> OriginalReaches(original, attempt, ATTEMPT_COUNT)
    ensures verdict.OriginalsExpired? <==> OriginalExpires(original, attempt)
    ensures verdict.OriginalsFailed? <==> OriginalGoesWrong(original, attempt)
    ensures !verdict.OriginalsFailed? ==> forall i :: 0 <= i < |verdict.executions| ==>
      && attempt(i) == Completed(verdict.executions[i])
      && verdict.executions[i].durableTrace == original.durable
    ensures verdict.OriginalsCompleted? ==> OriginalsCoherent(original, verdict.executions)
    ensures verdict.OriginalsExpired? ==>
      |verdict.executions| < ATTEMPT_COUNT && attempt(|verdict.executions|).OutOfBudget?
  {
    var executions: seq<Execution> := [];
    for i := 0 to ATTEMPT_COUNT
      invariant |executions| == i
      invariant forall j :: 0 <= j < i ==>
        attempt(j) == Completed(executions[j]) && executions[j].durableTrace == original.durable
    {
      match attempt(i) {
        case OutOfBudget => return OriginalsExpired(executions);
        case Errored => return OriginalsFailed;
        case Completed(execution) =>
          var trace := CaseTrace(original.planned, execution.durableTrace, execution.gates);
          if !MatchesOriginal(original, trace) {
            assert OriginalReaches(original, attempt, i) && !OriginalReaches(original, attempt, i + 1);
            return OriginalsFailed;
          }
          executions := executions + [execution];
      }
    }
    return OriginalsCompleted(executions);
  }
}
