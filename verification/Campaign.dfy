/**
 The serial, journal-first executor (crates/tiv-runtime/src/campaign.rs).

 The journal's disk and the effect adapter are arbitrary: each append may fail before or after
 it is durable, and each effect may fail or return any captures at all.
 */
module Campaign {
  import opened Wrappers
  import opened Sequences
  import opened Decision
  import opened Plan
  import opened PlanCompiler
  import opened Trace
  import opened TraceSimulation

  datatype CapturedValue = PaymentIntentValue(id: nat) | EventValue(id: nat) | ProviderGateValue(id: nat) {
    function Slot(): OutputSlot {
      match this
      case PaymentIntentValue(_) => PaymentIntentOutput
      case EventValue(_) => EventOutput
      case ProviderGateValue(_) => ProviderGateOutput
    }
  }

  type Capture = (OutputRef, CapturedValue)

  datatype InputBinding = InputBinding(actionId: nat, slot: InputSlot, source: OutputRef)

  datatype CaptureError =
    | DuplicateCapture(output: OutputRef)
    | MissingCapture(output: OutputRef)
    | UnexpectedCapture(output: OutputRef)
    | CaptureTypeMismatch(output: OutputRef, actual: OutputSlot)

  datatype ExecutionCause =
    | JournalAppend
    | Effect
    | CaptureFault(error: CaptureError)
    | MissingResolvedInput(actionId: nat, input: InputSlot)
    | SequenceOverflow

  // ---------- the journal ----------

  datatype Event = ActionIntent | ActionOutcome

  datatype Record =
    | Orchestrator(event: Event, actionId: nat, sequence: nat)
    | Observed(actionId: nat, detail: nat)

  datatype Fate = Durable | LostAndFailed | DurableButFailed

  function OrchestratorOnly(records: seq<Record>): seq<Record> {
    if records == [] then []
    else OrchestratorOnly(records[..|records| - 1])
         + (if records[|records| - 1].Orchestrator? then [records[|records| - 1]] else [])
  }

  lemma OrchestratorAppend(records: seq<Record>, r: Record)
    ensures OrchestratorOnly(records + [r])
         == OrchestratorOnly(records) + (if r.Orchestrator? then [r] else [])
  {
    assert (records + [r])[..|records|] == records;
  }

  class Journal {
    var records: seq<Record>
    var appends: nat
    const fate: nat -> Fate

    constructor (fate: nat -> Fate)
      ensures records == [] && this.fate == fate
    {
      this.fate := fate;
      records, appends := [], 0;
    }

    method Append(r: Record) returns (ok: bool)
      modifies this
      ensures records == old(records) + [r] || (!ok && records == old(records))
      ensures appends == old(appends) + 1 && (ok <==> fate(old(appends)).Durable?)
    {
      var outcome := fate(appends);
      appends := appends + 1;
      if outcome != LostAndFailed {
        records := records + [r];
      }
      ok := outcome == Durable;
    }
  }

  // ---------- the effect adapter ----------

  datatype Response = Failed(observations: seq<nat>) | Returned(observations: seq<nat>, captures: seq<Capture>)

  /** One call the adapter received, with the orchestrator records that were durable before it. */
  datatype Call = Call(action: Action, inputs: seq<(InputSlot, CapturedValue)>, durable: seq<Record>)

  class EffectAdapter {
    var calls: seq<Call>
    const respond: nat -> Response

    constructor (respond: nat -> Response)
      ensures calls == [] && this.respond == respond
    {
      this.respond := respond;
      calls := [];
    }

    /** Performs one effect; it may journal observations of its own, whatever becomes of them. */
    method Execute(p: PlannedAction, inputs: seq<(InputSlot, CapturedValue)>, journal: Journal)
      returns (captures: Option<seq<Capture>>)
      modifies this, journal
      ensures calls == old(calls) + [Call(p.kind, inputs, old(OrchestratorOnly(journal.records)))]
      ensures OrchestratorOnly(journal.records) == old(OrchestratorOnly(journal.records))
      ensures captures
           == match respond(|old(calls)|) case Failed(_) => None case Returned(_, values) => Some(values)
    {
      var response := respond(|calls|);
      calls := calls + [Call(p.kind, inputs, OrchestratorOnly(journal.records))];
      var observations := response.observations;
      for i := 0 to |observations|
        invariant OrchestratorOnly(journal.records) == old(OrchestratorOnly(journal.records))
        invariant calls == old(calls) + [Call(p.kind, inputs, old(OrchestratorOnly(journal.records)))]
      {
        var record := Observed(p.id, observations[i]);
        OrchestratorAppend(journal.records, record);
        var _ := journal.Append(record);
      }
      captures := if response.Failed? then None else Some(response.captures);
    }
  }

  // ---------- inputs and captures ----------

  function BindingsOf(c: CompiledAction): seq<InputBinding> {
    Map((input: Input) => InputBinding(c.planned.id, input.slot, input.source), c.inputs)
  }

  function RequiredInputs(actions: seq<CompiledAction>): seq<InputBinding> {
    if actions == [] then []
    else RequiredInputs(actions[..|actions| - 1]) + BindingsOf(actions[|actions| - 1])
  }

  function RequiredOutputs(actions: seq<CompiledAction>): seq<OutputRef> {
    if actions == [] then []
    else RequiredOutputs(actions[..|actions| - 1]) + actions[|actions| - 1].declared
  }

  function Refs(captured: seq<Capture>): (r: seq<OutputRef>)
    ensures |r| == |captured|
    ensures forall i :: 0 <= i < |captured| ==> r[i] == captured[i].0
  {
    seq(|captured|, i requires 0 <= i < |captured| => captured[i].0)
  }

  /** `value` is the first one captured under `source`. */
  ghost predicate FirstCapture(captured: seq<Capture>, source: OutputRef, value: CapturedValue) {
    exists i :: 0 <= i < |captured| && captured[i] == (source, value) && source !in Refs(captured[..i])
  }

  lemma FirstStays(captured: seq<Capture>, more: seq<Capture>, source: OutputRef, value: CapturedValue)
    requires FirstCapture(captured, source, value)
    ensures FirstCapture(captured + more, source, value)
  {
    var i :| 0 <= i < |captured| && captured[i] == (source, value) && source !in Refs(captured[..i]);
    assert (captured + more)[..i] == captured[..i];
  }

  /** The first captured value under a reference. */
  method Lookup(captured: seq<Capture>, source: OutputRef) returns (value: Option<CapturedValue>)
    ensures value.Some? <==> source in Refs(captured)
    ensures value.Some? ==> FirstCapture(captured, source, value.value)
  {
    for i := 0 to |captured|
      invariant source !in Refs(captured[..i])
    {
      assert captured[i] in captured && Refs(captured)[i] == captured[i].0;
      if captured[i].0 == source {
        return Some(captured[i].1);
      }
      assert Refs(captured[..i + 1]) == Refs(captured[..i]) + [captured[i].0];
    }
    assert captured[..|captured|] == captured;
    return None;
  }

  /** One value for each binding, the first captured under the output it is bound to. */
  ghost predicate Fed(bindings: seq<InputBinding>, values: seq<(InputSlot, CapturedValue)>, captured: seq<Capture>) {
    && |values| == |bindings|
    && forall j :: 0 <= j < |bindings| ==>
         values[j].0 == bindings[j].slot && FirstCapture(captured, bindings[j].source, values[j].1)
  }

  /** `b` is the first binding whose source was never captured. */
  ghost predicate FirstMissing(bindings: seq<InputBinding>, captured: seq<Capture>, b: InputBinding) {
    exists i :: 0 <= i < |bindings| && bindings[i] == b && b.source !in Refs(captured)
      && forall j :: 0 <= j < i ==> bindings[j].source in Refs(captured)
  }

  method ResolveInputs(actionId: nat, required: seq<InputBinding>, captured: seq<Capture>)
    returns (result: Result<seq<(InputSlot, CapturedValue)>, ExecutionCause>)
    ensures result.Ok? <==> forall b :: b in required && b.actionId == actionId ==> b.source in Refs(captured)
    ensures result.Err? ==>
      exists b ::
        && FirstMissing(Filter((b: InputBinding) => b.actionId == actionId, required), captured, b)
        && result.error == MissingResolvedInput(actionId, b.slot)
    ensures result.Ok? ==>
      Fed(Filter((b: InputBinding) => b.actionId == actionId, required), result.value, captured)
  {
    var mine := Filter((b: InputBinding) => b.actionId == actionId, required);
    var values: seq<(InputSlot, CapturedValue)> := [];
    for i := 0 to |mine|
      invariant |values| == i
      invariant forall j :: 0 <= j < i ==> mine[j].source in Refs(captured)
      invariant forall j :: 0 <= j < i ==>
        values[j].0 == mine[j].slot && FirstCapture(captured, mine[j].source, values[j].1)
    {
      var b := mine[i];
      assert b in mine;
      var value := Lookup(captured, b.source);
      if value.None? {
        assert FirstMissing(mine, captured, b);
        return Err(MissingResolvedInput(actionId, b.slot));
      }
      values := values + [(b.slot, value.value)];
    }
    forall b | b in required && b.actionId == actionId ensures b.source in Refs(captured) {
      assert b in mine;
      var j :| 0 <= j < |mine| && mine[j] == b;
    }
    return Ok(values);
  }

  /** Captures that answer exactly the expected outputs, each with a value of its own slot. */
  predicate Answers(expected: seq<OutputRef>, captures: seq<Capture>) {
    Refs(captures) == expected && forall c :: c in captures ==> c.1.Slot() == c.0.slot
  }

  /** No duplicates, nothing unexpected, nothing missing, no wrong slot. */
  ghost predicate Acceptable(expected: seq<OutputRef>, observed: seq<Capture>) {
    && Distinct(Refs(observed))
    && (forall r :: r in Refs(observed) <==> r in expected)
    && (forall c :: c in observed ==> c.1.Slot() == c.0.slot)
  }

  /** The references of `observed`, each with its value; `None` when one occurs twice. */
  ghost predicate Indexes(byRef: map<OutputRef, CapturedValue>, observed: seq<Capture>) {
    && Distinct(Refs(observed))
    && (forall r :: r in byRef ==> (r, byRef[r]) in observed)
    && (forall i :: 0 <= i < |observed| ==> observed[i].0 in byRef && byRef[observed[i].0] == observed[i].1)
  }

  /** `output` is the first reference captured twice. */
  ghost predicate FirstRepeat(observed: seq<Capture>, output: OutputRef) {
    exists i :: 0 <= i < |observed| && observed[i].0 == output
      && Distinct(Refs(observed[..i])) && output in Refs(observed[..i])
  }

  /** The capture under `output` has the type its slot asks for. */
  ghost predicate Answered(observed: seq<Capture>, output: OutputRef) {
    output in Refs(observed) && forall c :: c in observed && c.0 == output ==> c.1.Slot() == output.slot
  }

  function SlotRank(slot: OutputSlot): nat {
    match slot
    case PaymentIntentOutput => 0
    case EventOutput => 1
    case ProviderGateOutput => 2
  }

  /** The order of references: by action, then slot, then occurrence. */
  predicate RefLess(a: OutputRef, b: OutputRef) {
    || a.actionId < b.actionId
    || (a.actionId == b.actionId
        && (|| SlotRank(a.slot) < SlotRank(b.slot)
            || (a.slot == b.slot && a.occurrence < b.occurrence)))
  }

  /** An action's objects come before its events, and those before its gates. */
  lemma SlotsInOrder(actionId: nat, i: nat, j: nat)
    ensures RefLess(OutputRef(actionId, PaymentIntentOutput, i), OutputRef(actionId, EventOutput, j))
    ensures RefLess(OutputRef(actionId, EventOutput, i), OutputRef(actionId, ProviderGateOutput, j))
    ensures RefLess(OutputRef(actionId, EventOutput, i), OutputRef(actionId, EventOutput, j)) <==> i < j
  {
  }

  function LeastRef(refs: seq<OutputRef>): (r: OutputRef)
    requires refs != []
    ensures r in refs
  {
    if |refs| == 1 then refs[0]
    else
      var rest := LeastRef(refs[1..]);
      if RefLess(rest, refs[0]) then rest else refs[0]
  }

  lemma {:induction false} LeastRefIsLeast(refs: seq<OutputRef>, r: OutputRef)
    requires r in refs
    ensures r == LeastRef(refs) || RefLess(LeastRef(refs), r)
  {
    if |refs| > 1 && r != refs[0] {
      LeastRefIsLeast(refs[1..], r);
    }
  }

  /** The order of references is a strict total order, so a set of them has one listing. */
  lemma RefOrder(items: set<OutputRef>)
    ensures StrictOrderOn(RefLess, items)
  {
  }

  /** Which complaint a refusal makes: duplicates first, then the least stranger, then the least output not answered. */
  ghost predicate Refuses(expected: seq<OutputRef>, observed: seq<Capture>, error: CaptureError) {
    match error
    case DuplicateCapture(output) => FirstRepeat(observed, output)
    case UnexpectedCapture(output) =>
      && Distinct(Refs(observed)) && output in Refs(observed) && output !in expected
      && (forall r :: r in Refs(observed) && r !in expected ==> r == output || RefLess(output, r))
    case MissingCapture(output) =>
      && Distinct(Refs(observed)) && (forall r :: r in Refs(observed) ==> r in expected)
      && output !in Refs(observed) && LeastUnanswered(expected, observed, output)
    case CaptureTypeMismatch(output, actual) =>
      && Distinct(Refs(observed)) && (forall r :: r in Refs(observed) ==> r in expected)
      && (exists c :: c in observed && c.0 == output && c.1.Slot() == actual != output.slot)
      && LeastUnanswered(expected, observed, output)
  }

  ghost predicate LeastUnanswered(expected: seq<OutputRef>, observed: seq<Capture>, output: OutputRef) {
    && output in expected && !Answered(observed, output)
    && (forall r :: r in expected && !Answered(observed, r) ==> r == output || RefLess(output, r))
  }

  method IndexCaptures(observed: seq<Capture>) returns (result: Result<map<OutputRef, CapturedValue>, CaptureError>)
    ensures result.Ok? ==> Indexes(result.value, observed)
    ensures result.Err? ==> !Distinct(Refs(observed)) && result.error.DuplicateCapture?
                            && FirstRepeat(observed, result.error.output)
  {
    var byRef: map<OutputRef, CapturedValue> := map[];
    for i := 0 to |observed|
      invariant Indexes(byRef, observed[..i])
    {
      var (output, value) := observed[i];
      assert observed[..i + 1] == observed[..i] + [(output, value)];
      if output in byRef {
        assert (output, byRef[output]) in observed[..i];
        var j :| 0 <= j < i && observed[j] == (output, byRef[output]);
        assert Refs(observed)[j] == Refs(observed)[i];
        return Err(DuplicateCapture(output));
      }
      var before := Refs(observed[..i]);
      forall j | 0 <= j < |before| ensures before[j] != output {
        assert observed[..i][j].0 in byRef;
      }
      assert Refs(observed[..i + 1]) == before + [output];
      byRef := byRef[output := value];
    }
    assert observed[..|observed|] == observed;
    return Ok(byRef);
  }

  lemma IndexedRefs(byRef: map<OutputRef, CapturedValue>, observed: seq<Capture>, r: OutputRef)
    requires Indexes(byRef, observed)
    ensures r in byRef <==> r in Refs(observed)
  {
    if r in byRef {
      var i :| 0 <= i < |observed| && observed[i] == (r, byRef[r]);
      assert Refs(observed)[i] == r;
    }
  }

  /** The least reference that was captured but not expected. */
  method FindStranger(expected: seq<OutputRef>, refs: seq<OutputRef>) returns (stranger: Option<OutputRef>)
    ensures stranger.None? <==> forall r :: r in refs ==> r in expected
    ensures stranger.Some? ==>
      && stranger.value in refs && stranger.value !in expected
      && (forall r :: r in refs && r !in expected ==> r == stranger.value || RefLess(stranger.value, r))
  {
    hide RefLess;
    var strangers := Filter((r: OutputRef) => r !in expected, refs);
    if strangers == [] {
      forall r | r in refs ensures r in expected {
        assert r !in strangers;
      }
      return None;
    }
    forall r | r in strangers ensures r == LeastRef(strangers) || RefLess(LeastRef(strangers), r) {
      LeastRefIsLeast(strangers, r);
    }
    return Some(LeastRef(strangers));
  }

  /** The first output of an ordered list that is not answered is the least one. */
  lemma FirstUnansweredIsLeast(expected: seq<OutputRef>, observed: seq<Capture>, i: nat)
    requires StrictlyIncreasing(RefLess, expected) && i < |expected|
    requires !Answered(observed, expected[i]) && forall j :: 0 <= j < i ==> Answered(observed, expected[j])
    ensures LeastUnanswered(expected, observed, expected[i])
  {
    hide RefLess, Answered;
    forall r | r in expected && !Answered(observed, r) ensures r == expected[i] || RefLess(expected[i], r) {
      var k :| 0 <= k < |expected| && expected[k] == r;
      assert k < i || k == i || RefLess(expected[i], expected[k]);
    }
  }

  /** The captures in the expected order, or the first expected output not answered. */
  method CollectExpected(
    expected: seq<OutputRef>, ghost observed: seq<Capture>, byRef: map<OutputRef, CapturedValue>)
    returns (result: Result<seq<Capture>, CaptureError>)
    requires StrictlyIncreasing(RefLess, expected)
    requires Indexes(byRef, observed) && forall r :: r in Refs(observed) ==> r in expected
    ensures result.Ok? <==> Acceptable(expected, observed)
    ensures result.Ok? ==> Answers(expected, result.value) && forall c :: c in result.value ==> c in observed
    ensures result.Err? ==> Refuses(expected, observed, result.error)
  {
    hide RefLess;
    var captures: seq<Capture> := [];
    for i := 0 to |expected|
      invariant forall j :: 0 <= j < i ==> expected[j] in byRef && byRef[expected[j]].Slot() == expected[j].slot
      invariant |captures| == i
      invariant forall j :: 0 <= j < i ==> captures[j] == (expected[j], byRef[expected[j]])
    {
      var output := expected[i];
      if output !in byRef {
        IndexedRefs(byRef, observed, output);
        FirstUnansweredIsLeast(expected, observed, i);
        return Err(MissingCapture(output));
      }
      if byRef[output].Slot() != output.slot {
        assert (output, byRef[output]) in observed;
        FirstUnansweredIsLeast(expected, observed, i);
        return Err(CaptureTypeMismatch(output, byRef[output].Slot()));
      }
      captures := captures + [(output, byRef[output])];
    }
    assert Refs(captures) == expected;
    AllAnswered(expected, observed, byRef);
    return Ok(captures);
  }

  /** Captures for exactly the expected outputs in the order of references, each with a value of its own slot. */
  ghost predicate Listed(expected: seq<OutputRef>, captures: seq<Capture>) {
    IsListing(RefLess, expected, Refs(captures)) && forall c :: c in captures ==> c.1.Slot() == c.0.slot
  }

  /** When the expected outputs are already in order, that is one capture for each of them. */
  lemma ListedAnswers(expected: seq<OutputRef>, captures: seq<Capture>)
    requires StrictlyIncreasing(RefLess, expected) && Listed(expected, captures)
    ensures Answers(expected, captures)
  {
    hide RefLess;
    RefOrder(Elements(expected));
    ListingIsUnique(RefLess, expected, Refs(captures));
  }

  /** What is accepted, and what is complained about, depends on the set of expected outputs alone. */
  lemma OnlyTheSetMatters(expected: seq<OutputRef>, sorted: seq<OutputRef>, observed: seq<Capture>)
    requires Elements(sorted) == Elements(expected)
    ensures forall r :: r in sorted <==> r in expected
    ensures Acceptable(sorted, observed) <==> Acceptable(expected, observed)
    ensures forall error :: Refuses(sorted, observed, error) ==> Refuses(expected, observed, error)
  {
    hide RefLess, FirstRepeat, Refs, Distinct, Answered;
    forall r ensures r in sorted <==> r in expected {
      assert r in Elements(sorted) <==> r in Elements(expected);
    }
  }

  /** `expected` is taken as a set, and the captures come back in the order of references. */
  method ValidateCaptures(expected: seq<OutputRef>, observed: seq<Capture>)
    returns (result: Result<seq<Capture>, CaptureError>)
    ensures result.Ok? <==> Acceptable(expected, observed)
    ensures result.Ok? ==> Listed(expected, result.value) && forall c :: c in result.value ==> c in observed
    ensures result.Err? ==> Refuses(expected, observed, result.error)
  {
    hide RefLess, FirstRepeat, Refs, Distinct;
    RefOrder(Elements(expected));
    var sorted := SortDedup(RefLess, expected);
    OnlyTheSetMatters(expected, sorted, observed);
    var indexed := IndexCaptures(observed);
    if indexed.Err? {
      return Err(indexed.error);
    }
    var stranger := FindStranger(sorted, Refs(observed));
    if stranger.Some? {
      return Err(UnexpectedCapture(stranger.value));
    }
    result := CollectExpected(sorted, observed, indexed.value);
  }

  lemma AllAnswered(expected: seq<OutputRef>, observed: seq<Capture>, byRef: map<OutputRef, CapturedValue>)
    requires Indexes(byRef, observed) && forall r :: r in Refs(observed) ==> r in expected
    requires forall j :: 0 <= j < |expected| ==> expected[j] in byRef && byRef[expected[j]].Slot() == expected[j].slot
    ensures Acceptable(expected, observed)
  {
    forall r ensures r in Refs(observed) <==> r in expected {
      IndexedRefs(byRef, observed, r);
    }
    forall c | c in observed ensures c.1.Slot() == c.0.slot {
      var j :| 0 <= j < |observed| && observed[j] == c;
      assert Refs(observed)[j] in Refs(observed);
      var k :| 0 <= k < |expected| && expected[k] == c.0;
    }
  }

  // ---------- what one action needs from the two lists ----------

  lemma {:induction false} LaterOutputs(actions: seq<CompiledAction>)
    requires Owned(actions)
    ensures forall r :: r in RequiredOutputs(actions) ==> 1 <= r.actionId <= |actions|
  {
    if actions != [] { LaterOutputs(actions[..|actions| - 1]); }
  }

  /** Filtering the flat list by action recovers what that action declared. */
  lemma {:induction false} OutputsOfAction(actions: seq<CompiledAction>, i: nat)
    requires Owned(actions) && i < |actions|
    ensures Filter((r: OutputRef) => r.actionId == i + 1, RequiredOutputs(actions)) == actions[i].declared
  {
    hide Filter;
    var last := |actions| - 1;
    var keep := (r: OutputRef) => r.actionId == i + 1;
    var before := actions[..last];
    FilterConcat(keep, RequiredOutputs(before), actions[last].declared);
    if i < last {
      OutputsOfAction(before, i);
      FilterNone(keep, actions[last].declared);
    } else {
      LaterOutputs(before);
      FilterNone(keep, RequiredOutputs(before));
      FilterAll(keep, actions[last].declared);
    }
  }

  lemma {:induction false} InputsOfAction(actions: seq<CompiledAction>, b: InputBinding)
    requires Owned(actions) && b in RequiredInputs(actions)
    ensures 1 <= b.actionId <= |actions| && Input(b.slot, b.source) in actions[b.actionId - 1].inputs
  {
    var last := |actions| - 1;
    if b in BindingsOf(actions[last]) {
      MapMembers((input: Input) => InputBinding(actions[last].planned.id, input.slot, input.source),
                 actions[last].inputs, b);
    } else {
      InputsOfAction(actions[..last], b);
    }
  }

  lemma {:induction false} EarlierBindings(actions: seq<CompiledAction>)
    requires Owned(actions)
    ensures forall b :: b in RequiredInputs(actions) ==> b.actionId <= |actions|
  {
    if actions != [] {
      EarlierBindings(actions[..|actions| - 1]);
    }
  }

  /** Filtering the flat list by action recovers that action's own bindings, in order. */
  lemma {:induction false} BindingsOfAction(actions: seq<CompiledAction>, i: nat)
    requires Owned(actions) && i < |actions|
    ensures Filter((b: InputBinding) => b.actionId == i + 1, RequiredInputs(actions)) == BindingsOf(actions[i])
  {
    hide Filter;
    var last := |actions| - 1;
    var keep := (b: InputBinding) => b.actionId == i + 1;
    var before := actions[..last];
    FilterConcat(keep, RequiredInputs(before), BindingsOf(actions[last]));
    if i < last {
      BindingsOfAction(before, i);
      FilterNone(keep, BindingsOf(actions[last]));
    } else {
      EarlierBindings(before);
      FilterNone(keep, RequiredInputs(before));
      FilterAll(keep, BindingsOf(actions[last]));
    }
  }

  lemma {:induction false} DeclaredIsRequired(actions: seq<CompiledAction>, n: nat, source: OutputRef)
    requires Owned(actions) && n <= |actions| && DeclaredBefore(actions, n, source)
    ensures source in RequiredOutputs(actions[..n])
  {
    if source.actionId == n {
      assert actions[..n][..n - 1] == actions[..n - 1];
    } else {
      DeclaredIsRequired(actions, n - 1, source);
      assert actions[..n][..n - 1] == actions[..n - 1];
    }
  }

  // ---------- the run ----------

  function Intent(p: PlannedAction, index: nat): Record {
    Orchestrator(ActionIntent, p.id, 2 * index + 1)
  }

  function Outcome(p: PlannedAction, index: nat): Record {
    Orchestrator(ActionOutcome, p.id, 2 * index + 2)
  }

  /** Intent and outcome of every action, numbered consecutively from one. */
  function IdealRecords(planned: seq<PlannedAction>): (r: seq<Record>)
    ensures |r| == 2 * |planned|
    ensures forall k :: 0 <= k < |r| ==> r[k].Orchestrator? && r[k].sequence == k + 1
  {
    if planned == [] then []
    else
      var last := |planned| - 1;
      IdealRecords(planned[..last]) + [Intent(planned[last], last), Outcome(planned[last], last)]
  }

  lemma IdealExtends(planned: seq<PlannedAction>, n: nat)
    requires n < |planned|
    ensures IdealRecords(planned[..n + 1])
         == IdealRecords(planned[..n]) + [Intent(planned[n], n), Outcome(planned[n], n)]
  {
    assert planned[..n + 1][..n] == planned[..n];
  }

  lemma {:induction false} IdealPrefix(planned: seq<PlannedAction>, n: nat)
    requires n <= |planned|
    ensures IdealRecords(planned[..n]) <= IdealRecords(planned)
    ensures n < |planned| ==> IdealRecords(planned[..n]) + [Intent(planned[n], n)] <= IdealRecords(planned)
    decreases |planned| - n
  {
    if n < |planned| {
      IdealExtends(planned, n);
      IdealPrefix(planned, n + 1);
    } else {
      assert planned[..n] == planned;
    }
  }

  const U64_MAX: nat := 0xFFFF_FFFF_FFFF_FFFF

  function ObservationSequence(index: nat, offset: nat): Option<nat> {
    if 2 * index + offset > U64_MAX then None else Some(2 * index + offset)
  }

  /** Each effect ran with its own intent durable and every earlier action already closed. */
  ghost predicate IntentFirst(planned: seq<PlannedAction>, calls: seq<Call>) {
    && |calls| <= |planned|
    && forall i :: 0 <= i < |calls| ==>
         && calls[i].action == planned[i].kind
         && calls[i].durable == IdealRecords(planned[..i]) + [Intent(planned[i], i)]
  }

  ghost predicate Aligned(compiled: seq<CompiledAction>, planned: seq<PlannedAction>) {
    && |compiled| == |planned| <= MAX_ACTIONS_PER_CASE
    && (forall i :: 0 <= i < |planned| ==> compiled[i].planned == planned[i])
    && Owned(compiled) && InputsBound(compiled) && DeclaredAscend(compiled)
  }

  /** Where a run that has finished `index` actions stands. */
  ghost predicate Progress(
    compiled: seq<CompiledAction>, planned: seq<PlannedAction>, index: nat,
    orchestrated: seq<Record>, calls: seq<Call>, captured: seq<Capture>)
    requires index <= |compiled| == |planned|
  {
    && orchestrated == IdealRecords(planned[..index])
    && |calls| == index && IntentFirst(planned, calls)
    && Answers(RequiredOutputs(compiled[..index]), captured)
    && AllFed(compiled, calls, captured)
  }

  /** One value for each input of an action, the first captured under the output the input names. */
  ghost predicate InputsFed(c: CompiledAction, values: seq<(InputSlot, CapturedValue)>, captured: seq<Capture>) {
    && |values| == |c.inputs|
    && forall j :: 0 <= j < |values| ==>
         values[j].0 == c.inputs[j].slot && FirstCapture(captured, c.inputs[j].source, values[j].1)
  }

  lemma FedMeans(c: CompiledAction, values: seq<(InputSlot, CapturedValue)>, captured: seq<Capture>)
    requires Fed(BindingsOf(c), values, captured)
    ensures InputsFed(c, values, captured)
  {
    hide FirstCapture;
    assert forall j :: 0 <= j < |c.inputs| ==>
      BindingsOf(c)[j] == InputBinding(c.planned.id, c.inputs[j].slot, c.inputs[j].source);
  }

  /** Every effect received exactly the values captured under the outputs its inputs are bound to. */
  ghost predicate AllFed(compiled: seq<CompiledAction>, calls: seq<Call>, captured: seq<Capture>) {
    && |calls| <= |compiled|
    && forall i :: 0 <= i < |calls| ==> InputsFed(compiled[i], calls[i].inputs, captured)
  }

  lemma FedStays(
    compiled: seq<CompiledAction>, calls: seq<Call>, captured: seq<Capture>, call: Call, more: seq<Capture>)
    requires AllFed(compiled, calls, captured) && |calls| < |compiled|
    requires InputsFed(compiled[|calls|], call.inputs, captured)
    ensures AllFed(compiled, calls + [call], captured + more)
  {
    hide InputsFed;
    var longer := calls + [call];
    forall i | 0 <= i < |longer| ensures InputsFed(compiled[i], longer[i].inputs, captured + more) {
      FedGrows(compiled[i], longer[i].inputs, captured, more);
    }
  }

  lemma FedGrows(
    c: CompiledAction, values: seq<(InputSlot, CapturedValue)>, captured: seq<Capture>, more: seq<Capture>)
    requires InputsFed(c, values, captured)
    ensures InputsFed(c, values, captured + more)
  {
    hide FirstCapture;
    forall j | 0 <= j < |values| ensures FirstCapture(captured + more, c.inputs[j].source, values[j].1) {
      FirstStays(captured, more, c.inputs[j].source, values[j].1);
    }
  }

  /** What holds on every exit: a prefix of the ideal records, and no effect ahead of its intent. */
  ghost predicate Journaled(planned: seq<PlannedAction>, orchestrated: seq<Record>, calls: seq<Call>) {
    orchestrated <= IdealRecords(planned) && IntentFirst(planned, calls)
  }

  lemma ProgressIsJournaled(
    compiled: seq<CompiledAction>, planned: seq<PlannedAction>, index: nat,
    orchestrated: seq<Record>, calls: seq<Call>, captured: seq<Capture>)
    requires index <= |compiled| == |planned| && Progress(compiled, planned, index, orchestrated, calls, captured)
    ensures Journaled(planned, orchestrated, calls) && |calls| == index
    ensures index < |planned| ==> Journaled(planned, orchestrated + [Intent(planned[index], index)], calls)
  {
    IdealPrefix(planned, index);
  }

  lemma CallIsIntended(
    compiled: seq<CompiledAction>, planned: seq<PlannedAction>, index: nat,
    orchestrated: seq<Record>, calls: seq<Call>, captured: seq<Capture>, inputs: seq<(InputSlot, CapturedValue)>)
    requires index < |compiled| == |planned| && Progress(compiled, planned, index, orchestrated, calls, captured)
    ensures var intended := orchestrated + [Intent(planned[index], index)];
            var call := Call(planned[index].kind, inputs, intended);
            IntentFirst(planned, calls + [call]) && Journaled(planned, intended, calls + [call])
  {
    hide IdealRecords, Answers, AllFed, RequiredOutputs;
    IdealPrefix(planned, index);
  }

  // ---------- what outcomes and captured values rest on ----------

  /** The effect of action `i + 1` returned, and what it returned passes validation. */
  ghost predicate Earned(compiled: seq<CompiledAction>, respond: nat -> Response, i: nat) {
    i < |compiled| && respond(i).Returned? && Acceptable(compiled[i].declared, respond(i).captures)
  }

  /** Outcomes follow validated captures only: the effect of every recorded outcome ran and earned it. */
  ghost predicate OutcomesEarned(
    compiled: seq<CompiledAction>, orchestrated: seq<Record>, calls: seq<Call>, respond: nat -> Response)
  {
    forall r :: r in orchestrated && r.Orchestrator? && r.event.ActionOutcome? ==>
      1 <= r.actionId <= |calls| && Earned(compiled, respond, r.actionId - 1)
  }

  /** One value for each input of action `i + 1`, returned under the output it names by an earned earlier effect. */
  ghost predicate Supplied(
    compiled: seq<CompiledAction>, respond: nat -> Response, i: nat, values: seq<(InputSlot, CapturedValue)>)
    requires i < |compiled|
  {
    var inputs := compiled[i].inputs;
    && |values| == |inputs|
    && forall j :: 0 <= j < |inputs| ==>
         && values[j].0 == inputs[j].slot
         && FromEffect(compiled, i, respond, (inputs[j].source, values[j].1))
  }

  /** A capture among those its own action returned, with that action earned and among the first `n`. */
  ghost predicate FromEffect(compiled: seq<CompiledAction>, n: nat, respond: nat -> Response, c: Capture) {
    1 <= c.0.actionId <= n && Earned(compiled, respond, c.0.actionId - 1) && c in respond(c.0.actionId - 1).captures
  }

  /** What holds on every exit: outcomes are earned, and effects receive only what earlier effects returned. */
  ghost predicate Grounded(
    compiled: seq<CompiledAction>, orchestrated: seq<Record>, calls: seq<Call>, respond: nat -> Response)
  {
    && |calls| <= |compiled| && OutcomesEarned(compiled, orchestrated, calls, respond)
    && forall i :: 0 <= i < |calls| ==> Supplied(compiled, respond, i, calls[i].inputs)
  }

  /** The first `n` effects earned their outcomes, and every captured value is what its own effect returned. */
  ghost predicate Sourced(compiled: seq<CompiledAction>, n: nat, respond: nat -> Response, captured: seq<Capture>) {
    && (forall i :: 0 <= i < n ==> Earned(compiled, respond, i))
    && (forall c :: c in captured ==> FromEffect(compiled, n, respond, c))
  }

  lemma IntentIsGrounded(
    compiled: seq<CompiledAction>, orchestrated: seq<Record>, calls: seq<Call>, respond: nat -> Response, r: Record)
    requires Grounded(compiled, orchestrated, calls, respond) && r.Orchestrator? && r.event.ActionIntent?
    ensures Grounded(compiled, orchestrated + [r], calls, respond)
  {
    hide Supplied, Earned;
  }

  lemma OutcomeIsGrounded(
    compiled: seq<CompiledAction>, orchestrated: seq<Record>, calls: seq<Call>, respond: nat -> Response, r: Record)
    requires Grounded(compiled, orchestrated, calls, respond)
    requires r.Orchestrator? && r.actionId == |calls| > 0 && Earned(compiled, respond, |calls| - 1)
    ensures Grounded(compiled, orchestrated + [r], calls, respond)
  {
    hide Supplied, Earned;
  }

  lemma CallIsGrounded(
    compiled: seq<CompiledAction>, orchestrated: seq<Record>, calls: seq<Call>, respond: nat -> Response,
    captured: seq<Capture>, call: Call)
    requires Grounded(compiled, orchestrated, calls, respond) && Sourced(compiled, |calls|, respond, captured)
    requires |calls| < |compiled| && InputsFed(compiled[|calls|], call.inputs, captured)
    ensures Grounded(compiled, orchestrated, calls + [call], respond)
  {
    SuppliedFromCaptures(compiled, respond, |calls|, call.inputs, captured);
    hide Supplied, Earned, Sourced, InputsFed;
  }

  lemma SuppliedFromCaptures(
    compiled: seq<CompiledAction>, respond: nat -> Response, i: nat, values: seq<(InputSlot, CapturedValue)>,
    captured: seq<Capture>)
    requires i < |compiled| && Sourced(compiled, i, respond, captured) && InputsFed(compiled[i], values, captured)
    ensures Supplied(compiled, respond, i, values)
  {
    hide FromEffect;
    var inputs := compiled[i].inputs;
    forall j | 0 <= j < |inputs| ensures FromEffect(compiled, i, respond, (inputs[j].source, values[j].1)) {
      assert FirstCapture(captured, inputs[j].source, values[j].1);
      assert (inputs[j].source, values[j].1) in captured;
    }
  }

  lemma SourcedGrows(
    compiled: seq<CompiledAction>, n: nat, respond: nat -> Response, captured: seq<Capture>, more: seq<Capture>)
    requires Sourced(compiled, n, respond, captured) && Earned(compiled, respond, n)
    requires forall c :: c in more ==> c.0.actionId == n + 1 && c in respond(n).captures
    ensures Sourced(compiled, n + 1, respond, captured + more)
  {
    hide Earned;
  }

  lemma Positioned(compiled: seq<CompiledAction>, planned: seq<PlannedAction>, index: nat)
    requires Aligned(compiled, planned) && index < |compiled|
    ensures |compiled| == |planned| <= MAX_ACTIONS_PER_CASE
    ensures compiled[index].planned == planned[index] && planned[index].id == index + 1
    ensures MAX_ACTIONS_PER_CASE == 40 && U64_MAX > 100
    ensures ObservationSequence(index, 1) == Some(2 * index + 1) && ObservationSequence(index, 2) == Some(2 * index + 2)
    ensures Intent(planned[index], index) == Orchestrator(ActionIntent, index + 1, 2 * index + 1)
    ensures Outcome(planned[index], index) == Orchestrator(ActionOutcome, index + 1, 2 * index + 2)
  {
  }

  lemma ProgressGrows(
    compiled: seq<CompiledAction>, planned: seq<PlannedAction>, index: nat,
    orchestrated: seq<Record>, calls: seq<Call>, captured: seq<Capture>, call: Call, more: seq<Capture>)
    requires index < |compiled| == |planned| && Progress(compiled, planned, index, orchestrated, calls, captured)
    requires IntentFirst(planned, calls + [call])
    requires InputsFed(compiled[index], call.inputs, captured)
    requires Answers(compiled[index].declared, more)
    ensures Progress(compiled, planned, index + 1,
                     orchestrated + [Intent(planned[index], index)] + [Outcome(planned[index], index)],
                     calls + [call], captured + more)
  {
    IdealExtends(planned, index);
    ExtendAnswers(compiled, index, captured, more);
    FedStays(compiled, calls, captured, call, more);
    hide IdealRecords, Answers, RequiredOutputs, AllFed, InputsFed;
    var i, o := Intent(planned[index], index), Outcome(planned[index], index);
    assert orchestrated + [i] + [o] == orchestrated + [i, o];
  }

  /** Who is to blame for a failed run: the last append, the last effect, or what that effect returned. */
  ghost predicate Blamed(compiled: seq<CompiledAction>, cause: ExecutionCause, journal: Journal, adapter: EffectAdapter)
    reads journal, adapter
  {
    var last := |adapter.calls| - 1;
    match cause
    case JournalAppend => journal.appends > 0 && !journal.fate(journal.appends - 1).Durable?
    case Effect => 0 <= last < |compiled| && adapter.respond(last).Failed?
    case CaptureFault(error) =>
      && 0 <= last < |compiled| && adapter.respond(last).Returned?
      && !Acceptable(compiled[last].declared, adapter.respond(last).captures)
      && Refuses(compiled[last].declared, adapter.respond(last).captures, error)
    case MissingResolvedInput(_, _) => false
    case SequenceOverflow => false
  }

  lemma AppendIsBlamed(compiled: seq<CompiledAction>, journal: Journal, adapter: EffectAdapter)
    requires journal.appends > 0 && !journal.fate(journal.appends - 1).Durable?
    ensures Blamed(compiled, JournalAppend, journal, adapter)
  {
  }

  /** Inputs of an aligned run always resolve. */
  method InputsOf(compiled: seq<CompiledAction>, ghost planned: seq<PlannedAction>, index: nat, captured: seq<Capture>,
                  ghost orchestrated: seq<Record>, ghost calls: seq<Call>)
    returns (result: Result<seq<(InputSlot, CapturedValue)>, ExecutionCause>)
    requires index < |compiled| == |planned| && Aligned(compiled, planned)
    requires Progress(compiled, planned, index, orchestrated, calls, captured)
    ensures result.Ok? && InputsFed(compiled[index], result.value, captured)
  {
    InputsAreCaptured(compiled, index, captured);
    assert compiled[index].planned.id == index + 1;
    BindingsOfAction(compiled, index);
    result := ResolveInputs(compiled[index].planned.id, RequiredInputs(compiled), captured);
    FedMeans(compiled[index], result.value, captured);
  }

  lemma AnswersAreOwned(compiled: seq<CompiledAction>, index: nat, captures: seq<Capture>)
    requires index < |compiled| && Owned(compiled) && Answers(compiled[index].declared, captures)
    ensures forall c :: c in captures ==> c.0.actionId == index + 1
  {
    forall c | c in captures ensures c.0.actionId == index + 1 {
      var j :| 0 <= j < |captures| && captures[j] == c;
      assert Refs(captures)[j] == c.0;
      assert c.0 in compiled[index].declared;
    }
  }

  /** The effect of one action and the validation of what it returned. */
  method EffectOf(compiled: seq<CompiledAction>, ghost planned: seq<PlannedAction>, index: nat,
                  inputs: seq<(InputSlot, CapturedValue)>, journal: Journal, adapter: EffectAdapter)
    returns (result: Result<seq<Capture>, ExecutionCause>)
    requires index < |compiled| == |planned| && Aligned(compiled, planned) && |adapter.calls| == index
    modifies journal, adapter
    ensures OrchestratorOnly(journal.records) == old(OrchestratorOnly(journal.records))
    ensures adapter.calls
         == old(adapter.calls) + [Call(planned[index].kind, inputs, old(OrchestratorOnly(journal.records)))]
    ensures result.Ok? ==>
      && Answers(compiled[index].declared, result.value) && Earned(compiled, adapter.respond, index)
      && forall c :: c in result.value ==> c.0.actionId == index + 1 && c in adapter.respond(index).captures
    ensures result.Err? ==> Blamed(compiled, result.error, journal, adapter)
  {
    var p := compiled[index].planned;
    assert p.id == index + 1;
    OutputsOfAction(compiled, index);
    var expected := Filter((r: OutputRef) => r.actionId == p.id, RequiredOutputs(compiled));
    hide OrchestratorOnly, Answers, Acceptable, Aligned, StrictlyIncreasing, Listed, Refuses;
    var observed := adapter.Execute(p, inputs, journal);
    if observed.None? {
      return Err(Effect);
    }
    var validated := ValidateCaptures(expected, observed.value);
    if validated.Err? {
      return Err(CaptureFault(validated.error));
    }
    ListedAnswers(compiled[index].declared, validated.value);
    AnswersAreOwned(compiled, index, validated.value);
    return Ok(validated.value);
  }

  /** One action: resolve, journal the intent, run the effect, validate, journal the outcome. */
  method RunAction(compiled: seq<CompiledAction>, ghost planned: seq<PlannedAction>, index: nat, captured: seq<Capture>,
                   journal: Journal, adapter: EffectAdapter)
    returns (result: Result<seq<Capture>, ExecutionCause>)
    requires index < |compiled| == |planned| && Aligned(compiled, planned)
    requires Progress(compiled, planned, index, OrchestratorOnly(journal.records), adapter.calls, captured)
    requires Grounded(compiled, OrchestratorOnly(journal.records), adapter.calls, adapter.respond)
    requires Sourced(compiled, index, adapter.respond, captured)
    modifies journal, adapter
    ensures Journaled(planned, OrchestratorOnly(journal.records), adapter.calls)
    ensures Grounded(compiled, OrchestratorOnly(journal.records), adapter.calls, adapter.respond)
    ensures result.Ok? ==>
      && Progress(compiled, planned, index + 1, OrchestratorOnly(journal.records), adapter.calls, result.value)
      && Sourced(compiled, index + 1, adapter.respond, result.value)
    ensures result.Err? ==> Blamed(compiled, result.error, journal, adapter)
  {
    hide *;
    Positioned(compiled, planned, index);
    var p := compiled[index].planned;
    ghost var before, calls := OrchestratorOnly(journal.records), adapter.calls;
    ProgressIsJournaled(compiled, planned, index, before, calls, captured);
    var resolved := InputsOf(compiled, planned, index, captured, before, calls);
    var inputs := [];
    match resolved {
      case Err(cause) => return Err(cause);
      case Ok(values) => inputs := values;
    }
    ghost var intended := before + [Intent(p, index)];
    ghost var call := Call(p.kind, inputs, intended);
    CallIsIntended(compiled, planned, index, before, calls, captured, inputs);
    IntentIsGrounded(compiled, before, calls, adapter.respond, Intent(p, index));
    CallIsGrounded(compiled, intended, calls, adapter.respond, captured, call);
    var intentSequence := ObservationSequence(index, 1);
    if intentSequence.None? {
      return Err(SequenceOverflow);
    }
    OrchestratorAppend(journal.records, Intent(p, index));
    var ok := journal.Append(Orchestrator(ActionIntent, p.id, intentSequence.value));
    if !ok {
      AppendIsBlamed(compiled, journal, adapter);
      return Err(JournalAppend);
    }
    var more := EffectOf(compiled, planned, index, inputs, journal, adapter);
    if more.Err? {
      return Err(more.error);
    }
    var outcomeSequence := ObservationSequence(index, 2);
    if outcomeSequence.None? {
      return Err(SequenceOverflow);
    }
    ProgressGrows(compiled, planned, index, before, calls, captured, call, more.value);
    ProgressIsJournaled(
      compiled, planned, index + 1, intended + [Outcome(p, index)], calls + [call], captured + more.value);
    OutcomeIsGrounded(compiled, intended, calls + [call], adapter.respond, Outcome(p, index));
    SourcedGrows(compiled, index, adapter.respond, captured, more.value);
    OrchestratorAppend(journal.records, Outcome(p, index));
    ok := journal.Append(Orchestrator(ActionOutcome, p.id, outcomeSequence.value));
    if !ok {
      AppendIsBlamed(compiled, journal, adapter);
      return Err(JournalAppend);
    }
    return Ok(captured + more.value);
  }

  lemma NothingHasRun(compiled: seq<CompiledAction>, planned: seq<PlannedAction>, respond: nat -> Response)
    requires |compiled| == |planned|
    ensures Progress(compiled, planned, 0, [], [], [])
    ensures Grounded(compiled, [], [], respond) && Sourced(compiled, 0, respond, [])
    ensures OrchestratorOnly([]) == []
  {
  }

  lemma EverythingHasRun(
    compiled: seq<CompiledAction>, planned: seq<PlannedAction>, orchestrated: seq<Record>, calls: seq<Call>,
    captured: seq<Capture>)
    requires |compiled| == |planned| && Progress(compiled, planned, |planned|, orchestrated, calls, captured)
    ensures orchestrated == IdealRecords(planned) && |calls| == |planned|
    ensures Answers(RequiredOutputs(compiled), captured) && AllFed(compiled, calls, captured)
  {
    hide IdealRecords, Answers, RequiredOutputs, AllFed, IntentFirst;
    assert compiled[..|compiled|] == compiled && planned[..|planned|] == planned;
  }

  lemma JournaledMeans(planned: seq<PlannedAction>, orchestrated: seq<Record>, calls: seq<Call>)
    requires Journaled(planned, orchestrated, calls)
    ensures orchestrated <= IdealRecords(planned) && IntentFirst(planned, calls)
  {
  }

  /**
   Runs every action in order. On every exit, successful or not, the orchestrator's records are a
   prefix of the ideal sequence, no effect ran ahead of its intent, every recorded outcome was earned
   by captures that passed validation, and every input is a value an earlier effect returned. A failure
   is always that of the last append, of the last effect, or of its captures: never a missing input or
   an overflow.
   */
  method RunActions(compiled: seq<CompiledAction>, ghost planned: seq<PlannedAction>,
                    journal: Journal, adapter: EffectAdapter)
    returns (result: Result<seq<Capture>, ExecutionCause>)
    requires Aligned(compiled, planned)
    requires journal.records == [] && adapter.calls == []
    modifies journal, adapter
    ensures OrchestratorOnly(journal.records) <= IdealRecords(planned)
    ensures IntentFirst(planned, adapter.calls)
    ensures Grounded(compiled, OrchestratorOnly(journal.records), adapter.calls, adapter.respond)
    ensures result.Ok? ==>
      && OrchestratorOnly(journal.records) == IdealRecords(planned)
      && |adapter.calls| == |planned|
      && Answers(RequiredOutputs(compiled), result.value)
      && AllFed(compiled, adapter.calls, result.value)
      && Sourced(compiled, |planned|, adapter.respond, result.value)
    ensures result.Err? ==> Blamed(compiled, result.error, journal, adapter)
  {
    var captured: seq<Capture> := [];
    assert |compiled| == |planned|;
    hide *;
    NothingHasRun(compiled, planned, adapter.respond);
    for index := 0 to |compiled|
      invariant Progress(compiled, planned, index, OrchestratorOnly(journal.records), adapter.calls, captured)
      invariant Grounded(compiled, OrchestratorOnly(journal.records), adapter.calls, adapter.respond)
      invariant Sourced(compiled, index, adapter.respond, captured)
    {
      var step := RunAction(compiled, planned, index, captured, journal, adapter);
      JournaledMeans(planned, OrchestratorOnly(journal.records), adapter.calls);
      if step.Err? {
        return Err(step.error);
      }
      captured := step.value;
    }
    ProgressIsJournaled(
      compiled, planned, |planned|, OrchestratorOnly(journal.records), adapter.calls, captured);
    JournaledMeans(planned, OrchestratorOnly(journal.records), adapter.calls);
    EverythingHasRun(compiled, planned, OrchestratorOnly(journal.records), adapter.calls, captured);
    return Ok(captured);
  }

  /** Every input of action `index` names an output that earlier actions have already captured. */
  lemma InputsAreCaptured(compiled: seq<CompiledAction>, index: nat, captured: seq<Capture>)
    requires Owned(compiled) && InputsBound(compiled) && index < |compiled|
    requires Answers(RequiredOutputs(compiled[..index]), captured)
    ensures forall b :: b in RequiredInputs(compiled) && b.actionId == compiled[index].planned.id ==>
      b.source in Refs(captured)
  {
    forall b | b in RequiredInputs(compiled) && b.actionId == index + 1 ensures b.source in Refs(captured) {
      InputsOfAction(compiled, b);
      assert InputsBoundAt(compiled, index);
      DeclaredIsRequired(compiled, index, b.source);
    }
  }

  lemma ExtendAnswers(compiled: seq<CompiledAction>, index: nat, captured: seq<Capture>, more: seq<Capture>)
    requires index < |compiled|
    requires Answers(RequiredOutputs(compiled[..index]), captured) && Answers(compiled[index].declared, more)
    ensures Answers(RequiredOutputs(compiled[..index + 1]), captured + more)
  {
    assert compiled[..index + 1][..index] == compiled[..index];
    assert Refs(captured + more) == Refs(captured) + Refs(more);
  }

  // ---------- binding the captures of a finished run ----------

  /** The final binding accepts captures exactly when they answer the declared outputs one for one. */
  method BindCaseCaptures(compiled: seq<CompiledAction>, captured: seq<Capture>)
    returns (result: Result<seq<Capture>, CaptureError>)
    ensures result.Ok? <==> Acceptable(RequiredOutputs(compiled), captured)
    ensures result.Ok? ==>
      Listed(RequiredOutputs(compiled), result.value) && forall c :: c in result.value ==> c in captured
    ensures result.Err? ==> Refuses(RequiredOutputs(compiled), captured, result.error)
  {
    result := ValidateCaptures(RequiredOutputs(compiled), captured);
  }

  // ---------- declared outputs are in order ----------

  /** Every action lists its own outputs in the order of references. */
  ghost predicate DeclaredAscend(actions: seq<CompiledAction>) {
    forall i :: 0 <= i < |actions| ==> StrictlyIncreasing(RefLess, actions[i].declared)
  }

  lemma {:induction false} CommittedRefsAscend(id: nat, outcomes: seq<ProviderOutcome>, n: nat)
    requires n <= |outcomes|
    ensures StrictlyIncreasing(RefLess, CommittedRefs(id, outcomes, n))
  {
    if n > 0 {
      CommittedRefsAscend(id, outcomes, n - 1);
      CommittedRefsShape(id, outcomes, n - 1);
    }
  }

  lemma BoundAscends(b: Bindings, id: nat, kind: Action)
    requires BindAction(b, id, kind).Ok?
    ensures StrictlyIncreasing(RefLess, BindAction(b, id, kind).value.declared)
  {
    if HasScript(kind) {
      CommittedRefsAscend(id, kind.script.Outcomes(), |kind.script.Outcomes()|);
      CommittedRefsShape(id, kind.script.Outcomes(), |kind.script.Outcomes()|);
      hide CommittedRefs;
    }
  }

  lemma {:induction false} MaterializedAscends(planned: seq<PlannedAction>)
    requires Materialize(planned).Ok?
    ensures DeclaredAscend(Materialize(planned).value.actions)
  {
    hide BindAction, StrictlyIncreasing;
    if planned != [] {
      var n := |planned| - 1;
      MaterializedAscends(planned[..n]);
      BoundAscends(Materialize(planned[..n]).value.bindings, planned[n].id, planned[n].kind);
    }
  }

  lemma AscendingConcat(earlier: seq<OutputRef>, later: seq<OutputRef>, n: nat)
    requires StrictlyIncreasing(RefLess, earlier) && StrictlyIncreasing(RefLess, later)
    requires forall r :: r in earlier ==> r.actionId <= n
    requires forall r :: r in later ==> r.actionId > n
    ensures StrictlyIncreasing(RefLess, earlier + later)
  {
    var s := earlier + later;
    forall i, j | 0 <= i < j < |s| ensures RefLess(s[i], s[j]) {
      if i < |earlier| <= j {
        assert s[i] in earlier && s[j] in later;
      }
    }
  }

  /** The flat list of required outputs is in the order of references: as a set, it would be listed the same way. */
  lemma {:induction false} RequiredOutputsAscend(actions: seq<CompiledAction>)
    requires Owned(actions) && DeclaredAscend(actions)
    ensures StrictlyIncreasing(RefLess, RequiredOutputs(actions))
  {
    hide StrictlyIncreasing;
    if actions == [] {
      assert StrictlyIncreasing(RefLess, RequiredOutputs(actions)) by { NothingAscends(); }
    } else {
      var n := |actions| - 1;
      RequiredOutputsAscend(actions[..n]);
      LaterOutputs(actions[..n]);
      AscendingConcat(RequiredOutputs(actions[..n]), actions[n].declared, n);
    }
  }

  lemma NothingAscends()
    ensures StrictlyIncreasing(RefLess, [])
  {
  }

  lemma AscendingIsDistinct(refs: seq<OutputRef>)
    requires StrictlyIncreasing(RefLess, refs)
    ensures Distinct(refs)
  {
    forall i, j | 0 <= i < j < |refs| ensures refs[i] != refs[j] {
      assert RefLess(refs[i], refs[j]);
    }
  }

  /** What the executor requires of a materialised plan, whichever plan it was. */
  lemma MaterializedOutputsAscend(planned: seq<PlannedAction>)
    requires NumberedFromOne(planned) && Materialize(planned).Ok?
    ensures var actions := Materialize(planned).value.actions;
            && DeclaredAscend(actions) && StrictlyIncreasing(RefLess, RequiredOutputs(actions))
            && Distinct(RequiredOutputs(actions))
  {
    hide *;
    MaterializedIsSound(planned);
    MaterializedAscends(planned);
    RequiredOutputsAscend(Materialize(planned).value.actions);
    AscendingIsDistinct(RequiredOutputs(Materialize(planned).value.actions));
  }

  // ---------- a whole case ----------

  /** What the executor and the materialiser need of a plan. */
  predicate Executable(spec: Spec, legacy: bool, planned: seq<PlannedAction>) {
    && ValidSpec(spec) && Feasible(spec, legacy, Kinds(planned))
    && NumberedFromOne(planned) && |planned| <= MAX_ACTIONS_PER_CASE
  }

  /** An executable plan materialises, and the compiled list carries it action by action. */
  lemma ExecutableIsAligned(spec: Spec, legacy: bool, planned: seq<PlannedAction>)
    requires Executable(spec, legacy, planned)
    ensures Materialize(planned).Ok? && Aligned(Materialize(planned).value.actions, planned)
    ensures StrictlyIncreasing(RefLess, RequiredOutputs(Materialize(planned).value.actions))
  {
    hide Materialize, Run;
    RunSimulates(spec, legacy, planned);
    MaterializedIsSound(planned);
    MaterializedOutputsAscend(planned);
    hide DeclaredAscend;
  }

  /** Captures that answer distinct outputs one for one are what the final binding accepts. */
  lemma AnswersBind(expected: seq<OutputRef>, captured: seq<Capture>)
    requires Distinct(expected) && Answers(expected, captured)
    ensures Acceptable(expected, captured)
  {
  }

  lemma SameAnswers(expected: seq<OutputRef>, captured: seq<Capture>, bound: seq<Capture>)
    requires Distinct(expected) && Answers(expected, captured) && Answers(expected, bound)
    requires forall c :: c in bound ==> c in captured
    ensures bound == captured
  {
    hide *;
    AnswersAreAligned(expected, captured);
    AnswersAreAligned(expected, bound);
    forall i | 0 <= i < |bound| ensures bound[i] == captured[i] {
      assert bound[i] in captured;
      var j :| 0 <= j < |captured| && captured[j] == bound[i];
      assert expected[j] == captured[j].0 == bound[i].0 == expected[i];
      SameIndex(expected, i, j);
    }
  }

  lemma SameIndex(expected: seq<OutputRef>, i: nat, j: nat)
    requires Distinct(expected) && i < |expected| && j < |expected| && expected[i] == expected[j]
    ensures i == j
  {
  }

  lemma AnswersAreAligned(expected: seq<OutputRef>, captured: seq<Capture>)
    requires Answers(expected, captured)
    ensures |captured| == |expected| && forall i :: 0 <= i < |expected| ==> captured[i].0 == expected[i]
  {
    assert |Refs(captured)| == |captured|;
  }

  /** The final binding of what a run captured: it always accepts, and keeps every capture in its place. */
  method BindExecuted(compiled: seq<CompiledAction>, captured: seq<Capture>)
    returns (result: Result<seq<Capture>, CaptureError>)
    requires StrictlyIncreasing(RefLess, RequiredOutputs(compiled)) && Answers(RequiredOutputs(compiled), captured)
    ensures result == Ok(captured)
  {
    AscendingIsDistinct(RequiredOutputs(compiled));
    AnswersBind(RequiredOutputs(compiled), captured);
    hide Answers, Acceptable, Distinct, RequiredOutputs, StrictlyIncreasing, Listed;
    result := BindCaseCaptures(compiled, captured);
    ListedAnswers(RequiredOutputs(compiled), result.value);
    SameAnswers(RequiredOutputs(compiled), captured, result.value);
  }

  datatype CaseTrace = CaseTrace(actions: seq<CompiledAction>, captured: seq<Capture>)

  datatype CaseFailure =
    | InvalidPlan
    | Unmaterializable(reason: MaterializationError)
    | ExecutionFailed(cause: ExecutionCause)
    | BindingFailed(error: CaptureError)
    | FinalizationFailed

  /**
   The journal and the effects of a case, whatever became of it: no effect ahead of its intent, no
   outcome but after captures that passed validation, no input but what an earlier effect returned.
   */
  ghost predicate JournalFirst(planned: seq<PlannedAction>, journal: Journal, adapter: EffectAdapter)
    reads journal, adapter
  {
    && OrchestratorOnly(journal.records) <= IdealRecords(planned) && IntentFirst(planned, adapter.calls)
    && (Materialize(planned).Ok? ==>
          Grounded(Materialize(planned).value.actions, OrchestratorOnly(journal.records), adapter.calls,
                   adapter.respond))
  }

  /** A finished case: every record written, every effect fed, every capture bound as its effect returned it. */
  ghost predicate Completed(planned: seq<PlannedAction>, trace: CaseTrace, journal: Journal, adapter: EffectAdapter)
    reads journal, adapter
  {
    && Materialize(planned).Ok? && trace.actions == Materialize(planned).value.actions
    && OrchestratorOnly(journal.records) == IdealRecords(planned)
    && |adapter.calls| == |planned|
    && Answers(RequiredOutputs(trace.actions), trace.captured)
    && AllFed(trace.actions, adapter.calls, trace.captured)
    && Sourced(trace.actions, |planned|, adapter.respond, trace.captured)
  }

  /** The failures that remain: of the final sync, or of an append, an effect or its captures. */
  ghost predicate OutsideFailed(
    planned: seq<PlannedAction>, failure: CaseFailure, journal: Journal, adapter: EffectAdapter, synced: bool)
    reads journal, adapter
  {
    match failure
    case FinalizationFailed => !synced && OrchestratorOnly(journal.records) == IdealRecords(planned)
    case ExecutionFailed(cause) =>
      Materialize(planned).Ok? && Blamed(Materialize(planned).value.actions, cause, journal, adapter)
    case InvalidPlan => false
    case Unmaterializable(_) => false
    case BindingFailed(_) => false
  }

  lemma CaseCompletes(
    planned: seq<PlannedAction>, compiled: seq<CompiledAction>, captured: seq<Capture>, journal: Journal,
    adapter: EffectAdapter)
    requires Materialize(planned).Ok? && compiled == Materialize(planned).value.actions
    requires OrchestratorOnly(journal.records) == IdealRecords(planned) && |adapter.calls| == |planned|
    requires Answers(RequiredOutputs(compiled), captured) && AllFed(compiled, adapter.calls, captured)
    requires Sourced(compiled, |planned|, adapter.respond, captured)
    ensures Completed(planned, CaseTrace(compiled, captured), journal, adapter)
  {
  }

  /** The run of one materialised case, up to its journal. */
  method RunCase(
    compiled: seq<CompiledAction>, ghost planned: seq<PlannedAction>, journal: Journal, adapter: EffectAdapter)
    returns (result: Result<CaseTrace, CaseFailure>)
    requires Materialize(planned).Ok? && compiled == Materialize(planned).value.actions
    requires Aligned(compiled, planned) && StrictlyIncreasing(RefLess, RequiredOutputs(compiled))
    requires journal.records == [] && adapter.calls == []
    modifies journal, adapter
    ensures JournalFirst(planned, journal, adapter)
    ensures result.Ok? ==> Completed(planned, result.value, journal, adapter)
    ensures result.Err? ==>
      result.error.ExecutionFailed? && Blamed(compiled, result.error.cause, journal, adapter)
  {
    hide Aligned, Materialize, Blamed, IntentFirst, AllFed, Answers, Completed, OrchestratorOnly, IdealRecords,
      StrictlyIncreasing, Grounded, Sourced;
    var execution := RunActions(compiled, planned, journal, adapter);
    match execution {
      case Err(cause) => return Err(ExecutionFailed(cause));
      case Ok(captured) =>
        var bound := BindExecuted(compiled, captured);
        match bound {
          case Err(e) => return Err(BindingFailed(e));
          case Ok(values) =>
            CaseCompletes(planned, compiled, values, journal, adapter);
            return Ok(CaseTrace(compiled, values));
        }
    }
  }

  lemma RunIsBlamed(
    planned: seq<PlannedAction>, failure: CaseFailure, journal: Journal, adapter: EffectAdapter, synced: bool)
    requires failure.ExecutionFailed? && Materialize(planned).Ok?
    requires Blamed(Materialize(planned).value.actions, failure.cause, journal, adapter)
    ensures OutsideFailed(planned, failure, journal, adapter, synced)
  {
  }

  lemma SyncIsBlamed(planned: seq<PlannedAction>, trace: CaseTrace, journal: Journal, adapter: EffectAdapter)
    requires Completed(planned, trace, journal, adapter)
    ensures OutsideFailed(planned, FinalizationFailed, journal, adapter, false)
  {
  }

  /**
   Materialises, runs and binds one case. For an executable plan only an append, an effect, what an
   effect returned, or the final sync can fail: no source is missing, no input is unresolved, and
   the final binding accepts what was captured.
   */
  method ExecuteCaseActions(
    planned: seq<PlannedAction>, ghost spec: Spec, ghost legacy: bool, journal: Journal, adapter: EffectAdapter,
    synced: bool)
    returns (result: Result<CaseTrace, CaseFailure>)
    requires Executable(spec, legacy, planned)
    requires journal.records == [] && adapter.calls == []
    modifies journal, adapter
    ensures JournalFirst(planned, journal, adapter)
    ensures result.Ok? ==> synced && Completed(planned, result.value, journal, adapter)
    ensures result.Err? ==> OutsideFailed(planned, result.error, journal, adapter, synced)
  {
    ExecutableIsAligned(spec, legacy, planned);
    hide *;
    var materialized := MaterializeCaseActions(planned);
    match materialized {
      case Err(e) => return Err(Unmaterializable(e));
      case Ok(compiled) =>
        result := RunCase(compiled, planned, journal, adapter);
        match result {
          case Err(e) => RunIsBlamed(planned, e, journal, adapter, synced);
          case Ok(trace) =>
            SyncIsBlamed(planned, trace, journal, adapter);
            if !synced { return Err(FinalizationFailed); }
        }
    }
  }
}
