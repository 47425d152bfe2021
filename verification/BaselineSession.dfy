/** One reset of an attested session, with the customer's services stopped around it. */
module BaselineSession {
  import opened Wrappers
  import opened Catalog
  import opened BaselineAttestation
  import opened BaselineReset

  /** The case name holds what it held before, the exact original, or the attested replacement. */
  ghost predicate Trusted(start: Databases, catalog: Databases, backup: Name, uuid: nat) {
    || SameButAttest(start, catalog)
    || (CaseName in start && BaselineName in start
        && (Restored(start, catalog, backup) || Committed(start, catalog, backup, uuid)))
  }

  /** One call on the services, with the number of statements run before it and the catalog it found. */
  datatype ServiceEvent =
    | Stopped(ok: bool, at: nat, catalog: Databases)
    | Started(ok: bool, at: nat, catalog: Databases)

  /** The services that use the case database; starting and stopping may fail part-way. */
  class Services {
    var calls: nat
    ghost var events: seq<ServiceEvent>
    /** Whether some service may be running: only a stop that succeeds rules it out. */
    ghost var running: bool
    const works: nat -> bool

    constructor (works: nat -> bool)
      ensures events == [] && running
    {
      this.works := works;
      calls, events, running := 0, [], true;
    }

    method Stop(ghost server: Server) returns (ok: bool)
      modifies this
      ensures calls == old(calls) + 1 && (ok <==> works(old(calls)))
      ensures events == old(events) + [Stopped(ok, |server.history|, server.catalog)]
      ensures running == (old(running) && !ok)
    {
      ok := works(calls);
      calls := calls + 1;
      events, running := events + [Stopped(ok, |server.history|, server.catalog)], running && !ok;
    }

    /** Demands a case the services may be let loose on. */
    method Start(ghost server: Server, ghost start: Databases, ghost backup: Name, ghost uuid: nat) returns (ok: bool)
      requires Trusted(start, server.catalog, backup, uuid)
      modifies this
      ensures calls == old(calls) + 1 && (ok <==> works(old(calls)))
      ensures events == old(events) + [Started(ok, |server.history|, server.catalog)]
      ensures running
    {
      ok := works(calls);
      calls := calls + 1;
      events, running := events + [Started(ok, |server.history|, server.catalog)], true;
    }
  }

  /**
   The service calls of one reset, which found `start` after `from` statements: a stop before the
   first statement, then at most one start. A stop that fails is followed by the start at once, and
   every statement after the start left the catalog as the start found it. So whatever changed the
   catalog ran while the services were stopped.
   */
  ghost predicate Bracketed(
    events: seq<ServiceEvent>, from: nat, start: Databases, history: seq<Databases>, catalog: Databases)
  {
    && 1 <= |events| <= 2
    && events[0] == Stopped(events[0].ok, from, start)
    && (!events[0].ok ==> |events| == 2 && |history| == from && catalog == start)
    && (|events| == 2 ==>
          && events[1] == Started(events[1].ok, events[1].at, catalog)
          && from <= events[1].at <= |history|
          && (!events[0].ok ==> events[1].at == from)
          && forall k :: events[1].at <= k < |history| ==> history[k] == catalog)
  }

  /** Whether the running container is still the attested one. */
  method AttestContainer(server: Server, same: bool) returns (result: Result<(), BaselineError>)
    requires server.Valid()
    modifies server`clock, server`history
    ensures server.clock >= old(server.clock) && server.history == old(server.history) + [server.catalog]
    ensures result.Err? ==> !result.error.CaseDatabaseRecoveryFailed?
    ensures result.Ok? ==> same
    ensures server.CleanBetween(old(server.clock), server.clock) ==> (result.Ok? <==> same)
    ensures server.CleanBetween(old(server.clock), server.clock) && !same ==> result == Err(PostgresContainerChanged)
  {
    var ok := server.Execute();
    if !ok { return Err(StatementFailed); }
    return if same then Ok(()) else Err(PostgresContainerChanged);
  }

  /** What the session recorded still holds. */
  ghost predicate SessionHolds(start: Databases, admin: nat, target: Identity, baseline: Identity) {
    && Begins(start, admin)
    && target == CaseIdentity(start[CaseName]) && baseline == CaseIdentity(start[BaselineName])
  }

  /** It still holds, and the names the reset needs are free. */
  ghost predicate StillAttested(
    start: Databases, admin: nat, target: Identity, baseline: Identity, backup: Name, attest: Name, attestAgain: Name)
  {
    && SessionHolds(start, admin, target, baseline)
    && backup !in start && attest !in start && attestAgain !in start
  }

  /** What a session finds wrong first, when no statement fails. */
  function SessionFinding(
    start: Databases, admin: nat, target: Identity, baseline: Identity, sameContainer: bool, attest: Name)
    : BaselineError
  {
    if !sameContainer then PostgresContainerChanged
    else
      match CaseFinding(start, admin)
      case Err(e) => e
      case Ok(found) =>
        if found != target then SafetyMismatch
        else
          match BaselineFinding(start, admin, attest)
          case Err(e) => e
          case Ok(_) => BaselineIdentityMismatch
  }

  /** Re-attests container, case and baseline; nothing but an attestation copy changes. */
  method AttestSession(server: Server, target: Identity, baseline: Identity, sameContainer: bool, attest: Name)
    returns (result: Result<(), BaselineError>)
    requires server.Valid() && attest.Attest?
    modifies server
    ensures server.Valid() && server.clock >= old(server.clock) && old(server.history) <= server.history
    ensures SameButAttest(old(server.catalog), server.catalog)
    ensures QuietSince(old(server.catalog), server.history, |old(server.history)|)
    ensures result.Ok? ==>
      && sameContainer && server.catalog == old(server.catalog) && attest !in server.catalog
      && Begins(server.catalog, server.admin)
      && CaseIdentity(server.catalog[CaseName]) == target && CaseIdentity(server.catalog[BaselineName]) == baseline
    ensures result.Err? ==> !result.error.CaseDatabaseRecoveryFailed?
    ensures server.CleanBetween(old(server.clock), server.clock) ==>
      (result.Ok? <==> sameContainer && SessionHolds(old(server.catalog), server.admin, target, baseline)
                       && attest !in old(server.catalog))
    ensures server.CleanBetween(old(server.clock), server.clock) && result.Err? ==>
      result.error == SessionFinding(old(server.catalog), server.admin, target, baseline, sameContainer, attest)
  {
    ghost var start := server.catalog;
    SameIsReflexive(start);
    hide DistinctOids, SameButAttest;
    var container := AttestContainer(server, sameContainer);
    if container.Err? { return Err(container.error); }
    var observed := ObserveCaseIdentity(server);
    if observed.Err? { return Err(observed.error); }
    if observed.value != target { return Err(SafetyMismatch); }
    var sealed := ObserveSealedBaseline(server, attest);
    if sealed.Err? { return Err(sealed.error); }
    if sealed.value != baseline || sealed.value.owner != observed.value.owner { return Err(BaselineIdentityMismatch); }
    return Ok(());
  }

  /** What a session leaves on the way: the safety of a reset where one can begin, and quiet elsewhere. */
  ghost predicate SessionSafe(
    start: Databases, admin: nat, history: seq<Databases>, from: nat, backup: Name, uuid: nat)
  {
    if Begins(start, admin) then SafeSince(start, history, from, backup, uuid) else QuietSince(start, history, from)
  }

  /** What a session leaves in the end, for every result it may report. */
  ghost predicate SessionResolved(
    start: Databases, admin: nat, catalog: Databases, backup: Name, uuid: nat,
    result: Result<Identity, BaselineError>)
  {
    match result
    case Ok(after) =>
      && Begins(start, admin) && Committed(start, catalog, backup, uuid) && after == CaseIdentity(catalog[CaseName])
    case Err(error) =>
      if error.CaseDatabaseRecoveryFailed?
      then Begins(start, admin) && (Guarded(start, catalog, backup) || Committed(start, catalog, backup, uuid))
      else Trusted(start, catalog, backup, uuid)
  }

  lemma QuietSessionIsSafe(
    start: Databases, admin: nat, history: seq<Databases>, from: nat, backup: Name, uuid: nat)
    requires QuietSince(start, history, from) && backup.Recovery?
    ensures SessionSafe(start, admin, history, from, backup, uuid)
  {
    SameIsReflexive(start);
    hide SameButAttest;
    if Begins(start, admin) { QuietIsSafe(start, start, history, from, backup, uuid); }
  }

  /** A reset that began where the session did resolves the session. */
  lemma ResolvedSession(
    start: Databases, admin: nat, catalog: Databases, backup: Name, uuid: nat,
    result: Result<Identity, BaselineError>)
    requires Begins(start, admin) && Resolved(start, catalog, backup, uuid, result)
    ensures SessionResolved(start, admin, catalog, backup, uuid, result)
  {
    hide Guarded, Committed, Restored, SameButAttest;
  }

  /**
   Re-attests the session and only then resets the case. At every statement the original survives
   until the attested replacement has taken over, whatever the session found.
   */
  method VerifyAndReset(
    server: Server, target: Identity, baseline: Identity, sameContainer: bool,
    backup: Name, attest: Name, attestAgain: Name, uuid: nat)
    returns (result: Result<Identity, BaselineError>)
    requires server.Valid() && backup.Recovery? && attest.Attest? && attestAgain.Attest?
    modifies server
    ensures server.Valid() && server.clock >= old(server.clock) && old(server.history) <= server.history
    ensures SessionSafe(old(server.catalog), server.admin, server.history, |old(server.history)|, backup, uuid)
    ensures SessionResolved(old(server.catalog), server.admin, server.catalog, backup, uuid, result)
    ensures result.Ok? ==> SessionHolds(old(server.catalog), server.admin, target, baseline)
    ensures server.CleanBetween(old(server.clock), server.clock) ==>
      (result.Ok? <==> sameContainer && StillAttested(
         old(server.catalog), server.admin, target, baseline, backup, attest, attestAgain))
  {
    ghost var start, from := server.catalog, |old(server.history)|;
    hide Guarded, Restored, Committed, DistinctOids, SameButAttest, PointSafe, Attestable, Sealed;
    var attested := AttestSession(server, target, baseline, sameContainer, attest);
    QuietSessionIsSafe(start, server.admin, server.history, from, backup, uuid);
    match attested {
      case Err(e) => return Err(e);
      case Ok(_) =>
        ghost var split, soFar := |server.history|, server.history;
        ghost var recovering: nat, droppedAt: Option<nat>, forward: seq<Databases>;
        result, recovering, droppedAt, forward :=
          ResetVerifiedCase(server, target, baseline, backup, attestAgain, uuid);
        assert server.history[..split] == soFar;
        SafeConcat(start, server.history, from, split, backup, uuid);
        ResolvedSession(start, server.admin, server.catalog, backup, uuid, result);
    }
  }

  /**
   Services are stopped before the first statement and started once, over a trusted case, after the
   last change to the catalog; only when the original could not be proven restored do they stay
   stopped. Success means the case is the attested replacement and the services are up.
   */
  method ResetCase(
    server: Server, services: Services, target: Identity, baseline: Identity, sameContainer: (bool, bool),
    backup: Name, attest: Name, attestAgain: Name, uuid: nat)
    returns (result: Result<Identity, BaselineError>)
    requires server.Valid() && backup.Recovery? && attest.Attest? && attestAgain.Attest?
    modifies server, services
    ensures server.Valid() && old(server.history) <= server.history && old(services.events) <= services.events
    ensures SessionSafe(old(server.catalog), server.admin, server.history, |old(server.history)|, backup, uuid)
    ensures SessionResolved(old(server.catalog), server.admin, server.catalog, backup, uuid, result)
    ensures result.Ok? ==> SessionHolds(old(server.catalog), server.admin, target, baseline)
    ensures var made := services.events[|old(services.events)|..];
            && Bracketed(made, |old(server.history)|, old(server.catalog), server.history, server.catalog)
            && (|made| == 2 <==> !(result.Err? && result.error.CaseDatabaseRecoveryFailed?))
            && (|made| == 2 ==> Trusted(old(server.catalog), server.catalog, backup, uuid))
            && (result.Ok? ==> made[0].ok && made[1].ok)
    ensures services.running <==> !(result.Err? && result.error.CaseDatabaseRecoveryFailed?)
    ensures server.CleanBetween(old(server.clock), server.clock) && (forall i: nat :: services.works(i)) ==>
      (result.Ok? <==> sameContainer.0 && sameContainer.1 && StillAttested(
         old(server.catalog), server.admin, target, baseline, backup, attest, attestAgain))
    ensures var made := services.events[|old(services.events)|..];
            && (!made[0].ok ==>
                  result == Err(if made[1].ok then StatementFailed else CustomerServicesRecoveryFailed))
            && (|made| == 2 && !made[1].ok ==>
                  result == Err(StatementFailed) || result == Err(CustomerServicesRecoveryFailed))
  {
    ghost var start := server.catalog;
    SameIsReflexive(start);
    hide Guarded, Committed, DistinctOids, Restored, Attestable, Sealed, SessionHolds;
    var stopped := services.Stop(server);
    if !stopped {
      var restarted := services.Start(server, start, backup, uuid);
      return Err(if restarted then StatementFailed else CustomerServicesRecoveryFailed);
    }
    var execution := VerifyAndReset(
      server, target, baseline, sameContainer.0, backup, attest, attestAgain, uuid);
    if execution.Err? && execution.error.CaseDatabaseRecoveryFailed? {
      return execution;
    }
    var restarted := services.Start(server, start, backup, uuid);
    match execution {
      case Err(e) => return Err(if restarted then e else CustomerServicesRecoveryFailed);
      case Ok(identity) =>
        if !restarted { return Err(StatementFailed); }
        var container := AttestContainer(server, sameContainer.1);
        if container.Err? { return Err(container.error); }
        return Ok(identity);
    }
  }
}
