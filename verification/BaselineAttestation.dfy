/** Reading the identities of the case and of the sealed baseline, by way of a disposable copy. */
module BaselineAttestation {
  import opened Wrappers
  import opened Catalog

  datatype BaselineError =
    | StatementFailed
    | CaseDatabaseMissing
    | UnsafeDatabaseOwner
    | UnexpectedMarker
    | UnexpectedDatabaseIdentity
    | BaselineNotReady
    | BaselineIdentityMismatch
    | TemporaryDatabaseCleanupFailed
    | ResetProofFailed
    | CaseBackupCleanupFailed
    | CaseDatabaseRecoveryFailed
    | CustomerServicesRecoveryFailed
    | PostgresContainerChanged
    | SafetyMismatch

  datatype Identity = Identity(oid: nat, owner: nat, markerUuid: nat)

  function CaseIdentity(db: Database): Identity {
    Identity(db.oid, db.owner, db.contents.markerUuid)
  }

  /** A case that can be attested: open, owned by the administrator, marked as a case. */
  predicate Attestable(catalog: Databases, admin: nat) {
    && CaseName in catalog
    && catalog[CaseName].connectable
    && catalog[CaseName].owner == admin
    && catalog[CaseName].contents.markerKind == CaseMarker
  }

  /** A sealed baseline: a closed template whose catalog and inner markers agree. */
  predicate Sealed(catalog: Databases, admin: nat) {
    && BaselineName in catalog
    && !catalog[BaselineName].connectable
    && catalog[BaselineName].owner == admin
    && catalog[BaselineName].seal == Some(catalog[BaselineName].contents.markerUuid)
    && catalog[BaselineName].contents.markerKind == BaselineMarker
  }

  /** What a reading of the case finds, when no statement fails: its identity, or the first thing wrong with it. */
  function CaseFinding(catalog: Databases, admin: nat): Result<Identity, BaselineError> {
    if CaseName !in catalog then Err(CaseDatabaseMissing)
    else
      var db := catalog[CaseName];
      if db.owner != admin then Err(UnsafeDatabaseOwner)
      else if !db.connectable then Err(StatementFailed)
      else if db.contents.markerKind != CaseMarker then Err(UnexpectedMarker)
      else Ok(CaseIdentity(db))
  }

  /** What a reading of the baseline's catalog row finds. */
  function RowFinding(catalog: Databases, admin: nat): Result<Identity, BaselineError> {
    if BaselineName !in catalog then Err(BaselineNotReady)
    else
      var db := catalog[BaselineName];
      if db.owner != admin || db.connectable || db.seal.None? then Err(BaselineIdentityMismatch)
      else Ok(Identity(db.oid, db.owner, db.seal.value))
  }

  /** What an attestation of the baseline finds, its contents included, by way of a copy under a free name. */
  function BaselineFinding(catalog: Databases, admin: nat, attest: Name): Result<Identity, BaselineError> {
    match RowFinding(catalog, admin)
    case Err(e) => Err(e)
    case Ok(identity) =>
      var contents := catalog[BaselineName].contents;
      if attest in catalog || contents != contents.(markerUuid := identity.markerUuid, markerKind := BaselineMarker)
      then Err(BaselineIdentityMismatch)
      else Ok(identity)
  }

  /** The catalog row of the case, when the administrator owns it. */
  method ReadCaseRow(server: Server) returns (result: Result<CatalogIdentity, BaselineError>)
    requires server.Valid()
    modifies server`clock, server`history
    ensures old(server.clock) <= server.clock <= old(server.clock) + 3
    ensures QuietSince(server.catalog, server.history, |old(server.history)|) && old(server.history) <= server.history
    ensures result.Ok? ==>
      && server.clock == old(server.clock) + 3
      && CaseName in server.catalog && result.value == IdentityOf(server.catalog[CaseName])
      && result.value.owner == server.admin
    ensures result.Err? ==> !result.error.CaseDatabaseRecoveryFailed?
    ensures result.Ok? ==> server.CleanBetween(old(server.clock), server.clock)
    ensures !server.CleanBetween(old(server.clock), server.clock) ==> result == Err(StatementFailed)
    ensures server.CleanBetween(old(server.clock), server.clock) && result.Err? ==>
      result.error == if CaseName !in server.catalog then CaseDatabaseMissing else UnsafeDatabaseOwner
    ensures server.CleanBetween(old(server.clock), server.clock) ==>
      (CaseName in server.catalog && server.catalog[CaseName].owner == server.admin ==> result.Ok?)
  {
    hide DistinctOids, SameButAttest;
    SameIsReflexive(server.catalog);
    var ok := server.Execute();
    if !ok { return Err(StatementFailed); }
    var found: Option<CatalogIdentity>;
    ok, found := server.Lookup(CaseName);
    if !ok { return Err(StatementFailed); }
    if found.None? { return Err(CaseDatabaseMissing); }
    if found.value.owner != server.admin { return Err(UnsafeDatabaseOwner); }
    ok := server.Execute();
    if !ok { return Err(StatementFailed); }
    return Ok(found.value);
  }

  /** The marker inside the case, read over a session of its own. */
  method ReadCaseMarker(server: Server) returns (result: Result<nat, BaselineError>)
    requires server.Valid() && CaseName in server.catalog
    modifies server`clock, server`history
    ensures old(server.clock) <= server.clock <= old(server.clock) + 4
    ensures QuietSince(server.catalog, server.history, |old(server.history)|) && old(server.history) <= server.history
    ensures result.Ok? ==>
      && server.clock == old(server.clock) + 4 && server.catalog[CaseName].connectable
      && server.catalog[CaseName].contents.markerKind == CaseMarker
      && result.value == server.catalog[CaseName].contents.markerUuid
    ensures result.Err? ==> !result.error.CaseDatabaseRecoveryFailed?
    ensures result.Ok? ==> server.CleanBetween(old(server.clock), server.clock)
    ensures !server.CleanBetween(old(server.clock), server.clock) ==> result == Err(StatementFailed)
    ensures server.CleanBetween(old(server.clock), server.clock) && result.Err? ==>
      result.error == if server.catalog[CaseName].connectable then UnexpectedMarker else StatementFailed
    ensures server.CleanBetween(old(server.clock), server.clock) ==>
      (server.catalog[CaseName].connectable && server.catalog[CaseName].contents.markerKind == CaseMarker ==>
         result.Ok?)
  {
    hide DistinctOids, SameButAttest;
    SameIsReflexive(server.catalog);
    var ok := server.Connect(CaseName);
    if !ok { return Err(StatementFailed); }
    ok := server.Execute();
    if !ok { return Err(StatementFailed); }
    var contents := server.catalog[CaseName].contents;
    if contents.markerKind != CaseMarker { return Err(UnexpectedMarker); }
    ok := server.Execute();
    if !ok { return Err(StatementFailed); }
    ok := server.Execute();
    if !ok { return Err(StatementFailed); }
    return Ok(contents.markerUuid);
  }

  method ObserveCaseIdentity(server: Server) returns (result: Result<Identity, BaselineError>)
    requires server.Valid()
    modifies server`clock, server`history
    ensures old(server.clock) <= server.clock <= old(server.clock) + 7
    ensures QuietSince(server.catalog, server.history, |old(server.history)|) && old(server.history) <= server.history
    ensures result.Ok? ==>
      Attestable(server.catalog, server.admin) && result.value == CaseIdentity(server.catalog[CaseName])
    ensures result.Err? ==> !result.error.CaseDatabaseRecoveryFailed?
    ensures result.Ok? ==> server.CleanBetween(old(server.clock), server.clock)
    ensures result
         == if server.CleanBetween(old(server.clock), server.clock) then CaseFinding(server.catalog, server.admin)
            else Err(StatementFailed)
    ensures server.CleanBetween(old(server.clock), server.clock) && Attestable(server.catalog, server.admin) ==>
      result.Ok?
    ensures result.Ok? ==> server.clock == old(server.clock) + 7
  {
    hide DistinctOids, SameButAttest;
    var row := ReadCaseRow(server);
    match row {
      case Err(e) => return Err(e);
      case Ok(identity) =>
        var marker := ReadCaseMarker(server);
        match marker {
          case Err(e) => return Err(e);
          case Ok(uuid) => return Ok(Identity(identity.oid, identity.owner, uuid));
        }
    }
  }

  method ObserveBaselineCatalog(server: Server) returns (result: Result<Identity, BaselineError>)
    requires server.Valid()
    modifies server`clock, server`history
    ensures old(server.clock) <= server.clock <= old(server.clock) + 3
    ensures QuietSince(server.catalog, server.history, |old(server.history)|) && old(server.history) <= server.history
    ensures result.Err? ==> !result.error.CaseDatabaseRecoveryFailed?
    ensures result.Ok? ==>
      && BaselineName in server.catalog && !server.catalog[BaselineName].connectable
      && server.catalog[BaselineName].owner == server.admin
      && server.catalog[BaselineName].seal.Some?
      && result.value
         == Identity(server.catalog[BaselineName].oid, server.catalog[BaselineName].owner,
                     server.catalog[BaselineName].seal.value)
    ensures server.CleanBetween(old(server.clock), server.clock) && Sealed(server.catalog, server.admin) ==> result.Ok?
    ensures result.Ok? ==> server.clock == old(server.clock) + 3
    ensures result
         == if server.CleanBetween(old(server.clock), server.clock) then RowFinding(server.catalog, server.admin)
            else Err(StatementFailed)
  {
    hide DistinctOids;
    var ok := server.Execute();
    if !ok { return Err(StatementFailed); }
    var found: Option<CatalogIdentity>;
    ok, found := server.Lookup(BaselineName);
    if !ok { return Err(StatementFailed); }
    if found.None? { return Err(BaselineNotReady); }
    var db := server.catalog[BaselineName];
    if db.owner != server.admin || db.connectable || db.seal.None? { return Err(BaselineIdentityMismatch); }
    ok := server.Execute();
    if !ok { return Err(StatementFailed); }
    return Ok(Identity(db.oid, db.owner, db.seal.value));
  }

  /**
   Drops one database, but only while it is exactly the expected one. `droppedAt` numbers the drop
   statement itself, when it came to that.
   */
  method DropDatabaseExact(server: Server, name: Name, expected: CatalogIdentity)
    returns (ok: bool, ghost droppedAt: Option<nat>)
    requires server.Valid()
    modifies server`catalog, server`clock, server`history, server`evicted
    ensures server.Valid() && old(server.clock) <= server.clock <= old(server.clock) + 5
    ensures ok ==> server.clock == old(server.clock) + 5
    ensures droppedAt.None? ==>
      !ok && server.catalog == old(server.catalog) && server.clock <= old(server.clock) + 3
    ensures droppedAt.Some? ==>
      && droppedAt.value == old(server.clock) + 3
      && name in old(server.catalog) && IdentityOf(old(server.catalog)[name]) == expected
      && server.catalog == (if server.fate(droppedAt.value).FailsWithoutEffect?
                            then old(server.catalog) else old(server.catalog) - {name})
      && (ok <==> server.fate(droppedAt.value).Succeeds? && server.fate(droppedAt.value + 1).Succeeds?)
    ensures server.CleanBetween(old(server.clock), server.clock) ==>
      (ok <==> name in old(server.catalog) && IdentityOf(old(server.catalog)[name]) == expected)
    ensures old(server.history) <= server.history
    ensures forall k :: |old(server.history)| <= k < |server.history| ==>
      server.history[k] == old(server.catalog) || server.history[k] == server.catalog
  {
    hide DistinctOids;
    droppedAt := None;
    ok := server.Execute();
    if !ok { return; }
    var found: Option<CatalogIdentity>;
    ok, found := server.Lookup(name);
    if !ok || found != Some(expected) {
      ok := false;
      return;
    }
    ok := server.Evict(expected.oid);
    if !ok { return; }
    droppedAt := Some(server.clock);
    ok := server.Drop(name);
    if !ok { return; }
    ok := server.Execute();
  }

  /** Removes a leftover temporary database the administrator owns. */
  method CleanupTemporary(server: Server, name: Name, owner: nat) returns (ok: bool)
    requires server.Valid() && name.Attest?
    modifies server`catalog, server`clock, server`history, server`evicted
    ensures server.Valid() && old(server.clock) <= server.clock <= old(server.clock) + 5
    ensures old(server.history) <= server.history
    ensures SameButAttest(old(server.catalog), server.catalog)
    ensures QuietSince(old(server.catalog), server.history, |old(server.history)|)
    ensures ok ==> server.catalog == old(server.catalog) - {name}
    ensures server.CleanBetween(old(server.clock), server.clock) ==>
      (ok <==> name in old(server.catalog) ==> old(server.catalog)[name].owner == owner)
  {
    hide DistinctOids;
    ok := server.Execute();
    if !ok { return; }
    var found: Option<CatalogIdentity>;
    ok, found := server.Lookup(name);
    if !ok { return; }
    if found.None? {
      ok := server.Execute();
      return;
    }
    if found.value.owner != owner { return false; }
    ok := server.Evict(found.value.oid);
    if !ok { return; }
    ok := server.Drop(name);
    if !ok { return; }
    ok := server.Execute();
  }

  lemma SameIsReflexive(catalog: Databases)
    ensures SameButAttest(catalog, catalog)
  {
  }

  lemma QuietConcat(start: Databases, middle: Databases, history: seq<Databases>, from: nat, split: nat)
    requires SameButAttest(start, middle) && from <= split <= |history|
    requires QuietSince(start, history[..split], from) && QuietSince(middle, history, split)
    ensures QuietSince(start, history, from)
  {
    forall k | from <= k < |history| ensures SameButAttest(start, history[k]) {
      if k < split {
        assert history[..split][k] == history[k];
      } else {
        assert SameButAttest(middle, history[k]);
      }
    }
  }

  /** One more database, open and with the contents of the template; nothing else changed. */
  ghost predicate IsFreshCopy(before: Databases, after: Databases, name: Name, template: Name) {
    && name !in before && template in before && name in after
    && after == before[name := after[name]]
    && after[name].connectable && after[name].contents == before[template].contents
  }

  /** Creates a temporary copy and reads back its identity. */
  method CreateOwned(server: Server, name: Name, template: Name, owner: nat)
    returns (created: Option<CatalogIdentity>, error: BaselineError)
    requires server.Valid() && name.Attest? && !template.Attest?
    modifies server
    ensures server.Valid() && old(server.clock) <= server.clock <= old(server.clock) + 3
    ensures old(server.history) <= server.history
    ensures SameButAttest(old(server.catalog), server.catalog)
    ensures QuietSince(old(server.catalog), server.history, |old(server.history)|)
    ensures created.Some? ==>
      && name in server.catalog
      && created.value == IdentityOf(server.catalog[name])
      && IsFreshCopy(old(server.catalog), server.catalog, name, template)
    ensures server.CleanBetween(old(server.clock), server.clock) && owner == server.admin ==>
      (created.Some? <==> name !in old(server.catalog) && template in old(server.catalog))
    ensures created.Some? ==> server.clock == old(server.clock) + 3
    ensures server.catalog - {name} == old(server.catalog) - {name}
    ensures template !in old(server.catalog) ==> server.catalog == old(server.catalog)
  {
    hide DistinctOids;
    created, error := None, StatementFailed;
    var ok, found := server.Lookup(name);
    if !ok { return; }
    if found.Some? {
      error := UnexpectedDatabaseIdentity;
      return;
    }
    ok := server.CreateFrom(name, template);
    if !ok { return; }
    ok, found := server.Lookup(name);
    if !ok { return; }
    if found.Some? && found.value.owner == owner {
      created := found;
    } else {
      error := UnexpectedDatabaseIdentity;
    }
  }

  /** Copies a template under a temporary name, cleaning up after any failure. */
  method CreateFromTemplate(server: Server, name: Name, template: Name, owner: nat)
    returns (result: Result<CatalogIdentity, BaselineError>)
    requires server.Valid() && name.Attest? && !template.Attest?
    modifies server
    ensures server.Valid() && old(server.clock) <= server.clock <= old(server.clock) + 10
    ensures old(server.history) <= server.history
    ensures SameButAttest(old(server.catalog), server.catalog)
    ensures QuietSince(old(server.catalog), server.history, |old(server.history)|)
    ensures result.Ok? ==>
      && IsFreshCopy(old(server.catalog), server.catalog, name, template)
      && result.value == IdentityOf(server.catalog[name])
    ensures server.CleanBetween(old(server.clock), server.clock) && owner == server.admin ==>
      (result.Ok? <==> name !in old(server.catalog) && template in old(server.catalog))
    ensures result.Ok? ==> server.clock == old(server.clock) + 5
    ensures result.Err? && !result.error.TemporaryDatabaseCleanupFailed? ==>
      server.catalog == old(server.catalog) || server.catalog == old(server.catalog) - {name}
    ensures server.CleanBetween(old(server.clock), server.clock) && owner == server.admin
            && name !in old(server.catalog) ==>
      result.Ok? || server.catalog == old(server.catalog)
  {
    hide DistinctOids;
    var ok := server.Execute();
    if !ok { return Err(StatementFailed); }
    var created, error := CreateOwned(server, name, template, owner);
    ok := server.Execute();
    if created.Some? && ok {
      return Ok(created.value);
    }
    ghost var middle, split := server.catalog, |server.history|;
    ghost var soFar := server.history;
    var cleaned := CleanupTemporary(server, name, owner);
    assert server.history[..split] == soFar;
    QuietConcat(old(server.catalog), middle, server.history, |old(server.history)|, split);
    assert name !in old(server.catalog) ==> old(server.catalog) - {name} == old(server.catalog);
    return Err(if cleaned then error else TemporaryDatabaseCleanupFailed);
  }

  /** Inspects the inner marker of a disposable copy. */
  method InspectClone(server: Server, name: Name, expected: Identity) returns (ok: bool)
    requires server.Valid()
    modifies server`clock, server`history
    ensures old(server.clock) <= server.clock <= old(server.clock) + 4 && old(server.history) <= server.history
    ensures QuietSince(server.catalog, server.history, |old(server.history)|)
    ensures ok ==>
      && name in server.catalog
      && server.catalog[name].contents.markerKind == BaselineMarker
      && server.catalog[name].contents.markerUuid == expected.markerUuid
    ensures server.CleanBetween(old(server.clock), server.clock)
            && name in server.catalog && server.catalog[name].connectable ==>
      (ok <==> && server.catalog[name].contents.markerKind == BaselineMarker
               && server.catalog[name].contents.markerUuid == expected.markerUuid)
    ensures ok ==> server.clock == old(server.clock) + 4
  {
    hide DistinctOids, SameButAttest;
    SameIsReflexive(server.catalog);
    ok := server.Connect(name);
    if !ok { return; }
    ok := server.Execute();
    if !ok { return; }
    ok := server.Execute();
    if !ok { return; }
    ok := server.Execute();
    if !ok { return; }
    var contents := server.catalog[name].contents;
    ok := contents.markerKind == BaselineMarker && contents.markerUuid == expected.markerUuid;
  }

  method AttestContents(server: Server, expected: Identity, attest: Name) returns (ok: bool)
    requires server.Valid() && attest.Attest?
    modifies server
    ensures server.Valid() && old(server.clock) <= server.clock <= old(server.clock) + 14
    ensures old(server.history) <= server.history
    ensures SameButAttest(old(server.catalog), server.catalog)
    ensures QuietSince(old(server.catalog), server.history, |old(server.history)|)
    ensures ok ==>
      && BaselineName in server.catalog
      && server.catalog[BaselineName].contents.markerKind == BaselineMarker
      && server.catalog[BaselineName].contents.markerUuid == expected.markerUuid
    ensures ok ==> server.catalog == old(server.catalog) && attest !in server.catalog
    ensures server.CleanBetween(old(server.clock), server.clock) && Sealed(old(server.catalog), server.admin) ==>
      (expected == CaseIdentity(old(server.catalog)[BaselineName]) && attest !in old(server.catalog) ==> ok)
    ensures ok ==> server.clock == old(server.clock) + 14
    ensures attest in old(server.catalog) ==> !ok
    ensures server.CleanBetween(old(server.clock), server.clock) && expected.owner == server.admin
            && attest !in old(server.catalog) ==>
      server.catalog == old(server.catalog)
  {
    hide DistinctOids;
    var clone := CreateFromTemplate(server, attest, BaselineName, expected.owner);
    if clone.Err? { return false; }
    var inspected := InspectClone(server, attest, expected);
    var dropped, _ := DropDatabaseExact(server, attest, clone.value);
    ok := dropped && inspected;
  }

  /** Attests the baseline without ever opening it: catalog, contents of a copy, catalog again. */
  method ObserveSealedBaseline(server: Server, attest: Name) returns (result: Result<Identity, BaselineError>)
    requires server.Valid() && attest.Attest?
    modifies server
    ensures server.Valid() && old(server.clock) <= server.clock <= old(server.clock) + 20
    ensures old(server.history) <= server.history
    ensures SameButAttest(old(server.catalog), server.catalog)
    ensures QuietSince(old(server.catalog), server.history, |old(server.history)|)
    ensures result.Err? ==> !result.error.CaseDatabaseRecoveryFailed?
    ensures result.Ok? ==>
      Sealed(server.catalog, server.admin) && result.value == CaseIdentity(server.catalog[BaselineName])
    ensures result.Ok? ==> server.catalog == old(server.catalog) && attest !in server.catalog
    ensures server.CleanBetween(old(server.clock), server.clock) && Sealed(old(server.catalog), server.admin) ==>
      (attest !in old(server.catalog) ==> result.Ok?)
    ensures result.Ok? ==> server.clock == old(server.clock) + 20
    ensures server.CleanBetween(old(server.clock), server.clock) ==>
      result == BaselineFinding(old(server.catalog), server.admin, attest)
    ensures server.CleanBetween(old(server.clock), server.clock) && attest !in old(server.catalog) ==>
      server.catalog == old(server.catalog)
  {
    var before := ObserveBaselineCatalog(server);
    if before.Err? { return before; }
    var contents := AttestContents(server, before.value, attest);
    if !contents { return Err(BaselineIdentityMismatch); }
    var after := ObserveBaselineCatalog(server);
    if after.Err? { return after; }
    if after.value != before.value { return Err(BaselineIdentityMismatch); }
    return after;
  }
}
