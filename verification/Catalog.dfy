/**
 A PostgreSQL catalog behind statements that may succeed, fail without effect, or fail after
 taking effect. Names generated for recovery and for attestation carry distinct prefixes.
 */
module Catalog {
  import opened Wrappers

  datatype Name = CaseName | BaselineName | Recovery(uuid: nat) | Attest(uuid: nat) | Other(id: nat)

  datatype MarkerKind = CaseMarker | BaselineMarker

  /** What a database holds: the verifier marker, and everything else. */
  datatype Contents = Contents(markerUuid: nat, markerKind: MarkerKind, data: nat)

  /** `seal` is the catalog comment of a template; a copy of a template starts without one. */
  datatype Database = Database(oid: nat, owner: nat, connectable: bool, contents: Contents, seal: Option<nat>)

  datatype Fate = Succeeds | FailsWithoutEffect | FailsAfterEffect

  datatype CatalogIdentity = CatalogIdentity(oid: nat, owner: nat)

  type Databases = map<Name, Database>

  function IdentityOf(db: Database): CatalogIdentity {
    CatalogIdentity(db.oid, db.owner)
  }

  /** One database object per identifier. */
  ghost predicate DistinctOids(catalog: Databases, nextOid: nat) {
    && (forall n :: n in catalog ==> catalog[n].oid < nextOid)
    && (forall n, m :: n in catalog && m in catalog && n != m ==> catalog[n].oid != catalog[m].oid)
  }

  class Server {
    var catalog: Databases
    var nextOid: nat
    var clock: nat
    /** The catalog after every statement so far: what a crash at that point would leave behind. */
    ghost var history: seq<Databases>
    /** Identifiers of databases whose sessions were ended since they were last opened to new ones. */
    ghost var evicted: set<nat>
    const fate: nat -> Fate
    const admin: nat

    constructor (catalog: Databases, nextOid: nat, admin: nat, fate: nat -> Fate)
      requires DistinctOids(catalog, nextOid)
      ensures Valid() && this.catalog == catalog && this.admin == admin && this.fate == fate && clock == 0
    {
      this.catalog, this.nextOid, this.admin, this.fate := catalog, nextOid, admin, fate;
      clock, history, evicted := 0, [], {};
    }

    ghost predicate Valid()
      reads this
    {
      DistinctOids(catalog, nextOid)
    }

    /** The catalog row of one database, if there is one. */
    function Found(name: Name): Option<CatalogIdentity>
      reads this
    {
      if name in catalog then Some(IdentityOf(catalog[name])) else None
    }

    /** None of the statements numbered from `start` up to `end` fails. */
    ghost predicate CleanBetween(start: nat, end: nat) {
      forall i :: start <= i < end ==> fate(i).Succeeds?
    }

    /** A connection, a query, or any other statement that changes nothing in the catalog. */
    method Execute() returns (ok: bool)
      modifies this`clock, this`history
      ensures old(Valid()) ==> Valid()
      ensures clock == old(clock) + 1 && history == old(history) + [catalog]
      ensures ok <==> fate(old(clock)).Succeeds?
    {
      ok := fate(clock).Succeeds?;
      clock, history := clock + 1, history + [catalog];
    }

    /** The catalog row of one database, when the query succeeds. */
    method Lookup(name: Name) returns (ok: bool, found: Option<CatalogIdentity>)
      modifies this`clock, this`history
      ensures old(Valid()) ==> Valid()
      ensures clock == old(clock) + 1 && history == old(history) + [catalog]
      ensures ok <==> fate(old(clock)).Succeeds?
      ensures found == Found(name)
    {
      ok := Execute();
      found := Found(name);
    }

    /** Opens a session on one database: it must exist and admit connections. */
    method Connect(name: Name) returns (ok: bool)
      modifies this`clock, this`history
      ensures old(Valid()) ==> Valid()
      ensures clock == old(clock) + 1 && history == old(history) + [catalog]
      ensures ok <==> fate(old(clock)).Succeeds? && name in catalog && catalog[name].connectable
    {
      ok := Execute();
      ok := ok && name in catalog && catalog[name].connectable;
    }

    /** Ends all sessions on one database. */
    method Evict(oid: nat) returns (ok: bool)
      modifies this`clock, this`history, this`evicted
      ensures old(Valid()) ==> Valid()
      ensures clock == old(clock) + 1 && history == old(history) + [catalog]
      ensures ok <==> fate(old(clock)).Succeeds?
      ensures evicted == if ok then old(evicted) + {oid} else old(evicted)
    {
      ok := Execute();
      evicted := if ok then evicted + {oid} else evicted;
    }

    method AllowConnections(name: Name, allow: bool) returns (ok: bool)
      modifies this`catalog, this`clock, this`history, this`evicted
      ensures old(Valid()) ==> Valid()
      ensures clock == old(clock) + 1 && history == old(history) + [catalog]
      ensures catalog == if name in old(catalog) && !fate(old(clock)).FailsWithoutEffect?
                         then old(catalog)[name := old(catalog)[name].(connectable := allow)] else old(catalog)
      ensures ok <==> name in old(catalog) && fate(old(clock)).Succeeds?
      ensures evicted == if allow && name in old(catalog) then old(evicted) - {old(catalog)[name].oid} else old(evicted)
    {
      ok := name in catalog && fate(clock).Succeeds?;
      evicted := if allow && name in catalog then evicted - {catalog[name].oid} else evicted;
      if name in catalog && !fate(clock).FailsWithoutEffect? {
        catalog := catalog[name := catalog[name].(connectable := allow)];
      }
      clock, history := clock + 1, history + [catalog];
    }

    /** The case may only be moved aside closed, with its sessions ended. */
    method Rename(from: Name, to: Name) returns (ok: bool)
      requires from == CaseName && from in catalog ==> !catalog[from].connectable && catalog[from].oid in evicted
      modifies this`catalog, this`clock, this`history
      ensures old(Valid()) ==> Valid()
      ensures clock == old(clock) + 1 && history == old(history) + [catalog]
      ensures catalog == if from in old(catalog) && to !in old(catalog) && !fate(old(clock)).FailsWithoutEffect?
                         then (old(catalog) - {from})[to := old(catalog)[from]] else old(catalog)
      ensures ok <==> from in old(catalog) && to !in old(catalog) && fate(old(clock)).Succeeds?
    {
      ok := from in catalog && to !in catalog && fate(clock).Succeeds?;
      if from in catalog && to !in catalog && !fate(clock).FailsWithoutEffect? {
        catalog := (catalog - {from})[to := catalog[from]];
      }
      clock, history := clock + 1, history + [catalog];
    }

    /** A fresh copy of a template: new identifier, administrator's own, open, unsealed. */
    method CreateFrom(name: Name, template: Name) returns (ok: bool)
      modifies this
      ensures old(Valid()) ==> Valid()
      ensures clock == old(clock) + 1 && history == old(history) + [catalog]
      ensures nextOid == old(nextOid) + 1 && evicted == old(evicted) - {old(nextOid)}
      ensures catalog == if name !in old(catalog) && template in old(catalog) && !fate(old(clock)).FailsWithoutEffect?
                         then old(catalog)[
                           name := Database(old(nextOid), admin, true, old(catalog)[template].contents, None)]
                         else old(catalog)
      ensures ok <==> name !in old(catalog) && template in old(catalog) && fate(old(clock)).Succeeds?
    {
      ok := name !in catalog && template in catalog && fate(clock).Succeeds?;
      if name !in catalog && template in catalog && !fate(clock).FailsWithoutEffect? {
        catalog := catalog[name := Database(nextOid, admin, true, catalog[template].contents, None)];
      }
      evicted, nextOid := evicted - {nextOid}, nextOid + 1;
      clock, history := clock + 1, history + [catalog];
    }

    /** A database may only be dropped with its sessions ended. */
    method Drop(name: Name) returns (ok: bool)
      requires name in catalog ==> catalog[name].oid in evicted
      modifies this`catalog, this`clock, this`history
      ensures old(Valid()) ==> Valid()
      ensures clock == old(clock) + 1 && history == old(history) + [catalog]
      ensures catalog == if name in old(catalog) && !fate(old(clock)).FailsWithoutEffect?
                         then old(catalog) - {name} else old(catalog)
      ensures ok <==> name in old(catalog) && fate(old(clock)).Succeeds?
    {
      ok := name in catalog && fate(clock).Succeeds?;
      if name in catalog && !fate(clock).FailsWithoutEffect? {
        catalog := catalog - {name};
      }
      clock, history := clock + 1, history + [catalog];
    }

    /** Rewrites the marker row of a database a session is open on. */
    method UpdateMarker(name: Name, uuid: nat) returns (ok: bool)
      modifies this`catalog, this`clock, this`history
      ensures old(Valid()) ==> Valid()
      ensures clock == old(clock) + 1 && history == old(history) + [catalog]
      ensures catalog == if name in old(catalog) && !fate(old(clock)).FailsWithoutEffect?
                         then old(catalog)[name := Marked(old(catalog)[name], uuid)] else old(catalog)
      ensures ok <==> name in old(catalog) && fate(old(clock)).Succeeds?
    {
      ok := name in catalog && fate(clock).Succeeds?;
      if name in catalog && !fate(clock).FailsWithoutEffect? {
        catalog := catalog[name := Marked(catalog[name], uuid)];
      }
      clock, history := clock + 1, history + [catalog];
    }
  }

  function Marked(db: Database, uuid: nat): Database {
    db.(contents := db.contents.(markerUuid := uuid, markerKind := CaseMarker))
  }

  /** Only throw-away attestation copies differ. */
  ghost predicate SameButAttest(before: Databases, after: Databases) {
    forall n: Name :: !n.Attest? ==> (n in before <==> n in after) && (n in before ==> before[n] == after[n])
  }

  /** Everything recorded since `from` differs from `start` in attestation copies only. */
  ghost predicate QuietSince(start: Databases, history: seq<Databases>, from: nat) {
    from <= |history| && forall k :: from <= k < |history| ==> SameButAttest(start, history[k])
  }
}
