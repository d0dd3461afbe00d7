/** The import quota manager: a per-organization limit on concurrent imports
    and a cache of quota trackers that expires after 30 minutes without use.
    The clock is a parameter of every operation that reads it. */
module ImportQuota {
  import opened Util

  /** Stands for an `ImportQuotaTracker` instance; the tracker's own quota
      logic is not part of this model. */
  datatype Tracker = Tracker(organizationId: string, createdAt: int)

  datatype CachedTracker = CachedTracker(tracker: Tracker, lastAccessed: int)

  /** One running import. Imports are kept in insertion order, which is the
      iteration order of the JavaScript `Set` that holds them. */
  datatype ActiveImport = ActiveImport(startedAt: int)

  const ConcurrentImportLimit := 1
  const TrackerTtlMs := 30 * 60 * 1000
  const ImportTimeoutMs := 2 * 60 * 60 * 1000

  // ---------------------------------------------------------------------------
  // Specification on values

  /** An import older than two hours counts as abandoned. */
  predicate Abandoned(a: ActiveImport, now: int)
  {
    now - a.startedAt > ImportTimeoutMs
  }

  /** The imports that survive a clean-up, in their order. */
  function Live(imports: seq<ActiveImport>, now: int): (r: seq<ActiveImport>)
    ensures |r| <= |imports|
    ensures forall a :: a in r <==> a in imports && !Abandoned(a, now)
  {
    Filter(imports, a => !Abandoned(a, now))
  }

  /** No organization maps to an empty collection, and none has more imports
      than the concurrency limit. */
  predicate WellFormed(active: map<string, seq<ActiveImport>>)
  {
    forall org :: org in active ==> 0 < |active[org]| <= ConcurrentImportLimit
  }

  /** `cleanupAbandonedImports` on one organization. */
  function CleanedUp(active: map<string, seq<ActiveImport>>, org: string, now: int): map<string, seq<ActiveImport>>
  {
    if org !in active then active
    else if |Live(active[org], now)| == 0 then active - {org}
    else active[org := Live(active[org], now)]
  }

  /** `startImport` in cloud mode: whether the import may start, and the new
      map of active imports. */
  function Started(active: map<string, seq<ActiveImport>>, org: string, now: int)
    : (bool, map<string, seq<ActiveImport>>)
  {
    var cleaned := CleanedUp(active, org, now);
    var current := if org in cleaned then cleaned[org] else [];
    if |current| >= ConcurrentImportLimit then (false, cleaned)
    else (true, cleaned[org := current + [ActiveImport(now)]])
  }

  /** `completeImport`: the first import of the organization goes, and the
      organization goes with its last import. */
  function Completed(active: map<string, seq<ActiveImport>>, org: string): map<string, seq<ActiveImport>>
  {
    if org !in active then active
    else
      var rest := if |active[org]| > 0 then active[org][1..] else active[org];
      if |rest| == 0 then active - {org} else active[org := rest]
  }

  /** The abandoned-import sweep of `cleanup`, over every organization. */
  function AllCleanedUp(active: map<string, seq<ActiveImport>>, now: int): map<string, seq<ActiveImport>>
  {
    map org | org in active && |Live(active[org], now)| > 0 :: Live(active[org], now)
  }

  /** The tracker sweep of `cleanup`: trackers idle for more than 30 minutes go. */
  function SweptTrackers(trackers: map<string, CachedTracker>, now: int): map<string, CachedTracker>
  {
    map org | org in trackers && !(now - trackers[org].lastAccessed > TrackerTtlMs) :: trackers[org]
  }

  /** `getTracker`: the cached tracker when it was used less than 30 minutes
      ago, otherwise `created`; either way it is cached as used now. */
  function Looked(trackers: map<string, CachedTracker>, org: string, now: int, created: Tracker)
    : (Tracker, map<string, CachedTracker>)
  {
    var t := if org in trackers && now - trackers[org].lastAccessed < TrackerTtlMs
             then trackers[org].tracker else created;
    (t, trackers[org := CachedTracker(t, now)])
  }

  // ---------------------------------------------------------------------------
  // Properties

  /** A start is admitted exactly when the organization has no import that is
      still live; an admitted start records one import started now and
      leaves other organizations alone; a refused one only drops abandoned
      imports. */
  lemma StartAdmitsIffNoLiveImport(active: map<string, seq<ActiveImport>>, org: string, now: int)
    ensures Started(active, org, now).0 <==> org !in active || forall a :: a in active[org] ==> Abandoned(a, now)
    ensures var (ok, after) := Started(active, org, now);
            ok ==> org in after && after[org] == [ActiveImport(now)]
    ensures var (ok, after) := Started(active, org, now);
            forall o :: o != org ==> (o in after <==> o in active) && (o in after ==> after[o] == active[o])
    ensures var (ok, after) := Started(active, org, now);
            !ok ==> after == CleanedUp(active, org, now)
  {
    if org in active {
      FilterEmpty(active[org], a => !Abandoned(a, now));
    }
  }

  /** Starting an import keeps every organization within the limit and never
      leaves an empty entry. */
  lemma StartKeepsWellFormed(active: map<string, seq<ActiveImport>>, org: string, now: int)
    requires WellFormed(active)
    ensures WellFormed(Started(active, org, now).1)
  {
  }

  /** Completing an import keeps the map well formed, and with the limit of
      one it removes the organization altogether. */
  lemma CompleteKeepsWellFormed(active: map<string, seq<ActiveImport>>, org: string)
    requires WellFormed(active)
    ensures WellFormed(Completed(active, org))
    ensures org !in Completed(active, org)
    ensures forall o :: o != org ==> (o in Completed(active, org) <==> o in active)
  {
  }

  /** After a start is admitted and the import completes, the organization
      can start again straight away. */
  lemma StartCompleteStart(active: map<string, seq<ActiveImport>>, org: string, now: int, later: int)
    requires WellFormed(active)
    requires Started(active, org, now).0
    ensures Started(Completed(Started(active, org, now).1, org), org, later).0
  {
    StartKeepsWellFormed(active, org, now);
    CompleteKeepsWellFormed(Started(active, org, now).1, org);
  }

  /** While an admitted import is live, a second start for the same
      organization is refused. */
  lemma SecondStartRefused(active: map<string, seq<ActiveImport>>, org: string, now: int, later: int)
    requires Started(active, org, now).0
    requires later - now <= ImportTimeoutMs
    ensures !Started(Started(active, org, now).1, org, later).0
  {
    var after := Started(active, org, now).1;
    StartAdmitsIffNoLiveImport(active, org, now);
    StartAdmitsIffNoLiveImport(after, org, later);
    assert after[org][|after[org]| - 1] in after[org];
  }

  /** The sweep keeps the map well formed and leaves only live imports, in
      their order, for the organizations that still have one. */
  lemma SweepLeavesLiveImports(active: map<string, seq<ActiveImport>>, now: int)
    requires WellFormed(active)
    ensures var after := AllCleanedUp(active, now);
            && WellFormed(after)
            && (forall org :: org in after ==> org in active && IsSubsequence(after[org], active[org]))
            && (forall org, a :: org in after && a in after[org] ==> !Abandoned(a, now))
            && (forall org :: org in active && (exists a :: a in active[org] && !Abandoned(a, now)) ==> org in after)
  {
    var after := AllCleanedUp(active, now);
    forall org | org in after
      ensures IsSubsequence(after[org], active[org])
    {
      FilterIsSubsequence(active[org], a => !Abandoned(a, now));
    }
    forall org | org in active && (exists a :: a in active[org] && !Abandoned(a, now))
      ensures org in after
    {
      var a :| a in active[org] && !Abandoned(a, now);
      assert a in Live(active[org], now);
    }
  }

  /** The tracker sweep keeps exactly the trackers used within the last 30
      minutes, unchanged. */
  lemma SweepKeepsRecentTrackers(trackers: map<string, CachedTracker>, now: int)
    ensures var after := SweptTrackers(trackers, now);
            forall org :: org in after <==> org in trackers && now - trackers[org].lastAccessed <= TrackerTtlMs
    ensures var after := SweptTrackers(trackers, now);
            forall org :: org in after ==> after[org] == trackers[org]
  {
  }

  /** `getTracker` hands back the cached tracker exactly when it was used less
      than 30 minutes ago (strictly), marks the entry used now, and touches no
      other organization's entry. */
  lemma TrackerReuse(trackers: map<string, CachedTracker>, org: string, now: int, created: Tracker)
    ensures var (t, after) := Looked(trackers, org, now, created);
            && (org in trackers && now - trackers[org].lastAccessed < TrackerTtlMs ==> t == trackers[org].tracker)
            && (!(org in trackers && now - trackers[org].lastAccessed < TrackerTtlMs) ==> t == created)
            && after[org] == CachedTracker(t, now)
            && (forall o :: o != org ==> (o in after <==> o in trackers) && (o in after ==> after[o] == trackers[o]))
  {
  }

  /** Two look-ups within 30 minutes of each other return the same tracker. */
  lemma TrackerStable(trackers: map<string, CachedTracker>, org: string, now: int, later: int,
                      created: Tracker, created2: Tracker)
    requires now <= later < now + TrackerTtlMs
    ensures var (t, after) := Looked(trackers, org, now, created);
            Looked(after, org, later, created2).0 == t
  {
  }

  /** The sweep part-way through: the organizations still pending are as
      they were, the others cleaned up. */
  function PartlyCleanedUp(active: map<string, seq<ActiveImport>>, pending: set<string>, now: int)
    : map<string, seq<ActiveImport>>
  {
    map org | org in active && (org in pending || |Live(active[org], now)| > 0)
      :: if org in pending then active[org] else Live(active[org], now)
  }

  /** Cleaning up one more pending organization advances the sweep. */
  lemma CleanupOneMore(active: map<string, seq<ActiveImport>>, pending: set<string>, org: string, now: int)
    requires org in pending && pending <= active.Keys
    ensures CleanedUp(PartlyCleanedUp(active, pending, now), org, now) == PartlyCleanedUp(active, pending - {org}, now)
    ensures pending - {org} == {} ==> PartlyCleanedUp(active, pending - {org}, now) == AllCleanedUp(active, now)
  {
  }

  // ---------------------------------------------------------------------------
  // The manager

  class ImportQuotaManager {
    var trackers: map<string, CachedTracker>
    var activeImports: map<string, seq<ActiveImport>>
    /** `IS_CLOUD`: outside the cloud, imports are not limited. */
    const isCloud: bool

    predicate Valid()
      reads this
    {
      WellFormed(activeImports)
    }

    constructor (isCloud: bool)
      ensures this.isCloud == isCloud && trackers == map[] && activeImports == map[]
      ensures Valid()
    {
      this.isCloud := isCloud;
      trackers := map[];
      activeImports := map[];
    }

    /** `getTracker`; `created` is the tracker `ImportQuotaTracker.create`
        would build. */
    method GetTracker(organizationId: string, now: int, created: Tracker) returns (t: Tracker)
      modifies this
      ensures (t, trackers) == Looked(old(trackers), organizationId, now, created)
      ensures activeImports == old(activeImports)
    {
      if organizationId in trackers && now - trackers[organizationId].lastAccessed < TrackerTtlMs {
        var cached := trackers[organizationId];
        trackers := trackers[organizationId := cached.(lastAccessed := now)];
        return cached.tracker;
      }
      t := created;
      trackers := trackers[organizationId := CachedTracker(t, now)];
    }

    /** `startImport`. */
    method StartImport(organizationId: string, now: int) returns (ok: bool)
      requires Valid()
      modifies this
      ensures Valid()
      ensures !isCloud ==> ok && activeImports == old(activeImports)
      ensures isCloud ==> (ok, activeImports) == Started(old(activeImports), organizationId, now)
      ensures trackers == old(trackers)
    {
      if !isCloud {
        return true;
      }
      CleanupAbandonedImports(organizationId, now);
      var activeSet: seq<ActiveImport>;
      if organizationId in activeImports {
        activeSet := activeImports[organizationId];
      } else {
        activeSet := [];
      }
      if |activeSet| >= ConcurrentImportLimit {
        StartKeepsWellFormed(old(activeImports), organizationId, now);
        return false;
      }
      activeImports := activeImports[organizationId := activeSet + [ActiveImport(now)]];
      StartKeepsWellFormed(old(activeImports), organizationId, now);
      ok := true;
    }

    /** `completeImport`. */
    method CompleteImport(organizationId: string)
      modifies this
      ensures old(Valid()) ==> Valid()
      ensures activeImports == Completed(old(activeImports), organizationId)
      ensures trackers == old(trackers)
    {
      if organizationId !in activeImports {
        return;
      }
      var activeSet := activeImports[organizationId];
      if |activeSet| > 0 {
        activeSet := activeSet[1..];
      }
      if |activeSet| == 0 {
        activeImports := activeImports - {organizationId};
      } else {
        activeImports := activeImports[organizationId := activeSet];
      }
      if WellFormed(old(activeImports)) {
        CompleteKeepsWellFormed(old(activeImports), organizationId);
      }
    }

    /** `cleanupAbandonedImports`: collect the abandoned imports, remove
        them, and drop the organization when none is left. */
    method CleanupAbandonedImports(organizationId: string, now: int)
      modifies this
      ensures activeImports == CleanedUp(old(activeImports), organizationId, now)
      ensures trackers == old(trackers)
    {
      if organizationId !in activeImports {
        return;
      }
      var activeSet := activeImports[organizationId];
      var kept: seq<ActiveImport> := [];
      var i := 0;
      while i < |activeSet|
        invariant 0 <= i <= |activeSet|
        invariant kept == Live(activeSet[..i], now)
        invariant trackers == old(trackers) && activeImports == old(activeImports)
      {
        FilterSnoc(activeSet[..i], activeSet[i], a => !Abandoned(a, now));
        assert activeSet[..i + 1] == activeSet[..i] + [activeSet[i]];
        if !(now - activeSet[i].startedAt > ImportTimeoutMs) {
          kept := kept + [activeSet[i]];
        }
        i := i + 1;
      }
      assert activeSet[..i] == activeSet;
      if |kept| == 0 {
        activeImports := activeImports - {organizationId};
      } else {
        activeImports := activeImports[organizationId := kept];
      }
    }

    /** `cleanup`: drop idle trackers, then clean up every organization's
        abandoned imports. */
    method Cleanup(now: int)
      modifies this
      ensures trackers == SweptTrackers(old(trackers), now)
      ensures activeImports == AllCleanedUp(old(activeImports), now)
      ensures old(Valid()) ==> Valid()
    {
      if Valid() {
        SweepLeavesLiveImports(activeImports, now);
      }
      SweepTrackers(now);
      SweepImports(now);
    }

    /** The first loop of `cleanup`: delete each tracker idle for more than
        30 minutes. */
    method SweepTrackers(now: int)
      modifies this
      ensures trackers == SweptTrackers(old(trackers), now)
      ensures activeImports == old(activeImports)
    {
      var orgs := trackers.Keys;
      while orgs != {}
        invariant orgs <= old(trackers).Keys
        invariant forall o :: o in trackers <==> o in old(trackers) && (o in orgs || !(now - old(trackers)[o].lastAccessed > TrackerTtlMs))
        invariant forall o :: o in trackers ==> trackers[o] == old(trackers)[o]
        invariant activeImports == old(activeImports)
        decreases orgs
      {
        var org :| org in orgs;
        if now - trackers[org].lastAccessed > TrackerTtlMs {
          trackers := trackers - {org};
        }
        orgs := orgs - {org};
      }
    }

    /** The second loop of `cleanup`: `cleanupAbandonedImports` for every
        organization with active imports. */
    method SweepImports(now: int)
      modifies this
      ensures activeImports == AllCleanedUp(old(activeImports), now)
      ensures trackers == old(trackers)
    {
      var pending := activeImports.Keys;
      assert activeImports == PartlyCleanedUp(old(activeImports), pending, now);
      while pending != {}
        invariant pending <= old(activeImports).Keys
        invariant trackers == old(trackers)
        invariant activeImports == PartlyCleanedUp(old(activeImports), pending, now)
        decreases pending
      {
        var org :| org in pending;
        CleanupOneMore(old(activeImports), pending, org, now);
        CleanupAbandonedImports(org, now);
        pending := pending - {org};
      }
    }
  }
}
