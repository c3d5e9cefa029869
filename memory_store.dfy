/** The in-process state store: a dictionary of tracked alerts keyed by
    fingerprint and a set of held lock keys. */
module MemoryStore {
  import opened Wrappers
  import opened Dicts
  import opened Tracking
  import opened Listing

  /** What a caller did to the store, recorded so that callers' contracts can
      say which reads and writes happened. */
  datatype StoreEvent = Read(fingerprint: string) | Write(alert: TrackedAlert)

  /** Every entry is filed under its own fingerprint, once. */
  predicate FiledByFingerprint(d: Dict<TrackedAlert>)
  {
    DistinctKeys(d) && forall i :: 0 <= i < |d| ==> d[i].0 == d[i].1.fingerprint
  }

  class MemoryStateStore {
    var alerts: Dict<TrackedAlert>
    /** Keys for which a lock object has been created. */
    var lockKeys: set<string>
    /** Keys whose lock is currently held. */
    var activeLocks: set<string>
    ghost var log: seq<StoreEvent>

    ghost predicate Valid()
      reads this
    {
      FiledByFingerprint(alerts) && activeLocks <= lockKeys
    }

    constructor ()
      ensures Valid()
      ensures alerts == [] && lockKeys == {} && activeLocks == {} && log == []
    {
      alerts := [];
      lockKeys := {};
      activeLocks := {};
      log := [];
    }

    /** `disconnect` clears all state. */
    method Disconnect()
      modifies this
      ensures Valid()
      ensures alerts == [] && lockKeys == {} && activeLocks == {} && log == old(log)
    {
      alerts := [];
      lockKeys := {};
      activeLocks := {};
    }

    method HealthCheck() returns (healthy: bool)
      ensures healthy
    {
      healthy := true;
    }

    method GetAlert(fingerprint: string) returns (r: Option<TrackedAlert>)
      modifies this`log
      ensures r == Get(alerts, fingerprint)
      ensures log == old(log) + [Read(fingerprint)]
    {
      r := Get(alerts, fingerprint);
      log := log + [Read(fingerprint)];
    }

    method SaveAlert(alert: TrackedAlert)
      requires Valid()
      modifies this`alerts, this`log
      ensures Valid()
      ensures alerts == Put(old(alerts), alert.fingerprint, alert)
      ensures log == old(log) + [Write(alert)]
    {
      PutKeepsFiling(alerts, alert);
      alerts := Put(alerts, alert.fingerprint, alert);
      log := log + [Write(alert)];
    }

    method DeleteAlert(fingerprint: string) returns (existed: bool)
      requires Valid()
      modifies this`alerts
      ensures Valid()
      ensures existed == HasKey(old(alerts), fingerprint)
      ensures alerts == Remove(old(alerts), fingerprint)
    {
      existed := HasKey(alerts, fingerprint);
      RemoveKeepsFiling(alerts, fingerprint);
      alerts := Remove(alerts, fingerprint);
    }

    /** Newest first, optionally only one status, then the page `[offset, offset + limit)`. */
    method ListAlerts(status: Option<string>, limit: int, offset: int) returns (r: seq<TrackedAlert>)
      ensures r == Page(SortByReceivedDesc(FilterStatus(Values(alerts), status)), offset, limit)
    {
      var all := Values(alerts);
      var kept: seq<TrackedAlert> := [];
      var i := 0;
      while i < |all|
        invariant 0 <= i <= |all|
        invariant kept == FilterStatus(all[..i], status)
      {
        FilterStatusPrefix(all, i, status);
        if MatchesStatus(all[i], status) {
          kept := kept + [all[i]];
        }
        i := i + 1;
      }
      assert all[..|all|] == all;
      r := Page(SortByReceivedDesc(kept), offset, limit);
    }

    method GetStats() returns (st: AlertStats)
      ensures st == StatsOf(Values(alerts))
    {
      var all := Values(alerts);
      var total: nat := 0;
      var byStatus: Dict<nat> := [];
      var bySeverity: Dict<nat> := [];
      var i := 0;
      while i < |all|
        invariant 0 <= i <= |all|
        invariant StatsOf(all[..i]) == AlertStats(total, byStatus, bySeverity)
      {
        StatsPrefix(all, i);
        total := total + 1;
        byStatus := Bump(byStatus, TrackingStatusValue(all[i].status));
        bySeverity := Bump(bySeverity, SeverityKey(all[i]));
        i := i + 1;
      }
      assert all[..|all|] == all;
      st := AlertStats(total, byStatus, bySeverity);
    }

    /** Entering `lock(key)`: the lock object is created on demand and taken
        only if nobody holds it; `acquired` tells the caller which. */
    method Lock(key: string) returns (acquired: bool)
      requires Valid()
      modifies this`lockKeys, this`activeLocks
      ensures Valid()
      ensures acquired == (key !in old(activeLocks))
      ensures lockKeys == old(lockKeys) + {key}
      ensures activeLocks == old(activeLocks) + {key}
    {
      lockKeys := lockKeys + {key};
      acquired := key !in activeLocks;
      if acquired {
        activeLocks := activeLocks + {key};
      }
    }

    /** Leaving `lock(key)`: only the caller that acquired the lock releases it. */
    method Unlock(key: string, acquired: bool)
      requires Valid()
      modifies this`activeLocks
      ensures Valid()
      ensures activeLocks == if acquired then old(activeLocks) - {key} else old(activeLocks)
    {
      if acquired {
        activeLocks := activeLocks - {key};
      }
    }

    method IsLocked(key: string) returns (locked: bool)
      ensures locked <==> key in activeLocks
    {
      locked := key in activeLocks;
    }
  }

  lemma PutKeepsFiling(d: Dict<TrackedAlert>, a: TrackedAlert)
    requires FiledByFingerprint(d)
    ensures FiledByFingerprint(Put(d, a.fingerprint, a))
  {
    var r := Put(d, a.fingerprint, a);
    match IndexOf(d, a.fingerprint)
    case None =>
    case Some(i) =>
      assert r == d[i := (a.fingerprint, a)];
  }

  lemma RemoveKeepsFiling(d: Dict<TrackedAlert>, fp: string)
    requires FiledByFingerprint(d)
    ensures FiledByFingerprint(Remove(d, fp))
  {
    match IndexOf(d, fp)
    case None =>
    case Some(i) =>
      var r := d[..i] + d[i + 1..];
      assert Remove(d, fp) == r;
      assert forall j :: 0 <= j < |r| ==> r[j] == (if j < i then d[j] else d[j + 1]);
  }

  lemma FilterStatusPrefix(s: seq<TrackedAlert>, i: nat, status: Option<string>)
    requires i < |s|
    ensures FilterStatus(s[..i + 1], status) ==
      FilterStatus(s[..i], status) + (if MatchesStatus(s[i], status) then [s[i]] else [])
  {
    assert s[..i + 1] == s[..i] + [s[i]];
    FilterStatusSnoc(s[..i], s[i], status);
  }

  lemma FilterStatusSnoc(s: seq<TrackedAlert>, a: TrackedAlert, status: Option<string>)
    ensures FilterStatus(s + [a], status) ==
      FilterStatus(s, status) + (if MatchesStatus(a, status) then [a] else [])
  {
    if s == [] {
      assert [] + [a] == [a];
      assert [a][1..] == [];
    } else {
      assert (s + [a])[1..] == s[1..] + [a];
      assert (s + [a])[0] == s[0];
      FilterStatusSnoc(s[1..], a, status);
    }
  }
}
