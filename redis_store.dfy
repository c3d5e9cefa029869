/** The Redis-backed state store.  The server's keyspace is modelled by its
    three disjoint key families: alert records (`poundcake:alert:<fp>`),
    locks (`poundcake:lock:<key>`) and status index sets
    (`poundcake:index:status:<value>`); `KeySpaces` shows the families do not
    collide.  The JSON round trip of a tracked alert is taken as given by
    storing the record itself.  Expiry is recorded but never applied, since
    time does not pass in the model. */
module RedisStore {
  import opened Wrappers
  import opened Dicts
  import opened Strings
  import opened Tracking
  import opened Listing

  const AlertPrefix: string := "poundcake:alert:"
  const LockPrefix: string := "poundcake:lock:"
  const IndexPrefix: string := "poundcake:index:"
  const NotConnected: string := "Redis client not connected"

  function AlertKey(fingerprint: string): string { AlertPrefix + fingerprint }
  function LockKey(key: string): string { LockPrefix + key }
  function IndexKey(statusValue: string): string { IndexPrefix + "status:" + statusValue }

  /** The three key families are disjoint, and each key determines its suffix. */
  lemma KeySpaces(fp: string, fp': string, key: string, v: string)
    ensures AlertKey(fp) != LockKey(key) && AlertKey(fp) != IndexKey(v) && LockKey(key) != IndexKey(v)
    ensures AlertKey(fp) == AlertKey(fp') ==> fp == fp'
  {
    assert AlertKey(fp)[10] == 'a' && LockKey(key)[10] == 'l' && IndexKey(v)[10] == 'i';
    assert AlertKey(fp)[|AlertPrefix|..] == fp;
    assert AlertKey(fp')[|AlertPrefix|..] == fp';
  }

  /** Distinct statuses have distinct index set names. */
  lemma IndexKeyInjective(s: TrackingStatus, t: TrackingStatus)
    ensures IndexKey(TrackingStatusValue(s)) == IndexKey(TrackingStatusValue(t)) ==> s == t
  {
    var p := IndexPrefix + "status:";
    if IndexKey(TrackingStatusValue(s)) == IndexKey(TrackingStatusValue(t)) {
      assert IndexKey(TrackingStatusValue(s))[|p|..] == TrackingStatusValue(s);
      assert IndexKey(TrackingStatusValue(t))[|p|..] == TrackingStatusValue(t);
      StatusValueInjective(s, t);
    }
  }

  /** A stored string value with its expiry in seconds, if any. */
  datatype Stored<T> = Stored(value: T, ttl: Option<int>)

  /** Index sets by status; a status whose set was never written has none. */
  type Index = map<TrackingStatus, set<string>>

  /** `SMEMBERS` of the index set of `s`: a missing set is empty. */
  function MembersOf(index: Index, s: TrackingStatus): set<string>
  {
    if s in index then index[s] else {}
  }

  /** `SMEMBERS poundcake:index:status:<v>` for an arbitrary `v`: only the
      five status values name a set this store writes. */
  function MembersNamed(index: Index, v: string): set<string>
  {
    match ParseTrackingStatus(v)
    case Some(s) => MembersOf(index, s)
    case None => {}
  }

  type Records = map<string, Stored<TrackedAlert>>

  /** The status of the record stored under `fp`, if there is one. */
  function StatusOf(records: Records, fp: string): Option<TrackingStatus>
  {
    if fp in records then Some(records[fp].value.status) else None
  }

  /** Each record is filed under its own fingerprint. */
  ghost predicate Filed(records: Records)
  {
    forall fp :: fp in records ==> records[fp].value.fingerprint == fp
  }

  /** Each status index set holds exactly the fingerprints stored with that status. */
  ghost predicate IndexConsistent(records: Records, index: Index)
  {
    forall s: TrackingStatus, fp :: fp in MembersOf(index, s) <==> StatusOf(records, fp) == Some(s)
  }

  /** `fp` left every index set of `before` and, for `Some(s)`, joined that of `s`. */
  ghost predicate Reindexed(before: Index, after: Index, fp: string, st: Option<TrackingStatus>)
  {
    forall s: TrackingStatus :: MembersOf(after, s) ==
      (MembersOf(before, s) - {fp}) + (if st == Some(s) then {fp} else {})
  }

  /** `SREM poundcake:index:status:<s> fp` */
  function Srem(index: Index, s: TrackingStatus, fp: string): Index
  {
    index[s := MembersOf(index, s) - {fp}]
  }

  /** The `for status in AlertTrackingStatus` loop of SREMs, over `statuses`. */
  method UnindexLoop(index: Index, fp: string, statuses: seq<TrackingStatus>) returns (r: Index)
    ensures forall s :: MembersOf(r, s) == if s in statuses then MembersOf(index, s) - {fp} else MembersOf(index, s)
  {
    r := index;
    var i := 0;
    while i < |statuses|
      invariant 0 <= i <= |statuses|
      invariant forall s :: MembersOf(r, s) == if s in statuses[..i] then MembersOf(index, s) - {fp} else MembersOf(index, s)
    {
      assert forall s :: s in statuses[..i + 1] <==> s in statuses[..i] || s == statuses[i];
      r := Srem(r, statuses[i], fp);
      i := i + 1;
    }
    assert statuses[..i] == statuses;
  }

  /** The SREM loop over every status, then the SADD for the new status if there is one. */
  method ReindexStatuses(index: Index, fp: string, st: Option<TrackingStatus>) returns (r: Index)
    ensures Reindexed(index, r, fp, st)
  {
    r := UnindexLoop(index, fp, AllTrackingStatuses);
    forall s: TrackingStatus ensures s in AllTrackingStatuses {
      StatusValueRoundTrip(s);
    }
    if st.Some? {
      r := r[st.value := MembersOf(r, st.value) + {fp}];
    }
  }

  /** Writing a record and reindexing its fingerprint keeps the store consistent. */
  lemma SaveKeepsConsistency(records: Records, index: Index, index': Index, a: TrackedAlert, ttl: Option<int>)
    requires Filed(records) && IndexConsistent(records, index)
    requires Reindexed(index, index', a.fingerprint, Some(a.status))
    ensures Filed(records[a.fingerprint := Stored(a, ttl)])
    ensures IndexConsistent(records[a.fingerprint := Stored(a, ttl)], index')
  {
    forall s: TrackingStatus, fp
      ensures fp in MembersOf(index', s) <==> StatusOf(records[a.fingerprint := Stored(a, ttl)], fp) == Some(s)
    {
      assert MembersOf(index', s) ==
        (MembersOf(index, s) - {a.fingerprint}) + (if Some(a.status) == Some(s) then {a.fingerprint} else {});
      if fp == a.fingerprint {
        assert StatusOf(records[a.fingerprint := Stored(a, ttl)], fp) == Some(a.status);
      } else {
        assert StatusOf(records[a.fingerprint := Stored(a, ttl)], fp) == StatusOf(records, fp);
        assert fp in MembersOf(index', s) <==> fp in MembersOf(index, s);
      }
    }
  }

  /** Deleting a record and unindexing its fingerprint keeps the store consistent. */
  lemma DeleteKeepsConsistency(records: Records, index: Index, index': Index, fingerprint: string)
    requires Filed(records) && IndexConsistent(records, index)
    requires Reindexed(index, index', fingerprint, None)
    ensures Filed(records - {fingerprint})
    ensures IndexConsistent(records - {fingerprint}, index')
  {
    forall s: TrackingStatus, fp
      ensures fp in MembersOf(index', s) <==> StatusOf(records - {fingerprint}, fp) == Some(s)
    {
      assert MembersOf(index', s) == MembersOf(index, s) - {fingerprint};
      if fp != fingerprint {
        assert StatusOf(records - {fingerprint}, fp) == StatusOf(records, fp);
      }
    }
  }

  /** The stored form of a record: resolved alerts expire after `ttlHours` hours. */
  function Saved(a: TrackedAlert, ttlHours: int): (r: Stored<TrackedAlert>)
    ensures r.value == a
    ensures r.ttl.Some? <==> a.status == Resolved
    ensures r.ttl.Some? ==> r.ttl.value == ttlHours * 3600
  {
    Stored(a, if a.status == Resolved then Some(ttlHours * 3600) else None)
  }

  /** Records under `fps` whose severity key is `sev`. */
  function WithSeverity(records: Records, fps: set<string>, sev: string): set<string>
  {
    set fp | fp in fps && fp in records && SeverityKey(records[fp].value) == sev
  }

  predicate NoDuplicates(s: seq<string>)
  {
    forall i, j :: 0 <= i < j < |s| ==> s[i] != s[j]
  }

  /** Turning a set reply into a list, in whatever order the server sent it. */
  method Enumerate(source: set<string>) returns (names: seq<string>)
    ensures NoDuplicates(names)
    ensures forall x :: x in names <==> x in source
  {
    var remaining := source;
    names := [];
    while remaining != {}
      invariant remaining <= source
      invariant NoDuplicates(names)
      invariant forall x :: x in names <==> x in source && x !in remaining
      decreases |remaining|
    {
      var x :| x in remaining;
      names := names + [x];
      remaining := remaining - {x};
    }
  }

  /** The status values of `statuses`, in order. */
  function StatusLabels(statuses: seq<TrackingStatus>): (r: seq<string>)
    ensures |r| == |statuses|
    ensures forall i :: 0 <= i < |statuses| ==> r[i] == TrackingStatusValue(statuses[i])
  {
    seq(|statuses|, i requires 0 <= i < |statuses| => TrackingStatusValue(statuses[i]))
  }

  /** The five status values are distinct. */
  lemma AllLabelsDistinct()
    ensures NoDuplicates(StatusLabels(AllTrackingStatuses))
  {
    forall i, j | 0 <= i < j < |AllTrackingStatuses|
      ensures TrackingStatusValue(AllTrackingStatuses[i]) != TrackingStatusValue(AllTrackingStatuses[j])
    {
      StatusValueInjective(AllTrackingStatuses[i], AllTrackingStatuses[j]);
    }
  }

  lemma LabelNotEarlier(statuses: seq<TrackingStatus>, i: nat)
    requires NoDuplicates(StatusLabels(statuses)) && i < |statuses|
    ensures TrackingStatusValue(statuses[i]) !in StatusLabels(statuses[..i])
  {
    var labels := StatusLabels(statuses);
    forall j | 0 <= j < i ensures StatusLabels(statuses[..i])[j] != labels[i] {
      assert StatusLabels(statuses[..i])[j] == labels[j];
    }
  }

  lemma FreshKeyAbsent(d: Dict<nat>, labels: seq<string>, v: string)
    requires forall i :: 0 <= i < |d| ==> d[i].0 in labels
    requires v !in labels
    ensures !HasKey(d, v)
  {
  }

  /** Counts of the index sets of `statuses`, in that order, leaving out empty ones. */
  function StatusTally(index: Index, statuses: seq<TrackingStatus>): (d: Dict<nat>)
    ensures forall i :: 0 <= i < |d| ==> d[i].1 > 0
    ensures forall i :: 0 <= i < |d| ==> d[i].0 in StatusLabels(statuses)
  {
    if statuses == [] then []
    else
      var init := statuses[..|statuses| - 1];
      var last := statuses[|statuses| - 1];
      var prev := StatusTally(index, init);
      var n := |MembersOf(index, last)|;
      assert forall w :: w in StatusLabels(init) ==> w in StatusLabels(statuses);
      if n > 0 then prev + [(TrackingStatusValue(last), n)] else prev
  }

  lemma TallyStep(index: Index, statuses: seq<TrackingStatus>, i: nat)
    requires i < |statuses|
    ensures var n := |MembersOf(index, statuses[i])|;
      StatusTally(index, statuses[..i + 1]) ==
        if n > 0 then StatusTally(index, statuses[..i]) + [(TrackingStatusValue(statuses[i]), n)]
        else StatusTally(index, statuses[..i])
  {
    assert statuses[..i + 1][..i] == statuses[..i];
  }

  /** The status loop of `get_stats`, over statuses with distinct values. */
  method TallyStatuses(index: Index, statuses: seq<TrackingStatus>) returns (byStatus: Dict<nat>, total: nat)
    requires NoDuplicates(StatusLabels(statuses))
    ensures byStatus == StatusTally(index, statuses)
    ensures total == Sum(byStatus)
  {
    total := 0;
    byStatus := [];
    var i := 0;
    while i < |statuses|
      invariant 0 <= i <= |statuses|
      invariant byStatus == StatusTally(index, statuses[..i]) && total == Sum(byStatus)
    {
      var v := TrackingStatusValue(statuses[i]);
      var count := |MembersOf(index, statuses[i])|;
      TallyStep(index, statuses, i);
      if count > 0 {
        LabelNotEarlier(statuses, i);
        FreshKeyAbsent(byStatus, StatusLabels(statuses[..i]), v);
        SumSnoc(byStatus, (v, count));
        byStatus := Put(byStatus, v, count);
        total := total + count;
      }
      i := i + 1;
    }
    assert statuses[..i] == statuses;
  }

  lemma SeverityStep(records: Records, done: set<string>, fp: string)
    requires fp !in done && fp in records
    ensures forall sev :: (|WithSeverity(records, done + {fp}, sev)| ==
      |WithSeverity(records, done, sev)| + (if SeverityKey(records[fp].value) == sev then 1 else 0))
  {
    forall sev
      ensures |WithSeverity(records, done + {fp}, sev)| ==
        |WithSeverity(records, done, sev)| + (if SeverityKey(records[fp].value) == sev then 1 else 0)
    {
      if SeverityKey(records[fp].value) == sev {
        assert WithSeverity(records, done + {fp}, sev) == WithSeverity(records, done, sev) + {fp};
      } else {
        assert WithSeverity(records, done + {fp}, sev) == WithSeverity(records, done, sev);
      }
    }
  }

  /** Counting the record `fp` keeps the tally exact and free of zero counters. */
  lemma SeverityTallyStep(records: Records, done: set<string>, fp: string, d: Dict<nat>)
    requires done <= records.Keys && fp in records && fp !in done
    requires forall sev :: Get(d, sev).GetOr(0) == |WithSeverity(records, done, sev)|
    requires forall sev :: Get(d, sev) != Some(0)
    ensures forall sev :: (Get(Bump(d, SeverityKey(records[fp].value)), sev).GetOr(0) ==
      |WithSeverity(records, done + {fp}, sev)|)
    ensures forall sev :: Get(Bump(d, SeverityKey(records[fp].value)), sev) != Some(0)
  {
    SeverityStep(records, done, fp);
  }

  /** The severity loop of `get_stats`, over every stored record. */
  method TallySeverities(records: Records) returns (bySeverity: Dict<nat>)
    ensures forall sev :: Get(bySeverity, sev).GetOr(0) == |WithSeverity(records, records.Keys, sev)|
    ensures forall sev :: HasKey(bySeverity, sev) <==> |WithSeverity(records, records.Keys, sev)| > 0
  {
    var remaining := records.Keys;
    bySeverity := [];
    while remaining != {}
      invariant remaining <= records.Keys
      invariant forall sev :: Get(bySeverity, sev).GetOr(0) == |WithSeverity(records, records.Keys - remaining, sev)|
      invariant forall sev :: Get(bySeverity, sev) != Some(0)
      decreases |remaining|
    {
      var fp :| fp in remaining;
      SeverityTallyStep(records, records.Keys - remaining, fp, bySeverity);
      assert records.Keys - (remaining - {fp}) == (records.Keys - remaining) + {fp};
      bySeverity := Bump(bySeverity, SeverityKey(records[fp].value));
      remaining := remaining - {fp};
    }
    assert records.Keys - remaining == records.Keys;
  }

  class RedisStateStore {
    const alertTtlHours: int
    const lockTimeout: int
    var connected: bool
    var records: Records
    var locks: map<string, Stored<string>>
    var index: Index

    /** The keys `poundcake:alert:*` the server holds. */
    function AlertKeys(): set<string>
      reads this
    {
      set fp | fp in records :: AlertKey(fp)
    }

    ghost predicate Valid()
      reads this
    {
      Filed(records) && IndexConsistent(records, index)
    }

    constructor (alertTtlHours: int, lockTimeout: int)
      ensures Valid()
      ensures this.alertTtlHours == alertTtlHours && this.lockTimeout == lockTimeout
      ensures !connected && records == map[] && locks == map[] && index == map[]
    {
      this.alertTtlHours := alertTtlHours;
      this.lockTimeout := lockTimeout;
      connected := false;
      records := map[];
      locks := map[];
      index := map[];
    }

    method Connect()
      modifies this`connected
      ensures connected
    {
      connected := true;
    }

    /** Closing the client leaves the server's data in place. */
    method Disconnect()
      modifies this`connected
      ensures !connected
    {
      connected := false;
    }

    /** Healthy when connected and the server answers a PING (`pingAnswered`). */
    method HealthCheck(pingAnswered: bool) returns (healthy: bool)
      ensures healthy <==> connected && pingAnswered
    {
      healthy := connected && pingAnswered;
    }

    /** The lookup `get_alert` makes once connected. */
    function Lookup(fp: string): (r: Option<TrackedAlert>)
      reads this
      requires Valid()
      ensures r.Some? <==> fp in records
      ensures r.Some? ==> r.value.fingerprint == fp && MembersNamed(index, TrackingStatusValue(r.value.status)) == MembersOf(index, r.value.status)
      ensures r.Some? ==> fp in MembersOf(index, r.value.status)
    {
      if fp in records then
        assert StatusOf(records, fp) == Some(records[fp].value.status);
        StatusValueRoundTrip(records[fp].value.status);
        Some(records[fp].value)
      else None
    }

    method GetAlert(fingerprint: string) returns (r: Result<Option<TrackedAlert>>)
      requires Valid()
      ensures !connected ==> r == Err(NotConnected)
      ensures connected ==> r == Ok(Lookup(fingerprint))
    {
      if !connected {
        return Err(NotConnected);
      }
      r := Ok(Lookup(fingerprint));
    }

    /** Whether `SETEX` would be sent a non-positive expiry for `alert`. */
    predicate BadExpiry(alert: TrackedAlert)
    {
      alert.status == Resolved && alertTtlHours * 3600 <= 0
    }

    /** Writes the record (with the resolved-alert expiry), then moves the
        fingerprint to the index set of its current status.  Redis refuses a
        non-positive `SETEX` expiry, and the index is then left alone too. */
    method SaveAlert(alert: TrackedAlert) returns (r: Result<bool>)
      requires Valid()
      modifies this`records, this`index
      ensures Valid()
      ensures !connected ==> r.Err? && records == old(records) && index == old(index)
      ensures connected && BadExpiry(alert) ==> r.Err? && records == old(records) && index == old(index)
      ensures connected && !BadExpiry(alert) ==> r == Ok(true)
      ensures connected && !BadExpiry(alert) ==>
        records == old(records)[alert.fingerprint := Saved(alert, alertTtlHours)]
      ensures connected && !BadExpiry(alert) ==> Reindexed(old(index), index, alert.fingerprint, Some(alert.status))
    {
      if !connected {
        return Err(NotConnected);
      }
      if BadExpiry(alert) {
        return Err("invalid expire time in 'setex' command");
      }
      var indexed := ReindexStatuses(index, alert.fingerprint, Some(alert.status));
      SaveKeepsConsistency(records, index, indexed, alert, Saved(alert, alertTtlHours).ttl);
      records := records[alert.fingerprint := Saved(alert, alertTtlHours)];
      index := indexed;
      r := Ok(true);
    }

    method DeleteAlert(fingerprint: string) returns (r: Result<bool>)
      requires Valid()
      modifies this`records, this`index
      ensures Valid()
      ensures !connected ==> r.Err? && records == old(records) && index == old(index)
      ensures connected ==> r == Ok(fingerprint in old(records))
      ensures connected ==> records == old(records) - {fingerprint}
      ensures connected ==> Reindexed(old(index), index, fingerprint, None)
    {
      if !connected {
        return Err(NotConnected);
      }
      var existed := fingerprint in records;
      var cleared := ReindexStatuses(index, fingerprint, None);
      DeleteKeepsConsistency(records, index, cleared, fingerprint);
      records := records - {fingerprint};
      index := cleared;
      r := Ok(existed);
    }

    /** The stored records of `fps`, in order, skipping fingerprints with none. */
    function Present(fps: seq<string>): (r: seq<TrackedAlert>)
      reads this
      requires Valid()
      ensures |r| <= |fps|
      ensures forall a :: a in r ==> a.fingerprint in fps && a.fingerprint in records && records[a.fingerprint].value == a
    {
      if fps == [] then []
      else
        var rest := Present(fps[1..]);
        match Lookup(fps[0])
        case Some(a) => [a] + rest
        case None => rest
    }

    /** The `get_alert` loop of `list_alerts`, keeping the records found. */
    method FetchPresent(fps: seq<string>) returns (found: seq<TrackedAlert>)
      requires Valid()
      ensures found == Present(fps)
    {
      found := [];
      var i := 0;
      while i < |fps|
        invariant 0 <= i <= |fps|
        invariant Present(fps) == found + Present(fps[i..])
      {
        assert fps[i..][1..] == fps[i + 1..];
        match Lookup(fps[i]) {
          case Some(a) => found := found + [a];
          case None =>
        }
        i := i + 1;
      }
      assert fps[i..] == [];
    }

    /** Candidates come from the status index (a non-empty `status`) or from
        the alert keys with every occurrence of the prefix removed; they are
        sorted, paged, fetched, and finally ordered newest first.  The ghost
        outputs name the order in which the server returned keys or members. */
    method ListAlerts(status: Option<string>, limit: int, offset: int)
      returns (r: Result<seq<TrackedAlert>>, ghost keys: seq<string>, ghost listed: seq<string>)
      requires Valid()
      ensures !connected ==> r == Err(NotConnected)
      ensures connected && status.Some? && status.value != [] ==>
        NoDuplicates(listed) && (forall x :: x in listed <==> x in MembersNamed(index, status.value))
      ensures connected && !(status.Some? && status.value != []) ==>
        NoDuplicates(keys) && (forall k :: k in keys <==> k in AlertKeys())
        && |listed| == |keys| && (forall i :: 0 <= i < |keys| ==> listed[i] == ReplaceAll(keys[i], AlertPrefix, ""))
      ensures connected ==> r == Ok(SortByReceivedDesc(Present(Page(SortAsc(listed), offset, limit))))
    {
      keys, listed := [], [];
      if !connected {
        return Err(NotConnected), keys, listed;
      }
      var fps: seq<string>;
      if status.Some? && status.value != [] {
        fps := Enumerate(MembersNamed(index, status.value));
      } else {
        var names := Enumerate(AlertKeys());
        keys := names;
        fps := seq(|names|, i requires 0 <= i < |names| => ReplaceAll(names[i], AlertPrefix, ""));
      }
      listed := fps;
      var found := FetchPresent(Page(SortAsc(fps), offset, limit));
      r := Ok(SortByReceivedDesc(found));
    }

    method GetStats() returns (r: Result<AlertStats>)
      ensures !connected ==> r == Err(NotConnected)
      ensures connected ==> r.Ok? && r.value.byStatus == StatusTally(index, AllTrackingStatuses)
      ensures connected ==> r.Ok? && r.value.total == Sum(r.value.byStatus)
      ensures connected ==> r.Ok? && forall sev ::
        Get(r.value.bySeverity, sev).GetOr(0) == |WithSeverity(records, records.Keys, sev)|
      ensures connected ==> r.Ok? && forall sev ::
        HasKey(r.value.bySeverity, sev) <==> |WithSeverity(records, records.Keys, sev)| > 0
    {
      if !connected {
        return Err(NotConnected);
      }
      AllLabelsDistinct();
      var byStatus, total := TallyStatuses(index, AllTrackingStatuses);
      var bySeverity := TallySeverities(records);
      r := Ok(AlertStats(total, byStatus, bySeverity));
    }

    /** `timeout or self._lock_timeout` */
    function LockTtl(timeout: Option<int>): (ttl: int)
      ensures timeout.Some? && timeout.value != 0 ==> ttl == timeout.value
      ensures timeout.None? || timeout.value == 0 ==> ttl == lockTimeout
    {
      if timeout.Some? && timeout.value != 0 then timeout.value else lockTimeout
    }

    /** Entering `lock(key, timeout)`: SET NX with expiry `timeout or lock_timeout`
        and the current time (`now`) as value; Redis refuses a non-positive expiry. */
    method Lock(key: string, timeout: Option<int>, now: string) returns (r: Result<bool>)
      modifies this`locks
      ensures !connected ==> r == Err(NotConnected) && locks == old(locks)
      ensures connected && LockTtl(timeout) <= 0 ==> r.Err? && locks == old(locks)
      ensures connected && LockTtl(timeout) > 0 ==> r == Ok(key !in old(locks))
      ensures connected && LockTtl(timeout) > 0 && key in old(locks) ==> locks == old(locks)
      ensures connected && LockTtl(timeout) > 0 && key !in old(locks) ==>
        locks == old(locks)[key := Stored(now, Some(LockTtl(timeout)))]
    {
      if !connected {
        return Err(NotConnected);
      }
      var ttl := LockTtl(timeout);
      if ttl <= 0 {
        return Err("invalid expire time in 'set' command");
      }
      var acquired := key !in locks;
      if acquired {
        locks := locks[key := Stored(now, Some(ttl))];
      }
      r := Ok(acquired);
    }

    /** Leaving `lock(key, …)`: the holder deletes the lock key; a caller
        that did not acquire it sends nothing. */
    method Unlock(key: string, acquired: bool) returns (r: Result<bool>)
      modifies this`locks
      ensures !acquired ==> r == Ok(true) && locks == old(locks)
      ensures acquired && !connected ==> r.Err? && locks == old(locks)
      ensures acquired && connected ==> r == Ok(true) && locks == old(locks) - {key}
    {
      if !acquired {
        return Ok(true);
      }
      if !connected {
        return Err(NotConnected);
      }
      locks := locks - {key};
      r := Ok(true);
    }

    method IsLocked(key: string) returns (r: Result<bool>)
      ensures !connected ==> r == Err(NotConnected)
      ensures connected ==> r == Ok(key in locks)
    {
      if !connected {
        return Err(NotConnected);
      }
      r := Ok(key in locks);
    }
  }
}
