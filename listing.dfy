/** Filtering, ordering, paging and counting of tracked alerts, shared by
    the two state stores. */
module Listing {
  import opened Wrappers
  import opened Dicts
  import opened Tracking

  /** `if status:` filters only for a non-empty status text. */
  predicate MatchesStatus(a: TrackedAlert, status: Option<string>)
  {
    status.None? || status.value == [] || TrackingStatusValue(a.status) == status.value
  }

  function FilterStatus(s: seq<TrackedAlert>, status: Option<string>): (r: seq<TrackedAlert>)
    ensures forall i :: 0 <= i < |r| ==> MatchesStatus(r[i], status)
    ensures multiset(r) <= multiset(s)
    ensures forall a :: a in s && MatchesStatus(a, status) ==> a in r
  {
    if s == [] then []
    else
      var t := FilterStatus(s[1..], status);
      assert s == [s[0]] + s[1..];
      if MatchesStatus(s[0], status) then [s[0]] + t else t
  }

  predicate SortedByReceivedDesc(s: seq<TrackedAlert>)
  {
    forall i :: 0 < i < |s| ==> s[i - 1].receivedAt >= s[i].receivedAt
  }

  /** Insert `x` before the first alert received no later than it, so that
      among equal times the earlier input comes first. */
  function InsertByReceived(x: TrackedAlert, s: seq<TrackedAlert>): (r: seq<TrackedAlert>)
    requires SortedByReceivedDesc(s)
    ensures SortedByReceivedDesc(r)
    ensures multiset(r) == multiset(s) + multiset{x}
    ensures r[0] == x || (s != [] && r[0] == s[0])
  {
    if s == [] || s[0].receivedAt <= x.receivedAt then [x] + s
    else
      assert s == [s[0]] + s[1..];
      [s[0]] + InsertByReceived(x, s[1..])
  }

  /** `alerts.sort(key=received_at, reverse=True)`: a stable sort, newest first. */
  function SortByReceivedDesc(s: seq<TrackedAlert>): (r: seq<TrackedAlert>)
    ensures SortedByReceivedDesc(r)
    ensures multiset(r) == multiset(s)
  {
    if s == [] then []
    else
      assert s == [s[0]] + s[1..];
      InsertByReceived(s[0], SortByReceivedDesc(s[1..]))
  }

  /** A Python slice bound: negative counts from the end; both ends clamp. */
  function SliceBound(i: int, n: nat): (r: nat)
    ensures r <= n
    ensures 0 <= i <= n ==> r == i
  {
    if i < 0 then (if i + n < 0 then 0 else i + n) else if i > n then n else i
  }

  /** `s[start:stop]` */
  function PySlice<T>(s: seq<T>, start: int, stop: int): (r: seq<T>)
    ensures |r| <= |s|
  {
    var a, b := SliceBound(start, |s|), SliceBound(stop, |s|);
    if a < b then s[a..b] else []
  }

  /** `s[offset : offset + limit]` */
  function Page<T>(s: seq<T>, offset: int, limit: int): seq<T>
  {
    PySlice(s, offset, offset + limit)
  }

  /** For non-negative arguments a page is the window of at most `limit`
      items starting at `offset`; it is empty past the end. */
  lemma PageWindow<T>(s: seq<T>, offset: nat, limit: nat)
    ensures var r := Page(s, offset, limit);
      |r| <= limit
      && (offset >= |s| ==> r == [])
      && (offset + limit <= |s| ==> r == s[offset..offset + limit])
      && (offset < |s| < offset + limit ==> r == s[offset..])
  {
  }

  /** A negative limit drops that many items from the end (when it can). */
  lemma NegativeLimitDropsTail<T>(s: seq<T>, limit: int)
    requires limit < 0 && -limit <= |s|
    ensures Page(s, 0, limit) == s[..|s| + limit]
  {
  }

  /** The key under which an alert is counted by severity: `severity or "unknown"`. */
  function SeverityKey(a: TrackedAlert): (k: string)
    ensures k != []
    ensures a.severity.Some? && a.severity.value != [] ==> k == a.severity.value
  {
    if a.severity.Some? && a.severity.value != [] then a.severity.value else "unknown"
  }

  /** The statistics loop over the alerts in store order. */
  function StatsOf(s: seq<TrackedAlert>): (st: AlertStats)
  {
    if s == [] then AlertStats(0, [], [])
    else
      var prev := StatsOf(s[..|s| - 1]);
      var a := s[|s| - 1];
      AlertStats(prev.total + 1,
                 Bump(prev.byStatus, TrackingStatusValue(a.status)),
                 Bump(prev.bySeverity, SeverityKey(a)))
  }

  /** One more alert in the statistics loop. */
  lemma StatsPrefix(s: seq<TrackedAlert>, i: nat)
    requires i < |s|
    ensures StatsOf(s[..i + 1]) == AlertStats(StatsOf(s[..i]).total + 1,
      Bump(StatsOf(s[..i]).byStatus, TrackingStatusValue(s[i].status)),
      Bump(StatsOf(s[..i]).bySeverity, SeverityKey(s[i])))
  {
    var t := s[..i + 1];
    assert t[..i] == s[..i] && t[i] == s[i];
  }

  function CountWithStatus(s: seq<TrackedAlert>, v: string): (n: nat)
    ensures n <= |s|
  {
    if s == [] then 0
    else CountWithStatus(s[..|s| - 1], v) + if TrackingStatusValue(s[|s| - 1].status) == v then 1 else 0
  }

  function CountWithSeverity(s: seq<TrackedAlert>, k: string): (n: nat)
    ensures n <= |s|
  {
    if s == [] then 0
    else CountWithSeverity(s[..|s| - 1], k) + if SeverityKey(s[|s| - 1]) == k then 1 else 0
  }

  /** The tallies each add up to the total, which is the number of alerts. */
  lemma {:induction false} StatsAddUp(s: seq<TrackedAlert>)
    ensures StatsOf(s).total == |s|
    ensures Sum(StatsOf(s).byStatus) == |s| && Sum(StatsOf(s).bySeverity) == |s|
  {
    if s != [] {
      StatsAddUp(s[..|s| - 1]);
    }
  }

  /** Each status is counted exactly as often as it occurs, and only occurring
      statuses are listed. */
  lemma {:induction false} StatsCountStatuses(s: seq<TrackedAlert>, v: string)
    ensures Get(StatsOf(s).byStatus, v).GetOr(0) == CountWithStatus(s, v)
    ensures HasKey(StatsOf(s).byStatus, v) <==> CountWithStatus(s, v) > 0
  {
    if s != [] {
      var p, a := s[..|s| - 1], s[|s| - 1];
      StatsCountStatuses(p, v);
      var d := StatsOf(p).byStatus;
      assert StatsOf(s).byStatus == Bump(d, TrackingStatusValue(a.status));
      assert CountWithStatus(s, v) == CountWithStatus(p, v) + if TrackingStatusValue(a.status) == v then 1 else 0;
      if TrackingStatusValue(a.status) != v {
        assert Get(Bump(d, TrackingStatusValue(a.status)), v) == Get(d, v);
      }
    }
  }

  /** Likewise for severities, an absent or empty severity counting as "unknown". */
  lemma {:induction false} StatsCountSeverities(s: seq<TrackedAlert>, k: string)
    ensures Get(StatsOf(s).bySeverity, k).GetOr(0) == CountWithSeverity(s, k)
    ensures HasKey(StatsOf(s).bySeverity, k) <==> CountWithSeverity(s, k) > 0
  {
    if s != [] {
      var p, a := s[..|s| - 1], s[|s| - 1];
      StatsCountSeverities(p, k);
      var d := StatsOf(p).bySeverity;
      assert StatsOf(s).bySeverity == Bump(d, SeverityKey(a));
      assert CountWithSeverity(s, k) == CountWithSeverity(p, k) + if SeverityKey(a) == k then 1 else 0;
      if SeverityKey(a) != k {
        assert Get(Bump(d, SeverityKey(a)), k) == Get(d, k);
      }
    }
  }
}
