/** The Redis keys: debounce windows, the dashboard entry and the per-second throughput buckets,
    each with the time at which it expires. */
module Redis {
  import opened Models
  import opened Retries

  datatype Entry<+T> = Entry(value: T, expiresAt: Option<Time>)

  predicate Alive<T>(e: Entry<T>, now: Time) { e.expiresAt.None? || now < e.expiresAt.value }

  const DASHBOARD_TTL := 3.0
  const DEBOUNCE_TTL := 15.0
  const THROUGHPUT_TTL := 10.0
  const WINDOW := 5 // seconds the throughput is averaged over

  // --- Throughput buckets ------------------------------------------------------------------------

  type Buckets = map<int, Entry<nat>> // by unix second

  /** How far the INCR and EXPIRE pipeline got. */
  datatype Pipeline = Lost | IncrOnly | Complete

  function Count(b: Buckets, k: int, now: Time): nat { if k in b && Alive(b[k], now) then b[k].value else 0 }

  function Bumped(b: Buckets, now: Time, p: Pipeline): Buckets {
    var k := now.Floor;
    var kept := if k in b && Alive(b[k], now) then b[k].expiresAt else None;
    match p
    case Lost => b
    case IncrOnly => b[k := Entry(Count(b, k, now) + 1, kept)]
    case Complete => b[k := Entry(Count(b, k, now) + 1, Some(now + THROUGHPUT_TTL))]
  }

  /** The first `n` buckets read, newest first: their sum, and how many there are. */
  function Total(b: Buckets, now: Time, n: nat): nat {
    if n == 0 then 0 else Total(b, now, n - 1) + Count(b, now.Floor - (n - 1), now)
  }

  function Present(b: Buckets, now: Time, n: nat): nat {
    if n == 0 then 0
    else Present(b, now, n - 1) +
         if now.Floor - (n - 1) in b && Alive(b[now.Floor - (n - 1)], now) then 1 else 0
  }

  /** The average over the buckets that are there: times their number it is the window's total. */
  predicate IsRate(b: Buckets, now: Time, sps: real) {
    && sps * Present(b, now, WINDOW) as real == Total(b, now, WINDOW) as real
    && (Present(b, now, WINDOW) == 0 ==> sps == 0.0)
  }

  /** What is shown as the rate: an unanswered read counts as 0. */
  predicate IsRateRead(b: Buckets, now: Time, up: bool, sps: real) {
    if up then IsRate(b, now, sps) else sps == 0.0
  }

  /** The log the buckets stand for: every increment, and how its pipeline ended. */
  datatype Increment = Increment(at: Time, pipeline: Pipeline)

  predicate InOrder(log: seq<Increment>) { forall i, j :: 0 <= i < j < |log| ==> log[i].at <= log[j].at }

  function BucketsAfter(log: seq<Increment>): Buckets {
    if log == [] then map[]
    else Bumped(BucketsAfter(log[..|log| - 1]), log[|log| - 1].at, log[|log| - 1].pipeline)
  }

  /** Increments the log counted in clock seconds from `lo` to `hi`. */
  function Logged(log: seq<Increment>, lo: int, hi: int): nat {
    if log == [] then 0
    else Logged(log[..|log| - 1], lo, hi) +
         if log[|log| - 1].pipeline != Lost && lo <= log[|log| - 1].at.Floor <= hi then 1 else 0
  }

  lemma {:induction false} LoggedSplit(log: seq<Increment>, lo: int, mid: int, hi: int)
    requires lo <= mid + 1 <= hi + 1
    ensures Logged(log, lo, hi) == Logged(log, lo, mid) + Logged(log, mid + 1, hi)
  {
    if log != [] {
      LoggedSplit(log[..|log| - 1], lo, mid, hi);
    }
  }

  /** A bucket counts its second, and outlives any read that would still use it. */
  lemma {:induction false} BucketCounts(log: seq<Increment>, k: int)
    requires InOrder(log)
    ensures var b := BucketsAfter(log);
            if k in b then b[k].value == Logged(log, k, k)
                        && (b[k].expiresAt.Some? ==> k as real + THROUGHPUT_TTL <= b[k].expiresAt.value)
            else Logged(log, k, k) == 0
  {
    if log != [] {
      BucketCounts(log[..|log| - 1], k);
    }
  }

  lemma {:induction false} TotalCounts(log: seq<Increment>, now: Time, n: nat)
    requires InOrder(log) && n <= WINDOW
    ensures Total(BucketsAfter(log), now, n) == Logged(log, now.Floor - n + 1, now.Floor)
  {
    if n == 0 {
      NothingLogged(log, now.Floor + 1, now.Floor);
    } else {
      var k := now.Floor - (n - 1);
      TotalCounts(log, now, n - 1);
      BucketCounts(log, k);
      LoggedSplit(log, k, k, now.Floor);
    }
  }

  lemma {:induction false} NothingLogged(log: seq<Increment>, lo: int, hi: int)
    requires lo > hi
    ensures Logged(log, lo, hi) == 0
  {
    if log != [] { NothingLogged(log[..|log| - 1], lo, hi); }
  }

  /** The expiring buckets stand for the log: at any time, however pipelines ended, the buckets read
      add up to the increments of the current and the four previous clock seconds. */
  lemma WindowIsLog(log: seq<Increment>, now: Time)
    requires InOrder(log)
    ensures Total(BucketsAfter(log), now, WINDOW) == Logged(log, now.Floor - 4, now.Floor)
  {
    TotalCounts(log, now, WINDOW);
  }

  /** The clock seconds from `lo` to `hi` in which the log counted something. */
  function BusySeconds(log: seq<Increment>, lo: int, hi: int): set<int> {
    set k | lo <= k <= hi && Logged(log, k, k) > 0
  }

  lemma BusySplit(log: seq<Increment>, k: int, hi: int)
    requires k <= hi
    ensures |BusySeconds(log, k, hi)| == |BusySeconds(log, k + 1, hi)| + if Logged(log, k, k) > 0 then 1 else 0
  {
    var later := BusySeconds(log, k + 1, hi);
    assert k !in later;
    assert BusySeconds(log, k, hi) == later + if Logged(log, k, k) > 0 then {k} else {};
  }

  /** A bucket is there to be read exactly when its second counted something. */
  lemma PresentBucket(log: seq<Increment>, now: Time, k: int)
    requires InOrder(log) && now.Floor - WINDOW < k <= now.Floor
    ensures k in BucketsAfter(log) && Alive(BucketsAfter(log)[k], now) <==> Logged(log, k, k) > 0
  {
    BucketCounts(log, k);
    BucketBusy(log, k);
  }

  lemma {:induction false} PresentCounts(log: seq<Increment>, now: Time, n: nat)
    requires InOrder(log) && n <= WINDOW
    ensures Present(BucketsAfter(log), now, n) == |BusySeconds(log, now.Floor - n + 1, now.Floor)|
  {
    var hi := now.Floor;
    if n == 0 {
      assert BusySeconds(log, hi + 1, hi) == {};
    } else {
      PresentCounts(log, now, n - 1);
      PresentBucket(log, now, hi - (n - 1));
      BusySplit(log, hi - (n - 1), hi);
    }
  }

  lemma {:induction false} BucketBusy(log: seq<Increment>, k: int)
    requires InOrder(log)
    ensures k in BucketsAfter(log) ==> Logged(log, k, k) > 0
  {
    if log != [] { BucketBusy(log[..|log| - 1], k); }
  }

  lemma RateRead(b: Buckets, now: Time, sps: real, present: nat, total: nat)
    requires IsRateRead(b, now, true, sps) && Present(b, now, WINDOW) == present && Total(b, now, WINDOW) == total
    ensures sps * present as real == total as real && (present == 0 ==> sps == 0.0)
  {
  }

  /** The rate shown is the increments of the current and the four previous clock seconds over the
      number of those seconds that had any, or 0: not over five. */
  lemma RateOfLog(log: seq<Increment>, now: Time, sps: real)
    requires InOrder(log) && IsRateRead(BucketsAfter(log), now, true, sps)
    ensures var busy := |BusySeconds(log, now.Floor - 4, now.Floor)|;
            sps * busy as real == Logged(log, now.Floor - 4, now.Floor) as real && (busy == 0 ==> sps == 0.0)
  {
    var lo, hi := now.Floor - 4, now.Floor;
    var b, busy, total := BucketsAfter(log), |BusySeconds(log, lo, hi)|, Logged(log, lo, hi);
    assert Total(b, now, WINDOW) == total by { WindowIsLog(log, now); }
    assert Present(b, now, WINDOW) == busy by { PresentCounts(log, now, WINDOW); }
    RateRead(b, now, sps, busy, total);
  }

  /** A second's bucket goes ten seconds after the last pipeline that completed in it: one that was
      lost, or stopped after INCR, does not move that time. */
  lemma {:induction false} BucketLastsTenSeconds(log: seq<Increment>, n: nat)
    requires InOrder(log) && n < |log| && log[n].pipeline == Complete
    requires forall i :: n < i < |log| && log[i].at.Floor == log[n].at.Floor ==> log[i].pipeline != Complete
    ensures var k, b := log[n].at.Floor, BucketsAfter(log);
            k in b && b[k].expiresAt == Some(log[n].at + 10.0)
  {
    if n < |log| - 1 {
      BucketLastsTenSeconds(log[..|log| - 1], n);
    }
  }

  lemma {:induction false} BucketsExpire(log: seq<Increment>, k: int)
    requires InOrder(log) && forall i :: 0 <= i < |log| ==> log[i].pipeline != IncrOnly
    ensures var b := BucketsAfter(log);
            k in b ==>
              && b[k].expiresAt.Some? && b[k].expiresAt.value < (k + 1) as real + THROUGHPUT_TTL
              && log != [] && k <= log[|log| - 1].at.Floor
  {
    if log != [] {
      BucketsExpire(log[..|log| - 1], k);
    }
  }

  /** If no EXPIRE is lost, at most eleven buckets are alive at any time. */
  lemma FewBucketsAlive(log: seq<Increment>, now: Time)
    requires InOrder(log) && forall i :: 0 <= i < |log| ==> log[i].pipeline != IncrOnly
    requires log != [] ==> log[|log| - 1].at <= now
    ensures |set k | k in BucketsAfter(log) && Alive(BucketsAfter(log)[k], now)| <= 11
  {
    var b, top := BucketsAfter(log), now.Floor;
    var alive := set k | k in b && Alive(b[k], now);
    forall k | k in alive ensures top - 10 <= k <= top {
      BucketsExpire(log, k);
    }
    var window := Seconds(top - 10, 11);
    assert window == alive + (window - alive);
  }

  function Seconds(lo: int, n: nat): (r: set<int>)
    ensures |r| == n && forall k :: k in r <==> lo <= k < lo + n
  {
    if n == 0 then {} else Seconds(lo, n - 1) + {lo + n - 1}
  }

  // --- The store -----------------------------------------------------------------------------------

  class RedisStore {
    var debounce: map<string, Entry<string>>
    var dashboard: Option<Entry<DashboardState>>
    var throughput: Buckets

    constructor ()
      ensures debounce == map[] && dashboard == None && throughput == map[]
    {
      debounce, dashboard, throughput := map[], None, map[];
    }

    method SetDebounceEntry(componentID: string, workItemID: string, now: Time, reply: Reply) returns (ok: bool)
      modifies this`debounce
      ensures ok == (reply == Ack)
      ensures debounce == if reply == Failure then old(debounce)
                          else old(debounce)[componentID := Entry(workItemID, Some(now + DEBOUNCE_TTL))]
    {
      if reply != Failure {
        debounce := debounce[componentID := Entry(workItemID, Some(now + DEBOUNCE_TTL))];
      }
      ok := reply == Ack;
    }

    /** The active work item, or "" when there is no window or no answer. */
    method GetDebounceEntry(componentID: string, now: Time, up: bool) returns (workItemID: string)
      ensures workItemID == WindowOf(debounce, componentID, now, up)
      ensures componentID !in debounce || !up ==> workItemID == ""
      ensures componentID in debounce && debounce[componentID].expiresAt.Some? && up ==>
        workItemID == if now < debounce[componentID].expiresAt.value then debounce[componentID].value else ""
    {
      if !up || componentID !in debounce || !Alive(debounce[componentID], now) {
        return "";
      }
      return debounce[componentID].value;
    }

    method SetDashboardState(state: DashboardState, now: Time, reply: Reply) returns (ok: bool)
      modifies this`dashboard
      ensures ok == (reply == Ack)
      ensures dashboard == if reply == Failure then old(dashboard) else Some(Entry(state, Some(now + DASHBOARD_TTL)))
    {
      if reply != Failure {
        dashboard := Some(Entry(state, Some(now + DASHBOARD_TTL)));
      }
      ok := reply == Ack;
    }

    method GetDashboardState(now: Time, up: bool) returns (state: Option<DashboardState>)
      ensures state == Cached(dashboard, now, up)
      ensures dashboard.None? || !up ==> state == None
      ensures dashboard.Some? && dashboard.value.expiresAt.Some? && up ==>
        state == if now < dashboard.value.expiresAt.value then Some(dashboard.value.value) else None
    {
      if !up || dashboard.None? || !Alive(dashboard.value, now) {
        return None;
      }
      return Some(dashboard.value.value);
    }

    method InvalidateDashboard(reply: Reply) returns (ok: bool)
      modifies this`dashboard
      ensures ok == (reply == Ack)
      ensures dashboard == if reply == Failure then old(dashboard) else None
    {
      if reply != Failure {
        dashboard := None;
      }
      ok := reply == Ack;
    }

    method IncrementSignalCounter(now: Time, p: Pipeline)
      modifies this`throughput
      ensures throughput == Bumped(old(throughput), now, p)
    {
      var key := now.Floor;
      if p != Lost {
        var was := if key in throughput && Alive(throughput[key], now) then throughput[key] else Entry(0, None);
        throughput := throughput[key := was.(value := was.value + 1)];
        if p == Complete {
          throughput := throughput[key := throughput[key].(expiresAt := Some(now + THROUGHPUT_TTL))];
        }
      }
    }

    method GetSignalsPerSecond(now: Time, up: bool) returns (sps: real, ok: bool)
      ensures ok == up && IsRateRead(throughput, now, up, sps)
    {
      if !up {
        return 0.0, false;
      }
      var total, buckets := 0.0, 0.0;
      for i := 0 to WINDOW
        invariant total == Total(throughput, now, i) as real
        invariant buckets == Present(throughput, now, i) as real
        invariant Present(throughput, now, i) == 0 ==> Total(throughput, now, i) == 0
      {
        var key := now.Floor - i;
        if key in throughput && Alive(throughput[key], now) {
          total := total + throughput[key].value as real;
          buckets := buckets + 1.0;
        }
      }
      if buckets == 0.0 {
        return 0.0, true;
      }
      sps, ok := total / buckets, true;
      DividedTimes(total, buckets);
    }
  }

  function WindowOf(debounce: map<string, Entry<string>>, componentID: string, now: Time, up: bool): string {
    if up && componentID in debounce && Alive(debounce[componentID], now) then debounce[componentID].value else ""
  }

  function Cached<T>(entry: Option<Entry<T>>, now: Time, up: bool): Option<T> {
    if up && entry.Some? && Alive(entry.value, now) then Some(entry.value.value) else None
  }
}
