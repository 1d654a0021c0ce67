/** Per-key token buckets, created at a key's first request and deleted by a periodic sweep when
    they have not been used for ten minutes. */
module RateLimiting {
  import opened Models
  import opened TokenBuckets

  const STALE_AFTER := 600.0 // seconds a bucket may go unused before a sweep deletes it

  // --- The limiter as a table of buckets -----------------------------------------------------

  datatype Event = Request(key: string, at: real) | Sweep(at: real)

  type Table = map<string, Bucket>

  function Held(lim: Limits, m: Table, key: string, now: real): Bucket {
    if key in m then m[key] else Fresh(lim, now)
  }

  /** Whether a key's request is let through now. */
  predicate Admits(lim: Limits, m: Table, key: string, now: real) {
    Reply(lim, Held(lim, m, key, now), now).allowed
  }

  function Swept(m: Table, now: real): Table {
    map k | k in m && !(m[k].lastRefill < now - STALE_AFTER) :: m[k]
  }

  function Next(lim: Limits, m: Table, e: Event): Table {
    match e
    case Request(k, t) => m[k := Spend(lim, Held(lim, m, k, t), t)]
    case Sweep(t) => Swept(m, t)
  }

  function After(lim: Limits, m: Table, es: seq<Event>): Table {
    if es == [] then m else Next(lim, After(lim, m, es[..|es| - 1]), es[|es| - 1])
  }

  predicate Asks(e: Event, k: string) { e.Request? && e.key == k }

  /** The times of one key's requests, and the answers it got, over a run of events. */
  function KeyTimes(es: seq<Event>, k: string): seq<real> {
    if es == [] then [] else
      var fs, e := es[..|es| - 1], es[|es| - 1];
      if Asks(e, k) then KeyTimes(fs, k) + [e.at] else KeyTimes(fs, k)
  }

  function KeyReplies(lim: Limits, m: Table, es: seq<Event>, k: string): seq<Answer> {
    if es == [] then [] else
      var fs, e := es[..|es| - 1], es[|es| - 1];
      if Asks(e, k) then KeyReplies(lim, m, fs, k) + [Reply(lim, Held(lim, After(lim, m, fs), k, e.at), e.at)]
      else KeyReplies(lim, m, fs, k)
  }

  predicate InOrder(es: seq<Event>) {
    forall i, j :: 0 <= i < j < |es| ==> es[i].at <= es[j].at
  }

  // --- Its specification: one bucket per key, never deleted ------------------------------------

  function Own(lim: Limits, ts: seq<real>): Bucket
    requires ts != []
  {
    Play(lim, Fresh(lim, ts[0]), ts)
  }

  function OwnReplies(lim: Limits, ts: seq<real>): (r: seq<Answer>)
    ensures |r| == |ts|
  {
    if ts == [] then [] else Replies(lim, Fresh(lim, ts[0]), ts)
  }

  ghost predicate KeyUndisturbed(lim: Limits, es: seq<Event>, k: string) {
    KeyReplies(lim, map[], es, k) == OwnReplies(lim, KeyTimes(es, k))
  }

  /** Nobody can tell that buckets are created late and swept away. */
  ghost predicate SweepInvisible(lim: Limits) {
    forall es: seq<Event>, k: string :: InOrder(es) ==> KeyUndisturbed(lim, es, k)
  }

  /** A bucket left alone long enough to be swept has filled up again. */
  predicate RefillsWhileStale(lim: Limits) { lim.capacity <= STALE_AFTER * lim.rate }

  // --- When the sweep cannot be seen ---------------------------------------------------------

  lemma {:induction false} KeyTimesOrdered(es: seq<Event>, k: string)
    requires InOrder(es)
    ensures NonDecreasing(KeyTimes(es, k))
    ensures forall i :: 0 <= i < |KeyTimes(es, k)| ==> es != [] && KeyTimes(es, k)[i] <= es[|es| - 1].at
  {
    if es != [] {
      var fs := es[..|es| - 1];
      assert InOrder(fs) && (fs != [] ==> fs[|fs| - 1].at <= es[|es| - 1].at);
      KeyTimesOrdered(fs, k);
    }
  }

  predicate NonDecreasing(ts: seq<real>) { forall i, j :: 0 <= i < j < |ts| ==> ts[i] <= ts[j] }

  /** The bucket that answers a key's next request, in the specification. */
  function OwnBefore(lim: Limits, ts: seq<real>, now: real): Bucket {
    if ts == [] then Fresh(lim, now) else Own(lim, ts)
  }

  lemma OwnAppend(lim: Limits, ts: seq<real>, t: real)
    ensures Own(lim, ts + [t]) == Spend(lim, OwnBefore(lim, ts, t), t)
  {
    var us := ts + [t];
    assert us[..|us| - 1] == ts;
    if ts == [] {
      assert Play(lim, Fresh(lim, t), ts) == Fresh(lim, t);
    } else {
      assert us[0] == ts[0];
    }
  }

  lemma OwnRepliesAppend(lim: Limits, ts: seq<real>, t: real)
    ensures OwnReplies(lim, ts + [t]) == OwnReplies(lim, ts) + [Reply(lim, OwnBefore(lim, ts, t), t)]
  {
    var us := ts + [t];
    assert us[..|us| - 1] == ts;
    if ts != [] {
      assert us[0] == ts[0];
    }
  }

  lemma OwnSound(lim: Limits, ts: seq<real>)
    requires lim.Valid() && ts != [] && NonDecreasing(ts)
    ensures Sound(lim, Own(lim, ts)) && Own(lim, ts).lastRefill == ts[|ts| - 1]
  {
    PlaySound(lim, Fresh(lim, ts[0]), ts);
  }

  lemma StaleIsFull(lim: Limits, b: Bucket, now: real)
    requires lim.Valid() && RefillsWhileStale(lim) && Sound(lim, b) && b.lastRefill < now - STALE_AFTER
    ensures Refilled(lim, b, now) == lim.capacity
  {
    TimesMonotone(STALE_AFTER, now - b.lastRefill, lim.rate);
  }

  lemma FreshIsFull(lim: Limits, now: real)
    requires lim.Valid()
    ensures Refilled(lim, Fresh(lim, now), now) == lim.capacity
  {
    AccruedFacts(lim, now, now, now);
  }

  /** A stored bucket is the key's own bucket; a missing one has been stale since the last event. */
  ghost predicate Tracks(lim: Limits, es: seq<Event>, k: string) {
    var m, ts := After(lim, map[], es), KeyTimes(es, k);
    && (k in m ==> ts != [] && m[k] == Own(lim, ts))
    && (k !in m && ts != [] ==> es != [] && ts[|ts| - 1] < es[|es| - 1].at - STALE_AFTER)
  }

  /** Then the bucket that answers, stored or new, holds what the key's own bucket would. */
  lemma SameRefill(lim: Limits, es: seq<Event>, k: string, now: real)
    requires lim.Valid() && RefillsWhileStale(lim) && InOrder(es) && Tracks(lim, es, k)
    requires es != [] ==> es[|es| - 1].at <= now
    ensures Refilled(lim, Held(lim, After(lim, map[], es), k, now), now)
         == Refilled(lim, OwnBefore(lim, KeyTimes(es, k), now), now)
  {
    var ts := KeyTimes(es, k);
    if k !in After(lim, map[], es) {
      FreshIsFull(lim, now);
      if ts != [] {
        KeyTimesOrdered(es, k);
        OwnSound(lim, ts);
        StaleIsFull(lim, Own(lim, ts), now);
      }
    }
  }

  lemma {:induction false} TableTracks(lim: Limits, es: seq<Event>, k: string)
    requires lim.Valid() && RefillsWhileStale(lim) && InOrder(es)
    ensures Tracks(lim, es, k)
  {
    if es != [] {
      var fs, e := es[..|es| - 1], es[|es| - 1];
      assert InOrder(fs) && (fs != [] ==> fs[|fs| - 1].at <= e.at);
      TableTracks(lim, fs, k);
      var ts := KeyTimes(fs, k);
      if Asks(e, k) {
        OwnAppend(lim, ts, e.at);
        SameRefill(lim, fs, k, e.at);
      } else if e.Sweep? && ts != [] {
        KeyTimesOrdered(fs, k);
        OwnSound(lim, ts);
      }
    }
  }

  lemma {:induction false} TrackedUndisturbed(lim: Limits, es: seq<Event>, k: string)
    requires lim.Valid() && RefillsWhileStale(lim) && InOrder(es)
    ensures KeyUndisturbed(lim, es, k)
  {
    if es != [] {
      var fs, e := es[..|es| - 1], es[|es| - 1];
      assert InOrder(fs) && (fs != [] ==> fs[|fs| - 1].at <= e.at);
      TrackedUndisturbed(lim, fs, k);
      if Asks(e, k) {
        TableTracks(lim, fs, k);
        SameRefill(lim, fs, k, e.at);
        OwnRepliesAppend(lim, KeyTimes(fs, k), e.at);
      }
    }
  }

  /** Without room for one token every request is refused, whichever bucket answers. */
  lemma RefusedWithoutRoom(lim: Limits, b: Bucket, now: real)
    requires lim.Valid() && lim.capacity < 1.0 && Sound(lim, b) && b.lastRefill <= now
    ensures Reply(lim, b, now) == Answer(false, 0) && Sound(lim, Spend(lim, b, now))
  {
    AccruedFacts(lim, b.lastRefill, now, now);
  }

  lemma {:induction false} TableSound(lim: Limits, es: seq<Event>, k: string)
    requires lim.Valid() && lim.capacity < 1.0 && InOrder(es)
    ensures var m := After(lim, map[], es);
            k in m ==> es != [] && Sound(lim, m[k]) && m[k].lastRefill <= es[|es| - 1].at
  {
    if es != [] {
      var fs, e := es[..|es| - 1], es[|es| - 1];
      assert InOrder(fs) && (fs != [] ==> fs[|fs| - 1].at <= e.at);
      TableSound(lim, fs, k);
      if Asks(e, k) {
        RefusedWithoutRoom(lim, Held(lim, After(lim, map[], fs), k, e.at), e.at);
      }
    }
  }

  lemma {:induction false} NoRoomUndisturbed(lim: Limits, es: seq<Event>, k: string)
    requires lim.Valid() && lim.capacity < 1.0 && InOrder(es)
    ensures KeyUndisturbed(lim, es, k)
  {
    if es != [] {
      var fs, e := es[..|es| - 1], es[|es| - 1];
      assert InOrder(fs) && (fs != [] ==> fs[|fs| - 1].at <= e.at);
      NoRoomUndisturbed(lim, fs, k);
      if Asks(e, k) {
        var ts := KeyTimes(fs, k);
        TableSound(lim, fs, k);
        RefusedWithoutRoom(lim, Held(lim, After(lim, map[], fs), k, e.at), e.at);
        KeyTimesOrdered(fs, k);
        if ts != [] { OwnSound(lim, ts); }
        RefusedWithoutRoom(lim, OwnBefore(lim, ts, e.at), e.at);
        OwnRepliesAppend(lim, ts, e.at);
      }
    }
  }

  // --- When it can ---------------------------------------------------------------------------

  function Requests(k: string, ts: seq<real>): seq<Event> {
    if ts == [] then [] else Requests(k, ts[..|ts| - 1]) + [Request(k, ts[|ts| - 1])]
  }

  lemma {:induction false} RequestsTimes(k: string, ts: seq<real>)
    ensures KeyTimes(Requests(k, ts), k) == ts
  {
    if ts != [] {
      var fs, es := Requests(k, ts[..|ts| - 1]), Requests(k, ts);
      assert es[..|es| - 1] == fs && es[|es| - 1] == Request(k, ts[|ts| - 1]);
      RequestsTimes(k, ts[..|ts| - 1]);
    }
  }

  lemma {:induction false} RequestsTable(lim: Limits, m: Table, k: string, ts: seq<real>)
    requires ts != []
    ensures k in After(lim, m, Requests(k, ts))
    ensures After(lim, m, Requests(k, ts))[k] == Play(lim, Held(lim, m, k, ts[0]), ts)
  {
    var n := |ts| - 1;
    var fs, es := Requests(k, ts[..n]), Requests(k, ts);
    assert es[..|es| - 1] == fs && es[|es| - 1] == Request(k, ts[n]);
    if n == 0 {
      assert ts[..n] == [] && fs == [];
    } else {
      assert ts[..n][0] == ts[0];
      RequestsTable(lim, m, k, ts[..n]);
    }
  }

  lemma {:induction false} RequestsReplies(lim: Limits, m: Table, k: string, ts: seq<real>)
    requires ts != []
    ensures KeyReplies(lim, m, Requests(k, ts), k) == Replies(lim, Held(lim, m, k, ts[0]), ts)
  {
    var n := |ts| - 1;
    var fs, es := Requests(k, ts[..n]), Requests(k, ts);
    assert es[..|es| - 1] == fs && es[|es| - 1] == Request(k, ts[n]);
    if n == 0 {
      assert ts[..n] == [] && fs == [];
    } else {
      assert ts[..n][0] == ts[0];
      RequestsTable(lim, m, k, ts[..n]);
      RequestsReplies(lim, m, k, ts[..n]);
    }
  }

  lemma {:induction false} RunSplit(lim: Limits, m: Table, es: seq<Event>, fs: seq<Event>, k: string)
    ensures After(lim, m, es + fs) == After(lim, After(lim, m, es), fs)
    ensures KeyTimes(es + fs, k) == KeyTimes(es, k) + KeyTimes(fs, k)
    ensures KeyReplies(lim, m, es + fs, k) == KeyReplies(lim, m, es, k) + KeyReplies(lim, After(lim, m, es), fs, k)
  {
    if fs == [] {
      assert es + fs == es;
    } else {
      var n := |fs| - 1;
      assert (es + fs)[..|es + fs| - 1] == es + fs[..n];
      RunSplit(lim, m, es, fs[..n], k);
    }
  }

  /** As many requests at `t` as a full bucket has whole tokens, and one more as soon as the
      remainder has grown to a token. */
  function Drain(lim: Limits, t: real): seq<real>
    requires lim.Valid() && lim.capacity >= 1.0
  {
    seq(lim.capacity.Floor, _ => t) + [t + DrainTime(lim)]
  }

  function DrainTime(lim: Limits): (d: real)
    requires lim.Valid()
    ensures d > 0.0 && d * lim.rate == 1.0 - (lim.capacity - lim.capacity.Floor as real)
  {
    (1.0 - (lim.capacity - lim.capacity.Floor as real)) / lim.rate
  }

  lemma {:induction false} DrainBurst(lim: Limits, t: real, n: nat)
    requires lim.Valid() && n as real <= lim.capacity
    ensures Play(lim, Fresh(lim, t), seq(n, _ => t)) == Bucket(lim.capacity - n as real, t)
    ensures Admitted(Replies(lim, Fresh(lim, t), seq(n, _ => t))) == n
  {
    if n > 0 {
      var ts := seq(n, _ => t);
      assert ts[..n - 1] == seq(n - 1, _ => t);
      DrainBurst(lim, t, n - 1);
      assert Replies(lim, Fresh(lim, t), ts)[..n - 1] == Replies(lim, Fresh(lim, t), ts[..n - 1]);
      AccruedFacts(lim, t, t, t);
    }
  }

  lemma DrainRefill(lim: Limits, t: real)
    requires lim.Valid() && lim.capacity >= 1.0
    ensures Refilled(lim, Bucket(lim.capacity - lim.capacity.Floor as real, t), t + DrainTime(lim)) == 1.0
  {
    assert Accrued(lim, t, t + DrainTime(lim)) == DrainTime(lim) * lim.rate;
  }

  lemma PlayAppend(lim: Limits, b: Bucket, ts: seq<real>, t: real)
    ensures Play(lim, b, ts + [t]) == Spend(lim, Play(lim, b, ts), t)
    ensures Admitted(Replies(lim, b, ts + [t]))
         == Admitted(Replies(lim, b, ts)) + if Refilled(lim, Play(lim, b, ts), t) >= 1.0 then 1 else 0
  {
    assert (ts + [t])[..|ts|] == ts;
    assert Replies(lim, b, ts + [t])[..|ts|] == Replies(lim, b, ts);
  }

  /** A full bucket admits the whole of `Drain` and is then empty. */
  lemma DrainAdmitted(lim: Limits, t: real)
    requires lim.Valid() && lim.capacity >= 1.0
    ensures Play(lim, Fresh(lim, t), Drain(lim, t)) == Bucket(0.0, t + DrainTime(lim))
    ensures Admitted(Replies(lim, Fresh(lim, t), Drain(lim, t))) == |Drain(lim, t)|
  {
    var n := lim.capacity.Floor;
    DrainBurst(lim, t, n);
    DrainRefill(lim, t);
    PlayAppend(lim, Fresh(lim, t), seq(n, _ => t), t + DrainTime(lim));
  }

  /** From an empty bucket that cannot fill up before `t`, some request of `Drain` is refused. */
  lemma DrainRefused(lim: Limits, from: real, t: real)
    requires lim.Valid() && lim.capacity >= 1.0 && from <= t && Accrued(lim, from, t) < lim.capacity
    ensures Admitted(Replies(lim, Bucket(0.0, from), Drain(lim, t))) < |Drain(lim, t)|
  {
    var ts, b, end := Drain(lim, t), Bucket(0.0, from), t + DrainTime(lim);
    assert Ordered(from, ts) && Last(from, ts) == end && Sound(lim, b);
    SpendingBound(lim, b, ts);
    PlaySound(lim, b, ts);
    DrainAccrual(lim, from, t);
  }

  lemma DrainAccrual(lim: Limits, from: real, t: real)
    requires lim.Valid() && lim.capacity >= 1.0 && from <= t && Accrued(lim, from, t) < lim.capacity
    ensures Accrued(lim, from, t + DrainTime(lim)) < |Drain(lim, t)| as real
  {
    AccruedFacts(lim, from, t, t + DrainTime(lim));
    assert Accrued(lim, t, t + DrainTime(lim)) == DrainTime(lim) * lim.rate;
  }

  lemma HalfwayGap(stale: real, gap: real, wait: real, rate: real)
    requires rate > 0.0 && stale * rate < gap * rate && wait == (stale + gap) / 2.0
    ensures stale < wait && wait * rate < gap * rate
  {
    TimesCancels(stale, gap, rate);
    TimesStrict(wait, gap, rate);
  }

  /** How long an empty bucket takes to fill. */
  function FillTime(lim: Limits): (gap: real)
    requires lim.Valid()
    ensures gap * lim.rate == lim.capacity
  {
    DividedTimes(lim.capacity, lim.rate);
    lim.capacity / lim.rate
  }

  /** An instant that makes a bucket used at `d` stale though it cannot have refilled. */
  function EarlyStale(lim: Limits, d: real): (t: real)
    requires lim.Valid() && !RefillsWhileStale(lim)
    ensures d < t - STALE_AFTER && Accrued(lim, d, t) < lim.capacity
  {
    var wait := (STALE_AFTER + FillTime(lim)) / 2.0;
    HalfwayGap(STALE_AFTER, FillTime(lim), wait, lim.rate);
    assert (d + wait) - d == wait;
    d + wait
  }

  /** The run that tells: drain the bucket, sweep it too early, drain it again. */
  function Revealing(lim: Limits, k: string, t: real): seq<Event>
    requires lim.Valid() && lim.capacity >= 1.0
  {
    (Requests(k, Drain(lim, 0.0)) + [Sweep(t)]) + Requests(k, Drain(lim, t))
  }

  lemma RevealingReplies(lim: Limits, k: string, t: real)
    requires lim.Valid() && lim.capacity >= 1.0 && DrainTime(lim) < t - STALE_AFTER
    ensures KeyReplies(lim, map[], Revealing(lim, k, t), k)
         == Replies(lim, Fresh(lim, 0.0), Drain(lim, 0.0)) + Replies(lim, Fresh(lim, t), Drain(lim, t))
  {
    var us, vs := Drain(lim, 0.0), Drain(lim, t);
    var first := Requests(k, us);
    var m := After(lim, map[], first);
    RunSplit(lim, map[], first + [Sweep(t)], Requests(k, vs), k);
    RunSplit(lim, map[], first, [Sweep(t)], k);
    SweepOnly(lim, m, t, k);
    RequestsReplies(lim, map[], k, us);
    RequestsTable(lim, map[], k, us);
    DrainAdmitted(lim, 0.0);
    assert us[0] == 0.0 && vs[0] == t;
    RequestsReplies(lim, Swept(m, t), k, vs);
  }

  lemma SweepOnly(lim: Limits, m: Table, t: real, k: string)
    ensures After(lim, m, [Sweep(t)]) == Swept(m, t)
    ensures KeyReplies(lim, m, [Sweep(t)], k) == [] && KeyTimes([Sweep(t)], k) == []
  {
    assert [Sweep(t)][..0] == [];
  }

  lemma RevealingTimes(lim: Limits, k: string, t: real)
    requires lim.Valid() && lim.capacity >= 1.0
    ensures KeyTimes(Revealing(lim, k, t), k) == Drain(lim, 0.0) + Drain(lim, t)
  {
    var us, vs := Drain(lim, 0.0), Drain(lim, t);
    RunSplit(lim, map[], Requests(k, us) + [Sweep(t)], Requests(k, vs), k);
    RunSplit(lim, map[], Requests(k, us), [Sweep(t)], k);
    SweepOnly(lim, map[], t, k);
    RequestsTimes(k, us);
    RequestsTimes(k, vs);
  }

  lemma {:induction false} RequestsAt(k: string, ts: seq<real>, i: nat)
    requires i < |ts|
    ensures |Requests(k, ts)| == |ts| && Requests(k, ts)[i] == Request(k, ts[i])
  {
    if |ts| > 1 { RequestsAt(k, ts[..|ts| - 1], if i < |ts| - 1 then i else 0); }
  }

  lemma RequestsDated(k: string, ts: seq<real>)
    ensures |Requests(k, ts)| == |ts| && forall i :: 0 <= i < |ts| ==> Requests(k, ts)[i].at == ts[i]
  {
    forall i | 0 <= i < |ts| ensures |Requests(k, ts)| == |ts| && Requests(k, ts)[i].at == ts[i] {
      RequestsAt(k, ts, i);
    }
  }

  lemma RevealingInOrder(lim: Limits, k: string, t: real)
    requires lim.Valid() && lim.capacity >= 1.0 && DrainTime(lim) < t - STALE_AFTER
    ensures InOrder(Revealing(lim, k, t))
  {
    var us, vs := Drain(lim, 0.0), Drain(lim, t);
    RequestsDated(k, us);
    RequestsDated(k, vs);
  }

  /** The limiter lets request `i` of the key through, and the key's own bucket would have refused it. */
  ghost predicate Overserved(lim: Limits, es: seq<Event>, k: string, i: nat) {
    && i < |KeyReplies(lim, map[], es, k)| == |OwnReplies(lim, KeyTimes(es, k))|
    && KeyReplies(lim, map[], es, k)[i].allowed && !OwnReplies(lim, KeyTimes(es, k))[i].allowed
  }

  /** The run that tells is let through whole. */
  lemma RevealingServed(lim: Limits, k: string, t: real)
    requires lim.Valid() && lim.capacity >= 1.0 && DrainTime(lim) < t - STALE_AFTER
    ensures var es := Revealing(lim, k, t);
            |KeyReplies(lim, map[], es, k)| == |KeyTimes(es, k)| == Admitted(KeyReplies(lim, map[], es, k))
  {
    RevealingReplies(lim, k, t);
    RevealingTimes(lim, k, t);
    DrainAdmitted(lim, 0.0);
    DrainAdmitted(lim, t);
    AdmittedSplit(Replies(lim, Fresh(lim, 0.0), Drain(lim, 0.0)), Replies(lim, Fresh(lim, t), Drain(lim, t)));
  }

  /** The key's own bucket would not have let it all through. */
  lemma RevealingRefused(lim: Limits, k: string, t: real)
    requires lim.Valid() && lim.capacity >= 1.0 && DrainTime(lim) < t - STALE_AFTER
    requires Accrued(lim, DrainTime(lim), t) < lim.capacity
    ensures Admitted(OwnReplies(lim, KeyTimes(Revealing(lim, k, t), k))) < |KeyTimes(Revealing(lim, k, t), k)|
  {
    var us, vs := Drain(lim, 0.0), Drain(lim, t);
    var first, drained := Fresh(lim, 0.0), Bucket(0.0, DrainTime(lim));
    RevealingTimes(lim, k, t);
    DrainAdmitted(lim, 0.0);
    assert (us + vs)[0] == us[0] == 0.0;
    PlaySplit(lim, first, us, vs);
    DrainRefused(lim, DrainTime(lim), t);
    AdmittedSplit(Replies(lim, first, us), Replies(lim, drained, vs));
  }

  /** A drained bucket is swept before it could refill, and its key is then served as if new:
      its own bucket would have refused a request that the limiter lets through. */
  lemma SweepSeen(lim: Limits, k: string)
    requires lim.Valid() && lim.capacity >= 1.0 && lim.capacity > 600.0 * lim.rate
    ensures exists es, i :: InOrder(es) && Overserved(lim, es, k, i)
  {
    var t := EarlyStale(lim, DrainTime(lim));
    var es := Revealing(lim, k, t);
    RevealingInOrder(lim, k, t);
    RevealingServed(lim, k, t);
    RevealingRefused(lim, k, t);
    AdmittedAll(KeyReplies(lim, map[], es, k));
    AdmittedAll(OwnReplies(lim, KeyTimes(es, k)));
    var i: nat :| i < |KeyTimes(es, k)| && !OwnReplies(lim, KeyTimes(es, k))[i].allowed;
    assert Overserved(lim, es, k, i);
  }

  /** Late creation and the sweep are invisible, on every run and for every key, exactly when a
      bucket always refills in the ten minutes that make it stale, or never serves anyone at all. */
  lemma SweepInvisibleIff(lim: Limits)
    requires lim.Valid()
    ensures SweepInvisible(lim) <==> lim.capacity < 1.0 || lim.capacity <= 600.0 * lim.rate
  {
    if lim.capacity < 1.0 || RefillsWhileStale(lim) {
      forall es: seq<Event>, k: string | InOrder(es) ensures KeyUndisturbed(lim, es, k) {
        if RefillsWhileStale(lim) { TrackedUndisturbed(lim, es, k); } else { NoRoomUndisturbed(lim, es, k); }
      }
    } else {
      SweepSeen(lim, "");
      var es, i :| InOrder(es) && Overserved(lim, es, "", i);
      assert !KeyUndisturbed(lim, es, "");
    }
  }

  // --- What a key can rely on, sweeps or not -----------------------------------------------

  /** Of a key's requests number i to j-1, at most capacity + rate * elapsed are let through. */
  ghost predicate WindowHolds(lim: Limits, es: seq<Event>, k: string, i: nat, j: nat)
    requires i < j <= |KeyTimes(es, k)|
  {
    && |KeyReplies(lim, map[], es, k)| == |KeyTimes(es, k)|
    && Admitted(KeyReplies(lim, map[], es, k)[i..j]) as real
         <= lim.capacity + Accrued(lim, KeyTimes(es, k)[i], KeyTimes(es, k)[j - 1])
  }

  ghost predicate RateBounded(lim: Limits) {
    forall es: seq<Event>, k: string, i: nat, j: nat ::
      InOrder(es) && i < j <= |KeyTimes(es, k)| ==> WindowHolds(lim, es, k, i, j)
  }

  lemma KeyRateBound(lim: Limits, es: seq<Event>, k: string, i: nat, j: nat)
    requires lim.Valid() && SweepInvisible(lim) && InOrder(es) && i < j <= |KeyTimes(es, k)|
    ensures WindowHolds(lim, es, k, i, j)
  {
    assert KeyUndisturbed(lim, es, k);
    KeyTimesOrdered(es, k);
    WindowBound(lim, KeyTimes(es, k), i, j);
  }

  /** Two bursts that a sweep lets through exceed what one bucket allows in that time. */
  lemma TwoBursts(lim: Limits, t: real)
    requires lim.Valid() && lim.capacity >= 1.0 && Accrued(lim, DrainTime(lim), t) < lim.capacity
    ensures |Drain(lim, 0.0)| as real + |Drain(lim, t)| as real
          > lim.capacity + Accrued(lim, 0.0, t + DrainTime(lim))
  {
    var d := DrainTime(lim);
    AccruedFacts(lim, 0.0, d, t);
    AccruedFacts(lim, 0.0, t, t + d);
    assert Accrued(lim, 0.0, d) == d * lim.rate == Accrued(lim, t, t + d);
  }

  /** The burst capacity and the sustained rate bound every window of every key on every run exactly
      when the sweep cannot be seen. */
  lemma RateBoundedIff(lim: Limits)
    requires lim.Valid()
    ensures RateBounded(lim) <==> lim.capacity < 1.0 || lim.capacity <= 600.0 * lim.rate
  {
    SweepInvisibleIff(lim);
    if lim.capacity < 1.0 || RefillsWhileStale(lim) {
      forall es: seq<Event>, k: string, i: nat, j: nat | InOrder(es) && i < j <= |KeyTimes(es, k)|
        ensures WindowHolds(lim, es, k, i, j)
      {
        KeyRateBound(lim, es, k, i, j);
      }
    } else {
      var t := EarlyStale(lim, DrainTime(lim));
      var es := Revealing(lim, "", t);
      RevealingInOrder(lim, "", t);
      RevealingTimes(lim, "", t);
      RevealingServed(lim, "", t);
      TwoBursts(lim, t);
      var r, n := KeyReplies(lim, map[], es, ""), |KeyTimes(es, "")|;
      assert r[0..n] == r;
      assert KeyTimes(es, "")[0] == Drain(lim, 0.0)[0] && KeyTimes(es, "")[n - 1] == t + DrainTime(lim);
      assert !WindowHolds(lim, es, "", 0, n);
    }
  }

  lemma WindowReplies(lim: Limits, ts: seq<real>, i: nat, j: nat)
    requires i < j <= |ts|
    ensures OwnReplies(lim, ts)[i..j] == Replies(lim, Play(lim, Fresh(lim, ts[0]), ts[..i]), ts[i..j])
  {
    var b, us, vs := Fresh(lim, ts[0]), ts[..i], ts[i..j];
    assert ts == us + vs + ts[j..];
    PlaySplit(lim, b, us + vs, ts[j..]);
    PlaySplit(lim, b, us, vs);
  }

  lemma WindowBound(lim: Limits, ts: seq<real>, i: nat, j: nat)
    requires lim.Valid() && NonDecreasing(ts) && i < j <= |ts|
    ensures Admitted(OwnReplies(lim, ts)[i..j]) as real <= lim.capacity + Accrued(lim, ts[i], ts[j - 1])
  {
    var start, window := Fresh(lim, ts[0]), ts[i..j];
    var b := Play(lim, start, ts[..i]);
    WindowReplies(lim, ts, i, j);
    PlaySound(lim, start, ts[..i]);
    assert window[0] == ts[i] && window[|window| - 1] == ts[j - 1];
    BurstPlusRate(lim, b, window);
  }

  /** The limiter is ahead of a rule that keeps its own bucket `p`: in requests let through, and, as
      long as the key's bucket is stored, in requests and tokens together. */
  ghost predicate Ahead(lim: Limits, m: Table, k: string, p: Bucket, admitted: nat, chosen: nat) {
    && chosen <= admitted
    && (k in m ==> m[k].lastRefill == p.lastRefill && p.tokens + chosen as real <= m[k].tokens + admitted as real)
  }

  /** A request keeps it ahead, whether its bucket is stored or, never used or swept away, new. */
  lemma AheadStep(lim: Limits, m: Table, k: string, p: Bucket, now: real, admitted: nat, chosen: nat, take: bool)
    requires lim.Valid() && Ahead(lim, m, k, p, admitted, chosen) && (take ==> Refilled(lim, p, now) >= 1.0)
    ensures var t := Refilled(lim, p, now);
            Ahead(lim, Next(lim, m, Request(k, now)), k, Bucket(if take then t - 1.0 else t, now),
                  admitted + (if Reply(lim, Held(lim, m, k, now), now).allowed then 1 else 0),
                  chosen + (if take then 1 else 0))
  {
    if k in m {
      GreedyStep(lim, m[k], p, now, admitted, chosen, take);
    } else {
      FreshIsFull(lim, now);
    }
  }

  /** The bucket by which the rule answers a key's next request. */
  function RuleBefore(lim: Limits, ts: seq<real>, choice: seq<bool>, now: real): Bucket
    requires |ts| == |choice|
  {
    if ts == [] then Fresh(lim, now) else PolicyPlay(lim, Fresh(lim, ts[0]), ts, choice)
  }

  /** A rule that never overdraws one bucket of the same limits, full at the key's first request. */
  predicate Follows(lim: Limits, ts: seq<real>, choice: seq<bool>) {
    |ts| == |choice| && (ts != [] ==> Affordable(lim, Fresh(lim, ts[0]), ts, choice))
  }

  lemma FollowsFirst(lim: Limits, ts: seq<real>, t: real, choice: seq<bool>, now: real)
    requires Follows(lim, ts + [t], choice)
    ensures Follows(lim, ts, choice[..|ts|])
    ensures var held := Refilled(lim, RuleBefore(lim, ts, choice[..|ts|], t), t);
            && (choice[|ts|] ==> held >= 1.0)
            && RuleBefore(lim, ts + [t], choice, now) == Bucket(if choice[|ts|] then held - 1.0 else held, t)
  {
    var us, n := ts + [t], |ts|;
    assert us[..n] == ts;
    if ts != [] { assert us[0] == ts[0]; }
  }

  /** What the key's next request adds to its answers. */
  lemma AskedReplies(lim: Limits, fs: seq<Event>, k: string, t: real)
    ensures var es, m, r := fs + [Request(k, t)], After(lim, map[], fs), KeyReplies(lim, map[], fs, k);
            var answer := Reply(lim, Held(lim, m, k, t), t);
            && KeyTimes(es, k) == KeyTimes(fs, k) + [t]
            && After(lim, map[], es) == Next(lim, m, Request(k, t))
            && KeyReplies(lim, map[], es, k) == r + [answer]
            && Admitted(r + [answer]) == Admitted(r) + if answer.allowed then 1 else 0
  {
    var r := KeyReplies(lim, map[], fs, k);
    assert (fs + [Request(k, t)])[..|fs|] == fs;
    assert (r + [Reply(lim, Held(lim, After(lim, map[], fs), k, t), t)])[..|r|] == r;
  }

  lemma {:induction false} StaysAhead(lim: Limits, es: seq<Event>, k: string, choice: seq<bool>, now: real)
    requires lim.Valid() && Follows(lim, KeyTimes(es, k), choice)
    ensures |KeyReplies(lim, map[], es, k)| == |choice|
    ensures Ahead(lim, After(lim, map[], es), k, RuleBefore(lim, KeyTimes(es, k), choice, now),
                  Admitted(KeyReplies(lim, map[], es, k)), Chosen(choice))
    ensures KeyTimes(es, k) == [] ==> k !in After(lim, map[], es)
  {
    if es != [] {
      var fs, e := es[..|es| - 1], es[|es| - 1];
      if Asks(e, k) {
        var ts := KeyTimes(fs, k);
        var c := choice[..|ts|];
        assert es == fs + [Request(k, e.at)];
        AskedReplies(lim, fs, k, e.at);
        FollowsFirst(lim, ts, e.at, choice, now);
        StaysAhead(lim, fs, k, c, e.at);
        AheadStep(lim, After(lim, map[], fs), k, RuleBefore(lim, ts, c, e.at), e.at,
                  Admitted(KeyReplies(lim, map[], fs, k)), Chosen(c), choice[|ts|]);
      } else {
        StaysAhead(lim, fs, k, choice, now);
      }
    }
  }

  /** No other rule for a key that respects the same limits would have let more through, at any
      point of any run: whatever the limits are, and wherever the key's bucket is swept away. */
  lemma {:induction false} KeyGreedyOptimal(lim: Limits, es: seq<Event>, k: string, choice: seq<bool>, n: nat)
    requires lim.Valid() && Follows(lim, KeyTimes(es, k), choice) && n <= |choice|
    ensures |KeyReplies(lim, map[], es, k)| == |choice|
    ensures Chosen(choice[..n]) <= Admitted(KeyReplies(lim, map[], es, k)[..n])
  {
    var r := KeyReplies(lim, map[], es, k);
    StaysAhead(lim, es, k, choice, 0.0);
    if n == |choice| {
      assert choice[..n] == choice && r[..n] == r;
    } else {
      var fs, e := es[..|es| - 1], es[|es| - 1];
      if Asks(e, k) {
        var m := |choice| - 1;
        FollowsFirst(lim, KeyTimes(fs, k), e.at, choice, 0.0);
        KeyGreedyOptimal(lim, fs, k, choice[..m], n);
        assert choice[..m][..n] == choice[..n] && r[..n] == KeyReplies(lim, map[], fs, k)[..n];
      } else {
        KeyGreedyOptimal(lim, fs, k, choice, n);
      }
    }
  }

  /** As many requests as a full bucket has whole tokens are let through before a key is refused
      anything, whenever they come and whatever is swept. */
  lemma {:induction false} FirstRequestsAllowed(lim: Limits, es: seq<Event>, k: string, i: nat)
    requires lim.Valid() && InOrder(es) && i < |KeyReplies(lim, map[], es, k)| && (i + 1) as real <= lim.capacity
    ensures KeyReplies(lim, map[], es, k)[i].allowed
  {
    var fs, e := es[..|es| - 1], es[|es| - 1];
    assert InOrder(fs);
    if Asks(e, k) && i == |KeyReplies(lim, map[], fs, k)| {
      EnoughLeft(lim, fs, k);
      FreshIsFull(lim, e.at);
      var m := After(lim, map[], fs);
      if k in m { AccruedFacts(lim, m[k].lastRefill, e.at, e.at); }
    } else {
      FirstRequestsAllowed(lim, fs, k, i);
    }
  }

  /** A stored bucket has lost at most a token per request. */
  lemma {:induction false} EnoughLeft(lim: Limits, es: seq<Event>, k: string)
    requires lim.Valid() && InOrder(es)
    ensures var m, n := After(lim, map[], es), |KeyReplies(lim, map[], es, k)|;
            k in m ==> es != [] && m[k].lastRefill <= es[|es| - 1].at && m[k].tokens >= lim.capacity - n as real
  {
    if es != [] {
      var fs, e := es[..|es| - 1], es[|es| - 1];
      assert InOrder(fs) && (fs != [] ==> fs[|fs| - 1].at <= e.at);
      EnoughLeft(lim, fs, k);
      FreshIsFull(lim, e.at);
      var m := After(lim, map[], fs);
      if k in m { AccruedFacts(lim, m[k].lastRefill, e.at, e.at); }
    }
  }

  // --- Waiting for the reset time ------------------------------------------------------------

  const SECOND := 1000000000.0 // nanoseconds

  /** The reset time in seconds: how long a token takes to accrue, cut to whole nanoseconds. */
  function ResetIn(rate: real): real
    requires rate != 0.0
  {
    Trunc(SECOND / rate) as real / SECOND
  }

  /** The reset time is a whole number of nanoseconds, the largest in which at most a token accrues. */
  lemma ResetMeans(rate: real)
    requires rate > 0.0
    ensures ResetIn(rate) >= 0.0 && (ResetIn(rate) * 1000000000.0).Floor as real == ResetIn(rate) * 1000000000.0
    ensures ResetIn(rate) * rate <= 1.0 < (ResetIn(rate) + 0.000000001) * rate
  {
    var exact := SECOND / rate;
    DividedTimes(SECOND, rate);
    if exact < 0.0 { TimesStrict(exact, 0.0, rate); }
    var n: nat := Trunc(exact);
    DividedTimes(n as real, SECOND);
    TimesMonotone(n as real, exact, rate);
    TimesStrict(exact, n as real + 1.0, rate);
    var reset := ResetIn(rate);
    assert reset * SECOND == n as real && (n as real).Floor == n;
    assert reset * rate * SECOND == reset * SECOND * rate;
    var next := (n as real + 1.0) * rate;
    assert (reset + 0.000000001) * rate * SECOND == (reset * SECOND + 1.0) * rate == next;
    assert next > SECOND;
  }

  /** Nothing is cut: a token takes a whole number of nanoseconds. */
  predicate ResetExact(rate: real)
    requires rate != 0.0
  {
    Trunc(SECOND / rate) as real == SECOND / rate
  }

  /** What a key earns by waiting the reset time is one token, or less if something was cut. */
  lemma ResetEarns(rate: real)
    requires rate > 0.0
    ensures 0.0 <= ResetIn(rate)
    ensures if ResetExact(rate) then ResetIn(rate) * rate == 1.0 else ResetIn(rate) * rate < 1.0
  {
    var exact := SECOND / rate;
    DividedTimes(SECOND, rate);
    if exact < 0.0 { TimesStrict(exact, 0.0, rate); }
    var cut := Trunc(exact) as real;
    DividedTimes(cut, SECOND);
    assert ResetIn(rate) * rate == cut * rate / SECOND;
    if cut < exact { TimesStrict(cut, exact, rate); }
  }

  predicate Spaced(ts: seq<real>, gap: real) { forall i :: 0 < i < |ts| ==> ts[i] - ts[i - 1] >= gap }

  predicate AllAllowed(r: seq<Answer>) { forall i :: 0 <= i < |r| ==> r[i].allowed }

  /** No key that waits the advertised reset time between its requests is ever refused. */
  ghost predicate ResetHonest(lim: Limits)
    requires lim.rate != 0.0
  {
    forall es: seq<Event>, k: string :: InOrder(es) && Spaced(KeyTimes(es, k), ResetIn(lim.rate)) ==>
      AllAllowed(KeyReplies(lim, map[], es, k))
  }

  /** A key that spaces its requests by a token's time is never refused, swept or not. */
  lemma {:induction false} SpacedKeyNeverRefused(lim: Limits, es: seq<Event>, k: string, gap: real)
    requires lim.Valid() && lim.capacity >= 1.0 && gap * lim.rate == 1.0 && Spaced(KeyTimes(es, k), gap)
    ensures AllAllowed(KeyReplies(lim, map[], es, k))
    ensures var m, ts := After(lim, map[], es), KeyTimes(es, k);
            k in m ==> ts != [] && 0.0 <= m[k].tokens && m[k].lastRefill == ts[|ts| - 1]
  {
    if es != [] {
      var fs, e := es[..|es| - 1], es[|es| - 1];
      var ts, m := KeyTimes(fs, k), After(lim, map[], fs);
      if Asks(e, k) {
        var us := KeyTimes(es, k);
        assert forall i :: 0 < i < |ts| ==> ts[i] - ts[i - 1] == us[i] - us[i - 1];
        SpacedKeyNeverRefused(lim, fs, k, gap);
        FreshIsFull(lim, e.at);
        if k in m {
          assert us[|ts|] - us[|ts| - 1] >= gap;
          AccruedToken(lim, m[k].lastRefill, e.at, gap);
        }
      } else {
        SpacedKeyNeverRefused(lim, fs, k, gap);
      }
    }
  }

  /** `n` requests, each one `gap` after the last. */
  function Every(gap: real, n: nat): (ts: seq<real>)
    requires n > 0
    ensures |ts| == n
  {
    if n == 1 then [0.0] else
      var ts := Every(gap, n - 1);
      ts + [ts[n - 2] + gap]
  }

  lemma {:induction false} EverySpaced(gap: real, n: nat)
    requires n > 0 && 0.0 <= gap
    ensures var ts := Every(gap, n); ts[0] == 0.0 && NonDecreasing(ts) && Spaced(ts, gap)
  {
    if n > 1 { EverySpaced(gap, n - 1); }
  }

  lemma {:induction false} EveryEarns(gap: real, rate: real, n: nat)
    requires n > 0
    ensures Every(gap, n)[n - 1] * rate == (n - 1) as real * (gap * rate)
  {
    if n > 1 {
      EveryEarns(gap, rate, n - 1);
      OneMore(Every(gap, n - 1)[n - 2], gap, rate);
      OneMore((n - 2) as real, 1.0, gap * rate);
    }
  }

  lemma OneMore(x: real, y: real, r: real)
    ensures (x + y) * r == x * r + y * r
  {
  }

  /** The bucket admits no more than it started with and the clock put in. */
  lemma EveryAdmits(lim: Limits, gap: real, n: nat)
    requires lim.Valid() && 0.0 <= gap && n > 0
    ensures Admitted(Replies(lim, Fresh(lim, 0.0), Every(gap, n))) as real
         <= lim.capacity + Accrued(lim, 0.0, Every(gap, n)[n - 1])
  {
    var ts, b := Every(gap, n), Fresh(lim, 0.0);
    EverySpaced(gap, n);
    assert Ordered(0.0, ts) && Last(0.0, ts) == ts[n - 1];
    PlaySound(lim, b, ts);
    SpendingBound(lim, b, ts);
  }

  lemma RequestsInOrder(k: string, ts: seq<real>)
    requires NonDecreasing(ts)
    ensures InOrder(Requests(k, ts))
  {
    RequestsDated(k, ts);
  }

  lemma WaitsLose(n: real, capacity: real, earned: real)
    requires earned < 1.0 && n - 1.0 > capacity / (1.0 - earned)
    ensures n > capacity + (n - 1.0) * earned
  {
    var loss := 1.0 - earned;
    DividedTimes(capacity, loss);
    TimesStrict(capacity / loss, n - 1.0, loss);
    OneMore(loss, earned, n - 1.0);
  }

  lemma EveryLoses(lim: Limits, gap: real, n: nat)
    requires n > 0 && gap * lim.rate < 1.0 && n as real - 1.0 > lim.capacity / (1.0 - gap * lim.rate)
    ensures lim.capacity + Accrued(lim, 0.0, Every(gap, n)[n - 1]) < n as real
  {
    WaitsLose(n as real, lim.capacity, gap * lim.rate);
    EveryEarns(gap, lim.rate, n);
  }

  /** With less than a token earned per wait, enough requests use up what the bucket started with. */
  lemma ShortWaitsRefused(lim: Limits, k: string, gap: real) returns (es: seq<Event>)
    requires lim.Valid() && 0.0 <= gap && gap * lim.rate < 1.0
    ensures InOrder(es) && Spaced(KeyTimes(es, k), gap) && !AllAllowed(KeyReplies(lim, map[], es, k))
  {
    var n := Beyond(lim.capacity / (1.0 - gap * lim.rate)) + 1;
    EveryAdmits(lim, gap, n);
    EveryLoses(lim, gap, n);
    es := EveryRefused(lim, k, gap, n);
  }

  lemma EveryRefused(lim: Limits, k: string, gap: real, n: nat) returns (es: seq<Event>)
    requires 0.0 <= gap && n > 0 && Admitted(Replies(lim, Fresh(lim, 0.0), Every(gap, n))) < n
    ensures InOrder(es) && Spaced(KeyTimes(es, k), gap) && !AllAllowed(KeyReplies(lim, map[], es, k))
  {
    var ts := Every(gap, n);
    es := Requests(k, ts);
    EverySpaced(gap, n);
    RequestsInOrder(k, ts);
    RequestsTimes(k, ts);
    RequestsReplies(lim, map[], k, ts);
    AdmittedAll(KeyReplies(lim, map[], es, k));
  }

  function Beyond(x: real): (n: nat)
    ensures n as real > x
  {
    if x < 0.0 then 0 else x.Floor + 1
  }

  /** The advertised reset time can be relied on, whatever is swept when, exactly when the bucket
      has room for a token and the time of one token is a whole number of nanoseconds. */
  lemma ResetHonestIff(lim: Limits)
    requires lim.Valid()
    ensures ResetHonest(lim) <==> lim.capacity >= 1.0 && ResetExact(lim.rate)
  {
    var gap := ResetIn(lim.rate);
    ResetEarns(lim.rate);
    if lim.capacity >= 1.0 && ResetExact(lim.rate) {
      forall es: seq<Event>, k: string | InOrder(es) && Spaced(KeyTimes(es, k), gap)
        ensures AllAllowed(KeyReplies(lim, map[], es, k))
      {
        SpacedKeyNeverRefused(lim, es, k, gap);
      }
    } else if lim.capacity >= 1.0 {
      var es := ShortWaitsRefused(lim, "", gap);
    } else {
      var es := NoRoomRefused(lim, "", gap);
    }
  }

  lemma NoRoomRefused(lim: Limits, k: string, gap: real) returns (es: seq<Event>)
    requires lim.Valid() && lim.capacity < 1.0
    ensures InOrder(es) && Spaced(KeyTimes(es, k), gap) && !AllAllowed(KeyReplies(lim, map[], es, k))
  {
    es := Requests(k, [0.0]);
    RequestsTimes(k, [0.0]);
    RequestsReplies(lim, map[], k, [0.0]);
    RequestsInOrder(k, [0.0]);
    RefusedWithoutRoom(lim, Fresh(lim, 0.0), 0.0);
    assert [0.0][..0] == [];
    assert !KeyReplies(lim, map[], es, k)[0].allowed;
  }

  // --- The objects -----------------------------------------------------------------------------

  class TokenBucket {
    var tokens: real
    const capacity: real
    const refillRate: real
    var lastRefill: real

    ghost function View(): Bucket
      reads this
    {
      Bucket(tokens, lastRefill)
    }

    constructor (capacity: real, refillRate: real, now: real)
      ensures this.capacity == capacity && this.refillRate == refillRate
      ensures View() == Bucket(capacity, now)
    {
      this.tokens := capacity;
      this.capacity := capacity;
      this.refillRate := refillRate;
      this.lastRefill := now;
    }

    method Allow(now: real) returns (allowed: bool)
      modifies this
      ensures View() == Spend(Limits(capacity, refillRate), old(View()), now)
      ensures allowed == Reply(Limits(capacity, refillRate), old(View()), now).allowed
    {
      var elapsed := now - lastRefill;
      assert elapsed * refillRate == Accrued(Limits(capacity, refillRate), lastRefill, now);
      tokens := Min(capacity, tokens + elapsed * refillRate);
      lastRefill := now;
      allowed := false;
      if tokens >= 1.0 {
        tokens := tokens - 1.0;
        allowed := true;
      }
    }

    function Remaining(): int
      reads this
    {
      Trunc(tokens)
    }
  }

  class RateLimiter {
    var buckets: map<string, TokenBucket>
    const capacity: real
    const refillRate: real

    ghost function Lim(): Limits { Limits(capacity, refillRate) }

    /** Every bucket has the limiter's own limits and belongs to one key. */
    ghost predicate Valid()
      reads this, buckets.Values
    {
      && (forall k :: k in buckets ==> buckets[k].capacity == capacity && buckets[k].refillRate == refillRate)
      && (forall j, k :: j in buckets && k in buckets && j != k ==> buckets[j] != buckets[k])
    }

    ghost function View(): Table
      reads this, buckets.Values
    {
      map k | k in buckets :: buckets[k].View()
    }

    constructor (capacity: real, ratePerSec: real)
      ensures Valid() && View() == map[] && Lim() == Limits(capacity, ratePerSec)
    {
      this.buckets := map[];
      this.capacity := capacity;
      this.refillRate := ratePerSec;
    }

    method Allow(key: string, now: real) returns (allowed: bool, remaining: int, resetIn: real)
      requires Valid()
      modifies this, buckets.Values
      ensures Valid() && fresh(buckets.Values - old(buckets.Values))
      ensures View() == Next(Lim(), old(View()), Request(key, now))
      ensures Answer(allowed, remaining) == Reply(Lim(), Held(Lim(), old(View()), key, now), now)
      ensures refillRate != 0.0 ==> resetIn == ResetIn(refillRate)
    {
      if key !in buckets {
        var created := new TokenBucket(capacity, refillRate, now);
        buckets := buckets[key := created];
      }
      var bucket := buckets[key];
      allowed := bucket.Allow(now);
      remaining := bucket.Remaining();
      resetIn := 0.0; // at rate 0 any duration will do
      if refillRate != 0.0 {
        resetIn := Trunc(SECOND / refillRate) as real / SECOND;
      }
    }

    /** One pass of the sweep, which a ticker starts every five minutes. */
    method Cleanup(now: real)
      requires Valid()
      modifies this
      ensures Valid() && buckets.Values <= old(buckets.Values)
      ensures View() == Next(Lim(), old(View()), Sweep(now))
      ensures forall k :: k in buckets <==> k in old(buckets) && now - old(buckets[k].lastRefill) <= 600.0
      ensures forall k :: k in buckets ==> buckets[k] == old(buckets)[k]
    {
      var cutoff := now - STALE_AFTER;
      var todo := buckets.Keys;
      while todo != {}
        invariant Valid() && buckets.Keys <= old(buckets.Keys) && todo <= buckets.Keys
        invariant forall k :: k in buckets ==> buckets[k] == old(buckets)[k]
        invariant forall k :: k in old(buckets) && k !in todo ==>
          (k in buckets <==> !(old(buckets)[k].lastRefill < cutoff))
      {
        var key :| key in todo;
        if buckets[key].lastRefill < cutoff {
          buckets := buckets - {key};
        }
        todo := todo - {key};
      }
    }
  }
}
