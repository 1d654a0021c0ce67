/** The arithmetic of one token bucket, and of many requests played against it.

    Times are seconds on the process's monotonic clock and tokens are reals, so the rounding of
    floating point is the one thing the numbers below do not have in common with the program's. */
module TokenBuckets {
  import opened Models

  datatype Limits = Limits(capacity: real, rate: real) {
    predicate Valid() { capacity >= 0.0 && rate > 0.0 }
  }

  datatype Bucket = Bucket(tokens: real, lastRefill: real)

  /** What a caller is told: the verdict, and the tokens left cut to a whole number. */
  datatype Answer = Answer(allowed: bool, remaining: int)

  function Min(a: real, b: real): real { if a < b then a else b }

  /** Conversion of a float to an integer, which drops the fraction towards zero. */
  function Trunc(x: real): int { if x >= 0.0 then x.Floor else -((-x).Floor) }

  function Fresh(lim: Limits, now: real): Bucket { Bucket(lim.capacity, now) }

  /** Tokens the clock puts in between two instants. */
  function Accrued(lim: Limits, from: real, to: real): real { (to - from) * lim.rate }

  function Refilled(lim: Limits, b: Bucket, now: real): real {
    Min(lim.capacity, b.tokens + Accrued(lim, b.lastRefill, now))
  }

  function Spend(lim: Limits, b: Bucket, now: real): Bucket {
    var t := Refilled(lim, b, now);
    Bucket(if t >= 1.0 then t - 1.0 else t, now)
  }

  function Reply(lim: Limits, b: Bucket, now: real): Answer {
    Answer(Refilled(lim, b, now) >= 1.0, Trunc(Spend(lim, b, now).tokens))
  }

  lemma TruncMeans(x: real)
    ensures var whole := Trunc(x) as real;
            if x >= 0.0 then 0.0 <= whole <= x < whole + 1.0 else whole - 1.0 < x <= whole <= 0.0
  {
    var n := if x >= 0.0 then x.Floor else (-x).Floor;
    assert n >= 0 && (-n) as real == -(n as real);
  }

  lemma AccruedIs(lim: Limits, from: real, to: real)
    ensures Accrued(lim, from, to) == (to - from) * lim.rate
  {
  }

  /** What a bucket answers and keeps, `earned` being what the clock put in since its last request: it
      fills up to its capacity; a request takes one token if there is one; and the caller is told the
      whole tokens that are left. */
  lemma AnswerMeans(lim: Limits, b: Bucket, now: real, earned: real)
    requires earned == (now - b.lastRefill) * lim.rate
    ensures var held := if b.tokens + earned < lim.capacity then b.tokens + earned else lim.capacity;
            var left := if held >= 1.0 then held - 1.0 else held;
            && (Reply(lim, b, now).allowed <==> held >= 1.0)
            && Spend(lim, b, now) == Bucket(left, now)
            && var whole := Reply(lim, b, now).remaining as real;
               if left >= 0.0 then 0.0 <= whole <= left < whole + 1.0 else whole - 1.0 < left <= whole <= 0.0
  {
    AccruedIs(lim, b.lastRefill, now);
    assert Refilled(lim, b, now) == Min(lim.capacity, b.tokens + earned);
    TruncMeans(Spend(lim, b, now).tokens);
  }

  // --- Runs of requests against one bucket -------------------------------------------------

  /** Request times in order, none before `from`. */
  predicate Ordered(from: real, ts: seq<real>) {
    && (forall i :: 0 <= i < |ts| ==> from <= ts[i])
    && (forall i, j :: 0 <= i < j < |ts| ==> ts[i] <= ts[j])
  }

  function Play(lim: Limits, b: Bucket, ts: seq<real>): Bucket {
    if ts == [] then b else Spend(lim, Play(lim, b, ts[..|ts| - 1]), ts[|ts| - 1])
  }

  function Replies(lim: Limits, b: Bucket, ts: seq<real>): (r: seq<Answer>)
    ensures |r| == |ts|
  {
    if ts == [] then []
    else Replies(lim, b, ts[..|ts| - 1]) + [Reply(lim, Play(lim, b, ts[..|ts| - 1]), ts[|ts| - 1])]
  }

  /** The number of requests let through. */
  function Admitted(r: seq<Answer>): nat {
    if r == [] then 0 else Admitted(r[..|r| - 1]) + if r[|r| - 1].allowed then 1 else 0
  }

  predicate Sound(lim: Limits, b: Bucket) { 0.0 <= b.tokens <= lim.capacity }

  lemma TimesMonotone(a: real, b: real, r: real)
    requires a <= b && r >= 0.0
    ensures a * r <= b * r
  {
  }

  lemma TimesStrict(a: real, b: real, r: real)
    requires a < b && r > 0.0
    ensures a * r < b * r
  {
    assert (b - a) * r > 0.0;
  }

  lemma TimesCancels(a: real, b: real, r: real)
    requires a * r < b * r && r > 0.0
    ensures a < b
  {
    if b <= a { TimesMonotone(b, a, r); }
  }

  lemma AccruedToken(lim: Limits, a: real, b: real, q: real)
    requires lim.Valid() && q * lim.rate == 1.0 && q <= b - a
    ensures Accrued(lim, a, b) >= 1.0
  {
    TimesMonotone(q, b - a, lim.rate);
  }

  lemma AccruedFacts(lim: Limits, a: real, b: real, c: real)
    requires lim.Valid()
    ensures Accrued(lim, a, a) == 0.0
    ensures a <= b ==> Accrued(lim, a, b) >= 0.0
    ensures Accrued(lim, a, b) + Accrued(lim, b, c) == Accrued(lim, a, c)
  {
    assert (b - a) * lim.rate + (c - b) * lim.rate == (c - a) * lim.rate;
    if a <= b { TimesMonotone(0.0, b - a, lim.rate); }
  }

  function Last(from: real, ts: seq<real>): real { if ts == [] then from else ts[|ts| - 1] }

  lemma {:induction false} PlaySound(lim: Limits, b: Bucket, ts: seq<real>)
    requires lim.Valid() && Sound(lim, b) && Ordered(b.lastRefill, ts)
    ensures Sound(lim, Play(lim, b, ts))
    ensures Play(lim, b, ts).lastRefill == Last(b.lastRefill, ts)
  {
    if ts != [] {
      var n := |ts| - 1;
      PlaySound(lim, b, ts[..n]);
      AccruedFacts(lim, Play(lim, b, ts[..n]).lastRefill, ts[n], ts[n]);
    }
  }

  /** A run cut in two: the second part continues from the bucket the first part left. */
  lemma {:induction false} PlaySplit(lim: Limits, b: Bucket, us: seq<real>, vs: seq<real>)
    ensures Play(lim, b, us + vs) == Play(lim, Play(lim, b, us), vs)
    ensures Replies(lim, b, us + vs) == Replies(lim, b, us) + Replies(lim, Play(lim, b, us), vs)
  {
    if vs == [] {
      assert us + vs == us;
    } else {
      var ws := us + vs;
      assert ws[..|ws| - 1] == us + vs[..|vs| - 1];
      PlaySplit(lim, b, us, vs[..|vs| - 1]);
    }
  }

  lemma {:induction false} AdmittedSplit(r: seq<Answer>, s: seq<Answer>)
    ensures Admitted(r + s) == Admitted(r) + Admitted(s)
  {
    if s == [] {
      assert r + s == r;
    } else {
      assert (r + s)[..|r + s| - 1] == r + s[..|s| - 1];
      AdmittedSplit(r, s[..|s| - 1]);
    }
  }

  lemma {:induction false} AdmittedAll(r: seq<Answer>)
    ensures Admitted(r) <= |r|
    ensures Admitted(r) == |r| <==> forall i :: 0 <= i < |r| ==> r[i].allowed
  {
    if r != [] {
      var p := r[..|r| - 1];
      AdmittedAll(p);
      assert forall i :: 0 <= i < |p| ==> p[i] == r[i];
      assert r[|r| - 1].allowed && Admitted(p) == |p| ==> forall i :: 0 <= i < |r| ==> r[i].allowed;
      if forall i :: 0 <= i < |r| ==> r[i].allowed {
        assert forall i :: 0 <= i < |p| ==> p[i].allowed;
      }
    }
  }

  /** Conservation: what was let through plus what is left never exceeds what there was at the
      start plus what the clock put in. */
  lemma {:induction false} SpendingBound(lim: Limits, b: Bucket, ts: seq<real>)
    requires lim.Valid() && Sound(lim, b) && Ordered(b.lastRefill, ts)
    ensures Admitted(Replies(lim, b, ts)) as real + Play(lim, b, ts).tokens
         <= b.tokens + Accrued(lim, b.lastRefill, Last(b.lastRefill, ts))
  {
    if ts == [] {
      AccruedFacts(lim, b.lastRefill, b.lastRefill, b.lastRefill);
    } else {
      var n := |ts| - 1;
      SpendingBound(lim, b, ts[..n]);
      PlaySound(lim, b, ts[..n]);
      assert Replies(lim, b, ts)[..n] == Replies(lim, b, ts[..n]);
      AccruedFacts(lim, b.lastRefill, Play(lim, b, ts[..n]).lastRefill, ts[n]);
    }
  }

  /** The rate limit itself: requests let through from the first time of `ts` to its last number
      at most the burst capacity plus what the sustained rate allows in between. */
  lemma {:induction false} BurstPlusRate(lim: Limits, b: Bucket, ts: seq<real>)
    requires lim.Valid() && Sound(lim, b) && Ordered(b.lastRefill, ts) && ts != []
    ensures Admitted(Replies(lim, b, ts)) as real <= lim.capacity + Accrued(lim, ts[0], ts[|ts| - 1])
  {
    // Refilling at ts[0] first changes no answer, and it leaves at most `capacity` tokens.
    var full := Bucket(Refilled(lim, b, ts[0]), ts[0]);
    AccruedFacts(lim, b.lastRefill, ts[0], ts[0]);
    assert Sound(lim, full) && Ordered(full.lastRefill, ts);
    RefillTwice(lim, b, ts);
    SpendingBound(lim, full, ts);
    PlaySound(lim, full, ts);
  }

  lemma {:induction false} RefillTwice(lim: Limits, b: Bucket, ts: seq<real>)
    requires lim.Valid() && ts != []
    ensures Replies(lim, Bucket(Refilled(lim, b, ts[0]), ts[0]), ts) == Replies(lim, b, ts)
    ensures Play(lim, Bucket(Refilled(lim, b, ts[0]), ts[0]), ts) == Play(lim, b, ts)
  {
    var full := Bucket(Refilled(lim, b, ts[0]), ts[0]);
    var n := |ts| - 1;
    if n == 0 {
      AccruedFacts(lim, ts[0], ts[0], ts[0]);
      assert ts[..n] == [];
      assert Play(lim, full, []) == full && Play(lim, b, []) == b;
      assert Refilled(lim, full, ts[0]) == Refilled(lim, b, ts[0]);
    } else {
      assert ts[..n][0] == ts[0];
      RefillTwice(lim, b, ts[..n]);
    }
  }

  // --- Greedy is optimal ---------------------------------------------------------------------

  /** A bucket driven by some other admission rule: it takes a token exactly where `choice` says. */
  function PolicyPlay(lim: Limits, b: Bucket, ts: seq<real>, choice: seq<bool>): Bucket
    requires |ts| == |choice|
  {
    if ts == [] then b else
      var n := |ts| - 1;
      var t := Refilled(lim, PolicyPlay(lim, b, ts[..n], choice[..n]), ts[n]);
      Bucket(if choice[n] then t - 1.0 else t, ts[n])
  }

  /** The rule never takes a token that is not there. */
  predicate Affordable(lim: Limits, b: Bucket, ts: seq<real>, choice: seq<bool>)
    requires |ts| == |choice|
  {
    ts == [] ||
    (var n := |ts| - 1;
     && Affordable(lim, b, ts[..n], choice[..n])
     && (choice[n] ==> Refilled(lim, PolicyPlay(lim, b, ts[..n], choice[..n]), ts[n]) >= 1.0))
  }

  function Chosen(choice: seq<bool>): nat {
    if choice == [] then 0 else Chosen(choice[..|choice| - 1]) + if choice[|choice| - 1] then 1 else 0
  }

  lemma GreedyStep(lim: Limits, g: Bucket, p: Bucket, now: real, admitted: nat, chosen: nat, take: bool)
    requires chosen <= admitted && p.tokens + chosen as real <= g.tokens + admitted as real
    requires p.lastRefill == g.lastRefill
    requires take ==> Refilled(lim, p, now) >= 1.0
    ensures chosen + (if take then 1 else 0) <= admitted + (if Reply(lim, g, now).allowed then 1 else 0)
    ensures Refilled(lim, p, now) + chosen as real <= Refilled(lim, g, now) + admitted as real
  {
    var x := Accrued(lim, g.lastRefill, now);
    assert Refilled(lim, p, now) == Min(lim.capacity, p.tokens + x);
    assert Refilled(lim, g, now) == Min(lim.capacity, g.tokens + x);
  }

  /** The joint invariant: the limiter is ahead in requests let through, and ahead or level in
      requests and tokens together. */
  lemma {:induction false} GreedyAhead(lim: Limits, b: Bucket, ts: seq<real>, choice: seq<bool>)
    requires lim.Valid() && |ts| == |choice| && Affordable(lim, b, ts, choice)
    ensures Chosen(choice) <= Admitted(Replies(lim, b, ts))
    ensures PolicyPlay(lim, b, ts, choice).tokens + Chosen(choice) as real
         <= Play(lim, b, ts).tokens + Admitted(Replies(lim, b, ts)) as real
    ensures PolicyPlay(lim, b, ts, choice).lastRefill == Play(lim, b, ts).lastRefill
  {
    if ts != [] {
      var n := |ts| - 1;
      GreedyAhead(lim, b, ts[..n], choice[..n]);
      GreedyStep(lim, Play(lim, b, ts[..n]), PolicyPlay(lim, b, ts[..n], choice[..n]), ts[n],
                 Admitted(Replies(lim, b, ts[..n])), Chosen(choice[..n]), choice[n]);
      assert Replies(lim, b, ts)[..n] == Replies(lim, b, ts[..n]);
    }
  }

  /** Whatever rule picks the requests to let through, as long as it never overdraws the bucket,
      the limiter has let through at least as many after every prefix of the requests. */
  lemma {:induction false} GreedyOptimal(lim: Limits, b: Bucket, ts: seq<real>, choice: seq<bool>, n: nat)
    requires lim.Valid() && |ts| == |choice| && Affordable(lim, b, ts, choice) && n <= |ts|
    ensures Chosen(choice[..n]) <= Admitted(Replies(lim, b, ts)[..n])
    decreases |ts|
  {
    if n == |ts| {
      GreedyAhead(lim, b, ts, choice);
      assert choice[..n] == choice && Replies(lim, b, ts)[..n] == Replies(lim, b, ts);
    } else {
      var m := |ts| - 1;
      GreedyOptimal(lim, b, ts[..m], choice[..m], n);
      assert choice[..m][..n] == choice[..n];
      assert Replies(lim, b, ts)[..n] == Replies(lim, b, ts[..m])[..n];
    }
  }
}
