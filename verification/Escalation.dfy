/** The escalator: once a minute it raises the severity of INVESTIGATING items by their age. */
module Escalation {
  import opened Models
  import opened Retries
  import opened Stores
  import opened Listings
  import opened Redis

  const P1_AFTER := 1800.0 // seconds since the item was created
  const P0_AFTER := 3600.0

  function ComputeEscalation(current: Severity, age: real): Severity {
    match current
    case P2 => if age >= P1_AFTER then P1 else P2
    case P1 => if age >= P0_AFTER then P0 else P1
    case P0 => P0
  }

  // --- One pass --------------------------------------------------------------------------------------

  /** How the stores answer a pass: per item, the attempts of its update and its invalidation. */
  type Scripts = string -> seq<Attempt>
  type Replies = string -> Reply

  function Target(w: WorkItem, now: Time): Severity { ComputeEscalation(w.severity, Sub(now, w.createdAt)) }

  predicate Due(w: WorkItem, now: Time) { w.state == Investigating && Target(w, now) != w.severity }

  function PassRow(w: WorkItem, now: Time, script: seq<Attempt>): WorkItem {
    if !Due(w, now) then w
    else Updated(w, (v: WorkItem, t: Time) => WithSeverity(v, Target(w, now), t), AppliedAt(script))
  }

  /** A whole pass is the rule applied to every row on its own. */
  function Pass(items: Items, now: Time, f: Scripts): Items {
    map id | id in items :: PassRow(items[id], now, f(id))
  }

  /** A pass changes nothing but the severity and update time of items that were due, and of those
      only the ones whose update took effect. */
  lemma PassIsPointwise(items: Items, now: Time, f: Scripts, id: string)
    requires id in items
    ensures var w, v := items[id], Pass(items, now, f)[id];
            if Due(w, now) && AppliedAt(f(id)) != [] then v == WithSeverity(w, Target(w, now), v.updatedAt)
            else v == w
  {
    SeverityWrittenOnce(items[id], Target(items[id], now), AppliedAt(f(id)));
  }

  ghost predicate SeenBefore(q: seq<WorkItem>, n: nat, id: string)
    requires n <= |q|
  {
    exists j :: 0 <= j < n && q[j].id == id
  }

  lemma CountedTwice(q: seq<WorkItem>, i: nat, j: nat)
    requires i < j < |q|
    ensures q[i] == q[j] ==> multiset(q)[q[i]] >= 2
  {
    assert q == q[..i] + [q[i]] + q[i + 1..j] + [q[j]] + q[j + 1..];
  }

  /** A listing of filed rows is the active rows, each under its own id, each once. */
  lemma ListingRows(items: Items, q: seq<WorkItem>)
    requires Filed(items) && IsListing(items, Active, q)
    ensures forall i :: 0 <= i < |q| ==> q[i].id in items && items[q[i].id] == q[i]
    ensures forall i, j :: 0 <= i < j < |q| ==> q[i].id != q[j].id
    ensures forall id :: id in items && IsActive(items[id]) ==> SeenBefore(q, |q|, id)
  {
    forall i | 0 <= i < |q| ensures q[i].id in items && items[q[i].id] == q[i] {
      assert q[i] in multiset(q);
      assert q[i] in Rows(items, Active);
    }
    forall i, j | 0 <= i < j < |q| ensures q[i].id != q[j].id {
      CountedTwice(q, i, j);
      assert multiset(Rows(items, Active))[q[i]] <= 1;
    }
    forall id | id in items && IsActive(items[id]) ensures SeenBefore(q, |q|, id) {
      assert items[id] in Rows(items, Active);
      assert items[id] in multiset(q);
      var j :| 0 <= j < |q| && q[j] == items[id];
    }
  }

  class Escalator {
    const postgres: PostgresStore
    const redis: RedisStore

    constructor (pg: PostgresStore, rd: RedisStore)
      ensures postgres == pg && redis == rd
    {
      postgres, redis := pg, rd;
    }

    /** One item of the pass, as its row still is. */
    method EscalateItem(wi: WorkItem, now: Time, script: seq<Attempt>, inv: Reply)
      requires IsScript(script) && wi.id in postgres.workItems && postgres.workItems[wi.id] == wi
      modifies postgres`workItems, redis`dashboard
      ensures postgres.workItems == old(postgres.workItems)[wi.id := PassRow(wi, now, script)]
      ensures redis.dashboard == if Due(wi, now) && Acked(script) && inv != Failure then None else old(redis.dashboard)
    {
      if wi.state == Investigating {
        var age := Sub(now, wi.createdAt);
        var newSeverity := ComputeEscalation(wi.severity, age);
        if newSeverity != wi.severity {
          ghost var was := postgres.workItems;
          var ok := postgres.UpdateWorkItemSeverity(wi.id, newSeverity, script);
          SeverityWrittenOnce(wi, newSeverity, AppliedAt(script));
          assert Updated(wi, (w, t) => WithSeverity(w, newSeverity, t), AppliedAt(script)) == PassRow(wi, now, script);
          assert postgres.workItems == was[wi.id := PassRow(wi, now, script)];
          if ok {
            var _ := redis.InvalidateDashboard(inv);
          }
          return;
        }
      }
      assert postgres.workItems == postgres.workItems[wi.id := wi];
    }

    /** `listing` is what the active query returns, if it returns. */
    method RunEscalationCheck(listing: Option<seq<WorkItem>>, now: Time, f: Scripts, inv: Replies)
      requires Filed(postgres.workItems)
      requires listing.Some? ==> IsListing(postgres.workItems, Active, listing.value)
      requires forall id :: IsScript(f(id))
      modifies postgres`workItems, redis`dashboard
      ensures postgres.workItems == if listing.None? then old(postgres.workItems)
                                    else Pass(old(postgres.workItems), now, f)
      ensures redis.dashboard == if listing.Some? && Announces(old(postgres.workItems), now, f, inv) then None
                                 else old(redis.dashboard)
    {
      if listing.None? {
        return;
      }
      var items := listing.value;
      ghost var was := postgres.workItems;
      ListingRows(was, items);
      for i := 0 to |items|
        invariant PartWay(was, postgres.workItems, items, i, now, f)
        invariant redis.dashboard == if ReportedBefore(was, items, i, now, f, inv) then None else old(redis.dashboard)
      {
        assert !SeenBefore(items, i, items[i].id);
        ghost var before := postgres.workItems;
        EscalateItem(items[i], now, f(items[i].id), inv(items[i].id));
        PartWayNext(was, before, items, i, now, f);
        ReportedNext(was, items, i, now, f, inv);
      }
      PassDone(was, postgres.workItems, items, now, f);
      AllReported(was, items, now, f, inv);
    }
  }

  /** The first `n` items listed have been passed over, the other rows are as they were. */
  ghost predicate PartWay(was: Items, items: Items, q: seq<WorkItem>, n: nat, now: Time, f: Scripts)
    requires n <= |q|
  {
    && items.Keys == was.Keys
    && forall id :: id in was ==>
         items[id] == if SeenBefore(q, n, id) then PassRow(was[id], now, f(id)) else was[id]
  }

  lemma PartWayNext(was: Items, items: Items, q: seq<WorkItem>, n: nat, now: Time, f: Scripts)
    requires n < |q| && PartWay(was, items, q, n, now, f) && q[n].id in was && was[q[n].id] == q[n]
    ensures PartWay(was, items[q[n].id := PassRow(q[n], now, f(q[n].id))], q, n + 1, now, f)
  {
    assert forall id :: SeenBefore(q, n + 1, id) <==> SeenBefore(q, n, id) || id == q[n].id;
  }

  lemma PassDone(was: Items, items: Items, q: seq<WorkItem>, now: Time, f: Scripts)
    requires PartWay(was, items, q, |q|, now, f)
    requires forall id :: id in was && IsActive(was[id]) ==> SeenBefore(q, |q|, id)
    ensures items == Pass(was, now, f)
  {
  }

  ghost predicate ReportedBefore(was: Items, q: seq<WorkItem>, n: nat, now: Time, f: Scripts, inv: Replies)
    requires n <= |q|
  {
    exists j :: 0 <= j < n && Reports(was, q[j].id, now, f, inv)
  }

  lemma ReportedNext(was: Items, q: seq<WorkItem>, i: nat, now: Time, f: Scripts, inv: Replies)
    requires i < |q|
    ensures ReportedBefore(was, q, i + 1, now, f, inv)
       <==> ReportedBefore(was, q, i, now, f, inv) || Reports(was, q[i].id, now, f, inv)
  {
  }

  lemma AllReported(was: Items, q: seq<WorkItem>, now: Time, f: Scripts, inv: Replies)
    requires forall id :: id in was && IsActive(was[id]) ==> SeenBefore(q, |q|, id)
    ensures ReportedBefore(was, q, |q|, now, f, inv) <==> Announces(was, now, f, inv)
  {
    if Announces(was, now, f, inv) {
      var id :| id in was && Reports(was, id, now, f, inv);
      assert SeenBefore(q, |q|, id);
    }
  }

  /** The item's update is reported done and the dashboard entry deleted. */
  ghost predicate Reports(items: Items, id: string, now: Time, f: Scripts, inv: Replies) {
    id in items && Due(items[id], now) && Acked(f(id)) && inv(id) != Failure
  }

  ghost predicate Announces(items: Items, now: Time, f: Scripts, inv: Replies) {
    exists id :: id in items && Reports(items, id, now, f, inv)
  }

  // --- Passes over time ------------------------------------------------------------------------------

  /** What happens to the table between and in passes; nothing else writes severities. */
  datatype Op =
    | RunPass(now: Time, listed: bool, f: Scripts)
    | Create(item: WorkItem)
    | ChangeState(id: string, to: WorkItemState, mttr: Option<real>, now: Time)
    | CountSignal(id: string, now: Time)

  function Do(items: Items, op: Op): Items {
    match op
    case RunPass(now, listed, f) => if listed then Pass(items, now, f) else items
    case Create(w) => if w.id in items then items else items[w.id := w]
    case ChangeState(id, to, mttr, now) =>
      if id in items then items[id := WithState(items[id], to, mttr, now)] else items
    case CountSignal(id, now) => if id in items then items[id := WithOneMoreSignal(items[id], now)] else items
  }

  function Run(ops: seq<Op>): Items {
    if ops == [] then map[] else Do(Run(ops[..|ops| - 1]), ops[|ops| - 1])
  }

  /** How one operation may change an item's severity: not, or one step up in a pass that is due. */
  lemma SeverityStep(items: Items, op: Op, id: string)
    requires id in items
    ensures var w, u := items[id], Do(items, op);
            && id in u && u[id].createdAt == w.createdAt
            && (u[id].severity == w.severity
                || (op.RunPass? && op.listed && w.state == Investigating
                    && ((w.severity == P2 && u[id].severity == P1 && op.now - w.createdAt >= 1800.0)
                        || (w.severity == P1 && u[id].severity == P0 && op.now - w.createdAt >= 3600.0))))
  {
    if op.RunPass? && op.listed { PassIsPointwise(items, op.now, op.f, id); }
  }

  /** Severity never falls, whatever happens in between. */
  lemma {:induction false} SeverityNeverFalls(ops: seq<Op>, n: nat, id: string)
    requires n <= |ops| && id in Run(ops[..n])
    ensures id in Run(ops) && Rank(Run(ops)[id].severity) <= Rank(Run(ops[..n])[id].severity)
    ensures Run(ops)[id].createdAt == Run(ops[..n])[id].createdAt
    decreases |ops|
  {
    if n == |ops| {
      assert ops[..n] == ops;
    } else {
      var pre := ops[..|ops| - 1];
      assert pre[..n] == ops[..n];
      SeverityNeverFalls(pre, n, id);
      SeverityStep(Run(pre), ops[|ops| - 1], id);
    }
  }

  /** Operation `m` is a pass that sees the item INVESTIGATING, and an attempt of its update of it, if
      it makes any, takes effect. */
  ghost predicate EffectivePass(ops: seq<Op>, m: nat, id: string)
    requires m < |ops|
  {
    && id in Run(ops[..m]) && Run(ops[..m])[id].state == Investigating
    && ops[m].RunPass? && ops[m].listed && !AllFailed(ops[m].f(id))
  }

  /** What a pass makes of an item, by its age in seconds: from P2 to P1 from 1800 on, from P1 to P0
      from 3600 on, and otherwise, or if the pass is not effective, nothing. */
  lemma PassOutcome(ops: seq<Op>, m: nat, id: string)
    requires m < |ops| && ops[m].RunPass? && id in Run(ops[..m])
    ensures id in Run(ops[..m + 1])
    ensures var w, u := Run(ops[..m])[id], Run(ops[..m + 1])[id];
            var age, effective := ops[m].now - w.createdAt, EffectivePass(ops, m, id);
            && u.severity == (if effective && w.severity == P2 && age >= 1800.0 then P1
                              else if effective && w.severity == P1 && age >= 3600.0 then P0
                              else w.severity)
            && u == w.(severity := u.severity, updatedAt := u.updatedAt)
            && (u.severity == w.severity ==> u == w)
            && (u.severity != w.severity ==> exists i :: 0 <= i < |ops[m].f(id)| && ops[m].f(id)[i].at == u.updatedAt)
  {
    assert ops[..m + 1][..m] == ops[..m];
    var items, op := Run(ops[..m]), ops[m];
    var ts := AppliedAt(op.f(id));
    NoneAppliedIff(op.f(id));
    PassIsPointwise(items, op.now, op.f, id);
    if ts != [] {
      SeverityWrittenOnce(items[id], Target(items[id], op.now), ts);
      AppliedWhen(op.f(id), ts[|ts| - 1]);
    }
  }

  /** Severity never falls between two points of a run. */
  lemma NeverFallsBetween(ops: seq<Op>, m: nat, n: nat, id: string)
    requires m <= n <= |ops| && id in Run(ops[..m])
    ensures id in Run(ops[..n]) && Rank(Run(ops[..n])[id].severity) <= Rank(Run(ops[..m])[id].severity)
  {
    assert ops[..n][..m] == ops[..m];
    SeverityNeverFalls(ops[..n], m, id);
  }

  function Raised(s: Severity): Severity { match s case P2 => P1 case _ => P0 }

  /** The pass comes an hour or more after the item was created. */
  predicate HourOld(ops: seq<Op>, m: nat, id: string)
    requires m < |ops| && ops[m].RunPass? && id in Run(ops[..m])
  {
    ops[m].now - Run(ops[..m])[id].createdAt >= 3600.0
  }

  /** An effective pass over an item an hour old raises its severity by exactly one step, up to P0:
      one pass is not enough for a P2 item, however old. */
  lemma PassRaises(ops: seq<Op>, m: nat, id: string)
    requires m < |ops| && EffectivePass(ops, m, id) && HourOld(ops, m, id)
    ensures id in Run(ops[..m + 1])
    ensures Run(ops[..m + 1])[id].severity == Raised(Run(ops[..m])[id].severity)
  {
    PassOutcome(ops, m, id);
  }

  lemma RankIsZero(s: Severity)
    ensures Rank(s) == 0 <==> s == P0
  {
  }

  lemma StaysP0(ops: seq<Op>, n: nat, id: string)
    requires n <= |ops| && id in Run(ops[..n]) && Run(ops[..n])[id].severity == P0
    ensures id in Run(ops) && Run(ops)[id].severity == P0
  {
    SeverityNeverFalls(ops, n, id);
    RankIsZero(Run(ops)[id].severity);
  }

  /** After one such pass the item is P0 or P1 at any later point. */
  lemma OnePassIsOneStep(ops: seq<Op>, m: nat, n: nat, id: string)
    requires m < n < |ops| && EffectivePass(ops, m, id) && HourOld(ops, m, id)
    ensures id in Run(ops[..n]) && Rank(Run(ops[..n])[id].severity) <= 1
  {
    PassRaises(ops, m, id);
    NeverFallsBetween(ops, m + 1, n, id);
  }

  /** Two effective passes make an item P0, whatever its severity was, and P0 it stays. */
  lemma TwoPassesReachP0(ops: seq<Op>, m: nat, n: nat, id: string)
    requires m < n < |ops| && EffectivePass(ops, m, id) && EffectivePass(ops, n, id)
    requires HourOld(ops, m, id) && HourOld(ops, n, id)
    ensures id in Run(ops) && Run(ops)[id].severity == P0
  {
    OnePassIsOneStep(ops, m, n, id);
    PassRaises(ops, n, id);
    StaysP0(ops, n + 1, id);
  }
}
