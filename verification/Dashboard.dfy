/** The dashboard endpoint over its three-second cache. */
module Dashboard {
  import opened Models
  import opened Retries
  import opened Stores
  import opened Redis
  import opened Listings
  import Machine
  import Escalation

  /** A dashboard state built from two reads: its active list from one state of the table, its four
      totals from another, as the table may change in between. */
  ghost predicate BuiltFrom(listed: Items, counted: Items, d: DashboardState) {
    IsListing(listed, Active, d.activeIncidents) && CountsIn(d) == CountsOf(counted)
  }

  /** One that shows a table. */
  ghost predicate Shows(items: Items, d: DashboardState) { BuiltFrom(items, items, d) }

  function CountsIn(d: DashboardState): Counts {
    Counts(d.totalOpen, d.totalInvestigating, d.totalResolved, d.totalClosed)
  }

  /** Each total counts the rows of its own state, and the list is the OPEN and INVESTIGATING rows. */
  lemma BuiltMeans(listed: Items, counted: Items, d: DashboardState)
    requires BuiltFrom(listed, counted, d)
    ensures d.totalOpen == |set id | id in counted && counted[id].state == Open :: counted[id]|
    ensures d.totalInvestigating == |set id | id in counted && counted[id].state == Investigating :: counted[id]|
    ensures d.totalResolved == |set id | id in counted && counted[id].state == Resolved :: counted[id]|
    ensures d.totalClosed == |set id | id in counted && counted[id].state == Closed :: counted[id]|
    ensures forall id :: id in listed ==>
      (listed[id] in d.activeIncidents <==> listed[id].state == Open || listed[id].state == Investigating)
  {
    CountsMean(counted);
    forall id | id in listed
      ensures listed[id] in d.activeIncidents <==> listed[id].state == Open || listed[id].state == Investigating
    {
      assert listed[id] in d.activeIncidents <==> listed[id] in multiset(d.activeIncidents);
      assert listed[id] in Rows(listed, Active) <==> IsActive(listed[id]);
    }
  }

  /** How the stores answer: the cache read, the two queries, the rate read, the cache write. */
  datatype Answers = Answers(cacheUp: bool, listUp: bool, countsUp: bool, rateUp: bool, save: Reply)

  class WorkItemHandler {
    const redis: RedisStore

    constructor (rd: RedisStore)
      ensures redis == rd
    {
      redis := rd;
    }

    /** `listing` and `groups` are what the two queries return, from the table as it is at each of
        them. None is an internal error. */
    method GetDashboard(now: Time, a: Answers, ghost listed: Items, listing: seq<WorkItem>,
                        ghost counted: Items, groups: seq<(WorkItemState, nat)>)
      returns (r: Option<DashboardState>)
      requires IsListing(listed, Active, listing) && IsGrouping(counted, groups)
      modifies redis`dashboard
      ensures var e := old(redis.dashboard);
        a.cacheUp && e.Some? && (e.value.expiresAt.Some? ==> now < e.value.expiresAt.value) ==>
          r == Some(e.value.value) && redis.dashboard == e
      ensures var e := old(redis.dashboard);
        !a.cacheUp || e.None? || (e.value.expiresAt.Some? && e.value.expiresAt.value <= now) ==>
        && (r.Some? <==> a.listUp && a.countsUp)
        && (r.Some? ==> BuiltFrom(listed, counted, r.value))
        && (r.Some? ==> r.value.activeIncidents == listing && r.value.updatedAt == now)
        && (r.Some? ==> IsRateRead(redis.throughput, now, a.rateUp, r.value.signalsPerSecond))
        && redis.dashboard == if r.Some? && a.save != Failure then Some(Entry(r.value, Some(now + 3.0))) else e
    {
      var cached := redis.GetDashboardState(now, a.cacheUp);
      if cached.Some? {
        return cached;
      }
      if !a.listUp || !a.countsUp {
        return None;
      }
      var c := GetDashboardCounts(counted, groups);
      var sps, _ := redis.GetSignalsPerSecond(now, a.rateUp);
      var state := DashboardState(c.open, c.investigating, c.resolved, c.closed, sps, listing, now);
      var _ := redis.SetDashboardState(state, now, a.save);
      return Some(state);
    }

    /** The other route: after listing everything, a goroutine filters that list and reads the
        totals anew. */
    method RebuildDashboardCache(ghost listed: Items, items: seq<WorkItem>, now: Time, countsUp: bool, rateUp: bool,
                                 save: Reply, ghost counted: Items, groups: seq<(WorkItemState, nat)>)
      requires IsListing(listed, Everything, items) && IsGrouping(counted, groups)
      modifies redis`dashboard
      ensures !countsUp || save == Failure ==> redis.dashboard == old(redis.dashboard)
      ensures countsUp && save != Failure ==>
        && redis.dashboard.Some? && BuiltFrom(listed, counted, redis.dashboard.value.value)
        && redis.dashboard.value.expiresAt == Some(now + 3.0)
        && redis.dashboard.value.value.activeIncidents == Filter(items)
        && redis.dashboard.value.value.updatedAt == now
        && IsRateRead(redis.throughput, now, rateUp, redis.dashboard.value.value.signalsPerSecond)
    {
      if !countsUp {
        return;
      }
      var c := GetDashboardCounts(counted, groups);
      var sps, _ := redis.GetSignalsPerSecond(now, rateUp);
      var active := FilterActive(items);
      FilterIsListing(listed, items);
      var state := DashboardState(c.open, c.investigating, c.resolved, c.closed, sps, active, now);
      var _ := redis.SetDashboardState(state, now, save);
    }
  }

  // --- Handlers one after the other: a present entry agrees with the table ----------------------------

  /** What the dashboard shows of an item that invalidation answers for. */
  datatype Face = Face(id: string, state: WorkItemState, severity: Severity)

  function FaceOf(w: WorkItem): Face { Face(w.id, w.state, w.severity) }

  function FacesOf(items: Items, sel: Selection): set<Face> {
    set id | id in items && Selected(sel, items[id]) :: FaceOf(items[id])
  }

  function Shown(q: seq<WorkItem>): set<Face> { set i | 0 <= i < |q| :: FaceOf(q[i]) }

  /** Same totals, and the same active ids with the same states and severities. */
  ghost predicate Agrees(items: Items, d: DashboardState) {
    CountsIn(d) == CountsOf(items) && Shown(d.activeIncidents) == FacesOf(items, Active)
  }

  datatype World = World(db: Machine.Db, entry: Option<DashboardState>)

  datatype Op =
    | Create(item: WorkItem, stored: bool, invalidated: bool)
    | Transition(id: string, to: WorkItemState, f: Machine.Weather)
    | Submit(rca: RCA, now: Time, write: seq<Attempt>)
    | Escalate(now: Time, scripts: Escalation.Scripts, inv: Escalation.Replies)
    | CountSignal(id: string, script: seq<Attempt>)
    | Build(state: DashboardState) // by either route
    | Lapse                        // expiry

  function Without(e: Option<DashboardState>, gone: bool): Option<DashboardState> { if gone then None else e }

  ghost function Do(w: World, op: Op): World {
    match op
    case Create(item, stored, invalidated) =>
      if stored && item.id !in w.db.items
      then World(w.db.(items := w.db.items[item.id := item]), Without(w.entry, invalidated))
      else w
    case Transition(id, to, f) =>
      World(Machine.Transitioned(w.db, id, to, f).0,
            Without(w.entry, Machine.Decide(w.db, id, to, f).Success? && Acked(f.write) && f.invalidate != Failure))
    case Submit(rca, now, write) =>
      World(Machine.Submitted(w.db, rca, true, true, now, write).0, w.entry)
    case Escalate(now, f, inv) =>
      World(w.db.(items := Escalation.Pass(w.db.items, now, f)),
            Without(w.entry, Escalation.Announces(w.db.items, now, f, inv)))
    case CountSignal(id, script) =>
      World(w.db.(items := UpdatedRow(w.db.items, id, WithOneMoreSignal, AppliedAt(script))), w.entry)
    case Build(d) => if Shows(w.db.items, d) then World(w.db, Some(d)) else w
    case Lapse => World(w.db, None)
  }

  /** Whatever the operation changed on the dashboard it reported, and the entry was deleted. */
  ghost predicate Announced(w: World, op: Op) {
    match op
    case Create(item, stored, invalidated) => stored ==> invalidated
    case Transition(id, to, f) => AppliedAt(f.write) != [] ==> Acked(f.write) && f.invalidate != Failure
    case Escalate(now, f, inv) =>
      forall id :: id in w.db.items && Escalation.Due(w.db.items[id], now) && AppliedAt(f(id)) != [] ==>
        Acked(f(id)) && inv(id) != Failure
    case _ => true
  }

  ghost function Run(ops: seq<Op>): World {
    if ops == [] then World(Machine.Db(map[], map[]), None) else Do(Run(ops[..|ops| - 1]), ops[|ops| - 1])
  }

  ghost predicate AllAnnounced(ops: seq<Op>) {
    forall n :: 0 <= n < |ops| ==> Announced(Run(ops[..n]), ops[n])
  }

  /** Tables whose rows look alike on the dashboard have the same totals and active faces. */
  ghost predicate LookAlike(a: Items, b: Items) {
    a.Keys == b.Keys && forall id :: id in a ==> a[id].id == id && FaceOf(b[id]) == FaceOf(a[id])
  }

  /** Rows filed by id are as many as their ids. */
  lemma {:induction false} RowsById(items: Items, ids: set<string>)
    requires forall id :: id in ids ==> id in items && items[id].id == id
    ensures |set id | id in ids :: items[id]| == |ids|
  {
    var rows := set id | id in ids :: items[id];
    if ids == {} {
      assert rows == {};
    } else {
      var x :| x in ids;
      RowsById(items, ids - {x});
      assert rows == (set id | id in ids - {x} :: items[id]) + {items[x]};
    }
  }

  lemma SameCount(a: Items, b: Items, s: WorkItemState)
    requires LookAlike(a, b)
    ensures |Rows(a, InState(s))| == |Rows(b, InState(s))|
  {
    var ids := set id | id in a && a[id].state == s;
    RowsById(a, ids);
    RowsById(b, ids);
    assert forall id :: id in a ==> FaceOf(b[id]).state == FaceOf(a[id]).state;
    assert Rows(a, InState(s)) == set id | id in ids :: a[id];
    assert Rows(b, InState(s)) == set id | id in ids :: b[id];
  }

  lemma LookAlikeAgree(a: Items, b: Items, d: DashboardState)
    requires LookAlike(a, b) && Agrees(a, d)
    ensures Agrees(b, d)
  {
    SameCount(a, b, Open);
    SameCount(a, b, Investigating);
    SameCount(a, b, Resolved);
    SameCount(a, b, Closed);
    assert forall id :: id in a ==> FaceOf(b[id]) == FaceOf(a[id]) && b[id].state == a[id].state;
    forall x ensures x in FacesOf(a, Active) <==> x in FacesOf(b, Active) {
      if x in FacesOf(a, Active) {
        var id :| id in a && Selected(Active, a[id]) && FaceOf(a[id]) == x;
        assert id in b && Selected(Active, b[id]) && FaceOf(b[id]) == x;
      }
      if x in FacesOf(b, Active) {
        var id :| id in b && Selected(Active, b[id]) && FaceOf(b[id]) == x;
        assert id in a && Selected(Active, a[id]) && FaceOf(a[id]) == x;
      }
    }
  }

  lemma ShowsAgrees(items: Items, d: DashboardState)
    requires Shows(items, d)
    ensures Agrees(items, d)
  {
    var q := d.activeIncidents;
    forall x ensures x in Shown(q) <==> x in FacesOf(items, Active) {
      if x in Shown(q) {
        var i :| 0 <= i < |q| && FaceOf(q[i]) == x;
        assert q[i] in multiset(q);
        assert q[i] in Rows(items, Active);
      }
      if x in FacesOf(items, Active) {
        var id :| id in items && Selected(Active, items[id]) && FaceOf(items[id]) == x;
        assert items[id] in Rows(items, Active);
        assert items[id] in multiset(q);
        var i :| 0 <= i < |q| && q[i] == items[id];
      }
    }
  }

  ghost predicate EntryAgrees(w: World) { Filed(w.db.items) && (w.entry.Some? ==> Agrees(w.db.items, w.entry.value)) }

  /** An operation that leaves the entry in place leaves a table that looks the same. */
  lemma QuietOps(w: World, op: Op)
    requires Filed(w.db.items) && Announced(w, op) && !op.Build? && !op.Lapse?
    ensures Filed(Do(w, op).db.items)
    ensures Do(w, op).entry == w.entry || Do(w, op).entry == None
    ensures Do(w, op).entry.Some? ==> LookAlike(w.db.items, Do(w, op).db.items)
  {
    match op {
      case Transition(id, to, f) =>
        if Machine.Decide(w.db, id, to, f).Success? { Machine.TransitionWrites(w.db, id, to, f); }
      case CountSignal(id, script) =>
        if id in w.db.items { CountedTimes(w.db.items[id], AppliedAt(script)); }
      case Escalate(now, f, inv) => QuietPass(w, now, f, inv);
      case _ =>
    }
  }

  lemma QuietPass(w: World, now: Time, f: Escalation.Scripts, inv: Escalation.Replies)
    requires Filed(w.db.items) && Announced(w, Escalate(now, f, inv))
    ensures var items := Escalation.Pass(w.db.items, now, f);
            && (forall id :: id in items ==> items[id].id == id)
            && (Escalation.Announces(w.db.items, now, f, inv) || LookAlike(w.db.items, items))
  {
    forall id | id in w.db.items
      ensures var v := Escalation.Pass(w.db.items, now, f)[id];
              && v.id == id
              && (Escalation.Reports(w.db.items, id, now, f, inv) || FaceOf(v) == FaceOf(w.db.items[id]))
    {
      Escalation.PassIsPointwise(w.db.items, now, f, id);
    }
  }

  /** With handlers one after the other, if every change to the dashboard is reported and deletes
      the entry, an entry that is present agrees exactly on totals, ids, states and severities. */
  lemma {:induction false} PresentEntryAgrees(ops: seq<Op>)
    requires AllAnnounced(ops)
    ensures EntryAgrees(Run(ops))
  {
    if ops != [] {
      var pre, op := ops[..|ops| - 1], ops[|ops| - 1];
      assert forall n :: 0 <= n < |pre| ==> pre[..n] == ops[..n] && pre[n] == ops[n];
      PresentEntryAgrees(pre);
      var w := Run(pre);
      assert Announced(w, op);
      if op.Build? {
        if Shows(w.db.items, op.state) { ShowsAgrees(w.db.items, op.state); }
      } else if !op.Lapse? {
        QuietOps(w, op);
        if Do(w, op).entry.Some? {
          LookAlikeAgree(w.db.items, Do(w, op).db.items, w.entry.value);
        }
      }
    }
  }

  // --- And when a change is not announced ---------------------------------------------------------------

  lemma MovedCounts(a: Items, b: Items, id: string, to: WorkItemState)
    requires id in a && id in b && (forall k :: k in a ==> a[k].id == k) && b == a[id := b[id]]
    requires b[id].id == id && b[id].state == to && a[id].state != to
    ensures |Rows(b, InState(to))| == |Rows(a, InState(to))| + 1
  {
    var ids := set k | k in a && a[k].state == to;
    assert forall k :: k in b ==> b[k].id == k;
    RowsById(a, ids);
    RowsById(b, ids + {id});
    assert Rows(a, InState(to)) == set k | k in ids :: a[k];
    assert Rows(b, InState(to)) == set k | k in ids + {id} :: b[k];
  }

  /** A transition past its checks leaves a present, agreeing entry right or gone exactly when it is
      announced: a write that takes effect without being reported leaves the old totals on show. */
  lemma TransitionKeepsEntryIff(w: World, id: string, to: WorkItemState, f: Machine.Weather)
    requires EntryAgrees(w) && w.entry.Some? && Machine.Decide(w.db, id, to, f).Success? && IsScript(f.write)
    ensures EntryAgrees(Do(w, Transition(id, to, f))) <==> Announced(w, Transition(id, to, f))
  {
    var op := Transition(id, to, f);
    var u := Do(w, op);
    Machine.TransitionWrites(w.db, id, to, f);
    if Announced(w, op) {
      QuietOps(w, op);
      if u.entry.Some? { LookAlikeAgree(w.db.items, u.db.items, w.entry.value); }
    } else {
      MovedCounts(w.db.items, u.db.items, id, to);
      assert CountsOf(u.db.items) != CountsOf(w.db.items);
    }
  }

  /** And one that does happen: an item is created, a dashboard built, and the item moved by a write
      that is reported as failed. The entry still counts no item as INVESTIGATING. */
  lemma UnreportedMoveIsNotShown() returns (ops: seq<Op>)
    ensures var w := Run(ops);
            w.entry.Some? && CountsOf(w.db.items).investigating == 1 && w.entry.value.totalInvestigating == 0
  {
    var item := NewWorkItem("a", "c", P2, 0.0);
    var shown := DashboardState(1, 0, 0, 0, 0.0, [item], 0.0);
    var items := map["a" := item];
    var f := Machine.Fair(0.0).(write := Machine.UNREPORTED);
    NewItemShows(item, shown);
    var create, build, move := Create(item, true, true), Build(shown), Transition("a", Investigating, f);
    ops := [create, build, move];
    assert Run([create]) == World(Machine.Db(items, map[]), None) by { assert [create][..0] == []; }
    assert Run([create, build]) == World(Machine.Db(items, map[]), Some(shown)) by {
      assert [create, build][..1] == [create];
    }
    assert ops[..2] == [create, build];
    Machine.UnreportedApplies();
    Machine.TransitionWrites(Machine.Db(items, map[]), "a", Investigating, f);
    MovedCounts(items, Run(ops).db.items, "a", Investigating);
  }

  lemma NewItemShows(w: WorkItem, d: DashboardState)
    requires w.state == Open && CountsIn(d) == Counts(1, 0, 0, 0) && d.activeIncidents == [w]
    ensures Shows(map[w.id := w], d)
    ensures Rows(map[w.id := w], InState(Investigating)) == {}
  {
    var items := map[w.id := w];
    assert w.id in items && Selected(Active, items[w.id]) && Selected(InState(Open), items[w.id]);
    assert Rows(items, Active) == {w} && Rows(items, InState(Open)) == {w};
    assert Rows(items, InState(Investigating)) == {};
    assert Rows(items, InState(Resolved)) == {} && Rows(items, InState(Closed)) == {};
  }
}
