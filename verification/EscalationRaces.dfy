/** Escalators of any number of instances, each taking a snapshot and then writing item by item,
    among the other writers of the table. */
module EscalationRaces {
  import opened Models
  import opened Retries
  import opened Stores
  import opened Listings
  import opened Escalation

  /** A severity that a pass has decided on and not done writing. */
  datatype Plan = Plan(id: string, severity: Severity, attempt: nat)

  /** `todo`: what is left of each instance's pass. `born`: the severity each item was created with. */
  datatype State = State(items: Items, todo: map<nat, seq<Plan>>, born: map<string, Severity>)

  const INITIAL := State(map[], map[], map[])

  datatype Action =
    | CreateItem(at: Time, item: WorkItem)
    | SetState(at: Time, id: string, to: WorkItemState, mttr: Option<real>)
    | AddSignal(at: Time, id: string)
    | Snapshot(at: Time, e: nat, listing: seq<WorkItem>)
    | WriteNext(at: Time, e: nat, reply: Reply) // one attempt of the update at the head of its pass
    | GiveUp(at: Time, e: nat)                  // on that update
    | Stop(at: Time, e: nat)                    // of the instance

  function TodoOf(s: State, e: nat): seq<Plan> { if e in s.todo then s.todo[e] else [] }

  /** The updates that a pass decides on from what it listed. */
  function Plans(q: seq<WorkItem>, now: Time): seq<Plan> {
    if q == [] then [] else
      var n := |q| - 1;
      Plans(q[..n], now) + if Due(q[n], now) then [Plan(q[n].id, Target(q[n], now), 1)] else []
  }

  function Written(items: Items, p: Plan, at: Time): Items {
    if p.id in items then items[p.id := WithSeverity(items[p.id], p.severity, at)] else items
  }

  /** The pass after an attempt: on to the next item, or the same once more. */
  function Retried(todo: seq<Plan>, reply: Reply): seq<Plan>
    requires todo != []
  {
    if reply == Ack || todo[0].attempt >= MAX_ATTEMPTS then todo[1..]
    else [todo[0].(attempt := todo[0].attempt + 1)] + todo[1..]
  }

  ghost function Apply(s: State, a: Action): State {
    match a
    case CreateItem(_, w) =>
      if w.id in s.items then s else s.(items := s.items[w.id := w], born := s.born[w.id := w.severity])
    case SetState(at, id, to, mttr) =>
      if id !in s.items then s else s.(items := s.items[id := WithState(s.items[id], to, mttr, at)])
    case AddSignal(at, id) =>
      if id !in s.items then s else s.(items := s.items[id := WithOneMoreSignal(s.items[id], at)])
    case Snapshot(at, e, q) =>
      if TodoOf(s, e) != [] || !IsListing(s.items, Active, q) then s else s.(todo := s.todo[e := Plans(q, at)])
    case WriteNext(at, e, reply) =>
      if TodoOf(s, e) == [] then s
      else s.(items := if reply == Failure then s.items else Written(s.items, TodoOf(s, e)[0], at),
              todo := s.todo[e := Retried(TodoOf(s, e), reply)])
    case GiveUp(_, e) => if TodoOf(s, e) == [] then s else s.(todo := s.todo[e := TodoOf(s, e)[1..]])
    case Stop(_, e) => s.(todo := s.todo[e := []])
  }

  ghost function RunFrom(s: State, acts: seq<Action>): State {
    if acts == [] then s else Apply(RunFrom(s, acts[..|acts| - 1]), acts[|acts| - 1])
  }

  ghost function Run(acts: seq<Action>): State { RunFrom(INITIAL, acts) }

  // --- What every plan satisfies ---------------------------------------------------------------------

  predicate IsPlanOf(p: Plan, w: WorkItem, now: Time) { p.id == w.id && Due(w, now) && p.severity == Target(w, now) }

  ghost predicate PlansSome(p: Plan, q: seq<WorkItem>, now: Time) {
    exists j :: 0 <= j < |q| && IsPlanOf(p, q[j], now)
  }

  /** A pass plans, for a listed item that is due, its next severity; and for each item once. */
  lemma {:induction false} PlansAre(q: seq<WorkItem>, now: Time, i: nat)
    requires i < |Plans(q, now)|
    ensures PlansSome(Plans(q, now)[i], q, now)
  {
    var n := |q| - 1;
    if i < |Plans(q[..n], now)| {
      PlansAre(q[..n], now, i);
      var j :| 0 <= j < n && IsPlanOf(Plans(q[..n], now)[i], q[..n][j], now);
      assert IsPlanOf(Plans(q, now)[i], q[j], now);
    } else {
      assert IsPlanOf(Plans(q, now)[i], q[n], now);
    }
  }

  predicate OncePerItem(todo: seq<Plan>) { forall i, j :: 0 <= i < j < |todo| ==> todo[i].id != todo[j].id }

  lemma {:induction false} PlansOnce(q: seq<WorkItem>, now: Time)
    requires forall i, j :: 0 <= i < j < |q| ==> q[i].id != q[j].id
    ensures OncePerItem(Plans(q, now))
  {
    if q != [] {
      var n := |q| - 1;
      var ps := Plans(q[..n], now);
      PlansOnce(q[..n], now);
      forall i | 0 <= i < |ps| ensures ps[i].id != q[n].id {
        PlansAre(q[..n], now, i);
        var j :| 0 <= j < n && IsPlanOf(ps[i], q[..n][j], now);
        assert q[j].id == ps[i].id;
      }
      forall i, j | 0 <= i < j < |Plans(q, now)| ensures Plans(q, now)[i].id != Plans(q, now)[j].id {
        assert Plans(q, now)[i] == ps[i];
        if j < |ps| { assert Plans(q, now)[j] == ps[j]; }
      }
    }
  }

  // --- What one step may do ----------------------------------------------------------------------------

  /** An update of item `id` to `sev` is still to be written by instance `e`. */
  ghost predicate Planned(s: State, e: nat, id: string, sev: Severity) {
    exists i :: 0 <= i < |TodoOf(s, e)| && TodoOf(s, e)[i].id == id && TodoOf(s, e)[i].severity == sev
  }

  /** The action applies the update at the head of a pass, and that is one of item `id`. */
  predicate Writes(s: State, a: Action, id: string) {
    a.WriteNext? && a.reply != Failure && TodoOf(s, a.e) != [] && TodoOf(s, a.e)[0].id == id
  }

  lemma RowStep(s: State, a: Action, id: string)
    requires id in s.items
    ensures var t := Apply(s, a);
            && id in t.items && t.items[id].id == s.items[id].id && t.items[id].createdAt == s.items[id].createdAt
            && t.items[id].severity == if Writes(s, a, id) then TodoOf(s, a.e)[0].severity else s.items[id].severity
  {
    match a {
      case SetState(_, _, _, _) =>
      case WriteNext(_, _, _) =>
      case _ =>
    }
  }

  lemma StepFiled(s: State, a: Action)
    requires Filed(s.items)
    ensures Filed(Apply(s, a).items)
  {
    var t := Apply(s, a);
    forall id | id in t.items ensures t.items[id].id == id {
      if id in s.items { RowStep(s, a, id); }
    }
  }

  /** The snapshot lists the item as due, and plans its next severity. */
  ghost predicate Decides(s: State, a: Action, id: string, sev: Severity) {
    a.Snapshot? && id in s.items && Due(s.items[id], a.at) && sev == Target(s.items[id], a.at)
  }

  lemma SnapshotDecides(s: State, a: Action, sev: Severity, id: string)
    requires a.Snapshot? && Filed(s.items) && TodoOf(s, a.e) == [] && IsListing(s.items, Active, a.listing)
    requires Planned(Apply(s, a), a.e, id, sev)
    ensures Decides(s, a, id, sev)
  {
    var ps := Plans(a.listing, a.at);
    ListingRows(s.items, a.listing);
    var i :| 0 <= i < |ps| && ps[i].id == id && ps[i].severity == sev;
    PlansAre(a.listing, a.at, i);
    var j :| 0 <= j < |a.listing| && IsPlanOf(ps[i], a.listing[j], a.at);
  }

  /** An update still to be written was so before, or has just been decided. */
  lemma PlannedStep(s: State, a: Action, e: nat, id: string, sev: Severity)
    requires Filed(s.items) && Planned(Apply(s, a), e, id, sev)
    ensures Planned(s, e, id, sev) || (Decides(s, a, id, sev) && a.e == e)
  {
    var t := Apply(s, a);
    var i :| 0 <= i < |TodoOf(t, e)| && TodoOf(t, e)[i].id == id && TodoOf(t, e)[i].severity == sev;
    if TodoOf(t, e) == TodoOf(s, e) {
    } else if a.Snapshot? {
      SnapshotDecides(s, a, sev, id);
    } else {
      var before := TodoOf(s, e);
      var j := if |TodoOf(t, e)| == |before| then i else i + 1;
      assert before[j].id == id && before[j].severity == sev;
    }
  }

  lemma DueIsWorse(w: WorkItem, now: Time)
    requires Due(w, now)
    ensures Rank(Target(w, now)) + 1 == Rank(w.severity)
  {
  }

  // --- No escalation before its time -------------------------------------------------------------------

  /** An item born with severity `b` may have severity `sev` at that age. */
  predicate Justified(b: Severity, sev: Severity, age: real) {
    || sev == b
    || (sev == P1 && b == P2 && age >= P1_AFTER)
    || (sev == P0 && age >= P0_AFTER)
  }

  ghost predicate AllJustified(s: State, now: Time) {
    && Filed(s.items) && s.born.Keys == s.items.Keys
    && (forall id :: id in s.items ==> Justified(s.born[id], s.items[id].severity, Sub(now, s.items[id].createdAt)))
    && (forall e, id, sev :: Planned(s, e, id, sev) ==>
          id in s.items && Justified(s.born[id], sev, Sub(now, s.items[id].createdAt)))
  }

  lemma JustifiedLater(b: Severity, sev: Severity, created: Time, now: Time, later: Time)
    requires Justified(b, sev, Sub(now, created)) && now <= later
    ensures Justified(b, sev, Sub(later, created))
  {
  }

  lemma TargetJustified(b: Severity, w: WorkItem, now: Time)
    requires Justified(b, w.severity, Sub(now, w.createdAt)) && Due(w, now)
    ensures Justified(b, Target(w, now), Sub(now, w.createdAt))
  {
  }

  lemma RowsStayJustified(s: State, a: Action, now: Time, id: string)
    requires AllJustified(s, now) && now <= a.at && id in Apply(s, a).items
    ensures var t := Apply(s, a);
            id in t.born && Justified(t.born[id], t.items[id].severity, Sub(a.at, t.items[id].createdAt))
  {
    if id in s.items {
      RowStep(s, a, id);
      if Writes(s, a, id) { assert Planned(s, a.e, id, TodoOf(s, a.e)[0].severity); }
      JustifiedLater(s.born[id], Apply(s, a).items[id].severity, s.items[id].createdAt, now, a.at);
    }
  }

  lemma PlansStayJustified(s: State, a: Action, now: Time, e: nat, id: string, sev: Severity)
    requires AllJustified(s, now) && now <= a.at && Planned(Apply(s, a), e, id, sev)
    ensures var t := Apply(s, a);
            id in t.items && id in t.born && Justified(t.born[id], sev, Sub(a.at, t.items[id].createdAt))
  {
    PlannedStep(s, a, e, id, sev);
    RowStep(s, a, id);
    if Planned(s, e, id, sev) {
      JustifiedLater(s.born[id], sev, s.items[id].createdAt, now, a.at);
    } else {
      JustifiedLater(s.born[id], s.items[id].severity, s.items[id].createdAt, now, a.at);
      TargetJustified(s.born[id], s.items[id], a.at);
    }
  }

  lemma StepJustified(s: State, a: Action, now: Time)
    requires AllJustified(s, now) && now <= a.at
    ensures AllJustified(Apply(s, a), a.at)
  {
    var t := Apply(s, a);
    StepFiled(s, a);
    forall id | id in t.items ensures Justified(t.born[id], t.items[id].severity, Sub(a.at, t.items[id].createdAt)) {
      RowsStayJustified(s, a, now, id);
    }
    forall e, id, sev | Planned(t, e, id, sev)
      ensures id in t.items && Justified(t.born[id], sev, Sub(a.at, t.items[id].createdAt))
    {
      PlansStayJustified(s, a, now, e, id, sev);
    }
  }

  predicate InOrder(acts: seq<Action>) {
    && (forall i :: 0 <= i < |acts| ==> 0.0 <= acts[i].at)
    && (forall i, j :: 0 <= i < j < |acts| ==> acts[i].at <= acts[j].at)
  }

  function Now(acts: seq<Action>): Time { if acts == [] then 0.0 else acts[|acts| - 1].at }

  lemma {:induction false} RunsJustified(acts: seq<Action>)
    requires InOrder(acts)
    ensures AllJustified(Run(acts), Now(acts))
  {
    if acts != [] {
      var pre := acts[..|acts| - 1];
      assert InOrder(pre) && Now(pre) <= acts[|acts| - 1].at;
      RunsJustified(pre);
      StepJustified(Run(pre), acts[|acts| - 1], Now(pre));
    }
  }

  /** However many escalators interleave, and however their writes fail, repeat or come late: no item
      is ever less severe than it was created, nor raised to P1 before 30 minutes of age or to P0
      before 60. */
  lemma NeverEarlyNorBelowBirth(acts: seq<Action>, id: string)
    requires InOrder(acts) && id in Run(acts).items
    ensures var w := Run(acts).items[id];
            && id in Run(acts).born && Rank(w.severity) <= Rank(Run(acts).born[id])
            && (w.severity != Run(acts).born[id] ==>
                  Now(acts) - w.createdAt >= if w.severity == P0 then 3600.0 else 1800.0)
  {
    RunsJustified(acts);
  }

  // --- When a severity cannot fall ---------------------------------------------------------------------

  /** An update to a lower severity than the item has now is still to be written. */
  ghost predicate Threatened(s: State, id: string)
    requires id in s.items
  {
    exists e, sev :: Planned(s, e, id, sev) && Rank(sev) > Rank(s.items[id].severity)
  }

  ghost predicate NeverBelow(s: State, id: string)
    requires id in s.items
  {
    forall more: seq<Action> ::
      id in RunFrom(s, more).items && Rank(RunFrom(s, more).items[id].severity) <= Rank(s.items[id].severity)
  }

  ghost predicate Within(s: State, id: string, worst: nat) {
    && Filed(s.items) && id in s.items && Rank(s.items[id].severity) <= worst
    && (forall e, sev :: Planned(s, e, id, sev) ==> Rank(sev) <= worst)
  }

  lemma StepWithin(s: State, a: Action, id: string, worst: nat)
    requires Within(s, id, worst)
    ensures Within(Apply(s, a), id, worst)
  {
    StepFiled(s, a);
    RowStep(s, a, id);
    if Writes(s, a, id) { assert Planned(s, a.e, id, TodoOf(s, a.e)[0].severity); }
    forall e, sev | Planned(Apply(s, a), e, id, sev) ensures Rank(sev) <= worst {
      PlannedStep(s, a, e, id, sev);
      if Decides(s, a, id, sev) { DueIsWorse(s.items[id], a.at); }
    }
  }

  lemma {:induction false} RunWithin(s: State, more: seq<Action>, id: string, worst: nat)
    requires Within(s, id, worst)
    ensures Within(RunFrom(s, more), id, worst)
  {
    if more != [] {
      RunWithin(s, more[..|more| - 1], id, worst);
      StepWithin(RunFrom(s, more[..|more| - 1]), more[|more| - 1], id, worst);
    }
  }

  lemma RunAppend(s: State, more: seq<Action>, a: Action)
    ensures RunFrom(s, more + [a]) == Apply(RunFrom(s, more), a)
  {
    assert (more + [a])[..|more|] == more;
  }

  /** Giving up on what comes first, an instance gets to the update at `i`. */
  lemma {:induction false} SkipTo(s: State, e: nat, i: nat) returns (more: seq<Action>)
    requires i < |TodoOf(s, e)|
    ensures var t := RunFrom(s, more); t.items == s.items && TodoOf(t, e) == TodoOf(s, e)[i..]
  {
    more := [];
    var n := 0;
    while n < i
      invariant n <= i && RunFrom(s, more).items == s.items && TodoOf(RunFrom(s, more), e) == TodoOf(s, e)[n..]
    {
      RunAppend(s, more, GiveUp(0.0, e));
      more := more + [GiveUp(0.0, e)];
      n := n + 1;
    }
  }

  lemma ThreatFalls(s: State, id: string)
    requires id in s.items && Threatened(s, id)
    ensures !NeverBelow(s, id)
  {
    var e, sev :| Planned(s, e, id, sev) && Rank(sev) > Rank(s.items[id].severity);
    var i :| 0 <= i < |TodoOf(s, e)| && TodoOf(s, e)[i].id == id && TodoOf(s, e)[i].severity == sev;
    var more := SkipTo(s, e, i);
    RunAppend(s, more, WriteNext(0.0, e, Ack));
    RowStep(RunFrom(s, more), WriteNext(0.0, e, Ack), id);
  }

  /** An item never becomes less severe than it is now, whatever happens next, exactly when no
      instance still has a lower severity to write to it. */
  lemma NeverBelowIff(acts: seq<Action>, id: string)
    requires id in Run(acts).items
    ensures NeverBelow(Run(acts), id) <==> !Threatened(Run(acts), id)
  {
    var s := Run(acts);
    RunsFiled(acts);
    if Threatened(s, id) {
      ThreatFalls(s, id);
    } else {
      forall more: seq<Action>
        ensures id in RunFrom(s, more).items && Rank(RunFrom(s, more).items[id].severity) <= Rank(s.items[id].severity)
      {
        RunWithin(s, more, id, Rank(s.items[id].severity));
      }
    }
  }

  lemma {:induction false} RunsFiled(acts: seq<Action>)
    ensures Filed(Run(acts).items)
  {
    if acts != [] {
      RunsFiled(acts[..|acts| - 1]);
      StepFiled(Run(acts[..|acts| - 1]), acts[|acts| - 1]);
    }
  }

  // --- One instance never lowers a severity --------------------------------------------------------------

  predicate Lone(acts: seq<Action>, e: nat) { forall i :: 0 <= i < |acts| && acts[i].Snapshot? ==> acts[i].e == e }

  ghost predicate Orderly(s: State, e: nat) {
    && Filed(s.items) && OncePerItem(TodoOf(s, e)) && (forall f :: f != e ==> TodoOf(s, f) == [])
    && (forall id, sev :: Planned(s, e, id, sev) ==> id in s.items && Rank(sev) <= Rank(s.items[id].severity))
  }

  lemma RestOnce(todo: seq<Plan>, reply: Reply)
    requires todo != [] && OncePerItem(todo)
    ensures OncePerItem(todo[1..]) && OncePerItem(Retried(todo, reply))
  {
    var next := Retried(todo, reply);
    if |next| == |todo| {
      assert forall i :: 0 <= i < |todo| ==> next[i].id == todo[i].id;
    }
  }

  lemma TodoStaysOnce(s: State, a: Action, e: nat)
    requires Filed(s.items) && OncePerItem(TodoOf(s, e))
    ensures OncePerItem(TodoOf(Apply(s, a), e))
  {
    if a.Snapshot? && IsListing(s.items, Active, a.listing) {
      ListingRows(s.items, a.listing);
      PlansOnce(a.listing, a.at);
    } else if TodoOf(s, e) != [] {
      RestOnce(TodoOf(s, e), if a.WriteNext? then a.reply else Ack);
    }
  }

  lemma StepOrderly(s: State, a: Action, e: nat)
    requires Orderly(s, e) && (a.Snapshot? ==> a.e == e)
    ensures Orderly(Apply(s, a), e)
  {
    var t := Apply(s, a);
    StepFiled(s, a);
    TodoStaysOnce(s, a, e);
    forall f | f != e ensures TodoOf(t, f) == [] { assert TodoOf(s, f) == []; }
    forall id, sev | Planned(t, e, id, sev) ensures id in t.items && Rank(sev) <= Rank(t.items[id].severity) {
      PlannedStep(s, a, e, id, sev);
      RowStep(s, a, id);
      if Decides(s, a, id, sev) { DueIsWorse(s.items[id], a.at); }
    }
  }

  lemma {:induction false} LoneRunsOrderly(acts: seq<Action>, e: nat)
    requires Lone(acts, e)
    ensures Orderly(Run(acts), e)
  {
    if acts != [] {
      var pre := acts[..|acts| - 1];
      LoneRunsOrderly(pre, e);
      StepOrderly(Run(pre), acts[|acts| - 1], e);
    }
  }

  /** With a single instance severity never falls, though its writes come after its snapshot, among
      other writers, and may fail, be retried or be given up. */
  lemma {:induction false} OneInstanceNeverFalls(acts: seq<Action>, e: nat, n: nat, id: string)
    requires Lone(acts, e) && n <= |acts| && id in Run(acts[..n]).items
    ensures id in Run(acts).items && Rank(Run(acts).items[id].severity) <= Rank(Run(acts[..n]).items[id].severity)
    decreases |acts|
  {
    if n == |acts| {
      assert acts[..n] == acts;
    } else {
      var pre, a := acts[..|acts| - 1], acts[|acts| - 1];
      assert pre[..n] == acts[..n];
      OneInstanceNeverFalls(pre, e, n, id);
      LoneRunsOrderly(pre, e);
      RowStep(Run(pre), a, id);
      if Writes(Run(pre), a, id) { assert Planned(Run(pre), a.e, id, TodoOf(Run(pre), a.e)[0].severity); }
    }
  }

  // --- Two instances may ---------------------------------------------------------------------------------

  lemma OneRow(w: WorkItem)
    requires IsActive(w)
    ensures IsListing(map[w.id := w], Active, [w])
  {
    var items := map[w.id := w];
    assert w.id in items && Selected(Active, items[w.id]);
    assert Rows(items, Active) == {w};
  }

  lemma Then(acts: seq<Action>, a: Action) returns (more: seq<Action>)
    ensures Run(more) == Apply(Run(acts), a)
  {
    RunAppend(INITIAL, acts, a);
    more := acts + [a];
  }

  /** One item, listed by a pass of instance `e`. */
  lemma Snapped(acts: seq<Action>, at: Time, e: nat, w: WorkItem) returns (more: seq<Action>)
    requires Run(acts).items == map[w.id := w] && Due(w, at) && TodoOf(Run(acts), e) == []
    ensures Run(more) == Run(acts).(todo := Run(acts).todo[e := [Plan(w.id, Target(w, at), 1)]])
  {
    OneRow(w);
    more := Then(acts, Snapshot(at, e, [w]));
    assert Plans([w], at) == [Plan(w.id, Target(w, at), 1)] by { assert [w][..0] == [] && Plans([], at) == []; }
  }

  lemma WrittenOnce(acts: seq<Action>, at: Time, e: nat, w: WorkItem, sev: Severity) returns (more: seq<Action>)
    requires Run(acts).items == map[w.id := w] && TodoOf(Run(acts), e) == [Plan(w.id, sev, 1)]
    ensures Run(more) == Run(acts).(items := map[w.id := WithSeverity(w, sev, at)], todo := Run(acts).todo[e := []])
  {
    more := Then(acts, WriteNext(at, e, Ack));
  }

  /** Both instances decide to raise an item to P1; one does, and an hour on raises it to P0, while
      the other's write is still to come. */
  lemma SeverityMayFall() returns (acts: seq<Action>)
    ensures "a" in Run(acts).items && Run(acts).items["a"].severity == P0 && Threatened(Run(acts), "a")
  {
    var w := NewWorkItem("a", "c", P2, 0.0);
    acts := Then([], CreateItem(0.0, w));
    assert Run(acts) == State(map["a" := w], map[], map["a" := P2]);
    acts := Then(acts, SetState(1.0, "a", Investigating, None));
    var w1 := WithState(w, Investigating, None, 1.0);
    assert Run(acts) == State(map["a" := w1], map[], map["a" := P2]);
    acts := Snapped(acts, P1_AFTER, 1, w1);
    acts := Snapped(acts, P1_AFTER, 0, w1);
    acts := WrittenOnce(acts, P1_AFTER, 0, w1, P1);
    var w2 := WithSeverity(w1, P1, P1_AFTER);
    acts := Snapped(acts, P0_AFTER, 0, w2);
    acts := WrittenOnce(acts, P0_AFTER, 0, w2, P0);
    assert TodoOf(Run(acts), 1)[0] == Plan("a", P1, 1);
    assert Planned(Run(acts), 1, "a", P1);
  }
}
