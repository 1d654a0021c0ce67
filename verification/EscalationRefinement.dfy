/** A pass of one escalator, write by write and with nothing in between, is the whole pass. */
module EscalationRefinement {
  import opened Models
  import opened Retries
  import opened Stores
  import opened Listings
  import opened Escalation
  import opened Races = EscalationRaces

  /** The attempts of the update at the head of a pass, and its end. */
  function UpdateSteps(e: nat, script: seq<Attempt>, attempt: nat): seq<Races.Action>
    decreases script
  {
    if script == [] then [GiveUp(0.0, e)]
    else [WriteNext(script[0].at, e, script[0].reply)]
         + if script[0].reply == Ack || attempt >= MAX_ATTEMPTS then [] else UpdateSteps(e, script[1..], attempt + 1)
  }

  function TodoSteps(e: nat, todo: seq<Plan>, f: Scripts): seq<Races.Action> {
    if todo == [] then [] else UpdateSteps(e, f(todo[0].id), todo[0].attempt) + TodoSteps(e, todo[1..], f)
  }

  function PassSteps(e: nat, q: seq<WorkItem>, now: Time, f: Scripts): seq<Races.Action> {
    [Snapshot(now, e, q)] + TodoSteps(e, Plans(q, now), f)
  }

  lemma {:induction false} RunConcat(s: Races.State, a: seq<Races.Action>, b: seq<Races.Action>)
    ensures RunFrom(s, a + b) == RunFrom(RunFrom(s, a), b)
  {
    if b == [] {
      assert a + b == a;
    } else {
      RunConcat(s, a, b[..|b| - 1]);
      assert (a + b)[..|a + b| - 1] == a + b[..|b| - 1];
    }
  }

  lemma RunOne(s: Races.State, a: Races.Action)
    ensures RunFrom(s, [a]) == Races.Apply(s, a)
  {
    assert [a][..0] == [] && RunFrom(s, []) == s;
  }

  // --- One update ------------------------------------------------------------------------------------

  /** A row after an update of its severity took effect at each of the times: the last one's. */
  function Rewritten(w: WorkItem, sev: Severity, ts: seq<Time>): WorkItem {
    if ts == [] then w else WithSeverity(w, sev, ts[|ts| - 1])
  }

  function Put(s: Races.State, e: nat, items: Items, todo: seq<Plan>): Races.State {
    s.(items := items, todo := s.todo[e := todo])
  }

  lemma RewrittenAgain(w: WorkItem, sev: Severity, t: Time, ts: seq<Time>)
    ensures Rewritten(Rewritten(w, sev, [t]), sev, ts) == Rewritten(w, sev, [t] + ts)
  {
    if ts != [] { assert ([t] + ts)[|ts|] == ts[|ts| - 1]; }
  }

  /** The table after the first attempt. */
  function Attempted(items: Items, p: Plan, a: Attempt): Items
    requires p.id in items
  {
    if a.reply == Failure then items else items[p.id := WithSeverity(items[p.id], p.severity, a.at)]
  }

  predicate Ends(p: Plan, a: Attempt) { a.reply == Ack || p.attempt >= MAX_ATTEMPTS }

  lemma OneAttempt(s: Races.State, e: nat, items: Items, p: Plan, rest: seq<Plan>, a: Attempt)
    requires p.id in items
    ensures Races.Apply(Put(s, e, items, [p] + rest), WriteNext(a.at, e, a.reply))
         == Put(s, e, Attempted(items, p, a), if Ends(p, a) then rest else [p.(attempt := p.attempt + 1)] + rest)
  {
    var todo := [p] + rest;
    assert todo[0] == p && todo[1..] == rest;
    assert TodoOf(Put(s, e, items, todo), e) == todo;
  }

  /** The first attempt, and then the others unless it ends the update. */
  lemma AttemptedNext(items: Items, p: Plan, script: seq<Attempt>)
    requires p.id in items && script != [] && p.attempt + |script| <= MAX_ATTEMPTS + 1
    ensures var mid := Attempted(items, p, script[0]);
            items[p.id := Rewritten(items[p.id], p.severity, AppliedAt(script))]
              == if Ends(p, script[0]) then mid
                 else mid[p.id := Rewritten(mid[p.id], p.severity, AppliedAt(script[1..]))]
  {
    var a, w, ts := script[0], items[p.id], AppliedAt(script[1..]);
    if a.reply == LostAck { RewrittenAgain(w, p.severity, a.at, ts); }
    if Ends(p, a) && a.reply != Ack { assert script[1..] == [] && ts == []; }
  }

  lemma GivenUp(s: Races.State, e: nat, items: Items, p: Plan, rest: seq<Plan>)
    requires p.id in items
    ensures RunFrom(Put(s, e, items, [p] + rest), [GiveUp(0.0, e)]) == Put(s, e, items[p.id := items[p.id]], rest)
  {
    var start := Put(s, e, items, [p] + rest);
    RunOne(start, GiveUp(0.0, e));
    assert ([p] + rest)[1..] == rest && TodoOf(start, e) == [p] + rest;
    assert items[p.id := items[p.id]] == items;
  }

  lemma FirstAttempt(s: Races.State, e: nat, items: Items, p: Plan, rest: seq<Plan>, script: seq<Attempt>)
    requires p.id in items && script != []
    ensures var mid, more := Attempted(items, p, script[0]), [p.(attempt := p.attempt + 1)] + rest;
            RunFrom(Put(s, e, items, [p] + rest), UpdateSteps(e, script, p.attempt))
              == if Ends(p, script[0]) then Put(s, e, mid, rest)
                 else RunFrom(Put(s, e, mid, more), UpdateSteps(e, script[1..], p.attempt + 1))
  {
    var a := script[0];
    var later := if Ends(p, a) then [] else UpdateSteps(e, script[1..], p.attempt + 1);
    assert UpdateSteps(e, script, p.attempt) == [WriteNext(a.at, e, a.reply)] + later;
    RunConcat(Put(s, e, items, [p] + rest), [WriteNext(a.at, e, a.reply)], later);
    RunOne(Put(s, e, items, [p] + rest), WriteNext(a.at, e, a.reply));
    OneAttempt(s, e, items, p, rest, a);
  }

  lemma {:induction false} UpdateUndisturbed(s: Races.State, e: nat, items: Items, p: Plan, rest: seq<Plan>,
                                             script: seq<Attempt>)
    requires p.id in items && p.attempt + |script| <= MAX_ATTEMPTS + 1
    ensures RunFrom(Put(s, e, items, [p] + rest), UpdateSteps(e, script, p.attempt))
         == Put(s, e, items[p.id := Rewritten(items[p.id], p.severity, AppliedAt(script))], rest)
    decreases script
  {
    if script == [] {
      GivenUp(s, e, items, p, rest);
    } else {
      var a, tail := script[0], script[1..];
      FirstAttempt(s, e, items, p, rest, script);
      AttemptedNext(items, p, script);
      if !Ends(p, a) { UpdateUndisturbed(s, e, Attempted(items, p, a), p.(attempt := p.attempt + 1), rest, tail); }
    }
  }

  // --- The whole pass ----------------------------------------------------------------------------------

  /** The table after the updates of a pass. */
  function Carried(items: Items, todo: seq<Plan>, f: Scripts): Items
    requires forall i :: 0 <= i < |todo| ==> todo[i].id in items
    decreases todo
  {
    if todo == [] then items else
      var p := todo[0];
      Carried(items[p.id := Rewritten(items[p.id], p.severity, AppliedAt(f(p.id)))], todo[1..], f)
  }

  lemma {:induction false} TodoUndisturbed(s: Races.State, e: nat, items: Items, todo: seq<Plan>, f: Scripts)
    requires forall i :: 0 <= i < |todo| ==> todo[i].id in items && todo[i].attempt == 1
    requires forall id :: IsScript(f(id))
    ensures RunFrom(Put(s, e, items, todo), TodoSteps(e, todo, f)) == Put(s, e, Carried(items, todo, f), [])
    decreases todo
  {
    if todo != [] {
      var p, rest := todo[0], todo[1..];
      var next := items[p.id := Rewritten(items[p.id], p.severity, AppliedAt(f(p.id)))];
      assert todo == [p] + rest && IsScript(f(p.id));
      RunConcat(Put(s, e, items, todo), UpdateSteps(e, f(p.id), p.attempt), TodoSteps(e, rest, f));
      UpdateUndisturbed(s, e, items, p, rest, f(p.id));
      TodoUndisturbed(s, e, next, rest, f);
    }
  }

  lemma {:induction false} SameKeys(items: Items, todo: seq<Plan>, f: Scripts)
    requires forall i :: 0 <= i < |todo| ==> todo[i].id in items
    ensures Carried(items, todo, f).Keys == items.Keys
    decreases todo
  {
    if todo != [] {
      var p := todo[0];
      SameKeys(items[p.id := Rewritten(items[p.id], p.severity, AppliedAt(f(p.id)))], todo[1..], f);
    }
  }

  /** An item that a pass plans nothing for stays as it is; one that it does is rewritten once. */
  lemma {:induction false} CarriedAt(items: Items, todo: seq<Plan>, f: Scripts, id: string)
    requires OncePerItem(todo) && id in items && forall i :: 0 <= i < |todo| ==> todo[i].id in items
    ensures Carried(items, todo, f).Keys == items.Keys
    ensures (forall i :: 0 <= i < |todo| ==> todo[i].id != id) ==> Carried(items, todo, f)[id] == items[id]
    ensures forall i :: 0 <= i < |todo| && todo[i].id == id ==>
              Carried(items, todo, f)[id] == Rewritten(items[id], todo[i].severity, AppliedAt(f(id)))
    decreases todo
  {
    if todo != [] {
      var p, rest := todo[0], todo[1..];
      assert forall i :: 0 < i < |todo| ==> todo[i] == rest[i - 1];
      CarriedAt(items[p.id := Rewritten(items[p.id], p.severity, AppliedAt(f(p.id)))], rest, f, id);
    }
  }

  /** A listed row that is due is planned for. */
  lemma {:induction false} DueIsPlanned(q: seq<WorkItem>, now: Time, j: nat) returns (i: nat)
    requires j < |q| && Due(q[j], now)
    ensures i < |Plans(q, now)| && IsPlanOf(Plans(q, now)[i], q[j], now)
  {
    var n := |q| - 1;
    if j == n {
      i := |Plans(q[..n], now)|;
    } else {
      i := DueIsPlanned(q[..n], now, j);
    }
  }

  lemma {:induction false} FreshPlans(q: seq<WorkItem>, now: Time)
    ensures forall i :: 0 <= i < |Plans(q, now)| ==> Plans(q, now)[i].attempt == 1
  {
    if q != [] { FreshPlans(q[..|q| - 1], now); }
  }

  lemma PlansFit(items: Items, q: seq<WorkItem>, now: Time)
    requires Filed(items) && IsListing(items, Active, q)
    ensures OncePerItem(Plans(q, now))
    ensures forall i :: 0 <= i < |Plans(q, now)| ==>
              Plans(q, now)[i].id in items && IsPlanOf(Plans(q, now)[i], items[Plans(q, now)[i].id], now)
  {
    ListingRows(items, q);
    PlansOnce(q, now);
    forall i | 0 <= i < |Plans(q, now)|
      ensures Plans(q, now)[i].id in items && IsPlanOf(Plans(q, now)[i], items[Plans(q, now)[i].id], now)
    {
      PlansAre(q, now, i);
      var j :| 0 <= j < |q| && IsPlanOf(Plans(q, now)[i], q[j], now);
    }
  }

  lemma CarriedRow(items: Items, q: seq<WorkItem>, now: Time, f: Scripts, id: string)
    requires Filed(items) && IsListing(items, Active, q) && id in items
    requires forall i :: 0 <= i < |Plans(q, now)| ==> Plans(q, now)[i].id in items
    ensures id in Carried(items, Plans(q, now), f)
    ensures Carried(items, Plans(q, now), f)[id] == PassRow(items[id], now, f(id))
  {
    var ps := Plans(q, now);
    PlansFit(items, q, now);
    CarriedAt(items, ps, f, id);
    SeverityWrittenOnce(items[id], Target(items[id], now), AppliedAt(f(id)));
    if Due(items[id], now) {
      ListingRows(items, q);
      assert SeenBefore(q, |q|, id);
      var j :| 0 <= j < |q| && q[j].id == id;
      var i := DueIsPlanned(q, now, j);
    } else {
      forall i | 0 <= i < |ps| ensures ps[i].id != id { assert IsPlanOf(ps[i], items[ps[i].id], now); }
    }
  }

  lemma CarriedIsPass(items: Items, q: seq<WorkItem>, now: Time, f: Scripts)
    requires Filed(items) && IsListing(items, Active, q)
    requires forall i :: 0 <= i < |Plans(q, now)| ==> Plans(q, now)[i].id in items
    ensures Carried(items, Plans(q, now), f) == Pass(items, now, f)
  {
    var end := Carried(items, Plans(q, now), f);
    SameKeys(items, Plans(q, now), f);
    forall id | id in items ensures end[id] == PassRow(items[id], now, f(id)) { CarriedRow(items, q, now, f, id); }
  }

  lemma Snapped(s: Races.State, e: nat, q: seq<WorkItem>, now: Time, rest: seq<Races.Action>)
    requires IsListing(s.items, Active, q) && TodoOf(s, e) == []
    ensures RunFrom(s, [Snapshot(now, e, q)] + rest) == RunFrom(Put(s, e, s.items, Plans(q, now)), rest)
  {
    RunConcat(s, [Snapshot(now, e, q)], rest);
    RunOne(s, Snapshot(now, e, q));
  }

  /** One escalator's snapshot and writes, with nothing in between and however its updates are
      answered, leave the table as the whole pass does. */
  lemma PassIsUndisturbed(s: Races.State, e: nat, q: seq<WorkItem>, now: Time, f: Scripts)
    requires Filed(s.items) && IsListing(s.items, Active, q) && TodoOf(s, e) == []
    requires forall id :: IsScript(f(id))
    ensures var t := RunFrom(s, PassSteps(e, q, now, f));
            t.items == Pass(s.items, now, f) && TodoOf(t, e) == []
  {
    var ps := Plans(q, now);
    Snapped(s, e, q, now, TodoSteps(e, ps, f));
    PlansFit(s.items, q, now);
    FreshPlans(q, now);
    TodoUndisturbed(s, e, s.items, ps, f);
    CarriedIsPass(s.items, q, now, f);
  }
}
