/** The two-layer debouncer: an in-process map in front of Redis windows of 15 seconds. */
module Debounce {
  import opened Models
  import opened Retries
  import opened Stores
  import opened Redis

  // --- Resolve as one step -----------------------------------------------------------------------

  datatype Outcome = Linked(workItemID: string, isNew: bool) | CreateFailed

  /** How the stores answer one call: the window lookup, the attempts of the insert, the dashboard
      invalidation that follows it, and the window's registration. */
  datatype Weather = Weather(getUp: bool, create: seq<Attempt>, invalidate: Reply, register: Reply)

  type Local = map<string, string>
  type Windows = map<string, Entry<string>>

  /** Whether the call gets past both layers. */
  predicate Misses(local: Local, windows: Windows, c: string, now: Time, f: Weather) {
    c !in local && WindowOf(windows, c, now, f.getUp) == ""
  }

  function OutcomeOf(local: Local, windows: Windows, items: Items, wi: WorkItem, now: Time, f: Weather): Outcome {
    var c := wi.componentID;
    if c in local then Linked(local[c], false)
    else if !Misses(local, windows, c, now, f) then Linked(WindowOf(windows, c, now, f.getUp), false)
    else if InsertOutcome(wi.id in items, f.create).ok then Linked(wi.id, true)
    else CreateFailed
  }

  function LocalAfter(local: Local, windows: Windows, items: Items, wi: WorkItem, now: Time, f: Weather): Local {
    var r := OutcomeOf(local, windows, items, wi, now, f);
    if r.Linked? then local[wi.componentID := r.workItemID] else local
  }

  function WindowsAfter(local: Local, windows: Windows, items: Items, wi: WorkItem, now: Time, f: Weather): Windows {
    var r := OutcomeOf(local, windows, items, wi, now, f);
    if r.Linked? && r.isNew && f.register != Failure
    then windows[wi.componentID := Entry(wi.id, Some(now + DEBOUNCE_TTL))] else windows
  }

  /** The call inserts a row, reported or not. */
  predicate Inserts(local: Local, windows: Windows, items: Items, wi: WorkItem, now: Time, f: Weather) {
    Misses(local, windows, wi.componentID, now, f) && InsertOutcome(wi.id in items, f.create).stored
  }

  class Debouncer {
    var local: Local
    const redis: RedisStore

    constructor (rd: RedisStore)
      ensures local == map[] && redis == rd
    {
      local, redis := map[], rd;
    }

    /** `wi` is the work item that a new window would create; it is inserted through `pg`. */
    method Resolve(wi: WorkItem, pg: PostgresStore, now: Time, f: Weather) returns (r: Outcome)
      requires IsScript(f.create)
      modifies this, redis`debounce, redis`dashboard, pg`workItems
      ensures r == OutcomeOf(old(local), old(redis.debounce), old(pg.workItems), wi, now, f)
      ensures local == LocalAfter(old(local), old(redis.debounce), old(pg.workItems), wi, now, f)
      ensures redis.debounce == WindowsAfter(old(local), old(redis.debounce), old(pg.workItems), wi, now, f)
      ensures pg.workItems == if Inserts(old(local), old(redis.debounce), old(pg.workItems), wi, now, f)
                              then old(pg.workItems)[wi.id := wi] else old(pg.workItems)
      ensures redis.dashboard == if r.Linked? && r.isNew && f.invalidate != Failure then None
                                 else old(redis.dashboard)
    {
      var componentID := wi.componentID;
      if componentID in local {
        assert local == local[componentID := local[componentID]];
        return Linked(local[componentID], false);
      }
      var existingID := redis.GetDebounceEntry(componentID, now, f.getUp);
      if existingID != "" {
        local := local[componentID := existingID];
        return Linked(existingID, false);
      }
      var ok := pg.CreateWorkItem(wi, f.create);
      if !ok {
        return CreateFailed;
      }
      var _ := redis.InvalidateDashboard(f.invalidate);
      var _ := redis.SetDebounceEntry(componentID, wi.id, now, f.register);
      local := local[componentID := wi.id];
      return Linked(wi.id, true);
    }

    method Expire(componentID: string)
      modifies this
      ensures local == old(local) - {componentID}
    {
      local := local - {componentID};
    }
  }

  // --- Any number of instances over one Redis and one table ------------------------------------------

  datatype World = World(locals: map<nat, Local>, windows: Windows, items: Items)

  datatype Action =
    | Resolve(instance: nat, wi: WorkItem, at: Time, f: Weather)
    | Restart(instance: nat, at: Time)
    | Expire(instance: nat, componentID: string, at: Time)

  function LocalOf(w: World, i: nat): Local { if i in w.locals then w.locals[i] else map[] }

  function Apply(w: World, a: Action): World {
    match a
    case Resolve(i, wi, at, f) =>
      var l := LocalOf(w, i);
      World(w.locals[i := LocalAfter(l, w.windows, w.items, wi, at, f)],
            WindowsAfter(l, w.windows, w.items, wi, at, f),
            if Inserts(l, w.windows, w.items, wi, at, f) then w.items[wi.id := wi] else w.items)
    case Restart(i, _) => w.(locals := w.locals[i := map[]])
    case Expire(i, c, _) => w.(locals := w.locals[i := LocalOf(w, i) - {c}])
  }

  function Run(acts: seq<Action>): World {
    if acts == [] then World(map[], map[], map[]) else Apply(Run(acts[..|acts| - 1]), acts[|acts| - 1])
  }

  predicate InOrder(acts: seq<Action>) { forall i, j :: 0 <= i < j < |acts| ==> acts[i].at <= acts[j].at }

  /** One work item inserted for a component: when, whether its caller's lookup had failed, and
      whether its window was registered with every acknowledgement received. */
  datatype Creation = Creation(at: Time, getFailed: bool, registered: bool)

  predicate Creates(w: World, a: Action, c: string) {
    a.Resolve? && a.wi.componentID == c && Inserts(LocalOf(w, a.instance), w.windows, w.items, a.wi, a.at, a.f)
  }

  function CreationOf(w: World, a: Action): Creation
    requires a.Resolve?
  {
    Creation(a.at, !a.f.getUp, InsertOutcome(a.wi.id in w.items, a.f.create).ok && a.f.register == Ack)
  }

  /** The work items a run inserted for one component, in order. */
  function Creations(acts: seq<Action>, c: string): seq<Creation> {
    if acts == [] then [] else
      var before, a := acts[..|acts| - 1], acts[|acts| - 1];
      if Creates(Run(before), a, c) then Creations(before, c) + [CreationOf(Run(before), a)]
      else Creations(before, c)
  }

  predicate Identified(acts: seq<Action>) { forall i :: 0 <= i < |acts| && acts[i].Resolve? ==> acts[i].wi.id != "" }

  /** Only the item that a call inserts takes its component's window over. */
  lemma WindowKept(w: World, a: Action, c: string)
    requires a.Resolve? ==> a.wi.id != ""
    ensures var u := Apply(w, a).windows;
            if Creates(w, a, c)
            then CreationOf(w, a).registered ==> c in u && u[c] == Entry(a.wi.id, Some(a.at + DEBOUNCE_TTL))
            else c in w.windows ==> c in u && u[c] == w.windows[c]
  {
    if a.Resolve? { InsertOnce(a.wi.id in w.items, a.f.create); }
  }

  /** A registered window is there for its 15 seconds. */
  lemma {:induction false} WindowHolds(acts: seq<Action>, c: string)
    requires Identified(acts)
    ensures var cs, w := Creations(acts, c), Run(acts).windows;
            cs != [] && cs[|cs| - 1].registered ==>
              c in w && w[c].value != "" && w[c].expiresAt == Some(cs[|cs| - 1].at + DEBOUNCE_TTL)
  {
    if acts != [] {
      var before, a := acts[..|acts| - 1], acts[|acts| - 1];
      WindowHolds(before, c);
      WindowKept(Run(before), a, c);
    }
  }

  /** Two work items of one component in a row: the first one's window was not registered, or the
      second one's lookup failed, or they are 15 seconds apart. */
  lemma {:induction false} NeighboursApart(acts: seq<Action>, c: string, m: nat)
    requires InOrder(acts) && Identified(acts) && m + 1 < |Creations(acts, c)|
    ensures var cs := Creations(acts, c);
            cs[m].registered && !cs[m + 1].getFailed ==> cs[m].at + 15.0 <= cs[m + 1].at
  {
    var before := acts[..|acts| - 1];
    assert InOrder(before) && Identified(before);
    var cs := Creations(acts, c);
    if m + 1 < |Creations(before, c)| {
      NeighboursApart(before, c, m);
    } else {
      WindowHolds(before, c);
      assert cs[..m + 1] == Creations(before, c);
    }
  }

  function Faults(cs: seq<Creation>): nat {
    if cs == [] then 0
    else Faults(cs[..|cs| - 1])
         + (if cs[|cs| - 1].getFailed then 1 else 0) + (if cs[|cs| - 1].registered then 0 else 1)
  }

  predicate Increasing(cs: seq<Creation>) { forall i, j :: 0 <= i < j < |cs| ==> cs[i].at <= cs[j].at }

  lemma {:induction false} CreationsInOrder(acts: seq<Action>, c: string)
    requires InOrder(acts)
    ensures Increasing(Creations(acts, c))
    ensures forall i :: 0 <= i < |Creations(acts, c)| ==> acts != [] && Creations(acts, c)[i].at <= acts[|acts| - 1].at
  {
    if acts != [] {
      var before := acts[..|acts| - 1];
      assert InOrder(before) && (before != [] ==> before[|before| - 1].at <= acts[|acts| - 1].at);
      CreationsInOrder(before, c);
    }
  }

  /** A run of creations closer than 15 seconds: each one after the first is paid for by a fault. */
  lemma {:induction false} Charged(cs: seq<Creation>)
    requires cs != [] && Increasing(cs) && cs[|cs| - 1].at < cs[0].at + DEBOUNCE_TTL
    requires forall m :: 0 <= m < |cs| - 1 ==>
      (cs[m].registered && !cs[m + 1].getFailed ==> cs[m].at + DEBOUNCE_TTL <= cs[m + 1].at)
    ensures |cs| <= 1 + Faults(cs) - if cs[|cs| - 1].registered then 0 else 1
  {
    var n := |cs| - 1;
    var ds := cs[..n];
    if n > 0 {
      assert forall m :: 0 <= m < |ds| ==> ds[m] == cs[m];
      Charged(ds);
      assert !(cs[n - 1].registered && !cs[n - 1 + 1].getFailed);
    }
  }

  /** Across any number of instances, restarts and expiries: the work items inserted for one
      component within less than 15 seconds number at most one, plus the failed lookups and failed
      registrations among their own calls. */
  lemma WindowBound(acts: seq<Action>, c: string, i: nat, j: nat)
    requires InOrder(acts) && Identified(acts) && i < j <= |Creations(acts, c)|
    requires Creations(acts, c)[j - 1].at < Creations(acts, c)[i].at + 15.0
    ensures j - i <= 1 + Faults(Creations(acts, c)[i..j])
  {
    var cs := Creations(acts, c);
    var ds := cs[i..j];
    CreationsInOrder(acts, c);
    forall m | 0 <= m < |ds| - 1
      ensures ds[m].registered && !ds[m + 1].getFailed ==> ds[m].at + DEBOUNCE_TTL <= ds[m + 1].at
    {
      NeighboursApart(acts, c, i + m);
      assert ds[m] == cs[i + m] && ds[m + 1] == cs[i + m + 1];
    }
    Charged(ds);
  }

  /** With no failures, work items of one component are at least 15 seconds apart. */
  lemma FaultFreeApart(acts: seq<Action>, c: string, i: nat, j: nat)
    requires InOrder(acts) && Identified(acts) && i < j < |Creations(acts, c)|
    requires forall m :: 0 <= m < |Creations(acts, c)| ==>
      Creations(acts, c)[m].registered && !Creations(acts, c)[m].getFailed
    ensures Creations(acts, c)[i].at + 15.0 <= Creations(acts, c)[j].at
  {
    NeighboursApart(acts, c, i);
    CreationsInOrder(acts, c);
  }

  // --- When a window answers, and when it has ended --------------------------------------------------

  /** What the call of action `n` returned. */
  function OutcomeAt(acts: seq<Action>, n: nat): Outcome
    requires n < |acts| && acts[n].Resolve?
  {
    var w, a := Run(acts[..n]), acts[n];
    OutcomeOf(LocalOf(w, a.instance), w.windows, w.items, a.wi, a.at, a.f)
  }

  lemma RunTo(acts: seq<Action>, m: nat)
    requires 0 < m <= |acts|
    ensures Run(acts[..m]) == Apply(Run(acts[..m - 1]), acts[m - 1])
  {
    assert acts[..m][..m - 1] == acts[..m - 1];
  }

  /** Action `m` is a call that adds the row of a new work item of the component. */
  predicate InsertsRow(acts: seq<Action>, m: nat, c: string)
    requires m < |acts|
  {
    && acts[m].Resolve? && acts[m].wi.componentID == c
    && acts[m].wi.id !in Run(acts[..m]).items && acts[m].wi.id in Run(acts[..m + 1]).items
  }

  predicate WindowFrom(acts: seq<Action>, m: nat, n: nat, c: string)
    requires m < n <= |acts|
  {
    && InsertsRow(acts, m, c) && c in Run(acts[..n]).windows
    && Run(acts[..n]).windows[c] == Entry(acts[m].wi.id, Some(acts[m].at + 15.0))
  }

  /** A window changes only when a row is inserted, and then names it. */
  lemma WindowChange(acts: seq<Action>, n: nat, c: string)
    requires n < |acts|
    ensures var w, u := Run(acts[..n]).windows, Run(acts[..n + 1]).windows;
            ((c in u <==> c in w) && (c in w ==> u[c] == w[c])) || WindowFrom(acts, n, n + 1, c)
  {
    RunTo(acts, n + 1);
    if acts[n].Resolve? { InsertOnce(acts[n].wi.id in Run(acts[..n]).items, acts[n].f.create); }
  }

  /** Every window is that of an inserted row, and ends 15 seconds after the insertion. */
  lemma {:induction false} WindowHasOrigin(acts: seq<Action>, n: nat, c: string) returns (m: nat)
    requires n <= |acts| && c in Run(acts[..n]).windows
    ensures m < n && WindowFrom(acts, m, n, c)
    decreases n
  {
    m := n - 1;
    WindowChange(acts, n - 1, c);
    if !WindowFrom(acts, n - 1, n, c) { m := WindowHasOrigin(acts, n - 1, c); }
  }

  /** The call of action `n` finds its component neither in its process's map nor, the lookup being
      answered, in a window opened less than 15 seconds ago. */
  predicate NothingActive(acts: seq<Action>, n: nat)
    requires n < |acts| && acts[n].Resolve?
  {
    var a := acts[n];
    && a.wi.componentID !in LocalOf(Run(acts[..n]), a.instance)
    && (a.f.getUp ==> forall m :: 0 <= m < n && InsertsRow(acts, m, a.wi.componentID) ==> acts[m].at + 15.0 <= a.at)
  }

  /** Then it opens a new work item, under a fresh id, unless no attempt of its insert is applied; and
      it is linked to it if the insert's first answer is an acknowledgement. */
  lemma EndedWindowCreates(acts: seq<Action>, n: nat)
    requires n < |acts| && acts[n].Resolve? && NothingActive(acts, n) && acts[n].wi.id !in Run(acts[..n]).items
    ensures OutcomeAt(acts, n)
         == if FirstAnswerAcks(acts[n].f.create) then Linked(acts[n].wi.id, true) else CreateFailed
    ensures Run(acts[..n + 1]).items
         == if AllFailed(acts[n].f.create) then Run(acts[..n]).items
            else Run(acts[..n]).items[acts[n].wi.id := acts[n].wi]
  {
    var w, a := Run(acts[..n]), acts[n];
    var c := a.wi.componentID;
    if c in w.windows && a.f.getUp {
      var m := WindowHasOrigin(acts, n, c);
    }
    InsertedIff(false, a.f.create);
    StoredIff(false, a.f.create);
    RunTo(acts, n + 1);
  }

  /** Action `m` opened a work item and registered its window. */
  predicate Opens(acts: seq<Action>, m: nat, c: string)
    requires m < |acts|
  {
    InsertsRow(acts, m, c) && OutcomeAt(acts, m) == Linked(acts[m].wi.id, true) && acts[m].f.register != Failure
  }

  lemma {:induction false} WindowStays(acts: seq<Action>, m: nat, n: nat, c: string)
    requires m < n <= |acts| && Opens(acts, m, c) && forall k :: m < k < n ==> !InsertsRow(acts, k, c)
    ensures WindowFrom(acts, m, n, c)
    decreases n
  {
    if n == m + 1 {
      RunTo(acts, m + 1);
    } else {
      WindowStays(acts, m, n - 1, c);
      WindowChange(acts, n - 1, c);
    }
  }

  /** Within 15 seconds of a registered opening, and with no other since, a call of any process that
      does not know the component and whose lookup is answered is linked to that work item, and
      inserts nothing. */
  lemma LiveWindowLinks(acts: seq<Action>, m: nat, n: nat)
    requires m < n < |acts| && acts[n].Resolve? && acts[n].f.getUp
    requires Opens(acts, m, acts[n].wi.componentID) && acts[m].wi.id != ""
    requires forall k :: m < k < n ==> !InsertsRow(acts, k, acts[n].wi.componentID)
    requires acts[n].wi.componentID !in LocalOf(Run(acts[..n]), acts[n].instance)
    requires acts[n].at < acts[m].at + 15.0
    ensures OutcomeAt(acts, n) == Linked(acts[m].wi.id, false)
    ensures Run(acts[..n + 1]).items == Run(acts[..n]).items
  {
    WindowStays(acts, m, n, acts[n].wi.componentID);
    RunTo(acts, n + 1);
  }

  // --- One process --------------------------------------------------------------------------------------

  /** The action does not take component `c` out of instance `i`'s local map. */
  predicate Leaves(a: Action, i: nat, c: string) {
    match a
    case Restart(j, _) => j != i
    case Expire(j, d, _) => j != i || d != c
    case _ => true
  }

  lemma EntryStays(w: World, a: Action, i: nat, c: string)
    requires c in LocalOf(w, i) && Leaves(a, i, c)
    ensures c in LocalOf(Apply(w, a), i) && LocalOf(Apply(w, a), i)[c] == LocalOf(w, i)[c]
  {
  }

  lemma {:induction false} EntryStaysBetween(acts: seq<Action>, n: nat, m: nat, i: nat, c: string)
    requires n <= m <= |acts| && c in LocalOf(Run(acts[..n]), i)
    requires forall k :: n <= k < m ==> Leaves(acts[k], i, c)
    ensures c in LocalOf(Run(acts[..m]), i) && LocalOf(Run(acts[..m]), i)[c] == LocalOf(Run(acts[..n]), i)[c]
    decreases m
  {
    if n < m {
      var w := Run(acts[..m - 1]);
      EntryStaysBetween(acts, n, m - 1, i, c);
      EntryStays(w, acts[m - 1], i, c);
      RunTo(acts, m);
    }
  }

  /** In one process, and until it restarts or the component is expired there, the item a signal of
      the component was linked to is the one every later signal is linked to, however much later and
      whatever Redis answers: the window has no end. */
  lemma OneItemPerProcess(acts: seq<Action>, n: nat, m: nat)
    requires n < m < |acts| && acts[n].Resolve? && acts[m].Resolve?
    requires acts[m].instance == acts[n].instance && acts[m].wi.componentID == acts[n].wi.componentID
    requires forall k :: n < k < m ==> Leaves(acts[k], acts[n].instance, acts[n].wi.componentID)
    requires OutcomeAt(acts, n).Linked?
    ensures OutcomeAt(acts, m) == Linked(OutcomeAt(acts, n).workItemID, false)
    ensures Run(acts[..m + 1]).items == Run(acts[..m]).items
  {
    var i, c := acts[n].instance, acts[n].wi.componentID;
    RunTo(acts, n + 1);
    assert c in LocalOf(Run(acts[..n + 1]), i);
    EntryStaysBetween(acts, n + 1, m, i, c);
    RunTo(acts, m + 1);
  }
}
