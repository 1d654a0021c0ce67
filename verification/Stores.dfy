/** The Postgres tables and the Mongo collection, written through the retrying calls. */
module Stores {
  import opened Models
  import opened Retries

  type Items = map<string, WorkItem>
  type RCAs = map<string, RCA> // by work item: the column is UNIQUE

  /** Every row is filed under its own id. */
  ghost predicate Filed(items: Items) { forall id :: id in items ==> items[id].id == id }

  /** An UPDATE statement's effect on the row it finds, at a given time. */
  type Statement = (WorkItem, Time) -> WorkItem

  /** A row after the statement ran at each of the times. */
  function Updated(w: WorkItem, stmt: Statement, ts: seq<Time>): WorkItem
    decreases ts
  {
    if ts == [] then w else Updated(stmt(w, ts[0]), stmt, ts[1..])
  }

  /** The table after it: no row, no effect. */
  function UpdatedRow(items: Items, id: string, stmt: Statement, ts: seq<Time>): Items {
    if id in items && ts != [] then items[id := Updated(items[id], stmt, ts)] else items
  }

  lemma UpdatedOnceMore(items: Items, id: string, stmt: Statement, t: Time, ts: seq<Time>)
    requires id in items
    ensures UpdatedRow(items, id, stmt, [t] + ts) == UpdatedRow(items[id := stmt(items[id], t)], id, stmt, ts)
  {
    var v := stmt(items[id], t);
    assert ([t] + ts)[1..] == ts;
    assert Updated(items[id], stmt, [t] + ts) == Updated(v, stmt, ts);
    assert items[id := v][id := Updated(v, stmt, ts)] == items[id := Updated(v, stmt, ts)];
  }

  /** An insert into rcas is refused by the primary key, UNIQUE (work_item_id), the foreign key or
      the CHECK constraint. */
  predicate RCARefused(items: Items, rcas: RCAs, rca: RCA) {
    || rca.workItemID in rcas
    || (exists k :: k in rcas && rcas[k].id == rca.id)
    || rca.workItemID !in items
    || rca.incidentEnd <= rca.incidentStart
  }

  class PostgresStore {
    var workItems: Items
    var rcas: RCAs

    constructor ()
      ensures workItems == map[] && rcas == map[]
    {
      workItems, rcas := map[], map[];
    }

    method WithRetry(id: string, stmt: Statement, script: seq<Attempt>) returns (ok: bool)
      requires IsScript(script)
      modifies this`workItems
      ensures workItems == UpdatedRow(old(workItems), id, stmt, AppliedAt(script))
      ensures ok == Acked(script)
    {
      var attempt := 0;
      while attempt < MAX_ATTEMPTS
        invariant 0 <= attempt <= |script|
        invariant UpdatedRow(workItems, id, stmt, AppliedAt(script[attempt..]))
               == UpdatedRow(old(workItems), id, stmt, AppliedAt(script))
        invariant Acked(script[attempt..]) == Acked(script)
      {
        if attempt == |script| {
          return false; // the context is done
        }
        var reply := script[attempt].reply;
        assert script[attempt..][1..] == script[attempt + 1..];
        if reply != Failure && id in workItems {
          UpdatedOnceMore(workItems, id, stmt, script[attempt].at,
                          if reply == Ack then [] else AppliedAt(script[attempt + 1..]));
          assert [script[attempt].at] + [] == [script[attempt].at];
          workItems := workItems[id := stmt(workItems[id], script[attempt].at)];
        }
        if reply == Ack {
          return true;
        }
        attempt := attempt + 1;
      }
      return false;
    }

    method CreateWorkItem(w: WorkItem, script: seq<Attempt>) returns (ok: bool)
      requires IsScript(script)
      modifies this`workItems
      ensures var r := InsertOutcome(w.id in old(workItems), script);
              ok == r.ok && workItems == if r.stored then old(workItems)[w.id := w] else old(workItems)
    {
      var attempt := 0;
      ghost var was := workItems;
      while attempt < MAX_ATTEMPTS
        invariant 0 <= attempt <= |script|
        invariant var r, rest := InsertOutcome(w.id in was, script), InsertOutcome(w.id in workItems, script[attempt..]);
          && r.ok == rest.ok
          && (if rest.stored then workItems[w.id := w] else workItems)
             == (if r.stored then was[w.id := w] else was)
      {
        if attempt == |script| {
          return false;
        }
        var reply := script[attempt].reply;
        assert script[attempt..][1..] == script[attempt + 1..];
        if w.id !in workItems && reply != Failure {
          workItems := workItems[w.id := w];
          if reply == Ack {
            return true;
          }
        }
        attempt := attempt + 1;
      }
      return false;
    }

    method CreateRCA(rca: RCA, script: seq<Attempt>) returns (ok: bool)
      requires IsScript(script)
      modifies this`rcas
      ensures var r := InsertOutcome(RCARefused(workItems, old(rcas), rca), script);
              ok == r.ok && rcas == if r.stored then old(rcas)[rca.workItemID := rca] else old(rcas)
    {
      var attempt := 0;
      ghost var was := rcas;
      while attempt < MAX_ATTEMPTS
        invariant 0 <= attempt <= |script|
        invariant var r, rest := InsertOutcome(RCARefused(workItems, was, rca), script),
                                 InsertOutcome(RCARefused(workItems, rcas, rca), script[attempt..]);
          && r.ok == rest.ok
          && (if rest.stored then rcas[rca.workItemID := rca] else rcas)
             == (if r.stored then was[rca.workItemID := rca] else was)
      {
        if attempt == |script| {
          return false;
        }
        var reply := script[attempt].reply;
        assert script[attempt..][1..] == script[attempt + 1..];
        if !RCARefused(workItems, rcas, rca) && reply != Failure {
          rcas := rcas[rca.workItemID := rca];
          if reply == Ack {
            return true;
          }
        }
        attempt := attempt + 1;
      }
      return false;
    }

    method UpdateWorkItemState(id: string, s: WorkItemState, mttr: Option<real>, script: seq<Attempt>)
      returns (ok: bool)
      requires IsScript(script)
      modifies this`workItems
      ensures workItems == UpdatedRow(old(workItems), id, (w, t) => WithState(w, s, mttr, t), AppliedAt(script))
      ensures ok == Acked(script)
    {
      ok := WithRetry(id, (w, t) => WithState(w, s, mttr, t), script);
    }

    method UpdateWorkItemSeverity(id: string, sev: Severity, script: seq<Attempt>) returns (ok: bool)
      requires IsScript(script)
      modifies this`workItems
      ensures workItems == UpdatedRow(old(workItems), id, (w, t) => WithSeverity(w, sev, t), AppliedAt(script))
      ensures ok == Acked(script)
    {
      ok := WithRetry(id, (w, t) => WithSeverity(w, sev, t), script);
    }

    method IncrementSignalCount(id: string, script: seq<Attempt>) returns (ok: bool)
      requires IsScript(script)
      modifies this`workItems
      ensures workItems == UpdatedRow(old(workItems), id, WithOneMoreSignal, AppliedAt(script))
      ensures ok == Acked(script)
    {
      ok := WithRetry(id, WithOneMoreSignal, script);
    }
  }

  /** An increment that took effect n times counts the signal n times. */
  lemma {:induction false} CountedTimes(w: WorkItem, ts: seq<Time>)
    ensures Updated(w, WithOneMoreSignal, ts).signalCount == w.signalCount + |ts|
    ensures Updated(w, WithOneMoreSignal, ts).(signalCount := w.signalCount, updatedAt := w.updatedAt) == w
    ensures Updated(w, WithOneMoreSignal, ts).updatedAt == if ts == [] then w.updatedAt else ts[|ts| - 1]
    decreases ts
  {
    if ts != [] {
      CountedTimes(WithOneMoreSignal(w, ts[0]), ts[1..]);
    }
  }

  /** A state update that took effect any number of times is the last one. */
  lemma {:induction false} StateWrittenOnce(w: WorkItem, s: WorkItemState, mttr: Option<real>, ts: seq<Time>)
    requires ts != []
    ensures Updated(w, (v: WorkItem, t: Time) => WithState(v, s, mttr, t), ts) == WithState(w, s, mttr, ts[|ts| - 1])
    decreases ts
  {
    var stmt := (v: WorkItem, t: Time) => WithState(v, s, mttr, t);
    var v := WithState(w, s, mttr, ts[0]);
    if |ts| == 1 {
      assert Updated(v, stmt, ts[1..]) == v;
    } else {
      StateWrittenOnce(v, s, mttr, ts[1..]);
      assert Updated(w, stmt, ts) == Updated(v, stmt, ts[1..]);
    }
  }

  /** An update that took effect any number of times wrote the severity once. */
  lemma {:induction false} SeverityWrittenOnce(w: WorkItem, s: Severity, ts: seq<Time>)
    ensures var v := Updated(w, (v: WorkItem, t: Time) => WithSeverity(v, s, t), ts);
            v == if ts == [] then w else WithSeverity(w, s, ts[|ts| - 1])
    decreases ts
  {
    var stmt := (v: WorkItem, t: Time) => WithSeverity(v, s, t);
    if |ts| > 1 {
      SeverityWrittenOnce(WithSeverity(w, s, ts[0]), s, ts[1..]);
      assert Updated(w, stmt, ts) == Updated(WithSeverity(w, s, ts[0]), stmt, ts[1..]);
    } else if |ts| == 1 {
      assert Updated(WithSeverity(w, s, ts[0]), stmt, ts[1..]) == WithSeverity(w, s, ts[0]);
    }
  }

  class MongoStore {
    var signals: map<string, Signal> // by _id

    constructor ()
      ensures signals == map[]
    {
      signals := map[];
    }

    method InsertSignal(signal: Signal, script: seq<Attempt>) returns (ok: bool)
      requires IsScript(script)
      modifies this`signals
      ensures var r := InsertOutcome(signal.id in old(signals), script);
              ok == r.ok && signals == if r.stored then old(signals)[signal.id := signal] else old(signals)
    {
      var attempt := 0;
      ghost var was := signals;
      while attempt < MAX_ATTEMPTS
        invariant 0 <= attempt <= |script|
        invariant var r, rest := InsertOutcome(signal.id in was, script),
                                 InsertOutcome(signal.id in signals, script[attempt..]);
          && r.ok == rest.ok
          && (if rest.stored then signals[signal.id := signal] else signals)
             == (if r.stored then was[signal.id := signal] else was)
      {
        if attempt == |script| {
          return false;
        }
        var reply := script[attempt].reply;
        assert script[attempt..][1..] == script[attempt + 1..];
        if signal.id !in signals && reply != Failure {
          signals := signals[signal.id := signal];
          if reply == Ack {
            return true;
          }
        }
        attempt := attempt + 1;
      }
      return false;
    }
  }
}
