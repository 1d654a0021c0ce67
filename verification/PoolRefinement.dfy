/** A worker's steps for one signal, with nothing in between, do what processing it as a whole does. */
module PoolRefinement {
  import opened Models
  import opened Retries
  import opened Stores
  import opened PoolRaces
  import Pools

  /** The attempts of each write; the last one also ends it, if nothing else did. */
  function MongoSteps(w: nat, script: seq<Attempt>): seq<Action> {
    if script == [] then [] else [TryMongo(w, script[0].reply, |script| == 1)] + MongoSteps(w, script[1..])
  }

  function PostgresSteps(w: nat, script: seq<Attempt>): seq<Action> {
    if script == [] then [] else [TryPostgres(w, script[0].reply, |script| == 1)] + PostgresSteps(w, script[1..])
  }

  function SignalSteps(w: nat, mongo: seq<Attempt>, pg: seq<Attempt>): seq<Action> {
    [Receive(w)] + (MongoSteps(w, mongo) + (PostgresSteps(w, pg) + ([Timeseries(w)] + [Finish(w)])))
  }

  function CountsOf(items: Items): map<string, nat> { map id | id in items :: items[id].signalCount }

  // --- The insert ----------------------------------------------------------------------------------

  lemma {:induction false} MongoIdles(s: State, w: nat, script: seq<Attempt>)
    requires IsBusy(s, w) && s.workers[w].mongo.done
    ensures RunFrom(s, MongoSteps(w, script)) == s
  {
    if script != [] {
      var a := TryMongo(w, script[0].reply, |script| == 1);
      RunFromConcat(s, [a], MongoSteps(w, script[1..]));
      RunFromOne(s, a);
      MongoIdles(s, w, script[1..]);
    }
  }

  /** The state with the insert of worker `w` at a given point. */
  function WithInsert(s: State, w: nat, m: Write, stored: bool): State
    requires IsBusy(s, w)
  {
    var g := Held(s, w);
    SetWorker(s, w, s.workers[w].(mongo := m)).(documents := if stored then s.documents[g.id := g] else s.documents)
  }

  lemma FirstInsert(s: State, w: nat, script: seq<Attempt>) returns (t: State)
    requires IsBusy(s, w) && !s.workers[w].mongo.done && script != []
    ensures RunFrom(s, MongoSteps(w, script)) == RunFrom(t, MongoSteps(w, script[1..]))
    ensures var effect := if Held(s, w).id in s.documents then Failure else script[0].reply;
            var m := Tried(s.workers[w].mongo, effect, effect != Failure, |script| == 1);
            && t == WithInsert(s, w, m, effect != Failure)
            && IsBusy(t, w) && Held(t, w) == Held(s, w) && t.workers[w].mongo == m
  {
    var a := TryMongo(w, script[0].reply, |script| == 1);
    t := Apply(s, a);
    RunFromConcat(s, [a], MongoSteps(w, script[1..]));
    RunFromOne(s, a);
  }

  lemma InsertsJoin(s: State, w: nat, m: Write, stored: bool, l: Write, more: bool)
    requires IsBusy(s, w)
    ensures var t := WithInsert(s, w, m, stored);
            IsBusy(t, w) && Held(t, w) == Held(s, w) && WithInsert(t, w, l, more) == WithInsert(s, w, l, stored || more)
  {
    var k := s.workers[w];
    assert s.workers[w := k.(mongo := m)][w := k.(mongo := l)] == s.workers[w := k.(mongo := l)];
  }

  lemma {:induction false} InsertUndisturbed(s: State, w: nat, script: seq<Attempt>) returns (m: Write)
    requires IsBusy(s, w) && !s.workers[w].mongo.done && script != []
    requires s.workers[w].mongo.attempts + |script| <= 3
    ensures var r := InsertOutcome(Held(s, w).id in s.documents, script);
            m.done && m.ok == r.ok && RunFrom(s, MongoSteps(w, script)) == WithInsert(s, w, m, r.stored)
    decreases script
  {
    var rest := script[1..];
    var known := Held(s, w).id in s.documents;
    var stored := !known && script[0].reply != Failure;
    var t := FirstInsert(s, w, script);
    m := t.workers[w].mongo;
    if m.done {
      MongoIdles(t, w, rest);
    } else {
      var l := InsertUndisturbed(t, w, rest);
      InsertsJoin(s, w, m, stored, l, InsertOutcome(known || stored, rest).stored);
      m := l;
    }
  }

  // --- The increment -------------------------------------------------------------------------------

  lemma {:induction false} PostgresIdles(s: State, w: nat, script: seq<Attempt>)
    requires IsBusy(s, w) && s.workers[w].pg.done
    ensures RunFrom(s, PostgresSteps(w, script)) == s
  {
    if script != [] {
      var a := TryPostgres(w, script[0].reply, |script| == 1);
      RunFromConcat(s, [a], PostgresSteps(w, script[1..]));
      RunFromOne(s, a);
      PostgresIdles(s, w, script[1..]);
    }
  }

  /** The state with the increment of worker `w` at a given point, applied `n` times more. */
  function WithIncrement(s: State, w: nat, p: Write, n: nat): State
    requires IsBusy(s, w) && Held(s, w).workItemID in s.counts
  {
    var x := Held(s, w).workItemID;
    SetWorker(s, w, s.workers[w].(pg := p)).(counts := s.counts[x := s.counts[x] + n])
  }

  lemma IncrementAttempt(s: State, w: nat, reply: Reply, last: bool)
    requires IsBusy(s, w) && Held(s, w).workItemID in s.counts && !s.workers[w].pg.done
    ensures var n := if reply == Failure then 0 else 1;
            Apply(s, TryPostgres(w, reply, last)) == WithIncrement(s, w, Tried(s.workers[w].pg, reply, n == 1, last), n)
  {
  }

  lemma IncrementsAdd(s: State, w: nat, p: Write, n: nat, q: Write, m: nat)
    requires IsBusy(s, w) && Held(s, w).workItemID in s.counts
    ensures var t := WithIncrement(s, w, p, n);
            && IsBusy(t, w) && Held(t, w) == Held(s, w) && t.workers[w].pg == p
            && WithIncrement(t, w, q, m) == WithIncrement(s, w, q, n + m)
  {
    var k := s.workers[w];
    assert s.workers[w := k.(pg := p)][w := k.(pg := q)] == s.workers[w := k.(pg := q)];
  }

  lemma IncrementsJoin(s: State, w: nat, t: State, p: Write, n: nat, u: State, q: Write, m: nat)
    requires IsBusy(s, w) && Held(s, w).workItemID in s.counts && t == WithIncrement(s, w, p, n)
    requires IsBusy(t, w) && Held(t, w).workItemID in t.counts && u == WithIncrement(t, w, q, m)
    ensures u == WithIncrement(s, w, q, n + m)
  {
    IncrementsAdd(s, w, p, n, q, m);
  }

  lemma FirstIncrement(s: State, w: nat, script: seq<Attempt>) returns (t: State)
    requires IsBusy(s, w) && Held(s, w).workItemID in s.counts && !s.workers[w].pg.done && script != []
    ensures RunFrom(s, PostgresSteps(w, script)) == RunFrom(t, PostgresSteps(w, script[1..]))
    ensures var n := if script[0].reply == Failure then 0 else 1;
            var p := Tried(s.workers[w].pg, script[0].reply, n == 1, |script| == 1);
            && t == WithIncrement(s, w, p, n)
            && IsBusy(t, w) && Held(t, w) == Held(s, w) && t.workers[w].pg == p && Held(t, w).workItemID in t.counts
  {
    var a := TryPostgres(w, script[0].reply, |script| == 1);
    t := Apply(s, a);
    RunFromConcat(s, [a], PostgresSteps(w, script[1..]));
    RunFromOne(s, a);
    IncrementAttempt(s, w, script[0].reply, |script| == 1);
  }

  /** When the first attempt ends the write, it decides all of it. */
  lemma EndedThere(script: seq<Attempt>, p: Write, before: Write)
    requires script != [] && before.attempts + |script| <= 3 && p.done
    requires p == Tried(before, script[0].reply, script[0].reply != Failure, |script| == 1)
    ensures |AppliedAt(script)| == (if script[0].reply == Failure then 0 else 1) && p.ok == Acked(script)
  {
    if script[0].reply != Ack { assert script[1..] == []; }
  }

  /** Otherwise the rest of the attempts do. */
  lemma GoesOn(script: seq<Attempt>, p: Write, before: Write)
    requires script != [] && before.attempts + |script| <= 3 && !p.done
    requires p == Tried(before, script[0].reply, script[0].reply != Failure, |script| == 1)
    ensures |AppliedAt(script)| == (if script[0].reply == Failure then 0 else 1) + |AppliedAt(script[1..])|
    ensures script[1..] != [] && p.attempts + |script[1..]| <= 3 && Acked(script) == Acked(script[1..])
  {
  }

  lemma {:induction false} IncrementUndisturbed(s: State, w: nat, script: seq<Attempt>) returns (p: Write)
    requires IsBusy(s, w) && Held(s, w).workItemID in s.counts && !s.workers[w].pg.done && script != []
    requires s.workers[w].pg.attempts + |script| <= 3
    ensures p.done && p.ok == Acked(script)
    ensures RunFrom(s, PostgresSteps(w, script)) == WithIncrement(s, w, p, |AppliedAt(script)|)
    decreases script
  {
    var rest := script[1..];
    var n := if script[0].reply == Failure then 0 else 1;
    var t := FirstIncrement(s, w, script);
    p := t.workers[w].pg;
    if p.done {
      PostgresIdles(t, w, rest);
      EndedThere(script, p, s.workers[w].pg);
    } else {
      GoesOn(script, p, s.workers[w].pg);
      var q := IncrementUndisturbed(t, w, rest);
      IncrementsJoin(s, w, t, p, n, RunFrom(t, PostgresSteps(w, rest)), q, |AppliedAt(rest)|);
      p := q;
    }
  }

  // --- The whole signal ------------------------------------------------------------------------------

  /** The table's counts after the increments. */
  lemma CountsAfter(items: Items, x: string, ts: seq<Time>)
    requires x in items
    ensures CountsOf(UpdatedRow(items, x, WithOneMoreSignal, ts))
         == CountsOf(items)[x := items[x].signalCount + |ts|]
  {
    CountedTimes(items[x], ts);
  }

  lemma FinishUndisturbed(s: State, w: nat)
    requires IsBusy(s, w) && s.workers[w].mongo.done && s.workers[w].pg.done && !s.workers[w].timeseriesDone
    ensures var t, good := RunFrom(s, [Timeseries(w)] + [Finish(w)]), s.workers[w].mongo.ok && s.workers[w].pg.ok;
            && t.documents == s.documents && t.counts == s.counts && t.channel == s.channel
            && t.workers == s.workers[w := Waiting]
            && t.processed == s.processed + (if good then 1 else 0) && t.errors == s.errors + (if good then 0 else 1)
  {
    RunFromConcat(s, [Timeseries(w)], [Finish(w)]);
    RunFromOne(s, Timeseries(w));
    RunFromOne(Apply(s, Timeseries(w)), Finish(w));
  }

  /** What the two writes leave, before the worker finishes. */
  lemma WritesUndisturbed(s: State, w: nat, mongo: seq<Attempt>, pg: seq<Attempt>) returns (t: State)
    requires IsBusy(s, w) && s.workers[w].mongo == UNTRIED && s.workers[w].pg == UNTRIED && !s.workers[w].timeseriesDone
    requires IsScript(mongo) && IsScript(pg) && Held(s, w).workItemID in s.counts
    ensures t == RunFrom(RunFrom(s, MongoSteps(w, mongo)), PostgresSteps(w, pg))
    ensures IsBusy(t, w) && t.workers == s.workers[w := t.workers[w]] && t.channel == s.channel
    ensures t.processed == s.processed && t.errors == s.errors
    ensures var r, k, g := InsertOutcome(Held(s, w).id in s.documents, mongo), t.workers[w], Held(s, w);
            && k.mongo.done && k.pg.done && !k.timeseriesDone && k.mongo.ok == r.ok && k.pg.ok == Acked(pg)
            && t.documents == (if r.stored then s.documents[g.id := g] else s.documents)
            && t.counts == s.counts[g.workItemID := s.counts[g.workItemID] + |AppliedAt(pg)|]
  {
    var m := InsertUndisturbed(s, w, mongo);
    var u := RunFrom(s, MongoSteps(w, mongo));
    assert IsBusy(u, w) && Held(u, w) == Held(s, w) && u.workers[w] == s.workers[w].(mongo := m);
    var p := IncrementUndisturbed(u, w, pg);
    t := RunFrom(u, PostgresSteps(w, pg));
  }

  lemma StepsInTurn(s: State, a: seq<Action>, b: seq<Action>, c: seq<Action>, d: seq<Action>)
    ensures RunFrom(s, a + (b + (c + d))) == RunFrom(RunFrom(RunFrom(RunFrom(s, a), b), c), d)
  {
    RunFromConcat(s, a, b + (c + d));
    RunFromConcat(RunFrom(s, a), b, c + d);
    RunFromConcat(RunFrom(RunFrom(s, a), b), c, d);
  }

  /** Worker `w` has just taken the oldest signal. */
  ghost predicate HasTaken(s: State, t: State, w: nat)
    requires s.channel != [] && w < |s.workers|
  {
    && IsBusy(t, w) && Held(t, w) == s.channel[0] && t.channel == s.channel[1..]
    && t.workers == s.workers[w := Busy(|s.taken|, UNTRIED, UNTRIED, false)]
    && t.documents == s.documents && t.counts == s.counts && t.processed == s.processed && t.errors == s.errors
  }

  lemma Received(s: State, w: nat)
    requires w < |s.workers| && s.workers[w] == Waiting && s.channel != []
    ensures HasTaken(s, RunFrom(s, [Receive(w)]), w)
  {
    RunFromOne(s, Receive(w));
  }

  /** The state after a signal, in the terms of the races. */
  ghost predicate Served(s: State, t: State, g: Signal, r: Insert, acked: bool, n: nat)
    requires g.workItemID in s.counts && s.channel != []
  {
    && t.documents == (if r.stored then s.documents[g.id := g] else s.documents)
    && t.counts == s.counts[g.workItemID := s.counts[g.workItemID] + n]
    && t.processed == s.processed + (if r.ok && acked then 1 else 0)
    && t.errors == s.errors + (if r.ok && acked then 0 else 1)
    && t.channel == s.channel[1..] && t.workers == s.workers
  }

  lemma BackToWaiting(ws: seq<Worker>, w: nat, k: Worker)
    requires w < |ws| && ws[w] == Waiting
    ensures ws[w := k][w := Waiting] == ws
  {
  }

  /** From the signal in hand to the worker waiting again. */
  lemma HeldServed(s: State, w: nat, mongo: seq<Attempt>, pg: seq<Attempt>) returns (t: State)
    requires IsBusy(s, w) && s.workers[w].mongo == UNTRIED && s.workers[w].pg == UNTRIED && !s.workers[w].timeseriesDone
    requires IsScript(mongo) && IsScript(pg) && Held(s, w).workItemID in s.counts
    ensures t == RunFrom(RunFrom(RunFrom(s, MongoSteps(w, mongo)), PostgresSteps(w, pg)), [Timeseries(w)] + [Finish(w)])
    ensures t.channel == s.channel && t.workers == s.workers[w := Waiting]
    ensures var g := Held(s, w); var r := InsertOutcome(g.id in s.documents, mongo);
            && t.documents == (if r.stored then s.documents[g.id := g] else s.documents)
            && t.counts == s.counts[g.workItemID := s.counts[g.workItemID] + |AppliedAt(pg)|]
            && t.processed == s.processed + (if r.ok && Acked(pg) then 1 else 0)
            && t.errors == s.errors + (if r.ok && Acked(pg) then 0 else 1)
  {
    var u := WritesUndisturbed(s, w, mongo, pg);
    FinishUndisturbed(u, w);
    t := RunFrom(u, [Timeseries(w)] + [Finish(w)]);
    assert s.workers[w := u.workers[w]][w := Waiting] == s.workers[w := Waiting];
  }

  /** After taking the signal `u`, and after the whole of it `t`. */
  ghost predicate DoneWith(u: State, t: State, w: nat, g: Signal, r: Insert, acked: bool, n: nat) {
    && g.workItemID in u.counts && w < |u.workers|
    && t.channel == u.channel && t.workers == u.workers[w := Waiting]
    && t.documents == (if r.stored then u.documents[g.id := g] else u.documents)
    && t.counts == u.counts[g.workItemID := u.counts[g.workItemID] + n]
    && t.processed == u.processed + (if r.ok && acked then 1 else 0)
    && t.errors == u.errors + (if r.ok && acked then 0 else 1)
  }

  lemma TakenThenServed(s: State, u: State, t: State, w: nat, r: Insert, acked: bool, n: nat)
    requires s.channel != [] && w < |s.workers| && s.workers[w] == Waiting && HasTaken(s, u, w)
    requires s.channel[0].workItemID in s.counts && DoneWith(u, t, w, s.channel[0], r, acked, n)
    ensures Served(s, t, s.channel[0], r, acked, n)
  {
    BackToWaiting(s.workers, w, Busy(|s.taken|, UNTRIED, UNTRIED, false));
  }

  lemma SignalRun(s: State, w: nat, mongo: seq<Attempt>, pg: seq<Attempt>) returns (u: State, t: State)
    requires w < |s.workers| && s.workers[w] == Waiting && s.channel != [] && IsScript(mongo) && IsScript(pg)
    requires s.channel[0].workItemID in s.counts
    ensures t == RunFrom(s, SignalSteps(w, mongo, pg)) && HasTaken(s, u, w)
    ensures var g := s.channel[0];
            DoneWith(u, t, w, g, InsertOutcome(g.id in u.documents, mongo), Acked(pg), |AppliedAt(pg)|)
  {
    Received(s, w);
    u := RunFrom(s, [Receive(w)]);
    t := HeldServed(u, w, mongo, pg);
    StepsInTurn(s, [Receive(w)], MongoSteps(w, mongo), PostgresSteps(w, pg), [Timeseries(w)] + [Finish(w)]);
  }

  lemma SignalServed(s: State, w: nat, mongo: seq<Attempt>, pg: seq<Attempt>)
    requires w < |s.workers| && s.workers[w] == Waiting && s.channel != [] && IsScript(mongo) && IsScript(pg)
    requires s.channel[0].workItemID in s.counts
    ensures var g := s.channel[0];
            Served(s, RunFrom(s, SignalSteps(w, mongo, pg)), g, InsertOutcome(g.id in s.documents, mongo), Acked(pg),
                   |AppliedAt(pg)|)
  {
    var g := s.channel[0];
    var u, t := SignalRun(s, w, mongo, pg);
    TakenThenServed(s, u, t, w, InsertOutcome(g.id in s.documents, mongo), Acked(pg), |AppliedAt(pg)|);
  }

  /** The two worlds agree: documents, counts and counters. */
  ghost predicate Agree(t: State, b: Pools.Books) {
    t.documents == b.signals && t.counts == CountsOf(b.items) && t.processed == b.processed && t.errors == b.errors
  }

  lemma ServedIsProcessed(s: State, t: State, items: Items, g: Signal, mongo: seq<Attempt>, pg: seq<Attempt>)
    requires s.channel != [] && g.workItemID in items && g.workItemID != "" && s.counts == CountsOf(items)
    requires Served(s, t, g, InsertOutcome(g.id in s.documents, mongo), Acked(pg), |AppliedAt(pg)|)
    ensures Agree(t, Pools.Processed(Pools.Books(s.documents, items, s.processed, s.errors), g, mongo, pg))
  {
    CountsAfter(items, g.workItemID, AppliedAt(pg));
  }

  /** A worker that takes a signal and is left to it: documents, counts and counters are those of
      processing the signal as a whole, and the worker waits again. */
  lemma SignalIsUndisturbed(s: State, w: nat, mongo: seq<Attempt>, pg: seq<Attempt>, items: Items)
    requires w < |s.workers| && s.workers[w] == Waiting && s.channel != [] && IsScript(mongo) && IsScript(pg)
    requires s.channel[0].workItemID in items && s.channel[0].workItemID != "" && s.counts == CountsOf(items)
    ensures var t := RunFrom(s, SignalSteps(w, mongo, pg));
            var before := Pools.Books(s.documents, items, s.processed, s.errors);
            && Agree(t, Pools.Processed(before, s.channel[0], mongo, pg))
            && t.channel == s.channel[1..] && t.workers == s.workers
  {
    SignalServed(s, w, mongo, pg);
    ServedIsProcessed(s, RunFrom(s, SignalSteps(w, mongo, pg)), items, s.channel[0], mongo, pg);
  }

  // --- A producer --------------------------------------------------------------------------------------

  lemma ThreeSteps(s: State, a: Action, b: Action, c: Action)
    ensures RunFrom(s, [a] + ([b] + [c])) == Apply(Apply(Apply(s, a), b), c)
  {
    var s1 := Apply(s, a);
    RunFromConcat(s, [a], [b] + [c]);
    RunFromOne(s, a);
    RunFromConcat(s1, [b], [c]);
    RunFromOne(s1, b);
    RunFromOne(Apply(s1, b), c);
  }

  /** What a producer's select leaves. */
  lemma Selected(s: State, g: Signal) returns (t: State)
    requires Admissible(s, g)
    ensures var p, room := |s.producers|, |s.channel| < s.capacity;
            && t == Apply(Apply(s, Produce(g)), ProducerStep(p))
            && p < |t.producers| && t.producers[p].stage == (if room then Sent else Refused)
            && t.channel == s.channel + (if room then [g] else [])
            && t.enqueued == s.enqueued && t.dropped == s.dropped
            && t.workers == s.workers && t.documents == s.documents && t.counts == s.counts
  {
    var p, s1 := |s.producers|, Apply(s, Produce(g));
    assert s1.producers[p] == Producer(g, Selecting);
    t := Apply(s1, ProducerStep(p));
  }

  /** A producer left to itself sends exactly when there is room, and counts the branch it took. */
  lemma SendIsUndisturbed(s: State, g: Signal)
    requires Admissible(s, g)
    ensures var p := |s.producers|; var t := RunFrom(s, [Produce(g)] + ([ProducerStep(p)] + [ProducerStep(p)]));
            var room := |s.channel| < s.capacity;
            && t.channel == s.channel + (if room then [g] else [])
            && t.enqueued == s.enqueued + (if room then 1 else 0) && t.dropped == s.dropped + (if room then 0 else 1)
            && t.workers == s.workers && t.documents == s.documents && t.counts == s.counts
  {
    var p := |s.producers|;
    ThreeSteps(s, Produce(g), ProducerStep(p), ProducerStep(p));
    var t := Selected(s, g);
    var u := Apply(t, ProducerStep(p));
  }
}
