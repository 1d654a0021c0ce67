/** The bounded queue and the worker pool as objects. */
module Pools {
  import opened Models
  import opened Retries
  import opened Stores

  const DEFAULT_CAPACITY := 50000

  class SignalQueue {
    var ch: seq<Signal>
    const capacity: nat
    var enqueued: nat
    var dropped: nat

    constructor (capacity: int)
      ensures ch == [] && enqueued == dropped == 0
      ensures this.capacity == if capacity <= 0 then 50000 else capacity
    {
      this.ch := [];
      this.capacity := if capacity <= 0 then DEFAULT_CAPACITY else capacity;
      this.enqueued, this.dropped := 0, 0;
    }

    /** A send that does not block: it is refused exactly when the channel is full. */
    method TryEnqueue(signal: Signal) returns (ok: bool)
      modifies this
      ensures ok <==> |old(ch)| < capacity
      ensures ch == if ok then old(ch) + [signal] else old(ch)
      ensures enqueued == old(enqueued) + (if ok then 1 else 0)
      ensures dropped == old(dropped) + (if ok then 0 else 1)
    {
      if |ch| < capacity {
        ch := ch + [signal];
        enqueued := enqueued + 1;
        return true;
      }
      dropped := dropped + 1;
      return false;
    }

    method Consume() returns (signal: Signal)
      requires ch != []
      modifies this`ch
      ensures old(ch) == [signal] + ch
    {
      signal := ch[0];
      ch := ch[1..];
    }
  }

  /** What one turn of a worker's select finds: a cancelled context, or a chance to receive, with
      the attempts the two writes would meet. */
  datatype Turn = Done | Ready(mongo: seq<Attempt>, pg: seq<Attempt>)

  predicate IsTurn(t: Turn) { t.Ready? ==> IsScript(t.mongo) && IsScript(t.pg) }

  /** Everything a worker writes. */
  datatype Books = Books(signals: map<string, Signal>, items: Items, processed: nat, errors: nat)

  function Processed(b: Books, g: Signal, mongo: seq<Attempt>, pg: seq<Attempt>): Books {
    var doc := InsertOutcome(g.id in b.signals, mongo);
    var counted := g.workItemID == "" || Acked(pg);
    Books(
      if doc.stored then b.signals[g.id := g] else b.signals,
      if g.workItemID == "" then b.items else UpdatedRow(b.items, g.workItemID, WithOneMoreSignal, AppliedAt(pg)),
      b.processed + (if doc.ok && counted then 1 else 0),
      b.errors + (if doc.ok && counted then 0 else 1))
  }

  /** A signal is counted exactly once, as processed if both its writes were acknowledged and as an
      error otherwise; and what it leaves is its document, if its insert was applied, and one more on
      its work item's count for each attempt that took effect. */
  lemma ProcessedMeans(b: Books, g: Signal, mongo: seq<Attempt>, pg: seq<Attempt>)
    ensures var a := Processed(b, g, mongo, pg);
            var ok := g.id !in b.signals && FirstAnswerAcks(mongo)
                      && (g.workItemID == "" || exists i :: 0 <= i < |pg| && pg[i].reply == Ack);
            && a.processed == b.processed + (if ok then 1 else 0) && a.errors == b.errors + (if ok then 0 else 1)
            && a.signals == (if g.id in b.signals || AllFailed(mongo) then b.signals else b.signals[g.id := g])
    ensures var a := Processed(b, g, mongo, pg);
            if g.workItemID == "" || g.workItemID !in b.items || AllFailed(pg) then a.items == b.items else
              var w, v := b.items[g.workItemID], a.items[g.workItemID];
              && a.items == b.items[g.workItemID := v]
              && v == w.(signalCount := w.signalCount + |AppliedAt(pg)|, updatedAt := v.updatedAt)
  {
    InsertedIff(g.id in b.signals, mongo);
    StoredIff(g.id in b.signals, mongo);
    AckedIff(pg);
    NoneAppliedIff(pg);
    if g.workItemID in b.items { CountedTimes(b.items[g.workItemID], AppliedAt(pg)); }
  }

  /** A signal counted as processed has its document, and its work item counts it; any other signal
      is counted as an error, whatever its writes left behind. */
  lemma ProcessedMeansWritten(b: Books, g: Signal, mongo: seq<Attempt>, pg: seq<Attempt>)
    requires IsScript(mongo) && IsScript(pg)
    ensures var a := Processed(b, g, mongo, pg);
            && (a.processed == b.processed + 1 || a.errors == b.errors + 1)
            && (a.processed == b.processed + 1 ==> a.errors == b.errors && g.id in a.signals && a.signals[g.id] == g)
            && (a.processed == b.processed + 1 && g.workItemID in b.items && g.workItemID != "" ==>
                  g.workItemID in a.items && a.items[g.workItemID].signalCount > b.items[g.workItemID].signalCount)
  {
    AtLeastOnce(pg);
    if g.workItemID in b.items { CountedTimes(b.items[g.workItemID], AppliedAt(pg)); }
    InsertOnce(g.id in b.signals, mongo);
  }

  /** A worker's turns over a queue: it stops at the first cancelled one, whatever is still queued,
      and a turn that finds nothing to receive waits. */
  function Worked(b: Books, ch: seq<Signal>, turns: seq<Turn>): Books
    decreases turns
  {
    if turns == [] || turns[0].Done? then b
    else if ch == [] then Worked(b, ch, turns[1..])
    else Worked(Processed(b, ch[0], turns[0].mongo, turns[0].pg), ch[1..], turns[1..])
  }

  /** The chances to receive before the context is done. */
  function ReadyTurns(turns: seq<Turn>): nat {
    if turns == [] || turns[0].Done? then 0 else 1 + ReadyTurns(turns[1..])
  }

  function Least(a: nat, b: nat): nat { if a < b then a else b }

  /** Every signal a worker takes is counted exactly once, as processed or as an error, and signals
      are left in the queue exactly when the context is done before there were turns for them all. */
  lemma {:induction false} EachTakenCountedOnce(b: Books, ch: seq<Signal>, turns: seq<Turn>)
    ensures var w := Worked(b, ch, turns);
            w.processed + w.errors == b.processed + b.errors + Least(|ch|, ReadyTurns(turns))
    decreases turns
  {
    if turns != [] && turns[0].Ready? {
      if ch == [] {
        EachTakenCountedOnce(b, ch, turns[1..]);
      } else {
        EachTakenCountedOnce(Processed(b, ch[0], turns[0].mongo, turns[0].pg), ch[1..], turns[1..]);
      }
    }
  }

  /** Once the context is done a worker takes nothing more, however much is queued. */
  lemma {:induction false} DoneStops(b: Books, ch: seq<Signal>, turns: seq<Turn>, n: nat)
    requires n < |turns| && turns[n].Done?
    ensures Worked(b, ch, turns) == Worked(b, ch, turns[..n])
    ensures ReadyTurns(turns) <= n
    decreases turns
  {
    if n > 0 && turns[0].Ready? {
      var rest := turns[1..];
      assert turns[..n][1..] == rest[..n - 1];
      if ch == [] {
        DoneStops(b, ch, rest, n - 1);
      } else {
        DoneStops(Processed(b, ch[0], turns[0].mongo, turns[0].pg), ch[1..], rest, n - 1);
      }
    }
  }

  predicate AllAck(turns: seq<Turn>) {
    forall i :: 0 <= i < |turns| ==>
      turns[i].Ready? && turns[i].mongo != [] && turns[i].mongo[0].reply == Ack
      && turns[i].pg != [] && turns[i].pg[0].reply == Ack
  }

  predicate New(b: Books, ch: seq<Signal>) {
    && (forall i :: 0 <= i < |ch| ==> ch[i].id !in b.signals)
    && (forall i, j :: 0 <= i < j < |ch| ==> ch[i].id != ch[j].id)
  }

  /** Where every write is acknowledged at once, a worker with a turn for each signal takes them all,
      in order: each is counted as processed and stored, and nothing else is. */
  lemma {:induction false} AllWorked(b: Books, ch: seq<Signal>, turns: seq<Turn>)
    requires AllAck(turns) && New(b, ch) && |ch| <= |turns|
    ensures var w := Worked(b, ch, turns);
            && w.processed == b.processed + |ch| && w.errors == b.errors
            && (forall i :: 0 <= i < |ch| ==> ch[i].id in w.signals && w.signals[ch[i].id] == ch[i])
            && (forall d :: d in b.signals ==> d in w.signals && w.signals[d] == b.signals[d])
            && (forall d :: d in w.signals ==> d in b.signals || exists i :: 0 <= i < |ch| && ch[i].id == d)
    decreases turns
  {
    if turns != [] {
      var rest := turns[1..];
      assert AllAck(rest);
      if ch == [] {
        AllWorked(b, ch, rest);
      } else {
        var a, q := Processed(b, ch[0], turns[0].mongo, turns[0].pg), ch[1..];
        ProcessedMeans(b, ch[0], turns[0].mongo, turns[0].pg);
        assert AcksAt(turns[0].mongo, 0);
        assert New(a, q);
        AllWorked(a, q, rest);
        assert forall i :: 0 < i < |ch| ==> ch[i] == q[i - 1];
      }
    }
  }

  class Pool {
    const queue: SignalQueue
    const mongo: MongoStore
    const postgres: PostgresStore
    var processed: nat
    var errors: nat

    constructor (queue: SignalQueue, mongo: MongoStore, postgres: PostgresStore)
      ensures this.queue == queue && this.mongo == mongo && this.postgres == postgres
      ensures processed == errors == 0
    {
      this.queue, this.mongo, this.postgres := queue, mongo, postgres;
      this.processed, this.errors := 0, 0;
    }

    function View(): Books
      reads this, mongo, postgres
    {
      Books(mongo.signals, postgres.workItems, processed, errors)
    }

    /** The two writes run side by side and touch different stores; the signal is counted once. */
    method ProcessSignal(signal: Signal, mongoScript: seq<Attempt>, pgScript: seq<Attempt>)
      requires IsScript(mongoScript) && IsScript(pgScript)
      modifies this, mongo, postgres`workItems
      ensures View() == Processed(old(View()), signal, mongoScript, pgScript)
    {
      var mongoOk := mongo.InsertSignal(signal, mongoScript);
      var pgOk := true;
      if signal.workItemID != "" {
        pgOk := postgres.IncrementSignalCount(signal.workItemID, pgScript);
      }
      if !mongoOk || !pgOk {
        errors := errors + 1;
        return;
      }
      processed := processed + 1;
    }

    /** One worker's loop. */
    method RunWorker(turns: seq<Turn>)
      requires forall i :: 0 <= i < |turns| ==> IsTurn(turns[i])
      modifies this, queue`ch, mongo, postgres`workItems
      ensures View() == Worked(old(View()), old(queue.ch), turns)
      ensures queue.ch == old(queue.ch)[Least(|old(queue.ch)|, ReadyTurns(turns))..]
    {
      var i := 0;
      ghost var taken := 0;
      while i < |turns|
        invariant i <= |turns| && taken <= |old(queue.ch)| && queue.ch == old(queue.ch)[taken..]
        invariant Worked(View(), queue.ch, turns[i..]) == Worked(old(View()), old(queue.ch), turns)
        invariant Least(|old(queue.ch)|, ReadyTurns(turns))
               == taken + Least(|queue.ch|, ReadyTurns(turns[i..]))
      {
        assert turns[i..][0] == turns[i] && turns[i..][1..] == turns[i + 1..];
        if turns[i].Done? {
          return;
        }
        if queue.ch != [] {
          var signal := queue.Consume();
          ProcessSignal(signal, turns[i].mongo, turns[i].pg);
          taken := taken + 1;
        }
        i := i + 1;
      }
    }
  }
}
