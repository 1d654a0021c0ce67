/** What the pool's writes add up to, item by item, and how it shuts down. */
module PoolAccounting {
  import opened Models
  import opened Retries
  import opened PoolRaces

  // --- At-least-once accounting ----------------------------------------------------------------------

  function DocumentsOf(s: State, x: string): set<string> {
    set d | d in s.documents && s.documents[d].workItemID == x
  }

  ghost predicate AllLinked(s: State, q: seq<Signal>) { forall i :: 0 <= i < |q| ==> q[i].workItemID in s.counts }

  /** Every signal anywhere is linked to a work item that exists. */
  ghost predicate Linked(s: State) {
    && AllLinked(s, s.channel) && AllLinked(s, s.taken)
    && (forall p :: 0 <= p < |s.producers| ==> s.producers[p].signal.workItemID in s.counts)
    && (forall o :: 0 <= o < |s.finished| ==> s.finished[o].signal.workItemID in s.counts)
  }

  /** The two writes of a signal in hand: an insert applies at most once, an increment at most as
      often as it was tried, and success means it applied. */
  ghost predicate GoodWrites(s: State, k: Worker) {
    k.Busy? ==>
      && k.slot < |s.taken|
      && k.mongo.applied <= 1 && (k.mongo.applied == 1 ==> s.taken[k.slot].id in s.documents)
      && (k.mongo.ok ==> k.mongo.applied == 1)
      && k.pg.applied <= k.pg.attempts && k.pg.attempts <= MAX_ATTEMPTS && (k.pg.ok ==> k.pg.applied >= 1)
      && (k.pg.attempts == MAX_ATTEMPTS ==> k.pg.done)
      && (k.mongo.attempts >= MAX_ATTEMPTS ==> k.mongo.done)
  }

  predicate GoodOutcome(o: Outcome) {
    && o.documents <= 1 && o.increments <= MAX_ATTEMPTS
    && (o.processed ==> o.documents == 1 && o.increments >= 1)
  }

  ghost predicate Sane(s: State) {
    && Linked(s)
    && (forall w :: 0 <= w < |s.workers| ==> GoodWrites(s, s.workers[w]))
    && (forall o :: 0 <= o < |s.finished| ==> GoodOutcome(s.finished[o]))
  }

  lemma ProducerLinked(s: State, p: nat)
    requires Linked(s) && p < |s.producers|
    ensures Linked(StepProducer(s, p))
  {
  }

  lemma FinishLinked(s: State, w: nat)
    requires Linked(s) && IsBusy(s, w)
    ensures Linked(FinishWorker(s, w))
  {
  }

  /** Same signals everywhere, and no item lost. */
  lemma SameSignalsLinked(s: State, t: State)
    requires Linked(s) && s.counts.Keys <= t.counts.Keys
    requires t.channel == s.channel && t.taken == s.taken && t.producers == s.producers && t.finished == s.finished
    ensures Linked(t)
  {
  }

  lemma StepLinked(s: State, a: Action)
    requires Linked(s)
    ensures Linked(Apply(s, a))
  {
    if Enabled(s, a) {
      match a {
        case ProducerStep(p) => ProducerLinked(s, p);
        case Finish(w) => FinishLinked(s, w);
        case Produce(_) =>
        case Receive(_) =>
        case _ => SameSignalsLinked(s, Apply(s, a));
      }
    }
  }

  lemma StepOutcomes(s: State, a: Action)
    requires Sane(s)
    ensures var t := Apply(s, a); forall o :: 0 <= o < |t.finished| ==> GoodOutcome(t.finished[o])
  {
    if a.Finish? && Enabled(s, a) { assert GoodWrites(s, s.workers[a.w]); }
  }

  predicate OfWorker(a: Action) {
    a.Stop? || a.Receive? || a.TryMongo? || a.TryPostgres? || a.Timeseries? || a.Finish?
  }

  /** A step moves at most one worker, and no signal taken, document or item is lost. */
  lemma StepFrame(s: State, a: Action)
    ensures var t := Apply(s, a);
            && s.taken <= t.taken && s.documents.Keys <= t.documents.Keys && s.counts.Keys <= t.counts.Keys
            && t.workers == if OfWorker(a) && Enabled(s, a) then s.workers[a.w := t.workers[a.w]] else s.workers
  {
    if Enabled(s, a) {
      match a {
        case ProducerStep(_) =>
        case Receive(_) =>
        case TryMongo(_, _, _) =>
        case TryPostgres(_, _, _) =>
        case _ =>
      }
    }
  }

  /** Nothing a write in hand relies on is undone elsewhere. */
  lemma KeepsWrites(s: State, t: State, k: Worker)
    requires GoodWrites(s, k) && s.documents.Keys <= t.documents.Keys && s.taken <= t.taken
    ensures GoodWrites(t, k)
  {
  }

  lemma TriedMongo(s: State, a: Action)
    requires a.TryMongo? && Enabled(s, a) && GoodWrites(s, s.workers[a.w])
    ensures GoodWrites(Apply(s, a), Apply(s, a).workers[a.w])
  {
  }

  lemma TriedPostgres(s: State, a: Action)
    requires a.TryPostgres? && Enabled(s, a) && Linked(s) && GoodWrites(s, s.workers[a.w])
    ensures GoodWrites(Apply(s, a), Apply(s, a).workers[a.w])
  {
  }

  lemma MovedWrites(s: State, a: Action)
    requires OfWorker(a) && Enabled(s, a) && Linked(s) && GoodWrites(s, s.workers[a.w])
    ensures GoodWrites(Apply(s, a), Apply(s, a).workers[a.w])
  {
    match a {
      case TryMongo(_, _, _) => TriedMongo(s, a);
      case TryPostgres(_, _, _) => TriedPostgres(s, a);
      case _ =>
    }
  }

  lemma StepWrites(s: State, a: Action, w: nat)
    requires Linked(s) && w < |Apply(s, a).workers| && w < |s.workers| && GoodWrites(s, s.workers[w])
    ensures GoodWrites(Apply(s, a), Apply(s, a).workers[w])
  {
    StepFrame(s, a);
    if OfWorker(a) && Enabled(s, a) && a.w == w {
      MovedWrites(s, a);
    } else {
      KeepsWrites(s, Apply(s, a), s.workers[w]);
    }
  }

  lemma StepSane(s: State, a: Action)
    requires Sane(s)
    ensures Sane(Apply(s, a))
  {
    StepLinked(s, a);
    StepOutcomes(s, a);
    StepFrame(s, a);
    forall w | 0 <= w < |Apply(s, a).workers| ensures GoodWrites(Apply(s, a), Apply(s, a).workers[w]) {
      StepWrites(s, a, w);
    }
  }

  /** One item's documents and count, against what finished and pending writes did. */
  ghost predicate Balanced(s: State, x: string) {
    && |DocumentsOf(s, x)| == Tallied(Docs(x), s.finished) + Sum(Documents(x), s.taken, s.workers)
    && (x in s.counts ==>
          s.counts[x] == 1 + Tallied(Incs(x), s.finished) + Sum(Increments(x), s.taken, s.workers))
  }

  lemma {:induction false} UntouchedTally(t: Tally, f: seq<Outcome>)
    requires forall o :: 0 <= o < |f| ==> f[o].signal.workItemID != t.item
    ensures Tallied(t, f) == 0
  {
    if f != [] { UntouchedTally(t, f[..|f| - 1]); }
  }

  lemma {:induction false} UntouchedSum(x: string, taken: seq<Signal>, ws: seq<Worker>)
    requires forall i :: 0 <= i < |taken| ==> taken[i].workItemID != x
    ensures Sum(Increments(x), taken, ws) == 0
  {
    if ws != [] { UntouchedSum(x, taken, ws[..|ws| - 1]); }
  }

  lemma NewItemBalances(s: State, x: string, id: string)
    requires Sane(s) && Balanced(s, x) && id !in s.counts
    ensures Balanced(Apply(s, NewItem(id)), x)
  {
    assert DocumentsOf(Apply(s, NewItem(id)), x) == DocumentsOf(s, x);
    if x == id {
      UntouchedTally(Incs(x), s.finished);
      UntouchedSum(x, s.taken, s.workers);
    }
  }

  lemma MongoCounts(s: State, x: string, a: Action)
    requires a.TryMongo? && Enabled(s, a) && Balanced(s, x)
    ensures var t := Apply(s, a); x in t.counts ==>
              t.counts[x] == 1 + Tallied(Incs(x), t.finished) + Sum(Increments(x), t.taken, t.workers)
  {
    SumUpdate(Increments(x), s.taken, s.workers, a.w, Apply(s, a).workers[a.w]);
  }

  lemma MongoBalances(s: State, x: string, a: Action)
    requires a.TryMongo? && Enabled(s, a) && Balanced(s, x)
    ensures Balanced(Apply(s, a), x)
  {
    var t, g := Apply(s, a), Held(s, a.w);
    MongoCounts(s, x, a);
    SumUpdate(Documents(x), s.taken, s.workers, a.w, t.workers[a.w]);
    if t.documents != s.documents && g.workItemID == x {
      assert DocumentsOf(t, x) == DocumentsOf(s, x) + {g.id};
    } else {
      assert DocumentsOf(t, x) == DocumentsOf(s, x);
    }
  }

  lemma PostgresBalances(s: State, x: string, a: Action)
    requires a.TryPostgres? && Enabled(s, a) && Sane(s) && Balanced(s, x)
    ensures Balanced(Apply(s, a), x)
  {
    var t := Apply(s, a);
    SumUpdate(Documents(x), s.taken, s.workers, a.w, t.workers[a.w]);
    SumUpdate(Increments(x), s.taken, s.workers, a.w, t.workers[a.w]);
    assert DocumentsOf(t, x) == DocumentsOf(s, x);
  }

  /** What a finishing worker's writes did moves from the workers' sum to the tally. */
  lemma FinishMoves(s: State, w: nat, tally: Tally, g: Gauge)
    requires Enabled(s, Finish(w))
    requires (tally.Docs? && g == Documents(tally.item)) || (tally.Incs? && g == Increments(tally.item))
    ensures var t := FinishWorker(s, w);
            Tallied(tally, t.finished) + Sum(g, t.taken, t.workers)
              == Tallied(tally, s.finished) + Sum(g, s.taken, s.workers)
  {
    var t, k := FinishWorker(s, w), s.workers[w];
    var o := Outcome(Held(s, w), k.mongo.ok && k.pg.ok, k.mongo.applied, k.pg.applied);
    assert t.finished == s.finished + [o] && t.taken == s.taken && t.workers == s.workers[w := Waiting];
    SumUpdate(g, s.taken, s.workers, w, Waiting);
    TallyAppend(tally, s.finished, o);
    assert Score(tally, o) == Reading(g, s.taken, k) && Reading(g, s.taken, Waiting) == 0;
  }

  lemma FinishBalances(s: State, x: string, w: nat)
    requires Enabled(s, Finish(w)) && Balanced(s, x)
    ensures Balanced(FinishWorker(s, w), x)
  {
    FinishMoves(s, w, Docs(x), Documents(x));
    FinishMoves(s, w, Incs(x), Increments(x));
    assert DocumentsOf(FinishWorker(s, w), x) == DocumentsOf(s, x);
  }

  lemma ReceiveBalances(s: State, x: string, w: nat)
    requires Enabled(s, Receive(w)) && Sane(s) && Balanced(s, x)
    ensures Balanced(Apply(s, Receive(w)), x)
  {
    var t := Apply(s, Receive(w));
    forall v | 0 <= v < |s.workers| && s.workers[v].Busy? ensures s.workers[v].slot < |s.taken| {
      assert GoodWrites(s, s.workers[v]);
    }
    SumTaken(Documents(x), s.taken, s.channel[0], s.workers);
    SumTaken(Increments(x), s.taken, s.channel[0], s.workers);
    SumUpdate(Documents(x), t.taken, s.workers, w, t.workers[w]);
    SumUpdate(Increments(x), t.taken, s.workers, w, t.workers[w]);
    assert DocumentsOf(t, x) == DocumentsOf(s, x);
  }

  /** Steps that touch neither table and no write. */
  lemma IdleBalances(s: State, x: string, a: Action)
    requires (a.Stop? || a.Timeseries?) && Enabled(s, a) && Balanced(s, x)
    ensures Balanced(Apply(s, a), x)
  {
    var t := Apply(s, a);
    assert DocumentsOf(t, x) == DocumentsOf(s, x);
    SumUpdate(Documents(x), s.taken, s.workers, a.w, t.workers[a.w]);
    SumUpdate(Increments(x), s.taken, s.workers, a.w, t.workers[a.w]);
  }

  lemma SameTables(s: State, t: State, x: string)
    requires Balanced(s, x) && t.documents == s.documents && t.counts == s.counts
    requires t.taken == s.taken && t.workers == s.workers && t.finished == s.finished
    ensures Balanced(t, x)
  {
    assert DocumentsOf(t, x) == DocumentsOf(s, x);
  }

  lemma StepBalances(s: State, x: string, a: Action)
    requires Sane(s) && Balanced(s, x)
    ensures Balanced(Apply(s, a), x)
  {
    if Enabled(s, a) {
      match a {
        case NewItem(id) => NewItemBalances(s, x, id);
        case TryMongo(_, _, _) => MongoBalances(s, x, a);
        case TryPostgres(_, _, _) => PostgresBalances(s, x, a);
        case Finish(w) => FinishBalances(s, x, w);
        case Receive(w) => ReceiveBalances(s, x, w);
        case Stop(_) => IdleBalances(s, x, a);
        case Timeseries(_) => IdleBalances(s, x, a);
        case _ => SameTables(s, Apply(s, a), x);
      }
    }
  }

  lemma {:induction false} RunsBalance(capacity: nat, workers: nat, acts: seq<Action>, x: string)
    ensures var s := Run(capacity, workers, acts); Sane(s) && Balanced(s, x)
  {
    if acts == [] {
      var ws := seq(workers, _ => Waiting);
      SumZero(Documents(x), [], ws);
      SumZero(Increments(x), [], ws);
      assert DocumentsOf(Initial(capacity, workers), x) == {};
    } else {
      var s := Run(capacity, workers, acts[..|acts| - 1]);
      RunsBalance(capacity, workers, acts[..|acts| - 1], x);
      StepSane(s, acts[|acts| - 1]);
      StepBalances(s, x, acts[|acts| - 1]);
    }
  }

  lemma {:induction false} TallyBounds(f: seq<Outcome>, x: string)
    requires forall o :: 0 <= o < |f| ==> GoodOutcome(f[o])
    ensures Tallied(Processed(x), f) <= Tallied(Docs(x), f) <= Tallied(Signals(x), f)
    ensures Tallied(Processed(x), f) <= Tallied(Incs(x), f) <= MAX_ATTEMPTS * Tallied(Signals(x), f)
  {
    if f != [] { TallyBounds(f[..|f| - 1], x); }
  }

  predicate Quiet(s: State) { forall w :: 0 <= w < |s.workers| ==> !s.workers[w].Busy? }

  /** With lost acknowledgements and retries, and no signal in a worker's hands: per work item, the
      signals counted as processed <= its documents <= all its finished signals, with one document
      per signal id, and signals processed <= its count beyond the creating 1 <= three times all. */
  lemma AtLeastOnce(capacity: nat, workers: nat, acts: seq<Action>, x: string)
    requires var s := Run(capacity, workers, acts); Quiet(s) && x in s.counts
    ensures var s := Run(capacity, workers, acts);
            && Tallied(Processed(x), s.finished) <= |DocumentsOf(s, x)| <= Tallied(Signals(x), s.finished)
            && Tallied(Processed(x), s.finished) <= s.counts[x] - 1 <= 3 * Tallied(Signals(x), s.finished)
            && |s.finished| == s.processed + s.errors && Good(s.finished) == s.processed
  {
    var s := Run(capacity, workers, acts);
    RunsBalance(capacity, workers, acts, x);
    RunsConserve(capacity, workers, acts);
    SumZero(Documents(x), s.taken, s.workers);
    SumZero(Increments(x), s.taken, s.workers);
    TallyBounds(s.finished, x);
  }

  // --- The same over all work items ----------------------------------------------------------------------

  /** What is kept per work item: its finished signals, those of them counted as processed, its
      documents, and its count beyond the creating 1. */
  datatype Column = Ended | Succeeded | Stored | Surplus

  function Cell(s: State, c: Column, x: string): nat {
    match c
    case Ended => Tallied(Signals(x), s.finished)
    case Succeeded => Tallied(Processed(x), s.finished)
    case Stored => |DocumentsOf(s, x)|
    case Surplus => if x in s.counts && s.counts[x] > 0 then s.counts[x] - 1 else 0
  }

  ghost function Total(s: State, c: Column, xs: set<string>): nat {
    if xs == {} then 0 else
      var x :| x in xs;
      Cell(s, c, x) + Total(s, c, xs - {x})
  }

  /** The order of adding up does not matter. */
  lemma {:induction false} TotalAt(s: State, c: Column, xs: set<string>, x: string)
    requires x in xs
    ensures Total(s, c, xs) == Cell(s, c, x) + Total(s, c, xs - {x})
  {
    var y :| y in xs && Total(s, c, xs) == Cell(s, c, y) + Total(s, c, xs - {y});
    if y != x {
      TotalAt(s, c, xs - {y}, x);
      TotalAt(s, c, xs - {x}, y);
      assert xs - {y} - {x} == xs - {x} - {y};
    }
  }

  predicate CellsBounded(s: State, x: string) {
    && Cell(s, Succeeded, x) <= Cell(s, Stored, x) <= Cell(s, Ended, x)
    && Cell(s, Succeeded, x) <= Cell(s, Surplus, x) <= MAX_ATTEMPTS * Cell(s, Ended, x)
  }

  lemma {:induction false} TotalsBounded(s: State, xs: set<string>)
    requires forall x :: x in xs ==> CellsBounded(s, x)
    ensures Total(s, Succeeded, xs) <= Total(s, Stored, xs) <= Total(s, Ended, xs)
    ensures Total(s, Succeeded, xs) <= Total(s, Surplus, xs) <= MAX_ATTEMPTS * Total(s, Ended, xs)
  {
    if xs != {} {
      var x :| x in xs;
      TotalsBounded(s, xs - {x});
      assert CellsBounded(s, x);
      TotalAt(s, Ended, xs, x);
      TotalAt(s, Succeeded, xs, x);
      TotalAt(s, Stored, xs, x);
      TotalAt(s, Surplus, xs, x);
    }
  }

  /** One outcome more adds its score to the item it belongs to. */
  lemma {:induction false} TotalGrows(s: State, t: State, c: Column, xs: set<string>, o: Outcome)
    requires (c == Ended || c == Succeeded) && t.finished == s.finished + [o]
    ensures Total(t, c, xs) == Total(s, c, xs)
         + if o.signal.workItemID in xs && (c == Ended || o.processed) then 1 else 0
  {
    if xs != {} {
      var x :| x in xs;
      TotalGrows(s, t, c, xs - {x}, o);
      TotalAt(s, c, xs, x);
      TotalAt(t, c, xs, x);
      TallyAppend(Signals(x), s.finished, o);
      TallyAppend(Processed(x), s.finished, o);
    }
  }

  lemma {:induction false} TotalNothing(s: State, c: Column, xs: set<string>)
    requires (c == Ended || c == Succeeded) && s.finished == []
    ensures Total(s, c, xs) == 0
  {
    if xs != {} {
      var x :| x in xs;
      TotalNothing(s, c, xs - {x});
      TotalAt(s, c, xs, x);
    }
  }

  /** Over the items they are linked to, the finished signals and the processed ones add up. */
  lemma {:induction false} FinishedTotals(s: State, xs: set<string>)
    requires forall o :: 0 <= o < |s.finished| ==> s.finished[o].signal.workItemID in xs
    ensures Total(s, Ended, xs) == |s.finished| && Total(s, Succeeded, xs) == Good(s.finished)
    decreases |s.finished|
  {
    if s.finished == [] {
      TotalNothing(s, Ended, xs);
      TotalNothing(s, Succeeded, xs);
    } else {
      var n := |s.finished| - 1;
      var before := s.(finished := s.finished[..n]);
      FinishedTotals(before, xs);
      TotalGrows(before, s, Ended, xs, s.finished[n]);
      TotalGrows(before, s, Succeeded, xs, s.finished[n]);
    }
  }

  function DocumentsIn(s: State, xs: set<string>): set<string> {
    set d | d in s.documents && s.documents[d].workItemID in xs
  }

  lemma {:induction false} StoredTotal(s: State, xs: set<string>)
    ensures Total(s, Stored, xs) == |DocumentsIn(s, xs)|
  {
    if xs == {} {
      assert DocumentsIn(s, xs) == {};
    } else {
      var x :| x in xs;
      StoredTotal(s, xs - {x});
      TotalAt(s, Stored, xs, x);
      assert DocumentsIn(s, xs) == DocumentsOf(s, x) + DocumentsIn(s, xs - {x});
    }
  }

  ghost predicate DocumentsLinked(s: State) {
    forall d :: d in s.documents ==> s.documents[d].workItemID in s.counts
  }

  lemma StepDocumentsLinked(s: State, a: Action)
    requires Linked(s) && DocumentsLinked(s)
    ensures DocumentsLinked(Apply(s, a))
  {
    var t := Apply(s, a);
    StepFrame(s, a);
    if a.TryMongo? && Enabled(s, a) {
      assert Held(s, a.w).workItemID in s.counts;
    } else {
      assert t.documents == s.documents;
    }
  }

  lemma {:induction false} RunsDocumentsLinked(capacity: nat, workers: nat, acts: seq<Action>)
    ensures DocumentsLinked(Run(capacity, workers, acts))
  {
    if acts != [] {
      RunsDocumentsLinked(capacity, workers, acts[..|acts| - 1]);
      RunsBalance(capacity, workers, acts[..|acts| - 1], "");
      StepDocumentsLinked(Run(capacity, workers, acts[..|acts| - 1]), acts[|acts| - 1]);
    }
  }

  lemma CellBounded(capacity: nat, workers: nat, acts: seq<Action>, x: string)
    requires Quiet(Run(capacity, workers, acts)) && x in Run(capacity, workers, acts).counts
    ensures CellsBounded(Run(capacity, workers, acts), x)
  {
    AtLeastOnce(capacity, workers, acts, x);
  }

  /** Bounds that hold item by item, over all of them. */
  lemma OverallBounded(s: State)
    requires Linked(s) && DocumentsLinked(s) && forall x :: x in s.counts.Keys ==> CellsBounded(s, x)
    ensures Good(s.finished) <= |s.documents| <= |s.finished|
    ensures Good(s.finished) <= Total(s, Surplus, s.counts.Keys) <= MAX_ATTEMPTS * |s.finished|
  {
    TotalsBounded(s, s.counts.Keys);
    FinishedTotals(s, s.counts.Keys);
    StoredTotal(s, s.counts.Keys);
    assert DocumentsIn(s, s.counts.Keys) == s.documents.Keys;
  }

  /** Over all work items: the signals counted as processed <= the documents stored <= the signals
      counted at all, and the counts beyond the creating 1 are at least those processed and at most
      three times those counted at all. */
  lemma AtLeastOnceOverall(capacity: nat, workers: nat, acts: seq<Action>)
    requires Quiet(Run(capacity, workers, acts))
    ensures var s := Run(capacity, workers, acts);
            && s.processed <= |s.documents| <= s.processed + s.errors
            && s.processed <= Total(s, Surplus, s.counts.Keys) <= 3 * (s.processed + s.errors)
  {
    var s := Run(capacity, workers, acts);
    forall x | x in s.counts.Keys ensures CellsBounded(s, x) { CellBounded(capacity, workers, acts, x); }
    RunsDocumentsLinked(capacity, workers, acts);
    RunsBalance(capacity, workers, acts, "");
    OverallBounded(s);
    RunsConserve(capacity, workers, acts);
  }

  // --- Exact accounting when nothing fails ---------------------------------------------------------------

  predicate Flawless(a: Action) {
    match a
    case TryMongo(_, reply, _) => reply == Ack
    case TryPostgres(_, reply, _) => reply == Ack
    case _ => true
  }

  predicate AllFlawless(acts: seq<Action>) { forall n :: 0 <= n < |acts| ==> Flawless(acts[n]) }

  /** No two signals share an id, and one not yet sent has not been sent before. */
  ghost predicate IdsDistinct(s: State) {
    && (forall i, j :: 0 <= i < j < |s.sent| ==> s.sent[i].id != s.sent[j].id)
    && (forall i, j :: 0 <= i < j < |s.producers| ==> s.producers[i].signal.id != s.producers[j].signal.id)
    && (forall p, k :: 0 <= p < |s.producers| && s.producers[p].stage == Selecting && 0 <= k < |s.sent| ==>
          s.sent[k].id != s.producers[p].signal.id)
  }

  ghost predicate SlotsDistinct(s: State) {
    forall v, w :: 0 <= v < |s.workers| && 0 <= w < |s.workers| && v != w && s.workers[v].Busy? && s.workers[w].Busy? ==>
      s.workers[v].slot != s.workers[w].slot
  }

  /** In hand, and its insert still to be made. */
  predicate Uninserted(s: State, w: nat) { IsBusy(s, w) && !s.workers[w].mongo.done }

  /** Ids not yet inserted: before the channel, in the channel, and in hand before their insert. */
  ghost predicate Unwritten(s: State) {
    && (forall p :: 0 <= p < |s.producers| && s.producers[p].stage == Selecting ==>
          s.producers[p].signal.id !in s.documents)
    && (forall i :: 0 <= i < |s.channel| ==> s.channel[i].id !in s.documents)
    && (forall w :: 0 <= w < |s.workers| && Uninserted(s, w) ==> Held(s, w).id !in s.documents)
  }

  lemma ProduceIdsDistinct(s: State, g: Signal)
    requires IdsDistinct(s) && Admissible(s, g)
    ensures IdsDistinct(s.(producers := s.producers + [Producer(g, Selecting)]))
  {
  }

  lemma SelectIdsDistinct(s: State, p: nat)
    requires IdsDistinct(s) && p < |s.producers|
    ensures IdsDistinct(StepProducer(s, p))
  {
  }

  lemma StepIdsDistinct(s: State, a: Action)
    requires IdsDistinct(s)
    ensures IdsDistinct(Apply(s, a))
  {
    if Enabled(s, a) && a.Produce? {
      ProduceIdsDistinct(s, a.signal);
    } else if Enabled(s, a) && a.ProducerStep? {
      SelectIdsDistinct(s, a.p);
    } else {
      assert Apply(s, a).sent == s.sent && Apply(s, a).producers == s.producers;
    }
  }

  lemma StepSlotsDistinct(s: State, a: Action)
    requires Conserved(s) && SlotsDistinct(s)
    ensures SlotsDistinct(Apply(s, a))
  {
  }

  lemma SlotsApart(s: State, v: nat, w: nat)
    requires Conserved(s) && IdsDistinct(s) && SlotsDistinct(s) && v != w && IsBusy(s, v) && IsBusy(s, w)
    ensures Held(s, v).id != Held(s, w).id
  {
    var i, j := s.workers[v].slot, s.workers[w].slot;
    assert s.sent[i] == s.taken[i] && s.sent[j] == s.taken[j];
    assert i != j;
  }

  lemma ChannelApart(s: State, w: nat, i: nat)
    requires Conserved(s) && IdsDistinct(s) && IsBusy(s, w) && i < |s.channel|
    ensures Held(s, w).id != s.channel[i].id
  {
    assert s.sent[s.workers[w].slot] == s.taken[s.workers[w].slot];
    assert s.sent[|s.taken| + i] == s.channel[i];
  }

  lemma ProducerApart(s: State, w: nat, p: nat)
    requires Conserved(s) && IdsDistinct(s) && IsBusy(s, w) && p < |s.producers| && s.producers[p].stage == Selecting
    ensures Held(s, w).id != s.producers[p].signal.id
  {
    assert s.sent[s.workers[w].slot] == s.taken[s.workers[w].slot];
  }

  lemma InsertKeepsUnwritten(s: State, a: Action)
    requires a.TryMongo? && Flawless(a) && Enabled(s, a)
    requires Conserved(s) && IdsDistinct(s) && SlotsDistinct(s) && Unwritten(s)
    ensures Unwritten(Apply(s, a))
  {
    var t := Apply(s, a);
    assert Uninserted(s, a.w);
    forall p | 0 <= p < |t.producers| && t.producers[p].stage == Selecting
      ensures t.producers[p].signal.id !in t.documents { ProducerApart(s, a.w, p); }
    forall i | 0 <= i < |t.channel| ensures t.channel[i].id !in t.documents { ChannelApart(s, a.w, i); }
    forall w | 0 <= w < |t.workers| && Uninserted(t, w) ensures Held(t, w).id !in t.documents {
      if w != a.w {
        SlotsApart(s, a.w, w);
        assert Uninserted(s, w);
      }
    }
  }

  lemma MoveKeepsQueued(s: State, a: Action)
    requires !a.TryMongo? && Unwritten(s)
    ensures var t := Apply(s, a);
            && t.documents == s.documents
            && (forall p :: 0 <= p < |t.producers| && t.producers[p].stage == Selecting ==>
                  t.producers[p].signal.id !in t.documents)
            && (forall i :: 0 <= i < |t.channel| ==> t.channel[i].id !in t.documents)
  {
    if a.ProducerStep? || a.Produce? || a.Receive? {
    } else {
      assert Apply(s, a).producers == s.producers && Apply(s, a).channel == s.channel;
    }
  }

  lemma ReceiveKeepsHeld(s: State, r: nat, w: nat)
    requires Conserved(s) && Unwritten(s) && Enabled(s, Receive(r)) && Uninserted(Apply(s, Receive(r)), w)
    ensures Held(Apply(s, Receive(r)), w).id !in s.documents
  {
    var t := Apply(s, Receive(r));
    if w == r {
      assert Held(t, w) == s.channel[0];
    } else {
      assert t.workers[w] == s.workers[w] && Uninserted(s, w) && Held(t, w) == Held(s, w);
    }
  }

  lemma MovedWorker(s: State, a: Action)
    requires OfWorker(a) && !a.TryMongo? && !a.Receive? && Enabled(s, a)
    ensures var t := Apply(s, a); var k, l := s.workers[a.w], t.workers[a.w];
            && t.taken == s.taken && t.workers == s.workers[a.w := l]
            && (l.Busy? ==> k.Busy? && l.slot == k.slot && l.mongo == k.mongo)
  {
  }

  lemma UnmovedWorkers(s: State, a: Action)
    requires !OfWorker(a) || !Enabled(s, a)
    ensures Apply(s, a).taken == s.taken && Apply(s, a).workers == s.workers
  {
  }

  lemma MoveKeepsHeld(s: State, a: Action, w: nat)
    requires !a.TryMongo? && !a.Receive? && Uninserted(Apply(s, a), w)
    ensures Uninserted(s, w) && Held(Apply(s, a), w) == Held(s, w)
  {
    if OfWorker(a) && Enabled(s, a) { MovedWorker(s, a); } else { UnmovedWorkers(s, a); }
  }

  lemma MoveKeepsUnwritten(s: State, a: Action)
    requires !a.TryMongo? && Conserved(s) && Unwritten(s)
    ensures Unwritten(Apply(s, a))
  {
    var t := Apply(s, a);
    MoveKeepsQueued(s, a);
    forall w | 0 <= w < |t.workers| && Uninserted(t, w) ensures Held(t, w).id !in t.documents {
      if !a.Receive? {
        MoveKeepsHeld(s, a, w);
      } else if Enabled(s, a) {
        ReceiveKeepsHeld(s, a.w, w);
      }
    }
  }

  predicate CleanWrite(r: Write) { r == UNTRIED || r == Write(1, 1, true, true) }

  predicate CleanWorker(k: Worker) { k.Busy? ==> CleanWrite(k.mongo) && CleanWrite(k.pg) }

  predicate CleanOutcome(o: Outcome) { o.processed && o.documents == 1 && o.increments == 1 }

  /** Every write so far applied once and was acknowledged. */
  ghost predicate Clean(s: State) {
    && (forall w :: 0 <= w < |s.workers| ==> CleanWorker(s.workers[w]))
    && (forall o :: 0 <= o < |s.finished| ==> CleanOutcome(s.finished[o]))
  }

  lemma MovedClean(s: State, a: Action)
    requires Flawless(a) && Linked(s) && Unwritten(s) && OfWorker(a) && Enabled(s, a) && CleanWorker(s.workers[a.w])
    ensures CleanWorker(Apply(s, a).workers[a.w])
  {
    match a {
      case TryMongo(_, _, _) => assert Uninserted(s, a.w);
      case TryPostgres(_, _, _) => assert Held(s, a.w).workItemID in s.counts;
      case _ =>
    }
  }

  lemma FinishedClean(s: State, a: Action)
    requires Clean(s)
    ensures forall o :: 0 <= o < |Apply(s, a).finished| ==> CleanOutcome(Apply(s, a).finished[o])
  {
    if a.Finish? && Enabled(s, a) { assert CleanWorker(s.workers[a.w]); }
  }

  lemma StepClean(s: State, a: Action)
    requires Flawless(a) && Linked(s) && Unwritten(s) && Clean(s)
    ensures Clean(Apply(s, a))
  {
    var t := Apply(s, a);
    StepFrame(s, a);
    FinishedClean(s, a);
    forall w | 0 <= w < |t.workers| ensures CleanWorker(t.workers[w]) {
      assert CleanWorker(s.workers[w]);
      if OfWorker(a) && Enabled(s, a) && a.w == w { MovedClean(s, a); }
    }
  }

  ghost predicate Exact(s: State) {
    Conserved(s) && Sane(s) && IdsDistinct(s) && SlotsDistinct(s) && Unwritten(s) && Clean(s)
  }

  lemma {:induction false} FlawlessRuns(capacity: nat, workers: nat, acts: seq<Action>)
    requires AllFlawless(acts)
    ensures Exact(Run(capacity, workers, acts))
  {
    RunsConserve(capacity, workers, acts);
    if acts != [] {
      var s, a := Run(capacity, workers, acts[..|acts| - 1]), acts[|acts| - 1];
      FlawlessRuns(capacity, workers, acts[..|acts| - 1]);
      StepSane(s, a);
      StepIdsDistinct(s, a);
      StepSlotsDistinct(s, a);
      if a.TryMongo? && Enabled(s, a) { InsertKeepsUnwritten(s, a); }
      if !a.TryMongo? { MoveKeepsUnwritten(s, a); }
      StepClean(s, a);
    }
  }

  lemma {:induction false} CleanTallies(f: seq<Outcome>, x: string)
    requires forall o :: 0 <= o < |f| ==> CleanOutcome(f[o])
    ensures Tallied(Docs(x), f) == Tallied(Incs(x), f) == Tallied(Signals(x), f)
    ensures Good(f) == |f|
  {
    if f != [] { CleanTallies(f[..|f| - 1], x); }
  }

  /** When every write succeeds the first time, an item's count is 1 for its creation plus its
      documents, which are its finished signals, and no signal is counted as an error. */
  lemma ExactWhenFlawless(capacity: nat, workers: nat, acts: seq<Action>, x: string)
    requires AllFlawless(acts) && Quiet(Run(capacity, workers, acts)) && x in Run(capacity, workers, acts).counts
    ensures var s := Run(capacity, workers, acts);
            && s.counts[x] == 1 + |DocumentsOf(s, x)| && |DocumentsOf(s, x)| == Tallied(Signals(x), s.finished)
            && s.errors == 0 && s.processed == |s.finished| == |s.taken|
  {
    var s := Run(capacity, workers, acts);
    FlawlessRuns(capacity, workers, acts);
    RunsBalance(capacity, workers, acts, x);
    SumZero(Documents(x), s.taken, s.workers);
    SumZero(Increments(x), s.taken, s.workers);
    SumZero(Hands, s.taken, s.workers);
    CleanTallies(s.finished, x);
  }

  // --- Shutdown ------------------------------------------------------------------------------------------

  /** Steps the workers can still take: each queued signal is worth one stay in a worker's hands. */
  function Remaining(s: State): nat { 9 * |s.channel| + Sum(Work, s.taken, s.workers) }

  lemma {:induction false} WorkAnyTaken(a: seq<Signal>, b: seq<Signal>, ws: seq<Worker>)
    ensures Sum(Work, a, ws) == Sum(Work, b, ws)
  {
    if ws != [] { WorkAnyTaken(a, b, ws[..|ws| - 1]); }
  }

  /** Every step of a worker brings the end nearer. */
  lemma WorkerStepDecreases(s: State, a: Action)
    requires Sane(s) && OfWorker(a) && Enabled(s, a)
    ensures Remaining(Apply(s, a)) < Remaining(s)
  {
    var t := Apply(s, a);
    assert t.workers == s.workers[a.w := t.workers[a.w]];
    assert GoodWrites(s, s.workers[a.w]);
    SumUpdate(Work, s.taken, s.workers, a.w, t.workers[a.w]);
    WorkAnyTaken(t.taken, s.taken, t.workers);
  }

  /** A step that takes a live worker towards its exit without taking another signal. */
  function ExitStep(k: Worker, w: nat): Action {
    match k
    case Busy(_, m, p, t) =>
      if !m.done then TryMongo(w, Failure, true)
      else if !p.done then TryPostgres(w, Failure, true)
      else if !t then Timeseries(w)
      else Finish(w)
    case _ => Stop(w)
  }

  /** After cancellation a worker that has not exited always has a step to take. */
  lemma WorkersNeverStuck(s: State, w: nat)
    requires Sane(s) && s.cancelled && w < |s.workers| && s.workers[w] != Exited
    ensures OfWorker(ExitStep(s.workers[w], w)) && Enabled(s, ExitStep(s.workers[w], w))
  {
    assert GoodWrites(s, s.workers[w]);
  }

  /** A schedule of workers alone, none of whose steps is empty. */
  predicate WorkersOnly(s: State, acts: seq<Action>) {
    forall n :: 0 <= n < |acts| ==> OfWorker(acts[n]) && Enabled(RunFrom(s, acts[..n]), acts[n])
  }

  predicate AllExited(s: State) { forall w :: 0 <= w < |s.workers| ==> s.workers[w] == Exited }

  /** What a schedule of workers keeps, and the steps it uses up. */
  ghost predicate Shrunk(s: State, t: State, steps: nat) {
    && steps + Remaining(t) <= Remaining(s)
    && Sane(t) && Conserved(t) && t.cancelled == s.cancelled
  }

  lemma ShrinkStep(s: State, t: State, steps: nat, a: Action)
    requires Shrunk(s, t, steps) && OfWorker(a) && Enabled(t, a)
    ensures Shrunk(s, Apply(t, a), steps + 1)
  {
    WorkerStepDecreases(t, a);
    StepSane(t, a);
    StepConserves(t, a);
  }

  lemma {:induction false} WorkersOnlyShrinks(s: State, acts: seq<Action>)
    requires Sane(s) && Conserved(s) && WorkersOnly(s, acts)
    ensures Shrunk(s, RunFrom(s, acts), |acts|)
  {
    if acts != [] {
      var n := |acts| - 1;
      WorkersOnlyPrefix(s, acts);
      WorkersOnlyShrinks(s, acts[..n]);
      ShrinkStep(s, RunFrom(s, acts[..n]), n, acts[n]);
    }
  }

  lemma WorkersOnlyPrefix(s: State, acts: seq<Action>)
    requires acts != [] && WorkersOnly(s, acts)
    ensures WorkersOnly(s, acts[..|acts| - 1])
  {
    var pre := acts[..|acts| - 1];
    assert forall n :: 0 <= n < |pre| ==> pre[..n] == acts[..n] && pre[n] == acts[n];
  }

  lemma StuckIffAllExited(s: State)
    requires Sane(s) && s.cancelled
    ensures (forall a :: OfWorker(a) ==> !Enabled(s, a)) <==> AllExited(s)
  {
    if !AllExited(s) {
      var w: nat :| w < |s.workers| && s.workers[w] != Exited;
      WorkersNeverStuck(s, w);
    } else {
      forall a | OfWorker(a) ensures !Enabled(s, a) { NothingLeft(s, a); }
    }
  }

  lemma NothingLeft(s: State, a: Action)
    requires AllExited(s) && OfWorker(a)
    ensures !Enabled(s, a)
  {
  }

  /** Shutdown ends: once cancelled and with producers stopped, no schedule of the workers has more
      than `Remaining` steps, and one that cannot go on has all workers gone; every signal sent was
      then processed, failed, or is still in the channel. */
  lemma ShutdownTerminates(capacity: nat, workers: nat, acts: seq<Action>, last: seq<Action>)
    requires Run(capacity, workers, acts).cancelled && WorkersOnly(Run(capacity, workers, acts), last)
    ensures |last| <= Remaining(Run(capacity, workers, acts))
    ensures var t := RunFrom(Run(capacity, workers, acts), last);
            && ((forall a :: OfWorker(a) ==> !Enabled(t, a)) <==> AllExited(t))
            && (AllExited(t) ==> |t.sent| == t.processed + t.errors + |t.channel|)
  {
    RunsBalance(capacity, workers, acts, "");
    RunsConserve(capacity, workers, acts);
    WorkersOnlyShrinks(Run(capacity, workers, acts), last);
    var t := RunFrom(Run(capacity, workers, acts), last);
    StuckIffAllExited(t);
    if AllExited(t) { SumZero(Hands, t.taken, t.workers); }
  }

  // --- When the queue is drained -------------------------------------------------------------------------

  /** However the workers wind down, none of them leaves a signal queued. */
  ghost predicate AlwaysDrains(s: State) {
    forall last: seq<Action> :: WorkersOnly(s, last) && AllExited(RunFrom(s, last)) ==> RunFrom(s, last).channel == []
  }

  /** A worker puts nothing on the channel, and takes from it only by receiving. */
  lemma WorkerKeepsChannel(s: State, a: Action)
    requires OfWorker(a) && (a.Receive? ==> s.channel == [])
    ensures Apply(s, a).channel == s.channel
  {
  }

  lemma {:induction false} EmptyStaysEmpty(s: State, last: seq<Action>)
    requires s.channel == [] && WorkersOnly(s, last)
    ensures RunFrom(s, last).channel == []
  {
    if last != [] {
      var n := |last| - 1;
      WorkersOnlyPrefix(s, last);
      EmptyStaysEmpty(s, last[..n]);
      WorkerKeepsChannel(RunFrom(s, last[..n]), last[n]);
    }
  }

  lemma WorkersOnlyAppend(s: State, last: seq<Action>, a: Action)
    requires WorkersOnly(s, last) && OfWorker(a) && Enabled(RunFrom(s, last), a)
    ensures WorkersOnly(s, last + [a]) && RunFrom(s, last + [a]) == Apply(RunFrom(s, last), a)
  {
    var more := last + [a];
    assert more[..|last|] == last;
    assert forall n :: 0 <= n < |last| ==> more[..n] == last[..n] && more[n] == last[n];
  }

  lemma TowardsExit(s: State, t: State, steps: nat, w: nat) returns (a: Action)
    requires Shrunk(s, t, steps) && t.cancelled && w < |t.workers| && t.workers[w] != Exited
    ensures OfWorker(a) && Enabled(t, a) && Shrunk(s, Apply(t, a), steps + 1)
    ensures Apply(t, a).channel == t.channel && Remaining(Apply(t, a)) < Remaining(t)
  {
    a := ExitStep(t.workers[w], w);
    WorkersNeverStuck(t, w);
    WorkerStepDecreases(t, a);
    ShrinkStep(s, t, steps, a);
    WorkerKeepsChannel(t, a);
  }

  /** The workers may all exit without taking another signal: each select may see the cancellation. */
  lemma WindDown(s: State) returns (last: seq<Action>)
    requires Sane(s) && Conserved(s) && s.cancelled
    ensures WorkersOnly(s, last) && AllExited(RunFrom(s, last)) && RunFrom(s, last).channel == s.channel
  {
    last := [];
    var t := s;
    while !AllExited(t)
      invariant t == RunFrom(s, last) && WorkersOnly(s, last) && Shrunk(s, t, |last|) && t.channel == s.channel
      decreases Remaining(t)
    {
      var w: nat :| w < |t.workers| && t.workers[w] != Exited;
      var a := TowardsExit(s, t, |last|, w);
      WorkersOnlyAppend(s, last, a);
      last, t := last + [a], Apply(t, a);
    }
  }

  /** Waiting for the workers drains the queue, whatever they do, exactly when it is empty already by
      the time they are cancelled and the producers have stopped. */
  lemma DrainsIff(capacity: nat, workers: nat, acts: seq<Action>)
    requires Run(capacity, workers, acts).cancelled
    ensures AlwaysDrains(Run(capacity, workers, acts)) <==> Run(capacity, workers, acts).channel == []
  {
    var s := Run(capacity, workers, acts);
    if s.channel == [] {
      forall last: seq<Action> | WorkersOnly(s, last) ensures RunFrom(s, last).channel == [] {
        EmptyStaysEmpty(s, last);
      }
    } else {
      RunsBalance(capacity, workers, acts, "");
      RunsConserve(capacity, workers, acts);
      var last := WindDown(s);
    }
  }

  lemma Then(capacity: nat, workers: nat, acts: seq<Action>, a: Action) returns (more: seq<Action>)
    ensures Run(capacity, workers, more) == Apply(Run(capacity, workers, acts), a)
  {
    more := acts + [a];
    assert more[..|more| - 1] == acts;
  }

  /** And it need not be empty: whatever the capacity and however many workers there are, a signal
      sent before the cancellation may be left behind for good. */
  lemma QueueMayNotDrain(capacity: nat, workers: nat) returns (acts: seq<Action>)
    requires capacity > 0
    ensures var s := Run(capacity, workers, acts); s.cancelled && AllExited(s) && s.channel != []
  {
    var g := Signal("s", "c", "w");
    acts := Then(capacity, workers, [], NewItem("w"));
    acts := Then(capacity, workers, acts, Produce(g));
    acts := Then(capacity, workers, acts, ProducerStep(0));
    acts := Then(capacity, workers, acts, Cancel);
    var n := 0;
    while n < workers
      invariant 0 <= n <= workers
      invariant var s := Run(capacity, workers, acts);
        && s.cancelled && s.channel == [g] && |s.workers| == workers
        && (forall w :: 0 <= w < n ==> s.workers[w] == Exited)
        && (forall w :: n <= w < workers ==> s.workers[w] == Waiting)
    {
      acts := Then(capacity, workers, acts, Stop(n));
      n := n + 1;
    }
  }
}
