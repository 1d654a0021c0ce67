/** The bounded queue and its worker pool, one goroutine step at a time: producers send and count,
    workers take, write to both databases with retries, and count; shutdown cancels them. */
module PoolRaces {
  import opened Models
  import opened Retries

  /** A call of TryEnqueue: before its select, then before the counter of the branch it took. */
  datatype ProducerStage = Selecting | Sent | Refused | Counted

  datatype Producer = Producer(signal: Signal, stage: ProducerStage)

  /** One retrying write: attempts made, times it took effect, and its end. */
  datatype Write = Write(attempts: nat, applied: nat, done: bool, ok: bool)

  const UNTRIED := Write(0, 0, false, false)

  datatype Worker =
    | Waiting
    | Busy(slot: nat, mongo: Write, pg: Write, timeseriesDone: bool) // `slot`: which taken signal
    | Exited

  /** A signal done with: whether it was counted as processed, and what its writes left. */
  datatype Outcome = Outcome(signal: Signal, processed: bool, documents: nat, increments: nat)

  datatype State = State(
    capacity: nat,
    channel: seq<Signal>,
    producers: seq<Producer>,
    enqueued: nat,
    dropped: nat,
    workers: seq<Worker>,
    processed: nat,
    errors: nat,
    documents: map<string, Signal>,
    counts: map<string, nat>,         // signal_count by work item
    cancelled: bool,
    // history
    sent: seq<Signal>,
    taken: seq<Signal>,
    finished: seq<Outcome>)

  datatype Action =
    | NewItem(id: string)
    | Produce(signal: Signal)
    | ProducerStep(p: nat)
    | Cancel
    | Stop(w: nat)
    | Receive(w: nat)
    | TryMongo(w: nat, reply: Reply, giveUp: bool) // giveUp: the context is done after this attempt
    | TryPostgres(w: nat, reply: Reply, giveUp: bool)
    | Timeseries(w: nat)
    | Finish(w: nat)

  function Initial(capacity: nat, workers: nat): State {
    State(capacity, [], [], 0, 0, seq(workers, _ => Waiting), 0, 0, map[], map[], false, [], [], [])
  }

  predicate IsBusy(s: State, w: nat) { w < |s.workers| && s.workers[w].Busy? && s.workers[w].slot < |s.taken| }

  function Held(s: State, w: nat): Signal
    requires IsBusy(s, w)
  {
    s.taken[s.workers[w].slot]
  }

  function SetWorker(s: State, w: nat, k: Worker): State
    requires w < |s.workers|
  {
    s.(workers := s.workers[w := k])
  }

  function Tried(r: Write, reply: Reply, applies: bool, giveUp: bool): Write {
    Write(r.attempts + 1,
          r.applied + (if applies then 1 else 0),
          reply == Ack || giveUp || r.attempts + 1 >= MAX_ATTEMPTS,
          reply == Ack)
  }

  /** Ids are fresh UUIDs, and the debouncer linked the signal to an inserted work item. */
  predicate Admissible(s: State, g: Signal) {
    && g.workItemID in s.counts
    && (forall p :: 0 <= p < |s.producers| ==> s.producers[p].signal.id != g.id)
    && (forall k :: 0 <= k < |s.sent| ==> s.sent[k].id != g.id)
    && g.id !in s.documents
  }

  /** An action does something here. */
  predicate Enabled(s: State, a: Action) {
    match a
    case NewItem(id) => id !in s.counts
    case Produce(g) => Admissible(s, g)
    case ProducerStep(p) => p < |s.producers| && s.producers[p].stage != Counted
    case Cancel => !s.cancelled
    case Stop(w) => w < |s.workers| && s.workers[w] == Waiting && s.cancelled
    case Receive(w) => w < |s.workers| && s.workers[w] == Waiting && s.channel != []
    case TryMongo(w, _, _) => IsBusy(s, w) && !s.workers[w].mongo.done
    case TryPostgres(w, _, _) => IsBusy(s, w) && !s.workers[w].pg.done
    case Timeseries(w) => IsBusy(s, w) && !s.workers[w].timeseriesDone
    case Finish(w) => IsBusy(s, w) && Over(s.workers[w])
  }

  predicate Over(k: Worker)
    requires k.Busy?
  {
    k.mongo.done && k.pg.done && k.timeseriesDone
  }

  function StepProducer(s: State, p: nat): State
    requires p < |s.producers|
  {
    var q := s.producers[p];
    match q.stage
    case Selecting =>
      if |s.channel| < s.capacity
      then s.(channel := s.channel + [q.signal], sent := s.sent + [q.signal],
              producers := s.producers[p := q.(stage := Sent)])
      else s.(producers := s.producers[p := q.(stage := Refused)])
    case Sent => s.(enqueued := s.enqueued + 1, producers := s.producers[p := q.(stage := Counted)])
    case Refused => s.(dropped := s.dropped + 1, producers := s.producers[p := q.(stage := Counted)])
    case Counted => s
  }

  function FinishWorker(s: State, w: nat): State
    requires IsBusy(s, w)
  {
    var k := s.workers[w];
    var good := k.mongo.ok && k.pg.ok;
    SetWorker(s, w, Waiting).(
      processed := s.processed + (if good then 1 else 0),
      errors := s.errors + (if good then 0 else 1),
      finished := s.finished + [Outcome(Held(s, w), good, k.mongo.applied, k.pg.applied)])
  }

  function Apply(s: State, a: Action): State {
    if !Enabled(s, a) then s else
      match a
      case NewItem(id) => s.(counts := s.counts[id := 1])
      case Produce(g) => s.(producers := s.producers + [Producer(g, Selecting)])
      case ProducerStep(p) => StepProducer(s, p)
      case Cancel => s.(cancelled := true)
      case Stop(w) => SetWorker(s, w, Exited)
      case Receive(w) =>
        SetWorker(s, w, Busy(|s.taken|, UNTRIED, UNTRIED, false)).(
          channel := s.channel[1..], taken := s.taken + [s.channel[0]])
      case TryMongo(w, reply, giveUp) =>
        var g, k := Held(s, w), s.workers[w];
        var effect := if g.id in s.documents then Failure else reply;
        SetWorker(s, w, k.(mongo := Tried(k.mongo, effect, effect != Failure, giveUp))).(
          documents := if effect == Failure then s.documents else s.documents[g.id := g])
      case TryPostgres(w, reply, giveUp) =>
        var g, k := Held(s, w), s.workers[w];
        var applies := reply != Failure && g.workItemID in s.counts;
        SetWorker(s, w, k.(pg := Tried(k.pg, reply, applies, giveUp))).(
          counts := if applies then s.counts[g.workItemID := s.counts[g.workItemID] + 1] else s.counts)
      case Timeseries(w) => SetWorker(s, w, s.workers[w].(timeseriesDone := true))
      case Finish(w) => FinishWorker(s, w)
  }

  function RunFrom(s: State, acts: seq<Action>): State {
    if acts == [] then s else Apply(RunFrom(s, acts[..|acts| - 1]), acts[|acts| - 1])
  }

  lemma {:induction false} RunFromConcat(s: State, a: seq<Action>, b: seq<Action>)
    ensures RunFrom(s, a + b) == RunFrom(RunFrom(s, a), b)
  {
    if b == [] {
      assert a + b == a;
    } else {
      RunFromConcat(s, a, b[..|b| - 1]);
      assert (a + b)[..|a + b| - 1] == a + b[..|b| - 1];
    }
  }

  lemma RunFromOne(s: State, a: Action)
    ensures RunFrom(s, [a]) == Apply(s, a)
  {
    assert [a][..0] == [] && RunFrom(s, []) == s;
  }

  function Run(capacity: nat, workers: nat, acts: seq<Action>): State { RunFrom(Initial(capacity, workers), acts) }

  // --- Sums over workers, producers and finished signals ---------------------------------------------

  /** What is added up over the workers: those busy, what their writes did for one work item, and
      the steps they still have to take. */
  datatype Gauge = Hands | Documents(item: string) | Increments(item: string) | Work

  function Left(r: Write): nat { if r.done || r.attempts >= MAX_ATTEMPTS then 0 else MAX_ATTEMPTS - r.attempts }

  function Reading(g: Gauge, taken: seq<Signal>, k: Worker): nat {
    match g
    case Hands => if k.Busy? then 1 else 0
    case Documents(x) => if k.Busy? && k.slot < |taken| && taken[k.slot].workItemID == x then k.mongo.applied else 0
    case Increments(x) => if k.Busy? && k.slot < |taken| && taken[k.slot].workItemID == x then k.pg.applied else 0
    case Work =>
      match k
      case Waiting => 1
      case Busy(_, m, p, t) => 2 + Left(m) + Left(p) + (if t then 0 else 1)
      case Exited => 0
  }

  function Sum(g: Gauge, taken: seq<Signal>, ws: seq<Worker>): nat {
    if ws == [] then 0 else Sum(g, taken, ws[..|ws| - 1]) + Reading(g, taken, ws[|ws| - 1])
  }

  lemma {:induction false} SumUpdate(g: Gauge, taken: seq<Signal>, ws: seq<Worker>, w: nat, k: Worker)
    requires w < |ws|
    ensures Sum(g, taken, ws[w := k]) + Reading(g, taken, ws[w]) == Sum(g, taken, ws) + Reading(g, taken, k)
  {
    var n := |ws| - 1;
    var vs := ws[w := k];
    if w == n {
      assert vs[..n] == ws[..n];
    } else {
      assert vs[..n] == ws[..n][w := k];
      SumUpdate(g, taken, ws[..n], w, k);
    }
  }

  lemma {:induction false} SumTaken(g: Gauge, taken: seq<Signal>, x: Signal, ws: seq<Worker>)
    requires forall w :: 0 <= w < |ws| && ws[w].Busy? ==> ws[w].slot < |taken|
    ensures Sum(g, taken + [x], ws) == Sum(g, taken, ws)
  {
    if ws != [] { SumTaken(g, taken, x, ws[..|ws| - 1]); }
  }

  lemma {:induction false} SumZero(g: Gauge, taken: seq<Signal>, ws: seq<Worker>)
    requires !g.Work? && forall w :: 0 <= w < |ws| ==> !ws[w].Busy?
    ensures Sum(g, taken, ws) == 0
  {
    if ws != [] { SumZero(g, taken, ws[..|ws| - 1]); }
  }

  function At(ps: seq<Producer>, stage: ProducerStage): nat {
    if ps == [] then 0 else At(ps[..|ps| - 1], stage) + if ps[|ps| - 1].stage == stage then 1 else 0
  }

  lemma {:induction false} AtUpdate(ps: seq<Producer>, stage: ProducerStage, p: nat, q: Producer)
    requires p < |ps|
    ensures At(ps[p := q], stage) + (if ps[p].stage == stage then 1 else 0)
         == At(ps, stage) + (if q.stage == stage then 1 else 0)
  {
    var n := |ps| - 1;
    var qs := ps[p := q];
    if p == n {
      assert qs[..n] == ps[..n];
    } else {
      assert qs[..n] == ps[..n][p := q];
      AtUpdate(ps[..n], stage, p, q);
    }
  }

  /** Of the finished signals: those of an item, those of them counted as processed, and what their
      writes left. */
  datatype Tally = Signals(item: string) | Processed(item: string) | Docs(item: string) | Incs(item: string)

  function Score(t: Tally, o: Outcome): nat {
    if o.signal.workItemID != t.item then 0 else
      match t
      case Signals(_) => 1
      case Processed(_) => if o.processed then 1 else 0
      case Docs(_) => o.documents
      case Incs(_) => o.increments
  }

  function Tallied(t: Tally, f: seq<Outcome>): nat {
    if f == [] then 0 else Tallied(t, f[..|f| - 1]) + Score(t, f[|f| - 1])
  }

  lemma TallyAppend(t: Tally, f: seq<Outcome>, o: Outcome)
    ensures Tallied(t, f + [o]) == Tallied(t, f) + Score(t, o)
  {
    assert (f + [o])[..|f|] == f;
  }

  function Good(f: seq<Outcome>): nat {
    if f == [] then 0 else Good(f[..|f| - 1]) + if f[|f| - 1].processed then 1 else 0
  }

  // --- Conservation ------------------------------------------------------------------------------------

  /** Nothing is lost between producers, channel, workers and counters. */
  ghost predicate Conserved(s: State) {
    && |s.channel| <= s.capacity
    && s.sent == s.taken + s.channel
    && |s.taken| == Sum(Hands, s.taken, s.workers) + s.processed + s.errors
    && |s.sent| == s.enqueued + At(s.producers, Sent)
    && |s.producers| == s.enqueued + s.dropped
                        + At(s.producers, Selecting) + At(s.producers, Sent) + At(s.producers, Refused)
    && |s.finished| == s.processed + s.errors && Good(s.finished) == s.processed
    && (forall w :: 0 <= w < |s.workers| && s.workers[w].Busy? ==> s.workers[w].slot < |s.taken|)
  }

  lemma StageCounts(s: State, p: nat)
    requires p < |s.producers| && s.producers[p].stage != Counted
    ensures var q := StepProducer(s, p).producers[p];
            && At(StepProducer(s, p).producers, Selecting)
                 == At(s.producers, Selecting) - (if s.producers[p].stage == Selecting then 1 else 0)
            && At(StepProducer(s, p).producers, Sent)
                 == At(s.producers, Sent) - (if s.producers[p].stage == Sent then 1 else 0) + (if q.stage == Sent then 1 else 0)
            && At(StepProducer(s, p).producers, Refused)
                 == At(s.producers, Refused) - (if s.producers[p].stage == Refused then 1 else 0)
                    + (if q.stage == Refused then 1 else 0)
  {
    var q := StepProducer(s, p).producers[p];
    AtUpdate(s.producers, Selecting, p, q);
    AtUpdate(s.producers, Sent, p, q);
    AtUpdate(s.producers, Refused, p, q);
  }

  lemma ProducerConserves(s: State, p: nat)
    requires Conserved(s) && p < |s.producers| && s.producers[p].stage != Counted
    ensures Conserved(StepProducer(s, p))
  {
    StageCounts(s, p);
    var g := s.producers[p].signal;
    assert s.taken + (s.channel + [g]) == s.taken + s.channel + [g];
  }

  lemma ReceiveConserves(s: State, w: nat)
    requires Conserved(s) && Enabled(s, Receive(w))
    ensures Conserved(Apply(s, Receive(w)))
  {
    var t := Apply(s, Receive(w));
    SumUpdate(Hands, s.taken, s.workers, w, t.workers[w]);
    HandsAnyTaken(t.taken, s.taken, t.workers);
  }

  lemma {:induction false} HandsAnyTaken(a: seq<Signal>, b: seq<Signal>, ws: seq<Worker>)
    ensures Sum(Hands, a, ws) == Sum(Hands, b, ws)
  {
    if ws != [] { HandsAnyTaken(a, b, ws[..|ws| - 1]); }
  }

  lemma FinishConserves(s: State, w: nat)
    requires Conserved(s) && Enabled(s, Finish(w))
    ensures Conserved(Apply(s, Finish(w)))
  {
    var t := Apply(s, Finish(w));
    SumUpdate(Hands, s.taken, s.workers, w, Waiting);
    assert t.finished[..|s.finished|] == s.finished;
  }

  /** A step that moves one worker and nothing it could lose. */
  lemma WorkerConserves(s: State, t: State, w: nat)
    requires Conserved(s) && w < |s.workers| && w < |t.workers| && t.workers == s.workers[w := t.workers[w]]
    requires s.workers[w].Busy? == t.workers[w].Busy? && (t.workers[w].Busy? ==> t.workers[w].slot == s.workers[w].slot)
    requires t.(workers := s.workers, documents := s.documents, counts := s.counts) == s
    ensures Conserved(t)
  {
    SumUpdate(Hands, s.taken, s.workers, w, t.workers[w]);
  }

  lemma WriteConserves(s: State, a: Action)
    requires Conserved(s) && Enabled(s, a) && (a.Stop? || a.TryMongo? || a.TryPostgres? || a.Timeseries?)
    ensures Conserved(Apply(s, a))
  {
    WorkerConserves(s, Apply(s, a), a.w);
  }

  lemma ProduceConserves(s: State, g: Signal)
    requires Conserved(s) && Enabled(s, Produce(g))
    ensures Conserved(Apply(s, Produce(g)))
  {
    assert Apply(s, Produce(g)).producers[..|s.producers|] == s.producers;
  }

  lemma StepConserves(s: State, a: Action)
    requires Conserved(s)
    ensures Conserved(Apply(s, a))
  {
    if Enabled(s, a) {
      match a {
        case NewItem(_) =>
        case Cancel =>
        case ProducerStep(p) => ProducerConserves(s, p);
        case Produce(g) => ProduceConserves(s, g);
        case Receive(w) => ReceiveConserves(s, w);
        case Finish(w) => FinishConserves(s, w);
        case _ => WriteConserves(s, a);
      }
    }
  }

  /** In every interleaving, before and after cancellation: the channel never exceeds its capacity,
      signals leave it in the order they entered, sends are queued or in hand or counted, and the
      producers' counters lag by exactly the producers on their way to them. */
  lemma {:induction false} RunsConserve(capacity: nat, workers: nat, acts: seq<Action>)
    ensures Conserved(Run(capacity, workers, acts))
  {
    if acts == [] {
      SumZero(Hands, [], seq(workers, _ => Waiting));
    } else {
      RunsConserve(capacity, workers, acts[..|acts| - 1]);
      StepConserves(Run(capacity, workers, acts[..|acts| - 1]), acts[|acts| - 1]);
    }
  }
}
