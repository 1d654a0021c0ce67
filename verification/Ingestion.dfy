/** The ingestion handler after parsing: rate limit, resolve, link, enqueue. */
module Ingestion {
  import opened Models
  import opened Retries
  import opened Stores
  import opened Redis
  import opened Debounce
  import opened Pools
  import Limiter = RateLimiting

  datatype ComponentType = RDBMS | NoSQL | Cache | Queue | API | MCPHost | OtherType(name: string)

  function SeverityForComponent(ct: ComponentType): Severity {
    match ct
    case RDBMS => P0
    case Queue => P0
    case API => P1
    case NoSQL => P1
    case MCPHost => P1
    case _ => P2
  }

  /** A request: whether it passes validation, what it says, the ids drawn for its signal and for the
      work item it may create, how the stores answer it, and when and how far the throughput
      increment got that it starts when it is accepted. */
  datatype Request = Request(
    valid: bool,
    componentID: string,
    componentType: ComponentType,
    severity: Severity,
    signalID: string,
    itemID: string,
    at: Time,
    weather: Weather,
    countedAt: Time,
    pipeline: Pipeline)

  /** The work item that the request's signal would open. */
  function ItemOf(r: Request): WorkItem { NewWorkItem(r.itemID, r.componentID, r.severity, r.at) }

  predicate IsRequest(r: Request) { IsScript(r.weather.create) }

  datatype Response =
    | Accepted(signalID: string, workItemID: string, debounced: bool)
    | InvalidSignal
    | NoWorkItem
    | QueueFull
    | BatchTooLarge
    | RateLimited

  const MAX_BATCH := 100

  /** What ingestion reads and writes. */
  datatype View = View(
    local: Local,
    windows: Windows,
    dashboard: Option<Entry<DashboardState>>,
    throughput: Buckets,
    items: Items,
    ch: seq<Signal>,
    enqueued: nat,
    dropped: nat)

  /** After the debouncer's answer: a new item takes the dashboard entry with it. */
  function Resolved(v: View, r: Request): View {
    var o := OutcomeOf(v.local, v.windows, v.items, ItemOf(r), r.at, r.weather);
    v.(local := LocalAfter(v.local, v.windows, v.items, ItemOf(r), r.at, r.weather),
       windows := WindowsAfter(v.local, v.windows, v.items, ItemOf(r), r.at, r.weather),
       dashboard := if o.Linked? && o.isNew && r.weather.invalidate != Failure then None else v.dashboard,
       items := if Inserts(v.local, v.windows, v.items, ItemOf(r), r.at, r.weather) then v.items[r.itemID := ItemOf(r)]
                else v.items)
  }

  /** Resolve, link, enqueue. */
  function IngestOne(v: View, r: Request, capacity: nat): (View, Response) {
    if !r.valid then (v, InvalidSignal) else
      var o := OutcomeOf(v.local, v.windows, v.items, ItemOf(r), r.at, r.weather);
      var u := Resolved(v, r);
      if o.CreateFailed? then (u, NoWorkItem)
      else if |v.ch| >= capacity then (u.(dropped := v.dropped + 1), QueueFull)
      else
        var resp := Accepted(r.signalID, o.workItemID, !o.isNew);
        (u.(ch := v.ch + Queued(r, resp), enqueued := v.enqueued + 1,
            throughput := Bumped(v.throughput, r.countedAt, r.pipeline)), resp)
  }

  /** The severities that a single signal's component type gives its work item. */
  lemma SeverityTable(ct: ComponentType)
    ensures SeverityForComponent(ct) == P0 <==> ct in {RDBMS, Queue}
    ensures SeverityForComponent(ct) == P1 <==> ct in {NoSQL, API, MCPHost}
  {
  }

  /** What one request is answered, and what it does to the queue and its counters. */
  lemma IngestAnswers(v: View, r: Request, capacity: nat)
    ensures var (u, resp) := IngestOne(v, r, capacity);
            && (resp == InvalidSignal <==> !r.valid) && (!r.valid ==> u == v)
            && (r.valid ==> resp == NoWorkItem || (resp == QueueFull && |v.ch| >= capacity)
                            || (resp.Accepted? && |v.ch| < capacity))
            && u.dropped == v.dropped + (if resp == QueueFull then 1 else 0)
            && u.enqueued == v.enqueued + (if resp.Accepted? then 1 else 0)
            && u.ch == v.ch + (if resp.Accepted? then [Signal(r.signalID, r.componentID, resp.workItemID)] else [])
            && (resp.Accepted? ==> resp.signalID == r.signalID)
  {
  }

  /** An accepted signal is reported as debounced exactly when it opened no work item; one it opens is
      OPEN, counts one signal and carries the request's severity, and the dashboard entry goes with it. */
  lemma AcceptedMeans(v: View, r: Request, capacity: nat)
    requires IngestOne(v, r, capacity).1.Accepted?
    ensures var (u, resp) := IngestOne(v, r, capacity);
            && (resp.debounced <==> u.items == v.items)
            && u.local == v.local[r.componentID := resp.workItemID]
            && u.dashboard == (if !resp.debounced && r.weather.invalidate != Failure then None else v.dashboard)
            && (!resp.debounced ==>
                  && resp.workItemID == r.itemID && r.itemID !in v.items
                  && u.items == v.items[r.itemID := WorkItem(r.itemID, r.componentID, r.severity, Open, 1, r.at, r.at,
                                                              None, None, None)])
  {
    InsertOnce(r.itemID in v.items, r.weather.create);
    var u := IngestOne(v, r, capacity).0;
    if u.items != v.items { assert r.itemID in u.items; }
  }

  /** It is linked to what its process remembers of the component; failing that, to a window that has
      not ended; and only failing both does it open a work item. */
  lemma AcceptedLinks(v: View, r: Request, capacity: nat)
    requires IngestOne(v, r, capacity).1.Accepted?
    ensures var resp, c := IngestOne(v, r, capacity).1, r.componentID;
            var ended := c in v.windows && v.windows[c].expiresAt.Some? && v.windows[c].expiresAt.value <= r.at;
            var known := c in v.windows && !ended && r.weather.getUp && v.windows[c].value != "";
            && (c in v.local ==> resp.debounced && resp.workItemID == v.local[c])
            && (c !in v.local ==> (resp.debounced <==> known))
            && (c !in v.local && known ==> resp.workItemID == v.windows[c].value)
  {
  }

  /** An accepted signal is counted once in its second, if Redis is reached; no other request is. */
  lemma ThroughputCounts(v: View, r: Request, capacity: nat)
    ensures var (u, resp) := IngestOne(v, r, capacity); var k := r.countedAt.Floor;
            if !resp.Accepted? || r.pipeline == Lost then u.throughput == v.throughput else
              && k in u.throughput && u.throughput == v.throughput[k := u.throughput[k]]
              && u.throughput[k].value
                   == 1 + if k in v.throughput && (v.throughput[k].expiresAt.Some? ==>
                                                     r.countedAt < v.throughput[k].expiresAt.value)
                          then v.throughput[k].value else 0
  {
  }

  /** The signal that an accepted request puts on the queue. */
  function Queued(r: Request, resp: Response): seq<Signal> {
    if resp.Accepted? then [Signal(resp.signalID, r.componentID, resp.workItemID)] else []
  }

  /** A batch is its requests one after the other. */
  function IngestAll(v: View, reqs: seq<Request>, capacity: nat): (View, seq<Response>) {
    if reqs == [] then (v, []) else
      var n := |reqs| - 1;
      var (u, rs) := IngestAll(v, reqs[..n], capacity);
      var (w, r) := IngestOne(u, reqs[n], capacity);
      (w, rs + [r])
  }

  /** The signals a batch puts on the queue: one per accepted request, in order, linked. */
  function LinkedSignals(reqs: seq<Request>, rs: seq<Response>): seq<Signal>
    requires |rs| == |reqs|
  {
    if rs == [] then [] else
      var n := |rs| - 1;
      LinkedSignals(reqs[..n], rs[..n]) + Queued(reqs[n], rs[n])
  }

  /** Both debounce layers and the queue name inserted work items only. */
  ghost predicate Referential(v: View) {
    && (forall c :: c in v.local ==> v.local[c] in v.items)
    && (forall c :: c in v.windows ==> v.windows[c].value in v.items)
    && (forall i :: 0 <= i < |v.ch| ==> v.ch[i].workItemID in v.items)
  }

  /** The work item a signal is linked to exists. */
  lemma LinkNamesRow(v: View, r: Request)
    requires Referential(v) && OutcomeOf(v.local, v.windows, v.items, ItemOf(r), r.at, r.weather).Linked?
    ensures OutcomeOf(v.local, v.windows, v.items, ItemOf(r), r.at, r.weather).workItemID in Resolved(v, r).items
  {
    InsertOnce(r.itemID in v.items, r.weather.create);
  }

  lemma ResolvedReferential(v: View, r: Request)
    requires Referential(v)
    ensures Referential(Resolved(v, r))
  {
    var o, u := OutcomeOf(v.local, v.windows, v.items, ItemOf(r), r.at, r.weather), Resolved(v, r);
    if o.Linked? { LinkNamesRow(v, r); }
    assert v.items.Keys <= u.items.Keys;
    forall c | c in u.windows ensures u.windows[c].value in u.items {
      if c == r.componentID && u.windows != v.windows { assert u.windows[c].value == o.workItemID; }
    }
  }

  lemma OneStaysReferential(v: View, r: Request, capacity: nat)
    requires Referential(v)
    ensures Referential(IngestOne(v, r, capacity).0)
  {
    var u := IngestOne(v, r, capacity).0;
    if r.valid {
      ResolvedReferential(v, r);
      if u.ch != v.ch { LinkNamesRow(v, r); }
    }
  }

  /** What one request does to the queue and its counters. */
  lemma OneEnqueues(v: View, r: Request, capacity: nat)
    requires |v.ch| <= capacity
    ensures var (u, resp) := IngestOne(v, r, capacity);
            && u.ch == v.ch + Queued(r, resp) && |u.ch| <= capacity
            && u.enqueued == v.enqueued + |Queued(r, resp)|
            && u.dropped == v.dropped + if resp.QueueFull? then 1 else 0
  {
  }

  lemma LinkedOneMore(reqs: seq<Request>, rs: seq<Response>, r: Response)
    requires |reqs| == |rs| + 1
    ensures LinkedSignals(reqs, rs + [r]) == LinkedSignals(reqs[..|rs|], rs) + Queued(reqs[|rs|], r)
    ensures Refusals(rs + [r]) == Refusals(rs) + if r.QueueFull? then 1 else 0
  {
    assert (rs + [r])[..|rs|] == rs;
  }

  /** A batch gets one response per request; the queue gains exactly the accepted signals, in order,
      each linked to a work item that exists, and never grows past its capacity; every refused
      signal is counted. */
  lemma {:induction false} BatchLinksAndEnqueues(v: View, reqs: seq<Request>, capacity: nat)
    requires Referential(v) && |v.ch| <= capacity
    ensures var (u, rs) := IngestAll(v, reqs, capacity);
            && |rs| == |reqs| && Referential(u) && |u.ch| <= capacity
            && u.ch == v.ch + LinkedSignals(reqs, rs)
            && u.enqueued == v.enqueued + |LinkedSignals(reqs, rs)|
            && u.dropped == v.dropped + Refusals(rs)
  {
    if reqs != [] {
      var n := |reqs| - 1;
      var (u, rs) := IngestAll(v, reqs[..n], capacity);
      var (w, r) := IngestOne(u, reqs[n], capacity);
      BatchLinksAndEnqueues(v, reqs[..n], capacity);
      OneStaysReferential(u, reqs[n], capacity);
      OneEnqueues(u, reqs[n], capacity);
      LinkedOneMore(reqs, rs, r);
    }
  }

  function Refusals(rs: seq<Response>): nat {
    if rs == [] then 0 else Refusals(rs[..|rs| - 1]) + if rs[|rs| - 1].QueueFull? then 1 else 0
  }

  class Handler {
    const rateLimiter: Limiter.RateLimiter
    const queue: SignalQueue
    const debouncer: Debouncer
    const postgres: PostgresStore

    constructor (rateLimiter: Limiter.RateLimiter, queue: SignalQueue, debouncer: Debouncer, postgres: PostgresStore)
      ensures this.rateLimiter == rateLimiter
      ensures this.queue == queue && this.debouncer == debouncer && this.postgres == postgres
    {
      this.rateLimiter, this.queue, this.debouncer, this.postgres := rateLimiter, queue, debouncer, postgres;
    }

    function Seen(): View
      reads queue, debouncer, debouncer.redis, postgres
    {
      var redis := debouncer.redis;
      View(debouncer.local, redis.debounce, redis.dashboard, redis.throughput, postgres.workItems,
           queue.ch, queue.enqueued, queue.dropped)
    }

    /** Whether the limiter lets the address in now. */
    ghost predicate LetsIn(ip: string, now: Time)
      reads this, rateLimiter, rateLimiter.buckets.Values
    {
      Limiter.Admits(rateLimiter.Lim(), rateLimiter.View(), ip, now)
    }

    /** What the handlers do with one request that they read. */
    method IngestRequest(r: Request) returns (resp: Response)
      requires IsRequest(r)
      modifies queue, debouncer, debouncer.redis, postgres`workItems
      ensures (Seen(), resp) == IngestOne(old(Seen()), r, queue.capacity)
    {
      if !r.valid {
        return InvalidSignal;
      }
      var o := debouncer.Resolve(ItemOf(r), postgres, r.at, r.weather);
      if o.CreateFailed? {
        return NoWorkItem;
      }
      var ok := queue.TryEnqueue(Signal(r.signalID, r.componentID, o.workItemID));
      if !ok {
        return QueueFull;
      }
      debouncer.redis.IncrementSignalCounter(r.countedAt, r.pipeline);
      return Accepted(r.signalID, o.workItemID, !o.isNew);
    }

    /** A single signal opens its work item with the severity of its component's type. */
    method IngestSignal(ip: string, now: Time, r: Request) returns (resp: Response)
      requires IsRequest(r) && rateLimiter.Valid()
      modifies rateLimiter, rateLimiter.buckets.Values, queue, debouncer, debouncer.redis, postgres`workItems
      ensures rateLimiter.Valid() && fresh(rateLimiter.buckets.Values - old(rateLimiter.buckets.Values))
      ensures rateLimiter.View()
           == Limiter.Next(rateLimiter.Lim(), old(rateLimiter.View()), Limiter.Request(ip, now))
      ensures !old(LetsIn(ip, now)) ==> resp == RateLimited && Seen() == old(Seen())
      ensures old(LetsIn(ip, now)) ==>
        (Seen(), resp) == IngestOne(old(Seen()), r.(severity := SeverityForComponent(r.componentType)), queue.capacity)
    {
      var allowed, _, _ := rateLimiter.Allow(ip, now);
      if !allowed {
        return RateLimited;
      }
      resp := IngestRequest(r.(severity := SeverityForComponent(r.componentType)));
    }

    /** A batch counts once against the limit; its signals keep their own severities. */
    method IngestBatch(ip: string, now: Time, reqs: seq<Request>) returns (rs: seq<Response>)
      requires (forall i :: 0 <= i < |reqs| ==> IsRequest(reqs[i])) && rateLimiter.Valid()
      modifies rateLimiter, rateLimiter.buckets.Values, queue, debouncer, debouncer.redis, postgres`workItems
      ensures rateLimiter.Valid() && fresh(rateLimiter.buckets.Values - old(rateLimiter.buckets.Values))
      ensures rateLimiter.View()
           == Limiter.Next(rateLimiter.Lim(), old(rateLimiter.View()), Limiter.Request(ip, now))
      ensures !old(LetsIn(ip, now)) ==> rs == [RateLimited] && Seen() == old(Seen())
      ensures old(LetsIn(ip, now)) && |reqs| > 100 ==> rs == [BatchTooLarge] && Seen() == old(Seen())
      ensures old(LetsIn(ip, now)) && |reqs| <= 100 ==>
        (Seen(), rs) == IngestAll(old(Seen()), reqs, queue.capacity)
    {
      var allowed, _, _ := rateLimiter.Allow(ip, now);
      if !allowed {
        return [RateLimited];
      }
      if |reqs| > MAX_BATCH {
        return [BatchTooLarge];
      }
      rs := IngestEach(reqs);
    }

    method IngestEach(reqs: seq<Request>) returns (rs: seq<Response>)
      requires forall i :: 0 <= i < |reqs| ==> IsRequest(reqs[i])
      modifies queue, debouncer, debouncer.redis, postgres`workItems
      ensures (Seen(), rs) == IngestAll(old(Seen()), reqs, queue.capacity)
    {
      rs := [];
      for i := 0 to |reqs|
        invariant (Seen(), rs) == IngestAll(old(Seen()), reqs[..i], queue.capacity)
      {
        var resp := IngestRequest(reqs[i]);
        assert reqs[..i + 1][..i] == reqs[..i];
        rs := rs + [resp];
      }
      assert reqs[..|reqs|] == reqs;
    }
  }
}
