/** Ingestion as its separate steps: every call loads the local map, asks Redis, inserts a work
    item, registers the window, stores it locally, enqueues its signal; workers take signals and
    write documents. Any number of calls, workers and processes, in any order, with any step
    failing.

    A Redis window may be answered or not as the action says: expiry and outages look the same. */
module IngestionRaces {
  import opened Models
  import opened Retries

  /** Where one call of Resolve stands. */
  datatype Stage =
    | Loading                        // before the local lookup
    | Looking                        // local map missed
    | Creating(id: string, attempt: nat)
    | Registering(id: string)        // inserted, before the Redis SET
    | Storing(id: string)            // before the local store of a new id
    | Adopting(id: string)           // before the local store of an id Redis knew
    | Returned(id: string, isNew: bool)
    | Gone                           // failed, enqueued, dropped or killed

  datatype Call = Call(instance: nat, componentID: string, stage: Stage)

  /** Which call inserted a row. */
  datatype Origin = Origin(instance: nat, componentID: string, call: nat)

  datatype State = State(
    rows: map<string, Origin>,
    windows: map<string, string>,
    local: map<(nat, string), string>,
    calls: map<nat, Call>,
    queues: map<nat, seq<Signal>>,
    inHand: seq<Signal>,
    documents: map<string, Signal>)

  const INITIAL := State(map[], map[], map[], map[], map[], [], map[])

  datatype Action =
    | Begin(call: nat, instance: nat, componentID: string)
    | Step(call: nat, id: string, hit: bool, reply: Reply) // `id` is the fresh id of a new work item
    | Send(call: nat, signalID: string, accepted: bool)
    | Take(instance: nat)
    | Insert(hand: nat, reply: Reply)
    | Drop(hand: nat)
    | Expire(instance: nat, componentID: string)
    | Restart(instance: nat)

  function Stepped(s: State, k: Call, a: Action): Stage
    requires a.Step?
  {
    match k.stage
    case Loading =>
      if (k.instance, k.componentID) in s.local then Returned(s.local[(k.instance, k.componentID)], false)
      else Looking
    case Looking =>
      if a.hit && k.componentID in s.windows then Adopting(s.windows[k.componentID]) else Creating(a.id, 1)
    case Creating(id, attempt) =>
      if a.reply == Ack && id !in s.rows then Registering(id)
      else if attempt >= MAX_ATTEMPTS then Gone
      else Creating(id, attempt + 1)
    case Registering(id) => Storing(id)
    case Storing(id) => Returned(id, true)
    case Adopting(id) => Returned(id, false)
    case _ => k.stage
  }

  /** The call an action lets take a step, if any. */
  predicate Steps(s: State, a: Action) { a.Step? && a.call in s.calls }

  function RowsAfter(s: State, a: Action): map<string, Origin> {
    if Steps(s, a) && s.calls[a.call].stage.Creating? && a.reply != Failure && s.calls[a.call].stage.id !in s.rows
    then s.rows[s.calls[a.call].stage.id := Origin(s.calls[a.call].instance, s.calls[a.call].componentID, a.call)]
    else s.rows
  }

  function WindowsAfter(s: State, a: Action): map<string, string> {
    if Steps(s, a) && s.calls[a.call].stage.Registering? && a.reply != Failure
    then s.windows[s.calls[a.call].componentID := s.calls[a.call].stage.id]
    else s.windows
  }

  function LocalAfter(s: State, a: Action): map<(nat, string), string> {
    match a
    case Step(call, _, _, _) =>
      if call in s.calls && (s.calls[call].stage.Storing? || s.calls[call].stage.Adopting?)
      then s.local[(s.calls[call].instance, s.calls[call].componentID) := s.calls[call].stage.id]
      else s.local
    case Expire(i, c) => s.local - {(i, c)}
    case Restart(i) => map k | k in s.local && k.0 != i :: s.local[k]
    case _ => s.local
  }

  function CallsAfter(s: State, a: Action): map<nat, Call> {
    match a
    case Begin(call, i, c) => if call in s.calls then s.calls else s.calls[call := Call(i, c, Loading)]
    case Step(call, _, _, _) =>
      if call in s.calls then s.calls[call := s.calls[call].(stage := Stepped(s, s.calls[call], a))] else s.calls
    case Send(call, _, _) => if Sends(s, a) then s.calls[call := s.calls[call].(stage := Gone)] else s.calls
    case Restart(i) =>
      map call | call in s.calls :: if s.calls[call].instance == i then s.calls[call].(stage := Gone) else s.calls[call]
    case _ => s.calls
  }

  predicate Sends(s: State, a: Action) { a.Send? && a.call in s.calls && s.calls[a.call].stage.Returned? }

  function QueueOf(s: State, i: nat): seq<Signal> { if i in s.queues then s.queues[i] else [] }

  function QueuesAfter(s: State, a: Action): map<nat, seq<Signal>> {
    match a
    case Send(call, sid, accepted) =>
      if !Sends(s, a) || !accepted then s.queues else
        var k := s.calls[call];
        s.queues[k.instance := QueueOf(s, k.instance) + [Signal(sid, k.componentID, k.stage.id)]]
    case Take(i) => if QueueOf(s, i) == [] then s.queues else s.queues[i := QueueOf(s, i)[1..]]
    case Restart(i) => s.queues[i := []]
    case _ => s.queues
  }

  function InHandAfter(s: State, a: Action): seq<Signal> {
    match a
    case Take(i) => if QueueOf(s, i) == [] then s.inHand else s.inHand + [QueueOf(s, i)[0]]
    case Drop(h) => if h < |s.inHand| then s.inHand[..h] + s.inHand[h + 1..] else s.inHand
    case _ => s.inHand
  }

  function DocumentsAfter(s: State, a: Action): map<string, Signal> {
    if a.Insert? && a.hand < |s.inHand| && a.reply != Failure && s.inHand[a.hand].id !in s.documents
    then s.documents[s.inHand[a.hand].id := s.inHand[a.hand]]
    else s.documents
  }

  function Apply(s: State, a: Action): State {
    State(RowsAfter(s, a), WindowsAfter(s, a), LocalAfter(s, a), CallsAfter(s, a),
          QueuesAfter(s, a), InHandAfter(s, a), DocumentsAfter(s, a))
  }

  function RunFrom(s: State, acts: seq<Action>): State {
    if acts == [] then s else Apply(RunFrom(s, acts[..|acts| - 1]), acts[|acts| - 1])
  }

  // --- Referential integrity ---------------------------------------------------------------------

  /** The work item a stage vouches for: it must have been inserted. */
  function Named(st: Stage): set<string> {
    match st
    case Registering(id) => {id}
    case Storing(id) => {id}
    case Adopting(id) => {id}
    case Returned(id, _) => {id}
    case _ => {}
  }

  ghost predicate WindowsNamed(s: State) { forall c :: c in s.windows ==> s.windows[c] in s.rows }
  ghost predicate LocalNamed(s: State) { forall k :: k in s.local ==> s.local[k] in s.rows }
  ghost predicate CallsNamed(s: State) { forall k :: k in s.calls ==> Named(s.calls[k].stage) <= s.rows.Keys }
  ghost predicate AllNamed(s: State, q: seq<Signal>) { forall i :: 0 <= i < |q| ==> q[i].workItemID in s.rows }
  ghost predicate QueuesNamed(s: State) { forall i :: i in s.queues ==> AllNamed(s, s.queues[i]) }
  ghost predicate DocumentsNamed(s: State) {
    forall d :: d in s.documents ==> s.documents[d].id == d && s.documents[d].workItemID in s.rows
  }

  /** Every work item id the system holds anywhere names an inserted row. */
  ghost predicate RefersToRows(s: State) {
    && WindowsNamed(s) && LocalNamed(s) && CallsNamed(s)
    && QueuesNamed(s) && AllNamed(s, s.inHand) && DocumentsNamed(s)
  }

  lemma CallsKeepNames(s: State, a: Action)
    requires RefersToRows(s)
    ensures CallsNamed(Apply(s, a))
  {
    var t := Apply(s, a);
    forall k | k in t.calls ensures Named(t.calls[k].stage) <= t.rows.Keys {
      if k in s.calls { assert Named(s.calls[k].stage) <= s.rows.Keys; }
    }
  }

  lemma StoresKeepNames(s: State, a: Action)
    requires RefersToRows(s)
    ensures WindowsNamed(Apply(s, a)) && LocalNamed(Apply(s, a))
  {
    if Steps(s, a) { assert Named(s.calls[a.call].stage) <= s.rows.Keys; }
  }

  lemma SignalsKeepNames(s: State, a: Action)
    requires RefersToRows(s)
    ensures QueuesNamed(Apply(s, a)) && AllNamed(Apply(s, a), Apply(s, a).inHand) && DocumentsNamed(Apply(s, a))
  {
    var t := Apply(s, a);
    assert s.rows.Keys <= t.rows.Keys;
    forall i | i in t.queues ensures AllNamed(t, t.queues[i]) {
      assert AllNamed(s, QueueOf(s, i));
      if Sends(s, a) { assert Named(s.calls[a.call].stage) <= s.rows.Keys; }
    }
    if a.Take? { assert AllNamed(s, QueueOf(s, a.instance)); }
  }

  /** Referential integrity, in every interleaving of any number of processes: ids returned by
      Resolve, held by either layer, carried by queued or taken signals, or stored in documents. */
  lemma {:induction false} EveryReferenceHasItsRow(acts: seq<Action>)
    ensures RefersToRows(RunFrom(INITIAL, acts))
  {
    if acts != [] {
      var s, a := RunFrom(INITIAL, acts[..|acts| - 1]), acts[|acts| - 1];
      EveryReferenceHasItsRow(acts[..|acts| - 1]);
      CallsKeepNames(s, a);
      StoresKeepNames(s, a);
      SignalsKeepNames(s, a);
    }
  }

  // --- One process, one component ------------------------------------------------------------------

  predicate Concerns(k: Call, i: nat, c: string) { k.instance == i && k.componentID == c }

  /** A call that has passed the local lookup and may still insert a row. */
  predicate MayInsert(s: State, k: Call) { k.stage.Looking? || (k.stage.Creating? && k.stage.id !in s.rows) }

  function Pending(s: State, i: nat, c: string): set<nat> {
    set call | call in s.calls && Concerns(s.calls[call], i, c) && MayInsert(s, s.calls[call])
  }

  function RowsFrom(s: State, i: nat, c: string): set<string> {
    set id | id in s.rows && s.rows[id].instance == i && s.rows[id].componentID == c
  }

  /** The local entry of component `c` survives the action. */
  predicate Keeps(a: Action, i: nat, c: string) { a != Expire(i, c) && a != Restart(i) }

  predicate AllKeep(acts: seq<Action>, i: nat, c: string) { forall n :: 0 <= n < |acts| ==> Keeps(acts[n], i, c) }

  /** While the local map has the component, a step inserts nothing new for it, or it inserts one
      row and uses up one call that was already past its lookup. */
  lemma PendingStep(s: State, a: Action, i: nat, c: string)
    requires (i, c) in s.local && Keeps(a, i, c)
    ensures var t := Apply(s, a);
            && (i, c) in t.local && Pending(t, i, c) <= Pending(s, i, c) && RowsFrom(s, i, c) <= RowsFrom(t, i, c)
            && (RowsFrom(t, i, c) == RowsFrom(s, i, c)
                || (a.Step? && a.call in Pending(s, i, c) - Pending(t, i, c)
                    && exists id :: RowsFrom(t, i, c) == RowsFrom(s, i, c) + {id} && t.rows[id].call == a.call))
  {
    var t := Apply(s, a);
    if RowsAfter(s, a) != s.rows {
      var k := s.calls[a.call];
      assert t.rows[k.stage.id].call == a.call;
      assert RowsFrom(t, i, c) == if Concerns(k, i, c) then RowsFrom(s, i, c) + {k.stage.id} else RowsFrom(s, i, c);
    }
  }

  /** Once a component is in a process's local map, and until it is expired there, the rows that
      process still inserts for it number at most the calls that were then already past their local
      lookup; each comes from such a call. */
  lemma {:induction false} CreationsBounded(s: State, acts: seq<Action>, i: nat, c: string)
    requires (i, c) in s.local && AllKeep(acts, i, c)
    ensures var t := RunFrom(s, acts);
            && (i, c) in t.local && Pending(t, i, c) <= Pending(s, i, c) && RowsFrom(s, i, c) <= RowsFrom(t, i, c)
            && |RowsFrom(t, i, c)| + |Pending(t, i, c)| <= |RowsFrom(s, i, c)| + |Pending(s, i, c)|
            && (forall id :: id in RowsFrom(t, i, c) - RowsFrom(s, i, c) ==> t.rows[id].call in Pending(s, i, c))
  {
    if acts != [] {
      var u, a := RunFrom(s, acts[..|acts| - 1]), acts[|acts| - 1];
      CreationsBounded(s, acts[..|acts| - 1], i, c);
      assert Keeps(a, i, c);
      PendingStep(u, a, i, c);
      Smaller(Pending(Apply(u, a), i, c), Pending(u, i, c));
      assert forall id :: id in u.rows ==> id in Apply(u, a).rows && Apply(u, a).rows[id] == u.rows[id];
    }
  }

  lemma Smaller(small: set<nat>, large: set<nat>)
    requires small <= large
    ensures |small| <= |large| && (small != large ==> |small| < |large|)
  {
    assert large == small + (large - small);
    if small != large { assert large - small != {}; }
  }

  /** No call for the component can change its local entry any more. */
  ghost predicate Settled(s: State, i: nat, c: string) {
    && (i, c) in s.local
    && forall call :: call in s.calls && Concerns(s.calls[call], i, c) ==>
         s.calls[call].stage.Loading? || s.calls[call].stage.Returned? || s.calls[call].stage.Gone?
  }

  /** What a call of the component did since `s`, if it returned since then. */
  ghost predicate ReturnsEntry(s: State, t: State, i: nat, c: string)
    requires (i, c) in s.local
  {
    forall call :: call in t.calls && Concerns(t.calls[call], i, c) && t.calls[call].stage.Returned? ==>
      (call in s.calls && t.calls[call] == s.calls[call]) || t.calls[call].stage == Returned(s.local[(i, c)], false)
  }

  lemma SettledStep(s: State, a: Action, i: nat, c: string)
    requires Settled(s, i, c) && Keeps(a, i, c)
    ensures var t := Apply(s, a);
            && Settled(t, i, c) && t.local[(i, c)] == s.local[(i, c)] && ReturnsEntry(s, t, i, c)
            && RowsFrom(t, i, c) == RowsFrom(s, i, c)
  {
    var t := Apply(s, a);
    if Steps(s, a) && Concerns(s.calls[a.call], i, c) {
      assert s.calls[a.call].stage.Loading? || s.calls[a.call].stage.Returned? || s.calls[a.call].stage.Gone?;
    }
    PendingStep(s, a, i, c);
  }

  /** Once no call for the component is between its lookup and its store, the entry stays, nothing
      more is inserted, and every later call returns that one id. */
  lemma {:induction false} SettledForGood(s: State, acts: seq<Action>, i: nat, c: string)
    requires Settled(s, i, c) && AllKeep(acts, i, c)
    ensures var t := RunFrom(s, acts);
            && Settled(t, i, c) && t.local[(i, c)] == s.local[(i, c)] && ReturnsEntry(s, t, i, c)
            && RowsFrom(t, i, c) == RowsFrom(s, i, c)
  {
    if acts != [] {
      var u, a := RunFrom(s, acts[..|acts| - 1]), acts[|acts| - 1];
      SettledForGood(s, acts[..|acts| - 1], i, c);
      assert Keeps(a, i, c);
      SettledStep(u, a, i, c);
    }
  }
}
