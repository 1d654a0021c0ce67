/** Transition and SubmitRCA as the store sees them: each request reads, checks and writes in
    separate steps, any number of requests at once, in any order, with any of their steps failing,
    being retried, or being the last.

    A run is a sequence of actions. `Apply` says what one action does; an action whose request is
    not at that step changes nothing. */
module WorkflowRaces {
  import opened Models
  import opened Retries
  import Stores

  /** Where one request stands. */
  datatype Request =
    | Fetching(id: string, to: WorkItemState)          // Transition, before it reads the row
    | FetchingRCA(id: string)                          // Transition to CLOSED, row accepted
    | Writing(id: string, to: WorkItemState, mttr: Option<real>, attempt: nat)
    | Submitting(rca: RCA)                             // SubmitRCA, fields validated
    | CheckingRCA(rca: RCA)                            // row accepted
    | Inserting(rca: RCA, attempt: nat)
    | Finished

  datatype State = State(items: map<string, WorkItem>, rcas: map<string, RCA>, requests: map<nat, Request>)

  const INITIAL := State(map[], map[], map[])

  datatype Action =
    | CreateItem(item: WorkItem)                       // ingestion, from NewWorkItem
    | Touch(id: string, severity: Severity, signals: nat, now: Time) // escalation, signal counting
    | BeginTransition(req: nat, id: string, to: WorkItemState)
    | BeginSubmit(req: nat, rca: RCA)
    | Step(req: nat, reply: Reply, now: Time)          // the request's next step
    | Abandon(req: nat)                                // context done, or the process gone

  /** What an action does to the two tables: at most one row is written. */
  datatype Effect = Nothing | PutItem(item: WorkItem) | PutRCA(rca: RCA)

  function ItemEffect(s: State, id: string, w: WorkItem -> WorkItem): Effect {
    if id in s.items then PutItem(w(s.items[id])) else Nothing
  }

  function EffectOf(s: State, a: Action): Effect {
    match a
    case CreateItem(w) =>
      if w.id in s.items || w != NewWorkItem(w.id, w.componentID, w.severity, w.createdAt) then Nothing
      else PutItem(w)
    case Touch(id, sev, n, now) =>
      ItemEffect(s, id, (w: WorkItem) => w.(severity := sev, signalCount := n, updatedAt := now))
    case Step(req, reply, now) =>
      if req !in s.requests || reply == Failure then Nothing else
      (match s.requests[req]
       case Writing(id, to, mttr, _) => ItemEffect(s, id, (w: WorkItem) => WithState(w, to, mttr, now))
       case Inserting(rca, _) => if Stores.RCARefused(s.items, s.rcas, rca) then Nothing else PutRCA(rca)
       case _ => Nothing)
    case _ => Nothing
  }

  function Retry(reply: Reply, attempt: nat, again: Request): Request {
    if reply == Ack || attempt >= MAX_ATTEMPTS then Finished else again
  }

  /** Where a request goes from its next step, given what the step reads. */
  function Advance(s: State, r: Request, reply: Reply, now: Time): Request {
    match r
    case Fetching(id, to) =>
      if reply != Ack || id !in s.items || !CanTransitionTo(s.items[id].state, to) then Finished
      else if to == Closed then FetchingRCA(id)
      else Writing(id, to, None, 1)
    case FetchingRCA(id) =>
      if reply != Ack || id !in s.rcas || Validate(s.rcas[id]).Some? then Finished
      else Writing(id, Closed, Some(MTTRMinutes(s.rcas[id])), 1)
    case Writing(id, to, mttr, attempt) => Retry(reply, attempt, Writing(id, to, mttr, attempt + 1))
    case Submitting(rca) =>
      if reply != Ack || rca.workItemID !in s.items
        || s.items[rca.workItemID].state == Open || s.items[rca.workItemID].state == Closed then Finished
      else CheckingRCA(rca)
    case CheckingRCA(rca) =>
      if reply != Ack || rca.workItemID in s.rcas then Finished
      else Inserting(rca.(submittedAt := now), 1)
    case Inserting(rca, attempt) =>
      Retry(if Stores.RCARefused(s.items, s.rcas, rca) then Failure else reply, attempt, Inserting(rca, attempt + 1))
    case Finished => Finished
  }

  function RequestsAfter(s: State, a: Action): map<nat, Request> {
    match a
    case BeginTransition(req, id, to) =>
      if req in s.requests then s.requests else s.requests[req := Fetching(id, to)]
    case BeginSubmit(req, rca) =>
      if req in s.requests || Validate(rca).Some? then s.requests else s.requests[req := Submitting(rca)]
    case Step(req, reply, now) =>
      if req !in s.requests then s.requests else s.requests[req := Advance(s, s.requests[req], reply, now)]
    case Abandon(req) =>
      if req !in s.requests then s.requests else s.requests[req := Finished]
    case _ => s.requests
  }

  function Put(s: State, e: Effect, requests: map<nat, Request>): State {
    match e
    case Nothing => State(s.items, s.rcas, requests)
    case PutItem(w) => State(s.items[w.id := w], s.rcas, requests)
    case PutRCA(rca) => State(s.items, s.rcas[rca.workItemID := rca], requests)
  }

  function Apply(s: State, a: Action): State { Put(s, EffectOf(s, a), RequestsAfter(s, a)) }

  /** The state with one request at a given place. */
  function At(s: State, req: nat, r: Request): State { State(s.items, s.rcas, s.requests[req := r]) }

  /** A step that only reads moves its request and nothing else. */
  lemma ReadStep(s: State, req: nat, r: Request, reply: Reply, now: Time)
    requires !r.Writing? && !r.Inserting?
    ensures Apply(At(s, req, r), Step(req, reply, now)) == At(s, req, Advance(s, r, reply, now))
  {
    var t := At(s, req, r);
    assert EffectOf(t, Step(req, reply, now)) == Nothing;
    assert Advance(t, r, reply, now) == Advance(s, r, reply, now);
  }

  function Run(acts: seq<Action>): State {
    if acts == [] then INITIAL else Apply(Run(acts[..|acts| - 1]), acts[|acts| - 1])
  }

  // --- History -----------------------------------------------------------------------------------

  /** For each item, every state it has been in. */
  type History = map<string, set<WorkItemState>>

  function HeldIn(h: History, id: string): set<WorkItemState> { if id in h then h[id] else {} }

  function Note(h: History, s: State): History {
    map id | id in s.items :: HeldIn(h, id) + {s.items[id].state}
  }

  function Held(acts: seq<Action>): History {
    if acts == [] then map[] else Note(Held(acts[..|acts| - 1]), Run(acts))
  }

  // --- The invariant ---------------------------------------------------------------------------

  ghost predicate LedTo(held: set<WorkItemState>, st: WorkItemState) {
    st == Open || (Predecessor(st).Some? && Predecessor(st).value in held)
  }

  ghost predicate HasMTTR(s: State, id: string, mttr: Option<real>) {
    id in s.rcas && mttr == Some(MTTRMinutes(s.rcas[id]))
  }

  /** The states an item has held are closed under what leads to them; a set MTTR is its RCA's;
      a CLOSED item has one; and RESOLVED left its stamp. */
  ghost predicate GoodItem(s: State, h: History, id: string)
    requires id in s.items
  {
    var w := s.items[id];
    && w.id == id && w.state in HeldIn(h, id)
    && (forall st :: st in HeldIn(h, id) ==> LedTo(HeldIn(h, id), st))
    && (w.mttr.Some? || w.state == Closed ==> HasMTTR(s, id, w.mttr))
    && (Resolved in HeldIn(h, id) ==> w.resolvedAt.Some?)
  }

  /** A stored RCA is valid and filed under its own item, which was INVESTIGATING before. */
  ghost predicate GoodRCA(s: State, h: History, id: string)
    requires id in s.rcas
  {
    Validate(s.rcas[id]).None? && s.rcas[id].workItemID == id && id in s.items && Investigating in HeldIn(h, id)
  }

  ghost predicate GoodRequest(s: State, h: History, r: Request) {
    match r
    case FetchingRCA(id) => id in s.items && Resolved in HeldIn(h, id)
    case Writing(id, to, mttr, _) =>
      && id in s.items && to != Open && LedTo(HeldIn(h, id), to)
      && (if to == Closed then HasMTTR(s, id, mttr) else mttr == None)
    case Submitting(rca) => Validate(rca).None?
    case CheckingRCA(rca) => Insertable(s, h, rca)
    case Inserting(rca, _) => Insertable(s, h, rca)
    case _ => true
  }

  ghost predicate Insertable(s: State, h: History, rca: RCA) {
    Validate(rca).None? && rca.workItemID in s.items && Investigating in HeldIn(h, rca.workItemID)
  }

  ghost predicate GoodTables(s: State, h: History) {
    && h.Keys == s.items.Keys
    && (forall id :: id in s.items ==> GoodItem(s, h, id))
    && (forall id :: id in s.rcas ==> GoodRCA(s, h, id))
  }

  ghost predicate GoodRequests(s: State, h: History) {
    forall req :: req in s.requests ==> GoodRequest(s, h, s.requests[req])
  }

  ghost predicate Good(s: State, h: History) { GoodTables(s, h) && GoodRequests(s, h) }

  /** What no action ever undoes. */
  ghost predicate Extends(p: State, h: History, s: State, h': History) {
    && p.items.Keys <= s.items.Keys && p.rcas.Keys <= s.rcas.Keys
    && (forall id :: id in p.rcas ==> s.rcas[id] == p.rcas[id])
    && (forall id :: id in p.items && p.items[id].mttr.Some? && HasMTTR(p, id, p.items[id].mttr) ==>
          s.items[id].mttr == p.items[id].mttr)
    && (forall id :: HeldIn(h, id) <= HeldIn(h', id))
  }

  /** The row an item gets: new and OPEN, or the old one with a state that was led to. */
  ghost predicate SoundRow(s: State, h: History, w: WorkItem) {
    if w.id !in s.items then w.state == Open && w.mttr == None else
      var v := s.items[w.id];
      && (w.state == v.state || (w.state != Open && LedTo(HeldIn(h, w.id), w.state)))
      && (v.mttr.Some? ==> w.mttr == v.mttr)
      && (w.mttr.Some? || w.state == Closed ==> HasMTTR(s, w.id, w.mttr))
      && (v.resolvedAt.Some? || (w.state == Resolved && v.state != Resolved) ==> w.resolvedAt.Some?)
  }

  ghost predicate SoundEffect(s: State, h: History, e: Effect) {
    match e
    case Nothing => true
    case PutItem(w) => SoundRow(s, h, w)
    case PutRCA(rca) => rca.workItemID !in s.rcas && Insertable(s, h, rca)
  }

  lemma EffectIsSound(s: State, h: History, a: Action)
    requires Good(s, h)
    ensures SoundEffect(s, h, EffectOf(s, a))
  {
    match a {
      case Touch(id, _, _, _) =>
        if id in s.items { assert GoodItem(s, h, id); }
      case Step(req, _, _) =>
        if req in s.requests {
          var r := s.requests[req];
          assert GoodRequest(s, h, r);
          if r.Writing? { assert GoodItem(s, h, r.id); }
        }
      case _ =>
    }
  }

  lemma PutExtends(p: State, h: History, e: Effect, rs: map<nat, Request>)
    requires Good(p, h) && SoundEffect(p, h, e)
    ensures Extends(p, h, Put(p, e, rs), Note(h, Put(p, e, rs)))
  {
  }

  lemma PutKeepsWritten(p: State, h: History, w: WorkItem, rs: map<nat, Request>)
    requires Good(p, h) && SoundRow(p, h, w)
    ensures GoodItem(Put(p, PutItem(w), rs), Note(h, Put(p, PutItem(w), rs)), w.id)
  {
    if w.id in p.items { assert GoodItem(p, h, w.id); }
  }

  lemma PutKeepsItem(p: State, h: History, e: Effect, rs: map<nat, Request>, id: string)
    requires Good(p, h) && SoundEffect(p, h, e) && id in Put(p, e, rs).items
    ensures GoodItem(Put(p, e, rs), Note(h, Put(p, e, rs)), id)
  {
    if e.PutItem? && e.item.id == id {
      PutKeepsWritten(p, h, e.item, rs);
    } else {
      assert GoodItem(p, h, id);
      assert HeldIn(Note(h, Put(p, e, rs)), id) == HeldIn(h, id);
    }
  }

  lemma PutKeepsRCA(p: State, h: History, e: Effect, rs: map<nat, Request>, id: string)
    requires Good(p, h) && SoundEffect(p, h, e) && id in Put(p, e, rs).rcas
    ensures GoodRCA(Put(p, e, rs), Note(h, Put(p, e, rs)), id)
  {
    if id in p.rcas { assert GoodRCA(p, h, id); }
  }

  /** What a request relies on is never undone. */
  lemma StillGood(p: State, h: History, e: Effect, rs: map<nat, Request>, r: Request)
    requires Good(p, h) && SoundEffect(p, h, e) && GoodRequest(p, h, r)
    ensures GoodRequest(Put(p, e, rs), Note(h, Put(p, e, rs)), r)
  {
    PutExtends(p, h, e, rs);
  }

  lemma AdvanceIsGood(s: State, h: History, r: Request, reply: Reply, now: Time)
    requires Good(s, h) && GoodRequest(s, h, r)
    ensures GoodRequest(s, h, Advance(s, r, reply, now))
  {
    if r.Fetching? && r.id in s.items {
      assert GoodItem(s, h, r.id);
    } else if r.Submitting? && r.rca.workItemID in s.items {
      assert GoodItem(s, h, r.rca.workItemID);
    }
  }

  lemma RequestsStayGood(s: State, h: History, a: Action, req: nat)
    requires Good(s, h) && req in RequestsAfter(s, a)
    ensures GoodRequest(s, h, RequestsAfter(s, a)[req])
  {
    if req in s.requests {
      assert GoodRequest(s, h, s.requests[req]);
      if a.Step? && a.req == req { AdvanceIsGood(s, h, s.requests[req], a.reply, a.now); }
    }
  }

  lemma StepKeepsTables(p: State, h: History, a: Action, s: State, h': History)
    requires Good(p, h) && s == Apply(p, a) && h' == Note(h, s)
    ensures GoodTables(s, h') && Extends(p, h, s, h')
  {
    var e, rs := EffectOf(p, a), RequestsAfter(p, a);
    EffectIsSound(p, h, a);
    PutExtends(p, h, e, rs);
    forall id | id in s.items ensures GoodItem(s, h', id) { PutKeepsItem(p, h, e, rs, id); }
    forall id | id in s.rcas ensures GoodRCA(s, h', id) { PutKeepsRCA(p, h, e, rs, id); }
  }

  lemma StepKeepsRequests(p: State, h: History, a: Action, s: State, h': History)
    requires Good(p, h) && s == Apply(p, a) && h' == Note(h, s)
    ensures GoodRequests(s, h')
  {
    var e, rs := EffectOf(p, a), RequestsAfter(p, a);
    EffectIsSound(p, h, a);
    forall req | req in s.requests ensures GoodRequest(s, h', s.requests[req]) {
      RequestsStayGood(p, h, a, req);
      StillGood(p, h, e, rs, rs[req]);
    }
  }

  lemma StepKeeps(p: State, h: History, a: Action, s: State, h': History)
    requires Good(p, h) && s == Apply(p, a) && h' == Note(h, s)
    ensures Good(s, h') && Extends(p, h, s, h')
  {
    StepKeepsTables(p, h, a, s, h');
    StepKeepsRequests(p, h, a, s, h');
  }

  lemma {:induction false} RunsAreGood(acts: seq<Action>)
    ensures Good(Run(acts), Held(acts))
  {
    if acts != [] {
      RunsAreGood(acts[..|acts| - 1]);
      StepKeeps(Run(acts[..|acts| - 1]), Held(acts[..|acts| - 1]), acts[|acts| - 1], Run(acts), Held(acts));
    }
  }

  // --- Main results ------------------------------------------------------------------------------

  /** However requests interleave, fail and retry: a CLOSED item has its one RCA row, with every field
      complete; its MTTR is how long that RCA's incident lasted, and positive; and RESOLVED left its
      stamp. */
  lemma ClosedHasRCA(acts: seq<Action>, id: string)
    requires id in Run(acts).items && Run(acts).items[id].state == Closed
    ensures id in Run(acts).rcas && FilledIn(Run(acts).rcas[id]) && Run(acts).rcas[id].workItemID == id
    ensures Run(acts).items[id].mttr.Some? && Lasted(Run(acts).rcas[id], Run(acts).items[id].mttr.value)
    ensures Run(acts).items[id].mttr.value > 0.0
    ensures Run(acts).items[id].resolvedAt.Some?
  {
    var s, h := Run(acts), Held(acts);
    RunsAreGood(acts);
    assert GoodItem(s, h, id);
    assert GoodRCA(s, h, id);
    assert LedTo(HeldIn(h, id), Closed);
    ValidateMeans(s.rcas[id]);
    MTTRMeans(s.rcas[id]);
  }

  /** An MTTR or an RCA row that one state has, another has as well, unchanged. */
  ghost predicate Settles(p: State, s: State, id: string) {
    && (id in p.items && p.items[id].mttr.Some? ==> id in s.items && s.items[id].mttr == p.items[id].mttr)
    && (id in p.rcas ==> id in s.rcas && s.rcas[id] == p.rcas[id])
  }

  lemma StepSettles(s: State, h: History, a: Action, id: string)
    requires Good(s, h)
    ensures Settles(s, Apply(s, a), id)
  {
    StepKeeps(s, h, a, Apply(s, a), Note(h, Apply(s, a)));
    if id in s.items { assert GoodItem(s, h, id); }
  }

  /** Once set, an item's MTTR never changes, and neither does its RCA row. */
  lemma {:induction false} SettledForGood(acts: seq<Action>, n: nat, id: string)
    requires n <= |acts|
    ensures Settles(Run(acts[..n]), Run(acts), id)
    decreases |acts|
  {
    if n == |acts| {
      assert acts[..n] == acts;
    } else {
      var pre := acts[..|acts| - 1];
      assert pre[..n] == acts[..n];
      SettledForGood(pre, n, id);
      RunsAreGood(pre);
      StepSettles(Run(pre), Held(pre), acts[|acts| - 1], id);
    }
  }

  /** No state is skipped: the first time an item is in a state other than OPEN, it has been in the
      state that leads to it before. */
  lemma NoStateSkipped(acts: seq<Action>, a: Action, id: string)
    requires id in Run(acts + [a]).items
    ensures var st := Run(acts + [a]).items[id].state;
            st in HeldIn(Held(acts), id) || LedTo(HeldIn(Held(acts), id), st)
  {
    assert (acts + [a])[..|acts|] == acts;
    RunsAreGood(acts);
    if id in Run(acts).items { assert GoodItem(Run(acts), Held(acts), id); }
    EffectIsSound(Run(acts), Held(acts), a);
  }

  /** An RCA row exists only for an item that has been INVESTIGATING. */
  lemma RCAAfterInvestigating(acts: seq<Action>, id: string)
    requires id in Run(acts).rcas
    ensures Investigating in HeldIn(Held(acts), id)
  {
    RunsAreGood(acts);
    assert GoodRCA(Run(acts), Held(acts), id);
  }

  ghost predicate SeenAfter(acts: seq<Action>, n: nat, id: string, st: WorkItemState)
    requires n <= |acts|
  {
    id in Run(acts[..n]).items && Run(acts[..n]).items[id].state == st
  }

  ghost predicate Seen(acts: seq<Action>, id: string, st: WorkItemState) {
    exists n :: 0 <= n <= |acts| && SeenAfter(acts, n, id, st)
  }

  lemma SeenNext(acts: seq<Action>, id: string, st: WorkItemState)
    requires acts != []
    ensures Seen(acts, id, st) <==> Seen(acts[..|acts| - 1], id, st) || SeenAfter(acts, |acts|, id, st)
  {
    var pre := acts[..|acts| - 1];
    assert forall n :: 0 <= n <= |pre| ==> pre[..n] == acts[..n];
    if Seen(pre, id, st) {
      var n :| 0 <= n <= |pre| && SeenAfter(pre, n, id, st);
      assert SeenAfter(acts, n, id, st);
    }
    if n :| 0 <= n <= |acts| && SeenAfter(acts, n, id, st) && n < |acts| {
      assert SeenAfter(pre, n, id, st);
    }
  }

  /** `Held` is what its name says: the states seen after some prefix of the run. */
  lemma {:induction false} HeldMeans(acts: seq<Action>, id: string, st: WorkItemState)
    ensures st in HeldIn(Held(acts), id) <==> Seen(acts, id, st)
  {
    if acts == [] {
      assert acts[..0] == [];
    } else {
      var pre := acts[..|acts| - 1];
      HeldMeans(pre, id, st);
      SeenNext(acts, id, st);
      RowsStay(pre, acts[|acts| - 1], id);
      assert acts[..|acts|] == acts;
    }
  }

  lemma RowsStay(acts: seq<Action>, a: Action, id: string)
    ensures id in Held(acts) ==> id in Apply(Run(acts), a).items
  {
    RunsAreGood(acts);
    StepKeeps(Run(acts), Held(acts), a, Apply(Run(acts), a), Note(Held(acts), Apply(Run(acts), a)));
  }

  // --- CLOSED is final exactly while no other write to the item is in flight -------------------

  /** A request already past its checks, about to write another state. */
  ghost predicate StaleWrite(s: State, id: string) {
    exists req :: req in s.requests && WritesOther(s.requests[req], id)
  }

  predicate WritesOther(r: Request, id: string) { r.Writing? && r.id == id && r.to != Closed }

  function RunFrom(s: State, more: seq<Action>): State {
    if more == [] then s else Apply(RunFrom(s, more[..|more| - 1]), more[|more| - 1])
  }

  lemma {:induction false} RunFromFirst(s: State, a: Action, more: seq<Action>)
    ensures RunFrom(s, [a] + more) == RunFrom(Apply(s, a), more)
  {
    var all := [a] + more;
    if more == [] {
      assert all[..0] == [] && RunFrom(s, []) == s;
    } else {
      var n := |more| - 1;
      RunFromFirst(s, a, more[..n]);
      assert all[..n + 1] == [a] + more[..n];
    }
  }

  ghost predicate StaysClosed(s: State, id: string) {
    forall more: seq<Action> :: id in RunFrom(s, more).items && RunFrom(s, more).items[id].state == Closed
  }

  ghost predicate ClosedUnthreatened(s: State, id: string) {
    Stores.Filed(s.items) && id in s.items && s.items[id].state == Closed && !StaleWrite(s, id)
  }

  lemma ClosedStep(s: State, id: string, a: Action)
    requires ClosedUnthreatened(s, id)
    ensures ClosedUnthreatened(Apply(s, a), id)
  {
    var t := Apply(s, a);
    if a.Step? && a.req in s.requests { assert !WritesOther(s.requests[a.req], id); }
    forall req | req in t.requests ensures !WritesOther(t.requests[req], id) {
      if req in s.requests { assert !WritesOther(s.requests[req], id); }
    }
  }

  lemma {:induction false} ClosedRun(s: State, id: string, more: seq<Action>)
    requires ClosedUnthreatened(s, id)
    ensures ClosedUnthreatened(RunFrom(s, more), id)
  {
    if more != [] {
      ClosedRun(s, id, more[..|more| - 1]);
      ClosedStep(RunFrom(s, more[..|more| - 1]), id, more[|more| - 1]);
    }
  }

  lemma StaleWriteReopens(s: State, id: string)
    requires Stores.Filed(s.items) && id in s.items && s.items[id].state == Closed && StaleWrite(s, id)
    ensures !StaysClosed(s, id)
  {
    var req :| req in s.requests && WritesOther(s.requests[req], id);
    var late := [Step(req, Ack, 0.0)];
    assert late[..0] == [];
    assert RunFrom(s, late) == Apply(s, late[0]);
    assert EffectOf(s, late[0]) == PutItem(WithState(s.items[id], s.requests[req].to, s.requests[req].mttr, 0.0));
  }

  /** The source calls CLOSED terminal. With unguarded writes that is so, whatever happens next,
      exactly when no request that passed its checks earlier still has to write another state. */
  lemma ClosedFinalIff(acts: seq<Action>, id: string)
    requires id in Run(acts).items && Run(acts).items[id].state == Closed
    ensures StaysClosed(Run(acts), id) <==> !StaleWrite(Run(acts), id)
  {
    var s := Run(acts);
    RunsAreGood(acts);
    forall k | k in s.items ensures s.items[k].id == k { assert GoodItem(s, Held(acts), k); }
    if StaleWrite(s, id) {
      StaleWriteReopens(s, id);
    } else {
      forall more: seq<Action> ensures id in RunFrom(s, more).items && RunFrom(s, more).items[id].state == Closed {
        ClosedRun(s, id, more);
      }
    }
  }

  // --- And such a write does happen ----------------------------------------------------------------

  lemma RunAppend(acts: seq<Action>, a: Action)
    ensures Run(acts + [a]) == Apply(Run(acts), a)
  {
    assert (acts + [a])[..|acts|] == acts;
  }

  lemma Then(acts: seq<Action>, a: Action) returns (more: seq<Action>)
    ensures Run(more) == Apply(Run(acts), a)
  {
    RunAppend(acts, a);
    more := acts + [a];
  }

  const SOME_RCA :=
    RCA("r", "a", 1.0, 2.0, "UNKNOWN", "12345678901234567890", "1234567890", "1234567890", "", 0.0)

  /** Two requests both read INVESTIGATING; one resolves the item, an RCA is submitted and the item
      closed; the other one's write is still to come. */
  lemma ClosedCanReopen() returns (acts: seq<Action>)
    ensures "a" in Run(acts).items && Run(acts).items["a"].state == Closed && StaleWrite(Run(acts), "a")
  {
    acts := Then([], CreateItem(NewWorkItem("a", "c", P0, 0.0)));
    acts := Brought(acts, 0, Investigating);
    acts := Late(acts);
    acts := Brought(acts, 2, Resolved);
    acts := RCASubmitted(acts);
    acts := Brought(acts, 4, Closed);
    assert WritesOther(Run(acts).requests[1], "a");
  }

  lemma Late(acts: seq<Action>) returns (more: seq<Action>)
    requires 1 !in Run(acts).requests && "a" in Run(acts).items && Run(acts).items["a"].state == Investigating
    ensures Run(more).items == Run(acts).items && Run(more).rcas == Run(acts).rcas
    ensures Run(more).requests == Run(acts).requests[1 := Writing("a", Resolved, None, 1)]
  {
    more := Then(acts, BeginTransition(1, "a", Resolved));
    more := Then(more, Step(1, Ack, 0.0));
    ReadStep(Run(acts), 1, Fetching("a", Resolved), Ack, 0.0);
  }

  lemma RCASubmitted(acts: seq<Action>) returns (more: seq<Action>)
    requires 3 !in Run(acts).requests && "a" in Run(acts).items && Run(acts).items["a"].state == Resolved
    requires Run(acts).rcas == map[]
    ensures Run(more).items == Run(acts).items && Run(more).rcas == map["a" := SOME_RCA]
    ensures Run(more).requests == Run(acts).requests[3 := Finished]
  {
    more := Then(acts, BeginSubmit(3, SOME_RCA));
    more := Then(more, Step(3, Ack, 0.0));
    more := Then(more, Step(3, Ack, 0.0));
    more := Then(more, Step(3, Ack, 0.0));
    SubmitSteps(Run(acts), 3, SOME_RCA);
  }

  lemma SubmitSteps(s: State, req: nat, rca: RCA)
    requires req !in s.requests && Validate(rca).None? && rca.submittedAt == 0.0
    requires rca.workItemID in s.items && s.items[rca.workItemID].state == Resolved && s.rcas == map[]
    ensures var go := Step(req, Ack, 0.0);
            Apply(Apply(Apply(Apply(s, BeginSubmit(req, rca)), go), go), go)
              == State(s.items, map[rca.workItemID := rca], s.requests[req := Finished])
  {
    ReadStep(s, req, Submitting(rca), Ack, 0.0);
    ReadStep(s, req, CheckingRCA(rca), Ack, 0.0);
    assert !Stores.RCARefused(s.items, s.rcas, rca);
  }

  lemma Brought(acts: seq<Action>, req: nat, to: WorkItemState) returns (more: seq<Action>)
    requires req !in Run(acts).requests && "a" in Run(acts).items && Run(acts).items["a"].id == "a"
    requires CanTransitionTo(Run(acts).items["a"].state, to)
    requires to == Closed ==> "a" in Run(acts).rcas && Validate(Run(acts).rcas["a"]).None?
    ensures Run(more).items.Keys == Run(acts).items.Keys && Run(more).rcas == Run(acts).rcas
    ensures Run(more).items["a"].state == to && Run(more).items["a"].id == "a"
    ensures Run(more).requests == Run(acts).requests[req := Finished]
  {
    var ready := Approved(acts, req, to);
    var s, go := Run(ready), Step(req, Ack, 0.0);
    more := Then(ready, go);
    assert EffectOf(s, go) == PutItem(WithState(s.items["a"], to, s.requests[req].mttr, 0.0));
  }

  lemma Approved(acts: seq<Action>, req: nat, to: WorkItemState) returns (more: seq<Action>)
    requires req !in Run(acts).requests && "a" in Run(acts).items
    requires CanTransitionTo(Run(acts).items["a"].state, to)
    requires to == Closed ==> "a" in Run(acts).rcas && Validate(Run(acts).rcas["a"]).None?
    ensures exists mttr :: Run(more) == At(Run(acts), req, Writing("a", to, mttr, 1))
  {
    var s := Run(acts);
    more := Then(acts, BeginTransition(req, "a", to));
    more := Then(more, Step(req, Ack, 0.0));
    ReadStep(s, req, Fetching("a", to), Ack, 0.0);
    if to == Closed {
      more := Then(more, Step(req, Ack, 0.0));
      ReadStep(s, req, FetchingRCA("a"), Ack, 0.0);
      assert Run(more) == At(s, req, Writing("a", to, Some(MTTRMinutes(s.rcas["a"])), 1));
    } else {
      assert Run(more) == At(s, req, Writing("a", to, None, 1));
    }
  }
}
