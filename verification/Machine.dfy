/** The workflow machine: Transition and SubmitRCA as whole operations. */
module Machine {
  import opened Models
  import opened Retries
  import opened Stores
  import opened Redis
  import Races = WorkflowRaces

  datatype WorkflowError =
    | WorkItemNotFound
    | InvalidTransition(from: WorkItemState, to: WorkItemState)
    | RCARequiredForClose
    | RCAInvalid(why: RCAError)
    | WrongStateForRCA(state: WorkItemState)
    | RCAAlreadySubmitted
    | StoreFailure

  datatype Result<T> = Success(value: T) | Fail(error: WorkflowError)

  /** How the stores answer one Transition: its reads, the attempts of its write, its invalidation. */
  datatype Weather = Weather(
    readOk: bool, rcaReadOk: bool, write: seq<Attempt>, invalidate: Reply, rereadOk: bool)

  predicate IsWeather(f: Weather) { IsScript(f.write) }

  /** Every call is answered the first time. */
  function Fair(now: Time): Weather { Weather(true, true, [Attempt(now, Ack)], Ack, true) }

  datatype Db = Db(items: Items, rcas: RCAs)

  /** The checks before the write: an error, or the MTTR to store (none unless closing). */
  function Decide(db: Db, id: string, to: WorkItemState, f: Weather): Result<Option<real>> {
    if !f.readOk then Fail(StoreFailure)
    else if id !in db.items then Fail(WorkItemNotFound)
    else if !CanTransitionTo(db.items[id].state, to) then Fail(InvalidTransition(db.items[id].state, to))
    else if to != Closed then Success(None)
    else if !f.rcaReadOk then Fail(StoreFailure)
    else if id !in db.rcas then Fail(RCARequiredForClose)
    else if Validate(db.rcas[id]).Some? then Fail(RCARequiredForClose)
    else Success(Some(MTTRMinutes(db.rcas[id])))
  }

  function Transitioned(db: Db, id: string, to: WorkItemState, f: Weather): (Db, Result<WorkItem>) {
    match Decide(db, id, to, f)
    case Fail(e) => (db, Fail(e))
    case Success(mttr) =>
      var stmt := (w, t) => WithState(w, to, mttr, t);
      var after := db.(items := UpdatedRow(db.items, id, stmt, AppliedAt(f.write)));
      if !Acked(f.write) || !f.rereadOk || id !in after.items then (after, Fail(StoreFailure))
      else (after, Success(after.items[id]))
  }

  /** SubmitRCA's checks before the insert. */
  function Admit(db: Db, rca: RCA, readOk: bool, rcaReadOk: bool): Option<WorkflowError> {
    if Validate(rca).Some? then Some(RCAInvalid(Validate(rca).value))
    else if !readOk then Some(StoreFailure)
    else if rca.workItemID !in db.items then Some(WorkItemNotFound)
    else if db.items[rca.workItemID].state == Open || db.items[rca.workItemID].state == Closed
      then Some(WrongStateForRCA(db.items[rca.workItemID].state))
    else if !rcaReadOk then Some(StoreFailure)
    else if rca.workItemID in db.rcas then Some(RCAAlreadySubmitted)
    else None
  }

  function Submitted(db: Db, rca: RCA, readOk: bool, rcaReadOk: bool, now: Time, write: seq<Attempt>)
    : (Db, Option<WorkflowError>)
  {
    var no := Admit(db, rca, readOk, rcaReadOk);
    if no.Some? then (db, no) else
      var row := rca.(submittedAt := now);
      var r := InsertOutcome(RCARefused(db.items, db.rcas, row), write);
      (if r.stored then db.(rcas := db.rcas[rca.workItemID := row]) else db,
       if r.ok then None else Some(StoreFailure))
  }

  class Machine {
    const postgres: PostgresStore
    const redis: RedisStore

    constructor (pg: PostgresStore, rd: RedisStore)
      ensures postgres == pg && redis == rd
    {
      postgres, redis := pg, rd;
    }

    function View(): Db
      reads postgres
    {
      Db(postgres.workItems, postgres.rcas)
    }

    method Transition(id: string, toState: WorkItemState, f: Weather) returns (r: Result<WorkItem>)
      requires IsWeather(f)
      modifies postgres`workItems, redis`dashboard
      ensures (View(), r) == Transitioned(old(View()), id, toState, f)
      ensures redis.dashboard ==
        if Decide(old(View()), id, toState, f).Success? && Acked(f.write) && f.invalidate != Failure then None
        else old(redis.dashboard)
    {
      if !f.readOk {
        return Fail(StoreFailure);
      }
      if id !in postgres.workItems {
        return Fail(WorkItemNotFound);
      }
      var current := postgres.workItems[id].state;
      if !CanTransitionTo(current, toState) {
        return Fail(InvalidTransition(current, toState));
      }
      var mttr := None;
      if toState == Closed {
        if !f.rcaReadOk {
          return Fail(StoreFailure);
        }
        if id !in postgres.rcas {
          return Fail(RCARequiredForClose);
        }
        var rca := postgres.rcas[id];
        if Validate(rca).Some? {
          return Fail(RCARequiredForClose);
        }
        mttr := Some(MTTRMinutes(rca));
      }
      var ok := postgres.UpdateWorkItemState(id, toState, mttr, f.write);
      if !ok {
        return Fail(StoreFailure);
      }
      var _ := redis.InvalidateDashboard(f.invalidate);
      if !f.rereadOk || id !in postgres.workItems {
        return Fail(StoreFailure);
      }
      return Success(postgres.workItems[id]);
    }

    method SubmitRCA(rca: RCA, readOk: bool, rcaReadOk: bool, now: Time, write: seq<Attempt>)
      returns (error: Option<WorkflowError>)
      requires IsScript(write)
      modifies postgres`rcas
      ensures (View(), error) == Submitted(old(View()), rca, readOk, rcaReadOk, now, write)
    {
      var invalid := Validate(rca);
      if invalid.Some? {
        return Some(RCAInvalid(invalid.value));
      }
      if !readOk {
        return Some(StoreFailure);
      }
      if rca.workItemID !in postgres.workItems {
        return Some(WorkItemNotFound);
      }
      var state := postgres.workItems[rca.workItemID].state;
      if state == Open || state == Closed {
        return Some(WrongStateForRCA(state));
      }
      if !rcaReadOk {
        return Some(StoreFailure);
      }
      if rca.workItemID in postgres.rcas {
        return Some(RCAAlreadySubmitted);
      }
      var ok := postgres.CreateRCA(rca.(submittedAt := now), write);
      return if ok then None else Some(StoreFailure);
    }
  }

  // --- Runs of whole operations --------------------------------------------------------------------

  /** Everything that writes the two tables: ingestion, the two workflow operations, the workers'
      counting and the escalator. */
  datatype Op =
    | Create(item: WorkItem, write: seq<Attempt>)
    | Transition(id: string, to: WorkItemState, f: Weather)
    | Submit(rca: RCA, readOk: bool, rcaReadOk: bool, now: Time, write: seq<Attempt>)
    | CountSignal(id: string, write: seq<Attempt>)
    | Escalate(id: string, severity: Severity, write: seq<Attempt>)

  function Do(db: Db, op: Op): Db {
    match op
    case Create(w, write) =>
      if w == NewWorkItem(w.id, w.componentID, w.severity, w.createdAt)
        && InsertOutcome(w.id in db.items, write).stored
      then db.(items := db.items[w.id := w]) else db
    case Transition(id, to, f) => Transitioned(db, id, to, f).0
    case Submit(rca, r1, r2, now, write) => Submitted(db, rca, r1, r2, now, write).0
    case CountSignal(id, write) => db.(items := UpdatedRow(db.items, id, WithOneMoreSignal, AppliedAt(write)))
    case Escalate(id, sev, write) =>
      db.(items := UpdatedRow(db.items, id, (w, t) => WithSeverity(w, sev, t), AppliedAt(write)))
  }

  function Run(ops: seq<Op>): Db {
    if ops == [] then Db(map[], map[]) else Do(Run(ops[..|ops| - 1]), ops[|ops| - 1])
  }

  /** The row is the same but for its severity, its count and its update time. */
  predicate SameWorkflow(v: WorkItem, w: WorkItem) {
    v == w.(severity := v.severity, signalCount := v.signalCount, updatedAt := v.updatedAt)
  }

  predicate Touches(op: Op) { op.CountSignal? || op.Escalate? }

  /** Counting and escalating touch nothing that the workflow looks at. */
  lemma TouchKeepsWorkflow(db: Db, op: Op)
    requires Touches(op)
    ensures var db' := Do(db, op);
            && db'.rcas == db.rcas && db'.items.Keys == db.items.Keys
            && forall id :: id in db.items ==> SameWorkflow(db'.items[id], db.items[id])
  {
    if op.id in db.items {
      if op.CountSignal? { CountedTimes(db.items[op.id], AppliedAt(op.write)); }
      if op.Escalate? { SeverityWrittenOnce(db.items[op.id], op.severity, AppliedAt(op.write)); }
    }
  }

  predicate Defined(s: WorkItemState) { !s.Undefined? }

  /** What holds between operations: stored RCAs are valid and belong to an item past OPEN, and
      CLOSED items have one. */
  ghost predicate Consistent(db: Db) {
    && (forall id :: id in db.rcas ==>
          Validate(db.rcas[id]).None? && db.rcas[id].workItemID == id && id in db.items && db.items[id].state != Open)
    && (forall id :: id in db.items ==> Defined(db.items[id].state) && (db.items[id].state == Closed ==> id in db.rcas))
  }

  /** The table after a state update that took effect at each of the times: the last one's. */
  function Stamped(items: Items, id: string, to: WorkItemState, mttr: Option<real>, ts: seq<Time>): Items {
    if id in items && ts != [] then items[id := WithState(items[id], to, mttr, ts[|ts| - 1])] else items
  }

  lemma UpdatedState(items: Items, id: string, to: WorkItemState, mttr: Option<real>, ts: seq<Time>)
    ensures UpdatedRow(items, id, (w, t) => WithState(w, to, mttr, t), ts) == Stamped(items, id, to, mttr, ts)
  {
    if id in items && ts != [] { StateWrittenOnce(items[id], to, mttr, ts); }
  }

  /** The database after a transition that passed its checks: its row rewritten, once, with the time
      of the last attempt that took effect. */
  lemma TransitionWrites(db: Db, id: string, to: WorkItemState, f: Weather)
    requires Decide(db, id, to, f).Success?
    ensures id in db.items
    ensures var db' := Transitioned(db, id, to, f).0;
            && db'.rcas == db.rcas
            && db'.items == Stamped(db.items, id, to, Decide(db, id, to, f).value, AppliedAt(f.write))
  {
    UpdatedState(db.items, id, to, Decide(db, id, to, f).value, AppliedAt(f.write));
  }

  lemma TransitionKeepsConsistent(db: Db, id: string, to: WorkItemState, f: Weather)
    requires Consistent(db)
    ensures Consistent(Transitioned(db, id, to, f).0)
  {
    var db' := Transitioned(db, id, to, f).0;
    if Decide(db, id, to, f).Success? {
      TransitionWrites(db, id, to, f);
      assert db'.items[id].state == db.items[id].state || db'.items[id].state == to;
      assert forall k :: k in db.items && k != id ==> db'.items[k] == db.items[k];
    }
  }

  lemma TouchKeepsConsistent(db: Db, op: Op)
    requires Consistent(db) && Touches(op)
    ensures Consistent(Do(db, op))
  {
    TouchKeepsWorkflow(db, op);
    assert forall id :: id in db.items ==> Do(db, op).items[id].state == db.items[id].state;
  }

  lemma OpsKeepConsistent(db: Db, op: Op)
    requires Consistent(db)
    ensures Consistent(Do(db, op))
  {
    match op {
      case Transition(id, to, f) => TransitionKeepsConsistent(db, id, to, f);
      case Create(_, _) =>
      case Submit(_, _, _, _, _) =>
      case _ => TouchKeepsConsistent(db, op);
    }
  }

  lemma {:induction false} RunsConsistent(ops: seq<Op>)
    ensures Consistent(Run(ops))
  {
    if ops != [] {
      RunsConsistent(ops[..|ops| - 1]);
      OpsKeepConsistent(Run(ops[..|ops| - 1]), ops[|ops| - 1]);
    }
  }

  lemma OpFiled(db: Db, op: Op)
    requires Filed(db.items)
    ensures Filed(Do(db, op).items)
  {
    if Touches(op) { TouchKeepsWorkflow(db, op); }
    if op.Transition? && Decide(db, op.id, op.to, op.f).Success? { TransitionWrites(db, op.id, op.to, op.f); }
  }

  lemma {:induction false} RunsFiled(ops: seq<Op>)
    ensures Filed(Run(ops).items)
  {
    if ops != [] {
      RunsFiled(ops[..|ops| - 1]);
      OpFiled(Run(ops[..|ops| - 1]), ops[|ops| - 1]);
    }
  }

  // --- Main results ----------------------------------------------------------------------------------

  /** A row after a step of the workflow at `now`: its state and update time, the stamp that goes with
      the state, on closing the MTTR of the RCA, and nothing else. */
  predicate Moved(w: WorkItem, v: WorkItem, to: WorkItemState, now: Time, rcas: RCAs) {
    && v == w.(state := to, updatedAt := now,
               resolvedAt := if to == Resolved then Some(now) else w.resolvedAt,
               closedAt := if to == Closed then Some(now) else w.closedAt,
               mttr := if to == Closed then v.mttr else w.mttr)
    && (to == Closed ==> w.id in rcas && v.mttr.Some? && Lasted(rcas[w.id], v.mttr.value))
  }

  /** With the stores up, a transition in any reachable database succeeds exactly when it is a step of
      the workflow, its button being offered, and, for CLOSED, an RCA has been submitted: the stored
      RCA never fails its recheck. What it then returns and stores is the row moved to `to`; nothing
      else changes. And a transition that fails changes nothing. */
  lemma TransitionSucceedsIff(ops: seq<Op>, id: string, to: WorkItemState, now: Time)
    ensures var db := Run(ops); var (db', r) := Transitioned(db, id, to, Fair(now));
            && (r.Success? <==>
                  id in db.items && (db.items[id].state, to) in STEPS && (to == Closed ==> id in db.rcas))
            && (r.Success? ==>
                  && to in ValidTransitions(db.items[id].state)
                  && db' == db.(items := db.items[id := r.value]) && Moved(db.items[id], r.value, to, now, db.rcas))
            && (r.Fail? ==> db' == db)
  {
    var db := Run(ops);
    RunsConsistent(ops);
    RunsFiled(ops);
    if id in db.items { TransitionsAgree(db.items[id].state, to); }
    if Decide(db, id, to, Fair(now)).Success? {
      TransitionWrites(db, id, to, Fair(now));
      if to == Closed {
        ValidateMeans(db.rcas[id]);
        MTTRMeans(db.rcas[id]);
      }
    }
  }

  /** What a transition answers, for every database and however the stores answer. Any other answer is
      an error of the stores. */
  lemma TransitionAnswers(db: Db, id: string, to: WorkItemState, f: Weather)
    requires IsWeather(f)
    ensures var r, found := Transitioned(db, id, to, f).1, f.readOk && id in db.items;
            && (r == Fail(WorkItemNotFound) <==> f.readOk && id !in db.items)
            && (forall a, b :: r == Fail(InvalidTransition(a, b)) <==>
                  found && a == db.items[id].state && b == to && (a, b) !in STEPS)
            && (r == Fail(RCARequiredForClose) <==>
                  && found && db.items[id].state == Resolved && to == Closed && f.rcaReadOk
                  && !(id in db.rcas && FilledIn(db.rcas[id])))
            && (r.Success? <==>
                  && found && (db.items[id].state, to) in STEPS
                  && (to == Closed ==> f.rcaReadOk && id in db.rcas && FilledIn(db.rcas[id]))
                  && (exists i :: 0 <= i < |f.write| && f.write[i].reply == Ack) && f.rereadOk)
            && (r.Fail? ==> r.error != StoreFailure ==> Transitioned(db, id, to, f).0 == db)
  {
    if id in db.items { TransitionsAgree(db.items[id].state, to); }
    if id in db.rcas { ValidateMeans(db.rcas[id]); }
    AckedIff(f.write);
    if Decide(db, id, to, f).Success? { TransitionWrites(db, id, to, f); }
  }

  /** With the stores up, an RCA is accepted in any reachable database exactly when it is complete, its
      id is unused, and its item is INVESTIGATING or RESOLVED and has none. A refusal changes nothing. */
  lemma SubmitSucceedsIff(ops: seq<Op>, rca: RCA, now: Time)
    ensures var db := Run(ops); var (db', e) := Submitted(db, rca, true, true, now, [Attempt(now, Ack)]);
            && (e.None? <==>
                  && FilledIn(rca) && (forall k :: k in db.rcas ==> db.rcas[k].id != rca.id)
                  && rca.workItemID in db.items && db.items[rca.workItemID].state in {Investigating, Resolved}
                  && rca.workItemID !in db.rcas)
            && db' == if e.None? then db.(rcas := db.rcas[rca.workItemID := rca.(submittedAt := now)]) else db
  {
    RunsConsistent(ops);
    ValidateMeans(rca);
    var db := Run(ops);
    if rca.workItemID in db.items { assert Defined(db.items[rca.workItemID].state); }
  }

  /** What a submission answers, for every database and however the stores answer. */
  lemma SubmitAnswers(db: Db, rca: RCA, readOk: bool, rcaReadOk: bool, now: Time, write: seq<Attempt>)
    ensures var e := Submitted(db, rca, readOk, rcaReadOk, now, write).1;
            var found := FilledIn(rca) && readOk && rca.workItemID in db.items;
            var open := found && db.items[rca.workItemID].state != Open && db.items[rca.workItemID].state != Closed;
            && (forall why :: e == Some(RCAInvalid(why)) <==> FirstComplaint(rca, why))
            && (e == Some(WorkItemNotFound) <==> FilledIn(rca) && readOk && rca.workItemID !in db.items)
            && (forall st :: e == Some(WrongStateForRCA(st)) <==>
                  found && !open && st == db.items[rca.workItemID].state)
            && (e == Some(RCAAlreadySubmitted) <==> open && rcaReadOk && rca.workItemID in db.rcas)
            && (e.None? <==>
                  && open && rcaReadOk && rca.workItemID !in db.rcas && FirstAnswerAcks(write)
                  && (forall k :: k in db.rcas ==> db.rcas[k].id != rca.id))
  {
    ValidateMeans(rca);
    InsertedIff(RCARefused(db.items, db.rcas, rca.(submittedAt := now)), write);
  }

  /** However the stores answer, a transition that reports an error left the database as it was
      exactly when it failed its checks or every attempt of its write failed. */
  lemma FailureChangesNothingIff(db: Db, id: string, to: WorkItemState, f: Weather)
    requires IsWeather(f) && Transitioned(db, id, to, f).1.Fail?
    ensures Transitioned(db, id, to, f).0 == db <==> Decide(db, id, to, f).Fail? || AllFailed(f.write)
  {
    if Decide(db, id, to, f).Success? {
      TransitionWrites(db, id, to, f);
      NoneAppliedIff(f.write);
      var db' := Transitioned(db, id, to, f).0;
      if AppliedAt(f.write) != [] {
        assert db'.items[id].state == to && db.items[id].state != to;
      }
    }
  }

  /** The same of an RCA: it is stored all the same when an attempt was applied but not reported. */
  lemma SubmitFailureChangesNothingIff(db: Db, rca: RCA, readOk: bool, rcaReadOk: bool, now: Time, write: seq<Attempt>)
    requires Submitted(db, rca, readOk, rcaReadOk, now, write).1.Some?
    ensures Submitted(db, rca, readOk, rcaReadOk, now, write).0 == db
       <==> || Admit(db, rca, readOk, rcaReadOk).Some?
            || RCARefused(db.items, db.rcas, rca)
            || AllFailed(write)
  {
    var row := rca.(submittedAt := now);
    assert RCARefused(db.items, db.rcas, row) <==> RCARefused(db.items, db.rcas, rca);
    StoredIff(RCARefused(db.items, db.rcas, row), write);
    if Admit(db, rca, readOk, rcaReadOk).None? && InsertOutcome(RCARefused(db.items, db.rcas, row), write).stored {
      assert rca.workItemID in Submitted(db, rca, readOk, rcaReadOk, now, write).0.rcas;
    }
  }

  /** A write that is applied once, not acknowledged, and fails when it is tried again. */
  const UNREPORTED := [Attempt(1.0, LostAck), Attempt(2.0, Failure), Attempt(3.0, Failure)]

  lemma UnreportedApplies()
    ensures IsScript(UNREPORTED) && AppliedAt(UNREPORTED) == [1.0] && !Acked(UNREPORTED)
  {
    assert UNREPORTED[1..] == [Attempt(2.0, Failure), Attempt(3.0, Failure)];
    assert AppliedAt(UNREPORTED[1..][1..]) == [] && !Acked(UNREPORTED[1..][1..]);
  }

  lemma OneItem(id: string) returns (ops: seq<Op>)
    ensures Run(ops) == Db(map[id := NewWorkItem(id, "c", P2, 0.0)], map[])
  {
    ops := [Create(NewWorkItem(id, "c", P2, 0.0), [Attempt(0.0, Ack)])];
    assert ops[..0] == [];
  }

  /** In a reachable database a transition may report an error and have moved its item. */
  lemma ReportedFailureMayMove(id: string) returns (ops: seq<Op>)
    ensures id in Run(ops).items && Run(ops).items[id].state == Open
    ensures var (db', r) := Transitioned(Run(ops), id, Investigating, Fair(0.0).(write := UNREPORTED));
            r == Fail(StoreFailure) && id in db'.items && db'.items[id].state == Investigating
  {
    ops := OneItem(id);
    UnreportedApplies();
    TransitionWrites(Run(ops), id, Investigating, Fair(0.0).(write := UNREPORTED));
  }

  /** And a submission may report an error and have stored its RCA. */
  lemma ReportedFailureMayStore() returns (ops: seq<Op>)
    ensures "a" !in Run(ops).rcas
    ensures var (db', e) := Submitted(Run(ops), Races.SOME_RCA, true, true, 0.0, UNREPORTED);
            e == Some(StoreFailure) && "a" in db'.rcas
  {
    ops := OneItem("a");
    var db, move := Run(ops), Transition("a", Investigating, Fair(0.0));
    TransitionWrites(db, "a", Investigating, Fair(0.0));
    assert (ops + [move])[..|ops|] == ops;
    ops := ops + [move];
    assert Run(ops) == Do(db, move);
  }

  /** With operations one after the other, CLOSED is terminal, whatever they are and however the
      stores answer: only the row's severity, count and update time may still change. */
  lemma {:induction false} ClosedIsTerminal(ops: seq<Op>, n: nat, id: string)
    requires n <= |ops| && id in Run(ops[..n]).items && Run(ops[..n]).items[id].state == Closed
    ensures id in Run(ops).items && SameWorkflow(Run(ops).items[id], Run(ops[..n]).items[id])
    decreases |ops|
  {
    if n == |ops| {
      assert ops[..n] == ops;
    } else {
      var pre, op := ops[..|ops| - 1], ops[|ops| - 1];
      assert pre[..n] == ops[..n];
      ClosedIsTerminal(pre, n, id);
      ClosedStays(Run(pre), op, id);
    }
  }

  lemma ClosedStays(db: Db, op: Op, id: string)
    requires id in db.items && db.items[id].state == Closed
    ensures id in Do(db, op).items && SameWorkflow(Do(db, op).items[id], db.items[id])
  {
    if Touches(op) { TouchKeepsWorkflow(db, op); }
    if op.Transition? && Decide(db, op.id, op.to, op.f).Success? { TransitionWrites(db, op.id, op.to, op.f); }
  }

  // --- Every item can be closed ------------------------------------------------------------------------

  function StatesLeft(s: WorkItemState): nat {
    match s case Open => 3 case Investigating => 2 case Resolved => 1 case _ => 0
  }

  /** The transitions still to make, and an RCA before the last one if there is none yet. */
  function Plan(db: Db, id: string, rca: RCA, now: Time): seq<Op>
    requires id in db.items
  {
    var submit := if id in db.rcas then [] else [Submit(rca, true, true, now, [Attempt(now, Ack)])];
    var close := submit + [Transition(id, Closed, Fair(now))];
    match db.items[id].state
    case Open => [Transition(id, Investigating, Fair(now)), Transition(id, Resolved, Fair(now))] + close
    case Investigating => [Transition(id, Resolved, Fair(now))] + close
    case Resolved => close
    case _ => []
  }

  function Transitions(ops: seq<Op>): nat {
    if ops == [] then 0 else Transitions(ops[1..]) + if ops[0].Transition? then 1 else 0
  }

  function DoAll(db: Db, ops: seq<Op>): Db
    decreases ops
  {
    if ops == [] then db else DoAll(Do(db, ops[0]), ops[1..])
  }

  predicate Fit(db: Db, id: string, rca: RCA) {
    && Validate(rca).None? && rca.workItemID == id
    && (forall k :: k in db.rcas ==> db.rcas[k].id != rca.id)
  }

  lemma FairTransition(db: Db, id: string, to: WorkItemState, now: Time)
    requires Consistent(db) && id in db.items && CanTransitionTo(db.items[id].state, to)
    requires to == Closed ==> id in db.rcas
    ensures var db' := Do(db, Transition(id, to, Fair(now)));
            && Consistent(db') && db'.rcas == db.rcas && id in db'.items && db'.items[id].state == to
  {
    OpsKeepConsistent(db, Transition(id, to, Fair(now)));
    TransitionWrites(db, id, to, Fair(now));
  }

  lemma RCAAdded(db: Db, id: string, rca: RCA, now: Time)
    requires Consistent(db) && id in db.items && Fit(db, id, rca) && db.items[id].state == Resolved && id !in db.rcas
    ensures var next := Do(db, Submit(rca, true, true, now, [Attempt(now, Ack)]));
            Consistent(next) && id in next.rcas && next.items == db.items
  {
    OpsKeepConsistent(db, Submit(rca, true, true, now, [Attempt(now, Ack)]));
  }

  lemma CloseResolved(db: Db, id: string, rca: RCA, now: Time)
    requires Consistent(db) && id in db.items && Fit(db, id, rca) && db.items[id].state == Resolved
    ensures var end := DoAll(db, Plan(db, id, rca, now)); id in end.items && end.items[id].state == Closed
    ensures var plan := Plan(db, id, rca, now); Transitions(plan) == 1 >= |plan| - 1
  {
    var plan := Plan(db, id, rca, now);
    var last := [Transition(id, Closed, Fair(now))];
    assert last[1..] == [] && Transitions(last) == Transitions(last[1..]) + 1;
    if id in db.rcas {
      FairTransition(db, id, Closed, now);
    } else {
      var next := Do(db, plan[0]);
      RCAAdded(db, id, rca, now);
      FairTransition(next, id, Closed, now);
      assert plan[1..] == last;
      assert DoAll(next, last) == DoAll(Do(next, last[0]), []);
    }
  }

  lemma {:induction false} PlanCloses(db: Db, id: string, rca: RCA, now: Time)
    requires Consistent(db) && id in db.items && Fit(db, id, rca)
    ensures var end := DoAll(db, Plan(db, id, rca, now)); id in end.items && end.items[id].state == Closed
    ensures var plan := Plan(db, id, rca, now); Transitions(plan) == StatesLeft(db.items[id].state) >= |plan| - 1
    decreases StatesLeft(db.items[id].state)
  {
    var plan := Plan(db, id, rca, now);
    match db.items[id].state {
      case Open =>
        FairTransition(db, id, Investigating, now);
        var next := Do(db, plan[0]);
        PlanCloses(next, id, rca, now);
        assert plan[1..] == Plan(next, id, rca, now);
      case Investigating =>
        FairTransition(db, id, Resolved, now);
        var next := Do(db, plan[0]);
        PlanCloses(next, id, rca, now);
        assert plan[1..] == Plan(next, id, rca, now);
      case Resolved => CloseResolved(db, id, rca, now);
      case Closed =>
    }
  }

  /** From every reachable database, an item with k states left is CLOSED by k transitions and at
      most one SubmitRCA, of any valid RCA with an unused id. */
  lemma EveryItemCanBeClosed(ops: seq<Op>, id: string, rca: RCA, now: Time)
    requires id in Run(ops).items && Fit(Run(ops), id, rca)
    ensures var db := Run(ops); var plan := Plan(db, id, rca, now);
            && Transitions(plan) == StatesLeft(db.items[id].state)
            && |plan| <= Transitions(plan) + 1
            && id in DoAll(db, plan).items && DoAll(db, plan).items[id].state == Closed
  {
    RunsConsistent(ops);
    PlanCloses(Run(ops), id, rca, now);
  }
}
