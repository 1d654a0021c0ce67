/** Transition and SubmitRCA as whole operations are what their separate steps do to the tables when
    nothing comes between, however the stores answer. */
module WorkflowRefinement {
  import opened Models
  import opened Retries
  import opened Stores
  import opened Machine
  import Races = WorkflowRaces

  // --- A request's steps -------------------------------------------------------------------------

  function ReadReply(ok: bool): Reply { if ok then Ack else Failure }

  /** The attempts of a request's write, and its end: abandoned, if the list was too short. */
  function WriteSteps(req: nat, script: seq<Attempt>): seq<Races.Action> {
    if script == [] then [Races.Abandon(req)]
    else [Races.Step(req, script[0].reply, script[0].at)] + WriteSteps(req, script[1..])
  }

  /** One request's steps with nothing in between, as its stores answer them. */
  function TransitionSteps(req: nat, id: string, to: WorkItemState, f: Weather): seq<Races.Action> {
    var rest := WriteSteps(req, f.write);
    [Races.BeginTransition(req, id, to)] + ([Races.Step(req, ReadReply(f.readOk), 0.0)]
      + if to == Closed then [Races.Step(req, ReadReply(f.rcaReadOk), 0.0)] + rest else rest)
  }

  function SubmitSteps(req: nat, rca: RCA, readOk: bool, rcaReadOk: bool, now: Time, write: seq<Attempt>)
    : seq<Races.Action>
  {
    [Races.BeginSubmit(req, rca)] + ([Races.Step(req, ReadReply(readOk), now)]
      + ([Races.Step(req, ReadReply(rcaReadOk), now)] + WriteSteps(req, write)))
  }

  /** A request that never began or is over does nothing. */
  lemma {:induction false} FinishedIdles(s: Races.State, req: nat, script: seq<Attempt>)
    requires req in s.requests ==> s.requests[req] == Races.Finished
    ensures Races.RunFrom(s, WriteSteps(req, script)) == s
  {
    var steps := WriteSteps(req, script);
    assert Races.Apply(s, steps[0]) == s;
    if script == [] {
      assert steps[..0] == [];
    } else {
      Races.RunFromFirst(s, steps[0], WriteSteps(req, script[1..]));
      FinishedIdles(s, req, script[1..]);
    }
  }

  // --- The attempts of a write ---------------------------------------------------------------------

  function StampedOnce(items: Items, r: Races.Request, a: Attempt): Items
    requires r.Writing?
  {
    if a.reply == Failure then items else Stamped(items, r.id, r.to, r.mttr, [a.at])
  }

  lemma StampedAgain(items: Items, r: Races.Request, t: Time, ts: seq<Time>)
    requires r.Writing?
    ensures Stamped(Stamped(items, r.id, r.to, r.mttr, [t]), r.id, r.to, r.mttr, ts)
         == Stamped(items, r.id, r.to, r.mttr, [t] + ts)
  {
    if r.id in items && ts != [] {
      var last, w := ts[|ts| - 1], items[r.id];
      assert ([t] + ts)[|ts|] == last;
      assert WithState(WithState(w, r.to, r.mttr, t), r.to, r.mttr, last) == WithState(w, r.to, r.mttr, last);
    }
  }

  /** The first attempt, then the others unless it was acknowledged. */
  lemma StampedNext(items: Items, r: Races.Request, script: seq<Attempt>)
    requires r.Writing? && script != []
    ensures Stamped(items, r.id, r.to, r.mttr, AppliedAt(script))
         == Stamped(StampedOnce(items, r, script[0]), r.id, r.to, r.mttr,
                    if script[0].reply == Ack then [] else AppliedAt(script[1..]))
  {
    if script[0].reply == LostAck {
      StampedAgain(items, r, script[0].at, AppliedAt(script[1..]));
    }
  }

  /** One attempt of a state update. */
  lemma WriteAttempt(s: Races.State, req: nat, r: Races.Request, a: Attempt)
    requires r.Writing? && Filed(s.items)
    ensures var next := Races.Retry(a.reply, r.attempt, Races.Writing(r.id, r.to, r.mttr, r.attempt + 1));
            var t := Races.State(StampedOnce(s.items, r, a), s.rcas, s.requests);
            Races.Apply(Races.At(s, req, r), Races.Step(req, a.reply, a.at)) == Races.At(t, req, next) && Filed(t.items)
  {
  }

  lemma {:induction false} WritesUndisturbed(s: Races.State, req: nat, r: Races.Request, script: seq<Attempt>)
    requires r.Writing? && Filed(s.items) && r.attempt + |script| <= MAX_ATTEMPTS + 1
    ensures Races.RunFrom(Races.At(s, req, r), WriteSteps(req, script))
         == Races.State(Stamped(s.items, r.id, r.to, r.mttr, AppliedAt(script)), s.rcas,
                        s.requests[req := Races.Finished])
    decreases script
  {
    var steps := WriteSteps(req, script);
    if script == [] {
      var t := Races.At(s, req, r);
      assert steps[..0] == [] && Races.RunFrom(t, steps) == Races.Apply(t, steps[0]);
    } else {
      var a, rest := script[0], script[1..];
      var next := Races.Retry(a.reply, r.attempt, Races.Writing(r.id, r.to, r.mttr, r.attempt + 1));
      var t := Races.State(StampedOnce(s.items, r, a), s.rcas, s.requests);
      Races.RunFromFirst(Races.At(s, req, r), steps[0], WriteSteps(req, rest));
      WriteAttempt(s, req, r, a);
      StampedNext(s.items, r, script);
      if next.Finished? {
        FinishedIdles(Races.At(t, req, next), req, rest);
      } else {
        WritesUndisturbed(t, req, next, rest);
      }
    }
  }

  lemma {:induction false} InsertsUndisturbed(s: Races.State, req: nat, script: seq<Attempt>)
    requires req in s.requests && s.requests[req].Inserting?
    requires s.requests[req].attempt + |script| <= MAX_ATTEMPTS + 1
    ensures var rca := s.requests[req].rca;
            var stored := InsertOutcome(RCARefused(s.items, s.rcas, rca), script).stored;
            Races.RunFrom(s, WriteSteps(req, script))
              == Races.State(s.items, if stored then s.rcas[rca.workItemID := rca] else s.rcas,
                             s.requests[req := Races.Finished])
    decreases script
  {
    var steps := WriteSteps(req, script);
    var t := Races.Apply(s, steps[0]);
    if script == [] {
      assert steps[..0] == [] && Races.RunFrom(s, steps) == t;
    } else {
      Races.RunFromFirst(s, steps[0], WriteSteps(req, script[1..]));
      InsertAttempt(s, req, script[0]);
      if t.requests[req].Finished? {
        FinishedIdles(t, req, script[1..]);
      } else {
        InsertsUndisturbed(t, req, script[1..]);
      }
    }
  }

  /** One attempt of an RCA's insert. */
  lemma InsertAttempt(s: Races.State, req: nat, a: Attempt)
    requires req in s.requests && s.requests[req].Inserting?
    ensures var r := s.requests[req];
            var refused := RCARefused(s.items, s.rcas, r.rca);
            Races.Apply(s, Races.Step(req, a.reply, a.at))
              == Races.State(
                   s.items,
                   if a.reply == Failure || refused then s.rcas else s.rcas[r.rca.workItemID := r.rca],
                   s.requests[req := Races.Retry(if refused then Failure else a.reply, r.attempt,
                                                 Races.Inserting(r.rca, r.attempt + 1))])
  {
  }

  // --- Whole operations ----------------------------------------------------------------------------

  /** Where a transition's reads take its request. */
  lemma ChecksDecide(s: Races.State, id: string, to: WorkItemState, f: Weather)
    ensures var d := Decide(Db(s.items, s.rcas), id, to, f);
            var r := Races.Advance(s, Races.Fetching(id, to), ReadReply(f.readOk), 0.0);
            !r.Inserting? && (to == Closed ==> !r.Writing?)
            && (if to == Closed then Races.Advance(s, r, ReadReply(f.rcaReadOk), 0.0) else r)
                 == if d.Success? then Races.Writing(id, to, d.value, 1) else Races.Finished
  {
  }

  /** A transition's checks, step by step. */
  lemma ChecksUndisturbed(s: Races.State, req: nat, id: string, to: WorkItemState, f: Weather)
    requires req !in s.requests
    ensures var d := Decide(Db(s.items, s.rcas), id, to, f);
            Races.RunFrom(s, TransitionSteps(req, id, to, f))
              == Races.RunFrom(Races.At(s, req, if d.Success? then Races.Writing(id, to, d.value, 1)
                                                else Races.Finished),
                               WriteSteps(req, f.write))
  {
    var write := WriteSteps(req, f.write);
    var begin, read := Races.BeginTransition(req, id, to), Races.Step(req, ReadReply(f.readOk), 0.0);
    var readRCA := Races.Step(req, ReadReply(f.rcaReadOk), 0.0);
    var rest := if to == Closed then [readRCA] + write else write;
    var r0 := Races.Fetching(id, to);
    var r1 := Races.Advance(s, r0, ReadReply(f.readOk), 0.0);
    ChecksDecide(s, id, to, f);
    Races.RunFromFirst(s, begin, [read] + rest);
    Races.RunFromFirst(Races.At(s, req, r0), read, rest);
    Races.ReadStep(s, req, r0, ReadReply(f.readOk), 0.0);
    if to == Closed {
      Races.RunFromFirst(Races.At(s, req, r1), readRCA, write);
      Races.ReadStep(s, req, r1, ReadReply(f.rcaReadOk), 0.0);
    }
  }

  /** However the stores answer, a transition as a whole operation is what its separate steps do to
      the tables when nothing comes between, and the steps end. */
  lemma TransitionIsUndisturbed(s: Races.State, req: nat, id: string, to: WorkItemState, f: Weather)
    requires req !in s.requests && Filed(s.items) && IsWeather(f)
    ensures var end := Races.RunFrom(s, TransitionSteps(req, id, to, f));
            && Db(end.items, end.rcas) == Transitioned(Db(s.items, s.rcas), id, to, f).0
            && end.requests == s.requests[req := Races.Finished]
  {
    var db := Db(s.items, s.rcas);
    var d := Decide(db, id, to, f);
    ChecksUndisturbed(s, req, id, to, f);
    if d.Success? {
      TransitionWrites(db, id, to, f);
      WritesUndisturbed(s, req, Races.Writing(id, to, d.value, 1), f.write);
    } else {
      FinishedIdles(Races.At(s, req, Races.Finished), req, f.write);
    }
  }

  lemma AdmissionDecides(s: Races.State, rca: RCA, readOk: bool, rcaReadOk: bool, now: Time)
    requires Validate(rca).None?
    ensures var r := Races.Advance(s, Races.Submitting(rca), ReadReply(readOk), now);
            !r.Writing? && !r.Inserting?
            && Races.Advance(s, r, ReadReply(rcaReadOk), now)
                 == if Admit(Db(s.items, s.rcas), rca, readOk, rcaReadOk).None?
                    then Races.Inserting(rca.(submittedAt := now), 1) else Races.Finished
  {
  }

  /** SubmitRCA's checks, step by step. */
  lemma AdmissionUndisturbed(s: Races.State, req: nat, rca: RCA, readOk: bool, rcaReadOk: bool, now: Time,
                             write: seq<Attempt>)
    requires req !in s.requests && Validate(rca).None?
    ensures var no := Admit(Db(s.items, s.rcas), rca, readOk, rcaReadOk);
            Races.RunFrom(s, SubmitSteps(req, rca, readOk, rcaReadOk, now, write))
              == Races.RunFrom(Races.At(s, req, if no.None? then Races.Inserting(rca.(submittedAt := now), 1)
                                          else Races.Finished),
                               WriteSteps(req, write))
  {
    var rest := WriteSteps(req, write);
    var begin, read := Races.BeginSubmit(req, rca), Races.Step(req, ReadReply(readOk), now);
    var readRCA := Races.Step(req, ReadReply(rcaReadOk), now);
    var r0 := Races.Submitting(rca);
    var r1 := Races.Advance(s, r0, ReadReply(readOk), now);
    AdmissionDecides(s, rca, readOk, rcaReadOk, now);
    Races.RunFromFirst(s, begin, [read] + ([readRCA] + rest));
    Races.RunFromFirst(Races.At(s, req, r0), read, [readRCA] + rest);
    Races.ReadStep(s, req, r0, ReadReply(readOk), now);
    Races.RunFromFirst(Races.At(s, req, r1), readRCA, rest);
    Races.ReadStep(s, req, r1, ReadReply(rcaReadOk), now);
  }

  /** An RCA that fails validation takes no steps. */
  lemma InvalidSubmitIdles(s: Races.State, req: nat, rca: RCA, readOk: bool, rcaReadOk: bool, now: Time,
                           write: seq<Attempt>)
    requires req !in s.requests && Validate(rca).Some?
    ensures Races.RunFrom(s, SubmitSteps(req, rca, readOk, rcaReadOk, now, write)) == s
  {
    var rest := WriteSteps(req, write);
    var read, readRCA := Races.Step(req, ReadReply(readOk), now), Races.Step(req, ReadReply(rcaReadOk), now);
    Races.RunFromFirst(s, Races.BeginSubmit(req, rca), [read] + ([readRCA] + rest));
    Races.RunFromFirst(s, read, [readRCA] + rest);
    Races.RunFromFirst(s, readRCA, rest);
    FinishedIdles(s, req, write);
  }

  /** And so is a submission. */
  lemma SubmitIsUndisturbed(s: Races.State, req: nat, rca: RCA, readOk: bool, rcaReadOk: bool, now: Time,
                            write: seq<Attempt>)
    requires req !in s.requests && IsScript(write)
    ensures var end := Races.RunFrom(s, SubmitSteps(req, rca, readOk, rcaReadOk, now, write));
            && Db(end.items, end.rcas) == Submitted(Db(s.items, s.rcas), rca, readOk, rcaReadOk, now, write).0
            && end.requests == if Validate(rca).None? then s.requests[req := Races.Finished] else s.requests
  {
    if Validate(rca).Some? {
      InvalidSubmitIdles(s, req, rca, readOk, rcaReadOk, now, write);
    } else {
      AdmissionUndisturbed(s, req, rca, readOk, rcaReadOk, now, write);
      if Admit(Db(s.items, s.rcas), rca, readOk, rcaReadOk).None? {
        InsertsUndisturbed(Races.At(s, req, Races.Inserting(rca.(submittedAt := now), 1)), req, write);
      } else {
        FinishedIdles(Races.At(s, req, Races.Finished), req, write);
      }
    }
  }
}
