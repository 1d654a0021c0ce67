/** One call of Resolve, step by step and with nothing in between, is Resolve as one step. */
module IngestionRefinement {
  import opened Models
  import opened Retries
  import opened Stores
  import opened Redis
  import Debounce
  import opened Races = IngestionRaces

  function Next(call: nat, id: string, hit: bool, reply: Reply): Action { Races.Step(call, id, hit, reply) }

  /** The attempts of the insert, up to an acknowledged one. */
  function CreateSteps(call: nat, id: string, script: seq<Attempt>): seq<Action> {
    if script == [] then [] else
      [Next(call, id, false, script[0].reply)]
        + if script[0].reply == Ack then [] else CreateSteps(call, id, script[1..])
  }

  /** Begin, look up locally, ask Redis, insert; and, if that was reported, register and store. */
  function ResolveSteps(call: nat, i: nat, wi: WorkItem, hit: bool, ok: bool, f: Debounce.Weather): seq<Action> {
    var last := if ok then [Next(call, wi.id, hit, f.register)] + [Next(call, wi.id, hit, Ack)] else [];
    [Begin(call, i, wi.componentID)]
      + ([Next(call, wi.id, hit, Ack)] + ([Next(call, wi.id, hit, Ack)] + (CreateSteps(call, wi.id, f.create) + last)))
  }

  lemma {:induction false} RunConcat(s: State, a: seq<Action>, b: seq<Action>)
    ensures RunFrom(s, a + b) == RunFrom(RunFrom(s, a), b)
  {
    if b == [] {
      assert a + b == a;
    } else {
      RunConcat(s, a, b[..|b| - 1]);
      assert (a + b)[..|a + b| - 1] == a + b[..|b| - 1];
    }
  }

  lemma RunOne(s: State, a: Action)
    ensures RunFrom(s, [a]) == Apply(s, a)
  {
    assert [a][..0] == [] && RunFrom(s, []) == s;
  }

  lemma RunFirst(s: State, a: Action, more: seq<Action>)
    ensures RunFrom(s, [a] + more) == RunFrom(Apply(s, a), more)
  {
    RunConcat(s, [a], more);
    RunOne(s, a);
  }

  // --- One step of the call ----------------------------------------------------------------------------

  /** The state with one call at a given stage. */
  function At(s: State, call: nat, k: Call): State { s.(calls := s.calls[call := k]) }

  function Inserted(s: State, call: nat, k: Call, id: string, stored: bool): State {
    if stored then s.(rows := s.rows[id := Origin(k.instance, k.componentID, call)]) else s
  }

  /** What a step of a call at stage `k` writes. */
  function Wrote(s: State, call: nat, k: Call, reply: Reply): State {
    var t, a := At(s, call, k), Next(call, "", false, reply);
    s.(rows := RowsAfter(t, a), windows := WindowsAfter(t, a), local := LocalAfter(t, a))
  }

  lemma StepAt(s: State, call: nat, k: Call, id: string, hit: bool, reply: Reply)
    ensures Apply(At(s, call, k), Next(call, id, hit, reply))
         == At(Wrote(s, call, k, reply), call, k.(stage := Stepped(s, k, Next(call, id, hit, reply))))
  {
    var t, a := At(s, call, k), Next(call, id, hit, reply);
    assert t.calls[call] == k && Stepped(t, k, a) == Stepped(s, k, a);
    assert RowsAfter(t, a) == RowsAfter(t, Next(call, "", false, reply));
    assert WindowsAfter(t, a) == WindowsAfter(t, Next(call, "", false, reply));
  }

  /** Lookups, and a call that is over, write nothing. */
  lemma WritesNothing(s: State, call: nat, k: Call, reply: Reply)
    requires k.stage.Loading? || k.stage.Looking? || k.stage.Returned? || k.stage.Gone?
    ensures Wrote(s, call, k, reply) == s
  {
    assert At(s, call, k).calls[call] == k;
  }

  lemma WritesRow(s: State, call: nat, k: Call, reply: Reply)
    requires k.stage.Creating?
    ensures Wrote(s, call, k, reply) == Inserted(s, call, k, k.stage.id, reply != Failure && k.stage.id !in s.rows)
  {
    assert At(s, call, k).calls[call] == k;
  }

  lemma WritesWindow(s: State, call: nat, k: Call, reply: Reply)
    requires k.stage.Registering?
    ensures Wrote(s, call, k, reply)
         == if reply == Failure then s else s.(windows := s.windows[k.componentID := k.stage.id])
  {
    assert At(s, call, k).calls[call] == k;
  }

  lemma WritesLocal(s: State, call: nat, k: Call, reply: Reply)
    requires k.stage.Storing? || k.stage.Adopting?
    ensures Wrote(s, call, k, reply) == s.(local := s.local[(k.instance, k.componentID) := k.stage.id])
  {
    assert At(s, call, k).calls[call] == k;
  }

  predicate StepsOf(call: nat, steps: seq<Action>) {
    forall n :: 0 <= n < |steps| ==> steps[n].Step? && steps[n].call == call
  }

  /** A call that has returned or failed does nothing more. */
  lemma {:induction false} OverIdles(s: State, call: nat, k: Call, steps: seq<Action>)
    requires StepsOf(call, steps) && (k.stage.Returned? || k.stage.Gone?)
    ensures RunFrom(At(s, call, k), steps) == At(s, call, k)
  {
    if steps != [] {
      var a, rest := steps[0], steps[1..];
      assert steps == [a] + rest && forall n :: 0 <= n < |rest| ==> rest[n] == steps[n + 1];
      RunFirst(At(s, call, k), a, rest);
      StepAt(s, call, k, a.id, a.hit, a.reply);
      WritesNothing(s, call, k, a.reply);
      OverIdles(s, call, k, rest);
    }
  }

  lemma {:induction false} CreatesAreSteps(call: nat, id: string, script: seq<Attempt>)
    ensures StepsOf(call, CreateSteps(call, id, script))
    ensures script != [] ==> CreateSteps(call, id, script) != []
  {
    if script != [] { CreatesAreSteps(call, id, script[1..]); }
  }

  // --- The insert ----------------------------------------------------------------------------------------

  lemma {:induction false} CreateUndisturbed(s: State, call: nat, k: Call, script: seq<Attempt>) returns (stage: Stage)
    requires k.stage.Creating? && k.stage.attempt + |script| <= MAX_ATTEMPTS + 1
    ensures var id := k.stage.id; var r := InsertOutcome(id in s.rows, script);
            && RunFrom(At(s, call, k), CreateSteps(call, id, script))
                 == At(Inserted(s, call, k, id, r.stored), call, k.(stage := stage))
            && (if r.ok then stage == Registering(id) else stage.Creating? || stage.Gone?)
    decreases script
  {
    var id := k.stage.id;
    stage := k.stage;
    if script != [] {
      var a, rest := script[0], script[1..];
      var later := if a.reply == Ack then [] else CreateSteps(call, id, rest);
      var t := Wrote(s, call, k, a.reply);
      RunFirst(At(s, call, k), Next(call, id, false, a.reply), later);
      StepAt(s, call, k, id, false, a.reply);
      WritesRow(s, call, k, a.reply);
      stage := Stepped(s, k, Next(call, id, false, a.reply));
      if a.reply != Ack {
        CreatesAreSteps(call, id, rest);
        if stage.Gone? {
          OverIdles(t, call, k.(stage := stage), later);
        } else {
          stage := CreateUndisturbed(t, call, k.(stage := stage), rest);
        }
      }
    }
  }

  // --- The whole call --------------------------------------------------------------------------------------

  /** What the races know of a component is what the debouncer's two layers and table hold of it. */
  ghost predicate Same(s: State, i: nat, c: string, local: Debounce.Local, windows: Debounce.Windows, items: Items) {
    && ((i, c) in s.local <==> c in local) && (c in local ==> s.local[(i, c)] == local[c])
    && (c in windows ==> c in s.windows && s.windows[c] == windows[c].value)
    && s.rows.Keys == items.Keys
  }

  /** The state after the call: its row, its window, its local entry and where it stands. */
  function Ended(s: State, call: nat, k: Call, stored: bool, window: bool, entry: Option<string>, id: string,
                 stage: Stage): State
  {
    var t := Inserted(s, call, k, id, stored);
    At(t.(windows := if window then t.windows[k.componentID := id] else t.windows,
          local := if entry.Some? then t.local[(k.instance, k.componentID) := entry.value] else t.local),
       call, k.(stage := stage))
  }

  /** Registering and storing a new item. */
  lemma StoreUndisturbed(s: State, call: nat, k: Call, id: string, hit: bool, register: Reply)
    requires k.stage == Registering(id)
    ensures RunFrom(At(s, call, k), [Next(call, id, hit, register)] + [Next(call, id, hit, Ack)])
         == Ended(s, call, k, false, register != Failure, Some(id), id, Returned(id, true))
  {
    RunFirst(At(s, call, k), Next(call, id, hit, register), [Next(call, id, hit, Ack)]);
    StepAt(s, call, k, id, hit, register);
    WritesWindow(s, call, k, register);
    var t := Wrote(s, call, k, register);
    RunOne(At(t, call, k.(stage := Storing(id))), Next(call, id, hit, Ack));
    StepAt(t, call, k.(stage := Storing(id)), id, hit, Ack);
    WritesLocal(t, call, k.(stage := Storing(id)), Ack);
  }

  /** From the miss of both layers on. */
  lemma MissUndisturbed(s: State, call: nat, k: Call, hit: bool, ok: bool, id: string, create: seq<Attempt>,
                        register: Reply) returns (stage: Stage)
    requires k.stage == Creating(id, 1) && IsScript(create) && ok == InsertOutcome(id in s.rows, create).ok
    ensures var r := InsertOutcome(id in s.rows, create);
            var last := if ok then [Next(call, id, hit, register)] + [Next(call, id, hit, Ack)] else [];
            && RunFrom(At(s, call, k), CreateSteps(call, id, create) + last)
                 == Ended(s, call, k, r.stored, ok && register != Failure, if ok then Some(id) else None, id, stage)
            && (if ok then stage == Returned(id, true) else !stage.Returned?)
  {
    var last := if ok then [Next(call, id, hit, register)] + [Next(call, id, hit, Ack)] else [];
    RunConcat(At(s, call, k), CreateSteps(call, id, create), last);
    stage := CreateUndisturbed(s, call, k, create);
    if ok {
      StoreUndisturbed(Inserted(s, call, k, id, true), call, k.(stage := stage), id, hit, register);
      InsertOnce(id in s.rows, create);
      stage := Returned(id, true);
    }
  }

  /** A call that returns from the local lookup, or adopts what Redis knew. */
  lemma HitUndisturbed(s: State, call: nat, k: Call, id: string, steps: seq<Action>)
    requires StepsOf(call, steps) && steps != [] && k.stage == Adopting(id)
    ensures RunFrom(At(s, call, k), steps) == Ended(s, call, k, false, false, Some(id), id, Returned(id, false))
  {
    var a, rest := steps[0], steps[1..];
    assert steps == [a] + rest && forall n :: 0 <= n < |rest| ==> rest[n] == steps[n + 1];
    RunFirst(At(s, call, k), a, rest);
    StepAt(s, call, k, a.id, a.hit, a.reply);
    WritesLocal(s, call, k, a.reply);
    OverIdles(Wrote(s, call, k, a.reply), call, k.(stage := Returned(id, false)), rest);
  }

  /** Where the two lookups take the call. */
  function Looked(s: State, k: Call, hit: bool, id: string): Stage {
    if (k.instance, k.componentID) in s.local then Returned(s.local[(k.instance, k.componentID)], false)
    else if hit && k.componentID in s.windows then Adopting(s.windows[k.componentID])
    else Creating(id, 1)
  }

  lemma Begins(s: State, call: nat, i: nat, c: string)
    requires call !in s.calls
    ensures Apply(s, Begin(call, i, c)) == At(s, call, Call(i, c, Loading))
  {
    var a := Begin(call, i, c);
    assert RowsAfter(s, a) == s.rows && WindowsAfter(s, a) == s.windows && LocalAfter(s, a) == s.local;
  }

  /** The two lookups write nothing. */
  lemma LookAt(s: State, call: nat, k: Call, id: string, hit: bool)
    requires k.stage.Loading? || k.stage.Looking? || k.stage.Returned?
    ensures Apply(At(s, call, k), Next(call, id, hit, Ack))
         == At(s, call, k.(stage := Stepped(s, k, Next(call, id, hit, Ack))))
  {
    StepAt(s, call, k, id, hit, Ack);
    WritesNothing(s, call, k, Ack);
  }

  lemma LookupsUndisturbed(s: State, call: nat, i: nat, c: string, hit: bool, id: string, rest: seq<Action>)
    requires call !in s.calls
    ensures var look := Next(call, id, hit, Ack); var k := Call(i, c, Loading);
            RunFrom(s, [Begin(call, i, c)] + ([look] + ([look] + rest)))
              == RunFrom(At(s, call, k.(stage := Looked(s, k, hit, id))), rest)
  {
    var look, k := Next(call, id, hit, Ack), Call(i, c, Loading);
    var l := k.(stage := Stepped(s, k, look));
    RunFirst(s, Begin(call, i, c), [look] + ([look] + rest));
    Begins(s, call, i, c);
    RunFirst(At(s, call, k), look, [look] + rest);
    LookAt(s, call, k, id, hit);
    RunFirst(At(s, call, l), look, rest);
    LookAt(s, call, l, id, hit);
  }

  /** State `t` is what Resolve as one step makes of `s`: the same outcome, rows, local entry and
      window. A call that creates nothing it may use does not return an id. */
  ghost predicate Resolved(s: State, t: State, call: nat, i: nat, o: Debounce.Outcome, inserts: bool, wi: WorkItem,
                           register: Reply)
  {
    var key := (i, wi.componentID);
    && call in t.calls
    && (if o.Linked? then t.calls[call].stage == Returned(o.workItemID, o.isNew) else !t.calls[call].stage.Returned?)
    && t.rows.Keys == s.rows.Keys + (if inserts then {wi.id} else {})
    && t.local == (if o.Linked? then s.local[key := o.workItemID] else s.local)
    && t.windows == (if o.Linked? && o.isNew && register != Failure then s.windows[wi.componentID := wi.id]
                     else s.windows)
  }

  lemma KnownResolved(s: State, call: nat, i: nat, wi: WorkItem, register: Reply)
    requires (i, wi.componentID) in s.local
    ensures var id := s.local[(i, wi.componentID)];
            Resolved(s, At(s, call, Call(i, wi.componentID, Returned(id, false))), call, i, Debounce.Linked(id, false),
                     false, wi, register)
  {
    var key := (i, wi.componentID);
    assert s.local[key := s.local[key]] == s.local;
  }

  lemma EndedResolved(s: State, call: nat, k: Call, wi: WorkItem, register: Reply, stored: bool, o: Debounce.Outcome,
                      stage: Stage)
    requires k.componentID == wi.componentID && (o.Linked? ==> stage == Returned(o.workItemID, o.isNew))
    requires (o.CreateFailed? ==> !stage.Returned?) && (o.Linked? && o.isNew ==> o.workItemID == wi.id)
    ensures var window := o.Linked? && o.isNew && register != Failure;
            var entry := if o.Linked? then Some(o.workItemID) else None;
            var t := Ended(s, call, k, stored, window, entry, wi.id, stage);
            Resolved(s, t, call, k.instance, o, stored, wi, register)
  {
  }

  /** The outcome in the terms of the races. */
  function OutcomeFrom(s: State, l: Call, id: string, ok: bool): Debounce.Outcome {
    match l.stage
    case Returned(known, _) => Debounce.Linked(known, false)
    case Adopting(known) => Debounce.Linked(known, false)
    case _ => if ok then Debounce.Linked(id, true) else Debounce.CreateFailed
  }

  lemma SameOutcome(s: State, i: nat, wi: WorkItem, now: Time, f: Debounce.Weather,
                    local: Debounce.Local, windows: Debounce.Windows, items: Items)
    requires Same(s, i, wi.componentID, local, windows, items)
    ensures var hit := WindowOf(windows, wi.componentID, now, f.getUp) != "";
            var k := Call(i, wi.componentID, Loading); var l := k.(stage := Looked(s, k, hit, wi.id));
            var r := InsertOutcome(wi.id in s.rows, f.create);
            && Debounce.OutcomeOf(local, windows, items, wi, now, f) == OutcomeFrom(s, l, wi.id, r.ok)
            && (Debounce.Inserts(local, windows, items, wi, now, f) <==> l.stage.Creating? && r.stored)
  {
  }

  lemma AfterLookups(s: State, call: nat, l: Call, wi: WorkItem, hit: bool, ok: bool, f: Debounce.Weather)
    requires l.componentID == wi.componentID && l.stage == Looked(s, l, hit, wi.id)
    requires IsScript(f.create) && ok == InsertOutcome(wi.id in s.rows, f.create).ok
    ensures var last := if ok then [Next(call, wi.id, hit, f.register)] + [Next(call, wi.id, hit, Ack)] else [];
            Resolved(s, RunFrom(At(s, call, l), CreateSteps(call, wi.id, f.create) + last), call, l.instance,
                     OutcomeFrom(s, l, wi.id, ok), l.stage.Creating? && InsertOutcome(wi.id in s.rows, f.create).stored,
                     wi, f.register)
  {
    var last := if ok then [Next(call, wi.id, hit, f.register)] + [Next(call, wi.id, hit, Ack)] else [];
    var rest, o := CreateSteps(call, wi.id, f.create) + last, OutcomeFrom(s, l, wi.id, ok);
    CreatesAreSteps(call, wi.id, f.create);
    match l.stage {
      case Returned(known, _) =>
        OverIdles(s, call, l, rest);
        KnownResolved(s, call, l.instance, wi, f.register);
      case Adopting(known) =>
        HitUndisturbed(s, call, l, known, rest);
        EndedResolved(s, call, l, wi, f.register, false, o, Returned(known, false));
      case _ =>
        var stage := MissUndisturbed(s, call, l, hit, ok, wi.id, f.create, f.register);
        EndedResolved(s, call, l, wi, f.register, InsertOutcome(wi.id in s.rows, f.create).stored, o, stage);
    }
  }

  /** However the stores answer, one call's steps, with nothing in between, return and leave behind
      what Resolve as one step does. */
  lemma ResolveIsUndisturbed(s: State, call: nat, i: nat, wi: WorkItem, now: Time, f: Debounce.Weather,
                             local: Debounce.Local, windows: Debounce.Windows, items: Items)
    requires call !in s.calls && IsScript(f.create) && Same(s, i, wi.componentID, local, windows, items)
    ensures var hit := WindowOf(windows, wi.componentID, now, f.getUp) != "";
            var steps := ResolveSteps(call, i, wi, hit, InsertOutcome(wi.id in items, f.create).ok, f);
            Resolved(s, RunFrom(s, steps), call, i, Debounce.OutcomeOf(local, windows, items, wi, now, f),
                     Debounce.Inserts(local, windows, items, wi, now, f), wi, f.register)
  {
    var c, hit := wi.componentID, WindowOf(windows, wi.componentID, now, f.getUp) != "";
    var ok := InsertOutcome(wi.id in items, f.create).ok;
    var last := if ok then [Next(call, wi.id, hit, f.register)] + [Next(call, wi.id, hit, Ack)] else [];
    var k := Call(i, c, Loading);
    var l := k.(stage := Looked(s, k, hit, wi.id));
    LookupsUndisturbed(s, call, i, c, hit, wi.id, CreateSteps(call, wi.id, f.create) + last);
    SameOutcome(s, i, wi, now, f, local, windows, items);
    AfterLookups(s, call, l, wi, hit, ok, f);
  }
}
