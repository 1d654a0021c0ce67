/** Dashboard builds as separate reads and a cache write, interleaved with each other, with every
    write to the table, and with invalidations that may fail. */
module DashboardRaces {
  import opened Models
  import opened Stores
  import opened Redis
  import opened Listings

  /** The table from one instant until the next version's. */
  datatype Version = Version(from: Time, items: Items)

  /** A build by either route: its list and, once read, its totals. `listVersion` and the instants
      record which table each read saw, and when. */
  datatype Build = Build(
    list: seq<WorkItem>, listVersion: nat, listAt: Time,
    totals: Option<Counts>, totalsVersion: nat, totalsAt: Time)

  datatype Slot = Slot(build: Build, savedAt: Time)

  datatype State = State(versions: seq<Version>, entry: Option<Entry<Slot>>, builds: map<nat, Build>)

  const INITIAL := State([Version(0.0, map[])], None, map[])

  datatype Action =
    | Write(at: Time, items: Items)                                    // any change of the table
    | ReadList(at: Time, build: nat, full: bool, listing: seq<WorkItem>) // full: list all, then filter
    | ReadTotals(at: Time, build: nat)
    | Save(at: Time, build: nat, applied: bool)                        // then the build is over
    | Invalidate(at: Time, applied: bool)

  /** The entry as a save writes it. */
  function Filled(b: Build, at: Time): Entry<Slot> { Entry(Slot(b, at), Some(at + DASHBOARD_TTL)) }

  /** What a request finds in the cache. */
  function Served(s: State, now: Time, up: bool): Option<Slot> { Cached(s.entry, now, up) }

  function Current(s: State): Items
    requires s.versions != []
  {
    s.versions[|s.versions| - 1].items
  }

  /** A build that has just read its list, and one that has just read its totals. */
  function Begun(s: State, at: Time, full: bool, q: seq<WorkItem>): Build
    requires s.versions != []
  {
    Build(if full then Filter(q) else q, |s.versions| - 1, at, None, 0, 0.0)
  }

  function Totalled(s: State, at: Time, d: Build): Build
    requires s.versions != []
  {
    d.(totals := Some(CountsOf(Current(s))), totalsVersion := |s.versions| - 1, totalsAt := at)
  }

  ghost predicate CanRead(s: State, full: bool, q: seq<WorkItem>)
    requires s.versions != []
  {
    IsListing(Current(s), if full then Everything else Active, q)
  }

  ghost function Apply(s: State, a: Action): (t: State)
    requires s.versions != []
    ensures t.versions != []
  {
    match a
    case Write(at, items) => s.(versions := s.versions + [Version(at, items)])
    case ReadList(at, b, full, q) =>
      if b in s.builds || !CanRead(s, full, q) then s
      else s.(builds := s.builds[b := Begun(s, at, full, q)])
    case ReadTotals(at, b) =>
      if b !in s.builds || s.builds[b].totals.Some? then s
      else s.(builds := s.builds[b := Totalled(s, at, s.builds[b])])
    case Save(at, b, applied) =>
      if b !in s.builds || s.builds[b].totals.None? then s
      else State(s.versions, if applied then Some(Filled(s.builds[b], at)) else s.entry, s.builds - {b})
    case Invalidate(_, applied) => if applied then s.(entry := None) else s
  }

  ghost function RunFrom(s: State, acts: seq<Action>): (t: State)
    requires s.versions != []
    ensures t.versions != []
  {
    if acts == [] then s else Apply(RunFrom(s, acts[..|acts| - 1]), acts[|acts| - 1])
  }

  ghost function Run(acts: seq<Action>): (s: State)
    ensures s.versions != []
  {
    RunFrom(INITIAL, acts)
  }

  predicate InOrder(acts: seq<Action>) {
    && (forall i :: 0 <= i < |acts| ==> 0.0 <= acts[i].at)
    && (forall i, j :: 0 <= i < j < |acts| ==> acts[i].at <= acts[j].at)
  }

  function Now(acts: seq<Action>): Time { if acts == [] then 0.0 else acts[|acts| - 1].at }

  /** Version `v` was the table at the instant `at`. */
  predicate WasCurrent(vs: seq<Version>, v: nat, at: Time) {
    v < |vs| && vs[v].from <= at && (v + 1 < |vs| ==> at <= vs[v + 1].from)
  }

  ghost predicate GoodBuild(vs: seq<Version>, b: Build, now: Time) {
    && WasCurrent(vs, b.listVersion, b.listAt) && IsListing(vs[b.listVersion].items, Active, b.list)
    && b.listAt <= now
    && (b.totals.Some? ==>
          && WasCurrent(vs, b.totalsVersion, b.totalsAt) && b.totals.value == CountsOf(vs[b.totalsVersion].items)
          && b.listAt <= b.totalsAt <= now && b.listVersion <= b.totalsVersion)
  }

  ghost predicate Good(s: State, now: Time) {
    && s.versions != [] && s.versions[|s.versions| - 1].from <= now
    && (forall b :: b in s.builds ==> GoodBuild(s.versions, s.builds[b], now))
    && (s.entry.Some? ==>
          && GoodBuild(s.versions, s.entry.value.value.build, s.entry.value.value.savedAt)
          && s.entry.value.value.build.totals.Some? && s.entry.value.value.savedAt <= now
          && s.entry.value == Filled(s.entry.value.value.build, s.entry.value.value.savedAt))
  }

  /** A later version of the table does not change what was current before it. */
  lemma StillGood(vs: seq<Version>, v: Version, b: Build, now: Time)
    requires GoodBuild(vs, b, now) && now <= v.from
    ensures GoodBuild(vs + [v], b, now)
  {
  }

  lemma WriteGood(s: State, v: Version, now: Time)
    requires Good(s, now) && now <= v.from
    ensures Good(s.(versions := s.versions + [v]), v.from)
  {
    forall b | b in s.builds ensures GoodBuild(s.versions + [v], s.builds[b], v.from) {
      StillGood(s.versions, v, s.builds[b], now);
    }
    if s.entry.Some? { StillGood(s.versions, v, s.entry.value.value.build, s.entry.value.value.savedAt); }
  }

  /** The list read now, by either route, is a listing of the current table. */
  lemma BegunGood(s: State, full: bool, q: seq<WorkItem>, now: Time, at: Time)
    requires Good(s, now) && now <= at && CanRead(s, full, q)
    ensures GoodBuild(s.versions, Begun(s, at, full, q), at)
  {
    if full { FilterIsListing(Current(s), q); }
  }

  lemma TotalledGood(s: State, d: Build, now: Time, at: Time)
    requires Good(s, now) && now <= at && GoodBuild(s.versions, d, now)
    ensures GoodBuild(s.versions, Totalled(s, at, d), at)
  {
  }

  lemma PutGood(s: State, b: nat, d: Build, now: Time, at: Time)
    requires Good(s, now) && now <= at && GoodBuild(s.versions, d, at)
    ensures Good(s.(builds := s.builds[b := d]), at)
  {
  }

  lemma ReadListGood(s: State, b: nat, full: bool, q: seq<WorkItem>, now: Time, at: Time)
    requires Good(s, now) && now <= at
    ensures Good(Apply(s, ReadList(at, b, full, q)), at)
  {
    if b !in s.builds && CanRead(s, full, q) {
      BegunGood(s, full, q, now, at);
      PutGood(s, b, Begun(s, at, full, q), now, at);
    }
  }

  lemma ReadTotalsGood(s: State, b: nat, now: Time, at: Time)
    requires Good(s, now) && now <= at
    ensures Good(Apply(s, ReadTotals(at, b)), at)
  {
    if b in s.builds && s.builds[b].totals.None? {
      TotalledGood(s, s.builds[b], now, at);
      PutGood(s, b, Totalled(s, at, s.builds[b]), now, at);
    }
  }

  lemma SaveGood(s: State, b: nat, applied: bool, now: Time, at: Time)
    requires Good(s, now) && now <= at && b in s.builds && s.builds[b].totals.Some?
    ensures Good(State(s.versions, if applied then Some(Filled(s.builds[b], at)) else s.entry, s.builds - {b}), at)
  {
    assert GoodBuild(s.versions, s.builds[b], now);
  }

  lemma WaitGood(s: State, now: Time, at: Time)
    requires Good(s, now) && now <= at
    ensures Good(s, at) && Good(s.(entry := None), at)
  {
  }

  lemma StepGood(s: State, a: Action, now: Time)
    requires Good(s, now) && now <= a.at
    ensures Good(Apply(s, a), a.at)
  {
    WaitGood(s, now, a.at);
    match a {
      case Write(at, items) => WriteGood(s, Version(at, items), now);
      case ReadList(at, b, full, q) => ReadListGood(s, b, full, q, now, at);
      case ReadTotals(at, b) => ReadTotalsGood(s, b, now, at);
      case Save(at, b, applied) =>
        if b in s.builds && s.builds[b].totals.Some? { SaveGood(s, b, applied, now, at); }
      case Invalidate(_, _) =>
    }
  }

  lemma {:induction false} RunsGood(acts: seq<Action>)
    requires InOrder(acts)
    ensures Good(Run(acts), Now(acts))
  {
    if acts != [] {
      var pre := acts[..|acts| - 1];
      assert InOrder(pre) && (pre != [] ==> pre[|pre| - 1].at <= acts[|acts| - 1].at);
      RunsGood(pre);
      StepGood(Run(pre), acts[|acts| - 1], Now(pre));
    }
  }

  /** What a build shows was the table, each half at some instant of the build. */
  ghost predicate ShownWithin(vs: seq<Version>, b: Build, from: Time, to: Time) {
    && (exists v: nat, at :: WasCurrent(vs, v, at) && from <= at <= to && IsListing(vs[v].items, Active, b.list))
    && b.totals.Some?
    && (exists v: nat, at :: WasCurrent(vs, v, at) && from <= at <= to && b.totals.value == CountsOf(vs[v].items))
  }

  /** A request is served from the cache exactly while the three seconds of its entry last and Redis
      answers, and then its list and totals each were the table's at an instant no older than those 3
      seconds plus the time that build took. */
  lemma ServedIsRecent(acts: seq<Action>, now: Time, up: bool)
    requires InOrder(acts) && Now(acts) <= now
    ensures var s := Run(acts);
            Served(s, now, up).Some? <==> up && s.entry.Some? && now < s.entry.value.value.savedAt + 3.0
    ensures var s := Run(acts);
            Served(s, now, up).Some? ==>
              var e := Served(s, now, up).value;
              && s.entry.Some? && e == s.entry.value.value
              && ShownWithin(s.versions, e.build, e.build.listAt, e.savedAt)
              && now - 3.0 - (e.savedAt - e.build.listAt) < e.build.listAt <= e.savedAt <= now
  {
    RunsGood(acts);
    var s := Run(acts);
    if s.entry.Some? {
      var vs, b := s.versions, s.entry.value.value.build;
      assert WasCurrent(vs, b.listVersion, b.listAt) && IsListing(vs[b.listVersion].items, Active, b.list);
      assert WasCurrent(vs, b.totalsVersion, b.totalsAt);
    }
  }

  /** Served from a build of its own: the same, within that build. */
  lemma BuiltIsRecent(acts: seq<Action>, b: nat)
    requires InOrder(acts) && b in Run(acts).builds && Run(acts).builds[b].totals.Some?
    ensures ShownWithin(Run(acts).versions, Run(acts).builds[b], Run(acts).builds[b].listAt, Now(acts))
  {
    RunsGood(acts);
    var vs, d := Run(acts).versions, Run(acts).builds[b];
    assert WasCurrent(vs, d.listVersion, d.listAt) && IsListing(vs[d.listVersion].items, Active, d.list);
    assert WasCurrent(vs, d.totalsVersion, d.totalsAt);
  }

  ghost predicate ShowsNow(s: State, b: Build)
    requires s.versions != []
  {
    IsListing(Current(s), Active, b.list) && (b.totals.Some? ==> b.totals.value == CountsOf(Current(s)))
  }

  lemma RunAppend(s: State, acts: seq<Action>, a: Action)
    requires s.versions != []
    ensures RunFrom(s, acts + [a]) == Apply(RunFrom(s, acts), a)
  {
    assert (acts + [a])[..|acts|] == acts;
  }

  lemma BuildSteps(s: State, at: Time, b: nat, full: bool, q: seq<WorkItem>)
    requires s.versions != [] && b !in s.builds && CanRead(s, full, q)
    ensures Apply(Apply(Apply(s, ReadList(at, b, full, q)), ReadTotals(at, b)), Save(at, b, true))
         == s.(entry := Some(Filled(Totalled(s, at, Begun(s, at, full, q)), at)))
  {
    var begun := Begun(s, at, full, q);
    var done := Totalled(s, at, begun);
    var s1 := Apply(s, ReadList(at, b, full, q));
    assert s1 == s.(builds := s.builds[b := begun]);
    var s2 := Apply(s1, ReadTotals(at, b));
    assert s2 == s.(builds := s.builds[b := begun][b := done]);
    assert s.builds[b := begun][b := done] - {b} == s.builds;
  }

  /** A build with nothing in between, by either route, saves the table as it is, and for three seconds
      that is what is served. */
  lemma BuildIsUndisturbed(s: State, at: Time, b: nat, full: bool, q: seq<WorkItem>, now: Time)
    requires s.versions != [] && b !in s.builds && CanRead(s, full, q)
    ensures var t := RunFrom(s, [ReadList(at, b, full, q)] + [ReadTotals(at, b)] + [Save(at, b, true)]);
            && t.versions == s.versions && t.builds == s.builds
            && (Served(t, now, true).Some? <==> now < at + 3.0)
            && t.entry.Some? && ShowsNow(t, t.entry.value.value.build)
            && t.entry.value.value.build.totals == Some(CountsOf(Current(s)))
            && t.entry.value.value.build.list == if full then Filter(q) else q
  {
    var read, count, save := ReadList(at, b, full, q), ReadTotals(at, b), Save(at, b, true);
    RunAppend(s, [], read);
    RunAppend(s, [] + [read], count);
    RunAppend(s, [] + [read] + [count], save);
    assert [] + [read] == [read] && [] + [read] + [count] == [read] + [count];
    BuildSteps(s, at, b, full, q);
    if full { FilterIsListing(Current(s), q); }
  }

  // --- What invalidation adds ------------------------------------------------------------------------

  /** Action `p` saves a finished build. */
  ghost predicate Saves(acts: seq<Action>, p: nat) {
    && p < |acts| && acts[p].Save? && acts[p].applied
    && acts[p].build in Run(acts[..p]).builds && Run(acts[..p]).builds[acts[p].build].totals.Some?
  }

  ghost function Saved(acts: seq<Action>, p: nat): Build
    requires Saves(acts, p)
  {
    Run(acts[..p]).builds[acts[p].build]
  }

  predicate Clears(acts: seq<Action>, v: nat) { v < |acts| && acts[v].Invalidate? && acts[v].applied }

  /** Action `n` changes the table after the build has read its list. */
  ghost predicate ChangesAfter(acts: seq<Action>, n: nat, b: Build) {
    n < |acts| && acts[n].Write? && b.listVersion < |Run(acts[..n]).versions|
  }

  /** Whatever changes after a saved build's first read is invalidated after that build's save. */
  ghost predicate Fenced(acts: seq<Action>) {
    forall n: nat, p: nat | Saves(acts, p) && ChangesAfter(acts, n, Saved(acts, p)) ::
      exists v: nat :: n < v && p < v && Clears(acts, v)
  }

  /** A present entry was saved, and nothing has cleared it since. */
  ghost predicate Origin(acts: seq<Action>, p: nat) {
    && Saves(acts, p) && Run(acts).entry.Some? && Run(acts).entry.value.value.build == Saved(acts, p)
    && forall v: nat :: p < v ==> !Clears(acts, v)
  }

  lemma {:induction false} EntryHasOrigin(acts: seq<Action>)
    requires Run(acts).entry.Some?
    ensures exists p: nat :: Origin(acts, p)
  {
    var n := |acts| - 1;
    var pre := acts[..n];
    if Saves(acts, n) {
      assert Origin(acts, n);
    } else {
      EntryHasOrigin(pre);
      var p: nat :| Origin(pre, p);
      assert pre[..p] == acts[..p] && Saves(acts, p);
      forall v: nat | p < v ensures !Clears(acts, v) { assert v < n ==> Clears(pre, v) == Clears(acts, v); }
      assert Origin(acts, p);
    }
  }

  /** The version before the current one ended with a change. */
  lemma {:induction false} LastChange(acts: seq<Action>) returns (n: nat)
    requires |Run(acts).versions| > 1
    ensures n < |acts| && acts[n].Write? && |Run(acts[..n]).versions| == |Run(acts).versions| - 1
  {
    n := |acts| - 1;
    if !acts[n].Write? {
      var pre := acts[..n];
      n := LastChange(pre);
      assert pre[..n] == acts[..n] && pre[n] == acts[n];
    }
  }

  /** In every interleaving: if every change after a saved build's first read is followed by an
      invalidation after that build's save, an entry that is present shows the table as it is. */
  lemma PresentEntryIsCurrent(acts: seq<Action>)
    requires InOrder(acts) && Fenced(acts) && Run(acts).entry.Some?
    ensures ShowsNow(Run(acts), Run(acts).entry.value.value.build)
  {
    var s := Run(acts);
    var b := s.entry.value.value.build;
    RunsGood(acts);
    EntryHasOrigin(acts);
    var p: nat :| Origin(acts, p);
    if b.listVersion < |s.versions| - 1 {
      var n := LastChange(acts);
      assert ChangesAfter(acts, n, Saved(acts, p));
      assert false;
    }
  }

  predicate NoWrites(acts: seq<Action>) { forall i :: 0 <= i < |acts| ==> !acts[i].Write? }

  /** From here on, for as long as the table does not change, only the table as it is gets served
      from the cache. */
  ghost predicate CurrentFromNow(s: State)
    requires s.versions != []
  {
    forall more: seq<Action> :: NoWrites(more) && RunFrom(s, more).entry.Some? ==>
      ShowsNow(s, RunFrom(s, more).entry.value.value.build)
  }

  /** The entry and every build in flight hold nothing out of date. */
  ghost predicate NothingStale(s: State)
    requires s.versions != []
  {
    && (s.entry.Some? ==> ShowsNow(s, s.entry.value.value.build))
    && (forall b :: b in s.builds ==> ShowsNow(s, s.builds[b]))
  }

  lemma PutKeepsCurrent(s: State, b: nat, d: Build)
    requires s.versions != [] && NothingStale(s) && ShowsNow(s, d)
    ensures NothingStale(s.(builds := s.builds[b := d]))
  {
    forall c | c in s.builds && c != b ensures ShowsNow(s, s.builds[c]) {
    }
  }

  lemma SaveKeepsCurrent(s: State, a: Action)
    requires s.versions != [] && NothingStale(s) && a.Save?
    ensures NothingStale(Apply(s, a))
  {
    if a.build in s.builds { assert ShowsNow(s, s.builds[a.build]); }
  }

  lemma ListKeepsCurrent(s: State, at: Time, b: nat, full: bool, q: seq<WorkItem>)
    requires s.versions != [] && NothingStale(s)
    ensures NothingStale(Apply(s, ReadList(at, b, full, q)))
  {
    if b !in s.builds && CanRead(s, full, q) {
      if full { FilterIsListing(Current(s), q); }
      PutKeepsCurrent(s, b, Begun(s, at, full, q));
    }
  }

  lemma TotalsKeepCurrent(s: State, at: Time, b: nat)
    requires s.versions != [] && NothingStale(s)
    ensures NothingStale(Apply(s, ReadTotals(at, b)))
  {
    if b in s.builds && s.builds[b].totals.None? { PutKeepsCurrent(s, b, Totalled(s, at, s.builds[b])); }
  }

  lemma StepKeepsCurrent(s: State, a: Action)
    requires s.versions != [] && NothingStale(s) && !a.Write?
    ensures Apply(s, a).versions == s.versions && NothingStale(Apply(s, a))
  {
    match a {
      case ReadList(at, b, full, q) => ListKeepsCurrent(s, at, b, full, q);
      case ReadTotals(at, b) => TotalsKeepCurrent(s, at, b);
      case Save(_, _, _) => SaveKeepsCurrent(s, a);
      case Invalidate(_, _) =>
    }
  }

  lemma {:induction false} RunKeepsCurrent(s: State, more: seq<Action>)
    requires s.versions != [] && NothingStale(s) && NoWrites(more)
    ensures RunFrom(s, more).versions == s.versions && NothingStale(RunFrom(s, more))
  {
    if more != [] {
      RunKeepsCurrent(s, more[..|more| - 1]);
      StepKeepsCurrent(RunFrom(s, more[..|more| - 1]), more[|more| - 1]);
    }
  }

  /** A build that holds something out of date can still save it. */
  lemma StaleBuildSaves(s: State, b: nat) returns (more: seq<Action>)
    requires s.versions != [] && b in s.builds && !ShowsNow(s, s.builds[b])
    ensures NoWrites(more) && RunFrom(s, more).entry.Some? && !ShowsNow(s, RunFrom(s, more).entry.value.value.build)
  {
    var read, save := ReadTotals(0.0, b), Save(0.0, b, true);
    more := [] + [read] + [save];
    RunAppend(s, [], read);
    RunAppend(s, [] + [read], save);
  }

  /** Once the table stops changing, the cache is right for good, whatever is read, saved and
      invalidated, exactly when neither the entry nor a build in flight holds anything out of date. */
  lemma CurrentFromNowIff(s: State)
    requires s.versions != []
    ensures CurrentFromNow(s) <==> NothingStale(s)
  {
    if NothingStale(s) {
      forall more: seq<Action> | NoWrites(more) && RunFrom(s, more).entry.Some?
        ensures ShowsNow(s, RunFrom(s, more).entry.value.value.build)
      {
        RunKeepsCurrent(s, more);
      }
    } else if b :| b in s.builds && !ShowsNow(s, s.builds[b]) {
      var more := StaleBuildSaves(s, b);
    } else {
      assert NoWrites([]) && RunFrom(s, []) == s;
    }
  }

  lemma Then(acts: seq<Action>, a: Action) returns (more: seq<Action>)
    ensures more == acts + [a] && Run(more) == Apply(Run(acts), a)
  {
    RunAppend(INITIAL, acts, a);
    more := acts + [a];
  }

  lemma EmptyTable()
    ensures IsListing(map[], Active, []) && CountsOf(map[]) == Counts(0, 0, 0, 0)
  {
    assert forall sel :: Rows(map[], sel) == {};
  }

  lemma OpenIsCounted(w: WorkItem)
    requires w.state == Open
    ensures CountsOf(map[w.id := w]).open > 0
  {
    assert w.id in map[w.id := w] && Selected(InState(Open), map[w.id := w][w.id]);
    assert w in Rows(map[w.id := w], InState(Open));
  }

  /** A build of the empty table, ready to be saved. */
  lemma EmptyBuilt() returns (acts: seq<Action>, b: Build)
    ensures acts == [ReadList(0.0, 0, false, []), ReadTotals(0.0, 0)]
    ensures Run(acts) == State(INITIAL.versions, None, map[0 := b]) && b.totals == Some(Counts(0, 0, 0, 0))
  {
    EmptyTable();
    b := Begun(INITIAL, 0.0, false, []);
    acts := Then([], ReadList(0.0, 0, false, []));
    assert Run(acts) == State(INITIAL.versions, None, map[0 := b]);
    acts := Then(acts, ReadTotals(0.0, 0));
    b := Totalled(INITIAL, 0.0, b);
  }

  /** An invalidation as soon as the table has changed is not enough: a build that read the table
      before may save after it. */
  lemma LateSaveIsStale(w: WorkItem) returns (acts: seq<Action>)
    requires w.state == Open
    ensures InOrder(acts) && Run(acts).entry.Some? && !ShowsNow(Run(acts), Run(acts).entry.value.value.build)
    ensures forall n :: 0 <= n < |acts| && acts[n].Write? ==> Clears(acts, n + 1)
  {
    var b: Build;
    acts, b := EmptyBuilt();
    acts := Then(acts, Write(0.0, map[w.id := w]));
    acts := Then(acts, Invalidate(0.0, true));
    acts := Then(acts, Save(0.0, 0, true));
    assert Run(acts).entry == Some(Filled(b, 0.0));
    OpenIsCounted(w);
  }
}
