/** The records the stores keep, and the rules that only look at one record. */
module Models {
  datatype Option<+T> = None | Some(value: T)

  datatype Severity = P0 | P1 | P2

  /** The four states of the schema, and any other string a client may ask for. */
  datatype WorkItemState = Open | Investigating | Resolved | Closed | Undefined(name: string)

  /** Instants are seconds counted from the zero time, so a field never filled in is 0. */
  type Time = real

  const ZERO_TIME: Time := 0.0

  /** The longest duration there is: 2^63 - 1 nanoseconds. Differences of times saturate there. */
  const MAX_DURATION := 9223372036.854775807

  function Sub(a: Time, b: Time): real {
    if a - b > MAX_DURATION then MAX_DURATION
    else if a - b < -MAX_DURATION then -MAX_DURATION
    else a - b
  }

  lemma DividedTimes(x: real, r: real)
    requires r != 0.0
    ensures (x / r) * r == x
  {
  }

  datatype WorkItem = WorkItem(
    id: string,
    componentID: string,
    severity: Severity,
    state: WorkItemState,
    signalCount: nat,
    createdAt: Time,
    updatedAt: Time,
    resolvedAt: Option<Time>,
    closedAt: Option<Time>,
    mttr: Option<real>)

  function NewWorkItem(id: string, componentID: string, severity: Severity, now: Time): WorkItem {
    WorkItem(id, componentID, severity, Open, 1, now, now, None, None, None)
  }

  /** A signal as it is queued: linked to the work item the debouncer resolved. */
  datatype Signal = Signal(id: string, componentID: string, workItemID: string)

  /** Text fields are byte strings: one char per byte. */
  datatype RCA = RCA(
    id: string,
    workItemID: string,
    incidentStart: Time,
    incidentEnd: Time,
    rootCauseCategory: string,
    rootCauseDetail: string,
    fixApplied: string,
    preventionSteps: string,
    submittedBy: string,
    submittedAt: Time)

  datatype RCAError =
    | MissingWorkItemID | MissingStartTime | MissingEndTime | EndBeforeStart
    | MissingCategory | RootCauseTooShort | FixTooShort | PreventionTooShort

  function Validate(r: RCA): Option<RCAError> {
    if r.workItemID == "" then Some(MissingWorkItemID)
    else if r.incidentStart == ZERO_TIME then Some(MissingStartTime)
    else if r.incidentEnd == ZERO_TIME then Some(MissingEndTime)
    else if r.incidentEnd <= r.incidentStart then Some(EndBeforeStart)
    else if r.rootCauseCategory == "" then Some(MissingCategory)
    else if |r.rootCauseDetail| < 20 then Some(RootCauseTooShort)
    else if |r.fixApplied| < 10 then Some(FixTooShort)
    else if |r.preventionSteps| < 10 then Some(PreventionTooShort)
    else None
  }

  /** Every field is filled in, the times are in order and the texts long enough. */
  predicate FilledIn(r: RCA) {
    && r.workItemID != "" && r.incidentStart != 0.0 && r.incidentEnd != 0.0
    && r.incidentStart < r.incidentEnd && r.rootCauseCategory != ""
    && |r.rootCauseDetail| >= 20 && |r.fixApplied| >= 10 && |r.preventionSteps| >= 10
  }

  /** Field by field in that order, `e` is the first complaint there is. */
  predicate FirstComplaint(r: RCA, e: RCAError) {
    var times := r.workItemID != "" && r.incidentStart != 0.0 && r.incidentEnd != 0.0;
    var texts := times && r.incidentStart < r.incidentEnd && r.rootCauseCategory != "";
    match e
    case MissingWorkItemID => r.workItemID == ""
    case MissingStartTime => r.workItemID != "" && r.incidentStart == 0.0
    case MissingEndTime => r.workItemID != "" && r.incidentStart != 0.0 && r.incidentEnd == 0.0
    case EndBeforeStart => times && r.incidentStart >= r.incidentEnd
    case MissingCategory => times && r.incidentStart < r.incidentEnd && r.rootCauseCategory == ""
    case RootCauseTooShort => texts && |r.rootCauseDetail| < 20
    case FixTooShort => texts && |r.rootCauseDetail| >= 20 && |r.fixApplied| < 10
    case PreventionTooShort => texts && |r.rootCauseDetail| >= 20 && |r.fixApplied| >= 10 && |r.preventionSteps| < 10
  }

  /** Validation accepts exactly the complete RCAs, and reports the first complaint about any other. */
  lemma ValidateMeans(r: RCA)
    ensures Validate(r).None? <==> FilledIn(r)
    ensures forall e :: Validate(r) == Some(e) <==> FirstComplaint(r, e)
  {
    if Validate(r).Some? { assert FirstComplaint(r, Validate(r).value); }
  }

  /** `minutes` is how long the RCA's incident lasted, or the longest duration there is. */
  predicate Lasted(r: RCA, minutes: real) {
    var seconds := r.incidentEnd - r.incidentStart;
    minutes * 60.0 == if seconds <= 9223372036.854775807 then seconds else 9223372036.854775807
  }

  lemma MTTRMeans(r: RCA)
    requires FilledIn(r)
    ensures Lasted(r, MTTRMinutes(r)) && MTTRMinutes(r) > 0.0
  {
  }

  function MTTRMinutes(r: RCA): real { Sub(r.incidentEnd, r.incidentStart) / 60.0 }

  // --- The state pattern -----------------------------------------------------------------------

  function ValidTransitions(s: WorkItemState): seq<WorkItemState> {
    match s
    case Open => [Investigating]
    case Investigating => [Resolved]
    case Resolved => [Closed]
    case _ => []
  }

  predicate CanTransitionTo(s: WorkItemState, next: WorkItemState) {
    match s
    case Open => next == Investigating
    case Investigating => next == Resolved
    case Resolved => next == Closed
    case _ => false
  }

  /** The state that leads to `s`; OPEN and undefined states are led to by none. */
  function Predecessor(s: WorkItemState): Option<WorkItemState> {
    match s
    case Investigating => Some(Open)
    case Resolved => Some(Investigating)
    case Closed => Some(Resolved)
    case _ => None
  }

  /** The buttons offered and the transitions accepted are the same, and each state has one way in. */
  lemma TransitionsAgree(s: WorkItemState, next: WorkItemState)
    ensures CanTransitionTo(s, next) <==> next in ValidTransitions(s)
    ensures CanTransitionTo(s, next) <==> Predecessor(next) == Some(s)
    ensures CanTransitionTo(s, next) <==> (s, next) in STEPS
  {
    assert ValidTransitions(s) == [] || |ValidTransitions(s)| == 1;
  }

  /** The steps of the workflow. */
  const STEPS: set<(WorkItemState, WorkItemState)> :=
    {(Open, Investigating), (Investigating, Resolved), (Resolved, Closed)}

  // --- What the workflow writes, as functions of the row it finds ------------------------------

  /** The state update: RESOLVED and CLOSED also stamp their time, and CLOSED the MTTR. */
  function WithState(w: WorkItem, s: WorkItemState, mttr: Option<real>, now: Time): WorkItem {
    match s
    case Resolved => w.(state := s, resolvedAt := Some(now), updatedAt := now)
    case Closed => w.(state := s, closedAt := Some(now), updatedAt := now, mttr := mttr)
    case _ => w.(state := s, updatedAt := now)
  }

  function WithSeverity(w: WorkItem, sev: Severity, now: Time): WorkItem {
    w.(severity := sev, updatedAt := now)
  }

  function WithOneMoreSignal(w: WorkItem, now: Time): WorkItem {
    w.(signalCount := w.signalCount + 1, updatedAt := now)
  }

  /** The cached dashboard: totals by state and the active items, worst and newest first. */
  datatype DashboardState = DashboardState(
    totalOpen: nat,
    totalInvestigating: nat,
    totalResolved: nat,
    totalClosed: nat,
    signalsPerSecond: real,
    activeIncidents: seq<WorkItem>,
    updatedAt: Time)

  predicate IsActive(w: WorkItem) { w.state == Open || w.state == Investigating }
}
