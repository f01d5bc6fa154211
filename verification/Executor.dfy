/**
  The agent's executor: it runs the details of a schedule sequence by sequence, reserves a
  result slot for every task before it registers it, and crosses from one sequence to the
  next only when the server has acknowledged every result. A handler is one step.
 */
module Executor {
  import opened Protocol

  /** One registered task: first a job of the scheduler, then a running thread, then a result in the outbox. */
  datatype Job =
    | Regular(context: Uuid, schedule: nat, sequence: nat, detail: Uuid)
    | Manual(context: Uuid, schedule: nat, detail: Uuid, manual: nat, token: string)

  /** What a finished task has to report. */
  datatype Result = Result(started: int, finished: int, code: int, message: Option<string>, environment: string)

  /** The result as it is queued. The context is its execution group, and the attempt is always the first. */
  function EnvelopeOf(job: Job, r: Result): Envelope {
    match job
    case Regular(context, g, q, d) =>
      Envelope(context, g, d, 1, None, None, r.started, r.finished, r.code, r.message, r.environment, q)
    case Manual(context, g, d, m, token) =>
      Envelope(context, g, d, 1, Some(m), Some(token), r.started, r.finished, r.code, r.message, r.environment, 1)
  }

  /** The task that an acknowledged or rejected result is of. */
  function JobOf(e: Envelope): Job {
    if e.manual.Some? then
      Manual(e.group, Natural(e.schedule), e.detail, e.manual.value, if e.token.Some? then e.token.value else "")
    else
      Regular(e.group, Natural(e.schedule), Natural(e.sequence), e.detail)
  }

  function Natural(n: int): nat {
    if n < 0 then 0 else n
  }

  function ResultOf(e: Envelope): Result {
    Result(e.started, e.finished, e.code, e.message, e.environment)
  }

  /** One detail of a schedule as the snapshot gives it. */
  datatype Detail = Detail(id: Uuid, sequence: nat)

  /** An execution context; `plan` keeps the sequences as they were before any detail was excluded. */
  datatype Context = Context(id: Uuid, plan: map<nat, seq<Uuid>>, sequences: map<nat, seq<Uuid>>, stop: bool)

  /** What the executor holds for one schedule, the sequences its context has started, and whether a start threw. */
  datatype Lane = Lane(
    running: bool,
    context: Option<Context>,
    completion: map<nat, seq<Uuid>>,
    started: seq<nat>,
    stuck: bool)

  const IDLE: Lane := Lane(false, None, map[], [], false)

  /** `used` holds the context ids made so far and `registered` every task ever registered. */
  datatype State = State(
    reserved: int, queued: int, capacity: nat, closed: bool,
    lanes: map<nat, Lane>,
    manuals: map<nat, Uuid>,
    inflight: set<nat>,
    jobs: set<Job>,
    executing: set<Job>,
    results: set<Job>,
    registered: set<Job>,
    used: set<Uuid>)
  {
    function At(g: nat): Lane {
      if g in lanes then lanes[g] else IDLE
    }

    function Put(g: nat, lane: Lane): State {
      this.(lanes := lanes[g := lane])
    }

    /** Registered and not yet acknowledged. */
    function Live(): set<Job> {
      jobs + executing + results
    }
  }

  // ------------------------------------------------------------ sequences

  function Grouped(details: seq<Detail>): map<nat, seq<Uuid>> {
    if details == [] then map[]
    else
      var rest := Grouped(details[..|details| - 1]);
      var d := details[|details| - 1];
      rest[d.sequence := (if d.sequence in rest then rest[d.sequence] else []) + [d.id]]
  }

  ghost function Least(s: set<nat>): (m: nat)
    requires s != {}
    ensures m in s && forall x :: x in s ==> m <= x
  {
    var x :| x in s;
    if s == {x} then x
    else
      var rest := s - {x};
      var m := Least(rest);
      assert s == rest + {x};
      if x < m then x else m
  }

  function Later(c: Context, q: nat): set<nat> {
    set r | r in c.sequences && q < r
  }

  function Without(ids: seq<Uuid>, id: Uuid): seq<Uuid> {
    if ids == [] then []
    else if ids[0] == id then Without(ids[1..], id)
    else [ids[0]] + Without(ids[1..], id)
  }

  /** Removes the first occurrence. */
  function RemoveOne(ids: seq<Uuid>, id: Uuid): seq<Uuid> {
    if ids == [] then []
    else if ids[0] == id then ids[1..]
    else [ids[0]] + RemoveOne(ids[1..], id)
  }

  function JobsOf(context: Uuid, g: nat, q: nat, ids: seq<Uuid>): set<Job> {
    set d | d in ids :: Regular(context, g, q, d)
  }

  /** Registering a task replaces a registered task with the same schedule, detail and sequence. */
  function ReplacedBy(jobs: set<Job>, g: nat, q: nat, ids: seq<Uuid>): set<Job> {
    set j | j in jobs && j.Regular? && j.schedule == g && j.sequence == q && j.detail in ids
  }

  // ------------------------------------------------------------ the handlers

  datatype Outcome = Started | Declined | Raised

  function StopLane(lane: Lane): Lane {
    if lane.context.None? then lane else lane.(context := Some(lane.context.value.(stop := true)))
  }

  function TasksAt(lane: Lane, q: nat): seq<Uuid> {
    if lane.context.None? || q !in lane.context.value.sequences then [] else lane.context.value.sequences[q]
  }

  function HasRoom(s: State, n: nat): bool {
    !s.closed && s.reserved + s.queued + n <= s.capacity
  }

  /** Registers one sequence, or nothing: no room, no tasks, or the scheduler threw at task number `fault`. */
  function ExecuteNext(s: State, g: nat, q: nat, fault: Option<nat>): (Outcome, State) {
    var lane := s.At(g);
    var tasks := TasksAt(lane, q);
    if tasks == [] then
      (Declined, s)
    else if !HasRoom(s, |tasks|) then
      (Declined, s.Put(g, StopLane(lane)))
    else if fault.Some? && fault.value < |tasks| then
      (Raised, s.Put(g, StopLane(lane.(completion := lane.completion - {q}))).(
                 jobs := s.jobs - ReplacedBy(s.jobs, g, q, tasks[..fault.value])))
    else
      var added := JobsOf(lane.context.value.id, g, q, tasks);
      (Started, s.Put(g, lane.(completion := lane.completion[q := tasks], started := lane.started + [q])).(
                  reserved := s.reserved + |tasks|,
                  jobs := s.jobs - ReplacedBy(s.jobs, g, q, tasks) + added,
                  registered := s.registered + added))
  }

  /** What the caller does with the outcome: a refusal ends the context, an exception leaves it marked as running. */
  function Conclude(outcome: Outcome, s: State, g: nat): State {
    match outcome
    case Started => s
    case Declined => s.Put(g, s.At(g).(running := false))
    case Raised => s.Put(g, s.At(g).(stuck := true))
  }

  function Advance(s: State, g: nat, q: nat, fault: Option<nat>): State {
    var (outcome, t) := ExecuteNext(s, g, q, fault);
    Conclude(outcome, t, g)
  }

  lemma {:induction false} GroupedKeys(details: seq<Detail>)
    ensures Grouped(details).Keys == set d | d in details :: d.sequence
    ensures details != [] ==> Grouped(details).Keys != {}
  {
    if details != [] {
      var init := details[..|details| - 1];
      GroupedKeys(init);
      assert details == init + [details[|details| - 1]];
      assert details[|details| - 1].sequence in Grouped(details).Keys;
    }
  }

  function Open(s: State, g: nat, details: seq<Detail>, id: Uuid): State {
    var plan := Grouped(details);
    s.Put(g, Lane(true, Some(Context(id, plan, plan, false)), map[], [], false)).(used := s.used + {id})
  }

  /** `details` are those of the schedule in the current snapshot, none when it has no such schedule. */
  ghost function Start(s: State, g: nat, allowed: bool, details: seq<Detail>, id: Uuid, fault: Option<nat>): State {
    if !allowed || s.At(g).running || details == [] then
      s
    else
      GroupedKeys(details);
      Advance(Open(s, g, details, id), g, Least(Grouped(details).Keys), fault)
  }

  ghost function FinishDetail(s: State, g: nat, q: nat, d: Uuid, runNext: bool, fault: Option<nat>): State {
    var lane := s.At(g);
    if q !in lane.completion || lane.context.None? then
      s
    else
      var remaining := RemoveOne(lane.completion[q], d);
      if remaining != [] then
        s.Put(g, lane.(completion := lane.completion[q := remaining]))
      else
        var done := lane.(completion := lane.completion - {q});
        var c := lane.context.value;
        if runNext && !c.stop && Later(c, q) != {} then
          Advance(s.Put(g, done), g, Least(Later(c, q)), fault)
        else if done.completion == map[] then
          s.Put(g, done.(running := false))
        else
          s.Put(g, done)
  }

  function Exclude(c: Context, d: Uuid): Context {
    c.(sequences := map q | q in c.sequences :: Without(c.sequences[q], d))
  }

  function ApplyOne(c: Context, transition: Transition): Context {
    match transition
    case DetailError(d) => Exclude(c, d)
    case GroupError(_) => c.(stop := true)
    case _ => c
  }

  function ApplyTransitions(c: Context, transitions: seq<Transition>): Context
    decreases |transitions|
  {
    if transitions == [] then c
    else ApplyTransitions(ApplyOne(c, transitions[0]), transitions[1..])
  }

  function Transit(lane: Lane, transitions: seq<Transition>): Lane {
    if lane.context.None? then lane else lane.(context := Some(ApplyTransitions(lane.context.value, transitions)))
  }

  ghost function Acknowledge(s: State, job: Job, transitions: seq<Transition>, fault: Option<nat>): State {
    match job
    case Manual(_, _, _, m, _) => s.(manuals := s.manuals - {m})
    case Regular(_, g, q, d) =>
      if s.At(g).context.None? then s
      else FinishDetail(s.Put(g, Transit(s.At(g), transitions)), g, q, d, true, fault)
  }

  ghost function Refuse(s: State, job: Job): State {
    match job
    case Manual(_, _, _, m, _) => s.(manuals := s.manuals - {m})
    case Regular(_, g, q, d) => FinishDetail(s.Put(g, StopLane(s.At(g))), g, q, d, false, None)
  }

  /** What the claim of a manual run came to. */
  datatype ClaimOutcome = ClaimFailed | BadToken | Won(token: string)

  /** `ready` is false when execution is not allowed, `found` when the snapshot has no such claimable run. */
  function Dispatch(s: State, m: nat, ready: bool, found: bool, claim: ClaimOutcome,
                    id: Uuid, schedule: nat, detail: Uuid, inline: bool): State {
    if !ready then
      s.(inflight := s.inflight - {m})
    else if m in s.inflight then
      s
    else if !found || !HasRoom(s, 1) || !claim.Won? then
      s
    else
      var job := Manual(id, schedule, detail, m, claim.token);
      var t := s.(inflight := s.inflight + {m}, manuals := s.manuals[m := id],
                  reserved := s.reserved + 1, registered := s.registered + {job}, used := s.used + {id});
      if inline then t.(executing := s.executing + {job}) else t.(jobs := s.jobs + {job})
  }

  // ------------------------------------------------------------ steps and runs

  datatype Step =
    | StartGroup(schedule: nat, allowed: bool, details: seq<Detail>, context: Uuid, fault: Option<nat>)
    | DispatchManual(manual: nat, ready: bool, found: bool, claim: ClaimOutcome, context: Uuid, schedule: nat, detail: Uuid, inline: bool)
    | Fire(job: Job)
    | Report(job: Job)
    | Ack(job: Job, transitions: seq<Transition>, fault: Option<nat>)
    | Reject(job: Job)
    | RepeatAck(job: Job, transitions: seq<Transition>, fault: Option<nat>)
    | Mark(schedules: set<nat>)
    | OutboxMoves(queued: int, closed: bool)

  ghost predicate NoDuplicates(ids: seq<Uuid>) {
    forall i, j :: 0 <= i < j < |ids| ==> ids[i] != ids[j]
  }

  ghost predicate DistinctDetails(details: seq<Detail>) {
    forall i, j :: 0 <= i < j < |details| ==> details[i].id != details[j].id
  }

  /** Context ids are new, a snapshot's details are distinct, and `Ack` is the first acknowledgement of a result. */
  ghost predicate Enabled(s: State, step: Step) {
    match step
    case StartGroup(_, _, details, id, _) => DistinctDetails(details) && id !in s.used
    case DispatchManual(_, _, _, _, id, _, _, _) => id !in s.used
    case Fire(job) => job in s.jobs
    case Report(job) => job in s.executing
    case Ack(job, _, _) => job in s.results
    case Reject(job) => job in s.results
    case RepeatAck(job, _, _) => job in s.registered && job !in s.Live()
    case Mark(_) => true
    case OutboxMoves(queued, closed) => 0 <= queued <= s.queued && (s.closed ==> closed)
  }

  /** A starting task marks its schedule as running, whatever the schedule's state is. */
  function FireJob(s: State, job: Job): State {
    var t := s.(jobs := s.jobs - {job}, executing := s.executing + {job});
    if job.Regular? then t.Put(job.schedule, s.At(job.schedule).(running := true)) else t
  }

  function ReportJob(s: State, job: Job): State {
    s.(reserved := s.reserved - 1, queued := s.queued + 1,
       executing := s.executing - {job}, results := s.results + {job})
  }

  function MarkStop(s: State, schedules: set<nat>): State {
    s.(lanes := map g | g in s.lanes :: if g in schedules then StopLane(s.lanes[g]) else s.lanes[g])
  }

  ghost function Next(s: State, step: Step): State {
    match step
    case StartGroup(g, allowed, details, id, fault) => Start(s, g, allowed, details, id, fault)
    case DispatchManual(m, ready, found, claim, id, schedule, detail, inline) =>
      Dispatch(s, m, ready, found, claim, id, schedule, detail, inline)
    case Fire(job) => FireJob(s, job)
    case Report(job) => ReportJob(s, job)
    case Ack(job, transitions, fault) => Acknowledge(s.(results := s.results - {job}), job, transitions, fault)
    case Reject(job) => Refuse(s.(results := s.results - {job}), job)
    case RepeatAck(job, transitions, fault) => Acknowledge(s, job, transitions, fault)
    case Mark(schedules) => MarkStop(s, schedules)
    case OutboxMoves(queued, closed) => s.(queued := queued, closed := closed)
  }

  datatype Run = Run(states: seq<State>, steps: seq<Step>)

  ghost predicate IsRun(run: Run) {
    && |run.states| == |run.steps| + 1
    && (forall k {:trigger run.steps[k]} :: 0 <= k < |run.steps| ==>
          Enabled(run.states[k], run.steps[k]) && run.states[k + 1] == Next(run.states[k], run.steps[k]))
  }

  function Initial(capacity: nat): State {
    State(0, 0, capacity, false, map[], map[], {}, {}, {}, {}, {}, {})
  }

  /** From the start, and no result is acknowledged a second time. */
  ghost predicate IsCleanRun(run: Run) {
    && IsRun(run)
    && run.states[0] == Initial(run.states[0].capacity)
    && forall k {:trigger run.steps[k]} :: 0 <= k < |run.steps| ==> !run.steps[k].RepeatAck?
  }

  // ------------------------------------------------------------ the invariant

  /** Every detail is planned once. */
  ghost predicate IsPlan(plan: map<nat, seq<Uuid>>) {
    && (forall q :: q in plan ==> plan[q] != [] && NoDuplicates(plan[q]))
    && (forall q, r, d :: q in plan && r in plan && d in plan[q] && d in plan[r] ==> q == r)
  }

  /** Excluding details never adds or moves one. */
  ghost predicate Trimmed(c: Context) {
    && c.sequences.Keys == c.plan.Keys
    && (forall q :: q in c.sequences ==> NoDuplicates(c.sequences[q]))
    && (forall q, d :: q in c.sequences && d in c.sequences[q] ==> d in c.plan[q])
  }

  function Ahead(lane: Lane): set<nat> {
    if lane.context.None? then {} else set q | q in lane.context.value.plan && q !in lane.started
  }

  /** Sequences start in increasing order and none is passed over. */
  ghost predicate InOrder(lane: Lane) {
    && (forall i, j :: 0 <= i < j < |lane.started| ==> lane.started[i] < lane.started[j])
    && (lane.context.Some? ==>
          && (forall q :: q in lane.started ==> q in lane.context.value.plan)
          && (forall q, r :: q in lane.context.value.plan && r in lane.started && q <= r ==> q in lane.started))
  }

  /** Details are outstanding in the last sequence started, and in no other. */
  ghost predicate OneOpen(lane: Lane)
    requires lane.context.Some?
  {
    lane.completion == map[] ||
    (&& lane.started != []
     && !lane.stuck
     && var q := lane.started[|lane.started| - 1];
        && q in lane.context.value.plan
        && lane.completion.Keys == {q}
        && lane.completion[q] != []
        && NoDuplicates(lane.completion[q])
        && forall d :: d in lane.completion[q] ==> d in lane.context.value.plan[q])
  }

  ghost predicate Sketch(lane: Lane) {
    if lane.context.None? then lane == IDLE
    else
      && IsPlan(lane.context.value.plan)
      && Trimmed(lane.context.value)
      && InOrder(lane)
      && OneOpen(lane)
      && (lane.stuck ==> lane.context.value.stop)
  }

  /** The context has no reason to go on. */
  ghost predicate Over(lane: Lane)
    requires lane.context.Some?
  {
    var c := lane.context.value;
    || c.stop
    || Ahead(lane) == {}
    || (var q := Least(Ahead(lane)); q in c.sequences && c.sequences[q] == [])
  }

  ghost predicate Shape(lane: Lane) {
    && Sketch(lane)
    && (lane.running <==> lane.completion != map[] || lane.stuck)
    && (lane.context.Some? && !lane.running ==> Over(lane))
  }

  predicate Owes(lane: Lane, j: Job) {
    && j.Regular?
    && lane.context.Some?
    && j.context == lane.context.value.id
    && j.sequence in lane.completion
    && j.detail in lane.completion[j.sequence]
  }

  /** The context a job belongs to, while it is the schedule's, has started the sequence of the job. */
  predicate Recorded(lane: Lane, j: Job) {
    && j.Regular?
    && lane.context.Some?
    && (j.context == lane.context.value.id ==>
          && j.sequence in lane.started
          && j.sequence in lane.context.value.plan
          && j.detail in lane.context.value.plan[j.sequence])
  }

  ghost predicate Slots(s: State) {
    && s.jobs !! s.executing
    && (s.jobs + s.executing) !! s.results
    && s.Live() <= s.registered
    && s.reserved == |s.jobs| + |s.executing|
    && 0 <= s.queued
    && s.reserved + s.queued <= s.capacity
  }

  /** A schedule's live tasks are exactly those it has outstanding. */
  ghost predicate Accounts(s: State) {
    forall j: Job {:trigger Owes(s.At(j.schedule), j)} :: j.Regular? ==> (j in s.Live() <==> Owes(s.At(j.schedule), j))
  }

  ghost predicate History(s: State) {
    && (forall j :: j in s.registered ==> j.context in s.used && (j.Regular? ==> Recorded(s.At(j.schedule), j)))
    && (forall g :: s.At(g).context.Some? ==> s.At(g).context.value.id in s.used)
  }

  ghost predicate Good(s: State) {
    && Slots(s)
    && Accounts(s)
    && History(s)
    && forall g :: Shape(s.At(g))
  }
}
