/** What each handler of the executor does, on the fields of the states before and after it. */
module ExecutorSteps {
  import opened Protocol
  import opened Executor
  import opened ExecutorRuns
  import opened ExecutorGuarantees
  import ExecutorOwnership

  // ------------------------------------------------------------ grouping

  /** The details with this sequence number, in the order of the list. */
  function Numbered(details: seq<Detail>, q: nat): seq<Uuid> {
    if details == [] then []
    else (if details[0].sequence == q then [details[0].id] else []) + Numbered(details[1..], q)
  }

  lemma {:induction false} NumberedAdds(details: seq<Detail>, last: Detail, q: nat)
    ensures Numbered(details + [last], q) == Numbered(details, q) + (if last.sequence == q then [last.id] else [])
    decreases |details|
  {
    if details == [] {
      assert [last][1..] == [];
    } else {
      assert (details + [last])[1..] == details[1..] + [last];
      NumberedAdds(details[1..], last, q);
    }
  }

  /** A plan has the sequences of the details, and under each one its details in their order. */
  lemma {:induction false} PlanInOrder(details: seq<Detail>, q: nat)
    ensures q in Grouped(details) <==> Numbered(details, q) != []
    ensures q in Grouped(details) ==> Grouped(details)[q] == Numbered(details, q)
    decreases |details|
  {
    if details != [] {
      var init, last := details[..|details| - 1], details[|details| - 1];
      assert details == init + [last];
      PlanInOrder(init, q);
      NumberedAdds(init, last, q);
    }
  }

  // ------------------------------------------------------------ one sequence

  /** A task of one of these details: the scheduler knows it by schedule, detail and sequence. */
  predicate Named(j: Job, g: nat, q: nat, tasks: seq<Uuid>) {
    j.Regular? && j.schedule == g && j.sequence == q && j.detail in tasks
  }

  predicate Throwing(tasks: seq<Uuid>, fault: Option<nat>) {
    fault.Some? && fault.value < |tasks|
  }

  /** Slots for `n` more tasks are free in the open outbox. */
  predicate Room(s: State, n: nat) {
    !s.closed && s.reserved + s.queued + n <= s.capacity
  }

  ghost predicate TasksOf(s: State, g: nat, q: nat, c: Context, tasks: seq<Uuid>) {
    s.At(g).context == Some(c) && q in c.sequences && c.sequences[q] == tasks
  }

  /** With room for all and a scheduler that takes them, the whole sequence starts. */
  lemma SequenceStarts(s: State, g: nat, q: nat, fault: Option<nat>, c: Context, tasks: seq<Uuid>)
    requires TasksOf(s, g, q, c, tasks) && tasks != [] && Room(s, |tasks|) && !Throwing(tasks, fault)
    ensures var t, a := Advance(s, g, q, fault), s.At(g);
            && t == s.(lanes := s.lanes[g := a.(completion := a.completion[q := tasks], started := a.started + [q])],
                       reserved := s.reserved + |tasks|, jobs := t.jobs, registered := t.registered)
            && (forall j :: j in t.jobs <==>
                  (j in s.jobs && !Named(j, g, q, tasks)) || (Named(j, g, q, tasks) && j.context == c.id))
            && (forall j :: j in t.registered <==> j in s.registered || (Named(j, g, q, tasks) && j.context == c.id))
  {
  }

  /** Without room for all, nothing of it starts, and the context is to stop and over. */
  lemma SequenceRefused(s: State, g: nat, q: nat, fault: Option<nat>, c: Context, tasks: seq<Uuid>)
    requires TasksOf(s, g, q, c, tasks) && tasks != [] && !Room(s, |tasks|)
    ensures Advance(s, g, q, fault) == s.(lanes := s.lanes[g := s.At(g).(context := Some(c.(stop := true)), running := false)])
  {
    assert Advance(s, g, q, fault).lanes == s.lanes[g := s.At(g).(context := Some(c.(stop := true)), running := false)];
  }

  /** If the scheduler throws, the tasks it took go again, and the context is to stop but never over. */
  lemma SequenceHangs(s: State, g: nat, q: nat, fault: Option<nat>, c: Context, tasks: seq<Uuid>)
    requires TasksOf(s, g, q, c, tasks) && Room(s, |tasks|) && Throwing(tasks, fault)
    ensures var t, a := Advance(s, g, q, fault), s.At(g);
            && t == s.(lanes := s.lanes[g := a.(context := Some(c.(stop := true)), completion := a.completion - {q}, stuck := true)],
                       jobs := t.jobs)
            && (forall j :: j in t.jobs <==> j in s.jobs && !Named(j, g, q, tasks[..fault.value]))
  {
    var t, a := Advance(s, g, q, fault), s.At(g);
    assert t.lanes == s.lanes[g := a.(context := Some(c.(stop := true)), completion := a.completion - {q}, stuck := true)];
  }

  /** A sequence all of whose details were excluded ends the context, unmarked. */
  lemma SequenceEmpty(s: State, g: nat, q: nat, fault: Option<nat>, c: Context)
    requires TasksOf(s, g, q, c, [])
    ensures Advance(s, g, q, fault) == s.(lanes := s.lanes[g := s.At(g).(running := false)])
  {
  }

  // ------------------------------------------------------------ a trigger

  /** A trigger does nothing unless execution is allowed, the schedule is not running and has details. */
  lemma TriggerIgnored(s: State, g: nat, allowed: bool, details: seq<Detail>, id: Uuid, fault: Option<nat>)
    requires !allowed || s.At(g).running || details == []
    ensures Next(s, StartGroup(g, allowed, details, id, fault)) == s
  {
  }

  /**
    Otherwise the schedule has a new context that plans all its details, each under its sequence, and
    exactly the smallest sequence is put through the executor, in whatever state it is.
   */
  lemma TriggerOpensContext(s: State, g: nat, details: seq<Detail>, id: Uuid, fault: Option<nat>, q: nat)
    returns (plan: map<nat, seq<Uuid>>)
    requires !s.At(g).running && Numbered(details, q) != [] && forall x :: x in details ==> q <= x.sequence
    ensures forall r :: r in plan <==> Numbered(details, r) != []
    ensures forall r :: r in plan ==> plan[r] == Numbered(details, r)
    ensures var c := Context(id, plan, plan, false);
            var o := s.(lanes := s.lanes[g := Lane(true, Some(c), map[], [], false)], used := s.used + {id});
            TasksOf(o, g, q, c, Numbered(details, q)) && Next(s, StartGroup(g, true, details, id, fault)) == Advance(o, g, q, fault)
  {
    plan := Grouped(details);
    forall r ensures (r in plan <==> Numbered(details, r) != []) && (r in plan ==> plan[r] == Numbered(details, r)) {
      PlanInOrder(details, r);
    }
    GroupedKeys(details);
    LeastSequence(details, q);
    assert Open(s, g, details, id) ==
           s.(lanes := s.lanes[g := Lane(true, Some(Context(id, plan, plan, false)), map[], [], false)], used := s.used + {id});
  }

  lemma LeastSequence(details: seq<Detail>, q: nat)
    requires Numbered(details, q) != [] && forall x :: x in details ==> q <= x.sequence
    ensures details != [] && q in Grouped(details) && Least(Grouped(details).Keys) == q
  {
    PlanInOrder(details, q);
    GroupedKeys(details);
    var r := Least(Grouped(details).Keys);
    assert r in Grouped(details).Keys;
  }

  // ------------------------------------------------------------ an answered result

  lemma {:induction false} SequenceAfter(c: Context, transitions: seq<Transition>, q: nat)
    requires q in c.sequences
    ensures var n := ApplyTransitions(c, transitions);
            && q in n.sequences
            && (forall d :: d in n.sequences[q] <==> d in c.sequences[q] && DetailError(d) !in transitions)
            && (NoDuplicates(c.sequences[q]) ==> NoDuplicates(n.sequences[q]))
    decreases |transitions|
  {
    if transitions != [] {
      var head, rest := transitions[0], transitions[1..];
      assert transitions == [head] + rest;
      if head.DetailError? {
        WithoutMembers(c.sequences[q], head.detail);
      }
      SequenceAfter(ApplyOne(c, head), rest, q);
    }
  }

  lemma {:induction false} ElseSame(c: Context, transitions: seq<Transition>)
    ensures var n := ApplyTransitions(c, transitions);
            n == c.(stop := n.stop, sequences := n.sequences) && n.sequences.Keys == c.sequences.Keys
    decreases |transitions|
  {
    if transitions != [] {
      ElseSame(ApplyOne(c, transitions[0]), transitions[1..]);
    }
  }

  /** What transitions do to a context: errors of the group mark it, and the details in error go from every sequence. */
  lemma TransitionsMean(c: Context, transitions: seq<Transition>)
    ensures var n := ApplyTransitions(c, transitions);
            && n == c.(stop := n.stop, sequences := n.sequences)
            && (n.stop <==> c.stop || exists x :: GroupError(x) in transitions)
            && n.sequences.Keys == c.sequences.Keys
            && (forall q, d :: q in c.sequences ==> (d in n.sequences[q] <==> d in c.sequences[q] && DetailError(d) !in transitions))
            && (forall q :: q in c.sequences && NoDuplicates(c.sequences[q]) ==> NoDuplicates(n.sequences[q]))
  {
    ExecutorOwnership.StopIff(c, transitions);
    ElseSame(c, transitions);
    forall q | q in c.sequences {
      SequenceAfter(c, transitions, q);
    }
  }

  /** The acknowledgement of a manual run takes its status away, and that of a schedule changes nothing about manual runs. */
  lemma ManualAnswered(s: State, job: Job, transitions: seq<Transition>, fault: Option<nat>)
    requires job.Manual?
    ensures var t := s.(results := s.results - {job}, manuals := map m | m in s.manuals && m != job.manual :: s.manuals[m]);
            Next(s, Ack(job, transitions, fault)) == t && Next(s, Reject(job)) == t
  {
    assert s.manuals - {job.manual} == map m | m in s.manuals && m != job.manual :: s.manuals[m];
  }

  /** The details of the job's sequence that are still outstanding. */
  ghost predicate Left(s: State, job: Job, left: seq<Uuid>) {
    && job.Regular? && job.sequence in s.At(job.schedule).completion
    && NoDuplicates(left)
    && forall d :: d in left <==> d in s.At(job.schedule).completion[job.sequence] && d != job.detail
  }

  /** A rejected result marks its context and comes off its list; with the last one the context is over. */
  lemma RejectionEffect(s: State, job: Job)
    requires Good(s) && job in s.results && job.Regular?
    ensures var t, a := Next(s, Reject(job)), s.At(job.schedule);
            && a.context.Some?
            && var b := t.At(job.schedule);
               && t == s.(results := s.results - {job}, lanes := s.lanes[job.schedule := b])
               && b == a.(context := Some(a.context.value.(stop := true)), completion := b.completion, running := b.running)
               && (if b.completion == map[] then Left(s, job, []) && !b.running
                   else b.completion.Keys == {job.sequence} && Left(s, job, b.completion[job.sequence]) && b.running)
  {
    var a, next := s.At(job.schedule), StopLane(s.At(job.schedule));
    LiveIsOwed(s, job);
    SettleCases(s, job, next, false, None);
    RemoveOneMembers(a.completion[job.sequence], job.detail);
    var t := Next(s, Reject(job));
    assert t.lanes == s.lanes[job.schedule := t.At(job.schedule)];
  }

  /** What an acknowledgement leaves of the schedule's record once the transitions are applied and the detail is off its list. */
  ghost predicate Credited(s: State, job: Job, transitions: seq<Transition>, b: Lane) {
    var a := s.At(job.schedule);
    && a.context.Some? && job.Regular?
    && b == a.(context := Some(ApplyTransitions(a.context.value, transitions)), completion := b.completion)
    && (if b.completion == map[] then Left(s, job, [])
        else b.completion.Keys == {job.sequence} && Left(s, job, b.completion[job.sequence]))
  }

  /** The smallest planned sequence that the context has not started. */
  ghost predicate NextUp(lane: Lane, q: nat) {
    && lane.context.Some?
    && q in lane.context.value.plan && q !in lane.started
    && forall r :: r in lane.context.value.plan && r !in lane.started ==> q <= r
  }

  function After(s: State, job: Job, transitions: seq<Transition>): (b: Lane)
    requires job.Regular? && job.sequence in s.At(job.schedule).completion
  {
    Settled(Transit(s.At(job.schedule), transitions), job.sequence, job.detail)
  }

  lemma IsCredited(s: State, job: Job, transitions: seq<Transition>)
    requires Good(s) && job in s.results && job.Regular?
    ensures Owes(s.At(job.schedule), job) && Credited(s, job, transitions, After(s, job, transitions))
  {
    var a := s.At(job.schedule);
    LiveIsOwed(s, job);
    assert OneOpen(a);
    RemoveOneMembers(a.completion[job.sequence], job.detail);
    TransitKeeps(a.context.value, transitions);
  }

  lemma NextIsLeast(lane: Lane, q: nat)
    requires NextUp(lane, q)
    ensures q in Ahead(lane) && q == Least(Ahead(lane))
  {
  }

  lemma AckCases(s: State, job: Job, transitions: seq<Transition>, fault: Option<nat>)
    requires Good(s) && job in s.results && job.Regular? && Owes(s.At(job.schedule), job)
    ensures var b := After(s, job, transitions);
            var o := s.(results := s.results - {job}, lanes := s.lanes[job.schedule := b]);
            Next(s, Ack(job, transitions, fault)) ==
              if b.completion != map[] then o
              else if b.context.None? || b.context.value.stop || Ahead(b) == {} then o.(lanes := s.lanes[job.schedule := b.(running := false)])
              else Advance(o, job.schedule, Least(Ahead(b)), fault)
  {
    var a, next := s.At(job.schedule), Transit(s.At(job.schedule), transitions);
    TransitKeeps(a.context.value, transitions);
    LiveIsOwed(s, job);
    SettleCases(s, job, next, true, fault);
    var b, after := After(s, job, transitions), s.(results := s.results - {job}).Put(job.schedule, next);
    PutAgain(s.(results := s.results - {job}), job.schedule, next, b);
    PutAgain(s.(results := s.results - {job}), job.schedule, next, b.(running := false));
    assert Next(s, Ack(job, transitions, fault)) == FinishDetail(after, job.schedule, job.sequence, job.detail, true, fault);
  }

  lemma PutAgain(s: State, g: nat, first: Lane, last: Lane)
    ensures s.Put(g, first).Put(g, last) == s.(lanes := s.lanes[g := last])
  {
    assert s.lanes[g := first][g := last] == s.lanes[g := last];
  }

  /**
    An acknowledgement credits its detail. While others are left that is all; with the last one the
    context is over when it is to stop or has nothing ahead; and otherwise the next sequence of its
    plan is put through the executor.
   */
  lemma AckEffect(s: State, job: Job, transitions: seq<Transition>, fault: Option<nat>) returns (b: Lane)
    requires Good(s) && job in s.results && job.Regular?
    ensures Credited(s, job, transitions, b)
    ensures var t, o := Next(s, Ack(job, transitions, fault)), s.(results := s.results - {job}, lanes := s.lanes[job.schedule := b]);
            && (b.completion != map[] ==> t == o)
            && (b.completion == map[] && (b.context.value.stop || forall q :: !NextUp(b, q)) ==>
                  t == o.(lanes := s.lanes[job.schedule := b.(running := false)]))
            && (forall q :: b.completion == map[] && !b.context.value.stop && NextUp(b, q) ==> t == Advance(o, job.schedule, q, fault))
  {
    IsCredited(s, job, transitions);
    AckCases(s, job, transitions, fault);
    b := After(s, job, transitions);
    forall q | NextUp(b, q) ensures q in Ahead(b) && q == Least(Ahead(b)) {
      NextIsLeast(b, q);
    }
    if Ahead(b) != {} {
      LeastIsNext(b);
    }
  }

  lemma LeastIsNext(lane: Lane)
    requires Ahead(lane) != {}
    ensures NextUp(lane, Least(Ahead(lane)))
  {
    var q := Least(Ahead(lane));
    forall r | r in lane.context.value.plan && r !in lane.started ensures q <= r {
      assert r in Ahead(lane);
    }
  }

  // ------------------------------------------------------------ manual runs

  /**
    A dispatch registers the manual task of this run, takes one slot and marks the run if and only if
    it is ready, the run is not in flight and is in the snapshot, a slot is free and the claim is won.
    Otherwise it changes nothing, save that a dispatch that is not ready takes the run's mark away.
   */
  lemma DispatchEffect(s: State, m: nat, ready: bool, found: bool, claim: ClaimOutcome, id: Uuid, schedule: nat, detail: Uuid, inline: bool)
    ensures var t := Next(s, DispatchManual(m, ready, found, claim, id, schedule, detail, inline));
            if ready && m !in s.inflight && found && Room(s, 1) && claim.Won? then
              var job := Manual(id, schedule, detail, m, claim.token);
              && t.reserved == s.reserved + 1
              && t.registered == s.registered + {job}
              && t.jobs == (if inline then s.jobs else s.jobs + {job})
              && t.executing == (if inline then s.executing + {job} else s.executing)
              && t.inflight == s.inflight + {m}
              && t.manuals == s.manuals[m := id]
              && t.used == s.used + {id}
              && t.queued == s.queued && t.capacity == s.capacity && t.closed == s.closed && t.lanes == s.lanes && t.results == s.results
            else
              t == s.(inflight := if ready then s.inflight else s.inflight - {m})
  {
  }

  /** The queued result names its task and carries its outcome: both can be read back, and its key is of the first attempt. */
  lemma EnvelopeRoundTrip(job: Job, r: Result)
    ensures var e := EnvelopeOf(job, r);
            && JobOf(e) == job
            && Result(e.started, e.finished, e.code, e.message, e.environment) == r
            && e.Key() == ResultKey(job.context, job.detail, 1)
            && e.schedule == job.schedule
            && (e.manual, e.token) == (if job.Manual? then (Some(job.manual), Some(job.token)) else (None, None))
  {
  }

  /** Of a detail that is listed twice only one entry is settled. */
  lemma {:induction false} SettlesOne(ids: seq<Uuid>, id: Uuid)
    ensures multiset(RemoveOne(ids, id)) == multiset(ids) - multiset{id}
    decreases |ids|
  {
    if ids != [] {
      assert ids == [ids[0]] + ids[1..];
      SettlesOne(ids[1..], id);
    }
  }

  // ------------------------------------------------------------ tasks and marks

  /** A task leaves the scheduler when it fires, and its schedule is running; its slot becomes a queued result when it is over. */
  lemma FireAndReportEffect(s: State, job: Job)
    ensures var t := Next(s, Fire(job));
            && t == s.(jobs := s.jobs - {job}, executing := s.executing + {job}, lanes := t.lanes)
            && forall g :: t.At(g) == (if job.Regular? && g == job.schedule then s.At(g).(running := true) else s.At(g))
    ensures Next(s, Report(job)) ==
            s.(reserved := s.reserved - 1, queued := s.queued + 1, executing := s.executing - {job}, results := s.results + {job})
  {
  }

  /** A call for marks marks the contexts of exactly these schedules, and does nothing else. */
  lemma MarkEffect(s: State, schedules: set<nat>)
    ensures var t := Next(s, Mark(schedules));
            && t == s.(lanes := t.lanes)
            && forall g :: t.At(g) == if g in schedules && s.At(g).context.Some?
                                     then s.At(g).(context := Some(s.At(g).context.value.(stop := true))) else s.At(g)
  {
  }

  // ------------------------------------------------------------ names in the scheduler

  predicate SameName(j: Job, e: Job) {
    j.Regular? && e.Regular? && j.schedule == e.schedule && j.sequence == e.sequence && j.detail == e.detail
  }

  /** The scheduler holds one task at most for a schedule, a detail and a sequence. */
  ghost predicate OneTaskPerName(jobs: set<Job>) {
    forall j, e :: j in jobs && e in jobs && SameName(j, e) ==> j == e
  }

  lemma AdvanceNames(s: State, g: nat, q: nat, fault: Option<nat>)
    requires OneTaskPerName(s.jobs)
    ensures OneTaskPerName(Advance(s, g, q, fault).jobs)
  {
  }

  lemma FinishNames(s: State, g: nat, q: nat, d: Uuid, runNext: bool, fault: Option<nat>)
    requires OneTaskPerName(s.jobs)
    ensures OneTaskPerName(FinishDetail(s, g, q, d, runNext, fault).jobs)
  {
    var lane := s.At(g);
    if q in lane.completion && lane.context.Some? && Later(lane.context.value, q) != {} {
      AdvanceNames(s.Put(g, lane.(completion := lane.completion - {q})), g, Least(Later(lane.context.value, q)), fault);
    }
  }

  lemma StepNames(s: State, step: Step)
    requires OneTaskPerName(s.jobs)
    ensures OneTaskPerName(Next(s, step).jobs)
  {
    match step
    case StartGroup(g, _, details, id, fault) =>
      GroupedKeys(details);
      if details != [] {
        AdvanceNames(Open(s, g, details, id), g, Least(Grouped(details).Keys), fault);
      }
    case Ack(job, transitions, fault) =>
      if job.Regular? {
        FinishNames(s.(results := s.results - {job}).Put(job.schedule, Transit(s.At(job.schedule), transitions)),
                    job.schedule, job.sequence, job.detail, true, fault);
      }
    case Reject(job) =>
      if job.Regular? {
        FinishNames(s.(results := s.results - {job}).Put(job.schedule, StopLane(s.At(job.schedule))),
                    job.schedule, job.sequence, job.detail, false, None);
      }
    case RepeatAck(job, transitions, fault) =>
      if job.Regular? {
        FinishNames(s.Put(job.schedule, Transit(s.At(job.schedule), transitions)), job.schedule, job.sequence, job.detail, true, fault);
      }
    case _ =>
  }

  /** This holds at every point of every run, acknowledgements repeated or not. */
  lemma {:induction false} NamesAreUnique(run: Run, k: nat)
    requires IsRun(run) && run.states[0] == Initial(run.states[0].capacity) && k < |run.states|
    ensures OneTaskPerName(run.states[k].jobs)
    decreases k
  {
    if k > 0 {
      NamesAreUnique(run, k - 1);
      assert Enabled(run.states[k - 1], run.steps[k - 1]);
      StepNames(run.states[k - 1], run.steps[k - 1]);
    }
  }
}
