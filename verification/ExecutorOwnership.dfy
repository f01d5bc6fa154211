/** A context belongs to one schedule, and its tasks are told apart by their detail alone, in every run. */
module ExecutorOwnership {
  import opened Protocol
  import opened Executor
  import opened ExecutorRuns
  import opened ExecutorGuarantees

  predicate Has(lane: Lane, id: Uuid) {
    lane.context.Some? && lane.context.value.id == id
  }

  ghost predicate OneScheduleEach(s: State) {
    forall g, h, id :: Has(s.At(g), id) && Has(s.At(h), id) ==> g == h
  }

  ghost predicate TasksOfTheirSchedule(s: State) {
    forall j, h :: j in s.registered && Has(s.At(h), j.context) ==> j.Regular? && j.schedule == h
  }

  ghost predicate OneTaskPerDetail(s: State) {
    forall j, e :: j in s.registered && e in s.registered && j.context == e.context && j.detail == e.detail ==> j == e
  }

  ghost predicate Owned(s: State) {
    OneScheduleEach(s) && TasksOfTheirSchedule(s) && OneTaskPerDetail(s)
  }

  /** A schedule keeps its context, or is the one that a trigger gives a new one. */
  lemma ContextAfter(s: State, step: Step, g: nat, id: Uuid)
    requires Good(s) && Enabled(s, step) && !step.RepeatAck? && Has(Next(s, step).At(g), id)
    ensures Has(s.At(g), id) || (step.StartGroup? && step.schedule == g && id !in s.used)
  {
    if step.StartGroup? && step.schedule != g {
      StartElsewhere(s, step, g);
    } else {
      StepProgress(s, step, g);
      if !step.StartGroup? {
        NoReopening(s, step, g);
      }
    }
  }

  lemma NoReopening(s: State, step: Step, g: nat)
    requires Good(s) && Enabled(s, step) && !step.RepeatAck? && !step.StartGroup?
    ensures Continues(s.At(g), Next(s, step).At(g))
  {
    if step.Ack? && step.job.Regular? {
      AckProgress(s, step.job, step.transitions, step.fault, g);
    } else if step.Reject? && step.job.Regular? {
      RejectProgress(s, step.job, g);
    } else {
      IsQuiet(s, step);
      QuietLane(s, step, g);
    }
  }

  lemma OneScheduleKept(s: State, step: Step)
    requires Good(s) && Enabled(s, step) && !step.RepeatAck? && OneScheduleEach(s)
    ensures OneScheduleEach(Next(s, step))
  {
    var t := Next(s, step);
    forall g, h, id | Has(t.At(g), id) && Has(t.At(h), id) ensures g == h {
      ContextAfter(s, step, g, id);
      ContextAfter(s, step, h, id);
      assert Has(s.At(g), id) ==> id in s.used;
      assert Has(s.At(h), id) ==> id in s.used;
    }
  }

  lemma StartRegistersRegular(s: State, g: nat, allowed: bool, details: seq<Detail>, id: Uuid, fault: Option<nat>, j: Job)
    requires j in Start(s, g, allowed, details, id, fault).registered && j !in s.registered
    ensures j.Regular?
  {
    GroupedKeys(details);
  }

  lemma FinishRegistersRegular(s: State, g: nat, q: nat, d: Uuid, runNext: bool, fault: Option<nat>, j: Job)
    requires j in FinishDetail(s, g, q, d, runNext, fault).registered && j !in s.registered
    ensures j.Regular?
  {
  }

  /** A new manual task is the one that was just claimed, in a context of its own. */
  lemma NewManual(s: State, step: Step, j: Job)
    requires Enabled(s, step) && j in Next(s, step).registered && j !in s.registered && j.Manual?
    ensures step.DispatchManual? && j.context == step.context && j.context !in s.used
    ensures Next(s, step).registered == s.registered + {j}
  {
    match step
    case StartGroup(g, allowed, details, id, fault) => StartRegistersRegular(s, g, allowed, details, id, fault, j);
    case Ack(job, transitions, fault) => AckRegistersRegular(s.(results := s.results - {job}), job, transitions, fault, j);
    case RepeatAck(job, transitions, fault) => AckRegistersRegular(s, job, transitions, fault, j);
    case Reject(job) => RejectRegistersNothing(s.(results := s.results - {job}), job);
    case _ =>
  }

  lemma AckRegistersRegular(s: State, job: Job, transitions: seq<Transition>, fault: Option<nat>, j: Job)
    requires j in Acknowledge(s, job, transitions, fault).registered && j !in s.registered
    ensures j.Regular?
  {
    if job.Regular? {
      FinishRegistersRegular(s.Put(job.schedule, Transit(s.At(job.schedule), transitions)), job.schedule, job.sequence, job.detail, true, fault, j);
    }
  }

  lemma RejectRegistersNothing(s: State, job: Job)
    ensures Refuse(s, job).registered == s.registered
  {
  }

  lemma NewTaskOfItsSchedule(s: State, step: Step, j: Job, h: nat)
    requires Good(s) && Enabled(s, step) && !step.RepeatAck? && OneScheduleEach(Next(s, step))
    requires j in Next(s, step).registered && j !in s.registered && Has(Next(s, step).At(h), j.context)
    ensures j.Regular? && j.schedule == h
  {
    if j.Manual? {
      NewManual(s, step, j);
      ContextAfter(s, step, h, j.context);
    } else {
      StepRegisters(s, step, j);
      assert Has(Next(s, step).At(j.schedule), j.context);
    }
  }

  lemma TaskKept(s: State, step: Step, j: Job, h: nat)
    requires Good(s) && Enabled(s, step) && !step.RepeatAck? && Owned(s) && OneScheduleEach(Next(s, step))
    requires j in Next(s, step).registered && Has(Next(s, step).At(h), j.context)
    ensures j.Regular? && j.schedule == h
  {
    if j in s.registered {
      OldTaskOfItsSchedule(s, step, j, h);
    } else {
      NewTaskOfItsSchedule(s, step, j, h);
    }
  }

  lemma TasksKept(s: State, step: Step)
    requires Good(s) && Enabled(s, step) && !step.RepeatAck? && Owned(s) && OneScheduleEach(Next(s, step))
    ensures TasksOfTheirSchedule(Next(s, step))
  {
    forall j, h | j in Next(s, step).registered && Has(Next(s, step).At(h), j.context) ensures j.Regular? && j.schedule == h {
      TaskKept(s, step, j, h);
    }
  }

  lemma OldTaskOfItsSchedule(s: State, step: Step, j: Job, h: nat)
    requires Good(s) && Enabled(s, step) && !step.RepeatAck? && TasksOfTheirSchedule(s)
    requires j in s.registered && Has(Next(s, step).At(h), j.context)
    ensures j.Regular? && j.schedule == h
  {
    ContextAfter(s, step, h, j.context);
    assert j.context in s.used;
  }

  /** No task of the same context had the new task's detail before. */
  lemma NewTaskIsNew(s: State, step: Step, j: Job, e: Job)
    requires Good(s) && Good(Next(s, step)) && Enabled(s, step) && !step.RepeatAck? && Owned(s)
    requires j in Next(s, step).registered && j !in s.registered && e in s.registered
    ensures !(j.context == e.context && j.detail == e.detail)
  {
    assert e.context in s.used;
    if j.context == e.context {
      if j.Manual? {
        NewManual(s, step, j);
      } else {
        StepRegisters(s, step, j);
        ContextAfter(s, step, j.schedule, j.context);
        assert e.Regular? && e.schedule == j.schedule;
        BarrierStep(s, step, Next(s, step), j, e);
      }
    }
  }

  lemma NewTasksDiffer(s: State, step: Step, j: Job, e: Job)
    requires Good(s) && Good(Next(s, step)) && Enabled(s, step) && !step.RepeatAck? && OneScheduleEach(Next(s, step))
    requires j in Next(s, step).registered && j !in s.registered && e in Next(s, step).registered && e !in s.registered
    requires j.context == e.context && j.detail == e.detail
    ensures j == e
  {
    if j.Manual? {
      NewManual(s, step, j);
    } else if e.Manual? {
      NewManual(s, step, e);
    } else {
      StepRegisters(s, step, j);
      StepRegisters(s, step, e);
      OwedTogether(Next(s, step), j, e);
    }
  }

  lemma OwedTogether(t: State, j: Job, e: Job)
    requires OneScheduleEach(t) && Shape(t.At(j.schedule)) && Owes(t.At(j.schedule), j) && Owes(t.At(e.schedule), e)
    requires j.context == e.context && j.detail == e.detail
    ensures j == e
  {
    assert Has(t.At(j.schedule), j.context) && Has(t.At(e.schedule), e.context);
  }

  lemma OwnedStep(s: State, step: Step)
    requires Good(s) && Good(Next(s, step)) && Enabled(s, step) && !step.RepeatAck? && Owned(s)
    ensures Owned(Next(s, step))
  {
    var t := Next(s, step);
    OneScheduleKept(s, step);
    TasksKept(s, step);
    forall j, e | j in t.registered && e in t.registered && j.context == e.context && j.detail == e.detail
      ensures j == e
    {
      if j in s.registered {
        if e !in s.registered { NewTaskIsNew(s, step, e, j); }
      } else if e in s.registered {
        NewTaskIsNew(s, step, j, e);
      } else {
        NewTasksDiffer(s, step, j, e);
      }
    }
  }

  lemma {:induction false} RunIsOwned(run: Run, k: nat)
    requires IsCleanRun(run) && k < |run.states|
    ensures Owned(run.states[k])
  {
    if k > 0 {
      RunIsOwned(run, k - 1);
      var step := CleanStep(run, k - 1);
      OwnedStep(run.states[k - 1], step);
    }
  }

  /**
    In every run two registered tasks with the same context and detail are the same task, so the
    idempotency keys of results, which name context, detail and the first attempt, never collide.
   */
  lemma KeysNeverCollide(run: Run, k: nat, j: Job, e: Job, r: Result, q: Result)
    requires IsCleanRun(run) && k < |run.states| && j in run.states[k].registered && e in run.states[k].registered
    ensures EnvelopeOf(j, r).Key() == EnvelopeOf(e, q).Key() <==> j == e
  {
    RunIsOwned(run, k);
  }

  // ------------------------------------------------------------ how a task stops being live

  lemma SettleKeepsOthers(s: State, job: Job, next: Lane, runNext: bool, fault: Option<nat>, e: Job)
    requires Good(s) && job in s.results && job.Regular? && e.Regular? && e != job
    requires SameDebts(s.At(job.schedule), next) && next.running && !next.stuck
    requires next.context.Some? ==> Trimmed(next.context.value)
    requires Owes(s.At(e.schedule), e)
    ensures var s' := s.(results := s.results - {job}).Put(job.schedule, next);
            Owes(FinishDetail(s', job.schedule, job.sequence, job.detail, runNext, fault).At(e.schedule), e)
  {
    if e.schedule != job.schedule {
      SettleOthers(s, job, next, runNext, fault, e.schedule);
    } else {
      LiveIsOwed(s, job);
      SettleCases(s, job, next, runNext, fault);
      assert OneOpen(next);
      SettledOwes(next, job, e);
    }
  }

  /** A task stops being live only when its own result is acknowledged or rejected. */
  lemma LiveUntilAnswered(s: State, step: Step, e: Job)
    requires Good(s) && Good(Next(s, step)) && Enabled(s, step) && !step.RepeatAck?
    requires e.Regular? && e in s.Live() && e !in Next(s, step).Live()
    ensures (step.Ack? || step.Reject?) && step.job == e
  {
    var t := Next(s, step);
    LiveIsOwed(s, e);
    assert e in t.Live() <==> Owes(t.At(e.schedule), e);
    if step.StartGroup? {
      if step.schedule != e.schedule { StartElsewhere(s, step, e.schedule); }
    } else if (step.Ack? || step.Reject?) && step.job.Regular? {
      if step.job != e {
        ResultKeepsOthers(s, step, e);
      }
    } else {
      IsQuiet(s, step);
      QuietLane(s, step, e.schedule);
    }
  }

  lemma ResultKeepsOthers(s: State, step: Step, e: Job)
    requires Good(s) && Enabled(s, step) && (step.Ack? || step.Reject?) && step.job.Regular?
    requires e.Regular? && e != step.job && Owes(s.At(e.schedule), e)
    ensures Owes(Next(s, step).At(e.schedule), e)
  {
    LiveIsOwed(s, step.job);
    var lane := s.At(step.job.schedule);
    if step.Ack? {
      TransitKeeps(lane.context.value, step.transitions);
      SettleKeepsOthers(s, step.job, Transit(lane, step.transitions), true, step.fault, e);
    } else {
      SettleKeepsOthers(s, step.job, StopLane(lane), false, None, e);
    }
  }

  /** A rejected result leaves its context marked to stop. */
  lemma RejectStops(s: State, job: Job)
    requires Good(s) && job in s.results && job.Regular?
    ensures var t := Refuse(s.(results := s.results - {job}), job);
            Has(t.At(job.schedule), job.context) && t.At(job.schedule).context.value.stop
  {
    LiveIsOwed(s, job);
    var a, next := s.At(job.schedule), StopLane(s.At(job.schedule));
    SettleProgress(s, job, next, false, None);
    SettleCases(s, job, next, false, None);
  }

  /** The context is marked to stop afterwards if and only if it was before or the transitions report an error of the group. */
  lemma {:induction false} StopIff(c: Context, transitions: seq<Transition>)
    ensures ApplyTransitions(c, transitions).stop <==> c.stop || exists x :: GroupError(x) in transitions
    decreases |transitions|
  {
    if transitions != [] {
      var rest := transitions[1..];
      StopIff(ApplyOne(c, transitions[0]), rest);
      assert transitions == [transitions[0]] + rest;
      assert forall x :: GroupError(x) in transitions <==> GroupError(x) == transitions[0] || GroupError(x) in rest;
      if transitions[0].GroupError? {
        assert GroupError(transitions[0].schedule) in transitions;
      }
    }
  }

  /** An acknowledgement that carries an error of the group leaves the result's context marked to stop. */
  lemma ToldStops(s: State, job: Job, transitions: seq<Transition>, fault: Option<nat>, schedule: int)
    requires Good(s) && job in s.results && job.Regular? && GroupError(schedule) in transitions
    ensures var t := Acknowledge(s.(results := s.results - {job}), job, transitions, fault);
            Has(t.At(job.schedule), job.context) && t.At(job.schedule).context.value.stop
  {
    LiveIsOwed(s, job);
    var a, next := s.At(job.schedule), Transit(s.At(job.schedule), transitions);
    TransitKeeps(a.context.value, transitions);
    StopIff(a.context.value, transitions);
    SettleCases(s, job, next, true, fault);
  }

  // ------------------------------------------------------------ what becomes of jobs and results

  lemma AdvanceAdds(s: State, g: nat, q: nat, fault: Option<nat>)
    requires s.At(g).context.Some?
    ensures var t := Advance(s, g, q, fault);
            && t.executing == s.executing && t.results == s.results && t.used == s.used
            && (forall j :: j in t.jobs && j !in s.jobs ==>
                  j.Regular? && j.schedule == g && j.sequence == q && j.context == s.At(g).context.value.id)
  {
  }

  lemma StartAdds(s: State, step: Step)
    requires Good(s) && Enabled(s, step) && step.StartGroup?
    ensures var t := Next(s, step);
            && t.executing == s.executing && t.results == s.results && t.used <= s.used + {step.context}
            && (forall j :: j in t.jobs && j !in s.jobs ==> j.context == step.context)
  {
    if step.allowed && !s.At(step.schedule).running && step.details != [] {
      GroupedKeys(step.details);
      var o := Open(s, step.schedule, step.details, step.context);
      AdvanceAdds(o, step.schedule, Least(Grouped(step.details).Keys), step.fault);
    }
  }

  lemma SettleAdds(s: State, job: Job, next: Lane, runNext: bool, fault: Option<nat>)
    requires Good(s) && job in s.results && job.Regular?
    requires SameDebts(s.At(job.schedule), next) && next.running && !next.stuck
    requires next.context.Some? ==> Trimmed(next.context.value)
    ensures var s' := s.(results := s.results - {job}).Put(job.schedule, next);
            var t := FinishDetail(s', job.schedule, job.sequence, job.detail, runNext, fault);
            && t.executing == s.executing && t.results == s.results - {job} && t.used == s.used
            && (forall j :: j in t.jobs && j !in s.jobs ==>
                  && j.Regular? && j.schedule == job.schedule && Has(s.At(job.schedule), j.context)
                  && j.sequence !in s.At(job.schedule).started)
  {
    var g := job.schedule;
    SettleCases(s, job, next, runNext, fault);
    var done := Settled(next, job.sequence, job.detail);
    if done.completion == map[] && runNext && !next.context.value.stop && Ahead(done) != {} {
      AdvanceAdds(s.(results := s.results - {job}).Put(g, next).Put(g, done), g, Least(Ahead(done)), fault);
    }
  }

  lemma ResultAdds(s: State, step: Step)
    requires Good(s) && Enabled(s, step) && (step.Ack? || step.Reject?) && step.job.Regular?
    ensures var t := Next(s, step);
            && t.executing == s.executing && t.results == s.results - {step.job} && t.used == s.used
            && (forall j :: j in t.jobs && j !in s.jobs ==> j !in s.registered)
  {
    LiveIsOwed(s, step.job);
    var lane := s.At(step.job.schedule);
    if step.Ack? {
      TransitKeeps(lane.context.value, step.transitions);
      SettleAdds(s, step.job, Transit(lane, step.transitions), true, step.fault);
    } else {
      SettleAdds(s, step.job, StopLane(lane), false, None);
    }
    forall j | j in Next(s, step).jobs && j !in s.jobs
      ensures j !in s.registered
    {
      assert j in s.registered ==> Recorded(s.At(j.schedule), j);
    }
  }

  /** The steps that open no context and take in no regular result. */
  predicate Simple(step: Step) {
    !step.StartGroup? && !step.RepeatAck? && ((step.Ack? || step.Reject?) ==> step.job.Manual?)
  }

  lemma SimpleNoReturn(s: State, step: Step, j: Job)
    requires Enabled(s, step) && Simple(step) && j.context in s.used && j !in s.jobs && j !in s.executing
    ensures j !in Next(s, step).jobs && j !in Next(s, step).executing
  {
  }

  lemma SimpleResults(s: State, step: Step)
    requires Simple(step)
    ensures Next(s, step).results == ResultsWith(s.results, step)
  {
  }

  lemma SimpleUsed(s: State, step: Step, id: Uuid)
    requires Simple(step) && id in Next(s, step).used && id !in s.used
    ensures step.DispatchManual? && id == step.context
  {
  }

  function ResultsWith(results: set<Job>, step: Step): set<Job> {
    match step
    case Report(job) => results + {job}
    case Ack(job, _, _) => results - {job}
    case Reject(job) => results - {job}
    case _ => results
  }

  /** A registered task that has reported does not come back, in any step. */
  lemma NoReturn(s: State, step: Step, j: Job)
    requires Good(s) && Enabled(s, step) && !step.RepeatAck?
    requires j in s.registered && j !in s.jobs && j !in s.executing
    ensures j !in Next(s, step).jobs && j !in Next(s, step).executing
  {
    assert j.context in s.used;
    if step.StartGroup? {
      StartAdds(s, step);
    } else if Simple(step) {
      SimpleNoReturn(s, step, j);
    } else {
      ResultAdds(s, step);
    }
  }

  lemma ResultsAfter(s: State, step: Step)
    requires Good(s) && Enabled(s, step) && !step.RepeatAck?
    ensures Next(s, step).results == ResultsWith(s.results, step)
  {
    if step.StartGroup? {
      StartAdds(s, step);
    } else if Simple(step) {
      SimpleResults(s, step);
    } else {
      ResultAdds(s, step);
    }
  }

  lemma UsedAfter(s: State, step: Step, id: Uuid)
    requires Good(s) && Enabled(s, step) && !step.RepeatAck? && id in Next(s, step).used && id !in s.used
    ensures (step.StartGroup? || step.DispatchManual?) && id == step.context
  {
    if step.StartGroup? {
      StartAdds(s, step);
    } else if Simple(step) {
      SimpleUsed(s, step, id);
    } else {
      ResultAdds(s, step);
    }
  }

  /** A context that registers a task is not marked to stop. */
  lemma AdvanceUnstopped(s: State, g: nat, q: nat, fault: Option<nat>)
    requires s.At(g).context.Some? && !s.At(g).context.value.stop
    requires Advance(s, g, q, fault).registered != s.registered
    ensures Advance(s, g, q, fault).At(g).context == s.At(g).context
  {
  }

  lemma SettleUnstopped(s: State, job: Job, next: Lane, runNext: bool, fault: Option<nat>)
    requires Good(s) && job in s.results && job.Regular?
    requires SameDebts(s.At(job.schedule), next) && next.running && !next.stuck
    requires next.context.Some? ==> Trimmed(next.context.value)
    requires var s' := s.(results := s.results - {job}).Put(job.schedule, next);
             FinishDetail(s', job.schedule, job.sequence, job.detail, runNext, fault).registered != s.registered
    ensures var s' := s.(results := s.results - {job}).Put(job.schedule, next);
            var b := FinishDetail(s', job.schedule, job.sequence, job.detail, runNext, fault).At(job.schedule);
            b.context.Some? && !b.context.value.stop
  {
    var g := job.schedule;
    SettleCases(s, job, next, runNext, fault);
    var done := Settled(next, job.sequence, job.detail);
    if done.completion == map[] && runNext && !next.context.value.stop && Ahead(done) != {} {
      AdvanceUnstopped(s.(results := s.results - {job}).Put(g, next).Put(g, done), g, Least(Ahead(done)), fault);
    }
  }

  lemma RegistersUnstopped(s: State, step: Step, j: Job)
    requires Good(s) && Enabled(s, step) && !step.RepeatAck?
    requires j.Regular? && j in Next(s, step).registered && j !in s.registered
    ensures var b := Next(s, step).At(j.schedule); Has(b, j.context) && !b.context.value.stop
  {
    StepRegisters(s, step, j);
    if step.StartGroup? {
      StartRegisters(s, step);
      OpenPoised(step.details, step.context);
      AdvanceUnstopped(Open(s, step.schedule, step.details, step.context), step.schedule,
                       Least(Grouped(step.details).Keys), step.fault);
    } else if (step.Ack? || step.Reject?) && step.job.Regular? {
      ResultUnstopped(s, step, j);
    } else {
      IsQuiet(s, step);
      QuietRegisters(s, step, j);
    }
  }

  lemma ResultUnstopped(s: State, step: Step, j: Job)
    requires Good(s) && Enabled(s, step) && (step.Ack? || step.Reject?) && step.job.Regular?
    requires j.Regular? && j in Next(s, step).registered && j !in s.registered
    ensures j.schedule == step.job.schedule
    ensures var b := Next(s, step).At(j.schedule); b.context.Some? && !b.context.value.stop
  {
    LiveIsOwed(s, step.job);
    var lane := s.At(step.job.schedule);
    if step.Ack? {
      AckProgress(s, step.job, step.transitions, step.fault, j.schedule);
      TransitKeeps(lane.context.value, step.transitions);
      SettleUnstopped(s, step.job, Transit(lane, step.transitions), true, step.fault);
    } else {
      RejectProgress(s, step.job, j.schedule);
      SettleUnstopped(s, step.job, StopLane(lane), false, None);
    }
  }
}
