/** The sequence barrier over whole runs, termination, and what a repeated acknowledgement breaks. */
module ExecutorGuarantees {
  import opened Protocol
  import opened Executor
  import opened ExecutorRuns

  // ------------------------------------------------------------ one step seen from one schedule

  lemma StartProgress(s: State, step: Step, g: nat)
    requires Good(s) && step.StartGroup? && Enabled(s, step)
    ensures Next(s, step).At(g) == s.At(g) || Reopens(s, s.At(g), Next(s, step).At(g))
  {
    if step.allowed && !s.At(step.schedule).running && step.details != [] {
      OpenPoised(step.details, step.context);
      var o := Open(s, step.schedule, step.details, step.context);
      if g == step.schedule {
        AdvanceSequences(o, g, Least(Grouped(step.details).Keys), step.fault);
      } else {
        AdvanceOthers(o, step.schedule, Least(Grouped(step.details).Keys), step.fault, g);
      }
    }
  }

  lemma StartRegisters(s: State, step: Step)
    requires Good(s) && step.StartGroup? && Enabled(s, step)
    ensures Registers(s, Next(s, step), step.schedule)
  {
    if step.allowed && !s.At(step.schedule).running && step.details != [] {
      OpenPoised(step.details, step.context);
      var o := Open(s, step.schedule, step.details, step.context);
      AdvanceProgress(o, step.schedule, Least(Grouped(step.details).Keys), step.fault);
      AdvanceRegisters(o, step.schedule, Least(Grouped(step.details).Keys), step.fault);
    }
  }

  lemma AckProgress(s: State, job: Job, transitions: seq<Transition>, fault: Option<nat>, g: nat)
    requires Good(s) && job in s.results && job.Regular?
    ensures var t := Acknowledge(s.(results := s.results - {job}), job, transitions, fault);
            Continues(s.At(g), t.At(g)) && Registers(s, t, job.schedule)
  {
    LiveIsOwed(s, job);
    var next := Transit(s.At(job.schedule), transitions);
    TransitKeeps(s.At(job.schedule).context.value, transitions);
    SettleProgress(s, job, next, true, fault);
    SettleRegisters(s, job, next, true, fault);
  }

  lemma RejectProgress(s: State, job: Job, g: nat)
    requires Good(s) && job in s.results && job.Regular?
    ensures var t := Refuse(s.(results := s.results - {job}), job);
            Continues(s.At(g), t.At(g)) && Registers(s, t, job.schedule)
  {
    LiveIsOwed(s, job);
    SettleProgress(s, job, StopLane(s.At(job.schedule)), false, None);
    SettleRegisters(s, job, StopLane(s.At(job.schedule)), false, None);
  }

  /** The steps that start and finish nothing. */
  ghost predicate Quiet(s: State, step: Step) {
    && !step.StartGroup? && !step.RepeatAck?
    && ((step.Ack? || step.Reject?) ==> step.job.Manual?)
    && (step.Fire? && step.job.Regular? ==> s.At(step.job.schedule).running)
  }

  lemma QuietLane(s: State, step: Step, g: nat)
    requires Quiet(s, step)
    ensures Next(s, step).At(g) == s.At(g) || Next(s, step).At(g) == StopLane(s.At(g))
  {
  }

  lemma QuietRegisters(s: State, step: Step, j: Job)
    requires Quiet(s, step) && j.Regular? && j in Next(s, step).registered
    ensures j in s.registered
  {
  }

  lemma IsQuiet(s: State, step: Step)
    requires Good(s) && Enabled(s, step)
    requires !step.StartGroup? && !step.RepeatAck? && ((step.Ack? || step.Reject?) ==> step.job.Manual?)
    ensures Quiet(s, step)
  {
    if step.Fire? && step.job.Regular? {
      LiveIsOwed(s, step.job);
    }
  }

  lemma StepProgress(s: State, step: Step, g: nat)
    requires Good(s) && Enabled(s, step) && !step.RepeatAck?
    ensures Continues(s.At(g), Next(s, step).At(g)) || Reopens(s, s.At(g), Next(s, step).At(g))
  {
    if step.StartGroup? {
      StartProgress(s, step, g);
    } else if step.Ack? && step.job.Regular? {
      AckProgress(s, step.job, step.transitions, step.fault, g);
    } else if step.Reject? && step.job.Regular? {
      RejectProgress(s, step.job, g);
    } else {
      IsQuiet(s, step);
      QuietLane(s, step, g);
    }
  }

  lemma StepRegisters(s: State, step: Step, j: Job)
    requires Good(s) && Enabled(s, step) && !step.RepeatAck?
    requires j.Regular? && j in Next(s, step).registered && j !in s.registered
    ensures var t := Next(s, step);
            && Owes(t.At(j.schedule), j)
            && j.detail in TasksAt(t.At(j.schedule), j.sequence)
            && (t.At(j.schedule).context.value.id !in s.used || j.sequence !in s.At(j.schedule).started)
  {
    if step.StartGroup? {
      StartRegisters(s, step);
    } else if step.Ack? && step.job.Regular? {
      AckProgress(s, step.job, step.transitions, step.fault, j.schedule);
    } else if step.Reject? && step.job.Regular? {
      RejectProgress(s, step.job, j.schedule);
    } else {
      IsQuiet(s, step);
      QuietRegisters(s, step, j);
    }
  }

  // ------------------------------------------------------------ the barrier over runs

  lemma BarrierStep(s: State, step: Step, t: State, j: Job, e: Job)
    requires Good(s) && Good(t) && Enabled(s, step) && !step.RepeatAck? && t == Next(s, step)
    requires j.Regular? && j in t.registered && j !in s.registered
    requires e.Regular? && e in s.registered && e.context == j.context && e.schedule == j.schedule
    ensures e.sequence < j.sequence && e.detail != j.detail && e !in t.Live()
  {
    var g := j.schedule;
    StepRegisters(s, step, j);
    StepProgress(s, step, g);
    assert e.context in s.used && Recorded(s.At(g), e);
    BarrierLane(s.At(g), t.At(g), j, e);
    assert e in t.Live() <==> Owes(t.At(e.schedule), e);
  }

  /** `j` is outstanding in the context that had started `e` before. */
  lemma BarrierLane(a: Lane, b: Lane, j: Job, e: Job)
    requires Shape(a) && Shape(b) && Continues(a, b) && Owes(b, j) && j.sequence !in a.started
    requires e.context == j.context && Recorded(a, e)
    ensures e.sequence < j.sequence && e.detail != j.detail && !Owes(b, e)
  {
    assert e.sequence in b.started by {
      var i :| 0 <= i < |a.started| && a.started[i] == e.sequence;
      assert b.started[..|a.started|] == a.started;
      assert b.started[i] == e.sequence;
    }
    var i :| 0 <= i < |b.started| && b.started[i] == e.sequence;
    assert j.sequence == b.started[|b.started| - 1];
  }

  /**
    When a task is registered, every task its context registered before belongs to an earlier
    sequence, has been acknowledged, and is another detail: sequences start in strictly increasing
    order, a detail runs at most once, and a sequence waits for every result of the one before.
   */
  lemma SequenceBarrier(run: Run, k: nat, j: Job, e: Job)
    requires IsCleanRun(run) && k < |run.steps|
    requires j.Regular? && j in run.states[k + 1].registered && j !in run.states[k].registered
    requires e.Regular? && e in run.states[k].registered && e.context == j.context && e.schedule == j.schedule
    ensures e.sequence < j.sequence && e.detail != j.detail
    ensures e !in run.states[k + 1].Live()
  {
    var step := CleanStep(run, k);
    BarrierStep(run.states[k], step, run.states[k + 1], j, e);
  }

  lemma CleanStep(run: Run, k: nat) returns (step: Step)
    requires IsCleanRun(run) && k < |run.steps|
    ensures Good(run.states[k]) && Good(run.states[k + 1])
    ensures step == run.steps[k]
    ensures Enabled(run.states[k], step) && !step.RepeatAck? && run.states[k + 1] == Next(run.states[k], step)
  {
    step := run.steps[k];
    RunIsGood(run, k);
    RunIsGood(run, k + 1);
  }

  /** The schedule has left the context for good, or still has it, to stop, with nothing more started. */
  ghost predicate Halted(s: State, g: nat, id: Uuid, started: seq<nat>) {
    && id in s.used
    && s.At(g).context.Some?
    && (s.At(g).context.value.id == id ==> s.At(g).context.value.stop && s.At(g).started == started)
  }

  lemma HaltedStep(s: State, step: Step, g: nat, id: Uuid, started: seq<nat>)
    requires Good(s) && Enabled(s, step) && !step.RepeatAck? && Halted(s, g, id, started)
    ensures Halted(Next(s, step), g, id, started)
  {
    StepProgress(s, step, g);
    LogsGrow(s, step);
  }

  lemma FinishGrows(s: State, g: nat, q: nat, d: Uuid, runNext: bool, fault: Option<nat>)
    ensures var t := FinishDetail(s, g, q, d, runNext, fault); t.used == s.used && s.registered <= t.registered
  {
  }

  /** Contexts and tasks are never forgotten. */
  lemma LogsGrow(s: State, step: Step)
    ensures s.used <= Next(s, step).used && s.registered <= Next(s, step).registered
  {
    match step
    case StartGroup(g, _, details, id, fault) => GroupedKeys(details);
    case Ack(job, transitions, fault) => ResultGrows(s.(results := s.results - {job}), job, transitions, fault);
    case Reject(job) => RejectGrows(s.(results := s.results - {job}), job);
    case RepeatAck(job, transitions, fault) => ResultGrows(s, job, transitions, fault);
    case _ =>
  }

  lemma ResultGrows(s: State, job: Job, transitions: seq<Transition>, fault: Option<nat>)
    ensures var t := Acknowledge(s, job, transitions, fault); t.used == s.used && s.registered <= t.registered
  {
    if job.Regular? {
      FinishGrows(s.Put(job.schedule, Transit(s.At(job.schedule), transitions)), job.schedule, job.sequence, job.detail, true, fault);
    }
  }

  lemma RejectGrows(s: State, job: Job)
    ensures Refuse(s, job).used == s.used && s.registered <= Refuse(s, job).registered
  {
    if job.Regular? {
      FinishGrows(s.Put(job.schedule, StopLane(s.At(job.schedule))), job.schedule, job.sequence, job.detail, false, None);
    }
  }

  /** Once a context is marked to stop, by a rejection, a server transition or a halt, it starts no sequence again. */
  lemma {:induction false} NoStartAfterStop(run: Run, i: nat, k: nat, g: nat)
    requires IsCleanRun(run) && i <= k < |run.states|
    requires run.states[i].At(g).context.Some? && run.states[i].At(g).context.value.stop
    ensures Halted(run.states[k], g, run.states[i].At(g).context.value.id, run.states[i].At(g).started)
  {
    if i < k {
      NoStartAfterStop(run, i, k - 1, g);
      RunIsGood(run, k - 1);
      assert Enabled(run.states[k - 1], run.steps[k - 1]);
      HaltedStep(run.states[k - 1], run.steps[k - 1], g, run.states[i].At(g).context.value.id, run.states[i].At(g).started);
    } else {
      RunIsGood(run, i);
    }
  }

  ghost predicate Stuck(s: State, g: nat, id: Uuid, started: seq<nat>) {
    && s.At(g).stuck && s.At(g).running
    && s.At(g).context.Some? && s.At(g).context.value.stop
    && s.At(g).context.value.id == id
    && s.At(g).started == started
  }

  lemma StuckStep(s: State, step: Step, g: nat, id: Uuid, started: seq<nat>)
    requires Good(s) && Enabled(s, step) && !step.RepeatAck? && Stuck(s, g, id, started)
    ensures Stuck(Next(s, step), g, id, started)
  {
    StepProgress(s, step, g);
    StepKeeps(s, step);
    assert Shape(Next(s, step).At(g));
  }

  /** A schedule at which the scheduler threw keeps that context for ever: its triggers start nothing any more. */
  lemma {:induction false} StuckForEver(run: Run, i: nat, k: nat, g: nat)
    requires IsCleanRun(run) && i <= k < |run.states| && run.states[i].At(g).stuck
    ensures run.states[i].At(g).context.Some?
    ensures Stuck(run.states[k], g, run.states[i].At(g).context.value.id, run.states[i].At(g).started)
  {
    RunIsGood(run, i);
    assert Shape(run.states[i].At(g));
    if i < k {
      StuckForEver(run, i, k - 1, g);
      RunIsGood(run, k - 1);
      assert Enabled(run.states[k - 1], run.steps[k - 1]);
      StuckStep(run.states[k - 1], run.steps[k - 1], g, run.states[i].At(g).context.value.id, run.states[i].At(g).started);
    }
  }

  // ------------------------------------------------------------ excluded details

  /** While the context stays, its sequences only lose details. */
  ghost predicate Shrinks(a: Lane, b: Lane) {
    a.context.Some? && b.context.Some? && a.context.value.id == b.context.value.id ==>
      forall q, d :: q in b.context.value.sequences && d in b.context.value.sequences[q] ==>
        q in a.context.value.sequences && d in a.context.value.sequences[q]
  }

  ghost predicate Has(c: Context, d: Uuid) {
    exists q :: q in c.sequences && d in c.sequences[q]
  }

  lemma {:induction false} TransitShrinks(c: Context, transitions: seq<Transition>)
    ensures var n := ApplyTransitions(c, transitions);
            && n.id == c.id
            && (forall q, d :: q in n.sequences && d in n.sequences[q] ==> q in c.sequences && d in c.sequences[q])
            && (forall i :: 0 <= i < |transitions| && transitions[i].DetailError? ==> !Has(n, transitions[i].detail))
    decreases |transitions|
  {
    if transitions != [] {
      var n := ApplyOne(c, transitions[0]);
      if transitions[0].DetailError? {
        forall q | q in c.sequences {
          WithoutMembers(c.sequences[q], transitions[0].detail);
        }
        assert !Has(n, transitions[0].detail);
      }
      TransitShrinks(n, transitions[1..]);
    }
  }

  lemma SettleSequences(s: State, job: Job, next: Lane, runNext: bool, fault: Option<nat>)
    requires Good(s) && job in s.results && job.Regular?
    requires SameDebts(s.At(job.schedule), next) && next.running && !next.stuck
    requires next.context.Some? ==> Trimmed(next.context.value)
    ensures var s' := s.(results := s.results - {job}).Put(job.schedule, next);
            var b := FinishDetail(s', job.schedule, job.sequence, job.detail, runNext, fault).At(job.schedule);
            && next.context.Some? && b.context.Some?
            && b.context.value.id == next.context.value.id && b.context.value.sequences == next.context.value.sequences
  {
    var g := job.schedule;
    SettleCases(s, job, next, runNext, fault);
    var done := Settled(next, job.sequence, job.detail);
    if done.completion == map[] && runNext && !next.context.value.stop && Ahead(done) != {} {
      AdvanceSequences(s.(results := s.results - {job}).Put(g, next).Put(g, done), g, Least(Ahead(done)), fault);
    }
  }

  lemma AckShrinks(s: State, job: Job, transitions: seq<Transition>, fault: Option<nat>, g: nat)
    requires Good(s) && job in s.results && job.Regular?
    ensures var t := Acknowledge(s.(results := s.results - {job}), job, transitions, fault);
            && Shrinks(s.At(g), t.At(g))
            && (forall i :: 0 <= i < |transitions| && transitions[i].DetailError? ==>
                  t.At(job.schedule).context.Some? && !Has(t.At(job.schedule).context.value, transitions[i].detail))
  {
    LiveIsOwed(s, job);
    var c, next := s.At(job.schedule).context.value, Transit(s.At(job.schedule), transitions);
    TransitKeeps(c, transitions);
    TransitShrinks(c, transitions);
    SettleSequences(s, job, next, true, fault);
    if g != job.schedule {
      SettleOthers(s, job, next, true, fault, g);
    } else {
      var b := Acknowledge(s.(results := s.results - {job}), job, transitions, fault).At(g);
      assert b.context.value.sequences == ApplyTransitions(c, transitions).sequences;
    }
  }

  lemma RejectShrinks(s: State, job: Job, g: nat)
    requires Good(s) && job in s.results && job.Regular?
    ensures Shrinks(s.At(g), Refuse(s.(results := s.results - {job}), job).At(g))
  {
    LiveIsOwed(s, job);
    var next := StopLane(s.At(job.schedule));
    SettleSequences(s, job, next, false, None);
    if g != job.schedule {
      SettleOthers(s, job, next, false, None, g);
    }
  }

  lemma StepShrinks(s: State, step: Step, g: nat)
    requires Good(s) && Enabled(s, step) && !step.RepeatAck?
    ensures Shrinks(s.At(g), Next(s, step).At(g))
  {
    if step.StartGroup? {
      StartProgress(s, step, g);
    } else if step.Ack? && step.job.Regular? {
      AckShrinks(s, step.job, step.transitions, step.fault, g);
    } else if step.Reject? && step.job.Regular? {
      RejectShrinks(s, step.job, g);
    } else {
      IsQuiet(s, step);
      QuietLane(s, step, g);
    }
  }

  /** The schedule has left the context, or has it without the detail. */
  ghost predicate Excluded(s: State, g: nat, id: Uuid, d: Uuid) {
    && id in s.used
    && s.At(g).context.Some?
    && (s.At(g).context.value.id == id ==> !Has(s.At(g).context.value, d))
  }

  lemma ExcludedStep(s: State, step: Step, g: nat, id: Uuid, d: Uuid)
    requires Good(s) && Enabled(s, step) && !step.RepeatAck? && Excluded(s, g, id, d)
    ensures Excluded(Next(s, step), g, id, d)
    ensures forall j :: j in Next(s, step).registered && j !in s.registered ==>
              !(j.Regular? && j.context == id && j.schedule == g && j.detail == d)
  {
    var t := Next(s, step);
    StepProgress(s, step, g);
    StepShrinks(s, step, g);
    LogsGrow(s, step);
    forall j | j in t.registered && j !in s.registered && j.Regular? && j.context == id && j.schedule == g
      ensures j.detail != d
    {
      StepRegisters(s, step, j);
    }
  }

  /** A detail that an acknowledgement excludes is not registered again in that context, in any later sequence. */
  lemma {:induction false} ExcludedNeverRuns(run: Run, i: nat, k: nat, g: nat, d: Uuid)
    requires IsCleanRun(run) && i <= k < |run.states|
    requires run.states[i].At(g).context.Some? && !Has(run.states[i].At(g).context.value, d)
    ensures Excluded(run.states[k], g, run.states[i].At(g).context.value.id, d)
    ensures forall q :: Regular(run.states[i].At(g).context.value.id, g, q, d) in run.states[k].registered ==>
                          Regular(run.states[i].At(g).context.value.id, g, q, d) in run.states[i].registered
  {
    RunIsGood(run, i);
    if i < k {
      ExcludedNeverRuns(run, i, k - 1, g, d);
      var step := CleanStep(run, k - 1);
      ExcludedStep(run.states[k - 1], step, g, run.states[i].At(g).context.value.id, d);
    }
  }

  // ------------------------------------------------------------ termination and progress

  function Outstanding(lane: Lane): nat {
    if lane.started == [] || lane.started[|lane.started| - 1] !in lane.completion then 0
    else |lane.completion[lane.started[|lane.started| - 1]]|
  }

  /** Fewer sequences to start, or as many and fewer details outstanding. */
  ghost predicate Fewer(b: Lane, a: Lane) {
    || |Ahead(b)| < |Ahead(a)|
    || (Ahead(b) == Ahead(a) && Outstanding(b) < Outstanding(a))
  }

  lemma AdvanceFewer(s: State, g: nat, q: nat, fault: Option<nat>)
    requires Poised(s.At(g), q)
    ensures Ahead(Advance(s, g, q, fault).At(g)) == Ahead(s.At(g)) || |Ahead(Advance(s, g, q, fault).At(g))| < |Ahead(s.At(g))|
    ensures Ahead(Advance(s, g, q, fault).At(g)) == Ahead(s.At(g)) ==> Advance(s, g, q, fault).At(g).completion == map[]
  {
    var a, b := s.At(g), Advance(s, g, q, fault).At(g);
    AdvanceProgress(s, g, q, fault);
    if b.started == a.started {
      assert Ahead(b) == Ahead(a);
      assert a.completion - {q} == map[];
    } else {
      assert Ahead(a) == Ahead(b) + {q} && q !in Ahead(b);
    }
  }

  lemma SettledFewer(lane: Lane, job: Job)
    requires lane.context.Some? && Sketch(lane) && lane.running && Owes(lane, job)
    ensures var done := Settled(lane, job.sequence, job.detail);
            Ahead(done) == Ahead(lane) && Outstanding(done) < Outstanding(lane) && 0 < Outstanding(lane)
  {
    RemoveOneMembers(lane.completion[job.sequence], job.detail);
    assert job.sequence == lane.started[|lane.started| - 1];
  }

  lemma SettledIsFewer(a: Lane, next: Lane, job: Job)
    requires SameDebts(a, next) && next.context.Some? && Sketch(next) && next.running && Owes(next, job)
    ensures var done := Settled(next, job.sequence, job.detail);
            && Ahead(done) == Ahead(a) && Outstanding(done) < Outstanding(a) && 0 < Outstanding(a)
            && Fewer(done, a) && Fewer(done.(running := false), a)
  {
    SettledFewer(next, job);
    SameMeasure(a, next);
    var done := Settled(next, job.sequence, job.detail);
    SameMeasure(done, done.(running := false));
  }

  lemma AdvanceIsFewer(o: State, g: nat, q: nat, fault: Option<nat>, a: Lane)
    requires Poised(o.At(g), q) && Ahead(o.At(g)) == Ahead(a) && 0 < Outstanding(a)
    ensures Fewer(Advance(o, g, q, fault).At(g), a)
  {
    AdvanceFewer(o, g, q, fault);
  }

  lemma StillSketched(s: State, job: Job, next: Lane)
    requires Good(s) && job in s.results && job.Regular?
    requires SameDebts(s.At(job.schedule), next) && next.running && !next.stuck
    requires next.context.Some? ==> Trimmed(next.context.value)
    ensures next.context.Some? && Sketch(next) && Owes(next, job)
  {
    LiveIsOwed(s, job);
    assert OneOpen(next) && InOrder(next);
  }

  lemma SettleFewer(s: State, job: Job, next: Lane, runNext: bool, fault: Option<nat>)
    requires Good(s) && job in s.results && job.Regular?
    requires SameDebts(s.At(job.schedule), next) && next.running && !next.stuck
    requires next.context.Some? ==> Trimmed(next.context.value)
    ensures var s' := s.(results := s.results - {job}).Put(job.schedule, next);
            Fewer(FinishDetail(s', job.schedule, job.sequence, job.detail, runNext, fault).At(job.schedule), s.At(job.schedule))
  {
    var g, a := job.schedule, s.At(job.schedule);
    StillSketched(s, job, next);
    SettleCases(s, job, next, runNext, fault);
    SettledIsFewer(a, next, job);
    var done := Settled(next, job.sequence, job.detail);
    if done.completion == map[] && runNext && !next.context.value.stop && Ahead(done) != {} {
      AdvanceIsFewer(s.(results := s.results - {job}).Put(g, next).Put(g, done), g, Least(Ahead(done)), fault, a);
    }
  }

  lemma SameMeasure(a: Lane, b: Lane)
    requires SameDebts(a, b)
    ensures Ahead(a) == Ahead(b) && Outstanding(a) == Outstanding(b)
  {
  }

  /**
    Every context ends: a first acknowledgement or a rejection makes the pair (sequences to start,
    details outstanding) smaller, and no other step touches it while the context lasts.
   */
  lemma ContextsTerminate(s: State, step: Step, g: nat)
    requires Good(s) && Enabled(s, step) && !step.RepeatAck?
    ensures var a, b := s.At(g), Next(s, step).At(g);
            || Reopens(s, a, b)
            || Fewer(b, a)
            || (Ahead(b) == Ahead(a) && Outstanding(b) == Outstanding(a)
                && !((step.Ack? || step.Reject?) && step.job.Regular? && step.job.schedule == g))
  {
    if step.StartGroup? {
      StartProgress(s, step, g);
    } else if step.Ack? && step.job.Regular? {
      AckMeasure(s, step.job, step.transitions, step.fault, g);
    } else if step.Reject? && step.job.Regular? {
      RejectMeasure(s, step.job, g);
    } else {
      IsQuiet(s, step);
      QuietLane(s, step, g);
      SameMeasure(s.At(g), StopLane(s.At(g)));
    }
  }

  /** The step takes in a result of the schedule. */
  predicate Takes(step: Step, g: nat) {
    (step.Ack? || step.Reject?) && step.job.Regular? && step.job.schedule == g
  }

  /** The details of the context, by sequence, that are still to be registered or to be answered. */
  function Todo(lane: Lane): set<(nat, Uuid)> {
    if lane.context.None? then {}
    else
      var plan := lane.context.value.plan;
      set q, d | q in plan && d in plan[q] && (q !in lane.started || (q in lane.completion && d in lane.completion[q])) :: (q, d)
  }

  lemma AdvanceTodo(s: State, g: nat, q: nat, fault: Option<nat>)
    requires Poised(s.At(g), q)
    ensures Todo(Advance(s, g, q, fault).At(g)) <= Todo(s.At(g))
  {
    AdvanceProgress(s, g, q, fault);
    AdvanceStarts(s, g, q, fault);
    if Advance(s, g, q, fault).At(g).started == s.At(g).started {
      AdvanceFewer(s, g, q, fault);
    }
  }

  lemma SettledTodo(lane: Lane, job: Job)
    requires lane.context.Some? && Sketch(lane) && lane.running && Owes(lane, job)
    ensures var done := Settled(lane, job.sequence, job.detail);
            && (job.sequence, job.detail) in Todo(lane)
            && (job.sequence, job.detail) !in Todo(done)
            && Todo(done) <= Todo(lane)
  {
    RemoveOneMembers(lane.completion[job.sequence], job.detail);
    assert job.sequence == lane.started[|lane.started| - 1];
  }

  lemma SettleTodo(s: State, job: Job, next: Lane, runNext: bool, fault: Option<nat>)
    requires Good(s) && job in s.results && job.Regular?
    requires SameDebts(s.At(job.schedule), next) && next.running && !next.stuck
    requires next.context.Some? ==> Trimmed(next.context.value)
    ensures var s' := s.(results := s.results - {job}).Put(job.schedule, next);
            Todo(FinishDetail(s', job.schedule, job.sequence, job.detail, runNext, fault).At(job.schedule)) < Todo(s.At(job.schedule))
  {
    var g := job.schedule;
    LiveIsOwed(s, job);
    SettleCases(s, job, next, runNext, fault);
    assert OneOpen(next) && InOrder(next);
    SettledTodo(next, job);
    var done := Settled(next, job.sequence, job.detail);
    assert Todo(next) == Todo(s.At(g)) && Todo(done.(running := false)) == Todo(done);
    if done.completion == map[] && runNext && !next.context.value.stop && Ahead(done) != {} {
      AdvanceTodo(s.(results := s.results - {job}).Put(g, next).Put(g, done), g, Least(Ahead(done)), fault);
    }
  }

  lemma TodoShrinks(s: State, step: Step, g: nat)
    requires Good(s) && Enabled(s, step) && !step.RepeatAck?
    ensures Reopens(s, s.At(g), Next(s, step).At(g)) || Todo(Next(s, step).At(g)) <= Todo(s.At(g))
    ensures Takes(step, g) ==> Todo(Next(s, step).At(g)) < Todo(s.At(g))
  {
    if step.StartGroup? {
      StartProgress(s, step, g);
    } else if (step.Ack? || step.Reject?) && step.job.Regular? {
      if step.job.schedule != g {
        ResultElsewhere(s, step, g);
      } else {
        ResultTodo(s, step);
      }
    } else {
      IsQuiet(s, step);
      QuietLane(s, step, g);
      assert Todo(StopLane(s.At(g))) == Todo(s.At(g));
    }
  }

  lemma ResultTodo(s: State, step: Step)
    requires Good(s) && Enabled(s, step) && (step.Ack? || step.Reject?) && step.job.Regular?
    ensures Todo(Next(s, step).At(step.job.schedule)) < Todo(s.At(step.job.schedule))
  {
    var lane := s.At(step.job.schedule);
    LiveIsOwed(s, step.job);
    if step.Ack? {
      TransitKeeps(lane.context.value, step.transitions);
      SettleTodo(s, step.job, Transit(lane, step.transitions), true, step.fault);
    } else {
      SettleTodo(s, step.job, StopLane(lane), false, None);
    }
  }

  /** How many results of the schedule the steps from `i` up to `k` take in. */
  function ResultsTaken(steps: seq<Step>, i: nat, k: nat, g: nat): nat
    requires i <= k <= |steps|
  {
    if i == k then 0 else ResultsTaken(steps, i, k - 1, g) + if Takes(steps[k - 1], g) then 1 else 0
  }

  ghost predicate Keeps(run: Run, i: nat, k: nat, g: nat, id: Uuid) {
    forall j :: i <= j <= k && j < |run.states| ==> run.states[j].At(g).context.Some? && run.states[j].At(g).context.value.id == id
  }

  lemma TodoInRun(run: Run, k: nat, g: nat)
    requires IsCleanRun(run) && k < |run.steps|
    requires run.states[k].At(g).context.Some? && run.states[k + 1].At(g).context.Some?
    requires run.states[k + 1].At(g).context.value.id == run.states[k].At(g).context.value.id
    ensures Todo(run.states[k + 1].At(g)) <= Todo(run.states[k].At(g))
    ensures Takes(run.steps[k], g) ==> Todo(run.states[k + 1].At(g)) < Todo(run.states[k].At(g))
  {
    var step := CleanStep(run, k);
    TodoShrinks(run.states[k], step, g);
  }

  lemma Smaller<T>(a: set<T>, b: set<T>)
    requires a <= b
    ensures |a| <= |b| && (a != b ==> |a| < |b|)
  {
    assert b == a + (b - a);
    if a != b {
      assert b - a != {};
    }
  }

  /** The step takes no more results than the schedule's details get fewer. */
  ghost predicate Pays(run: Run, k: nat, g: nat) {
    k < |run.steps| < |run.states| &&
    |Todo(run.states[k + 1].At(g))| + (if Takes(run.steps[k], g) then 1 else 0) <= |Todo(run.states[k].At(g))|
  }

  lemma TakesFromTodo(run: Run, k: nat, g: nat)
    requires IsCleanRun(run) && k < |run.steps|
    requires run.states[k].At(g).context.Some? && run.states[k + 1].At(g).context.Some?
    requires run.states[k + 1].At(g).context.value.id == run.states[k].At(g).context.value.id
    ensures Pays(run, k, g)
  {
    TodoInRun(run, k, g);
    Smaller(Todo(run.states[k + 1].At(g)), Todo(run.states[k].At(g)));
  }

  lemma {:induction false} PaidInAll(run: Run, i: nat, k: nat, g: nat)
    requires i <= k < |run.states| && |run.states| == |run.steps| + 1
    requires forall j :: i <= j < k ==> Pays(run, j, g)
    ensures ResultsTaken(run.steps, i, k, g) + |Todo(run.states[k].At(g))| <= |Todo(run.states[i].At(g))|
  {
    if i < k {
      PaidInAll(run, i, k - 1, g);
      assert Pays(run, k - 1, g);
    }
  }

  /**
    Every context ends: from any point of any run on, while a context lasts it takes in at most as
    many results as it has details still to be registered or to be answered.
   */
  lemma ResultsAreBounded(run: Run, i: nat, k: nat, g: nat, id: Uuid)
    requires IsCleanRun(run) && i <= k < |run.states| && Keeps(run, i, k, g, id)
    ensures ResultsTaken(run.steps, i, k, g) + |Todo(run.states[k].At(g))| <= |Todo(run.states[i].At(g))|
  {
    forall j | i <= j < k
      ensures Pays(run, j, g)
    {
      TakesFromTodo(run, j, g);
    }
    PaidInAll(run, i, k, g);
  }

  lemma AckMeasure(s: State, job: Job, transitions: seq<Transition>, fault: Option<nat>, g: nat)
    requires Good(s) && job in s.results && job.Regular?
    ensures var b := Acknowledge(s.(results := s.results - {job}), job, transitions, fault).At(g);
            if g == job.schedule then Fewer(b, s.At(g)) else b == s.At(g)
  {
    LiveIsOwed(s, job);
    var next := Transit(s.At(job.schedule), transitions);
    TransitKeeps(s.At(job.schedule).context.value, transitions);
    SettleFewer(s, job, next, true, fault);
    SettleProgress(s, job, next, true, fault);
  }

  lemma RejectMeasure(s: State, job: Job, g: nat)
    requires Good(s) && job in s.results && job.Regular?
    ensures var b := Refuse(s.(results := s.results - {job}), job).At(g);
            if g == job.schedule then Fewer(b, s.At(g)) else b == s.At(g)
  {
    LiveIsOwed(s, job);
    SettleFewer(s, job, StopLane(s.At(job.schedule)), false, None);
    SettleProgress(s, job, StopLane(s.At(job.schedule)), false, None);
  }

  /** A result closes its sequence, with `c` the context after the transitions that came with it. */
  ghost predicate Closes(lane: Lane, job: Job, c: Context)
    requires Owes(lane, job)
  {
    RemoveOne(lane.completion[job.sequence], job.detail) == [] && !c.stop && Ahead(lane) != {}
  }

  /** The scheduler and the outbox take these tasks. */
  ghost predicate Taken(s: State, tasks: seq<Uuid>, fault: Option<nat>) {
    tasks != [] && HasRoom(s, |tasks|) && !(fault.Some? && fault.value < |tasks|)
  }

  lemma Crosses(s: State, job: Job, transitions: seq<Transition>, fault: Option<nat>)
    requires Good(s) && job in s.results && job.Regular?
    ensures var g, a := job.schedule, s.At(job.schedule);
            var t := Acknowledge(s.(results := s.results - {job}), job, transitions, fault);
            && Owes(a, job)
            && var next := Transit(a, transitions);
               var c := next.context.value;
               && c == ApplyTransitions(a.context.value, transitions)
               && (!Closes(a, job, c) ==> t.At(g).started == a.started && !t.At(g).stuck)
               && (Closes(a, job, c) ==>
                     var q, done := Least(Ahead(a)), Settled(next, job.sequence, job.detail);
                     && q in c.sequences
                     && done.started == a.started
                     && var o := s.(results := s.results - {job}).Put(g, next).Put(g, done);
                        t == Advance(o, g, q, fault) && Poised(done, q))
  {
    var a := s.At(job.schedule);
    LiveIsOwed(s, job);
    TransitKeeps(a.context.value, transitions);
    var next := Transit(a, transitions);
    SettleCases(s, job, next, true, fault);
    assert Ahead(Settled(next, job.sequence, job.detail)) == Ahead(a);
    SettleEmpties(next, job);
  }

  /**
    An acknowledgement starts another sequence exactly when it closes its own, nothing stops the
    context, the smallest sequence ahead has tasks, there is room for them all and the scheduler
    takes them; what starts is that sequence, whole.
   */
  lemma CrossesIff(s: State, job: Job, transitions: seq<Transition>, fault: Option<nat>)
    requires Good(s) && job in s.results && job.Regular?
    ensures Owes(s.At(job.schedule), job)
    ensures var a, t := s.At(job.schedule), Acknowledge(s.(results := s.results - {job}), job, transitions, fault);
            var b, c := t.At(job.schedule), ApplyTransitions(a.context.value, transitions);
            if Closes(a, job, c) && Least(Ahead(a)) in c.sequences && Taken(s, c.sequences[Least(Ahead(a))], fault) then
              var q := Least(Ahead(a));
              && b.started == a.started + [q]
              && b.completion == map[q := c.sequences[q]]
              && forall d :: d in c.sequences[q] ==> Regular(c.id, job.schedule, q, d) in t.jobs
            else
              b.started == a.started
  {
    var g, a := job.schedule, s.At(job.schedule);
    Crosses(s, job, transitions, fault);
    var next := Transit(a, transitions);
    if Closes(a, job, next.context.value) {
      var done := Settled(next, job.sequence, job.detail);
      var o := s.(results := s.results - {job}).Put(g, next).Put(g, done);
      assert TasksAt(done, Least(Ahead(a))) == next.context.value.sequences[Least(Ahead(a))];
      assert o.At(g) == done && Taken(o, TasksAt(done, Least(Ahead(a))), fault) == Taken(s, TasksAt(done, Least(Ahead(a))), fault);
      AdvanceStarts(o, g, Least(Ahead(a)), fault);
    }
  }

  // ------------------------------------------------------------ stuck schedules

  /** The scheduler throws while it takes these tasks, for which there is room. */
  predicate Throws(s: State, tasks: seq<Uuid>, fault: Option<nat>) {
    tasks != [] && HasRoom(s, |tasks|) && fault.Some? && fault.value < |tasks|
  }

  /** The step registers a sequence of the schedule, its first one or the next, and the scheduler throws at a task. */
  ghost predicate RegistrationThrows(s: State, step: Step, g: nat) {
    match step
    case StartGroup(h, allowed, details, _, fault) =>
      && h == g && allowed && !s.At(g).running && details != []
      && Grouped(details).Keys != {}
      && Throws(s, Grouped(details)[Least(Grouped(details).Keys)], fault)
    case Ack(job, transitions, fault) =>
      && job.Regular? && job.schedule == g && Owes(s.At(g), job)
      && var c := ApplyTransitions(s.At(g).context.value, transitions);
         && Closes(s.At(g), job, c)
         && Least(Ahead(s.At(g))) in c.sequences
         && Throws(s, c.sequences[Least(Ahead(s.At(g)))], fault)
    case _ => false
  }

  lemma AdvanceSticks(s: State, g: nat, q: nat, fault: Option<nat>)
    requires Poised(s.At(g), q)
    ensures Advance(s, g, q, fault).At(g).stuck <==> Throws(s, TasksAt(s.At(g), q), fault)
  {
  }

  lemma StartSticks(s: State, step: Step)
    requires Good(s) && step.StartGroup? && Enabled(s, step)
    ensures Next(s, step).At(step.schedule).stuck <==> s.At(step.schedule).stuck || RegistrationThrows(s, step, step.schedule)
  {
    var g := step.schedule;
    assert Shape(s.At(g));
    if step.allowed && !s.At(g).running && step.details != [] {
      OpenPoised(step.details, step.context);
      var o, q := Open(s, g, step.details, step.context), Least(Grouped(step.details).Keys);
      AdvanceSticks(o, g, q, step.fault);
      assert TasksAt(o.At(g), q) == Grouped(step.details)[q];
    }
  }

  lemma AckSticks(s: State, job: Job, transitions: seq<Transition>, fault: Option<nat>)
    requires Good(s) && job in s.results && job.Regular?
    ensures Acknowledge(s.(results := s.results - {job}), job, transitions, fault).At(job.schedule).stuck
            <==> RegistrationThrows(s, Ack(job, transitions, fault), job.schedule)
  {
    var g, a := job.schedule, s.At(job.schedule);
    Crosses(s, job, transitions, fault);
    var next := Transit(a, transitions);
    if Closes(a, job, next.context.value) {
      var done, q := Settled(next, job.sequence, job.detail), Least(Ahead(a));
      var o := s.(results := s.results - {job}).Put(g, next).Put(g, done);
      assert o.At(g) == done && TasksAt(done, q) == next.context.value.sequences[q];
      AdvanceSticks(o, g, q, fault);
    }
  }

  lemma RejectSticks(s: State, job: Job)
    requires Good(s) && job in s.results && job.Regular?
    ensures !Refuse(s.(results := s.results - {job}), job).At(job.schedule).stuck
  {
    LiveIsOwed(s, job);
    SettleCases(s, job, StopLane(s.At(job.schedule)), false, None);
  }

  lemma StuckStepIff(s: State, step: Step, g: nat)
    requires Good(s) && Enabled(s, step) && !step.RepeatAck?
    ensures Next(s, step).At(g).stuck <==> s.At(g).stuck || RegistrationThrows(s, step, g)
  {
    if step.StartGroup? {
      if step.schedule == g { StartSticks(s, step); } else { StartElsewhere(s, step, g); }
    } else if (step.Ack? || step.Reject?) && step.job.Regular? {
      if step.job.schedule != g {
        ResultElsewhere(s, step, g);
      } else {
        LiveIsOwed(s, step.job);
        if step.Ack? { AckSticks(s, step.job, step.transitions, step.fault); } else { RejectSticks(s, step.job); }
      }
    } else {
      IsQuiet(s, step);
      QuietLane(s, step, g);
    }
  }

  ghost predicate ThrowsAt(run: Run, i: nat, g: nat)
    requires i < |run.steps| < |run.states|
  {
    RegistrationThrows(run.states[i], run.steps[i], g)
  }

  lemma {:induction false} UnthrownIsFree(run: Run, k: nat, g: nat)
    requires IsCleanRun(run) && k < |run.states|
    requires forall i :: 0 <= i < k ==> !ThrowsAt(run, i, g)
    ensures !run.states[k].At(g).stuck
  {
    if k > 0 {
      UnthrownIsFree(run, k - 1, g);
      StuckInRun(run, k - 1, g);
    }
  }

  lemma ThrownIsStuck(run: Run, i: nat, k: nat, g: nat)
    requires IsCleanRun(run) && i < k < |run.states| && ThrowsAt(run, i, g)
    ensures run.states[k].At(g).stuck
  {
    StuckInRun(run, i, g);
    StuckForEver(run, i + 1, k, g);
  }

  /** In every run a schedule is stuck exactly when the scheduler threw at one of its registrations before. */
  lemma StuckIff(run: Run, k: nat, g: nat)
    requires IsCleanRun(run) && k < |run.states|
    ensures run.states[k].At(g).stuck <==> exists i :: 0 <= i < k && ThrowsAt(run, i, g)
  {
    if run.states[k].At(g).stuck {
      if forall i :: 0 <= i < k ==> !ThrowsAt(run, i, g) {
        UnthrownIsFree(run, k, g);
      }
    } else {
      forall i | 0 <= i < k ensures !ThrowsAt(run, i, g) {
        if ThrowsAt(run, i, g) {
          ThrownIsStuck(run, i, k, g);
        }
      }
    }
  }

  lemma StuckInRun(run: Run, k: nat, g: nat)
    requires IsCleanRun(run) && k < |run.steps|
    ensures run.states[k + 1].At(g).stuck <==> run.states[k].At(g).stuck || ThrowsAt(run, k, g)
  {
    var step := CleanStep(run, k);
    StuckStepIff(run.states[k], step, g);
  }

  lemma SettleEmpties(lane: Lane, job: Job)
    requires lane.context.Some? && OneOpen(lane) && Owes(lane, job)
    ensures Settled(lane, job.sequence, job.detail).completion == map[] <==> RemoveOne(lane.completion[job.sequence], job.detail) == []
  {
    if RemoveOne(lane.completion[job.sequence], job.detail) != [] {
      assert job.sequence in Settled(lane, job.sequence, job.detail).completion;
    } else {
      assert lane.completion - {job.sequence} == map[];
    }
  }

  lemma AdvanceStarts(s: State, g: nat, q: nat, fault: Option<nat>)
    requires Poised(s.At(g), q)
    ensures var tasks, t := TasksAt(s.At(g), q), Advance(s, g, q, fault);
            if Taken(s, tasks, fault) then
              && t.At(g) == StartedLane(s.At(g), q, tasks)
              && forall d :: d in tasks ==> Regular(s.At(g).context.value.id, g, q, d) in t.jobs
            else
              t.At(g).started == s.At(g).started
  {
    var tasks := TasksAt(s.At(g), q);
    assert Taken(s, tasks, fault) <==> ExecuteNext(s, g, q, fault).0 == Started;
    if Taken(s, tasks, fault) {
      assert s.At(g).completion[q := tasks] == map[q := tasks];
    }
  }

  // ------------------------------------------------------------ nothing is left out

  /** The server's transitions name the detail that the result is of. */
  ghost predicate OwnDetail(step: Step) {
    step.Ack? && step.job.Regular? ==>
      forall i :: 0 <= i < |step.transitions| && step.transitions[i].DetailError? ==> step.transitions[i].detail == step.job.detail
  }

  /** What has not started is as planned, and what has started was registered whole. */
  ghost predicate Intact(registered: set<Job>, g: nat, lane: Lane) {
    lane.context.Some? ==>
      var c := lane.context.value;
      && (forall q :: q in c.plan && q !in lane.started ==> q in c.sequences && c.sequences[q] == c.plan[q])
      && (forall q, d :: q in lane.started && q in c.plan && d in c.plan[q] ==> Regular(c.id, g, q, d) in registered)
  }

  lemma AdvanceIntact(s: State, g: nat, q: nat, fault: Option<nat>)
    requires Poised(s.At(g), q) && Intact(s.registered, g, s.At(g))
    ensures Intact(Advance(s, g, q, fault).registered, g, Advance(s, g, q, fault).At(g))
  {
    AdvanceProgress(s, g, q, fault);
  }

  lemma {:induction false} TransitIntact(registered: set<Job>, g: nat, lane: Lane, transitions: seq<Transition>, q: nat, d: Uuid)
    requires lane.context.Some? && Sketch(lane) && Intact(registered, g, lane)
    requires q in lane.context.value.plan && d in lane.context.value.plan[q] && q in lane.started
    requires forall i :: 0 <= i < |transitions| && transitions[i].DetailError? ==> transitions[i].detail == d
    ensures Intact(registered, g, Transit(lane, transitions))
    decreases |transitions|
  {
    if transitions != [] {
      var c := lane.context.value;
      var n := ApplyOne(c, transitions[0]);
      var next := lane.(context := Some(n));
      TransitKeeps(c, [transitions[0]]);
      assert ApplyTransitions(c, [transitions[0]]) == n;
      if transitions[0].DetailError? {
        forall r | r in c.plan && r !in lane.started
          ensures n.sequences[r] == c.plan[r]
        {
          assert d !in c.plan[r];
          WithoutMembers(c.sequences[r], d);
        }
      }
      assert InOrder(next) && OneOpen(next);
      TransitIntact(registered, g, next, transitions[1..], q, d);
    } else {
      assert Transit(lane, transitions) == lane;
    }
  }

  lemma SettleIntact(s: State, job: Job, next: Lane, runNext: bool, fault: Option<nat>)
    requires Good(s) && job in s.results && job.Regular?
    requires SameDebts(s.At(job.schedule), next) && next.running && !next.stuck
    requires next.context.Some? ==> Trimmed(next.context.value)
    requires Intact(s.registered, job.schedule, next)
    ensures var s' := s.(results := s.results - {job}).Put(job.schedule, next);
            var t := FinishDetail(s', job.schedule, job.sequence, job.detail, runNext, fault);
            Intact(t.registered, job.schedule, t.At(job.schedule))
  {
    var g := job.schedule;
    SettleCases(s, job, next, runNext, fault);
    var done := Settled(next, job.sequence, job.detail);
    if done.completion == map[] && runNext && !next.context.value.stop && Ahead(done) != {} {
      AdvanceIntact(s.(results := s.results - {job}).Put(g, next).Put(g, done), g, Least(Ahead(done)), fault);
    }
  }

  lemma StartIntact(s: State, step: Step)
    requires Good(s) && step.StartGroup? && Enabled(s, step) && Intact(s.registered, step.schedule, s.At(step.schedule))
    ensures var t := Next(s, step);
            Intact(t.registered, step.schedule, t.At(step.schedule))
  {
    if step.allowed && !s.At(step.schedule).running && step.details != [] {
      OpenPoised(step.details, step.context);
      var o := Open(s, step.schedule, step.details, step.context);
      AdvanceIntact(o, step.schedule, Least(Grouped(step.details).Keys), step.fault);
    }
  }

  lemma AckIntact(s: State, job: Job, transitions: seq<Transition>, fault: Option<nat>)
    requires Good(s) && job in s.results && job.Regular? && OwnDetail(Ack(job, transitions, fault))
    requires Intact(s.registered, job.schedule, s.At(job.schedule))
    ensures var t := Acknowledge(s.(results := s.results - {job}), job, transitions, fault);
            Intact(t.registered, job.schedule, t.At(job.schedule))
  {
    var lane := s.At(job.schedule);
    LiveIsOwed(s, job);
    assert Shape(lane) && job.sequence in lane.started;
    TransitIntact(s.registered, job.schedule, lane, transitions, job.sequence, job.detail);
    TransitKeeps(lane.context.value, transitions);
    SettleIntact(s, job, Transit(lane, transitions), true, fault);
  }

  lemma RejectIntact(s: State, job: Job)
    requires Good(s) && job in s.results && job.Regular? && Intact(s.registered, job.schedule, s.At(job.schedule))
    ensures var t := Refuse(s.(results := s.results - {job}), job);
            Intact(t.registered, job.schedule, t.At(job.schedule))
  {
    LiveIsOwed(s, job);
    SettleIntact(s, job, StopLane(s.At(job.schedule)), false, None);
  }

  lemma QuietIntact(s: State, step: Step, g: nat)
    requires Quiet(s, step) && Intact(s.registered, g, s.At(g))
    ensures Intact(s.registered, g, Next(s, step).At(g))
  {
    QuietLane(s, step, g);
  }

  lemma IntactStep(s: State, step: Step, g: nat)
    requires Good(s) && Enabled(s, step) && !step.RepeatAck? && OwnDetail(step)
    requires Intact(s.registered, g, s.At(g))
    ensures Intact(Next(s, step).registered, g, Next(s, step).At(g))
  {
    if step.StartGroup? {
      if step.schedule == g { StartIntact(s, step); } else { StartElsewhere(s, step, g); }
    } else if (step.Ack? || step.Reject?) && step.job.Regular? {
      if step.job.schedule != g {
        ResultElsewhere(s, step, g);
      } else if step.Ack? {
        AckIntact(s, step.job, step.transitions, step.fault);
      } else {
        RejectIntact(s, step.job);
      }
    } else {
      IsQuiet(s, step);
      QuietIntact(s, step, g);
    }
    LogsGrow(s, step);
  }

  lemma StartElsewhere(s: State, step: Step, g: nat)
    requires Good(s) && step.StartGroup? && Enabled(s, step) && step.schedule != g
    ensures Next(s, step).At(g) == s.At(g)
  {
    if step.allowed && !s.At(step.schedule).running && step.details != [] {
      OpenPoised(step.details, step.context);
      AdvanceProgress(Open(s, step.schedule, step.details, step.context), step.schedule,
                      Least(Grouped(step.details).Keys), step.fault);
    }
  }

  lemma ResultElsewhere(s: State, step: Step, g: nat)
    requires Good(s) && Enabled(s, step) && (step.Ack? || step.Reject?) && step.job.Regular? && step.job.schedule != g
    ensures Next(s, step).At(g) == s.At(g)
  {
    LiveIsOwed(s, step.job);
    if step.Ack? {
      TransitKeeps(s.At(step.job.schedule).context.value, step.transitions);
      SettleProgress(s, step.job, Transit(s.At(step.job.schedule), step.transitions), true, step.fault);
    } else {
      SettleProgress(s, step.job, StopLane(s.At(step.job.schedule)), false, None);
    }
  }

  lemma {:induction false} RunIsIntact(run: Run, k: nat, g: nat)
    requires IsCleanRun(run) && (forall i :: 0 <= i < |run.steps| ==> OwnDetail(run.steps[i])) && k < |run.states|
    ensures Intact(run.states[k].registered, g, run.states[k].At(g))
  {
    if k > 0 {
      RunIsIntact(run, k - 1, g);
      RunIsGood(run, k - 1);
      assert Enabled(run.states[k - 1], run.steps[k - 1]) && OwnDetail(run.steps[k - 1]);
      IntactStep(run.states[k - 1], run.steps[k - 1], g);
    }
  }

  /** A context that came to rest without a mark ran its whole plan: every detail was registered and acknowledged. */
  lemma CompleteUnlessStopped(run: Run, k: nat, g: nat)
    requires IsCleanRun(run) && (forall i :: 0 <= i < |run.steps| ==> OwnDetail(run.steps[i])) && k < |run.states|
    requires var lane := run.states[k].At(g); lane.context.Some? && !lane.running && !lane.context.value.stop
    ensures var s, c := run.states[k], run.states[k].At(g).context.value;
            forall q, d :: q in c.plan && d in c.plan[q] ==>
              Regular(c.id, g, q, d) in s.registered && Regular(c.id, g, q, d) !in s.Live()
  {
    var s, lane := run.states[k], run.states[k].At(g);
    var c := lane.context.value;
    RunIsIntact(run, k, g);
    RunIsGood(run, k);
    assert Shape(lane);
    assert Ahead(lane) == {};
    forall q, d | q in c.plan && d in c.plan[q]
      ensures Regular(c.id, g, q, d) in s.registered && Regular(c.id, g, q, d) !in s.Live()
    {
      var j := Regular(c.id, g, q, d);
      assert q !in Ahead(lane);
      assert j in s.Live() <==> Owes(s.At(j.schedule), j);
    }
  }

  // ------------------------------------------------------------ a repeated acknowledgement

  /** The detail is outstanding in the schedule's completion list, under whichever context. */
  ghost predicate Credits(lane: Lane, job: Job) {
    job.Regular? && job.sequence in lane.completion && job.detail in lane.completion[job.sequence]
  }

  lemma RemoveOneAbsent(ids: seq<Uuid>, id: Uuid)
    requires id !in ids
    ensures RemoveOne(ids, id) == ids
    decreases |ids|
  {
    if ids != [] {
      RemoveOneAbsent(ids[1..], id);
    }
  }

  lemma FinishAbsent(s: State, g: nat, q: nat, d: Uuid, runNext: bool, fault: Option<nat>)
    requires q in s.At(g).completion ==> s.At(g).completion[q] != [] && d !in s.At(g).completion[q]
    ensures FinishDetail(s, g, q, d, runNext, fault) in {s, s.Put(g, s.At(g))}
  {
    var completion := s.At(g).completion;
    if q in completion {
      RemoveOneAbsent(completion[q], d);
      assert completion[q := completion[q]] == completion;
    }
  }

  /** Without that detail outstanding the repeat changes nothing but the marks that its transitions set. */
  lemma RepeatOnlyMarks(s: State, job: Job, transitions: seq<Transition>, fault: Option<nat>)
    requires job.Regular? && Shape(s.At(job.schedule)) && !Credits(s.At(job.schedule), job)
    ensures var t := Acknowledge(s, job, transitions, fault);
            && t == s.(lanes := t.lanes)
            && t.At(job.schedule) == Transit(s.At(job.schedule), transitions)
            && (forall g :: g != job.schedule ==> t.At(g) == s.At(g))
            && (t == s || t == s.Put(job.schedule, t.At(job.schedule)))
  {
    var lane, next := s.At(job.schedule), Transit(s.At(job.schedule), transitions);
    if lane.context.Some? {
      assert next.completion == lane.completion;
      FinishAbsent(s.Put(job.schedule, next), job.schedule, job.sequence, job.detail, true, fault);
      assert s.lanes[job.schedule := next][job.schedule := next] == s.lanes[job.schedule := next];
    }
  }

  lemma {:induction false} TransitEmpties(c: Context, transitions: seq<Transition>, q: nat)
    requires q in c.sequences && c.sequences[q] == []
    ensures q in ApplyTransitions(c, transitions).sequences && ApplyTransitions(c, transitions).sequences[q] == []
    decreases |transitions|
  {
    if transitions != [] {
      TransitEmpties(ApplyOne(c, transitions[0]), transitions[1..], q);
    }
  }

  lemma TransitShape(lane: Lane, transitions: seq<Transition>)
    requires Shape(lane)
    ensures Shape(Transit(lane, transitions)) && SameDebts(lane, Transit(lane, transitions))
  {
    if lane.context.Some? {
      var c, next := lane.context.value, Transit(lane, transitions);
      TransitKeeps(c, transitions);
      assert Ahead(next) == Ahead(lane);
      assert InOrder(next) && OneOpen(next);
      if !lane.running && !c.stop && Ahead(lane) != {} {
        TransitEmpties(c, transitions, Least(Ahead(lane)));
      }
    }
  }

  lemma MarkedKeeps(s: State, g: nat, transitions: seq<Transition>)
    requires Good(s)
    ensures Good(s.Put(g, Transit(s.At(g), transitions)))
  {
    TransitShape(s.At(g), transitions);
    Relaned(s, g, Transit(s.At(g), transitions));
    AllShaped(s, s.Put(g, Transit(s.At(g), transitions)), g, Transit(s.At(g), transitions));
  }

  lemma AdvanceSpares(s: State, g: nat, q: nat, fault: Option<nat>, j: Job)
    requires Poised(s.At(g), q) && j.Regular? && j.sequence != q && j in s.Live()
    ensures j in Advance(s, g, q, fault).Live() && !Owes(Advance(s, g, q, fault).At(g), j)
  {
  }

  /** What else the acknowledgement may do, it takes the detail off the list while its task is still at work. */
  lemma RepeatMiscredits(s: State, job: Job, transitions: seq<Transition>, fault: Option<nat>)
    requires Good(s) && Enabled(s, RepeatAck(job, transitions, fault)) && Credits(s.At(job.schedule), job)
    ensures s.At(job.schedule).context.Some?
    ensures var t := Acknowledge(s, job, transitions, fault);
            var live := Regular(s.At(job.schedule).context.value.id, job.schedule, job.sequence, job.detail);
            live in t.Live() && !Owes(t.At(job.schedule), live)
  {
    var g, lane, next := job.schedule, s.At(job.schedule), Transit(s.At(job.schedule), transitions);
    assert Shape(lane);
    TransitShape(lane, transitions);
    TransitKeeps(lane.context.value, transitions);
    var live := Regular(lane.context.value.id, g, job.sequence, job.detail);
    assert Owes(s.At(live.schedule), live);
    assert live in s.Live() && Owes(next, live);
    FinishCases(s.Put(g, next), g, job.sequence, job.detail, true, fault);
    SettledShape(next, live);
    SettledOwes(next, live, live);
    var done := Settled(next, job.sequence, job.detail);
    if done.completion == map[] && !next.context.value.stop && Ahead(done) != {} {
      AdvanceSpares(s.Put(g, next).Put(g, done), g, Least(Ahead(done)), fault, live);
    }
  }

  /**
    A second acknowledgement of one result, whatever transitions come with it, keeps the executor
    consistent exactly when the schedule does not have that very detail outstanding; then it changes
    nothing but the marks its transitions set. Within the result's own context it never has.
   */
  lemma RepeatHarmlessIff(s: State, job: Job, transitions: seq<Transition>, fault: Option<nat>)
    requires Good(s) && Enabled(s, RepeatAck(job, transitions, fault)) && job.Regular?
    ensures Good(Acknowledge(s, job, transitions, fault)) <==> !Credits(s.At(job.schedule), job)
    ensures Credits(s.At(job.schedule), job) ==> job.context != s.At(job.schedule).context.value.id
    ensures var t := Acknowledge(s, job, transitions, fault);
            !Credits(s.At(job.schedule), job) ==>
              && t == s.(lanes := t.lanes)
              && t.At(job.schedule) == Transit(s.At(job.schedule), transitions)
              && (forall g :: g != job.schedule ==> t.At(g) == s.At(g))
  {
    var t := Acknowledge(s, job, transitions, fault);
    if Credits(s.At(job.schedule), job) {
      RepeatMiscredits(s, job, transitions, fault);
      var live := Regular(s.At(job.schedule).context.value.id, job.schedule, job.sequence, job.detail);
      assert live in t.Live() && !Owes(t.At(live.schedule), live);
      assert job != live by {
        assert Owes(s.At(live.schedule), live);
      }
    } else {
      assert Shape(s.At(job.schedule));
      RepeatOnlyMarks(s, job, transitions, fault);
      MarkedKeeps(s, job.schedule, transitions);
    }
  }

  // A schedule 1 of one detail, 5, in sequence 1; its contexts 100, 200 and 300 each register one task.

  function Task(id: Uuid): Job { Regular(id, 1, 1, 5) }

  function Opened(id: Uuid): Lane {
    Lane(true, Some(Context(id, map[1 := [5]], map[1 := [5]], false)), map[1 := [5]], [1], false)
  }

  function Ended(id: Uuid): Lane {
    Opened(id).(running := false, completion := map[])
  }

  /** The state with one schedule and no manual runs. */
  function Holding(reserved: int, queued: int, lane: Lane, jobs: set<Job>, executing: set<Job>, results: set<Job>,
                   registered: set<Job>, used: set<Uuid>): State {
    State(reserved, queued, 4, false, map[1 := lane], map[], {}, jobs, executing, results, registered, used)
  }

  function Trigger(id: Uuid): Step {
    StartGroup(1, true, [Detail(5, 1)], id, None)
  }

  lemma OneDetail()
    ensures Grouped([Detail(5, 1)]) == map[1 := [5]] && Least(Grouped([Detail(5, 1)]).Keys) == 1
  {
    var details := [Detail(5, 1)];
    assert details[..|details| - 1] == [];
    var none: seq<Uuid> := [];
    assert none + [5] == [5];
    assert Grouped(details) == map[1 := [5]];
  }

  /** A trigger that finds the schedule not running opens a context and registers its one task. */
  lemma TriggerOpens(s: State, id: Uuid)
    requires s.capacity == 4 && !s.closed && s.reserved + s.queued < 4 && !s.At(1).running
    ensures Next(s, Trigger(id)) == s.(
              lanes := s.lanes[1 := Opened(id)], used := s.used + {id}, reserved := s.reserved + 1,
              jobs := s.jobs - ReplacedBy(s.jobs, 1, 1, [5]) + {Task(id)}, registered := s.registered + {Task(id)})
  {
    OneDetail();
    var o := Open(s, 1, [Detail(5, 1)], id);
    assert TasksAt(o.At(1), 1) == [5];
    assert JobsOf(id, 1, 1, [5]) == {Task(id)};
    assert o.At(1).completion[1 := [5]] == map[1 := [5]] && o.At(1).started + [1] == [1];
    assert Next(s, Trigger(id)) == Advance(o, 1, 1, None);
    assert Advance(o, 1, 1, None).At(1) == Opened(id);
    assert Advance(o, 1, 1, None).lanes == s.lanes[1 := Opened(id)];
  }

  lemma SettleOnly(s: State, id: Uuid)
    requires s.At(1) == Opened(id)
    ensures FinishDetail(s.Put(1, Transit(s.At(1), [])), 1, 1, 5, true, None) == s.(lanes := s.lanes[1 := Ended(id)])
  {
    assert Transit(s.At(1), []) == s.At(1);
    assert RemoveOne([5], 5) == [];
    assert Later(s.At(1).context.value, 1) == {};
    assert Opened(id).completion - {1} == map[];
    assert FinishDetail(s.Put(1, Transit(s.At(1), [])), 1, 1, 5, true, None).lanes == s.lanes[1 := Ended(id)];
  }

  ghost predicate Moves(s: State, step: Step, t: State) {
    Enabled(s, step) && t == Next(s, step)
  }

  ghost predicate Reaches(s: State, t: State) {
    exists run: Run :: IsRun(run) && run.states[0] == s && run.states[|run.steps|] == t
  }

  lemma ReachesNext(s: State, t: State, step: Step, u: State)
    requires s == t || Reaches(s, t)
    requires Moves(t, step, u)
    ensures Reaches(s, u)
  {
    var run := Run([s], []);
    if s != t {
      run :| IsRun(run) && run.states[0] == s && run.states[|run.steps|] == t;
    }
    var longer := Run(run.states + [u], run.steps + [step]);
    forall k | 0 <= k < |longer.steps|
      ensures Enabled(longer.states[k], longer.steps[k]) && longer.states[k + 1] == Next(longer.states[k], longer.steps[k])
    {
      if k < |run.steps| {
        assert longer.steps[k] == run.steps[k];
      }
    }
    assert IsRun(longer);
  }

  lemma TriggerMoves(s: State, id: Uuid, t: State)
    requires s.capacity == 4 && !s.closed && s.reserved + s.queued < 4 && !s.At(1).running && id !in s.used
    requires t.lanes == s.lanes[1 := Opened(id)] && t.registered == s.registered + {Task(id)}
    requires t.jobs == s.jobs - ReplacedBy(s.jobs, 1, 1, [5]) + {Task(id)}
    requires t == s.(lanes := t.lanes, used := s.used + {id}, reserved := s.reserved + 1, jobs := t.jobs, registered := t.registered)
    ensures Moves(s, Trigger(id), t)
  {
    TriggerOpens(s, id);
  }

  lemma TaskMoves(id: Uuid, registered: set<Job>, used: set<Uuid>)
    ensures Moves(Holding(1, 0, Opened(id), {Task(id)}, {}, {}, registered, used), Fire(Task(id)),
                  Holding(1, 0, Opened(id), {}, {Task(id)}, {}, registered, used))
    ensures Moves(Holding(1, 0, Opened(id), {}, {Task(id)}, {}, registered, used), Report(Task(id)),
                  Holding(0, 1, Opened(id), {}, {}, {Task(id)}, registered, used))
    ensures Moves(Holding(0, 1, Opened(id), {}, {}, {Task(id)}, registered, used), OutboxMoves(0, false),
                  Holding(0, 0, Opened(id), {}, {}, {Task(id)}, registered, used))
  {
    assert map[1 := Opened(id)][1 := Opened(id)] == map[1 := Opened(id)];
  }

  lemma AckMoves(id: Uuid, registered: set<Job>, used: set<Uuid>)
    ensures Moves(Holding(0, 0, Opened(id), {}, {}, {Task(id)}, registered, used), Ack(Task(id), [], None),
                  Holding(0, 0, Ended(id), {}, {}, {}, registered, used))
  {
    var s := Holding(0, 0, Opened(id), {}, {}, {Task(id)}, registered, used);
    assert s.results - {Task(id)} == {};
    SettleOnly(s.(results := {}), id);
    assert map[1 := Opened(id)][1 := Ended(id)] == map[1 := Ended(id)];
  }

  lemma RepeatMoves(id: Uuid, past: Uuid, registered: set<Job>, used: set<Uuid>)
    requires past != id && Task(past) in registered
    ensures Moves(Holding(1, 0, Opened(id), {Task(id)}, {}, {}, registered, used), RepeatAck(Task(past), [], None),
                  Holding(1, 0, Ended(id), {Task(id)}, {}, {}, registered, used))
  {
    SettleOnly(Holding(1, 0, Opened(id), {Task(id)}, {}, {}, registered, used), id);
    assert map[1 := Opened(id)][1 := Ended(id)] == map[1 := Ended(id)];
  }

  lemma FirstContextEnds() returns (s: State)
    ensures Reaches(Initial(4), s) && s == Holding(0, 0, Ended(100), {}, {}, {}, {Task(100)}, {100})
  {
    var a := Task(100);
    var s1 := Holding(1, 0, Opened(100), {a}, {}, {}, {a}, {100});
    var s2, s3 := Holding(1, 0, Opened(100), {}, {a}, {}, {a}, {100}), Holding(0, 1, Opened(100), {}, {}, {a}, {a}, {100});
    var s4 := Holding(0, 0, Opened(100), {}, {}, {a}, {a}, {100});
    s := Holding(0, 0, Ended(100), {}, {}, {}, {a}, {100});
    TriggerMoves(Initial(4), 100, s1);
    TaskMoves(100, {a}, {100});
    AckMoves(100, {a}, {100});
    ReachesNext(Initial(4), Initial(4), Trigger(100), s1);
    ReachesNext(Initial(4), s1, Fire(a), s2);
    ReachesNext(Initial(4), s2, Report(a), s3);
    ReachesNext(Initial(4), s3, OutboxMoves(0, false), s4);
    ReachesNext(Initial(4), s4, Ack(a, [], None), s);
  }

  /** A result acknowledged twice, the second time in the next context, ends that context while its task is registered. */
  lemma RepeatCreditsAnotherContext() returns (s: State)
    ensures Reaches(Initial(4), s) && !s.At(1).running && Task(200) in s.Live()
    ensures s == Holding(1, 0, Ended(200), {Task(200)}, {}, {}, {Task(100), Task(200)}, {100, 200})
  {
    var a, b := Task(100), Task(200);
    var s5 := FirstContextEnds();
    var s6 := Holding(1, 0, Opened(200), {b}, {}, {}, {a, b}, {100, 200});
    s := Holding(1, 0, Ended(200), {b}, {}, {}, {a, b}, {100, 200});
    TriggerMoves(s5, 200, s6);
    ReachesNext(Initial(4), s5, Trigger(200), s6);
    RepeatMoves(200, 100, {a, b}, {100, 200});
    ReachesNext(Initial(4), s6, RepeatAck(a, [], None), s);
  }

  /** The next trigger then replaces that task in the scheduler, and its slot is lost for good. */
  lemma RepeatLosesASlot() returns (s: State)
    ensures Reaches(Initial(4), s) && s.reserved == 2 && s.Live() == {Task(300)}
  {
    var a, b, c := Task(100), Task(200), Task(300);
    var ended := RepeatCreditsAnotherContext();
    s := Holding(2, 0, Opened(300), {c}, {}, {}, {a, b, c}, {100, 200, 300});
    assert ReplacedBy({b}, 1, 1, [5]) == {b};
    TriggerMoves(ended, 300, s);
    ReachesNext(Initial(4), ended, Trigger(300), s);
  }

  /** A trigger whose one task the scheduler refuses leaves the schedule stuck, and the next trigger does nothing. */
  lemma ThrowSticks(id: Uuid) returns (s: State)
    ensures Reaches(Initial(4), s) && s.At(1).stuck && s.At(1).running && s.jobs == {} && s.reserved == 0
    ensures Next(s, Trigger(id)) == s
  {
    var details := [Detail(5, 1)];
    var lane := Lane(true, Some(Context(100, map[1 := [5]], map[1 := [5]], true)), map[], [], true);
    var step := StartGroup(1, true, details, 100, Some(0));
    OneDetail();
    var o := Open(Initial(4), 1, details, 100);
    assert TasksAt(o.At(1), 1) == [5];
    assert Next(Initial(4), step) == Advance(o, 1, 1, Some(0));
    assert o.At(1).completion - {1} == map[];
    s := Advance(o, 1, 1, Some(0));
    assert ReplacedBy(o.jobs, 1, 1, []) == {};
    assert s.At(1) == lane;
    assert DistinctDetails(details);
    ReachesNext(Initial(4), Initial(4), step, s);
  }
}
