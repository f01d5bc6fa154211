/** The executor as the tables the source updates in place; every handler refines one step of the machine. */
module ExecutorObject {
  import opened Protocol
  import opened Executor
  import OutboxMachine = Outbox
  import OutboxObject

  predicate ReportsGroup(transitions: seq<Transition>) {
    exists n :: 0 <= n < |transitions| && transitions[n].GroupError?
  }

  class TaskExecutor {
    const outbox: OutboxObject.ResultOutbox

    var runningTasks: map<nat, bool>
    var groupStatus: map<nat, Context>
    var completion: map<nat, map<nat, seq<Uuid>>>
    var manualStatus: map<nat, Uuid>
    var manualInflight: set<nat>
    // The one-shot jobs of the scheduler.
    var jobs: set<Job>

    // The threads and results at work, and the logs.
    ghost var lanes: map<nat, Lane>
    ghost var executing: set<Job>
    ghost var results: set<Job>
    ghost var registered: set<Job>
    ghost var used: set<Uuid>

    ghost function Abs(): State
      reads this, outbox
    {
      State(outbox.reservedSlots, outbox.queuedResults, outbox.capacity, outbox.closed,
            lanes, manualStatus, manualInflight, jobs, executing, results, registered, used)
    }

    ghost function LaneAt(g: nat): Lane
      reads this`lanes
    {
      if g in lanes then lanes[g] else IDLE
    }

    function CompletionOf(g: nat): map<nat, seq<Uuid>>
      reads this`completion
    {
      if g in completion then completion[g] else map[]
    }

    /** The fields agree with the schedule's record. */
    ghost predicate Mirrors(g: nat)
      reads this`lanes, this`runningTasks, this`groupStatus, this`completion
    {
      && LaneAt(g).running == (g in runningTasks && runningTasks[g])
      && LaneAt(g).context == (if g in groupStatus then Some(groupStatus[g]) else None)
      && LaneAt(g).completion == CompletionOf(g)
    }

    ghost predicate Valid()
      reads this, outbox
    {
      && outbox.Valid()
      && 0 <= outbox.reservedSlots
      && (forall g :: Mirrors(g))
    }

    constructor (outbox: OutboxObject.ResultOutbox)
      requires outbox.Valid() && outbox.reservedSlots == outbox.queuedResults == 0 && !outbox.closed
      ensures Valid() && this.outbox == outbox && Abs() == Initial(outbox.capacity)
    {
      this.outbox := outbox;
      runningTasks, groupStatus, completion := map[], map[], map[];
      manualStatus, manualInflight, jobs := map[], {}, {};
      lanes, executing, results, registered, used := map[], {}, {}, {}, {};
    }

    // ---------------------------------------------------------- slots

    /** Takes `n` slots or, when one is refused, gives back those it took. */
    method ReserveAll(n: nat) returns (ok: bool)
      requires Valid() && 0 < n
      modifies outbox
      ensures Valid()
      ensures ok == HasRoom(old(Abs()), n)
      ensures Abs() == old(Abs()).(reserved := old(Abs().reserved) + if ok then n else 0)
    {
      var reserved := 0;
      while reserved < n
        invariant 0 <= reserved <= n && outbox.Valid()
        invariant Abs() == old(Abs()).(reserved := old(Abs().reserved) + reserved)
        invariant reserved != 0 ==> HasRoom(old(Abs()), reserved)
      {
        ok := outbox.ReserveSlot();
        if !ok {
          ReleaseAll(reserved);
          return;
        }
        reserved := reserved + 1;
      }
      ok := true;
    }

    method ReleaseAll(n: nat)
      requires outbox.Valid() && (forall g :: Mirrors(g)) && n <= outbox.reservedSlots
      modifies outbox
      ensures outbox.Valid() && Abs() == old(Abs()).(reserved := old(Abs().reserved) - n)
    {
      var i := 0;
      while i < n
        invariant 0 <= i <= n && outbox.Valid()
        invariant Abs() == old(Abs()).(reserved := old(Abs().reserved) - i)
      {
        var _ := outbox.ReleaseSlot();
        i := i + 1;
      }
    }

    // ---------------------------------------------------------- the scheduler's jobs

    /** Registers the tasks one by one until the scheduler throws. */
    method RegisterTasks(context: Uuid, g: nat, q: nat, tasks: seq<Uuid>, fault: Option<nat>) returns (count: nat)
      modifies this`jobs
      ensures count == (if fault.Some? && fault.value < |tasks| then fault.value else |tasks|)
      ensures jobs == old(jobs) - ReplacedBy(old(jobs), g, q, tasks[..count]) + JobsOf(context, g, q, tasks[..count])
    {
      count := 0;
      while count < |tasks|
        invariant 0 <= count <= |tasks| && (fault.Some? ==> count <= fault.value)
        invariant jobs == old(jobs) - ReplacedBy(old(jobs), g, q, tasks[..count]) + JobsOf(context, g, q, tasks[..count])
      {
        if fault == Some(count) {
          return;
        }
        AddJob(Regular(context, g, q, tasks[count]));
        assert tasks[..count + 1] == tasks[..count] + [tasks[count]];
        count := count + 1;
      }
      assert tasks[..count] == tasks;
    }

    /** A job with the same schedule, detail and sequence has the same id and is replaced. */
    method AddJob(job: Job)
      requires job.Regular?
      modifies this`jobs
      ensures jobs == old(jobs) - ReplacedBy(old(jobs), job.schedule, job.sequence, [job.detail]) + {job}
    {
      jobs := jobs - ReplacedBy(jobs, job.schedule, job.sequence, [job.detail]) + {job};
    }

    method RemoveTasks(g: nat, q: nat, tasks: seq<Uuid>)
      modifies this`jobs
      ensures jobs == old(jobs) - ReplacedBy(old(jobs), g, q, tasks)
    {
      var i := 0;
      while i < |tasks|
        invariant 0 <= i <= |tasks|
        invariant jobs == old(jobs) - ReplacedBy(old(jobs), g, q, tasks[..i])
      {
        jobs := jobs - ReplacedBy(jobs, g, q, [tasks[i]]);
        assert tasks[..i + 1] == tasks[..i] + [tasks[i]];
        i := i + 1;
      }
      assert tasks[..i] == tasks;
    }

    // ---------------------------------------------------------- sequences

    /** Keeps the ghost record of one schedule in step with its fields. */
    ghost method Note(g: nat, started: seq<nat>, stuck: bool)
      modifies this`lanes
      ensures lanes == old(lanes)[g := LaneAt(g)]
      ensures LaneAt(g) == Lane(g in runningTasks && runningTasks[g],
                                if g in groupStatus then Some(groupStatus[g]) else None,
                                CompletionOf(g), started, stuck)
    {
      lanes := lanes[g := Lane(g in runningTasks && runningTasks[g],
                               if g in groupStatus then Some(groupStatus[g]) else None,
                               CompletionOf(g), started, stuck)];
    }

    /** Other schedules keep their records and their fields. */
    twostate lemma StillMirror(g: nat)
      requires (forall h :: old(Mirrors(h))) && Mirrors(g)
      requires forall h :: h != g ==> (h in lanes <==> h in old(lanes)) && (h in lanes ==> lanes[h] == old(lanes[h]))
      requires forall h :: h != g ==>
        (h in runningTasks <==> h in old(runningTasks)) && (h in runningTasks ==> runningTasks[h] == old(runningTasks[h]))
      requires forall h :: h != g ==>
        (h in groupStatus <==> h in old(groupStatus)) && (h in groupStatus ==> groupStatus[h] == old(groupStatus[h]))
      requires forall h :: h != g ==>
        (h in completion <==> h in old(completion)) && (h in completion ==> completion[h] == old(completion[h]))
      ensures forall h :: Mirrors(h)
    {
      forall h
        ensures Mirrors(h)
      {
        assert old(Mirrors(h));
      }
    }

    method StopAfterCurrent(g: nat)
      requires Valid()
      modifies this`groupStatus, this`lanes
      ensures Valid() && Abs() == old(Abs()).Put(g, StopLane(old(LaneAt(g))))
    {
      assert Mirrors(g);
      if g in groupStatus {
        groupStatus := groupStatus[g := groupStatus[g].(stop := true)];
      }
      Note(g, LaneAt(g).started, LaneAt(g).stuck);
      StillMirror(g);
    }

    method SetRunning(g: nat, running: bool)
      requires Valid()
      modifies this`runningTasks, this`lanes
      ensures Valid() && Abs() == old(Abs()).Put(g, old(LaneAt(g)).(running := running))
    {
      assert Mirrors(g);
      runningTasks := runningTasks[g := running];
      Note(g, LaneAt(g).started, LaneAt(g).stuck);
      StillMirror(g);
    }

    method SetCompletion(g: nat, open: map<nat, seq<Uuid>>, ghost started: seq<nat>)
      requires Valid()
      modifies this`completion, this`lanes
      ensures Valid() && Abs() == old(Abs()).Put(g, old(LaneAt(g)).(completion := open, started := started))
    {
      assert Mirrors(g);
      completion := completion[g := open];
      Note(g, started, LaneAt(g).stuck);
      StillMirror(g);
    }

    // ---------------------------------------------------------- the handlers

    lemma PutTwice(s: State, g: nat, a: Lane, b: Lane)
      ensures s.Put(g, a).Put(g, b) == s.Put(g, b)
    {
      assert s.Put(g, a).Put(g, b).lanes == s.Put(g, b).lanes;
    }

    /** Reserves a slot for every task of the sequence, then registers the tasks; undoes both when it cannot. */
    method ExecuteNextTask(g: nat, q: nat, fault: Option<nat>) returns (outcome: Outcome)
      requires Valid()
      modifies this, outbox
      ensures Valid() && (outcome, Abs()) == ExecuteNext(old(Abs()), g, q, fault)
    {
      assert Mirrors(g);
      if g !in groupStatus || q !in groupStatus[g].sequences || groupStatus[g].sequences[q] == [] {
        return Declined;
      }
      var tasks := groupStatus[g].sequences[q];
      var ok := ReserveAll(|tasks|);
      if !ok {
        StopAfterCurrent(g);
        return Declined;
      }
      outcome := RegisterSequence(g, q, tasks, fault);
    }

    method RegisterSequence(g: nat, q: nat, tasks: seq<Uuid>, fault: Option<nat>) returns (outcome: Outcome)
      requires Valid() && tasks != [] && |tasks| <= outbox.reservedSlots
      requires g in groupStatus && tasks == TasksAt(LaneAt(g), q)
      requires HasRoom(Abs().(reserved := Abs().reserved - |tasks|), |tasks|)
      modifies this, outbox
      ensures Valid()
      ensures (outcome, Abs()) == ExecuteNext(old(Abs()).(reserved := old(Abs()).reserved - |tasks|), g, q, fault)
    {
      ghost var s, lane := Abs(), LaneAt(g);
      assert Mirrors(g);
      SetCompletion(g, CompletionOf(g)[q := tasks], lane.started);
      ghost var noted := LaneAt(g);
      assert Mirrors(g);
      var count := RegisterTasks(groupStatus[g].id, g, q, tasks, fault);
      if count < |tasks| {
        Undo(g, q, tasks[..count], |tasks|);
        outcome := Raised;
        assert noted.completion - {q} == lane.completion - {q};
        PutTwice(s, g, noted, StopLane(lane.(completion := lane.completion - {q})));
        assert jobs == s.jobs - ReplacedBy(s.jobs, g, q, tasks[..count]);
      } else {
        assert tasks[..count] == tasks;
        NoteStarted(g, q, tasks);
        outcome := Started;
        PutTwice(s, g, noted, noted.(started := lane.started + [q]));
      }
    }

    ghost method NoteStarted(g: nat, q: nat, tasks: seq<Uuid>)
      requires Valid() && g in groupStatus
      modifies this`lanes, this`registered
      ensures Valid()
      ensures Abs() == old(Abs()).Put(g, old(LaneAt(g)).(started := old(LaneAt(g)).started + [q])).(
                         registered := old(registered) + JobsOf(groupStatus[g].id, g, q, tasks))
    {
      assert Mirrors(g);
      registered := registered + JobsOf(groupStatus[g].id, g, q, tasks);
      Note(g, LaneAt(g).started + [q], LaneAt(g).stuck);
      StillMirror(g);
    }

    /** The scheduler threw: the tasks it took, the slots and the completion list go, and the context is to stop. */
    method Undo(g: nat, q: nat, scheduled: seq<Uuid>, reserved: nat)
      requires Valid() && reserved <= outbox.reservedSlots
      modifies this, outbox
      ensures Valid()
      ensures Abs() == old(Abs()).Put(g, StopLane(old(LaneAt(g)).(completion := old(LaneAt(g)).completion - {q}))).(
                         reserved := old(Abs()).reserved - reserved,
                         jobs := old(jobs) - ReplacedBy(old(jobs), g, q, scheduled))
    {
      ghost var s, lane := Abs(), LaneAt(g);
      RemoveTasks(g, q, scheduled);
      ReleaseAll(reserved);
      assert Mirrors(g);
      SetCompletion(g, CompletionOf(g) - {q}, lane.started);
      StopAfterCurrent(g);
      PutTwice(s, g, lane.(completion := lane.completion - {q}), StopLane(lane.(completion := lane.completion - {q})));
    }

    /** A refusal ends the context; an exception leaves the schedule marked as running. */
    method ConcludeNext(outcome: Outcome, g: nat)
      requires Valid()
      modifies this`runningTasks, this`lanes
      ensures Valid() && Abs() == Conclude(outcome, old(Abs()), g)
    {
      match outcome
      case Started =>
      case Declined => SetRunning(g, false);
      case Raised => NoteStuck(g);
    }

    ghost method NoteStuck(g: nat)
      requires Valid()
      modifies this`lanes
      ensures Valid() && Abs() == old(Abs()).Put(g, old(LaneAt(g)).(stuck := true))
    {
      assert Mirrors(g);
      Note(g, LaneAt(g).started, true);
      StillMirror(g);
    }

    method GroupBySequence(details: seq<Detail>) returns (sequences: map<nat, seq<Uuid>>)
      ensures sequences == Grouped(details)
    {
      sequences := map[];
      for i := 0 to |details|
        invariant sequences == Grouped(details[..i])
      {
        var d := details[i];
        sequences := sequences[d.sequence := (if d.sequence in sequences then sequences[d.sequence] else []) + [d.id]];
        assert details[..i + 1][..i] == details[..i];
      }
      assert details[..|details|] == details;
    }

    method OpenContext(g: nat, ghost details: seq<Detail>, sequences: map<nat, seq<Uuid>>, id: Uuid)
      requires Valid() && sequences == Grouped(details)
      modifies this`groupStatus, this`completion, this`runningTasks, this`lanes, this`used
      ensures Valid() && Abs() == Open(old(Abs()), g, details, id)
    {
      assert Mirrors(g);
      groupStatus := groupStatus[g := Context(id, sequences, sequences, false)];
      completion := completion[g := map[]];
      runningTasks := runningTasks[g := true];
      used := used + {id};
      Note(g, [], false);
      StillMirror(g);
    }

    /** `details` are those of the schedule in the current snapshot, none when it has no such schedule. */
    method StartGroupExecution(g: nat, allowed: bool, details: seq<Detail>, id: Uuid, fault: Option<nat>) returns (outcome: Outcome)
      requires Valid()
      modifies this, outbox
      ensures Valid() && Abs() == Start(old(Abs()), g, allowed, details, id, fault)
    {
      assert Mirrors(g);
      if !allowed || (g in runningTasks && runningTasks[g]) {
        return Declined;
      }
      var sequences := GroupBySequence(details);
      GroupedKeys(details);
      if sequences == map[] {
        return Declined;
      }
      OpenContext(g, details, sequences, id);
      outcome := StartLeast(g, sequences.Keys, fault);
    }

    method StartLeast(g: nat, sequences: set<nat>, fault: Option<nat>) returns (outcome: Outcome)
      requires Valid() && sequences != {}
      modifies this, outbox
      ensures Valid() && Abs() == Advance(old(Abs()), g, Least(sequences), fault)
    {
      assert Least(sequences) in sequences;
      var next :| next in sequences && forall q :: q in sequences ==> next <= q;
      outcome := ExecuteNextTask(g, next, fault);
      ConcludeNext(outcome, g);
    }

    /** Takes the detail off its sequence's list; the last one starts the next sequence, or ends the context. */
    method FinishDetail(g: nat, q: nat, d: Uuid, nextTaskRun: bool, fault: Option<nat>) returns (outcome: Outcome)
      requires Valid()
      modifies this, outbox
      ensures Valid() && Abs() == Executor.FinishDetail(old(Abs()), g, q, d, nextTaskRun, fault)
    {
      ghost var s, lane := Abs(), LaneAt(g);
      assert Mirrors(g);
      outcome := Declined;
      if q !in CompletionOf(g) || g !in groupStatus {
        return;
      }
      var remaining := RemoveOne(CompletionOf(g)[q], d);
      if remaining != [] {
        SetCompletion(g, CompletionOf(g)[q := remaining], lane.started);
        return;
      }
      SetCompletion(g, CompletionOf(g) - {q}, lane.started);
      assert Mirrors(g);
      var c := groupStatus[g];
      var later := if nextTaskRun && !c.stop then Later(c, q) else {};
      if later != {} {
        outcome := StartLeast(g, later, fault);
      } else if CompletionOf(g) == map[] {
        SetRunning(g, false);
        PutTwice(s, g, lane.(completion := lane.completion - {q}), LaneAt(g));
      }
    }

    /**
      Applies the server's transitions to the context one by one, then crosses the barrier; `drop`
      says that the schedule's cron job is taken out of the scheduler.
     */
    method HandleResultAck(envelope: Envelope, transitions: seq<Transition>, fault: Option<nat>)
      returns (outcome: Outcome, drop: bool)
      requires Valid()
      modifies this, outbox
      ensures Valid()
      ensures Abs() == Acknowledge(old(Abs()).(results := old(results) - {JobOf(envelope)}), JobOf(envelope), transitions, fault)
      ensures drop <==> JobOf(envelope).Regular? && old(LaneAt(JobOf(envelope).schedule)).context.Some? && ReportsGroup(transitions)
    {
      var job := JobOf(envelope);
      results := results - {job};
      outcome, drop := Declined, false;
      if job.Manual? {
        manualStatus := manualStatus - {job.manual};
        return;
      }
      assert Mirrors(job.schedule);
      if job.schedule !in groupStatus {
        return;
      }
      drop := ApplyAll(job.schedule, transitions);
      outcome := FinishDetail(job.schedule, job.sequence, job.detail, true, fault);
    }

    method ApplyAll(g: nat, transitions: seq<Transition>) returns (drop: bool)
      requires Valid() && g in groupStatus
      modifies this`groupStatus, this`lanes
      ensures Valid() && Abs() == old(Abs()).Put(g, Transit(old(LaneAt(g)), transitions))
      ensures drop <==> ReportsGroup(transitions)
    {
      ghost var s, lane := Abs(), LaneAt(g);
      assert Mirrors(g);
      drop := false;
      NoteSame(g);
      for i := 0 to |transitions|
        invariant Valid() && g in groupStatus
        invariant ApplyTransitions(groupStatus[g], transitions[i..]) == ApplyTransitions(lane.context.value, transitions)
        invariant Abs() == s.Put(g, lane.(context := Some(groupStatus[g])))
        invariant drop <==> exists n :: 0 <= n < i && transitions[n].GroupError?
      {
        assert transitions[i..][1..] == transitions[i + 1..];
        ghost var before := lane.(context := Some(groupStatus[g]));
        var removed := ApplyTransition(g, transitions[i]);
        drop := drop || removed;
        assert Mirrors(g);
        PutTwice(s, g, before, lane.(context := Some(groupStatus[g])));
      }
    }

    ghost method NoteSame(g: nat)
      requires Valid()
      modifies this`lanes
      ensures Valid() && Abs() == old(Abs()).Put(g, old(LaneAt(g)))
    {
      assert Mirrors(g);
      Note(g, LaneAt(g).started, LaneAt(g).stuck);
      StillMirror(g);
    }

    /** A detail in error leaves every sequence of the context; a group in error marks it to stop and drops the cron job. */
    method ApplyTransition(g: nat, transition: Transition) returns (drop: bool)
      requires Valid() && g in groupStatus
      modifies this`groupStatus, this`lanes
      ensures Valid() && g in groupStatus
      ensures Abs() == old(Abs()).Put(g, old(LaneAt(g)).(context := Some(ApplyOne(old(groupStatus[g]), transition))))
      ensures drop == transition.GroupError?
    {
      drop := false;
      assert Mirrors(g);
      var c := groupStatus[g];
      match transition {
        case DetailError(d) => groupStatus := groupStatus[g := Exclude(c, d)];
        case GroupError(_) =>
          groupStatus := groupStatus[g := c.(stop := true)];
          drop := true;
        case _ => groupStatus := groupStatus[g := c];
      }
      Note(g, LaneAt(g).started, LaneAt(g).stuck);
      StillMirror(g);
    }

    /** A permanent rejection stops the context and settles the detail. */
    method HandleResultRejection(envelope: Envelope) returns (outcome: Outcome)
      requires Valid()
      modifies this, outbox
      ensures Valid()
      ensures Abs() == Refuse(old(Abs()).(results := old(results) - {JobOf(envelope)}), JobOf(envelope))
    {
      var job := JobOf(envelope);
      results := results - {job};
      if job.Manual? {
        manualStatus := manualStatus - {job.manual};
        return Declined;
      }
      StopAfterCurrent(job.schedule);
      outcome := FinishDetail(job.schedule, job.sequence, job.detail, false, None);
    }

    /** The scheduler takes the one-shot off its list and starts it. */
    method FireTask(job: Job)
      requires Valid() && job in jobs
      modifies this
      ensures Valid() && Abs() == FireJob(old(Abs()), job)
    {
      jobs := jobs - {job};
      executing := executing + {job};
      if job.Regular? {
        SetRunning(job.schedule, true);
      }
    }

    /** The thread is over: its slot becomes a queued result, under the key of its context, detail and first attempt. */
    method ReportTask(job: Job, result: Result) returns (ok: bool)
      requires Valid() && job in executing
      modifies this, outbox
      ensures Valid() && ok == (0 < old(Abs()).reserved)
      ensures ok ==> Abs() == ReportJob(old(Abs()), job)
      ensures ok ==> outbox.Abs() == OutboxMachine.Apply(old(outbox.Abs()),
                                                         OutboxMachine.On(job.context, OutboxMachine.Enqueue(EnvelopeOf(job, result))))
      ensures JobOf(EnvelopeOf(job, result)) == job
    {
      ok := outbox.Enqueue(EnvelopeOf(job, result));
      if ok {
        executing := executing - {job};
        results := results + {job};
      }
    }

    /** Claims a manual run and registers its task; every way to fail gives back the slot and the mark. */
    method DispatchManual(m: nat, ready: bool, found: bool, claim: ClaimOutcome,
                          id: Uuid, schedule: nat, detail: Uuid, inline: bool) returns (ok: bool)
      requires Valid()
      modifies this, outbox
      ensures Valid() && Abs() == Dispatch(old(Abs()), m, ready, found, claim, id, schedule, detail, inline)
      ensures var s := old(Abs());
              ok <==> ready && m !in s.inflight && found && !s.closed && s.reserved + s.queued < s.capacity && claim.Won?
      ensures ok ==> manualInflight == old(manualInflight) + {m} && manualStatus == old(manualStatus)[m := id]
    {
      if !ready {
        manualInflight := manualInflight - {m};
        return false;
      }
      if m in manualInflight {
        return false;
      }
      manualInflight := manualInflight + {m};
      if !found {
        manualInflight := manualInflight - {m};
        return false;
      }
      ok := ClaimAndRegister(m, claim, Manual(id, schedule, detail, m, if claim.Won? then claim.token else ""), inline);
      if !ok {
        manualInflight := manualInflight - {m};
      }
    }

    /** `ok` when the slot was there and the claim was won; otherwise nothing changes. */
    method ClaimAndRegister(m: nat, claim: ClaimOutcome, job: Job, inline: bool) returns (ok: bool)
      requires Valid()
      modifies this`manualStatus, this`jobs, this`executing, this`registered, this`used, outbox
      ensures Valid() && ok == (HasRoom(old(Abs()), 1) && claim.Won?)
      ensures var s := old(Abs());
              Abs() == if !ok then s else
                         s.(reserved := s.reserved + 1, manuals := s.manuals[m := job.context],
                            registered := s.registered + {job}, used := s.used + {job.context},
                            executing := if inline then s.executing + {job} else s.executing,
                            jobs := if inline then s.jobs else s.jobs + {job})
    {
      ok := ReserveAll(1);
      if !ok {
        return;
      }
      if !claim.Won? {
        ReleaseAll(1);
        return false;
      }
      manualStatus := manualStatus[m := job.context];
      registered, used := registered + {job}, used + {job.context};
      if inline {
        executing := executing + {job};
      } else {
        jobs := jobs + {job};
      }
    }
  }
}
