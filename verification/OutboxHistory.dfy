/** What the outbox's counters, its latch and each group's flags say about the run that led to them. */
module OutboxHistory {
  import opened Protocol
  import opened Outbox

  // ------------------------------------------------------------ the latch

  /** The slots in use, reserved and queued. */
  function InUse(s: State): int {
    s.slots.reserved + s.slots.queued
  }

  /** One step moves the latch as the size it leaves behind says: on at the high mark, off below the low one. */
  lemma LatchStep(s: State, e: Event)
    requires Good(s) && Allowed(s, e)
    ensures var n := Apply(s, e);
            && n.slots.high == s.slots.high && n.slots.low == s.slots.low && n.slots.capacity == s.slots.capacity
            && n.slots.latched == (s.slots.high <= InUse(n) || (s.slots.latched && s.slots.low <= InUse(n)))
  {
    if e.On? {
      LatchGroupStep(s.slots, s.At(e.group), e.step);
    }
  }

  lemma LatchGroupStep(s: Slots, c: Channel, step: Step)
    requires Hysteresis(s) && Enabled(c, step)
    ensures var n := SlotsAfter(s, c, step);
            && n.high == s.high && n.low == s.low && n.capacity == s.capacity
            && n.latched == (s.high <= n.reserved + n.queued || (s.latched && s.low <= n.reserved + n.queued))
  {
  }

  /** The size reached the high mark at some state up to `k` and was not below the low mark since. */
  ghost predicate HighSince(run: Run, k: nat, high: nat, low: nat)
    requires k < |run.states|
  {
    exists i :: 0 <= i <= k && high <= InUse(run.states[i]) && forall j :: i < j <= k ==> low <= InUse(run.states[j])
  }

  lemma HighSinceNext(run: Run, k: nat, high: nat, low: nat)
    requires k + 1 < |run.states| && low < high
    ensures HighSince(run, k + 1, high, low) <==>
              high <= InUse(run.states[k + 1]) || (HighSince(run, k, high, low) && low <= InUse(run.states[k + 1]))
  {
    if HighSince(run, k, high, low) && low <= InUse(run.states[k + 1]) {
      var i :| 0 <= i <= k && high <= InUse(run.states[i]) && forall j :: i < j <= k ==> low <= InUse(run.states[j]);
      assert forall j :: i < j <= k + 1 ==> low <= InUse(run.states[j]);
    }
    if HighSince(run, k + 1, high, low) && InUse(run.states[k + 1]) < high {
      var i :| 0 <= i <= k + 1 && high <= InUse(run.states[i]) && forall j :: i < j <= k + 1 ==> low <= InUse(run.states[j]);
      assert i <= k && low <= InUse(run.states[k + 1]);
    }
  }

  /**
    Hysteresis, in every run: the latch is on exactly when the slots in use reached the high mark
    at some time and were at no time since below the low mark.
   */
  lemma {:induction false} LatchedIffHighSince(capacity: nat, high: nat, low: nat, run: Run, k: nat)
    requires Starts(run, capacity, high, low) && k < |run.states|
    ensures run.states[k].slots.high == high && run.states[k].slots.low == low && run.states[k].slots.capacity == capacity
    ensures run.states[k].slots.latched <==> HighSince(run, k, high, low)
  {
    if k > 0 {
      LatchedIffHighSince(capacity, high, low, run, k - 1);
      RunIsGood(run, k - 1);
      LatchStep(run.states[k - 1], run.events[k - 1]);
      HighSinceNext(run, k - 1, high, low);
    }
  }

  // ------------------------------------------------------------ what a run did at one step

  /** The event of step `i`; none past the end. */
  function EventAt(run: Run, i: nat): Option<Event> {
    if i < |run.events| < |run.states| then Some(run.events[i]) else None
  }

  /** What step `i` did to the group, if it was one of the group's own steps. */
  function StepAt(run: Run, i: nat, g: Uuid): Option<Step> {
    if i < |run.events| < |run.states| && run.events[i].On? && run.events[i].group == g then Some(run.events[i].step) else None
  }

  // ------------------------------------------------------------ slots

  datatype Use = Takes | GivesBack | Queues | Unqueues

  /** The step uses a slot this way: it takes one in the open outbox, gives one back, queues a result or takes one off. */
  predicate Uses(run: Run, i: nat, use: Use) {
    && EventAt(run, i).Some?
    && var s, e := run.states[i], run.events[i];
       match use
       case Takes => e.ReserveSlot? && !s.closed && InUse(s) < s.slots.capacity
       case GivesBack => e.ReleaseSlot?
       case Queues => e.On? && e.step.Enqueue?
       case Unqueues => e.On? && run.states[i + 1].At(e.group).journal.removed != s.At(e.group).journal.removed
  }

  function Count(run: Run, use: Use, k: nat): nat {
    if k == 0 then 0 else Count(run, use, k - 1) + One(run, k - 1, use)
  }

  lemma SlotStep(s: State, e: Event)
    requires Good(s) && Allowed(s, e)
    ensures var n := Apply(s, e);
            var removes := e.On? && n.At(e.group).journal.removed != s.At(e.group).journal.removed;
            var takes := e.ReserveSlot? && !s.closed && InUse(s) < s.slots.capacity;
            && n.slots.reserved == s.slots.reserved + (if takes then 1 else 0) - (if e.ReleaseSlot? then 1 else 0)
                                   - (if e.On? && e.step.Enqueue? then 1 else 0)
            && n.slots.queued == s.slots.queued + (if e.On? && e.step.Enqueue? then 1 else 0) - (if removes then 1 else 0)
  {
    if e.On? {
      SlotGroupStep(s.slots, s.At(e.group), s.closed, e.step);
    }
  }

  lemma SlotGroupStep(s: Slots, c: Channel, closed: bool, step: Step)
    requires Fifo(c) && Enabled(c, step)
    ensures var n, removes := SlotsAfter(s, c, step), Next(c, closed, step).journal.removed != c.journal.removed;
            && n.reserved == s.reserved - (if step.Enqueue? then 1 else 0)
            && n.queued == s.queued + (if step.Enqueue? then 1 else 0) - (if removes then 1 else 0)
  {
    if Next(c, closed, step).journal.removed != c.journal.removed {
      OnlySettleRemoves(c, closed, step);
    }
  }

  function One(run: Run, i: nat, use: Use): nat {
    if Uses(run, i, use) then 1 else 0
  }

  lemma SlotsMove(run: Run, i: nat, s: State, n: State)
    requires IsRun(run) && i < |run.events| && s == run.states[i] && n == run.states[i + 1] && Good(s)
    ensures n.slots.reserved == s.slots.reserved + One(run, i, Takes) - One(run, i, GivesBack) - One(run, i, Queues)
    ensures n.slots.queued == s.slots.queued + One(run, i, Queues) - One(run, i, Unqueues)
  {
    assert Allowed(s, run.events[i]) && n == Apply(s, run.events[i]);
    SlotStep(s, run.events[i]);
  }

  /**
    In every run the slots in use are those taken less those given back, and the results among them
    are those queued less those taken off; a slot is taken exactly when the outbox is open and one is free.
   */
  lemma {:induction false} SlotsBalance(capacity: nat, high: nat, low: nat, run: Run, k: nat)
    requires Starts(run, capacity, high, low) && k < |run.states|
    ensures run.states[k].slots.reserved == Count(run, Takes, k) - Count(run, GivesBack, k) - Count(run, Queues, k)
    ensures run.states[k].slots.queued == Count(run, Queues, k) - Count(run, Unqueues, k)
  {
    if k > 0 {
      SlotsBalance(capacity, high, low, run, k - 1);
      RunIsGood(run, k - 1);
      SlotsMove(run, k - 1, run.states[k - 1], run.states[k]);
    }
  }

  // ------------------------------------------------------------ flags

  /** What the outbox notes for a group, and of the backlog for all. */
  datatype Flag = Active | SendingNow | Timed | Parked | BacklogReported

  predicate Stands(s: State, flag: Flag, g: Uuid) {
    match flag
    case Active => s.At(g).active
    case SendingNow => s.At(g).sending
    case Timed => s.At(g).timer.Some?
    case Parked => s.At(g).parked
    case BacklogReported => s.slots.reported
  }

  /** The group waits in the open outbox without a timer. */
  predicate Waits(s: State, g: Uuid) {
    !s.closed && s.At(g).timer.None? && s.At(g).journal.queue != []
  }

  /**
    Step `i` sets the flag: an un-halted schedule call finds a waiting, inactive group; a drainer starts in
    the open outbox; a drainer defers; a look at the group finds delivery halted; a report is made.
   */
  predicate Sets(run: Run, i: nat, flag: Flag, g: Uuid) {
    var step := StepAt(run, i, g);
    match flag
    case Active => step == Some(Schedule(false)) && Waits(run.states[i], g) && !run.states[i].At(g).active
    case SendingNow => step.Some? && step.value.Start? && !run.states[i].closed
    case Timed => step.Some? && step.value.Defer?
    case Parked =>
      || (step == Some(Schedule(true)) && !run.states[i].closed)
      || (step.Some? && step.value.Finish? && step.value.halted && Waits(run.states[i], g))
    case BacklogReported => EventAt(run, i) == Some(EmitBacklog)
  }

  /**
    Step `i` clears it: a drainer defers, leaves, or starts in a closed outbox; a drainer leaves; a timer
    fires or the outbox closes; an un-halted schedule call comes; the latch goes off.
   */
  predicate Drops(run: Run, i: nat, flag: Flag, g: Uuid) {
    var step := StepAt(run, i, g);
    match flag
    case Active =>
      step.Some? && (step.value.Defer? || step.value.Finish? || (step.value.Start? && run.states[i].closed))
    case SendingNow => step.Some? && step.value.Finish?
    case Timed => EventAt(run, i) == Some(Close) || (step.Some? && step.value.Fire?)
    case Parked => step == Some(Schedule(false)) && !run.states[i].closed
    case BacklogReported => EventAt(run, i).Some? && run.states[i].slots.latched && !run.states[i + 1].slots.latched
  }

  lemma GroupFlagsStep(c: Channel, closed: bool, step: Step)
    requires Enabled(c, step)
    ensures var n := Next(c, closed, step);
            var waits := !closed && c.timer.None? && c.journal.queue != [];
            && n.active == ((step == Schedule(false) && waits && !c.active)
                            || (c.active && !(step.Defer? || step.Finish? || (step.Start? && closed))))
            && n.sending == ((step.Start? && !closed) || (c.sending && !step.Finish?))
            && n.timer.Some? == (step.Defer? || (c.timer.Some? && !step.Fire?))
            && n.parked == ((step == Schedule(true) && !closed) || (step.Finish? && step.halted && waits)
                            || (c.parked && !(step == Schedule(false) && !closed)))
  {
  }

  lemma BacklogStep(s: State, e: Event)
    requires Allowed(s, e)
    ensures var n := Apply(s, e).slots;
            n.reported == (e.EmitBacklog? || (s.slots.reported && !(s.slots.latched && !n.latched)))
  {
  }

  lemma FlagStep(run: Run, i: nat, s: State, n: State, flag: Flag, g: Uuid)
    requires IsRun(run) && i < |run.events| && s == run.states[i] && n == run.states[i + 1]
    ensures Stands(n, flag, g) == (Sets(run, i, flag, g) || (Stands(s, flag, g) && !Drops(run, i, flag, g)))
  {
    var e := run.events[i];
    if flag.BacklogReported? {
      BacklogStep(s, e);
    } else if e.On? && e.group == g {
      GroupFlagsStep(s.At(g), s.closed, e.step);
    }
  }

  ghost predicate SetSince(run: Run, k: nat, flag: Flag, g: Uuid) {
    exists i: nat :: i < k && Sets(run, i, flag, g) && forall j: nat :: i < j < k ==> !Drops(run, j, flag, g)
  }

  lemma SetSinceNext(run: Run, k: nat, flag: Flag, g: Uuid)
    ensures SetSince(run, k + 1, flag, g) <==> Sets(run, k, flag, g) || (SetSince(run, k, flag, g) && !Drops(run, k, flag, g))
  {
    if SetSince(run, k, flag, g) && !Drops(run, k, flag, g) {
      var i: nat :| i < k && Sets(run, i, flag, g) && forall j: nat :: i < j < k ==> !Drops(run, j, flag, g);
      assert Sets(run, i, flag, g) && forall j: nat :: i < j < k + 1 ==> !Drops(run, j, flag, g);
    }
    if SetSince(run, k + 1, flag, g) && !Sets(run, k, flag, g) {
      var i: nat :| i < k + 1 && Sets(run, i, flag, g) && forall j: nat :: i < j < k + 1 ==> !Drops(run, j, flag, g);
      assert i < k && !Drops(run, k, flag, g);
    }
  }

  /** Every flag of the outbox, in every run: it stands exactly when some step set it and no step after that cleared it. */
  lemma {:induction false} FlagsStandSince(capacity: nat, high: nat, low: nat, run: Run, k: nat, flag: Flag, g: Uuid)
    requires Starts(run, capacity, high, low) && k < |run.states|
    ensures Stands(run.states[k], flag, g) <==> SetSince(run, k, flag, g)
  {
    if k > 0 {
      FlagsStandSince(capacity, high, low, run, k - 1, flag, g);
      FlagStep(run, k - 1, run.states[k - 1], run.states[k], flag, g);
      SetSinceNext(run, k - 1, flag, g);
    }
  }

  // ------------------------------------------------------------ drainers

  /** One step of a drainer: what it was doing, what it does next, and what it did to the queue. */
  lemma DrainerGoesOn(c: Channel, closed: bool, step: Step)
    requires Enabled(c, step) && !step.Enqueue? && !step.Schedule? && !step.Fire?
    ensures var n, d := Next(c, closed, step), step.drainer;
            && d in c.drainers
            && n.drainers - {d} == c.drainers - {d}
            && (d in n.drainers <==> !(step.Finish? || (step.Start? && closed)))
            && (step.Start? && !closed ==> n.drainers[d] == Ready)
            && (step.Pick? && (closed || step.halted || c.journal.queue == []) ==> n.drainers[d] == Leaving)
            && (step.Pick? && !closed && !step.halted && c.journal.queue != [] ==> n.drainers[d] == Sending(c.journal.queue[0]))
            && (step.Settle? ==> c.drainers[d].Sending? && n.drainers[d] == Notifying(c.drainers[d].item, step.verdict))
            && (step.Notify? ==> (c.drainers[d].Notifying? && n.drainers[d] == Ready
                                  && n.journal.notified == c.journal.notified + [(c.drainers[d].item, c.drainers[d].verdict)]))
            && (step.Defer? ==> c.drainers[d].Sending? && n.drainers[d] == Deferred && n.armed == c.armed + {c.ids} && n.timer == Some(c.ids))
            && (step.GiveUp? ==> c.drainers[d].Sending? && n.drainers[d] == Leaving)
            && n.pending == c.pending + (if step.Finish? && !closed && !step.halted && c.timer.None? && c.journal.queue != [] then 1 else 0)
  {
  }

  /**
    An enqueue or a timer calls for the group. A schedule call is used up whatever it finds, and starts
    a drainer exactly when it is un-halted and finds the group waiting, inactive and untimed in the open outbox.
   */
  lemma CallsForGroup(c: Channel, closed: bool, step: Step)
    requires Enabled(c, step) && (step.Enqueue? || step.Schedule? || step.Fire?)
    ensures var n := Next(c, closed, step);
            var starts := step == Schedule(false) && !closed && !c.active && c.timer.None? && c.journal.queue != [];
            && n.pending == c.pending + (if step.Schedule? then -1 else 1)
            && n.drainers == (if starts then c.drainers[c.ids := Submitted] else c.drainers)
            && (starts ==> n.owner == c.ids < n.ids)
            && (step.Fire? ==> n.armed == c.armed - {step.timer} && n.timer.None?)
            && (!step.Fire? ==> n.armed == c.armed && n.timer == c.timer)
            && (step.Enqueue? ==> n.journal.queue == c.journal.queue + [Item(step.envelope, |c.journal.enqueued|)])
            && (!step.Enqueue? ==> n.journal == c.journal)
  {
  }

  lemma CloseAndWake(s: State, g: Uuid)
    ensures var w, c := Apply(s, Wake).At(g), Apply(s, Close).At(g);
            && w == s.At(g).(pending := s.At(g).pending + if s.At(g).journal.queue != [] then 1 else 0)
            && c == s.At(g).(timer := None)
    ensures Apply(s, Close).closed && Apply(s, Close).slots == s.slots && Apply(s, Wake).slots == s.slots && Apply(s, Wake).closed == s.closed
  {
  }

  /** A closed outbox stays closed, starts no drainer and sends nothing more. */
  lemma {:induction false} ClosedSendsNothing(run: Run, i: nat, k: nat, g: Uuid)
    requires IsRun(run) && i <= k < |run.states| && run.states[i].closed
    ensures run.states[k].closed
    ensures run.states[k].At(g).journal.picked == run.states[i].At(g).journal.picked
    ensures forall d :: d in run.states[k].At(g).drainers ==> d in run.states[i].At(g).drainers
  {
    if i < k {
      ClosedSendsNothing(run, i, k - 1, g);
      ClosedStep(run.states[k - 1], run.events[k - 1], g);
    }
  }

  lemma ClosedStep(s: State, e: Event, g: Uuid)
    requires s.closed && Allowed(s, e)
    ensures var n := Apply(s, e);
            && n.closed && n.At(g).journal.picked == s.At(g).journal.picked
            && (forall d :: d in n.At(g).drainers ==> d in s.At(g).drainers)
  {
  }

  /** In every run the outbox is closed exactly when it was told to close. */
  lemma {:induction false} ClosedIff(run: Run, k: nat)
    requires IsRun(run) && !run.states[0].closed && k < |run.states|
    ensures run.states[k].closed <==> exists i :: 0 <= i < k && run.events[i].Close?
  {
    if k > 0 {
      ClosedIff(run, k - 1);
      assert run.states[k] == Apply(run.states[k - 1], run.events[k - 1]);
    }
  }
}
