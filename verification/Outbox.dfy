/**
  The agent's result outbox: reserved capacity, one FIFO queue per execution group,
  drainer tasks on a worker pool, retry timers and a backlog latch.

  Every section the source runs under its lock is one step here, so a run of steps is
  an interleaving of threads. `State` holds the object's own fields followed by the
  threads and timers that act on them and by logs of what happened to each group.
 */
module Outbox {
  import opened Protocol

  /** A queued result. Its position among all results ever enqueued for its group is its object identity. */
  datatype Item = Item(envelope: Envelope, index: nat)

  datatype Verdict = Acked(transitions: seq<Transition>) | Refused(code: string)

  /** Where a drainer task stands between two lock sections. */
  datatype Phase =
    | Submitted
    | Ready
    | Sending(item: Item)
    | Notifying(item: Item, verdict: Verdict)
    | Leaving
    | Deferred

  /** Capacity accounting, the backlog latch, and counts of latch edges and emitted backlog events. */
  datatype Slots = Slots(
    capacity: nat, high: nat, low: nat,
    reserved: int, queued: int,
    latched: bool, reported: bool,
    unemitted: nat, rises: nat, events: nat)
  {
    function Size(): int { reserved + queued }

    predicate WellFormed() {
      low < high <= capacity && 0 < capacity
    }
  }

  /** The queue of one execution group and what has happened to its results so far. */
  datatype Journal = Journal(
    queue: seq<Item>,
    enqueued: seq<Item>,
    removed: seq<Item>,
    verdicts: seq<Verdict>,
    picked: seq<Item>,
    notified: seq<(Item, Verdict)>)

  /**
    Everything that concerns one execution group: its journal, whether the object counts it
    as active or sending, its entry in the timer table, and the drainers, armed timers and
    schedule calls under way. `owner` is the drainer that was started last, `parked` says
    that the last check of the group found delivery halted.
   */
  datatype Channel = Channel(
    journal: Journal,
    active: bool,
    sending: bool,
    timer: Option<nat>,
    drainers: map<nat, Phase>,
    owner: nat,
    armed: set<nat>,
    pending: nat,
    parked: bool,
    ids: nat)

  const FRESH: Channel :=
    Channel(Journal([], [], [], [], [], []), false, false, None, map[], 0, {}, 0, false, 0)

  datatype State = State(slots: Slots, closed: bool, channels: map<Uuid, Channel>)
  {
    function At(g: Uuid): Channel {
      if g in channels then channels[g] else FRESH
    }
  }

  // ------------------------------------------------------------ capacity and latch

  function Rose(s: Slots): bool {
    !s.latched && s.high <= s.Size()
  }

  function UpdateLatch(s: Slots): Slots {
    if Rose(s) then
      s.(latched := true, rises := s.rises + 1)
    else if s.latched && s.Size() < s.low then
      s.(latched := false, reported := false)
    else
      s
  }

  /** Updates the latch and remembers that a rising edge still has to be reported. */
  function UpdateLatchAndEmit(s: Slots): Slots {
    UpdateLatch(s).(unemitted := if Rose(s) then s.unemitted + 1 else s.unemitted)
  }

  predicate HasRoom(s: Slots, closed: bool) {
    !closed && s.Size() < s.capacity
  }

  function Reserve(s: Slots): Slots {
    UpdateLatchAndEmit(s.(reserved := s.reserved + 1))
  }

  function Release(s: Slots): Slots {
    UpdateLatch(s.(reserved := s.reserved - 1))
  }

  function Fill(s: Slots): Slots {
    UpdateLatchAndEmit(s.(reserved := s.reserved - 1, queued := s.queued + 1))
  }

  function Empty(s: Slots): Slots {
    UpdateLatch(s.(queued := s.queued - 1))
  }

  /** Reports one rising edge, unless the cause is already latched. */
  function EmitOnce(s: Slots): Slots
    requires 0 < s.unemitted
  {
    var t := s.(unemitted := s.unemitted - 1);
    if s.reported then t else t.(reported := true, events := s.events + 1)
  }

  // ------------------------------------------------------------ steps on a journal

  function Append(j: Journal, e: Envelope): Journal {
    var item := Item(e, |j.enqueued|);
    j.(queue := j.queue + [item], enqueued := j.enqueued + [item])
  }

  function PickHead(j: Journal): Journal
    requires j.queue != []
  {
    j.(picked := j.picked + [j.queue[0]])
  }

  predicate Removes(j: Journal, item: Item) {
    j.queue != [] && j.queue[0] == item
  }

  /** Drops the head of the queue if it is still the item that was sent. */
  function RemoveHead(j: Journal, item: Item, verdict: Verdict): Journal {
    if Removes(j, item) then
      j.(queue := j.queue[1..], removed := j.removed + [item], verdicts := j.verdicts + [verdict])
    else
      j
  }

  function Tell(j: Journal, item: Item, verdict: Verdict): Journal {
    j.(notified := j.notified + [(item, verdict)])
  }

  // ------------------------------------------------------------ steps of one group

  datatype Step =
    | Enqueue(envelope: Envelope)
    | Schedule(halted: bool)
    | Start(drainer: nat)
    | Pick(drainer: nat, halted: bool)
    | Settle(drainer: nat, verdict: Verdict)
    | Notify(drainer: nat)
    | Defer(drainer: nat)
    | GiveUp(drainer: nat)
    | Finish(drainer: nat, halted: bool)
    | Fire(timer: nat)

  predicate Enabled(c: Channel, step: Step) {
    match step
    case Enqueue(_) => true
    case Schedule(_) => 0 < c.pending
    case Start(d) => d in c.drainers && c.drainers[d].Submitted?
    case Pick(d, _) => d in c.drainers && c.drainers[d].Ready?
    case Settle(d, _) => d in c.drainers && c.drainers[d].Sending?
    case Notify(d) => d in c.drainers && c.drainers[d].Notifying?
    case Defer(d) => d in c.drainers && c.drainers[d].Sending?
    case GiveUp(d) => d in c.drainers && c.drainers[d].Sending?
    case Finish(d, _) => d in c.drainers && (c.drainers[d].Leaving? || c.drainers[d].Deferred?)
    case Fire(t) => t in c.armed
  }

  function To(c: Channel, d: nat, phase: Phase): Channel {
    c.(drainers := c.drainers[d := phase])
  }

  function DoEnqueue(c: Channel, e: Envelope): Channel {
    c.(journal := Append(c.journal, e), pending := c.pending + 1)
  }

  /** Starts a drainer unless one is active, a retry is timed, the queue is empty or delivery is halted. */
  function DoSchedule(c: Channel, closed: bool, halted: bool): Channel
    requires 0 < c.pending
  {
    if closed then
      c.(pending := c.pending - 1)
    else if halted then
      c.(pending := c.pending - 1, parked := true)
    else if c.active || c.timer.Some? || c.journal.queue == [] then
      c.(pending := c.pending - 1, parked := false)
    else
      c.(pending := c.pending - 1, parked := false, active := true,
         drainers := c.drainers[c.ids := Submitted], owner := c.ids, ids := c.ids + 1)
  }

  function DoStart(c: Channel, closed: bool, d: nat): Channel {
    if closed then
      c.(active := false, drainers := c.drainers - {d})
    else
      c.(sending := true, drainers := c.drainers[d := Ready])
  }

  /** Takes the head of the queue for sending; the head stays queued. */
  function DoPick(c: Channel, closed: bool, d: nat, halted: bool): Channel {
    if closed || halted || c.journal.queue == [] then
      To(c, d, Leaving)
    else
      c.(drainers := c.drainers[d := Sending(c.journal.queue[0])], journal := PickHead(c.journal))
  }

  function DoSettle(c: Channel, d: nat, verdict: Verdict): Channel
    requires d in c.drainers && c.drainers[d].Sending?
  {
    var item := c.drainers[d].item;
    c.(drainers := c.drainers[d := Notifying(item, verdict)], journal := RemoveHead(c.journal, item, verdict))
  }

  function DoNotify(c: Channel, d: nat): Channel
    requires d in c.drainers && c.drainers[d].Notifying?
  {
    c.(drainers := c.drainers[d := Ready],
       journal := Tell(c.journal, c.drainers[d].item, c.drainers[d].verdict))
  }

  /** Arms a retry timer and drops the group from the active set before the drainer itself has left. */
  function DoDefer(c: Channel, d: nat): Channel {
    c.(drainers := c.drainers[d := Deferred], active := false,
       armed := c.armed + {c.ids}, timer := Some(c.ids), ids := c.ids + 1)
  }

  function DoFinish(c: Channel, closed: bool, d: nat, halted: bool): Channel {
    var recheck := !closed && c.timer.None? && c.journal.queue != [];
    c.(active := false, sending := false, drainers := c.drainers - {d},
       parked := if recheck && halted then true else c.parked,
       pending := if recheck && !halted then c.pending + 1 else c.pending)
  }

  function DoFire(c: Channel, timer: nat): Channel {
    c.(armed := c.armed - {timer}, timer := None, pending := c.pending + 1)
  }

  function Next(c: Channel, closed: bool, step: Step): Channel
    requires Enabled(c, step)
  {
    match step
    case Enqueue(e) => DoEnqueue(c, e)
    case Schedule(halted) => DoSchedule(c, closed, halted)
    case Start(d) => DoStart(c, closed, d)
    case Pick(d, halted) => DoPick(c, closed, d, halted)
    case Settle(d, verdict) => DoSettle(c, d, verdict)
    case Notify(d) => DoNotify(c, d)
    case Defer(d) => DoDefer(c, d)
    case GiveUp(d) => To(c, d, Leaving)
    case Finish(d, halted) => DoFinish(c, closed, d, halted)
    case Fire(t) => DoFire(c, t)
  }

  // ------------------------------------------------------------ FIFO without loss

  /** Every result enqueued before the item has been removed. */
  ghost predicate InTurn(j: Journal, item: Item) {
    item.index <= |j.removed| && item.index < |j.enqueued| && j.enqueued[item.index] == item
  }

  ghost predicate Gone(j: Journal, item: Item) {
    item.index < |j.removed| && j.removed[item.index] == item
  }

  /** What was removed, then what is queued, is exactly what was enqueued, in order. */
  ghost predicate FifoJournal(j: Journal) {
    && j.enqueued == j.removed + j.queue
    && |j.verdicts| == |j.removed|
    && (forall i :: 0 <= i < |j.enqueued| ==> j.enqueued[i].index == i)
    && (forall k :: 0 <= k < |j.picked| ==> InTurn(j, j.picked[k]))
    && (forall i, k :: 0 <= i < k < |j.picked| ==> j.picked[i].index <= j.picked[k].index)
    && (forall k :: 0 <= k < |j.notified| ==> Gone(j, j.notified[k].0))
  }

  ghost predicate FifoPhase(j: Journal, phase: Phase) {
    match phase
    case Sending(item) => InTurn(j, item)
    case Notifying(item, _) => Gone(j, item)
    case _ => true
  }

  ghost predicate Fifo(c: Channel) {
    && FifoJournal(c.journal)
    && (forall d :: d in c.drainers ==> FifoPhase(c.journal, c.drainers[d]))
  }

  /** The journal only ever grows: what was in turn stays so, what is gone stays gone. */
  ghost predicate Extends(j: Journal, k: Journal) {
    j.enqueued <= k.enqueued && j.removed <= k.removed
  }

  lemma PhaseStable(j: Journal, k: Journal, phase: Phase)
    requires Extends(j, k) && FifoPhase(j, phase)
    ensures FifoPhase(k, phase)
  {
  }

  /** An item that was picked is either still the head of the queue or already removed. */
  lemma HeadOrGone(j: Journal, item: Item)
    requires FifoJournal(j) && InTurn(j, item)
    ensures Removes(j, item) <==> item.index == |j.removed|
    ensures !Removes(j, item) <==> Gone(j, item)
  {
    assert item.index < |j.removed| ==> j.enqueued[item.index] == j.removed[item.index];
    assert j.queue != [] ==> j.enqueued[|j.removed|] == j.queue[0];
  }

  lemma RemoveHeadKeepsFifo(j: Journal, item: Item, verdict: Verdict)
    requires FifoJournal(j) && InTurn(j, item)
    ensures FifoJournal(RemoveHead(j, item, verdict))
    ensures Extends(j, RemoveHead(j, item, verdict)) && Gone(RemoveHead(j, item, verdict), item)
  {
    HeadOrGone(j, item);
    var k := RemoveHead(j, item, verdict);
    assert k.removed + k.queue == j.removed + j.queue;
    forall n | 0 <= n < |k.picked| ensures InTurn(k, k.picked[n]) {
      assert InTurn(j, j.picked[n]);
    }
    forall n | 0 <= n < |k.notified| ensures Gone(k, k.notified[n].0) {
      assert Gone(j, j.notified[n].0);
    }
  }

  lemma AppendKeepsFifo(j: Journal, e: Envelope)
    requires FifoJournal(j)
    ensures FifoJournal(Append(j, e)) && Extends(j, Append(j, e))
  {
  }

  lemma PickKeepsFifo(j: Journal)
    requires FifoJournal(j) && j.queue != []
    ensures FifoJournal(PickHead(j)) && InTurn(j, j.queue[0])
    ensures j.enqueued[..j.queue[0].index] == j.removed
  {
    assert j.queue[0] == j.enqueued[|j.removed|];
  }

  lemma TellKeepsFifo(j: Journal, item: Item, verdict: Verdict)
    requires FifoJournal(j) && Gone(j, item)
    ensures FifoJournal(Tell(j, item, verdict))
  {
  }

  lemma FifoJournalPreserved(c: Channel, closed: bool, step: Step)
    requires Fifo(c) && Enabled(c, step)
    ensures FifoJournal(Next(c, closed, step).journal)
    ensures Extends(c.journal, Next(c, closed, step).journal)
  {
    var j := c.journal;
    match step
    case Enqueue(e) => AppendKeepsFifo(j, e);
    case Pick(d, _) => if j.queue != [] { PickKeepsFifo(j); }
    case Settle(d, verdict) => RemoveHeadKeepsFifo(j, c.drainers[d].item, verdict);
    case Notify(d) => TellKeepsFifo(j, c.drainers[d].item, c.drainers[d].verdict);
    case _ =>
  }

  /** Only settling a send takes a result off the queue, and then it is the head that was sent. */
  lemma OnlySettleRemoves(c: Channel, closed: bool, step: Step)
    requires Enabled(c, step) && Next(c, closed, step).journal.removed != c.journal.removed
    ensures step.Settle? && Removes(c.journal, c.drainers[step.drainer].item)
    ensures var j := Next(c, closed, step).journal;
            && j.removed == c.journal.removed + [c.journal.queue[0]] && j.queue == c.journal.queue[1..]
            && j.verdicts == c.journal.verdicts + [step.verdict]
  {
  }

  lemma FifoPreserved(c: Channel, closed: bool, step: Step)
    requires Fifo(c) && Enabled(c, step)
    ensures Fifo(Next(c, closed, step)) && Extends(c.journal, Next(c, closed, step).journal)
  {
    var n := Next(c, closed, step);
    FifoJournalPreserved(c, closed, step);
    forall d | d in n.drainers ensures FifoPhase(n.journal, n.drainers[d]) {
      FifoPhasePreserved(c, closed, step, d);
    }
  }

  lemma FifoPhasePreserved(c: Channel, closed: bool, step: Step, d: nat)
    requires Fifo(c) && Enabled(c, step) && d in Next(c, closed, step).drainers
    ensures FifoPhase(Next(c, closed, step).journal, Next(c, closed, step).drainers[d])
  {
    FifoJournalPreserved(c, closed, step);
    if d in c.drainers {
      PhaseStable(c.journal, Next(c, closed, step).journal, c.drainers[d]);
    }
    match step
    case Settle(e, verdict) => RemoveHeadKeepsFifo(c.journal, c.drainers[e].item, verdict);
    case Pick(_, _) => if c.journal.queue != [] { PickKeepsFifo(c.journal); }
    case _ =>
  }

  // ------------------------------------------------------------ no lost wakeup

  /** Somebody will look at the queue again, or the last look found delivery halted. */
  predicate Covered(c: Channel) {
    c.drainers != map[] || c.armed != {} || 0 < c.pending || c.parked
  }

  ghost predicate FreshIds(c: Channel) {
    && (forall d :: d in c.drainers ==> d < c.ids)
    && (forall t :: t in c.armed ==> t < c.ids)
  }

  ghost predicate Wakeful(c: Channel, closed: bool) {
    && FreshIds(c)
    && (!closed && c.active ==> c.owner in c.drainers)
    && (!closed && c.timer.Some? ==> c.timer.value in c.armed)
    && (!closed && c.journal.queue != [] ==> Covered(c))
  }

  lemma WakefulPreserved(c: Channel, closed: bool, step: Step)
    requires Wakeful(c, closed) && Enabled(c, step)
    ensures Wakeful(Next(c, closed, step), closed)
  {
    var n := Next(c, closed, step);
    match step
    case Enqueue(_) =>
    case Schedule(halted) => ScheduleKeepsWakeful(c, closed, halted);
    case Finish(_, _) => assert n.timer.Some? && !closed ==> n.timer.value in n.armed;
    case Fire(_) =>
    case Start(d) => assert !closed ==> d in n.drainers;
    case Pick(d, _) => assert d in n.drainers;
    case Settle(d, _) => assert d in n.drainers;
    case Notify(d) => assert d in n.drainers;
    case Defer(d) => assert d in n.drainers;
    case GiveUp(d) => assert d in n.drainers;
  }

  lemma ScheduleKeepsWakeful(c: Channel, closed: bool, halted: bool)
    requires Wakeful(c, closed) && 0 < c.pending
    ensures Wakeful(DoSchedule(c, closed, halted), closed)
  {
    var n := DoSchedule(c, closed, halted);
    assert c.ids in n.drainers || n.drainers == c.drainers;
  }

  /** An un-halted schedule call for a waiting group leaves a live drainer or an armed timer behind. */
  lemma UnhaltedScheduleUnparks(c: Channel)
    requires Wakeful(c, false) && 0 < c.pending && c.journal.queue != []
    ensures var n := DoSchedule(c, false, false);
            !n.parked && (n.drainers != map[] || n.armed != {})
  {
    var n := DoSchedule(c, false, false);
    assert c.ids in n.drainers || c.owner in n.drainers || c.timer.value in n.armed;
  }

  /** Every removed result was reported to the executor, or its drainer is about to do so. */
  ghost predicate Informed(c: Channel, i: nat) {
    || (exists k :: 0 <= k < |c.journal.notified| && c.journal.notified[k].0.index == i)
    || (exists d :: d in c.drainers && c.drainers[d].Notifying? && c.drainers[d].item.index == i)
  }

  ghost predicate AllInformed(c: Channel) {
    forall i :: 0 <= i < |c.journal.removed| ==> Informed(c, i)
  }

  lemma AllInformedPreserved(c: Channel, closed: bool, step: Step)
    requires Fifo(c) && FreshIds(c) && AllInformed(c) && Enabled(c, step)
    ensures AllInformed(Next(c, closed, step))
  {
    var n := Next(c, closed, step);
    FifoJournalPreserved(c, closed, step);
    forall i | 0 <= i < |n.journal.removed| ensures Informed(n, i) {
      InformedPreserved(c, closed, step, i);
    }
  }

  lemma InformedPreserved(c: Channel, closed: bool, step: Step, i: nat)
    requires Fifo(c) && FreshIds(c) && AllInformed(c) && Enabled(c, step)
    requires i < |Next(c, closed, step).journal.removed|
    ensures Informed(Next(c, closed, step), i)
  {
    var n := Next(c, closed, step);
    if i < |c.journal.removed| {
      assert Informed(c, i);
      InformedStays(c, closed, step, i);
    } else {
      HeadOrGone(c.journal, c.drainers[step.drainer].item);
      assert n.drainers[step.drainer].item.index == i;
    }
  }

  lemma InformedStays(c: Channel, closed: bool, step: Step, i: nat)
    requires Enabled(c, step) && FreshIds(c) && Informed(c, i)
    ensures Informed(Next(c, closed, step), i)
  {
    var n := Next(c, closed, step);
    if k :| 0 <= k < |c.journal.notified| && c.journal.notified[k].0.index == i {
      assert n.journal.notified[k].0.index == i;
    } else {
      var d :| d in c.drainers && c.drainers[d].Notifying? && c.drainers[d].item.index == i;
      if step == Notify(d) {
        assert n.journal.notified[|c.journal.notified|].0.index == i;
      } else {
        assert d in n.drainers && n.drainers[d] == c.drainers[d];
      }
    }
  }

  // ------------------------------------------------------------ one drainer at a time

  /** The timer of a group does not fire while the drainer that armed it has not left yet. */
  ghost predicate Unhurried(c: Channel, step: Step) {
    step.Fire? ==> forall d :: d in c.drainers ==> !c.drainers[d].Deferred?
  }

  ghost predicate SerialPhase(c: Channel, closed: bool, d: nat)
    requires d in c.drainers
  {
    && (!closed && c.drainers[d].Deferred? ==> c.timer.Some? && !c.active)
    && (!closed && !c.drainers[d].Deferred? ==> c.active && c.timer.None?)
    && (c.sending <==> !c.drainers[d].Submitted?)
    && (c.drainers[d].Sending? ==> Removes(c.journal, c.drainers[d].item))
  }

  /** Everything removed was reported once, in order, except the result the drainer is reporting now. */
  ghost predicate SerialNotices(c: Channel) {
    var j := c.journal;
    && |j.verdicts| == |j.removed|
    && |j.notified| <= |j.removed| <= |j.notified| + 1
    && (forall k :: 0 <= k < |j.notified| ==> j.notified[k] == (j.removed[k], j.verdicts[k]))
    && (forall d :: d in c.drainers && c.drainers[d].Notifying? ==>
          && |j.removed| == |j.notified| + 1
          && c.drainers[d].item == j.removed[|j.notified|]
          && c.drainers[d].verdict == j.verdicts[|j.notified|])
    && ((forall d :: d in c.drainers ==> !c.drainers[d].Notifying?) ==> |j.removed| == |j.notified|)
  }

  ghost predicate Serial(c: Channel, closed: bool) {
    && (forall d, e :: d in c.drainers && e in c.drainers ==> d == e)
    && (forall d :: d in c.drainers ==> SerialPhase(c, closed, d))
    && (c.drainers == map[] ==> !c.sending)
    && (!closed ==> forall t :: t in c.armed ==> c.timer == Some(t))
    && SerialNotices(c)
  }

  lemma SerialPreserved(c: Channel, closed: bool, step: Step)
    requires Serial(c, closed) && Enabled(c, step) && Unhurried(c, step)
    ensures Serial(Next(c, closed, step), closed)
  {
    var n := Next(c, closed, step);
    SerialNoticesPreserved(c, closed, step);
    SerialThreadsPreserved(c, closed, step);
    forall d | d in n.drainers ensures SerialPhase(n, closed, d) {
      SerialPhasePreserved(c, closed, step, d);
    }
  }

  lemma SerialThreadsPreserved(c: Channel, closed: bool, step: Step)
    requires Serial(c, closed) && Enabled(c, step) && Unhurried(c, step)
    ensures var n := Next(c, closed, step);
            && (forall d, e :: d in n.drainers && e in n.drainers ==> d == e)
            && (n.drainers == map[] ==> !n.sending)
            && (!closed ==> forall t :: t in n.armed ==> n.timer == Some(t))
  {
    var n := Next(c, closed, step);
    match step
    case Enqueue(_) =>
    case Schedule(_) => assert n.drainers == c.drainers || c.ids in n.drainers;
    case Finish(_, _) =>
    case Fire(_) =>
    case Start(d) => assert SerialPhase(c, closed, d); assert !closed ==> d in n.drainers;
    case Pick(d, _) => assert d in n.drainers;
    case Settle(d, _) => assert d in n.drainers;
    case Notify(d) => assert d in n.drainers;
    case Defer(d) => assert SerialPhase(c, closed, d); assert d in n.drainers;
    case GiveUp(d) => assert d in n.drainers;
  }

  lemma SerialPhasePreserved(c: Channel, closed: bool, step: Step, d: nat)
    requires Serial(c, closed) && Enabled(c, step) && Unhurried(c, step)
    requires d in Next(c, closed, step).drainers
    ensures SerialPhase(Next(c, closed, step), closed, d)
  {
    if d in c.drainers {
      assert SerialPhase(c, closed, d);
    }
  }

  lemma SerialNoticesPreserved(c: Channel, closed: bool, step: Step)
    requires Serial(c, closed) && Enabled(c, step)
    ensures SerialNotices(Next(c, closed, step))
  {
    var n := Next(c, closed, step);
    if step.Settle? {
      assert n.drainers[step.drainer].Notifying?;
    }
  }

  /**
    From a state with one drainer per group, a retry timer that fires leads to a second
    drainer beside the first exactly when the drainer that armed it has not left yet.
   */
  lemma EarlyTimerOverlaps(c: Channel, t: nat)
    requires Serial(c, false) && Wakeful(c, false) && t in c.armed && c.journal.queue != []
    ensures var n := DoSchedule(DoFire(c, t), false, false);
            (exists d, e :: d != e && d in n.drainers && e in n.drainers)
            <==> (exists d :: d in c.drainers && c.drainers[d].Deferred?)
  {
    var n := DoSchedule(DoFire(c, t), false, false);
    if d :| d in c.drainers && c.drainers[d].Deferred? {
      assert SerialPhase(c, false, d);
      assert d in n.drainers && c.ids in n.drainers && d != c.ids;
    } else if d :| d in c.drainers {
      assert false;
    }
  }

  // ------------------------------------------------------------ the whole object

  datatype Event =
    | ReserveSlot
    | ReleaseSlot
    | EmitBacklog
    | On(group: Uuid, step: Step)
    | Wake
    | Close

  predicate Allowed(s: State, e: Event) {
    match e
    case ReleaseSlot => 0 < s.slots.reserved
    case EmitBacklog => 0 < s.slots.unemitted
    case On(g, step) => Enabled(s.At(g), step) && (step.Enqueue? ==> step.envelope.group == g && 0 < s.slots.reserved)
    case _ => true
  }

  /** How a step of one group moves the capacity accounting. */
  function SlotsAfter(s: Slots, c: Channel, step: Step): Slots
    requires Enabled(c, step)
  {
    match step
    case Enqueue(_) => Fill(s)
    case Settle(d, _) => if Removes(c.journal, c.drainers[d].item) then Empty(s) else s
    case _ => s
  }

  function WakeOne(c: Channel): Channel {
    if c.journal.queue == [] then c else c.(pending := c.pending + 1)
  }

  /** A cancelled timer may have begun to fire, so it stays armed. */
  function CloseOne(c: Channel): Channel {
    c.(timer := None)
  }

  function Apply(s: State, e: Event): State
    requires Allowed(s, e)
  {
    match e
    case ReserveSlot => if HasRoom(s.slots, s.closed) then s.(slots := Reserve(s.slots)) else s
    case ReleaseSlot => s.(slots := Release(s.slots))
    case EmitBacklog => s.(slots := EmitOnce(s.slots))
    case On(g, step) =>
      s.(slots := SlotsAfter(s.slots, s.At(g), step),
         channels := s.channels[g := Next(s.At(g), s.closed, step)])
    case Wake => s.(channels := map g | g in s.channels :: WakeOne(s.channels[g]))
    case Close => s.(closed := true, channels := map g | g in s.channels :: CloseOne(s.channels[g]))
  }

  /** A run: the states it passes through and the event between each state and the next. */
  datatype Run = Run(states: seq<State>, events: seq<Event>)

  ghost predicate IsRun(run: Run) {
    && |run.states| == |run.events| + 1
    && (forall k {:trigger run.events[k]} :: 0 <= k < |run.events| ==>
          Allowed(run.states[k], run.events[k]) && run.states[k + 1] == Apply(run.states[k], run.events[k]))
  }

  ghost predicate Starts(run: Run, capacity: nat, high: nat, low: nat) {
    IsRun(run) && low < high <= capacity && run.states[0] == Initial(capacity, high, low)
  }

  ghost function Initial(capacity: nat, high: nat, low: nat): State {
    State(Slots(capacity, high, low, 0, 0, false, false, 0, 0, 0), false, map[])
  }

  // ------------------------------------------------------------ capacity and hysteresis

  /** The latch is on only at or above the low mark, and off only below the high mark. */
  ghost predicate Hysteresis(s: Slots) {
    && s.WellFormed()
    && 0 <= s.reserved && 0 <= s.queued && s.Size() <= s.capacity
    && (s.latched ==> s.low <= s.Size())
    && (!s.latched ==> s.Size() < s.high)
    && s.events + s.unemitted <= s.rises
  }

  ghost function TotalQueued(channels: map<Uuid, Channel>): nat {
    if channels == map[] then 0
    else
      var g :| g in channels;
      |channels[g].journal.queue| + TotalQueued(channels - {g})
  }

  lemma {:induction false} TotalQueuedSplit(channels: map<Uuid, Channel>, g: Uuid)
    requires g in channels
    ensures TotalQueued(channels) == |channels[g].journal.queue| + TotalQueued(channels - {g})
    decreases |channels|
  {
    var h :| h in channels && TotalQueued(channels) == |channels[h].journal.queue| + TotalQueued(channels - {h});
    if h != g {
      TotalQueuedSplit(channels - {h}, g);
      TotalQueuedSplit(channels - {g}, h);
      assert channels - {h} - {g} == channels - {g} - {h};
    }
  }

  lemma TotalQueuedUpdate(s: State, g: Uuid, c: Channel)
    ensures TotalQueued(s.channels[g := c])
            == TotalQueued(s.channels) - |s.At(g).journal.queue| + |c.journal.queue|
    ensures |s.At(g).journal.queue| <= TotalQueued(s.channels)
  {
    var t := s.channels[g := c];
    TotalQueuedSplit(t, g);
    assert t - {g} == s.channels - {g};
    if g in s.channels {
      TotalQueuedSplit(s.channels, g);
    } else {
      assert s.channels - {g} == s.channels;
    }
  }

  lemma {:induction false} TotalQueuedSame(a: map<Uuid, Channel>, b: map<Uuid, Channel>)
    requires a.Keys == b.Keys
    requires forall g :: g in a ==> a[g].journal.queue == b[g].journal.queue
    ensures TotalQueued(a) == TotalQueued(b)
    decreases |a|
  {
    if a == map[] {
      assert b == map[];
    } else {
      var g :| g in a;
      TotalQueuedSplit(a, g);
      TotalQueuedSplit(b, g);
      assert |a - {g}| < |a|;
      TotalQueuedSame(a - {g}, b - {g});
    }
  }

  // ------------------------------------------------------------ every reachable state

  ghost predicate ChannelOk(c: Channel, closed: bool) {
    Fifo(c) && Wakeful(c, closed) && AllInformed(c)
  }

  ghost predicate Good(s: State) {
    && Hysteresis(s.slots)
    && s.slots.queued == TotalQueued(s.channels)
    && (forall g :: g in s.channels ==> ChannelOk(s.channels[g], s.closed))
  }

  lemma LatchKeepsHysteresis(s: Slots)
    requires s.WellFormed() && 0 <= s.reserved && 0 <= s.queued && s.Size() <= s.capacity
    requires s.events + s.unemitted <= s.rises
    ensures Hysteresis(UpdateLatch(s)) && Hysteresis(UpdateLatchAndEmit(s))
  {
  }

  lemma GroupStepKeepsHysteresis(s: Slots, c: Channel, step: Step)
    requires Hysteresis(s) && Enabled(c, step)
    requires step.Enqueue? ==> 0 < s.reserved
    requires |c.journal.queue| <= s.queued
    ensures Hysteresis(SlotsAfter(s, c, step))
  {
    match step
    case Enqueue(_) => LatchKeepsHysteresis(s.(reserved := s.reserved - 1, queued := s.queued + 1));
    case Settle(d, _) =>
      if Removes(c.journal, c.drainers[d].item) {
        LatchKeepsHysteresis(s.(queued := s.queued - 1));
      }
    case _ =>
  }

  lemma SlotsPreserved(s: State, e: Event)
    requires Good(s) && Allowed(s, e)
    ensures Hysteresis(Apply(s, e).slots)
  {
    var t := s.slots;
    match e
    case ReserveSlot => if HasRoom(t, s.closed) { LatchKeepsHysteresis(t.(reserved := t.reserved + 1)); }
    case ReleaseSlot => LatchKeepsHysteresis(t.(reserved := t.reserved - 1));
    case On(g, step) =>
      TotalQueuedUpdate(s, g, s.At(g));
      GroupStepKeepsHysteresis(t, s.At(g), step);
    case _ =>
  }

  /** The counter of queued results moves with the length of the queue. */
  lemma CounterFollowsQueue(s: Slots, c: Channel, closed: bool, step: Step)
    requires Enabled(c, step)
    ensures SlotsAfter(s, c, step).queued - s.queued
            == |Next(c, closed, step).journal.queue| - |c.journal.queue|
  {
  }

  lemma TotalPreserved(s: State, e: Event)
    requires Good(s) && Allowed(s, e)
    ensures Apply(s, e).slots.queued == TotalQueued(Apply(s, e).channels)
  {
    match e
    case On(g, step) =>
      CounterFollowsQueue(s.slots, s.At(g), s.closed, step);
      TotalQueuedUpdate(s, g, Next(s.At(g), s.closed, step));
    case _ => TotalQueuedSame(s.channels, Apply(s, e).channels);
  }

  lemma ChannelPreserved(c: Channel, closed: bool, step: Step)
    requires ChannelOk(c, closed) && Enabled(c, step)
    ensures ChannelOk(Next(c, closed, step), closed)
  {
    FifoPreserved(c, closed, step);
    WakefulPreserved(c, closed, step);
    AllInformedPreserved(c, closed, step);
  }

  lemma WakeOneOk(c: Channel, closed: bool)
    requires ChannelOk(c, closed)
    ensures ChannelOk(WakeOne(c), closed) && ChannelOk(CloseOne(c), true)
  {
    forall i | 0 <= i < |c.journal.removed| ensures Informed(WakeOne(c), i) && Informed(CloseOne(c), i) {
      assert Informed(c, i);
    }
  }

  lemma GoodPreserved(s: State, e: Event)
    requires Good(s) && Allowed(s, e)
    ensures Good(Apply(s, e))
  {
    var n := Apply(s, e);
    SlotsPreserved(s, e);
    TotalPreserved(s, e);
    forall g | g in n.channels ensures ChannelOk(n.channels[g], n.closed) {
      assert ChannelOk(s.At(g), s.closed);
      if e.On? && e.group == g {
        ChannelPreserved(s.At(g), s.closed, e.step);
      } else {
        WakeOneOk(s.At(g), s.closed);
      }
    }
  }

  lemma {:induction false} RunIsGood(run: Run, k: nat)
    requires IsRun(run) && Good(run.states[0]) && k < |run.states|
    ensures Good(run.states[k])
  {
    if 0 < k {
      RunIsGood(run, k - 1);
      GoodPreserved(run.states[k - 1], run.events[k - 1]);
    }
  }

  /**
    Capacity, hysteresis, FIFO without loss and no lost wakeup, in every state that any
    interleaving of threads, timers and state changes can reach.
   */
  lemma OutboxSafety(capacity: nat, high: nat, low: nat, run: Run, k: nat, g: Uuid)
    requires Starts(run, capacity, high, low) && k < |run.states|
    ensures var s := run.states[k];
            var j := s.At(g).journal;
            && Hysteresis(s.slots)
            && s.slots.queued == TotalQueued(s.channels)
            && j.enqueued == j.removed + j.queue
            && (!s.closed && j.queue != [] ==> Covered(s.At(g)))
            && AllInformed(s.At(g))
  {
    RunIsGood(run, k);
  }

  /** An item picked for sending is the first that is not yet removed: every earlier one of its group is gone. */
  lemma PickedIsNextInLine(capacity: nat, high: nat, low: nat, run: Run, k: nat, g: Uuid, d: nat)
    requires Starts(run, capacity, high, low) && k < |run.events|
    requires run.events[k].On? && run.events[k].group == g
    requires run.events[k].step.Pick? && run.events[k].step.drainer == d
    ensures var n := run.states[k + 1].At(g);
            n.drainers[d].Sending? ==>
              && !run.events[k].step.halted && !run.states[k].closed
              && n.drainers[d].item.index == |n.journal.removed| < |n.journal.enqueued|
              && n.drainers[d].item == n.journal.enqueued[|n.journal.removed|]
              && n.journal.enqueued[..n.drainers[d].item.index] == n.journal.removed
  {
    RunIsGood(run, k);
    var s := run.states[k];
    assert ChannelOk(s.At(g), s.closed);
    if s.At(g).journal.queue != [] {
      PickKeepsFifo(s.At(g).journal);
    }
  }

  /** A schedule call that `wake` made stays pending until a schedule call of the group is taken. */
  lemma {:induction false} WakeStaysPending(run: Run, k: nat, l: nat, g: Uuid)
    requires IsRun(run) && k < l < |run.states|
    requires run.events[k].Wake? && run.states[k].At(g).journal.queue != []
    requires forall i :: k < i < l ==> !(run.events[i].On? && run.events[i].group == g && run.events[i].step.Schedule?)
    ensures 0 < run.states[l].At(g).pending
  {
    var s, e := run.states[l - 1], run.events[l - 1];
    if k + 1 < l {
      WakeStaysPending(run, k, l - 1, g);
      PendingStays(s, e, g);
    } else {
      assert e.Wake? && g in s.channels;
    }
  }

  lemma PendingStays(s: State, e: Event, g: Uuid)
    requires Allowed(s, e) && !(e.On? && e.group == g && e.step.Schedule?)
    ensures s.At(g).pending <= Apply(s, e).At(g).pending
  {
  }

  /**
    A wake reaches every parked group, in every run: the schedule call it makes for a waiting group
    stays pending until one is taken, and taken un-halted while the group still waits it leaves a
    live drainer or an armed timer.
   */
  lemma WakeUnparks(capacity: nat, high: nat, low: nat, run: Run, k: nat, l: nat, g: Uuid)
    requires Starts(run, capacity, high, low) && k < l < |run.states|
    requires run.events[k].Wake? && run.states[k].At(g).journal.queue != []
    requires forall i :: k < i < l ==> !(run.events[i].On? && run.events[i].group == g && run.events[i].step.Schedule?)
    ensures Enabled(run.states[l].At(g), Schedule(false))
    ensures l < |run.events| && run.events[l] == On(g, Schedule(false)) && !run.states[l].closed && run.states[l].At(g).journal.queue != [] ==>
              var n := run.states[l + 1].At(g);
              !n.parked && (n.drainers != map[] || n.armed != {})
  {
    WakeStaysPending(run, k, l, g);
    RunIsGood(run, l);
    assert ChannelOk(run.states[l].At(g), run.states[l].closed);
    if !run.states[l].closed && run.states[l].At(g).journal.queue != [] {
      UnhaltedScheduleUnparks(run.states[l].At(g));
    }
  }

  // ------------------------------------------------------------ runs that are never halted

  predicate NeverHalts(e: Event) {
    e.On? ==>
      match e.step
      case Schedule(halted) => !halted
      case Pick(_, halted) => !halted
      case Finish(_, halted) => !halted
      case _ => true
  }

  ghost predicate NothingParked(s: State) {
    forall g :: g in s.channels ==> !s.channels[g].parked
  }

  lemma {:induction false} UnhaltedRunsParkNothing(run: Run, k: nat)
    requires IsRun(run) && NothingParked(run.states[0]) && k < |run.states|
    requires forall i :: 0 <= i < |run.events| ==> NeverHalts(run.events[i])
    ensures NothingParked(run.states[k])
  {
    if 0 < k {
      UnhaltedRunsParkNothing(run, k - 1);
      assert NeverHalts(run.events[k - 1]);
    }
  }

  /** Nothing is under way for the group any more: no drainer, no timer, no schedule call. */
  predicate Quiet(c: Channel) {
    c.drainers == map[] && c.armed == {} && c.pending == 0
  }

  /**
    Complete delivery: once an open, never halted outbox has nothing under way for a group,
    all its results were removed in the order they came and each was reported to the executor.
   */
  lemma QuietMeansDelivered(capacity: nat, high: nat, low: nat, run: Run, k: nat, g: Uuid)
    requires Starts(run, capacity, high, low) && k < |run.states|
    requires forall i :: 0 <= i < |run.events| ==> NeverHalts(run.events[i])
    requires !run.states[k].closed && Quiet(run.states[k].At(g))
    ensures var j := run.states[k].At(g).journal;
            && j.removed == j.enqueued
            && (forall i :: 0 <= i < |j.enqueued| ==> Reported(j, j.enqueued[i]))
  {
    RunIsGood(run, k);
    UnhaltedRunsParkNothing(run, k);
    assert ChannelOk(run.states[k].At(g), false);
    QuietChannelDelivered(run.states[k].At(g));
  }

  ghost predicate Reported(j: Journal, item: Item) {
    exists n :: 0 <= n < |j.notified| && j.notified[n].0 == item
  }

  lemma QuietChannelDelivered(c: Channel)
    requires ChannelOk(c, false) && Quiet(c) && !c.parked
    ensures var j := c.journal;
            && j.removed == j.enqueued
            && (forall i :: 0 <= i < |j.enqueued| ==> Reported(j, j.enqueued[i]))
  {
    var j := c.journal;
    assert j.queue == [];
    forall i | 0 <= i < |j.enqueued|
      ensures Reported(j, j.enqueued[i])
    {
      assert Informed(c, i);
      var n :| 0 <= n < |j.notified| && j.notified[n].0.index == i;
      assert Gone(j, j.notified[n].0);
      assert j.notified[n].0 == j.enqueued[i];
    }
  }

  // ------------------------------------------------------------ runs with patient timers

  ghost predicate UnhurriedEvent(s: State, e: Event) {
    e.On? ==> Unhurried(s.At(e.group), e.step)
  }

  ghost predicate Patient(run: Run)
    requires IsRun(run)
  {
    forall k {:trigger run.events[k]} :: 0 <= k < |run.events| ==> UnhurriedEvent(run.states[k], run.events[k])
  }

  ghost predicate AllSerial(s: State) {
    forall g :: g in s.channels ==> Serial(s.channels[g], s.closed)
  }

  lemma CloseStaysSerial(c: Channel, closed: bool)
    requires Serial(c, closed)
    ensures Serial(CloseOne(c), true) && Serial(WakeOne(c), closed)
  {
    forall d | d in c.drainers ensures SerialPhase(CloseOne(c), true, d) && SerialPhase(WakeOne(c), closed, d) {
      assert SerialPhase(c, closed, d);
    }
  }

  lemma AllSerialPreserved(s: State, e: Event)
    requires AllSerial(s) && Allowed(s, e) && UnhurriedEvent(s, e)
    ensures AllSerial(Apply(s, e))
  {
    var n := Apply(s, e);
    forall g | g in n.channels ensures Serial(n.channels[g], n.closed) {
      assert Serial(s.At(g), s.closed);
      if e.On? && e.group == g {
        SerialPreserved(s.At(g), s.closed, e.step);
      } else {
        CloseStaysSerial(s.At(g), s.closed);
      }
    }
  }

  lemma {:induction false} PatientRunsAreSerial(run: Run, k: nat)
    requires IsRun(run) && AllSerial(run.states[0]) && Patient(run) && k < |run.states|
    ensures AllSerial(run.states[k])
  {
    if 0 < k {
      PatientRunsAreSerial(run, k - 1);
      AllSerialPreserved(run.states[k - 1], run.events[k - 1]);
    }
  }

  /**
    When no retry timer fires before the drainer that armed it has left, a group has at most
    one drainer, the object's set of sending groups is exact, and every removed result is
    reported exactly once and in order.
   */
  lemma PatientRunsReportOnce(capacity: nat, high: nat, low: nat, run: Run, k: nat, g: Uuid)
    requires Starts(run, capacity, high, low) && Patient(run) && k < |run.states|
    ensures var c := run.states[k].At(g);
            && |c.drainers| <= 1
            && (c.sending <==> exists d :: d in c.drainers && !c.drainers[d].Submitted?)
            && |c.journal.notified| <= |c.journal.removed| == |c.journal.verdicts|
            && (forall i :: 0 <= i < |c.journal.notified| ==>
                  c.journal.notified[i] == (c.journal.removed[i], c.journal.verdicts[i]))
  {
    PatientRunsAreSerial(run, k);
    var s := run.states[k];
    var c := s.At(g);
    assert Serial(c, s.closed);
    if c.drainers != map[] {
      var d :| d in c.drainers;
      assert SerialPhase(c, s.closed, d);
      assert c.drainers.Keys == {d};
    }
  }

  // ------------------------------------------------------------ reported more than once

  function Told(notified: seq<(Item, Verdict)>, i: nat): nat {
    if notified == [] then 0
    else Told(notified[..|notified| - 1], i) + if notified[|notified| - 1].0.index == i then 1 else 0
  }

  function Telling(drainers: map<nat, Phase>, i: nat): set<nat> {
    set d | d in drainers && drainers[d].Notifying? && drainers[d].item.index == i
  }

  /** How often result number `i` of the group was, or is being, reported to the executor. */
  function Reports(c: Channel, i: nat): nat {
    Told(c.journal.notified, i) + |Telling(c.drainers, i)|
  }

  /** The send of result number `i` is settled. */
  predicate Settles(c: Channel, step: Step, i: nat) {
    step.Settle? && step.drainer in c.drainers && c.drainers[step.drainer].Sending? && c.drainers[step.drainer].item.index == i
  }

  /** The send of result number `i` is settled and finds the result no longer at the head of its queue. */
  predicate Stale(c: Channel, step: Step, i: nat) {
    Settles(c, step, i) && !Removes(c.journal, c.drainers[step.drainer].item)
  }

  lemma ReportsStep(c: Channel, closed: bool, step: Step, i: nat)
    requires Enabled(c, step) && FreshIds(c)
    ensures Reports(Next(c, closed, step), i) == Reports(c, i) + if Settles(c, step, i) then 1 else 0
  {
    var n := Next(c, closed, step);
    match step
    case Settle(d, verdict) =>
      SettleTells(c.drainers, d, verdict, i);
    case Notify(d) =>
      var (item, verdict) := (c.drainers[d].item, c.drainers[d].verdict);
      assert n.journal.notified[..|n.journal.notified| - 1] == c.journal.notified;
      assert Telling(n.drainers, i) == Telling(c.drainers, i) - {d};
      assert d in Telling(c.drainers, i) <==> item.index == i;
    case _ =>
      assert Telling(n.drainers, i) == Telling(c.drainers, i);
  }

  lemma SettleTells(drainers: map<nat, Phase>, d: nat, verdict: Verdict, i: nat)
    requires d in drainers && drainers[d].Sending?
    ensures var item := drainers[d].item;
            |Telling(drainers[d := Notifying(item, verdict)], i)| == |Telling(drainers, i)| + if item.index == i then 1 else 0
  {
    var next := drainers[d := Notifying(drainers[d].item, verdict)];
    assert Telling(next, i) == if drainers[d].item.index == i then Telling(drainers, i) + {d} else Telling(drainers, i);
    assert d !in Telling(drainers, i);
  }

  /** How many sends of the result were settled before state `k` with the result already gone. */
  function StaleSettles(run: Run, k: nat, g: Uuid, i: nat): nat
    requires k <= |run.events| < |run.states|
  {
    if k == 0 then 0 else StaleSettles(run, k - 1, g, i) + if StaleAt(run, k - 1, g, i) then 1 else 0
  }

  predicate StaleAt(run: Run, k: nat, g: Uuid, i: nat)
    requires k < |run.events| < |run.states|
  {
    run.events[k].On? && run.events[k].group == g && Stale(run.states[k].At(g), run.events[k].step, i)
  }

  lemma {:induction false} StaleSettlesIff(run: Run, k: nat, g: Uuid, i: nat)
    requires k <= |run.events| < |run.states|
    ensures 0 < StaleSettles(run, k, g, i) <==> exists j :: 0 <= j < k && StaleAt(run, j, g, i)
  {
    if k > 0 {
      StaleSettlesIff(run, k - 1, g, i);
    }
  }

  function Once(c: Channel, i: nat): nat {
    if i < |c.journal.removed| then 1 else 0
  }

  /** A settled send removes the result, which counts once, or finds it gone. */
  lemma ReportsOnceOrStale(c: Channel, closed: bool, step: Step, i: nat)
    requires Fifo(c) && FreshIds(c) && Enabled(c, step)
    ensures Reports(Next(c, closed, step), i) - Once(Next(c, closed, step), i)
            == Reports(c, i) - Once(c, i) + if Stale(c, step, i) then 1 else 0
    ensures Stale(c, step, i) ==> Once(c, i) == 1
  {
    ReportsStep(c, closed, step, i);
    if step.Settle? {
      assert FifoPhase(c.journal, c.drainers[step.drainer]);
      HeadOrGone(c.journal, c.drainers[step.drainer].item);
    }
    if |Next(c, closed, step).journal.removed| != |c.journal.removed| {
      OnlySettleRemoves(c, closed, step);
    }
  }

  lemma ReportsEventStep(s: State, e: Event, g: Uuid, i: nat)
    requires Good(s) && Allowed(s, e)
    ensures var stale := e.On? && e.group == g && Stale(s.At(g), e.step, i);
            && Reports(Apply(s, e).At(g), i) - Once(Apply(s, e).At(g), i)
               == Reports(s.At(g), i) - Once(s.At(g), i) + (if stale then 1 else 0)
            && (stale ==> Once(s.At(g), i) == 1)
  {
    assert ChannelOk(s.At(g), s.closed);
    if e.On? && e.group == g {
      ReportsOnceOrStale(s.At(g), s.closed, e.step, i);
    }
  }

  /** Every report beyond the first of a removed result comes from a send that found it gone. */
  lemma {:induction false} ReportsAreCounted(capacity: nat, high: nat, low: nat, run: Run, k: nat, g: Uuid, i: nat)
    requires Starts(run, capacity, high, low) && k < |run.states|
    ensures Reports(run.states[k].At(g), i) == Once(run.states[k].At(g), i) + StaleSettles(run, k, g, i)
    ensures 0 < StaleSettles(run, k, g, i) ==> Once(run.states[k].At(g), i) == 1
  {
    if k > 0 {
      ReportsAreCounted(capacity, high, low, run, k - 1, g, i);
      RunIsGood(run, k - 1);
      var s, e := run.states[k - 1], run.events[k - 1];
      ReportsEventStep(s, e, g, i);
      RemovedGrows(s, e, g);
    }
  }

  lemma RemovedGrows(s: State, e: Event, g: Uuid)
    requires Good(s) && Allowed(s, e)
    ensures s.At(g).journal.removed <= Apply(s, e).At(g).journal.removed
  {
    assert ChannelOk(s.At(g), s.closed);
    if e.On? && e.group == g {
      FifoJournalPreserved(s.At(g), s.closed, e.step);
    }
  }

  /**
    In every run: a result is reported, or being reported, more than once exactly when some send of
    it was settled with the result already gone; how often is one more than the number of such sends.
   */
  lemma ReportedTwiceIff(capacity: nat, high: nat, low: nat, run: Run, k: nat, g: Uuid, i: nat)
    requires Starts(run, capacity, high, low) && k < |run.states|
    ensures var c := run.states[k].At(g);
            && (i < |c.journal.removed| ==> Reports(c, i) == 1 + StaleSettles(run, k, g, i))
            && (i >= |c.journal.removed| ==> Reports(c, i) == 0)
            && (1 < Reports(c, i) <==> exists j :: 0 <= j < k && StaleAt(run, j, g, i))
            && ((forall d :: d in c.drainers ==> !c.drainers[d].Notifying?) ==> Reports(c, i) == Told(c.journal.notified, i))
  {
    ReportsAreCounted(capacity, high, low, run, k, g, i);
    StaleSettlesIff(run, k, g, i);
    if forall d :: d in run.states[k].At(g).drainers ==> !run.states[k].At(g).drainers[d].Notifying? {
      assert Telling(run.states[k].At(g).drainers, i) == {};
    }
  }

  // ------------------------------------------------------------ sending without a mark

  predicate PastStart(c: Channel, d: nat) {
    d in c.drainers && !c.drainers[d].Submitted?
  }

  /** A drainer of the open outbox starts, which marks the group as sending. */
  predicate MarksSending(run: Run, i: nat, g: Uuid)
    requires i < |run.events| < |run.states|
  {
    run.events[i].On? && run.events[i].group == g && run.events[i].step.Start? && !run.states[i].closed
  }

  /** Another drainer of the group leaves while `d` is past its start. */
  predicate LeavesBehind(run: Run, i: nat, g: Uuid, d: nat)
    requires i < |run.events| < |run.states|
  {
    && run.events[i].On? && run.events[i].group == g
    && run.events[i].step.Finish? && run.events[i].step.drainer != d
    && PastStart(run.states[i].At(g), d)
  }

  /** Another drainer left beside `d`, and no drainer has started since. */
  ghost predicate Unmarked(run: Run, k: nat, g: Uuid, d: nat)
    requires k <= |run.events| < |run.states|
  {
    exists i :: 0 <= i < k && LeavesBehind(run, i, g, d) && forall l :: i < l < k ==> !MarksSending(run, l, g)
  }

  lemma SendingStep(s: State, e: Event, g: Uuid, d: nat)
    requires Allowed(s, e) && PastStart(Apply(s, e).At(g), d)
    ensures var started := e.On? && e.group == g && e.step.Start? && !s.closed;
            var left := e.On? && e.group == g && e.step.Finish?;
            && Apply(s, e).At(g).sending == (if started then true else if left then false else s.At(g).sending)
            && (!started ==> PastStart(s.At(g), d))
            && (left ==> e.step.drainer != d)
  {
    if e.On? && e.group == g {
      SendingGroupStep(s.At(g), s.closed, e.step, d);
    }
  }

  lemma SendingGroupStep(c: Channel, closed: bool, step: Step, d: nat)
    requires Enabled(c, step) && PastStart(Next(c, closed, step), d)
    ensures var n := Next(c, closed, step);
            && n.sending == (if step.Start? && !closed then true else if step.Finish? then false else c.sending)
            && (!(step.Start? && !closed) ==> PastStart(c, d))
            && (step.Finish? ==> step.drainer != d)
  {
  }

  /**
    In every run, while a drainer is past its start the group does not count as sending exactly when
    another drainer of the group has left beside it and none has started since.
   */
  lemma {:induction false} SendingUnmarkedIff(run: Run, k: nat, g: Uuid, d: nat)
    requires IsRun(run) && run.states[0].channels == map[] && k < |run.states|
    requires PastStart(run.states[k].At(g), d)
    ensures !run.states[k].At(g).sending <==> Unmarked(run, k, g, d)
  {
    if k > 0 {
      var s, e := run.states[k - 1], run.events[k - 1];
      SendingStep(s, e, g, d);
      if MarksSending(run, k - 1, g) {
      } else if LeavesBehind(run, k - 1, g, d) {
      } else {
        SendingUnmarkedIff(run, k - 1, g, d);
        UnmarkedStays(run, k - 1, g, d);
      }
    }
  }

  lemma UnmarkedStays(run: Run, k: nat, g: Uuid, d: nat)
    requires k < |run.events| < |run.states| && !MarksSending(run, k, g) && !LeavesBehind(run, k, g, d)
    ensures Unmarked(run, k + 1, g, d) <==> Unmarked(run, k, g, d)
  {
    if Unmarked(run, k, g, d) {
      var i :| 0 <= i < k && LeavesBehind(run, i, g, d) && forall l :: i < l < k ==> !MarksSending(run, l, g);
      assert LeavesBehind(run, i, g, d) && forall l :: i < l < k + 1 ==> !MarksSending(run, l, g);
    }
    if Unmarked(run, k + 1, g, d) {
      var i :| 0 <= i < k + 1 && LeavesBehind(run, i, g, d) && forall l :: i < l < k + 1 ==> !MarksSending(run, l, g);
      assert i < k && LeavesBehind(run, i, g, d);
    }
  }

  // ------------------------------------------------------------ backlog events

  /** The report of a rising edge is dropped, because the latch counts as reported already. */
  predicate Silent(s: State, e: Event) {
    e.EmitBacklog? && s.slots.reported
  }

  /** How many reports were dropped before state `k`. */
  function Silenced(run: Run, k: nat): nat
    requires k <= |run.events| < |run.states|
  {
    if k == 0 then 0
    else Silenced(run, k - 1) + if Silent(run.states[k - 1], run.events[k - 1]) then 1 else 0
  }

  lemma {:induction false} SilencedIff(run: Run, k: nat)
    requires k <= |run.events| < |run.states|
    ensures Silenced(run, k) == 0 <==> forall i :: 0 <= i < k ==> !Silent(run.states[i], run.events[i])
  {
    if k > 0 {
      SilencedIff(run, k - 1);
    }
  }

  /** Every rising edge is reported, still to be reported, or was dropped. */
  lemma EdgeAccountedStep(s: State, e: Event, lost: nat)
    requires Hysteresis(s.slots) && Allowed(s, e)
    requires s.slots.rises == s.slots.events + s.slots.unemitted + lost
    ensures var t := Apply(s, e).slots;
            t.rises == t.events + t.unemitted + lost + if Silent(s, e) then 1 else 0
  {
    if e.On? {
      EdgeAccountedByGroup(s.slots, s.At(e.group), e.step);
    }
  }

  lemma EdgeAccountedByGroup(s: Slots, c: Channel, step: Step)
    requires Hysteresis(s) && Enabled(c, step)
    ensures var t := SlotsAfter(s, c, step);
            t.rises - t.events - t.unemitted == s.rises - s.events - s.unemitted
  {
  }

  lemma {:induction false} EveryEdgeAccounted(capacity: nat, high: nat, low: nat, run: Run, k: nat)
    requires Starts(run, capacity, high, low) && k < |run.states|
    ensures var t := run.states[k].slots;
            t.rises == t.events + t.unemitted + Silenced(run, k)
  {
    if k > 0 {
      EveryEdgeAccounted(capacity, high, low, run, k - 1);
      RunIsGood(run, k - 1);
      EdgeAccountedStep(run.states[k - 1], run.events[k - 1], Silenced(run, k - 1));
    }
  }

  /**
    In every run each silent report loses one event, so backlog events and rising edges of the
    latch agree, up to the reports under way, exactly while no report was silent.
   */
  lemma BacklogEventsAreRisingEdgesIff(capacity: nat, high: nat, low: nat, run: Run, k: nat)
    requires Starts(run, capacity, high, low) && k < |run.states|
    ensures var t := run.states[k].slots;
            && t.rises - t.events - t.unemitted == Silenced(run, k)
            && (t.rises == t.events + t.unemitted
                <==> forall i :: 0 <= i < k ==> !Silent(run.states[i], run.events[i]))
  {
    EveryEdgeAccounted(capacity, high, low, run, k);
    SilencedIff(run, k);
  }

  /** The latch does not fall while the report of its rising edge is under way. */
  ghost predicate ReportsBeforeFall(run: Run)
    requires IsRun(run)
  {
    forall k {:trigger run.events[k]} :: 0 <= k < |run.events| && 0 < run.states[k].slots.unemitted && run.states[k].slots.latched ==>
      run.states[k + 1].slots.latched
  }

  /** Each rising edge is reported before anything else happens to the counters. */
  ghost predicate Prompt(run: Run)
    requires IsRun(run)
  {
    forall k {:trigger run.events[k]} :: 0 <= k < |run.events| && 0 < run.states[k].slots.unemitted ==> run.events[k].EmitBacklog?
  }

  lemma PromptReportsBeforeFall(run: Run)
    requires IsRun(run) && Prompt(run)
    ensures ReportsBeforeFall(run)
  {
    forall k | 0 <= k < |run.events| && 0 < run.states[k].slots.unemitted && run.states[k].slots.latched
      ensures run.states[k + 1].slots.latched
    {
      assert run.events[k].EmitBacklog?;
    }
  }

  ghost predicate EveryEdgeReported(s: Slots) {
    && s.rises == s.events + s.unemitted
    && s.unemitted <= 1
    && (s.reported <==> s.latched && s.unemitted == 0)
    && (s.unemitted == 1 ==> s.latched)
  }

  lemma EdgeReportedPreserved(s: State, e: Event)
    requires Good(s) && Allowed(s, e) && EveryEdgeReported(s.slots)
    requires 0 < s.slots.unemitted && s.slots.latched ==> Apply(s, e).slots.latched
    ensures EveryEdgeReported(Apply(s, e).slots)
  {
    if e.On? {
      EdgeReportedByGroup(s.slots, s.At(e.group), e.step);
    }
  }

  lemma EdgeReportedByGroup(s: Slots, c: Channel, step: Step)
    requires Hysteresis(s) && EveryEdgeReported(s) && Enabled(c, step)
    requires 0 < s.unemitted && s.latched ==> SlotsAfter(s, c, step).latched
    ensures EveryEdgeReported(SlotsAfter(s, c, step))
  {
  }

  lemma UnfallenStep(capacity: nat, high: nat, low: nat, run: Run, k: nat) returns (e: Event)
    requires Starts(run, capacity, high, low) && ReportsBeforeFall(run) && k < |run.events|
    ensures Good(run.states[k]) && Allowed(run.states[k], e) && run.states[k + 1] == Apply(run.states[k], e)
    ensures 0 < run.states[k].slots.unemitted && run.states[k].slots.latched ==> run.states[k + 1].slots.latched
  {
    RunIsGood(run, k);
    e := run.events[k];
  }

  /**
    It is enough that the latch never falls while a report is under way, as when each reservation
    and enqueue is atomic: then every rising edge is reported once, at most one report is under
    way, and the latch counts as reported exactly when it is on with its report made.
   */
  lemma {:induction false} BacklogEventsAreRisingEdges(capacity: nat, high: nat, low: nat, run: Run, k: nat)
    requires Starts(run, capacity, high, low) && ReportsBeforeFall(run) && k < |run.states|
    ensures EveryEdgeReported(run.states[k].slots)
  {
    if 0 < k {
      BacklogEventsAreRisingEdges(capacity, high, low, run, k - 1);
      var e := UnfallenStep(capacity, high, low, run, k - 1);
      EdgeReportedPreserved(run.states[k - 1], e);
    }
  }

  ghost predicate Reaches(s: State, t: State) {
    exists run :: IsRun(run) && run.states[0] == s && run.states[|run.events|] == t
  }

  lemma ReachesItself(s: State)
    ensures Reaches(s, s)
  {
    assert IsRun(Run([s], []));
  }

  lemma ReachesNext(s: State, t: State, e: Event, u: State)
    requires Reaches(s, t) && Allowed(t, e) && Apply(t, e) == u
    ensures Reaches(s, u)
  {
    var run :| IsRun(run) && run.states[0] == s && run.states[|run.events|] == t;
    var _ := Longer(run, e);
  }

  lemma ReachesOn(s: State, t: State, u: State)
    requires Reaches(s, t) && Reaches(t, u)
    ensures Reaches(s, u)
  {
    var a :| IsRun(a) && a.states[0] == s && a.states[|a.events|] == t;
    var b :| IsRun(b) && b.states[0] == t && b.states[|b.events|] == u;
    var _ := Joined(a, b, |b.events|, 0, 0);
  }

  // ------------------------------------------------------------ one drainer among other threads

  predicate OfDrainer(step: Step, d: nat) {
    match step
    case Start(e) => e == d
    case Pick(e, _) => e == d
    case Settle(e, _) => e == d
    case Notify(e) => e == d
    case Defer(e) => e == d
    case GiveUp(e) => e == d
    case Finish(e, _) => e == d
    case _ => false
  }

  /** The steps among the events that drainer `d` of the group takes. */
  function Own(events: seq<Event>, g: Uuid, d: nat): seq<Step> {
    if events == [] then []
    else
      var e := events[|events| - 1];
      Own(events[..|events| - 1], g, d) + if e.On? && e.group == g && OfDrainer(e.step, d) then [e.step] else []
  }

  /** Some run leads from `s` to `t` in which the drainer takes exactly these steps, and other threads any others. */
  ghost predicate Through(s: State, t: State, g: Uuid, d: nat, steps: seq<Step>) {
    exists run :: IsRun(run) && run.states[0] == s && run.states[|run.events|] == t && Own(run.events, g, d) == steps
  }

  lemma ThroughNothing(s: State, g: Uuid, d: nat)
    ensures Through(s, s, g, d, [])
  {
    assert IsRun(Run([s], []));
  }

  lemma ThroughOwn(s: State, t: State, g: Uuid, d: nat, steps: seq<Step>, step: Step)
    requires Through(s, t, g, d, steps) && Allowed(t, On(g, step)) && OfDrainer(step, d)
    ensures Through(s, Apply(t, On(g, step)), g, d, steps + [step])
  {
    var run :| IsRun(run) && run.states[0] == s && run.states[|run.events|] == t && Own(run.events, g, d) == steps;
    var longer := Longer(run, On(g, step));
    assert longer.events[..|longer.events| - 1] == run.events;
  }

  lemma Longer(run: Run, e: Event) returns (longer: Run)
    requires IsRun(run) && Allowed(run.states[|run.events|], e)
    ensures IsRun(longer) && longer.events == run.events + [e]
    ensures longer.states == run.states + [Apply(run.states[|run.events|], e)]
  {
    longer := Run(run.states + [Apply(run.states[|run.events|], e)], run.events + [e]);
    forall k | 0 <= k < |longer.events|
      ensures Allowed(longer.states[k], longer.events[k])
              && longer.states[k + 1] == Apply(longer.states[k], longer.events[k])
    {
      if k < |run.events| {
        assert longer.events[k] == run.events[k];
      }
    }
  }

  /** Other threads act, then the drainer goes on where it was. */
  lemma ThroughOthers(s: State, t: State, u: State, g: Uuid, d: nat, steps: seq<Step>, more: seq<Step>)
    requires Through(s, t, g, d, steps) && Through(t, u, g, d, more)
    ensures Through(s, u, g, d, steps + more)
  {
    var a :| IsRun(a) && a.states[0] == s && a.states[|a.events|] == t && Own(a.events, g, d) == steps;
    var b :| IsRun(b) && b.states[0] == t && b.states[|b.events|] == u && Own(b.events, g, d) == more;
    var c := Joined(a, b, |b.events|, g, d);
    assert b.events[..|b.events|] == b.events;
  }

  lemma {:induction false} Joined(a: Run, b: Run, n: nat, g: Uuid, d: nat) returns (c: Run)
    requires IsRun(a) && IsRun(b) && a.states[|a.events|] == b.states[0] && n <= |b.events|
    ensures IsRun(c) && c.states[0] == a.states[0] && c.states[|c.events|] == b.states[n]
    ensures Own(c.events, g, d) == Own(a.events, g, d) + Own(b.events[..n], g, d)
  {
    if n == 0 {
      c := a;
    } else {
      var shorter := Joined(a, b, n - 1, g, d);
      c := Longer(shorter, b.events[n - 1]);
      assert c.events[..|c.events| - 1] == shorter.events;
      assert b.events[..n][..n - 1] == b.events[..n - 1];
    }
  }

  /** Whatever one drainer does among the others, the invariant of all reachable states carries over. */
  lemma ThroughKeepsGood(s: State, t: State, g: Uuid, d: nat, steps: seq<Step>)
    requires Good(s) && Through(s, t, g, d, steps)
    ensures Good(t)
  {
    var run :| IsRun(run) && run.states[0] == s && run.states[|run.events|] == t && Own(run.events, g, d) == steps;
    RunIsGood(run, |run.events|);
  }

  // ------------------------------------------------------------ what the wait of close sees

  /** No group counts as sending. */
  predicate NoneSending(s: State) {
    forall g :: g in s.channels ==> !s.channels[g].sending
  }

  /** With patient timers, once no group counts as sending no drainer is past its start: no request is out. */
  lemma NoneSendingMeansIdle(capacity: nat, high: nat, low: nat, run: Run, k: nat)
    requires Starts(run, capacity, high, low) && Patient(run) && k < |run.states| && NoneSending(run.states[k])
    ensures forall g, d :: !PastStart(run.states[k].At(g), d)
  {
    forall g, d ensures !PastStart(run.states[k].At(g), d) {
      PatientRunsReportOnce(capacity, high, low, run, k, g);
    }
  }

  /** Not atomic: a report that comes after the falling edge silences the next rising edge for good. */
  lemma LateReportLosesAnEvent()
    ensures exists s :: Reaches(Initial(2, 2, 1), s) && s.slots.rises == 2 && s.slots.events == 1 && s.slots.unemitted == 0
  {
    var s := Initial(2, 2, 1);
    var s1 := s.(slots := Slots(2, 2, 1, 1, 0, false, false, 0, 0, 0));
    var s2 := s.(slots := Slots(2, 2, 1, 2, 0, true, false, 1, 1, 0));
    var s3 := s.(slots := Slots(2, 2, 1, 1, 0, true, false, 1, 1, 0));
    var s4 := s.(slots := Slots(2, 2, 1, 0, 0, false, false, 1, 1, 0));
    var s5 := s.(slots := Slots(2, 2, 1, 0, 0, false, true, 0, 1, 1));
    var s6 := s.(slots := Slots(2, 2, 1, 1, 0, false, true, 0, 1, 1));
    var s7 := s.(slots := Slots(2, 2, 1, 2, 0, true, true, 1, 2, 1));
    var s8 := s.(slots := Slots(2, 2, 1, 2, 0, true, true, 0, 2, 1));
    ReachesItself(s);
    ReachesNext(s, s, ReserveSlot, s1);
    ReachesNext(s, s1, ReserveSlot, s2);
    ReachesNext(s, s2, ReleaseSlot, s3);
    ReachesNext(s, s3, ReleaseSlot, s4);
    ReachesNext(s, s4, EmitBacklog, s5);
    ReachesNext(s, s5, ReserveSlot, s6);
    ReachesNext(s, s6, ReserveSlot, s7);
    ReachesNext(s, s7, EmitBacklog, s8);
  }

  // ------------------------------------------------------------ a hurried timer

  ghost predicate Shows(s: State, g: Uuid, c: Channel) {
    Reaches(Initial(1, 1, 0), s) && !s.closed && s.At(g) == c
  }

  lemma Move(s: State, g: Uuid, c: Channel, step: Step, next: Channel) returns (n: State)
    requires Shows(s, g, c) && Allowed(s, On(g, step)) && Next(c, false, step) == next
    ensures Shows(n, g, next)
  {
    n := Apply(s, On(g, step));
    ReachesNext(Initial(1, 1, 0), s, On(g, step), n);
  }

  lemma SlotReserved(g: Uuid) returns (s: State)
    ensures Shows(s, g, FRESH) && s.slots.reserved == 1
  {
    var s0 := Initial(1, 1, 0);
    s := s0.(slots := Slots(1, 1, 0, 1, 0, true, false, 1, 1, 0));
    ReachesItself(s0);
    ReachesNext(s0, s0, ReserveSlot, s);
  }

  /** One result is queued and being sent for the first time. */
  ghost function FirstSend(i: Item): Channel {
    Channel(Journal([i], [i], [], [], [i], []), true, true, None, map[0 := Sending(i)], 0, {}, 0, false, 1)
  }

  lemma FirstSendHappens(e: Envelope) returns (s: State)
    ensures Shows(s, e.group, FirstSend(Item(e, 0)))
  {
    var g := e.group;
    var i := Item(e, 0);
    var j := Journal([i], [i], [], [], [], []);
    var c1 := Channel(j, false, false, None, map[], 0, {}, 1, false, 0);
    var c2 := Channel(j, true, false, None, map[0 := Submitted], 0, {}, 0, false, 1);
    var c3 := Channel(j, true, true, None, map[0 := Ready], 0, {}, 0, false, 1);
    s := SlotReserved(g);
    s := Move(s, g, FRESH, Enqueue(e), c1);
    s := Move(s, g, c1, Schedule(false), c2);
    s := Move(s, g, c2, Start(0), c3);
    s := Move(s, g, c3, Pick(0, false), FirstSend(i));
  }

  /** The group has a live drainer but no longer counts as active, and a schedule call is pending. */
  ghost function Dropped(i: Item): Channel {
    Channel(Journal([i], [i], [], [], [i], []), false, false, None, map[2 := Submitted], 2, {}, 1, false, 3)
  }

  /** The timer fires before the deferring drainer has left, which then drops the group of the next drainer. */
  lemma HurriedTimerDropsActive(e: Envelope) returns (s: State)
    ensures Shows(s, e.group, Dropped(Item(e, 0)))
  {
    var g := e.group;
    var i := Item(e, 0);
    var j := Journal([i], [i], [], [], [i], []);
    var c1 := Channel(j, false, true, Some(1), map[0 := Deferred], 0, {1}, 0, false, 2);
    var c2 := Channel(j, false, true, None, map[0 := Deferred], 0, {}, 1, false, 2);
    var c3 := Channel(j, true, true, None, map[0 := Deferred, 2 := Submitted], 2, {}, 0, false, 3);
    s := FirstSendHappens(e);
    s := Move(s, g, FirstSend(i), Defer(0), c1);
    s := Move(s, g, c1, Fire(1), c2);
    s := Move(s, g, c2, Schedule(false), c3);
    s := Move(s, g, c3, Finish(0, false), Dropped(i));
  }

  /** Two drainers send the same result. */
  ghost function Twice(i: Item): Channel {
    Channel(Journal([i], [i], [], [], [i, i, i], []),
            true, true, None, map[2 := Sending(i), 3 := Sending(i)], 3, {}, 0, false, 4)
  }

  lemma HurriedTimerStartsTwo(e: Envelope) returns (s: State)
    ensures Shows(s, e.group, Twice(Item(e, 0)))
  {
    var g := e.group;
    var i := Item(e, 0);
    var j := Journal([i], [i], [], [], [i], []);
    var k := Journal([i], [i], [], [], [i, i], []);
    var c1 := Channel(j, true, false, None, map[2 := Submitted, 3 := Submitted], 3, {}, 0, false, 4);
    var c2 := Channel(j, true, true, None, map[2 := Ready, 3 := Submitted], 3, {}, 0, false, 4);
    var c3 := Channel(j, true, true, None, map[2 := Ready, 3 := Ready], 3, {}, 0, false, 4);
    var c4 := Channel(k, true, true, None, map[2 := Sending(i), 3 := Ready], 3, {}, 0, false, 4);
    s := HurriedTimerDropsActive(e);
    s := Move(s, g, Dropped(i), Schedule(false), c1);
    s := Move(s, g, c1, Start(2), c2);
    s := Move(s, g, c2, Start(3), c3);
    s := Move(s, g, c3, Pick(2, false), c4);
    s := Move(s, g, c4, Pick(3, false), Twice(i));
  }

  /**
    Then one drainer can leave while the other is still sending, so that no group counts as
    sending, and the one result is reported to the executor twice.
   */
  lemma HurriedTimerReportsTwice(e: Envelope)
    ensures exists s :: Reaches(Initial(1, 1, 0), s)
                        && !s.At(e.group).sending && s.At(e.group).drainers == map[3 := Sending(Item(e, 0))]
    ensures exists s :: Reaches(Initial(1, 1, 0), s)
                        && s.At(e.group).journal.enqueued == [Item(e, 0)]
                        && s.At(e.group).journal.notified == [(Item(e, 0), Acked([])), (Item(e, 0), Acked([]))]
  {
    var g := e.group;
    var i := Item(e, 0);
    var v := Acked([]);
    var j := Journal([], [i], [i], [v], [i, i, i], []);
    var k := j.(notified := [(i, v)]);
    var c1 := Channel(j, true, true, None, map[2 := Notifying(i, v), 3 := Sending(i)], 3, {}, 0, false, 4);
    var c2 := Channel(k, true, true, None, map[2 := Ready, 3 := Sending(i)], 3, {}, 0, false, 4);
    var c3 := Channel(k, true, true, None, map[2 := Leaving, 3 := Sending(i)], 3, {}, 0, false, 4);
    var c4 := Channel(k, false, false, None, map[3 := Sending(i)], 3, {}, 0, false, 4);
    var c5 := Channel(k, false, false, None, map[3 := Notifying(i, v)], 3, {}, 0, false, 4);
    var c6 := Channel(k.(notified := [(i, v), (i, v)]), false, false, None, map[3 := Ready], 3, {}, 0, false, 4);
    var s := HurriedTimerStartsTwo(e);
    s := Move(s, g, Twice(i), Settle(2, v), c1);
    s := Move(s, g, c1, Notify(2), c2);
    s := Move(s, g, c2, Pick(2, false), c3);
    s := Move(s, g, c3, Finish(2, false), c4);
    s := Move(s, g, c4, Settle(3, v), c5);
    s := Move(s, g, c5, Notify(3), c6);
  }
}
