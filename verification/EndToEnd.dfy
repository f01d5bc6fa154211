/**
  The executor joined with its outbox, the network and the server: a finished task is queued as an
  envelope, and what a drainer reports is what the executor is told. Nothing is assumed about keys
  or about the order of acknowledgements; both follow from the two machines together.
 */
module EndToEnd {
  import opened Protocol
  import E = Executor
  import X = ExecutorRuns
  import G = ExecutorGuarantees
  import O = ExecutorOwnership
  import D = Delivery
  import B = Outbox
  import T = ExecutionTables

  datatype World = World(exec: E.State, net: D.World)

  datatype Step =
    | Execute(act: E.Step)
    | Report(job: E.Job, result: E.Result)
    | Notify(group: Uuid, drainer: nat, fault: Option<nat>)
    | Network(move: D.Step)

  function Entry(job: E.Job, result: E.Result): B.Event {
    B.On(job.context, B.Enqueue(E.EnvelopeOf(job, result)))
  }

  /** The server has no row of this execution group: a new context id is new to the server as well. */
  ghost predicate Unseen(w: World, id: Uuid) {
    forall n :: 0 <= n < |w.net.db.log| ==> w.net.db.log[n].key.group != id
  }

  ghost predicate Enabled(w: World, step: Step) {
    match step
    case Execute(e) =>
      && !e.Report? && !e.Ack? && !e.Reject? && !e.RepeatAck?
      && E.Enabled(w.exec, e)
      && (e.StartGroup? || e.DispatchManual? ==> Unseen(w, e.context))
    case Report(job, result) => job in w.exec.executing && B.Allowed(w.net.box, Entry(job, result))
    case Notify(g, d, _) => d in w.net.At(g).drainers && w.net.At(g).drainers[d].Notifying?
    case Network(n) =>
      && D.Enabled(w.net, n)
      && (n.Local? && n.event.On? ==> !n.event.step.Enqueue? && !n.event.step.Notify?)
      && (n.Elsewhere? && n.op.AcceptResult? ==> n.op.payload.group !in w.exec.used)
  }

  /** The executor is told of a verdict on an item, whether or not it was told before. */
  ghost function Hear(s: E.State, item: B.Item, verdict: B.Verdict, fault: Option<nat>): E.State {
    var job := E.JobOf(item.envelope);
    var t := s.(results := s.results - {job});
    match verdict
    case Acked(transitions) => E.Acknowledge(t, job, transitions, fault)
    case Refused(_) => E.Refuse(t, job)
  }

  ghost function Next(w: World, step: Step): World
    requires Enabled(w, step)
  {
    match step
    case Execute(e) => w.(exec := E.Next(w.exec, e))
    case Report(job, result) =>
      World(E.ReportJob(w.exec, job), w.net.(box := B.Apply(w.net.box, Entry(job, result))))
    case Notify(g, d, fault) =>
      World(Hear(w.exec, w.net.At(g).drainers[d].item, w.net.At(g).drainers[d].verdict, fault),
            w.net.(box := B.Apply(w.net.box, B.On(g, B.Notify(d)))))
    case Network(n) => w.(net := D.Next(w.net, n))
  }

  datatype Run = Run(states: seq<World>, steps: seq<Step>)

  ghost predicate IsRun(run: Run) {
    && |run.states| == |run.steps| + 1
    && (forall k {:trigger run.steps[k]} :: 0 <= k < |run.steps| ==>
          Enabled(run.states[k], run.steps[k]) && run.states[k + 1] == Next(run.states[k], run.steps[k]))
  }

  /** No retry timer fires before the drainer that armed it has left. */
  ghost predicate Unhurried(w: World, step: Step) {
    step.Network? && step.move.Local? ==> B.UnhurriedEvent(w.net.box, step.move.event)
  }

  ghost predicate Begins(w: World) {
    && w.exec == E.Initial(w.exec.capacity)
    && T.Pristine(w.net.db) && w.net.replies == {}
    && w.net.box.channels == map[] && B.Good(w.net.box)
  }

  ghost predicate IsPatientRun(run: Run) {
    && IsRun(run)
    && (forall k {:trigger run.steps[k]} :: 0 <= k < |run.steps| ==> Unhurried(run.states[k], run.steps[k]))
  }

  ghost predicate Starts(run: Run) {
    IsPatientRun(run) && Begins(run.states[0])
  }

  // ------------------------------------------------------------ a step of each part

  const IDLE: D.Step := D.Elsewhere(T.SweepRows({}, 0))

  function ExecStep(w: World, step: Step): E.Step {
    match step
    case Execute(act) => act
    case Report(job, _) => E.Report(job)
    case Notify(g, d, fault) =>
      if d in w.net.At(g).drainers && w.net.At(g).drainers[d].Notifying? then
        HearStep(w.net.At(g).drainers[d].item, w.net.At(g).drainers[d].verdict, fault)
      else
        E.OutboxMoves(w.exec.queued, w.exec.closed)
    case Network(_) => E.OutboxMoves(w.exec.queued, w.exec.closed)
  }

  function HearStep(item: B.Item, verdict: B.Verdict, fault: Option<nat>): E.Step {
    match verdict
    case Acked(transitions) => E.Ack(E.JobOf(item.envelope), transitions, fault)
    case Refused(_) => E.Reject(E.JobOf(item.envelope))
  }

  function NetStep(step: Step): D.Step {
    match step
    case Execute(_) => IDLE
    case Report(job, result) => D.Local(Entry(job, result))
    case Notify(g, d, _) => D.Local(B.On(g, B.Notify(d)))
    case Network(n) => n
  }

  lemma IdleDoesNothing(net: D.World)
    ensures D.Enabled(net, IDLE) && D.Next(net, IDLE) == net
  {
    assert T.ResetRows(net.db.manuals, {}, 0) == net.db.manuals;
  }

  lemma ExecMoves(w: World, step: Step)
    requires Enabled(w, step)
    ensures Next(w, step).exec == E.Next(w.exec, ExecStep(w, step))
  {
  }

  lemma NetMoves(w: World, step: Step)
    requires Enabled(w, step) && D.Enabled(w.net, NetStep(step))
    ensures Next(w, step).net == D.Next(w.net, NetStep(step))
  {
    if step.Execute? {
      IdleDoesNothing(w.net);
    }
  }

  // ------------------------------------------------------------ what joins the parts

  /**
    Result number `i` of the group is that of a registered task which has reported, and the
    executor waits for it exactly while it has not been told.
   */
  ghost predicate Entered(w: World, g: Uuid, i: nat)
    requires i < |w.net.Journal(g).enqueued|
  {
    var e := w.net.Journal(g).enqueued[i].envelope;
    var job := E.JobOf(e);
    && job in w.exec.registered && job !in w.exec.jobs && job !in w.exec.executing
    && e == E.EnvelopeOf(job, E.ResultOf(e))
    && (job in w.exec.results <==> |w.net.Journal(g).notified| <= i)
  }

  ghost predicate Ledger(w: World) {
    forall g, i :: 0 <= i < |w.net.Journal(g).enqueued| ==> Entered(w, g, i)
  }

  /** A row of one of this agent's contexts is of a result in its outbox. */
  ghost predicate OwnRows(w: World) {
    forall n :: 0 <= n < |w.net.db.log| && w.net.db.log[n].key.group in w.exec.used ==> D.OwnKey(w.net, w.net.db.log[n].key)
  }

  function KeyOf(job: E.Job): ResultKey {
    ResultKey(job.context, job.detail, 1)
  }

  ghost predicate HasRow(log: seq<T.LogRow>, key: ResultKey) {
    exists n :: 0 <= n < |log| && log[n].key == key
  }

  /** While a context is not marked to stop, each of its tasks that was answered has its row on the server. */
  ghost predicate Answered(w: World) {
    AnsweredBy(w.exec, w.net.db.log)
  }

  ghost predicate Joint(w: World) {
    && E.Good(w.exec) && O.Owned(w.exec)
    && D.Sound(w.net) && B.AllSerial(w.net.box)
    && Ledger(w) && OwnRows(w) && Answered(w)
  }

  lemma JobAndEnvelope(job: E.Job, r: E.Result)
    ensures E.JobOf(E.EnvelopeOf(job, r)) == job && E.ResultOf(E.EnvelopeOf(job, r)) == r
    ensures E.EnvelopeOf(job, r).Key() == KeyOf(job)
  {
  }

  // ------------------------------------------------------------ the premises of both parts hold

  lemma NoneQueuedYet(w: World, job: E.Job, key: ResultKey)
    requires Joint(w) && job in w.exec.executing && key == KeyOf(job)
    ensures !D.OwnKey(w.net, key)
  {
    forall i | 0 <= i < |w.net.Journal(key.group).enqueued|
      ensures w.net.Journal(key.group).enqueued[i].envelope.Key() != key
    {
      assert Entered(w, key.group, i);
      var e := w.net.Journal(key.group).enqueued[i].envelope;
      JobAndEnvelope(E.JobOf(e), E.ResultOf(e));
      assert job in w.exec.registered;
    }
  }

  /** A task's key is fresh when it reports: the premise under which a result may be queued. */
  lemma ReportedKeyIsFresh(w: World, job: E.Job, result: E.Result)
    requires Joint(w) && job in w.exec.executing
    ensures D.FreshKey(w.net, E.EnvelopeOf(job, result).Key())
  {
    JobAndEnvelope(job, result);
    var key := KeyOf(job);
    NoneQueuedYet(w, job, key);
    assert job in w.exec.registered && job.context in w.exec.used;
  }

  /** A drainer reports the first result that the executor has not been told of. */
  lemma NotifiedNext(c: B.Channel, closed: bool, d: nat)
    requires B.Fifo(c) && B.Serial(c, closed) && d in c.drainers && c.drainers[d].Notifying?
    ensures var i := |c.journal.notified|;
            && i < |c.journal.enqueued| && c.drainers[d].item == c.journal.enqueued[i]
            && i < |c.journal.removed| && c.drainers[d].item == c.journal.removed[i]
            && i < |c.journal.verdicts| && c.drainers[d].verdict == c.journal.verdicts[i]
  {
    assert B.FifoPhase(c.journal, c.drainers[d]);
  }

  /** What the executor is told is news to it: the premise under which a result is acknowledged once. */
  lemma ToldIsAwaited(w: World, g: Uuid, d: nat)
    requires Joint(w) && d in w.net.At(g).drainers && w.net.At(g).drainers[d].Notifying?
    ensures E.JobOf(w.net.At(g).drainers[d].item.envelope) in w.exec.results
  {
    var c := w.net.At(g);
    assert B.ChannelOk(c, w.net.box.closed) && B.Serial(c, w.net.box.closed);
    NotifiedNext(c, w.net.box.closed, d);
    assert Entered(w, g, |c.journal.notified|);
  }

  lemma ExecEnabled(w: World, step: Step)
    requires Joint(w) && Enabled(w, step)
    ensures E.Enabled(w.exec, ExecStep(w, step)) && !ExecStep(w, step).RepeatAck?
  {
    if step.Notify? {
      ToldIsAwaited(w, step.group, step.drainer);
    }
  }

  lemma NetEnabled(w: World, step: Step)
    requires Enabled(w, step)
    requires step.Report? ==> D.FreshKey(w.net, E.EnvelopeOf(step.job, step.result).Key())
    ensures D.Enabled(w.net, NetStep(step))
  {
    if step.Execute? {
      IdleDoesNothing(w.net);
    }
  }

  // ------------------------------------------------------------ the executor's half of a step

  ghost predicate ExecHalf(s: E.State, step: E.Step, t: E.State) {
    && E.Good(s) && E.Good(t) && O.Owned(s) && O.Owned(t)
    && E.Enabled(s, step) && !step.RepeatAck? && t == E.Next(s, step)
  }

  lemma ExecHalfHolds(s: E.State, step: E.Step)
    requires E.Good(s) && O.Owned(s) && E.Enabled(s, step) && !step.RepeatAck?
    ensures ExecHalf(s, step, E.Next(s, step))
  {
    X.StepKeeps(s, step);
    O.OwnedStep(s, step);
  }

  ghost predicate AnsweredBy(s: E.State, log: seq<T.LogRow>) {
    forall j :: j in s.registered && j.Regular? && j !in s.Live() && Unstopped(s, j) ==> HasRow(log, KeyOf(j))
  }

  /** The task's context is still its schedule's and is not marked to stop. */
  predicate Unstopped(s: E.State, j: E.Job) {
    O.Has(s.At(j.schedule), j.context) && !s.At(j.schedule).context.value.stop
  }

  lemma UnstoppedBefore(s: E.State, step: E.Step, t: E.State, j: E.Job)
    requires ExecHalf(s, step, t) && j in s.registered && Unstopped(t, j)
    ensures Unstopped(s, j)
  {
    O.ContextAfter(s, step, j.schedule, j.context);
    G.StepProgress(s, step, j.schedule);
    assert j.context in s.used;
  }

  lemma RejectedIsStopped(s: E.State, step: E.Step, t: E.State)
    requires ExecHalf(s, step, t) && step.Reject? && step.job.Regular?
    ensures !Unstopped(t, step.job)
  {
    O.RejectStops(s, step.job);
  }

  lemma NewIsLive(s: E.State, step: E.Step, t: E.State, j: E.Job)
    requires ExecHalf(s, step, t) && j.Regular? && j in t.registered && j !in s.registered
    ensures j in t.Live()
  {
    G.StepRegisters(s, step, j);
    assert j in t.Live() <==> E.Owes(t.At(j.schedule), j);
  }

  lemma AnsweredStep(s: E.State, step: E.Step, t: E.State, log: seq<T.LogRow>)
    requires ExecHalf(s, step, t) && AnsweredBy(s, log)
    requires step.Ack? && step.job.Regular? ==> HasRow(log, KeyOf(step.job))
    ensures AnsweredBy(t, log)
  {
    forall j | j in t.registered && j.Regular? && j !in t.Live() && Unstopped(t, j)
      ensures HasRow(log, KeyOf(j))
    {
      if j !in s.registered {
        NewIsLive(s, step, t, j);
      } else {
        UnstoppedBefore(s, step, t, j);
        if j in s.Live() {
          O.LiveUntilAnswered(s, step, j);
          if step.Reject? { RejectedIsStopped(s, step, t); }
        }
      }
    }
  }

  lemma LongerLog(s: E.State, log: seq<T.LogRow>, longer: seq<T.LogRow>)
    requires AnsweredBy(s, log) && log <= longer
    ensures AnsweredBy(s, longer)
  {
    forall j | j in s.registered && j.Regular? && j !in s.Live() && Unstopped(s, j)
      ensures HasRow(longer, KeyOf(j))
    {
      var n :| 0 <= n < |log| && log[n].key == KeyOf(j);
      assert longer[n].key == KeyOf(j);
    }
  }

  // ------------------------------------------------------------ the network's half of a step

  ghost predicate NetHalf(w: D.World, step: D.Step, n: D.World) {
    && D.Sound(w) && D.Sound(n) && B.AllSerial(w.box) && B.AllSerial(n.box)
    && D.Enabled(w, step) && n == D.Next(w, step)
  }

  lemma BoxAfter(w: D.World, step: D.Step)
    requires D.Enabled(w, step)
    requires step.Local? ==> B.UnhurriedEvent(w.box, step.event)
    ensures if step.Serve? || step.Elsewhere? then D.Next(w, step).box == w.box
            else var e := D.EventOf(step);
                 B.Allowed(w.box, e) && B.UnhurriedEvent(w.box, e) && D.Next(w, step).box == B.Apply(w.box, e)
  {
  }

  lemma StaysSerial(w: D.World, step: D.Step)
    requires B.AllSerial(w.box) && D.Enabled(w, step)
    requires step.Local? ==> B.UnhurriedEvent(w.box, step.event)
    ensures B.AllSerial(D.Next(w, step).box)
  {
    BoxAfter(w, step);
    if !step.Serve? && !step.Elsewhere? {
      B.AllSerialPreserved(w.box, D.EventOf(step));
    }
  }

  lemma NetHalfHolds(w: D.World, step: D.Step)
    requires D.Sound(w) && B.AllSerial(w.box) && D.Enabled(w, step)
    requires step.Local? ==> B.UnhurriedEvent(w.box, step.event)
    ensures NetHalf(w, step, D.Next(w, step))
  {
    D.StepSound(w, step);
    StaysSerial(w, step);
  }

  /** What a step of the network does to the journal of a group. */
  lemma JournalAfter(w: D.World, step: D.Step, g: Uuid)
    requires D.Enabled(w, step)
    ensures var j, k := w.Journal(g), D.Next(w, step).Journal(g);
            var mine := step.Local? && step.event.On? && step.event.group == g;
            && k.enqueued == (if mine && step.event.step.Enqueue? then B.Append(j, step.event.step.envelope).enqueued else j.enqueued)
            && |k.notified| == |j.notified| + (if mine && step.event.step.Notify? then 1 else 0)
  {
    if !step.Serve? && !step.Elsewhere? {
      var e := D.EventOf(step);
      if e.On? && e.group == g {
        ChannelJournalAfter(w.At(g), w.box.closed, e.step);
      }
    }
  }

  lemma ChannelJournalAfter(c: B.Channel, closed: bool, step: B.Step)
    requires B.Enabled(c, step)
    ensures var j, k := c.journal, B.Next(c, closed, step).journal;
            && k.enqueued == (if step.Enqueue? then B.Append(j, step.envelope).enqueued else j.enqueued)
            && |k.notified| == |j.notified| + (if step.Notify? then 1 else 0)
  {
  }

  lemma OwnKeyStays(w: D.World, step: D.Step, key: ResultKey)
    requires D.Enabled(w, step) && D.OwnKey(w, key)
    ensures D.OwnKey(D.Next(w, step), key)
  {
    JournalAfter(w, step, key.group);
    var i :| 0 <= i < |w.Journal(key.group).enqueued| && w.Journal(key.group).enqueued[i].envelope.Key() == key;
    assert D.Next(w, step).Journal(key.group).enqueued[i] == w.Journal(key.group).enqueued[i];
  }

  /** A new row is of a result in the outbox, or comes from elsewhere. */
  lemma NewRow(w: D.World, step: D.Step, n: D.World)
    requires NetHalf(w, step, n)
    ensures w.db.log <= n.db.log && |n.db.log| <= |w.db.log| + 1
    ensures |w.db.log| < |n.db.log| ==>
              || (step.Serve? && D.OwnKey(n, n.db.log[|w.db.log|].key))
              || (step.Elsewhere? && step.op.AcceptResult? && n.db.log[|w.db.log|].key == step.op.payload.Key())
  {
    match step
    case Serve(item, device, now) =>
      D.ServedItemHasRow(w.db, item, device, now);
      D.PickedKeyIsKnown(w, item, item.envelope.group);
      assert D.OwnKey(n, item.envelope.Key());
    case Elsewhere(op) => T.StepAppends(w.db, op);
    case _ =>
  }

  lemma OwnRowsStep(w: World, step: D.Step, n: D.World, used: set<Uuid>)
    requires OwnRows(w) && NetHalf(w.net, step, n)
    requires forall id :: id in used && id !in w.exec.used ==> Unseen(w, id) && n.db.log == w.net.db.log
    requires step.Elsewhere? && step.op.AcceptResult? ==> step.op.payload.group !in used
    ensures forall i :: 0 <= i < |n.db.log| && n.db.log[i].key.group in used ==> D.OwnKey(n, n.db.log[i].key)
  {
    NewRow(w.net, step, n);
    forall i | 0 <= i < |n.db.log| && n.db.log[i].key.group in used
      ensures D.OwnKey(n, n.db.log[i].key)
    {
      if i < |w.net.db.log| {
        assert n.db.log[i] == w.net.db.log[i];
        OwnKeyStays(w.net, step, n.db.log[i].key);
      }
    }
  }

  // ------------------------------------------------------------ the ledger

  /** What the ledger needs of the executor's step: tasks that have reported do not come back, and who is told. */
  ghost predicate Steady(s: E.State, act: E.Step, t: E.State) {
    && s.registered <= t.registered
    && (forall j :: j in s.registered && j !in s.jobs && j !in s.executing ==> j !in t.jobs && j !in t.executing)
    && t.results == O.ResultsWith(s.results, act)
  }

  lemma HalfIsSteady(s: E.State, act: E.Step, t: E.State)
    requires ExecHalf(s, act, t)
    ensures Steady(s, act, t)
  {
    O.ResultsAfter(s, act);
    G.LogsGrow(s, act);
    forall j | j in s.registered && j !in s.jobs && j !in s.executing
      ensures j !in t.jobs && j !in t.executing
    {
      O.NoReturn(s, act, j);
    }
  }

  /** An entry stays in order when its journal keeps it and the executor is not told of it. */
  lemma EntryStays(w: World, act: E.Step, t: E.State, n: D.World, g: Uuid, i: nat)
    requires Steady(w.exec, act, t)
    requires i < |w.net.Journal(g).enqueued| && Entered(w, g, i)
    requires i < |n.Journal(g).enqueued| && n.Journal(g).enqueued[i] == w.net.Journal(g).enqueued[i]
    requires |n.Journal(g).notified| == |w.net.Journal(g).notified|
    requires act.Report? || act.Ack? || act.Reject? ==> act.job != E.JobOf(w.net.Journal(g).enqueued[i].envelope)
    ensures Entered(World(t, n), g, i)
  {
  }

  lemma EntryJob(w: World, g: Uuid, i: nat)
    requires D.Sound(w.net) && i < |w.net.Journal(g).enqueued| && Entered(w, g, i)
    ensures var job := E.JobOf(w.net.Journal(g).enqueued[i].envelope);
            job.context == g && KeyOf(job) == w.net.Journal(g).enqueued[i].envelope.Key()
  {
    assert D.Matches(w.net.Journal(g), g, w.net.db.log);
    var e := w.net.Journal(g).enqueued[i].envelope;
    JobAndEnvelope(E.JobOf(e), E.ResultOf(e));
  }

  /** Different entries are of different tasks. */
  lemma EntriesDiffer(w: World, g: Uuid, i: nat, h: Uuid, k: nat)
    requires D.Sound(w.net) && i < |w.net.Journal(g).enqueued| && Entered(w, g, i)
    requires k < |w.net.Journal(h).enqueued| && Entered(w, h, k) && (g != h || i != k)
    ensures E.JobOf(w.net.Journal(g).enqueued[i].envelope) != E.JobOf(w.net.Journal(h).enqueued[k].envelope)
  {
    EntryJob(w, g, i);
    EntryJob(w, h, k);
    assert D.Matches(w.net.Journal(g), g, w.net.db.log);
  }

  ghost predicate SameEntries(w: D.World, n: D.World) {
    forall g :: n.Journal(g).enqueued == w.Journal(g).enqueued && |n.Journal(g).notified| == |w.Journal(g).notified|
  }

  lemma OthersKeepEntries(w: D.World, move: D.Step, n: D.World)
    requires D.Enabled(w, move) && n == D.Next(w, move)
    requires move.Local? && move.event.On? ==> !move.event.step.Enqueue? && !move.event.step.Notify?
    ensures SameEntries(w, n)
  {
    forall g ensures n.Journal(g).enqueued == w.Journal(g).enqueued && |n.Journal(g).notified| == |w.Journal(g).notified| {
      JournalAfter(w, move, g);
    }
  }

  /** The executor acts alone, or the network does. */
  lemma LedgerElsewhere(w: World, act: E.Step, t: E.State, n: D.World)
    requires Ledger(w) && Steady(w.exec, act, t) && SameEntries(w.net, n)
    requires !act.Report? && !act.Ack? && !act.Reject?
    ensures Ledger(World(t, n))
  {
    forall g, i | 0 <= i < |n.Journal(g).enqueued|
      ensures Entered(World(t, n), g, i)
    {
      assert n.Journal(g).enqueued == w.net.Journal(g).enqueued;
      assert Entered(w, g, i);
      EntryStays(w, act, t, n, g, i);
    }
  }

  /** The task's result is the only entry that is new. */
  ghost predicate Queues(w: D.World, job: E.Job, result: E.Result, n: D.World) {
    forall g :: && n.Journal(g).enqueued == Longer(w.Journal(g).enqueued, g, job, result)
                && |n.Journal(g).notified| == |w.Journal(g).notified|
  }

  function Longer(items: seq<B.Item>, g: Uuid, job: E.Job, result: E.Result): seq<B.Item> {
    if g == job.context then items + [B.Item(E.EnvelopeOf(job, result), |items|)] else items
  }

  lemma ReportQueues(w: D.World, job: E.Job, result: E.Result, n: D.World)
    requires D.Enabled(w, D.Local(Entry(job, result))) && n == D.Next(w, D.Local(Entry(job, result)))
    ensures Queues(w, job, result, n)
  {
    forall g ensures && n.Journal(g).enqueued == Longer(w.Journal(g).enqueued, g, job, result)
                     && |n.Journal(g).notified| == |w.Journal(g).notified| {
      JournalAfter(w, D.Local(Entry(job, result)), g);
    }
  }

  lemma NewEntry(w: World, job: E.Job, result: E.Result, t: E.State, n: D.World)
    requires |w.net.Journal(job.context).notified| <= |w.net.Journal(job.context).enqueued|
    requires t == E.ReportJob(w.exec, job) && job in w.exec.registered && job !in w.exec.jobs
    requires Queues(w.net, job, result, n)
    ensures |n.Journal(job.context).enqueued| == |w.net.Journal(job.context).enqueued| + 1
    ensures Entered(World(t, n), job.context, |w.net.Journal(job.context).enqueued|)
  {
    JobAndEnvelope(job, result);
    assert n.Journal(job.context).enqueued == Longer(w.net.Journal(job.context).enqueued, job.context, job, result);
  }

  lemma NotifiedAreQueued(w: D.World, g: Uuid)
    requires D.Sound(w) && B.AllSerial(w.box)
    ensures |w.Journal(g).notified| <= |w.Journal(g).enqueued|
  {
    assert D.Matches(w.Journal(g), g, w.db.log);
    assert g in w.box.channels ==> B.Serial(w.At(g), w.box.closed);
  }

  /** A finished task's result becomes the last entry of its context. */
  lemma LedgerReport(w: World, job: E.Job, result: E.Result, t: E.State, n: D.World)
    requires Ledger(w) && Steady(w.exec, E.Report(job), t) && Queues(w.net, job, result, n)
    requires |w.net.Journal(job.context).notified| <= |w.net.Journal(job.context).enqueued|
    requires t == E.ReportJob(w.exec, job) && job in w.exec.registered && job !in w.exec.jobs && job in w.exec.executing
    ensures Ledger(World(t, n))
  {
    NewEntry(w, job, result, t, n);
    forall g, i | 0 <= i < |n.Journal(g).enqueued|
      ensures Entered(World(t, n), g, i)
    {
      assert n.Journal(g).enqueued == Longer(w.net.Journal(g).enqueued, g, job, result);
      if i < |w.net.Journal(g).enqueued| {
        assert Entered(w, g, i);
        EntryStays(w, E.Report(job), t, n, g, i);
      }
    }
  }

  /** The item a drainer reports, and where it stands in the ledger. */
  lemma ReportedItem(w: World, g: Uuid, d: nat)
    requires D.Sound(w.net) && B.AllSerial(w.net.box) && d in w.net.At(g).drainers && w.net.At(g).drainers[d].Notifying?
    ensures var c, i := w.net.At(g), |w.net.Journal(g).notified|;
            && i < |c.journal.enqueued| && c.drainers[d].item == c.journal.enqueued[i]
            && i < |c.journal.removed| && c.drainers[d].item == c.journal.removed[i]
            && i < |c.journal.verdicts| && c.drainers[d].verdict == c.journal.verdicts[i]
  {
    assert B.ChannelOk(w.net.At(g), w.net.box.closed) && B.Serial(w.net.At(g), w.net.box.closed);
    NotifiedNext(w.net.At(g), w.net.box.closed, d);
  }

  /** A report tells the executor of the first entry it waits for. */
  lemma LedgerNotify(w: World, g: Uuid, d: nat, act: E.Step, t: E.State, n: D.World)
    requires Ledger(w) && D.Sound(w.net) && B.AllSerial(w.net.box)
    requires d in w.net.At(g).drainers && w.net.At(g).drainers[d].Notifying?
    requires Steady(w.exec, act, t) && (act.Ack? || act.Reject?) && act.job == E.JobOf(w.net.At(g).drainers[d].item.envelope)
    requires D.Enabled(w.net, D.Local(B.On(g, B.Notify(d)))) && n == D.Next(w.net, D.Local(B.On(g, B.Notify(d))))
    ensures Ledger(World(t, n))
  {
    var told := |w.net.Journal(g).notified|;
    ReportedItem(w, g, d);
    assert Entered(w, g, told);
    forall h, i | 0 <= i < |n.Journal(h).enqueued|
      ensures Entered(World(t, n), h, i)
    {
      JournalAfter(w.net, D.Local(B.On(g, B.Notify(d))), h);
      assert Entered(w, h, i);
      if h != g {
        EntriesDiffer(w, h, i, g, told);
        EntryStays(w, act, t, n, h, i);
      } else {
        if i != told { EntriesDiffer(w, g, i, g, told); }
        EntryOfTold(w, g, act, t, n, i);
      }
    }
  }

  lemma EntryOfTold(w: World, g: Uuid, act: E.Step, t: E.State, n: D.World, i: nat)
    requires Steady(w.exec, act, t) && (act.Ack? || act.Reject?)
    requires i < |w.net.Journal(g).enqueued| && Entered(w, g, i)
    requires n.Journal(g).enqueued == w.net.Journal(g).enqueued && |n.Journal(g).notified| == |w.net.Journal(g).notified| + 1
    requires act.job == E.JobOf(w.net.Journal(g).enqueued[i].envelope) <==> i == |w.net.Journal(g).notified|
    ensures Entered(World(t, n), g, i)
  {
  }

  // ------------------------------------------------------------ every step keeps what joins them

  /** A result that is acknowledged has its row on the server. */
  lemma AckedHasRow(w: World, g: Uuid, d: nat)
    requires Joint(w) && d in w.net.At(g).drainers && w.net.At(g).drainers[d].Notifying?
    requires w.net.At(g).drainers[d].verdict.Acked?
    ensures HasRow(w.net.db.log, KeyOf(E.JobOf(w.net.At(g).drainers[d].item.envelope)))
  {
    var item, i := w.net.At(g).drainers[d].item, |w.net.Journal(g).notified|;
    ReportedItem(w, g, d);
    assert Entered(w, g, i);
    EntryJob(w, g, i);
    assert D.Matches(w.net.Journal(g), g, w.net.db.log);
    var n :| D.RowOf(w.net.db.log, n, w.net.Journal(g).removed[i]);
    assert w.net.db.log[n].key == item.envelope.Key();
  }

  /** Both halves of a step of a joint state. */
  lemma Halves(w: World, step: Step) returns (act: E.Step, t: E.State, move: D.Step, n: D.World)
    requires Joint(w) && Enabled(w, step) && Unhurried(w, step)
    ensures act == ExecStep(w, step) && move == NetStep(step) && Next(w, step) == World(t, n)
    ensures ExecHalf(w.exec, act, t) && NetHalf(w.net, move, n)
  {
    act, move := ExecStep(w, step), NetStep(step);
    ExecEnabled(w, step);
    if step.Report? { ReportedKeyIsFresh(w, step.job, step.result); }
    NetEnabled(w, step);
    ExecMoves(w, step);
    NetMoves(w, step);
    t, n := E.Next(w.exec, act), D.Next(w.net, move);
    ExecHalfHolds(w.exec, act);
    NetHalfHolds(w.net, move);
  }

  lemma LedgerStep(w: World, step: Step, act: E.Step, t: E.State, move: D.Step, n: D.World)
    requires Joint(w) && Enabled(w, step) && act == ExecStep(w, step) && move == NetStep(step)
    requires ExecHalf(w.exec, act, t) && NetHalf(w.net, move, n)
    ensures Ledger(World(t, n))
  {
    HalfIsSteady(w.exec, act, t);
    if step.Report? {
      LedgerReportStep(w, step.job, step.result, t, n);
    } else if step.Notify? {
      LedgerNotifyStep(w, step.group, step.drainer, step.fault, act, t, n);
    } else {
      LedgerRestStep(w, step, act, t, move, n);
    }
  }

  lemma LedgerNotifyStep(w: World, g: Uuid, d: nat, fault: Option<nat>, act: E.Step, t: E.State, n: D.World)
    requires Joint(w) && Enabled(w, Notify(g, d, fault)) && act == ExecStep(w, Notify(g, d, fault)) && Steady(w.exec, act, t)
    requires D.Enabled(w.net, D.Local(B.On(g, B.Notify(d)))) && n == D.Next(w.net, D.Local(B.On(g, B.Notify(d))))
    ensures Ledger(World(t, n))
  {
    LedgerNotify(w, g, d, act, t, n);
  }

  lemma LedgerRestStep(w: World, step: Step, act: E.Step, t: E.State, move: D.Step, n: D.World)
    requires Ledger(w) && Enabled(w, step) && (step.Execute? || step.Network?)
    requires act == ExecStep(w, step) && move == NetStep(step)
    requires Steady(w.exec, act, t) && D.Enabled(w.net, move) && n == D.Next(w.net, move)
    ensures Ledger(World(t, n))
  {
    OthersKeepEntries(w.net, move, n);
    LedgerElsewhere(w, act, t, n);
  }

  lemma LedgerReportStep(w: World, job: E.Job, result: E.Result, t: E.State, n: D.World)
    requires Joint(w) && Enabled(w, Report(job, result)) && t == E.ReportJob(w.exec, job) && Steady(w.exec, E.Report(job), t)
    requires D.Enabled(w.net, D.Local(Entry(job, result))) && n == D.Next(w.net, D.Local(Entry(job, result)))
    ensures Ledger(World(t, n))
  {
    ReportQueues(w.net, job, result, n);
    NotifiedAreQueued(w.net, job.context);
    LedgerReport(w, job, result, t, n);
  }

  lemma RowsStep(w: World, step: Step, act: E.Step, t: E.State, move: D.Step, n: D.World)
    requires Joint(w) && Enabled(w, step) && act == ExecStep(w, step) && move == NetStep(step)
    requires ExecHalf(w.exec, act, t) && NetHalf(w.net, move, n)
    ensures OwnRows(World(t, n))
  {
    forall id | id in t.used && id !in w.exec.used
      ensures Unseen(w, id) && n.db.log == w.net.db.log
    {
      O.UsedAfter(w.exec, act, id);
      IdleDoesNothing(w.net);
    }
    if move.Elsewhere? && move.op.AcceptResult? {
      assert t.used == w.exec.used;
    }
    OwnRowsStep(w, move, n, t.used);
  }

  lemma AnswersStep(w: World, step: Step, act: E.Step, t: E.State, move: D.Step, n: D.World)
    requires Joint(w) && Enabled(w, step) && act == ExecStep(w, step) && move == NetStep(step)
    requires ExecHalf(w.exec, act, t) && NetHalf(w.net, move, n)
    ensures AnsweredBy(t, n.db.log)
  {
    if step.Notify? && act.Ack? {
      AckedHasRow(w, step.group, step.drainer);
    }
    AnsweredStep(w.exec, act, t, w.net.db.log);
    D.LogGrows(w.net, move);
    LongerLog(t, w.net.db.log, n.db.log);
  }

  lemma JointStep(w: World, step: Step, next: World)
    requires Joint(w) && Enabled(w, step) && Unhurried(w, step) && next == Next(w, step)
    ensures Joint(next)
  {
    var act, t, move, n := Halves(w, step);
    LedgerStep(w, step, act, t, move, n);
    RowsStep(w, step, act, t, move, n);
    AnswersStep(w, step, act, t, move, n);
  }

  lemma BeginsJoint(w: World)
    requires Begins(w)
    ensures Joint(w)
  {
    assert forall g :: w.net.Journal(g) == B.FRESH.journal;
    assert forall g :: w.exec.At(g) == E.IDLE;
  }

  lemma NextIsJoint(run: Run, k: nat, w: World, next: World)
    requires IsPatientRun(run) && k < |run.steps| && w == run.states[k] && next == run.states[k + 1] && Joint(w)
    ensures Joint(next)
  {
    var step := PatientStep(run, k, w, next);
    JointStep(w, step, next);
  }

  lemma {:induction false} StateIsJoint(run: Run, k: nat, w: World)
    requires Starts(run) && k < |run.states| && w == run.states[k]
    ensures Joint(w)
  {
    if k == 0 {
      BeginsJoint(w);
    } else {
      var before := run.states[k - 1];
      StateIsJoint(run, k - 1, before);
      NextIsJoint(run, k - 1, before, w);
    }
  }

  lemma RunIsJoint(run: Run, k: nat)
    requires Starts(run) && k < |run.states|
    ensures Joint(run.states[k])
  {
    StateIsJoint(run, k, run.states[k]);
  }

  lemma PatientStep(run: Run, k: nat, w: World, next: World) returns (step: Step)
    requires IsPatientRun(run) && k < |run.steps| && w == run.states[k] && next == run.states[k + 1]
    ensures step == run.steps[k] && Enabled(w, step) && Unhurried(w, step) && next == Next(w, step)
  {
    step := run.steps[k];
  }

  // ------------------------------------------------------------ each part by itself

  /** The run as the executor sees it. */
  function ExecRun(run: Run): E.Run
    requires |run.steps| < |run.states|
  {
    E.Run(seq(|run.states|, k requires 0 <= k < |run.states| => run.states[k].exec),
          seq(|run.steps|, k requires 0 <= k < |run.steps| => ExecStep(run.states[k], run.steps[k])))
  }

  /** The run as the outbox, the network and the server see it. */
  function NetRun(run: Run): D.Run {
    D.Run(seq(|run.states|, k requires 0 <= k < |run.states| => run.states[k].net),
          seq(|run.steps|, k requires 0 <= k < |run.steps| => NetStep(run.steps[k])))
  }

  lemma HalvesInRun(run: Run, k: nat, w: World, next: World)
    requires Starts(run) && k < |run.steps| && w == run.states[k] && next == run.states[k + 1]
    ensures ExecHalf(w.exec, ExecStep(w, run.steps[k]), next.exec) && NetHalf(w.net, NetStep(run.steps[k]), next.net)
  {
    StateIsJoint(run, k, w);
    var step := PatientStep(run, k, w, next);
    var _, _, _, _ := Halves(w, step);
  }

  lemma ExecHalfInRun(run: Run, k: nat, w: World, next: World)
    requires Starts(run) && k < |run.steps| && w == run.states[k] && next == run.states[k + 1]
    ensures var act := ExecStep(w, run.steps[k]);
            E.Enabled(w.exec, act) && !act.RepeatAck? && next.exec == E.Next(w.exec, act)
  {
    HalvesInRun(run, k, w, next);
  }

  /**
    The executor's part of every run is one of its own runs in which each result is acknowledged or
    rejected once: the drainers never tell it twice. So whatever holds in those runs holds here.
   */
  lemma ToldOnce(run: Run)
    requires Starts(run)
    ensures E.IsCleanRun(ExecRun(run))
  {
    var part := ExecRun(run);
    forall k {:trigger part.steps[k]} | 0 <= k < |part.steps|
      ensures E.Enabled(part.states[k], part.steps[k]) && !part.steps[k].RepeatAck?
      ensures part.states[k + 1] == E.Next(part.states[k], part.steps[k])
    {
      ExecHalfInRun(run, k, run.states[k], run.states[k + 1]);
    }
  }

  lemma NetHalfInRun(run: Run, k: nat, w: World, next: World)
    requires Starts(run) && k < |run.steps| && w == run.states[k] && next == run.states[k + 1]
    ensures D.Enabled(w.net, NetStep(run.steps[k])) && next.net == D.Next(w.net, NetStep(run.steps[k]))
  {
    HalvesInRun(run, k, w, next);
  }

  lemma NetRunIsRun(run: Run)
    requires Starts(run)
    ensures D.IsRun(NetRun(run))
  {
    var part := NetRun(run);
    forall k {:trigger part.steps[k]} | 0 <= k < |part.steps|
      ensures D.Enabled(part.states[k], part.steps[k])
      ensures part.states[k + 1] == D.Next(part.states[k], part.steps[k])
    {
      NetHalfInRun(run, k, run.states[k], run.states[k + 1]);
    }
  }

  /**
    The network's part of every run is one of its own runs in which each result is queued under a
    fresh key: the executor never makes a key twice. So whatever holds in those runs holds here.
   */
  lemma KeysAreFresh(run: Run)
    requires Starts(run)
    ensures D.Starts(NetRun(run))
  {
    NetRunIsRun(run);
    assert NetRun(run).states[0] == run.states[0].net;
  }

  // ------------------------------------------------------------ sequences and rows

  /**
    The barrier reaches the server: when a task is registered, every task that its context
    registered before is of a smaller sequence and has its row in the server's log.
   */
  lemma RowsBeforeNextSequence(run: Run, k: nat, j: E.Job, e: E.Job)
    requires Starts(run) && k < |run.steps|
    requires j.Regular? && j in run.states[k + 1].exec.registered && j !in run.states[k].exec.registered
    requires e.Regular? && e in run.states[k].exec.registered && e.context == j.context && e.schedule == j.schedule
    ensures e.sequence < j.sequence && HasRow(run.states[k + 1].net.db.log, KeyOf(e))
  {
    HalvesInRun(run, k, run.states[k], run.states[k + 1]);
    RunIsJoint(run, k + 1);
    EarlierHasRow(run.states[k].exec, ExecStep(run.states[k], run.steps[k]), run.states[k + 1], j, e);
  }

  lemma EarlierHasRow(s: E.State, act: E.Step, w: World, j: E.Job, e: E.Job)
    requires ExecHalf(s, act, w.exec) && AnsweredBy(w.exec, w.net.db.log)
    requires j.Regular? && j in w.exec.registered && j !in s.registered
    requires e.Regular? && e in s.registered && e.context == j.context && e.schedule == j.schedule
    ensures e.sequence < j.sequence && HasRow(w.net.db.log, KeyOf(e))
  {
    G.BarrierStep(s, act, w.exec, j, e);
    O.RegistersUnstopped(s, act, j);
    G.LogsGrow(s, act);
    assert Unstopped(w.exec, e);
  }

  lemma OwnDetailsInRun(run: Run, k: nat)
    requires Starts(run) && k < |run.steps|
    ensures G.OwnDetail(ExecRun(run).steps[k])
  {
    var w := run.states[k];
    KeysAreFresh(run);
    assert NetRun(run).states[k] == w.net;
    D.NewsIsOwn(NetRun(run), k, w.net);
    var step := PatientStep(run, k, w, run.states[k + 1]);
    OwnDetailOf(w, step);
  }

  lemma OwnDetailOf(w: World, step: Step)
    requires D.OwnNews(w.net) && Enabled(w, step)
    ensures G.OwnDetail(ExecStep(w, step))
  {
    var act := ExecStep(w, step);
    if step.Notify? && act.Ack? {
      var phase := w.net.At(step.group).drainers[step.drainer];
      assert D.OwnVerdict(phase);
      forall i | 0 <= i < |act.transitions| && act.transitions[i].DetailError?
        ensures act.transitions[i].detail == act.job.detail
      {
        assert phase.verdict.transitions[i] == act.transitions[i];
      }
    }
  }

  /**
    Complete execution, end to end: in every run, a context that has come to rest without being
    marked to stop has the result of every detail of its plan in the server's log.
   */
  lemma CompleteMeansRecorded(run: Run, k: nat, g: nat)
    requires Starts(run) && k < |run.states|
    requires var lane := run.states[k].exec.At(g); lane.context.Some? && !lane.running && !lane.context.value.stop
    ensures var c := run.states[k].exec.At(g).context.value;
            forall q, d :: q in c.plan && d in c.plan[q] ==> HasRow(run.states[k].net.db.log, ResultKey(c.id, d, 1))
  {
    var w, c := run.states[k], run.states[k].exec.At(g).context.value;
    ToldOnce(run);
    forall i | 0 <= i < |ExecRun(run).steps| ensures G.OwnDetail(ExecRun(run).steps[i]) {
      OwnDetailsInRun(run, i);
    }
    assert ExecRun(run).states[k] == w.exec;
    G.CompleteUnlessStopped(ExecRun(run), k, g);
    StateIsJoint(run, k, w);
    CompleteHasRows(w, g);
  }

  lemma CompleteHasRows(w: World, g: nat)
    requires AnsweredBy(w.exec, w.net.db.log) && w.exec.At(g).context.Some? && !w.exec.At(g).context.value.stop
    requires var c := w.exec.At(g).context.value;
             forall q, d :: q in c.plan && d in c.plan[q] ==>
               E.Regular(c.id, g, q, d) in w.exec.registered && E.Regular(c.id, g, q, d) !in w.exec.Live()
    ensures var c := w.exec.At(g).context.value;
            forall q, d :: q in c.plan && d in c.plan[q] ==> HasRow(w.net.db.log, ResultKey(c.id, d, 1))
  {
    var c := w.exec.At(g).context.value;
    forall q, d | q in c.plan && d in c.plan[q]
      ensures HasRow(w.net.db.log, ResultKey(c.id, d, 1))
    {
      var j := E.Regular(c.id, g, q, d);
      assert j in w.exec.registered && Unstopped(w.exec, j);
    }
  }

  // ------------------------------------------------------------ what an error stop does to the context

  /** Step `k` tells the executor that a regular result is acknowledged, with these transitions. */
  ghost predicate Acknowledges(run: Run, k: nat, job: E.Job, transitions: seq<Transition>)
    requires |run.steps| < |run.states|
  {
    && k < |run.steps| && run.steps[k].Notify? && job.Regular?
    && var c := run.states[k].net.At(run.steps[k].group);
       && run.steps[k].drainer in c.drainers && c.drainers[run.steps[k].drainer].Notifying?
       && job == E.JobOf(c.drainers[run.steps[k].drainer].item.envelope)
       && c.drainers[run.steps[k].drainer].verdict == B.Acked(transitions)
  }

  lemma AcknowledgedStep(run: Run, k: nat, job: E.Job, transitions: seq<Transition>, w: World, next: World)
    requires Starts(run) && Acknowledges(run, k, job, transitions) && w == run.states[k] && next == run.states[k + 1]
    ensures E.Good(w.exec) && job in w.exec.results
    ensures next.exec == E.Acknowledge(w.exec.(results := w.exec.results - {job}), job, transitions, run.steps[k].fault)
  {
    StateIsJoint(run, k, w);
    assert ExecStep(w, run.steps[k]) == E.Ack(job, transitions, run.steps[k].fault);
    ExecHalfInRun(run, k, w, next);
  }

  /** With the error of the group among the transitions, the context starts no sequence in any later state. */
  lemma ToldContextStartsNothing(run: Run, k: nat, l: nat, job: E.Job, transitions: seq<Transition>, schedule: int)
    requires Starts(run) && Acknowledges(run, k, job, transitions) && GroupError(schedule) in transitions
    requires k < l < |run.states|
    ensures G.Halted(run.states[l].exec, job.schedule, job.context, run.states[k + 1].exec.At(job.schedule).started)
  {
    var w, next := run.states[k], run.states[k + 1];
    AcknowledgedStep(run, k, job, transitions, w, next);
    O.ToldStops(w.exec, job, transitions, run.steps[k].fault, schedule);
    ToldOnce(run);
    assert ExecRun(run).states[k + 1] == next.exec && ExecRun(run).states[l] == run.states[l].exec;
    G.NoStartAfterStop(ExecRun(run), k + 1, l, job.schedule);
  }

  /**
    The next sequence starts exactly when the acknowledged result was the last one outstanding, the
    context was not marked to stop, the transitions report no error of the group, and the smallest
    sequence ahead has details left, a slot for each and a scheduler that takes them. Whether the
    server has stopped the schedule plays no part: only the transitions that arrive do.
   */
  lemma NextSequenceStartsIff(run: Run, k: nat, job: E.Job, transitions: seq<Transition>)
    requires Starts(run) && Acknowledges(run, k, job, transitions)
    ensures var s, a, b := run.states[k].exec, run.states[k].exec.At(job.schedule), run.states[k + 1].exec.At(job.schedule);
            && E.Owes(a, job)
            && var c := E.ApplyTransitions(a.context.value, transitions);
               (b.started != a.started <==>
                 && E.RemoveOne(a.completion[job.sequence], job.detail) == []
                 && !a.context.value.stop && (forall x :: GroupError(x) !in transitions)
                 && E.Ahead(a) != {} && E.Least(E.Ahead(a)) in c.sequences
                 && G.Taken(s, c.sequences[E.Least(E.Ahead(a))], run.steps[k].fault))
  {
    var w, next := run.states[k], run.states[k + 1];
    AcknowledgedStep(run, k, job, transitions, w, next);
    G.CrossesIff(w.exec, job, transitions, run.steps[k].fault);
    O.StopIff(w.exec.At(job.schedule).context.value, transitions);
  }
}
