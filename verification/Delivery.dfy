/**
  The outbox and the server joined by a network that may lose, delay, repeat or reorder
  any request and any reply, for any number of groups.
 */
module Delivery {
  import opened Protocol
  import B = Outbox
  import T = ExecutionTables

  // ------------------------------------------------------------ failures of a request

  datatype Failure =
    | DeviceInactive
    | Authentication
    | ClientRejected(code: string)
    | SchemaMismatch
    | Communication(code: string)
    | TransientServer(code: string)
    | Malformed
    | OtherApi(code: string)
    | Unexpected

  datatype Action = Retry | Remove | Halt

  const PERMANENT_CODES: set<string> := {"claim_expired", "not_found", "invalid_request", "schema_mismatch"}
  const RETRYABLE_CODES: set<string> := {"rate_limited", "server_error", "unavailable", "malformed_response"}

  function CodeOf(f: Failure): string {
    match f
    case DeviceInactive => "device_inactive"
    case Authentication => "invalid_token"
    case ClientRejected(code) => code
    case SchemaMismatch => "schema_mismatch"
    case Communication(code) => code
    case TransientServer(code) => code
    case Malformed => "malformed_response"
    case OtherApi(code) => code
    case Unexpected => ""
  }

  /** What the outbox does about a failure; `halted` is the state after an authentication failure was noted. */
  function Classify(f: Failure, halted: bool): Action {
    if f.DeviceInactive? then Halt
    else if f.Authentication? then if halted then Halt else Retry
    else if CodeOf(f) in PERMANENT_CODES || f.SchemaMismatch? || f.ClientRejected? then Remove
    else if CodeOf(f) in RETRYABLE_CODES || f.Communication? || f.TransientServer? || f.Malformed? then Retry
    else Remove
  }

  /** The exception an error of the execution tables arrives as. */
  function Raised(error: T.Error): Failure {
    match error
    case NotFound => ClientRejected("not_found")
    case AlreadyClaimed => ClientRejected("already_claimed")
    case ClaimExpired => ClientRejected("claim_expired")
    case InvalidRequest => ClientRejected("invalid_request")
    case Unavailable => TransientServer("unavailable")
  }

  // ------------------------------------------------------------ the joined system

  datatype World = World(box: B.State, db: T.Tables, replies: set<(B.Item, T.ResultReply)>)
  {
    function At(g: Uuid): B.Channel { box.At(g) }
    function Journal(g: Uuid): B.Journal { box.At(g).journal }
  }

  datatype Step =
    | Local(event: B.Event)
    | Serve(item: B.Item, device: int, now: int)
    | Deliver(group: Uuid, drainer: nat, reply: T.ResultReply)
    | Fail(group: Uuid, drainer: nat, failure: Failure, halted: bool)
    | Elsewhere(op: T.Op)

  /** No result with this key was enqueued in its group or is in the log. */
  predicate FreshKey(w: World, key: ResultKey) {
    && (forall i :: 0 <= i < |w.Journal(key.group).enqueued| ==> w.Journal(key.group).enqueued[i].envelope.Key() != key)
    && (forall n :: 0 <= n < |w.db.log| ==> w.db.log[n].key != key)
  }

  /** The key belongs to a result of this agent. */
  predicate OwnKey(w: World, key: ResultKey) {
    exists i :: 0 <= i < |w.Journal(key.group).enqueued| && w.Journal(key.group).enqueued[i].envelope.Key() == key
  }

  /** The code that is reported with a rejection; an exception without one counts as an invalid request. */
  function ReportedCode(f: Failure): string {
    if f.Unexpected? then "invalid_request" else CodeOf(f)
  }

  /** How a drainer goes on after a failure. */
  function AfterFailure(d: nat, f: Failure, halted: bool): B.Step {
    match Classify(f, halted)
    case Retry => B.Defer(d)
    case Halt => B.GiveUp(d)
    case Remove => B.Settle(d, B.Refused(ReportedCode(f)))
  }

  function AfterReply(d: nat, reply: T.ResultReply): B.Step {
    match reply
    case Recorded(_, _, transitions) => B.Settle(d, B.Acked(transitions))
    case Refused(error) => AfterFailure(d, Raised(error), false)
  }

  predicate Enabled(w: World, step: Step) {
    match step
    case Local(e) =>
      && B.Allowed(w.box, e)
      && (e.On? ==> !e.step.Settle? && !e.step.Defer? && !e.step.GiveUp?)
      && (e.On? && e.step.Enqueue? ==> FreshKey(w, e.step.envelope.Key()))
    case Serve(item, _, _) => item in w.Journal(item.envelope.group).picked
    case Deliver(g, d, reply) =>
      d in w.At(g).drainers && w.At(g).drainers[d].Sending? && (w.At(g).drainers[d].item, reply) in w.replies
    case Fail(g, d, _, _) => d in w.At(g).drainers && w.At(g).drainers[d].Sending?
    case Elsewhere(op) => T.Legal(w.db, op) && (op.AcceptResult? ==> !OwnKey(w, op.payload.Key()))
  }

  function Next(w: World, step: Step): World
    requires Enabled(w, step)
  {
    match step
    case Local(e) => w.(box := B.Apply(w.box, e))
    case Serve(item, device, now) =>
      var e := item.envelope;
      var (reply, db) := T.Submit(w.db, device, Some(e.Key()), e, now);
      w.(db := db, replies := w.replies + {(item, reply)})
    case Deliver(g, d, reply) => w.(box := B.Apply(w.box, B.On(g, AfterReply(d, reply))))
    case Fail(g, d, f, halted) => w.(box := B.Apply(w.box, B.On(g, AfterFailure(d, f, halted))))
    case Elsewhere(op) => w.(db := T.Do(w.db, op))
  }

  datatype Run = Run(states: seq<World>, steps: seq<Step>)

  ghost predicate IsRun(run: Run) {
    && |run.states| == |run.steps| + 1
    && (forall k {:trigger run.steps[k]} :: 0 <= k < |run.steps| ==>
          Enabled(run.states[k], run.steps[k]) && run.states[k + 1] == Next(run.states[k], run.steps[k]))
  }

  ghost predicate Starts(run: Run) {
    && IsRun(run)
    && T.Pristine(run.states[0].db) && run.states[0].replies == {}
    && run.states[0].box.channels == map[] && B.Good(run.states[0].box)
  }

  // ------------------------------------------------------------ one group against the log

  ghost predicate Keys(j: B.Journal, g: Uuid) {
    && (forall i :: 0 <= i < |j.enqueued| ==> j.enqueued[i].envelope.group == g)
    && (forall i, k :: 0 <= i < k < |j.enqueued| ==> j.enqueued[i].envelope.Key() != j.enqueued[k].envelope.Key())
  }

  /** Row `n` records the item: same key, same content. */
  ghost predicate RowOf(log: seq<T.LogRow>, n: int, item: B.Item) {
    0 <= n < |log| && log[n].key == item.envelope.Key() && T.SameResult(log[n], T.Stored(item.envelope))
  }

  /** Only results that were picked can have a row. */
  ghost predicate RowsOnlyForPicked(j: B.Journal, log: seq<T.LogRow>) {
    forall n, i :: RowFor(j, log, n, i) ==> i <= |j.removed|
  }

  ghost predicate AckedHaveRows(j: B.Journal, log: seq<T.LogRow>) {
    && |j.verdicts| == |j.removed|
    && (forall i :: 0 <= i < |j.removed| && j.verdicts[i].Acked? ==> exists n :: RowOf(log, n, j.removed[i]))
  }

  /** The row of an acknowledged result comes before the rows of all later results of its group. */
  ghost predicate RowsInOrder(j: B.Journal, log: seq<T.LogRow>) {
    && |j.verdicts| == |j.removed| <= |j.enqueued|
    && (forall i, k, n, m :: 0 <= i < k && i < |j.removed| && j.verdicts[i].Acked? && RowFor(j, log, n, i) && RowFor(j, log, m, k)
          ==> n < m)
  }

  ghost predicate RowFor(j: B.Journal, log: seq<T.LogRow>, n: int, i: int) {
    0 <= n < |log| && 0 <= i < |j.enqueued| && log[n].key == j.enqueued[i].envelope.Key()
  }

  ghost predicate Matches(j: B.Journal, g: Uuid, log: seq<T.LogRow>) {
    && B.FifoJournal(j)
    && Keys(j, g)
    && RowsOnlyForPicked(j, log)
    && AckedHaveRows(j, log)
    && RowsInOrder(j, log)
  }

  /** A recorded reply names a row of the log that records the item it was given for. */
  ghost predicate ReplyOk(w: World, item: B.Item, reply: T.ResultReply) {
    && B.InTurn(w.Journal(item.envelope.group), item)
    && (reply.Recorded? ==> RowOf(w.db.log, reply.id - 1, item))
  }

  ghost predicate Sound(w: World) {
    && B.Good(w.box)
    && T.LogOk(w.db.log)
    && (forall g :: Matches(w.Journal(g), g, w.db.log))
    && RepliesOk(w)
  }

  ghost predicate RepliesOk(w: World) {
    forall r :: r in w.replies ==> ReplyOk(w, r.0, r.1)
  }

  lemma AppendKeepsMatch(j: B.Journal, g: Uuid, log: seq<T.LogRow>, e: Envelope)
    requires Matches(j, g, log) && e.group == g
    requires forall i :: 0 <= i < |j.enqueued| ==> j.enqueued[i].envelope.Key() != e.Key()
    requires forall n :: 0 <= n < |log| ==> log[n].key != e.Key()
    ensures Matches(B.Append(j, e), g, log)
  {
    var k := B.Append(j, e);
    B.AppendKeepsFifo(j, e);
    assert forall n, i :: RowFor(k, log, n, i) ==> RowFor(j, log, n, i);
  }

  lemma SameResultsKeepMatch(j: B.Journal, k: B.Journal, g: Uuid, log: seq<T.LogRow>)
    requires Matches(j, g, log) && B.FifoJournal(k)
    requires k.enqueued == j.enqueued && k.removed == j.removed && k.verdicts == j.verdicts
    ensures Matches(k, g, log)
  {
    assert forall n, i :: RowFor(k, log, n, i) ==> RowFor(j, log, n, i);
  }

  lemma RemoveKeepsMatch(j: B.Journal, g: Uuid, log: seq<T.LogRow>, item: B.Item, verdict: B.Verdict)
    requires Matches(j, g, log) && B.InTurn(j, item)
    requires verdict.Acked? ==> exists n :: RowOf(log, n, item)
    ensures Matches(B.RemoveHead(j, item, verdict), g, log)
  {
    var k := B.RemoveHead(j, item, verdict);
    B.RemoveHeadKeepsFifo(j, item, verdict);
    if B.Removes(j, item) {
      forall n, i | RowFor(k, log, n, i)
        ensures RowFor(j, log, n, i) && i <= |j.removed|
      {
        assert RowFor(j, log, n, i);
      }
      forall i | 0 <= i < |k.removed| && k.verdicts[i].Acked?
        ensures exists n :: RowOf(log, n, k.removed[i])
      {
        if i < |j.removed| {
          assert k.removed[i] == j.removed[i] && k.verdicts[i] == j.verdicts[i];
        } else {
          assert k.removed[i] == item && k.verdicts[i] == verdict;
        }
      }
      forall i, x, n, m | 0 <= i < x && i < |k.removed| && k.verdicts[i].Acked? && RowFor(k, log, n, i) && RowFor(k, log, m, x)
        ensures n < m
      {
        assert x <= |j.removed| && k.verdicts[i] == j.verdicts[i];
        assert RowFor(j, log, n, i) && RowFor(j, log, m, x);
      }
    }
  }

  lemma LogRowKeepsMatch(j: B.Journal, g: Uuid, log: seq<T.LogRow>, row: T.LogRow)
    requires Matches(j, g, log)
    requires forall n :: 0 <= n < |log| ==> log[n].key != row.key
    requires forall i :: 0 <= i < |j.enqueued| && j.enqueued[i].envelope.Key() == row.key ==> i <= |j.removed|
    ensures Matches(j, g, log + [row])
  {
    var longer := log + [row];
    forall i | 0 <= i < |j.removed| && j.verdicts[i].Acked? ensures exists n :: RowOf(longer, n, j.removed[i]) {
      var n :| RowOf(log, n, j.removed[i]);
      assert RowOf(longer, n, j.removed[i]);
    }
    forall i, k, n, m | 0 <= i < k && i < |j.removed| && j.verdicts[i].Acked? && RowFor(j, longer, n, i) && RowFor(j, longer, m, k)
      ensures n < m
    {
      var first :| RowOf(log, first, j.removed[i]);
      assert j.enqueued[i] == j.removed[i];
      assert n != |log|;
      assert RowFor(j, log, n, i);
      assert m < |log| ==> RowFor(j, log, m, k);
    }
    forall n, i | RowFor(j, longer, n, i) ensures i <= |j.removed| {
      assert n < |log| ==> RowFor(j, log, n, i);
    }
  }

  // ------------------------------------------------------------ every reachable world

  lemma RowOfStays(log: seq<T.LogRow>, longer: seq<T.LogRow>, n: int, item: B.Item)
    requires log <= longer && RowOf(log, n, item)
    ensures RowOf(longer, n, item)
  {
  }

  lemma OtherJournals(box: B.State, e: B.Event, g: Uuid)
    requires B.Allowed(box, e) && !(e.On? && e.group == g)
    ensures B.Apply(box, e).At(g).journal == box.At(g).journal
  {
  }

  /** A step of the outbox keeps every group in agreement with the log. */
  lemma BoxStepKeepsMatch(w: World, e: B.Event, g: Uuid)
    requires Sound(w) && B.Allowed(w.box, e)
    requires e.On? && e.step.Enqueue? ==> FreshKey(w, e.step.envelope.Key())
    requires e.On? && e.step.Settle? && e.step.verdict.Acked? ==>
               exists n :: RowOf(w.db.log, n, w.At(e.group).drainers[e.step.drainer].item)
    ensures Matches(B.Apply(w.box, e).At(g).journal, g, w.db.log)
    ensures B.Extends(w.Journal(g), B.Apply(w.box, e).At(g).journal)
  {
    var j := w.Journal(g);
    if e.On? && e.group == g {
      var c := w.At(g);
      assert B.ChannelOk(c, w.box.closed);
      B.FifoJournalPreserved(c, w.box.closed, e.step);
      ChannelStepKeepsMatch(c, w.box.closed, g, w.db.log, e.step);
    } else {
      OtherJournals(w.box, e, g);
    }
  }

  lemma ChannelStepKeepsMatch(c: B.Channel, closed: bool, g: Uuid, log: seq<T.LogRow>, step: B.Step)
    requires B.Fifo(c) && Matches(c.journal, g, log) && B.Enabled(c, step)
    requires step.Enqueue? ==>
      && step.envelope.group == g
      && (forall i :: 0 <= i < |c.journal.enqueued| ==> c.journal.enqueued[i].envelope.Key() != step.envelope.Key())
      && (forall n :: 0 <= n < |log| ==> log[n].key != step.envelope.Key())
    requires step.Settle? && step.verdict.Acked? ==> exists n :: RowOf(log, n, c.drainers[step.drainer].item)
    ensures Matches(B.Next(c, closed, step).journal, g, log)
  {
    B.FifoJournalPreserved(c, closed, step);
    match step
    case Enqueue(e) => AppendKeepsMatch(c.journal, g, log, e);
    case Settle(d, verdict) => RemoveKeepsMatch(c.journal, g, log, c.drainers[d].item, verdict);
    case _ => SameResultsKeepMatch(c.journal, B.Next(c, closed, step).journal, g, log);
  }

  lemma BoxStepSound(w: World, e: B.Event)
    requires Sound(w) && B.Allowed(w.box, e)
    requires e.On? && e.step.Enqueue? ==> FreshKey(w, e.step.envelope.Key())
    requires e.On? && e.step.Settle? && e.step.verdict.Acked? ==>
               exists n :: RowOf(w.db.log, n, w.At(e.group).drainers[e.step.drainer].item)
    ensures Sound(w.(box := B.Apply(w.box, e)))
  {
    var n := w.(box := B.Apply(w.box, e));
    B.GoodPreserved(w.box, e);
    forall g ensures Matches(n.Journal(g), g, n.db.log) {
      BoxStepKeepsMatch(w, e, g);
    }
    forall r | r in n.replies ensures ReplyOk(n, r.0, r.1) {
      BoxStepKeepsMatch(w, e, r.0.envelope.group);
    }
  }

  /** Nobody's key, or that of a result that was picked already. */
  ghost predicate PickedOrForeign(j: B.Journal, key: ResultKey) {
    forall i :: 0 <= i < |j.enqueued| && j.enqueued[i].envelope.Key() == key ==> i <= |j.removed|
  }

  lemma LogStepKeepsMatch(j: B.Journal, g: Uuid, log: seq<T.LogRow>, longer: seq<T.LogRow>)
    requires Matches(j, g, log) && T.LogOk(longer) && log <= longer && |longer| <= |log| + 1
    requires |log| < |longer| ==> PickedOrForeign(j, longer[|log|].key)
    ensures Matches(j, g, longer)
  {
    if |log| < |longer| {
      assert longer == log + [longer[|log|]];
      LogRowKeepsMatch(j, g, log, longer[|log|]);
    } else {
      assert longer == log;
    }
  }

  /** The log may gain one row, foreign to the agent or for a picked result; rows stay where they are. */
  lemma LogStepSound(w: World, db: T.Tables)
    requires Sound(w) && T.LogOk(db.log) && w.db.log <= db.log && |db.log| <= |w.db.log| + 1
    requires |w.db.log| < |db.log| ==> forall g :: PickedOrForeign(w.Journal(g), db.log[|w.db.log|].key)
    ensures Sound(w.(db := db))
  {
    var n := w.(db := db);
    forall g ensures Matches(n.Journal(g), g, n.db.log) {
      assert Matches(w.Journal(g), g, w.db.log);
      assert |w.db.log| < |db.log| ==> PickedOrForeign(w.Journal(g), db.log[|w.db.log|].key);
      LogStepKeepsMatch(w.Journal(g), g, w.db.log, db.log);
    }
    forall r | r in n.replies ensures ReplyOk(n, r.0, r.1) {
      assert ReplyOk(w, r.0, r.1);
      if r.1.Recorded? {
        RowOfStays(w.db.log, db.log, r.1.id - 1, r.0);
      }
    }
  }

  /** A picked item's key belongs to that item alone. */
  lemma PickedKeyIsKnown(w: World, item: B.Item, g: Uuid)
    requires Sound(w) && item in w.Journal(item.envelope.group).picked
    ensures B.InTurn(w.Journal(item.envelope.group), item)
    ensures PickedOrForeign(w.Journal(g), item.envelope.Key())
  {
    var j := w.Journal(item.envelope.group);
    assert Matches(j, item.envelope.group, w.db.log) && Matches(w.Journal(g), g, w.db.log);
    var k :| 0 <= k < |j.picked| && j.picked[k] == item;
    assert B.InTurn(j, item);
  }

  /** Serving a request records the item under its own key and nothing else. */
  lemma ServedItemHasRow(db: T.Tables, item: B.Item, device: int, now: int)
    requires T.LogOk(db.log)
    ensures var (reply, after) := T.Submit(db, device, Some(item.envelope.Key()), item.envelope, now);
            && T.LogOk(after.log) && db.log <= after.log && |after.log| <= |db.log| + 1
            && (|db.log| < |after.log| ==> after.log[|db.log|].key == item.envelope.Key())
            && (reply.Recorded? ==> RowOf(after.log, reply.id - 1, item))
  {
    var e := item.envelope;
    var op := T.AcceptResult(device, T.Stored(e), now);
    T.StepAppends(db, op);
    T.LogOkPreserved(db, op);
    if T.Submit(db, device, Some(e.Key()), e, now).0.Recorded? {
      T.StoreTimeIsExactForWholeSeconds(e.started);
      T.StoreTimeIsExactForWholeSeconds(e.finished);
      T.AcceptedIsLogged(db, device, T.Stored(e), now);
    }
  }

  lemma ServeSound(w: World, item: B.Item, device: int, now: int)
    requires Sound(w) && Enabled(w, Serve(item, device, now))
    ensures Sound(Next(w, Serve(item, device, now)))
  {
    var e := item.envelope;
    var (reply, db) := T.Submit(w.db, device, Some(e.Key()), e, now);
    ServedItemHasRow(w.db, item, device, now);
    forall g ensures PickedOrForeign(w.Journal(g), e.Key()) {
      PickedKeyIsKnown(w, item, g);
    }
    LogStepSound(w, db);
    PickedKeyIsKnown(w, item, e.group);
    ReplySound(w.(db := db), item, reply);
  }

  lemma ReplySound(w: World, item: B.Item, reply: T.ResultReply)
    requires Sound(w) && ReplyOk(w, item, reply)
    ensures Sound(w.(replies := w.replies + {(item, reply)}))
  {
    var n := w.(replies := w.replies + {(item, reply)});
    forall g ensures Matches(n.Journal(g), g, n.db.log) {
      assert Matches(w.Journal(g), g, w.db.log);
    }
    forall r | r in n.replies ensures ReplyOk(n, r.0, r.1) {
      assert r in w.replies ==> ReplyOk(w, r.0, r.1);
    }
  }

  lemma ElsewhereSound(w: World, op: T.Op)
    requires Sound(w) && Enabled(w, Elsewhere(op))
    ensures Sound(Next(w, Elsewhere(op)))
  {
    T.StepAppends(w.db, op);
    T.LogOkPreserved(w.db, op);
    if op.AcceptResult? {
      forall g ensures PickedOrForeign(w.Journal(g), op.payload.Key()) {
        assert Matches(w.Journal(g), g, w.db.log);
        ForeignKeyIsNobodys(w, op.payload.Key(), g);
      }
    }
    LogStepSound(w, T.Do(w.db, op));
  }

  lemma ForeignKeyIsNobodys(w: World, key: ResultKey, g: Uuid)
    requires !OwnKey(w, key) && Keys(w.Journal(g), g)
    ensures PickedOrForeign(w.Journal(g), key)
  {
  }

  lemma DeliverSound(w: World, g: Uuid, d: nat, reply: T.ResultReply)
    requires Sound(w) && Enabled(w, Deliver(g, d, reply))
    ensures Sound(Next(w, Deliver(g, d, reply)))
  {
    var item := w.At(g).drainers[d].item;
    assert ReplyOk(w, item, reply);
    assert reply.Recorded? ==> RowOf(w.db.log, reply.id - 1, item);
    BoxStepSound(w, B.On(g, AfterReply(d, reply)));
  }

  lemma StepSound(w: World, step: Step)
    requires Sound(w) && Enabled(w, step)
    ensures Sound(Next(w, step))
  {
    match step
    case Local(e) => BoxStepSound(w, e);
    case Serve(item, device, now) => ServeSound(w, item, device, now);
    case Deliver(g, d, reply) =>
      DeliverSound(w, g, d, reply);
    case Fail(g, d, f, halted) => BoxStepSound(w, B.On(g, AfterFailure(d, f, halted)));
    case Elsewhere(op) => ElsewhereSound(w, op);
  }

  lemma {:induction false} RunIsSound(run: Run, k: nat)
    requires Starts(run) && k < |run.states|
    ensures Sound(run.states[k])
  {
    if k == 0 {
      var w := run.states[0];
      assert forall g :: w.Journal(g) == B.FRESH.journal;
    } else {
      RunIsSound(run, k - 1);
      StepSound(run.states[k - 1], run.steps[k - 1]);
    }
  }

  /**
    Exactly once, end to end. For every interleaving of sends, lost or repeated requests, lost
    replies and retries: each idempotency key has at most one row; a result that has left its
    queue either has exactly one row with its content, or an attempt to send it failed for
    good; and the rows of acknowledged results follow the order of their group.
   */
  lemma ExactlyOnce(run: Run, k: nat, g: Uuid)
    requires Starts(run) && k < |run.states|
    ensures var j := run.states[k].Journal(g);
            var log := run.states[k].db.log;
            && (forall n, m :: 0 <= n < m < |log| ==> log[n].key != log[m].key)
            && j.enqueued == j.removed + j.queue && |j.verdicts| == |j.removed|
            && (forall i :: 0 <= i < |j.removed| ==>
                  j.verdicts[i].Refused? || exists n :: RowOf(log, n, j.removed[i]))
            && RowsInOrder(j, log)
  {
    RunIsSound(run, k);
    var w := run.states[k];
    assert Matches(w.Journal(g), g, w.db.log);
  }

  /**
    A result leaves its queue only from the head, and only because the server has a row for it
    or because an attempt to send it failed in a way that is classified as final.
   */
  lemma LeavesQueueForCause(w: World, step: Step, g: Uuid)
    requires RepliesOk(w) && Enabled(w, step)
    requires Next(w, step).Journal(g).removed != w.Journal(g).removed
    ensures w.Journal(g).queue != []
    ensures Next(w, step).Journal(g).removed == w.Journal(g).removed + [w.Journal(g).queue[0]]
    ensures Next(w, step).Journal(g).queue == w.Journal(g).queue[1..]
    ensures FinalOutcome(w.db.log, w.Journal(g).queue[0], step)
  {
    OnlySettlesRemove(w, EventOf(step), g);
    SettlesWithFinalOutcome(w, step);
  }

  lemma SettlesWithFinalOutcome(w: World, step: Step)
    requires RepliesOk(w) && Enabled(w, step) && !step.Serve? && !step.Elsewhere? && EventOf(step).On? && EventOf(step).step.Settle?
    ensures FinalOutcome(w.db.log, w.At(EventOf(step).group).drainers[EventOf(step).step.drainer].item, step)
  {
    if step.Deliver? && step.reply.Refused? {
      RefusalsAreFinal(step.reply.error);
    } else if step.Fail? {
      FailureOutcome(step.drainer, step.failure, step.halted);
    }
  }

  /** The outcome that takes an item off its queue. */
  ghost predicate FinalOutcome(log: seq<T.LogRow>, item: B.Item, step: Step) {
    match step
    case Deliver(_, _, reply) =>
      if reply.Recorded? then RowOf(log, reply.id - 1, item) else reply.error != T.Unavailable
    case Fail(_, _, failure, _) => Final(failure)
    case _ => false
  }

  /** The outbox event of a step that is not the server's. */
  function EventOf(step: Step): B.Event
    requires !step.Serve? && !step.Elsewhere?
  {
    match step
    case Local(e) => e
    case Deliver(g, d, reply) => B.On(g, AfterReply(d, reply))
    case Fail(g, d, f, halted) => B.On(g, AfterFailure(d, f, halted))
  }

  lemma OnlySettlesRemove(w: World, e: B.Event, g: Uuid)
    requires B.Allowed(w.box, e) && B.Apply(w.box, e).At(g).journal.removed != w.Journal(g).removed
    ensures e.On? && e.group == g && e.step.Settle? && B.Removes(w.Journal(g), w.At(g).drainers[e.step.drainer].item)
    ensures var j := B.Apply(w.box, e).At(g).journal;
            && j.removed == w.Journal(g).removed + [w.Journal(g).queue[0]] && j.queue == w.Journal(g).queue[1..]
            && j.verdicts == w.Journal(g).verdicts + [e.step.verdict]
  {
    if e.On? && e.group == g {
      B.OnlySettleRemoves(w.At(g), w.box.closed, e.step);
    }
  }

  /** The execution tables' refusals are final except when they are unavailable. */
  lemma RefusalsAreFinal(error: T.Error)
    ensures Classify(Raised(error), false) == (if error == T.Unavailable then Retry else Remove)
  {
  }

  // ------------------------------------------------------------ what becomes of a failed request

  /** The server or the client says that this request can never succeed. */
  predicate Permanent(f: Failure) {
    || f.ClientRejected? || f.SchemaMismatch?
    || ((f.Communication? || f.TransientServer? || f.OtherApi?)
        && (f.code == "claim_expired" || f.code == "not_found" || f.code == "invalid_request" || f.code == "schema_mismatch"))
  }

  /** The request may succeed later: the network, a busy server, or a reply that made no sense. */
  predicate Passing(f: Failure) {
    || f.Communication? || f.TransientServer? || f.Malformed?
    || (f.OtherApi? && (f.code == "rate_limited" || f.code == "server_error" || f.code == "unavailable" || f.code == "malformed_response"))
  }

  /** Neither the device nor its credential is the trouble, and waiting does not help. */
  predicate Final(f: Failure) {
    !f.DeviceInactive? && !f.Authentication? && (Permanent(f) || !Passing(f))
  }

  lemma FailureOutcome(d: nat, f: Failure, halted: bool)
    ensures AfterFailure(d, f, halted).Settle? <==> Final(f)
    ensures AfterFailure(d, f, halted) == B.GiveUp(d) <==> f.DeviceInactive? || (f.Authentication? && halted)
    ensures AfterFailure(d, f, halted) == B.Defer(d) <==>
              (f.Authentication? && !halted) || (!f.DeviceInactive? && !f.Authentication? && !Permanent(f) && Passing(f))
    ensures Final(f) ==>
              AfterFailure(d, f, halted) == B.Settle(d, B.Refused(if f.SchemaMismatch? then "schema_mismatch"
                                                                  else if f.Unexpected? then "invalid_request" else f.code))
  {
  }

  /**
    What a failed request does, at every step of every run: its drainer gives up exactly for an inactive
    device or a refused credential that halts, defers exactly for a refused credential that does not halt
    or a failure that may pass, and rejects the result in all other cases, which takes it off its queue
    exactly when it is still the head. Nothing else takes a result off after a failure.
   */
  lemma FailedRequestOutcome(run: Run, k: nat)
    requires Starts(run) && k < |run.steps| && run.steps[k].Fail?
    ensures var Fail(g, d, f, halted) := run.steps[k];
            var c, n := run.states[k].At(g), run.states[k + 1].At(g);
            && d in c.drainers && c.drainers[d].Sending? && d in n.drainers
            && var item := c.drainers[d].item;
               && (n.drainers[d] == B.Leaving <==> f.DeviceInactive? || (f.Authentication? && halted))
               && (n.drainers[d] == B.Deferred <==>
                     (f.Authentication? && !halted) || (!f.DeviceInactive? && !f.Authentication? && !Permanent(f) && Passing(f)))
               && (n.drainers[d].Notifying? <==> Final(f))
               && (Final(f) ==> n.drainers[d].item == item && n.drainers[d].verdict.Refused?)
               && (n.journal.removed != c.journal.removed <==> Final(f) && c.journal.queue != [] && c.journal.queue[0] == item)
    ensures forall h :: h != run.steps[k].group ==> run.states[k + 1].At(h) == run.states[k].At(h)
  {
    var step := RunStep(run, k, run.states[k], run.states[k + 1]);
    FailureOutcome(step.drainer, step.failure, step.halted);
    FailedStep(run.states[k], step.group, step.drainer, step.failure, step.halted);
  }

  lemma FailedStep(w: World, g: Uuid, d: nat, f: Failure, halted: bool)
    requires Enabled(w, Fail(g, d, f, halted))
    ensures var c, n := w.At(g), Next(w, Fail(g, d, f, halted)).At(g);
            var item := c.drainers[d].item;
            && d in n.drainers
            && n.drainers[d] == (match AfterFailure(d, f, halted)
                                 case Settle(_, verdict) => B.Notifying(item, verdict)
                                 case Defer(_) => B.Deferred
                                 case _ => B.Leaving)
            && (n.journal.removed != c.journal.removed <==> AfterFailure(d, f, halted).Settle? && c.journal.queue != [] && c.journal.queue[0] == item)
    ensures forall h :: h != g ==> Next(w, Fail(g, d, f, halted)).At(h) == w.At(h)
  {
  }

  /**
    What a reply does, at every step of every run: a recorded result is acknowledged with the reply's
    transitions, a busy server defers the drainer, and every other refusal rejects the result under its name.
   */
  lemma RepliedRequestOutcome(run: Run, k: nat)
    requires Starts(run) && k < |run.steps| && run.steps[k].Deliver?
    ensures var Deliver(g, d, reply) := run.steps[k];
            var c, n := run.states[k].At(g), run.states[k + 1].At(g);
            && d in c.drainers && c.drainers[d].Sending? && d in n.drainers
            && n.drainers[d] == match reply
                                case Recorded(_, _, transitions) => B.Notifying(c.drainers[d].item, B.Acked(transitions))
                                case Refused(Unavailable) => B.Deferred
                                case Refused(NotFound) => B.Notifying(c.drainers[d].item, B.Refused("not_found"))
                                case Refused(AlreadyClaimed) => B.Notifying(c.drainers[d].item, B.Refused("already_claimed"))
                                case Refused(ClaimExpired) => B.Notifying(c.drainers[d].item, B.Refused("claim_expired"))
                                case Refused(InvalidRequest) => B.Notifying(c.drainers[d].item, B.Refused("invalid_request"))
  {
    var step := RunStep(run, k, run.states[k], run.states[k + 1]);
    ReplyOutcome(step.drainer, step.reply);
  }

  lemma ReplyOutcome(d: nat, reply: T.ResultReply)
    ensures AfterReply(d, reply) == match reply
                                    case Recorded(_, _, transitions) => B.Settle(d, B.Acked(transitions))
                                    case Refused(Unavailable) => B.Defer(d)
                                    case Refused(NotFound) => B.Settle(d, B.Refused("not_found"))
                                    case Refused(AlreadyClaimed) => B.Settle(d, B.Refused("already_claimed"))
                                    case Refused(ClaimExpired) => B.Settle(d, B.Refused("claim_expired"))
                                    case Refused(InvalidRequest) => B.Settle(d, B.Refused("invalid_request"))
  {
  }

  // ------------------------------------------------------------ when the agent is told

  /** What the server answers to step `m`, which serves the item. */
  function AnswerOf(run: Run, m: nat): T.ResultReply
    requires m < |run.steps| < |run.states| && run.steps[m].Serve?
  {
    var Serve(item, device, now) := run.steps[m];
    T.Submit(run.states[m].db, device, Some(item.envelope.Key()), item.envelope, now).0
  }

  /** Step `m` serves the item and answers with this reply. */
  predicate Answers(run: Run, m: nat, item: B.Item, reply: T.ResultReply)
    requires m < |run.steps| < |run.states|
  {
    run.steps[m].Serve? && run.steps[m].item == item && AnswerOf(run, m) == reply
  }

  /** Step `m` serves the item, and the server accepts it and has no row for its key yet. */
  predicate Records(run: Run, m: nat, item: B.Item)
    requires m < |run.steps| < |run.states|
  {
    && run.steps[m].Serve? && run.steps[m].item == item && AnswerOf(run, m).Recorded?
    && T.Find(run.states[m].db.log, item.envelope.Key()).None?
  }

  lemma NewReplies(w: World, step: Step, r: (B.Item, T.ResultReply))
    requires Enabled(w, step) && r in Next(w, step).replies && r !in w.replies
    ensures step.Serve? && step.item == r.0
    ensures T.Submit(w.db, step.device, Some(r.0.envelope.Key()), r.0.envelope, step.now).0 == r.1
  {
  }

  /** Every reply on the network was given by an earlier step that served its item. */
  lemma {:induction false} Provenance(run: Run, k: nat, item: B.Item, reply: T.ResultReply)
    requires Starts(run) && k < |run.states| && (item, reply) in run.states[k].replies
    ensures exists m :: 0 <= m < k && Answers(run, m, item, reply)
  {
    if (item, reply) in run.states[k - 1].replies {
      Provenance(run, k - 1, item, reply);
    } else {
      NewReplies(run.states[k - 1], run.steps[k - 1], (item, reply));
      assert Answers(run, k - 1, item, reply);
    }
  }

  lemma {:induction false} RowsStay(run: Run, k: nat, l: nat)
    requires Starts(run) && k <= l < |run.states|
    ensures run.states[k].db.log <= run.states[l].db.log
  {
    if k < l {
      RowsStay(run, k, l - 1);
      LogGrows(run.states[l - 1], run.steps[l - 1]);
    }
  }

  lemma LogGrows(w: World, step: Step)
    requires Enabled(w, step)
    ensures w.db.log <= Next(w, step).db.log
  {
    match step
    case Serve(item, device, now) =>
      T.StepAppends(w.db, T.AcceptResult(device, T.Stored(item.envelope), now));
    case Elsewhere(op) => T.StepAppends(w.db, op);
    case _ =>
  }

  lemma RecordedIsFound(run: Run, m: nat, item: B.Item)
    requires Starts(run) && m < |run.steps| && Records(run, m, item)
    ensures T.Find(run.states[m + 1].db.log, item.envelope.Key()).Some?
  {
    RunIsSound(run, m);
    var Serve(_, device, now) := run.steps[m];
    ServedItemHasRow(run.states[m].db, item, device, now);
    T.FindIsExact(run.states[m + 1].db.log, item.envelope.Key());
  }

  /** At most one step records an item. */
  lemma RecordedOnce(run: Run, m: nat, n: nat, item: B.Item)
    requires Starts(run) && m < |run.steps| && n < |run.steps| && Records(run, m, item) && Records(run, n, item)
    ensures m == n
  {
    if m != n {
      var first, last := if m < n then m else n, if m < n then n else m;
      RecordedIsFound(run, first, item);
      RowsStay(run, first + 1, last);
      T.FindIsExact(run.states[first + 1].db.log, item.envelope.Key());
      T.FindIsExact(run.states[last].db.log, item.envelope.Key());
    }
  }

  /** The status change that the server makes when it records the envelope in these tables. */
  function ChangesFor(db: T.Tables, e: Envelope): seq<Transition>
    requires e.schedule in db.groups && e.detail in db.details
  {
    if e.manual.Some? then [if e.code == 0 then ManualDone(e.manual.value) else ManualFailed(e.manual.value)]
    else if e.code != 0 && db.groups[e.schedule].errorStop then [GroupError(e.schedule)]
    else if e.code != 0 && db.details[e.detail].errorStop then [DetailError(e.detail)]
    else []
  }

  lemma AcceptedTransitions(db: T.Tables, device: int, e: Envelope, now: int)
    requires T.Submit(db, device, Some(e.Key()), e, now).0.Recorded?
    ensures e.schedule in db.groups && e.detail in db.details
    ensures var reply := T.Submit(db, device, Some(e.Key()), e, now).0;
            && (T.Find(db.log, e.Key()).None? <==> !reply.duplicate)
            && reply.transitions == if T.Find(db.log, e.Key()).None? then ChangesFor(db, e) else []
  {
  }

  lemma DeliveredReply(run: Run, k: nat, item: B.Item) returns (m: nat)
    requires Starts(run) && k < |run.steps| && run.steps[k].Deliver? && run.steps[k].reply.Recorded?
    requires Enabled(run.states[k], run.steps[k])
    requires run.states[k].At(run.steps[k].group).drainers[run.steps[k].drainer].item == item
    ensures m < k && Answers(run, m, item, run.steps[k].reply)
    ensures Records(run, m, item) <==> !run.steps[k].reply.duplicate
    ensures item.envelope.schedule in run.states[m].db.groups && item.envelope.detail in run.states[m].db.details
    ensures run.steps[k].reply.transitions ==
            if Records(run, m, item) then ChangesFor(run.states[m].db, item.envelope) else []
  {
    Provenance(run, k, item, run.steps[k].reply);
    m :| 0 <= m < k && Answers(run, m, item, run.steps[k].reply);
    AcceptedTransitions(run.states[m].db, run.steps[m].device, item.envelope, run.steps[m].now);
  }

  /**
    What the agent is told, in every run. When a drainer is handed the reply to its item, the
    transitions in it are the status change of the one step that recorded the item if it is that
    step's reply, and none if it is not: the change itself is made once, whoever hears of it.
   */
  lemma ToldByTheRecordingReplyOnly(run: Run, k: nat, m: nat, item: B.Item)
    requires Starts(run) && m < k < |run.steps| && Records(run, m, item)
    requires run.steps[k].Deliver? && run.steps[k].reply.Recorded?
    requires run.states[k].At(run.steps[k].group).drainers[run.steps[k].drainer].item == item
    requires Enabled(run.states[k], run.steps[k])
    ensures item.envelope.schedule in run.states[m].db.groups && item.envelope.detail in run.states[m].db.details
    ensures run.steps[k].reply.transitions ==
            if run.steps[k].reply == AnswerOf(run, m) then ChangesFor(run.states[m].db, item.envelope) else []
    ensures run.steps[k].reply == AnswerOf(run, m) <==> !run.steps[k].reply.duplicate
  {
    var n := DeliveredReply(run, k, item);
    AcceptedTransitions(run.states[m].db, run.steps[m].device, item.envelope, run.steps[m].now);
    if Records(run, n, item) {
      RecordedOnce(run, m, n, item);
    }
  }

  /** The step that serves the item records it, and thereby stops its schedule on the server. */
  predicate StopsSchedule(run: Run, m: nat, item: B.Item)
    requires m < |run.steps| < |run.states|
  {
    && Records(run, m, item)
    && item.envelope.manual.None? && item.envelope.code != 0
    && item.envelope.schedule in run.states[m].db.groups && run.states[m].db.groups[item.envelope.schedule].errorStop
  }

  /** The verdict, which the executor is told next, reports an error of the item's schedule. */
  predicate Tells(verdict: B.Verdict, item: B.Item) {
    verdict.Acked? && GroupError(item.envelope.schedule) in verdict.transitions
  }

  lemma StopsIffChange(run: Run, m: nat, item: B.Item)
    requires m < |run.steps| < |run.states| && Records(run, m, item)
    requires item.envelope.schedule in run.states[m].db.groups && item.envelope.detail in run.states[m].db.details
    ensures StopsSchedule(run, m, item) <==> GroupError(item.envelope.schedule) in ChangesFor(run.states[m].db, item.envelope)
  {
  }

  /**
    The agent is told of an error stop exactly when the reply it is handed was given by the step that
    recorded the result: the server had no row for the key, the result is a failure of a regular
    task, and the schedule stops on errors. In every run, at every step that takes a result off its queue.
   */
  lemma AgentIsToldIff(run: Run, k: nat, g: Uuid)
    requires Starts(run) && k < |run.steps| && run.states[k + 1].Journal(g).removed != run.states[k].Journal(g).removed
    ensures run.states[k].Journal(g).queue != []
    ensures var item := run.states[k].Journal(g).queue[0];
            && run.states[k + 1].Journal(g).removed == run.states[k].Journal(g).removed + [item]
            && |run.states[k + 1].Journal(g).verdicts| == |run.states[k].Journal(g).removed| + 1
            && (Tells(run.states[k + 1].Journal(g).verdicts[|run.states[k].Journal(g).removed|], item)
                <==> run.steps[k].Deliver?
                     && exists m :: 0 <= m < k && StopsSchedule(run, m, item) && AnswerOf(run, m) == run.steps[k].reply)
  {
    var item, verdict := RemovedItem(run, k, g);
    if run.steps[k].Deliver? && run.steps[k].reply.Recorded? {
      var m := DeliveredReply(run, k, item);
      if Records(run, m, item) {
        StopsIffChange(run, m, item);
      }
      if Tells(verdict, item) {
        assert StopsSchedule(run, m, item) && AnswerOf(run, m) == run.steps[k].reply;
      } else {
        forall n | 0 <= n < k && StopsSchedule(run, n, item)
          ensures AnswerOf(run, n) != run.steps[k].reply
        {
          ToldByTheRecordingReplyOnly(run, k, n, item);
          StopsIffChange(run, n, item);
        }
      }
    }
  }

  lemma RemovedItem(run: Run, k: nat, g: Uuid) returns (item: B.Item, verdict: B.Verdict)
    requires Starts(run) && k < |run.steps| && run.states[k + 1].Journal(g).removed != run.states[k].Journal(g).removed
    ensures run.states[k].Journal(g).queue != [] && item == run.states[k].Journal(g).queue[0]
    ensures run.states[k + 1].Journal(g).removed == run.states[k].Journal(g).removed + [item]
    ensures |run.states[k].Journal(g).verdicts| == |run.states[k].Journal(g).removed|
    ensures run.states[k + 1].Journal(g).verdicts == run.states[k].Journal(g).verdicts + [verdict]
    ensures Enabled(run.states[k], run.steps[k])
    ensures run.steps[k].Deliver? ==> run.steps[k].group == g && run.states[k].At(g).drainers[run.steps[k].drainer].item == item
    ensures verdict.Acked? <==> run.steps[k].Deliver? && run.steps[k].reply.Recorded?
    ensures verdict.Acked? ==> verdict.transitions == run.steps[k].reply.transitions
  {
    RunIsSound(run, k);
    item, verdict := SettledItem(run.states[k], run.steps[k], g);
    assert Matches(run.states[k].Journal(g), g, run.states[k].db.log);
  }

  lemma SettledItem(w: World, step: Step, g: Uuid) returns (item: B.Item, verdict: B.Verdict)
    requires Enabled(w, step) && Next(w, step).Journal(g).removed != w.Journal(g).removed
    ensures w.Journal(g).queue != [] && item == w.Journal(g).queue[0]
    ensures Next(w, step).Journal(g).removed == w.Journal(g).removed + [item]
    ensures Next(w, step).Journal(g).verdicts == w.Journal(g).verdicts + [verdict]
    ensures step.Deliver? ==> step.group == g && w.At(g).drainers[step.drainer].item == item
    ensures verdict.Acked? <==> step.Deliver? && step.reply.Recorded?
    ensures verdict.Acked? ==> verdict.transitions == step.reply.transitions
  {
    OnlySettlesRemove(w, EventOf(step), g);
    item, verdict := w.Journal(g).queue[0], EventOf(step).step.verdict;
  }

  /**
    So an error stop is lost exactly when another reply than the recording one takes the result off
    its queue, be it the reply to a repeated request, a refusal or a failure that counts as final.
   */
  lemma ErrorStopIsLostIff(run: Run, m: nat, k: nat, g: Uuid)
    requires Starts(run) && m < k < |run.steps| && run.states[k + 1].Journal(g).removed != run.states[k].Journal(g).removed
    requires run.states[k].Journal(g).queue != [] && StopsSchedule(run, m, run.states[k].Journal(g).queue[0])
    ensures var item := run.states[k].Journal(g).queue[0];
            && run.states[m + 1].db.groups[item.envelope.schedule].error
            && |run.states[k + 1].Journal(g).verdicts| == |run.states[k].Journal(g).removed| + 1
            && (!Tells(run.states[k + 1].Journal(g).verdicts[|run.states[k].Journal(g).removed|], item)
                <==> !(run.steps[k].Deliver? && run.steps[k].reply == AnswerOf(run, m)))
  {
    var item, verdict := RemovedItem(run, k, g);
    var Serve(_, device, now) := run.steps[m];
    AcceptedTransitions(run.states[m].db, device, item.envelope, now);
    T.TransitionsAreTheChanges(run.states[m].db, device, T.Stored(item.envelope), now);
    if run.steps[k].Deliver? && run.steps[k].reply.Recorded? {
      ToldByTheRecordingReplyOnly(run, k, m, item);
      StopsIffChange(run, m, item);
    }
  }

  /**
    When the reply to a failing result is lost, the schedule is stopped on the server, but the
    reply to the repeated request is a success without transitions: the agent never hears of it.
   */
  lemma LostReplySilencesErrorStop(w: World, g: Uuid, d: nat, item: B.Item, device: int, now: int, later: int)
    requires Sound(w) && d in w.At(g).drainers && w.At(g).drainers[d] == B.Sending(item)
    requires item in w.Journal(item.envelope.group).picked
    requires T.Submit(w.db, device, Some(item.envelope.Key()), item.envelope, now).0
             == T.Recorded(|w.db.log| + 1, false, [GroupError(item.envelope.schedule)])
    ensures var once := Next(w, Serve(item, device, now));
            && Enabled(once, Serve(item, device, later))
            && var twice := Next(once, Serve(item, device, later));
               var reply := T.Recorded(|w.db.log| + 1, true, []);
               && item.envelope.schedule in twice.db.groups && twice.db.groups[item.envelope.schedule].error
               && Enabled(twice, Deliver(g, d, reply)) && AfterReply(d, reply) == B.Settle(d, B.Acked([]))
  {
    var e := item.envelope;
    T.SubmittedCanBeReplayed(w.db, device, e, now, later);
    T.TransitionsAreTheChanges(w.db, device, T.Stored(e), now);
  }

  // ------------------------------------------------------------ transitions are about the result they come with

  /** The transitions name the schedule, the detail or the manual run of this result, and no other. */
  predicate About(transitions: seq<Transition>, e: Envelope) {
    forall i :: 0 <= i < |transitions| ==>
      match transitions[i]
      case GroupError(schedule) => schedule == e.schedule
      case DetailError(detail) => detail == e.detail
      case ManualDone(m) => e.manual == Some(m)
      case ManualFailed(m) => e.manual == Some(m)
  }

  ghost predicate OwnReplies(w: World) {
    forall r :: r in w.replies && r.1.Recorded? ==> About(r.1.transitions, r.0.envelope)
  }

  predicate OwnVerdict(phase: B.Phase) {
    phase.Notifying? && phase.verdict.Acked? ==> About(phase.verdict.transitions, phase.item.envelope)
  }

  ghost predicate OwnNews(w: World) {
    OwnReplies(w) && forall g, d :: d in w.At(g).drainers ==> OwnVerdict(w.At(g).drainers[d])
  }

  lemma ChannelNews(c: B.Channel, closed: bool, step: B.Step, d: nat)
    requires B.Enabled(c, step) && d in B.Next(c, closed, step).drainers
    requires d in c.drainers ==> OwnVerdict(c.drainers[d])
    requires step.Settle? && step.verdict.Acked? ==> About(step.verdict.transitions, c.drainers[step.drainer].item.envelope)
    ensures OwnVerdict(B.Next(c, closed, step).drainers[d])
  {
  }

  lemma BoxNews(w: World, e: B.Event, g: Uuid, d: nat)
    requires OwnNews(w) && B.Allowed(w.box, e) && d in B.Apply(w.box, e).At(g).drainers
    requires e.On? && e.step.Settle? && e.step.verdict.Acked? ==>
               About(e.step.verdict.transitions, w.At(e.group).drainers[e.step.drainer].item.envelope)
    ensures OwnVerdict(B.Apply(w.box, e).At(g).drainers[d])
  {
    var before := w.At(g).drainers;
    assert d in before ==> OwnVerdict(before[d]);
    if e.On? && e.group == g {
      ChannelNews(w.At(g), w.box.closed, e.step, d);
    } else {
      assert B.Apply(w.box, e).At(g).drainers == before;
    }
  }

  lemma NewsStep(w: World, step: Step)
    requires OwnNews(w) && Enabled(w, step)
    ensures OwnNews(Next(w, step))
  {
    var n := Next(w, step);
    forall r | r in n.replies && r.1.Recorded? ensures About(r.1.transitions, r.0.envelope) {
      if r !in w.replies {
        NewReplies(w, step, r);
        AcceptedTransitions(w.db, step.device, r.0.envelope, step.now);
      }
    }
    forall g, d | d in n.At(g).drainers ensures OwnVerdict(n.At(g).drainers[d]) {
      if !step.Serve? && !step.Elsewhere? {
        BoxNews(w, EventOf(step), g, d);
      } else {
        assert d in w.At(g).drainers && n.At(g).drainers[d] == w.At(g).drainers[d];
      }
    }
  }

  /** In every run, what a drainer is about to report carries transitions of its own result only. */
  lemma {:induction false} NewsIsOwn(run: Run, k: nat, w: World)
    requires Starts(run) && k < |run.states| && w == run.states[k]
    ensures OwnNews(w)
  {
    if k > 0 {
      var before := run.states[k - 1];
      NewsIsOwn(run, k - 1, before);
      var step := RunStep(run, k - 1, before, w);
      NewsStep(before, step);
    }
  }

  lemma RunStep(run: Run, k: nat, w: World, next: World) returns (step: Step)
    requires IsRun(run) && k < |run.steps| && w == run.states[k] && next == run.states[k + 1]
    ensures step == run.steps[k] && Enabled(w, step) && next == Next(w, step)
  {
    step := run.steps[k];
  }
}
