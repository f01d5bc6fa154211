/**
  One run of the joined system, step by step: a task fails, its schedule is stopped on the server,
  the reply is lost, and the agent goes on to the next sequence.
 */
module ErrorStopLost {
  import opened Protocol
  import opened EndToEnd
  import E = Executor
  import D = Delivery
  import B = Outbox
  import T = ExecutionTables

  // Schedule 1 of device 7 stops on errors; detail 5 is its sequence 1, detail 6 its sequence 2. The context is 9.

  const FIRST: E.Job := E.Regular(9, 1, 1, 5)
  const SECOND: E.Job := E.Regular(9, 1, 2, 6)
  const FAILURE: E.Result := E.Result(0, 0, 1, None, "")
  const ITEM: B.Item := B.Item(E.EnvelopeOf(FIRST, FAILURE), 0)
  const TOLD: T.ResultReply := T.Recorded(1, false, [GroupError(1)])
  const REPEATED: T.ResultReply := T.Recorded(1, true, [])

  function Plan(): map<nat, seq<Uuid>> {
    map[1 := [5], 2 := [6]]
  }

  function InFirst(): E.Lane {
    E.Lane(true, Some(E.Context(9, Plan(), Plan(), false)), map[1 := [5]], [1], false)
  }

  function InSecond(): E.Lane {
    InFirst().(completion := map[2 := [6]], started := [1, 2])
  }

  function Agent(reserved: int, queued: int, lane: E.Lane, jobs: set<E.Job>, executing: set<E.Job>, results: set<E.Job>,
                 registered: set<E.Job>): E.State {
    E.State(reserved, queued, 4, false, map[1 := lane], map[], {}, jobs, executing, results, registered, {9})
  }

  function Tables(error: bool, log: seq<T.LogRow>): T.Tables {
    T.Tables(map[1 := T.GroupRow(7, true, error)],
             map[5 := T.DetailRow(1, false, false, false), 6 := T.DetailRow(1, false, false, false)], map[], log, map[])
  }

  const ROW: T.LogRow := T.LogRow(1, ResultKey(9, 5, 1), 1, None, 0, 0, 1, None, "")

  function Slots(reserved: int, queued: int): B.Slots {
    B.Slots(4, 4, 1, reserved, queued, false, false, 0, 0, 0)
  }

  function Joined(exec: E.State, slots: B.Slots, c: B.Channel, db: T.Tables, replies: set<(B.Item, T.ResultReply)>): World {
    World(exec, D.World(B.State(slots, false, map[9 := c]), db, replies))
  }

  function Origin(): World {
    World(E.Initial(4), D.World(B.State(Slots(0, 0), false, map[]), Tables(false, []), {}))
  }

  // ------------------------------------------------------------ reaching states

  ghost predicate Reaches(w: World) {
    exists run :: Starts(run) && run.states[0] == Origin() && run.states[|run.steps|] == w
  }

  lemma OriginBegins()
    ensures Begins(Origin())
  {
    assert B.TotalQueued(Origin().net.box.channels) == 0;
  }

  lemma OriginReached()
    ensures Reaches(Origin())
  {
    OriginBegins();
    var run := Run([Origin()], []);
    assert IsPatientRun(run) && run.states[|run.steps|] == Origin();
    assert Starts(run);
  }

  lemma Reach(w: World, step: Step, next: World)
    requires Reaches(w) && Enabled(w, step) && Unhurried(w, step) && next == Next(w, step)
    ensures Reaches(next)
  {
    var run :| Starts(run) && run.states[0] == Origin() && run.states[|run.steps|] == w;
    var longer := Run(run.states + [next], run.steps + [step]);
    forall k {:trigger longer.steps[k]} | 0 <= k < |longer.steps|
      ensures Enabled(longer.states[k], longer.steps[k]) && Unhurried(longer.states[k], longer.steps[k])
      ensures longer.states[k + 1] == Next(longer.states[k], longer.steps[k])
    {
      if k < |run.steps| {
        assert longer.steps[k] == run.steps[k];
      }
    }
    assert Starts(longer);
  }

  /** A drainer, a timer or a schedule call of the group acts. */
  lemma GroupMoves(exec: E.State, slots: B.Slots, c: B.Channel, db: T.Tables, replies: set<(B.Item, T.ResultReply)>,
                   step: B.Step, next: B.Channel)
    requires Reaches(Joined(exec, slots, c, db, replies))
    requires B.Enabled(c, step) && B.Unhurried(c, step) && next == B.Next(c, false, step)
    requires step.Schedule? || step.Start? || step.Pick? || step.Finish? || step.Fire?
    ensures Reaches(Joined(exec, slots, next, db, replies))
  {
    var w := Joined(exec, slots, c, db, replies);
    assert map[9 := c][9 := next] == map[9 := next];
    Reach(w, Network(D.Local(B.On(9, step))), Joined(exec, slots, next, db, replies));
  }

  lemma ServerMoves(exec: E.State, slots: B.Slots, c: B.Channel, db: T.Tables, replies: set<(B.Item, T.ResultReply)>,
                    now: int, reply: T.ResultReply, after: T.Tables)
    requires Reaches(Joined(exec, slots, c, db, replies)) && ITEM in c.journal.picked
    requires T.Submit(db, 7, Some(ITEM.envelope.Key()), ITEM.envelope, now) == (reply, after)
    ensures Reaches(Joined(exec, slots, c, after, replies + {(ITEM, reply)}))
  {
    var w := Joined(exec, slots, c, db, replies);
    Reach(w, Network(D.Serve(ITEM, 7, now)), Joined(exec, slots, c, after, replies + {(ITEM, reply)}));
  }

  // ------------------------------------------------------------ the agent's steps

  lemma TwoSequences()
    ensures var details := [E.Detail(5, 1), E.Detail(6, 2)];
            E.Grouped(details) == Plan() && Plan().Keys == {1, 2} && E.Least(Plan().Keys) == 1 && E.DistinctDetails(details)
  {
    assert 1 in Plan().Keys;
    var details := [E.Detail(5, 1), E.Detail(6, 2)];
    var none: seq<Uuid> := [];
    assert none + [5] == [5] && none + [6] == [6];
    assert details[..1] == [E.Detail(5, 1)] && [E.Detail(5, 1)][..0] == [];
    assert E.Grouped([E.Detail(5, 1)]) == map[1 := [5]];
  }

  lemma ContextStarts()
    ensures E.Next(E.Initial(4), E.StartGroup(1, true, [E.Detail(5, 1), E.Detail(6, 2)], 9, None))
            == Agent(1, 0, InFirst(), {FIRST}, {}, {}, {FIRST})
  {
    var details := [E.Detail(5, 1), E.Detail(6, 2)];
    TwoSequences();
    var o := E.Open(E.Initial(4), 1, details, 9);
    assert E.TasksAt(o.At(1), 1) == [5] && E.JobsOf(9, 1, 1, [5]) == {FIRST};
    assert o.At(1).completion[1 := [5]] == map[1 := [5]] && o.At(1).started + [1] == [1];
    assert E.Advance(o, 1, 1, None).lanes == map[1 := InFirst()];
    assert E.Advance(o, 1, 1, None).jobs == {FIRST};
  }

  lemma SequenceCrosses()
    ensures E.Acknowledge(Agent(0, 0, InFirst(), {}, {}, {}, {FIRST}), FIRST, [], None)
            == Agent(1, 0, InSecond(), {SECOND}, {}, {}, {FIRST, SECOND})
  {
    var s := Agent(0, 0, InFirst(), {}, {}, {}, {FIRST});
    assert E.Transit(s.At(1), []) == s.At(1);
    assert s.Put(1, s.At(1)).lanes == s.lanes;
    assert E.RemoveOne([5], 5) == [];
    var done := InFirst().(completion := map[]);
    assert InFirst().completion - {1} == map[];
    assert E.Later(done.context.value, 1) == {2};
    var o := s.Put(1, done);
    assert E.TasksAt(o.At(1), 2) == [6] && E.JobsOf(9, 1, 2, [6]) == {SECOND};
    assert done.completion[2 := [6]] == map[2 := [6]] && done.started + [2] == [1, 2];
    assert E.Advance(o, 1, 2, None).lanes == map[1 := InSecond()];
    assert E.Advance(o, 1, 2, None).jobs == {SECOND};
    assert E.Advance(o, 1, 2, None).registered == {FIRST, SECOND};
  }

  /** The group's channel while result and server are as the picks and drainers say; nothing is removed yet. */
  function Waiting(active: bool, sending: bool, timer: Option<nat>, drainers: map<nat, B.Phase>, owner: nat, armed: set<nat>,
                   pending: nat, ids: nat, picked: seq<B.Item>): B.Channel {
    B.Channel(B.Journal([ITEM], [ITEM], [], [], picked, []), active, sending, timer, drainers, owner, armed, pending, false, ids)
  }

  function Unanswered(): E.State {
    Agent(0, 1, InFirst(), {}, {}, {FIRST}, {FIRST})
  }

  /** The task is at work. */
  function Running(): World {
    World(Agent(1, 0, InFirst(), {}, {FIRST}, {}, {FIRST}),
          D.World(B.State(Slots(1, 0), false, map[]), Tables(false, []), {}))
  }

  lemma TaskRuns()
    ensures Reaches(Running())
  {
    var net := Origin().net;
    var taken := net.(box := net.box.(slots := Slots(1, 0)));
    var w1 := World(Agent(1, 0, InFirst(), {FIRST}, {}, {}, {FIRST}), net);
    var w2 := w1.(net := taken);
    OriginReached();
    TwoSequences();
    ContextStarts();
    Reach(Origin(), Execute(E.StartGroup(1, true, [E.Detail(5, 1), E.Detail(6, 2)], 9, None)), w1);
    Reach(w1, Network(D.Local(B.ReserveSlot)), w2);
    assert map[1 := InFirst()][1 := InFirst()] == map[1 := InFirst()];
    Reach(w2, Execute(E.Fire(FIRST)), Running());
  }

  /** The task has run and failed, and its result is queued. */
  function Queued(): World {
    Joined(Unanswered(), Slots(0, 1), Waiting(false, false, None, map[], 0, {}, 1, 0, []), Tables(false, []), {})
  }

  lemma EntryMade()
    ensures B.Allowed(Running().net.box, Entry(FIRST, FAILURE))
    ensures B.Apply(Running().net.box, Entry(FIRST, FAILURE)) == Queued().net.box
  {
    var c := Waiting(false, false, None, map[], 0, {}, 1, 0, []);
    var none: seq<B.Item> := [];
    assert none + [ITEM] == [ITEM];
    assert B.DoEnqueue(B.FRESH, ITEM.envelope) == c;
    assert Running().net.box.channels[9 := c] == map[9 := c];
  }

  lemma TaskReports()
    ensures E.ReportJob(Running().exec, FIRST) == Unanswered()
  {
    assert {FIRST} - {FIRST} == {};
  }

  lemma ResultQueued()
    ensures Reaches(Queued())
  {
    TaskRuns();
    EntryMade();
    TaskReports();
    Reach(Running(), Report(FIRST, FAILURE), Queued());
  }

  // ------------------------------------------------------------ the reply that is lost

  lemma FirstAnswer()
    ensures T.Submit(Tables(false, []), 7, Some(ITEM.envelope.Key()), ITEM.envelope, 0) == (TOLD, Tables(true, [ROW]))
  {
    var db, e := Tables(false, []), T.Stored(ITEM.envelope);
    var none: seq<T.LogRow> := [];
    assert none + [ROW] == [ROW];
    assert T.NewRow(db, e) == ROW;
    var after := T.Insert(db, e).1;
    assert after.running == map[] && after.log == [ROW];
    assert after.groups == map[1 := T.GroupRow(7, true, true)];
  }

  lemma SecondAnswer()
    ensures T.Submit(Tables(true, [ROW]), 7, Some(ITEM.envelope.Key()), ITEM.envelope, 1) == (REPEATED, Tables(true, [ROW]))
  {
    var db, e := Tables(true, [ROW]), T.Stored(ITEM.envelope);
    assert T.Find(db.log, ITEM.envelope.Key()) == Some(ROW);
    assert T.ClearRunning(db, e).running == map[];
  }

  /** The result was sent, and the server has recorded it and stopped the schedule. */
  ghost predicate Stopped(c: B.Channel, replies: set<(B.Item, T.ResultReply)>) {
    Reaches(Joined(Unanswered(), Slots(0, 1), c, Tables(true, [ROW]), replies))
  }

  lemma ResultIsPicked()
    ensures Reaches(Joined(Unanswered(), Slots(0, 1), Waiting(true, true, None, map[0 := B.Sending(ITEM)], 0, {}, 0, 1, [ITEM]),
                           Tables(false, []), {}))
  {
    var db := Tables(false, []);
    var c0 := Waiting(false, false, None, map[], 0, {}, 1, 0, []);
    var c1 := Waiting(true, false, None, map[0 := B.Submitted], 0, {}, 0, 1, []);
    var c2 := Waiting(true, true, None, map[0 := B.Ready], 0, {}, 0, 1, []);
    var c3 := Waiting(true, true, None, map[0 := B.Sending(ITEM)], 0, {}, 0, 1, [ITEM]);
    ResultQueued();
    GroupMoves(Unanswered(), Slots(0, 1), c0, db, {}, B.Schedule(false), c1);
    GroupMoves(Unanswered(), Slots(0, 1), c1, db, {}, B.Start(0), c2);
    GroupMoves(Unanswered(), Slots(0, 1), c2, db, {}, B.Pick(0, false), c3);
  }

  lemma ScheduleStops()
    ensures Stopped(Waiting(true, true, None, map[0 := B.Sending(ITEM)], 0, {}, 0, 1, [ITEM]), {(ITEM, TOLD)})
  {
    ResultIsPicked();
    FirstAnswer();
    var none: set<(B.Item, T.ResultReply)> := {};
    assert none + {(ITEM, TOLD)} == {(ITEM, TOLD)};
    ServerMoves(Unanswered(), Slots(0, 1), Waiting(true, true, None, map[0 := B.Sending(ITEM)], 0, {}, 0, 1, [ITEM]), Tables(false, []), {},
                0, TOLD, Tables(true, [ROW]));
  }

  /** A drainer is told how its request ended. */
  lemma DrainerMoves(c: B.Channel, replies: set<(B.Item, T.ResultReply)>, move: D.Step, step: B.Step, slots: B.Slots, next: B.Channel)
    requires Stopped(c, replies)
    requires (move.Fail? || move.Deliver?) && D.EventOf(move) == B.On(9, step)
    requires D.Enabled(Joined(Unanswered(), Slots(0, 1), c, Tables(true, [ROW]), replies).net, move)
    requires B.Enabled(c, step) && !step.Enqueue? && next == B.Next(c, false, step) && slots == B.SlotsAfter(Slots(0, 1), c, step)
    ensures Reaches(Joined(Unanswered(), slots, next, Tables(true, [ROW]), replies))
  {
    var w := Joined(Unanswered(), Slots(0, 1), c, Tables(true, [ROW]), replies);
    assert map[9 := c][9 := next] == map[9 := next];
    Reach(w, Network(move), Joined(Unanswered(), slots, next, Tables(true, [ROW]), replies));
  }

  /** The reply does not arrive; the drainer arms its timer and leaves. */
  lemma ReplyIsLost()
    ensures Stopped(Waiting(false, false, Some(1), map[], 0, {1}, 0, 2, [ITEM]), {(ITEM, TOLD)})
  {
    var c3 := Waiting(true, true, None, map[0 := B.Sending(ITEM)], 0, {}, 0, 1, [ITEM]);
    var c4 := Waiting(false, true, Some(1), map[0 := B.Deferred], 0, {1}, 0, 2, [ITEM]);
    var c5 := Waiting(false, false, Some(1), map[], 0, {1}, 0, 2, [ITEM]);
    ScheduleStops();
    DrainerMoves(c3, {(ITEM, TOLD)}, D.Fail(9, 0, D.Communication("timeout"), false), B.Defer(0), Slots(0, 1), c4);
    GroupMoves(Unanswered(), Slots(0, 1), c4, Tables(true, [ROW]), {(ITEM, TOLD)}, B.Finish(0, false), c5);
  }

  lemma ResultIsPickedAgain()
    ensures Stopped(Waiting(true, true, None, map[2 := B.Sending(ITEM)], 2, {}, 0, 3, [ITEM, ITEM]), {(ITEM, TOLD)})
  {
    var db := Tables(true, [ROW]);
    var c5 := Waiting(false, false, Some(1), map[], 0, {1}, 0, 2, [ITEM]);
    var c6 := Waiting(false, false, None, map[], 0, {}, 1, 2, [ITEM]);
    var c7 := Waiting(true, false, None, map[2 := B.Submitted], 2, {}, 0, 3, [ITEM]);
    var c8 := Waiting(true, true, None, map[2 := B.Ready], 2, {}, 0, 3, [ITEM]);
    var c9 := Waiting(true, true, None, map[2 := B.Sending(ITEM)], 2, {}, 0, 3, [ITEM, ITEM]);
    ReplyIsLost();
    GroupMoves(Unanswered(), Slots(0, 1), c5, db, {(ITEM, TOLD)}, B.Fire(1), c6);
    GroupMoves(Unanswered(), Slots(0, 1), c6, db, {(ITEM, TOLD)}, B.Schedule(false), c7);
    GroupMoves(Unanswered(), Slots(0, 1), c7, db, {(ITEM, TOLD)}, B.Start(2), c8);
    GroupMoves(Unanswered(), Slots(0, 1), c8, db, {(ITEM, TOLD)}, B.Pick(2, false), c9);
  }

  /** The timer fires, the result is sent again, and the server answers that it has it. */
  lemma ResultIsRepeated()
    ensures Stopped(Waiting(true, true, None, map[2 := B.Sending(ITEM)], 2, {}, 0, 3, [ITEM, ITEM]), {(ITEM, TOLD), (ITEM, REPEATED)})
  {
    ResultIsPickedAgain();
    SecondAnswer();
    assert {(ITEM, TOLD)} + {(ITEM, REPEATED)} == {(ITEM, TOLD), (ITEM, REPEATED)};
    ServerMoves(Unanswered(), Slots(0, 1), Waiting(true, true, None, map[2 := B.Sending(ITEM)], 2, {}, 0, 3, [ITEM, ITEM]),
                Tables(true, [ROW]), {(ITEM, TOLD)}, 1, REPEATED, Tables(true, [ROW]));
  }

  /** The result has left its queue, acknowledged without a word of the error. */
  function Acknowledged(phase: B.Phase, notified: seq<(B.Item, B.Verdict)>): B.Channel {
    B.Channel(B.Journal([], [ITEM], [ITEM], [B.Acked([])], [ITEM, ITEM], notified), true, true, None, map[2 := phase], 2, {}, 0, false, 3)
  }

  function Final(exec: E.State, phase: B.Phase, notified: seq<(B.Item, B.Verdict)>): World {
    Joined(exec, Slots(0, 0), Acknowledged(phase, notified), Tables(true, [ROW]), {(ITEM, TOLD), (ITEM, REPEATED)})
  }

  lemma ReplyDelivered()
    ensures Reaches(Final(Unanswered(), B.Notifying(ITEM, B.Acked([])), []))
  {
    var c9 := Waiting(true, true, None, map[2 := B.Sending(ITEM)], 2, {}, 0, 3, [ITEM, ITEM]);
    var next := Acknowledged(B.Notifying(ITEM, B.Acked([])), []);
    ResultIsRepeated();
    assert B.DoSettle(c9, 2, B.Acked([])) == next;
    DrainerMoves(c9, {(ITEM, TOLD), (ITEM, REPEATED)}, D.Deliver(9, 2, REPEATED), B.Settle(2, B.Acked([])), Slots(0, 0), next);
  }

  lemma QueueEmptied()
    ensures Reaches(Final(Unanswered().(queued := 0), B.Notifying(ITEM, B.Acked([])), []))
  {
    ReplyDelivered();
    Reach(Final(Unanswered(), B.Notifying(ITEM, B.Acked([])), []), Execute(E.OutboxMoves(0, false)),
          Final(Unanswered().(queued := 0), B.Notifying(ITEM, B.Acked([])), []));
  }

  lemma AgentHears(exec: E.State, after: E.State)
    requires Reaches(Final(exec, B.Notifying(ITEM, B.Acked([])), []))
    requires E.Acknowledge(exec.(results := exec.results - {FIRST}), FIRST, [], None) == after
    ensures Reaches(Final(after, B.Ready, [(ITEM, B.Acked([]))]))
  {
    var before, next := Final(exec, B.Notifying(ITEM, B.Acked([])), []), Final(after, B.Ready, [(ITEM, B.Acked([]))]);
    var c, d := Acknowledged(B.Notifying(ITEM, B.Acked([])), []), Acknowledged(B.Ready, [(ITEM, B.Acked([]))]);
    assert E.JobOf(ITEM.envelope) == FIRST;
    assert B.DoNotify(c, 2) == d;
    assert map[9 := c][9 := d] == map[9 := d];
    Reach(before, Notify(9, 2, None), next);
  }

  /**
    The server has stopped the schedule because of this very result, its row is in the log, the agent
    was told that the result arrived, and the next sequence's task is registered.
   */
  lemma StoppedScheduleGoesOn() returns (w: World)
    ensures Reaches(w)
    ensures 1 in w.net.db.groups && w.net.db.groups[1].error && w.net.db.log == [ROW] && ROW.code != 0
    ensures w.net.Journal(9).notified == [(ITEM, B.Acked([]))] && w.net.Journal(9).removed == w.net.Journal(9).enqueued == [ITEM]
    ensures w.exec.jobs == {SECOND} && w.exec.At(1) == InSecond() && !InSecond().context.value.stop
  {
    var exec, after := Unanswered().(queued := 0), Agent(1, 0, InSecond(), {SECOND}, {}, {}, {FIRST, SECOND});
    w := Final(after, B.Ready, [(ITEM, B.Acked([]))]);
    QueueEmptied();
    SequenceCrosses();
    assert {FIRST} - {FIRST} == {};
    AgentHears(exec, after);
  }

  /** The same of the network by itself: a run from its start in which the one result is acknowledged without the error. */
  lemma ErrorStopIsLost()
    ensures exists run: D.Run :: D.Starts(run) && LostAtEnd(run.states[|run.steps|])
  {
    var w := StoppedScheduleGoesOn();
    var run :| Starts(run) && run.states[0] == Origin() && run.states[|run.steps|] == w;
    KeysAreFresh(run);
    var part := NetRun(run);
    assert part.states[|part.steps|] == w.net;
    assert LostAtEnd(part.states[|part.steps|]);
  }

  predicate LostAtEnd(w: D.World) {
    && 1 in w.db.groups && w.db.groups[1].error
    && w.Journal(9).notified == [(ITEM, B.Acked([]))] && w.Journal(9).removed == w.Journal(9).enqueued == [ITEM]
  }
}
