/** What the executor keeps in every run: slots, attribution of acknowledgements, the sequence barrier. */
module ExecutorRuns {
  import opened Protocol
  import opened Executor

  // ------------------------------------------------------------ sequences

  lemma {:induction false} WithoutMembers(ids: seq<Uuid>, id: Uuid)
    ensures forall d :: d in Without(ids, id) <==> d in ids && d != id
    ensures NoDuplicates(ids) ==> NoDuplicates(Without(ids, id))
    ensures id !in ids ==> Without(ids, id) == ids
    decreases |ids|
  {
    if ids != [] {
      var rest := ids[1..];
      assert ids == [ids[0]] + rest;
      WithoutMembers(rest, id);
      if NoDuplicates(ids) {
        assert NoDuplicates(rest);
        assert ids[0] !in rest;
      }
    }
  }

  lemma {:induction false} RemoveOneMembers(ids: seq<Uuid>, id: Uuid)
    requires NoDuplicates(ids)
    ensures forall d :: d in RemoveOne(ids, id) <==> d in ids && d != id
    ensures NoDuplicates(RemoveOne(ids, id))
    ensures |RemoveOne(ids, id)| == |ids| - (if id in ids then 1 else 0)
    decreases |ids|
  {
    if ids != [] {
      assert ids == [ids[0]] + ids[1..];
      assert NoDuplicates(ids[1..]) && ids[0] !in ids[1..];
      RemoveOneMembers(ids[1..], id);
    }
  }

  /** Each sequence holds the details that have its number, and a detail is in one place. */
  lemma {:induction false} GroupedIsPlan(details: seq<Detail>)
    requires DistinctDetails(details)
    ensures forall q, d :: (q in Grouped(details) && d in Grouped(details)[q]) <==> Detail(d, q) in details
    ensures IsPlan(Grouped(details))
    decreases |details|
  {
    if details != [] {
      var init, last := details[..|details| - 1], details[|details| - 1];
      assert details == init + [last];
      GroupedIsPlan(init);
      var rest := Grouped(init);
      var before := if last.sequence in rest then rest[last.sequence] else [];
      assert last.id !in before by {
        if Detail(last.id, last.sequence) in init { assert false; }
      }
      assert Grouped(details) == rest[last.sequence := before + [last.id]];
      assert forall q, d :: (q in Grouped(details) && d in Grouped(details)[q]) <==> Detail(d, q) in details;
      forall q, r, d | q in Grouped(details) && r in Grouped(details) && d in Grouped(details)[q] && d in Grouped(details)[r]
        ensures q == r
      {
        assert Detail(d, q) in details && Detail(d, r) in details;
      }
    }
  }

  lemma {:induction false} JobsOfCount(context: Uuid, g: nat, q: nat, ids: seq<Uuid>)
    requires NoDuplicates(ids)
    ensures |JobsOf(context, g, q, ids)| == |ids|
    decreases |ids|
  {
    if ids != [] {
      assert ids == [ids[0]] + ids[1..];
      assert NoDuplicates(ids[1..]);
      JobsOfCount(context, g, q, ids[1..]);
      assert JobsOf(context, g, q, ids) == {Regular(context, g, q, ids[0])} + JobsOf(context, g, q, ids[1..]);
      assert Regular(context, g, q, ids[0]) !in JobsOf(context, g, q, ids[1..]);
    }
  }

  // ------------------------------------------------------------ one schedule's record

  ghost predicate Books(s: State) {
    Slots(s) && Accounts(s) && History(s)
  }

  /** The two records differ at most in marks: running, stop, stuck, and what is excluded. */
  ghost predicate SameDebts(a: Lane, b: Lane) {
    a.completion == b.completion && SamePast(a, b)
  }

  ghost predicate SamePast(a: Lane, b: Lane) {
    && a.started == b.started
    && (a.context.Some? <==> b.context.Some?)
    && (a.context.Some? ==> a.context.value.id == b.context.value.id && a.context.value.plan == b.context.value.plan)
  }

  lemma HistoryKept(s: State, t: State, g: nat, lane: Lane)
    requires History(s) && SamePast(s.At(g), lane)
    requires t.lanes == s.lanes[g := lane] && t.registered == s.registered && t.used == s.used
    ensures History(t)
  {
    forall j | j in t.registered
      ensures j.context in t.used && (j.Regular? ==> Recorded(t.At(j.schedule), j))
    {
      assert j.Regular? ==> Recorded(s.At(j.schedule), j);
    }
    forall h | t.At(h).context.Some?
      ensures t.At(h).context.value.id in t.used
    {
      assert s.At(h).context.Some?;
    }
  }

  lemma Relaned(s: State, g: nat, lane: Lane)
    requires Books(s) && SameDebts(s.At(g), lane)
    ensures Books(s.Put(g, lane))
  {
    var t := s.Put(g, lane);
    forall j: Job | j.Regular?
      ensures j in t.Live() <==> Owes(t.At(j.schedule), j)
    {
      assert j in s.Live() <==> Owes(s.At(j.schedule), j);
    }
    HistoryKept(s, t, g, lane);
  }

  lemma {:induction false} TransitKeeps(c: Context, transitions: seq<Transition>)
    requires Trimmed(c)
    ensures var n := ApplyTransitions(c, transitions);
            && Trimmed(n) && n.id == c.id && n.plan == c.plan && (c.stop ==> n.stop)
    decreases |transitions|
  {
    if transitions != [] {
      var n := ApplyOne(c, transitions[0]);
      if transitions[0].DetailError? {
        forall q | q in c.sequences {
          WithoutMembers(c.sequences[q], transitions[0].detail);
        }
      }
      TransitKeeps(n, transitions[1..]);
    }
  }

  /** The next sequence may start: nothing is outstanding, and `q` is the smallest one not started. */
  ghost predicate Poised(lane: Lane, q: nat) {
    && lane.context.Some?
    && Sketch(lane)
    && lane.running && !lane.stuck
    && lane.completion == map[]
    && q in Ahead(lane)
    && forall r :: r in Ahead(lane) ==> q <= r
  }

  lemma NothingLive(s: State, g: nat)
    requires Accounts(s) && s.At(g).completion == map[]
    ensures forall j :: j in s.Live() ==> !(j.Regular? && j.schedule == g)
    ensures forall q, ids :: ReplacedBy(s.jobs, g, q, ids) == {}
  {
    forall j | j in s.Live()
      ensures !(j.Regular? && j.schedule == g)
    {
      assert j.Regular? ==> Owes(s.At(j.schedule), j);
    }
    forall q, ids
      ensures ReplacedBy(s.jobs, g, q, ids) == {}
    {
      forall j | j in ReplacedBy(s.jobs, g, q, ids)
        ensures false
      {
        if j in s.Live() { assert false; }
      }
    }
  }

  lemma DeclinedShape(lane: Lane, q: nat)
    requires Poised(lane, q)
    ensures TasksAt(lane, q) == [] ==> Shape(lane.(running := false))
    ensures Shape(StopLane(lane).(running := false))
    ensures Sketch(StopLane(lane).(stuck := true)) && Shape(StopLane(lane).(stuck := true))
  {
    var idle := lane.(running := false);
    assert Ahead(idle) == Ahead(lane);
    assert q == Least(Ahead(idle));
    assert InOrder(idle) && InOrder(StopLane(idle)) && InOrder(StopLane(lane).(stuck := true));
  }

  ghost predicate OthersShaped(s: State, g: nat) {
    forall h :: h != g ==> Shape(s.At(h))
  }

  lemma AllShaped(s: State, t: State, g: nat, lane: Lane)
    requires OthersShaped(s, g) && Shape(lane)
    requires t.lanes == s.lanes[g := lane]
    ensures forall h :: Shape(t.At(h))
  {
    forall h
      ensures Shape(t.At(h))
    {
      if h != g {
        assert t.At(h) == s.At(h);
      }
    }
  }

  lemma AdvanceDeclined(s: State, g: nat, q: nat, fault: Option<nat>)
    requires Books(s) && OthersShaped(s, g) && Poised(s.At(g), q)
    requires ExecuteNext(s, g, q, fault).0 == Declined
    ensures Good(Advance(s, g, q, fault))
  {
    var lane := s.At(g);
    var final := (if TasksAt(lane, q) == [] then lane else StopLane(lane)).(running := false);
    DeclinedShape(lane, q);
    Relaned(s, g, final);
    var t := Advance(s, g, q, fault);
    assert t == s.Put(g, final) by {
      assert t.lanes == s.lanes[g := final];
    }
    AllShaped(s, t, g, final);
  }

  lemma RaisedState(s: State, g: nat, q: nat, fault: Option<nat>)
    requires Accounts(s) && s.At(g).context.Some? && s.At(g).completion == map[]
    requires ExecuteNext(s, g, q, fault).0 == Raised
    ensures Advance(s, g, q, fault) == s.Put(g, StopLane(s.At(g)).(stuck := true))
  {
    NothingLive(s, g);
    assert s.At(g).completion - {q} == map[];
    assert Advance(s, g, q, fault).lanes == s.lanes[g := StopLane(s.At(g)).(stuck := true)];
  }

  lemma AdvanceRaised(s: State, g: nat, q: nat, fault: Option<nat>)
    requires Books(s) && OthersShaped(s, g) && Poised(s.At(g), q)
    requires ExecuteNext(s, g, q, fault).0 == Raised
    ensures Good(Advance(s, g, q, fault))
  {
    var final := StopLane(s.At(g)).(stuck := true);
    DeclinedShape(s.At(g), q);
    RaisedState(s, g, q, fault);
    Relaned(s, g, final);
    AllShaped(s, s.Put(g, final), g, final);
  }

  function StartedLane(lane: Lane, q: nat, tasks: seq<Uuid>): Lane {
    lane.(completion := map[q := tasks], started := lane.started + [q])
  }

  lemma StartedShape(lane: Lane, q: nat)
    requires Poised(lane, q) && TasksAt(lane, q) != []
    ensures Shape(StartedLane(lane, q, TasksAt(lane, q)))
  {
    var t := StartedLane(lane, q, TasksAt(lane, q));
    var plan := lane.context.value.plan;
    assert forall r :: r in t.started <==> r in lane.started || r == q;
    forall i | 0 <= i < |lane.started|
      ensures lane.started[i] < q
    {
      assert lane.started[i] in lane.started;
    }
    assert InOrder(t) by {
      forall r, u | r in plan && u in t.started && r <= u
        ensures r in t.started
      {
        assert u == q ==> r in Ahead(lane) || r in lane.started;
      }
    }
    assert OneOpen(t) && q in t.completion;
  }

  lemma StartedFacts(s: State, g: nat, q: nat, fault: Option<nat>)
    requires Books(s) && Poised(s.At(g), q)
    requires ExecuteNext(s, g, q, fault).0 == Started
    ensures var added := JobsOf(s.At(g).context.value.id, g, q, TasksAt(s.At(g), q));
            && |added| == |TasksAt(s.At(g), q)|
            && added !! s.Live()
            && Advance(s, g, q, fault).jobs == s.jobs + added
  {
    var lane := s.At(g);
    var added := JobsOf(lane.context.value.id, g, q, TasksAt(lane, q));
    NothingLive(s, g);
    JobsOfCount(lane.context.value.id, g, q, TasksAt(lane, q));
  }

  lemma StartedSlots(s: State, g: nat, q: nat, fault: Option<nat>)
    requires Books(s) && Poised(s.At(g), q)
    requires ExecuteNext(s, g, q, fault).0 == Started
    ensures Slots(Advance(s, g, q, fault))
  {
    var t := Advance(s, g, q, fault);
    var added := JobsOf(s.At(g).context.value.id, g, q, TasksAt(s.At(g), q));
    StartedFacts(s, g, q, fault);
    assert t.registered == s.registered + added && t.executing == s.executing && t.results == s.results;
    assert |t.jobs| == |s.jobs| + |added|;
  }

  lemma StartedAccounts(s: State, g: nat, q: nat, fault: Option<nat>)
    requires Books(s) && Poised(s.At(g), q)
    requires ExecuteNext(s, g, q, fault).0 == Started
    ensures Accounts(Advance(s, g, q, fault))
  {
    var t := Advance(s, g, q, fault);
    StartedFacts(s, g, q, fault);
    NothingLive(s, g);
    forall j: Job | j.Regular?
      ensures j in t.Live() <==> Owes(t.At(j.schedule), j)
    {
      assert j in s.Live() <==> Owes(s.At(j.schedule), j);
      if j.schedule != g {
        assert t.At(j.schedule) == s.At(j.schedule);
      }
    }
  }

  lemma StartedHistory(s: State, g: nat, q: nat, fault: Option<nat>)
    requires Books(s) && Poised(s.At(g), q)
    requires ExecuteNext(s, g, q, fault).0 == Started
    ensures History(Advance(s, g, q, fault))
  {
    var lane, t := s.At(g), Advance(s, g, q, fault);
    forall j | j in t.registered
      ensures j.context in t.used && (j.Regular? ==> Recorded(t.At(j.schedule), j))
    {
      if j in s.registered {
        assert j.Regular? ==> Recorded(s.At(j.schedule), j);
      }
    }
    forall h | t.At(h).context.Some?
      ensures t.At(h).context.value.id in t.used
    {
      assert s.At(h).context.Some?;
    }
  }

  lemma AdvanceKeeps(s: State, g: nat, q: nat, fault: Option<nat>)
    requires Books(s) && OthersShaped(s, g) && Poised(s.At(g), q)
    ensures Good(Advance(s, g, q, fault))
  {
    match ExecuteNext(s, g, q, fault).0
    case Declined => AdvanceDeclined(s, g, q, fault);
    case Raised => AdvanceRaised(s, g, q, fault);
    case Started =>
      var tasks := TasksAt(s.At(g), q);
      StartedSlots(s, g, q, fault);
      StartedAccounts(s, g, q, fault);
      StartedHistory(s, g, q, fault);
      StartedShape(s.At(g), q);
      assert s.At(g).completion[q := tasks] == map[q := tasks];
      AllShaped(s, Advance(s, g, q, fault), g, StartedLane(s.At(g), q, tasks));
  }

  // ------------------------------------------------------------ starting a context

  lemma OpenBooks(s: State, g: nat, details: seq<Detail>, id: Uuid)
    requires Good(s) && !s.At(g).running && id !in s.used
    ensures Books(Open(s, g, details, id))
  {
    var t := Open(s, g, details, id);
    NothingLive(s, g);
    forall j: Job | j.Regular?
      ensures j in t.Live() <==> Owes(t.At(j.schedule), j)
    {
      assert j in s.Live() <==> Owes(s.At(j.schedule), j);
    }
    forall j | j in t.registered
      ensures j.context in t.used && (j.Regular? ==> Recorded(t.At(j.schedule), j))
    {
      assert j.Regular? ==> Recorded(s.At(j.schedule), j);
    }
    forall h | t.At(h).context.Some?
      ensures t.At(h).context.value.id in t.used
    {
      assert h != g ==> s.At(h).context.Some?;
    }
  }

  lemma OpenPoised(details: seq<Detail>, id: Uuid)
    requires DistinctDetails(details) && details != []
    ensures var plan := Grouped(details);
            plan.Keys != {} && Poised(Lane(true, Some(Context(id, plan, plan, false)), map[], [], false), Least(plan.Keys))
  {
    var plan := Grouped(details);
    GroupedKeys(details);
    GroupedIsPlan(details);
    var lane := Lane(true, Some(Context(id, plan, plan, false)), map[], [], false);
    assert Ahead(lane) == plan.Keys;
    assert InOrder(lane) && OneOpen(lane);
  }

  lemma StillShaped(s: State, t: State, g: nat, lane: Lane)
    requires OthersShaped(s, g) && t.lanes == s.lanes[g := lane]
    ensures OthersShaped(t, g)
  {
    forall h | h != g
      ensures Shape(t.At(h))
    {
      assert t.At(h) == s.At(h);
    }
  }

  lemma StartKeeps(s: State, g: nat, allowed: bool, details: seq<Detail>, id: Uuid, fault: Option<nat>)
    requires Good(s) && DistinctDetails(details) && id !in s.used
    ensures Good(Start(s, g, allowed, details, id, fault))
  {
    if allowed && !s.At(g).running && details != [] {
      OpenPoised(details, id);
      OpenBooks(s, g, details, id);
      var t := Open(s, g, details, id);
      StillShaped(s, t, g, t.At(g));
      AdvanceKeeps(t, g, Least(Grouped(details).Keys), fault);
    }
  }

  // ------------------------------------------------------------ finishing a detail

  /** The schedule's record once the detail is off its list; the list goes with its last detail. */
  function Settled(lane: Lane, q: nat, d: Uuid): Lane
    requires q in lane.completion
  {
    var left := RemoveOne(lane.completion[q], d);
    lane.(completion := if left == [] then lane.completion - {q} else lane.completion[q := left])
  }

  lemma SettledOwes(lane: Lane, job: Job, j: Job)
    requires lane.context.Some? && OneOpen(lane) && Owes(lane, job) && j.Regular? && j.schedule == job.schedule
    ensures Owes(Settled(lane, job.sequence, job.detail), j) <==> Owes(lane, j) && j != job
  {
    RemoveOneMembers(lane.completion[job.sequence], job.detail);
  }

  lemma FinishBooks(s: State, job: Job)
    requires Books(s) && job.Regular? && job in s.results
    requires Sketch(s.At(job.schedule)) && Owes(s.At(job.schedule), job)
    ensures Books(s.(results := s.results - {job}).Put(job.schedule, Settled(s.At(job.schedule), job.sequence, job.detail)))
  {
    var lane := Settled(s.At(job.schedule), job.sequence, job.detail);
    var t := s.(results := s.results - {job}).Put(job.schedule, lane);
    forall j: Job | j.Regular?
      ensures j in t.Live() <==> Owes(t.At(j.schedule), j)
    {
      assert j in s.Live() <==> Owes(s.At(j.schedule), j);
      if j.schedule == job.schedule {
        SettledOwes(s.At(job.schedule), job, j);
      }
    }
    HistoryKept(s, t, job.schedule, lane);
  }

  lemma LaterIsAhead(lane: Lane)
    requires lane.context.Some? && Sketch(lane) && lane.started != []
    ensures Later(lane.context.value, lane.started[|lane.started| - 1]) == Ahead(lane)
  {
    var q := lane.started[|lane.started| - 1];
    assert q in lane.started;
    forall r | r in lane.context.value.plan
      ensures r in lane.started <==> r <= q
    {
      if r in lane.started {
        var i :| 0 <= i < |lane.started| && lane.started[i] == r;
      }
    }
  }

  /** A settled record is in shape while details are left; otherwise it is over, or ready for the next sequence. */
  lemma SettledShape(lane: Lane, job: Job)
    requires lane.context.Some? && Sketch(lane) && lane.running && Owes(lane, job)
    ensures var done := Settled(lane, job.sequence, job.detail);
            var later := Later(lane.context.value, job.sequence);
            && (done.completion != map[] ==> Shape(done))
            && (done.completion == map[] <==> RemoveOne(lane.completion[job.sequence], job.detail) == [])
            && later == Ahead(done)
            && (done.completion == map[] && later != {} ==> Poised(done, Least(later)))
            && (done.completion == map[] && (later == {} || lane.context.value.stop) ==> Shape(done.(running := false)))
  {
    var q := job.sequence;
    var done := Settled(lane, q, job.detail);
    RemoveOneMembers(lane.completion[q], job.detail);
    assert q == lane.started[|lane.started| - 1];
    assert lane.completion - {q} == map[];
    assert InOrder(done) && InOrder(done.(running := false));
    LaterIsAhead(lane);
    assert Ahead(done) == Ahead(lane);
    assert Ahead(done.(running := false)) == Ahead(done);
    if RemoveOne(lane.completion[q], job.detail) != [] {
      assert q in done.completion;
    }
  }

  lemma FinishCases(s: State, g: nat, q: nat, d: Uuid, runNext: bool, fault: Option<nat>)
    requires s.At(g).context.Some? && s.At(g).completion.Keys == {q}
    ensures var done, c := Settled(s.At(g), q, d), s.At(g).context.value;
            FinishDetail(s, g, q, d, runNext, fault) ==
              if done.completion != map[] then s.Put(g, done)
              else if runNext && !c.stop && Later(c, q) != {} then Advance(s.Put(g, done), g, Least(Later(c, q)), fault)
              else s.Put(g, done.(running := false))
  {
    var lane := s.At(g);
    assert lane.completion - {q} == map[];
    if RemoveOne(lane.completion[q], d) != [] {
      assert q in Settled(lane, q, d).completion;
    }
  }

  lemma FinishEnds(s: State, s': State, g: nat, done: Lane)
    requires OthersShaped(s, g) && s'.lanes == s.lanes
    requires Books(s'.Put(g, done)) && Shape(done.(running := false))
    ensures Good(s'.Put(g, done.(running := false)))
  {
    var t := s'.Put(g, done);
    Relaned(t, g, done.(running := false));
    var u := s'.Put(g, done.(running := false));
    assert u == t.Put(g, done.(running := false)) by {
      assert u.lanes == t.lanes[g := done.(running := false)];
    }
    AllShaped(s, u, g, done.(running := false));
  }

  lemma FinishKeeps(s: State, job: Job, runNext: bool, fault: Option<nat>)
    requires Books(s) && job.Regular? && job in s.results && OthersShaped(s, job.schedule)
    requires var lane := s.At(job.schedule);
             Sketch(lane) && lane.running && Owes(lane, job) && (runNext || lane.context.value.stop)
    ensures Good(FinishDetail(s.(results := s.results - {job}), job.schedule, job.sequence, job.detail, runNext, fault))
  {
    var g, q, lane := job.schedule, job.sequence, s.At(job.schedule);
    var s' := s.(results := s.results - {job});
    var done, c := Settled(lane, q, job.detail), lane.context.value;
    SettledShape(lane, job);
    FinishBooks(s, job);
    FinishCases(s', g, q, job.detail, runNext, fault);
    if done.completion != map[] {
      AllShaped(s, s'.Put(g, done), g, done);
    } else if runNext && !c.stop && Later(c, q) != {} {
      StillShaped(s, s'.Put(g, done), g, done);
      AdvanceKeeps(s'.Put(g, done), g, Least(Later(c, q)), fault);
    } else {
      FinishEnds(s, s', g, done);
    }
  }

  // ------------------------------------------------------------ every step, every run

  lemma LiveIsOwed(s: State, job: Job)
    requires Accounts(s) && (forall g :: Shape(s.At(g))) && job in s.Live() && job.Regular?
    ensures Owes(s.At(job.schedule), job) && s.At(job.schedule).running && !s.At(job.schedule).stuck
  {
    assert Shape(s.At(job.schedule));
  }

  /** The result is settled after its handler has marked or trimmed the context. */
  lemma SettleKeeps(s: State, job: Job, next: Lane, runNext: bool, fault: Option<nat>)
    requires Good(s) && job in s.results && job.Regular?
    requires SameDebts(s.At(job.schedule), next) && next.running && !next.stuck
    requires next.context.Some? ==> Trimmed(next.context.value) && (runNext || next.context.value.stop)
    ensures Good(FinishDetail(s.(results := s.results - {job}).Put(job.schedule, next),
                              job.schedule, job.sequence, job.detail, runNext, fault))
  {
    var g := job.schedule;
    LiveIsOwed(s, job);
    Relaned(s, g, next);
    var t := s.Put(g, next);
    assert OneOpen(next) && InOrder(next);
    StillShaped(s, t, g, next);
    FinishKeeps(t, job, runNext, fault);
    assert t.(results := t.results - {job}) == s.(results := s.results - {job}).Put(g, next);
  }

  lemma AckKeeps(s: State, job: Job, transitions: seq<Transition>, fault: Option<nat>)
    requires Good(s) && job in s.results && job.Regular?
    ensures Good(Acknowledge(s.(results := s.results - {job}), job, transitions, fault))
  {
    LiveIsOwed(s, job);
    TransitKeeps(s.At(job.schedule).context.value, transitions);
    SettleKeeps(s, job, Transit(s.At(job.schedule), transitions), true, fault);
  }

  lemma RejectKeeps(s: State, job: Job)
    requires Good(s) && job in s.results && job.Regular?
    ensures Good(Refuse(s.(results := s.results - {job}), job))
  {
    LiveIsOwed(s, job);
    SettleKeeps(s, job, StopLane(s.At(job.schedule)), false, None);
  }

  lemma ManualKeeps(s: State, job: Job)
    requires Good(s) && job in s.results && job.Manual?
    ensures Good(s.(results := s.results - {job}, manuals := s.manuals - {job.manual}))
  {
    MovesKeep(s, s.(results := s.results - {job}, manuals := s.manuals - {job.manual}));
  }

  lemma SameLanes(s: State, t: State)
    requires (forall g :: Shape(s.At(g))) && (forall g :: t.At(g) == s.At(g))
    ensures forall g :: Shape(t.At(g))
  {
    forall g
      ensures Shape(t.At(g))
    {
      assert t.At(g) == s.At(g);
    }
  }

  /** Tasks move on, or manual ones come and go, with every schedule's record as it was. */
  lemma MovesKeep(s: State, t: State)
    requires Accounts(s) && History(s) && (forall g :: Shape(s.At(g)))
    requires forall g :: t.At(g) == s.At(g)
    requires forall j: Job :: j.Regular? ==> (j in t.Live() <==> j in s.Live())
    requires forall j :: j in t.registered ==> j in s.registered || (j.Manual? && j.context in t.used)
    requires s.used <= t.used
    ensures Accounts(t) && History(t) && (forall g :: Shape(t.At(g)))
  {
    forall j: Job | j.Regular?
      ensures j in t.Live() <==> Owes(t.At(j.schedule), j)
    {
      assert j in s.Live() <==> Owes(s.At(j.schedule), j);
    }
    forall j | j in t.registered
      ensures j.context in t.used && (j.Regular? ==> Recorded(t.At(j.schedule), j))
    {
      assert j in s.registered && j.Regular? ==> Recorded(s.At(j.schedule), j);
    }
    forall h | t.At(h).context.Some?
      ensures t.At(h).context.value.id in t.used
    {
      assert s.At(h).context.Some?;
    }
    SameLanes(s, t);
  }

  lemma FireKeeps(s: State, job: Job)
    requires Good(s) && job in s.jobs
    ensures Good(FireJob(s, job))
  {
    var t := FireJob(s, job);
    if job.Regular? {
      LiveIsOwed(s, job);
    }
    MovesKeep(s, t);
    FireSlots(s, job);
  }

  lemma FireSlots(s: State, job: Job)
    requires Slots(s) && job in s.jobs
    ensures Slots(FireJob(s, job))
  {
    Shift(s.jobs, s.executing, job);
  }

  lemma Shift(a: set<Job>, b: set<Job>, job: Job)
    requires job in a && a !! b
    ensures (a - {job}) !! (b + {job}) && (a - {job}) + (b + {job}) == a + b
    ensures |a - {job}| + |b + {job}| == |a| + |b|
  {
    assert a == (a - {job}) + {job};
  }

  lemma ReportKeeps(s: State, job: Job)
    requires Good(s) && job in s.executing
    ensures Good(ReportJob(s, job)) && 0 < s.reserved
  {
    var t := ReportJob(s, job);
    MovesKeep(s, t);
    assert |s.executing| == |t.executing| + 1;
  }

  lemma MarkKeeps(s: State, schedules: set<nat>)
    requires Good(s)
    ensures Good(MarkStop(s, schedules))
  {
    var t := MarkStop(s, schedules);
    forall g
      ensures t.At(g) == (if g in schedules then StopLane(s.At(g)) else s.At(g))
    {
    }
    forall j: Job | j.Regular?
      ensures j in t.Live() <==> Owes(t.At(j.schedule), j)
    {
      assert j in s.Live() <==> Owes(s.At(j.schedule), j);
    }
    forall j | j in t.registered
      ensures j.context in t.used && (j.Regular? ==> Recorded(t.At(j.schedule), j))
    {
      assert j.Regular? ==> Recorded(s.At(j.schedule), j);
    }
    forall g | t.At(g).context.Some?
      ensures t.At(g).context.value.id in t.used
    {
      assert s.At(g).context.Some?;
    }
    forall g
      ensures Shape(t.At(g))
    {
      StopShape(s.At(g));
    }
  }

  lemma StopShape(lane: Lane)
    requires Shape(lane)
    ensures Shape(StopLane(lane))
  {
    assert InOrder(StopLane(lane));
    assert lane.context.Some? ==> OneOpen(StopLane(lane));
  }

  lemma DispatchKeeps(s: State, m: nat, ready: bool, found: bool, claim: ClaimOutcome,
                      id: Uuid, schedule: nat, detail: Uuid, inline: bool)
    requires Good(s) && id !in s.used
    ensures Good(Dispatch(s, m, ready, found, claim, id, schedule, detail, inline))
  {
    var t := Dispatch(s, m, ready, found, claim, id, schedule, detail, inline);
    DispatchSlots(s, m, ready, found, claim, id, schedule, detail, inline);
    MovesKeep(s, t);
  }

  lemma DispatchSlots(s: State, m: nat, ready: bool, found: bool, claim: ClaimOutcome,
                      id: Uuid, schedule: nat, detail: Uuid, inline: bool)
    requires Slots(s) && History(s) && id !in s.used
    ensures Slots(Dispatch(s, m, ready, found, claim, id, schedule, detail, inline))
  {
    var t := Dispatch(s, m, ready, found, claim, id, schedule, detail, inline);
    if t.registered != s.registered {
      var job := Manual(id, schedule, detail, m, claim.token);
      assert job !in s.registered;
      OneMoreSlot(s, t, job);
    }
  }

  lemma OneMoreSlot(s: State, t: State, job: Job)
    requires Slots(s) && job !in s.registered && HasRoom(s, 1)
    requires t.registered == s.registered + {job} && t.results == s.results
    requires t.reserved == s.reserved + 1 && t.queued == s.queued && t.capacity == s.capacity
    requires || (t.jobs == s.jobs + {job} && t.executing == s.executing)
             || (t.executing == s.executing + {job} && t.jobs == s.jobs)
    ensures Slots(t)
  {
    assert job !in s.Live();
  }

  lemma StepKeeps(s: State, step: Step)
    requires Good(s) && Enabled(s, step) && !step.RepeatAck?
    ensures Good(Next(s, step))
  {
    match step
    case StartGroup(g, allowed, details, id, fault) => StartKeeps(s, g, allowed, details, id, fault);
    case DispatchManual(m, ready, found, claim, id, schedule, detail, inline) =>
      DispatchKeeps(s, m, ready, found, claim, id, schedule, detail, inline);
    case Fire(job) => FireKeeps(s, job);
    case Report(job) => ReportKeeps(s, job);
    case Ack(job, transitions, fault) => if job.Regular? { AckKeeps(s, job, transitions, fault); } else { ManualKeeps(s, job); }
    case Reject(job) => if job.Regular? { RejectKeeps(s, job); } else { ManualKeeps(s, job); }
    case RepeatAck(_, _, _) =>
    case Mark(schedules) => MarkKeeps(s, schedules);
    case OutboxMoves(queued, closed) => MovesKeep(s, Next(s, step));
  }

  lemma {:induction false} RunIsGood(run: Run, k: nat)
    requires IsCleanRun(run) && k < |run.states|
    ensures Good(run.states[k])
  {
    if k > 0 {
      RunIsGood(run, k - 1);
      assert Enabled(run.states[k - 1], run.steps[k - 1]);
      StepKeeps(run.states[k - 1], run.steps[k - 1]);
    }
  }

  // ------------------------------------------------------------ slots and attribution

  /**
    Reserved slots are exactly the tasks that have not reported yet, on every path, so `enqueue`
    and `release_slot` always find a slot; no slot is lost and none is taken beyond the capacity.
   */
  lemma SlotConservation(run: Run, k: nat)
    requires IsCleanRun(run) && k < |run.states|
    ensures var s := run.states[k];
            && s.reserved == |s.jobs| + |s.executing|
            && s.reserved + s.queued <= s.capacity
            && (k < |run.steps| && run.steps[k].Report? ==> 0 < s.reserved)
  {
    RunIsGood(run, k);
    if k < |run.steps| && run.steps[k].Report? {
      assert Enabled(run.states[k], run.steps[k]);
      ReportKeeps(run.states[k], run.steps[k].job);
    }
  }

  /**
    A live task belongs to its schedule's current context and is outstanding there, so the completion
    lists, which know no context, credit the right one; and a schedule counts as running exactly
    while it has a live task, or for ever once the scheduler has thrown at it.
   */
  lemma AckAttribution(run: Run, k: nat, g: nat)
    requires IsCleanRun(run) && k < |run.states|
    ensures var s, lane := run.states[k], run.states[k].At(g);
            && (forall j: Job :: j in s.Live() && j.Regular? && j.schedule == g ==>
                  lane.context.Some? && j.context == lane.context.value.id && lane.started != []
                  && j.sequence == lane.started[|lane.started| - 1])
            && (lane.running <==> lane.stuck || exists j :: j in s.Live() && j.Regular? && j.schedule == g)
  {
    RunIsGood(run, k);
    var s, lane := run.states[k], run.states[k].At(g);
    assert Shape(lane);
    forall j: Job | j in s.Live() && j.Regular? && j.schedule == g
      ensures Owes(lane, j)
    {
      LiveIsOwed(s, j);
    }
    if lane.completion != map[] {
      var q := lane.started[|lane.started| - 1];
      var j := Regular(lane.context.value.id, g, q, lane.completion[q][0]);
      assert Owes(s.At(j.schedule), j);
      assert j in s.Live();
    }
  }

  // ------------------------------------------------------------ the barrier

  /** The schedule keeps its context, which never unstarts a sequence and starts none once it is to stop. */
  ghost predicate Continues(a: Lane, b: Lane) {
    && (a.context.Some? <==> b.context.Some?)
    && (a.context.Some? ==>
          && a.context.value.id == b.context.value.id
          && a.context.value.plan == b.context.value.plan
          && (a.context.value.stop ==> b.context.value.stop && b.started == a.started))
    && (b.started == a.started || (|b.started| == |a.started| + 1 && b.started[..|a.started|] == a.started))
    && (a.stuck ==> b.stuck)
  }

  /** The schedule, which was not running, gets a new context. */
  ghost predicate Reopens(s: State, a: Lane, b: Lane) {
    && !a.running
    && b.context.Some? && b.context.value.id !in s.used
  }

  /** Tasks are registered only for the sequence that starts. */
  ghost predicate Registers(s: State, t: State, g: nat) {
    forall j :: j in t.registered && j !in s.registered && j.Regular? ==>
      && j.schedule == g
      && Owes(t.At(g), j)
      && j.detail in TasksAt(t.At(g), j.sequence)
      && (t.At(g).context.value.id !in s.used || j.sequence !in s.At(g).started)
  }

  lemma AdvanceProgress(s: State, g: nat, q: nat, fault: Option<nat>)
    requires Poised(s.At(g), q)
    ensures var a, b := s.At(g), Advance(s, g, q, fault).At(g);
            && b.context.Some? && b.context.value.id == a.context.value.id && b.context.value.plan == a.context.value.plan
            && (b.started == a.started || b.started == a.started + [q])
            && (b.started != a.started <==> ExecuteNext(s, g, q, fault).0 == Started)
    ensures forall h :: h != g ==> Advance(s, g, q, fault).At(h) == s.At(h)
  {
  }

  lemma AdvanceRegisters(s: State, g: nat, q: nat, fault: Option<nat>)
    requires Poised(s.At(g), q)
    ensures Registers(s, Advance(s, g, q, fault), g)
  {
  }

  /** What a result may do to its schedule: its detail comes off the list, and perhaps the next sequence starts. */
  lemma SettleCases(s: State, job: Job, next: Lane, runNext: bool, fault: Option<nat>)
    requires Good(s) && job in s.results && job.Regular?
    requires SameDebts(s.At(job.schedule), next) && next.running && !next.stuck
    requires next.context.Some? ==> Trimmed(next.context.value)
    ensures Owes(next, job) && next.context.Some?
    ensures var s' := s.(results := s.results - {job}).Put(job.schedule, next);
            var t := FinishDetail(s', job.schedule, job.sequence, job.detail, runNext, fault);
            var done, c := Settled(next, job.sequence, job.detail), next.context.value;
            if done.completion == map[] && runNext && !c.stop && Ahead(done) != {} then
              Poised(done, Least(Ahead(done))) && t == Advance(s'.Put(job.schedule, done), job.schedule, Least(Ahead(done)), fault)
            else
              t == s'.Put(job.schedule, if done.completion == map[] then done.(running := false) else done)
  {
    LiveIsOwed(s, job);
    assert OneOpen(next) && InOrder(next);
    SettledShape(next, job);
    FinishCases(s.(results := s.results - {job}).Put(job.schedule, next), job.schedule, job.sequence, job.detail, runNext, fault);
  }

  lemma SettledContinues(a: Lane, next: Lane, job: Job)
    requires a.context.Some? && SameDebts(a, next) && Owes(next, job) && !a.stuck
    requires a.context.value.stop ==> next.context.value.stop
    ensures Continues(a, Settled(next, job.sequence, job.detail))
    ensures Continues(a, Settled(next, job.sequence, job.detail).(running := false))
  {
  }

  lemma ContinuesOn(a: Lane, done: Lane, b: Lane, q: nat)
    requires Continues(a, done) && done.started == a.started && done.context.Some? && !done.context.value.stop && !done.stuck
    requires b.context.Some? && b.context.value.id == done.context.value.id && b.context.value.plan == done.context.value.plan
    requires b.started == done.started || b.started == done.started + [q]
    ensures Continues(a, b)
  {
  }

  lemma AdvanceOthers(s: State, g: nat, q: nat, fault: Option<nat>, h: nat)
    requires h != g
    ensures Advance(s, g, q, fault).At(h) == s.At(h)
  {
  }

  lemma AdvanceSequences(s: State, g: nat, q: nat, fault: Option<nat>)
    requires s.At(g).context.Some?
    ensures var a, b := s.At(g), Advance(s, g, q, fault).At(g);
            b.context.Some? && b.context.value.id == a.context.value.id && b.context.value.sequences == a.context.value.sequences
  {
  }

  lemma SettleOthers(s: State, job: Job, next: Lane, runNext: bool, fault: Option<nat>, h: nat)
    requires Good(s) && job in s.results && job.Regular? && h != job.schedule
    requires SameDebts(s.At(job.schedule), next) && next.running && !next.stuck
    requires next.context.Some? ==> Trimmed(next.context.value)
    ensures var s' := s.(results := s.results - {job}).Put(job.schedule, next);
            FinishDetail(s', job.schedule, job.sequence, job.detail, runNext, fault).At(h) == s.At(h)
  {
    var g := job.schedule;
    SettleCases(s, job, next, runNext, fault);
    var done := Settled(next, job.sequence, job.detail);
    if done.completion == map[] && runNext && !next.context.value.stop && Ahead(done) != {} {
      AdvanceOthers(s.(results := s.results - {job}).Put(g, next).Put(g, done), g, Least(Ahead(done)), fault, h);
    }
  }

  lemma SettleContinues(s: State, job: Job, next: Lane, runNext: bool, fault: Option<nat>)
    requires Good(s) && job in s.results && job.Regular?
    requires SameDebts(s.At(job.schedule), next) && next.running && !next.stuck
    requires next.context.Some? ==> Trimmed(next.context.value)
    requires next.context.Some? && s.At(job.schedule).context.value.stop ==> next.context.value.stop
    ensures var s' := s.(results := s.results - {job}).Put(job.schedule, next);
            Continues(s.At(job.schedule), FinishDetail(s', job.schedule, job.sequence, job.detail, runNext, fault).At(job.schedule))
  {
    var g := job.schedule;
    LiveIsOwed(s, job);
    SettleCases(s, job, next, runNext, fault);
    SettledContinues(s.At(g), next, job);
    var done := Settled(next, job.sequence, job.detail);
    if done.completion == map[] && runNext && !next.context.value.stop && Ahead(done) != {} {
      var o := s.(results := s.results - {job}).Put(g, next).Put(g, done);
      AdvanceProgress(o, g, Least(Ahead(done)), fault);
      ContinuesOn(s.At(g), done, Advance(o, g, Least(Ahead(done)), fault).At(g), Least(Ahead(done)));
    }
  }

  lemma SettleProgress(s: State, job: Job, next: Lane, runNext: bool, fault: Option<nat>)
    requires Good(s) && job in s.results && job.Regular?
    requires SameDebts(s.At(job.schedule), next) && next.running && !next.stuck
    requires next.context.Some? ==> Trimmed(next.context.value)
    requires next.context.Some? && s.At(job.schedule).context.value.stop ==> next.context.value.stop
    ensures var s' := s.(results := s.results - {job}).Put(job.schedule, next);
            var t := FinishDetail(s', job.schedule, job.sequence, job.detail, runNext, fault);
            && Continues(s.At(job.schedule), t.At(job.schedule))
            && (forall h :: h != job.schedule ==> t.At(h) == s.At(h))
  {
    SettleContinues(s, job, next, runNext, fault);
    forall h | h != job.schedule {
      SettleOthers(s, job, next, runNext, fault, h);
    }
  }

  lemma SettleRegisters(s: State, job: Job, next: Lane, runNext: bool, fault: Option<nat>)
    requires Good(s) && job in s.results && job.Regular?
    requires SameDebts(s.At(job.schedule), next) && next.running && !next.stuck
    requires next.context.Some? ==> Trimmed(next.context.value)
    ensures var s' := s.(results := s.results - {job}).Put(job.schedule, next);
            Registers(s, FinishDetail(s', job.schedule, job.sequence, job.detail, runNext, fault), job.schedule)
  {
    var g := job.schedule;
    SettleCases(s, job, next, runNext, fault);
    var done := Settled(next, job.sequence, job.detail);
    if done.completion == map[] && runNext && !next.context.value.stop && Ahead(done) != {} {
      AdvanceRegisters(s.(results := s.results - {job}).Put(g, next).Put(g, done), g, Least(Ahead(done)), fault);
    }
  }
}
