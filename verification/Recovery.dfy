/**
  Halting and recovering: operating state, current snapshot and scheduled jobs together, over runs in
  which taking out the jobs on a halt succeeds. One reply of the server, whole, is one step.
 */
module Recovery {
  import opened Protocol
  import opened Snapshots
  import opened Reconcile
  import opened OperatingState

  type Snapshot = Snapshots.Snapshot

  /** `specs` is what the adapter manages, `dropped` are the schedules among them whose cron job an error stop took out. */
  datatype World = World(facts: Facts, current: Option<Snapshot>, specs: map<Key, Spec>, dropped: set<nat>)
  {
    /** The cron jobs that the scheduler has. */
    ghost predicate HasCron(id: nat) {
      ScheduleKey(id) in specs && id !in dropped
    }
  }

  datatype Applying = Applied | RolledBack | Broken

  datatype Event =
    | Reports(change: Change)
    | NotModified
    | Apply(next: Snapshot, applying: Applying)
    | ErrorStop(schedule: nat)

  /** The listener's share: on entering HALTED every job goes, and the snapshot with them. */
  function Publish(before: Mode, w: World): World {
    if before != HALTED && Derive(w.facts) == HALTED then w.(current := None, specs := map[], dropped := {}) else w
  }

  function Learn(w: World, c: Change): World {
    Publish(Derive(w.facts), w.(facts := After(w.facts, c)))
  }

  ghost function Next(w: World, e: Event): World {
    match e
    case Reports(c) => Learn(w, c)
    case NotModified => Learn(w, if w.current.None? then SnapshotFailed(Other("not_modified_without_snapshot")) else SnapshotSucceeded)
    case Apply(next, Applied) =>
      Learn(Learn(Replaced(w, next), SnapshotSucceeded), ReconcileSucceeded)
    case Apply(_, RolledBack) => Learn(w.(dropped := {}), ReconcileFailed(true))
    case Apply(_, Broken) => Learn(w.(specs := map[], dropped := {}), ReconcileFailed(false))
    case ErrorStop(id) => if ScheduleKey(id) in w.specs then w.(dropped := w.dropped + {id}) else w
  }

  /** The plan is applied: jobs it does not handle stay as they are, dropped ones too. */
  ghost function Replaced(w: World, next: Snapshot): World {
    w.(current := Some(next), specs := Carried(w.specs, w.current, next),
       dropped := StillDropped(w.dropped, Handled(BuildPlan(w.current, next))))
  }

  datatype Run = Run(worlds: seq<World>, events: seq<Event>)

  const START: World := World(Facts(false, {}, {}), None, map[], {})

  /** What a caller reports: snapshots and reconciliations only come with their own events. */
  predicate Reportable(e: Event) {
    e.Reports? ==> !e.change.SnapshotSucceeded? && !e.change.ReconcileFailed? && !e.change.ReconcileSucceeded?
  }

  ghost predicate IsRun(run: Run) {
    && |run.worlds| == |run.events| + 1
    && run.worlds[0] == START
    && (forall k {:trigger run.events[k]} :: 0 <= k < |run.events| ==>
          Reportable(run.events[k]) && run.worlds[k + 1] == Next(run.worlds[k], run.events[k]))
  }

  /** No one takes back the reason of a failed restore; nothing in the agent calls for it. */
  ghost predicate NeverCleared(run: Run) {
    forall k {:trigger run.events[k]} :: 0 <= k < |run.events| ==> run.events[k] != Reports(ClearFailClosed(RestoreFailed))
  }

  // ------------------------------------------------------------ jobs and snapshot agree

  /** The scheduler holds exactly the current snapshot's jobs, unless a restore has failed. */
  ghost predicate Sound(w: World) {
    w.specs == Specs(w.current) || RestoreFailed in w.facts.closed
  }

  lemma NothingAsked()
    ensures Specs(None) == map[]
  {
  }

  lemma AppliedMatches(w: World, next: Snapshot)
    requires w.specs == Specs(w.current)
    ensures Carried(w.specs, w.current, next) == Specs(Some(next))
  {
    PlanCarries(w.current, next);
  }

  lemma LearnSound(w: World, c: Change)
    requires Sound(w)
    ensures Sound(Learn(w, c)) <==> !(w.specs != Specs(w.current) && c == ClearFailClosed(RestoreFailed))
  {
    NothingAsked();
  }

  lemma AppliedSound(w: World, next: Snapshot)
    requires Sound(w)
    ensures Sound(Next(w, Apply(next, Applied)))
  {
    var carried := Replaced(w, next);
    if w.specs == Specs(w.current) {
      AppliedMatches(w, next);
    }
    LearnSound(carried, SnapshotSucceeded);
    LearnSound(Learn(carried, SnapshotSucceeded), ReconcileSucceeded);
  }

  /** Only clearing the reason of a failed restore, while the jobs do not match, loses the guarantee. */
  lemma SoundIff(w: World, e: Event)
    requires Sound(w)
    ensures Sound(Next(w, e)) <==> !(w.specs != Specs(w.current) && e == Reports(ClearFailClosed(RestoreFailed)))
  {
    match e
    case Reports(c) => LearnSound(w, c);
    case NotModified =>
      LearnSound(w, SnapshotSucceeded);
      LearnSound(w, SnapshotFailed(Other("not_modified_without_snapshot")));
    case Apply(next, Applied) => AppliedSound(w, next);
    case Apply(_, RolledBack) => LearnSound(w.(dropped := {}), ReconcileFailed(true));
    case Apply(_, Broken) => BrokenSound(w);
    case ErrorStop(_) =>
  }

  lemma BrokenSound(w: World)
    ensures Sound(Learn(w.(specs := map[], dropped := {}), ReconcileFailed(false)))
  {
    NothingAsked();
  }

  // ------------------------------------------------------------ allowed, and since when

  ghost predicate CloseEvent(e: Event) {
    match e
    case Reports(c) => ClosingChange(c)
    case NotModified => false
    case Apply(_, applying) => applying == Broken
    case ErrorStop(_) => false
  }

  /** A snapshot was applied, or the one held was confirmed as still the server's. */
  ghost predicate Confirms(w: World, e: Event) {
    (e.Apply? && e.applying == Applied) || (e.NotModified? && w.current.Some?)
  }

  /** At some step a snapshot was applied or confirmed, and nothing closed execution after it. */
  ghost predicate ConfirmedSince(run: Run, k: nat)
    requires |run.worlds| == |run.events| + 1 && k < |run.worlds|
  {
    exists i {:trigger run.events[i]} :: 0 <= i < k && Confirms(run.worlds[i], run.events[i]) && NoneCloses(run, i + 1, k)
  }

  ghost predicate NoneCloses(run: Run, from: nat, k: nat)
    requires k <= |run.events|
  {
    forall j {:trigger run.events[j]} :: from <= j < k ==> !CloseEvent(run.events[j])
  }

  lemma ValidAfter(w: World, e: Event)
    requires Reportable(e)
    ensures Next(w, e).facts.valid <==> Confirms(w, e) || (w.facts.valid && !CloseEvent(e))
    ensures Confirms(w, e) ==> !CloseEvent(e)
  {
    if e.Reports? {
      ClosedAfter(w.facts, e.change, NeedsEnrollment);
    }
    if e.Apply? && e.applying == Applied {
      AppliedIsValid(w, e.next);
    }
  }

  lemma AppliedIsValid(w: World, next: Snapshot)
    ensures Next(w, Apply(next, Applied)).facts.valid
  {
    assert Learn(Replaced(w, next), SnapshotSucceeded).facts.valid;
  }

  lemma ConfirmedStep(run: Run, k: nat)
    requires |run.worlds| == |run.events| + 1 && 0 < k < |run.worlds|
    ensures ConfirmedSince(run, k) <==>
              || Confirms(run.worlds[k - 1], run.events[k - 1])
              || (ConfirmedSince(run, k - 1) && !CloseEvent(run.events[k - 1]))
  {
    if ConfirmedSince(run, k) {
      var i :| 0 <= i < k && Confirms(run.worlds[i], run.events[i]) && NoneCloses(run, i + 1, k);
      if i < k - 1 {
        assert NoneCloses(run, i + 1, k - 1) && !CloseEvent(run.events[k - 1]);
      }
    }
    if Confirms(run.worlds[k - 1], run.events[k - 1]) {
      assert NoneCloses(run, k - 1 + 1, k);
    }
    if ConfirmedSince(run, k - 1) && !CloseEvent(run.events[k - 1]) {
      var i :| 0 <= i < k - 1 && Confirms(run.worlds[i], run.events[i]) && NoneCloses(run, i + 1, k - 1);
      assert NoneCloses(run, i + 1, k);
    }
  }

  lemma {:induction false} ValidIffConfirmed(run: Run, k: nat)
    requires IsRun(run) && k < |run.worlds|
    ensures run.worlds[k].facts.valid <==> ConfirmedSince(run, k)
  {
    if k > 0 {
      ValidIffConfirmed(run, k - 1);
      ConfirmedStep(run, k);
      assert Reportable(run.events[k - 1]) && run.worlds[k] == Next(run.worlds[k - 1], run.events[k - 1]);
      ValidAfter(run.worlds[k - 1], run.events[k - 1]);
    }
  }

  /** A valid snapshot is a current one, and what closes execution invalidates it. */
  ghost predicate Held(w: World) {
    w.facts.valid ==> w.current.Some?
  }

  lemma HeldKept(w: World, e: Event)
    requires Held(w) && Reportable(e)
    ensures Held(Next(w, e))
  {
  }

  lemma {:induction false} RunIsSound(run: Run, k: nat)
    requires IsRun(run) && NeverCleared(run) && k < |run.worlds|
    ensures Sound(run.worlds[k]) && Held(run.worlds[k])
  {
    NothingAsked();
    if k > 0 {
      RunIsSound(run, k - 1);
      assert run.worlds[k] == Next(run.worlds[k - 1], run.events[k - 1]);
      SoundIff(run.worlds[k - 1], run.events[k - 1]);
      HeldKept(run.worlds[k - 1], run.events[k - 1]);
    }
  }

  // ------------------------------------------------------------ cron jobs that an error stop took out

  /** Entering HALTED takes out every job; a plan puts in or takes out those it handles; a failed one puts back all or none. */
  ghost predicate Resets(w: World, e: Event, id: nat) {
    || (Derive(w.facts) != HALTED && Derive(Next(w, e).facts) == HALTED)
    || match e
       case Apply(next, Applied) => Differs(w.current, Some(next), ScheduleKey(id))
       case Apply(_, _) => true
       case _ => false
  }

  ghost predicate Drops(w: World, e: Event, id: nat) {
    e == ErrorStop(id) && ScheduleKey(id) in w.specs
  }

  lemma DroppedStep(w: World, e: Event, id: nat)
    requires Reportable(e)
    ensures id in Next(w, e).dropped <==> Drops(w, e, id) || (id in w.dropped && !Resets(w, e, id))
  {
    if e.Apply? && e.applying == Applied {
      AppliedDrops(w, e.next);
      ReplacedDrops(w, e.next, id);
    }
  }

  lemma LearnKeeps(w: World, c: Change)
    requires Closes(c).None?
    ensures Learn(w, c) == w.(facts := After(w.facts, c)) && After(w.facts, c).closed <= w.facts.closed
  {
  }

  lemma AppliedDrops(w: World, next: Snapshot)
    ensures Next(w, Apply(next, Applied)).dropped == Replaced(w, next).dropped
    ensures !(Derive(w.facts) != HALTED && Derive(Next(w, Apply(next, Applied)).facts) == HALTED)
  {
    var carried := Replaced(w, next);
    LearnKeeps(carried, SnapshotSucceeded);
    LearnKeeps(carried.(facts := After(w.facts, SnapshotSucceeded)), ReconcileSucceeded);
  }

  lemma ReplacedDrops(w: World, next: Snapshot, id: nat)
    ensures id in Replaced(w, next).dropped <==> id in w.dropped && !Differs(w.current, Some(next), ScheduleKey(id))
  {
    HandledIffDiffers(w.current, next, ScheduleKey(id));
  }

  /** At some step an error stop took the schedule's cron job out, and nothing has reset it since. */
  ghost predicate DroppedSince(run: Run, k: nat, id: nat)
    requires |run.worlds| == |run.events| + 1 && k < |run.worlds|
  {
    exists i {:trigger run.events[i]} :: 0 <= i < k && Drops(run.worlds[i], run.events[i], id) && NoneResets(run, i + 1, k, id)
  }

  ghost predicate NoneResets(run: Run, from: nat, k: nat, id: nat)
    requires |run.worlds| == |run.events| + 1 && k <= |run.events|
  {
    forall j {:trigger run.events[j]} :: from <= j < k ==> !Resets(run.worlds[j], run.events[j], id)
  }

  lemma DroppedSinceStep(run: Run, k: nat, id: nat)
    requires |run.worlds| == |run.events| + 1 && 0 < k < |run.worlds|
    ensures DroppedSince(run, k, id) <==>
              || Drops(run.worlds[k - 1], run.events[k - 1], id)
              || (DroppedSince(run, k - 1, id) && !Resets(run.worlds[k - 1], run.events[k - 1], id))
  {
    if DroppedSince(run, k, id) {
      var i :| 0 <= i < k && Drops(run.worlds[i], run.events[i], id) && NoneResets(run, i + 1, k, id);
      if i < k - 1 {
        assert NoneResets(run, i + 1, k - 1, id) && !Resets(run.worlds[k - 1], run.events[k - 1], id);
      }
    }
    if Drops(run.worlds[k - 1], run.events[k - 1], id) {
      assert NoneResets(run, k - 1 + 1, k, id);
    }
    if DroppedSince(run, k - 1, id) && !Resets(run.worlds[k - 1], run.events[k - 1], id) {
      var i :| 0 <= i < k - 1 && Drops(run.worlds[i], run.events[i], id) && NoneResets(run, i + 1, k - 1, id);
      assert NoneResets(run, i + 1, k, id);
    }
  }

  lemma {:induction false} DroppedIff(run: Run, k: nat, id: nat)
    requires IsRun(run) && k < |run.worlds|
    ensures id in run.worlds[k].dropped <==> DroppedSince(run, k, id)
  {
    if k > 0 {
      DroppedIff(run, k - 1, id);
      DroppedSinceStep(run, k, id);
      assert Reportable(run.events[k - 1]) && run.worlds[k] == Next(run.worlds[k - 1], run.events[k - 1]);
      DroppedStep(run.worlds[k - 1], run.events[k - 1], id);
    }
  }

  /** The current snapshot lists a schedule with this id. */
  ghost predicate InForce(w: World, id: nat) {
    w.current.Some? && exists a :: a in w.current.value.schedules && a.id == id
  }

  lemma InForceIff(w: World, id: nat)
    ensures InForce(w, id) <==> ScheduleKey(id) in Specs(w.current)
  {
    var k := ScheduleKey(id);
    SpecAt(w.current, k);
    if w.current.Some? {
      var schedules := w.current.value.schedules;
      if k in Specs(w.current) {
        SpecIsListed(w.current, Specs(w.current)[k]);
      }
      IdIsThere(schedules, id);
    }
  }

  lemma {:induction false} IdIsThere(schedules: seq<Schedule>, id: nat)
    ensures id in SchedulesById(schedules) <==> exists a :: a in schedules && a.id == id
    decreases |schedules|
  {
    if schedules != [] {
      var last := schedules[|schedules| - 1];
      assert schedules == schedules[..|schedules| - 1] + [last];
      IdIsThere(schedules[..|schedules| - 1], id);
      assert last in schedules;
    }
  }

  /**
    Execution is allowed exactly when no closing reason stands and a snapshot was applied or confirmed
    since the last event that closed execution; there is then a current snapshot, the adapter manages
    exactly the jobs that it lists, and the scheduler has the cron jobs of exactly its schedules, save
    those that an error stop took out and nothing has put back since.
   */
  lemma AllowedMeansCurrent(run: Run, k: nat)
    requires IsRun(run) && NeverCleared(run) && k < |run.worlds|
    ensures var w := run.worlds[k];
            && (Allowed(w.facts) <==> w.facts.closed == {} && ConfirmedSince(run, k))
            && (Allowed(w.facts) ==> w.current.Some? && HoldsExactly(w.specs, w.current))
            && (Allowed(w.facts) ==> forall id :: w.HasCron(id) <==> InForce(w, id) && !DroppedSince(run, k, id))
  {
    RunIsSound(run, k);
    ValidIffConfirmed(run, k);
    var w := run.worlds[k];
    if Allowed(w.facts) {
      SpecsAreTheLists(w.current);
      forall id ensures w.HasCron(id) <==> InForce(w, id) && !DroppedSince(run, k, id) {
        DroppedIff(run, k, id);
        InForceIff(w, id);
      }
    }
  }

  /**
    From allowed execution, what is reported stops it exactly when it brings a closing reason, and then every
    job goes; any other failure keeps the snapshot and its jobs, and execution goes on.
   */
  lemma OnlyClosingHalts(w: World, c: Change)
    requires Allowed(w.facts) && Reportable(Reports(c))
    ensures var n := Next(w, Reports(c));
            if ClosingChange(c) then
              !Allowed(n.facts) && Derive(n.facts) == HALTED && n.current.None? && n.specs == map[] && n.dropped == {}
            else
              Allowed(n.facts) && n.current == w.current && n.specs == w.specs && n.dropped == w.dropped
  {
    var f := After(w.facts, c);
    ClosedAfter(w.facts, c, NeedsEnrollment);
    if ClosingChange(c) {
      assert Closes(c).value in f.closed;
    } else {
      assert f.closed == {};
    }
  }

  lemma LearnStaysFailed(w: World, c: Change)
    requires RestoreFailed in w.facts.closed && c != ClearFailClosed(RestoreFailed)
    ensures RestoreFailed in Learn(w, c).facts.closed
  {
  }

  lemma StaysFailed(w: World, e: Event)
    requires RestoreFailed in w.facts.closed && e != Reports(ClearFailClosed(RestoreFailed))
    ensures RestoreFailed in Next(w, e).facts.closed
  {
    match e
    case Reports(c) => LearnStaysFailed(w, c);
    case NotModified =>
      LearnStaysFailed(w, SnapshotSucceeded);
      LearnStaysFailed(w, SnapshotFailed(Other("not_modified_without_snapshot")));
    case Apply(next, Applied) =>
      LearnStaysFailed(Replaced(w, next), SnapshotSucceeded);
      LearnStaysFailed(Learn(Replaced(w, next), SnapshotSucceeded), ReconcileSucceeded);
    case Apply(_, RolledBack) => LearnStaysFailed(w.(dropped := {}), ReconcileFailed(true));
    case Apply(_, Broken) => LearnStaysFailed(w.(specs := map[], dropped := {}), ReconcileFailed(false));
    case ErrorStop(_) =>
  }

  lemma RunStep(run: Run, k: nat, w: World, next: World) returns (e: Event)
    requires IsRun(run) && NeverCleared(run) && k < |run.events| && w == run.worlds[k] && next == run.worlds[k + 1]
    ensures e == run.events[k] && e != Reports(ClearFailClosed(RestoreFailed)) && next == Next(w, e)
  {
    e := run.events[k];
  }

  lemma {:induction false} FailedSince(run: Run, i: nat, k: nat, w: World)
    requires IsRun(run) && NeverCleared(run) && i <= k < |run.worlds| && w == run.worlds[k]
    requires RestoreFailed in run.worlds[i].facts.closed
    ensures RestoreFailed in w.facts.closed
  {
    if i < k {
      var before := run.worlds[k - 1];
      FailedSince(run, i, k - 1, before);
      var e := RunStep(run, k - 1, before, w);
      StaysFailed(before, e);
    }
  }

  /** After a restore has failed the agent executes nothing more, whatever it is told, until it is started again. */
  lemma RestoreFailureIsFinal(run: Run, i: nat, k: nat)
    requires IsRun(run) && NeverCleared(run) && i <= k < |run.worlds|
    requires RestoreFailed in run.worlds[i].facts.closed
    ensures RestoreFailed in run.worlds[k].facts.closed && !Allowed(run.worlds[k].facts)
  {
    FailedSince(run, i, k, run.worlds[k]);
  }

  // ------------------------------------------------------------ why it must not be cleared

  ghost predicate Reaches(w: World) {
    exists run: Run :: IsRun(run) && run.worlds[|run.events|] == w
  }

  lemma ReachesNext(w: World, e: Event)
    requires (w == START || Reaches(w)) && Reportable(e)
    ensures Reaches(Next(w, e))
  {
    var run := Run([START], []);
    if w != START {
      run :| IsRun(run) && run.worlds[|run.events|] == w;
    }
    var longer := Run(run.worlds + [Next(w, e)], run.events + [e]);
    forall k | 0 <= k < |longer.events|
      ensures Reportable(longer.events[k]) && longer.worlds[k + 1] == Next(longer.worlds[k], longer.events[k])
    {
      if k < |run.events| {
        assert longer.events[k] == run.events[k];
      }
    }
    assert IsRun(longer);
  }

  /**
    A snapshot applied while the agent is halted is not thrown out by a second closing reason. If the
    restore of the next one fails then, that snapshot stays current without its jobs; once every reason
    is cleared, an unchanged reply allows execution with nothing scheduled.
   */
  lemma ClearingLosesTheJobs(a: Snapshot, b: Snapshot) returns (w: World)
    requires Specs(Some(a)) != map[]
    ensures Reaches(w) && Allowed(w.facts) && w.current == Some(a) && w.specs != Specs(w.current)
  {
    var halted := START.(facts := Facts(false, {DeviceInactive}, {}));
    var held := World(Facts(true, {DeviceInactive}, {}), Some(a), Specs(Some(a)), {});
    var broken := World(Facts(false, {DeviceInactive, RestoreFailed}, {}), Some(a), map[], {});
    HaltsAndApplies(a);
    BreaksWhileHalted(a, b);
    ReachesNext(START, Reports(Status(Inactive)));
    ReachesNext(halted, Apply(a, Applied));
    ReachesNext(held, Apply(b, Broken));
    w := ClearsAndConfirms(a);
  }

  lemma HaltsAndApplies(a: Snapshot)
    ensures var halted := START.(facts := Facts(false, {DeviceInactive}, {}));
            && Next(START, Reports(Status(Inactive))) == halted
            && Next(halted, Apply(a, Applied)) == World(Facts(true, {DeviceInactive}, {}), Some(a), Specs(Some(a)), {})
  {
    NothingAsked();
    AppliedMatches(START.(facts := Facts(false, {DeviceInactive}, {})), a);
  }

  lemma BreaksWhileHalted(a: Snapshot, b: Snapshot)
    ensures Next(World(Facts(true, {DeviceInactive}, {}), Some(a), Specs(Some(a)), {}), Apply(b, Broken))
              == World(Facts(false, {DeviceInactive, RestoreFailed}, {}), Some(a), map[], {})
  {
  }

  lemma ClearsAndConfirms(a: Snapshot) returns (w: World)
    requires Specs(Some(a)) != map[]
    requires Reaches(World(Facts(false, {DeviceInactive, RestoreFailed}, {}), Some(a), map[], {}))
    ensures Reaches(w) && Allowed(w.facts) && w.current == Some(a) && w.specs != Specs(w.current)
  {
    var broken := World(Facts(false, {DeviceInactive, RestoreFailed}, {}), Some(a), map[], {});
    var cleared, active := broken.(facts := Facts(false, {DeviceInactive}, {})), broken.(facts := Facts(false, {}, {}));
    ReachesNext(broken, Reports(ClearFailClosed(RestoreFailed)));
    assert Next(broken, Reports(ClearFailClosed(RestoreFailed))) == cleared;
    ReachesNext(cleared, Reports(Status(Active)));
    assert Next(cleared, Reports(Status(Active))) == active;
    ReachesNext(active, NotModified);
    w := Next(active, NotModified);
    assert w.facts == Facts(true, {}, {});
  }
}
