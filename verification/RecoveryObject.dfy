/** The agent's runtime: the replies it gets, turned into events of the halt and recovery machine. */
module RecoveryObject {
  import opened Protocol
  import opened Snapshots
  import opened OperatingState
  import opened Recovery
  import R = ReconcileObject

  /** What asking for an access token came to. */
  datatype TokenReply = Token | NoToken(cause: Cause)

  /** The server's reply to a request for the snapshot, with the agent's own checks applied. */
  datatype SnapshotReply =
    | Unchanged
    | NoIdentity
    | Invalid
    | Refused(cause: Cause)
    | Whole(snapshot: Snapshots.Snapshot, skewed: bool)

  /** What came of the clock in a reply: too far off or not, no time given, or an exception on the way. */
  datatype ClockReply = Skewed(far: bool) | NoTime | ClockFailed

  datatype HeartbeatReply = Beat(status: Option<DeviceStatus>, clock: ClockReply) | HeartbeatRefused(cause: Cause)

  datatype Channel = HeartbeatChannel | SnapshotChannel

  const UNEXPECTED: Cause := Other("unexpected")

  /** A device that is not active and a refused token are recorded as such on either channel. */
  function FailureOf(channel: Channel, cause: Cause): Change {
    if cause == Named(DeviceInactive) then Status(Inactive)
    else if cause == Named(DeviceRevoked) then Status(Revoked)
    else if cause == BadToken then CredentialFailed(Named(NeedsEnrollment))
    else if channel == HeartbeatChannel then HeartbeatFailed(cause)
    else SnapshotFailed(cause)
  }

  ghost function Play(w: World, events: seq<Event>): World
    decreases |events|
  {
    if events == [] then w else Next(Play(w, events[..|events| - 1]), events[|events| - 1])
  }

  /** The events one snapshot request makes: `applying` and `pending` say how the scheduler took a whole one. */
  function SnapshotEvents(token: TokenReply, reply: SnapshotReply, applying: Applying, pending: bool): seq<Event> {
    if token.NoToken? then [Reports(CredentialFailed(token.cause))]
    else
      [Reports(CredentialSucceeded)] +
      match reply
      case Unchanged => [NotModified]
      case NoIdentity => [Reports(CredentialFailed(Named(NeedsEnrollment)))]
      case Invalid => [Reports(SnapshotFailed(Other("sync_error")))]
      case Refused(cause) => [Reports(FailureOf(SnapshotChannel, cause))]
      case Whole(snapshot, skewed) =>
        [Apply(snapshot, applying),
         Reports(if applying == Applied && pending then ClockWarning(skewed) else SnapshotFailed(UNEXPECTED))]
  }

  function HeartbeatEvents(token: TokenReply, reply: HeartbeatReply): seq<Event> {
    if token.NoToken? then [Reports(CredentialFailed(token.cause))]
    else
      [Reports(CredentialSucceeded)] +
      match reply
      case HeartbeatRefused(cause) => [Reports(FailureOf(HeartbeatChannel, cause))]
      case Beat(status, clock) =>
        (if status.Some? then [Reports(Status(status.value))] else []) +
        (if status.Some? && status.value != Active then [] else [Reports(HeartbeatSucceeded)] + ClockEvents(clock))
  }

  /** A failure after the success was noted is noted as well. */
  function ClockEvents(clock: ClockReply): seq<Event> {
    match clock
    case Skewed(far) => [Reports(ClockWarning(far))]
    case NoTime => []
    case ClockFailed => [Reports(HeartbeatFailed(UNEXPECTED))]
  }

  lemma PlayOne(w: World, e: Event)
    ensures Play(w, [e]) == Next(w, e)
  {
    assert [e][..0] == [];
  }

  lemma PlayMore(w: World, events: seq<Event>, e: Event)
    ensures Play(w, events + [e]) == Next(Play(w, events), e)
  {
    assert (events + [e])[..|events|] == events;
  }

  class AgentRuntime {
    const manager: OperatingStateManager
    const coordinator: R.SyncCoordinator
    const adapter: R.ApSchedulerAdapter

    // Every halt so far took out every job.
    ghost var clean: bool

    ghost function Abs(): World
      reads this, manager, coordinator, adapter
    {
      World(manager.Now(), coordinator.currentSnapshot, adapter.specs, adapter.dropped)
    }

    ghost predicate Valid()
      reads this, manager, coordinator, adapter
    {
      adapter.Valid()
    }

    constructor (manager: OperatingStateManager, coordinator: R.SyncCoordinator, adapter: R.ApSchedulerAdapter)
      requires adapter.Valid() && adapter.specs == map[] && adapter.dropped == {} && coordinator.currentSnapshot == None
      requires manager.Now() == Facts(false, {}, {})
      ensures Valid() && clean && Abs() == START
    {
      this.manager, this.coordinator, this.adapter := manager, coordinator, adapter;
      clean := true;
    }

    /**
      Runs on every change of state: a halt takes out the jobs, forgets the snapshot and, as `mark`
      says, marks every running context to stop after its sequence.
     */
    method HandleTransition(previous: Mode, current: Mode) returns (mark: bool)
      requires Valid() && current == Derive(manager.Now())
      modifies this, coordinator, adapter
      ensures Valid() && (clean ==> old(clean))
      ensures clean ==> Abs() == Publish(previous, old(Abs()))
      ensures manager.Now() == old(manager.Now())
      ensures mark <==> previous != HALTED && current == HALTED
    {
      mark := previous != HALTED && current == HALTED;
      if mark {
        var cleared := coordinator.RemoveAllManaged(adapter);
        clean := clean && cleared;
      }
    }

    /** Stores the change and publishes the transition, if the state changed. */
    method Tell(c: Change)
      requires Valid()
      modifies this, manager, coordinator, adapter
      ensures Valid() && (clean ==> old(clean))
      ensures clean ==> Abs() == Learn(old(Abs()), c)
    {
      var previous := Derive(manager.Now());
      Store(c);
      var _ := HandleTransition(previous, Derive(manager.Now()));
    }

    method Store(c: Change)
      modifies manager
      ensures manager.Now() == After(old(manager.Now()), c)
    {
      match c
      case CredentialSucceeded => manager.CredentialSucceededNow();
      case CredentialFailed(cause) => manager.CredentialFailedWith(cause);
      case EnrollmentSucceeded => manager.EnrollmentSucceededNow();
      case HeartbeatSucceeded => manager.HeartbeatSucceededNow();
      case HeartbeatFailed(cause) => manager.HeartbeatFailedWith(cause);
      case SnapshotSucceeded => manager.SnapshotSucceededNow();
      case SnapshotFailed(cause) => manager.SnapshotFailedWith(cause);
      case ClockWarning(active) => manager.ClockWarningIs(active);
      case Status(status) => manager.DeviceStatusIs(status);
      case ReconcileFailed(restored) => manager.ReconciliationFailedNow(restored);
      case ReconcileSucceeded => manager.ReconciliationSucceededNow();
      case ClearFailClosed(reason) => manager.ClearFailClosedReason(reason);
    }

    /** Applies a whole snapshot and tells how that went. */
    method ApplySnapshot(next: Snapshots.Snapshot) returns (applying: Applying)
      requires Valid()
      modifies this, manager, coordinator, adapter
      ensures Valid() && (clean ==> old(clean))
      ensures clean ==> Abs() == Next(old(Abs()), Apply(next, applying))
    {
      var outcome, _ := coordinator.ApplySnapshot(next, adapter);
      match outcome {
        case Applied =>
          Tell(SnapshotSucceeded);
          Tell(ReconcileSucceeded);
          applying := Applying.Applied;
        case RolledBack =>
          Tell(ReconcileFailed(true));
          applying := Applying.RolledBack;
        case Broken(cleared) =>
          clean := clean && cleared;
          Tell(ReconcileFailed(false));
          applying := Applying.Broken;
      }
    }

    /** The server stopped the schedule on an error: its cron job goes, its spec stays. */
    method StopSchedule(id: nat)
      requires Valid()
      modifies adapter
      ensures Valid() && (clean ==> Abs() == Next(old(Abs()), ErrorStop(id)))
    {
      adapter.DropSchedule(id);
    }

    /** One request for the snapshot, from the access token to the reply. */
    method SnapshotOnce(token: TokenReply, reply: SnapshotReply)
      returns (ok: bool, ghost applying: Applying, ghost pending: bool)
      requires Valid()
      modifies this, manager, coordinator, adapter
      ensures Valid() && (clean ==> old(clean))
      ensures clean ==> Abs() == Play(old(Abs()), SnapshotEvents(token, reply, applying, pending))
    {
      ghost var w := Abs();
      ok, applying, pending := false, Applying.Applied, true;
      if token.NoToken? {
        Tell(CredentialFailed(token.cause));
        PlayOne(w, Reports(CredentialFailed(token.cause)));
        return;
      }
      Tell(CredentialSucceeded);
      PlayOne(w, Reports(CredentialSucceeded));
      ghost var first := [Reports(CredentialSucceeded)];
      match reply {
        case Unchanged =>
          ok := coordinator.currentSnapshot.Some?;
          Tell(if ok then SnapshotSucceeded else SnapshotFailed(Other("not_modified_without_snapshot")));
          PlayMore(w, first, NotModified);
        case NoIdentity =>
          Tell(CredentialFailed(Named(NeedsEnrollment)));
          PlayMore(w, first, Reports(CredentialFailed(Named(NeedsEnrollment))));
        case Invalid =>
          Tell(SnapshotFailed(Other("sync_error")));
          PlayMore(w, first, Reports(SnapshotFailed(Other("sync_error"))));
        case Refused(cause) =>
          Tell(FailureOf(SnapshotChannel, cause));
          PlayMore(w, first, Reports(FailureOf(SnapshotChannel, cause)));
        case Whole(snapshot, skewed) =>
          ok, applying, pending := ApplyWhole(snapshot, skewed);
          PlayMore(w, first, Apply(snapshot, applying));
          ghost var second := if applying == Applying.Applied && pending then ClockWarning(skewed) else SnapshotFailed(UNEXPECTED);
          PlayMore(w, first + [Apply(snapshot, applying)], Reports(second));
          assert SnapshotEvents(token, reply, applying, pending) == first + [Apply(snapshot, applying)] + [Reports(second)];
      }
    }

    /** `pending` tells whether the dispatches of manual runs went in after the snapshot did. */
    method ApplyWhole(snapshot: Snapshots.Snapshot, skewed: bool) returns (ok: bool, applying: Applying, pending: bool)
      requires Valid()
      modifies this, manager, coordinator, adapter
      ensures Valid() && (clean ==> old(clean))
      ensures ok == (applying == Applying.Applied && pending)
      ensures clean ==> Abs() == Next(Next(old(Abs()), Apply(snapshot, applying)),
                                      Reports(if ok then ClockWarning(skewed) else SnapshotFailed(UNEXPECTED)))
    {
      pending := true;
      applying := ApplySnapshot(snapshot);
      if applying == Applying.Applied {
        pending := adapter.SchedulePendingManuals();
      }
      ok := applying == Applying.Applied && pending;
      Tell(if ok then ClockWarning(skewed) else SnapshotFailed(UNEXPECTED));
    }

    /** One heartbeat, from the access token to the reply; a device that is not active ends it early. */
    method HeartbeatOnce(token: TokenReply, reply: HeartbeatReply) returns (ok: bool)
      requires Valid()
      modifies this, manager, coordinator, adapter
      ensures Valid() && (clean ==> old(clean))
      ensures ok == (token.Token? && reply.Beat? && (reply.status.Some? ==> reply.status.value == Active) && !reply.clock.ClockFailed?)
      ensures clean ==> Abs() == Play(old(Abs()), HeartbeatEvents(token, reply))
    {
      ghost var w := Abs();
      ok := false;
      if token.NoToken? {
        Tell(CredentialFailed(token.cause));
        PlayOne(w, Reports(CredentialFailed(token.cause)));
        return;
      }
      Tell(CredentialSucceeded);
      PlayOne(w, Reports(CredentialSucceeded));
      ghost var events := [Reports(CredentialSucceeded)];
      if reply.HeartbeatRefused? {
        Tell(FailureOf(HeartbeatChannel, reply.cause));
        PlayMore(w, events, Reports(FailureOf(HeartbeatChannel, reply.cause)));
        return;
      }
      if reply.status.Some? {
        Tell(Status(reply.status.value));
        PlayMore(w, events, Reports(Status(reply.status.value)));
        events := events + [Reports(Status(reply.status.value))];
        if reply.status.value != Active {
          assert HeartbeatEvents(token, reply) == events;
          return;
        }
      }
      Tell(HeartbeatSucceeded);
      PlayMore(w, events, Reports(HeartbeatSucceeded));
      events := events + [Reports(HeartbeatSucceeded)];
      ok := CheckClock(reply.clock, w, events);
      assert HeartbeatEvents(token, reply) == events + ClockEvents(reply.clock);
    }

    /** The last part of a heartbeat: whatever fails here comes after the success was noted. */
    method CheckClock(clock: ClockReply, ghost w: World, ghost events: seq<Event>) returns (ok: bool)
      requires Valid() && (clean ==> Abs() == Play(w, events))
      modifies this, manager, coordinator, adapter
      ensures Valid() && (clean ==> old(clean)) && ok == !clock.ClockFailed?
      ensures clean ==> Abs() == Play(w, events + ClockEvents(clock))
    {
      ok := true;
      match clock
      case Skewed(far) =>
        Tell(ClockWarning(far));
        PlayMore(w, events, Reports(ClockWarning(far)));
      case NoTime =>
        assert events + [] == events;
      case ClockFailed =>
        ok := false;
        Tell(HeartbeatFailed(UNEXPECTED));
        PlayMore(w, events, Reports(HeartbeatFailed(UNEXPECTED)));
    }
  }
}
