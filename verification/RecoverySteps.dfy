/** What each request to the server leaves of the agent's state, by the token and the reply it got. */
module RecoverySteps {
  import opened Protocol
  import opened Snapshots
  import opened OperatingState
  import opened Recovery
  import opened RecoveryObject

  /** A token in hand: no credential failure degrades, and enrollment is not needed. */
  function WithToken(w: World): World {
    w.(facts := Facts(w.facts.valid, w.facts.closed - {NeedsEnrollment}, set r | r in w.facts.degraded && !r.Credential?))
  }

  /** The reason closes execution; on the way out of every other mode the jobs and the snapshot go. */
  predicate HaltedWith(w: World, reason: Closing, n: World) {
    && n.facts == Facts(false, w.facts.closed + {reason}, w.facts.degraded)
    && (if w.facts.closed == {} then n.current == None && n.specs == map[] && n.dropped == {}
        else n.current == w.current && n.specs == w.specs && n.dropped == w.dropped)
  }

  predicate DegradedWith(w: World, reason: Degrading, n: World) {
    n == w.(facts := w.facts.(degraded := w.facts.degraded + {reason}))
  }

  lemma PlayTwo(w: World, a: Event, b: Event)
    ensures Play(w, [a, b]) == Next(Next(w, a), b)
  {
    PlayOne(w, a);
    PlayMore(w, [a], b);
    assert [a] + [b] == [a, b];
  }

  lemma PlayThree(w: World, a: Event, b: Event, c: Event)
    ensures Play(w, [a, b, c]) == Next(Next(Next(w, a), b), c)
  {
    PlayTwo(w, a, b);
    PlayMore(w, [a, b], c);
    assert [a, b] + [c] == [a, b, c];
  }

  lemma TokenTaken(w: World)
    ensures Next(w, Reports(CredentialSucceeded)) == WithToken(w)
  {
  }

  lemma ChannelFails(w: World, cause: Cause)
    ensures DegradedWith(w, Degrading.Snapshot(cause), Next(w, Reports(SnapshotFailed(cause))))
  {
  }

  lemma ClockIs(w: World, far: bool)
    ensures Next(w, Reports(ClockWarning(far))) ==
            w.(facts := w.facts.(degraded := if far then w.facts.degraded + {ClockSkew} else w.facts.degraded - {ClockSkew}))
  {
  }

  /** The degrading reasons that a success of the snapshot channel leaves. */
  function Cleared(degraded: set<Degrading>): set<Degrading> {
    set r | r in degraded && !r.Snapshot? && r != ReconciliationFailed
  }

  lemma Confirmed(w: World)
    ensures Learn(w, SnapshotSucceeded) == w.(facts := Facts(true, w.facts.closed, Cleared(w.facts.degraded)))
  {
    assert After(w.facts, SnapshotSucceeded) == Facts(true, w.facts.closed, Cleared(w.facts.degraded));
  }

  lemma Reconciled(w: World)
    requires ReconciliationFailed !in w.facts.degraded
    ensures Learn(w, ReconcileSucceeded) == w
  {
    assert After(w.facts, ReconcileSucceeded) == w.facts;
  }

  lemma Taken(w: World, s: Snapshots.Snapshot)
    ensures var n := Next(w, Apply(s, Applied));
            n.current == Some(s) && n.facts == Facts(true, w.facts.closed, Cleared(w.facts.degraded))
  {
    Confirmed(Replaced(w, s));
    Reconciled(Learn(Replaced(w, s), SnapshotSucceeded));
  }

  lemma NotTaken(w: World, s: Snapshots.Snapshot)
    ensures Next(w, Apply(s, RolledBack)) == w.(facts := w.facts.(degraded := w.facts.degraded + {ReconciliationFailed}), dropped := {})
    ensures HaltedWith(w.(specs := map[], dropped := {}), RestoreFailed, Next(w, Apply(s, Broken)))
  {
  }

  /** Without a token neither request goes on: a named failure closes execution, another one degrades it. */
  lemma NoTokenOutcome(w: World, cause: Cause, reply: SnapshotReply, beat: HeartbeatReply, applying: Applying, pending: bool)
    ensures var n := Play(w, SnapshotEvents(NoToken(cause), reply, applying, pending));
            && n == Play(w, HeartbeatEvents(NoToken(cause), beat))
            && (if cause.Named? then HaltedWith(w, cause.closing, n) else DegradedWith(w, Credential(cause), n))
  {
    PlayOne(w, Reports(CredentialFailed(cause)));
  }

  /** An unchanged snapshot confirms the one that is held; without one it is a failure of the channel. */
  lemma UnchangedOutcome(w: World, applying: Applying, pending: bool)
    ensures var t, n := WithToken(w), Play(w, SnapshotEvents(Token, Unchanged, applying, pending));
            if w.current.None? then DegradedWith(t, Degrading.Snapshot(Other("not_modified_without_snapshot")), n)
            else n == t.(facts := Facts(true, t.facts.closed, Cleared(t.facts.degraded)))
  {
    PlayTwo(w, Reports(CredentialSucceeded), NotModified);
    TokenTaken(w);
    Confirmed(WithToken(w));
    ChannelFails(WithToken(w), Other("not_modified_without_snapshot"));
  }

  /** A reply that names no device closes execution; a snapshot that is not valid degrades it. */
  lemma UnusableOutcome(w: World, applying: Applying, pending: bool)
    ensures HaltedWith(WithToken(w), NeedsEnrollment, Play(w, SnapshotEvents(Token, NoIdentity, applying, pending)))
    ensures DegradedWith(WithToken(w), Degrading.Snapshot(Other("sync_error")), Play(w, SnapshotEvents(Token, Invalid, applying, pending)))
  {
    PlayTwo(w, Reports(CredentialSucceeded), Reports(CredentialFailed(Named(NeedsEnrollment))));
    PlayTwo(w, Reports(CredentialSucceeded), Reports(SnapshotFailed(Other("sync_error"))));
    TokenTaken(w);
  }

  lemma RefusedPlays(w: World, cause: Cause, applying: Applying, pending: bool)
    ensures Play(w, SnapshotEvents(Token, Refused(cause), applying, pending)) == Next(WithToken(w), Reports(FailureOf(SnapshotChannel, cause)))
    ensures Play(w, HeartbeatEvents(Token, HeartbeatRefused(cause))) == Next(WithToken(w), Reports(FailureOf(HeartbeatChannel, cause)))
  {
    PlayTwo(w, Reports(CredentialSucceeded), Reports(FailureOf(SnapshotChannel, cause)));
    PlayTwo(w, Reports(CredentialSucceeded), Reports(FailureOf(HeartbeatChannel, cause)));
    TokenTaken(w);
  }

  /** Refused by the server: the device's own state and a bad token close execution on either channel. */
  lemma RefusedHalts(w: World, cause: Cause, applying: Applying, pending: bool)
    ensures var t, n := WithToken(w), Play(w, SnapshotEvents(Token, Refused(cause), applying, pending));
            && (cause == Named(DeviceInactive) ==> HaltedWith(t, DeviceInactive, n))
            && (cause == Named(DeviceRevoked) ==> HaltedWith(t, DeviceRevoked, n))
            && (cause == BadToken ==> HaltedWith(t, NeedsEnrollment, n))
            && (cause in {BadToken, Named(DeviceInactive), Named(DeviceRevoked)} ==> Play(w, HeartbeatEvents(Token, HeartbeatRefused(cause))) == n)
  {
    RefusedPlays(w, cause, applying, pending);
  }

  /** All else degrades its own channel, save that a heartbeat refused for want of enrollment closes execution. */
  lemma RefusedDegrades(w: World, cause: Cause, applying: Applying, pending: bool)
    requires cause !in {BadToken, Named(DeviceInactive), Named(DeviceRevoked)}
    ensures var t := WithToken(w);
            var n, h := Play(w, SnapshotEvents(Token, Refused(cause), applying, pending)), Play(w, HeartbeatEvents(Token, HeartbeatRefused(cause)));
            && DegradedWith(t, Degrading.Snapshot(cause), n)
            && (if cause == Named(NeedsEnrollment) then HaltedWith(t, NeedsEnrollment, h) else DegradedWith(t, Heartbeat(cause), h))
  {
    RefusedPlays(w, cause, applying, pending);
  }

  /** A whole snapshot that the scheduler takes is the current and a valid one; what else went wrong only degrades. */
  lemma AppliedOutcome(w: World, s: Snapshots.Snapshot, skewed: bool, pending: bool)
    ensures var t, n := WithToken(w), Play(w, SnapshotEvents(Token, Whole(s, skewed), Applied, pending));
            var rest := Cleared(t.facts.degraded);
            && n.current == Some(s)
            && n.facts == Facts(true, t.facts.closed,
                                if !pending then rest + {Degrading.Snapshot(Other("unexpected"))}
                                else if skewed then rest + {ClockSkew} else rest - {ClockSkew})
  {
    TokenTaken(w);
    Taken(WithToken(w), s);
    var u := Next(WithToken(w), Apply(s, Applied));
    if pending {
      PlayThree(w, Reports(CredentialSucceeded), Apply(s, Applied), Reports(ClockWarning(skewed)));
      assert SnapshotEvents(Token, Whole(s, skewed), Applied, pending) == [Reports(CredentialSucceeded), Apply(s, Applied), Reports(ClockWarning(skewed))];
      ClockIs(u, skewed);
    } else {
      PlayThree(w, Reports(CredentialSucceeded), Apply(s, Applied), Reports(SnapshotFailed(UNEXPECTED)));
      assert SnapshotEvents(Token, Whole(s, skewed), Applied, pending) == [Reports(CredentialSucceeded), Apply(s, Applied), Reports(SnapshotFailed(UNEXPECTED))];
      ChannelFails(u, UNEXPECTED);
    }
  }

  /** A snapshot that is not taken leaves the jobs as they were and execution degraded, dropped jobs put back. */
  lemma RolledBackOutcome(w: World, s: Snapshots.Snapshot, skewed: bool, pending: bool)
    ensures var t, n := WithToken(w), Play(w, SnapshotEvents(Token, Whole(s, skewed), RolledBack, pending));
            n == t.(facts := t.facts.(degraded := t.facts.degraded + {ReconciliationFailed, Degrading.Snapshot(Other("unexpected"))}), dropped := {})
  {
    PlayThree(w, Reports(CredentialSucceeded), Apply(s, RolledBack), Reports(SnapshotFailed(UNEXPECTED)));
    assert SnapshotEvents(Token, Whole(s, skewed), RolledBack, pending) == [Reports(CredentialSucceeded), Apply(s, RolledBack), Reports(SnapshotFailed(UNEXPECTED))];
    TokenTaken(w);
    NotTaken(WithToken(w), s);
    ChannelFails(Next(WithToken(w), Apply(s, RolledBack)), UNEXPECTED);
    var degraded := WithToken(w).facts.degraded;
    assert degraded + {ReconciliationFailed} + {Degrading.Snapshot(UNEXPECTED)} == degraded + {ReconciliationFailed, Degrading.Snapshot(UNEXPECTED)};
  }

  /** One that could not be taken back either leaves no jobs, and execution closed. */
  lemma BrokenOutcome(w: World, s: Snapshots.Snapshot, skewed: bool, pending: bool)
    ensures var t, n := WithToken(w), Play(w, SnapshotEvents(Token, Whole(s, skewed), Broken, pending));
            && n.specs == map[] && n.dropped == {}
            && n.facts == Facts(false, t.facts.closed + {RestoreFailed}, t.facts.degraded + {Degrading.Snapshot(Other("unexpected"))})
            && n.current == (if t.facts.closed == {} then None else w.current)
  {
    PlayThree(w, Reports(CredentialSucceeded), Apply(s, Broken), Reports(SnapshotFailed(UNEXPECTED)));
    assert SnapshotEvents(Token, Whole(s, skewed), Broken, pending) == [Reports(CredentialSucceeded), Apply(s, Broken), Reports(SnapshotFailed(UNEXPECTED))];
    TokenTaken(w);
    NotTaken(WithToken(w), s);
    ChannelFails(Next(WithToken(w), Apply(s, Broken)), UNEXPECTED);
  }

  /** A heartbeat of a device that is not active closes execution, or degrades it when the status is not known, and ends there. */
  lemma NotActiveOutcome(w: World, status: DeviceStatus, clock: ClockReply)
    requires status != Active
    ensures var t, n := WithToken(w), Play(w, HeartbeatEvents(Token, Beat(Some(status), clock)));
            match status
            case Inactive => HaltedWith(t, DeviceInactive, n)
            case Revoked => HaltedWith(t, DeviceRevoked, n)
            case Unknown => DegradedWith(t, StatusUnknown, n)
  {
    PlayTwo(w, Reports(CredentialSucceeded), Reports(Status(status)));
    TokenTaken(w);
  }

  /** Any other beat takes back the heartbeat's failures, and an active status the reasons of the device's state. */
  lemma BeatOutcome(w: World, status: Option<DeviceStatus>, clock: ClockReply)
    requires status.Some? ==> status.value == Active
    ensures var t, n := WithToken(w), Play(w, HeartbeatEvents(Token, Beat(status, clock)));
            var rest := set r | r in t.facts.degraded && !r.Heartbeat?;
            n == t.(facts := Facts(t.facts.valid, if status.Some? then t.facts.closed - {DeviceInactive, DeviceRevoked} else t.facts.closed,
                                   match clock
                                   case Skewed(far) => if far then rest + {ClockSkew} else rest - {ClockSkew}
                                   case NoTime => rest
                                   case ClockFailed => rest + {Heartbeat(Other("unexpected"))}))
  {
    var events := [Reports(CredentialSucceeded)] + (if status.Some? then [Reports(Status(Active))] else []);
    var noted := events + [Reports(HeartbeatSucceeded)];
    PlayOne(w, Reports(CredentialSucceeded));
    PlayMore(w, [Reports(CredentialSucceeded)], Reports(Status(Active)));
    assert status.None? ==> events == [Reports(CredentialSucceeded)];
    PlayMore(w, events, Reports(HeartbeatSucceeded));
    assert HeartbeatEvents(Token, Beat(status, clock)) == noted + ClockEvents(clock);
    if !clock.NoTime? {
      PlayMore(w, noted, ClockEvents(clock)[0]);
      assert ClockEvents(clock) == [ClockEvents(clock)[0]];
    } else {
      assert noted + ClockEvents(clock) == noted;
    }
    TokenTaken(w);
  }
}
