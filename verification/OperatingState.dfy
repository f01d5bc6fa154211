/** The agent's operating state, derived from the facts and reasons it has seen. */
module OperatingState {
  import opened Protocol

  datatype Mode = BOOTSTRAP | HEALTHY | DEGRADED | HALTED

  /** The reasons that forbid execution until they are cleared. */
  datatype Closing = NeedsEnrollment | DeviceInactive | DeviceRevoked | CredentialPersistFailed | RestoreFailed

  /** Why a call failed: a closing reason by its name, a refused token, or anything else. */
  datatype Cause = Named(closing: Closing) | BadToken | Other(text: string)

  datatype Degrading =
    | Credential(cause: Cause)
    | Heartbeat(cause: Cause)
    | Snapshot(cause: Cause)
    | ReconciliationFailed
    | ClockSkew
    | StatusUnknown

  datatype DeviceStatus = Active | Inactive | Revoked | Unknown

  datatype Facts = Facts(valid: bool, closed: set<Closing>, degraded: set<Degrading>)

  datatype Change =
    | CredentialSucceeded
    | CredentialFailed(cause: Cause)
    | EnrollmentSucceeded
    | HeartbeatSucceeded
    | HeartbeatFailed(cause: Cause)
    | SnapshotSucceeded
    | SnapshotFailed(cause: Cause)
    | ClockWarning(active: bool)
    | Status(status: DeviceStatus)
    | ReconcileFailed(restored: bool)
    | ReconcileSucceeded
    | ClearFailClosed(reason: Closing)

  function Derive(f: Facts): Mode {
    if f.closed != {} then HALTED
    else if !f.valid then BOOTSTRAP
    else if f.degraded != {} then DEGRADED
    else HEALTHY
  }

  predicate Allowed(f: Facts) {
    Derive(f) in {HEALTHY, DEGRADED}
  }

  function Close(f: Facts, reason: Closing): Facts {
    f.(valid := false, closed := f.closed + {reason})
  }

  function Degrade(f: Facts, reason: Degrading): Facts {
    f.(degraded := f.degraded + {reason})
  }

  /** The closing reason a change brings, if it brings one. */
  function Closes(c: Change): Option<Closing> {
    match c
    case CredentialFailed(Named(r)) => Some(r)
    case HeartbeatFailed(Named(r)) => if r in {DeviceInactive, DeviceRevoked, NeedsEnrollment} then Some(r) else None
    case HeartbeatFailed(BadToken) => Some(NeedsEnrollment)
    case Status(Inactive) => Some(DeviceInactive)
    case Status(Revoked) => Some(DeviceRevoked)
    case ReconcileFailed(false) => Some(RestoreFailed)
    case _ => None
  }

  /** The closing reasons a change takes back. */
  function Reopens(c: Change): set<Closing> {
    match c
    case CredentialSucceeded => {NeedsEnrollment}
    case EnrollmentSucceeded => {NeedsEnrollment, CredentialPersistFailed}
    case Status(Active) => {DeviceInactive, DeviceRevoked}
    case ClearFailClosed(r) => {r}
    case _ => {}
  }

  /** What degrades with a change, and what it takes back. */
  function DegradedAfter(degraded: set<Degrading>, c: Change): set<Degrading> {
    match c
    case CredentialSucceeded => set r | r in degraded && !r.Credential?
    case EnrollmentSucceeded => set r | r in degraded && !r.Credential?
    case CredentialFailed(cause) => if Closes(c).Some? then degraded else degraded + {Credential(cause)}
    case HeartbeatSucceeded => set r | r in degraded && !r.Heartbeat?
    case HeartbeatFailed(cause) => if Closes(c).Some? then degraded else degraded + {Heartbeat(cause)}
    case SnapshotSucceeded => set r | r in degraded && !r.Snapshot? && r != ReconciliationFailed
    case SnapshotFailed(cause) => degraded + {Snapshot(cause)}
    case ClockWarning(active) => if active then degraded + {ClockSkew} else degraded - {ClockSkew}
    case Status(status) => if status == Unknown then degraded + {StatusUnknown} else degraded
    case ReconcileFailed(restored) => if restored then degraded + {ReconciliationFailed} else degraded
    case ReconcileSucceeded => degraded - {ReconciliationFailed}
    case ClearFailClosed(_) => degraded
  }

  function After(f: Facts, c: Change): Facts {
    var reason := Closes(c);
    Facts(
      if reason.Some? then false else if c.SnapshotSucceeded? then true else f.valid,
      if reason.Some? then f.closed + {reason.value} else f.closed - Reopens(c),
      DegradedAfter(f.degraded, c))
  }

  class OperatingStateManager {
    var hasValidSnapshot: bool
    var failClosedReasons: set<Closing>
    var degradedReasons: set<Degrading>

    function Now(): Facts
      reads this
    {
      Facts(hasValidSnapshot, failClosedReasons, degradedReasons)
    }

    constructor ()
      ensures Now() == Facts(false, {}, {})
    {
      hasValidSnapshot, failClosedReasons, degradedReasons := false, {}, {};
    }

    method FailClosed(reason: Closing)
      modifies this
      ensures Now() == Close(old(Now()), reason)
    {
      failClosedReasons := failClosedReasons + {reason};
      hasValidSnapshot := false;
    }

    method AddDegraded(reason: Degrading)
      modifies this`degradedReasons
      ensures Now() == Degrade(old(Now()), reason)
    {
      degradedReasons := degradedReasons + {reason};
    }

    method CredentialSucceededNow()
      modifies this
      ensures Now() == After(old(Now()), CredentialSucceeded)
    {
      degradedReasons := set r | r in degradedReasons && !r.Credential?;
      failClosedReasons := failClosedReasons - {NeedsEnrollment};
    }

    method CredentialFailedWith(cause: Cause)
      modifies this
      ensures Now() == After(old(Now()), CredentialFailed(cause))
    {
      if cause.Named? {
        FailClosed(cause.closing);
      } else {
        AddDegraded(Credential(cause));
      }
    }

    method EnrollmentSucceededNow()
      modifies this
      ensures Now() == After(old(Now()), EnrollmentSucceeded)
    {
      failClosedReasons := failClosedReasons - {NeedsEnrollment, CredentialPersistFailed};
      degradedReasons := set r | r in degradedReasons && !r.Credential?;
    }

    method HeartbeatSucceededNow()
      modifies this`degradedReasons
      ensures Now() == After(old(Now()), HeartbeatSucceeded)
    {
      degradedReasons := set r | r in degradedReasons && !r.Heartbeat?;
    }

    method HeartbeatFailedWith(cause: Cause)
      modifies this
      ensures Now() == After(old(Now()), HeartbeatFailed(cause))
    {
      if cause == Named(DeviceInactive) || cause == Named(DeviceRevoked) {
        FailClosed(cause.closing);
      } else if cause == BadToken || cause == Named(NeedsEnrollment) {
        FailClosed(NeedsEnrollment);
      } else {
        AddDegraded(Heartbeat(cause));
      }
    }

    method SnapshotSucceededNow()
      modifies this
      ensures Now() == After(old(Now()), SnapshotSucceeded)
    {
      hasValidSnapshot := true;
      degradedReasons := set r | r in degradedReasons && !r.Snapshot?;
      degradedReasons := degradedReasons - {ReconciliationFailed};
    }

    method SnapshotFailedWith(cause: Cause)
      modifies this`degradedReasons
      ensures Now() == After(old(Now()), SnapshotFailed(cause))
    {
      AddDegraded(Snapshot(cause));
    }

    method ClockWarningIs(active: bool)
      modifies this`degradedReasons
      ensures Now() == After(old(Now()), ClockWarning(active))
    {
      if active {
        AddDegraded(ClockSkew);
      } else {
        degradedReasons := degradedReasons - {ClockSkew};
      }
    }

    method DeviceStatusIs(status: DeviceStatus)
      modifies this
      ensures Now() == After(old(Now()), Status(status))
    {
      match status
      case Active => failClosedReasons := failClosedReasons - {DeviceInactive, DeviceRevoked};
      case Inactive => FailClosed(DeviceInactive);
      case Revoked => FailClosed(DeviceRevoked);
      case Unknown => AddDegraded(StatusUnknown);
    }

    method ReconciliationFailedNow(restored: bool)
      modifies this
      ensures Now() == After(old(Now()), ReconcileFailed(restored))
    {
      if restored {
        AddDegraded(ReconciliationFailed);
      } else {
        FailClosed(RestoreFailed);
      }
    }

    method ReconciliationSucceededNow()
      modifies this`degradedReasons
      ensures Now() == After(old(Now()), ReconcileSucceeded)
    {
      degradedReasons := degradedReasons - {ReconciliationFailed};
    }

    method ClearFailClosedReason(reason: Closing)
      modifies this`failClosedReasons
      ensures Now() == After(old(Now()), ClearFailClosed(reason))
    {
      failClosedReasons := failClosedReasons - {reason};
    }
  }

  // ------------------------------------------------------------ which reasons stand

  /** The changes that bring a closing reason. */
  predicate Gives(c: Change, r: Closing) {
    match r
    case NeedsEnrollment => c in {CredentialFailed(Named(NeedsEnrollment)), HeartbeatFailed(Named(NeedsEnrollment)), HeartbeatFailed(BadToken)}
    case DeviceInactive => c in {CredentialFailed(Named(DeviceInactive)), HeartbeatFailed(Named(DeviceInactive)), Status(Inactive)}
    case DeviceRevoked => c in {CredentialFailed(Named(DeviceRevoked)), HeartbeatFailed(Named(DeviceRevoked)), Status(Revoked)}
    case CredentialPersistFailed => c == CredentialFailed(Named(CredentialPersistFailed))
    case RestoreFailed => c in {CredentialFailed(Named(RestoreFailed)), ReconcileFailed(false)}
  }

  /** The changes that take it back. */
  predicate TakesBack(c: Change, r: Closing) {
    || c == ClearFailClosed(r)
    || match r
       case NeedsEnrollment => c in {CredentialSucceeded, EnrollmentSucceeded}
       case DeviceInactive => c == Status(Active)
       case DeviceRevoked => c == Status(Active)
       case CredentialPersistFailed => c == EnrollmentSucceeded
       case RestoreFailed => false
  }

  ghost predicate ClosingChange(c: Change) {
    exists r :: Gives(c, r)
  }

  /** The change that brings a degrading reason: a failure of its own channel that does not close execution. */
  predicate Worsens(c: Change, r: Degrading) {
    match r
    case Credential(cause) => c == CredentialFailed(cause) && !cause.Named?
    case Heartbeat(cause) => c == HeartbeatFailed(cause) && (cause.Other? || cause == Named(CredentialPersistFailed) || cause == Named(RestoreFailed))
    case Snapshot(cause) => c == SnapshotFailed(cause)
    case ReconciliationFailed => c == ReconcileFailed(true)
    case ClockSkew => c == ClockWarning(true)
    case StatusUnknown => c == Status(Unknown)
  }

  /** The success that takes the reason back: of its own channel, and for a failed reconciliation of either kind. */
  predicate Recovers(c: Change, r: Degrading) {
    match r
    case Credential(_) => c.CredentialSucceeded? || c.EnrollmentSucceeded?
    case Heartbeat(_) => c.HeartbeatSucceeded?
    case Snapshot(_) => c.SnapshotSucceeded?
    case ReconciliationFailed => c.SnapshotSucceeded? || c.ReconcileSucceeded?
    case ClockSkew => c == ClockWarning(false)
    case StatusUnknown => false
  }

  lemma ClosedAfter(f: Facts, c: Change, r: Closing)
    ensures r in After(f, c).closed <==> Gives(c, r) || (r in f.closed && !TakesBack(c, r))
    ensures ClosingChange(c) <==> Closes(c).Some?
    ensures Gives(c, r) ==> !TakesBack(c, r)
  {
    if Closes(c).Some? {
      assert Gives(c, Closes(c).value);
    }
  }

  lemma WorseAfter(f: Facts, c: Change, r: Degrading)
    ensures r in After(f, c).degraded <==> Worsens(c, r) || (r in f.degraded && !Recovers(c, r))
  {
    match c
    case HeartbeatFailed(cause) =>
      if cause.Named? {
        match cause.closing
        case NeedsEnrollment => assert Closes(c).Some?;
        case DeviceInactive => assert Closes(c).Some?;
        case DeviceRevoked => assert Closes(c).Some?;
        case CredentialPersistFailed => assert Closes(c).None?;
        case RestoreFailed => assert Closes(c).None?;
      }
    case CredentialFailed(cause) => assert Closes(c).None? <==> Worsens(c, Credential(cause));
    case ReconcileFailed(restored) => assert restored || DegradedAfter(f.degraded, c) == f.degraded;
    case ClockWarning(active) => assert active || DegradedAfter(f.degraded, c) == f.degraded - {ClockSkew};
    case Status(status) => assert status == Unknown || DegradedAfter(f.degraded, c) == f.degraded;
    case _ =>
  }

  /** A change starts execution only if it is the snapshot's success, or takes back the last closing reason. */
  lemma ChangeAllowsOnly(f: Facts, c: Change)
    requires !Allowed(f) && Allowed(After(f, c))
    ensures (c.SnapshotSucceeded? && f.closed == {}) || (f.valid && f.closed != {} && forall r :: r in f.closed ==> TakesBack(c, r))
  {
    forall r | r in f.closed ensures TakesBack(c, r) {
      ClosedAfter(f, c, r);
    }
  }

  function Told(changes: seq<Change>, k: nat): Facts
    requires k <= |changes|
  {
    if k == 0 then Facts(false, {}, {}) else After(Told(changes, k - 1), changes[k - 1])
  }

  ghost predicate DegradedSince(changes: seq<Change>, k: nat, r: Degrading)
    requires k <= |changes|
  {
    exists i :: 0 <= i < k && Worsens(changes[i], r) && forall j :: i < j < k ==> !Recovers(changes[j], r)
  }

  ghost predicate ClosedSince(changes: seq<Change>, k: nat, r: Closing)
    requires k <= |changes|
  {
    exists i :: 0 <= i < k && Gives(changes[i], r) && forall j :: i < j < k ==> !TakesBack(changes[j], r)
  }

  /** The snapshot was taken, and nothing has closed execution since. */
  ghost predicate ValidSince(changes: seq<Change>, k: nat)
    requires k <= |changes|
  {
    exists i :: 0 <= i < k && changes[i] == SnapshotSucceeded && forall j :: i < j < k ==> !ClosingChange(changes[j])
  }

  lemma DegradedStep(changes: seq<Change>, k: nat, r: Degrading)
    requires 0 < k <= |changes|
    ensures DegradedSince(changes, k, r) <==>
              Worsens(changes[k - 1], r) || (DegradedSince(changes, k - 1, r) && !Recovers(changes[k - 1], r))
  {
    if DegradedSince(changes, k - 1, r) && !Recovers(changes[k - 1], r) {
      var i :| 0 <= i < k - 1 && Worsens(changes[i], r) && forall j :: i < j < k - 1 ==> !Recovers(changes[j], r);
      assert forall j :: i < j < k ==> !Recovers(changes[j], r);
    }
    if DegradedSince(changes, k, r) && !Worsens(changes[k - 1], r) {
      var i :| 0 <= i < k && Worsens(changes[i], r) && forall j :: i < j < k ==> !Recovers(changes[j], r);
      assert forall j :: i < j < k - 1 ==> !Recovers(changes[j], r);
    }
  }

  lemma ClosedStep(changes: seq<Change>, k: nat, r: Closing)
    requires 0 < k <= |changes|
    ensures ClosedSince(changes, k, r) <==>
              Gives(changes[k - 1], r) || (ClosedSince(changes, k - 1, r) && !TakesBack(changes[k - 1], r))
  {
    if ClosedSince(changes, k - 1, r) && !TakesBack(changes[k - 1], r) {
      var i :| 0 <= i < k - 1 && Gives(changes[i], r) && forall j :: i < j < k - 1 ==> !TakesBack(changes[j], r);
      assert forall j :: i < j < k ==> !TakesBack(changes[j], r);
    }
    if ClosedSince(changes, k, r) && !Gives(changes[k - 1], r) {
      var i :| 0 <= i < k && Gives(changes[i], r) && forall j :: i < j < k ==> !TakesBack(changes[j], r);
      assert forall j :: i < j < k - 1 ==> !TakesBack(changes[j], r);
    }
  }

  lemma ValidStep(changes: seq<Change>, k: nat)
    requires 0 < k <= |changes|
    ensures ValidSince(changes, k) <==>
              changes[k - 1] == SnapshotSucceeded || (ValidSince(changes, k - 1) && !ClosingChange(changes[k - 1]))
  {
    if ValidSince(changes, k - 1) && !ClosingChange(changes[k - 1]) {
      var i :| 0 <= i < k - 1 && changes[i] == SnapshotSucceeded && forall j :: i < j < k - 1 ==> !ClosingChange(changes[j]);
      assert forall j :: i < j < k ==> !ClosingChange(changes[j]);
    }
    if ValidSince(changes, k) && changes[k - 1] != SnapshotSucceeded {
      var i :| 0 <= i < k && changes[i] == SnapshotSucceeded && forall j :: i < j < k ==> !ClosingChange(changes[j]);
      assert forall j :: i < j < k - 1 ==> !ClosingChange(changes[j]);
    }
  }

  /** Whatever the agent is told, in any order: a closing reason stands exactly when it was given and not taken back since. */
  lemma {:induction false} ClosingStandsSince(changes: seq<Change>, k: nat, r: Closing)
    requires k <= |changes|
    ensures r in Told(changes, k).closed <==> ClosedSince(changes, k, r)
  {
    if k > 0 {
      ClosingStandsSince(changes, k - 1, r);
      ClosedStep(changes, k, r);
      ClosedAfter(Told(changes, k - 1), changes[k - 1], r);
    }
  }

  /** And a degrading reason until its own channel succeeds; an unknown status of the device for ever. */
  lemma {:induction false} DegradingStandsSince(changes: seq<Change>, k: nat, r: Degrading)
    requires k <= |changes|
    ensures r in Told(changes, k).degraded <==> DegradedSince(changes, k, r)
  {
    if k > 0 {
      DegradingStandsSince(changes, k - 1, r);
      DegradedStep(changes, k, r);
      WorseAfter(Told(changes, k - 1), changes[k - 1], r);
    }
  }

  /** The snapshot counts as valid exactly when it was taken and nothing has closed execution since. */
  lemma {:induction false} ValidHoldsSince(changes: seq<Change>, k: nat)
    requires k <= |changes|
    ensures Told(changes, k).valid <==> ValidSince(changes, k)
  {
    if k > 0 {
      ValidHoldsSince(changes, k - 1);
      ValidStep(changes, k);
      ClosedAfter(Told(changes, k - 1), changes[k - 1], NeedsEnrollment);
    }
  }

  /** The mode after any changes: what stands decides it, closing reasons before the snapshot and that before degrading ones. */
  lemma ModeFollowsHistory(changes: seq<Change>, k: nat)
    requires k <= |changes|
    ensures var mode := Derive(Told(changes, k));
            && (mode == HALTED <==> exists r :: ClosedSince(changes, k, r))
            && (mode == BOOTSTRAP <==> (forall r :: !ClosedSince(changes, k, r)) && !ValidSince(changes, k))
            && (mode == DEGRADED <==>
                  (forall r :: !ClosedSince(changes, k, r)) && ValidSince(changes, k) && exists r :: DegradedSince(changes, k, r))
            && (Allowed(Told(changes, k)) <==> (forall r :: !ClosedSince(changes, k, r)) && ValidSince(changes, k))
  {
    var f := Told(changes, k);
    forall r { ClosingStandsSince(changes, k, r); }
    forall r { DegradingStandsSince(changes, k, r); }
    ValidHoldsSince(changes, k);
    if f.closed != {} {
      var r :| r in f.closed;
    }
    if f.degraded != {} {
      var r :| r in f.degraded;
    }
  }
}
