/**
  The server's execution tables: manual-run claims with a lease, idempotent results with
  the status changes they cause, and the sweep of expired claims. A transaction is one
  step; times are microseconds, and the database clock ticks in whole seconds.
 */
module ExecutionTables {
  import opened Protocol

  datatype Status = Inactive | Active | Wait | Processing | Done | Failed

  datatype GroupRow = GroupRow(device: int, errorStop: bool, error: bool)
  datatype DetailRow = DetailRow(schedule: int, errorStop: bool, deleted: bool, error: bool)
  datatype ManualRow = ManualRow(detail: Uuid, status: Status, token: Option<string>, expires: Option<int>)
  datatype LogRow = LogRow(
    id: nat, key: ResultKey, schedule: int, manual: Option<nat>,
    started: int, finished: int, code: int, message: Option<string>, environment: string)
  datatype Marker = Marker(group: Uuid, attempt: nat, started: int)

  datatype Tables = Tables(
    groups: map<int, GroupRow>,
    details: map<Uuid, DetailRow>,
    manuals: map<nat, ManualRow>,
    log: seq<LogRow>,
    running: map<(int, Uuid), Marker>)

  datatype Error = NotFound | AlreadyClaimed | ClaimExpired | InvalidRequest | Unavailable

  datatype ClaimReply = Claimed(token: string, expires: int) | ClaimFailed(error: Error)
  datatype ResultReply = Recorded(id: nat, duplicate: bool, transitions: seq<Transition>) | Refused(error: Error)

  const SECOND: int := 1_000_000
  const CLAIM_TTL: int := 30 * 60 * SECOND

  function Truncate(t: int): int {
    t - t % SECOND
  }

  /** A DATETIME column without fractional digits rounds to the nearest second. */
  function StoreTime(t: int): int {
    (t + SECOND / 2) / SECOND * SECOND
  }

  predicate WholeSecond(t: int) {
    t % SECOND == 0
  }

  // ------------------------------------------------------------ claim

  predicate LeaseExpired(row: ManualRow, now: int) {
    row.status == Processing && row.expires.Some? && row.expires.value <= now
  }

  function Reset(row: ManualRow): ManualRow {
    row.(status := Wait, token := None, expires := None)
  }

  /** The device may act on the manual run: its detail exists undeleted and its group targets the device. */
  predicate MayClaim(db: Tables, device: int, manual: nat) {
    && manual in db.manuals
    && db.manuals[manual].detail in db.details
    && var detail := db.details[db.manuals[manual].detail];
       !detail.deleted && detail.schedule in db.groups && db.groups[detail.schedule].device == device
  }

  function Claim(db: Tables, device: int, manual: nat, token: string, now: int): (ClaimReply, Tables) {
    if !MayClaim(db, device, manual) then
      (ClaimFailed(NotFound), db)
    else
      var row := if LeaseExpired(db.manuals[manual], now) then Reset(db.manuals[manual]) else db.manuals[manual];
      if row.status != Wait then
        (ClaimFailed(AlreadyClaimed), db)
      else
        var claimed := row.(status := Processing, token := Some(token), expires := Some(now + CLAIM_TTL));
        (Claimed(token, now + CLAIM_TTL), db.(manuals := db.manuals[manual := claimed]))
  }

  // ------------------------------------------------------------ accept a result

  function Find(log: seq<LogRow>, key: ResultKey): Option<LogRow> {
    if log == [] then None
    else if log[|log| - 1].key == key then Some(log[|log| - 1])
    else Find(log[..|log| - 1], key)
  }

  predicate SameResult(row: LogRow, p: Envelope) {
    && row.schedule == p.schedule
    && row.manual == p.manual
    && row.started == p.started
    && row.finished == p.finished
    && row.code == p.code
    && row.message == p.message
    && row.environment == p.environment
  }

  /** The detail exists, belongs to the named schedule, and the schedule targets the device. */
  predicate Owns(db: Tables, device: int, p: Envelope) {
    && p.detail in db.details
    && db.details[p.detail].schedule == p.schedule
    && p.schedule in db.groups
    && db.groups[p.schedule].device == device
  }

  function ManualError(db: Tables, p: Envelope, now: int): Option<Error> {
    match p.manual
    case None => None
    case Some(m) =>
      if m !in db.manuals || db.manuals[m].detail != p.detail then
        Some(NotFound)
      else
        var row := db.manuals[m];
        if row.status != Processing then Some(ClaimExpired)
        else if p.token.None? then Some(Unavailable)
        else if (if row.token.Some? then row.token.value else "") != p.token.value then Some(ClaimExpired)
        else if row.expires.None? || row.expires.value <= now then Some(ClaimExpired)
        else None
  }

  function NewRow(db: Tables, p: Envelope): LogRow {
    LogRow(|db.log| + 1, p.Key(), p.schedule, p.manual, StoreTime(p.started), StoreTime(p.finished),
           p.code, p.message, p.environment)
  }

  function ClearRunning(db: Tables, p: Envelope): Tables {
    db.(running := db.running - {(p.schedule, p.detail)})
  }

  /** The status change that a newly recorded result causes, and the transition that reports it. */
  function Settle(db: Tables, p: Envelope): (seq<Transition>, Tables)
    requires p.detail in db.details && p.schedule in db.groups
    requires p.manual.Some? ==> p.manual.value in db.manuals
  {
    if p.manual.Some? then
      var m := p.manual.value;
      var row := db.manuals[m].(status := if p.code == 0 then Done else Failed, token := None, expires := None);
      ([if p.code == 0 then ManualDone(m) else ManualFailed(m)], db.(manuals := db.manuals[m := row]))
    else if p.code != 0 && db.groups[p.schedule].errorStop then
      ([GroupError(p.schedule)],
       db.(groups := db.groups[p.schedule := db.groups[p.schedule].(error := true)]))
    else if p.code != 0 && db.details[p.detail].errorStop then
      ([DetailError(p.detail)],
       db.(details := db.details[p.detail := db.details[p.detail].(error := true)]))
    else
      ([], db)
  }

  function Insert(db: Tables, p: Envelope): (ResultReply, Tables)
    requires p.detail in db.details && p.schedule in db.groups
    requires p.manual.Some? ==> p.manual.value in db.manuals
  {
    var row := NewRow(db, p);
    var (transitions, after) := Settle(ClearRunning(db.(log := db.log + [row]), p), p);
    (Recorded(row.id, false, transitions), after)
  }

  function Accept(db: Tables, device: int, p: Envelope, now: int): (ResultReply, Tables) {
    if !Owns(db, device, p) then
      (Refused(NotFound), db)
    else
      match Find(db.log, p.Key())
      case Some(row) =>
        if SameResult(row, p) then (Recorded(row.id, true, []), ClearRunning(db, p))
        else (Refused(InvalidRequest), db)
      case None =>
        var error := ManualError(db, p, now);
        if error.Some? then (Refused(error.value), db) else Insert(db, p)
  }

  /** The service in front of the repository: it checks the key header and stores whole seconds. */
  function Submit(db: Tables, device: int, header: Option<ResultKey>, e: Envelope, now: int): (ResultReply, Tables) {
    if header != Some(e.Key()) || (e.manual.None? != e.token.None?) || e.finished < e.started then
      (Refused(InvalidRequest), db)
    else
      Accept(db, device, Stored(e), now)
  }

  function Stored(e: Envelope): Envelope {
    e.(started := Truncate(e.started), finished := Truncate(e.finished))
  }

  // ------------------------------------------------------------ the other steps

  function Begin(db: Tables, device: int, p: Envelope): Tables {
    if Owns(db, device, p) && !db.details[p.detail].deleted then
      db.(running := db.running[(p.schedule, p.detail) := Marker(p.group, p.attempt, p.started)])
    else
      db
  }

  function ExpiredRows(manuals: map<nat, ManualRow>, now: int): set<nat> {
    set m | m in manuals && LeaseExpired(manuals[m], now)
  }

  /** Returns the named rows, if expired, to the wait state. */
  function ResetRows(manuals: map<nat, ManualRow>, ids: set<nat>, now: int): map<nat, ManualRow> {
    map m | m in manuals :: if m in ids && LeaseExpired(manuals[m], now) then Reset(manuals[m]) else manuals[m]
  }

  datatype Op =
    | ClaimRun(device: int, manual: nat, token: string, now: int)
    | AcceptResult(device: int, payload: Envelope, now: int)
    | StartRun(device: int, payload: Envelope)
    | SweepRows(ids: set<nat>, now: int)
    | NewManual(manual: nat, detail: Uuid, status: Status)
    | EditSchedules(groups: map<int, GroupRow>, details: map<Uuid, DetailRow>)

  predicate Legal(db: Tables, op: Op) {
    op.NewManual? ==> op.manual !in db.manuals && op.status in {Inactive, Active, Wait}
  }

  function Do(db: Tables, op: Op): Tables {
    match op
    case ClaimRun(device, manual, token, now) => Claim(db, device, manual, token, now).1
    case AcceptResult(device, p, now) => Accept(db, device, p, now).1
    case StartRun(device, p) => Begin(db, device, p)
    case SweepRows(ids, now) => db.(manuals := ResetRows(db.manuals, ids, now))
    case NewManual(m, detail, status) => db.(manuals := db.manuals[m := ManualRow(detail, status, None, None)])
    case EditSchedules(groups, details) => db.(groups := groups, details := details)
  }

  datatype Run = Run(states: seq<Tables>, ops: seq<Op>)

  ghost predicate IsRun(run: Run) {
    && |run.states| == |run.ops| + 1
    && (forall k {:trigger run.ops[k]} :: 0 <= k < |run.ops| ==>
          Legal(run.states[k], run.ops[k]) && run.states[k + 1] == Do(run.states[k], run.ops[k]))
  }

  /** Tables without claims or results; schedules and idle manual runs may exist. */
  ghost predicate Pristine(db: Tables) {
    && db.log == []
    && (forall m :: m in db.manuals ==>
          db.manuals[m].status in {Inactive, Active, Wait} && db.manuals[m].token.None? && db.manuals[m].expires.None?)
  }

  // ------------------------------------------------------------ the log

  ghost predicate LogOk(log: seq<LogRow>) {
    && (forall i :: 0 <= i < |log| ==> log[i].id == i + 1)
    && (forall i, j :: 0 <= i < j < |log| ==> log[i].key != log[j].key)
  }

  lemma FindIsExact(log: seq<LogRow>, key: ResultKey)
    ensures Find(log, key).Some? ==> Find(log, key).value in log && Find(log, key).value.key == key
    ensures Find(log, key).None? <==> forall i :: 0 <= i < |log| ==> log[i].key != key
  {
    if log != [] {
      FindIsExact(log[..|log| - 1], key);
    }
  }

  /** Under unique keys the lookup returns any row with the key. */
  lemma FindUnique(log: seq<LogRow>, i: nat)
    requires LogOk(log) && i < |log|
    ensures Find(log, log[i].key) == Some(log[i])
  {
    FindIsExact(log, log[i].key);
  }

  /** One step appends at most one row and changes none. */
  lemma StepAppends(db: Tables, op: Op)
    ensures db.log <= Do(db, op).log && |Do(db, op).log| <= |db.log| + 1
    ensures |Do(db, op).log| == |db.log| + 1 <==>
            op.AcceptResult? && Accept(db, op.device, op.payload, op.now).0.Recorded?
            && !Accept(db, op.device, op.payload, op.now).0.duplicate
  {
  }

  lemma LogOkPreserved(db: Tables, op: Op)
    requires LogOk(db.log)
    ensures LogOk(Do(db, op).log)
  {
    if op.AcceptResult? {
      FindIsExact(db.log, op.payload.Key());
    }
  }

  // ------------------------------------------------------------ the lease machine

  /** A row of the log that records this manual run. */
  ghost predicate Records(log: seq<LogRow>, m: nat, i: int) {
    0 <= i < |log| && log[i].manual == Some(m)
  }

  ghost predicate LeaseOk(db: Tables, m: nat) {
    && (m !in db.manuals ==> forall i :: !Records(db.log, m, i))
    && (m in db.manuals ==>
          var row := db.manuals[m];
          && (row.status == Processing <==> row.token.Some?)
          && (row.status == Processing <==> row.expires.Some?)
          && (forall i, j :: Records(db.log, m, i) && Records(db.log, m, j) ==> i == j)
          && (row.status == Done <==> exists i :: Records(db.log, m, i) && db.log[i].code == 0)
          && (row.status == Failed <==> exists i :: Records(db.log, m, i) && db.log[i].code != 0))
  }

  lemma LeaseKeptByOthers(db: Tables, after: Tables, m: nat)
    requires LeaseOk(db, m)
    requires m in db.manuals <==> m in after.manuals
    requires m in db.manuals ==> after.manuals[m] == db.manuals[m]
    requires db.log <= after.log
    requires forall i :: |db.log| <= i < |after.log| ==> after.log[i].manual != Some(m)
    ensures LeaseOk(after, m)
  {
    assert forall i :: Records(after.log, m, i) <==> Records(db.log, m, i);
  }

  lemma LeaseKeptByInsert(db: Tables, p: Envelope, m: nat)
    requires LeaseOk(db, m) && p.manual == Some(m) && m in db.manuals && db.manuals[m].status == Processing
    requires p.detail in db.details && p.schedule in db.groups
    ensures LeaseOk(Insert(db, p).1, m)
  {
    var after := Insert(db, p).1;
    if i :| Records(db.log, m, i) {
      assert false;
    }
    assert after.log == db.log + [NewRow(db, p)];
    assert Records(after.log, m, |db.log|) && after.log[|db.log|].code == p.code;
    assert forall i :: Records(after.log, m, i) ==> i == |db.log|;
  }

  lemma LeasePreserved(db: Tables, op: Op, m: nat)
    requires LeaseOk(db, m) && Legal(db, op)
    ensures LeaseOk(Do(db, op), m)
  {
    var after := Do(db, op);
    StepAppends(db, op);
    if op.AcceptResult? && op.payload.manual == Some(m) && |after.log| > |db.log| {
      LeaseKeptByInsert(db, op.payload, m);
    } else if after.log == db.log {
      assert forall i :: Records(after.log, m, i) <==> Records(db.log, m, i);
    } else {
      LeaseKeptByOthers(db, after, m);
    }
  }

  lemma {:induction false} RunKeepsInvariants(run: Run, k: nat)
    requires IsRun(run) && Pristine(run.states[0]) && k < |run.states|
    ensures LogOk(run.states[k].log)
    ensures forall m :: LeaseOk(run.states[k], m)
  {
    if k == 0 {
    } else {
      RunKeepsInvariants(run, k - 1);
      var op := run.ops[k - 1];
      LogOkPreserved(run.states[k - 1], op);
      forall m ensures LeaseOk(run.states[k], m) {
        LeasePreserved(run.states[k - 1], op, m);
      }
    }
  }

  lemma {:induction false} LogOnlyGrows(run: Run, k: nat, l: nat)
    requires IsRun(run) && k <= l < |run.states|
    ensures run.states[k].log <= run.states[l].log
  {
    if k < l {
      LogOnlyGrows(run, k, l - 1);
      StepAppends(run.states[l - 1], run.ops[l - 1]);
    }
  }

  /** A manual run that is done or failed stays so, whatever happens later. */
  lemma {:induction false} FinishedIsFinal(run: Run, k: nat, l: nat, m: nat)
    requires IsRun(run) && k <= l < |run.states|
    requires m in run.states[k].manuals && run.states[k].manuals[m].status in {Done, Failed}
    ensures m in run.states[l].manuals && run.states[l].manuals[m] == run.states[k].manuals[m]
  {
    if k < l {
      FinishedIsFinal(run, k, l - 1, m);
      assert Legal(run.states[l - 1], run.ops[l - 1]);
    }
  }

  /**
    The lease machine over every run: a manual run is processing exactly when it has a token
    and an expiry, it has at most one log row ever, and that row's code decides between done
    and failed.
   */
  lemma LeaseMachine(run: Run, k: nat, m: nat)
    requires IsRun(run) && Pristine(run.states[0]) && k < |run.states| && m in run.states[k].manuals
    ensures var db := run.states[k];
            var row := db.manuals[m];
            && (row.status == Processing <==> row.token.Some?)
            && (row.status == Processing <==> row.expires.Some?)
            && (forall i, j :: Records(db.log, m, i) && Records(db.log, m, j) ==> i == j)
            && (row.status == Done <==> exists i :: Records(db.log, m, i) && db.log[i].code == 0)
            && (row.status == Failed <==> exists i :: Records(db.log, m, i) && db.log[i].code != 0)
  {
    RunKeepsInvariants(run, k);
    assert LeaseOk(run.states[k], m);
  }

  /** The step neither looks at the clock at or after `until` nor shows the lease's own token for the run. */
  predicate WithinLease(op: Op, m: nat, token: string, until: int) {
    match op
    case ClaimRun(_, _, _, now) => now < until
    case SweepRows(_, now) => now < until
    case AcceptResult(_, p, _) => p.manual == Some(m) ==> p.token != Some(token)
    case _ => true
  }

  /** Until it expires, a lease cannot be taken over, swept or lost: nothing without its token ends it. */
  lemma {:induction false} LeaseIsHeld(run: Run, k: nat, l: nat, m: nat, until: int)
    requires IsRun(run) && k <= l < |run.states|
    requires m in run.states[k].manuals && run.states[k].manuals[m].status == Processing
    requires run.states[k].manuals[m].token.Some? && run.states[k].manuals[m].expires == Some(until)
    requires forall i :: k <= i < l ==> WithinLease(run.ops[i], m, run.states[k].manuals[m].token.value, until)
    ensures m in run.states[l].manuals && run.states[l].manuals[m] == run.states[k].manuals[m]
  {
    if k < l {
      LeaseIsHeld(run, k, l - 1, m, until);
      assert WithinLease(run.ops[l - 1], m, run.states[k].manuals[m].token.value, until);
      assert Legal(run.states[l - 1], run.ops[l - 1]);
    }
  }

  /** The holder of a live lease can record its result, a stale token cannot. */
  lemma OnlyTheHolderRecords(db: Tables, device: int, p: Envelope, now: int, m: nat, until: int)
    requires Owns(db, device, p) && p.manual == Some(m) && p.token.Some? && Find(db.log, p.Key()).None?
    requires m in db.manuals && db.manuals[m].detail == p.detail
    requires db.manuals[m].status == Processing && db.manuals[m].token.Some? && db.manuals[m].expires == Some(until)
    ensures var (reply, after) := Accept(db, device, p, now);
            if p.token == db.manuals[m].token && now < until then
              && reply.Recorded? && !reply.duplicate
              && after.manuals[m].status == (if p.code == 0 then Done else Failed)
              && after.manuals[m].token.None? && after.manuals[m].expires.None?
            else
              reply == Refused(ClaimExpired) && after == db
  {
  }

  /** The transitions in a reply are exactly the status changes the step made. */
  lemma TransitionsAreTheChanges(db: Tables, device: int, p: Envelope, now: int)
    requires Accept(db, device, p, now).0.Recorded?
    ensures var (reply, after) := Accept(db, device, p, now);
            && after.groups.Keys == db.groups.Keys && after.details.Keys == db.details.Keys
            && (forall g :: g in db.groups ==>
                  after.groups[g] == db.groups[g].(error := db.groups[g].error || GroupError(g) in reply.transitions))
            && (forall d :: d in db.details ==>
                  after.details[d] == db.details[d].(error := db.details[d].error || DetailError(d) in reply.transitions))
            && (forall m :: m in db.manuals ==>
                  && (ManualDone(m) in reply.transitions ==> after.manuals[m].status == Done)
                  && (ManualFailed(m) in reply.transitions ==> after.manuals[m].status == Failed)
                  && (ManualDone(m) !in reply.transitions && ManualFailed(m) !in reply.transitions ==>
                        after.manuals[m] == db.manuals[m]))
    ensures var (reply, after) := Accept(db, device, p, now);
            Find(db.log, p.Key()).None? && p.manual.None? && p.code != 0 && db.groups[p.schedule].errorStop
            <==> reply.transitions == [GroupError(p.schedule)]
  {
  }

  // ------------------------------------------------------------ replays

  lemma StoreTimeIsExactForWholeSeconds(t: int)
    ensures StoreTime(t) == t <==> WholeSecond(t)
    ensures WholeSecond(Truncate(t))
  {
  }

  lemma StoredRowMatches(db: Tables, p: Envelope)
    ensures SameResult(NewRow(db, p), p) <==> WholeSecond(p.started) && WholeSecond(p.finished)
  {
    StoreTimeIsExactForWholeSeconds(p.started);
    StoreTimeIsExactForWholeSeconds(p.finished);
  }

  /** After acceptance the log holds a row with the payload's key and the id that was returned. */
  lemma AcceptedIsLogged(db: Tables, device: int, p: Envelope, now: int)
    requires LogOk(db.log) && WholeSecond(p.started) && WholeSecond(p.finished)
    requires Accept(db, device, p, now).0.Recorded?
    ensures var (reply, after) := Accept(db, device, p, now);
            && LogOk(after.log)
            && 1 <= reply.id <= |after.log|
            && after.log[reply.id - 1].key == p.Key()
            && SameResult(after.log[reply.id - 1], p)
  {
    LogOkPreserved(db, AcceptResult(device, p, now));
    FindIsExact(db.log, p.Key());
    StoredRowMatches(db, p);
  }

  /**
    Replay is a no-op: while the device owns the detail, an accepted payload submitted again at
    any later time returns the same id without transitions and changes only the running marker.
   */
  lemma ReplayIsNoOp(run: Run, k: nat, l: nat, later: int)
    requires IsRun(run) && Pristine(run.states[0]) && k < l < |run.states|
    requires run.ops[k].AcceptResult?
    requires WholeSecond(run.ops[k].payload.started) && WholeSecond(run.ops[k].payload.finished)
    requires Accept(run.states[k], run.ops[k].device, run.ops[k].payload, run.ops[k].now).0.Recorded?
    requires Owns(run.states[l], run.ops[k].device, run.ops[k].payload)
    ensures var AcceptResult(device, p, now) := run.ops[k];
            var id := Accept(run.states[k], device, p, now).0.id;
            Accept(run.states[l], device, p, later) == (Recorded(id, true, []), ClearRunning(run.states[l], p))
  {
    var AcceptResult(device, p, now) := run.ops[k];
    var id := Accept(run.states[k], device, p, now).0.id;
    RunKeepsInvariants(run, k);
    RunKeepsInvariants(run, l);
    AcceptedIsLogged(run.states[k], device, p, now);
    LogOnlyGrows(run, k + 1, l);
    assert run.states[l].log[id - 1] == run.states[k + 1].log[id - 1];
    FindUnique(run.states[l].log, id - 1);
  }

  /** A different payload under a key that is already recorded is rejected and changes nothing. */
  lemma ConflictIsRejected(db: Tables, device: int, p: Envelope, now: int, i: nat)
    requires LogOk(db.log) && i < |db.log| && db.log[i].key == p.Key() && Owns(db, device, p)
    ensures SameResult(db.log[i], p) <==> Accept(db, device, p, now).0 == Recorded(db.log[i].id, true, [])
    ensures !SameResult(db.log[i], p) ==> Accept(db, device, p, now) == (Refused(InvalidRequest), db)
  {
    FindUnique(db.log, i);
  }

  lemma OwnershipStays(db: Tables, device: int, p: Envelope, now: int)
    requires Accept(db, device, p, now).0.Recorded?
    ensures Owns(Accept(db, device, p, now).1, device, p)
  {
  }

  /** Behind the service, which cuts to whole seconds first, any result can be replayed. */
  lemma SubmittedCanBeReplayed(db: Tables, device: int, e: Envelope, now: int, later: int)
    requires LogOk(db.log) && Submit(db, device, Some(e.Key()), e, now).0.Recorded?
    ensures var (reply, after) := Submit(db, device, Some(e.Key()), e, now);
            Submit(after, device, Some(e.Key()), e, later)
            == (Recorded(reply.id, true, []), ClearRunning(after, e))
  {
    StoreTimeIsExactForWholeSeconds(e.started);
    StoreTimeIsExactForWholeSeconds(e.finished);
    AcceptedIsLogged(db, device, Stored(e), now);
    OwnershipStays(db, device, Stored(e), now);
    var (reply, after) := Submit(db, device, Some(e.Key()), e, now);
    FindUnique(after.log, reply.id - 1);
  }

  /** Without the cut, a new result could be replayed exactly when its times are whole seconds. */
  lemma ReplayNeedsWholeSeconds(db: Tables, device: int, p: Envelope, now: int, later: int)
    requires LogOk(db.log) && Accept(db, device, p, now).0.Recorded? && !Accept(db, device, p, now).0.duplicate
    ensures var after := Accept(db, device, p, now).1;
            Accept(after, device, p, later).0.Recorded? <==> WholeSecond(p.started) && WholeSecond(p.finished)
  {
    var after := Accept(db, device, p, now).1;
    LogOkPreserved(db, AcceptResult(device, p, now));
    OwnershipStays(db, device, p, now);
    StoredRowMatches(db, p);
    assert after.log[|db.log|] == NewRow(db, p);
    FindUnique(after.log, |db.log|);
  }

  // ------------------------------------------------------------ the claimable flag

  /** What the snapshot publishes as claimable. */
  predicate Claimable(row: ManualRow, now: int) {
    || row.status == Wait
    || (row.status == Processing && row.expires.Some? && row.expires.value <= now)
  }

  /** At the time of the snapshot, claimable runs are exactly those a claim by their device would win. */
  lemma ClaimableIsWinnable(db: Tables, device: int, m: nat, token: string, now: int)
    requires MayClaim(db, device, m)
    ensures Claim(db, device, m, token, now).0.Claimed? <==> Claimable(db.manuals[m], now)
    ensures Claim(db, device, m, token, now).0.ClaimFailed? ==> Claim(db, device, m, token, now).1 == db
  {
  }

  /**
    The dashboard's abandon statement sets the status alone. It keeps the lease machine's
    invariant exactly for runs that had already failed.
   */
  lemma AbandonKeepsLeaseIff(db: Tables, m: nat)
    requires LeaseOk(db, m) && m in db.manuals
    ensures var abandoned := db.(manuals := db.manuals[m := db.manuals[m].(status := Failed)]);
            LeaseOk(abandoned, m) <==> db.manuals[m].status == Failed
  {
    var abandoned := db.(manuals := db.manuals[m := db.manuals[m].(status := Failed)]);
    if LeaseOk(abandoned, m) {
      var i :| Records(abandoned.log, m, i) && abandoned.log[i].code != 0;
      assert Records(db.log, m, i) && db.log[i].code != 0;
    }
  }
}
