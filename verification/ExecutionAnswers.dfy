/** When the execution tables answer what, and what an answer changes, row by row. */
module ExecutionAnswers {
  import opened Protocol
  import opened ExecutionTables

  // ------------------------------------------------------------ times

  lemma CutIsFloor(t: int)
    ensures Truncate(t) % 1_000_000 == 0 && Truncate(t) <= t < Truncate(t) + 1_000_000
  {
  }

  /** A column without fractional digits keeps the nearest second; halves go up. */
  lemma StoredIsNearest(t: int)
    ensures StoreTime(t) % 1_000_000 == 0 && -500_000 < StoreTime(t) - t <= 500_000
  {
  }

  /** The row of any accepted payload, also of one that was not cut: its own content under its own key, times to the nearest second. */
  lemma RowIsNearest(db: Tables, p: Envelope)
    ensures var r := NewRow(db, p);
            && r.id == |db.log| + 1 && r.key == ResultKey(p.group, p.detail, p.attempt)
            && r.schedule == p.schedule && r.manual == p.manual && r.code == p.code && r.message == p.message && r.environment == p.environment
            && r.started % 1_000_000 == 0 && -500_000 < r.started - p.started <= 500_000
            && r.finished % 1_000_000 == 0 && -500_000 < r.finished - p.finished <= 500_000
  {
    StoredIsNearest(p.started);
    StoredIsNearest(p.finished);
  }

  // ------------------------------------------------------------ a claim

  /** The run exists, its detail exists undeleted, and its group exists with this very device. */
  predicate Permitted(db: Tables, device: int, m: nat) {
    && m in db.manuals && db.manuals[m].detail in db.details
    && !db.details[db.manuals[m].detail].deleted
    && db.details[db.manuals[m].detail].schedule in db.groups
    && db.groups[db.details[db.manuals[m].detail].schedule].device == device
  }

  /** The run waits, or its lease is over. */
  predicate Free(row: ManualRow, now: int) {
    row.status == Wait || (row.status == Processing && row.expires.Some? && row.expires.value <= now)
  }

  /**
    A claim is granted exactly when the rows permit it and the run is free, and then for thirty minutes
    in the name of the token; it is not found exactly when the rows do not permit it. It changes
    the row of the run it grants and nothing else.
   */
  lemma ClaimAnswers(db: Tables, device: int, m: nat, token: string, now: int)
    ensures var (reply, after) := Claim(db, device, m, token, now);
            && (reply.Claimed? <==> Permitted(db, device, m) && Free(db.manuals[m], now))
            && (reply == ClaimFailed(NotFound) <==> !Permitted(db, device, m))
            && (reply == ClaimFailed(AlreadyClaimed) <==> Permitted(db, device, m) && !Free(db.manuals[m], now))
            && (reply.Claimed? ==>
                  && reply == Claimed(token, now + 1_800_000_000)
                  && after.manuals.Keys == db.manuals.Keys
                  && after.manuals[m] == ManualRow(db.manuals[m].detail, Processing, Some(reply.token), Some(reply.expires))
                  && (forall n :: n in db.manuals && n != m ==> after.manuals[n] == db.manuals[n])
                  && after == db.(manuals := after.manuals))
            && (reply.ClaimFailed? ==> after == db)
  {
  }

  // ------------------------------------------------------------ a result

  /** The detail exists, belongs to the schedule named, and that schedule targets the device. */
  predicate Theirs(db: Tables, device: int, e: Envelope) {
    && e.detail in db.details && db.details[e.detail].schedule == e.schedule
    && e.schedule in db.groups && db.groups[e.schedule].device == device
  }

  predicate HasRow(db: Tables, e: Envelope, i: nat) {
    i < |db.log| && db.log[i].key.group == e.group && db.log[i].key.detail == e.detail && db.log[i].key.attempt == e.attempt
  }

  /** Row `i` says what the envelope says, with its times cut to whole seconds. */
  predicate SaysTheSame(row: LogRow, e: Envelope) {
    && row.schedule == e.schedule && row.manual == e.manual
    && row.started == e.started - e.started % 1_000_000 && row.finished == e.finished - e.finished % 1_000_000
    && row.code == e.code && row.message == e.message && row.environment == e.environment
  }

  /** The key in the header is the envelope's, a claim token comes exactly with a manual run, and time does not go back. */
  predicate WellMade(header: Option<ResultKey>, e: Envelope) {
    && header == Some(ResultKey(e.group, e.detail, e.attempt))
    && (e.manual.Some? <==> e.token.Some?)
    && e.started <= e.finished
  }

  /** The manual run is of this detail and leased to this token, for longer than now. */
  predicate Leased(db: Tables, e: Envelope, now: int) {
    && e.manual.Some? && e.manual.value in db.manuals
    && var row := db.manuals[e.manual.value];
       && row.detail == e.detail && row.status == Processing
       && e.token.Some? && (if row.token.Some? then row.token.value else "") == e.token.value
       && row.expires.Some? && now < row.expires.value
  }

  lemma Lookup(db: Tables, e: Envelope, i: nat)
    requires LogOk(db.log) && HasRow(db, e, i)
    ensures Find(db.log, Stored(e).Key()) == Some(db.log[i])
  {
    FindUnique(db.log, i);
  }

  lemma NoRow(db: Tables, e: Envelope)
    requires forall i :: !HasRow(db, e, i)
    ensures Find(db.log, Stored(e).Key()).None?
  {
    FindIsExact(db.log, Stored(e).Key());
    forall i | 0 <= i < |db.log| ensures db.log[i].key != Stored(e).Key() {
      assert !HasRow(db, e, i);
    }
  }

  /** What is refused before the log is looked at. */
  lemma MalformedAnswers(db: Tables, device: int, header: Option<ResultKey>, e: Envelope, now: int)
    ensures !WellMade(header, e) ==> Submit(db, device, header, e, now) == (Refused(InvalidRequest), db)
    ensures WellMade(header, e) && !Theirs(db, device, e) ==> Submit(db, device, header, e, now) == (Refused(NotFound), db)
  {
  }

  /** A key that has its row: the same result is answered with the row's id, another one is refused. */
  lemma RepeatAnswers(db: Tables, device: int, header: Option<ResultKey>, e: Envelope, now: int, i: nat)
    requires LogOk(db.log) && WellMade(header, e) && Theirs(db, device, e) && HasRow(db, e, i)
    ensures SaysTheSame(db.log[i], e) ==>
              Submit(db, device, header, e, now)
              == (Recorded(db.log[i].id, true, []), db.(running := db.running - {(e.schedule, e.detail)}))
    ensures !SaysTheSame(db.log[i], e) ==> Submit(db, device, header, e, now) == (Refused(InvalidRequest), db)
  {
    Lookup(db, e, i);
  }

  /** A key without a row: a regular result is recorded, a manual one exactly under its live lease. */
  lemma FirstAnswers(db: Tables, device: int, header: Option<ResultKey>, e: Envelope, now: int)
    requires WellMade(header, e) && Theirs(db, device, e) && forall i :: !HasRow(db, e, i)
    ensures var (reply, after) := Submit(db, device, header, e, now);
            && (reply.Recorded? <==> e.manual.None? || Leased(db, e, now))
            && (reply.Recorded? ==> reply.id == |db.log| + 1 && !reply.duplicate)
            && (reply.Refused? ==>
                  after == db && reply.error == if e.manual.value in db.manuals && db.manuals[e.manual.value].detail == e.detail
                                                then ClaimExpired else NotFound)
  {
    NoRow(db, e);
  }

  lemma IsInserted(db: Tables, device: int, header: Option<ResultKey>, e: Envelope, now: int)
    requires WellMade(header, e) && Theirs(db, device, e) && (forall i :: !HasRow(db, e, i))
    requires e.manual.None? || Leased(db, e, now)
    ensures Submit(db, device, header, e, now) == Insert(db, Stored(e))
  {
    NoRow(db, e);
  }

  /** A newly recorded result is the last row of the log, and the rows before it stay. */
  lemma RecordedRow(db: Tables, device: int, header: Option<ResultKey>, e: Envelope, now: int)
    requires WellMade(header, e) && Theirs(db, device, e) && (forall i :: !HasRow(db, e, i))
    requires e.manual.None? || Leased(db, e, now)
    ensures var after := Submit(db, device, header, e, now).1;
            && |after.log| == |db.log| + 1 && after.log[..|db.log|] == db.log
            && HasRow(after, e, |db.log|) && after.log[|db.log|].id == |db.log| + 1 && SaysTheSame(after.log[|db.log|], e)
  {
    IsInserted(db, device, header, e, now);
    InsertAppends(db, Stored(e));
    StoredSaysTheSame(db, e);
  }

  lemma InsertAppends(db: Tables, p: Envelope)
    requires p.detail in db.details && p.schedule in db.groups && (p.manual.Some? ==> p.manual.value in db.manuals)
    ensures Insert(db, p).1.log == db.log + [NewRow(db, p)]
  {
  }

  lemma StoredSaysTheSame(db: Tables, e: Envelope)
    ensures var row := NewRow(db, Stored(e)); SaysTheSame(row, e) && row.key == e.Key() && row.id == |db.log| + 1
  {
    StoreTimeIsExactForWholeSeconds(e.started);
    StoreTimeIsExactForWholeSeconds(e.finished);
  }

  /** The other rows that it changes, and what it reports of them. */
  lemma RecordedChanges(db: Tables, device: int, header: Option<ResultKey>, e: Envelope, now: int)
    requires WellMade(header, e) && Theirs(db, device, e) && (forall i :: !HasRow(db, e, i))
    requires e.manual.None? || Leased(db, e, now)
    ensures var (reply, after) := Submit(db, device, header, e, now);
            var stops, excludes := StopsGroup(db, e), ExcludesDetail(db, e);
            && reply.Recorded?
            && after.running == db.running - {(e.schedule, e.detail)}
            && after.groups == (if stops then db.groups[e.schedule := db.groups[e.schedule].(error := true)] else db.groups)
            && after.details == (if excludes then db.details[e.detail := db.details[e.detail].(error := true)] else db.details)
            && after.manuals == (if e.manual.Some? then db.manuals[e.manual.value := Finished(db, e)] else db.manuals)
            && reply.transitions == (if stops then [GroupError(e.schedule)] else if excludes then [DetailError(e.detail)]
                                     else if e.manual.None? then []
                                     else if e.code == 0 then [ManualDone(e.manual.value)] else [ManualFailed(e.manual.value)])
  {
    IsInserted(db, device, header, e, now);
  }

  /** A regular failure of a schedule that stops on errors. */
  predicate StopsGroup(db: Tables, e: Envelope)
    requires e.schedule in db.groups
  {
    e.manual.None? && e.code != 0 && db.groups[e.schedule].errorStop
  }

  /** A regular failure of a detail that is left out on errors, in a schedule that does not stop. */
  predicate ExcludesDetail(db: Tables, e: Envelope)
    requires e.schedule in db.groups && e.detail in db.details
  {
    e.manual.None? && e.code != 0 && !db.groups[e.schedule].errorStop && db.details[e.detail].errorStop
  }

  function Finished(db: Tables, e: Envelope): ManualRow
    requires e.manual.Some? && e.manual.value in db.manuals
  {
    ManualRow(db.manuals[e.manual.value].detail, if e.code == 0 then Done else Failed, None, None)
  }

  // ------------------------------------------------------------ markers and sweeps

  /** A start sets the marker of an undeleted detail of the device's schedule, and nothing else. */
  lemma StartAnswers(db: Tables, device: int, e: Envelope)
    ensures Begin(db, device, e) ==
              if Theirs(db, device, e) && !db.details[e.detail].deleted then
                db.(running := db.running[(e.schedule, e.detail) := Marker(e.group, e.attempt, e.started)])
              else db
  {
  }

  /** A sweep returns to waiting those of the named runs whose lease is over, without token and expiry, and no other. */
  lemma SweepAnswers(db: Tables, ids: set<nat>, now: int)
    ensures var after := Do(db, SweepRows(ids, now));
            && after == db.(manuals := after.manuals) && after.manuals.Keys == db.manuals.Keys
            && (forall m :: m in db.manuals ==>
                  after.manuals[m] ==
                    if m in ids && db.manuals[m].status == Processing && db.manuals[m].expires.Some? && db.manuals[m].expires.value <= now
                    then ManualRow(db.manuals[m].detail, Wait, None, None) else db.manuals[m])
    ensures forall m :: m in ExpiredRows(db.manuals, now) <==>
              m in db.manuals && db.manuals[m].status == Processing && db.manuals[m].expires.Some? && db.manuals[m].expires.value <= now
  {
  }
}
