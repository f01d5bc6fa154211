/** The execution tables as the repository updates them, one transaction a method. */
module ExecutionRepository {
  import opened Protocol
  import opened ExecutionTables

  /** The order in which a sweep takes expired rows. */
  predicate Before(rows: map<nat, ManualRow>, a: nat, b: nat)
    requires a in rows && rows[a].expires.Some? && b in rows && rows[b].expires.Some?
  {
    rows[a].expires.value < rows[b].expires.value || (rows[a].expires.value == rows[b].expires.value && a <= b)
  }

  class AgentExecutionRepository {
    var groups: map<int, GroupRow>
    var details: map<Uuid, DetailRow>
    var manuals: map<nat, ManualRow>
    var log: seq<LogRow>
    var running: map<(int, Uuid), Marker>
    var clock: int

    ghost function Abs(): Tables
      reads this
    {
      Tables(groups, details, manuals, log, running)
    }

    constructor (groups: map<int, GroupRow>, details: map<Uuid, DetailRow>, manuals: map<nat, ManualRow>)
      ensures Abs() == Tables(groups, details, manuals, [], map[])
    {
      this.groups, this.details, this.manuals := groups, details, manuals;
      log, running, clock := [], map[], 0;
    }

    /** The database clock never goes back. */
    method ReadClock() returns (now: int)
      modifies this`clock
      ensures old(clock) <= now == clock
    {
      var step :| 0 <= step;
      clock := clock + step;
      now := clock;
    }

    method ClaimManualRun(device: int, manual: nat, token: string) returns (reply: ClaimReply)
      modifies this
      ensures old(clock) <= clock
      ensures (reply, Abs()) == Claim(old(Abs()), device, manual, token, clock)
      ensures reply.Claimed? <==>
                && manual in old(manuals)
                && var row := old(manuals)[manual];
                   && row.detail in details && !details[row.detail].deleted
                   && details[row.detail].schedule in groups && groups[details[row.detail].schedule].device == device
                   && (row.status == Wait || (row.status == Processing && row.expires.Some? && row.expires.value <= clock))
      ensures reply.Claimed? ==>
                reply == Claimed(token, clock + 1_800_000_000) &&
                manuals == old(manuals)[manual := ManualRow(old(manuals)[manual].detail, Processing, Some(token), Some(reply.expires))]
    {
      if manual !in manuals || manuals[manual].detail !in details {
        return ClaimFailed(NotFound);
      }
      var detail := details[manuals[manual].detail];
      if detail.deleted || detail.schedule !in groups || groups[detail.schedule].device != device {
        return ClaimFailed(NotFound);
      }
      var now := ReadClock();
      var row := manuals[manual];
      if row.status == Processing && row.expires.Some? && row.expires.value <= now {
        row := row.(status := Wait, token := None, expires := None);
      }
      if row.status != Wait {
        return ClaimFailed(AlreadyClaimed);
      }
      var expires := now + CLAIM_TTL;
      manuals := manuals[manual := row.(status := Processing, token := Some(token), expires := Some(expires))];
      reply := Claimed(token, expires);
    }

    method FindResult(key: ResultKey) returns (row: Option<LogRow>)
      ensures row == Find(log, key)
    {
      var n := |log|;
      assert log[..n] == log;
      while 0 < n
        invariant 0 <= n <= |log| && Find(log, key) == Find(log[..n], key)
      {
        if log[n - 1].key == key {
          return Some(log[n - 1]);
        }
        assert log[..n][..n - 1] == log[..n - 1];
        n := n - 1;
      }
      row := None;
    }

    method AcceptResult(device: int, payload: Envelope) returns (reply: ResultReply)
      modifies this
      ensures old(clock) <= clock
      ensures (reply, Abs()) == Accept(old(Abs()), device, payload, clock)
    {
      if !(payload.detail in details && details[payload.detail].schedule == payload.schedule
           && payload.schedule in groups && groups[payload.schedule].device == device) {
        return ResultReply.Refused(NotFound);
      }
      var now := ReadClock();
      var existing := FindResult(payload.Key());
      if existing.Some? {
        if !SameResult(existing.value, payload) {
          return ResultReply.Refused(InvalidRequest);
        }
        running := running - {(payload.schedule, payload.detail)};
        return Recorded(existing.value.id, true, []);
      }
      var error := ManualError(Tables(groups, details, manuals, log, running), payload, now);
      if error.Some? {
        return ResultReply.Refused(error.value);
      }
      reply := InsertResult(payload);
    }

    method InsertResult(payload: Envelope) returns (reply: ResultReply)
      requires payload.detail in details && payload.schedule in groups
      requires payload.manual.Some? ==> payload.manual.value in manuals
      modifies this`log, this`running, this`manuals, this`groups, this`details
      ensures (reply, Abs()) == Insert(old(Abs()), payload)
    {
      var id := |log| + 1;
      log := log + [LogRow(id, payload.Key(), payload.schedule, payload.manual, StoreTime(payload.started),
                           StoreTime(payload.finished), payload.code, payload.message, payload.environment)];
      running := running - {(payload.schedule, payload.detail)};
      var transitions := [];
      if payload.manual.Some? {
        var m := payload.manual.value;
        var next := if payload.code == 0 then Done else Failed;
        manuals := manuals[m := manuals[m].(status := next, token := None, expires := None)];
        transitions := [if payload.code == 0 then ManualDone(m) else ManualFailed(m)];
      } else if payload.code != 0 && groups[payload.schedule].errorStop {
        groups := groups[payload.schedule := groups[payload.schedule].(error := true)];
        transitions := [GroupError(payload.schedule)];
      } else if payload.code != 0 && details[payload.detail].errorStop {
        details := details[payload.detail := details[payload.detail].(error := true)];
        transitions := [DetailError(payload.detail)];
      }
      reply := Recorded(id, false, transitions);
    }

    /** The earliest expired row of a nonempty pool. */
    method Earliest(pool: set<nat>, now: int) returns (first: nat)
      requires pool != {} && pool <= ExpiredRows(manuals, now)
      ensures first in pool && forall m :: m in pool ==> Before(manuals, first, m)
    {
      first :| first in pool;
      var rest := pool - {first};
      while rest != {}
        invariant rest <= pool && first in pool
        invariant forall m :: m in pool - rest ==> Before(manuals, first, m)
        decreases rest
      {
        var m :| m in rest;
        if !Before(manuals, first, m) {
          forall x | x in pool - rest ensures Before(manuals, m, x) {
            assert Before(manuals, first, x);
          }
          first := m;
        }
        rest := rest - {m};
      }
    }

    /** The first `limit` expired rows by expiry and id, or all of them if there are fewer. */
    method SelectExpired(now: int, limit: nat) returns (ids: set<nat>)
      ensures ids <= ExpiredRows(manuals, now)
      ensures |ids| <= limit && (|ids| < limit ==> ids == ExpiredRows(manuals, now))
      ensures forall a, b :: a in ids && b in ExpiredRows(manuals, now) - ids ==> Before(manuals, a, b)
    {
      ids := {};
      var pool := set m | m in manuals && LeaseExpired(manuals[m], now);
      while |ids| < limit && pool != {}
        invariant |ids| <= limit && ids + pool == ExpiredRows(manuals, now) && ids * pool == {}
        invariant forall a, b :: a in ids && b in pool ==> Before(manuals, a, b)
        decreases pool
      {
        var first := Earliest(pool, now);
        ids := ids + {first};
        pool := pool - {first};
      }
    }

    /**
      Sweeps in batches until one comes back short. It ends, it resets exactly the claims that
      are expired at the last clock reading, and it returns how many those are.
     */
    method SweepExpiredClaims(batchSize: nat) returns (total: nat)
      requires 1 <= batchSize
      modifies this`manuals, this`clock
      ensures old(clock) <= clock
      ensures manuals == ResetRows(old(manuals), ExpiredRows(old(manuals), clock), clock)
      ensures total == |ExpiredRows(old(manuals), clock)|
      ensures ExpiredRows(manuals, clock) == {}
    {
      total := 0;
      ghost var swept: set<nat> := {};
      ghost var start := manuals;
      var short := false;
      while !short
        invariant old(clock) <= clock && swept <= ExpiredRows(start, clock) && total == |swept|
        invariant manuals == ResetRows(start, swept, clock)
        invariant short ==> ExpiredRows(manuals, clock) == {}
        decreases !short, Claims(manuals)
      {
        ghost var was := clock;
        var now := ReadClock();
        var ids := SelectExpired(now, batchSize);
        manuals := map m | m in manuals :: if m in ids && LeaseExpired(manuals[m], now) then Reset(manuals[m]) else manuals[m];
        total := total + |ids|;
        short := |ids| < batchSize;
        SweepProgress(start, swept, ids, was, now);
        swept := swept + ids;
      }
      ExpiredAfterReset(start, swept, clock);
    }
  }

  /** A row that is left for a later batch expires later than each that was taken, or at the same time with a larger id. */
  lemma LeftExpireLater(rows: map<nat, ManualRow>, taken: nat, left: nat)
    requires taken in rows && rows[taken].expires.Some? && left in rows && rows[left].expires.Some?
    requires taken != left && Before(rows, taken, left)
    ensures var t, l := rows[taken].expires.value, rows[left].expires.value; t < l || (t == l && taken < left)
    ensures !Before(rows, left, taken)
  {
  }

  ghost function Claims(rows: map<nat, ManualRow>): set<nat> {
    set m | m in rows && rows[m].status == Processing
  }

  lemma ExpiredLater(rows: map<nat, ManualRow>, ids: set<nat>, was: int, now: int)
    requires was <= now && ids <= ExpiredRows(rows, was)
    ensures ids <= ExpiredRows(rows, now)
    ensures ResetRows(rows, ids, was) == ResetRows(rows, ids, now)
  {
    forall m | m in ids ensures m in ExpiredRows(rows, now) {
      assert m in ExpiredRows(rows, was);
    }
  }

  /** What remains expired after some expired rows were reset is what was not among them. */
  lemma ExpiredAfterReset(rows: map<nat, ManualRow>, ids: set<nat>, now: int)
    requires ids <= ExpiredRows(rows, now)
    ensures ExpiredRows(ResetRows(rows, ids, now), now) == ExpiredRows(rows, now) - ids
    ensures Claims(ResetRows(rows, ids, now)) == Claims(rows) - ids && ids <= Claims(rows)
  {
    var after := ResetRows(rows, ids, now);
    forall m | m in rows
      ensures m in ExpiredRows(after, now) <==> m in ExpiredRows(rows, now) - ids
      ensures m in Claims(after) <==> m in Claims(rows) - ids
    {
      assert m in ids ==> m in ExpiredRows(rows, now);
      assert after[m] == if m in ids then Reset(rows[m]) else rows[m];
    }
    forall m | m in ids ensures m in Claims(rows) {
      assert m in ExpiredRows(rows, now);
    }
  }

  /** One batch: rows already swept stay out of it, and it takes away from the claims that remain. */
  lemma SweepProgress(start: map<nat, ManualRow>, swept: set<nat>, ids: set<nat>, was: int, now: int)
    requires was <= now && swept <= ExpiredRows(start, was)
    requires ids <= ExpiredRows(ResetRows(start, swept, was), now)
    ensures var before := ResetRows(start, swept, was);
            && swept + ids <= ExpiredRows(start, now)
            && |swept + ids| == |swept| + |ids|
            && ResetRows(before, ids, now) == ResetRows(start, swept + ids, now)
            && Claims(ResetRows(before, ids, now)) == Claims(before) - ids && ids <= Claims(before)
            && ExpiredRows(ResetRows(before, ids, now), now) == ExpiredRows(before, now) - ids
  {
    ExpiredLater(start, swept, was, now);
    ExpiredAfterReset(start, swept, now);
    ExpiredAfterReset(ResetRows(start, swept, now), ids, now);
    assert swept !! ids;
    var once := ResetRows(start, swept + ids, now);
    var twice := ResetRows(ResetRows(start, swept, now), ids, now);
    forall m | m in start ensures once[m] == twice[m] {
    }
  }
}
