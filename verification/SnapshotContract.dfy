/** The two ends of the snapshot: ranks as the server makes them, checks and grouping as the agent does. */
module SnapshotContract {
  import opened Protocol
  import opened Snapshots
  import opened Sorting
  import opened Normalize
  import C = Reconcile
  import E = Executor
  import T = ExecutionTables
  import X = ExecutorRuns

  // ------------------------------------------------------------ ranks are dense

  /** Equal ranks for equal sequences, greater for greater. */
  lemma RanksFollowSequences(details: seq<DetailRow>, id: nat, p: int, q: int)
    requires p in SequencesOf(details, id) && q in SequencesOf(details, id)
    ensures Rank(details, id, p) < Rank(details, id, q) <==> p < q
    ensures Rank(details, id, p) == Rank(details, id, q) <==> p == q
  {
    var s := SequencesOf(details, id);
    if p < q {
      LessBelow(s, p, q);
    } else if q < p {
      LessBelow(s, q, p);
    }
  }

  lemma LessBelow(s: set<int>, p: int, q: int)
    requires p in s && p < q
    ensures |Below(s, p)| < |Below(s, q)|
  {
    Fewer(Below(s, p), Below(s, q), p);
  }

  lemma {:induction false} Fewer<X>(a: set<X>, b: set<X>, x: X)
    requires a <= b && x in b && x !in a
    ensures |a| < |b|
  {
    Smaller(a, b - {x});
  }

  lemma {:induction false} Smaller<X>(a: set<X>, b: set<X>)
    requires a <= b
    ensures |a| <= |b|
    ensures |a| == |b| ==> a == b
  {
    assert b == a + (b - a);
    assert |b| == |a| + |b - a|;
  }

  /** A schedule with n sequences has the ranks 1 to n, every one of them. */
  lemma RanksHaveNoGaps(details: seq<DetailRow>, id: nat)
    ensures var s := SequencesOf(details, id);
            (set q | q in s :: Rank(details, id, q)) == FirstNumbers(|s|)
  {
    var s := SequencesOf(details, id);
    forall q | q in s
      ensures Rank(details, id, q) in FirstNumbers(|s|)
    {
      Fewer(Below(s, q), s, q);
    }
    RanksAreAsMany(details, id, s);
    Smaller(set q | q in s :: Rank(details, id, q), FirstNumbers(|s|));
  }

  lemma {:induction false} RanksAreAsMany(details: seq<DetailRow>, id: nat, some: set<int>)
    requires some <= SequencesOf(details, id)
    ensures |set q | q in some :: Rank(details, id, q)| == |some|
    decreases |some|
  {
    if some != {} {
      var p := Any(some);
      var rest := some - {p};
      RanksAreAsMany(details, id, rest);
      forall q | q in rest
        ensures Rank(details, id, q) != Rank(details, id, p)
      {
        RanksFollowSequences(details, id, q, p);
      }
      assert (set q | q in some :: Rank(details, id, q)) == (set q | q in rest :: Rank(details, id, q)) + {Rank(details, id, p)};
    }
  }

  lemma Any<X>(s: set<X>) returns (x: X)
    requires s != {}
    ensures x in s
  {
    x :| x in s;
  }

  function FirstNumbers(n: nat): (s: set<nat>)
    ensures forall k :: k in s <==> 1 <= k <= n
    ensures |s| == n
  {
    if n == 0 then {} else FirstNumbers(n - 1) + {n}
  }

  // ------------------------------------------------------------ the agent's checks

  function IdsOf(details: seq<Detail>): seq<Uuid> {
    if details == [] then [] else IdsOf(details[..|details| - 1]) + [details[|details| - 1].id]
  }

  function DetailIds(schedules: seq<Schedule>): seq<Uuid> {
    if schedules == [] then []
    else DetailIds(schedules[..|schedules| - 1]) + IdsOf(schedules[|schedules| - 1].details)
  }

  function ScheduleIdsOf(schedules: seq<Schedule>): seq<nat> {
    if schedules == [] then []
    else ScheduleIdsOf(schedules[..|schedules| - 1]) + [schedules[|schedules| - 1].id]
  }

  function ManualIds(manuals: seq<ManualRun>): seq<nat> {
    if manuals == [] then []
    else ManualIds(manuals[..|manuals| - 1]) + [manuals[|manuals| - 1].id]
  }

  predicate KeyLe(a: Detail, b: Detail) {
    a.sequence < b.sequence || (a.sequence == b.sequence && a.id <= b.id)
  }

  /** Along source sequence and id the execution sequence never falls. */
  ghost predicate RanksRise(details: seq<Detail>) {
    forall a, b :: a in details && b in details && KeyLe(a, b) ==> a.execSequence <= b.execSequence
  }

  ghost predicate DetailOk(d: Detail) {
    0 <= d.sequence && 1 <= d.execSequence
  }

  ghost predicate ScheduleOk(s: Schedule) {
    1 <= s.id && (forall d :: d in s.details ==> DetailOk(d)) && RanksRise(s.details)
  }

  ghost predicate HasDetail(schedules: seq<Schedule>, schedule: nat, detail: Uuid) {
    exists s :: s in schedules && s.id == schedule && detail in IdsOf(s.details)
  }

  ghost predicate ManualOk(schedules: seq<Schedule>, m: ManualRun) {
    1 <= m.id && 1 <= m.schedule && HasDetail(schedules, m.schedule, m.detail)
  }

  ghost predicate SchedulesOk(schedules: seq<Schedule>) {
    && (forall s :: s in schedules ==> ScheduleOk(s))
    && Distinct(ScheduleIdsOf(schedules))
    && Distinct(DetailIds(schedules))
  }

  /** What the agent demands of a snapshot's structure. */
  ghost predicate WellFormed(schedules: seq<Schedule>, manuals: seq<ManualRun>) {
    && SchedulesOk(schedules)
    && (forall m :: m in manuals ==> ManualOk(schedules, m))
    && Distinct(ManualIds(manuals))
  }

  lemma {:induction false} IdsAt(details: seq<Detail>)
    ensures |IdsOf(details)| == |details|
    ensures forall i :: 0 <= i < |details| ==> IdsOf(details)[i] == details[i].id
  {
    if details != [] {
      IdsAt(details[..|details| - 1]);
    }
  }

  lemma {:induction false} ScheduleIdsAt(schedules: seq<Schedule>)
    ensures |ScheduleIdsOf(schedules)| == |schedules|
    ensures forall i :: 0 <= i < |schedules| ==> ScheduleIdsOf(schedules)[i] == schedules[i].id
  {
    if schedules != [] {
      ScheduleIdsAt(schedules[..|schedules| - 1]);
    }
  }

  lemma {:induction false} ManualIdsAt(manuals: seq<ManualRun>)
    ensures |ManualIds(manuals)| == |manuals|
    ensures forall i :: 0 <= i < |manuals| ==> ManualIds(manuals)[i] == manuals[i].id
  {
    if manuals != [] {
      ManualIdsAt(manuals[..|manuals| - 1]);
    }
  }

  lemma {:induction false} DetailIdsSplit(a: seq<Schedule>, b: seq<Schedule>)
    ensures DetailIds(a + b) == DetailIds(a) + DetailIds(b)
  {
    if b == [] {
      assert a + b == a;
    } else {
      DetailIdsSplit(a, b[..|b| - 1]);
      assert (a + b)[..|a + b| - 1] == a + b[..|b| - 1];
    }
  }

  lemma PrefixDistinct<X>(a: seq<X>, b: seq<X>)
    requires Distinct(a + b)
    ensures Distinct(a) && Distinct(b)
  {
    forall i, j | 0 <= i < j < |a| ensures a[i] != a[j] { assert (a + b)[i] != (a + b)[j]; }
    forall i, j | 0 <= i < j < |b| ensures b[i] != b[j] { assert (a + b)[|a| + i] != (a + b)[|a| + j]; }
  }

  /** Looks at neighbours only, in sorted order. */
  method CheckRanks(details: seq<Detail>) returns (ok: bool)
    requires Distinct(IdsOf(details))
    ensures ok <==> RanksRise(details)
  {
    var ordered := Sort(KeyLe, details);
    SortedByKey(details);
    var i := 1;
    while i < |ordered|
      invariant 1 <= i
      invariant forall j, k :: 0 <= j <= k < i && k < |ordered| ==> ordered[j].execSequence <= ordered[k].execSequence
    {
      if ordered[i - 1].execSequence > ordered[i].execSequence {
        assert KeyLe(ordered[i - 1], ordered[i]) && ordered[i - 1] in ordered && ordered[i] in ordered;
        return false;
      }
      i := i + 1;
    }
    forall a, b | a in details && b in details && KeyLe(a, b)
      ensures a.execSequence <= b.execSequence
    {
      assert a in ordered && b in ordered;
      var j :| 0 <= j < |ordered| && ordered[j] == a;
      var k :| 0 <= k < |ordered| && ordered[k] == b;
      if k < j {
        assert KeyLe(ordered[k], ordered[j]);
        SameIdSameDetail(details, a, b);
      }
    }
    ok := true;
  }

  lemma SortedByKey(details: seq<Detail>)
    ensures forall i, j :: 0 <= i < j < |Sort(KeyLe, details)| ==> KeyLe(Sort(KeyLe, details)[i], Sort(KeyLe, details)[j])
    ensures forall d :: d in details <==> d in Sort(KeyLe, details)
  {
    assert TotalPreorder(KeyLe);
    SortSorts(KeyLe, details);
    SameElements(details, Sort(KeyLe, details));
  }

  lemma SameIdSameDetail(details: seq<Detail>, a: Detail, b: Detail)
    requires Distinct(IdsOf(details)) && a in details && b in details && a.id == b.id
    ensures a == b
  {
    IdsAt(details);
    var i :| 0 <= i < |details| && details[i] == a;
    var j :| 0 <= j < |details| && details[j] == b;
    assert IdsOf(details)[i] == IdsOf(details)[j];
  }

  /** One schedule against the detail ids of those before it; `ids` grows by its own. */
  method CheckSchedule(s: Schedule, seen: seq<Uuid>, seenSet: set<Uuid>) returns (ok: bool, ids: set<Uuid>)
    requires Distinct(seen) && (forall d :: d in seenSet <==> d in seen)
    ensures ok <==> ScheduleOk(s) && Distinct(seen + IdsOf(s.details))
    ensures ok ==> forall d :: d in ids <==> d in seen + IdsOf(s.details)
  {
    ids := seenSet;
    if s.id < 1 {
      return false, ids;
    }
    assert s.details[..0] == [] && seen + [] == seen;
    for i := 0 to |s.details|
      invariant Distinct(seen + IdsOf(s.details[..i]))
      invariant forall d :: d in ids <==> d in seen + IdsOf(s.details[..i])
      invariant forall j :: 0 <= j < i ==> DetailOk(s.details[j])
    {
      var d := s.details[i];
      assert s.details[..i + 1][..i] == s.details[..i];
      assert IdsOf(s.details[..i + 1]) == IdsOf(s.details[..i]) + [d.id];
      var before := seen + IdsOf(s.details[..i]);
      assert seen + IdsOf(s.details[..i + 1]) == before + [d.id];
      if d.sequence < 0 || d.execSequence < 1 {
        assert !DetailOk(d);
        return false, ids;
      }
      if d.id in ids {
        RepeatedId(s, seen, i);
        return false, ids;
      }
      ids := ids + {d.id};
    }
    assert s.details[..|s.details|] == s.details;
    PrefixDistinct(seen, IdsOf(s.details));
    ok := CheckRanks(s.details);
  }

  lemma RepeatedId(s: Schedule, seen: seq<Uuid>, i: nat)
    requires i < |s.details| && s.details[i].id in seen + IdsOf(s.details[..i])
    ensures !Distinct(seen + IdsOf(s.details))
  {
    IdsAt(s.details);
    IdsAt(s.details[..i]);
    var all, before := seen + IdsOf(s.details), seen + IdsOf(s.details[..i]);
    var j :| 0 <= j < |before| && before[j] == s.details[i].id;
    assert all[j] == before[j] && all[|seen| + i] == s.details[i].id;
  }

  lemma DetailIdsNext(schedules: seq<Schedule>, i: nat)
    requires i < |schedules|
    ensures DetailIds(schedules[..i + 1]) == DetailIds(schedules[..i]) + IdsOf(schedules[i].details)
  {
    assert schedules[..i + 1][..i] == schedules[..i];
  }

  lemma StartDistinct(schedules: seq<Schedule>, i: nat)
    requires i <= |schedules| && Distinct(DetailIds(schedules))
    ensures Distinct(DetailIds(schedules[..i]))
  {
    assert schedules[..i] + schedules[i..] == schedules;
    DetailIdsSplit(schedules[..i], schedules[i..]);
    PrefixDistinct(DetailIds(schedules[..i]), DetailIds(schedules[i..]));
  }

  /** The first `i` schedules passed, and the two sets hold their ids. */
  ghost predicate Checked(schedules: seq<Schedule>, i: nat, scheduleIds: set<nat>, detailIds: set<Uuid>)
    requires i <= |schedules|
  {
    && (forall j :: 0 <= j < i ==> ScheduleOk(schedules[j]) && schedules[j].id in scheduleIds)
    && (forall id :: id in scheduleIds ==> exists j :: 0 <= j < i && schedules[j].id == id)
    && (forall j, k :: 0 <= j < k < i ==> schedules[j].id != schedules[k].id)
    && Distinct(DetailIds(schedules[..i]))
    && (forall d :: d in detailIds <==> d in DetailIds(schedules[..i]))
  }

  lemma CheckedNext(schedules: seq<Schedule>, i: nat, scheduleIds: set<nat>, detailIds: set<Uuid>, ids: set<Uuid>)
    requires i < |schedules| && Checked(schedules, i, scheduleIds, detailIds)
    requires ScheduleOk(schedules[i]) && schedules[i].id !in scheduleIds
    requires Distinct(DetailIds(schedules[..i]) + IdsOf(schedules[i].details))
    requires forall d :: d in ids <==> d in DetailIds(schedules[..i]) + IdsOf(schedules[i].details)
    ensures Checked(schedules, i + 1, scheduleIds + {schedules[i].id}, ids)
  {
    DetailIdsNext(schedules, i);
    forall id | id in scheduleIds + {schedules[i].id}
      ensures exists j :: 0 <= j < i + 1 && schedules[j].id == id
    {
      if id == schedules[i].id {
        assert schedules[i].id == id;
      } else {
        var j :| 0 <= j < i && schedules[j].id == id;
        assert j < i + 1;
      }
    }
  }

  lemma CheckedAll(schedules: seq<Schedule>, scheduleIds: set<nat>, detailIds: set<Uuid>)
    requires Checked(schedules, |schedules|, scheduleIds, detailIds)
    ensures SchedulesOk(schedules)
  {
    ScheduleIdsAt(schedules);
    assert schedules[..|schedules|] == schedules;
  }

  lemma RepeatedSchedule(schedules: seq<Schedule>, i: nat, scheduleIds: set<nat>, detailIds: set<Uuid>)
    requires i < |schedules| && Checked(schedules, i, scheduleIds, detailIds) && schedules[i].id in scheduleIds
    ensures !Distinct(ScheduleIdsOf(schedules))
  {
    var j :| 0 <= j < i && schedules[j].id == schedules[i].id;
    ScheduleIdsAt(schedules);
    assert ScheduleIdsOf(schedules)[j] == ScheduleIdsOf(schedules)[i];
  }

  lemma FaultyDetails(schedules: seq<Schedule>, i: nat)
    requires i < |schedules| && !Distinct(DetailIds(schedules[..i]) + IdsOf(schedules[i].details))
    ensures !Distinct(DetailIds(schedules))
  {
    DetailIdsNext(schedules, i);
    if Distinct(DetailIds(schedules)) {
      StartDistinct(schedules, i + 1);
    }
  }

  method CheckSchedules(schedules: seq<Schedule>) returns (ok: bool)
    ensures ok <==> SchedulesOk(schedules)
  {
    var scheduleIds: set<nat>, detailIds: set<Uuid> := {}, {};
    for i := 0 to |schedules|
      invariant Checked(schedules, i, scheduleIds, detailIds)
    {
      if schedules[i].id in scheduleIds {
        RepeatedSchedule(schedules, i, scheduleIds, detailIds);
        return false;
      }
      var ids: set<Uuid>;
      ok, ids := CheckSchedule(schedules[i], DetailIds(schedules[..i]), detailIds);
      if !ok {
        if ScheduleOk(schedules[i]) {
          FaultyDetails(schedules, i);
        }
        return;
      }
      CheckedNext(schedules, i, scheduleIds, detailIds, ids);
      scheduleIds, detailIds := scheduleIds + {schedules[i].id}, ids;
    }
    CheckedAll(schedules, scheduleIds, detailIds);
    ok := true;
  }

  method CheckManuals(schedules: seq<Schedule>, manuals: seq<ManualRun>) returns (ok: bool)
    ensures ok <==> (forall m :: m in manuals ==> ManualOk(schedules, m)) && Distinct(ManualIds(manuals))
  {
    var ids: set<nat> := {};
    ManualIdsAt(manuals);
    for i := 0 to |manuals|
      invariant forall j :: 0 <= j < i ==> ManualOk(schedules, manuals[j]) && manuals[j].id in ids
      invariant forall id :: id in ids ==> exists j :: 0 <= j < i && manuals[j].id == id
      invariant forall j, k :: 0 <= j < k < i ==> manuals[j].id != manuals[k].id
    {
      var m := manuals[i];
      if m.id in ids {
        ghost var j :| 0 <= j < i && manuals[j].id == m.id;
        assert ManualIds(manuals)[j] == ManualIds(manuals)[i];
        return false;
      }
      ids := ids + {m.id};
      var found := exists s :: s in schedules && s.id == m.schedule && m.detail in IdsOf(s.details);
      if m.id < 1 || m.schedule < 1 || !found {
        assert !ManualOk(schedules, m);
        return false;
      }
    }
    ok := true;
  }

  /** Schedules first, then the manual runs against them. */
  method ValidateStructure(schedules: seq<Schedule>, manuals: seq<ManualRun>) returns (ok: bool)
    ensures ok <==> WellFormed(schedules, manuals)
  {
    ok := CheckSchedules(schedules);
    if ok {
      ok := CheckManuals(schedules, manuals);
    }
  }

  // ------------------------------------------------------------ what the server sends is accepted

  lemma {:induction false} SchedulesOfAt(groups: seq<GroupRow>, details: seq<DetailRow>)
    ensures |Normalize.SchedulesOf(groups, details)| == |groups|
    ensures forall i :: 0 <= i < |groups| ==>
              Normalize.SchedulesOf(groups, details)[i]
                == Schedule(groups[i].schedule, groups[i].payload, DetailsOf(details, details, groups[i].schedule))
  {
    if groups != [] {
      SchedulesOfAt(groups[..|groups| - 1], details);
    }
  }

  lemma IdsOfAppend(details: seq<Detail>, d: Detail)
    ensures IdsOf(details + [d]) == IdsOf(details) + [d.id]
  {
    assert (details + [d])[..|details|] == details;
  }

  /** A schedule's details are its rows, each with its rank, once each. */
  lemma {:induction false} DetailsOfAt(all: seq<DetailRow>, rows: seq<DetailRow>, id: nat)
    ensures forall d :: d in DetailsOf(all, rows, id) <==> exists r :: r in rows && r.schedule == id && DetailOf(all, r) == d
    ensures forall x :: x in IdsOf(DetailsOf(all, rows, id)) <==> exists r :: r in rows && r.schedule == id && r.detail == x
  {
    if rows != [] {
      var init, last := rows[..|rows| - 1], rows[|rows| - 1];
      DetailsOfAt(all, init, id);
      assert rows == init + [last];
      if last.schedule == id {
        assert DetailsOf(all, rows, id) == DetailsOf(all, init, id) + [DetailOf(all, last)];
        IdsOfAppend(DetailsOf(all, init, id), DetailOf(all, last));
      } else {
        assert DetailsOf(all, rows, id) == DetailsOf(all, init, id);
      }
    }
  }

  lemma {:induction false} DetailsOfDistinct(all: seq<DetailRow>, rows: seq<DetailRow>, id: nat)
    requires Distinct(rows) && (forall a, b :: a in rows && b in rows && a.detail == b.detail ==> a == b)
    ensures Distinct(IdsOf(DetailsOf(all, rows, id)))
  {
    if rows != [] {
      var init, last := rows[..|rows| - 1], rows[|rows| - 1];
      assert rows == init + [last] && last !in init;
      DetailsOfDistinct(all, init, id);
      DetailsOfAt(all, init, id);
      assert last.detail !in IdsOf(DetailsOf(all, init, id)) by {
        forall r | r in init ensures r.detail != last.detail {}
      }
      if last.schedule == id {
        assert DetailsOf(all, rows, id) == DetailsOf(all, init, id) + [DetailOf(all, last)];
        IdsOfAppend(DetailsOf(all, init, id), DetailOf(all, last));
      } else {
        assert DetailsOf(all, rows, id) == DetailsOf(all, init, id);
      }
    }
  }

  /** Every manual run is of an active detail of an active schedule. */
  ghost predicate Referenced(rows: Rows) {
    forall m :: m in rows.manuals ==>
      m.schedule in ScheduleIds(rows.groups) && exists r :: r in rows.details && r.schedule == m.schedule && r.detail == m.detail
  }

  /** The numbers the agent insists on: positive ids and no negative sequence. */
  ghost predicate Numbered(rows: Rows) {
    && (forall g :: g in rows.groups ==> 1 <= g.schedule)
    && (forall r :: r in rows.details && r.schedule in ScheduleIds(rows.groups) ==> 0 <= r.sequence)
    && (forall m :: m in rows.manuals ==> 1 <= m.manual)
  }

  /** The snapshot's rows in the order it keeps them. */
  lemma SortedRows(rows: Rows)
    requires Keyed(rows)
    ensures var groups, details := Sort(GroupLe, rows.groups), Sort(DetailLe, rows.details);
            && Distinct(groups) && Distinct(details)
            && (forall g :: g in groups <==> g in rows.groups)
            && (forall r :: r in details <==> r in rows.details)
  {
    Orders();
    SortSorts(GroupLe, rows.groups);
    SortSorts(DetailLe, rows.details);
    DistinctShuffled(rows.groups, Sort(GroupLe, rows.groups));
    DistinctShuffled(rows.details, Sort(DetailLe, rows.details));
    SameElements(rows.groups, Sort(GroupLe, rows.groups));
    SameElements(rows.details, Sort(DetailLe, rows.details));
  }

  /** Ranks rise with sequences within one schedule's details. */
  lemma RanksRiseIn(details: seq<DetailRow>, id: nat)
    ensures RanksRise(DetailsOf(details, details, id))
  {
    DetailsOfAt(details, details, id);
    var ds := DetailsOf(details, details, id);
    forall a, b | a in ds && b in ds && KeyLe(a, b)
      ensures a.execSequence <= b.execSequence
    {
      var r :| r in details && r.schedule == id && DetailOf(details, r) == a;
      var t :| t in details && t.schedule == id && DetailOf(details, t) == b;
      RanksFollowSequences(details, id, r.sequence, t.sequence);
    }
  }

  lemma {:induction false} DetailIdsAreDistinct(groups: seq<GroupRow>, details: seq<DetailRow>)
    requires Distinct(groups) && Distinct(details)
    requires forall a, b :: a in groups && b in groups && a.schedule == b.schedule ==> a == b
    requires forall a, b :: a in details && b in details && a.detail == b.detail ==> a == b
    ensures Distinct(DetailIds(Normalize.SchedulesOf(groups, details)))
    ensures forall d :: d in DetailIds(Normalize.SchedulesOf(groups, details)) ==>
              exists r :: r in details && r.detail == d && r.schedule in ScheduleIds(groups)
  {
    if groups != [] {
      var init, last := groups[..|groups| - 1], groups[|groups| - 1];
      assert groups == init + [last] && last !in init;
      DetailIdsAreDistinct(init, details);
      DetailsOfDistinct(details, details, last.schedule);
      DetailsOfAt(details, details, last.schedule);
      var schedules := Normalize.SchedulesOf(groups, details);
      assert schedules[..|schedules| - 1] == Normalize.SchedulesOf(init, details);
      assert last.schedule !in ScheduleIds(init);
      var before, own := DetailIds(Normalize.SchedulesOf(init, details)), IdsOf(DetailsOf(details, details, last.schedule));
      assert DetailIds(schedules) == before + own;
      forall d | d in IdsOf(DetailsOf(details, details, last.schedule))
        ensures d !in DetailIds(Normalize.SchedulesOf(init, details))
      {
        var r :| r in details && r.schedule == last.schedule && r.detail == d;
      }
      DistinctTogether(before, own);
    }
  }

  lemma DistinctTogether<X>(a: seq<X>, b: seq<X>)
    requires Distinct(a) && Distinct(b) && (forall x :: x in b ==> x !in a)
    ensures Distinct(a + b)
  {
    forall i, j | 0 <= i < j < |a + b|
      ensures (a + b)[i] != (a + b)[j]
    {
      if i < |a| <= j {
        assert b[j - |a|] in b;
      }
    }
  }

  lemma ManualsAreDistinct(rows: Rows)
    requires Keyed(rows)
    ensures var manuals := Sort(ManualLe, ManualsOf(rows.manuals, rows.now));
            && Distinct(ManualIds(manuals))
            && forall m :: m in manuals <==> exists r :: r in rows.manuals && ManualOf(r, rows.now) == m
  {
    Orders();
    var mapped := ManualsOf(rows.manuals, rows.now);
    var manuals := Sort(ManualLe, mapped);
    SortSorts(ManualLe, mapped);
    SameElements(mapped, manuals);
    ManualsOfMembers(rows.manuals, rows.now);
    MappedDistinct(rows.manuals, rows.now);
    DistinctShuffled(mapped, manuals);
    ManualIdsAt(manuals);
    forall i, j | 0 <= i < j < |manuals|
      ensures manuals[i].id != manuals[j].id
    {
      assert manuals[i] in manuals && manuals[j] in manuals;
      var r :| r in rows.manuals && ManualOf(r, rows.now) == manuals[i];
      var t :| t in rows.manuals && ManualOf(t, rows.now) == manuals[j];
    }
  }

  lemma {:induction false} MappedDistinct(rows: seq<ManualRow>, now: int)
    requires Distinct(rows) && (forall a, b :: a in rows && b in rows && a.manual == b.manual ==> a == b)
    ensures Distinct(ManualsOf(rows, now))
  {
    if rows != [] {
      var init, last := rows[..|rows| - 1], rows[|rows| - 1];
      assert rows == init + [last] && last !in init;
      MappedDistinct(init, now);
      ManualsOfMembers(init, now);
      forall m | m in ManualsOf(init, now)
        ensures m.id != last.manual
      {
        var r :| r in init && ManualOf(r, now) == m;
      }
      DistinctTogether(ManualsOf(init, now), [ManualOf(last, now)]);
    }
  }

  /**
    The agent's structural checks accept what the server sends, whatever the tables hold, exactly when
    the ids are positive and no sequence is negative; keys and references alone do the rest.
   */
  lemma ServerSnapshotAccepted(rows: Rows)
    requires Keyed(rows) && Referenced(rows)
    ensures WellFormed(Normal(rows).schedules, Normal(rows).manuals) <==> Numbered(rows)
  {
    ServerSchedulesAccepted(rows);
    ManualsAreDistinct(rows);
    if SchedulesNumbered(rows) {
      ManualsOkIff(rows);
    }
  }

  lemma ServerSchedulesAccepted(rows: Rows)
    requires Keyed(rows)
    ensures SchedulesOk(Normal(rows).schedules) <==> SchedulesNumbered(rows)
  {
    var groups, details := Sort(GroupLe, rows.groups), Sort(DetailLe, rows.details);
    SortedRows(rows);
    DetailIdsAreDistinct(groups, details);
    DistinctSchedules(groups, details);
    SchedulesOkIff(rows, groups, details);
  }

  lemma DistinctSchedules(groups: seq<GroupRow>, details: seq<DetailRow>)
    requires Distinct(groups) && forall a, b :: a in groups && b in groups && a.schedule == b.schedule ==> a == b
    ensures Distinct(ScheduleIdsOf(Normalize.SchedulesOf(groups, details)))
  {
    var schedules := Normalize.SchedulesOf(groups, details);
    SchedulesOfAt(groups, details);
    ScheduleIdsAt(schedules);
    forall i, j | 0 <= i < j < |schedules|
      ensures schedules[i].id != schedules[j].id
    {
      assert groups[i] in groups && groups[j] in groups;
    }
  }

  /** The numbers of the schedules and of their details. */
  ghost predicate SchedulesNumbered(rows: Rows) {
    && (forall g :: g in rows.groups ==> 1 <= g.schedule)
    && (forall r :: r in rows.details && r.schedule in ScheduleIds(rows.groups) ==> 0 <= r.sequence)
  }

  lemma SchedulesOkIff(rows: Rows, groups: seq<GroupRow>, details: seq<DetailRow>)
    requires (forall g :: g in groups <==> g in rows.groups) && (forall r :: r in details <==> r in rows.details)
    ensures var schedules := Normalize.SchedulesOf(groups, details);
            (forall s :: s in schedules ==> ScheduleOk(s)) <==> SchedulesNumbered(rows)
  {
    var schedules := Normalize.SchedulesOf(groups, details);
    SchedulesOfAt(groups, details);
    forall i | 0 <= i < |groups|
      ensures ScheduleOk(schedules[i]) <==>
                1 <= groups[i].schedule && forall r :: r in details && r.schedule == groups[i].schedule ==> 0 <= r.sequence
    {
      ScheduleOkIff(groups[i], details);
    }
    if SchedulesNumbered(rows) {
      forall s | s in schedules
        ensures ScheduleOk(s)
      {
        var i :| 0 <= i < |schedules| && schedules[i] == s;
        assert groups[i] in groups;
      }
    }
    if forall s :: s in schedules ==> ScheduleOk(s) {
      forall g | g in rows.groups
        ensures 1 <= g.schedule && forall r :: r in details && r.schedule == g.schedule ==> 0 <= r.sequence
      {
        var i :| 0 <= i < |groups| && groups[i] == g;
        assert schedules[i] in schedules;
      }
    }
  }

  lemma ScheduleOkIff(g: GroupRow, details: seq<DetailRow>)
    ensures ScheduleOk(Schedule(g.schedule, g.payload, DetailsOf(details, details, g.schedule))) <==>
              1 <= g.schedule && forall r :: r in details && r.schedule == g.schedule ==> 0 <= r.sequence
  {
    RanksRiseIn(details, g.schedule);
    DetailsOfAt(details, details, g.schedule);
    var ds := DetailsOf(details, details, g.schedule);
    forall r | r in details && r.schedule == g.schedule
      ensures DetailOf(details, r) in ds && (DetailOk(DetailOf(details, r)) <==> 0 <= r.sequence)
    {
    }
  }

  lemma ManualsOkIff(rows: Rows)
    requires Keyed(rows) && Referenced(rows) && SchedulesNumbered(rows)
    ensures (forall m :: m in Normal(rows).manuals ==> ManualOk(Normal(rows).schedules, m))
              <==> forall m :: m in rows.manuals ==> 1 <= m.manual
  {
    ManualsAreDistinct(rows);
    forall r | r in rows.manuals
      ensures ManualOk(Normal(rows).schedules, ManualOf(r, rows.now)) <==> 1 <= r.manual
    {
      ManualIsReferenced(rows, r);
    }
    if forall m :: m in Normal(rows).manuals ==> ManualOk(Normal(rows).schedules, m) {
      forall r | r in rows.manuals
        ensures 1 <= r.manual
      {
        assert ManualOf(r, rows.now) in Normal(rows).manuals;
      }
    }
  }

  lemma ManualIsReferenced(rows: Rows, r: ManualRow)
    requires Keyed(rows) && Referenced(rows) && r in rows.manuals
    ensures HasDetail(Normal(rows).schedules, r.schedule, r.detail)
    ensures exists g :: g in rows.groups && g.schedule == r.schedule
  {
    var groups, details := Sort(GroupLe, rows.groups), Sort(DetailLe, rows.details);
    SortedRows(rows);
    SchedulesOfAt(groups, details);
    var g :| g in rows.groups && g.schedule == r.schedule;
    var i :| 0 <= i < |groups| && groups[i] == g;
    DetailsOfAt(details, details, g.schedule);
    assert Normal(rows).schedules[i] in Normal(rows).schedules;
  }

  // ------------------------------------------------------------ how the agent runs it

  /** What the executor takes from a schedule: the ids with their execution sequences. */
  function Runnable(details: seq<Detail>): seq<E.Detail>
    requires forall d :: d in details ==> 0 <= d.execSequence
  {
    if details == [] then []
    else Runnable(details[..|details| - 1]) + [E.Detail(details[|details| - 1].id, details[|details| - 1].execSequence)]
  }

  lemma {:induction false} RunnableMembers(details: seq<Detail>)
    requires forall d :: d in details ==> 0 <= d.execSequence
    ensures |Runnable(details)| == |details|
    ensures forall i :: 0 <= i < |details| ==> Runnable(details)[i] == E.Detail(details[i].id, details[i].execSequence)
  {
    if details != [] {
      RunnableMembers(details[..|details| - 1]);
    }
  }

  /** The sequences in which the agent runs the schedule of a snapshot made from these rows. */
  ghost function AgentPlan(details: seq<DetailRow>, id: nat): map<nat, seq<Uuid>> {
    DetailsOfAt(details, details, id);
    E.Grouped(Runnable(DetailsOf(details, details, id)))
  }

  /** A row of the schedule with this detail and this rank. */
  ghost predicate HasRank(details: seq<DetailRow>, id: nat, d: Uuid, q: nat) {
    exists r :: r in details && r.schedule == id && r.detail == d && Rank(details, id, r.sequence) == q
  }

  lemma RunnableDistinct(details: seq<DetailRow>, id: nat)
    requires Distinct(details) && forall a, b :: a in details && b in details && a.detail == b.detail ==> a == b
    ensures forall d :: d in DetailsOf(details, details, id) ==> 0 <= d.execSequence
    ensures E.DistinctDetails(Runnable(DetailsOf(details, details, id)))
  {
    var ds := DetailsOf(details, details, id);
    DetailsOfAt(details, details, id);
    DetailsOfDistinct(details, details, id);
    IdsAt(ds);
    RunnableMembers(ds);
    forall i, j | 0 <= i < j < |ds|
      ensures Runnable(ds)[i].id != Runnable(ds)[j].id
    {
      assert IdsOf(ds)[i] != IdsOf(ds)[j];
    }
  }

  lemma RunnableByRank(details: seq<DetailRow>, id: nat, d: Uuid, q: nat)
    requires forall d :: d in DetailsOf(details, details, id) ==> 0 <= d.execSequence
    ensures E.Detail(d, q) in Runnable(DetailsOf(details, details, id)) <==> HasRank(details, id, d, q)
  {
    var ds := DetailsOf(details, details, id);
    DetailsOfAt(details, details, id);
    RunnableMembers(ds);
    if E.Detail(d, q) in Runnable(ds) {
      var i :| 0 <= i < |ds| && Runnable(ds)[i] == E.Detail(d, q);
      assert ds[i] in ds;
    }
    if HasRank(details, id, d, q) {
      var r :| r in details && r.schedule == id && r.detail == d && Rank(details, id, r.sequence) == q;
      assert DetailOf(details, r) in ds;
      var i :| 0 <= i < |ds| && ds[i] == DetailOf(details, r);
      assert Runnable(ds)[i] == E.Detail(d, q);
    }
  }

  lemma PlanIsByRank(details: seq<DetailRow>, id: nat)
    requires Distinct(details) && forall a, b :: a in details && b in details && a.detail == b.detail ==> a == b
    ensures var plan := AgentPlan(details, id);
            && (forall q, d :: q in plan && d in plan[q] ==> HasRank(details, id, d, q))
            && (forall q, d :: HasRank(details, id, d, q) ==> q in plan && d in plan[q])
            && (forall q :: q in plan ==> plan[q] != [])
  {
    RunnableDistinct(details, id);
    X.GroupedIsPlan(Runnable(DetailsOf(details, details, id)));
    forall q, d
      ensures E.Detail(d, q) in Runnable(DetailsOf(details, details, id)) <==> HasRank(details, id, d, q)
    {
      RunnableByRank(details, id, d, q);
    }
  }

  /** The agent runs the row's detail in sequence `q`. */
  ghost predicate Runs(rows: seq<DetailRow>, id: nat, plan: map<nat, seq<Uuid>>, r: DetailRow, q: nat) {
    r in rows && r.schedule == id && q in plan && r.detail in plan[q]
  }

  ghost predicate SourceOrder(rows: seq<DetailRow>, id: nat, plan: map<nat, seq<Uuid>>) {
    && (forall r :: r in rows && r.schedule == id ==> exists q :: Runs(rows, id, plan, r, q))
    && (forall r, t, p, q :: Runs(rows, id, plan, r, p) && Runs(rows, id, plan, t, q) ==>
          (p < q <==> r.sequence < t.sequence) && (p == q <==> r.sequence == t.sequence))
  }

  lemma RunsAtRank(details: seq<DetailRow>, id: nat, r: DetailRow, q: nat)
    requires Distinct(details) && forall a, b :: a in details && b in details && a.detail == b.detail ==> a == b
    requires r in details && r.schedule == id
    ensures Runs(details, id, AgentPlan(details, id), r, q) <==> q == Rank(details, id, r.sequence)
  {
    PlanIsByRank(details, id);
    assert HasRank(details, id, r.detail, Rank(details, id, r.sequence));
  }

  /**
    From the server's rows to the agent's run: the sequences the agent starts one after another are
    numbered from 1 without a gap, every detail is in exactly one, and two details run together,
    or one before the other, just as their sequences in the schedule say.
   */
  lemma AgentRunsInSourceOrder(rows: Rows, id: nat)
    requires Keyed(rows) && id in ScheduleIds(rows.groups)
    ensures var details := Sort(DetailLe, rows.details);
            && (exists s :: s in Normal(rows).schedules && s.id == id && s.details == DetailsOf(details, details, id))
            && AgentPlan(details, id).Keys == FirstNumbers(|SequencesOf(rows.details, id)|)
            && SourceOrder(rows.details, id, AgentPlan(details, id))
  {
    var details := Sort(DetailLe, rows.details);
    SortedRows(rows);
    InSnapshot(rows, id);
    assert SequencesOf(details, id) == SequencesOf(rows.details, id);
    PlanHasNoGaps(details, id);
    PlanKeepsOrder(details, id);
    assert forall r, q :: Runs(rows.details, id, AgentPlan(details, id), r, q) <==> Runs(details, id, AgentPlan(details, id), r, q);
  }

  lemma PlanKeepsOrder(details: seq<DetailRow>, id: nat)
    requires Distinct(details) && forall a, b :: a in details && b in details && a.detail == b.detail ==> a == b
    ensures SourceOrder(details, id, AgentPlan(details, id))
  {
    var plan := AgentPlan(details, id);
    forall r | r in details && r.schedule == id
      ensures Runs(details, id, plan, r, Rank(details, id, r.sequence))
    {
      RunsAtRank(details, id, r, Rank(details, id, r.sequence));
    }
    forall r, t, p, q | Runs(details, id, plan, r, p) && Runs(details, id, plan, t, q)
      ensures (p < q <==> r.sequence < t.sequence) && (p == q <==> r.sequence == t.sequence)
    {
      RunsAtRank(details, id, r, p);
      RunsAtRank(details, id, t, q);
      RanksFollowSequences(details, id, r.sequence, t.sequence);
    }
  }

  lemma InSnapshot(rows: Rows, id: nat)
    requires Keyed(rows) && id in ScheduleIds(rows.groups)
    ensures var details := Sort(DetailLe, rows.details);
            exists s :: s in Normal(rows).schedules && s.id == id && s.details == DetailsOf(details, details, id)
  {
    var groups, details := Sort(GroupLe, rows.groups), Sort(DetailLe, rows.details);
    SortedRows(rows);
    SchedulesOfAt(groups, details);
    var g :| g in rows.groups && g.schedule == id;
    var i :| 0 <= i < |groups| && groups[i] == g;
    assert Normal(rows).schedules[i] in Normal(rows).schedules;
  }

  function RanksOf(details: seq<DetailRow>, id: nat): set<nat> {
    set q | q in SequencesOf(details, id) :: Rank(details, id, q)
  }

  lemma PlannedHasRank(details: seq<DetailRow>, id: nat, q: nat, d: Uuid)
    requires HasRank(details, id, d, q)
    ensures q in RanksOf(details, id)
  {
    var r :| r in details && r.schedule == id && r.detail == d && Rank(details, id, r.sequence) == q;
    assert r.sequence in SequencesOf(details, id);
  }

  lemma RankIsPlanned(details: seq<DetailRow>, id: nat, q: nat)
    requires q in RanksOf(details, id)
    ensures exists d :: HasRank(details, id, d, q)
  {
    var x :| x in SequencesOf(details, id) && Rank(details, id, x) == q;
    var r :| r in details && r.schedule == id && r.sequence == x;
    assert HasRank(details, id, r.detail, q);
  }

  lemma PlanHasNoGaps(details: seq<DetailRow>, id: nat)
    requires Distinct(details) && forall a, b :: a in details && b in details && a.detail == b.detail ==> a == b
    ensures AgentPlan(details, id).Keys == FirstNumbers(|SequencesOf(details, id)|)
  {
    PlanIsByRank(details, id);
    RanksHaveNoGaps(details, id);
    var plan := AgentPlan(details, id);
    forall q | q in plan
      ensures q in RanksOf(details, id)
    {
      PlannedHasRank(details, id, q, plan[q][0]);
    }
    forall q | q in RanksOf(details, id)
      ensures q in plan
    {
      RankIsPlanned(details, id, q);
    }
    assert plan.Keys == RanksOf(details, id);
  }

  // ------------------------------------------------------------ claimable

  /**
    The flag on a manual run is right: at the time of the snapshot a claim by the run's own device
    wins exactly when the run is marked claimable, and then the agent schedules its dispatch.
   */
  lemma ClaimableFlagIsRight(db: T.Tables, device: int, row: ManualRow, token: string, now: int)
    requires T.MayClaim(db, device, row.manual)
    requires db.manuals[row.manual].detail == row.detail
    requires db.manuals[row.manual].status == row.status && row.status in {T.Wait, T.Processing}
    requires db.manuals[row.manual].expires == row.expires
    ensures T.Claim(db, device, row.manual, token, now).0.Claimed? <==> ManualOf(row, now).claimable
    ensures ManualOf(row, now).claimable <==> C.Managed(ManualOf(row, now))
  {
    T.ClaimableIsWinnable(db, device, row.manual, token, now);
  }
}
