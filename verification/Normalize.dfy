/** The server's snapshot: rows in any order become schedules with dense ranks, in one fixed order. */
module Normalize {
  import opened Protocol
  import opened Snapshots
  import opened Sorting
  import T = ExecutionTables

  datatype GroupRow = GroupRow(schedule: nat, payload: string)

  datatype DetailRow = DetailRow(schedule: nat, sequence: int, detail: Uuid, hasTask: bool, payload: string)

  datatype ManualRow = ManualRow(
    manual: nat, schedule: nat, detail: Uuid, status: T.Status, expires: Option<int>, scheduled: int, payload: string)

  /** What one read of the tables gave, and the database's clock. */
  datatype Rows = Rows(now: int, groups: seq<GroupRow>, details: seq<DetailRow>, manuals: seq<ManualRow>)

  datatype Normalized = Normalized(schedules: seq<Schedule>, manuals: seq<ManualRun>)

  predicate GroupLe(a: GroupRow, b: GroupRow) {
    a.schedule <= b.schedule
  }

  predicate DetailLe(a: DetailRow, b: DetailRow) {
    || a.schedule < b.schedule
    || (a.schedule == b.schedule && (a.sequence < b.sequence || (a.sequence == b.sequence && a.detail <= b.detail)))
  }

  predicate ManualLe(a: ManualRun, b: ManualRun) {
    a.scheduled < b.scheduled || (a.scheduled == b.scheduled && a.id <= b.id)
  }

  // ------------------------------------------------------------ dense ranks

  function SequencesOf(details: seq<DetailRow>, schedule: nat): set<int> {
    set r | r in details && r.schedule == schedule :: r.sequence
  }

  function Below(s: set<int>, q: int): set<int> {
    set x | x in s && x < q
  }

  /** One more than the number of smaller sequences the schedule has. */
  function Rank(details: seq<DetailRow>, schedule: nat, q: int): nat {
    1 + |Below(SequencesOf(details, schedule), q)|
  }

  function DetailOf(all: seq<DetailRow>, row: DetailRow): Detail {
    Detail(row.detail, row.sequence, Rank(all, row.schedule, row.sequence), row.payload)
  }

  /** The schedule's share of `rows`, in their order. */
  function DetailsOf(all: seq<DetailRow>, rows: seq<DetailRow>, schedule: nat): seq<Detail> {
    if rows == [] then []
    else
      var last := rows[|rows| - 1];
      DetailsOf(all, rows[..|rows| - 1], schedule) + if last.schedule == schedule then [DetailOf(all, last)] else []
  }

  function ScheduleIds(groups: seq<GroupRow>): set<nat> {
    set g | g in groups :: g.schedule
  }

  function SchedulesOf(groups: seq<GroupRow>, details: seq<DetailRow>): seq<Schedule> {
    if groups == [] then []
    else
      var last := groups[|groups| - 1];
      SchedulesOf(groups[..|groups| - 1], details) + [Schedule(last.schedule, last.payload, DetailsOf(details, details, last.schedule))]
  }

  function StatusOf(s: T.Status): Status {
    match s
    case Wait => Status.Wait
    case Processing => Status.Processing
    case Done => Status.Done
    case _ => Status.Failed
  }

  function ManualOf(row: ManualRow, now: int): ManualRun {
    ManualRun(row.manual, row.schedule, row.detail, StatusOf(row.status),
              T.Claimable(T.ManualRow(row.detail, row.status, None, row.expires), now),
              T.Truncate(row.scheduled), row.payload)
  }

  function ManualsOf(rows: seq<ManualRow>, now: int): seq<ManualRun> {
    if rows == [] then [] else ManualsOf(rows[..|rows| - 1], now) + [ManualOf(rows[|rows| - 1], now)]
  }

  /** A detail that has a schedule but no task row. */
  predicate Inconsistent(rows: Rows) {
    exists r :: r in rows.details && r.schedule in ScheduleIds(rows.groups) && !r.hasTask
  }

  function Normal(rows: Rows): Normalized {
    Normalized(SchedulesOf(Sort(GroupLe, rows.groups), Sort(DetailLe, rows.details)),
               Sort(ManualLe, ManualsOf(rows.manuals, rows.now)))
  }

  // ------------------------------------------------------------ the loop

  ghost predicate InOrder(all: seq<DetailRow>) {
    forall i, j :: 0 <= i < j < |all| ==> DetailLe(all[i], all[j])
  }

  /** In sorted rows, the smaller sequences of a row's schedule are those met before it. */
  lemma SmallerCameBefore(all: seq<DetailRow>, i: nat)
    requires InOrder(all) && i < |all|
    ensures var q, met := all[i].sequence, SequencesOf(all[..i], all[i].schedule);
            && (forall x :: x in met ==> x <= q)
            && Below(SequencesOf(all, all[i].schedule), q) == met - {q}
            && SequencesOf(all[..i + 1], all[i].schedule) == met + {q}
  {
    var id, q := all[i].schedule, all[i].sequence;
    var met := SequencesOf(all[..i], id);
    forall x | x in met
      ensures x <= q && x in SequencesOf(all, id)
    {
      var r :| r in all[..i] && r.schedule == id && r.sequence == x;
      var j :| 0 <= j < i && all[j] == r;
      assert DetailLe(all[j], all[i]);
    }
    forall x | x in SequencesOf(all, id) && x < q
      ensures x in met
    {
      var r :| r in all && r.schedule == id && r.sequence == x;
      var j :| 0 <= j < |all| && all[j] == r;
      assert j < i || DetailLe(all[i], all[j]);
      assert r in all[..i];
    }
    assert all[..i + 1] == all[..i] + [all[i]];
  }

  lemma OtherSchedules(all: seq<DetailRow>, i: nat, id: nat)
    requires i < |all| && all[i].schedule != id
    ensures SequencesOf(all[..i + 1], id) == SequencesOf(all[..i], id)
    ensures DetailsOf(all, all[..i + 1], id) == DetailsOf(all, all[..i], id)
  {
    assert all[..i + 1] == all[..i] + [all[i]];
    assert all[..i + 1][..i] == all[..i];
  }

  /** The rank the loop has reached for a schedule: how many sequences it met, and the last of them. */
  ghost predicate Reached(rows: seq<DetailRow>, id: nat, rank: map<nat, nat>, previous: map<nat, int>) {
    var met := SequencesOf(rows, id);
    && (id in rank <==> met != {})
    && (id in previous <==> met != {})
    && (met != {} ==> rank[id] == |met| && previous[id] in met && forall x :: x in met ==> x <= previous[id])
  }

  function NextRank(rank: map<nat, nat>, previous: map<nat, int>, row: DetailRow): map<nat, nat> {
    if row.schedule in previous && previous[row.schedule] == row.sequence then rank
    else rank[row.schedule := (if row.schedule in rank then rank[row.schedule] else 0) + 1]
  }

  lemma OneMore(met: set<int>, q: int)
    ensures 1 + |met - {q}| == |met + {q}|
    ensures |met + {q}| == if q in met then |met| else |met| + 1
  {
    if q in met {
      assert met + {q} == met;
    } else {
      assert met - {q} == met;
    }
  }

  lemma RankIsDense(all: seq<DetailRow>, i: nat, rank: map<nat, nat>, previous: map<nat, int>)
    requires InOrder(all) && i < |all| && Reached(all[..i], all[i].schedule, rank, previous)
    ensures var id, next := all[i].schedule, NextRank(rank, previous, all[i]);
            && id in next && next[id] == Rank(all, id, all[i].sequence)
            && Reached(all[..i + 1], id, next, previous[id := all[i].sequence])
  {
    var id, q := all[i].schedule, all[i].sequence;
    var met := SequencesOf(all[..i], id);
    SmallerCameBefore(all, i);
    OneMore(met, q);
    assert id in previous && previous[id] == q <==> q in met;
    assert NextRank(rank, previous, all[i])[id] == |met + {q}|;
  }

  ghost predicate Ranked(all: seq<DetailRow>, rows: seq<DetailRow>, ids: set<nat>, details: map<nat, seq<Detail>>,
                          rank: map<nat, nat>, previous: map<nat, int>) {
    && details.Keys == ids
    && (forall id :: id in ids ==> details[id] == DetailsOf(all, rows, id))
    && (forall id :: id in ids ==> Reached(rows, id, rank, previous))
  }

  lemma RankStep(all: seq<DetailRow>, i: nat, ids: set<nat>, details: map<nat, seq<Detail>>, rank: map<nat, nat>, previous: map<nat, int>)
    requires InOrder(all) && i < |all| && Ranked(all, all[..i], ids, details, rank, previous)
    ensures all[i].schedule !in ids ==> Ranked(all, all[..i + 1], ids, details, rank, previous)
    ensures all[i].schedule in ids ==>
              var id, next := all[i].schedule, NextRank(rank, previous, all[i]);
              && id in next
              && Ranked(all, all[..i + 1], ids,
                         details[id := details[id] + [Detail(all[i].detail, all[i].sequence, next[id], all[i].payload)]],
                         next, previous[id := all[i].sequence])
  {
    var id, next := all[i].schedule, NextRank(rank, previous, all[i]);
    forall other | other in ids && other != id
      ensures details[other] == DetailsOf(all, all[..i + 1], other) && Reached(all[..i + 1], other, rank, previous)
      ensures Reached(all[..i + 1], other, next, previous[id := all[i].sequence])
    {
      OtherSchedules(all, i, other);
      assert Reached(all[..i], other, rank, previous);
    }
    if id in ids {
      RankIsDense(all, i, rank, previous);
      assert all[..i + 1][..i] == all[..i];
    }
  }

  /** Gives the row the schedule's rank, one higher when its sequence is a new one. */
  method AppendRow(row: DetailRow, details: map<nat, seq<Detail>>, rank: map<nat, nat>, previous: map<nat, int>)
    returns (nextDetails: map<nat, seq<Detail>>, nextRank: map<nat, nat>, nextPrevious: map<nat, int>)
    requires row.schedule in details && row.schedule in NextRank(rank, previous, row)
    ensures nextRank == NextRank(rank, previous, row) && nextPrevious == previous[row.schedule := row.sequence]
    ensures var id := row.schedule;
            nextDetails == details[id := details[id] + [Detail(row.detail, row.sequence, nextRank[id], row.payload)]]
  {
    var id := row.schedule;
    nextRank, nextPrevious := rank, previous;
    if id !in previous || previous[id] != row.sequence {
      nextRank := rank[id := (if id in rank then rank[id] else 0) + 1];
      nextPrevious := previous[id := row.sequence];
    }
    nextDetails := details[id := details[id] + [Detail(row.detail, row.sequence, nextRank[id], row.payload)]];
  }

  lemma Unranked(all: seq<DetailRow>, ids: set<nat>)
    ensures Ranked(all, all[..0], ids, map id | id in ids :: [], map[], map[])
  {
    assert all[..0] == [];
  }

  method RankDetails(all: seq<DetailRow>, ids: set<nat>) returns (result: Option<map<nat, seq<Detail>>>)
    requires InOrder(all)
    ensures result.None? <==> exists r :: r in all && r.schedule in ids && !r.hasTask
    ensures result.Some? ==> result.value.Keys == ids && forall id :: id in ids ==> result.value[id] == DetailsOf(all, all, id)
  {
    var details: map<nat, seq<Detail>> := map id | id in ids :: [];
    var previous: map<nat, int>, rank: map<nat, nat> := map[], map[];
    Unranked(all, ids);
    for i := 0 to |all|
      invariant Ranked(all, all[..i], ids, details, rank, previous)
      invariant forall j :: 0 <= j < i && all[j].schedule in ids ==> all[j].hasTask
    {
      RankStep(all, i, ids, details, rank, previous);
      if all[i].schedule in ids {
        if !all[i].hasTask {
          return None;
        }
        details, rank, previous := AppendRow(all[i], details, rank, previous);
      }
    }
    assert all[..|all|] == all;
    forall r | r in all && r.schedule in ids
      ensures r.hasTask
    {
      var j :| 0 <= j < |all| && all[j] == r;
    }
    result := Some(details);
  }

  lemma Orders()
    ensures TotalPreorder(GroupLe) && TotalPreorder(DetailLe) && TotalPreorder(ManualLe)
  {
  }

  lemma SameElements<X>(a: seq<X>, b: seq<X>)
    requires multiset(a) == multiset(b)
    ensures forall x :: x in a <==> x in b
  {
    forall x
      ensures x in a <==> x in b
    {
      assert x in a <==> x in multiset(a);
      assert x in b <==> x in multiset(b);
    }
  }

  lemma SortedRowsInOrder(rows: Rows)
    ensures InOrder(Sort(DetailLe, rows.details))
    ensures forall r :: r in Sort(DetailLe, rows.details) <==> r in rows.details
    ensures ScheduleIds(Sort(GroupLe, rows.groups)) == ScheduleIds(rows.groups)
  {
    Orders();
    SortSorts(GroupLe, rows.groups);
    SortSorts(DetailLe, rows.details);
    SameElements(rows.groups, Sort(GroupLe, rows.groups));
    SameElements(rows.details, Sort(DetailLe, rows.details));
  }

  method MapManuals(rows: seq<ManualRow>, now: int) returns (manuals: seq<ManualRun>)
    ensures manuals == ManualsOf(rows, now)
  {
    manuals := [];
    for i := 0 to |rows|
      invariant manuals == ManualsOf(rows[..i], now)
    {
      manuals := manuals + [ManualOf(rows[i], now)];
      assert rows[..i + 1][..i] == rows[..i];
    }
    assert rows[..|rows|] == rows;
  }

  method ListSchedules(groups: seq<GroupRow>, ghost details: seq<DetailRow>, ranked: map<nat, seq<Detail>>)
    returns (schedules: seq<Schedule>)
    requires ranked.Keys == ScheduleIds(groups)
    requires forall id :: id in ranked ==> ranked[id] == DetailsOf(details, details, id)
    ensures schedules == SchedulesOf(groups, details)
  {
    schedules := [];
    for i := 0 to |groups|
      invariant schedules == SchedulesOf(groups[..i], details)
    {
      schedules := schedules + [Schedule(groups[i].schedule, groups[i].payload, ranked[groups[i].schedule])];
      assert groups[..i + 1][..i] == groups[..i];
    }
    assert groups[..|groups|] == groups;
  }

  /** The whole snapshot; None where the source reports its tables as inconsistent. */
  method NormalizeSnapshot(rows: Rows) returns (result: Option<Normalized>)
    ensures result.None? <==> exists g, r :: g in rows.groups && r in rows.details && r.schedule == g.schedule && !r.hasTask
    ensures result.Some? ==> result.value == Normal(rows)
  {
    var groups := Sort(GroupLe, rows.groups);
    var details := Sort(DetailLe, rows.details);
    SortedRowsInOrder(rows);
    var ranked := RankDetails(details, ScheduleIds(groups));
    if ranked.None? {
      return None;
    }
    var schedules := ListSchedules(groups, details, ranked.value);
    var manuals := MapManuals(rows.manuals, rows.now);
    result := Some(Normalized(schedules, Sort(ManualLe, manuals)));
  }

  // ------------------------------------------------------------ order is forgotten

  /** The primary keys. */
  ghost predicate Keyed(rows: Rows) {
    && Distinct(rows.groups) && Distinct(rows.details) && Distinct(rows.manuals)
    && (forall a, b :: a in rows.groups && b in rows.groups && a.schedule == b.schedule ==> a == b)
    && (forall a, b :: a in rows.details && b in rows.details && a.detail == b.detail ==> a == b)
    && (forall a, b :: a in rows.manuals && b in rows.manuals && a.manual == b.manual ==> a == b)
  }

  ghost predicate SameRows(a: Rows, b: Rows) {
    && a.now == b.now
    && multiset(a.groups) == multiset(b.groups)
    && multiset(a.details) == multiset(b.details)
    && multiset(a.manuals) == multiset(b.manuals)
  }

  lemma {:induction false} ManualsOfMembers(rows: seq<ManualRow>, now: int)
    ensures forall m :: m in ManualsOf(rows, now) <==> exists r :: r in rows && ManualOf(r, now) == m
  {
    if rows != [] {
      ManualsOfMembers(rows[..|rows| - 1], now);
      DropLast(rows);
    }
  }

  lemma {:induction false} ManualsOfSplit(a: seq<ManualRow>, b: seq<ManualRow>, now: int)
    ensures ManualsOf(a + b, now) == ManualsOf(a, now) + ManualsOf(b, now)
  {
    if b == [] {
      assert a + b == a;
    } else {
      ManualsOfSplit(a, b[..|b| - 1], now);
      assert (a + b)[..|a + b| - 1] == a + b[..|b| - 1];
    }
  }

  lemma {:induction false} ManualsOfShuffled(a: seq<ManualRow>, b: seq<ManualRow>, now: int)
    requires multiset(a) == multiset(b)
    ensures multiset(ManualsOf(a, now)) == multiset(ManualsOf(b, now))
    decreases |a|
  {
    if a == [] {
      assert |multiset(b)| == 0;
    } else {
      var x := a[|a| - 1];
      assert x in multiset(b);
      var i :| 0 <= i < |b| && b[i] == x;
      var c := b[..i] + b[i + 1..];
      assert b == b[..i] + ([x] + b[i + 1..]);
      assert multiset(c) == multiset(b) - multiset{x};
      DropLast(a);
      ManualsOfShuffled(a[..|a| - 1], c, now);
      ManualsOfSplit(b[..i], b[i + 1..], now);
      ManualsOfSplit(b[..i], [x] + b[i + 1..], now);
      ManualsOfSplit([x], b[i + 1..], now);
      assert [x][..0] == [];
      assert ManualsOf([x], now) == [ManualOf(x, now)];
    }
  }

  /** However the database hands out the rows, the snapshot is the same one, or the error is. */
  lemma NormalizeForgetsOrder(a: Rows, b: Rows)
    requires Keyed(a) && SameRows(a, b)
    ensures Inconsistent(a) <==> Inconsistent(b)
    ensures Normal(a) == Normal(b)
  {
    SameElements(a.groups, b.groups);
    SameElements(a.details, b.details);
    GroupsForgetOrder(a, b);
    DetailsForgetOrder(a, b);
    ManualsForgetOrder(a, b);
  }

  lemma GroupsForgetOrder(a: Rows, b: Rows)
    requires Keyed(a) && SameRows(a, b)
    ensures Sort(GroupLe, a.groups) == Sort(GroupLe, b.groups)
  {
    Orders();
    SortForgetsOrder(GroupLe, a.groups, b.groups);
  }

  lemma DetailsForgetOrder(a: Rows, b: Rows)
    requires Keyed(a) && SameRows(a, b)
    ensures Sort(DetailLe, a.details) == Sort(DetailLe, b.details)
  {
    Orders();
    SortForgetsOrder(DetailLe, a.details, b.details);
  }

  lemma ManualsForgetOrder(a: Rows, b: Rows)
    requires Keyed(a) && SameRows(a, b)
    ensures Sort(ManualLe, ManualsOf(a.manuals, a.now)) == Sort(ManualLe, ManualsOf(b.manuals, b.now))
  {
    Orders();
    ManualsOfShuffled(a.manuals, b.manuals, a.now);
    ManualsHaveNoTies(a);
    SortForgetsOrder(ManualLe, ManualsOf(a.manuals, a.now), ManualsOf(b.manuals, b.now));
  }

  lemma ManualsHaveNoTies(rows: Rows)
    requires Keyed(rows)
    ensures NoTies(ManualLe, ManualsOf(rows.manuals, rows.now))
  {
    ManualsOfMembers(rows.manuals, rows.now);
    var manuals := ManualsOf(rows.manuals, rows.now);
    forall m, n | m in manuals && n in manuals && ManualLe(m, n) && ManualLe(n, m)
      ensures m == n
    {
      var r :| r in rows.manuals && ManualOf(r, rows.now) == m;
      var t :| t in rows.manuals && ManualOf(t, rows.now) == n;
      assert r.manual == t.manual;
    }
  }
}
