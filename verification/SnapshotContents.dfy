/** What is in a snapshot, row by row, and what makes one invalid, fault by fault. */
module SnapshotContents {
  import opened Protocol
  import opened Snapshots
  import opened Sorting
  import opened Normalize
  import opened SnapshotContract
  import T = ExecutionTables

  // ------------------------------------------------------------ contents

  /** Strictly by source sequence, then by id. */
  ghost predicate Ascending(details: seq<Detail>) {
    forall i, j :: 0 <= i < j < |details| ==>
      details[i].sequence < details[j].sequence || (details[i].sequence == details[j].sequence && details[i].id < details[j].id)
  }

  /** The sequences of the row's schedule that are smaller than its own. */
  function SmallerSequences(rows: seq<DetailRow>, r: DetailRow): set<int> {
    set x | x in rows && x.schedule == r.schedule && x.sequence < r.sequence :: x.sequence
  }

  /** The row is in this entry, with its rank among its schedule's sequences. */
  predicate Shows(rows: seq<DetailRow>, r: DetailRow, d: Detail) {
    d == Detail(r.detail, r.sequence, 1 + |SmallerSequences(rows, r)|, r.payload)
  }

  lemma {:induction false} DetailsAscend(all: seq<DetailRow>, rows: seq<DetailRow>, id: nat)
    requires InOrder(rows) && Distinct(rows) && forall a, b :: a in rows && b in rows && a.detail == b.detail ==> a == b
    ensures Ascending(DetailsOf(all, rows, id))
    decreases |rows|
  {
    if rows != [] {
      var init, last := rows[..|rows| - 1], rows[|rows| - 1];
      assert rows == init + [last] && last !in init;
      DetailsAscend(all, init, id);
      DetailsOfAt(all, init, id);
      var before := DetailsOf(all, init, id);
      forall i | 0 <= i < |before| && last.schedule == id
        ensures before[i].sequence < last.sequence || (before[i].sequence == last.sequence && before[i].id < last.detail)
      {
        assert before[i] in before;
        var r :| r in init && r.schedule == id && DetailOf(all, r) == before[i];
        var j :| 0 <= j < |init| && init[j] == r;
        assert DetailLe(rows[j], last) && r.detail != last.detail;
      }
    }
  }

  lemma RankCounts(rows: seq<DetailRow>, sorted: seq<DetailRow>, r: DetailRow)
    requires forall x :: x in rows <==> x in sorted
    ensures Shows(rows, r, DetailOf(sorted, r))
  {
    assert Below(SequencesOf(sorted, r.schedule), r.sequence) == SmallerSequences(rows, r);
  }

  /** The schedule's details are exactly its rows, in ascending order, each with its rank. */
  lemma DetailContents(rows: Rows, id: nat)
    requires Keyed(rows)
    ensures var sorted := Sort(DetailLe, rows.details);
            var details := DetailsOf(sorted, sorted, id);
            && Ascending(details)
            && (forall r :: r in rows.details && r.schedule == id ==> exists d :: d in details && Shows(rows.details, r, d))
            && (forall d :: d in details ==> exists r :: r in rows.details && r.schedule == id && Shows(rows.details, r, d))
  {
    var sorted := Sort(DetailLe, rows.details);
    var details := DetailsOf(sorted, sorted, id);
    SortedRows(rows);
    SortedRowsInOrder(rows);
    DetailsAscend(sorted, sorted, id);
    DetailsOfAt(sorted, sorted, id);
    forall r | r in rows.details && r.schedule == id
      ensures DetailOf(sorted, r) in details && Shows(rows.details, r, DetailOf(sorted, r))
    {
      RankCounts(rows.details, sorted, r);
    }
    forall d | d in details
      ensures exists r :: r in rows.details && r.schedule == id && Shows(rows.details, r, d)
    {
      var r :| r in sorted && r.schedule == id && DetailOf(sorted, r) == d;
      RankCounts(rows.details, sorted, r);
    }
  }

  /** The entry is of this group's row, and lists exactly the group's details in ascending order with their ranks. */
  ghost predicate Renders(rows: Rows, g: GroupRow, s: Schedule) {
    && s.id == g.schedule && s.payload == g.payload
    && Ascending(s.details)
    && (forall r :: r in rows.details && r.schedule == g.schedule ==> exists d :: d in s.details && Shows(rows.details, r, d))
    && (forall d :: d in s.details ==> exists r :: r in rows.details && r.schedule == g.schedule && Shows(rows.details, r, d))
  }

  ghost predicate Rising(groups: seq<GroupRow>) {
    forall i, j :: 0 <= i < j < |groups| ==> groups[i].schedule < groups[j].schedule
  }

  lemma GroupsAscend(rows: Rows)
    requires Keyed(rows)
    ensures Rising(Sort(GroupLe, rows.groups))
  {
    var groups := Sort(GroupLe, rows.groups);
    SortedRows(rows);
    GroupsInOrder(rows.groups);
    forall i, j | 0 <= i < j < |groups|
      ensures groups[i].schedule < groups[j].schedule
    {
      assert groups[i] in groups && groups[j] in groups && groups[i] != groups[j];
    }
  }

  lemma GroupsInOrder(rows: seq<GroupRow>)
    ensures var groups := Sort(GroupLe, rows); forall i, j :: 0 <= i < j < |groups| ==> groups[i].schedule <= groups[j].schedule
  {
    Orders();
    SortSorts(GroupLe, rows);
    assert forall i, j :: 0 <= i < j < |Sort(GroupLe, rows)| ==> GroupLe(Sort(GroupLe, rows)[i], Sort(GroupLe, rows)[j]);
  }

  lemma ScheduleAt(rows: Rows, i: nat)
    requires Keyed(rows) && i < |Sort(GroupLe, rows.groups)|
    ensures |Normal(rows).schedules| == |Sort(GroupLe, rows.groups)|
    ensures Renders(rows, Sort(GroupLe, rows.groups)[i], Normal(rows).schedules[i])
  {
    SchedulesOfAt(Sort(GroupLe, rows.groups), Sort(DetailLe, rows.details));
    DetailContents(rows, Sort(GroupLe, rows.groups)[i].schedule);
  }

  /** The schedules of a snapshot are exactly the groups, by id, each with its own details and no others. */
  lemma ScheduleContents(rows: Rows)
    requires Keyed(rows)
    ensures var schedules := Normal(rows).schedules;
            && (forall i, j :: 0 <= i < j < |schedules| ==> schedules[i].id < schedules[j].id)
            && (forall g :: g in rows.groups ==> exists s :: s in schedules && Renders(rows, g, s))
            && (forall s :: s in schedules ==> exists g :: g in rows.groups && Renders(rows, g, s))
  {
    SchedulesAscend(rows);
    forall g | g in rows.groups
      ensures exists s :: s in Normal(rows).schedules && Renders(rows, g, s)
    {
      var s := GroupIsShown(rows, g);
    }
    forall s | s in Normal(rows).schedules
      ensures exists g :: g in rows.groups && Renders(rows, g, s)
    {
      var g := ScheduleIsOfGroup(rows, s);
    }
  }

  lemma SchedulesAscend(rows: Rows)
    requires Keyed(rows)
    ensures var schedules := Normal(rows).schedules; forall i, j :: 0 <= i < j < |schedules| ==> schedules[i].id < schedules[j].id
  {
    var groups, schedules := Sort(GroupLe, rows.groups), Normal(rows).schedules;
    GroupsAscend(rows);
    SchedulesOfAt(groups, Sort(DetailLe, rows.details));
    forall i, j | 0 <= i < j < |schedules|
      ensures schedules[i].id < schedules[j].id
    {
      assert schedules[i].id == groups[i].schedule && schedules[j].id == groups[j].schedule;
    }
  }

  lemma GroupIsShown(rows: Rows, g: GroupRow) returns (s: Schedule)
    requires Keyed(rows) && g in rows.groups
    ensures s in Normal(rows).schedules && Renders(rows, g, s)
  {
    var groups := Sort(GroupLe, rows.groups);
    SortedRows(rows);
    var i :| 0 <= i < |groups| && groups[i] == g;
    ScheduleAt(rows, i);
    s := Normal(rows).schedules[i];
  }

  lemma ScheduleIsOfGroup(rows: Rows, s: Schedule) returns (g: GroupRow)
    requires Keyed(rows) && s in Normal(rows).schedules
    ensures g in rows.groups && Renders(rows, g, s)
  {
    var groups, schedules := Sort(GroupLe, rows.groups), Normal(rows).schedules;
    SortedRows(rows);
    SchedulesOfAt(groups, Sort(DetailLe, rows.details));
    var i :| 0 <= i < |schedules| && schedules[i] == s;
    ScheduleAt(rows, i);
    g := groups[i];
    assert g in groups;
  }

  /** The run is claimable while it waits, and again when its lease is over; it is due at its time without the fraction. */
  predicate Mirrors(r: ManualRow, now: int, m: ManualRun) {
    && m.id == r.manual && m.schedule == r.schedule && m.detail == r.detail && m.payload == r.payload
    && (m.claimable <==> r.status == T.Wait || (r.status == T.Processing && r.expires.Some? && r.expires.value <= now))
    && m.scheduled <= r.scheduled < m.scheduled + 1_000_000 && m.scheduled % 1_000_000 == 0
    && (m.status == Wait <==> r.status == T.Wait)
    && (m.status == Processing <==> r.status == T.Processing)
    && (m.status == Done <==> r.status == T.Done)
    && (m.status == Failed <==> r.status !in {T.Wait, T.Processing, T.Done})
  }

  lemma ManualsInOrder(manuals: seq<ManualRun>)
    ensures var sorted := Sort(ManualLe, manuals);
            forall i, j :: 0 <= i < j < |sorted| ==>
              sorted[i].scheduled < sorted[j].scheduled || (sorted[i].scheduled == sorted[j].scheduled && sorted[i].id <= sorted[j].id)
  {
    Orders();
    SortSorts(ManualLe, manuals);
    assert forall i, j :: 0 <= i < j < |Sort(ManualLe, manuals)| ==> ManualLe(Sort(ManualLe, manuals)[i], Sort(ManualLe, manuals)[j]);
  }

  /** The manual runs of a snapshot are exactly the rows, by due time and id. */
  lemma ManualContents(rows: Rows)
    requires Keyed(rows)
    ensures var manuals := Normal(rows).manuals;
            && (forall i, j :: 0 <= i < j < |manuals| ==>
                  manuals[i].scheduled < manuals[j].scheduled || (manuals[i].scheduled == manuals[j].scheduled && manuals[i].id < manuals[j].id))
            && (forall r :: r in rows.manuals ==> exists m :: m in manuals && Mirrors(r, rows.now, m))
            && (forall m :: m in manuals ==> exists r :: r in rows.manuals && Mirrors(r, rows.now, m))
  {
    var manuals := Normal(rows).manuals;
    ManualsAreDistinct(rows);
    ManualsInOrder(ManualsOf(rows.manuals, rows.now));
    ManualIdsAt(manuals);
    forall i, j | 0 <= i < j < |manuals|
      ensures manuals[i].id != manuals[j].id
    {
      assert ManualIds(manuals)[i] != ManualIds(manuals)[j];
    }
    forall r | r in rows.manuals
      ensures ManualOf(r, rows.now) in manuals && Mirrors(r, rows.now, ManualOf(r, rows.now))
    {
      IsMirrored(r, rows.now);
    }
  }

  lemma IsMirrored(r: ManualRow, now: int)
    ensures Mirrors(r, now, ManualOf(r, now))
  {
  }

  // ------------------------------------------------------------ faults

  /** A number out of range. */
  ghost predicate BadNumber(schedules: seq<Schedule>) {
    || (exists s :: s in schedules && s.id < 1)
    || (exists s, d :: s in schedules && d in s.details && (d.sequence < 0 || d.execSequence < 1))
  }

  ghost predicate BadManual(manuals: seq<ManualRun>) {
    exists m :: m in manuals && (m.id < 1 || m.schedule < 1)
  }

  /** One id at two places: of a schedule, or of a detail in one schedule or in two. */
  ghost predicate Repeated(schedules: seq<Schedule>) {
    || (exists i, j :: 0 <= i < j < |schedules| && schedules[i].id == schedules[j].id)
    || (exists s :: s in schedules && RepeatsDetail(s.details))
    || (exists i, j :: 0 <= i < j < |schedules| && Share(schedules[i].details, schedules[j].details))
  }

  ghost predicate RepeatedManual(manuals: seq<ManualRun>) {
    exists i, j :: 0 <= i < j < |manuals| && manuals[i].id == manuals[j].id
  }

  ghost predicate RepeatsDetail(details: seq<Detail>) {
    exists i, j :: 0 <= i < j < |details| && details[i].id == details[j].id
  }

  ghost predicate Share(a: seq<Detail>, b: seq<Detail>) {
    exists c, d :: c in a && d in b && c.id == d.id
  }

  /** Two details of one schedule whose execution sequences fall where their source sequences and ids rise. */
  ghost predicate Falls(schedules: seq<Schedule>) {
    exists s, a, b :: s in schedules && a in s.details && b in s.details && a.execSequence > b.execSequence
                      && (a.sequence < b.sequence || (a.sequence == b.sequence && a.id <= b.id))
  }

  /** A manual run of a detail that its schedule does not list, or of no listed schedule. */
  ghost predicate Dangling(schedules: seq<Schedule>, manuals: seq<ManualRun>) {
    exists m :: m in manuals && forall s :: s in schedules && s.id == m.schedule ==> forall d :: d in s.details ==> d.id != m.detail
  }

  lemma IdListed(details: seq<Detail>, id: Uuid)
    ensures id in IdsOf(details) <==> exists d :: d in details && d.id == id
  {
    IdsAt(details);
    if id in IdsOf(details) {
      var i :| 0 <= i < |details| && IdsOf(details)[i] == id;
      assert details[i] in details;
    }
    if d :| d in details && d.id == id {
      var i :| 0 <= i < |details| && details[i] == d;
      assert IdsOf(details)[i] == id;
    }
  }

  lemma SharedId(a: seq<Detail>, b: seq<Detail>)
    ensures Share(a, b) <==> exists x :: x in IdsOf(a) && x in IdsOf(b)
  {
    forall x
      ensures x in IdsOf(a) <==> exists c :: c in a && c.id == x
      ensures x in IdsOf(b) <==> exists d :: d in b && d.id == x
    {
      IdListed(a, x);
      IdListed(b, x);
    }
    if c, d :| c in a && d in b && c.id == d.id {
      assert c.id in IdsOf(a) && c.id in IdsOf(b);
    }
  }

  ghost predicate Somewhere(schedules: seq<Schedule>, x: Uuid) {
    exists i :: 0 <= i < |schedules| && x in IdsOf(schedules[i].details)
  }

  lemma {:induction false} InSomeSchedule(schedules: seq<Schedule>, x: Uuid)
    ensures x in DetailIds(schedules) <==> Somewhere(schedules, x)
    decreases |schedules|
  {
    if schedules != [] {
      var n := |schedules| - 1;
      InSomeSchedule(schedules[..n], x);
      SomeNext(schedules, n, x);
      assert x in DetailIds(schedules) <==> x in DetailIds(schedules[..n]) || x in IdsOf(schedules[n].details);
    }
  }

  lemma SomeNext(schedules: seq<Schedule>, n: nat, x: Uuid)
    requires |schedules| == n + 1
    ensures Somewhere(schedules, x) <==> Somewhere(schedules[..n], x) || x in IdsOf(schedules[n].details)
  {
    if Somewhere(schedules[..n], x) {
      var i :| 0 <= i < n && x in IdsOf(schedules[..n][i].details);
      assert schedules[..n][i] == schedules[i];
    }
    if Somewhere(schedules, x) && x !in IdsOf(schedules[n].details) {
      var i :| 0 <= i <= n && x in IdsOf(schedules[i].details);
      assert schedules[..n][i] == schedules[i];
    }
  }

  ghost predicate NoneRepeats(schedules: seq<Schedule>) {
    && (forall i :: 0 <= i < |schedules| ==> !RepeatsDetail(schedules[i].details))
    && (forall i, j :: 0 <= i < j < |schedules| ==> !Share(schedules[i].details, schedules[j].details))
  }

  lemma NoneRepeatsNext(schedules: seq<Schedule>, n: nat)
    requires |schedules| == n + 1
    ensures NoneRepeats(schedules) <==>
              && NoneRepeats(schedules[..n])
              && !RepeatsDetail(schedules[n].details)
              && forall i :: 0 <= i < n ==> !Share(schedules[i].details, schedules[n].details)
  {
    var init := schedules[..n];
    assert forall i :: 0 <= i < n ==> init[i] == schedules[i];
    if NoneRepeats(init) && !RepeatsDetail(schedules[n].details) && (forall i :: 0 <= i < n ==> !Share(schedules[i].details, schedules[n].details)) {
      forall i, j | 0 <= i < j < |schedules| ensures !Share(schedules[i].details, schedules[j].details) {
        if j < n { assert !Share(init[i].details, init[j].details); }
      }
      forall i | 0 <= i < |schedules| ensures !RepeatsDetail(schedules[i].details) {
        if i < n { assert !RepeatsDetail(init[i].details); }
      }
    }
  }

  lemma {:induction false} DistinctIffNoneRepeats(schedules: seq<Schedule>)
    ensures Distinct(DetailIds(schedules)) <==> NoneRepeats(schedules)
    decreases |schedules|
  {
    if schedules != [] {
      var n := |schedules| - 1;
      var init, last := schedules[..n], schedules[n];
      var before, own := DetailIds(init), IdsOf(last.details);
      DistinctIffNoneRepeats(init);
      NoneRepeatsNext(schedules, n);
      IdsAt(last.details);
      assert Distinct(own) <==> !RepeatsDetail(last.details);
      DistinctJoin(before, own);
      forall i | 0 <= i < n ensures Share(schedules[i].details, last.details) ==> exists x :: x in before && x in own {
        SharedId(schedules[i].details, last.details);
        if x :| x in IdsOf(schedules[i].details) && x in own {
          InSomeSchedule(init, x);
          assert init[i] == schedules[i];
        }
      }
      if x :| x in before && x in own {
        InSomeSchedule(init, x);
        var i :| 0 <= i < n && x in IdsOf(init[i].details);
        SharedId(schedules[i].details, last.details);
      }
    }
  }

  lemma DistinctJoin<X>(a: seq<X>, b: seq<X>)
    ensures Distinct(a + b) <==> Distinct(a) && Distinct(b) && forall x :: x in b ==> x !in a
  {
    if Distinct(a + b) {
      PrefixDistinct(a, b);
      forall x | x in b ensures x !in a {
        var j :| 0 <= j < |b| && b[j] == x;
        assert (a + b)[|a| + j] == x;
        forall i | 0 <= i < |a| ensures a[i] != x { assert (a + b)[i] != (a + b)[|a| + j]; }
      }
    } else if Distinct(a) && Distinct(b) && forall x :: x in b ==> x !in a {
      DistinctTogether(a, b);
    }
  }

  lemma NumbersAndOrder(schedules: seq<Schedule>)
    ensures (forall s :: s in schedules ==> ScheduleOk(s)) <==>
              && !(exists s :: s in schedules && s.id < 1)
              && !(exists s, d :: s in schedules && d in s.details && (d.sequence < 0 || d.execSequence < 1))
              && !Falls(schedules)
  {
  }

  lemma SchedulesFaultless(schedules: seq<Schedule>)
    ensures SchedulesOk(schedules) <==> !BadNumber(schedules) && !Repeated(schedules) && !Falls(schedules)
  {
    NumbersAndOrder(schedules);
    ScheduleIdsAt(schedules);
    DistinctIffNoneRepeats(schedules);
    assert NoneRepeats(schedules) <==>
             !(exists s :: s in schedules && RepeatsDetail(s.details)) &&
             !(exists i, j :: 0 <= i < j < |schedules| && Share(schedules[i].details, schedules[j].details));
  }

  lemma ReferenceFaultless(schedules: seq<Schedule>, m: ManualRun)
    ensures HasDetail(schedules, m.schedule, m.detail) <==>
              !(forall s :: s in schedules && s.id == m.schedule ==> forall d :: d in s.details ==> d.id != m.detail)
  {
    forall s | s in schedules
      ensures m.detail in IdsOf(s.details) <==> exists d :: d in s.details && d.id == m.detail
    {
      IdListed(s.details, m.detail);
    }
  }

  lemma ManualsFaultless(schedules: seq<Schedule>, manuals: seq<ManualRun>)
    ensures (forall m :: m in manuals ==> ManualOk(schedules, m)) <==> !BadManual(manuals) && !Dangling(schedules, manuals)
    ensures Distinct(ManualIds(manuals)) <==> !RepeatedManual(manuals)
  {
    ManualIdsAt(manuals);
    forall m | m in manuals
      ensures HasDetail(schedules, m.schedule, m.detail) <==>
                !(forall s :: s in schedules && s.id == m.schedule ==> forall d :: d in s.details ==> d.id != m.detail)
    {
      ReferenceFaultless(schedules, m);
    }
  }

  /** A snapshot is accepted if and only if it has none of these faults. */
  lemma AcceptedIffFaultless(schedules: seq<Schedule>, manuals: seq<ManualRun>)
    ensures WellFormed(schedules, manuals) <==>
              && !BadNumber(schedules) && !BadManual(manuals)
              && !Repeated(schedules) && !RepeatedManual(manuals)
              && !Falls(schedules) && !Dangling(schedules, manuals)
  {
    SchedulesFaultless(schedules);
    ManualsFaultless(schedules, manuals);
  }
}
