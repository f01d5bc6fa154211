/** The plan that turns the jobs of one snapshot into those of the next. */
module Reconcile {
  import opened Protocol
  import opened Snapshots

  datatype Key = ScheduleKey(id: nat) | ManualKey(id: nat)

  datatype Spec = ScheduleSpec(schedule: Schedule) | ManualSpec(manual: ManualRun)
  {
    function Key(): Key {
      match this
      case ScheduleSpec(s) => ScheduleKey(s.id)
      case ManualSpec(m) => ManualKey(m.id)
    }
  }

  datatype Plan = Plan(oldRevision: Option<string>, removals: set<Key>, updates: set<Spec>, additions: set<Spec>)

  /** By id; of two with one id the later counts. */
  function SchedulesById(schedules: seq<Schedule>): map<nat, Schedule> {
    if schedules == [] then map[]
    else
      var last := schedules[|schedules| - 1];
      SchedulesById(schedules[..|schedules| - 1])[last.id := last]
  }

  function ManualsById(manuals: seq<ManualRun>): map<nat, ManualRun> {
    if manuals == [] then map[]
    else
      var last := manuals[|manuals| - 1];
      ManualsById(manuals[..|manuals| - 1])[last.id := last]
  }

  predicate Managed(m: ManualRun) {
    m.claimable && m.status !in {Done, Failed, Cancelled, Claimed}
  }

  function SchedulesOf(s: Option<Snapshot>): map<nat, Schedule> {
    if s.None? then map[] else SchedulesById(s.value.schedules)
  }

  function ManagedOf(s: Option<Snapshot>): map<nat, ManualRun> {
    if s.None? then map[]
    else
      var all := ManualsById(s.value.manuals);
      map id | id in all && Managed(all[id]) :: all[id]
  }

  predicate Asked(s: Option<Snapshot>, k: Key) {
    match k
    case ScheduleKey(id) => id in SchedulesOf(s)
    case ManualKey(id) => id in ManagedOf(s)
  }

  function SpecOf(s: Option<Snapshot>, k: Key): Spec
    requires Asked(s, k)
  {
    match k
    case ScheduleKey(id) => ScheduleSpec(SchedulesOf(s)[id])
    case ManualKey(id) => ManualSpec(ManagedOf(s)[id])
  }

  function AskedKeys(s: Option<Snapshot>): set<Key> {
    (set id | id in SchedulesOf(s) :: ScheduleKey(id)) + (set id | id in ManagedOf(s) :: ManualKey(id))
  }

  /** The jobs a snapshot asks for. */
  function Specs(s: Option<Snapshot>): map<Key, Spec> {
    map k | k in AskedKeys(s) :: SpecOf(s, k)
  }

  function Revision(s: Option<Snapshot>): Option<string> {
    if s.None? then None else Some(s.value.revision)
  }

  /** Schedules first, then the managed manual runs: gone, changed and new ones. */
  function BuildPlan(current: Option<Snapshot>, next: Snapshot): Plan {
    var a, b := SchedulesOf(current), SchedulesOf(Some(next));
    var m, n := ManagedOf(current), ManagedOf(Some(next));
    Plan(
      Revision(current),
      (set id | id in a.Keys - b.Keys :: ScheduleKey(id)) + (set id | id in m.Keys - n.Keys :: ManualKey(id)),
      (set id | id in a.Keys * b.Keys && a[id] != b[id] :: ScheduleSpec(b[id])) +
      (set id | id in m.Keys * n.Keys && m[id] != n[id] :: ManualSpec(n[id])),
      (set id | id in b.Keys - a.Keys :: ScheduleSpec(b[id])) + (set id | id in n.Keys - m.Keys :: ManualSpec(n[id])))
  }

  /** The running contexts to stop after their sequence: those whose schedule went or changed. */
  function ChangedSchedules(current: Option<Snapshot>, next: Snapshot): set<nat> {
    var a, b := SchedulesOf(current), SchedulesOf(Some(next));
    set id | id in a && (id !in b || a[id] != b[id])
  }

  ghost predicate OneSpecPerKey(specs: set<Spec>) {
    forall a, b :: a in specs && b in specs && a.Key() == b.Key() ==> a == b
  }

  ghost function SpecWith(specs: set<Spec>, k: Key): (s: Spec)
    requires exists s :: s in specs && s.Key() == k
    ensures s in specs && s.Key() == k
  {
    var s :| s in specs && s.Key() == k;
    s
  }

  ghost function ByKey(specs: set<Spec>): map<Key, Spec>
    requires OneSpecPerKey(specs)
  {
    map k | k in (set s | s in specs :: s.Key()) :: SpecWith(specs, k)
  }

  /** What the plan makes of a table of jobs. */
  ghost function Carry(jobs: map<Key, Spec>, plan: Plan): map<Key, Spec>
    requires OneSpecPerKey(plan.updates) && OneSpecPerKey(plan.additions)
  {
    jobs - plan.removals + ByKey(plan.updates) + ByKey(plan.additions)
  }

  lemma {:induction false} SchedulesKeepIds(schedules: seq<Schedule>)
    ensures forall id :: id in SchedulesById(schedules) ==> SchedulesById(schedules)[id].id == id
  {
    if schedules != [] {
      SchedulesKeepIds(schedules[..|schedules| - 1]);
    }
  }

  lemma {:induction false} ManualsKeepIds(manuals: seq<ManualRun>)
    ensures forall id :: id in ManualsById(manuals) ==> ManualsById(manuals)[id].id == id
  {
    if manuals != [] {
      ManualsKeepIds(manuals[..|manuals| - 1]);
    }
  }

  lemma SpecAt(s: Option<Snapshot>, k: Key)
    ensures k in Specs(s) <==> Asked(s, k)
    ensures k in Specs(s) ==> Specs(s)[k] == SpecOf(s, k) && SpecOf(s, k).Key() == k
  {
    if s.Some? {
      SchedulesKeepIds(s.value.schedules);
      ManualsKeepIds(s.value.manuals);
    }
  }

  // ------------------------------------------------------------ what a snapshot lists

  /** An entry of the list, and the last one with its id. */
  ghost predicate LastSchedule(schedules: seq<Schedule>, x: Schedule) {
    exists i {:trigger schedules[i]} :: 0 <= i < |schedules| && schedules[i] == x && forall j {:trigger schedules[j]} :: i < j < |schedules| ==> schedules[j].id != x.id
  }

  ghost predicate LastManual(manuals: seq<ManualRun>, x: ManualRun) {
    exists i {:trigger manuals[i]} :: 0 <= i < |manuals| && manuals[i] == x && forall j {:trigger manuals[j]} :: i < j < |manuals| ==> manuals[j].id != x.id
  }

  predicate Over(status: Status) {
    status == Done || status == Failed || status == Cancelled || status == Claimed
  }

  /** The snapshot asks for this job: a schedule it lists, or a manual run it lists as claimable and not over. */
  ghost predicate Lists(s: Option<Snapshot>, x: Spec) {
    s.Some? && match x
               case ScheduleSpec(schedule) => LastSchedule(s.value.schedules, schedule)
               case ManualSpec(manual) => LastManual(s.value.manuals, manual) && manual.claimable && !Over(manual.status)
  }

  /** The table holds every job that the snapshot asks for, each under its own key, and nothing else. */
  ghost predicate HoldsExactly(jobs: map<Key, Spec>, s: Option<Snapshot>) {
    forall k, x :: (k in jobs && jobs[k] == x) <==> (Lists(s, x) && k == (if x.ScheduleSpec? then ScheduleKey(x.schedule.id) else ManualKey(x.manual.id)))
  }

  lemma {:induction false} LastById(schedules: seq<Schedule>, x: Schedule)
    ensures (x.id in SchedulesById(schedules) && SchedulesById(schedules)[x.id] == x) <==> LastSchedule(schedules, x)
    decreases |schedules|
  {
    if schedules != [] {
      var n := |schedules| - 1;
      var init, last := schedules[..n], schedules[n];
      LastById(init, x);
      if last.id == x.id {
        if last == x { assert schedules[n] == x; }
      }
      if last.id != x.id && LastSchedule(init, x) {
        var i :| 0 <= i < n && init[i] == x && forall j :: i < j < n ==> init[j].id != x.id;
        assert schedules[i] == x && forall j :: i < j < n ==> schedules[j] == init[j];
      }
      if last.id != x.id && LastSchedule(schedules, x) {
        var i :| 0 <= i <= n && schedules[i] == x && forall j :: i < j <= n ==> schedules[j].id != x.id;
        assert init[i] == x && forall j :: i < j < n ==> init[j] == schedules[j];
      }
    }
  }

  lemma {:induction false} LastManualById(manuals: seq<ManualRun>, x: ManualRun)
    ensures (x.id in ManualsById(manuals) && ManualsById(manuals)[x.id] == x) <==> LastManual(manuals, x)
    decreases |manuals|
  {
    if manuals != [] {
      var n := |manuals| - 1;
      var init, last := manuals[..n], manuals[n];
      LastManualById(init, x);
      if last.id == x.id {
        if last == x { assert manuals[n] == x; }
      }
      if last.id != x.id && LastManual(init, x) {
        var i :| 0 <= i < n && init[i] == x && forall j :: i < j < n ==> init[j].id != x.id;
        assert manuals[i] == x && forall j :: i < j < n ==> manuals[j] == init[j];
      }
      if last.id != x.id && LastManual(manuals, x) {
        var i :| 0 <= i <= n && manuals[i] == x && forall j :: i < j <= n ==> manuals[j].id != x.id;
        assert init[i] == x && forall j :: i < j < n ==> init[j] == manuals[j];
      }
    }
  }

  lemma SpecIsListed(s: Option<Snapshot>, x: Spec)
    ensures (x.Key() in Specs(s) && Specs(s)[x.Key()] == x) <==> Lists(s, x)
  {
    SpecAt(s, x.Key());
    if s.Some? {
      match x
      case ScheduleSpec(schedule) => LastById(s.value.schedules, schedule);
      case ManualSpec(manual) => LastManualById(s.value.manuals, manual);
    }
  }

  /** For every snapshot, with ids repeated or not, the jobs it asks for are exactly those it lists. */
  lemma SpecsAreTheLists(s: Option<Snapshot>)
    ensures HoldsExactly(Specs(s), s)
  {
    forall k, x
      ensures (k in Specs(s) && Specs(s)[k] == x) <==>
                (Lists(s, x) && k == (if x.ScheduleSpec? then ScheduleKey(x.schedule.id) else ManualKey(x.manual.id)))
    {
      SpecIsListed(s, x);
      SpecAt(s, k);
    }
  }

  /** With distinct ids every schedule is asked for, and every manual run that is claimable and not over. */
  lemma EveryListedIsAsked(s: Snapshot)
    requires forall i, j :: 0 <= i < j < |s.schedules| ==> s.schedules[i].id != s.schedules[j].id
    requires forall i, j :: 0 <= i < j < |s.manuals| ==> s.manuals[i].id != s.manuals[j].id
    ensures forall a :: Lists(Some(s), ScheduleSpec(a)) <==> a in s.schedules
    ensures forall m :: Lists(Some(s), ManualSpec(m)) <==> m in s.manuals && m.claimable && !Over(m.status)
  {
  }

  /** No two tables hold exactly the jobs of one snapshot. */
  lemma OneTable(a: map<Key, Spec>, b: map<Key, Spec>, s: Option<Snapshot>)
    requires HoldsExactly(a, s) && HoldsExactly(b, s)
    ensures a == b
  {
    forall k ensures (k in a <==> k in b) && (k in a ==> a[k] == b[k]) {
      if k in a {
        assert Lists(s, a[k]) && k in b && b[k] == a[k];
      }
      if k in b {
        assert Lists(s, b[k]) && k in a;
      }
    }
  }

  // ------------------------------------------------------------ the plan

  lemma RemovalsAreTheGone(current: Option<Snapshot>, next: Snapshot, k: Key)
    ensures k in BuildPlan(current, next).removals <==> k in Specs(current) && k !in Specs(Some(next))
  {
    SpecAt(current, k);
    SpecAt(Some(next), k);
    assert k in BuildPlan(current, next).removals <==> Asked(current, k) && !Asked(Some(next), k);
  }

  lemma AdditionsAreTheNew(current: Option<Snapshot>, next: Snapshot, s: Spec)
    ensures s in BuildPlan(current, next).additions <==>
              s.Key() in Specs(Some(next)) && s.Key() !in Specs(current) && s == Specs(Some(next))[s.Key()]
  {
    var k := s.Key();
    AdditionsAsked(current, next, s);
    SpecAt(current, k);
    SpecAt(Some(next), k);
  }

  lemma AdditionsAsked(current: Option<Snapshot>, next: Snapshot, s: Spec)
    ensures s in BuildPlan(current, next).additions <==>
              Asked(Some(next), s.Key()) && !Asked(current, s.Key()) && s == SpecOf(Some(next), s.Key())
  {
    SchedulesKeepIds(next.schedules);
    ManualsKeepIds(next.manuals);
  }

  lemma UpdatesAreTheChanged(current: Option<Snapshot>, next: Snapshot, s: Spec)
    ensures s in BuildPlan(current, next).updates <==>
              && s.Key() in Specs(Some(next)) && s.Key() in Specs(current)
              && s == Specs(Some(next))[s.Key()] && s != Specs(current)[s.Key()]
  {
    var k := s.Key();
    UpdatesAsked(current, next, s);
    SpecAt(current, k);
    SpecAt(Some(next), k);
  }

  lemma UpdatesAsked(current: Option<Snapshot>, next: Snapshot, s: Spec)
    ensures s in BuildPlan(current, next).updates <==>
              && Asked(Some(next), s.Key()) && Asked(current, s.Key())
              && s == SpecOf(Some(next), s.Key()) && s != SpecOf(current, s.Key())
  {
    SchedulesKeepIds(next.schedules);
    ManualsKeepIds(next.manuals);
  }

  /** The plan removes the keys that go, adds those that come, and updates exactly those whose spec differs. */
  lemma PlanIsTheDifference(current: Option<Snapshot>, next: Snapshot)
    ensures var plan, a, b := BuildPlan(current, next), Specs(current), Specs(Some(next));
            && (forall k :: k in plan.removals <==> k in a && k !in b)
            && (forall s :: s in plan.additions <==> s.Key() in b && s.Key() !in a && s == b[s.Key()])
            && (forall s :: s in plan.updates <==> s.Key() in b && s.Key() in a && s == b[s.Key()] && s != a[s.Key()])
  {
    forall k { RemovalsAreTheGone(current, next, k); }
    forall s { AdditionsAreTheNew(current, next, s); }
    forall s { UpdatesAreTheChanged(current, next, s); }
  }

  /** A plan that is the difference between two tables carries the one to the other. */
  lemma DifferenceCarries(a: map<Key, Spec>, b: map<Key, Spec>, plan: Plan)
    requires forall k :: k in b ==> b[k].Key() == k
    requires forall k :: k in plan.removals <==> k in a && k !in b
    requires forall s :: s in plan.additions <==> s.Key() in b && s.Key() !in a && s == b[s.Key()]
    requires forall s :: s in plan.updates <==> s.Key() in b && s.Key() in a && s == b[s.Key()] && s != a[s.Key()]
    ensures OneSpecPerKey(plan.updates) && OneSpecPerKey(plan.additions)
    ensures Carry(a, plan) == b
  {
    var c := Carry(a, plan);
    forall k
      ensures k in c <==> k in b
      ensures k in c ==> c[k] == b[k]
    {
      if k in b {
        assert b[k].Key() == k;
        assert b[k] in plan.updates || b[k] in plan.additions || k in a;
      }
    }
  }

  lemma PlanCarries(current: Option<Snapshot>, next: Snapshot)
    ensures var plan := BuildPlan(current, next);
            && OneSpecPerKey(plan.updates) && OneSpecPerKey(plan.additions)
            && Carry(Specs(current), plan) == Specs(Some(next))
  {
    PlanIsTheDifference(current, next);
    forall k { SpecAt(Some(next), k); }
    DifferenceCarries(Specs(current), Specs(Some(next)), BuildPlan(current, next));
  }

  /** For any two snapshots the plan turns the jobs that the first lists into exactly those that the second lists. */
  lemma PlanReplaces(jobs: map<Key, Spec>, current: Option<Snapshot>, next: Snapshot)
    ensures var plan := BuildPlan(current, next);
            && OneSpecPerKey(plan.updates) && OneSpecPerKey(plan.additions)
            && (HoldsExactly(jobs, current) ==> HoldsExactly(Carry(jobs, plan), Some(next)))
  {
    PlanCarries(current, next);
    SpecsAreTheLists(current);
    SpecsAreTheLists(Some(next));
    if HoldsExactly(jobs, current) {
      OneTable(jobs, Specs(current), current);
    }
  }

  /** What applying a snapshot makes of a table of jobs, whatever the table holds. */
  ghost function Carried(jobs: map<Key, Spec>, current: Option<Snapshot>, next: Snapshot): map<Key, Spec> {
    PlanCarries(current, next);
    Carry(jobs, BuildPlan(current, next))
  }

  /** A running context is marked exactly when the plan removes or updates its schedule's job. */
  lemma MarksFollowThePlan(current: Option<Snapshot>, next: Snapshot, id: nat)
    ensures id in ChangedSchedules(current, next) <==>
              ScheduleKey(id) in BuildPlan(current, next).removals ||
              exists s :: s in BuildPlan(current, next).updates && s.Key() == ScheduleKey(id)
  {
    var k := ScheduleKey(id);
    RemovalsAreTheGone(current, next, k);
    SpecAt(current, k);
    SpecAt(Some(next), k);
    var b := Specs(Some(next));
    forall s | s in BuildPlan(current, next).updates && s.Key() == k
      ensures id in ChangedSchedules(current, next)
    {
      UpdatesAsked(current, next, s);
    }
    if id in ChangedSchedules(current, next) && k in b {
      UpdatesAsked(current, next, b[k]);
    }
  }

  ghost function KeysOf(specs: set<Spec>): set<Key> {
    set s | s in specs :: s.Key()
  }

  /** The keys whose jobs the plan takes out or puts in. */
  ghost function Handled(plan: Plan): set<Key> {
    plan.removals + KeysOf(plan.updates) + KeysOf(plan.additions)
  }

  /** Of the schedules whose job an error stop had dropped, those whose keys are not handled. */
  ghost function StillDropped(dropped: set<nat>, keys: set<Key>): set<nat> {
    set id | id in dropped && ScheduleKey(id) !in keys
  }

  /** The plan handles exactly the keys at which the two snapshots differ. */
  lemma HandledAreTheDifferent(current: Option<Snapshot>, next: Snapshot, k: Key)
    ensures var a, b := Specs(current), Specs(Some(next));
            k in Handled(BuildPlan(current, next)) <==> ((k in a) != (k in b)) || (k in a && k in b && a[k] != b[k])
  {
    var plan, a, b := BuildPlan(current, next), Specs(current), Specs(Some(next));
    PlanIsTheDifference(current, next);
    SpecAt(Some(next), k);
    if k in b {
      assert b[k].Key() == k;
      assert b[k] in plan.updates ==> k in KeysOf(plan.updates);
      assert b[k] in plan.additions ==> k in KeysOf(plan.additions);
    }
  }

  /** The snapshots do not list the same job under this key. */
  ghost predicate Differs(a: Option<Snapshot>, b: Option<Snapshot>, k: Key) {
    exists x: Spec :: x.Key() == k && Lists(a, x) != Lists(b, x)
  }

  lemma HandledIffDiffers(current: Option<Snapshot>, next: Snapshot, k: Key)
    ensures k in Handled(BuildPlan(current, next)) <==> Differs(current, Some(next), k)
  {
    HandledAreTheDifferent(current, next, k);
    var a, b := Specs(current), Specs(Some(next));
    SpecAt(current, k);
    SpecAt(Some(next), k);
    forall x: Spec | x.Key() == k
      ensures Lists(current, x) <==> k in a && a[k] == x
      ensures Lists(Some(next), x) <==> k in b && b[k] == x
    {
      SpecIsListed(current, x);
      SpecIsListed(Some(next), x);
    }
    if k in a && (k !in b || a[k] != b[k]) {
      assert a[k].Key() == k && Lists(current, a[k]) != Lists(Some(next), a[k]);
    }
    if k in b && k !in a {
      assert b[k].Key() == k && Lists(current, b[k]) != Lists(Some(next), b[k]);
    }
  }

  /** A running context is marked if and only if its schedule was listed and now is not, or is listed otherwise. */
  lemma MarkedIffGoneOrChanged(current: Option<Snapshot>, next: Snapshot, id: nat)
    ensures id in ChangedSchedules(current, next) <==>
              exists a: Schedule :: a.id == id && Lists(current, ScheduleSpec(a)) && !Lists(Some(next), ScheduleSpec(a))
  {
    var a, b, k := SchedulesOf(current), SchedulesOf(Some(next)), ScheduleKey(id);
    SpecAt(current, k);
    SpecAt(Some(next), k);
    forall x: Schedule | x.id == id
      ensures Lists(current, ScheduleSpec(x)) <==> id in a && a[id] == x
      ensures Lists(Some(next), ScheduleSpec(x)) <==> id in b && b[id] == x
    {
      SpecIsListed(current, ScheduleSpec(x));
      SpecIsListed(Some(next), ScheduleSpec(x));
    }
    if id in a {
      assert a[id].id == id;
    }
  }
}
