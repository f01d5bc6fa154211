/**
  The scheduler's adapter and the coordinator, updated in place. A call into the scheduler may
  throw at any point and then has no effect; `ok` is false where the source lets that through.
 */
module ReconcileObject {
  import opened Protocol
  import opened Snapshots
  import opened Reconcile

  datatype JobId = CronJob(id: nat) | DispatchJob(id: nat)

  /** The scheduler's job for a key. */
  function JobFor(key: Key): JobId {
    match key
    case ScheduleKey(id) => CronJob(id)
    case ManualKey(id) => DispatchJob(id)
  }

  class ApSchedulerAdapter {
    var specs: map<Key, Spec>
    var manualInflight: set<nat>
    // The scheduler's store, as far as the adapter owns it.
    var jobs: set<JobId>
    // Schedule jobs that an error stop took out of the store and that nothing has put back.
    ghost var dropped: set<nat>
    // Calls into the scheduler that threw.
    ghost var thrown: nat

    /** The scheduler has a cron job for exactly the schedule specs, save those dropped; dispatches are for managed runs. */
    ghost predicate Valid()
      reads this
    {
      && (forall id :: CronJob(id) in jobs <==> ScheduleKey(id) in specs && id !in dropped)
      && (forall id :: id in dropped ==> ScheduleKey(id) in specs)
      && (forall id :: DispatchJob(id) in jobs ==> ManualKey(id) in specs)
      && (forall k :: k in specs ==> specs[k].Key() == k)
    }

    constructor ()
      ensures Valid() && specs == map[] && manualInflight == {} && jobs == {} && dropped == {} && thrown == 0
    {
      specs, manualInflight, jobs, dropped, thrown := map[], {}, {}, {}, 0;
    }

    method SchedulerAdd(job: JobId) returns (ok: bool)
      modifies this`jobs, this`thrown
      ensures jobs == if ok then old(jobs) + {job} else old(jobs)
      ensures thrown == if ok then old(thrown) else old(thrown) + 1
    {
      ok := *;
      if ok {
        jobs := jobs + {job};
      } else {
        thrown := thrown + 1;
      }
    }

    /** A job that is not there is not an error. */
    method SchedulerRemove(job: JobId) returns (ok: bool)
      modifies this`jobs, this`thrown
      ensures jobs == if ok then old(jobs) - {job} else old(jobs)
      ensures thrown == if ok then old(thrown) else old(thrown) + 1
    {
      ok := *;
      if ok {
        jobs := jobs - {job};
      } else {
        thrown := thrown + 1;
      }
    }

    method ScheduleManual(m: ManualRun) returns (ok: bool)
      requires Valid() && ManualKey(m.id) in specs
      modifies this`jobs, this`thrown
      ensures thrown == if ok then old(thrown) else old(thrown) + 1
      ensures Valid()
      ensures jobs == if ok && m.id !in manualInflight then old(jobs) + {DispatchJob(m.id)} else old(jobs)
    {
      if m.id in manualInflight || DispatchJob(m.id) in jobs {
        return true;
      }
      ok := SchedulerAdd(DispatchJob(m.id));
    }

    /** A schedule's spec is recorded after its job is in; a manual run's spec before its dispatch is. */
    method AddJob(key: Key, spec: Spec) returns (ok: bool)
      requires Valid()
      modifies this
      ensures Valid() && dropped <= old(dropped) && manualInflight == old(manualInflight) && old(jobs) <= jobs
      ensures ok ==> key == spec.Key() && specs == old(specs)[key := spec]
      ensures ok ==> jobs == (if key.ManualKey? && key.id in manualInflight then old(jobs) else old(jobs) + {JobFor(key)})
      ensures !ok ==> jobs == old(jobs)
      ensures thrown == if ok || key != spec.Key() then old(thrown) else old(thrown) + 1
      ensures ok ==> dropped == (if key.ScheduleKey? then old(dropped) - {key.id} else old(dropped))
      ensures !ok ==> specs == old(specs) || (key.ManualKey? && specs == old(specs)[key := spec])
    {
      if key != spec.Key() {
        return false;
      }
      match spec
      case ScheduleSpec(s) =>
        ok := SchedulerAdd(CronJob(s.id));
        if ok {
          specs, dropped := specs[key := spec], dropped - {s.id};
        }
      case ManualSpec(m) =>
        specs := specs[key := spec];
        ok := ScheduleManual(m);
    }

    method RemoveJob(key: Key) returns (ok: bool)
      requires Valid()
      modifies this
      ensures Valid() && dropped <= old(dropped)
      ensures ok ==> specs == old(specs) - {key}
      ensures thrown == if ok then old(thrown) else old(thrown) + 1
      ensures ok ==> dropped == (if key.ScheduleKey? then old(dropped) - {key.id} else old(dropped))
      ensures ok ==> manualInflight == (if key.ManualKey? then old(manualInflight) - {key.id} else old(manualInflight))
      ensures !ok ==> specs == old(specs) && dropped == old(dropped) && manualInflight == old(manualInflight)
      ensures jobs == if ok then old(jobs) - {JobFor(key)} else old(jobs)
    {
      match key
      case ScheduleKey(id) =>
        ok := SchedulerRemove(CronJob(id));
        if ok {
          specs, dropped := specs - {key}, dropped - {id};
        }
      case ManualKey(id) =>
        ok := SchedulerRemove(DispatchJob(id));
        if ok {
          manualInflight := manualInflight - {id};
          specs := specs - {key};
        }
    }

    /** A changed schedule is removed and added; a changed manual run keeps its in-flight mark. */
    method UpdateJob(key: Key, spec: Spec) returns (ok: bool)
      requires Valid()
      modifies this
      ensures Valid() && dropped <= old(dropped)
      ensures ok ==> key == spec.Key() && specs == old(specs)[key := spec]
      ensures thrown == if ok || key != spec.Key() then old(thrown) else old(thrown) + 1
      ensures manualInflight == old(manualInflight)
      ensures ok ==> dropped == (if key.ScheduleKey? then old(dropped) - {key.id} else old(dropped))
      ensures ok ==> jobs == (if key.ManualKey? && key.id in manualInflight then old(jobs) - {JobFor(key)} else old(jobs) + {JobFor(key)})
      ensures !ok ==> specs == old(specs) || (key.ScheduleKey? && specs == old(specs) - {key})
                      || (key.ManualKey? && specs == old(specs)[key := spec])
    {
      if key != spec.Key() {
        return false;
      }
      if spec.ManualSpec? {
        ok := SchedulerRemove(DispatchJob(spec.manual.id));
        if ok {
          specs := specs[key := spec];
          ok := ScheduleManual(spec.manual);
        }
        return;
      }
      ok := RemoveJob(key);
      if ok {
        ok := AddJob(key, spec);
      }
    }

    /** A new snapshot gives every managed manual run that is not in flight its dispatch. */
    method SchedulePendingManuals() returns (ok: bool)
      requires Valid()
      modifies this`jobs, this`thrown
      ensures Valid() && thrown == if ok then old(thrown) else old(thrown) + 1
      ensures ok ==> forall id :: ManualKey(id) in specs ==> id in manualInflight || DispatchJob(id) in jobs
      ensures old(jobs) <= jobs && forall j :: j in jobs - old(jobs) ==> j.DispatchJob? && j.id !in manualInflight
    {
      var pending := set k | k in specs.Keys && k.ManualKey?;
      while pending != {}
        invariant Valid() && specs == old(specs) && manualInflight == old(manualInflight) && thrown == old(thrown)
        invariant forall k :: k in pending ==> k in specs && k.ManualKey?
        invariant forall id :: ManualKey(id) in specs && ManualKey(id) !in pending ==> id in manualInflight || DispatchJob(id) in jobs
        invariant old(jobs) <= jobs && forall j :: j in jobs - old(jobs) ==> j.DispatchJob? && j.id !in manualInflight
        decreases |pending|
      {
        var k: Key :| k in pending;
        pending := pending - {k};
        ok := ScheduleManual(specs[k].manual);
        if !ok {
          return;
        }
      }
      ok := true;
    }

    /** The dispatch fires once and is gone. */
    method FireDispatch(id: nat)
      requires Valid() && DispatchJob(id) in jobs
      modifies this`jobs
      ensures Valid() && jobs == old(jobs) - {DispatchJob(id)}
    {
      jobs := jobs - {DispatchJob(id)};
    }

    /** An error stop of the whole schedule takes its job out behind the adapter's back. */
    method DropSchedule(id: nat)
      requires Valid()
      modifies this`jobs, this`dropped
      ensures Valid() && specs == old(specs)
      ensures dropped == if ScheduleKey(id) in specs then old(dropped) + {id} else old(dropped)
      ensures jobs == old(jobs) - {CronJob(id)}
    {
      jobs := jobs - {CronJob(id)};
      if ScheduleKey(id) in specs {
        dropped := dropped + {id};
      }
    }
  }

  /** How an application of a plan ended; `cleared` tells whether removing everything went through. */
  datatype Applying = Applied | Stale | RolledBack | Broken(cleared: bool)

  class SyncCoordinator {
    var currentSnapshot: Option<Snapshot>

    constructor (snapshot: Option<Snapshot>)
      ensures currentSnapshot == snapshot
    {
      currentSnapshot := snapshot;
    }

    /** Skips the jobs whose removal throws. */
    method RemoveAll(adapter: ApSchedulerAdapter) returns (cleared: bool)
      requires adapter.Valid()
      modifies adapter
      ensures adapter.Valid()
      ensures cleared ==> adapter.specs == map[] && adapter.dropped == {}
      ensures old(adapter.thrown) <= adapter.thrown && (cleared <==> adapter.thrown == old(adapter.thrown))
      ensures forall k :: k in adapter.specs ==> k in old(adapter.specs) && adapter.specs[k] == old(adapter.specs[k])
    {
      var pending := adapter.specs.Keys;
      cleared := true;
      while pending != {}
        invariant adapter.Valid() && pending <= old(adapter.specs).Keys
        invariant forall k :: k in adapter.specs ==> k in old(adapter.specs) && adapter.specs[k] == old(adapter.specs[k])
        invariant cleared ==> adapter.specs.Keys == pending
        invariant old(adapter.thrown) <= adapter.thrown && (cleared <==> adapter.thrown == old(adapter.thrown))
        decreases |pending|
      {
        var k :| k in pending;
        pending := pending - {k};
        var ok := adapter.RemoveJob(k);
        if !ok { cleared := false; }
      }
    }

    /** Takes out every job and forgets the snapshot, so that recovery needs a whole one. */
    method RemoveAllManaged(adapter: ApSchedulerAdapter) returns (cleared: bool)
      requires adapter.Valid()
      modifies this, adapter
      ensures adapter.Valid() && currentSnapshot == None
      ensures cleared ==> adapter.specs == map[] && adapter.dropped == {}
      ensures cleared <==> adapter.thrown == old(adapter.thrown)
    {
      cleared := RemoveAll(adapter);
      currentSnapshot := None;
    }

    /** Manual runs that are managed no more are not in flight either, and none has come into flight. */
    ghost predicate Forgets(before: map<Key, Spec>, flying: set<nat>, specs: map<Key, Spec>, inflight: set<nat>) {
      && inflight <= flying
      && (forall id :: ManualKey(id) in before && ManualKey(id) !in specs ==> id !in inflight)
    }

    /** Removals, then updates, then additions, until one throws. */
    method Mutate(plan: Plan, adapter: ApSchedulerAdapter) returns (ok: bool)
      requires adapter.Valid() && OneSpecPerKey(plan.updates) && OneSpecPerKey(plan.additions)
      modifies adapter
      ensures adapter.Valid()
      ensures ok ==> adapter.specs == Carry(old(adapter.specs), plan)
      ensures ok ==> adapter.dropped == StillDropped(old(adapter.dropped), Handled(plan))
      ensures adapter.thrown == if ok then old(adapter.thrown) else old(adapter.thrown) + 1
      ensures Forgets(old(adapter.specs), old(adapter.manualInflight), adapter.specs, adapter.manualInflight)
    {
      ok := RemoveEach(plan.removals, adapter);
      if ok {
        ok := PutEach(plan.updates, true, adapter);
      }
      if ok {
        ok := PutEach(plan.additions, false, adapter);
      }
    }

    method RemoveEach(keys: set<Key>, adapter: ApSchedulerAdapter) returns (ok: bool)
      requires adapter.Valid()
      modifies adapter
      ensures adapter.Valid()
      ensures ok ==> adapter.specs == old(adapter.specs) - keys
      ensures adapter.thrown == if ok then old(adapter.thrown) else old(adapter.thrown) + 1
      ensures ok ==> adapter.dropped == StillDropped(old(adapter.dropped), keys)
      ensures ok ==> forall id :: ManualKey(id) in keys ==> id !in adapter.manualInflight
      ensures Forgets(old(adapter.specs), old(adapter.manualInflight), adapter.specs, adapter.manualInflight)
    {
      var pending := keys;
      while pending != {}
        invariant adapter.Valid() && pending <= keys && adapter.thrown == old(adapter.thrown)
        invariant adapter.specs == old(adapter.specs) - (keys - pending)
        invariant adapter.dropped == StillDropped(old(adapter.dropped), keys - pending)
        invariant adapter.manualInflight <= old(adapter.manualInflight)
        invariant forall id :: ManualKey(id) in keys - pending ==> id !in adapter.manualInflight
        decreases |pending|
      {
        var k :| k in pending;
        ok := adapter.RemoveJob(k);
        if !ok {
          return;
        }
        pending := pending - {k};
        assert keys - pending == keys - (pending + {k}) + {k};
      }
      ok := true;
    }

    lemma ByKeyGrows(jobs: map<Key, Spec>, done: set<Spec>, s: Spec)
      requires OneSpecPerKey(done + {s})
      ensures OneSpecPerKey(done) && (jobs + ByKey(done))[s.Key() := s] == jobs + ByKey(done + {s})
    {
      assert ByKey(done + {s}) == ByKey(done)[s.Key() := s];
    }

    lemma DroppedShrinks(dropped: set<nat>, done: set<Spec>, s: Spec)
      ensures StillDropped(StillDropped(dropped, KeysOf(done)), {s.Key()}) == StillDropped(dropped, KeysOf(done + {s}))
    {
      assert KeysOf(done + {s}) == KeysOf(done) + {s.Key()};
    }

    method PutOne(s: Spec, update: bool, adapter: ApSchedulerAdapter) returns (ok: bool)
      requires adapter.Valid()
      modifies adapter
      ensures adapter.Valid() && adapter.manualInflight == old(adapter.manualInflight)
      ensures ok ==> adapter.specs == old(adapter.specs)[s.Key() := s]
      ensures adapter.thrown == if ok then old(adapter.thrown) else old(adapter.thrown) + 1
      ensures ok ==> adapter.dropped == StillDropped(old(adapter.dropped), {s.Key()})
      ensures ok && s.ManualSpec? ==> InHand(s, adapter)
      ensures !update ==> old(adapter.jobs) <= adapter.jobs
      ensures forall id :: ManualKey(id) in old(adapter.specs) ==> ManualKey(id) in adapter.specs
    {
      if update {
        ok := adapter.UpdateJob(s.Key(), s);
      } else {
        ok := adapter.AddJob(s.Key(), s);
      }
    }

    /** The manual run is in flight or has its dispatch. */
    ghost predicate InHand(s: Spec, adapter: ApSchedulerAdapter)
      requires s.ManualSpec?
      reads adapter
    {
      s.manual.id in adapter.manualInflight || DispatchJob(s.manual.id) in adapter.jobs
    }

    method PutEach(specs: set<Spec>, update: bool, adapter: ApSchedulerAdapter) returns (ok: bool)
      requires adapter.Valid() && OneSpecPerKey(specs)
      modifies adapter
      ensures adapter.Valid() && adapter.manualInflight == old(adapter.manualInflight)
      ensures ok ==> adapter.specs == old(adapter.specs) + ByKey(specs)
      ensures adapter.thrown == if ok then old(adapter.thrown) else old(adapter.thrown) + 1
      ensures ok ==> adapter.dropped == StillDropped(old(adapter.dropped), KeysOf(specs))
      ensures ok && !update ==> forall s :: s in specs && s.ManualSpec? ==> InHand(s, adapter)
      ensures forall id :: ManualKey(id) in old(adapter.specs) ==> ManualKey(id) in adapter.specs
    {
      var pending := specs;
      ghost var done: set<Spec> := {};
      ghost var jobs, dropped := adapter.specs, adapter.dropped;
      assert jobs + ByKey(done) == jobs && StillDropped(dropped, KeysOf(done)) == dropped;
      while pending != {}
        invariant adapter.Valid() && adapter.manualInflight == old(adapter.manualInflight)
        invariant specs == done + pending && adapter.thrown == old(adapter.thrown)
        invariant OneSpecPerKey(done) && adapter.specs == jobs + ByKey(done)
        invariant adapter.dropped == StillDropped(dropped, KeysOf(done))
        invariant !update ==> forall s :: s in done && s.ManualSpec? ==> InHand(s, adapter)
        decreases |pending|
      {
        var s :| s in pending;
        ok := PutOne(s, update, adapter);
        if !ok {
          return;
        }
        SomeRemain(specs, done + {s});
        ByKeyGrows(jobs, done, s);
        DroppedShrinks(dropped, done, s);
        pending, done := pending - {s}, done + {s};
      }
      assert done == specs;
      ok := true;
    }

    lemma SomeRemain(specs: set<Spec>, some: set<Spec>)
      requires OneSpecPerKey(specs) && some <= specs
      ensures OneSpecPerKey(some)
    {
    }

    /**
      Takes out what is there and adds what was. A job that an error stop had dropped comes back, and
      every manual run is dispatched anew, also one that was in flight.
     */
    method RestoreJobs(adapter: ApSchedulerAdapter, previous: map<Key, Spec>) returns (ok: bool)
      requires adapter.Valid() && (forall k :: k in previous ==> previous[k].Key() == k)
      modifies adapter
      ensures adapter.Valid()
      ensures ok ==> adapter.specs == previous && adapter.dropped == {}
      ensures adapter.thrown == if ok then old(adapter.thrown) else old(adapter.thrown) + 1
      ensures ok ==> forall id :: ManualKey(id) in old(adapter.specs) ==> id !in adapter.manualInflight
      ensures ok ==> adapter.manualInflight <= old(adapter.manualInflight)
      ensures ok ==> forall id :: ManualKey(id) in previous ==> id in adapter.manualInflight || DispatchJob(id) in adapter.jobs
    {
      ok := RemoveEach(adapter.specs.Keys, adapter);
      if ok {
        assert adapter.dropped == {};
        var specs := set k | k in previous :: previous[k];
        ok := PutEach(specs, false, adapter);
        assert ByKey(specs) == previous;
        forall id | ok && ManualKey(id) in previous
          ensures id in adapter.manualInflight || DispatchJob(id) in adapter.jobs
        {
          var s := previous[ManualKey(id)];
          assert s in specs && s.ManualSpec? && InHand(s, adapter);
        }
      }
    }

    /** No managed manual run is in flight, and each has its dispatch. */
    ghost predicate Redispatched(adapter: ApSchedulerAdapter)
      reads adapter
    {
      forall id :: ManualKey(id) in adapter.specs ==> id !in adapter.manualInflight && DispatchJob(id) in adapter.jobs
    }

    /**
      All of the plan when no call throws, the jobs as they were when one does, and no jobs when
      putting them back throws as well.
     */
    method ApplyReconcilePlan(expected: Option<string>, next: Snapshot, plan: Plan, adapter: ApSchedulerAdapter)
      returns (outcome: Applying)
      requires adapter.Valid() && OneSpecPerKey(plan.updates) && OneSpecPerKey(plan.additions)
      modifies this, adapter
      ensures adapter.Valid()
      ensures outcome.Stale? <==>
                (if old(currentSnapshot).None? then None else Some(old(currentSnapshot).value.revision)) != expected || plan.oldRevision != expected
      ensures currentSnapshot == if outcome.Applied? then Some(next) else old(currentSnapshot)
      ensures !outcome.Stale? ==> (outcome.Applied? <==> adapter.thrown == old(adapter.thrown))
      ensures !outcome.Stale? ==> (outcome.RolledBack? <==> adapter.thrown == old(adapter.thrown) + 1)
      ensures match outcome
              case Applied => adapter.specs == Carry(old(adapter.specs), plan)
                              && adapter.dropped == StillDropped(old(adapter.dropped), Handled(plan))
              case Stale => adapter.specs == old(adapter.specs) && adapter.jobs == old(adapter.jobs)
              case RolledBack => adapter.specs == old(adapter.specs) && adapter.dropped == {} && Redispatched(adapter)
              case Broken(cleared) => (cleared <==> adapter.thrown == old(adapter.thrown) + 2)
                                      && (cleared ==> adapter.specs == map[] && adapter.dropped == {})
    {
      if Revision(currentSnapshot) != expected || plan.oldRevision != expected {
        return Stale;
      }
      var previous := adapter.specs;
      var ok := Mutate(plan, adapter);
      if ok {
        currentSnapshot := Some(next);
        return Applied;
      }
      ok := RestoreJobs(adapter, previous);
      if ok {
        return RolledBack;
      }
      var cleared := RemoveAll(adapter);
      outcome := Broken(cleared);
    }

    /**
      Builds the plan from the current snapshot and applies it. From an adapter that holds exactly the
      jobs of the current snapshot it comes to hold exactly those of the new one, or it is as before.
     */
    method ApplySnapshot(next: Snapshot, adapter: ApSchedulerAdapter) returns (outcome: Applying, stop: set<nat>)
      requires adapter.Valid()
      modifies this, adapter
      ensures adapter.Valid() && !outcome.Stale?
      ensures outcome.Applied? <==> adapter.thrown == old(adapter.thrown)
      ensures outcome.RolledBack? <==> adapter.thrown == old(adapter.thrown) + 1
      ensures currentSnapshot == if outcome.Applied? then Some(next) else old(currentSnapshot)
      ensures stop == if outcome.Applied? then ChangedSchedules(old(currentSnapshot), next) else {}
      ensures outcome.Applied? ==> adapter.specs == Carried(old(adapter.specs), old(currentSnapshot), next)
      ensures outcome.Applied? && HoldsExactly(old(adapter.specs), old(currentSnapshot)) ==> HoldsExactly(adapter.specs, Some(next))
      ensures outcome.Applied? ==>
                adapter.dropped == StillDropped(old(adapter.dropped), Handled(BuildPlan(old(currentSnapshot), next)))
      ensures outcome.RolledBack? ==> adapter.specs == old(adapter.specs) && adapter.dropped == {} && Redispatched(adapter)
      ensures outcome.Broken? ==> (outcome.cleared <==> adapter.thrown == old(adapter.thrown) + 2)
      ensures outcome.Broken? && outcome.cleared ==> adapter.specs == map[] && adapter.dropped == {}
    {
      var plan := BuildPlan(currentSnapshot, next);
      stop := ChangedSchedules(currentSnapshot, next);
      PlanReplaces(adapter.specs, currentSnapshot, next);
      outcome := ApplyReconcilePlan(Revision(currentSnapshot), next, plan, adapter);
      if !outcome.Applied? {
        stop := {};
      }
    }
  }
}
