/** The outbox as the object the source updates in place; every lock section is a method that refines one step. */
module OutboxObject {
  import opened Protocol
  import opened Outbox

  /** What one attempt to send came back with, after the failure was classified. */
  datatype Outcome =
    | Answer(transitions: seq<Transition>)
    | Permanent(code: string)
    | Transient
    | Halting

  /** The drainer's steps after the outcome of its request. */
  function Reaction(d: nat, outcome: Outcome): seq<Step> {
    match outcome
    case Transient => [Defer(d)]
    case Halting => [GiveUp(d)]
    case Answer(transitions) => [Settle(d, Acked(transitions)), Notify(d)]
    case Permanent(code) => [Settle(d, Refused(code)), Notify(d)]
  }

  function Turn(d: nat, outcome: Outcome, halted: bool, picked: bool): seq<Step> {
    [Pick(d, halted)] + if picked then Reaction(d, outcome) else []
  }

  /** The first `n` turns of a drainer; only the last one may find nothing to send. */
  function Turns(d: nat, outcomes: seq<Outcome>, halted: seq<bool>, n: nat, picked: bool): seq<Step>
    requires n <= |outcomes| <= |halted|
  {
    if n == 0 then []
    else Turns(d, outcomes, halted, n - 1, true) + Turn(d, outcomes[n - 1], halted[n - 1], picked)
  }

  class ResultOutbox {
    const capacity: nat
    const highWatermark: nat
    const lowWatermark: nat

    var reservedSlots: int
    var queuedResults: int
    var queues: map<Uuid, seq<Item>>
    // Object identities: of the results enqueued, and of the drainers and timers made, per group.
    var serials: map<Uuid, nat>
    var ids: map<Uuid, nat>
    var activeGroups: set<Uuid>
    var sendingGroups: set<Uuid>
    var retryTimers: map<Uuid, nat>
    var backlogLatched: bool
    var backlogReported: bool
    var closed: bool

    // The threads and timers at work, and the logs.
    ghost var unemitted: nat
    ghost var rises: nat
    ghost var events: nat
    ghost var channels: map<Uuid, Channel>

    ghost function SlotsNow(): Slots
      reads this
    {
      Slots(capacity, highWatermark, lowWatermark, reservedSlots, queuedResults,
            backlogLatched, backlogReported, unemitted, rises, events)
    }

    ghost function Abs(): State
      reads this
    {
      State(SlotsNow(), closed, channels)
    }

    function QueueOf(g: Uuid): seq<Item>
      reads this`queues
    {
      if g in queues then queues[g] else []
    }

    function IdOf(g: Uuid): nat
      reads this`ids
    {
      if g in ids then ids[g] else 0
    }

    /** The fields agree with the group's channel. */
    ghost predicate Mirrors(g: Uuid)
      reads this`channels, this`queues, this`serials, this`ids
      reads this`activeGroups, this`sendingGroups, this`retryTimers
    {
      var c := if g in channels then channels[g] else FRESH;
      && c.journal.queue == QueueOf(g)
      && |c.journal.enqueued| == (if g in serials then serials[g] else 0)
      && c.ids == IdOf(g)
      && (c.active <==> g in activeGroups)
      && (c.sending <==> g in sendingGroups)
      && c.timer == (if g in retryTimers then Some(retryTimers[g]) else None)
    }

    ghost predicate Valid()
      reads this`channels, this`queues, this`serials, this`ids
      reads this`activeGroups, this`sendingGroups, this`retryTimers
    {
      && lowWatermark < highWatermark <= capacity
      && (forall g :: Mirrors(g))
      && (forall g :: g in queues ==> queues[g] != [])
    }

    constructor (capacity: nat, highWatermark: nat, lowWatermark: nat)
      requires lowWatermark < highWatermark <= capacity
      ensures Valid() && Abs() == Initial(capacity, highWatermark, lowWatermark)
    {
      this.capacity, this.highWatermark, this.lowWatermark := capacity, highWatermark, lowWatermark;
      reservedSlots, queuedResults, queues, serials, ids := 0, 0, map[], map[], map[];
      activeGroups, sendingGroups, retryTimers := {}, {}, map[];
      backlogLatched, backlogReported, closed := false, false, false;
      unemitted, rises, events, channels := 0, 0, 0, map[];
    }

    method UpdateBacklogLatch() returns (emit: bool)
      modifies this`backlogLatched, this`backlogReported, this`rises
      ensures emit == Rose(old(SlotsNow())) && SlotsNow() == UpdateLatch(old(SlotsNow()))
      ensures var size := reservedSlots + queuedResults;
              && backlogLatched == (if old(backlogLatched) then lowWatermark <= size else highWatermark <= size)
              && (emit <==> !old(backlogLatched) && backlogLatched)
    {
      var size := reservedSlots + queuedResults;
      emit := !backlogLatched && highWatermark <= size;
      if emit {
        backlogLatched := true;
        rises := rises + 1;
      } else if backlogLatched && size < lowWatermark {
        backlogLatched := false;
        backlogReported := false;
      }
    }

    /** Turns one reserved slot into a queued result in the counters. */
    method CountEnqueued()
      modifies this`reservedSlots, this`queuedResults, this`backlogLatched, this`backlogReported, this`rises, this`unemitted
      ensures SlotsNow() == Fill(old(SlotsNow()))
    {
      reservedSlots := reservedSlots - 1;
      queuedResults := queuedResults + 1;
      var emit := UpdateBacklogLatch();
      if emit { unemitted := unemitted + 1; }
    }

    method CountRemoved()
      modifies this`queuedResults, this`backlogLatched, this`backlogReported, this`rises
      ensures SlotsNow() == Empty(old(SlotsNow()))
    {
      queuedResults := queuedResults - 1;
      var _ := UpdateBacklogLatch();
    }

    method ReserveSlot() returns (ok: bool)
      requires Valid()
      modifies this
      ensures Valid() && Abs() == Apply(old(Abs()), Event.ReserveSlot)
      ensures ok == HasRoom(old(SlotsNow()), old(closed))
    {
      if closed || capacity <= reservedSlots + queuedResults {
        return false;
      }
      reservedSlots := reservedSlots + 1;
      var emit := UpdateBacklogLatch();
      if emit { unemitted := unemitted + 1; }
      ok := true;
    }

    /** `ok` is false where the source raises because nothing is reserved. */
    method ReleaseSlot() returns (ok: bool)
      requires Valid()
      modifies this
      ensures Valid() && ok == (0 < old(reservedSlots))
      ensures Abs() == if ok then Apply(old(Abs()), Event.ReleaseSlot) else old(Abs())
    {
      if reservedSlots <= 0 {
        return false;
      }
      reservedSlots := reservedSlots - 1;
      var _ := UpdateBacklogLatch();
      ok := true;
    }

    method EmitBacklogOnce() returns (emitted: bool)
      requires Valid() && 0 < unemitted
      modifies this
      ensures Valid() && Abs() == Apply(old(Abs()), EmitBacklog)
      ensures emitted == !old(backlogReported)
    {
      unemitted := unemitted - 1;
      emitted := !backlogReported;
      if emitted {
        backlogReported := true;
        events := events + 1;
      }
    }

    /** Other groups keep their channels and their fields. */
    twostate lemma OthersStillMirror(g: Uuid)
      requires old(Valid()) && Mirrors(g)
      requires forall h :: h != g ==> (h in channels <==> h in old(channels)) && (h in channels ==> channels[h] == old(channels[h]))
      requires forall h :: h != g ==> (h in queues <==> h in old(queues)) && (h in queues ==> queues[h] == old(queues[h]))
      requires forall h :: h != g ==> (h in serials <==> h in old(serials)) && (h in serials ==> serials[h] == old(serials[h]))
      requires forall h :: h != g ==> IdOf(h) == old(IdOf(h))
      requires forall h :: h != g ==> (h in activeGroups <==> h in old(activeGroups))
      requires forall h :: h != g ==> (h in sendingGroups <==> h in old(sendingGroups))
      requires forall h :: h != g ==>
        (h in retryTimers <==> h in old(retryTimers)) && (h in retryTimers ==> retryTimers[h] == old(retryTimers[h]))
      ensures forall h :: Mirrors(h)
    {
      forall h ensures Mirrors(h) {
        assert h != g ==> old(Mirrors(h));
      }
    }

    method Enqueue(envelope: Envelope) returns (ok: bool)
      requires Valid()
      modifies this
      ensures Valid() && ok == (0 < old(reservedSlots))
      ensures Abs() == if ok then Apply(old(Abs()), On(envelope.group, Step.Enqueue(envelope))) else old(Abs())
    {
      if reservedSlots <= 0 {
        return false;
      }
      CountEnqueued();
      Append(envelope);
      ok := true;
    }

    method Append(envelope: Envelope)
      requires Valid()
      modifies this`queues, this`serials, this`channels
      ensures Valid() && channels == old(channels)[envelope.group := DoEnqueue(old(Abs().At(envelope.group)), envelope)]
    {
      var g := envelope.group;
      assert Mirrors(g);
      var serial := if g in serials then serials[g] else 0;
      channels := channels[g := DoEnqueue(Abs().At(g), envelope)];
      queues := queues[g := QueueOf(g) + [Item(envelope, serial)]];
      serials := serials[g := serial + 1];
      OthersStillMirror(g);
    }

    /** Drops the head of the group's queue if it is the item that was sent. */
    method RemoveHead(g: Uuid, ghost d: nat, item: Item, ghost verdict: Verdict)
      requires Valid() && Allowed(Abs(), On(g, Settle(d, verdict))) && Abs().At(g).drainers[d].item == item
      modifies this
      ensures Valid() && Abs() == Apply(old(Abs()), On(g, Settle(d, verdict)))
    {
      assert Mirrors(g);
      if g in queues && queues[g][0] == item {
        CountRemoved();
      }
      PopHead(g, d, item, verdict);
    }

    method PopHead(g: Uuid, ghost d: nat, item: Item, ghost verdict: Verdict)
      requires Valid() && Enabled(Abs().At(g), Settle(d, verdict)) && Abs().At(g).drainers[d].item == item
      modifies this`queues, this`channels
      ensures Valid() && channels == old(channels)[g := DoSettle(old(Abs().At(g)), d, verdict)]
    {
      assert Mirrors(g);
      channels := channels[g := DoSettle(Abs().At(g), d, verdict)];
      if g in queues && queues[g][0] == item {
        if |queues[g]| == 1 {
          queues := queues - {g};
        } else {
          queues := queues[g := queues[g][1..]];
        }
      }
      OthersStillMirror(g);
    }

    /** A step that leaves queues and serials alone and sets the group's three flags to what its channel says. */
    ghost method Follow(g: Uuid, step: Step)
      requires Enabled(Abs().At(g), step) && !step.Enqueue? && !step.Settle?
      modifies this`channels
      ensures channels == old(channels)[g := Next(old(Abs().At(g)), closed, step)]
    {
      channels := channels[g := Next(Abs().At(g), closed, step)];
    }

    method ScheduleGroup(g: Uuid, halted: bool) returns (submitted: bool)
      requires Valid() && Allowed(Abs(), On(g, Schedule(halted)))
      modifies this
      ensures Valid() && Abs() == Apply(old(Abs()), On(g, Schedule(halted)))
      ensures submitted <==> old(Abs().At(g).ids) < Abs().At(g).ids
    {
      assert Mirrors(g);
      submitted := !(closed || halted || g in activeGroups || g in retryTimers || g !in queues);
      if submitted {
        activeGroups := activeGroups + {g};
        ids := ids[g := IdOf(g) + 1];
      }
      Follow(g, Schedule(halted));
      OthersStillMirror(g);
    }

    /** The first section of a drainer task; `run` is false when the object is closed and the drainer ends at once. */
    method DrainStart(g: Uuid, ghost d: nat) returns (run: bool)
      requires Valid() && Allowed(Abs(), On(g, Start(d)))
      modifies this
      ensures Valid() && Abs() == Apply(old(Abs()), On(g, Start(d))) && run == !closed
    {
      assert Mirrors(g);
      run := !closed;
      if closed {
        activeGroups := activeGroups - {g};
      } else {
        sendingGroups := sendingGroups + {g};
      }
      Follow(g, Start(d));
      OthersStillMirror(g);
    }

    method DrainPick(g: Uuid, ghost d: nat, halted: bool) returns (item: Option<Item>)
      requires Valid() && Allowed(Abs(), On(g, Pick(d, halted)))
      modifies this
      ensures Valid() && Abs() == Apply(old(Abs()), On(g, Pick(d, halted)))
      ensures d in Abs().At(g).drainers
      ensures Abs().At(g).drainers[d] == if item.Some? then Sending(item.value) else Leaving
    {
      assert Mirrors(g);
      item := if closed || halted || g !in queues then None else Some(queues[g][0]);
      Follow(g, Pick(d, halted));
      OthersStillMirror(g);
    }

    ghost method NotifyExecutor(g: Uuid, d: nat)
      requires Valid() && Allowed(Abs(), On(g, Notify(d)))
      modifies this
      ensures Valid() && Abs() == Apply(old(Abs()), On(g, Notify(d)))
    {
      assert Mirrors(g);
      Follow(g, Notify(d));
      OthersStillMirror(g);
    }

    ghost method LeaveHalted(g: Uuid, d: nat)
      requires Valid() && Allowed(Abs(), On(g, GiveUp(d)))
      modifies this
      ensures Valid() && Abs() == Apply(old(Abs()), On(g, GiveUp(d)))
    {
      assert Mirrors(g);
      Follow(g, GiveUp(d));
      OthersStillMirror(g);
    }

    method DeferGroup(g: Uuid, ghost d: nat)
      requires Valid() && Allowed(Abs(), On(g, Defer(d)))
      modifies this
      ensures Valid() && Abs() == Apply(old(Abs()), On(g, Defer(d)))
    {
      assert Mirrors(g);
      activeGroups := activeGroups - {g};
      retryTimers := retryTimers[g := IdOf(g)];
      ids := ids[g := IdOf(g) + 1];
      Follow(g, Defer(d));
      OthersStillMirror(g);
    }

    /** The queue was filled again while no timer is to look at it. */
    method MustReschedule(g: Uuid, halted: bool) returns (reschedule: bool)
      requires Valid()
      ensures reschedule <==> !closed && Abs().At(g).timer.None? && Abs().At(g).journal.queue != [] && !halted
    {
      assert Mirrors(g);
      reschedule := !closed && g !in retryTimers && g in queues && !halted;
    }

    /** The last section of a drainer task; `reschedule` says whether it must call for the group again. */
    method DrainFinish(g: Uuid, ghost d: nat, halted: bool) returns (reschedule: bool)
      requires Valid() && Allowed(Abs(), On(g, Finish(d, halted)))
      modifies this
      ensures Valid() && Abs() == Apply(old(Abs()), On(g, Finish(d, halted)))
      ensures reschedule <==> Abs().At(g).pending == old(Abs().At(g).pending) + 1
    {
      reschedule := MustReschedule(g, halted);
      assert Mirrors(g);
      activeGroups := activeGroups - {g};
      sendingGroups := sendingGroups - {g};
      Follow(g, Finish(d, halted));
      OthersStillMirror(g);
    }

    method RetryGroup(g: Uuid, ghost timer: nat)
      requires Valid() && Allowed(Abs(), On(g, Fire(timer)))
      modifies this
      ensures Valid() && Abs() == Apply(old(Abs()), On(g, Fire(timer)))
    {
      assert Mirrors(g);
      retryTimers := retryTimers - {g};
      Follow(g, Fire(timer));
      OthersStillMirror(g);
    }

    /** Returns the groups a schedule call is then made for: exactly those with a waiting result. */
    method Wake() returns (groups: set<Uuid>)
      requires Valid()
      modifies this
      ensures Valid() && Abs() == Apply(old(Abs()), Event.Wake)
      ensures groups == set g | g in channels && channels[g].journal.queue != []
    {
      groups := set g | g in queues && queues[g] != [];
      forall g ensures g in groups <==> g in channels && channels[g].journal.queue != [] {
        assert Mirrors(g);
      }
      channels := map g | g in channels :: WakeOne(channels[g]);
      forall g ensures Mirrors(g) {
        assert old(Mirrors(g));
      }
    }

    /**
      Closes, cancels the timers and, if asked, waits until no group is sending; `patience` is how
      often the wait is woken before its deadline. Other threads act meanwhile.
     */
    method Close(wait: bool, patience: nat) returns (drained: bool)
      requires Valid()
      modifies this
      ensures Valid() && closed && Reaches(Apply(old(Abs()), Event.Close), Abs())
      ensures drained <==> !wait || NoneSending(Abs())
    {
      Shut();
      ReachesItself(Abs());
      ghost var start := Abs();
      drained := true;
      if wait {
        drained := sendingGroups == {};
        var turns := 0;
        while !drained && turns < patience
          invariant Valid() && closed && Reaches(start, Abs())
          invariant drained <==> sendingGroups == {}
        {
          ghost var before := Abs();
          OthersAct();
          ReachesOn(start, before, Abs());
          drained := sendingGroups == {};
          turns := turns + 1;
        }
        SendingMirrored();
      }
    }

    lemma SendingMirrored()
      requires Valid()
      ensures NoneSending(Abs()) <==> sendingGroups == {}
    {
      forall g | g in channels ensures channels[g].sending <==> g in sendingGroups {
        assert Mirrors(g);
      }
      forall g | g in sendingGroups ensures g in channels && channels[g].sending {
        assert Mirrors(g);
      }
    }

    method Shut()
      requires Valid()
      modifies this
      ensures Valid() && Abs() == Apply(old(Abs()), Event.Close)
    {
      closed := true;
      retryTimers := map[];
      channels := map g | g in channels :: CloseOne(channels[g]);
      forall g ensures Mirrors(g) {
        assert old(Mirrors(g));
      }
    }

    /** Other threads act: any steps that lead to a valid object; a closed outbox stays closed. */
    method OthersAct()
      requires Valid()
      modifies this
      ensures Valid() && Reaches(old(Abs()), Abs()) && (old(closed) ==> closed)
    {
      ReachesItself(Abs());
    }

    /** Other threads act between two lock sections of drainer `d`, in any steps that are not this drainer's. */
    method Interfere(g: Uuid, ghost d: nat)
      requires Valid() && d in Abs().At(g).drainers
      modifies this
      ensures Valid() && d in Abs().At(g).drainers
      ensures Abs().At(g).drainers[d] == old(Abs().At(g).drainers[d])
      ensures Through(old(Abs()), Abs(), g, d, [])
    {
      ThroughNothing(Abs(), g, d);
    }

    /**
      One drainer task, from its first lock section to its last, with other threads in between: it
      starts, takes `n` turns of which only the last may find nothing to send, and leaves unless its
      script of outcomes runs out first.
     */
    method DrainGroup(g: Uuid, ghost d: nat, outcomes: seq<Outcome>, halted: seq<bool>)
      returns (left: bool, n: nat, ghost picked: bool)
      requires Valid() && d in Abs().At(g).drainers && Abs().At(g).drainers[d] == Submitted
      requires |halted| == |outcomes| + 1
      modifies this
      ensures Valid() && n <= |outcomes|
      ensures left <==> d !in Abs().At(g).drainers
      ensures !left ==> n == |outcomes| && Abs().At(g).drainers[d] == Ready
      ensures Through(old(Abs()), Abs(), g, d,
                      if old(closed) then [Start(d)]
                      else [Start(d)] + Turns(d, outcomes, halted, n, picked) + (if left then [Finish(d, halted[n])] else []))
      ensures !left ==> forall o :: o in outcomes ==> o.Answer? || o.Permanent?
    {
      ghost var before := Abs();
      n, picked := 0, true;
      ThroughNothing(before, g, d);
      ThroughOwn(before, before, g, d, [], Start(d));
      var run := DrainStart(g, d);
      assert [] + [Start(d)] == [Start(d)];
      if !run {
        return true, n, picked;
      }
      left, n, picked := DrainTurns(g, d, outcomes, halted);
      ThroughOthers(before, Apply(before, On(g, Start(d))), Abs(), g, d, [Start(d)], Turns(d, outcomes, halted, n, picked));
      ghost var steps := [Start(d)] + Turns(d, outcomes, halted, n, picked);
      if left {
        ghost var now := Abs();
        Interfere(g, d);
        ThroughOthers(before, now, Abs(), g, d, steps, []);
        assert steps + [] == steps;
        ThroughOwn(before, Abs(), g, d, steps, Finish(d, halted[n]));
        var _ := DrainFinish(g, d, halted[n]);
      } else {
        assert steps + [] == steps;
      }
    }

    /** The drainer's loop. */
    method DrainTurns(g: Uuid, ghost d: nat, outcomes: seq<Outcome>, halted: seq<bool>)
      returns (leaving: bool, n: nat, ghost picked: bool)
      requires Valid() && d in Abs().At(g).drainers && Abs().At(g).drainers[d] == Ready
      requires |halted| == |outcomes| + 1
      modifies this
      ensures Valid() && d in Abs().At(g).drainers && n <= |outcomes|
      ensures leaving ==> Abs().At(g).drainers[d].Leaving? || Abs().At(g).drainers[d].Deferred?
      ensures !leaving ==> n == |outcomes| && Abs().At(g).drainers[d] == Ready
      ensures !leaving ==> forall o :: o in outcomes ==> o.Answer? || o.Permanent?
      ensures Through(old(Abs()), Abs(), g, d, Turns(d, outcomes, halted, n, picked))
    {
      ghost var before := Abs();
      leaving, n, picked := false, 0, true;
      ThroughNothing(before, g, d);
      while n < |outcomes| && !leaving
        invariant n <= |outcomes| && Valid() && d in Abs().At(g).drainers
        invariant leaving ==> Abs().At(g).drainers[d].Leaving? || Abs().At(g).drainers[d].Deferred?
        invariant !leaving ==> picked && Abs().At(g).drainers[d] == Ready
        invariant !leaving ==> forall o :: o in outcomes[..n] ==> o.Answer? || o.Permanent?
        invariant Through(before, Abs(), g, d, Turns(d, outcomes, halted, n, picked))
      {
        ghost var now := Abs();
        leaving, picked := DrainOnce(g, d, outcomes[n], halted[n]);
        ThroughOthers(before, now, Abs(), g, d, Turns(d, outcomes, halted, n, true), Turn(d, outcomes[n], halted[n], picked));
        n := n + 1;
      }
    }

    /** One turn of the drainer's loop; `picked` is false when there was nothing to send or delivery is halted. */
    method DrainOnce(g: Uuid, ghost d: nat, outcome: Outcome, halted: bool) returns (leaving: bool, ghost picked: bool)
      requires Valid() && d in Abs().At(g).drainers && Abs().At(g).drainers[d] == Ready
      modifies this
      ensures Valid() && d in Abs().At(g).drainers
      ensures leaving ==> Abs().At(g).drainers[d].Leaving? || Abs().At(g).drainers[d].Deferred?
      ensures !leaving ==> picked && Abs().At(g).drainers[d] == Ready && (outcome.Answer? || outcome.Permanent?)
      ensures Through(old(Abs()), Abs(), g, d, Turn(d, outcome, halted, picked))
    {
      ghost var before := Abs();
      Interfere(g, d);
      ThroughOwn(before, Abs(), g, d, [], Pick(d, halted));
      var item := DrainPick(g, d, halted);
      picked := item.Some?;
      assert [] + [Pick(d, halted)] == [Pick(d, halted)];
      if item.None? {
        return true, picked;
      }
      leaving := DrainOutcome(g, d, item.value, outcome, before, [Pick(d, halted)]);
    }

    /** What the drainer does about the outcome of its request. */
    method DrainOutcome(g: Uuid, ghost d: nat, item: Item, outcome: Outcome, ghost start: State, ghost steps: seq<Step>)
      returns (leaving: bool)
      requires Valid() && d in Abs().At(g).drainers && Abs().At(g).drainers[d] == Sending(item)
      requires Through(start, Abs(), g, d, steps)
      modifies this
      ensures Valid() && d in Abs().At(g).drainers
      ensures leaving ==> Abs().At(g).drainers[d].Leaving? || Abs().At(g).drainers[d].Deferred?
      ensures !leaving ==> Abs().At(g).drainers[d] == Ready && (outcome.Answer? || outcome.Permanent?)
      ensures Through(start, Abs(), g, d, steps + Reaction(d, outcome))
    {
      ghost var now := Abs();
      Interfere(g, d);
      ThroughOthers(start, now, Abs(), g, d, steps, []);
      assert steps + [] == steps;
      match outcome
      case Transient =>
        ThroughOwn(start, Abs(), g, d, steps, Defer(d));
        DeferGroup(g, d);
        leaving := true;
      case Halting =>
        ThroughOwn(start, Abs(), g, d, steps, GiveUp(d));
        LeaveHalted(g, d);
        leaving := true;
      case Answer(transitions) =>
        Conclude(g, d, item, Acked(transitions), start, steps);
        leaving := false;
      case Permanent(code) =>
        Conclude(g, d, item, Refused(code), start, steps);
        leaving := false;
    }

    /** Removes the item that was sent and reports the verdict to the executor. */
    method Conclude(g: Uuid, ghost d: nat, item: Item, ghost verdict: Verdict, ghost start: State, ghost steps: seq<Step>)
      requires Valid() && d in Abs().At(g).drainers && Abs().At(g).drainers[d] == Sending(item)
      requires Through(start, Abs(), g, d, steps)
      modifies this
      ensures Valid() && d in Abs().At(g).drainers && Abs().At(g).drainers[d] == Ready
      ensures Through(start, Abs(), g, d, steps + [Settle(d, verdict), Notify(d)])
    {
      ThroughOwn(start, Abs(), g, d, steps, Settle(d, verdict));
      RemoveHead(g, d, item, verdict);
      ghost var now := Abs();
      Interfere(g, d);
      ThroughOthers(start, now, Abs(), g, d, steps + [Settle(d, verdict)], []);
      assert steps + [Settle(d, verdict)] + [] == steps + [Settle(d, verdict)];
      ThroughOwn(start, Abs(), g, d, steps + [Settle(d, verdict)], Notify(d));
      NotifyExecutor(g, d);
      assert steps + [Settle(d, verdict)] + [Notify(d)] == steps + [Settle(d, verdict), Notify(d)];
    }
  }
}
