/**
 * The simulator's mutable state (the registry, the per-resource timelines,
 * the flat event log, the demand plan, the clock and the alerts) and the
 * operations that change it in place. Each scheduling method is proved to
 * compute the corresponding function of module Planning; the clock, the
 * demand intake and the capacity form are tied to modules Clock and Demand.
 */
module Simulation {
  import opened Wrappers
  import opened Search
  import opened StableSort
  import opened Domain
  import opened SlotFinder
  import opened MasterData
  import opened Planning
  import opened Clock
  import opened Demand

  function IsFuture(now: int): Event -> bool
  {
    (e: Event) => e.startTime >= now
  }

  function IsPast(now: int): Event -> bool
  {
    (e: Event) => e.startTime < now
  }

  /** `indexOf`'s test, on values: events are compared field by field. */
  function Equals(e: Event): Event -> bool
  {
    (x: Event) => x == e
  }

  /** Resetting every registered unit's timeline leaves exactly the empty store when no other key was there. */
  lemma ResetAll(m: map<ResourceId, seq<Entry>>, eq: Equipment)
    requires m.Keys <= Ids(eq)
    ensures m + EmptyTimelines(eq) == EmptyTimelines(eq)
  {
  }

  /** Replaying a log of registered units onto empty timelines gives each unit exactly the entries of its events, in log order. */
  lemma RebuildMirrors(eq: Equipment, log: seq<Event>)
    requires forall i :: 0 <= i < |log| ==> log[i].resource in Ids(eq)
    ensures Replay(EmptyTimelines(eq), log).Keys == Ids(eq)
    ensures forall id :: id in Ids(eq) ==> Replay(EmptyTimelines(eq), log)[id] == EntriesOn(log, id)
  {
    ReplayEntries(EmptyTimelines(eq), log);
  }

  /** The first future event of the log is where `indexOf` finds the first future event's value. */
  lemma IndexOfFirstFuture(log: seq<Event>, now: int)
    requires Filter(log, IsFuture(now)) != []
    ensures FirstIndex(log, IsFuture(now)).Some?
    ensures FirstIndex(log, Equals(Filter(log, IsFuture(now))[0])) == FirstIndex(log, IsFuture(now))
  {
    FilterEmpty(log, IsFuture(now));
    FirstIndexIsFirst(log, IsFuture(now));
    var p := FirstIndex(log, IsFuture(now)).value;
    FilterAround(log, IsFuture(now), p);
    FilterEmpty(log[..p], IsFuture(now));
    assert Filter(log, IsFuture(now))[0] == log[p];
    FirstIndexUnique(log, Equals(log[p]), p);
  }

  /** Removing the first future event keeps the past events and drops the head of the future ones. */
  lemma DropFirstFuture(log: seq<Event>, now: int, p: nat)
    requires IsFirst(log, IsFuture(now), p)
    ensures Filter(log, IsFuture(now)) != []
    ensures Filter(log[..p] + log[p + 1..], IsPast(now)) == Filter(log, IsPast(now))
    ensures Filter(log[..p] + log[p + 1..], IsFuture(now)) == Filter(log, IsFuture(now))[1..]
  {
    FilterAround(log, IsPast(now), p);
    FilterAround(log, IsFuture(now), p);
    FilterEmpty(log[..p], IsFuture(now));
  }

  class Simulator {
    /** The registry: statuses and capacities change in place. */
    var equipment: Equipment
    /** `systemState.resourceSchedules`: the booked entries of each unit, keyed by id. */
    var timelines: map<ResourceId, seq<Entry>>
    /** The flat `schedule` array. */
    var log: seq<Event>
    var demandPlan: seq<DemandItem>
    /** `systemState.currentTime`, in hours. */
    var currentTime: int
    /** Posted alerts, oldest first. */
    var alerts: seq<Alert>

    /** The registry can be scheduled on and the timeline store holds one timeline per unit. */
    ghost predicate Ready()
      reads this
    {
      WellFormed(equipment) && timelines.Keys == Ids(equipment)
    }

    /** The state invariant: the store is keyed by the registry, the log is on registered units and the demand is in the catalog. */
    ghost predicate Valid()
      reads this
    {
      && Ready()
      && (forall i :: 0 <= i < |log| ==> log[i].resource in Ids(equipment))
      && (forall d :: d in demandPlan ==> KnownSku(d.skuId))
    }

    function Snapshot(): Ledger
      reads this
    {
      Ledger(timelines, log, alerts)
    }

    constructor (eq: Equipment)
      requires WellFormed(eq)
      ensures Valid()
      ensures equipment == eq && timelines == EmptyTimelines(eq)
      ensures log == [] && demandPlan == [] && currentTime == 0 && alerts == []
    {
      equipment := eq;
      timelines := map[];
      log := [];
      demandPlan := [];
      currentTime := 0;
      alerts := [];
      new;
      InitializeResourceSchedules();
    }

    /** Gives every registered unit an empty timeline; other keys are left as they are. */
    method InitializeResourceSchedules()
      modifies this`timelines
      ensures timelines == old(timelines) + EmptyTimelines(equipment)
    {
      var all := AllResources(equipment);
      var i := 0;
      while i < |all|
        invariant 0 <= i <= |all|
        invariant timelines == old(timelines) + EmptyFor(GroupIds(all[..i]))
      {
        GroupIdsSnoc(all, i);
        EmptyForAdd(old(timelines), GroupIds(all[..i]), all[i].id);
        timelines := timelines[all[i].id := []];
        i := i + 1;
      }
      assert all[..|all|] == all;
      AllResourcesIds(equipment);
    }

    /**
     * From `earliest`, jumps to the end of the first conflicting entry until
     * no entry conflicts: the least conflict-free start at or after `earliest`.
     */
    method FindNextAvailableSlot(id: ResourceId, duration: int, earliest: int) returns (proposedStart: int)
      requires id in timelines
      ensures proposedStart == Slot(timelines[id], duration, earliest)
    {
      var timeline := timelines[id];
      proposedStart := earliest;
      var slotFound := false;
      while !slotFound
        invariant Slot(timeline, duration, proposedStart) == Slot(timeline, duration, earliest)
        invariant slotFound ==> proposedStart == Slot(timeline, duration, earliest)
        decreases if slotFound then 0 else 1 + EndingAfter(timeline, proposedStart)
      {
        var conflict := FirstIndex(timeline, ConflictsAt(proposedStart, duration));
        if conflict.None? {
          slotFound := true;
        } else {
          EndingAfterDrops(timeline, proposedStart, conflict.value);
          proposedStart := timeline[conflict.value].end;
        }
      }
    }

    method ScheduleEvent(id: ResourceId, start: int, end: int, task: Task, product: Label)
      requires id in timelines
      modifies this`timelines, this`log
      ensures Snapshot() == Book(old(Snapshot()), id, start, end, task, product)
      ensures timelines.Keys == old(timelines).Keys
    {
      timelines := timelines[id := timelines[id] + [Entry(start, end, task)]];
      log := log + [Event(start, end, task, id, product)];
    }

    method PostAlert(severity: Severity, message: Message)
      modifies this`alerts
      ensures Snapshot() == Post(old(Snapshot()), currentTime, severity, message)
    {
      alerts := alerts + [Alert(currentTime, severity, message)];
    }

    /** The source's `find` over tanks whose slot search does not return -1. */
    method FirstFeasibleTank(tanks: seq<Resource>, duration: int, floor: int) returns (r: Option<nat>)
      requires forall j :: 0 <= j < |tanks| ==> tanks[j].id in timelines
      ensures r == FirstFeasible(tanks, Snapshot(), duration, floor)
    {
      ghost var p := Feasible(Snapshot(), duration, floor);
      var j := 0;
      while j < |tanks|
        invariant 0 <= j <= |tanks|
        invariant forall k :: 0 <= k < j ==> !p(tanks[k])
      {
        var start := FindNextAvailableSlot(tanks[j].id, duration, floor);
        assert TimelineOf(Snapshot(), tanks[j].id) == timelines[tanks[j].id];
        assert p(tanks[j]) <==> start != -1;
        if start != -1 {
          FirstIndexUnique(tanks, p, j);
          return Some(j);
        }
        j := j + 1;
      }
      return None;
    }

    /** `for (const type in equipment)` with a `find` by id in each group. */
    method FindResource(id: ResourceId) returns (loc: Option<Location>)
      ensures loc == Locate(equipment, id)
    {
      var i := 0;
      while i < |Kinds|
        invariant 0 <= i <= |Kinds|
        invariant LocateFrom(equipment, id, i) == Locate(equipment, id)
      {
        var found := FirstIndex(Group(equipment, Kinds[i]), HasId(id));
        if found.Some? {
          return Some(Location(Kinds[i], found.value));
        }
        i := i + 1;
      }
      return None;
    }

    method ScheduleBrewing(bh: ResourceId, vars: ProcessVars, product: Label, floor: int) returns (brewEnd: int)
      requires bh in timelines
      modifies this`timelines, this`log
      ensures (Snapshot(), brewEnd) == Brew(old(Snapshot()), bh, vars, product, floor)
      ensures timelines.Keys == old(timelines).Keys
    {
      var brewStart := FindNextAvailableSlot(bh, vars.brewingTime, floor);
      brewEnd := brewStart + vars.brewingTime;
      ScheduleEvent(bh, brewStart, brewEnd, Brewing, product);
      ScheduleEvent(bh, brewEnd, brewEnd + CipTime.brewhouse, CIP, NotApplicable);
    }

    method ScheduleFermentation(tank: ResourceId, vars: ProcessVars, product: Label, brewEnd: int) returns (fermEnd: int)
      requires tank in timelines
      modifies this`timelines, this`log
      ensures (Snapshot(), fermEnd) == Ferment(old(Snapshot()), tank, vars, product, brewEnd)
      ensures timelines.Keys == old(timelines).Keys
    {
      var fermStart := FindNextAvailableSlot(tank, vars.minFermentationDays * 24, brewEnd);
      fermEnd := fermStart + vars.minFermentationDays * 24;
      ScheduleEvent(tank, fermStart, fermEnd, Fermentation, product);
    }

    method ScheduleFiltering(filter: ResourceId, tank: ResourceId, vars: ProcessVars, product: Label, fermEnd: int)
      returns (filterEnd: int)
      requires filter in timelines && tank in timelines
      modifies this`timelines, this`log
      ensures (Snapshot(), filterEnd) == FilterStage(old(Snapshot()), filter, tank, vars, product, fermEnd)
      ensures timelines.Keys == old(timelines).Keys
    {
      ghost var l0 := Snapshot();
      var filterStart := FindNextAvailableSlot(filter, vars.filteringTime, fermEnd);
      assert filterStart == Slot(TimelineOf(l0, filter), vars.filteringTime, fermEnd);
      filterEnd := filterStart + vars.filteringTime;
      ScheduleEvent(filter, filterStart, filterEnd, Filtering, product);
      ghost var l1 := Snapshot();
      ScheduleEvent(filter, filterEnd, filterEnd + CipTime.filter, CIP, NotApplicable);
      ghost var l2 := Snapshot();
      ScheduleEvent(tank, filterEnd, filterEnd + CipTime.tank, CIP, NotApplicable);
      assert l2 == Book(Book(l0, filter, filterStart, filterEnd, Filtering, product), filter, filterEnd, filterEnd + CipTime.filter, CIP, NotApplicable);
    }

    method ScheduleConditioning(bbt: ResourceId, vars: ProcessVars, product: Label, filterEnd: int) returns (condEnd: int)
      requires bbt in timelines
      modifies this`timelines, this`log
      ensures (Snapshot(), condEnd) == Condition(old(Snapshot()), bbt, vars, product, filterEnd)
      ensures timelines.Keys == old(timelines).Keys
    {
      var condStart := FindNextAvailableSlot(bbt, vars.conditioningTime, filterEnd);
      condEnd := condStart + vars.conditioningTime;
      ScheduleEvent(bbt, condStart, condEnd, Conditioning, product);
    }

    /**
     * Packaging on `line`. On a line switch the changeover search gets an
     * undefined duration, so its proposed end is NaN, its conflict test never
     * holds and it returns its floor, the previous line's release time.
     */
    method SchedulePackaging(line: ResourceId, product: Label, condEnd: int, c: Cursor) returns (next: Cursor)
      requires line in timelines
      modifies this`timelines, this`log
      ensures (Snapshot(), next) == Package(old(Snapshot()), c, line, product, condEnd)
      ensures timelines.Keys == old(timelines).Keys
    {
      var packStart := FindNextAvailableSlot(line, 0, condEnd);
      if Switches(c, line) {
        packStart := c.lastPackEnd;
        ScheduleEvent(line, c.lastPackEnd, packStart, Changeover, NotApplicable);
      }
      var packEnd := packStart + PackagingTime;
      ScheduleEvent(line, packStart, packEnd, Packaging, product);
      ScheduleEvent(line, packEnd, packEnd + CipTime.line, CIP, NotApplicable);
      next := Cursor(Some(line), packEnd + CipTime.line);
    }

    method ScheduleOnLine(family: PackType, product: Label, condEnd: int, c: Cursor) returns (next: Cursor)
      requires Ready()
      modifies this`timelines, this`log
      ensures Ready()
      ensures (Snapshot(), next) == PackageOnLine(old(Snapshot()), c, equipment, family, product, condEnd)
    {
      var line := FirstIndex(equipment.packagingLines, ForFamily(family));
      next := c;
      if line.Some? {
        GroupIdsMember(equipment.packagingLines, line.value);
        next := SchedulePackaging(equipment.packagingLines[line.value].id, product, condEnd, c);
      }
    }

    method ScheduleInBrightTank(family: PackType, vars: ProcessVars, product: Label, bbt: ResourceId, filterEnd: int, c: Cursor)
      returns (next: Cursor)
      requires Ready() && bbt in timelines
      modifies this`timelines, this`log
      ensures Ready()
      ensures (Snapshot(), next) == InBrightTank(old(Snapshot()), c, equipment, family, vars, product, bbt, filterEnd)
    {
      ghost var l0 := Snapshot();
      var condEnd := ScheduleConditioning(bbt, vars, product, filterEnd);
      ghost var l1 := Snapshot();
      assert (l1, condEnd) == Condition(l0, bbt, vars, product, filterEnd);
      next := ScheduleOnLine(family, product, condEnd, c);
      ghost var l2 := Snapshot();
      assert (l2, next) == PackageOnLine(l1, c, equipment, family, product, condEnd);
      ScheduleEvent(bbt, condEnd, condEnd + CipTime.tank, CIP, NotApplicable);
      InBrightTankSteps(l0, c, equipment, family, vars, product, bbt, filterEnd, l1, condEnd, l2, next);
    }

    method ScheduleFromTank(family: PackType, vars: ProcessVars, product: Label, tank: ResourceId, brewEnd: int, c: Cursor)
      returns (next: Cursor)
      requires Ready() && tank in timelines
      modifies this`timelines, this`log, this`alerts
      ensures Ready()
      ensures (Snapshot(), next) == FromTank(old(Snapshot()), c, equipment, family, vars, product, tank, brewEnd, currentTime)
    {
      var fermEnd := ScheduleFermentation(tank, vars, product, brewEnd);
      GroupIdsMember(equipment.filters, 0);
      var filterEnd := ScheduleFiltering(equipment.filters[0].id, tank, vars, product, fermEnd);
      next := ScheduleInFirstBrightTank(family, vars, product, filterEnd, c);
    }

    method ScheduleInFirstBrightTank(family: PackType, vars: ProcessVars, product: Label, filterEnd: int, c: Cursor)
      returns (next: Cursor)
      requires Ready()
      modifies this`timelines, this`log, this`alerts
      ensures Ready()
      ensures (Snapshot(), next) == ToBrightTank(old(Snapshot()), c, equipment, family, vars, product, filterEnd, currentTime)
    {
      GroupInIds(equipment, BrightBeerTanks);
      var bbt := FirstFeasibleTank(equipment.brightBeerTanks, vars.conditioningTime, filterEnd);
      if bbt.Some? {
        next := ScheduleInBrightTank(family, vars, product, equipment.brightBeerTanks[bbt.value].id, filterEnd, c);
      } else {
        PostAlert(Error, NoBrightTankForBatch(product));
        next := c;
      }
    }

    /** One iteration of the batch loop; `halted` is the loop's `break`. */
    method ScheduleBatch(sku: Sku, vars: ProcessVars, i: int, n: int, floor: int, c: Cursor)
      returns (next: Cursor, halted: bool, brewEnd: int)
      requires Ready()
      modifies this`timelines, this`log, this`alerts
      ensures Ready()
      ensures BatchOutcome(Snapshot(), next, halted, brewEnd) == Batch(old(Snapshot()), c, equipment, sku, vars, i, n, floor, currentTime)
      ensures i < n ==>
        Batches(old(Snapshot()), c, equipment, sku, vars, n, i, floor, currentTime)
        == if halted then (Snapshot(), next) else Batches(Snapshot(), next, equipment, sku, vars, n, i + 1, brewEnd, currentTime)
    {
      var product := BatchOf(sku.name, i + 1, n);
      GroupIdsMember(equipment.brewhouses, 0);
      var end := ScheduleBrewing(equipment.brewhouses[0].id, vars, product, floor);
      next, halted, brewEnd := ScheduleInFirstFermentationTank(sku.packType, vars, product, end, floor, c);
      if i < n {
        BatchesStep(old(Snapshot()), c, equipment, sku, vars, n, i, floor, currentTime);
      }
    }

    method ScheduleInFirstFermentationTank(family: PackType, vars: ProcessVars, product: Label, end: int, floor: int, c: Cursor)
      returns (next: Cursor, halted: bool, brewEnd: int)
      requires Ready()
      modifies this`timelines, this`log, this`alerts
      ensures Ready()
      ensures BatchOutcome(Snapshot(), next, halted, brewEnd)
           == ToFermentationTank(old(Snapshot()), c, equipment, family, vars, product, end, floor, currentTime)
    {
      GroupInIds(equipment, FermentationTanks);
      var tank := FirstFeasibleTank(equipment.fermentationTanks, vars.minFermentationDays * 24, end);
      if tank.Some? {
        next := ScheduleFromTank(family, vars, product, equipment.fermentationTanks[tank.value].id, end, c);
        halted, brewEnd := false, end;
      } else {
        PostAlert(Error, NoTankForBatch(product));
        next, halted, brewEnd := c, true, floor;
      }
    }

    /** One demand item: the batch size comes from the first idle fermentation tank. */
    method ScheduleItem(item: DemandItem, c: Cursor) returns (next: Cursor)
      requires Ready() && KnownSku(item.skuId)
      modifies this`timelines, this`log, this`alerts
      ensures Ready()
      ensures (Snapshot(), next) == Item(old(Snapshot()), c, equipment, item, currentTime)
    {
      var sku := SkuFor(item.skuId);
      var vars := ProcessVariables[sku.id];
      var availableTank := FirstIndex(equipment.fermentationTanks, IsIdle());
      if availableTank.None? {
        PostAlert(Error, NoTankForProduct(sku.name));
        return c;
      }
      var numBatches := BatchCount(item.quantity, equipment.fermentationTanks[availableTank.value].capacity);
      next := ScheduleBatches(sku, vars, numBatches, c);
    }

    /** The batch loop of one item: batch after batch, each brewing no earlier than the previous brew end, until one halts. */
    method ScheduleBatches(sku: Sku, vars: ProcessVars, numBatches: int, c: Cursor) returns (next: Cursor)
      requires Ready()
      modifies this`timelines, this`log, this`alerts
      ensures Ready()
      ensures (Snapshot(), next) == Batches(old(Snapshot()), c, equipment, sku, vars, numBatches, 0, 0, currentTime)
    {
      ghost var start := Snapshot();
      ghost var eq, now := equipment, currentTime;
      var lastBatchEndTime := 0;
      next := c;
      var i := 0;
      while i < numBatches
        invariant Ready() && equipment == eq && currentTime == now
        invariant Batches(Snapshot(), next, eq, sku, vars, numBatches, i, lastBatchEndTime, now)
               == Batches(start, c, eq, sku, vars, numBatches, 0, 0, now)
        decreases numBatches - i
      {
        var halted, brewEnd;
        next, halted, brewEnd := ScheduleBatch(sku, vars, i, numBatches, lastBatchEndTime, next);
        if halted {
          break;
        }
        lastBatchEndTime := brewEnd;
        i := i + 1;
      }
    }

    /**
     * `generateSchedule` followed by the time sort of `renderSchedule`: the
     * log and every timeline are cleared, the demand is processed in the
     * sorted order, and the log is sorted by start time.
     */
    method GenerateSchedule()
      requires Valid()
      modifies this`timelines, this`log, this`alerts
      ensures Valid()
      ensures Snapshot() == Plan(equipment, demandPlan, old(alerts), currentTime)
    {
      log := [];
      InitializeResourceSchedules();
      ResetAll(old(timelines), equipment);
      var sortedDemand := Ordered(demandPlan);
      OrderedMembers(demandPlan);
      assert Snapshot() == Fresh(equipment, old(alerts));
      ScheduleItems(sortedDemand);
      log := SortBy(log, StartKey);
      assert Snapshot() == Plan(equipment, demandPlan, old(alerts), currentTime);
      PlanIsSortedPass(equipment, demandPlan, old(alerts), currentTime);
    }

    /** The loop over the sorted demand, threading the packaging cursor from one item to the next. */
    method ScheduleItems(items: seq<DemandItem>)
      requires Ready() && forall d :: d in items ==> KnownSku(d.skuId)
      modifies this`timelines, this`log, this`alerts
      ensures Ready()
      ensures Snapshot() == Items(old(Snapshot()), Cursor(None, 0), equipment, items, currentTime)
    {
      ghost var start := Snapshot();
      ghost var eq, now := equipment, currentTime;
      var lastCursor := Cursor(None, 0);
      var k := 0;
      while k < |items|
        invariant 0 <= k <= |items|
        invariant Ready() && equipment == eq && currentTime == now
        invariant Items(Snapshot(), lastCursor, eq, items[k..], now) == Items(start, Cursor(None, 0), eq, items, now)
      {
        assert items[k..][1..] == items[k + 1..];
        lastCursor := ScheduleItem(items[k], lastCursor);
        k := k + 1;
      }
    }

    /**
     * Moves the clock by `hours`; every logged event that starts in the
     * elapsed window sets its unit to the task, every one that ends there
     * sets it to 'Available', in log order.
     */
    method AdvanceTime(hours: int)
      requires Valid()
      modifies this`equipment, this`currentTime
      ensures Valid()
      ensures currentTime == old(currentTime) + hours
      ensures equipment == Advance(old(equipment), log, old(currentTime), currentTime)
    {
      ghost var start := equipment;
      var previousTime := currentTime;
      currentTime := currentTime + hours;
      var i := 0;
      while i < |log|
        invariant 0 <= i <= |log|
        invariant previousTime == old(currentTime) && currentTime == old(currentTime) + hours
        invariant equipment == Advance(start, log[..i], previousTime, currentTime)
      {
        AdvanceStep(start, log, i, previousTime, currentTime);
        ApplyStatusChange(log[i], previousTime);
        i := i + 1;
      }
      assert log[..|log|] == log;
      AdvanceKeeps(start, log, previousTime, currentTime);
    }

    /** One pass of the status loop: the unit of `event` takes the status the window from `previousTime` to now gives it. */
    method ApplyStatusChange(event: Event, previousTime: int)
      modifies this`equipment
      ensures equipment == ApplyEvent(old(equipment), event, previousTime, currentTime)
    {
      var resource := FindResource(event.resource);
      if resource.Some? {
        var status := At(equipment, resource.value).status;
        if event.startTime >= previousTime && event.startTime < currentTime {
          status := TaskName(event.task);
        }
        if event.endTime >= previousTime && event.endTime < currentTime {
          status := "Available";
        }
        equipment := WithStatus(equipment, resource.value, status);
      }
    }

    /** The demand form: adds to the SKU's first entry, or appends a new one. */
    method AddDemand(skuId: int, quantity: int)
      requires Valid() && KnownSku(skuId)
      modifies this`demandPlan
      ensures Valid()
      ensures demandPlan == Merge(old(demandPlan), skuId, quantity)
    {
      var existingEntry := FirstIndex(demandPlan, ForSku(skuId));
      if existingEntry.Some? {
        var d := demandPlan[existingEntry.value];
        demandPlan := demandPlan[existingEntry.value := d.(quantity := d.quantity + quantity)];
      } else {
        demandPlan := demandPlan + [DemandItem(skuId, quantity, 0)];
      }
      forall d | d in demandPlan ensures KnownSku(d.skuId) {
        var j :| 0 <= j < |demandPlan| && demandPlan[j] == d;
        if j < |old(demandPlan)| {
          assert old(demandPlan)[j].skuId == d.skuId;
        }
      }
    }

    /** The capacity form: a non-positive value is refused with an error; otherwise the unit found by id takes it. */
    method UpdateCapacity(tankId: ResourceId, newCapacity: int)
      requires Valid()
      modifies this`equipment, this`alerts
      ensures Valid()
      ensures newCapacity <= 0 ==> equipment == old(equipment) && alerts == old(alerts) + [Alert(currentTime, Error, InvalidCapacity)]
      ensures newCapacity > 0 && Locate(old(equipment), tankId).None? ==> equipment == old(equipment) && alerts == old(alerts)
      ensures newCapacity > 0 && Locate(old(equipment), tankId).Some? ==>
        var loc := Locate(old(equipment), tankId).value;
        && equipment == WithCapacity(old(equipment), loc, newCapacity)
        && alerts == old(alerts) + [Alert(currentTime, Info, CapacityUpdated(At(old(equipment), loc).name, newCapacity))]
    {
      if newCapacity <= 0 {
        PostAlert(Error, InvalidCapacity);
        return;
      }
      var tank := FindResource(tankId);
      if tank.Some? {
        var name := At(equipment, tank.value).name;
        WithCapacityWellFormed(equipment, tank.value, newCapacity);
        equipment := WithCapacity(equipment, tank.value, newCapacity);
        PostAlert(Info, CapacityUpdated(name, newCapacity));
      }
    }

    /** Removes, one by one, every event that starts at or after the clock (`filter`, then `indexOf` and `splice`). */
    method DropFutureEvents()
      modifies this`log
      ensures log == Filter(old(log), IsPast(currentTime))
    {
      var futureEvents := Filter(log, IsFuture(currentTime));
      var j := 0;
      while j < |futureEvents|
        invariant 0 <= j <= |futureEvents|
        invariant Filter(log, IsPast(currentTime)) == Filter(old(log), IsPast(currentTime))
        invariant Filter(log, IsFuture(currentTime)) == futureEvents[j..]
      {
        IndexOfFirstFuture(log, currentTime);
        FirstIndexIsFirst(log, IsFuture(currentTime));
        var index := FirstIndex(log, Equals(futureEvents[j]));
        if index.Some? {
          DropFirstFuture(log, currentTime, index.value);
          log := log[..index.value] + log[index.value + 1..];
        }
        j := j + 1;
      }
      FilterEmpty(log, IsFuture(currentTime));
      FilterKeepsAll(log, IsPast(currentTime));
    }

    /** Appends every logged event to its unit's timeline, in log order. */
    method RebuildTimelines()
      requires forall i :: 0 <= i < |log| ==> log[i].resource in timelines
      modifies this`timelines
      ensures timelines == Replay(old(timelines), log)
      ensures timelines.Keys == old(timelines).Keys
    {
      var i := 0;
      while i < |log|
        invariant 0 <= i <= |log|
        invariant timelines == Replay(old(timelines), log[..i])
        invariant timelines.Keys == old(timelines).Keys
      {
        assert log[..i + 1][..i] == log[..i];
        var e := log[i];
        timelines := timelines[e.resource := timelines[e.resource] + [Entry(e.startTime, e.endTime, e.task)]];
        i := i + 1;
      }
      assert log[..|log|] == log;
    }

    /** The unit at `loc` goes into maintenance, a 24-hour maintenance booking starts now, and a warning is posted. */
    method TakeOutOfService(loc: Location)
      requires Ready() && ValidLocation(equipment, loc)
      requires forall i :: 0 <= i < |log| ==> log[i].resource in Ids(equipment)
      modifies this`equipment, this`timelines, this`log, this`alerts
      ensures Ready()
      ensures forall i :: 0 <= i < |log| ==> log[i].resource in Ids(equipment)
      ensures equipment == WithStatus(old(equipment), loc, "Maintenance")
      ensures var id := At(old(equipment), loc).id;
        && timelines == old(timelines)[id := old(timelines)[id] + [Entry(currentTime, currentTime + 24, Maintenance)]]
        && log == old(log) + [Event(currentTime, currentTime + 24, Maintenance, id, NotApplicable)]
      ensures alerts == old(alerts) + [Alert(currentTime, Warning, UnderMaintenance(At(old(equipment), loc).name))]
    {
      var resourceId := At(equipment, loc).id;
      var name := At(equipment, loc).name;
      GroupIdsMember(Group(equipment, loc.kind), loc.index);
      WithStatusKeeps(equipment, loc, "Maintenance");
      equipment := WithStatus(equipment, loc, "Maintenance");
      BookMaintenance(resourceId, name);
    }

    /** A 24-hour maintenance booking on unit `id` from now, and a warning naming it. */
    method BookMaintenance(id: ResourceId, name: string)
      requires Ready() && id in Ids(equipment)
      requires forall i :: 0 <= i < |log| ==> log[i].resource in Ids(equipment)
      modifies this`timelines, this`log, this`alerts
      ensures Ready()
      ensures forall i :: 0 <= i < |log| ==> log[i].resource in Ids(equipment)
      ensures timelines == old(timelines)[id := old(timelines)[id] + [Entry(currentTime, currentTime + 24, Maintenance)]]
      ensures log == old(log) + [Event(currentTime, currentTime + 24, Maintenance, id, NotApplicable)]
      ensures alerts == old(alerts) + [Alert(currentTime, Warning, UnderMaintenance(name))]
    {
      var maintenanceStart := currentTime;
      ScheduleEvent(id, maintenanceStart, maintenanceStart + 24, Maintenance, NotApplicable);
      PostAlert(Warning, UnderMaintenance(name));
      BookAppends(old(Snapshot()), id, maintenanceStart, maintenanceStart + 24, Maintenance, NotApplicable);
    }

    /**
     * Drops every event that starts at or after the clock, gives every unit an
     * empty timeline and replays the remaining log onto the timelines.
     */
    method ClearFutureEvents()
      requires Ready() && forall i :: 0 <= i < |log| ==> log[i].resource in Ids(equipment)
      modifies this`timelines, this`log
      ensures Ready() && forall i :: 0 <= i < |log| ==> log[i].resource in Ids(equipment)
      ensures log == Filter(old(log), IsPast(currentTime))
      ensures timelines == Replay(EmptyTimelines(equipment), log)
      ensures forall id :: id in timelines ==> timelines[id] == EntriesOn(log, id)
    {
      DropFutureEvents();
      FilterSubset(old(log), IsPast(currentTime));
      assert forall i :: 0 <= i < |log| ==> log[i].resource in Ids(equipment) by {
        forall i | 0 <= i < |log| ensures log[i].resource in Ids(equipment) {
          assert log[i] in old(log);
        }
      }
      InitializeResourceSchedules();
      ResetAll(old(timelines), equipment);
      RebuildTimelines();
      RebuildMirrors(equipment, log);
    }

    /** Pushes the saved demand items back, one by one, onto the emptied demand plan. */
    method RestoreDemand(saved: seq<DemandItem>)
      requires demandPlan == []
      modifies this`demandPlan
      ensures demandPlan == saved
    {
      var j := 0;
      while j < |saved|
        invariant 0 <= j <= |saved|
        invariant demandPlan == saved[..j]
      {
        demandPlan := demandPlan + [saved[j]];
        j := j + 1;
      }
      assert saved[..|saved|] == saved;
    }

    /**
     * The breakdown scenario: the unit goes into maintenance, a maintenance
     * booking and a warning are posted, future events are dropped, the
     * timelines rebuilt and the schedule regenerated. The regeneration wipes
     * the log again, so the outcome is a fresh plan under the new statuses,
     * with the demand plan as it was.
     */
    method SimulateBreakdown(resourceId: ResourceId)
      requires Valid()
      modifies this`equipment, this`timelines, this`log, this`alerts, this`demandPlan
      ensures Valid()
      ensures demandPlan == old(demandPlan)
      ensures Locate(old(equipment), resourceId).None? ==>
        equipment == old(equipment) && Snapshot() == old(Snapshot())
      ensures Locate(old(equipment), resourceId).Some? ==>
        var loc := Locate(old(equipment), resourceId).value;
        var warning := Alert(currentTime, Warning, UnderMaintenance(At(old(equipment), loc).name));
        && equipment == WithStatus(old(equipment), loc, "Maintenance")
        && Snapshot() == Plan(equipment, demandPlan, old(alerts) + [warning], currentTime)
    {
      var resource := FindResource(resourceId);
      if resource.None? {
        return;
      }
      TakeOutOfService(resource.value);
      Replan();
    }

    /**
     * The second half of the breakdown scenario: with the demand plan set
     * aside, future events are dropped and the timelines rebuilt; the demand
     * is then put back and the schedule regenerated.
     */
    method Replan()
      requires Valid()
      modifies this`timelines, this`log, this`alerts, this`demandPlan
      ensures Valid()
      ensures demandPlan == old(demandPlan)
      ensures Snapshot() == Plan(equipment, demandPlan, old(alerts), currentTime)
    {
      var currentDemand := demandPlan;
      demandPlan := [];
      ClearFutureEvents();
      RestoreDemand(currentDemand);
      GenerateSchedule();
    }
  }
}
