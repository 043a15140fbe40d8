/**
 * The pipeline scheduler as a function of its inputs: how one scheduling pass
 * turns the demand plan and the registry into timelines, a flat event log and
 * alerts. The imperative scheduler in module Simulation is proved to compute
 * exactly this.
 */
module Planning {
  import opened Wrappers
  import opened Search
  import opened StableSort
  import opened Domain
  import opened SlotFinder
  import opened MasterData

  /** What a scheduling pass writes: the per-resource timelines, the flat log and the alerts. */
  datatype Ledger = Ledger(timelines: map<ResourceId, seq<Entry>>, log: seq<Event>, alerts: seq<Alert>)

  /** The packaging cursors kept across demand items: the last line used and when it became free. */
  datatype Cursor = Cursor(lastLine: Option<ResourceId>, lastPackEnd: int)

  /** A timeline store with one empty timeline per registered unit (`initializeResourceSchedules`). */
  function EmptyTimelines(eq: Equipment): map<ResourceId, seq<Entry>>
  {
    EmptyFor(Ids(eq))
  }

  /** An empty timeline for each id of `ids`. */
  function EmptyFor(ids: set<ResourceId>): map<ResourceId, seq<Entry>>
  {
    map id | id in ids :: []
  }

  /** Resetting one more id extends the reset by that id. */
  lemma EmptyForAdd(m: map<ResourceId, seq<Entry>>, ids: set<ResourceId>, id: ResourceId)
    ensures m + EmptyFor(ids + {id}) == (m + EmptyFor(ids))[id := []]
  {
  }

  function TimelineOf(l: Ledger, id: ResourceId): seq<Entry>
  {
    if id in l.timelines then l.timelines[id] else []
  }

  /** `scheduleEvent` on a ledger: the resource's timeline and the flat log each get one record at the end. */
  function Book(l: Ledger, id: ResourceId, start: int, end: int, task: Task, product: Label): Ledger
  {
    Ledger(l.timelines[id := TimelineOf(l, id) + [Entry(start, end, task)]],
           l.log + [Event(start, end, task, id, product)],
           l.alerts)
  }

  /**
   * A booking appends one event to the log and one entry to the resource's
   * timeline, creating the timeline if it did not exist, and nothing else.
   */
  lemma BookAppends(l: Ledger, id: ResourceId, start: int, end: int, task: Task, product: Label)
    ensures Book(l, id, start, end, task, product).log == l.log + [Event(start, end, task, id, product)]
    ensures TimelineOf(Book(l, id, start, end, task, product), id) == TimelineOf(l, id) + [Entry(start, end, task)]
    ensures Book(l, id, start, end, task, product).timelines.Keys == l.timelines.Keys + {id}
    ensures Book(l, id, start, end, task, product).alerts == l.alerts
  {
  }

  /** Booking on one resource leaves every other timeline as it was. */
  lemma BookLeavesOthers(l: Ledger, id: ResourceId, start: int, end: int, task: Task, product: Label, other: ResourceId)
    requires other != id
    ensures TimelineOf(Book(l, id, start, end, task, product), other) == TimelineOf(l, other)
  {
  }

  /** `postAlert`, reduced to appending the alert stamped with the clock. */
  function Post(l: Ledger, now: int, severity: Severity, message: Message): (r: Ledger)
    ensures r.timelines == l.timelines && r.log == l.log
    ensures r.alerts == l.alerts + [Alert(now, severity, message)]
  {
    l.(alerts := l.alerts + [Alert(now, severity, message)])
  }

  /** The entries of the events on unit `id`, in log order: what replaying the log onto an empty timeline gives. */
  function EntriesOn(log: seq<Event>, id: ResourceId): seq<Entry>
  {
    if |log| == 0 then []
    else
      var e := log[|log| - 1];
      EntriesOn(log[..|log| - 1], id) + (if e.resource == id then [Entry(e.startTime, e.endTime, e.task)] else [])
  }

  lemma {:induction false} EntriesOnAppend(a: seq<Event>, b: seq<Event>, id: ResourceId)
    ensures EntriesOn(a + b, id) == EntriesOn(a, id) + EntriesOn(b, id)
    decreases |b|
  {
    if |b| == 0 {
      assert a + b == a;
    } else {
      assert (a + b)[..|a + b| - 1] == a + b[..|b| - 1];
      EntriesOnAppend(a, b[..|b| - 1], id);
    }
  }

  /** The entries on a unit depend only on which events the log holds, up to their order. */
  lemma {:induction false} EntriesOnPermutation(a: seq<Event>, b: seq<Event>, id: ResourceId)
    requires multiset(a) == multiset(b)
    ensures multiset(EntriesOn(a, id)) == multiset(EntriesOn(b, id))
    decreases |a|
  {
    if |a| == 0 {
      assert |b| == |multiset(b)| == 0;
    } else {
      var x := a[|a| - 1];
      assert x in multiset(b);
      var j :| 0 <= j < |b| && b[j] == x;
      var b' := b[..j] + b[j + 1..];
      RemoveAt(a, |a| - 1);
      RemoveAt(b, j);
      EntriesOnPermutation(a[..|a| - 1], b', id);
      EntriesOnRemoveAt(a, |a| - 1, id);
      EntriesOnRemoveAt(b, j, id);
    }
  }

  /** Taking out the event at `j` takes its one occurrence out of the multiset. */
  lemma RemoveAt(s: seq<Event>, j: nat)
    requires j < |s|
    ensures multiset(s[..j] + s[j + 1..]) == multiset(s) - multiset{s[j]}
  {
    assert s == s[..j] + [s[j]] + s[j + 1..];
  }

  /** Taking out the event at `j` takes its entry, if it is on `id`, out of the entries on `id`. */
  lemma EntriesOnRemoveAt(s: seq<Event>, j: nat, id: ResourceId)
    requires j < |s|
    ensures multiset(EntriesOn(s, id)) == multiset(EntriesOn(s[..j] + s[j + 1..], id)) + multiset(EntriesOn([s[j]], id))
  {
    assert s == s[..j] + [s[j]] + s[j + 1..];
    EntriesOnAppend(s[..j], [s[j]], id);
    EntriesOnAppend(s[..j] + [s[j]], s[j + 1..], id);
    EntriesOnAppend(s[..j], s[j + 1..], id);
  }

  /** Every logged event appended, in log order, to the timeline of its resource. */
  function Replay(timelines: map<ResourceId, seq<Entry>>, log: seq<Event>): map<ResourceId, seq<Entry>>
  {
    if |log| == 0 then timelines
    else
      var m := Replay(timelines, log[..|log| - 1]);
      var e := log[|log| - 1];
      m[e.resource := (if e.resource in m then m[e.resource] else []) + [Entry(e.startTime, e.endTime, e.task)]]
  }

  /**
   * Replaying a log whose events are all on known units keeps the keys and
   * appends to each unit exactly the entries of its events, in log order.
   */
  lemma {:induction false} ReplayEntries(m: map<ResourceId, seq<Entry>>, log: seq<Event>)
    requires forall i :: 0 <= i < |log| ==> log[i].resource in m
    ensures Replay(m, log).Keys == m.Keys
    ensures forall id :: id in m ==> Replay(m, log)[id] == m[id] + EntriesOn(log, id)
    ensures forall id :: id !in m ==> EntriesOn(log, id) == []
    decreases |log|
  {
    if |log| > 0 {
      ReplayEntries(m, log[..|log| - 1]);
    }
  }

  /** The timelines are exactly those of the units in `ids`, and every logged event is on one of them and is not a maintenance booking. */
  ghost predicate Registered(l: Ledger, ids: set<ResourceId>)
  {
    && l.timelines.Keys == ids
    && forall i :: 0 <= i < |l.log| ==> l.log[i].resource in ids && l.log[i].task != Maintenance
  }

  /** What a scheduling pass keeps: bookings on registered units only, and the timelines are the log replayed onto empty ones. */
  ghost predicate Tracked(l: Ledger, ids: set<ResourceId>)
  {
    Registered(l, ids) && l.timelines == Replay(EmptyFor(ids), l.log)
  }

  /** Under `Tracked`, every timeline holds exactly the logged entries on its unit, in booking order. */
  lemma TrackedMirrors(l: Ledger, ids: set<ResourceId>)
    requires Tracked(l, ids)
    ensures forall id :: TimelineOf(l, id) == EntriesOn(l.log, id)
  {
    ReplayEntries(EmptyFor(ids), l.log);
  }

  /** Reordering the log keeps every event on a registered unit. */
  lemma RegisteredReordered(l: Ledger, log: seq<Event>, ids: set<ResourceId>)
    requires Registered(l, ids) && multiset(log) == multiset(l.log)
    ensures Registered(l.(log := log), ids)
  {
    forall i | 0 <= i < |log| ensures log[i].resource in ids && log[i].task != Maintenance {
      assert log[i] in multiset(l.log);
      var j :| 0 <= j < |l.log| && l.log[j] == log[i];
    }
  }

  /** Reordering the log keeps each unit's timeline and the log's entries on it equal as multisets. */
  lemma MirrorsReordered(l: Ledger, log: seq<Event>)
    requires (forall id :: TimelineOf(l, id) == EntriesOn(l.log, id)) && multiset(log) == multiset(l.log)
    ensures forall id :: multiset(TimelineOf(l, id)) == multiset(EntriesOn(log, id))
  {
    forall id ensures multiset(TimelineOf(l, id)) == multiset(EntriesOn(log, id)) {
      EntriesOnPermutation(l.log, log, id);
    }
  }

  lemma BookTracked(l: Ledger, ids: set<ResourceId>, id: ResourceId, start: int, end: int, task: Task, product: Label)
    requires Tracked(l, ids) && id in ids && task != Maintenance
    ensures Tracked(Book(l, id, start, end, task, product), ids)
  {
    assert Book(l, id, start, end, task, product).log[..|l.log|] == l.log;
  }

  /** `start` is the least start at or after `floor` at which `duration` fits on `timeline`. */
  ghost predicate EarliestFree(timeline: seq<Entry>, start: int, floor: int, duration: int)
  {
    && start >= floor
    && Free(timeline, start, duration)
    && forall t :: floor <= t < start ==> !Free(timeline, t, duration)
  }

  lemma SlotIsEarliestFree(timeline: seq<Entry>, duration: int, floor: int)
    ensures EarliestFree(timeline, Slot(timeline, duration, floor), floor, duration)
  {
    SlotIsLeastFree(timeline, duration, floor);
  }

  /** `Math.ceil(quantity / capacity)`: the least number of batches whose total capacity covers the quantity. */
  function BatchCount(quantity: int, capacity: int): int
    requires capacity > 0
  {
    -((-quantity) / capacity)
  }

  lemma BatchCountCovers(quantity: int, capacity: int)
    requires capacity > 0
    ensures var n := BatchCount(quantity, capacity);
      (n - 1) * capacity < quantity <= n * capacity
  {
    var q := (-quantity) / capacity;
    assert -quantity == q * capacity + (-quantity) % capacity;
  }

  /** The comparator key of the demand sort: the product's family in `localeCompare` order. */
  function DemandKey(d: DemandItem): int
  {
    match FirstIndex(Skus, HasSkuId(d.skuId))
    case Some(i) => FamilyRank(Skus[i].packType)
    case None => 0
  }

  /** The comparator key of the log sort at the end of the pass. */
  function StartKey(e: Event): int
  {
    e.startTime
  }

  /** The tank test of the capacity lookup: status 'Empty' or 'Available'. */
  function IsIdle(): Resource -> bool
  {
    (t: Resource) => t.status == "Empty" || t.status == "Available"
  }

  /** The line test: the line packages the product's family. */
  function ForFamily(t: PackType): Resource -> bool
  {
    (line: Resource) => line.lineType == Some(t)
  }

  /** The tank test of the fermentation and bright-beer searches: the tank's slot search does not answer -1. */
  function Feasible(l: Ledger, duration: int, floor: int): Resource -> bool
  {
    (t: Resource) => Slot(TimelineOf(l, t.id), duration, floor) != -1
  }

  /** The first tank, in registry order, that passes the tank test. */
  function FirstFeasible(tanks: seq<Resource>, l: Ledger, duration: int, floor: int): Option<nat>
  {
    FirstIndex(tanks, Feasible(l, duration, floor))
  }

  /** Because the slot finder never fails, the search always picks the first tank in registry order. */
  lemma FirstFeasibleIsFirst(tanks: seq<Resource>, l: Ledger, duration: int, floor: int)
    requires floor >= 0
    ensures FirstFeasible(tanks, l, duration, floor) == if |tanks| == 0 then None else Some(0)
  {
    if |tanks| > 0 {
      SlotIsLeastFree(TimelineOf(l, tanks[0].id), duration, floor);
      assert Feasible(l, duration, floor)(tanks[0]);
      FirstIndexUnique(tanks, Feasible(l, duration, floor), 0);
    }
  }

  /** Stage 1: brewing at the earliest free start on the brewhouse, then the brewhouse CIP. Returns the brew end. */
  function Brew(l: Ledger, bh: ResourceId, vars: ProcessVars, product: Label, floor: int): (Ledger, int)
  {
    var start := Slot(TimelineOf(l, bh), vars.brewingTime, floor);
    var end := start + vars.brewingTime;
    (Book(Book(l, bh, start, end, Brewing, product), bh, end, end + CipTime.brewhouse, CIP, NotApplicable), end)
  }

  /** Brewing takes the earliest free slot at or after the floor; the brewhouse CIP follows it at once. */
  lemma BrewBooks(l: Ledger, bh: ResourceId, vars: ProcessVars, product: Label, floor: int)
    ensures var r := Brew(l, bh, vars, product, floor);
      && EarliestFree(TimelineOf(l, bh), r.1 - vars.brewingTime, floor, vars.brewingTime)
      && r.0 == Book(Book(l, bh, r.1 - vars.brewingTime, r.1, Brewing, product),
                     bh, r.1, r.1 + CipTime.brewhouse, CIP, NotApplicable)
  {
    SlotIsEarliestFree(TimelineOf(l, bh), vars.brewingTime, floor);
  }

  /** Stage 2: fermentation for the minimum number of days, at the earliest free start after brewing. */
  function Ferment(l: Ledger, tank: ResourceId, vars: ProcessVars, product: Label, brewEnd: int): (Ledger, int)
  {
    var duration := vars.minFermentationDays * 24;
    var start := Slot(TimelineOf(l, tank), duration, brewEnd);
    (Book(l, tank, start, start + duration, Fermentation, product), start + duration)
  }

  /** Fermentation takes the earliest free slot of the tank at or after the brew end. */
  lemma FermentBooks(l: Ledger, tank: ResourceId, vars: ProcessVars, product: Label, brewEnd: int)
    ensures var r := Ferment(l, tank, vars, product, brewEnd);
      && EarliestFree(TimelineOf(l, tank), r.1 - vars.minFermentationDays * 24, brewEnd, vars.minFermentationDays * 24)
      && r.0 == Book(l, tank, r.1 - vars.minFermentationDays * 24, r.1, Fermentation, product)
  {
    SlotIsEarliestFree(TimelineOf(l, tank), vars.minFermentationDays * 24, brewEnd);
  }

  /**
   * Stage 3: filtering at the earliest free start after fermentation, then the
   * filter CIP and the fermentation tank CIP, both from the filter end.
   */
  function FilterStage(l: Ledger, filter: ResourceId, tank: ResourceId, vars: ProcessVars, product: Label, fermEnd: int): (Ledger, int)
  {
    var start := Slot(TimelineOf(l, filter), vars.filteringTime, fermEnd);
    var end := start + vars.filteringTime;
    var l1 := Book(Book(l, filter, start, end, Filtering, product), filter, end, end + CipTime.filter, CIP, NotApplicable);
    (Book(l1, tank, end, end + CipTime.tank, CIP, NotApplicable), end)
  }

  /** Filtering takes the earliest free slot of the filter at or after the fermentation end; both CIPs start at the filter end. */
  lemma FilterBooks(l: Ledger, filter: ResourceId, tank: ResourceId, vars: ProcessVars, product: Label, fermEnd: int)
    ensures var r := FilterStage(l, filter, tank, vars, product, fermEnd);
      && EarliestFree(TimelineOf(l, filter), r.1 - vars.filteringTime, fermEnd, vars.filteringTime)
      && r.0 == Book(Book(Book(l, filter, r.1 - vars.filteringTime, r.1, Filtering, product),
                          filter, r.1, r.1 + CipTime.filter, CIP, NotApplicable),
                     tank, r.1, r.1 + CipTime.tank, CIP, NotApplicable)
  {
    SlotIsEarliestFree(TimelineOf(l, filter), vars.filteringTime, fermEnd);
  }

  /** Stage 4: conditioning in the bright-beer tank at the earliest free start after filtering. */
  function Condition(l: Ledger, bbt: ResourceId, vars: ProcessVars, product: Label, filterEnd: int): (Ledger, int)
  {
    var start := Slot(TimelineOf(l, bbt), vars.conditioningTime, filterEnd);
    (Book(l, bbt, start, start + vars.conditioningTime, Conditioning, product), start + vars.conditioningTime)
  }

  /** Conditioning takes the earliest free slot of the bright-beer tank at or after the filter end. */
  lemma ConditionBooks(l: Ledger, bbt: ResourceId, vars: ProcessVars, product: Label, filterEnd: int)
    ensures var r := Condition(l, bbt, vars, product, filterEnd);
      && EarliestFree(TimelineOf(l, bbt), r.1 - vars.conditioningTime, filterEnd, vars.conditioningTime)
      && r.0 == Book(l, bbt, r.1 - vars.conditioningTime, r.1, Conditioning, product)
  {
    SlotIsEarliestFree(TimelineOf(l, bbt), vars.conditioningTime, filterEnd);
  }

  /** The source's `lastLine && lastLine !== line.id`: a line was used before (a non-empty id) and it was another one. */
  predicate Switches(c: Cursor, line: ResourceId)
  {
    c.lastLine.Some? && c.lastLine.value != "" && c.lastLine.value != line
  }

  /**
   * Stage 5: packaging for the fixed duration, then the line CIP. On a line
   * switch the changeover is zero-length and packaging starts at the previous
   * line's release time, whatever the conditioning end; otherwise it starts at
   * the first start after conditioning that lies inside no booked interval.
   */
  function Package(l: Ledger, c: Cursor, line: ResourceId, product: Label, condEnd: int): (Ledger, Cursor)
  {
    var first := Slot(TimelineOf(l, line), 0, condEnd);
    var l1 := if Switches(c, line) then Book(l, line, c.lastPackEnd, c.lastPackEnd, Changeover, NotApplicable) else l;
    var start := if Switches(c, line) then c.lastPackEnd else first;
    var end := start + PackagingTime;
    var l2 := Book(Book(l1, line, start, end, Packaging, product), line, end, end + CipTime.line, CIP, NotApplicable);
    (l2, Cursor(Some(line), end + CipTime.line))
  }

  /**
   * Packaging lasts the fixed duration and the line CIP follows it; the cursor
   * moves to this line and its release time. On a switch packaging starts at
   * the previous release time, otherwise at the first instant at or after the
   * conditioning end that no booked interval covers.
   */
  lemma PackageBooks(l: Ledger, c: Cursor, line: ResourceId, product: Label, condEnd: int)
    ensures var r := Package(l, c, line, product, condEnd);
      var start := r.1.lastPackEnd - CipTime.line - PackagingTime;
      && r.1.lastLine == Some(line)
      && (Switches(c, line) ==> start == c.lastPackEnd)
      && (!Switches(c, line) ==> EarliestFree(TimelineOf(l, line), start, condEnd, 0))
      && r.0 == Book(Book(if Switches(c, line) then Book(l, line, c.lastPackEnd, c.lastPackEnd, Changeover, NotApplicable) else l,
                          line, start, start + PackagingTime, Packaging, product),
                     line, start + PackagingTime, r.1.lastPackEnd, CIP, NotApplicable)
  {
    SlotIsEarliestFree(TimelineOf(l, line), 0, condEnd);
  }

  /** Stage 5 on the first line of the product's family; with no such line nothing is packaged. */
  function PackageOnLine(l: Ledger, c: Cursor, eq: Equipment, family: PackType, product: Label, condEnd: int): (r: (Ledger, Cursor))
  {
    match FirstIndex(eq.packagingLines, ForFamily(family))
    case None => (l, c)
    case Some(p) =>
      GroupIdsMember(eq.packagingLines, p);
      Package(l, c, eq.packagingLines[p].id, product, condEnd)
  }

  /** Stages 4 and 5 in the chosen bright-beer tank, then the tank's CIP from the conditioning end. */
  function InBrightTank(l: Ledger, c: Cursor, eq: Equipment, family: PackType, vars: ProcessVars, product: Label,
                        bbt: ResourceId, filterEnd: int): (r: (Ledger, Cursor))
  {
    var conditioned := Condition(l, bbt, vars, product, filterEnd);
    var packaged := PackageOnLine(conditioned.0, c, eq, family, product, conditioned.1);
    (Book(packaged.0, bbt, conditioned.1, conditioned.1 + CipTime.tank, CIP, NotApplicable), packaged.1)
  }

  /**
   * Stages 2 to 5 once a fermentation tank is chosen. Without a bright-beer
   * tank an error is posted, and the item goes on with its next batch.
   */
  function FromTank(l: Ledger, c: Cursor, eq: Equipment, family: PackType, vars: ProcessVars, product: Label,
                    tank: ResourceId, brewEnd: int, now: int): (r: (Ledger, Cursor))
    requires WellFormed(eq)
  {
    GroupIdsMember(eq.filters, 0);
    var fermented := Ferment(l, tank, vars, product, brewEnd);
    var filtered := FilterStage(fermented.0, eq.filters[0].id, tank, vars, product, fermented.1);
    ToBrightTank(filtered.0, c, eq, family, vars, product, filtered.1, now)
  }

  /** The bright-beer tank choice after filtering: without a feasible tank an error is posted and nothing more is booked. */
  function ToBrightTank(l: Ledger, c: Cursor, eq: Equipment, family: PackType, vars: ProcessVars, product: Label,
                        filterEnd: int, now: int): (Ledger, Cursor)
  {
    match FirstFeasible(eq.brightBeerTanks, l, vars.conditioningTime, filterEnd)
    case None => (Post(l, now, Error, NoBrightTankForBatch(product)), c)
    case Some(b) =>
      GroupIdsMember(eq.brightBeerTanks, b);
      InBrightTank(l, c, eq, family, vars, product, eq.brightBeerTanks[b].id, filterEnd)
  }

  /** The result of one batch: the ledger and cursor after it, whether the item halts, and the brew end. */
  datatype BatchOutcome = BatchOutcome(ledger: Ledger, cursor: Cursor, halted: bool, brewEnd: int)

  /** One iteration of the batch loop: batch `i` of `n` of product `sku`, brewing no earlier than `floor`. */
  function Batch(l: Ledger, c: Cursor, eq: Equipment, sku: Sku, vars: ProcessVars, i: int, n: int, floor: int, now: int): (o: BatchOutcome)
    requires WellFormed(eq)
  {
    var product := BatchOf(sku.name, i + 1, n);
    GroupIdsMember(eq.brewhouses, 0);
    var brewed := Brew(l, eq.brewhouses[0].id, vars, product, floor);
    ToFermentationTank(brewed.0, c, eq, sku.packType, vars, product, brewed.1, floor, now)
  }

  /** The fermentation tank choice after brewing: without a feasible tank an error is posted and the item halts. */
  function ToFermentationTank(l: Ledger, c: Cursor, eq: Equipment, family: PackType, vars: ProcessVars, product: Label,
                              brewEnd: int, floor: int, now: int): BatchOutcome
    requires WellFormed(eq)
  {
    match FirstFeasible(eq.fermentationTanks, l, vars.minFermentationDays * 24, brewEnd)
    case None => BatchOutcome(Post(l, now, Error, NoTankForBatch(product)), c, true, floor)
    case Some(t) =>
      GroupIdsMember(eq.fermentationTanks, t);
      var rest := FromTank(l, c, eq, family, vars, product, eq.fermentationTanks[t].id, brewEnd, now);
      BatchOutcome(rest.0, rest.1, false, brewEnd)
  }

  /** A booking followed at once by a CIP on the same unit keeps a ledger tracked. */
  lemma BookCleanTracked(l: Ledger, ids: set<ResourceId>, id: ResourceId, start: int, end: int, cipEnd: int, task: Task, product: Label)
    requires Tracked(l, ids) && id in ids && task != Maintenance
    ensures Tracked(Book(Book(l, id, start, end, task, product), id, end, cipEnd, CIP, NotApplicable), ids)
  {
    BookTracked(l, ids, id, start, end, task, product);
    BookTracked(Book(l, id, start, end, task, product), ids, id, end, cipEnd, CIP, NotApplicable);
  }

  lemma BrewTracked(l: Ledger, ids: set<ResourceId>, bh: ResourceId, vars: ProcessVars, product: Label, floor: int)
    requires Tracked(l, ids) && bh in ids
    ensures Tracked(Brew(l, bh, vars, product, floor).0, ids)
  {
    var start := Slot(TimelineOf(l, bh), vars.brewingTime, floor);
    BookCleanTracked(l, ids, bh, start, start + vars.brewingTime, start + vars.brewingTime + CipTime.brewhouse, Brewing, product);
  }

  lemma FilterTracked(l: Ledger, ids: set<ResourceId>, filter: ResourceId, tank: ResourceId, vars: ProcessVars, product: Label, fermEnd: int)
    requires Tracked(l, ids) && filter in ids && tank in ids
    ensures Tracked(FilterStage(l, filter, tank, vars, product, fermEnd).0, ids)
  {
    var start := Slot(TimelineOf(l, filter), vars.filteringTime, fermEnd);
    FilterBookingsTracked(l, ids, filter, tank, start, start + vars.filteringTime, product);
  }

  /** The filter's booking and CIP, then the fermentation tank's CIP, keep a ledger tracked. */
  lemma FilterBookingsTracked(l: Ledger, ids: set<ResourceId>, filter: ResourceId, tank: ResourceId, start: int, end: int, product: Label)
    requires Tracked(l, ids) && filter in ids && tank in ids
    ensures Tracked(Book(Book(Book(l, filter, start, end, Filtering, product), filter, end, end + CipTime.filter, CIP, NotApplicable),
                         tank, end, end + CipTime.tank, CIP, NotApplicable), ids)
  {
    BookCleanTracked(l, ids, filter, start, end, end + CipTime.filter, Filtering, product);
    var l2 := Book(Book(l, filter, start, end, Filtering, product), filter, end, end + CipTime.filter, CIP, NotApplicable);
    BookTracked(l2, ids, tank, end, end + CipTime.tank, CIP, NotApplicable);
  }

  lemma PackageTracked(l: Ledger, c: Cursor, eq: Equipment, family: PackType, product: Label, condEnd: int)
    requires Tracked(l, Ids(eq))
    ensures Tracked(PackageOnLine(l, c, eq, family, product, condEnd).0, Ids(eq))
  {
    match FirstIndex(eq.packagingLines, ForFamily(family))
    case None =>
    case Some(p) =>
      GroupIdsMember(eq.packagingLines, p);
      var line := eq.packagingLines[p].id;
      PackageBooks(l, c, line, product, condEnd);
      var (_, c1) := Package(l, c, line, product, condEnd);
      var start := c1.lastPackEnd - CipTime.line - PackagingTime;
      var l1 := if Switches(c, line) then Book(l, line, c.lastPackEnd, c.lastPackEnd, Changeover, NotApplicable) else l;
      if Switches(c, line) {
        BookTracked(l, Ids(eq), line, c.lastPackEnd, c.lastPackEnd, Changeover, NotApplicable);
      }
      BookCleanTracked(l1, Ids(eq), line, start, start + PackagingTime, c1.lastPackEnd, Packaging, product);
  }

  lemma InBrightTankTracked(l: Ledger, c: Cursor, eq: Equipment, family: PackType, vars: ProcessVars, product: Label,
                            bbt: ResourceId, filterEnd: int)
    requires Tracked(l, Ids(eq)) && bbt in Ids(eq)
    ensures Tracked(InBrightTank(l, c, eq, family, vars, product, bbt, filterEnd).0, Ids(eq))
  {
    ConditionBooks(l, bbt, vars, product, filterEnd);
    var (l1, condEnd) := Condition(l, bbt, vars, product, filterEnd);
    BookTracked(l, Ids(eq), bbt, condEnd - vars.conditioningTime, condEnd, Conditioning, product);
    PackageTracked(l1, c, eq, family, product, condEnd);
    var (l2, _) := PackageOnLine(l1, c, eq, family, product, condEnd);
    BookTracked(l2, Ids(eq), bbt, condEnd, condEnd + CipTime.tank, CIP, NotApplicable);
  }

  lemma ToBrightTankTracked(l: Ledger, c: Cursor, eq: Equipment, family: PackType, vars: ProcessVars, product: Label,
                            filterEnd: int, now: int)
    requires Tracked(l, Ids(eq))
    ensures Tracked(ToBrightTank(l, c, eq, family, vars, product, filterEnd, now).0, Ids(eq))
  {
    match FirstFeasible(eq.brightBeerTanks, l, vars.conditioningTime, filterEnd)
    case None =>
    case Some(b) =>
      GroupIdsMember(eq.brightBeerTanks, b);
      InBrightTankTracked(l, c, eq, family, vars, product, eq.brightBeerTanks[b].id, filterEnd);
  }

  lemma FromTankTracked(l: Ledger, c: Cursor, eq: Equipment, family: PackType, vars: ProcessVars, product: Label,
                        tank: ResourceId, brewEnd: int, now: int)
    requires WellFormed(eq) && Tracked(l, Ids(eq)) && tank in Ids(eq)
    ensures Tracked(FromTank(l, c, eq, family, vars, product, tank, brewEnd, now).0, Ids(eq))
  {
    GroupIdsMember(eq.filters, 0);
    var duration := vars.minFermentationDays * 24;
    var start := Slot(TimelineOf(l, tank), duration, brewEnd);
    BookTracked(l, Ids(eq), tank, start, start + duration, Fermentation, product);
    var (l1, fermEnd) := Ferment(l, tank, vars, product, brewEnd);
    FilterTracked(l1, Ids(eq), eq.filters[0].id, tank, vars, product, fermEnd);
    var (l2, filterEnd) := FilterStage(l1, eq.filters[0].id, tank, vars, product, fermEnd);
    ToBrightTankTracked(l2, c, eq, family, vars, product, filterEnd, now);
  }

  lemma BatchTracked(l: Ledger, c: Cursor, eq: Equipment, sku: Sku, vars: ProcessVars, i: int, n: int, floor: int, now: int)
    requires WellFormed(eq)
    ensures Tracked(l, Ids(eq)) ==> Tracked(Batch(l, c, eq, sku, vars, i, n, floor, now).ledger, Ids(eq))
  {
    if Tracked(l, Ids(eq)) {
      var product := BatchOf(sku.name, i + 1, n);
      GroupIdsMember(eq.brewhouses, 0);
      var (l1, brewEnd) := Brew(l, eq.brewhouses[0].id, vars, product, floor);
      BrewTracked(l, Ids(eq), eq.brewhouses[0].id, vars, product, floor);
      match FirstFeasible(eq.fermentationTanks, l1, vars.minFermentationDays * 24, brewEnd)
      case None =>
      case Some(t) =>
        GroupIdsMember(eq.fermentationTanks, t);
        FromTankTracked(l1, c, eq, sku.packType, vars, product, eq.fermentationTanks[t].id, brewEnd, now);
    }
  }

  /** The batch loop from batch `i` on: stops early when a batch halts the item. */
  function Batches(l: Ledger, c: Cursor, eq: Equipment, sku: Sku, vars: ProcessVars, n: int, i: int, floor: int, now: int): (Ledger, Cursor)
    requires WellFormed(eq)
    decreases n - i
  {
    if i >= n then (l, c)
    else
      var o := Batch(l, c, eq, sku, vars, i, n, floor, now);
      if o.halted then (o.ledger, o.cursor)
      else Batches(o.ledger, o.cursor, eq, sku, vars, n, i + 1, o.brewEnd, now)
  }

  lemma {:induction false} BatchesTracked(l: Ledger, c: Cursor, eq: Equipment, sku: Sku, vars: ProcessVars, n: int, i: int, floor: int, now: int)
    requires WellFormed(eq) && Tracked(l, Ids(eq))
    ensures Tracked(Batches(l, c, eq, sku, vars, n, i, floor, now).0, Ids(eq))
    decreases n - i
  {
    if i < n {
      var o := Batch(l, c, eq, sku, vars, i, n, floor, now);
      BatchTracked(l, c, eq, sku, vars, i, n, floor, now);
      if !o.halted {
        BatchesTracked(o.ledger, o.cursor, eq, sku, vars, n, i + 1, o.brewEnd, now);
      }
    }
  }

  /** The number of bookings of `task` in a log. */
  function Bookings(log: seq<Event>, task: Task): nat
  {
    if |log| == 0 then 0
    else Bookings(log[..|log| - 1], task) + (if log[|log| - 1].task == task then 1 else 0)
  }

  lemma BookBookings(l: Ledger, id: ResourceId, start: int, end: int, task: Task, product: Label, counted: Task)
    ensures Bookings(Book(l, id, start, end, task, product).log, counted)
         == Bookings(l.log, counted) + (if task == counted then 1 else 0)
  {
    assert Book(l, id, start, end, task, product).log[..|l.log|] == l.log;
  }

  lemma PackageBrews(l: Ledger, c: Cursor, eq: Equipment, family: PackType, product: Label, condEnd: int)
    ensures Bookings(PackageOnLine(l, c, eq, family, product, condEnd).0.log, Brewing) == Bookings(l.log, Brewing)
  {
    match FirstIndex(eq.packagingLines, ForFamily(family))
    case None =>
    case Some(p) =>
      GroupIdsMember(eq.packagingLines, p);
      var line := eq.packagingLines[p].id;
      PackageBooks(l, c, line, product, condEnd);
      var (_, c1) := Package(l, c, line, product, condEnd);
      var start := c1.lastPackEnd - CipTime.line - PackagingTime;
      var l1 := if Switches(c, line) then Book(l, line, c.lastPackEnd, c.lastPackEnd, Changeover, NotApplicable) else l;
      if Switches(c, line) {
        BookBookings(l, line, c.lastPackEnd, c.lastPackEnd, Changeover, NotApplicable, Brewing);
      }
      BookBookings(l1, line, start, start + PackagingTime, Packaging, product, Brewing);
      var l2 := Book(l1, line, start, start + PackagingTime, Packaging, product);
      BookBookings(l2, line, start + PackagingTime, c1.lastPackEnd, CIP, NotApplicable, Brewing);
  }

  lemma InBrightTankBrews(l: Ledger, c: Cursor, eq: Equipment, family: PackType, vars: ProcessVars, product: Label,
                          bbt: ResourceId, filterEnd: int)
    ensures Bookings(InBrightTank(l, c, eq, family, vars, product, bbt, filterEnd).0.log, Brewing) == Bookings(l.log, Brewing)
  {
    var start := Slot(TimelineOf(l, bbt), vars.conditioningTime, filterEnd);
    BookBookings(l, bbt, start, start + vars.conditioningTime, Conditioning, product, Brewing);
    var (l1, condEnd) := Condition(l, bbt, vars, product, filterEnd);
    PackageBrews(l1, c, eq, family, product, condEnd);
    var (l2, _) := PackageOnLine(l1, c, eq, family, product, condEnd);
    BookBookings(l2, bbt, condEnd, condEnd + CipTime.tank, CIP, NotApplicable, Brewing);
  }

  lemma FilterBrews(l: Ledger, filter: ResourceId, tank: ResourceId, vars: ProcessVars, product: Label, fermEnd: int)
    ensures Bookings(FilterStage(l, filter, tank, vars, product, fermEnd).0.log, Brewing) == Bookings(l.log, Brewing)
  {
    var start := Slot(TimelineOf(l, filter), vars.filteringTime, fermEnd);
    var end := start + vars.filteringTime;
    var l1 := Book(l, filter, start, end, Filtering, product);
    BookBookings(l, filter, start, end, Filtering, product, Brewing);
    BookBookings(l1, filter, end, end + CipTime.filter, CIP, NotApplicable, Brewing);
    BookBookings(Book(l1, filter, end, end + CipTime.filter, CIP, NotApplicable), tank, end, end + CipTime.tank, CIP, NotApplicable, Brewing);
  }

  lemma ToBrightTankBrews(l: Ledger, c: Cursor, eq: Equipment, family: PackType, vars: ProcessVars, product: Label,
                          filterEnd: int, now: int)
    ensures Bookings(ToBrightTank(l, c, eq, family, vars, product, filterEnd, now).0.log, Brewing) == Bookings(l.log, Brewing)
  {
    match FirstFeasible(eq.brightBeerTanks, l, vars.conditioningTime, filterEnd)
    case None =>
    case Some(b) =>
      GroupIdsMember(eq.brightBeerTanks, b);
      InBrightTankBrews(l, c, eq, family, vars, product, eq.brightBeerTanks[b].id, filterEnd);
  }

  lemma FromTankBrews(l: Ledger, c: Cursor, eq: Equipment, family: PackType, vars: ProcessVars, product: Label,
                      tank: ResourceId, brewEnd: int, now: int)
    requires WellFormed(eq)
    ensures Bookings(FromTank(l, c, eq, family, vars, product, tank, brewEnd, now).0.log, Brewing) == Bookings(l.log, Brewing)
  {
    GroupIdsMember(eq.filters, 0);
    var duration := vars.minFermentationDays * 24;
    var start := Slot(TimelineOf(l, tank), duration, brewEnd);
    BookBookings(l, tank, start, start + duration, Fermentation, product, Brewing);
    var (l1, fermEnd) := Ferment(l, tank, vars, product, brewEnd);
    FilterBrews(l1, eq.filters[0].id, tank, vars, product, fermEnd);
    var (l2, filterEnd) := FilterStage(l1, eq.filters[0].id, tank, vars, product, fermEnd);
    ToBrightTankBrews(l2, c, eq, family, vars, product, filterEnd, now);
  }

  /** Every batch brews exactly once, whether or not it then finds a fermentation tank. */
  lemma BatchBrews(l: Ledger, c: Cursor, eq: Equipment, sku: Sku, vars: ProcessVars, i: int, n: int, floor: int, now: int)
    requires WellFormed(eq)
    ensures Bookings(Batch(l, c, eq, sku, vars, i, n, floor, now).ledger.log, Brewing) == Bookings(l.log, Brewing) + 1
  {
    var product := BatchOf(sku.name, i + 1, n);
    GroupIdsMember(eq.brewhouses, 0);
    var bh := eq.brewhouses[0].id;
    var start := Slot(TimelineOf(l, bh), vars.brewingTime, floor);
    var end := start + vars.brewingTime;
    BookBookings(l, bh, start, end, Brewing, product, Brewing);
    BookBookings(Book(l, bh, start, end, Brewing, product), bh, end, end + CipTime.brewhouse, CIP, NotApplicable, Brewing);
    var (l1, brewEnd) := Brew(l, bh, vars, product, floor);
    match FirstFeasible(eq.fermentationTanks, l1, vars.minFermentationDays * 24, brewEnd)
    case None =>
    case Some(t) =>
      GroupIdsMember(eq.fermentationTanks, t);
      FromTankBrews(l1, c, eq, sku.packType, vars, product, eq.fermentationTanks[t].id, brewEnd, now);
  }

  /**
   * With a fermentation tank registered the batch loop runs every one of its
   * batches: from batch `i` of `n` it books exactly n - i brews.
   */
  lemma {:induction false} BatchesRunAll(l: Ledger, c: Cursor, eq: Equipment, sku: Sku, vars: ProcessVars, n: int, i: int, floor: int, now: int)
    requires WellFormed(eq) && |eq.fermentationTanks| > 0 && floor >= 0 && vars.brewingTime >= 0 && i <= n
    ensures Bookings(Batches(l, c, eq, sku, vars, n, i, floor, now).0.log, Brewing) == Bookings(l.log, Brewing) + (n - i)
    decreases n - i
  {
    if i < n {
      var o := Batch(l, c, eq, sku, vars, i, n, floor, now);
      BatchNeverHalts(l, c, eq, sku, vars, i, n, floor, now);
      BatchBrews(l, c, eq, sku, vars, i, n, floor, now);
      BatchesRunAll(o.ledger, o.cursor, eq, sku, vars, n, i + 1, o.brewEnd, now);
    }
  }

  /**
   * One demand item: the first idle fermentation tank fixes the batch size;
   * without one, an error is posted and the item books nothing.
   */
  function Item(l: Ledger, c: Cursor, eq: Equipment, item: DemandItem, now: int): (Ledger, Cursor)
    requires WellFormed(eq) && KnownSku(item.skuId)
  {
    var sku := SkuFor(item.skuId);
    match FirstIndex(eq.fermentationTanks, IsIdle())
    case None => (Post(l, now, Error, NoTankForProduct(sku.name)), c)
    case Some(k) =>
      var n := BatchCount(item.quantity, eq.fermentationTanks[k].capacity);
      Batches(l, c, eq, sku, ProcessVariables[sku.id], n, 0, 0, now)
  }

  lemma ItemTracked(l: Ledger, c: Cursor, eq: Equipment, item: DemandItem, now: int)
    requires WellFormed(eq) && KnownSku(item.skuId) && Tracked(l, Ids(eq))
    ensures Tracked(Item(l, c, eq, item, now).0, Ids(eq))
  {
    var sku := SkuFor(item.skuId);
    match FirstIndex(eq.fermentationTanks, IsIdle())
    case None =>
    case Some(k) =>
      var n := BatchCount(item.quantity, eq.fermentationTanks[k].capacity);
      BatchesTracked(l, c, eq, sku, ProcessVariables[sku.id], n, 0, 0, now);
  }

  /**
   * Without an idle fermentation tank the item posts one error and books
   * nothing; otherwise the first idle tank's capacity fixes the number of
   * batches, ceil(quantity / capacity).
   */
  lemma ItemOutcome(l: Ledger, c: Cursor, eq: Equipment, item: DemandItem, now: int)
    requires WellFormed(eq) && KnownSku(item.skuId)
    ensures (forall j :: 0 <= j < |eq.fermentationTanks| ==> !IsIdle()(eq.fermentationTanks[j])) ==>
      Item(l, c, eq, item, now) == (l.(alerts := l.alerts + [Alert(now, Error, NoTankForProduct(SkuFor(item.skuId).name))]), c)
    ensures forall k: nat :: IsFirst(eq.fermentationTanks, IsIdle(), k) ==>
      Item(l, c, eq, item, now)
      == Batches(l, c, eq, SkuFor(item.skuId), ProcessVariables[item.skuId],
                 BatchCount(item.quantity, eq.fermentationTanks[k].capacity), 0, 0, now)
  {
    FirstIndexIsFirst(eq.fermentationTanks, IsIdle());
    forall k: nat | IsFirst(eq.fermentationTanks, IsIdle(), k)
      ensures Item(l, c, eq, item, now)
        == Batches(l, c, eq, SkuFor(item.skuId), ProcessVariables[item.skuId],
                   BatchCount(item.quantity, eq.fermentationTanks[k].capacity), 0, 0, now)
    {
      FirstIndexUnique(eq.fermentationTanks, IsIdle(), k);
    }
  }

  /**
   * An item of non-negative quantity whose batch size comes from the first
   * idle fermentation tank brews exactly ceil(quantity / capacity) batches.
   */
  lemma ItemBrews(l: Ledger, c: Cursor, eq: Equipment, item: DemandItem, now: int, k: nat)
    requires WellFormed(eq) && KnownSku(item.skuId) && item.quantity >= 0
    requires IsFirst(eq.fermentationTanks, IsIdle(), k)
    ensures Bookings(Item(l, c, eq, item, now).0.log, Brewing)
         == Bookings(l.log, Brewing) + BatchCount(item.quantity, eq.fermentationTanks[k].capacity)
  {
    FirstIndexUnique(eq.fermentationTanks, IsIdle(), k);
    var sku := SkuFor(item.skuId);
    var n := BatchCount(item.quantity, eq.fermentationTanks[k].capacity);
    assert ProcessVariables[sku.id].brewingTime >= 0;
    assert n >= 0;
    BatchesRunAll(l, c, eq, sku, ProcessVariables[sku.id], n, 0, 0, now);
  }

  /** With a bright-beer tank registered and a non-negative filter end, the first bright-beer tank takes the batch. */
  lemma BrightNeverFails(l: Ledger, c: Cursor, eq: Equipment, family: PackType, vars: ProcessVars, product: Label,
                         filterEnd: int, now: int)
    requires |eq.brightBeerTanks| > 0 && filterEnd >= 0
    ensures ToBrightTank(l, c, eq, family, vars, product, filterEnd, now)
         == InBrightTank(l, c, eq, family, vars, product, eq.brightBeerTanks[0].id, filterEnd)
  {
    FirstFeasibleIsFirst(eq.brightBeerTanks, l, vars.conditioningTime, filterEnd);
  }

  /** Conditioning, packaging and the bright-beer tank's CIP only book: they post no alert. */
  lemma InBrightTankAlerts(l: Ledger, c: Cursor, eq: Equipment, family: PackType, vars: ProcessVars, product: Label,
                           bbt: ResourceId, filterEnd: int)
    ensures InBrightTank(l, c, eq, family, vars, product, bbt, filterEnd).0.alerts == l.alerts
  {
    var (l1, condEnd) := Condition(l, bbt, vars, product, filterEnd);
    match FirstIndex(eq.packagingLines, ForFamily(family))
    case None =>
    case Some(p) =>
      GroupIdsMember(eq.packagingLines, p);
      PackageBooks(l1, c, eq.packagingLines[p].id, product, condEnd);
  }

  /**
   * With at least one fermentation tank a batch never halts its item: the
   * first tank is always chosen, and the brew ends no earlier than the floor
   * plus the brewing time. With a bright-beer tank registered as well, and
   * non-negative durations, the batch posts no alert either.
   */
  lemma BatchNeverHalts(l: Ledger, c: Cursor, eq: Equipment, sku: Sku, vars: ProcessVars, i: int, n: int, floor: int, now: int)
    requires WellFormed(eq) && |eq.fermentationTanks| > 0 && floor >= 0 && vars.brewingTime >= 0
    ensures var o := Batch(l, c, eq, sku, vars, i, n, floor, now);
      !o.halted && o.brewEnd >= floor + vars.brewingTime
    ensures |eq.brightBeerTanks| > 0 && vars.minFermentationDays >= 0 && vars.filteringTime >= 0 ==>
      Batch(l, c, eq, sku, vars, i, n, floor, now).ledger.alerts == l.alerts
  {
    var product := BatchOf(sku.name, i + 1, n);
    GroupIdsMember(eq.brewhouses, 0);
    var bh := eq.brewhouses[0].id;
    BrewBooks(l, bh, vars, product, floor);
    var (l1, brewEnd) := Brew(l, bh, vars, product, floor);
    FirstFeasibleIsFirst(eq.fermentationTanks, l1, vars.minFermentationDays * 24, brewEnd);
    if |eq.brightBeerTanks| > 0 && vars.minFermentationDays >= 0 && vars.filteringTime >= 0 {
      GroupIdsMember(eq.fermentationTanks, 0);
      GroupIdsMember(eq.filters, 0);
      var tank := eq.fermentationTanks[0].id;
      FermentBooks(l1, tank, vars, product, brewEnd);
      var (l2, fermEnd) := Ferment(l1, tank, vars, product, brewEnd);
      FilterBooks(l2, eq.filters[0].id, tank, vars, product, fermEnd);
      var (l3, filterEnd) := FilterStage(l2, eq.filters[0].id, tank, vars, product, fermEnd);
      assert filterEnd >= 0;
      BrightNeverFails(l3, c, eq, sku.packType, vars, product, filterEnd, now);
      InBrightTankAlerts(l3, c, eq, sku.packType, vars, product, eq.brightBeerTanks[0].id, filterEnd);
    }
  }

  /** The demand items in order, threading the ledger and the packaging cursor. */
  function Items(l: Ledger, c: Cursor, eq: Equipment, items: seq<DemandItem>, now: int): Ledger
    requires WellFormed(eq) && forall d :: d in items ==> KnownSku(d.skuId)
    decreases |items|
  {
    if |items| == 0 then l
    else
      var first := Item(l, c, eq, items[0], now);
      Items(first.0, first.1, eq, items[1..], now)
  }

  lemma {:induction false} ItemsTracked(l: Ledger, c: Cursor, eq: Equipment, items: seq<DemandItem>, now: int)
    requires WellFormed(eq) && (forall d :: d in items ==> KnownSku(d.skuId)) && Tracked(l, Ids(eq))
    ensures Tracked(Items(l, c, eq, items, now), Ids(eq))
    decreases |items|
  {
    if |items| > 0 {
      var first := Item(l, c, eq, items[0], now);
      ItemTracked(l, c, eq, items[0], now);
      ItemsTracked(first.0, first.1, eq, items[1..], now);
    }
  }

  /** The ledger a scheduling pass starts from: empty timelines, an empty log, the alerts so far. */
  function Fresh(eq: Equipment, alerts: seq<Alert>): Ledger
  {
    Ledger(EmptyTimelines(eq), [], alerts)
  }

  lemma FreshTracked(eq: Equipment, alerts: seq<Alert>)
    ensures Tracked(Fresh(eq, alerts), Ids(eq))
  {
  }

  /** The demand in processing order: stably sorted by packaging family. */
  function Ordered(demand: seq<DemandItem>): seq<DemandItem>
  {
    SortBy(demand, DemandKey)
  }

  lemma OrderedMembers(demand: seq<DemandItem>)
    ensures forall d :: d in Ordered(demand) <==> d in demand
  {
    SortByMembers(demand, DemandKey);
  }

  /** The bookings of a pass, in booking order, before the final sort. */
  function Pass(eq: Equipment, demand: seq<DemandItem>, alerts: seq<Alert>, now: int): Ledger
    requires WellFormed(eq) && forall d :: d in demand ==> KnownSku(d.skuId)
  {
    OrderedMembers(demand);
    Items(Fresh(eq, alerts), Cursor(None, 0), eq, Ordered(demand), now)
  }

  /** A pass books only registered units, and every timeline holds exactly the logged entries on its unit, in booking order. */
  lemma PassTracked(eq: Equipment, demand: seq<DemandItem>, alerts: seq<Alert>, now: int)
    requires WellFormed(eq) && forall d :: d in demand ==> KnownSku(d.skuId)
    ensures Tracked(Pass(eq, demand, alerts, now), Ids(eq))
    ensures var l := Pass(eq, demand, alerts, now);
      forall id :: TimelineOf(l, id) == EntriesOn(l.log, id)
  {
    OrderedMembers(demand);
    FreshTracked(eq, alerts);
    ItemsTracked(Fresh(eq, alerts), Cursor(None, 0), eq, Ordered(demand), now);
    TrackedMirrors(Pass(eq, demand, alerts, now), Ids(eq));
  }

  /**
   * `generateSchedule`: a pass over the sorted demand from a clean slate,
   * whose log is then sorted by start time. The result never depends on the
   * timelines or the log that were there before.
   */
  function Plan(eq: Equipment, demand: seq<DemandItem>, alerts: seq<Alert>, now: int): Ledger
    requires WellFormed(eq) && forall d :: d in demand ==> KnownSku(d.skuId)
  {
    var l := Pass(eq, demand, alerts, now);
    l.(log := SortBy(l.log, StartKey))
  }

  /**
   * The plan is the pass with its log sorted by start time: a permutation, on
   * registered units only. The pass's timelines mirror its log, so each
   * unit's timeline holds the same entries as the sorted log has on it.
   */
  lemma PlanIsSortedPass(eq: Equipment, demand: seq<DemandItem>, alerts: seq<Alert>, now: int)
    requires WellFormed(eq) && forall d :: d in demand ==> KnownSku(d.skuId)
    ensures var r, l := Plan(eq, demand, alerts, now), Pass(eq, demand, alerts, now);
      && Registered(r, Ids(eq))
      && SortedBy(r.log, StartKey)
      && multiset(r.log) == multiset(l.log)
      && r.timelines == l.timelines && r.alerts == l.alerts
      && forall id :: multiset(TimelineOf(r, id)) == multiset(EntriesOn(r.log, id))
  {
    var l := Pass(eq, demand, alerts, now);
    PassTracked(eq, demand, alerts, now);
    SortBySortsAndPermutes(l.log, StartKey);
    RegisteredReordered(l, SortBy(l.log, StartKey), Ids(eq));
    TrackedMirrors(l, Ids(eq));
    MirrorsReordered(l, SortBy(l.log, StartKey));
  }

  /* The next lemmas take a stage function apart into the steps its imperative counterpart performs. */

  /** One step of the batch loop: a halting batch ends it, any other hands on its ledger, cursor and brew end. */
  lemma BatchesStep(l: Ledger, c: Cursor, eq: Equipment, sku: Sku, vars: ProcessVars, n: int, i: int, floor: int, now: int)
    requires WellFormed(eq) && i < n
    ensures var o := Batch(l, c, eq, sku, vars, i, n, floor, now);
      Batches(l, c, eq, sku, vars, n, i, floor, now)
      == if o.halted then (o.ledger, o.cursor) else Batches(o.ledger, o.cursor, eq, sku, vars, n, i + 1, o.brewEnd, now)
  {
  }

  lemma InBrightTankSteps(l: Ledger, c: Cursor, eq: Equipment, family: PackType, vars: ProcessVars, product: Label,
                          bbt: ResourceId, filterEnd: int, l1: Ledger, condEnd: int, l2: Ledger, c2: Cursor)
    requires (l1, condEnd) == Condition(l, bbt, vars, product, filterEnd)
    requires (l2, c2) == PackageOnLine(l1, c, eq, family, product, condEnd)
    ensures InBrightTank(l, c, eq, family, vars, product, bbt, filterEnd)
         == (Book(l2, bbt, condEnd, condEnd + CipTime.tank, CIP, NotApplicable), c2)
  {
  }
}
