# Brewery production scheduler: a Dafny model

This project models the scheduling and resource-allocation engine of a
browser-based brewery production simulator (`script.js`). The model covers
these parts of the engine:

- **Timeline store.** Each unit of equipment (brewhouses, fermentation tanks,
  bright-beer tanks, filters, packaging lines) has a timeline of booked
  intervals. A flat event log records every booking.
- **Slot finder.** `findNextAvailableSlot` starts at a floor and jumps to the
  end of the first conflicting interval until nothing conflicts.
- **Scheduling pass.** `generateSchedule` clears the log and the timelines and
  stable-sorts the demand by packaging family. For each item it sizes the
  batches on the first idle fermentation tank. It walks each batch through
  brewing, fermentation, filtering, conditioning and packaging, and books the
  cleaning (CIP) jobs:
  - the brewhouse, after brewing;
  - the filter and the fermentation tank, both from the filter end;
  - the line, after packaging;
  - the bright-beer tank, from the conditioning end, booked after packaging.

  At the end it sorts the log by start time.
- **Simulation clock.** `advanceTime` rewrites unit statuses from the log
  events that start or end in the elapsed window. The last write wins.
- **Breakdown scenario.** `simulateBreakdown` puts a unit into maintenance,
  books the maintenance, drops future events, rebuilds the timelines and
  re-plans.
- **Forms and analytics.** The demand-merge form, the capacity form and the
  bottleneck selection rule.

Time is an integer number of hours. The master data is a set of constants:
the product catalogue, the process profiles, the cleaning times and the
initial registry of 2 brewhouses, 40 fermentation tanks, 5 bright-beer tanks,
1 filter and 3 lines.

The model has two layers:

- **Planning** (module `Planning`) gives the scheduling pass as pure
  functions over a `Ledger`, which holds the timelines, the log and the
  alerts. These are `Book`, the stage functions, `Batch`, `Batches`, `Item`,
  `Items`, `Pass` and `Plan`.
- **Simulator** (class `Simulation.Simulator`) holds the mutable state the
  source keeps in closures: the registry, the timelines, the log, the demand
  plan, the clock and the alerts. Its methods mirror the source's functions
  and loops. Each is proved to leave the state, or return the value, that a
  function of the old state specifies. The scheduling methods are tied to the
  functions of `Planning` and the slot search to `SlotFinder.Slot`. The clock
  is tied to `Clock.Advance` and `Clock.ApplyEvent`, `FindResource` to
  `Domain.Locate`, `AddDemand` to `Demand.Merge` and `UpdateCapacity` to
  `Domain.WithCapacity`. `DropFutureEvents` is tied to `Search.Filter` and
  `RebuildTimelines` to `Planning.Replay`.

Properties are proved about those functions:

- The slot search returns the least conflict-free start.
- The plan is a sorted permutation of the pass's bookings, on registered
  units only. After a pass every unit's timeline holds exactly the logged
  entries on that unit, in booking order. After the final sort they agree as
  multisets, and so does the breakdown's rebuild of the timelines.
- With a fermentation tank registered, the batch loop runs all of an item's
  batches: it books exactly ceil(quantity / capacity) brews.
- The clock's last write wins.
- The demand merge adds the quantity to its product's total.

The modules follow the program's structure:

| module | file |
|---|---|
| `Wrappers` | `wrappers.dfy` |
| `Search` (the `find` and `filter` queries) | `search.dfy` |
| `StableSort` | `stable_sort.dfy` |
| `Domain` (entities and registry) | `domain.dfy` |
| `MasterData` | `master_data.dfy` |
| `SlotFinder` | `slot_finder.dfy` |
| `Planning` | `planning.dfy` |
| `Demand` | `demand.dfy` |
| `Clock` | `clock.dfy` |
| `Analytics` | `analytics.dfy` |
| `Simulation` | `simulation.dfy` |
| `Scenarios` (worked examples on the master data) | `scenarios.dfy` |

The model reproduces these behaviours of the code as written:

- **The first tank always wins.** The tank searches at script.js:245-247 and
  265-267 test the slot finder's answer against -1. That answer is never -1,
  so the first fermentation tank and the first bright-beer tank in registry
  order are always chosen (`Planning.FirstFeasibleIsFirst`,
  `Planning.BrightNeverFails`). Once a fermentation tank is registered, a
  batch therefore never halts its item. Once a bright-beer tank is registered
  too, and the process durations are non-negative, a batch posts no alert
  (`Planning.BatchNeverHalts`).
- **A missing bright-beer tank does not stop the item.** It posts an error,
  and the batch loop goes on with the next batch (script.js:293-296). The
  alert's own text says "Production for this item halted." (script.js:294),
  but nothing breaks the loop there; the model follows what the code does.
- **Changeover is zero-length.** The changeover duration is looked up under
  the cleaning times, where it is absent. The slot search's proposed end is
  then NaN (the start plus an undefined duration), so its conflict test never
  holds and it returns its floor. A line switch therefore
  books a zero-length Changeover, and packaging starts at the previous
  line's release time, even if that is before the batch's conditioning has
  ended.
- **Packaging has a fixed length.** It always lasts 8 hours, and its slot
  search has duration 0.
- **Cleaning is not slot-checked.** CIP bookings are never checked against
  the timeline. So no global no-overlap invariant holds, and none is claimed.
- **The demand sort follows `localeCompare`.** The family names sort Bottle <
  Can < Keg, so bottles are scheduled first, then cans, then kegs.
- **The bottleneck is always 'N/A'.** The bottleneck analysis reads an
  `endTime` field that timeline entries do not have, so every average it
  computes is NaN. `Analytics.SelectBottleneck` models that case as a missing
  average.
- **A breakdown acts only through the status.** The regeneration inside the
  breakdown wipes the log again, including the maintenance booking. A
  breakdown therefore changes the next plan only through the unit's status.
  That status matters only when the unit is a fermentation tank, whose
  status the idle-tank check reads.

## Model

| member | source | states |
|---|---|---|
| Search.FirstIndexIsFirst | script.js:175-177 | the `find` scan returns the first position whose element satisfies the predicate, and returns nothing exactly when no element does |
| Search.FirstIndexCongruent | script.js:364-365 | two scans return the same position when their predicates agree position by position |
| Search.FilterEmpty | script.js:485 | `filter` returns nothing exactly when no element passes |
| StableSort.SortBySortsAndPermutes | script.js:309 | the sort returns a permutation of its input that is sorted by the key |
| StableSort.SortByStable | script.js:207-211 | the sort is stable: for every key, elements with that key keep their input order |
| StableSort.SortByMembers | script.js:207 | sorting keeps exactly the elements of its input |
| Domain.KindRank | script.js:363 | each registry group has a position in the group order `for ... in` visits |
| Domain.LocateIsFirst | script.js:362-368 | `findResource` fails exactly when no unit carries the id; otherwise it returns the first unit with the id in the first group that has one |
| Domain.LocateFromIsFirst | script.js:363-366 | the group-by-group search from a given group finds the first unit with the id there, and fails exactly when no later group holds it |
| Domain.LocateLayout | script.js:362-368 | changing statuses or capacities never changes where `findResource` finds a unit |
| Domain.Replace | script.js:349 | the unit at the location becomes the given unit; the status and capacity updates are replacements of one unit |
| Domain.ReplaceOthers | script.js:349 | a replacement keeps every group's length and every other unit |
| Domain.ReplaceLayout | script.js:539-541 | replacing a unit by one with the same id, name and line type keeps where every unit is |
| Domain.WithStatusKeeps | script.js:473 | a status change keeps the registry well formed and keeps its set of ids |
| Domain.WithCapacityWellFormed | script.js:539-541 | a positive capacity keeps the registry well formed and keeps its ids |
| Domain.AllResourcesIds | script.js:157-163 | the spread of all groups holds exactly the ids of the registry |
| MasterData.SkuFor | script.js:217 | the catalogue lookup of a known product id returns the entry with that id, which has a process profile |
| MasterData.KnownSkus | script.js:4-56 | the three products of the catalogue all have process profiles |
| MasterData.InitialEquipmentWellFormed | script.js:9-33 | the initial registry has a brewhouse and a filter, and every fermentation tank has a positive capacity |
| SlotFinder.EndingAfterDrops | script.js:174-186 | each jump to a conflicting entry's end strictly lowers the number of entries ending after the candidate, so the search terminates |
| SlotFinder.SlotIsLeastFree | script.js:170-188 | the search returns a start at or after the floor at which no entry conflicts, and every earlier start from the floor conflicts |
| SlotFinder.SlotUnique | script.js:170-188 | any start with those three properties is the one the search returns |
| SlotFinder.SlotIdempotent | script.js:175-187 | searching again from the returned start returns it unchanged |
| SlotFinder.SlotMonotone | script.js:170-188 | a later floor never yields an earlier start |
| Planning.BookAppends | script.js:190-199 | a booking appends exactly one entry to the unit's timeline and one event to the log, and leaves the alerts alone |
| Planning.BookLeavesOthers | script.js:190-199 | a booking leaves every other unit's timeline unchanged |
| Planning.RegisteredReordered | script.js:309 | reordering the log keeps every event on a registered unit |
| Planning.EntriesOnPermutation | script.js:309 | reordering the log keeps the multiset of entries on every unit |
| Planning.ReplayEntries | script.js:493 | replaying a log whose events are on known units keeps the keys and appends to each unit exactly the entries of its events, in log order |
| Planning.TrackedMirrors | script.js:190-199 | when the timelines are the log replayed, every unit's timeline is exactly the logged entries on it, in booking order |
| Planning.MirrorsReordered | script.js:309 | once the timelines mirror the log, they agree with any reordering of it unit by unit, as multisets |
| Planning.BookTracked | script.js:190-199 | a booking on a registered unit, other than maintenance, keeps the timelines equal to the log replayed |
| Planning.BatchCountCovers | script.js:228 | the batch count n is `Math.ceil(quantity / capacity)`: (n - 1) * capacity < quantity <= n * capacity |
| Planning.FirstFeasibleIsFirst | script.js:245-247 | because the slot finder never answers -1, the tank search picks the first tank in registry order whenever there is one |
| Planning.BrewBooks | script.js:235-242 | brewing starts at the earliest free brewhouse slot at or after the floor and the brewhouse CIP follows at once |
| Planning.FermentBooks | script.js:250-252 | fermentation lasts the minimum days times 24 from the earliest free tank slot at or after the brew end |
| Planning.FilterBooks | script.js:255-262 | filtering starts at the earliest free filter slot after fermentation; the filter CIP and the fermentation tank CIP both start at the filter end |
| Planning.ConditionBooks | script.js:269-271 | conditioning starts at the earliest free bright-beer tank slot at or after the filter end |
| Planning.PackageBooks | script.js:274-289 | packaging lasts 8 hours and CIP follows; on a line switch packaging starts at the previous release time after a zero-length changeover, otherwise at the first free instant after conditioning; the cursor moves to this line |
| Planning.BrightNeverFails | script.js:265-268 | with a bright-beer tank registered and a non-negative filter end, the first bright-beer tank takes the batch and no error is posted |
| Planning.InBrightTankAlerts | script.js:268-292 | conditioning, packaging and the bright-beer tank's CIP post no alert |
| Planning.BatchNeverHalts | script.js:245-300 | with a fermentation tank registered, no batch halts its item and the next brew floor is at least the floor plus the brewing time; with a bright-beer tank too and non-negative durations, the batch posts no alert |
| Planning.ItemOutcome | script.js:222-229 | without an idle fermentation tank the item posts one error and books nothing; otherwise the batch count is the ceiling over the first idle tank's capacity |
| Planning.BatchTracked | script.js:231-300 | a batch books only registered units and no maintenance, and keeps the timelines equal to the log replayed |
| Planning.BatchesTracked | script.js:231-301 | the batch loop books only registered units and keeps the timelines equal to the log replayed |
| Planning.BatchBrews | script.js:231-300 | every batch books exactly one brew, whether or not it then finds a fermentation tank |
| Planning.BatchesRunAll | script.js:229-301 | with a fermentation tank registered, the batch loop from batch i of n books exactly n - i brews: no batch is skipped or cut off |
| Planning.ItemBrews | script.js:222-301 | an item of non-negative quantity books exactly ceil(quantity / capacity) brews, the capacity being the first idle fermentation tank's |
| Planning.ItemsTracked | script.js:216-302 | processing the demand items books only registered units and keeps the timelines equal to the log replayed |
| Planning.PassTracked | script.js:201-302 | a pass from a clean slate ends with exactly one timeline per unit and events on registered units only, and every unit's timeline is exactly the logged entries on it, in booking order |
| Planning.PlanIsSortedPass | script.js:201-309 | the plan's log is the pass's log sorted by start time, a permutation of it, with the pass's timelines and alerts; every unit's timeline holds the same entries as the sorted log has on that unit |
| Planning.OrderedMembers | script.js:207-211 | the sorted demand holds exactly the items of the demand plan |
| Demand.MergeQuantity | script.js:134-139 | a submission adds its quantity to its product's total and leaves every other product's total alone |
| Demand.MergeShape | script.js:134-139 | a submission changes only the quantity of the product's first entry, or appends a new entry with nothing fulfilled exactly when the product had none |
| Demand.MergeDistinct | script.js:134-139 | a plan built by the form never holds two entries for one product |
| Clock.NewStatus | script.js:347-354 | an event outside the window leaves a status alone; an end in the window gives 'Available'; a start alone gives the task name |
| Clock.ApplyEventStatusOnly | script.js:343-355 | one iteration of the status loop changes statuses only |
| Clock.AdvanceStatusOnly | script.js:338-355 | advancing the clock changes unit statuses and nothing else in the registry |
| Clock.AdvanceKeeps | script.js:338-355 | advancing the clock keeps the registry well formed and its ids |
| Clock.AdvanceLocate | script.js:343-345 | advancing the clock moves no unit: `findResource` finds the same place before and after |
| Clock.AdvanceAppend | script.js:343 | the status loop over two logs in a row is the loop over the first, then over the second |
| Clock.AdvanceUntouched | script.js:343-355 | a unit that no event of the window touches keeps its status |
| Clock.AdvanceLastWins | script.js:343-355 | the last event on a unit that touches the window decides its status: 'Available' if it ends in the window, its task otherwise |
| Clock.BrewingThenAvailable | script.js:338-355 | a single Brewing event [0, 8), after advancing by 1 and then by 10 hours, leaves its unit 'Available' |
| Analytics.SelectBottleneck | script.js:377-408 | an empty schedule gives 'N/A'; otherwise the first kind in the fixed order with the strictly largest average above 0 wins, and 'N/A' only when no average exceeds 0 |
| Simulation.ResetAll | script.js:156-167 | resetting every registered unit's timeline leaves exactly the empty store |
| Simulation.IndexOfFirstFuture | script.js:485-488 | `indexOf` of the first future event finds the first future event of the log |
| Simulation.DropFirstFuture | script.js:487-488 | splicing out the first future event keeps every past event and drops only the head of the future ones |
| Simulation.Simulator.constructor | script.js:150-153 | the simulator starts at hour 0 with one empty timeline per unit, an empty log, no demand and no alerts |
| Simulation.Simulator.InitializeResourceSchedules | script.js:156-167 | every registered unit gets an empty timeline; other keys are kept |
| Simulation.Simulator.FindNextAvailableSlot | script.js:170-188 | the loop returns the slot search's answer, the least conflict-free start at or after the floor |
| Simulation.Simulator.ScheduleEvent | script.js:190-199 | the state becomes the booking of the old state: one entry on the unit's timeline and one event in the log |
| Simulation.Simulator.PostAlert | script.js:506-511 | one alert stamped with the clock is appended |
| Simulation.Simulator.FirstFeasibleTank | script.js:245-247 | the loop returns the first tank whose slot search does not answer -1 |
| Simulation.Simulator.FindResource | script.js:362-368 | the loop over the groups returns the location that `Locate` specifies |
| Simulation.Simulator.ScheduleBrewing | script.js:235-242 | the state and brew end are those of `Brew` on the old state |
| Simulation.Simulator.ScheduleFermentation | script.js:250-252 | the state and fermentation end are those of `Ferment` on the old state |
| Simulation.Simulator.ScheduleFiltering | script.js:255-262 | the state and filter end are those of `FilterStage` on the old state |
| Simulation.Simulator.ScheduleConditioning | script.js:269-271 | the state and conditioning end are those of `Condition` on the old state |
| Simulation.Simulator.SchedulePackaging | script.js:276-289 | the state and the packaging cursor are those of `Package` on the old state |
| Simulation.Simulator.ScheduleOnLine | script.js:274-290 | the first line of the product's family packages the batch; with no such line nothing changes |
| Simulation.Simulator.ScheduleInBrightTank | script.js:268-292 | conditioning, packaging and the bright-beer tank CIP, as `InBrightTank` specifies |
| Simulation.Simulator.ScheduleFromTank | script.js:249-295 | fermentation, filtering and the bright-beer stages, as `FromTank` specifies |
| Simulation.Simulator.ScheduleInFirstBrightTank | script.js:264-295 | the first bright-beer tank takes the batch; without one an error is posted and nothing more is booked |
| Simulation.Simulator.ScheduleBatch | script.js:231-300 | one iteration of the batch loop computes `Batch`, and the rest of the loop continues from its outcome |
| Simulation.Simulator.ScheduleInFirstFermentationTank | script.js:244-300 | the first fermentation tank takes the batch; without one an error is posted and the item halts |
| Simulation.Simulator.ScheduleItem | script.js:216-230 | one demand item computes `Item`: the error alert without an idle tank, the batch loop otherwise |
| Simulation.Simulator.ScheduleBatches | script.js:229-301 | the batch loop computes `Batches`, stopping at the first halting batch |
| Simulation.Simulator.ScheduleItems | script.js:216-302 | the loop over the sorted demand computes `Items`, threading the packaging cursor |
| Simulation.Simulator.GenerateSchedule | script.js:201-309 | the new state is `Plan` of the registry, the demand and the old alerts, whatever the old timelines and log held; the demand plan is not modified |
| Simulation.Simulator.AdvanceTime | script.js:338-360 | the clock moves by exactly `hours`, and the registry becomes `Advance` of the old registry over the log and the window |
| Simulation.Simulator.ApplyStatusChange | script.js:344-354 | one event's status update, as `ApplyEvent` specifies |
| Simulation.Simulator.AddDemand | script.js:129-142 | the demand plan becomes `Merge` of the old plan |
| Simulation.Simulator.UpdateCapacity | script.js:530-545 | a non-positive capacity posts an error and changes nothing else; an unknown id changes nothing; otherwise the unit found takes the capacity and an info alert is posted |
| Simulation.Simulator.DropFutureEvents | script.js:485-489 | the log becomes the events that start before the clock, in their order |
| Simulation.Simulator.RebuildTimelines | script.js:493 | every logged event is appended, in log order, to its unit's timeline |
| Simulation.Simulator.TakeOutOfService | script.js:473-479 | the unit's status becomes 'Maintenance', a 24-hour maintenance booking starts now, and a warning names the unit |
| Simulation.Simulator.BookMaintenance | script.js:475-479 | exactly one 24-hour maintenance booking from now and one warning are added |
| Simulation.RebuildMirrors | script.js:491-493 | replaying a log of registered units onto empty timelines gives each unit exactly the entries of its events, in log order |
| Simulation.Simulator.ClearFutureEvents | script.js:484-493 | the log keeps only past events, and the timelines are rebuilt from it on an empty store, so each unit's timeline is exactly the entries of the remaining events on it |
| Simulation.Simulator.RestoreDemand | script.js:496 | the saved demand items are pushed back in their order |
| Simulation.Simulator.Replan | script.js:481-497 | the demand plan is unchanged and the state is a fresh `Plan` under the current registry |
| Simulation.Simulator.SimulateBreakdown | script.js:468-500 | an unknown id changes nothing; otherwise the unit is in 'Maintenance', the demand plan holds the same items in the same order, and the state is a fresh plan under the new statuses with the warning kept |
| Scenarios.EmptySlot | script.js:170-188 | on an empty timeline the slot search returns its floor |
| Scenarios.FirstIdleTank | script.js:222 | on the initial registry the capacity lookup takes FT1, of 400 litres |
| Scenarios.IpaBatch | script.js:231-300 | one IPA batch on a fresh registry books its ten records and does not halt |
| Scenarios.IpaItem | script.js:216-301 | 400 litres of IPA make one batch, with the bookings of `IpaBatch` |
| Scenarios.SingleIpaBatch | script.js:201-302 | one IPA item of 400 litres books, in order, Brewing [0,8) and CIP [8,10) on BH1, Fermentation [8,344) in FT1, Filtering [344,350) and CIP on F1, CIP of FT1, Conditioning [350,355) in BBT1, Packaging [355,363) and CIP on PL1, and CIP of BBT1, with no alert |
| Scenarios.DemandOrder | script.js:207-211 | demand entered as IPA (cans), Stout (kegs), Lager (bottles) is processed Lager, IPA, Stout |

## Left out

- Rendering and form plumbing are not modelled: the DOM, the tables, the selects, the event listeners, `formatTime` and `toFixed`.
- The KPI percentages are not modelled. They are floating-point divisions of durations, and they read fields that timeline entries do not have.
- `postAlert` inserts a DOM element. The model only appends (time, severity, message) to a list, and a message is a datatype value rather than the rendered text.
- The product column of an event is a datatype value, a batch label (product name, batch index, batch count) or "not applicable". The source builds the string "<name> (Batch <i>/<n>)" or 'N/A' (script.js:232).
- `localeCompare` on the family names is replaced by its fixed outcome on the three names, Bottle < Can < Keg.
- `parseInt` of the form fields and NaN inputs are not modelled. The demand form's product id is an integer of the catalogue, and quantities are integers.
- AddDemand: requires a product id of the catalogue. The form's select offers only those, and the scheduler's unguarded catalogue lookup needs one.
- The changeover slot search is not modelled as a search. It compares against an undefined duration, which always makes it return its floor, so the model uses the floor directly.
- Simulation.Simulator.RebuildTimelines: pushes `(start, end, task)` entries. The source pushes the log's event objects, whose start and end fields have other names. The next scheduling pass resets every timeline anyway, so no plan depends on this.
- Simulation.Simulator.DropFutureEvents: `indexOf` is modelled by value equality of events, not object identity. Equal events are interchangeable in the log.
- Scenarios.SingleIpaBatch: states the booking order of the pass, not the concrete time-sorted log of the plan. The sorted log is stated only through Planning.PlanIsSortedPass.
- The master data is a set of constants. The object construction of the registry (`Array.from`) is written as sequence comprehensions.
- Analytics.SelectBottleneck: takes each kind's average as an input rather than computing it from the timelines. The source's averages are always NaN (see above), and computing them involves floating-point division.
