/**
 * The data model of the brewery scheduling engine: products, process
 * profiles, the equipment registry, timeline entries, log events and alerts.
 */
module Domain {
  import opened Wrappers
  import opened Search

  type ResourceId = string

  /** The packaging family of a product, which also names the line that packages it. */
  datatype PackType = Can | Keg | Bottle

  /** Position of the family name in `localeCompare` order: "Bottle" < "Can" < "Keg". */
  function FamilyRank(t: PackType): int
  {
    match t
    case Bottle => 0
    case Can => 1
    case Keg => 2
  }

  datatype Sku = Sku(id: int, name: string, brand: string, flavor: string, packType: PackType)

  /** A product's process profile, in hours except the fermentation minimum, in days. */
  datatype ProcessVars = ProcessVars(
    brewingTime: int,
    minFermentationDays: int,
    conditioningTime: int,
    filteringTime: int,
    packagingRate: int)

  /** Cleaning (CIP) duration per resource kind, in hours. */
  datatype CipTimes = CipTimes(brewhouse: int, tank: int, filter: int, line: int)

  datatype Task = Brewing | Fermentation | Filtering | Conditioning | Packaging | CIP | Changeover | Maintenance

  /** The task's name as the source writes it into an event and into a resource status. */
  function TaskName(t: Task): string
  {
    match t
    case Brewing => "Brewing"
    case Fermentation => "Fermentation"
    case Filtering => "Filtering"
    case Conditioning => "Conditioning"
    case Packaging => "Packaging"
    case CIP => "CIP"
    case Changeover => "Changeover"
    case Maintenance => "Maintenance"
  }

  /** The product column of an event: "<name> (Batch <index>/<count>)" or "N/A". */
  datatype Label = BatchOf(product: string, index: int, count: int) | NotApplicable

  /** An interval booked on one resource's timeline. */
  datatype Entry = Entry(start: int, end: int, task: Task)

  /** An entry of the flat event log. */
  datatype Event = Event(startTime: int, endTime: int, task: Task, resource: ResourceId, product: Label)

  /** A demand line: product id, requested quantity, quantity fulfilled (never updated). */
  datatype DemandItem = DemandItem(skuId: int, quantity: int, fulfilled: int)

  datatype Severity = Info | Warning | Error

  datatype Message =
    | NoTankForProduct(productName: string)
    | NoTankForBatch(batch: Label)
    | NoBrightTankForBatch(batch: Label)
    | UnderMaintenance(resourceName: string)
    | InvalidCapacity
    | CapacityUpdated(tankName: string, capacity: int)

  /** A posted alert, stamped with the simulation clock at the time it was posted. */
  datatype Alert = Alert(time: int, severity: Severity, message: Message)

  /**
   * One unit of equipment. `capacity` is read only for tanks (the source gives
   * other units none; here they carry 0) and `lineType` is set only for
   * packaging lines.
   */
  datatype Resource = Resource(id: ResourceId, name: string, status: string, capacity: int, lineType: Option<PackType>)

  /** The registry's groups, in the order in which `for (const type in equipment)` visits them. */
  datatype Kind = Brewhouses | FermentationTanks | BrightBeerTanks | Filters | PackagingLines

  const Kinds: seq<Kind> := [Brewhouses, FermentationTanks, BrightBeerTanks, Filters, PackagingLines]

  function KindRank(k: Kind): (r: nat)
    ensures r < |Kinds| && Kinds[r] == k
  {
    match k
    case Brewhouses => 0
    case FermentationTanks => 1
    case BrightBeerTanks => 2
    case Filters => 3
    case PackagingLines => 4
  }

  datatype Equipment = Equipment(
    brewhouses: seq<Resource>,
    fermentationTanks: seq<Resource>,
    brightBeerTanks: seq<Resource>,
    filters: seq<Resource>,
    packagingLines: seq<Resource>)

  function Group(eq: Equipment, k: Kind): seq<Resource>
  {
    match k
    case Brewhouses => eq.brewhouses
    case FermentationTanks => eq.fermentationTanks
    case BrightBeerTanks => eq.brightBeerTanks
    case Filters => eq.filters
    case PackagingLines => eq.packagingLines
  }

  function WithGroup(eq: Equipment, k: Kind, g: seq<Resource>): (r: Equipment)
    ensures Group(r, k) == g
    ensures forall k' :: k' != k ==> Group(r, k') == Group(eq, k')
  {
    match k
    case Brewhouses => eq.(brewhouses := g)
    case FermentationTanks => eq.(fermentationTanks := g)
    case BrightBeerTanks => eq.(brightBeerTanks := g)
    case Filters => eq.(filters := g)
    case PackagingLines => eq.(packagingLines := g)
  }

  /** Every unit, group after group: the `allResources` spread and the for-in order. */
  function AllResources(eq: Equipment): seq<Resource>
  {
    eq.brewhouses + eq.fermentationTanks + eq.brightBeerTanks + eq.filters + eq.packagingLines
  }

  function GroupIds(g: seq<Resource>): set<ResourceId>
  {
    set j | 0 <= j < |g| :: g[j].id
  }

  /** The ids of all registered units: the keys of the timeline store. */
  function Ids(eq: Equipment): set<ResourceId>
  {
    GroupIds(eq.brewhouses) + GroupIds(eq.fermentationTanks) + GroupIds(eq.brightBeerTanks)
      + GroupIds(eq.filters) + GroupIds(eq.packagingLines)
  }

  lemma IdsByKind(eq: Equipment, id: ResourceId)
    ensures id in Ids(eq) <==> exists i :: 0 <= i < |Kinds| && id in GroupIds(Group(eq, Kinds[i]))
  {
    if id in Ids(eq) {
      if id in GroupIds(eq.brewhouses) { assert id in GroupIds(Group(eq, Kinds[0])); }
      else if id in GroupIds(eq.fermentationTanks) { assert id in GroupIds(Group(eq, Kinds[1])); }
      else if id in GroupIds(eq.brightBeerTanks) { assert id in GroupIds(Group(eq, Kinds[2])); }
      else if id in GroupIds(eq.filters) { assert id in GroupIds(Group(eq, Kinds[3])); }
      else { assert id in GroupIds(Group(eq, Kinds[4])); }
    }
  }

  lemma GroupIdsMember(g: seq<Resource>, j: nat)
    requires j < |g|
    ensures g[j].id in GroupIds(g)
  {
  }

  /**
   * What the source requires of its master data: code indexes the first
   * brewhouse and the first filter unguarded, and divides by the capacity of a
   * fermentation tank.
   */
  ghost predicate WellFormed(eq: Equipment)
  {
    && |eq.brewhouses| > 0
    && |eq.filters| > 0
    && forall j :: 0 <= j < |eq.fermentationTanks| ==> eq.fermentationTanks[j].capacity > 0
  }

  /** A position in the registry: a group and an index within it. */
  datatype Location = Location(kind: Kind, index: nat)

  ghost predicate ValidLocation(eq: Equipment, loc: Location)
  {
    loc.index < |Group(eq, loc.kind)|
  }

  function At(eq: Equipment, loc: Location): Resource
    requires loc.index < |Group(eq, loc.kind)|
  {
    Group(eq, loc.kind)[loc.index]
  }

  /** The registry with the unit at `loc` replaced by `u`. */
  function Replace(eq: Equipment, loc: Location, u: Resource): (r: Equipment)
    requires ValidLocation(eq, loc)
    ensures ValidLocation(r, loc) && At(r, loc) == u
  {
    var g := Group(eq, loc.kind);
    WithGroup(eq, loc.kind, g[loc.index := u])
  }

  /** A replacement keeps every group's length and every other unit. */
  lemma ReplaceOthers(eq: Equipment, loc: Location, u: Resource)
    requires ValidLocation(eq, loc)
    ensures forall k :: |Group(Replace(eq, loc, u), k)| == |Group(eq, k)|
    ensures forall k, j :: 0 <= j < |Group(eq, k)| && Location(k, j) != loc ==> Group(Replace(eq, loc, u), k)[j] == Group(eq, k)[j]
  {
  }

  /** The status update of `advanceTime` and of the breakdown: only the unit's status changes. */
  function WithStatus(eq: Equipment, loc: Location, status: string): Equipment
    requires ValidLocation(eq, loc)
  {
    Replace(eq, loc, At(eq, loc).(status := status))
  }

  /** The capacity update of the capacity form: only the unit's capacity changes. */
  function WithCapacity(eq: Equipment, loc: Location, capacity: int): Equipment
    requires ValidLocation(eq, loc)
  {
    Replace(eq, loc, At(eq, loc).(capacity := capacity))
  }

  /** Two groups list the same units (same ids, names and line types), whatever their statuses and capacities. */
  ghost predicate SameUnits(g: seq<Resource>, h: seq<Resource>)
  {
    |g| == |h| && forall j :: 0 <= j < |g| ==> g[j].id == h[j].id && g[j].name == h[j].name && g[j].lineType == h[j].lineType
  }

  /** Two registries with the same units in the same places. */
  ghost predicate SameLayout(a: Equipment, b: Equipment)
  {
    forall k :: SameUnits(Group(a, k), Group(b, k))
  }

  lemma SameUnitsIds(g: seq<Resource>, h: seq<Resource>)
    requires SameUnits(g, h)
    ensures GroupIds(g) == GroupIds(h)
  {
    forall x | x in GroupIds(g) ensures x in GroupIds(h) {
      var j :| 0 <= j < |g| && g[j].id == x;
      GroupIdsMember(h, j);
    }
    forall x | x in GroupIds(h) ensures x in GroupIds(g) {
      var j :| 0 <= j < |h| && h[j].id == x;
      GroupIdsMember(g, j);
    }
  }

  lemma SameLayoutIds(a: Equipment, b: Equipment)
    requires SameLayout(a, b)
    ensures Ids(a) == Ids(b)
  {
    assert SameUnits(Group(a, Brewhouses), Group(b, Brewhouses));
    assert SameUnits(Group(a, FermentationTanks), Group(b, FermentationTanks));
    assert SameUnits(Group(a, BrightBeerTanks), Group(b, BrightBeerTanks));
    assert SameUnits(Group(a, Filters), Group(b, Filters));
    assert SameUnits(Group(a, PackagingLines), Group(b, PackagingLines));
    SameUnitsIds(a.brewhouses, b.brewhouses);
    SameUnitsIds(a.fermentationTanks, b.fermentationTanks);
    SameUnitsIds(a.brightBeerTanks, b.brightBeerTanks);
    SameUnitsIds(a.filters, b.filters);
    SameUnitsIds(a.packagingLines, b.packagingLines);
  }

  /** Replacing a unit by one with the same id, name and line type keeps the layout. */
  lemma ReplaceLayout(eq: Equipment, loc: Location, u: Resource)
    requires ValidLocation(eq, loc)
    requires u.id == At(eq, loc).id && u.name == At(eq, loc).name && u.lineType == At(eq, loc).lineType
    ensures SameLayout(Replace(eq, loc, u), eq)
  {
    var r := Replace(eq, loc, u);
    ReplaceOthers(eq, loc, u);
    forall k ensures SameUnits(Group(r, k), Group(eq, k)) {
      forall j | 0 <= j < |Group(r, k)|
        ensures Group(r, k)[j].id == Group(eq, k)[j].id && Group(r, k)[j].name == Group(eq, k)[j].name
             && Group(r, k)[j].lineType == Group(eq, k)[j].lineType
      {
        if Location(k, j) == loc {
          assert Group(r, k)[j] == u;
        }
      }
    }
  }

  /** The `find` predicate of `findResource`: the unit carries `id`. */
  function HasId(id: ResourceId): Resource -> bool
  {
    (r: Resource) => r.id == id
  }

  /** `findResource` from group `Kinds[i]` on: the first unit with `id`, group by group. */
  function LocateFrom(eq: Equipment, id: ResourceId, i: nat): (r: Option<Location>)
    requires i <= |Kinds|
    ensures r.Some? ==> ValidLocation(eq, r.value) && At(eq, r.value).id == id
    decreases |Kinds| - i
  {
    if i == |Kinds| then None
    else match FirstIndex(Group(eq, Kinds[i]), HasId(id))
      case Some(j) => Some(Location(Kinds[i], j))
      case None => LocateFrom(eq, id, i + 1)
  }

  /** The search from group `Kinds[i]` finds the first unit with `id` there, and fails exactly when no later group has one. */
  lemma {:induction false} LocateFromIsFirst(eq: Equipment, id: ResourceId, i: nat)
    requires i <= |Kinds|
    ensures var r := LocateFrom(eq, id, i);
      r.Some? ==>
        && i <= KindRank(r.value.kind)
        && (forall j :: 0 <= j < r.value.index ==> Group(eq, r.value.kind)[j].id != id)
        && (forall i' :: i <= i' < KindRank(r.value.kind) ==> id !in GroupIds(Group(eq, Kinds[i'])))
    ensures LocateFrom(eq, id, i).None? <==> forall i' :: i <= i' < |Kinds| ==> id !in GroupIds(Group(eq, Kinds[i']))
    decreases |Kinds| - i
  {
    if i < |Kinds| {
      var g := Group(eq, Kinds[i]);
      FirstIndexIsFirst(g, HasId(id));
      match FirstIndex(g, HasId(id))
      case Some(j) =>
        GroupIdsMember(g, j);
      case None =>
        LocateFromIsFirst(eq, id, i + 1);
        assert id !in GroupIds(g) by {
          forall j | 0 <= j < |g| ensures g[j].id != id {
            assert !HasId(id)(g[j]);
          }
        }
    }
  }

  /** `findResource`: the location of a unit carrying `id`, if the search finds one. */
  function Locate(eq: Equipment, id: ResourceId): (r: Option<Location>)
    ensures r.Some? ==> ValidLocation(eq, r.value) && At(eq, r.value).id == id
  {
    LocateFrom(eq, id, 0)
  }

  /**
   * `findResource` fails exactly when no unit carries `id`, and otherwise finds
   * the first unit carrying it, groups in `Kinds` order and units in registry order.
   */
  lemma LocateIsFirst(eq: Equipment, id: ResourceId)
    ensures Locate(eq, id).None? <==> id !in Ids(eq)
    ensures Locate(eq, id).Some? ==>
      var loc := Locate(eq, id).value;
      && (forall j :: 0 <= j < loc.index ==> Group(eq, loc.kind)[j].id != id)
      && (forall i :: 0 <= i < KindRank(loc.kind) ==> id !in GroupIds(Group(eq, Kinds[i])))
  {
    IdsByKind(eq, id);
    LocateFromIsFirst(eq, id, 0);
  }

  lemma {:induction false} LocateFromLayout(a: Equipment, b: Equipment, id: ResourceId, i: nat)
    requires SameLayout(a, b) && i <= |Kinds|
    ensures LocateFrom(a, id, i) == LocateFrom(b, id, i)
    decreases |Kinds| - i
  {
    if i < |Kinds| {
      assert SameUnits(Group(a, Kinds[i]), Group(b, Kinds[i]));
      FindIdLayout(Group(a, Kinds[i]), Group(b, Kinds[i]), id);
      LocateFromLayout(a, b, id, i + 1);
    }
  }

  /** Groups with the same units in the same places give the same first unit with a given id. */
  lemma FindIdLayout(g: seq<Resource>, h: seq<Resource>, id: ResourceId)
    requires SameUnits(g, h)
    ensures FirstIndex(g, HasId(id)) == FirstIndex(h, HasId(id))
  {
    forall j | 0 <= j < |g| ensures HasId(id)(g[j]) == HasId(id)(h[j]) {
      assert g[j].id == h[j].id;
    }
    FirstIndexCongruent(g, HasId(id), h, HasId(id));
  }

  /** Changing statuses or capacities never changes where `findResource` finds a unit. */
  lemma LocateLayout(a: Equipment, b: Equipment, id: ResourceId)
    requires SameLayout(a, b)
    ensures Locate(a, id) == Locate(b, id)
  {
    LocateFromLayout(a, b, id, 0);
  }

  /** The two registries differ at most in the units' statuses. */
  ghost predicate SameButStatus(a: Equipment, b: Equipment)
  {
    forall k :: |Group(a, k)| == |Group(b, k)|
      && forall j :: 0 <= j < |Group(a, k)| ==> Group(a, k)[j] == Group(b, k)[j].(status := Group(a, k)[j].status)
  }

  lemma SameButStatusKeeps(a: Equipment, b: Equipment)
    requires SameButStatus(a, b)
    ensures SameLayout(a, b) && (WellFormed(a) <==> WellFormed(b)) && Ids(a) == Ids(b)
  {
    forall k ensures SameUnits(Group(a, k), Group(b, k)) {
      assert |Group(a, k)| == |Group(b, k)|;
      forall j | 0 <= j < |Group(a, k)|
        ensures Group(a, k)[j].id == Group(b, k)[j].id
      {
        assert Group(a, k)[j] == Group(b, k)[j].(status := Group(a, k)[j].status);
      }
    }
    assert SameUnits(Group(a, FermentationTanks), Group(b, FermentationTanks));
    forall j | 0 <= j < |a.fermentationTanks|
      ensures a.fermentationTanks[j].capacity == b.fermentationTanks[j].capacity
    {
      assert Group(a, FermentationTanks)[j] == Group(b, FermentationTanks)[j].(status := Group(a, FermentationTanks)[j].status);
    }
    assert |Group(a, Brewhouses)| == |Group(b, Brewhouses)|;
    assert |Group(a, Filters)| == |Group(b, Filters)|;
    SameLayoutIds(a, b);
  }

  lemma SameButStatusTransitive(a: Equipment, b: Equipment, c: Equipment)
    requires SameButStatus(a, b) && SameButStatus(b, c)
    ensures SameButStatus(a, c)
  {
  }

  lemma WithStatusSameButStatus(eq: Equipment, loc: Location, status: string)
    requires ValidLocation(eq, loc)
    ensures SameButStatus(WithStatus(eq, loc, status), eq)
  {
  }

  /** A status change keeps the registry well formed and keeps its ids. */
  lemma WithStatusKeeps(eq: Equipment, loc: Location, status: string)
    requires ValidLocation(eq, loc)
    ensures WellFormed(WithStatus(eq, loc, status)) == WellFormed(eq)
    ensures Ids(WithStatus(eq, loc, status)) == Ids(eq)
  {
    WithStatusSameButStatus(eq, loc, status);
    SameButStatusKeeps(WithStatus(eq, loc, status), eq);
  }

  /** Extending a group by one unit adds that unit's id. */
  lemma GroupIdsSnoc(g: seq<Resource>, i: nat)
    requires i < |g|
    ensures GroupIds(g[..i + 1]) == GroupIds(g[..i]) + {g[i].id}
  {
    assert g[..i + 1] == g[..i] + [g[i]];
    GroupIdsConcat(g[..i], [g[i]]);
    assert GroupIds([g[i]]) == {g[i].id} by {
      assert [g[i]][0] == g[i];
    }
  }

  lemma GroupIdsConcat(g: seq<Resource>, h: seq<Resource>)
    ensures GroupIds(g + h) == GroupIds(g) + GroupIds(h)
  {
    forall x | x in GroupIds(g + h) ensures x in GroupIds(g) + GroupIds(h) {
      var j :| 0 <= j < |g + h| && (g + h)[j].id == x;
      if j < |g| {
        assert g[j].id == x;
      } else {
        assert h[j - |g|].id == x;
      }
    }
    forall x | x in GroupIds(g) + GroupIds(h) ensures x in GroupIds(g + h) {
      if x in GroupIds(g) {
        var j :| 0 <= j < |g| && g[j].id == x;
        assert (g + h)[j].id == x;
      } else {
        var j :| 0 <= j < |h| && h[j].id == x;
        assert (g + h)[|g| + j].id == x;
      }
    }
  }

  /** The spread of all groups holds exactly the registered ids. */
  lemma AllResourcesIds(eq: Equipment)
    ensures GroupIds(AllResources(eq)) == Ids(eq)
  {
    var a, b, c, d, e := eq.brewhouses, eq.fermentationTanks, eq.brightBeerTanks, eq.filters, eq.packagingLines;
    GroupIdsConcat(a, b);
    GroupIdsConcat(a + b, c);
    GroupIdsConcat(a + b + c, d);
    GroupIdsConcat(a + b + c + d, e);
  }

  lemma GroupInIds(eq: Equipment, k: Kind)
    ensures forall j :: 0 <= j < |Group(eq, k)| ==> Group(eq, k)[j].id in Ids(eq)
  {
    forall j | 0 <= j < |Group(eq, k)| ensures Group(eq, k)[j].id in Ids(eq) {
      GroupIdsMember(Group(eq, k), j);
    }
  }

  /** A positive capacity keeps the registry well formed. */
  lemma WithCapacityWellFormed(eq: Equipment, loc: Location, capacity: int)
    requires WellFormed(eq) && ValidLocation(eq, loc) && capacity > 0
    ensures WellFormed(WithCapacity(eq, loc, capacity)) && Ids(WithCapacity(eq, loc, capacity)) == Ids(eq)
  {
    var r := WithCapacity(eq, loc, capacity);
    ReplaceOthers(eq, loc, At(eq, loc).(capacity := capacity));
    assert |Group(r, Brewhouses)| == |Group(eq, Brewhouses)|;
    assert |Group(r, Filters)| == |Group(eq, Filters)|;
    forall j | 0 <= j < |r.fermentationTanks| ensures r.fermentationTanks[j].capacity > 0 {
      assert |Group(r, FermentationTanks)| == |Group(eq, FermentationTanks)|;
      if Location(FermentationTanks, j) != loc {
        assert Group(r, FermentationTanks)[j] == Group(eq, FermentationTanks)[j];
      }
    }
    ReplaceLayout(eq, loc, At(eq, loc).(capacity := capacity));
    SameLayoutIds(r, eq);
  }
}
