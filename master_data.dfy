/**
 * The brewery's master data: the product catalogue, the process profiles,
 * the cleaning times and the initial equipment registry.
 */
module MasterData {
  import opened Wrappers
  import opened Search
  import opened Domain

  const Skus: seq<Sku> := [
    Sku(1, "IPA - 330ml Can", "Crafty Ales", "Hoppy", Can),
    Sku(2, "Stout - 50L Keg", "Dark Horse", "Rich", Keg),
    Sku(3, "Lager - 330ml Bottle", "Classic Brews", "Crisp", Bottle)
  ]

  /** Process profiles keyed by product id. */
  const ProcessVariables: map<int, ProcessVars> := map[
    1 := ProcessVars(8, 14, 5, 6, 3000),
    2 := ProcessVars(10, 21, 8, 8, 50),
    3 := ProcessVars(9, 18, 6, 7, 2500)
  ]

  const CipTime: CipTimes := CipTimes(2, 4, 3, 2)

  /**
   * The line changeover time of the master data. The scheduler looks it up
   * under the cleaning times, where it is absent, so no schedule uses it.
   */
  const ChangeoverTime: int := 3

  /** The fixed packaging duration the scheduler books, in hours. */
  const PackagingTime: int := 8

  function HasSkuId(id: int): Sku -> bool
  {
    (s: Sku) => s.id == id
  }

  /** A product id the demand form can offer: it names a catalogue entry that has a process profile. */
  ghost predicate KnownSku(id: int)
  {
    FirstIndex(Skus, HasSkuId(id)).Some? && id in ProcessVariables
  }

  /** The catalogue entry of a known product id (the source's `productSKUs.find`). */
  function SkuFor(id: int): (s: Sku)
    requires KnownSku(id)
    ensures s in Skus && s.id == id && s.id in ProcessVariables
  {
    Skus[FirstIndex(Skus, HasSkuId(id)).value]
  }

  lemma KnownSkus()
    ensures KnownSku(1) && KnownSku(2) && KnownSku(3)
  {
    assert HasSkuId(1)(Skus[0]);
    assert HasSkuId(2)(Skus[1]);
    assert HasSkuId(3)(Skus[2]);
  }

  function DigitChar(d: nat): char
    requires d < 10
  {
    ('0' as int + d) as char
  }

  /** The decimal numeral of `n`, as a template literal prints it. */
  function Digits(n: nat): string
  {
    if n < 10 then [DigitChar(n)] else Digits(n / 10) + [DigitChar(n % 10)]
  }

  function FermentationTank(i: nat): Resource
  {
    Resource("FT" + Digits(i + 1), "Fermentation Tank " + Digits(i + 1), "Empty", 400, None)
  }

  function BrightBeerTank(i: nat): Resource
  {
    Resource("BBT" + Digits(i + 1), "Bright Beer Tank " + Digits(i + 1), "Empty", 500, None)
  }

  /** The registry as the page starts: 2 brewhouses, 40 fermentation tanks, 5 bright-beer tanks, 1 filter, 3 lines. */
  function InitialEquipment(): Equipment
  {
    Equipment(
      [Resource("BH1", "Brewhouse 1", "Available", 0, None), Resource("BH2", "Brewhouse 2", "Available", 0, None)],
      seq(40, i requires 0 <= i => FermentationTank(i)),
      seq(5, i requires 0 <= i => BrightBeerTank(i)),
      [Resource("F1", "Filter 1", "Available", 0, None)],
      [Resource("PL1", "Can Line", "Available", 0, Some(Can)),
       Resource("PL2", "Keg Line", "Available", 0, Some(Keg)),
       Resource("PL3", "Bottle Line", "Available", 0, Some(Bottle))])
  }

  lemma InitialEquipmentWellFormed()
    ensures WellFormed(InitialEquipment())
  {
  }
}
