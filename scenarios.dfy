/**
 * Worked examples on the master data: one IPA batch of 400 litres on a
 * fresh registry, stage by stage, and the order the demand sort puts the
 * three packaging families in.
 */
module Scenarios {
  import opened Wrappers
  import opened Search
  import opened StableSort
  import opened Domain
  import opened SlotFinder
  import opened MasterData
  import opened Planning

  /** The product label of the only batch of a one-batch IPA item. */
  const Ipa: Label := BatchOf("IPA - 330ml Can", 1, 1)

  const IpaVars: ProcessVars := ProcessVars(8, 14, 5, 6, 3000)

  lemma EmptySlot(duration: int, earliest: int)
    ensures Slot([], duration, earliest) == earliest
  {
    assert FirstIndex([], ConflictsAt(earliest, duration)) == None;
  }

  /** The registry's unit ids that the IPA batch touches. */
  lemma InitialIds()
    ensures var eq := InitialEquipment();
      && eq.brewhouses[0].id == "BH1"
      && eq.fermentationTanks[0].id == "FT1"
      && eq.filters[0].id == "F1"
      && eq.brightBeerTanks[0].id == "BBT1"
      && eq.packagingLines[0].id == "PL1"
      && {"BH1", "FT1", "F1", "BBT1", "PL1"} <= Ids(eq)
  {
    var eq := InitialEquipment();
    assert Digits(1) == "1";
    assert eq.fermentationTanks[0] == FermentationTank(0);
    assert eq.brightBeerTanks[0] == BrightBeerTank(0);
    GroupIdsMember(eq.brewhouses, 0);
    GroupIdsMember(eq.fermentationTanks, 0);
    GroupIdsMember(eq.filters, 0);
    GroupIdsMember(eq.brightBeerTanks, 0);
    GroupIdsMember(eq.packagingLines, 0);
  }

  /* The ledger after each booking of the batch, in booking order. */

  function L0(): Ledger { Fresh(InitialEquipment(), []) }
  function L1(b: Ledger): Ledger { Book(b, "BH1", 0, 8, Brewing, Ipa) }
  function L2(b: Ledger): Ledger { Book(L1(b), "BH1", 8, 10, CIP, NotApplicable) }
  function L3(b: Ledger): Ledger { Book(L2(b), "FT1", 8, 344, Fermentation, Ipa) }
  function L4(b: Ledger): Ledger { Book(L3(b), "F1", 344, 350, Filtering, Ipa) }
  function L5(b: Ledger): Ledger { Book(L4(b), "F1", 350, 353, CIP, NotApplicable) }
  function L6(b: Ledger): Ledger { Book(L5(b), "FT1", 350, 354, CIP, NotApplicable) }
  function L7(b: Ledger): Ledger { Book(L6(b), "BBT1", 350, 355, Conditioning, Ipa) }
  function L8(b: Ledger): Ledger { Book(L7(b), "PL1", 355, 363, Packaging, Ipa) }
  function L9(b: Ledger): Ledger { Book(L8(b), "PL1", 363, 365, CIP, NotApplicable) }
  function L10(b: Ledger): Ledger { Book(L9(b), "BBT1", 355, 359, CIP, NotApplicable) }

  /** Brewing on BH1 from hour 0, then its CIP. */
  lemma IpaBrew()
    ensures Brew(L0(), "BH1", IpaVars, Ipa, 0) == (L2(L0()), 8)
  {
    InitialIds();
    EmptySlot(8, 0);
  }

  /** Fermentation in FT1 from the brew end, for 14 days. */
  lemma IpaFerment()
    ensures Ferment(L2(L0()), "FT1", IpaVars, Ipa, 8) == (L3(L0()), 344)
  {
    InitialIds();
    BookLeavesOthers(L0(), "BH1", 0, 8, Brewing, Ipa, "FT1");
    BookLeavesOthers(L1(L0()), "BH1", 8, 10, CIP, NotApplicable, "FT1");
    EmptySlot(336, 8);
  }

  /** Filtering on F1 from the fermentation end, then the filter and tank CIPs. */
  lemma IpaFilter()
    ensures FilterStage(L3(L0()), "F1", "FT1", IpaVars, Ipa, 344) == (L6(L0()), 350)
  {
    InitialIds();
    BookLeavesOthers(L0(), "BH1", 0, 8, Brewing, Ipa, "F1");
    BookLeavesOthers(L1(L0()), "BH1", 8, 10, CIP, NotApplicable, "F1");
    BookLeavesOthers(L2(L0()), "FT1", 8, 344, Fermentation, Ipa, "F1");
    EmptySlot(6, 344);
  }

  /** Conditioning in BBT1 from the filter end. */
  lemma IpaCondition()
    ensures Condition(L6(L0()), "BBT1", IpaVars, Ipa, 350) == (L7(L0()), 355)
  {
    InitialIds();
    BookLeavesOthers(L0(), "BH1", 0, 8, Brewing, Ipa, "BBT1");
    BookLeavesOthers(L1(L0()), "BH1", 8, 10, CIP, NotApplicable, "BBT1");
    BookLeavesOthers(L2(L0()), "FT1", 8, 344, Fermentation, Ipa, "BBT1");
    BookLeavesOthers(L3(L0()), "F1", 344, 350, Filtering, Ipa, "BBT1");
    BookLeavesOthers(L4(L0()), "F1", 350, 353, CIP, NotApplicable, "BBT1");
    BookLeavesOthers(L5(L0()), "FT1", 350, 354, CIP, NotApplicable, "BBT1");
    EmptySlot(5, 350);
  }

  /** Packaging on PL1, the can line, from the conditioning end; no line was used before. */
  lemma IpaPackage()
    ensures Package(L7(L0()), Cursor(None, 0), "PL1", Ipa, 355) == (L9(L0()), Cursor(Some("PL1"), 365))
  {
    InitialIds();
    BookLeavesOthers(L0(), "BH1", 0, 8, Brewing, Ipa, "PL1");
    BookLeavesOthers(L1(L0()), "BH1", 8, 10, CIP, NotApplicable, "PL1");
    BookLeavesOthers(L2(L0()), "FT1", 8, 344, Fermentation, Ipa, "PL1");
    BookLeavesOthers(L3(L0()), "F1", 344, 350, Filtering, Ipa, "PL1");
    BookLeavesOthers(L4(L0()), "F1", 350, 353, CIP, NotApplicable, "PL1");
    BookLeavesOthers(L5(L0()), "FT1", 350, 354, CIP, NotApplicable, "PL1");
    BookLeavesOthers(L6(L0()), "BBT1", 350, 355, Conditioning, Ipa, "PL1");
    EmptySlot(0, 355);
  }

  /** The cursor after the batch: the can line, released at hour 365. */
  const Packed: Cursor := Cursor(Some("PL1"), 365)

  lemma IpaBrightTank()
    ensures ToBrightTank(L6(L0()), Cursor(None, 0), InitialEquipment(), Can, IpaVars, Ipa, 350, 0) == (L10(L0()), Packed)
  {
    var eq := InitialEquipment();
    InitialIds();
    FirstFeasibleIsFirst(eq.brightBeerTanks, L6(L0()), 5, 350);
    assert ForFamily(Can)(eq.packagingLines[0]);
    FirstIndexUnique(eq.packagingLines, ForFamily(Can), 0);
    IpaCondition();
    IpaPackage();
  }

  lemma IpaFromTank()
    ensures FromTank(L2(L0()), Cursor(None, 0), InitialEquipment(), Can, IpaVars, Ipa, "FT1", 8, 0) == (L10(L0()), Packed)
  {
    InitialIds();
    InitialEquipmentWellFormed();
    IpaFerment();
    IpaFilter();
    IpaBrightTank();
  }

  /** The only batch of the item goes through every stage and does not halt the item. */
  lemma IpaBatch()
    ensures WellFormed(InitialEquipment()) && Batch(L0(), Cursor(None, 0), InitialEquipment(), Skus[0], IpaVars, 0, 1, 0, 0)
         == BatchOutcome(L10(L0()), Packed, false, 8)
  {
    var eq := InitialEquipment();
    InitialIds();
    InitialEquipmentWellFormed();
    IpaBrew();
    FirstFeasibleIsFirst(eq.fermentationTanks, L2(L0()), 336, 8);
    IpaFromTank();
  }

  lemma IpaSku()
    ensures KnownSku(1) && SkuFor(1) == Skus[0] && ProcessVariables[1] == IpaVars
  {
    KnownSkus();
    assert HasSkuId(1)(Skus[0]);
    FirstIndexUnique(Skus, HasSkuId(1), 0);
  }

  /** FT1 is empty, so the capacity lookup takes it. */
  lemma FirstIdleTank()
    ensures FirstIndex(InitialEquipment().fermentationTanks, IsIdle()) == Some(0)
    ensures InitialEquipment().fermentationTanks[0].capacity == 400
  {
    var eq := InitialEquipment();
    assert eq.fermentationTanks[0] == FermentationTank(0);
    assert IsIdle()(eq.fermentationTanks[0]);
    FirstIndexUnique(eq.fermentationTanks, IsIdle(), 0);
  }

  lemma IpaBatches()
    ensures WellFormed(InitialEquipment())
    ensures Batches(L0(), Cursor(None, 0), InitialEquipment(), Skus[0], IpaVars, 1, 0, 0, 0) == (L10(L0()), Packed)
  {
    InitialEquipmentWellFormed();
    IpaBatch();
    BatchesStep(L0(), Cursor(None, 0), InitialEquipment(), Skus[0], IpaVars, 1, 0, 0, 0);
  }

  /** 400 litres of IPA: the first idle tank holds 400 litres, so the item is one batch. */
  lemma IpaItem()
    ensures WellFormed(InitialEquipment()) && KnownSku(1)
    ensures Item(L0(), Cursor(None, 0), InitialEquipment(), DemandItem(1, 400, 0), 0) == (L10(L0()), Packed)
  {
    IpaSku();
    FirstIdleTank();
    assert BatchCount(400, 400) == 1;
    IpaBatches();
  }

  /**
   * One IPA item of 400 litres on a
   * fresh registry books, in this order, brewing and CIP on BH1, fermentation
   * in FT1, filtering and CIP on F1, the CIP of FT1, conditioning in BBT1,
   * packaging and CIP on the can line PL1, and the CIP of BBT1; nothing is
   * alerted.
   */
  lemma SingleIpaBatch()
    ensures WellFormed(InitialEquipment()) && KnownSku(1)
    ensures var r := Pass(InitialEquipment(), [DemandItem(1, 400, 0)], [], 0);
      && r.log == [
        Event(0, 8, Brewing, "BH1", Ipa),
        Event(8, 10, CIP, "BH1", NotApplicable),
        Event(8, 344, Fermentation, "FT1", Ipa),
        Event(344, 350, Filtering, "F1", Ipa),
        Event(350, 353, CIP, "F1", NotApplicable),
        Event(350, 354, CIP, "FT1", NotApplicable),
        Event(350, 355, Conditioning, "BBT1", Ipa),
        Event(355, 363, Packaging, "PL1", Ipa),
        Event(363, 365, CIP, "PL1", NotApplicable),
        Event(355, 359, CIP, "BBT1", NotApplicable)]
      && r.alerts == []
  {
    IpaPass();
    BookedInOrder(L0());
  }

  lemma IpaPass()
    ensures WellFormed(InitialEquipment()) && KnownSku(1)
    ensures Pass(InitialEquipment(), [DemandItem(1, 400, 0)], [], 0) == L10(L0())
  {
    var d := DemandItem(1, 400, 0);
    IpaItem();
    OrderedSingle(d);
    ItemsSingle(L0(), Cursor(None, 0), InitialEquipment(), d, 0);
  }

  lemma OrderedSingle(d: DemandItem)
    ensures Ordered([d]) == [d]
  {
    assert [d][1..] == [];
    assert SortBy([d][1..], DemandKey) == [];
    assert Insert(d, [], DemandKey) == [d];
  }

  lemma ItemsSingle(l: Ledger, c: Cursor, eq: Equipment, d: DemandItem, now: int)
    requires WellFormed(eq) && KnownSku(d.skuId)
    ensures Items(l, c, eq, [d], now) == Item(l, c, eq, d, now).0
  {
    assert [d][1..] == [];
  }

  /** The log of the chain from a ledger with an empty log and no alerts. */
  lemma BookedInOrder(b: Ledger)
    requires b.log == [] && b.alerts == []
    ensures L10(b).log == [
        Event(0, 8, Brewing, "BH1", Ipa),
        Event(8, 10, CIP, "BH1", NotApplicable),
        Event(8, 344, Fermentation, "FT1", Ipa),
        Event(344, 350, Filtering, "F1", Ipa),
        Event(350, 353, CIP, "F1", NotApplicable),
        Event(350, 354, CIP, "FT1", NotApplicable),
        Event(350, 355, Conditioning, "BBT1", Ipa),
        Event(355, 363, Packaging, "PL1", Ipa),
        Event(363, 365, CIP, "PL1", NotApplicable),
        Event(355, 359, CIP, "BBT1", NotApplicable)]
    ensures L10(b).alerts == []
  {
    BrewedAndFiltered(b);
  }

  lemma BrewedAndFiltered(b: Ledger)
    requires b.log == [] && b.alerts == []
    ensures L5(b).log == [
        Event(0, 8, Brewing, "BH1", Ipa),
        Event(8, 10, CIP, "BH1", NotApplicable),
        Event(8, 344, Fermentation, "FT1", Ipa),
        Event(344, 350, Filtering, "F1", Ipa),
        Event(350, 353, CIP, "F1", NotApplicable)]
    ensures L5(b).alerts == []
  {
  }

  /** The demand sort key of each product of the catalogue: its packaging family's place. */
  lemma DemandKeys(q: int)
    ensures DemandKey(DemandItem(1, q, 0)) == FamilyRank(Can)
    ensures DemandKey(DemandItem(2, q, 0)) == FamilyRank(Keg)
    ensures DemandKey(DemandItem(3, q, 0)) == FamilyRank(Bottle)
  {
    assert HasSkuId(1)(Skus[0]);
    FirstIndexUnique(Skus, HasSkuId(1), 0);
    assert !HasSkuId(2)(Skus[0]) && HasSkuId(2)(Skus[1]);
    FirstIndexUnique(Skus, HasSkuId(2), 1);
    assert !HasSkuId(3)(Skus[0]) && !HasSkuId(3)(Skus[1]) && HasSkuId(3)(Skus[2]);
    FirstIndexUnique(Skus, HasSkuId(3), 2);
  }

  /** Demand entered as IPA (cans), Stout (kegs), Lager (bottles) is scheduled Lager, IPA, Stout. */
  lemma DemandOrder()
    ensures var ipa, stout, lager := DemandItem(1, 1000, 0), DemandItem(2, 100, 0), DemandItem(3, 500, 0);
      Ordered([ipa, stout, lager]) == [lager, ipa, stout]
  {
    var ipa, stout, lager := DemandItem(1, 1000, 0), DemandItem(2, 100, 0), DemandItem(3, 500, 0);
    DemandKeys(1000);
    DemandKeys(100);
    DemandKeys(500);
    var s := [ipa, stout, lager];
    var tail := SortBy(s[1..], DemandKey);
    assert s[1..] == [stout, lager];
    assert tail == [lager, stout] by {
      assert [stout, lager][1..] == [lager];
      OrderedSingle(lager);
      InsertAfter(stout, lager);
    }
    assert SortBy(s, DemandKey) == Insert(ipa, tail, DemandKey);
    InsertBetween(ipa, lager, stout);
  }

  lemma InsertAfter(x: DemandItem, y: DemandItem)
    requires DemandKey(x) > DemandKey(y)
    ensures Insert(x, [y], DemandKey) == [y, x]
  {
    assert [y][1..] == [];
  }

  lemma InsertBetween(x: DemandItem, y: DemandItem, z: DemandItem)
    requires DemandKey(y) < DemandKey(x) <= DemandKey(z)
    ensures Insert(x, [y, z], DemandKey) == [y, x, z]
  {
    assert [y, z][1..] == [z];
  }
}
