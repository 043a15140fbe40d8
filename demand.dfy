/**
 * Demand intake: submitting the form with a SKU and a quantity adds the
 * quantity to the plan's first entry for that SKU, or appends a new entry
 * with nothing fulfilled.
 */
module Demand {
  import opened Wrappers
  import opened Search
  import opened Domain

  function ForSku(skuId: int): DemandItem -> bool
  {
    (d: DemandItem) => d.skuId == skuId
  }

  /** The quantity `d` contributes to the total of `skuId`. */
  function Share(d: DemandItem, skuId: int): int
  {
    if d.skuId == skuId then d.quantity else 0
  }

  /** The total quantity the plan demands of `skuId`, over all its entries. */
  function QuantityOf(plan: seq<DemandItem>, skuId: int): int
  {
    if |plan| == 0 then 0 else Share(plan[0], skuId) + QuantityOf(plan[1..], skuId)
  }

  /** No SKU has two entries in the plan. */
  predicate DistinctSkus(plan: seq<DemandItem>)
  {
    forall i, j :: 0 <= i < j < |plan| ==> plan[i].skuId != plan[j].skuId
  }

  function SkusOf(plan: seq<DemandItem>): set<int>
  {
    set i | 0 <= i < |plan| :: plan[i].skuId
  }

  /** The plan after one submission of the intake form. */
  function Merge(plan: seq<DemandItem>, skuId: int, quantity: int): seq<DemandItem>
  {
    match FirstIndex(plan, ForSku(skuId))
    case Some(i) => plan[i := plan[i].(quantity := plan[i].quantity + quantity)]
    case None => plan + [DemandItem(skuId, quantity, 0)]
  }

  lemma {:induction false} QuantityOfUpdate(plan: seq<DemandItem>, i: nat, d: DemandItem, skuId: int)
    requires i < |plan|
    ensures QuantityOf(plan[i := d], skuId) == QuantityOf(plan, skuId) - Share(plan[i], skuId) + Share(d, skuId)
  {
    if i > 0 {
      assert plan[i := d][1..] == plan[1..][i - 1 := d];
      QuantityOfUpdate(plan[1..], i - 1, d, skuId);
    } else {
      assert plan[i := d][1..] == plan[1..];
    }
  }

  lemma {:induction false} QuantityOfAppend(plan: seq<DemandItem>, d: DemandItem, skuId: int)
    ensures QuantityOf(plan + [d], skuId) == QuantityOf(plan, skuId) + Share(d, skuId)
  {
    if |plan| == 0 {
      assert (plan + [d])[1..] == [];
    } else {
      assert (plan + [d])[1..] == plan[1..] + [d];
      QuantityOfAppend(plan[1..], d, skuId);
    }
  }

  /** A submission adds its quantity to its SKU's total and leaves every other SKU's total alone. */
  lemma MergeQuantity(plan: seq<DemandItem>, skuId: int, quantity: int, other: int)
    ensures QuantityOf(Merge(plan, skuId, quantity), other)
      == QuantityOf(plan, other) + (if other == skuId then quantity else 0)
  {
    match FirstIndex(plan, ForSku(skuId))
    case Some(i) =>
      QuantityOfUpdate(plan, i, plan[i].(quantity := plan[i].quantity + quantity), other);
    case None =>
      QuantityOfAppend(plan, DemandItem(skuId, quantity, 0), other);
  }

  /**
   * A submission touches one entry at most: the plan keeps its entries in
   * order, only the first entry of the SKU changes and only in its quantity,
   * and a new entry, with nothing fulfilled, is appended exactly when the SKU
   * had none.
   */
  lemma MergeShape(plan: seq<DemandItem>, skuId: int, quantity: int)
    ensures var r := Merge(plan, skuId, quantity);
      && (skuId in SkusOf(plan) ==> |r| == |plan|)
      && (skuId !in SkusOf(plan) ==> r == plan + [DemandItem(skuId, quantity, 0)])
      && (forall j :: 0 <= j < |plan| && plan[j].skuId != skuId ==> r[j] == plan[j])
      && (forall j :: 0 <= j < |plan| ==> r[j].(quantity := plan[j].quantity) == plan[j])
      && SkusOf(r) == SkusOf(plan) + {skuId}
  {
    var r := Merge(plan, skuId, quantity);
    FirstIndexIsFirst(plan, ForSku(skuId));
    match FirstIndex(plan, ForSku(skuId))
    case Some(i) =>
      assert plan[i].skuId == skuId;
      forall x | x in SkusOf(r) ensures x in SkusOf(plan) + {skuId} {
        var j :| 0 <= j < |r| && r[j].skuId == x;
        assert r[j].skuId == plan[j].skuId;
      }
      forall x | x in SkusOf(plan) + {skuId} ensures x in SkusOf(r) {
        if x == skuId {
          assert r[i].skuId == x;
        } else {
          var j :| 0 <= j < |plan| && plan[j].skuId == x;
          assert r[j].skuId == x;
        }
      }
    case None =>
      assert skuId !in SkusOf(plan);
      assert r[|plan|].skuId == skuId;
      forall x | x in SkusOf(r) ensures x in SkusOf(plan) + {skuId} {
        var j :| 0 <= j < |r| && r[j].skuId == x;
        if j < |plan| {
          assert r[j] == plan[j];
        }
      }
      forall x | x in SkusOf(plan) ensures x in SkusOf(r) {
        var j :| 0 <= j < |plan| && plan[j].skuId == x;
        assert r[j] == plan[j];
      }
  }

  /** A plan built by the form never holds two entries for one SKU. */
  lemma MergeDistinct(plan: seq<DemandItem>, skuId: int, quantity: int)
    requires DistinctSkus(plan)
    ensures DistinctSkus(Merge(plan, skuId, quantity))
  {
    var r := Merge(plan, skuId, quantity);
    FirstIndexIsFirst(plan, ForSku(skuId));
    match FirstIndex(plan, ForSku(skuId))
    case Some(i) =>
      assert forall j :: 0 <= j < |r| ==> r[j].skuId == plan[j].skuId;
    case None =>
      assert forall j :: 0 <= j < |plan| ==> r[j] == plan[j];
  }
}
