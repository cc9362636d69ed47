/**
 * controllers/sale.controller.go: `CreateSale` validates branch and table, settles the listed
 * orders one by one (completed and paid) while adding up their totals, then stores the sale with
 * `grand total = total − discount + tax`. Settlement is not transactional: an order id that is
 * not found stops the handler with the orders before it already settled and no sale stored.
 */
module Sales {
  import opened Wrappers
  import opened Models
  import opened Helpers
  import opened Orders

  /** The orders after settling each listed id in turn (ids the store lacks change nothing). */
  function SettleAll(orders: map<string, Order>, ids: seq<string>): (r: map<string, Order>)
    ensures r.Keys == orders.Keys
  {
    if ids == [] then orders
    else
      var before := SettleAll(orders, ids[..|ids| - 1]);
      var id := ids[|ids| - 1];
      if id in before then before[id := Settled(before[id])] else before
  }

  /** Index of the first listed id that the store does not hold, if any. */
  function FirstMissing(orders: map<string, Order>, ids: seq<string>): (r: Option<nat>)
    ensures r.None? <==> forall j :: 0 <= j < |ids| ==> ids[j] in orders
    ensures r.Some? ==> r.value < |ids| && ids[r.value] !in orders && forall j :: 0 <= j < r.value ==> ids[j] in orders
  {
    if ids == [] then None
    else if ids[0] !in orders then Some(0)
    else match FirstMissing(orders, ids[1..])
      case None => None
      case Some(k) => Some(k + 1)
  }

  /** Sum of the listed orders' totals, one term per occurrence in the list. */
  function SumTotals(orders: map<string, Order>, ids: seq<string>): Money
    requires forall j :: 0 <= j < |ids| ==> ids[j] in orders
  {
    if ids == [] then 0
    else SumTotals(orders, ids[..|ids| - 1]) + orders[ids[|ids| - 1]].totalAmount
  }

  /** The sale `CreateSale` stores: fresh id, computed total, grand total and creation time. */
  function NewSale(req: Sale, newId: string, now: Time, total: Money): (s: Sale)
    ensures s.saleId == newId && s.totalAmount == total && s.createdAt == now
    ensures s.grandTotal == total - req.discount + req.tax
    ensures s.orderIds == req.orderIds && s.discount == req.discount && s.tax == req.tax &&
            s.branchId == req.branchId && s.tableId == req.tableId
  {
    req.(saleId := newId, totalAmount := total, grandTotal := total - req.discount + req.tax, createdAt := now)
  }

  // ----- properties of settlement -----

  /**
   * After settling a list, every listed order is completed and paid (its other fields kept), and
   * every order not listed is exactly as before.
   */
  lemma {:induction false} SettleAllMeaning(orders: map<string, Order>, ids: seq<string>, key: string)
    requires key in orders
    ensures key in ids ==> SettleAll(orders, ids)[key] == Settled(orders[key])
    ensures key !in ids ==> SettleAll(orders, ids)[key] == orders[key]
  {
    if ids != [] {
      var init := ids[..|ids| - 1];
      SettleAllMeaning(orders, init, key);
      assert ids == init + [ids[|ids| - 1]];
      assert key in ids <==> key in init || key == ids[|ids| - 1];
    }
  }

  /** Settling never changes an order's total. */
  lemma SettleAllKeepsTotal(orders: map<string, Order>, ids: seq<string>, key: string)
    requires key in orders
    ensures SettleAll(orders, ids)[key].totalAmount == orders[key].totalAmount
  {
    SettleAllMeaning(orders, ids, key);
  }

  /** Settling twice is settling once. */
  lemma {:induction false} SettleAllIdempotent(orders: map<string, Order>, ids: seq<string>)
    ensures SettleAll(SettleAll(orders, ids), ids) == SettleAll(orders, ids)
  {
    var once := SettleAll(orders, ids);
    var twice := SettleAll(once, ids);
    forall key | key in once
      ensures twice[key] == once[key]
    {
      SettleAllMeaning(orders, ids, key);
      SettleAllMeaning(once, ids, key);
    }
  }

  /** The sum is additive over concatenated lists. */
  lemma {:induction false} SumTotalsAppend(orders: map<string, Order>, a: seq<string>, b: seq<string>)
    requires forall j :: 0 <= j < |a| ==> a[j] in orders
    requires forall j :: 0 <= j < |b| ==> b[j] in orders
    ensures forall j :: 0 <= j < |a + b| ==> (a + b)[j] in orders
    ensures SumTotals(orders, a + b) == SumTotals(orders, a) + SumTotals(orders, b)
  {
    assert forall j :: 0 <= j < |a + b| ==> (a + b)[j] in orders by {
      forall j | 0 <= j < |a + b|
        ensures (a + b)[j] in orders
      {
        if j < |a| { assert (a + b)[j] == a[j]; } else { assert (a + b)[j] == b[j - |a|]; }
      }
    }
    if b == [] {
      assert a + b == a;
    } else {
      var init := b[..|b| - 1];
      assert (a + b)[..|a + b| - 1] == a + init;
      SumTotalsAppend(orders, a, init);
    }
  }

  /** An id listed twice has its order's total counted twice. */
  lemma DuplicateCountsTwice(orders: map<string, Order>, id: string)
    requires id in orders
    ensures SumTotals(orders, [id, id]) == 2 * orders[id].totalAmount
  {
    assert [id, id][..1] == [id];
    assert [id][..0] == [];
    assert SumTotals(orders, [id]) == orders[id].totalAmount;
  }

  /** Summing over the already-settled store gives the same total as over the store before. */
  lemma {:induction false} SumTotalsAfterSettle(orders: map<string, Order>, settledIds: seq<string>, ids: seq<string>)
    requires forall j :: 0 <= j < |ids| ==> ids[j] in orders
    ensures forall j :: 0 <= j < |ids| ==> ids[j] in SettleAll(orders, settledIds)
    ensures SumTotals(SettleAll(orders, settledIds), ids) == SumTotals(orders, ids)
  {
    if ids != [] {
      var init := ids[..|ids| - 1];
      SumTotalsAfterSettle(orders, settledIds, init);
      SettleAllKeepsTotal(orders, settledIds, ids[|ids| - 1]);
    }
  }

  /** With no orders listed the grand total is the tax less the discount. */
  lemma EmptySaleGrandTotal(orders: map<string, Order>, req: Sale, newId: string, now: Time)
    requires req.orderIds == []
    ensures NewSale(req, newId, now, SumTotals(orders, req.orderIds)).totalAmount == 0
    ensures NewSale(req, newId, now, SumTotals(orders, req.orderIds)).grandTotal == req.tax - req.discount
  {
  }

  datatype SaleError =
    | SaleInvalidBranch
    | SaleInvalidTable
    | OrderUpdateFailed(orderId: string)
    | DuplicateSaleId

  /** The sale collection, keyed by `_id`. */
  class SaleStore {
    var sales: map<string, Sale>

    constructor (sales: map<string, Sale>)
      ensures this.sales == sales
    {
      this.sales := sales;
    }

    /**
     * `CreateSale`. Branch, then table, must exist, or nothing changes. Then the listed orders are
     * settled in list order; the first id missing from the store ends the handler with exactly the
     * ids before it settled and no sale stored. Otherwise all listed orders are settled and the
     * sale is stored with the sum of their totals (one term per occurrence).
     */
    method CreateSale(orderStore: OrderStore, branchIds: seq<string>, tableIds: seq<string>,
                      req: Sale, newId: string, now: Time)
      returns (r: Result<Sale, SaleError>)
      modifies this, orderStore
      ensures req.branchId !in branchIds ==>
                r == Err(SaleInvalidBranch) && orderStore.orders == old(orderStore.orders) && sales == old(sales)
      ensures req.branchId in branchIds && req.tableId !in tableIds ==>
                r == Err(SaleInvalidTable) && orderStore.orders == old(orderStore.orders) && sales == old(sales)
      ensures req.branchId in branchIds && req.tableId in tableIds && FirstMissing(old(orderStore.orders), req.orderIds).Some? ==>
                var k := FirstMissing(old(orderStore.orders), req.orderIds).value;
                r == Err(OrderUpdateFailed(req.orderIds[k])) &&
                orderStore.orders == SettleAll(old(orderStore.orders), req.orderIds[..k]) && sales == old(sales)
      ensures req.branchId in branchIds && req.tableId in tableIds && FirstMissing(old(orderStore.orders), req.orderIds).None? ==>
                orderStore.orders == SettleAll(old(orderStore.orders), req.orderIds) &&
                if newId in old(sales) then r == Err(DuplicateSaleId) && sales == old(sales)
                else r == Ok(NewSale(req, newId, now, SumTotals(old(orderStore.orders), req.orderIds))) &&
                     sales == old(sales)[newId := r.value]
    {
      var branchExists := CheckDataExist(branchIds, (b: string) => b == req.branchId);
      if !branchExists {
        return Err(SaleInvalidBranch);
      }
      var tableExists := CheckDataExist(tableIds, (t: string) => t == req.tableId);
      if !tableExists {
        return Err(SaleInvalidTable);
      }
      ghost var before := orderStore.orders;
      var ids := req.orderIds;
      var totalAmount: Money := 0;
      var i := 0;
      while i < |ids|
        invariant 0 <= i <= |ids|
        invariant forall j :: 0 <= j < i ==> ids[j] in before
        invariant orderStore.orders == SettleAll(before, ids[..i])
        invariant totalAmount == SumTotals(before, ids[..i])
        invariant sales == old(sales)
      {
        var orderId := ids[i];
        var pre := orderStore.FindOneAndSettle(orderId);
        if pre.None? {
          FirstMissingAt(before, ids, i);
          return Err(OrderUpdateFailed(orderId));
        }
        SettleStep(before, ids, i);
        totalAmount := totalAmount + pre.value.totalAmount;
        i := i + 1;
      }
      assert ids[..i] == ids;
      if newId in sales {
        return Err(DuplicateSaleId);
      }
      var sale := NewSale(req, newId, now, totalAmount);
      sales := sales[newId := sale];
      return Ok(sale);
    }
  }

  /** One more settled id: the store and the running total after `ids[..i + 1]`. */
  lemma SettleStep(orders: map<string, Order>, ids: seq<string>, i: nat)
    requires i < |ids| && ids[i] in orders
    requires forall j :: 0 <= j < i ==> ids[j] in orders
    ensures forall j :: 0 <= j <= i ==> ids[j] in orders
    ensures var s := SettleAll(orders, ids[..i]);
            SettleAll(orders, ids[..i + 1]) == s[ids[i] := Settled(s[ids[i]])] &&
            s[ids[i]].totalAmount == orders[ids[i]].totalAmount
    ensures SumTotals(orders, ids[..i + 1]) == SumTotals(orders, ids[..i]) + orders[ids[i]].totalAmount
  {
    assert ids[..i + 1][..i] == ids[..i];
    assert ids[..i + 1][i] == ids[i];
    SettleAllKeepsTotal(orders, ids[..i], ids[i]);
  }

  /** The first missing id is the one at `k` when all before it are present and it is not. */
  lemma {:induction false} FirstMissingAt(orders: map<string, Order>, ids: seq<string>, k: nat)
    requires k < |ids| && ids[k] !in orders
    requires forall j :: 0 <= j < k ==> ids[j] in orders
    ensures FirstMissing(orders, ids) == Some(k)
  {
    if k > 0 {
      FirstMissingAt(orders, ids[1..], k - 1);
    }
  }

  /**
   * A failure at index k leaves the orders listed before k completed and paid and every other
   * order (the failing one, those after it, those never listed) as it was.
   */
  lemma PartialSettlement(orders: map<string, Order>, ids: seq<string>, k: nat, key: string)
    requires k <= |ids| && key in orders
    ensures key in ids[..k] ==> SettleAll(orders, ids[..k])[key] == Settled(orders[key])
    ensures key !in ids[..k] ==> SettleAll(orders, ids[..k])[key] == orders[key]
  {
    SettleAllMeaning(orders, ids[..k], key);
  }

  /** The worked example: orders of 6000 and 4000, discount 1000 and tax 500 make 9500. */
  lemma SaleExample(o1: Order, o2: Order, req: Sale)
    requires o1.totalAmount == 6000 && o2.totalAmount == 4000
    requires req.orderIds == ["o1", "o2"] && req.discount == 1000 && req.tax == 500
    ensures var orders := map["o1" := o1, "o2" := o2];
            NewSale(req, "s1", 0, SumTotals(orders, req.orderIds)).grandTotal == 9500
  {
    var orders := map["o1" := o1, "o2" := o2];
    assert req.orderIds[..1] == ["o1"];
    assert ["o1"][..0] == [];
    assert SumTotals(orders, ["o1"]) == 6000;
    assert SumTotals(orders, req.orderIds) == 10000;
  }
}
