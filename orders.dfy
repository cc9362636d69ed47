/**
 * controllers/order.controller.go: pricing of a new order (`CreateOrder`), the fixed-field patch
 * of `UpdateOrder`, and the id-equality join that `orderPipeline` asks the store for.
 */
module Orders {
  import opened Wrappers
  import opened Models
  import opened Helpers

  // ----- pricing specification -----

  /** The first catalog reference of an order that does not resolve. */
  datatype PricingError = MenuNotFound(menuId: string) | AddOnNotFound(addOnId: string)

  /** Every menu and every add-on an order names is in the catalog. */
  predicate Resolves(menus: map<string, Menu>, addOns: map<string, AddOn>, items: seq<MenuItem>)
  {
    forall i :: 0 <= i < |items| ==> LineResolves(menus, addOns, items[i])
  }

  predicate LineResolves(menus: map<string, Menu>, addOns: map<string, AddOn>, item: MenuItem)
  {
    item.menuId in menus && forall j :: 0 <= j < |item.addOnItems| ==> item.addOnItems[j].addOnId in addOns
  }

  /**
   * What the inner loop accumulates: the add-on prices times their quantities, in request order,
   * stopping at the first add-on missing from the catalog.
   */
  function AddOnSubtotal(addOns: map<string, AddOn>, items: seq<AddOnItem>): (r: Result<Money, PricingError>)
    ensures r.Err? ==> r.error.AddOnNotFound? && r.error.addOnId !in addOns &&
                       exists j :: 0 <= j < |items| && items[j].addOnId == r.error.addOnId
  {
    if items == [] then Ok(0)
    else
      var init := items[..|items| - 1];
      var last := items[|items| - 1];
      match AddOnSubtotal(addOns, init)
      case Err(e) =>
        assert forall j :: 0 <= j < |init| ==> init[j] == items[j];
        Err(e)
      case Ok(sub) =>
        if last.addOnId !in addOns then Err(AddOnNotFound(last.addOnId))
        else Ok(sub + addOns[last.addOnId].price * last.quantity)
  }

  /** One order line: the menu's discounted price times the quantity, plus the add-on subtotal. */
  function LineSubtotal(menus: map<string, Menu>, addOns: map<string, AddOn>, item: MenuItem): (r: Result<Money, PricingError>)
    ensures r.Err? && r.error.MenuNotFound? ==> r.error.menuId == item.menuId && item.menuId !in menus
    ensures r.Err? && r.error.AddOnNotFound? ==>
              (r.error.addOnId !in addOns &&
               exists j :: 0 <= j < |item.addOnItems| && item.addOnItems[j].addOnId == r.error.addOnId)
  {
    if item.menuId !in menus then Err(MenuNotFound(item.menuId))
    else
      var menu := menus[item.menuId];
      match AddOnSubtotal(addOns, item.addOnItems)
      case Err(e) => Err(e)
      case Ok(sub) => Ok((menu.price - menu.discount) * item.quantity + sub)
  }

  /** The error of a failed pricing names a reference of the order that the catalog lacks. */
  predicate NamesUnresolved(menus: map<string, Menu>, addOns: map<string, AddOn>, items: seq<MenuItem>, e: PricingError)
  {
    match e
    case MenuNotFound(id) => id !in menus && exists i :: 0 <= i < |items| && items[i].menuId == id
    case AddOnNotFound(id) =>
      id !in addOns &&
      exists i, j :: 0 <= i < |items| && 0 <= j < |items[i].addOnItems| && items[i].addOnItems[j].addOnId == id
  }

  /** What the outer loop accumulates: the line subtotals in order, failing at the first bad line. */
  function OrderTotal(menus: map<string, Menu>, addOns: map<string, AddOn>, items: seq<MenuItem>): (r: Result<Money, PricingError>)
    ensures items == [] ==> r == Ok(0)
    ensures r.Err? ==> NamesUnresolved(menus, addOns, items, r.error)
  {
    if items == [] then Ok(0)
    else
      var init := items[..|items| - 1];
      var last := items[|items| - 1];
      match OrderTotal(menus, addOns, init)
      case Err(e) =>
        assert forall i :: 0 <= i < |init| ==> init[i] == items[i];
        Err(e)
      case Ok(t) =>
        match LineSubtotal(menus, addOns, last)
        case Err(e) =>
          assert items[|items| - 1] == last;
          Err(e)
        case Ok(s) => Ok(t + s)
  }

  // ----- reference definition of the total -----

  /** Sum of `price × quantity` over the add-ons of a fully resolved line. */
  function AddOnAmount(addOns: map<string, AddOn>, items: seq<AddOnItem>): Money
    requires forall j :: 0 <= j < |items| ==> items[j].addOnId in addOns
  {
    if items == [] then 0
    else addOns[items[0].addOnId].price * items[0].quantity + AddOnAmount(addOns, items[1..])
  }

  function LineAmount(menus: map<string, Menu>, addOns: map<string, AddOn>, item: MenuItem): Money
    requires LineResolves(menus, addOns, item)
  {
    (menus[item.menuId].price - menus[item.menuId].discount) * item.quantity + AddOnAmount(addOns, item.addOnItems)
  }

  /** The intended total: the sum over all lines of the line amount. */
  function SumLines(menus: map<string, Menu>, addOns: map<string, AddOn>, items: seq<MenuItem>): Money
    requires Resolves(menus, addOns, items)
  {
    if items == [] then 0
    else LineAmount(menus, addOns, items[0]) + SumLines(menus, addOns, items[1..])
  }

  lemma {:induction false} AddOnAmountSnoc(addOns: map<string, AddOn>, items: seq<AddOnItem>, x: AddOnItem)
    requires forall j :: 0 <= j < |items| ==> items[j].addOnId in addOns
    requires x.addOnId in addOns
    ensures AddOnAmount(addOns, items + [x]) == AddOnAmount(addOns, items) + addOns[x.addOnId].price * x.quantity
  {
    if items != [] {
      assert (items + [x])[1..] == items[1..] + [x];
      AddOnAmountSnoc(addOns, items[1..], x);
    } else {
      assert ([] + [x])[1..] == [];
    }
  }

  lemma {:induction false} SumLinesSnoc(menus: map<string, Menu>, addOns: map<string, AddOn>, items: seq<MenuItem>, x: MenuItem)
    requires Resolves(menus, addOns, items)
    requires LineResolves(menus, addOns, x)
    ensures Resolves(menus, addOns, items + [x])
    ensures SumLines(menus, addOns, items + [x]) == SumLines(menus, addOns, items) + LineAmount(menus, addOns, x)
  {
    assert forall i :: 0 <= i < |items| ==> (items + [x])[i] == items[i];
    if items != [] {
      assert (items + [x])[1..] == items[1..] + [x];
      SumLinesSnoc(menus, addOns, items[1..], x);
    } else {
      assert ([] + [x])[1..] == [];
    }
  }

  /** The inner loop's result agrees with the reference sum, and fails exactly on an unknown add-on. */
  lemma {:induction false} AddOnSubtotalMeaning(addOns: map<string, AddOn>, items: seq<AddOnItem>)
    ensures AddOnSubtotal(addOns, items).Ok? <==> forall j :: 0 <= j < |items| ==> items[j].addOnId in addOns
    ensures AddOnSubtotal(addOns, items).Ok? ==>
              (forall j :: 0 <= j < |items| ==> items[j].addOnId in addOns) &&
              AddOnSubtotal(addOns, items).value == AddOnAmount(addOns, items)
  {
    if items != [] {
      var init := items[..|items| - 1];
      var last := items[|items| - 1];
      AddOnSubtotalMeaning(addOns, init);
      assert items == init + [last];
      if forall j :: 0 <= j < |items| ==> items[j].addOnId in addOns {
        assert forall j :: 0 <= j < |init| ==> init[j] == items[j];
        AddOnAmountSnoc(addOns, init, last);
      }
    }
  }

  /** One line prices exactly when its menu and add-ons resolve, and then at the reference amount. */
  lemma LineSubtotalMeaning(menus: map<string, Menu>, addOns: map<string, AddOn>, item: MenuItem)
    ensures LineSubtotal(menus, addOns, item).Ok? <==> LineResolves(menus, addOns, item)
    ensures LineSubtotal(menus, addOns, item).Ok? ==>
              LineResolves(menus, addOns, item) && LineSubtotal(menus, addOns, item).value == LineAmount(menus, addOns, item)
  {
    AddOnSubtotalMeaning(addOns, item.addOnItems);
  }

  /** A cart resolves exactly when all but its last line do and its last line does. */
  lemma ResolvesSnoc(menus: map<string, Menu>, addOns: map<string, AddOn>, items: seq<MenuItem>)
    requires items != []
    ensures Resolves(menus, addOns, items) <==>
              Resolves(menus, addOns, items[..|items| - 1]) && LineResolves(menus, addOns, items[|items| - 1])
  {
    var init := items[..|items| - 1];
    assert forall i :: 0 <= i < |init| ==> init[i] == items[i];
  }

  /**
   * Pricing succeeds exactly when every referenced menu and add-on exists, and then the total is
   * the sum over the lines of `(price − discount) × quantity` plus the add-ons' `price × quantity`.
   */
  lemma {:induction false} OrderTotalMeaning(menus: map<string, Menu>, addOns: map<string, AddOn>, items: seq<MenuItem>)
    ensures OrderTotal(menus, addOns, items).Ok? <==> Resolves(menus, addOns, items)
    ensures OrderTotal(menus, addOns, items).Ok? ==>
              Resolves(menus, addOns, items) && OrderTotal(menus, addOns, items).value == SumLines(menus, addOns, items)
  {
    if items != [] {
      var init := items[..|items| - 1];
      var last := items[|items| - 1];
      OrderTotalMeaning(menus, addOns, init);
      LineSubtotalMeaning(menus, addOns, last);
      ResolvesSnoc(menus, addOns, items);
      if Resolves(menus, addOns, items) {
        SumLinesSnoc(menus, addOns, init, last);
        assert init + [last] == items;
      }
    }
  }

  /** A failure in a prefix of the add-on list is the failure of the whole list. */
  lemma {:induction false} AddOnSubtotalFailsFrom(addOns: map<string, AddOn>, items: seq<AddOnItem>, k: nat)
    requires k <= |items|
    requires AddOnSubtotal(addOns, items[..k]).Err?
    ensures AddOnSubtotal(addOns, items) == AddOnSubtotal(addOns, items[..k])
    decreases |items| - k
  {
    if k < |items| {
      assert items[..k + 1][..k] == items[..k];
      AddOnSubtotalFailsFrom(addOns, items, k + 1);
    } else {
      assert items[..k] == items;
    }
  }

  /** A failure in a prefix of the order lines is the failure of the whole order. */
  lemma {:induction false} OrderTotalFailsFrom(menus: map<string, Menu>, addOns: map<string, AddOn>, items: seq<MenuItem>, k: nat)
    requires k <= |items|
    requires OrderTotal(menus, addOns, items[..k]).Err?
    ensures OrderTotal(menus, addOns, items) == OrderTotal(menus, addOns, items[..k])
    decreases |items| - k
  {
    if k < |items| {
      assert items[..k + 1][..k] == items[..k];
      OrderTotalFailsFrom(menus, addOns, items, k + 1);
    } else {
      assert items[..k] == items;
    }
  }

  /** One more line: the total of a longer prefix adds that line's subtotal, or fails with its error. */
  lemma OrderTotalStep(menus: map<string, Menu>, addOns: map<string, AddOn>, items: seq<MenuItem>, i: nat, t: Money)
    requires i < |items| && OrderTotal(menus, addOns, items[..i]) == Ok(t)
    ensures LineSubtotal(menus, addOns, items[i]).Ok? ==>
              OrderTotal(menus, addOns, items[..i + 1]) == Ok(t + LineSubtotal(menus, addOns, items[i]).value)
    ensures LineSubtotal(menus, addOns, items[i]).Err? ==>
              OrderTotal(menus, addOns, items[..i + 1]) == Err(LineSubtotal(menus, addOns, items[i]).error)
  {
    assert items[..i + 1][..i] == items[..i];
    assert items[..i + 1][i] == items[i];
  }

  /** One more add-on: the subtotal of a longer prefix adds that add-on's amount, or names it as missing. */
  lemma AddOnSubtotalStep(addOns: map<string, AddOn>, items: seq<AddOnItem>, j: nat, sub: Money)
    requires j < |items| && AddOnSubtotal(addOns, items[..j]) == Ok(sub)
    ensures items[j].addOnId in addOns ==>
              AddOnSubtotal(addOns, items[..j + 1]) == Ok(sub + addOns[items[j].addOnId].price * items[j].quantity)
    ensures items[j].addOnId !in addOns ==>
              AddOnSubtotal(addOns, items[..j + 1]) == Err(AddOnNotFound(items[j].addOnId))
  {
    assert items[..j + 1][..j] == items[..j];
    assert items[..j + 1][j] == items[j];
  }

  /** The inner loop of `CreateOrder`'s pricing: the add-ons of one line, stopping at the first missing one. */
  method PriceAddOns(addOns: map<string, AddOn>, items: seq<AddOnItem>) returns (r: Result<Money, PricingError>)
    ensures r == AddOnSubtotal(addOns, items)
  {
    var addOnSubTotal: Money := 0;
    var j := 0;
    while j < |items|
      invariant 0 <= j <= |items|
      invariant AddOnSubtotal(addOns, items[..j]) == Ok(addOnSubTotal)
    {
      var addOnItem := items[j];
      AddOnSubtotalStep(addOns, items, j, addOnSubTotal);
      if addOnItem.addOnId !in addOns {
        AddOnSubtotalFailsFrom(addOns, items, j + 1);
        return Err(AddOnNotFound(addOnItem.addOnId));
      }
      addOnSubTotal := addOnSubTotal + addOns[addOnItem.addOnId].price * addOnItem.quantity;
      j := j + 1;
    }
    assert items[..j] == items;
    return Ok(addOnSubTotal);
  }

  /**
   * The pricing loops of `CreateOrder`: for each line, look the menu up and price it, then look
   * each add-on up and price it; the first failed lookup ends the computation.
   */
  method PriceOrder(menus: map<string, Menu>, addOns: map<string, AddOn>, items: seq<MenuItem>)
    returns (r: Result<Money, PricingError>)
    ensures r == OrderTotal(menus, addOns, items)
  {
    var totalAmount: Money := 0;
    var i := 0;
    while i < |items|
      invariant 0 <= i <= |items|
      invariant OrderTotal(menus, addOns, items[..i]) == Ok(totalAmount)
    {
      var menuItem := items[i];
      OrderTotalStep(menus, addOns, items, i, totalAmount);
      if menuItem.menuId !in menus {
        OrderTotalFailsFrom(menus, addOns, items, i + 1);
        return Err(MenuNotFound(menuItem.menuId));
      }
      var menu := menus[menuItem.menuId];
      var menuPrice := (menu.price - menu.discount) * menuItem.quantity;
      var addOnSubTotal := PriceAddOns(addOns, menuItem.addOnItems);
      if addOnSubTotal.Err? {
        OrderTotalFailsFrom(menus, addOns, items, i + 1);
        return Err(addOnSubTotal.error);
      }
      totalAmount := totalAmount + (menuPrice + addOnSubTotal.value);
      i := i + 1;
    }
    assert items[..i] == items;
    return Ok(totalAmount);
  }

  /** The worked example: menu 1000 less 100 discount, twice, with one add-on at 200. */
  lemma PricingExample()
    ensures var menus := map["m1" := Menu("m1", "Tea", "", "", 1000, 100, "c", "b", "", [], [], 0, 0)];
            var addOns := map["a1" := AddOn("a1", "m1", "Milk", "", 200, "", "", true, "", 0)];
            OrderTotal(menus, addOns, [MenuItem("m1", 2, "", [AddOnItem("a1", 1, "")])]) == Ok(2000)
  {
    var menus := map["m1" := Menu("m1", "Tea", "", "", 1000, 100, "c", "b", "", [], [], 0, 0)];
    var addOns := map["a1" := AddOn("a1", "m1", "Milk", "", 200, "", "", true, "", 0)];
    var items := [MenuItem("m1", 2, "", [AddOnItem("a1", 1, "")])];
    assert items[..0] == [];
    assert items[0].addOnItems[..0] == [];
    assert AddOnSubtotal(addOns, items[0].addOnItems) == Ok(200);
  }

  // ----- the order store -----

  datatype OrderError =
    | InvalidBranch
    | InvalidTable
    | Pricing(cause: PricingError)
    | DuplicateOrderId   // the insert is refused by the store's unique `_id`
    | OrderNotFound

  /** The order `CreateOrder` inserts: the request with a fresh id, the computed total, pending and unpaid. */
  function NewOrder(req: Order, newId: string, now: Time, total: Money): (o: Order)
    ensures o.status == StatusPending && !o.isPaid
    ensures o.orderId == newId && o.totalAmount == total && o.createdAt == now && o.updatedAt == now
    ensures o.branchId == req.branchId && o.tableId == req.tableId && o.menuItems == req.menuItems && o.note == req.note
  {
    req.(orderId := newId, isPaid := false, status := StatusPending, createdAt := now, updatedAt := now, totalAmount := total)
  }

  /** The `$set` of `UpdateOrder`: status, note, paid flag and update time, any values allowed. */
  function PatchOrder(o: Order, status: string, note: string, isPaid: bool, now: Time): (p: Order)
    ensures p.status == status && p.note == note && p.isPaid == isPaid && p.updatedAt == now
    ensures p.orderId == o.orderId && p.branchId == o.branchId && p.tableId == o.tableId
    ensures p.menuItems == o.menuItems && p.totalAmount == o.totalAmount && p.createdAt == o.createdAt
  {
    o.(status := status, note := note, isPaid := isPaid, updatedAt := now)
  }

  /** The order collection, keyed by `_id`. */
  class OrderStore {
    var orders: map<string, Order>

    constructor (orders: map<string, Order>)
      ensures this.orders == orders
    {
      this.orders := orders;
    }

    /**
     * `CreateOrder`: branch, then table, must exist; then the order is priced against the catalog;
     * only when all of that succeeds is the stamped order inserted under the fresh id.
     */
    method CreateOrder(branchIds: seq<string>, tableIds: seq<string>, menus: map<string, Menu>, addOns: map<string, AddOn>,
                       req: Order, newId: string, now: Time)
      returns (r: Result<Order, OrderError>)
      modifies this
      ensures req.branchId !in branchIds ==> r == Err(InvalidBranch) && orders == old(orders)
      ensures req.branchId in branchIds && req.tableId !in tableIds ==> r == Err(InvalidTable) && orders == old(orders)
      ensures req.branchId in branchIds && req.tableId in tableIds && OrderTotal(menus, addOns, req.menuItems).Err? ==>
                r == Err(Pricing(OrderTotal(menus, addOns, req.menuItems).error)) && orders == old(orders)
      ensures req.branchId in branchIds && req.tableId in tableIds && OrderTotal(menus, addOns, req.menuItems).Ok? ==>
                if newId in old(orders) then r == Err(DuplicateOrderId) && orders == old(orders)
                else r == Ok(NewOrder(req, newId, now, OrderTotal(menus, addOns, req.menuItems).value)) &&
                     orders == old(orders)[newId := r.value]
    {
      var branchExists := CheckDataExist(branchIds, (b: string) => b == req.branchId);
      if !branchExists {
        return Err(InvalidBranch);
      }
      var tableExists := CheckDataExist(tableIds, (t: string) => t == req.tableId);
      if !tableExists {
        return Err(InvalidTable);
      }
      var total := PriceOrder(menus, addOns, req.menuItems);
      if total.Err? {
        return Err(Pricing(total.error));
      }
      var order := NewOrder(req, newId, now, total.value);
      if newId in orders {
        return Err(DuplicateOrderId);
      }
      orders := orders[newId := order];
      return Ok(order);
    }

    /** `UpdateOrder`: overwrites status, note, paid flag and update time of an existing order. */
    method UpdateOrder(orderId: string, status: string, note: string, isPaid: bool, now: Time)
      returns (r: Outcome<OrderError>)
      modifies this
      ensures orderId !in old(orders) ==> r == Fail(OrderNotFound) && orders == old(orders)
      ensures orderId in old(orders) ==> r == Pass && orders == old(orders)[orderId := PatchOrder(old(orders)[orderId], status, note, isPaid, now)]
    {
      if orderId !in orders {
        return Fail(OrderNotFound);
      }
      orders := orders[orderId := PatchOrder(orders[orderId], status, note, isPaid, now)];
      return Pass;
    }

    /**
     * The store call `CreateSale` makes per listed id: find the order, set status "003" and paid,
     * and hand back the document as it was before the update.
     */
    method FindOneAndSettle(orderId: string) returns (pre: Option<Order>)
      modifies this
      ensures orderId !in old(orders) ==> pre == None && orders == old(orders)
      ensures orderId in old(orders) ==> pre == Some(old(orders)[orderId]) && orders == old(orders)[orderId := Settled(old(orders)[orderId])]
    {
      if orderId !in orders {
        return None;
      }
      pre := Some(orders[orderId]);
      orders := orders[orderId := Settled(orders[orderId])];
    }
  }

  /** The `$set` of the settlement: completed and paid, everything else kept. */
  function Settled(o: Order): (s: Order)
    ensures s.status == StatusCompleted && s.isPaid
    ensures s.orderId == o.orderId && s.totalAmount == o.totalAmount && s.menuItems == o.menuItems &&
            s.branchId == o.branchId && s.tableId == o.tableId && s.note == o.note &&
            s.createdAt == o.createdAt && s.updatedAt == o.updatedAt
  {
    o.(status := StatusCompleted, isPaid := true)
  }

  /** A new order is pending and unpaid whatever status and paid flag the request carried. */
  lemma NewOrderIgnoresRequestedState(req: Order, newId: string, now: Time, total: Money)
    ensures NewOrder(req, newId, now, total) == NewOrder(req.(status := "003", isPaid := true), newId, now, total)
  {
  }

  // ----- orderPipeline as a join -----

  /** The catalog entries, in catalog order, whose key satisfies `keep` (`$lookup` and `$filter` both select this way). */
  function Select<T>(xs: seq<T>, key: T -> string, ids: set<string>): (r: seq<T>)
    ensures |r| <= |xs|
  {
    if xs == [] then []
    else (if key(xs[0]) in ids then [xs[0]] else []) + Select(xs[1..], key, ids)
  }

  /** Narrowing a lookup on a set of ids to one of those ids is the same as looking that id up directly. */
  lemma {:induction false} SelectNarrows<T>(xs: seq<T>, key: T -> string, ids: set<string>, narrower: set<string>)
    requires narrower <= ids
    ensures Select(Select(xs, key, ids), key, narrower) == Select(xs, key, narrower)
  {
    if xs != [] {
      SelectNarrows(xs[1..], key, ids, narrower);
      var rest := Select(xs[1..], key, ids);
      if key(xs[0]) in ids {
        var s := [xs[0]] + rest;
        assert s[0] == xs[0] && s[1..] == rest;
        assert Select(xs, key, ids) == s;
        assert Select(s, key, narrower) == (if key(xs[0]) in narrower then [xs[0]] else []) + Select(rest, key, narrower);
      } else {
        assert Select(xs, key, ids) == [] + rest == rest;
        assert Select(xs, key, narrower) == [] + Select(xs[1..], key, narrower);
      }
    }
  }

  function MenuKey(m: Menu): string { m.menuId }
  function AddOnKey(a: AddOn): string { a.addOnId }

  datatype DetailedAddOnItem = DetailedAddOnItem(addOnId: string, note: string, quantity: int, addOnDetails: seq<AddOn>)

  datatype DetailedMenuItem = DetailedMenuItem(
    menuId: string, note: string, quantity: int, menuDetails: seq<Menu>, addOnItems: seq<DetailedAddOnItem>)

  /** An order as the pipeline returns it: its stored fields with the menu lines replaced by detailed ones. */
  datatype JoinedOrder = JoinedOrder(order: Order, menuItems: seq<DetailedMenuItem>)

  function MenuIdsOf(o: Order): set<string>
  {
    set i | 0 <= i < |o.menuItems| :: o.menuItems[i].menuId
  }

  function AddOnIdsOf(o: Order): set<string>
  {
    set i, j | 0 <= i < |o.menuItems| && 0 <= j < |o.menuItems[i].addOnItems| :: o.menuItems[i].addOnItems[j].addOnId
  }

  function DetailAddOn(item: AddOnItem, addOnDetails: seq<AddOn>): DetailedAddOnItem
  {
    DetailedAddOnItem(item.addOnId, item.note, item.quantity, Select(addOnDetails, AddOnKey, {item.addOnId}))
  }

  function DetailMenu(item: MenuItem, menuDetails: seq<Menu>, addOnDetails: seq<AddOn>): DetailedMenuItem
  {
    DetailedMenuItem(item.menuId, item.note, item.quantity, Select(menuDetails, MenuKey, {item.menuId}),
      seq(|item.addOnItems|, j requires 0 <= j < |item.addOnItems| => DetailAddOn(item.addOnItems[j], addOnDetails)))
  }

  /**
   * One order through the two `$lookup` stages (all catalog entries whose id the order mentions
   * anywhere) and the `$addFields` stage (each line keeps only the entries with its own id).
   */
  function Join(o: Order, menus: seq<Menu>, addOns: seq<AddOn>): (j: JoinedOrder)
    ensures j.order == o && |j.menuItems| == |o.menuItems|
  {
    var menuDetails := Select(menus, MenuKey, MenuIdsOf(o));
    var addOnDetails := Select(addOns, AddOnKey, AddOnIdsOf(o));
    JoinedOrder(o, seq(|o.menuItems|, i requires 0 <= i < |o.menuItems| => DetailMenu(o.menuItems[i], menuDetails, addOnDetails)))
  }

  /**
   * `orderPipeline(filter)`: `$match` (given as a predicate on orders), then the join. Every result
   * is a matching stored order joined with the catalogs, and every matching stored order has one.
   */
  function OrderPipeline(orders: seq<Order>, matches: Order -> bool, menus: seq<Menu>, addOns: seq<AddOn>): (r: seq<JoinedOrder>)
    ensures |r| <= |orders|
    ensures forall k :: 0 <= k < |r| ==> matches(r[k].order) && r[k].order in orders
    ensures forall k :: 0 <= k < |r| ==> r[k] == Join(r[k].order, menus, addOns)
  {
    if orders == [] then []
    else
      var rest := OrderPipeline(orders[1..], matches, menus, addOns);
      if matches(orders[0]) then [Join(orders[0], menus, addOns)] + rest else rest
  }

  /** Every matching stored order appears among the pipeline's results. */
  lemma {:induction false} OrderPipelineComplete(orders: seq<Order>, matches: Order -> bool, menus: seq<Menu>,
                                                  addOns: seq<AddOn>, o: Order)
    requires o in orders && matches(o)
    ensures exists k :: 0 <= k < |OrderPipeline(orders, matches, menus, addOns)| &&
                        OrderPipeline(orders, matches, menus, addOns)[k].order == o
  {
    var r := OrderPipeline(orders, matches, menus, addOns);
    var rest := OrderPipeline(orders[1..], matches, menus, addOns);
    if o == orders[0] {
      assert r[0].order == o;
    } else {
      assert o in orders[1..];
      OrderPipelineComplete(orders[1..], matches, menus, addOns, o);
      var k :| 0 <= k < |rest| && rest[k].order == o;
      if matches(orders[0]) {
        assert r[k + 1] == rest[k];
      } else {
        assert r[k] == rest[k];
      }
    }
  }

  /** The pipeline keeps the stored order: running it on two halves and concatenating is the same. */
  lemma {:induction false} OrderPipelineAppend(xs: seq<Order>, ys: seq<Order>, matches: Order -> bool,
                                                menus: seq<Menu>, addOns: seq<AddOn>)
    ensures OrderPipeline(xs + ys, matches, menus, addOns) ==
            OrderPipeline(xs, matches, menus, addOns) + OrderPipeline(ys, matches, menus, addOns)
  {
    if xs == [] {
      assert xs + ys == ys;
    } else {
      assert (xs + ys)[0] == xs[0] && (xs + ys)[1..] == xs[1..] + ys;
      OrderPipelineAppend(xs[1..], ys, matches, menus, addOns);
    }
  }

  /** A single stored order yields its join exactly when it matches. */
  lemma OrderPipelineSingle(o: Order, matches: Order -> bool, menus: seq<Menu>, addOns: seq<AddOn>)
    ensures OrderPipeline([o], matches, menus, addOns) == (if matches(o) then [Join(o, menus, addOns)] else [])
  {
    assert [o][1..] == [];
  }

  /**
   * Each line's `menu_details` is exactly the catalog menus with that line's `menu_id`, and each
   * add-on's `add_on_details` exactly the catalog add-ons with that add-on's id; the line's own
   * fields are carried over.
   */
  lemma JoinDetailsMatchIds(o: Order, menus: seq<Menu>, addOns: seq<AddOn>, i: nat, j: nat)
    requires i < |o.menuItems|
    ensures var line := Join(o, menus, addOns).menuItems[i];
            line.menuId == o.menuItems[i].menuId && line.quantity == o.menuItems[i].quantity &&
            line.note == o.menuItems[i].note &&
            line.menuDetails == Select(menus, MenuKey, {o.menuItems[i].menuId}) &&
            |line.addOnItems| == |o.menuItems[i].addOnItems|
    ensures j < |o.menuItems[i].addOnItems| ==>
              Join(o, menus, addOns).menuItems[i].addOnItems[j].addOnDetails ==
              Select(addOns, AddOnKey, {o.menuItems[i].addOnItems[j].addOnId})
  {
    assert o.menuItems[i].menuId in MenuIdsOf(o);
    SelectNarrows(menus, MenuKey, MenuIdsOf(o), {o.menuItems[i].menuId});
    if j < |o.menuItems[i].addOnItems| {
      assert o.menuItems[i].addOnItems[j].addOnId in AddOnIdsOf(o);
      SelectNarrows(addOns, AddOnKey, AddOnIdsOf(o), {o.menuItems[i].addOnItems[j].addOnId});
    }
  }
}
