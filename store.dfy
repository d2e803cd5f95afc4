/** The document store the three pages share: the `ingredients`, `menu` and
    `orders` collections, keyed by document id. A transaction is one atomic
    step over these maps: either all of its writes happen or none does. */
module Store {
  import opened Types
  import opened Demand
  import opened Reservation

  /** The result of the billing transaction. */
  datatype Settlement =
    | SettleOk
      /** The check threw `Stock insuffisant pour: <id>`. */
    | SettleShort(ingredientId: Id)
      /** An `update` of an order document that does not exist aborts the commit. */
    | SettleAborted(orderId: Id)

  /** The orders after every order whose id is in `ids` has been given status
      "Payée"; every other order is left as it is. */
  function MarkedPaid(orders: map<Id, Order>, ids: seq<Id>): (r: map<Id, Order>)
    ensures r.Keys == orders.Keys
    ensures forall o :: o in orders && o in ids ==> r[o] == orders[o].(status := Paid)
    ensures forall o :: o in orders && o !in ids ==> r[o] == orders[o]
  {
    map o | o in orders :: if o in ids then orders[o].(status := Paid) else orders[o]
  }

  /** The first of `ids` that names no order, if any. */
  function FirstMissing(orders: map<Id, Order>, ids: seq<Id>): (r: Option<Id>)
    ensures r.None? <==> forall k :: 0 <= k < |ids| ==> ids[k] in orders
    ensures r.Some? ==> r.value in ids && r.value !in orders
  {
    if ids == [] then None
    else if ids[0] !in orders then Some(ids[0])
    else
      var r := FirstMissing(orders, ids[1..]);
      assert r.None? ==> forall k :: 0 <= k < |ids| ==> ids[k] in orders by {
        if r.None? {
          forall k | 0 <= k < |ids| ensures ids[k] in orders {
            if k > 0 { assert ids[k] == ids[1..][k - 1]; }
          }
        }
      }
      r
  }

  /** Every menu document's recipe holds only lines with an ingredient and a
      positive quantity, as the recipe builder produces them. */
  predicate RecipesValid(menu: map<Id, Dish>) {
    forall id, i :: id in menu && 0 <= i < |menu[id].recipe| ==> ValidLine(menu[id].recipe[i])
  }

  class Ledger {
    var ingredients: map<Id, Ingredient>
    var menu: map<Id, Dish>
    var orders: map<Id, Order>

    constructor(ingredients: map<Id, Ingredient>, menu: map<Id, Dish>, orders: map<Id, Order>)
      ensures this.ingredients == ingredients && this.menu == menu && this.orders == orders
    {
      this.ingredients := ingredients;
      this.menu := menu;
      this.orders := orders;
    }

    /** No ingredient has a negative stock level. */
    predicate StockNonNegative()
      reads this
    {
      Reservation.StockNonNegative(ingredients)
    }

    /** The check loop of a reservation: the demanded ingredients are read in
        the order of the demand's keys, and the first one that is missing or
        has less stock than its demand is reported. Nothing is written. */
    method CheckStock(d: Deductions) returns (short: Option<Id>)
      requires WellFormed(d)
      ensures short == Shortage(ingredients, d)
    {
      var k := 0;
      while k < |d.keys|
        invariant 0 <= k <= |d.keys|
        invariant FirstShort(ingredients, d, d.keys) == FirstShort(ingredients, d, d.keys[k..])
      {
        assert d.keys[k..][1..] == d.keys[k + 1..];
        var g := d.keys[k];
        if g !in ingredients || ingredients[g].stock < d.amount[g] {
          return Some(g);
        }
        k := k + 1;
      }
      short := None;
    }

    /** The deduction loop: each demanded ingredient's stock becomes its old
        stock minus its demand. */
    method Deduct(d: Deductions)
      requires WellFormed(d)
      requires forall g :: g in d.amount ==> g in ingredients
      modifies this`ingredients
      ensures ingredients == Deducted(old(ingredients), d)
    {
      ghost var start := ingredients;
      var k := 0;
      while k < |d.keys|
        invariant 0 <= k <= |d.keys|
        invariant ingredients.Keys == start.Keys
        invariant forall g :: g in start ==>
          ingredients[g] == if g in d.keys[..k] then start[g].(stock := start[g].stock - d.amount[g]) else start[g]
      {
        var g := d.keys[k];
        assert g !in d.keys[..k];
        ingredients := ingredients[g := ingredients[g].(stock := ingredients[g].stock - d.amount[g])];
        assert d.keys[..k + 1] == d.keys[..k] + [g];
        k := k + 1;
      }
      assert d.keys[..k] == d.keys;
    }

    /** The status loop of billing: every listed order becomes "Payée". */
    method MarkPaid(ids: seq<Id>)
      requires forall k :: 0 <= k < |ids| ==> ids[k] in orders
      modifies this`orders
      ensures orders == MarkedPaid(old(orders), ids)
    {
      ghost var start := orders;
      for k := 0 to |ids|
        invariant orders.Keys == start.Keys
        invariant orders == MarkedPaid(start, ids[..k])
      {
        assert ids[..k + 1] == ids[..k] + [ids[k]];
        orders := orders[ids[k] := orders[ids[k]].(status := Paid)];
      }
      assert ids[..|ids|] == ids;
    }

    /** The online checkout transaction: check the demand, then deduct it and
        create the order document `orderId`, all or nothing. */
    method PlaceOrder(d: Deductions, orderId: Id, order: Order) returns (short: Option<Id>)
      requires WellFormed(d)
      requires orderId !in orders
      modifies this`ingredients, this`orders
      ensures short == Shortage(old(ingredients), d)
      ensures short.None? ==> ingredients == Deducted(old(ingredients), d) && orders == old(orders)[orderId := order]
      ensures short.Some? ==> ingredients == old(ingredients) && orders == old(orders)
      ensures old(StockNonNegative()) ==> StockNonNegative()
      ensures menu == old(menu)
    {
      short := CheckStock(d);
      if short.None? {
        ShortageIff(ingredients, d);
        if StockNonNegative() {
          DeductionKeepsStockNonNegative(ingredients, d);
        }
        Deduct(d);
        orders := orders[orderId := order];
      }
    }

    /** The billing transaction: check the demand, then deduct it and mark
        every listed order paid, all or nothing. A listed order that no longer
        exists makes the commit fail after the check has passed. */
    method SettleOrders(d: Deductions, ids: seq<Id>) returns (outcome: Settlement)
      requires WellFormed(d)
      modifies this`ingredients, this`orders
      ensures Shortage(old(ingredients), d).Some? ==> outcome == SettleShort(Shortage(old(ingredients), d).value)
      ensures Shortage(old(ingredients), d).None? && FirstMissing(old(orders), ids).Some? ==>
        outcome == SettleAborted(FirstMissing(old(orders), ids).value)
      ensures outcome.SettleOk? <==> Shortage(old(ingredients), d).None? && FirstMissing(old(orders), ids).None?
      ensures outcome.SettleOk? ==> ingredients == Deducted(old(ingredients), d) && orders == MarkedPaid(old(orders), ids)
      ensures !outcome.SettleOk? ==> ingredients == old(ingredients) && orders == old(orders)
      ensures old(StockNonNegative()) ==> StockNonNegative()
      ensures menu == old(menu)
    {
      var short := CheckStock(d);
      if short.Some? {
        return SettleShort(short.value);
      }
      var missing := FirstMissing(orders, ids);
      if missing.Some? {
        return SettleAborted(missing.value);
      }
      ShortageIff(ingredients, d);
      if StockNonNegative() {
        DeductionKeepsStockNonNegative(ingredients, d);
      }
      Deduct(d);
      MarkPaid(ids);
      outcome := SettleOk;
    }

    /** `addDoc` on the orders collection, outside any transaction. */
    method AddOrder(orderId: Id, order: Order)
      requires orderId !in orders
      modifies this`orders
      ensures orders == old(orders)[orderId := order]
    {
      orders := orders[orderId := order];
    }

    /** `setDoc` / `addDoc` on the menu collection: the document is replaced
        wholesale, or created. */
    method PutDish(id: Id, dish: Dish)
      modifies this`menu
      ensures menu == old(menu)[id := dish]
    {
      menu := menu[id := dish];
    }
  }

  /** `where("table", "==", tableId)` and `where("status", "in", ["En attente", "En préparation"])`. */
  predicate PendingFor(order: Order, table: string) {
    order.table == table && (order.status == Pending || order.status == InPreparation)
  }

  /** Once billed, an order no longer answers the pending-orders query of any table. */
  lemma PaidLeavesPendingQuery(orders: map<Id, Order>, ids: seq<Id>, o: Id, table: string)
    requires o in orders && o in ids
    ensures !PendingFor(MarkedPaid(orders, ids)[o], table)
  {
  }
}
