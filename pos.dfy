/** The point-of-sale terminal: table selection, the pending orders of the
    selected table, the local ticket, sending a ticket to the kitchen, and the
    billing transaction. */
module Pos {
  import opened Types
  import opened Catalog
  import opened Demand
  import opened Reservation
  import opened Tally
  import opened Store

  datatype PayOutcome =
    /** No pending order, or no table: the click does nothing. */
    | NothingToPay
    | Attempted(result: Settlement)

  /** The order document `sendToKitchen` creates: no client and no type, and
      answered by the pending-orders query of its table. */
  function KitchenOrder(table: string, ticket: seq<MenuItem>): (r: Order)
    ensures PendingFor(r, table) && r.status == Pending
    ensures r.items == ticket && r.total == SumPrices(ticket)
    ensures r.client.None? && r.kind.None?
  {
    Order(table, None, ticket, SumPrices(ticket), Pending, None)
  }

  /** The demand of one order's items, per ingredient, summed over a list of orders. */
  function OrdersTotal(orders: seq<OrderDoc>, menu: seq<MenuItem>, g: Id): real {
    if orders == [] then 0.0 else Total(orders[0].order.items, menu, g) + OrdersTotal(orders[1..], menu, g)
  }

  /** Billing the orders together demands of each ingredient what billing
      them one at a time would demand in sum. */
  lemma {:induction false} BillingDemandIsSumOverOrders(orders: seq<OrderDoc>, menu: seq<MenuItem>, g: Id)
    ensures Total(ItemsOf(orders), menu, g) == OrdersTotal(orders, menu, g)
  {
    if orders != [] {
      TotalConcat(orders[0].order.items, ItemsOf(orders[1..]), menu, g);
      BillingDemandIsSumOverOrders(orders[1..], menu, g);
    }
  }

  /** The totals recorded on a list of order documents, summed. */
  function RecordedTotal(orders: seq<OrderDoc>): real {
    if orders == [] then 0.0 else orders[0].order.total + RecordedTotal(orders[1..])
  }

  /** When every order records the sum of its items' prices, as the orders
      the POS and the online checkout create do, the prices of all pending
      items add up to the recorded totals: the ticket total and the billed
      orders' totals agree. */
  lemma {:induction false} PendingPricesAreRecordedTotals(orders: seq<OrderDoc>)
    requires forall k :: 0 <= k < |orders| ==> orders[k].order.total == SumPrices(orders[k].order.items)
    ensures SumPrices(ItemsOf(orders)) == RecordedTotal(orders)
  {
    if orders != [] {
      SumPricesConcat(orders[0].order.items, ItemsOf(orders[1..]));
      PendingPricesAreRecordedTotals(orders[1..]);
    }
  }

  class Terminal {
    var menuCache: seq<MenuItem>
    var pendingOrders: seq<OrderDoc>
    /** `null` until a table button is clicked. */
    var currentTable: Option<string>
    /** The table whose pending orders the listener follows. */
    var watchedTable: Option<string>
    var ticket: seq<MenuItem>
    /** The aggregated lines and the total last rendered. */
    var shown: seq<Entry>
    var shownTotal: real
    var payDisabled: bool
    var sendDisabled: bool

    constructor()
      ensures menuCache == [] && pendingOrders == [] && currentTable == None && watchedTable == None && ticket == []
    {
      menuCache, pendingOrders, ticket := [], [], [];
      currentTable, watchedTable := None, None;
      shown, shownTotal := [], 0.0;
      payDisabled, sendDisabled := true, true;
    }

    /** `currentTable` is truthy: a table was selected and its name is not empty. */
    predicate HasTable()
      reads this
    {
      currentTable.Some? && currentTable.value != ""
    }

    /** The menu is read once at start-up. */
    method OnMenuLoaded(items: seq<MenuItem>)
      modifies this`menuCache
      ensures menuCache == items
    {
      menuCache := items;
    }

    /** A table button click: re-clicking the current table does nothing;
        another table becomes current and the pending-orders listener is moved
        to it. */
    method SelectTable(table: string)
      modifies this`currentTable, this`watchedTable
      ensures old(currentTable) == Some(table) ==> unchanged(this)
      ensures currentTable == Some(table)
      ensures old(currentTable) != Some(table) ==> watchedTable == Some(table)
    {
      if currentTable == Some(table) {
        return;
      }
      currentTable := Some(table);
      watchedTable := Some(table);
    }

    /** `renderTicket(items, allowEdit)`: the items aggregated per id with a
        count and their total; when editing, send is enabled exactly when the
        local ticket holds something. */
    method RenderTicket(items: seq<MenuItem>, allowEdit: bool)
      modifies this`shown, this`shownTotal, this`sendDisabled
      ensures shown == Aggregated(items) && shownTotal == EntriesTotal(shown)
      ensures allowEdit ==> sendDisabled == (|ticket| == 0)
      ensures !allowEdit ==> sendDisabled == old(sendDisabled)
    {
      shown := Aggregated(items);
      shownTotal := ShownTotal(shown);
      if allowEdit {
        sendDisabled := |ticket| == 0;
      }
    }

    /** The pending-orders listener: the snapshot (the table's orders that are
        waiting or in preparation) replaces the pending orders, the local
        ticket is reset, the combined items are rendered, and pay is disabled
        exactly when there is no item to pay. */
    method OnPendingOrders(snapshot: seq<OrderDoc>)
      requires watchedTable.Some?
      requires forall k :: 0 <= k < |snapshot| ==> PendingFor(snapshot[k].order, watchedTable.value)
      modifies this`pendingOrders, this`ticket, this`shown, this`shownTotal, this`payDisabled, this`sendDisabled
      ensures pendingOrders == snapshot && ticket == []
      ensures shown == Aggregated(ItemsOf(snapshot)) && shownTotal == EntriesTotal(shown)
      ensures payDisabled == (|ItemsOf(snapshot)| == 0) && sendDisabled
    {
      pendingOrders := snapshot;
      ticket := [];
      var combined := ItemsOf(pendingOrders);
      RenderTicket(combined, false);
      payDisabled := |combined| == 0;
      sendDisabled := true;
    }

    /** The menu click handler: rejected without a table; otherwise a copy of
        the menu item is appended to the local ticket and the pending items
        followed by the ticket are rendered. */
    method AddToTicket(id: Id) returns (added: bool)
      modifies this`ticket, this`shown, this`shownTotal, this`sendDisabled
      ensures added <==> old(HasTable()) && Find(menuCache, id).Some?
      ensures added ==> ticket == old(ticket) + [Find(menuCache, id).value]
      ensures added ==> shown == Aggregated(ItemsOf(pendingOrders) + ticket) && shownTotal == EntriesTotal(shown) && !sendDisabled
      ensures !added ==> unchanged(this)
    {
      if !HasTable() {
        return false;
      }
      var found := Find(menuCache, id);
      if found.None? {
        return false;
      }
      ticket := ticket + [found.value];
      RenderTicket(ItemsOf(pendingOrders) + ticket, true);
      added := true;
    }

    /** The send-to-kitchen handler: nothing without a ticket or a table;
        otherwise one order document holding the ticket is created for the
        table and the ticket is cleared (the rendered lines stay until the
        listener fires). */
    method SendToKitchen(db: Ledger, newId: Id) returns (sent: bool)
      requires newId !in db.orders
      modifies this`ticket, this`sendDisabled, db`orders
      ensures sent <==> |old(ticket)| > 0 && HasTable()
      ensures sent ==> db.orders == old(db.orders)[newId := KitchenOrder(currentTable.value, old(ticket))]
      ensures sent ==> ticket == [] && sendDisabled
      ensures !sent ==> unchanged(this) && unchanged(db)
    {
      if |ticket| == 0 || !HasTable() {
        return false;
      }
      var total := SumPrices(ticket);
      db.AddOrder(newId, Order(currentTable.value, None, ticket, total, Pending, None));
      ticket := [];
      sendDisabled := true;
      sent := true;
    }

    /** The pay handler: nothing without pending orders or a table; otherwise
        the demand of every item of every pending order is aggregated from the
        menu cache's recipes and the billing transaction runs. Afterwards the
        pay button is enabled again, whatever the outcome. */
    method PayBill(db: Ledger) returns (outcome: PayOutcome)
      modifies this`payDisabled, db`ingredients, db`orders
      ensures outcome == NothingToPay <==> |pendingOrders| == 0 || !HasTable()
      ensures outcome == NothingToPay ==> unchanged(this) && unchanged(db)
      ensures outcome.Attempted? ==>
        var d := DemandOf(ItemsOf(pendingOrders), menuCache);
        var ids := IdsOf(pendingOrders);
        && (Shortage(old(db.ingredients), d).Some? ==> outcome.result == SettleShort(Shortage(old(db.ingredients), d).value))
        && (outcome.result.SettleOk? <==> Shortage(old(db.ingredients), d).None? && FirstMissing(old(db.orders), ids).None?)
        && (outcome.result.SettleOk? ==>
              db.ingredients == Deducted(old(db.ingredients), d) && db.orders == MarkedPaid(old(db.orders), ids))
        && (!outcome.result.SettleOk? ==> db.ingredients == old(db.ingredients) && db.orders == old(db.orders))
        && !payDisabled
      ensures db.menu == old(db.menu)
      ensures old(db.StockNonNegative()) ==> db.StockNonNegative()
    {
      if |pendingOrders| == 0 || !HasTable() {
        return NothingToPay;
      }
      payDisabled := true;
      var itemsToPay := ItemsOf(pendingOrders);
      var d := AggregateDemand(itemsToPay, menuCache);
      var result := db.SettleOrders(d, IdsOf(pendingOrders));
      payDisabled := false;
      outcome := Attempted(result);
    }
  }

  /** A successful billing leaves none of the billed orders pending for the
      table, and every other order exactly as it was. */
  lemma PaidOrdersLeaveTheTable(orders: map<Id, Order>, pending: seq<OrderDoc>, table: string, o: Id)
    requires o in orders
    ensures o in IdsOf(pending) ==> !PendingFor(MarkedPaid(orders, IdsOf(pending))[o], table)
    ensures (forall k :: 0 <= k < |pending| ==> pending[k].id != o) ==> MarkedPaid(orders, IdsOf(pending))[o] == orders[o]
  {
    if o in IdsOf(pending) {
      PaidLeavesPendingQuery(orders, IdsOf(pending), o, table);
    }
  }
}
