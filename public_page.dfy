/** The public ordering page: the menu with its advisory availability flag, the
    cart, and the online checkout transaction. */
module PublicPage {
  import opened Types
  import opened Catalog
  import opened Demand
  import opened Reservation
  import opened Availability
  import opened Tally
  import opened Store

  datatype CheckoutOutcome =
    | EmptyCart
    | Placed(orderId: Id)
      /** The transaction threw on this ingredient; nothing was written. */
    | OutOfStock(ingredientId: Id)

  /** `name.split(' ')[0]`: the name up to its first space. */
  function FirstWord(s: string): (w: string)
    ensures w <= s
    ensures ' ' !in w
    ensures |w| < |s| ==> s[|w|] == ' '
  {
    if s == [] || s[0] == ' ' then [] else [s[0]] + FirstWord(s[1..])
  }

  /** A first name followed by a space and anything else yields that first name. */
  lemma {:induction false} FirstWordOfFullName(first: string, rest: string)
    requires ' ' !in first
    ensures FirstWord(first + " " + rest) == first
  {
    if first != [] {
      assert (first + " " + rest)[1..] == first[1..] + " " + rest;
      FirstWordOfFullName(first[1..], rest);
    }
  }

  /** The order document the checkout creates: waiting at the table
      "Online-" followed by the client's first name, holding the cart and the
      sum of its prices. */
  function OnlineOrder(cart: seq<MenuItem>, clientName: string, clientPhone: string): (r: Order)
    ensures PendingFor(r, "Online-" + FirstWord(clientName))
    ensures |r.table| >= 7 && r.table[..7] == "Online-" && ' ' !in r.table[7..]
    ensures r.items == cart && r.total == SumPrices(cart)
    ensures r.client == Some(Client(clientName, clientPhone)) && r.kind == Some("Online")
  {
    assert ("Online-" + FirstWord(clientName))[7..] == FirstWord(clientName);
    Order("Online-" + FirstWord(clientName), Some(Client(clientName, clientPhone)), cart,
          SumPrices(cart), Pending, Some("Online"))
  }

  class OrderPage {
    var menuCache: seq<MenuItem>
    var stockCache: seq<StockEntry>
    var cart: seq<MenuItem>
    /** The aggregated cart lines and the total last rendered. */
    var shown: seq<Entry>
    var shownTotal: real
    var confirmDisabled: bool

    constructor()
      ensures menuCache == [] && stockCache == [] && cart == [] && CartShown()
    {
      menuCache, stockCache, cart := [], [], [];
      shown, shownTotal, confirmDisabled := [], 0.0, true;
    }

    /** What `renderCart` leaves on screen for the current cart. */
    predicate CartShown()
      reads this
    {
      shown == Aggregated(cart) && shownTotal == EntriesTotal(shown) && confirmDisabled == (|cart| == 0)
    }

    /** `renderCart`: the cart aggregated per id with a count, the total of
        price × count, and the confirm button enabled exactly when the cart
        holds something. */
    method RenderCart()
      modifies this`shown, this`shownTotal, this`confirmDisabled
      ensures CartShown()
    {
      if |cart| == 0 {
        shown, shownTotal, confirmDisabled := [], 0.0, true;
        return;
      }
      shown := Aggregated(cart);
      shownTotal := ShownTotal(shown);
      confirmDisabled := false;
    }

    /** The stock listener: the cache is replaced by the snapshot. */
    method OnStockSnapshot(entries: seq<StockEntry>)
      modifies this`stockCache
      ensures stockCache == entries
    {
      stockCache := entries;
    }

    /** The menu listener: the cache is replaced by the snapshot. */
    method OnMenuSnapshot(items: seq<MenuItem>)
      modifies this`menuCache
      ensures menuCache == items
    {
      menuCache := items;
    }

    /** A menu button is enabled for an item found in the menu cache that is
        orderable against the stock cache; the menu is not drawn at all while
        the stock cache is empty. */
    predicate CanAdd(id: Id)
      reads this
    {
      |stockCache| > 0 && Find(menuCache, id).Some? && Orderable(Find(menuCache, id).value, stockCache)
    }

    /** The menu click handler: a copy of the menu item is appended to the cart. */
    method AddToCart(id: Id) returns (added: bool)
      modifies this`cart, this`shown, this`shownTotal, this`confirmDisabled
      ensures added == old(CanAdd(id))
      ensures added ==> cart == old(cart) + [Find(menuCache, id).value] && CartShown()
      ensures !added ==> unchanged(this)
    {
      if |stockCache| == 0 {
        return false;
      }
      var found := Find(menuCache, id);
      if found.None? || !Orderable(found.value, stockCache) {
        return false;
      }
      cart := cart + [found.value];
      RenderCart();
      added := true;
    }

    /** The cart's remove handler: `findIndex` then `splice(index, 1)`. */
    method RemoveFromCart(id: Id)
      modifies this`cart, this`shown, this`shownTotal, this`confirmDisabled
      ensures cart == RemoveFirst(old(cart), id)
      ensures CartShown()
    {
      RemoveFirstIsSplice(cart, id);
      var index := FirstIndex(cart, id);
      if index.Some? {
        cart := cart[..index.value] + cart[index.value + 1..];
      }
      RenderCart();
    }

    /** The order form's submit handler. An empty cart does nothing. Otherwise
        the demand of the cart is aggregated from the menu cache's recipes and
        the transaction runs: on success the stock is deducted, the order
        document `newId` is created and the cart is emptied; on a shortage
        nothing is written and the cart stays as it was. */
    method Checkout(db: Ledger, clientName: string, clientPhone: string, newId: Id) returns (outcome: CheckoutOutcome)
      requires newId !in db.orders
      modifies this`cart, this`shown, this`shownTotal, this`confirmDisabled, db`ingredients, db`orders
      ensures |old(cart)| == 0 ==> outcome == EmptyCart && unchanged(this) && unchanged(db)
      ensures |old(cart)| > 0 && Shortage(old(db.ingredients), DemandOf(old(cart), menuCache)).None? ==>
        && outcome == Placed(newId)
        && db.ingredients == Deducted(old(db.ingredients), DemandOf(old(cart), menuCache))
        && db.orders == old(db.orders)[newId := OnlineOrder(old(cart), clientName, clientPhone)]
        && cart == [] && CartShown()
      ensures |old(cart)| > 0 && Shortage(old(db.ingredients), DemandOf(old(cart), menuCache)).Some? ==>
        && outcome == OutOfStock(Shortage(old(db.ingredients), DemandOf(old(cart), menuCache)).value)
        && db.ingredients == old(db.ingredients) && db.orders == old(db.orders)
        && cart == old(cart) && !confirmDisabled
        && shown == old(shown) && shownTotal == old(shownTotal)
      ensures db.menu == old(db.menu)
      ensures old(db.StockNonNegative()) ==> db.StockNonNegative()
    {
      if |cart| == 0 {
        return EmptyCart;
      }
      confirmDisabled := true;
      var total := SumPrices(cart);
      var d := AggregateDemand(cart, menuCache);
      var order := Order("Online-" + FirstWord(clientName), Some(Client(clientName, clientPhone)), cart,
                         total, Pending, Some("Online"));
      var short := db.PlaceOrder(d, newId, order);
      if short.None? {
        cart := [];
        RenderCart();
        outcome := Placed(newId);
      } else {
        confirmDisabled := false;
        outcome := OutOfStock(short.value);
      }
    }
  }

  /** After a cart change, every item of the cart appears once in the rendered
      lines with its number of copies, and the rendered total is the sum of the
      cart's prices when the copies of one item carry one price. */
  lemma RenderedCartMatchesCart(page: OrderPage, k: nat)
    requires page.CartShown()
    requires k < |page.cart|
    ensures EntryIndex(page.shown, page.cart[k].id).Some?
    ensures page.shown[EntryIndex(page.shown, page.cart[k].id).value].count == Count(page.cart, page.cart[k].id)
    ensures UniformPrices(page.cart) ==> page.shownTotal == SumPrices(page.cart)
  {
    TallySpec(page.cart);
    if UniformPrices(page.cart) {
      ShownTotalIsSumOfPrices(page.cart);
    }
  }
}
