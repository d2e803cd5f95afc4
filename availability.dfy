/** The advisory "orderable now" flag of the public menu (`checkStockAvailability`),
    computed from the page's stock cache and one unit of the item. */
module Availability {
  import opened Types
  import opened Catalog
  import opened Demand
  import opened Reservation

  /** The cache holds the line's ingredient with at least `qty` in stock. */
  predicate Covered(cache: seq<StockEntry>, line: RecipeLine) {
    match StockLevel(cache, line.ingredientId)
    case None => false
    case Some(level) => !(level < line.qty)
  }

  /** The `for ... of` loop over the recipe, returning false at the first line not covered. */
  function LinesCovered(cache: seq<StockEntry>, lines: seq<RecipeLine>): (r: bool)
    ensures r <==> forall i :: 0 <= i < |lines| ==> Covered(cache, lines[i])
  {
    if lines == [] then true
    else if !Covered(cache, lines[0]) then false
    else
      var r := LinesCovered(cache, lines[1..]);
      assert r ==> forall i :: 1 <= i < |lines| ==> Covered(cache, lines[i]) by {
        if r {
          forall i | 1 <= i < |lines| ensures Covered(cache, lines[i]) {
            assert lines[i] == lines[1..][i - 1];
          }
        }
      }
      r
  }

  /** `checkStockAvailability(menuItem)`: an item without a recipe is always
      available; otherwise it is unavailable exactly when some recipe line's
      ingredient is absent from the cache or has strictly less stock than that
      line's `qty`. Each line is checked on its own, against one unit. */
  function Orderable(item: MenuItem, cache: seq<StockEntry>): (r: bool)
    ensures |item.recipe| == 0 ==> r
    ensures !r <==> (exists i :: 0 <= i < |item.recipe| &&
                      (StockLevel(cache, item.recipe[i].ingredientId).None? ||
                       StockLevel(cache, item.recipe[i].ingredientId).value < item.recipe[i].qty))
  {
    if |item.recipe| == 0 then true else LinesCovered(cache, item.recipe)
  }

  /** The page's stock cache shows the store's ingredient documents as they are. */
  ghost predicate CacheMirrors(cache: seq<StockEntry>, ings: map<Id, Ingredient>) {
    forall g :: StockLevel(cache, g) == if g in ings then Some(ings[g].stock) else None
  }

  /** A reservation that passes its check proves every item of the cart was
      orderable against the same stock (given non-negative recipe quantities):
      the transaction's check is at least as strict as the advisory flag. The
      converse fails, see `Scenarios.AvailableButShort`. */
  lemma PassedCheckImpliesOrderable(items: seq<MenuItem>, menu: seq<MenuItem>,
                                    cache: seq<StockEntry>, ings: map<Id, Ingredient>, k: nat)
    requires k < |items|
    requires CacheMirrors(cache, ings)
    requires NonNegativeRecipes(menu)
    requires Shortage(ings, DemandOf(items, menu)).None?
    requires Find(menu, items[k].id).Some?
    ensures Orderable(Find(menu, items[k].id).value, cache)
  {
    var m := Find(menu, items[k].id).value;
    var d := DemandOf(items, menu);
    assert RecipeFor(menu, items[k]) == m.recipe;
    forall i | 0 <= i < |m.recipe| ensures Covered(cache, m.recipe[i]) {
      var g := m.recipe[i].ingredientId;
      DemandSpec(items, menu, g);
      assert items[k] in items;
      assert Mentions(items, menu, g);
      LineTotalAtLeast(m.recipe, i);
      TotalAtLeast(items, menu, k, g);
      ShortageIff(ings, d);
      assert StockLevel(cache, g) == Some(ings[g].stock);
    }
  }
}
