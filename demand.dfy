/** Demand aggregation: the first step of both reservation transactions (online
    checkout and POS billing). Every purchased item is resolved against the
    menu cache, and the `qty` of each line of its recipe is added to a running
    total per ingredient. */
module Demand {
  import opened Types
  import opened Catalog

  /** The `stockDeductions` Map: an amount per ingredient, together with the
      order in which its keys were first inserted (the order in which the
      transaction reads and checks the ingredients). */
  datatype Deductions = Deductions(keys: seq<Id>, amount: map<Id, real>)

  const NoDeductions := Deductions([], map[])

  /** The keys are distinct and are exactly the ingredients that have an amount. */
  predicate WellFormed(d: Deductions) {
    && (forall i, j :: 0 <= i < j < |d.keys| ==> d.keys[i] != d.keys[j])
    && (forall g :: g in d.keys ==> g in d.amount)
    && (forall g :: g in d.amount ==> g in d.keys)
  }

  /** The amount demanded of `g`, zero when `g` has no entry (`get(g) || 0`). */
  function Get(d: Deductions, g: Id): real {
    if g in d.amount then d.amount[g] else 0.0
  }

  /** `set(id, (get(id) || 0) + qty)`: a new key goes to the end, an existing one keeps its place. */
  function AddLine(d: Deductions, line: RecipeLine): (r: Deductions)
    ensures line.ingredientId in r.amount && Get(r, line.ingredientId) == Get(d, line.ingredientId) + line.qty
    ensures forall h :: h != line.ingredientId ==> (h in r.amount <==> h in d.amount) && Get(r, h) == Get(d, h)
    ensures d.keys <= r.keys && |r.keys| <= |d.keys| + 1
  {
    var g := line.ingredientId;
    Deductions(if g in d.amount then d.keys else d.keys + [g], d.amount[g := Get(d, g) + line.qty])
  }

  function AddRecipe(d: Deductions, lines: seq<RecipeLine>): Deductions
    decreases |lines|
  {
    if lines == [] then d else AddRecipe(AddLine(d, lines[0]), lines[1..])
  }

  /** The recipe the transaction uses for a purchased item: the one the menu
      cache holds now for the item's id, never the copy carried by the item.
      An item missing from the menu contributes no lines. */
  function RecipeFor(menu: seq<MenuItem>, item: MenuItem): seq<RecipeLine> {
    match Find(menu, item.id)
    case Some(m) => m.recipe
    case None => []
  }

  function Accumulate(d: Deductions, items: seq<MenuItem>, menu: seq<MenuItem>): Deductions
    decreases |items|
  {
    if items == [] then d else Accumulate(AddRecipe(d, RecipeFor(menu, items[0])), items[1..], menu)
  }

  /** The demand of a list of purchased items against a menu cache. */
  function DemandOf(items: seq<MenuItem>, menu: seq<MenuItem>): Deductions {
    Accumulate(NoDeductions, items, menu)
  }

  // ---- Reference definitions: the demand stated per ingredient ----

  /** The sum of `qty` over the lines of `lines` that name `g`. */
  function LineTotal(lines: seq<RecipeLine>, g: Id): real {
    if lines == [] then 0.0
    else (if lines[0].ingredientId == g then lines[0].qty else 0.0) + LineTotal(lines[1..], g)
  }

  /** The sum of `qty` over every line naming `g` of every resolved item. */
  function Total(items: seq<MenuItem>, menu: seq<MenuItem>, g: Id): real {
    if items == [] then 0.0 else LineTotal(RecipeFor(menu, items[0]), g) + Total(items[1..], menu, g)
  }

  predicate Names(lines: seq<RecipeLine>, g: Id) {
    exists i :: 0 <= i < |lines| && lines[i].ingredientId == g
  }

  /** Some resolved recipe of some purchased item has a line naming `g`. */
  predicate Mentions(items: seq<MenuItem>, menu: seq<MenuItem>, g: Id) {
    exists item :: item in items && Names(RecipeFor(menu, item), g)
  }

  /** Every recipe in the menu cache has only non-negative quantities (the
      admin recipe builder accepts only positive ones). */
  predicate NonNegativeRecipes(menu: seq<MenuItem>) {
    forall m, line :: m in menu && line in m.recipe ==> line.qty >= 0.0
  }

  // ---- The loops of the two transactions ----

  /** The nested loops that fill `stockDeductions` (online checkout and POS
      billing run the same loops over the cart and over the pending orders'
      items respectively). */
  method AggregateDemand(items: seq<MenuItem>, menu: seq<MenuItem>) returns (d: Deductions)
    ensures d == DemandOf(items, menu)
    ensures WellFormed(d)
  {
    d := NoDeductions;
    var i := 0;
    while i < |items|
      invariant 0 <= i <= |items|
      invariant Accumulate(d, items[i..], menu) == DemandOf(items, menu)
    {
      AccumulateStep(d, items, i, menu);
      d := AddRecipeLines(d, RecipeFor(menu, items[i]));
      i := i + 1;
    }
    assert items[i..] == [];
    AccumulateWellFormed(NoDeductions, items, menu);
  }

  /** The inner loop: each line of one recipe is added to the running demand
      with `set(id, (get(id) || 0) + qty)`. */
  method AddRecipeLines(d0: Deductions, lines: seq<RecipeLine>) returns (d: Deductions)
    ensures d == AddRecipe(d0, lines)
  {
    d := d0;
    var j := 0;
    assert lines[0..] == lines;
    while j < |lines|
      invariant 0 <= j <= |lines|
      invariant AddRecipe(d, lines[j..]) == AddRecipe(d0, lines)
    {
      AddRecipeStep(d, lines, j);
      d := AddLine(d, lines[j]);
      j := j + 1;
    }
    assert lines[j..] == [];
  }

  /** One turn of the outer loop folds the next item's recipe in. */
  lemma AccumulateStep(d: Deductions, items: seq<MenuItem>, i: nat, menu: seq<MenuItem>)
    requires i < |items|
    ensures Accumulate(d, items[i..], menu) == Accumulate(AddRecipe(d, RecipeFor(menu, items[i])), items[i + 1..], menu)
  {
    assert items[i..][1..] == items[i + 1..];
  }

  /** One turn of the inner loop adds the next line. */
  lemma AddRecipeStep(d: Deductions, lines: seq<RecipeLine>, j: nat)
    requires j < |lines|
    ensures AddRecipe(d, lines[j..]) == AddRecipe(AddLine(d, lines[j]), lines[j + 1..])
  {
    assert lines[j..][1..] == lines[j + 1..];
  }

  // ---- Properties ----

  lemma AddLineWellFormed(d: Deductions, line: RecipeLine)
    requires WellFormed(d)
    ensures WellFormed(AddLine(d, line))
  {
  }

  lemma {:induction false} AddRecipeWellFormed(d: Deductions, lines: seq<RecipeLine>)
    requires WellFormed(d)
    ensures WellFormed(AddRecipe(d, lines))
    decreases |lines|
  {
    if lines != [] {
      AddLineWellFormed(d, lines[0]);
      AddRecipeWellFormed(AddLine(d, lines[0]), lines[1..]);
    }
  }

  lemma {:induction false} AccumulateWellFormed(d: Deductions, items: seq<MenuItem>, menu: seq<MenuItem>)
    requires WellFormed(d)
    ensures WellFormed(Accumulate(d, items, menu))
    decreases |items|
  {
    if items != [] {
      AddRecipeWellFormed(d, RecipeFor(menu, items[0]));
      AccumulateWellFormed(AddRecipe(d, RecipeFor(menu, items[0])), items[1..], menu);
    }
  }

  /** Folding a recipe into `d` adds each line's `qty` to its ingredient. */
  lemma {:induction false} AddRecipeAt(d: Deductions, lines: seq<RecipeLine>, g: Id)
    ensures g in AddRecipe(d, lines).amount <==> g in d.amount || Names(lines, g)
    ensures Get(AddRecipe(d, lines), g) == Get(d, g) + LineTotal(lines, g)
    decreases |lines|
  {
    if lines != [] {
      AddRecipeAt(AddLine(d, lines[0]), lines[1..], g);
      assert Names(lines, g) <==> lines[0].ingredientId == g || Names(lines[1..], g) by {
        if Names(lines[1..], g) {
          var i :| 0 <= i < |lines[1..]| && lines[1..][i].ingredientId == g;
          assert lines[i + 1] == lines[1..][i];
        }
        if Names(lines, g) && lines[0].ingredientId != g {
          var i :| 0 <= i < |lines| && lines[i].ingredientId == g;
          assert lines[1..][i - 1] == lines[i];
        }
      }
    }
  }

  lemma {:induction false} AccumulateAt(d: Deductions, items: seq<MenuItem>, menu: seq<MenuItem>, g: Id)
    ensures g in Accumulate(d, items, menu).amount <==> g in d.amount || Mentions(items, menu, g)
    ensures Get(Accumulate(d, items, menu), g) == Get(d, g) + Total(items, menu, g)
    decreases |items|
  {
    if items != [] {
      var d' := AddRecipe(d, RecipeFor(menu, items[0]));
      AddRecipeAt(d, RecipeFor(menu, items[0]), g);
      AccumulateAt(d', items[1..], menu, g);
      assert Mentions(items, menu, g) <==> Names(RecipeFor(menu, items[0]), g) || Mentions(items[1..], menu, g) by {
        if Mentions(items, menu, g) && !Names(RecipeFor(menu, items[0]), g) {
          var item :| item in items && Names(RecipeFor(menu, item), g);
          assert item in items[1..];
        }
        if Mentions(items[1..], menu, g) {
          var item :| item in items[1..] && Names(RecipeFor(menu, item), g);
          assert item in items;
        }
      }
    }
  }

  /** The demand of a list of purchased items holds an entry for `g` exactly
      when some resolved recipe line names `g`, and that entry is the sum of
      `qty` over all such lines: duplicate lines add up, and items missing from
      the menu contribute nothing. */
  lemma DemandSpec(items: seq<MenuItem>, menu: seq<MenuItem>, g: Id)
    ensures WellFormed(DemandOf(items, menu))
    ensures g in DemandOf(items, menu).amount <==> Mentions(items, menu, g)
    ensures g in DemandOf(items, menu).amount ==> DemandOf(items, menu).amount[g] == Total(items, menu, g)
  {
    AccumulateWellFormed(NoDeductions, items, menu);
    AccumulateAt(NoDeductions, items, menu, g);
  }

  lemma {:induction false} LineTotalNonNegative(lines: seq<RecipeLine>, g: Id)
    requires forall line :: line in lines ==> line.qty >= 0.0
    ensures LineTotal(lines, g) >= 0.0
    decreases |lines|
  {
    if lines != [] {
      LineTotalNonNegative(lines[1..], g);
    }
  }

  /** With non-negative quantities, one line weighs no more than the total for its ingredient. */
  lemma {:induction false} LineTotalAtLeast(lines: seq<RecipeLine>, i: nat)
    requires i < |lines|
    requires forall line :: line in lines ==> line.qty >= 0.0
    ensures LineTotal(lines, lines[i].ingredientId) >= lines[i].qty
    decreases |lines|
  {
    var g := lines[i].ingredientId;
    if i == 0 {
      LineTotalNonNegative(lines[1..], g);
    } else {
      assert lines[1..][i - 1] == lines[i];
      LineTotalAtLeast(lines[1..], i - 1);
    }
  }

  /** With non-negative quantities, one item's recipe weighs no more than the total over all items. */
  lemma {:induction false} TotalAtLeast(items: seq<MenuItem>, menu: seq<MenuItem>, k: nat, g: Id)
    requires k < |items|
    requires NonNegativeRecipes(menu)
    ensures Total(items, menu, g) >= LineTotal(RecipeFor(menu, items[k]), g)
    decreases |items|
  {
    if k == 0 {
      TotalNonNegative(items[1..], menu, g);
    } else {
      assert items[1..][k - 1] == items[k];
      TotalAtLeast(items[1..], menu, k - 1, g);
      RecipeForNonNegative(menu, items[0]);
      LineTotalNonNegative(RecipeFor(menu, items[0]), g);
    }
  }

  lemma RecipeForNonNegative(menu: seq<MenuItem>, item: MenuItem)
    requires NonNegativeRecipes(menu)
    ensures forall line :: line in RecipeFor(menu, item) ==> line.qty >= 0.0
  {
  }

  lemma {:induction false} TotalNonNegative(items: seq<MenuItem>, menu: seq<MenuItem>, g: Id)
    requires NonNegativeRecipes(menu)
    ensures Total(items, menu, g) >= 0.0
    decreases |items|
  {
    if items != [] {
      RecipeForNonNegative(menu, items[0]);
      LineTotalNonNegative(RecipeFor(menu, items[0]), g);
      TotalNonNegative(items[1..], menu, g);
    }
  }

  /** When every menu recipe line has a positive quantity, every demanded
      amount is strictly positive. */
  lemma DemandPositive(items: seq<MenuItem>, menu: seq<MenuItem>, g: Id)
    requires forall m, line :: m in menu && line in m.recipe ==> line.qty > 0.0
    requires g in DemandOf(items, menu).amount
    ensures DemandOf(items, menu).amount[g] > 0.0
  {
    DemandSpec(items, menu, g);
    var item :| item in items && Names(RecipeFor(menu, item), g);
    var k :| 0 <= k < |items| && items[k] == item;
    var lines := RecipeFor(menu, item);
    var i :| 0 <= i < |lines| && lines[i].ingredientId == g;
    assert lines[i] in lines;
    LineTotalAtLeast(lines, i);
    TotalAtLeast(items, menu, k, g);
  }

  lemma {:induction false} TotalConcat(a: seq<MenuItem>, b: seq<MenuItem>, menu: seq<MenuItem>, g: Id)
    ensures Total(a + b, menu, g) == Total(a, menu, g) + Total(b, menu, g)
    decreases |a|
  {
    if a == [] {
      assert a + b == b;
    } else {
      assert (a + b)[1..] == a[1..] + b;
      TotalConcat(a[1..], b, menu, g);
    }
  }

  lemma MultisetRemoveAt(b: seq<MenuItem>, k: nat)
    requires k < |b|
    ensures multiset(b[..k] + b[k + 1..]) == multiset(b) - multiset{b[k]}
  {
    assert b == b[..k] + [b[k]] + b[k + 1..];
  }

  lemma TotalRemoveAt(b: seq<MenuItem>, k: nat, menu: seq<MenuItem>, g: Id)
    requires k < |b|
    ensures Total(b, menu, g) == LineTotal(RecipeFor(menu, b[k]), g) + Total(b[..k] + b[k + 1..], menu, g)
  {
    assert b == (b[..k] + [b[k]]) + b[k + 1..];
    TotalConcat(b[..k] + [b[k]], b[k + 1..], menu, g);
    TotalConcat(b[..k], [b[k]], menu, g);
    TotalConcat(b[..k], b[k + 1..], menu, g);
    assert Total([b[k]], menu, g) == LineTotal(RecipeFor(menu, b[k]), g) + Total([], menu, g);
  }

  /** Matching the first item of `a` with a copy at `k` in `b` leaves two lists
      that are again permutations of each other. */
  lemma MultisetMatchFirst(a: seq<MenuItem>, b: seq<MenuItem>, k: nat)
    requires a != [] && k < |b| && b[k] == a[0]
    requires multiset(a) == multiset(b)
    ensures multiset(a[1..]) == multiset(b[..k] + b[k + 1..])
  {
    assert a == [a[0]] + a[1..];
    assert multiset(a) == multiset{a[0]} + multiset(a[1..]);
    MultisetRemoveAt(b, k);
  }

  /** The per-ingredient total does not depend on the order of the purchased items. */
  lemma {:induction false} TotalPermutation(a: seq<MenuItem>, b: seq<MenuItem>, menu: seq<MenuItem>, g: Id)
    requires multiset(a) == multiset(b)
    ensures Total(a, menu, g) == Total(b, menu, g)
    decreases |a|
  {
    if a == [] {
      assert |b| == |multiset(b)| == 0;
    } else {
      assert a[0] in multiset(b);
      var k :| 0 <= k < |b| && b[k] == a[0];
      MultisetMatchFirst(a, b, k);
      TotalPermutation(a[1..], b[..k] + b[k + 1..], menu, g);
      TotalRemoveAt(b, k, menu, g);
    }
  }

  /** Aggregation is order-independent: reordering the purchased items gives
      the same amount for every ingredient (only the key order may differ). */
  lemma DemandOrderIndependent(a: seq<MenuItem>, b: seq<MenuItem>, menu: seq<MenuItem>)
    requires multiset(a) == multiset(b)
    ensures DemandOf(a, menu).amount == DemandOf(b, menu).amount
  {
    var da, db := DemandOf(a, menu).amount, DemandOf(b, menu).amount;
    forall g
      ensures g in da <==> g in db
      ensures g in da ==> da[g] == db[g]
    {
      DemandSpec(a, menu, g);
      DemandSpec(b, menu, g);
      TotalPermutation(a, b, menu, g);
      assert Mentions(a, menu, g) <==> Mentions(b, menu, g) by {
        forall item ensures item in a <==> item in b {
          assert item in a <==> item in multiset(a);
          assert item in b <==> item in multiset(b);
        }
      }
    }
  }

  /** Two purchase lists with the same ids, position by position. */
  predicate SameIds(a: seq<MenuItem>, b: seq<MenuItem>) {
    |a| == |b| && forall k :: 0 <= k < |a| ==> a[k].id == b[k].id
  }

  /** The demand depends only on the purchased items' ids: the name, price and
      recipe copied into a cart or order entry play no part, since every recipe
      is re-read from the menu cache when the transaction runs. */
  lemma {:induction false} DemandIgnoresCopiedRecipes(d: Deductions, a: seq<MenuItem>, b: seq<MenuItem>, menu: seq<MenuItem>)
    requires SameIds(a, b)
    ensures Accumulate(d, a, menu) == Accumulate(d, b, menu)
    decreases |a|
  {
    if a != [] {
      assert RecipeFor(menu, a[0]) == RecipeFor(menu, b[0]);
      DemandIgnoresCopiedRecipes(AddRecipe(d, RecipeFor(menu, a[0])), a[1..], b[1..], menu);
    }
  }
}
