/** Concrete cases of the reservation and of the rendered totals: a bakery
    with one ingredient, flour, and one dish, bread, that takes 3 of it. */
module Scenarios {
  import opened Types
  import opened Catalog
  import opened Demand
  import opened Reservation
  import opened Availability
  import opened Tally

  const Flour: Id := "flour"
  const BreadRecipe := [RecipeLine(Flour, 3.0)]
  const Bread := MenuItem("bread", "Pain", 2.0, BreadRecipe)
  const Menu := [Bread]

  function Pantry(stock: real): map<Id, Ingredient> {
    map[Flour := Ingredient("Farine", "kg", stock)]
  }

  /** A cart of `n` breads. */
  function Breads(n: nat): (r: seq<MenuItem>)
    ensures |r| == n && forall k :: 0 <= k < n ==> r[k] == Bread
  {
    seq(n, _ => Bread)
  }

  /** The flour-only demand holding `x`. */
  function FlourDemand(x: real): Deductions {
    Deductions([Flour], map[Flour := x])
  }

  /** Each bread adds 3 to the flour demand. */
  lemma {:induction false} AccumulateBreads(x: real, n: nat)
    ensures Accumulate(FlourDemand(x), Breads(n), Menu) == FlourDemand(x + 3.0 * n as real)
    decreases n
  {
    if n > 0 {
      assert RecipeFor(Menu, Bread) == BreadRecipe;
      assert BreadRecipe[1..] == [];
      assert AddRecipe(FlourDemand(x), BreadRecipe) == FlourDemand(x + 3.0);
      assert Breads(n)[1..] == Breads(n - 1);
      AccumulateBreads(x + 3.0, n - 1);
    }
  }

  /** A cart of `n` breads demands 3 × `n` of flour, and nothing else. */
  lemma {:induction false} BreadsDemand(n: nat)
    requires n > 0
    ensures DemandOf(Breads(n), Menu) == FlourDemand(3.0 * n as real)
  {
    assert RecipeFor(Menu, Bread) == BreadRecipe;
    assert BreadRecipe[1..] == [];
    assert AddRecipe(NoDeductions, BreadRecipe) == FlourDemand(3.0);
    assert Breads(n)[1..] == Breads(n - 1);
    AccumulateBreads(3.0, n - 1);
  }

  /** Three breads against 10 of flour pass the check (9 <= 10) and leave 1. */
  lemma ThreeBreadsFit()
    ensures Shortage(Pantry(10.0), DemandOf(Breads(3), Menu)) == None
    ensures Deducted(Pantry(10.0), DemandOf(Breads(3), Menu)) == Pantry(1.0)
  {
    BreadsDemand(3);
  }

  /** A fourth bread makes the demand 12, more than the 10 in stock: the
      transaction aborts on flour. */
  lemma FourBreadsAbortOnFlour()
    ensures Shortage(Pantry(10.0), DemandOf(Breads(4), Menu)) == Some(Flour)
  {
    BreadsDemand(4);
  }

  /** Stock equal to the demand is enough. */
  lemma ExactStockIsEnough()
    ensures Shortage(Pantry(6.0), DemandOf(Breads(2), Menu)) == None
    ensures Deducted(Pantry(6.0), DemandOf(Breads(2), Menu)) == Pantry(0.0)
  {
    BreadsDemand(2);
  }

  /** With 5 of flour, bread is shown orderable (3 <= 5, one unit checked),
      yet a cart of two breads demands 6 and the checkout aborts: the flag is
      advisory only. */
  lemma AvailableButShort()
    ensures Orderable(Bread, [StockEntry(Flour, 5.0)])
    ensures Shortage(Pantry(5.0), DemandOf(Breads(2), Menu)) == Some(Flour)
  {
    BreadsDemand(2);
  }

  /** Bread is not orderable with 2 of flour, nor when flour is missing from
      the stock cache; a dish without a recipe is orderable with no stock at all. */
  lemma OrderableCases()
    ensures !Orderable(Bread, [StockEntry(Flour, 2.0)])
    ensures !Orderable(Bread, [StockEntry("salt", 50.0)])
    ensures Orderable(MenuItem("water", "Eau", 1.0, []), [])
  {
    assert StockLevel([StockEntry(Flour, 2.0)], Flour) == Some(2.0);
    assert StockLevel([StockEntry("salt", 50.0)], Flour) == None;
  }

  /** A cart item that the menu cache no longer holds contributes nothing. */
  lemma MissingItemDemandsNothing()
    ensures DemandOf([MenuItem("cake", "Gâteau", 4.0, BreadRecipe)], Menu) == NoDeductions
  {
    var cake := MenuItem("cake", "Gâteau", 4.0, BreadRecipe);
    assert Find(Menu, "cake") == None;
    assert RecipeFor(Menu, cake) == [];
    assert [cake][1..] == [];
    assert AddRecipe(NoDeductions, []) == NoDeductions;
    assert Accumulate(NoDeductions, [cake], Menu) == Accumulate(NoDeductions, [], Menu);
  }

  /** Two copies of one id carrying different prices (the menu price changed
      between two additions): the rendered total counts the first price
      twice, 4, while the order's total is the sum of the prices, 5. */
  lemma ShownTotalUsesFirstPrice()
    ensures EntriesTotal(Aggregated([Bread, Bread.(price := 3.0)])) == 4.0
    ensures SumPrices([Bread, Bread.(price := 3.0)]) == 5.0
  {
    var items := [Bread, Bread.(price := 3.0)];
    assert items[..1] == [Bread];
    assert [Bread][..0] == [];
    assert SumPrices([Bread]) == 2.0;
    assert Aggregated([Bread]) == [Entry(Bread, 1)];
    assert Aggregated(items) == [Entry(Bread, 2)];
    assert EntriesTotal([Entry(Bread, 2)]) == 4.0;
  }
}
