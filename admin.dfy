/** The administration page's menu editor: the recipe builder, the menu form's
    save (create or replace), clearing the form and loading a dish for
    editing. */
module Admin {
  import opened Types
  import opened Demand
  import opened Store

  /** The page's menu cache shows the menu documents as they are
      (`{ id: doc.id, ...doc.data() }`). */
  ghost predicate MenuMirrors(cache: seq<MenuItem>, menu: map<Id, Dish>) {
    forall k :: 0 <= k < |cache| ==>
      cache[k].id in menu &&
      menu[cache[k].id] == Dish(cache[k].name, cache[k].price, cache[k].recipe)
  }

  /** Recipes built by the editor keep every quantity positive, so every
      demand a reservation computes from a menu cache that mirrors them is
      positive: a reservation never raises a stock level. */
  lemma BuiltRecipesGivePositiveDemand(cache: seq<MenuItem>, menu: map<Id, Dish>, items: seq<MenuItem>, g: Id)
    requires RecipesValid(menu)
    requires MenuMirrors(cache, menu)
    requires g in DemandOf(items, cache).amount
    ensures NonNegativeRecipes(cache)
    ensures DemandOf(items, cache).amount[g] > 0.0
  {
    forall m, line | m in cache && line in m.recipe ensures line.qty > 0.0 {
      var k :| 0 <= k < |cache| && cache[k] == m;
      var i :| 0 <= i < |m.recipe| && m.recipe[i] == line;
      assert menu[m.id].recipe[i] == line;
    }
    DemandPositive(items, cache, g);
  }

  class MenuEditor {
    /** `currentRecipe`. */
    var recipe: seq<RecipeLine>
    /** The hidden `menu-item-id` field: empty when creating a dish. */
    var editingId: string

    constructor()
      ensures recipe == [] && editingId == ""
    {
      recipe, editingId := [], "";
    }

    /** Every line of the recipe being built names an ingredient and has a positive quantity. */
    predicate Valid()
      reads this
    {
      forall i :: 0 <= i < |recipe| ==> ValidLine(recipe[i])
    }

    /** The add-to-recipe click: rejected, leaving the recipe alone, when no
        ingredient is selected or the quantity is not a positive number
        (`None` stands for a quantity that does not parse); otherwise the line
        is appended. */
    method AddRecipeLine(ingredientId: Id, qty: Option<real>) returns (accepted: bool)
      modifies this`recipe
      ensures accepted <==> ingredientId != "" && qty.Some? && qty.value > 0.0
      ensures accepted ==> recipe == old(recipe) + [RecipeLine(ingredientId, qty.value)]
      ensures !accepted ==> recipe == old(recipe)
      ensures old(Valid()) ==> Valid()
    {
      if ingredientId == "" || qty.None? || qty.value <= 0.0 {
        return false;
      }
      recipe := recipe + [RecipeLine(ingredientId, qty.value)];
      accepted := true;
    }

    /** The remove click on line `index`: `splice(index, 1)` deletes exactly
        that line and keeps the others in order; an index past the end
        removes nothing. */
    method RemoveRecipeLine(index: nat)
      modifies this`recipe
      ensures index < |old(recipe)| ==> recipe == old(recipe)[..index] + old(recipe)[index + 1..]
      ensures index < |old(recipe)| ==> multiset(recipe) == multiset(old(recipe)) - multiset{old(recipe)[index]}
      ensures index >= |old(recipe)| ==> recipe == old(recipe)
      ensures old(Valid()) ==> Valid()
    {
      if index < |recipe| {
        ghost var before := recipe;
        recipe := recipe[..index] + recipe[index + 1..];
        assert before == before[..index] + [before[index]] + before[index + 1..];
        assert forall i :: 0 <= i < |recipe| ==> recipe[i] == before[if i < index then i else i + 1];
      }
    }

    /** `clearMenuForm`: no dish being edited, an empty recipe. */
    method ClearForm()
      modifies this`recipe, this`editingId
      ensures recipe == [] && editingId == "" && Valid()
    {
      editingId := "";
      recipe := [];
    }

    /** The menu form's submit: an empty recipe is rejected and nothing is
        written; otherwise the dish (name, price and exactly the current
        recipe) replaces the document being edited, or is added under the new
        id `newId`, and the form is cleared. */
    method SaveMenuItem(db: Ledger, name: string, price: real, newId: Id) returns (saved: bool)
      requires newId != "" && newId !in db.menu
      modifies this`recipe, this`editingId, db`menu
      ensures saved <==> |old(recipe)| > 0
      ensures saved ==>
        var key := if old(editingId) != "" then old(editingId) else newId;
        && db.menu == old(db.menu)[key := Dish(name, price, old(recipe))]
        && recipe == [] && editingId == ""
      ensures !saved ==> unchanged(this) && unchanged(db)
      ensures old(Valid()) && RecipesValid(old(db.menu)) ==> RecipesValid(db.menu)
    {
      if |recipe| == 0 {
        return false;
      }
      var dish := Dish(name, price, recipe);
      if editingId != "" {
        db.PutDish(editingId, dish);
      } else {
        db.PutDish(newId, dish);
      }
      ClearForm();
      saved := true;
    }

    /** The edit click: when the document exists, its id goes into the form
        and a copy of its recipe becomes the recipe being built; otherwise
        nothing changes. */
    method EditMenuItem(db: Ledger, id: Id)
      modifies this`recipe, this`editingId
      ensures id in db.menu ==> editingId == id && recipe == db.menu[id].recipe
      ensures id !in db.menu ==> unchanged(this)
      ensures RecipesValid(db.menu) && old(Valid()) ==> Valid()
    {
      if id in db.menu {
        editingId := id;
        recipe := db.menu[id].recipe;
      }
    }
  }
}
