/** The check and the deduction of a reservation transaction, stated over the
    ingredient documents the transaction reads. Both transactions (online
    checkout and POS billing) read every demanded ingredient inside the
    transaction, in the order of the demand's keys, abort at the first one that
    is missing or short, and otherwise write back old stock minus demand. */
module Reservation {
  import opened Types
  import opened Demand

  /** `!stockDoc.exists() || stockDoc.data().stock < qtyToDeduct`. */
  predicate Short(ings: map<Id, Ingredient>, d: Deductions, g: Id) {
    g !in ings || (g in d.amount && ings[g].stock < d.amount[g])
  }

  /** The first of `keys` that is short, as the check loop meets them. */
  function FirstShort(ings: map<Id, Ingredient>, d: Deductions, keys: seq<Id>): (r: Option<Id>)
    ensures r.None? <==> forall k :: 0 <= k < |keys| ==> !Short(ings, d, keys[k])
    ensures r.Some? ==> exists k :: 0 <= k < |keys| && keys[k] == r.value && Short(ings, d, keys[k]) &&
                                    forall i :: 0 <= i < k ==> !Short(ings, d, keys[i])
  {
    if keys == [] then None
    else if Short(ings, d, keys[0]) then Some(keys[0])
    else
      var r := FirstShort(ings, d, keys[1..]);
      assert r.Some? ==> exists k :: 1 <= k < |keys| && keys[k] == r.value && Short(ings, d, keys[k]) &&
                                     forall i :: 0 <= i < k ==> !Short(ings, d, keys[i]) by {
        if r.Some? {
          var k :| 0 <= k < |keys[1..]| && keys[1..][k] == r.value && Short(ings, d, keys[1..][k]) &&
                   forall i :: 0 <= i < k ==> !Short(ings, d, keys[1..][i]);
          assert keys[k + 1] == keys[1..][k];
          forall i | 0 <= i < k + 1 ensures !Short(ings, d, keys[i]) {
            if i > 0 { assert keys[i] == keys[1..][i - 1]; }
          }
        }
      }
      r
  }

  /** The ingredient the transaction aborts on (`InsufficientStock`), if any. */
  function Shortage(ings: map<Id, Ingredient>, d: Deductions): (r: Option<Id>)
    ensures r.None? <==> forall g :: g in d.keys ==> !Short(ings, d, g)
    ensures r.Some? ==> r.value in d.keys && Short(ings, d, r.value)
  {
    FirstShort(ings, d, d.keys)
  }

  /** The ingredient documents after the deduction: every demanded ingredient's
      stock is lowered by its demand; nothing else changes. */
  function Deducted(ings: map<Id, Ingredient>, d: Deductions): (r: map<Id, Ingredient>)
    ensures r.Keys == ings.Keys
  {
    map g | g in ings :: if g in d.amount then ings[g].(stock := ings[g].stock - d.amount[g]) else ings[g]
  }

  predicate StockNonNegative(ings: map<Id, Ingredient>) {
    forall g :: g in ings ==> ings[g].stock >= 0.0
  }

  /** The check passes exactly when every demanded ingredient exists and has at
      least its demand in stock (equality is enough); when it fails, it names a
      demanded ingredient that is missing or short. */
  lemma ShortageIff(ings: map<Id, Ingredient>, d: Deductions)
    requires WellFormed(d)
    ensures Shortage(ings, d).None? <==> forall g :: g in d.amount ==> g in ings && d.amount[g] <= ings[g].stock
    ensures Shortage(ings, d).Some? ==>
      var g := Shortage(ings, d).value;
      g in d.amount && (g !in ings || ings[g].stock < d.amount[g])
  {
    if Shortage(ings, d).None? {
      forall g | g in d.amount ensures g in ings && d.amount[g] <= ings[g].stock {
        var k :| 0 <= k < |d.keys| && d.keys[k] == g;
        assert !Short(ings, d, d.keys[k]);
      }
    }
  }

  /** A passed check followed by the deduction leaves every stock level
      non-negative, and each demanded ingredient at exactly old stock minus
      demand. */
  lemma DeductionKeepsStockNonNegative(ings: map<Id, Ingredient>, d: Deductions)
    requires WellFormed(d)
    requires StockNonNegative(ings)
    requires Shortage(ings, d).None?
    ensures StockNonNegative(Deducted(ings, d))
    ensures forall g :: g in d.amount ==> g in ings && Deducted(ings, d)[g].stock == ings[g].stock - d.amount[g]
    ensures forall g :: g in ings && g !in d.amount ==> Deducted(ings, d)[g] == ings[g]
  {
    ShortageIff(ings, d);
  }

  /** Run one after the other (the store serializes transactions), two
      reservations whose demands on one ingredient add up to more than its stock
      cannot both pass: the second one aborts. */
  lemma SerialReservationsNeverOversell(ings: map<Id, Ingredient>, d1: Deductions, d2: Deductions, g: Id)
    requires WellFormed(d1) && WellFormed(d2)
    requires Shortage(ings, d1).None?
    requires g in d1.amount && g in d2.amount
    requires g in ings ==> ings[g].stock < d1.amount[g] + d2.amount[g]
    ensures Shortage(Deducted(ings, d1), d2).Some?
  {
    ShortageIff(ings, d1);
    ShortageIff(Deducted(ings, d1), d2);
  }
}
