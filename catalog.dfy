/** Searches and folds over the in-memory lists the pages keep: the menu cache,
    the stock cache, the cart, the ticket and the pending orders. */
module Catalog {
  import opened Types

  /** `findIndex(item => item.id === id)`: the first position holding `id`. */
  function FirstIndex(s: seq<MenuItem>, id: Id): (r: Option<nat>)
    ensures r.Some? ==> r.value < |s| && s[r.value].id == id
    ensures r.Some? ==> forall j :: 0 <= j < r.value ==> s[j].id != id
    ensures r.None? <==> forall j :: 0 <= j < |s| ==> s[j].id != id
  {
    if s == [] then None
    else if s[0].id == id then Some(0)
    else match FirstIndex(s[1..], id)
      case None => None
      case Some(k) => Some(k + 1)
  }

  /** `find(m => m.id === id)`: the first item holding `id`, if any. */
  function Find(s: seq<MenuItem>, id: Id): (r: Option<MenuItem>)
    ensures r.Some? ==> r.value.id == id && r.value in s
    ensures r.Some? ==> exists k :: 0 <= k < |s| && s[k] == r.value && forall j :: 0 <= j < k ==> s[j].id != id
    ensures r.None? <==> forall j :: 0 <= j < |s| ==> s[j].id != id
  {
    match FirstIndex(s, id)
    case Some(k) => Some(s[k])
    case None => None
  }

  /** `stockCache.find(s => s.id === id)`, read for its level. */
  function StockLevel(cache: seq<StockEntry>, id: Id): (r: Option<real>)
    ensures r.None? <==> forall j :: 0 <= j < |cache| ==> cache[j].id != id
    ensures r.Some? ==> exists j :: 0 <= j < |cache| && cache[j].id == id && cache[j].stock == r.value &&
                                    forall i :: 0 <= i < j ==> cache[i].id != id
  {
    if cache == [] then None
    else if cache[0].id == id then Some(cache[0].stock)
    else
      var r := StockLevel(cache[1..], id);
      assert r.Some? ==> exists j :: 1 <= j < |cache| && cache[j].id == id && cache[j].stock == r.value &&
                                     forall i :: 0 <= i < j ==> cache[i].id != id by {
        if r.Some? {
          var j :| 0 <= j < |cache[1..]| && cache[1..][j].id == id && cache[1..][j].stock == r.value &&
                   forall i :: 0 <= i < j ==> cache[1..][i].id != id;
          assert cache[j + 1] == cache[1..][j];
          forall i | 0 <= i < j + 1 ensures cache[i].id != id {
            if i > 0 { assert cache[i] == cache[1..][i - 1]; }
          }
        }
      }
      r
  }

  /** How many entries of `s` hold `id`. */
  function Count(s: seq<MenuItem>, id: Id): nat {
    if s == [] then 0
    else Count(s[..|s| - 1], id) + (if s[|s| - 1].id == id then 1 else 0)
  }

  /** `reduce((sum, item) => sum + item.price, 0)`: the order's total, never
      negative when no price is. */
  function SumPrices(s: seq<MenuItem>): (r: real)
    ensures (forall k :: 0 <= k < |s| ==> s[k].price >= 0.0) ==> r >= 0.0
  {
    if s == [] then 0.0 else SumPrices(s[..|s| - 1]) + s[|s| - 1].price
  }

  /** `flatMap(o => o.items)` over order documents. */
  function ItemsOf(orders: seq<OrderDoc>): (r: seq<MenuItem>)
    ensures forall x :: x in r <==> exists k :: 0 <= k < |orders| && x in orders[k].order.items
  {
    if orders == [] then []
    else
      var rest := ItemsOf(orders[1..]);
      assert forall x :: x in rest <==> exists k :: 1 <= k < |orders| && x in orders[k].order.items by {
        forall x ensures x in rest <==> exists k :: 1 <= k < |orders| && x in orders[k].order.items {
          if x in rest {
            var k :| 0 <= k < |orders[1..]| && x in orders[1..][k].order.items;
            assert orders[k + 1] == orders[1..][k];
          }
          if exists k :: 1 <= k < |orders| && x in orders[k].order.items {
            var k :| 1 <= k < |orders| && x in orders[k].order.items;
            assert orders[1..][k - 1] == orders[k];
          }
        }
      }
      orders[0].order.items + rest
  }

  /** The ids of a list of order documents. */
  function IdsOf(orders: seq<OrderDoc>): (ids: seq<Id>)
    ensures |ids| == |orders| && forall k :: 0 <= k < |orders| ==> ids[k] == orders[k].id
  {
    seq(|orders|, k requires 0 <= k < |orders| => orders[k].id)
  }

  /** Removing from a list the first entry that holds `id`, as a recursive definition. */
  function RemoveFirst(s: seq<MenuItem>, id: Id): seq<MenuItem> {
    if s == [] then []
    else if s[0].id == id then s[1..]
    else [s[0]] + RemoveFirst(s[1..], id)
  }

  lemma {:induction false} CountAppend(s: seq<MenuItem>, x: MenuItem, id: Id)
    ensures Count(s + [x], id) == Count(s, id) + (if x.id == id then 1 else 0)
  {
    assert (s + [x])[..|s + [x]| - 1] == s;
  }

  lemma {:induction false} CountConcat(a: seq<MenuItem>, b: seq<MenuItem>, id: Id)
    ensures Count(a + b, id) == Count(a, id) + Count(b, id)
    decreases |b|
  {
    if b == [] {
      assert a + b == a;
    } else {
      var b' := b[..|b| - 1];
      assert a + b == (a + b') + [b[|b| - 1]];
      assert b == b' + [b[|b| - 1]];
      CountAppend(a + b', b[|b| - 1], id);
      CountAppend(b', b[|b| - 1], id);
      CountConcat(a, b', id);
    }
  }

  /** A list in which no entry holds `id` counts no `id`. */
  lemma {:induction false} CountAbsent(s: seq<MenuItem>, id: Id)
    requires forall j :: 0 <= j < |s| ==> s[j].id != id
    ensures Count(s, id) == 0
  {
    if s != [] {
      CountAbsent(s[..|s| - 1], id);
    }
  }

  /** Appending to a list leaves the first match of every id already present in place. */
  lemma {:induction false} FindAppend(s: seq<MenuItem>, x: MenuItem, id: Id)
    ensures Find(s + [x], id) ==
      if Find(s, id).Some? then Find(s, id) else if x.id == id then Some(x) else None
  {
    var t := s + [x];
    match FirstIndex(s, id)
    case Some(k) =>
      assert t[k] == s[k];
    case None =>
      if x.id == id {
        assert t[|s|] == x;
      }
  }

  /** The total of a concatenation is the sum of the totals. */
  lemma {:induction false} SumPricesConcat(a: seq<MenuItem>, b: seq<MenuItem>)
    ensures SumPrices(a + b) == SumPrices(a) + SumPrices(b)
    decreases |b|
  {
    if b == [] {
      assert a + b == a;
    } else {
      var b' := b[..|b| - 1];
      assert (a + b)[..|a + b| - 1] == a + b';
      SumPricesConcat(a, b');
    }
  }

  /** `findIndex` followed by `splice(index, 1)` removes the same entry as
      `RemoveFirst`: the entries before and after it keep their order. */
  lemma {:induction false} RemoveFirstIsSplice(s: seq<MenuItem>, id: Id)
    ensures match FirstIndex(s, id)
      case None => RemoveFirst(s, id) == s
      case Some(k) => RemoveFirst(s, id) == s[..k] + s[k + 1..]
  {
    if s != [] && s[0].id != id {
      RemoveFirstIsSplice(s[1..], id);
      match FirstIndex(s[1..], id)
      case None =>
      case Some(k) =>
        assert s[..k + 1] == [s[0]] + s[1..][..k];
        assert s[k + 2..] == s[1..][k + 1..];
    }
  }

  /** When some entry holds `id`, the list loses exactly one entry, the first
      that holds it; otherwise nothing is removed. */
  lemma {:induction false} RemoveFirstMultiset(s: seq<MenuItem>, id: Id)
    ensures FirstIndex(s, id).None? ==> multiset(RemoveFirst(s, id)) == multiset(s)
    ensures FirstIndex(s, id).Some? ==>
      multiset(RemoveFirst(s, id)) == multiset(s) - multiset{s[FirstIndex(s, id).value]}
  {
    RemoveFirstIsSplice(s, id);
    if FirstIndex(s, id).Some? {
      var k := FirstIndex(s, id).value;
      var before, after := s[..k], s[k + 1..];
      assert s == before + [s[k]] + after;
      assert RemoveFirst(s, id) == before + after;
      calc {
        multiset(s);
        multiset(before + [s[k]] + after);
        multiset(before) + multiset{s[k]} + multiset(after);
      }
    }
  }

  /** Taking out position `k` lowers the count of the id held there by one. */
  lemma {:induction false} CountSplice(s: seq<MenuItem>, k: nat, id: Id)
    requires k < |s|
    ensures Count(s, id) == Count(s[..k] + s[k + 1..], id) + (if s[k].id == id then 1 else 0)
  {
    assert s == (s[..k] + [s[k]]) + s[k + 1..];
    CountConcat(s[..k] + [s[k]], s[k + 1..], id);
    CountAppend(s[..k], s[k], id);
    CountConcat(s[..k], s[k + 1..], id);
  }

  /** Removing the first match lowers the count of `id` by one when there is
      one, and leaves the count of every other id alone. */
  lemma {:induction false} RemoveFirstCounts(s: seq<MenuItem>, id: Id, other: Id)
    ensures Count(RemoveFirst(s, id), id) == if Count(s, id) > 0 then Count(s, id) - 1 else 0
    ensures other != id ==> Count(RemoveFirst(s, id), other) == Count(s, other)
  {
    RemoveFirstIsSplice(s, id);
    match FirstIndex(s, id)
    case None =>
      CountAbsent(s, id);
    case Some(k) =>
      CountSplice(s, k, id);
      CountSplice(s, k, other);
  }
}
