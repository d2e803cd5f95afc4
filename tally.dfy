/** The per-id aggregation behind the rendered cart (public page) and ticket
    (POS): `items.reduce(...)` into one entry per id with a count, then a
    running total of price × count. */
module Tally {
  import opened Types
  import opened Catalog

  /** `{ ...item, qty }`: the first item seen with an id, and how many items hold that id. */
  datatype Entry = Entry(item: MenuItem, count: nat)

  /** The position of the entry for `id`. */
  function EntryIndex(es: seq<Entry>, id: Id): (r: Option<nat>)
    ensures r.Some? ==> r.value < |es| && es[r.value].item.id == id
    ensures r.None? <==> forall j :: 0 <= j < |es| ==> es[j].item.id != id
  {
    if es == [] then None
    else if es[0].item.id == id then Some(0)
    else match EntryIndex(es[1..], id)
      case None => None
      case Some(k) => Some(k + 1)
  }

  /** One step of the reduce: a new id gets an entry holding a copy of the item
      with count 1; a known id only has its count raised. */
  function Bump(es: seq<Entry>, item: MenuItem): (r: seq<Entry>)
    ensures |es| <= |r| <= |es| + 1
  {
    match EntryIndex(es, item.id)
    case Some(k) => es[k := Entry(es[k].item, es[k].count + 1)]
    case None => es + [Entry(item, 1)]
  }

  /** The reduce over the items, left to right. */
  function Aggregated(items: seq<MenuItem>): (r: seq<Entry>)
    ensures |r| <= |items|
    ensures r == [] <==> items == []
  {
    if items == [] then [] else Bump(Aggregated(items[..|items| - 1]), items[|items| - 1])
  }

  /** The sum of price × count over the entries. */
  function EntriesTotal(es: seq<Entry>): real {
    if es == [] then 0.0
    else EntriesTotal(es[..|es| - 1]) + es[|es| - 1].item.price * (es[|es| - 1].count as real)
  }

  /** The `forEach` loop with `total += item.price * item.qty`. */
  method ShownTotal(es: seq<Entry>) returns (total: real)
    ensures total == EntriesTotal(es)
  {
    total := 0.0;
    for k := 0 to |es|
      invariant total == EntriesTotal(es[..k])
    {
      assert es[..k + 1][..k] == es[..k];
      total := total + es[k].item.price * (es[k].count as real);
    }
    assert es[..|es|] == es;
  }

  /** No two entries hold the same id. */
  predicate DistinctIds(es: seq<Entry>) {
    forall i, j :: 0 <= i < j < |es| ==> es[i].item.id != es[j].item.id
  }

  /** Each entry holds the first item of `items` with its id, and the number of items holding that id. */
  predicate Faithful(items: seq<MenuItem>, es: seq<Entry>) {
    forall k :: 0 <= k < |es| ==> EntryFaithful(items, es[k])
  }

  /** The entry holds the first item of `items` with its id, and the number of items holding that id. */
  predicate EntryFaithful(items: seq<MenuItem>, e: Entry) {
    e.count == Count(items, e.item.id) && Find(items, e.item.id) == Some(e.item)
  }

  /** Every item has an entry. */
  predicate Covers(items: seq<MenuItem>, es: seq<Entry>) {
    forall i :: 0 <= i < |items| ==> EntryIndex(es, items[i].id).Some?
  }

  lemma {:induction false} BumpKnown(p: seq<MenuItem>, x: MenuItem, t: seq<Entry>, k: nat)
    requires DistinctIds(t) && Faithful(p, t) && Covers(p, t)
    requires EntryIndex(t, x.id) == Some(k)
    ensures DistinctIds(Bump(t, x)) && Faithful(p + [x], Bump(t, x)) && Covers(p + [x], Bump(t, x))
  {
    BumpIsRaised(t, x, k);
    RaisedDistinct(t, k);
    RaisedFaithful(p, x, t, k);
    RaisedCovers(p, x, t, k);
  }

  lemma BumpIsRaised(t: seq<Entry>, x: MenuItem, k: nat)
    requires EntryIndex(t, x.id) == Some(k)
    ensures Bump(t, x) == Raised(t, k)
  {
  }

  lemma BumpIsAppend(t: seq<Entry>, x: MenuItem)
    requires EntryIndex(t, x.id).None?
    ensures Bump(t, x) == t + [Entry(x, 1)]
  {
  }

  /** The entries with the count at `k` raised by one. */
  function Raised(t: seq<Entry>, k: nat): seq<Entry>
    requires k < |t|
  {
    t[k := Entry(t[k].item, t[k].count + 1)]
  }

  lemma RaisedDistinct(t: seq<Entry>, k: nat)
    requires k < |t| && DistinctIds(t)
    ensures DistinctIds(Raised(t, k))
  {
    assert forall j :: 0 <= j < |t| ==> Raised(t, k)[j].item == t[j].item;
  }

  lemma RaisedFaithful(p: seq<MenuItem>, x: MenuItem, t: seq<Entry>, k: nat)
    requires k < |t| && t[k].item.id == x.id
    requires DistinctIds(t) && Faithful(p, t)
    ensures Faithful(p + [x], Raised(t, k))
  {
    var t' := Raised(t, k);
    forall j | 0 <= j < |t'| ensures EntryFaithful(p + [x], t'[j]) {
      if j == k {
        EntryFaithfulSame(p, x, t[k]);
      } else {
        EntryFaithfulOther(p, x, t[j]);
      }
    }
  }

  lemma RaisedCovers(p: seq<MenuItem>, x: MenuItem, t: seq<Entry>, k: nat)
    requires k < |t| && t[k].item.id == x.id
    requires Covers(p, t)
    ensures Covers(p + [x], Raised(t, k))
  {
    var t' := Raised(t, k);
    forall i | 0 <= i < |p + [x]| ensures EntryIndex(t', (p + [x])[i].id).Some? {
      var j := if i < |p| then EntryIndex(t, p[i].id).value else k;
      assert t'[j].item.id == (p + [x])[i].id;
    }
  }

  lemma {:induction false} BumpNew(p: seq<MenuItem>, x: MenuItem, t: seq<Entry>)
    requires DistinctIds(t) && Faithful(p, t) && Covers(p, t)
    requires EntryIndex(t, x.id).None?
    ensures DistinctIds(Bump(t, x)) && Faithful(p + [x], Bump(t, x)) && Covers(p + [x], Bump(t, x))
  {
    BumpIsAppend(t, x);
    AppendedFaithful(p, x, t);
    AppendedCovers(p, x, t);
  }

  lemma AppendedFaithful(p: seq<MenuItem>, x: MenuItem, t: seq<Entry>)
    requires Faithful(p, t) && Covers(p, t)
    requires EntryIndex(t, x.id).None?
    ensures Faithful(p + [x], t + [Entry(x, 1)])
  {
    var t' := t + [Entry(x, 1)];
    forall i | 0 <= i < |p| ensures p[i].id != x.id {
      assert EntryIndex(t, p[i].id).Some?;
    }
    EntryFaithfulNew(p, x);
    forall j | 0 <= j < |t'| ensures EntryFaithful(p + [x], t'[j]) {
      if j < |t| {
        assert t'[j] == t[j];
        EntryFaithfulOther(p, x, t[j]);
      }
    }
  }

  lemma AppendedCovers(p: seq<MenuItem>, x: MenuItem, t: seq<Entry>)
    requires Covers(p, t)
    ensures Covers(p + [x], t + [Entry(x, 1)])
  {
    var t' := t + [Entry(x, 1)];
    forall i | 0 <= i < |p + [x]| ensures EntryIndex(t', (p + [x])[i].id).Some? {
      var j := if i < |p| then EntryIndex(t, p[i].id).value else |t|;
      assert t'[j].item.id == (p + [x])[i].id;
    }
  }

  /** An entry for another id is not affected by one more item. */
  lemma EntryFaithfulOther(p: seq<MenuItem>, x: MenuItem, e: Entry)
    requires e.item.id != x.id && EntryFaithful(p, e)
    ensures EntryFaithful(p + [x], e)
  {
    CountAppend(p, x, e.item.id);
    FindAppend(p, x, e.item.id);
  }

  /** The entry for the item's id counts it and keeps its first item. */
  lemma EntryFaithfulSame(p: seq<MenuItem>, x: MenuItem, e: Entry)
    requires e.item.id == x.id && EntryFaithful(p, e)
    ensures EntryFaithful(p + [x], Entry(e.item, e.count + 1))
  {
    CountAppend(p, x, e.item.id);
    FindAppend(p, x, e.item.id);
  }

  /** An item whose id is new starts an entry holding it with count 1. */
  lemma EntryFaithfulNew(p: seq<MenuItem>, x: MenuItem)
    requires forall i :: 0 <= i < |p| ==> p[i].id != x.id
    ensures EntryFaithful(p + [x], Entry(x, 1))
  {
    CountAbsent(p, x.id);
    CountAppend(p, x, x.id);
    FindAppend(p, x, x.id);
  }

  /** The aggregation has one entry per distinct id; each entry holds the
      first item with its id and a count equal to the number of items holding
      that id, and every item has an entry. */
  lemma {:induction false} TallySpec(items: seq<MenuItem>)
    ensures DistinctIds(Aggregated(items)) && Faithful(items, Aggregated(items)) && Covers(items, Aggregated(items))
    decreases |items|
  {
    if items != [] {
      var p, x := items[..|items| - 1], items[|items| - 1];
      assert items == p + [x];
      TallySpec(p);
      match EntryIndex(Aggregated(p), x.id)
      case Some(k) => BumpKnown(p, x, Aggregated(p), k);
      case None => BumpNew(p, x, Aggregated(p));
    }
  }

  /** The counts add up to the number of items. */
  lemma {:induction false} TallyCounts(items: seq<MenuItem>)
    ensures SumCounts(Aggregated(items)) == |items|
    decreases |items|
  {
    if items != [] {
      var p, x := items[..|items| - 1], items[|items| - 1];
      TallyCounts(p);
      var t := Aggregated(p);
      assert Aggregated(items) == Bump(t, x);
      match EntryIndex(t, x.id)
      case Some(k) =>
        BumpIsRaised(t, x, k);
        SumCountsBump(t, k);
      case None =>
        BumpIsAppend(t, x);
        assert (t + [Entry(x, 1)])[..|t|] == t;
    }
  }

  function SumCounts(es: seq<Entry>): nat {
    if es == [] then 0 else SumCounts(es[..|es| - 1]) + es[|es| - 1].count
  }

  lemma {:induction false} SumCountsBump(es: seq<Entry>, k: nat)
    requires k < |es|
    ensures SumCounts(es[k := Entry(es[k].item, es[k].count + 1)]) == SumCounts(es) + 1
    decreases |es|
  {
    var n := |es| - 1;
    var es' := es[k := Entry(es[k].item, es[k].count + 1)];
    assert es'[..n] == if k == n then es[..n] else es[..n][k := Entry(es[k].item, es[k].count + 1)];
    if k < n {
      SumCountsBump(es[..n], k);
    }
  }

  /** Raising one entry's count by one adds that entry's price to the total. */
  lemma {:induction false} EntriesTotalBump(es: seq<Entry>, k: nat)
    requires k < |es|
    ensures EntriesTotal(es[k := Entry(es[k].item, es[k].count + 1)]) == EntriesTotal(es) + es[k].item.price
    decreases |es|
  {
    var n := |es| - 1;
    var es' := es[k := Entry(es[k].item, es[k].count + 1)];
    if k == n {
      assert es'[..n] == es[..n];
      var p, c := es[k].item.price, es[k].count as real;
      assert p * (c + 1.0) == p * c + p;
    } else {
      assert es'[..n] == es[..n][k := Entry(es[k].item, es[k].count + 1)];
      EntriesTotalBump(es[..n], k);
    }
  }

  /** All items that hold one id carry one price. */
  predicate UniformPrices(items: seq<MenuItem>) {
    forall i, j :: 0 <= i < |items| && 0 <= j < |items| && items[i].id == items[j].id ==> items[i].price == items[j].price
  }

  /** The rendered total equals the sum of the item prices when all items with
      one id carry one price. Each entry is priced with its first item, so the
      equality needs that condition: see `Scenarios.ShownTotalUsesFirstPrice`. */
  lemma {:induction false} ShownTotalIsSumOfPrices(items: seq<MenuItem>)
    requires UniformPrices(items)
    ensures EntriesTotal(Aggregated(items)) == SumPrices(items)
    decreases |items|
  {
    if items != [] {
      var p, x := items[..|items| - 1], items[|items| - 1];
      assert items == p + [x];
      UniformPrefix(p, x);
      ShownTotalIsSumOfPrices(p);
      var t := Aggregated(p);
      assert Aggregated(items) == Bump(t, x);
      match EntryIndex(t, x.id)
      case Some(k) =>
        BumpIsRaised(t, x, k);
        EntriesTotalBump(t, k);
        FirstPriceIsLast(p, x, t, k);
      case None =>
        BumpIsAppend(t, x);
        EntriesTotalAppend(t, Entry(x, 1));
    }
  }

  lemma UniformPrefix(p: seq<MenuItem>, x: MenuItem)
    requires UniformPrices(p + [x])
    ensures UniformPrices(p)
  {
    forall i, j | 0 <= i < |p| && 0 <= j < |p| && p[i].id == p[j].id ensures p[i].price == p[j].price {
      assert (p + [x])[i] == p[i] && (p + [x])[j] == p[j];
    }
  }

  lemma EntriesTotalAppend(t: seq<Entry>, e: Entry)
    ensures EntriesTotal(t + [e]) == EntriesTotal(t) + e.item.price * (e.count as real)
  {
    assert (t + [e])[..|t|] == t;
  }

  /** Under uniform prices, the entry an item is counted in carries that item's price. */
  lemma {:induction false} FirstPriceIsLast(p: seq<MenuItem>, x: MenuItem, t: seq<Entry>, k: nat)
    requires UniformPrices(p + [x])
    requires t == Aggregated(p)
    requires EntryIndex(t, x.id) == Some(k)
    ensures t[k].item.price == x.price
  {
    TallySpec(p);
    var first := Find(p, x.id).value;
    assert first == t[k].item;
    var i :| 0 <= i < |p| && p[i] == first;
    assert (p + [x])[i] == first && (p + [x])[|p|] == x;
  }
}
