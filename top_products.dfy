/** The best-sellers chart: the quantities of all sale items are added up per product name
    in a dictionary, whose entries are then sorted by quantity, largest first, and cut to
    five. */
module TopProducts {

  import opened Common

  /** A sale item with the name of the first element of its joined `products` array;
      `None` when there is no such element or it has no name. */
  datatype Item = Item(quantity: real, name: Option<string>)

  /** One bar of the chart: a product name and its quantity sold. */
  type Entry = (string, real)

  const LIMIT := 5

  /** An item counts only when its joined product has a name; an empty name is falsy. */
  predicate Named(it: Item) {
    it.name.Some? && it.name.value != ""
  }

  /** The dictionary's keys in insertion order: each name where it first appears. */
  function Names(items: seq<Item>): seq<string> {
    if |items| == 0 then []
    else
      var prev := Names(items[..|items| - 1]);
      var last := items[|items| - 1];
      if Named(last) && last.name.value !in prev then prev + [last.name.value] else prev
  }

  /** The quantity sold under a name: the sum over the named items carrying it. */
  function Sold(items: seq<Item>, name: string): real {
    if |items| == 0 then 0.0
    else
      var last := items[|items| - 1];
      Sold(items[..|items| - 1], name) + (if Named(last) && last.name.value == name then last.quantity else 0.0)
  }

  /** The keys are exactly the names of named items, each once. */
  lemma {:induction false} NamesExactly(items: seq<Item>)
    ensures Distinct(Names(items))
    ensures forall n :: n in Names(items) <==> exists i :: 0 <= i < |items| && Named(items[i]) && items[i].name.value == n
  {
    if |items| > 0 {
      var init := items[..|items| - 1];
      NamesExactly(init);
      assert forall i :: 0 <= i < |init| ==> init[i] == items[i];
    }
  }

  /** A name no named item carries has sold nothing. */
  lemma {:induction false} SoldUnseen(items: seq<Item>, name: string)
    requires name !in Names(items)
    ensures Sold(items, name) == 0.0
  {
    if |items| > 0 {
      SoldUnseen(items[..|items| - 1], name);
    }
  }

  /** An item without a product name changes neither the keys nor any quantity. */
  lemma UnnamedIgnored(items: seq<Item>, it: Item)
    requires !Named(it)
    ensures Names(items + [it]) == Names(items)
    ensures forall n :: Sold(items + [it], n) == Sold(items, n)
  {
    assert (items + [it])[..|items|] == items;
  }

  /** The dictionary's entries: one per key, with its quantity. */
  function Entries(items: seq<Item>): (r: seq<Entry>)
    ensures |r| == |Names(items)|
    ensures forall i :: 0 <= i < |r| ==> r[i] == (Names(items)[i], Sold(items, Names(items)[i]))
  {
    var ns := Names(items);
    seq(|ns|, i requires 0 <= i < |ns| => (ns[i], Sold(items, ns[i])))
  }

  predicate Descending(s: seq<Entry>) {
    forall i, j :: 0 <= i < j < |s| ==> s[i].1 >= s[j].1
  }

  predicate DistinctKeys(s: seq<Entry>) {
    forall i, j :: 0 <= i < j < |s| ==> s[i].0 != s[j].0
  }

  /** Places `x` after every entry of at least its quantity. */
  function Insert(x: Entry, s: seq<Entry>): seq<Entry> {
    if |s| == 0 then [x]
    else if s[0].1 >= x.1 then [s[0]] + Insert(x, s[1..])
    else [x] + s
  }

  /** `sort(([, a], [, b]) => b - a)`: a stable sort by quantity, largest first. Entries
      are inserted in order, each after the earlier ones of equal quantity. */
  function SortByQuantity(s: seq<Entry>): seq<Entry> {
    if |s| == 0 then [] else Insert(s[|s| - 1], SortByQuantity(s[..|s| - 1]))
  }

  lemma {:induction false} InsertMultiset(x: Entry, s: seq<Entry>)
    ensures multiset(Insert(x, s)) == multiset(s) + multiset{x}
    ensures forall e :: e in Insert(x, s) ==> e == x || e in s
  {
    if |s| > 0 && s[0].1 >= x.1 {
      InsertMultiset(x, s[1..]);
      assert s == [s[0]] + s[1..];
    }
    forall e | e in Insert(x, s)
      ensures e == x || e in s
    {
      assert e in multiset(Insert(x, s));
    }
  }

  lemma {:induction false} InsertDescending(x: Entry, s: seq<Entry>)
    requires Descending(s)
    ensures Descending(Insert(x, s))
  {
    if |s| > 0 && s[0].1 >= x.1 {
      var rest := Insert(x, s[1..]);
      InsertDescending(x, s[1..]);
      InsertMultiset(x, s[1..]);
      forall k | 0 <= k < |rest|
        ensures s[0].1 >= rest[k].1
      {
        assert rest[k] in rest;
      }
    }
  }

  lemma {:induction false} InsertDistinct(x: Entry, s: seq<Entry>)
    requires DistinctKeys(s) && forall i :: 0 <= i < |s| ==> s[i].0 != x.0
    ensures DistinctKeys(Insert(x, s))
  {
    if |s| > 0 && s[0].1 >= x.1 {
      var rest := Insert(x, s[1..]);
      InsertDistinct(x, s[1..]);
      InsertMultiset(x, s[1..]);
      forall k | 0 <= k < |rest|
        ensures s[0].0 != rest[k].0
      {
        assert rest[k] in rest;
      }
    }
  }

  lemma {:induction false} SortFacts(s: seq<Entry>)
    ensures multiset(SortByQuantity(s)) == multiset(s)
    ensures Descending(SortByQuantity(s))
    ensures DistinctKeys(s) ==> DistinctKeys(SortByQuantity(s))
  {
    if |s| > 0 {
      var init := s[..|s| - 1];
      var x := s[|s| - 1];
      var sorted := SortByQuantity(init);
      SortFacts(init);
      InsertMultiset(x, sorted);
      InsertDescending(x, sorted);
      assert s == init + [x];
      if DistinctKeys(s) {
        assert DistinctKeys(init);
        forall i | 0 <= i < |sorted|
          ensures sorted[i].0 != x.0
        {
          assert sorted[i] in multiset(init);
          var m :| 0 <= m < |init| && init[m] == sorted[i];
          assert s[m] == init[m];
        }
        InsertDistinct(x, sorted);
      }
    }
  }

  /** The data the chart stores. */
  function Top(items: seq<Item>): (r: seq<Entry>)
    ensures |r| <= LIMIT
  {
    Take(SortByQuantity(Entries(items)), LIMIT)
  }

  /** Each bar is a product name of the items with its total quantity; the bars have
      distinct names and are sorted by quantity, largest first. */
  lemma TopEntries(items: seq<Item>)
    ensures var top := Top(items);
      && DistinctKeys(top)
      && Descending(top)
      && forall i :: 0 <= i < |top| ==>
           (top[i].1 == Sold(items, top[i].0)
            && exists j :: 0 <= j < |items| && Named(items[j]) && items[j].name.value == top[i].0)
  {
    var entries := Entries(items);
    var sorted := SortByQuantity(entries);
    var top := Top(items);
    NamesExactly(items);
    SortFacts(entries);
    assert top == sorted[..|top|];
    forall i | 0 <= i < |top|
      ensures top[i].1 == Sold(items, top[i].0) && top[i].0 in Names(items)
    {
      assert top[i] == sorted[i];
      assert sorted[i] in multiset(entries);
      var k :| 0 <= k < |entries| && entries[k] == sorted[i];
    }
  }

  /** No name left out of the chart sold more than any name in it, and with at most five
      names, none is left out. */
  lemma TopOmitsNoLarger(items: seq<Item>, n: string)
    requires n in Names(items)
    requires forall i :: 0 <= i < |Top(items)| ==> Top(items)[i].0 != n
    ensures |Names(items)| > LIMIT
    ensures forall i :: 0 <= i < |Top(items)| ==> Top(items)[i].1 >= Sold(items, n)
  {
    var entries := Entries(items);
    var sorted := SortByQuantity(entries);
    var top := Top(items);
    SortFacts(entries);
    var m :| 0 <= m < |Names(items)| && Names(items)[m] == n;
    assert entries[m] == (n, Sold(items, n));
    assert entries[m] in multiset(sorted);
    var k :| 0 <= k < |sorted| && sorted[k] == (n, Sold(items, n));
    assert top == sorted[..|top|];
  }

  /** The dictionary built by the `forEach` loop: its keys in insertion order, and its
      values. */
  method Aggregate(items: seq<Item>) returns (names: seq<string>, totals: map<string, real>)
    ensures names == Names(items)
    ensures forall n :: n in totals <==> n in names
    ensures forall n :: n in totals ==> totals[n] == Sold(items, n)
  {
    names, totals := [], map[];
    var k := 0;
    while k < |items|
      invariant 0 <= k <= |items|
      invariant names == Names(items[..k])
      invariant forall n :: n in totals <==> n in names
      invariant forall n :: n in totals ==> totals[n] == Sold(items[..k], n)
    {
      var it := items[k];
      assert items[..k + 1][..k] == items[..k];
      if Named(it) {
        var name := it.name.value;
        var current := 0.0;
        if name in totals {
          current := totals[name];
        } else {
          SoldUnseen(items[..k], name);
          names := names + [name];
        }
        totals := totals[name := current + it.quantity];
      }
      k := k + 1;
    }
    assert items[..k] == items;
  }

  /** The chart component. */
  class Chart {
    var data: seq<Entry>
    var loading: bool

    constructor ()
      ensures data == [] && loading
    {
      data, loading := [], true;
    }

    /** `fetchData`: an error leaves the bars as they were. */
    method FetchData(q: Query<Item>)
      modifies this
      ensures q.Rows? ==> data == Top(q.rows)
      ensures q.QueryError? ==> data == old(data)
      ensures !loading
    {
      loading := true;
      if q.QueryError? {
        loading := false;
        return;
      }
      var names, totals := Aggregate(q.rows);
      var entries := seq(|names|, i requires 0 <= i < |names| => (names[i], totals[names[i]]));
      assert entries == Entries(q.rows);
      data := Take(SortByQuantity(entries), LIMIT);
      loading := false;
    }
  }
}
