/** The payment-method chart: the sales are counted per payment method in a dictionary,
    and each key becomes a slice labelled with its first letter upper-cased. */
module PaymentMethods {

  import opened Common
  import opened Remote
  import Text
  import SaleForm

  /** One slice: its label and the number of sales. */
  type Slice = (string, nat)

  /** The dictionary's keys in insertion order: each method where it first appears. */
  function Keys(sales: seq<Sale>): seq<string> {
    if |sales| == 0 then []
    else
      var prev := Keys(sales[..|sales| - 1]);
      var m := sales[|sales| - 1].payment_method;
      if m !in prev then prev + [m] else prev
  }

  /** The number of sales paid with `m`. */
  function CountOf(sales: seq<Sale>, m: string): nat {
    if |sales| == 0 then 0
    else CountOf(sales[..|sales| - 1], m) + (if sales[|sales| - 1].payment_method == m then 1 else 0)
  }

  /** The keys are exactly the methods used, each once. */
  lemma {:induction false} KeysExactly(sales: seq<Sale>)
    ensures Distinct(Keys(sales))
    ensures forall m :: m in Keys(sales) <==> exists i :: 0 <= i < |sales| && sales[i].payment_method == m
  {
    if |sales| > 0 {
      var init := sales[..|sales| - 1];
      KeysExactly(init);
      assert forall i :: 0 <= i < |init| ==> init[i] == sales[i];
    }
  }

  lemma {:induction false} CountUnseen(sales: seq<Sale>, m: string)
    requires m !in Keys(sales)
    ensures CountOf(sales, m) == 0
  {
    if |sales| > 0 {
      CountUnseen(sales[..|sales| - 1], m);
    }
  }

  /** The counts of the given keys, added up. */
  function SumCounts(keys: seq<string>, sales: seq<Sale>): nat {
    if |keys| == 0 then 0 else SumCounts(keys[..|keys| - 1], sales) + CountOf(sales, keys[|keys| - 1])
  }

  /** One more sale adds one to the sum over any list of distinct keys that holds its method. */
  lemma {:induction false} SumCountsStep(keys: seq<string>, sales: seq<Sale>, s: Sale)
    requires Distinct(keys)
    ensures SumCounts(keys, sales + [s]) == SumCounts(keys, sales) + (if s.payment_method in keys then 1 else 0)
  {
    assert (sales + [s])[..|sales|] == sales;
    if |keys| > 0 {
      var init := keys[..|keys| - 1];
      assert Distinct(init);
      SumCountsStep(init, sales, s);
      assert keys == init + [keys[|keys| - 1]];
    }
  }

  /** The slices' values add up to the number of sales. */
  lemma {:induction false} CountsAddUp(sales: seq<Sale>)
    ensures SumCounts(Keys(sales), sales) == |sales|
  {
    if |sales| > 0 {
      var init := sales[..|sales| - 1];
      var s := sales[|sales| - 1];
      CountsAddUp(init);
      KeysExactly(init);
      assert sales == init + [s];
      SumCountsStep(Keys(init), init, s);
      if s.payment_method !in Keys(init) {
        CountUnseen(init, s.payment_method);
        var keys := Keys(init) + [s.payment_method];
        assert keys[..|keys| - 1] == Keys(init);
      }
    }
  }

  /** `key.charAt(0).toUpperCase() + key.slice(1)`. */
  function Label(key: string): string {
    if |key| == 0 then "" else [Text.UpperChar(key[0])] + key[1..]
  }

  /** A label differs from its key only in the case of the first letter. */
  lemma LabelKeepsKey(key: string)
    ensures |Label(key)| == |key|
    ensures |key| > 0 ==> Label(key)[1..] == key[1..]
    ensures Text.Lower(Label(key)) == Text.Lower(key)
  {
    Text.LowerForgetsCase(key);
    var l := Label(key);
    assert forall i :: 0 <= i < |key| ==> Text.Lower(l)[i] == Text.Lower(key)[i] by {
      forall i | 0 <= i < |key|
        ensures Text.Lower(l)[i] == Text.Lower(key)[i]
      {
        if i == 0 {
          assert Text.Lower(Text.Upper(key))[0] == Text.Lower(key)[0];
        }
      }
    }
  }

  /** The three methods the sale forms offer are labelled as the chart shows them. */
  lemma OfferedLabels()
    ensures Label(SaleForm.PAYMENT_METHODS[0]) == "Efectivo"
    ensures Label(SaleForm.PAYMENT_METHODS[1]) == "Tarjeta"
    ensures Label(SaleForm.PAYMENT_METHODS[2]) == "Transferencia"
  {
  }

  /** The chart's data: one slice per key, in key order. */
  function ChartData(sales: seq<Sale>): (r: seq<Slice>)
    ensures |r| == |Keys(sales)|
    ensures forall i :: 0 <= i < |r| ==> r[i] == (Label(Keys(sales)[i]), CountOf(sales, Keys(sales)[i]))
  {
    var keys := Keys(sales);
    seq(|keys|, i requires 0 <= i < |keys| => (Label(keys[i]), CountOf(sales, keys[i])))
  }

  /** No sales, no slices. */
  lemma NoSalesNoSlices(sales: seq<Sale>)
    ensures |sales| == 0 <==> ChartData(sales) == []
  {
    if |sales| > 0 {
      KeysExactly(sales);
      assert sales[0].payment_method in Keys(sales);
    }
  }

  /** Every slice stands for a method some sale used, and holds at least that sale. */
  lemma SlicesAreUsedMethods(sales: seq<Sale>, i: nat)
    requires i < |ChartData(sales)|
    ensures exists j :: 0 <= j < |sales| && sales[j].payment_method == Keys(sales)[i]
    ensures ChartData(sales)[i] == (Label(Keys(sales)[i]), CountOf(sales, Keys(sales)[i]))
    ensures ChartData(sales)[i].1 >= 1
  {
    KeysExactly(sales);
    var m := Keys(sales)[i];
    assert m in Keys(sales);
    var j :| 0 <= j < |sales| && sales[j].payment_method == m;
    CountPositive(sales, j);
  }

  lemma {:induction false} CountPositive(sales: seq<Sale>, j: nat)
    requires j < |sales|
    ensures CountOf(sales, sales[j].payment_method) >= 1
  {
    if j < |sales| - 1 {
      CountPositive(sales[..|sales| - 1], j);
    }
  }

  /** The `reduce` over the sales, writing into the accumulator dictionary. */
  method Tally(sales: seq<Sale>) returns (keys: seq<string>, counts: map<string, nat>)
    ensures keys == Keys(sales)
    ensures forall m :: m in counts <==> m in keys
    ensures forall m :: m in counts ==> counts[m] == CountOf(sales, m)
  {
    keys, counts := [], map[];
    var k := 0;
    while k < |sales|
      invariant 0 <= k <= |sales|
      invariant keys == Keys(sales[..k])
      invariant forall m :: m in counts <==> m in keys
      invariant forall m :: m in counts ==> counts[m] == CountOf(sales[..k], m)
    {
      var m := sales[k].payment_method;
      assert sales[..k + 1][..k] == sales[..k];
      var current := 0;
      if m in counts {
        current := counts[m];
      } else {
        CountUnseen(sales[..k], m);
        keys := keys + [m];
      }
      counts := counts[m := current + 1];
      k := k + 1;
    }
    assert sales[..k] == sales;
  }

  /** The chart component. */
  class Chart {
    var data: seq<Slice>
    var loading: bool

    constructor ()
      ensures data == [] && loading
    {
      data, loading := [], true;
    }

    /** `fetchData`: an error leaves the slices as they were. */
    method FetchData(q: Query<Sale>)
      modifies this
      ensures q.Rows? ==> data == ChartData(q.rows)
      ensures q.QueryError? ==> data == old(data)
      ensures !loading
    {
      loading := true;
      if q.QueryError? {
        loading := false;
        return;
      }
      var keys, counts := Tally(q.rows);
      data := seq(|keys|, i requires 0 <= i < |keys| => (Label(keys[i]), counts[keys[i]]));
      loading := false;
    }
  }
}
