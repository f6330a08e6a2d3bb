/** Named cost items, as the investment and operating-cost breakdowns list
    them, and their totals. */
module LineItems {
  import opened Sums

  /** One named entry of a cost breakdown. */
  datatype LineItem = LineItem(name: string, amount: real)

  /** The amounts of a breakdown, in the order the breakdown lists them. */
  function Amounts(items: seq<LineItem>): (r: seq<real>)
    ensures |r| == |items|
    ensures forall i :: 0 <= i < |items| ==> r[i] == items[i].amount
  {
    seq(|items|, i requires 0 <= i < |items| => items[i].amount)
  }

  /** The total of a breakdown: the sum of its item amounts, names ignored. */
  function Total(items: seq<LineItem>): real
  {
    Sum(Amounts(items))
  }

  /** Adding one item to a breakdown adds exactly its amount to the total. */
  lemma TotalAppend(items: seq<LineItem>, item: LineItem)
    ensures Total(items + [item]) == Total(items) + item.amount
  {
    assert Amounts(items + [item])[..|items|] == Amounts(items);
  }

  /** The total of the first k + 1 items adds item k to the total of the first k. */
  lemma TotalPrefixStep(items: seq<LineItem>, k: nat)
    requires k < |items|
    ensures Total(items[..k + 1]) == Total(items[..k]) + items[k].amount
  {
    assert items[..k + 1] == items[..k] + [items[k]];
    TotalAppend(items[..k], items[k]);
  }

  /** The total of two breakdowns listed one after the other is the sum of their totals. */
  lemma TotalConcat(a: seq<LineItem>, b: seq<LineItem>)
    ensures Total(a + b) == Total(a) + Total(b)
  {
    assert Amounts(a + b) == Amounts(a) + Amounts(b);
    SumAppend(Amounts(a), Amounts(b));
  }

  /** A breakdown of non-negative amounts totals at least each of its items. */
  lemma TotalBoundsItems(items: seq<LineItem>)
    requires forall i :: 0 <= i < |items| ==> items[i].amount >= 0.0
    ensures Total(items) >= 0.0
    ensures forall i :: 0 <= i < |items| ==> items[i].amount <= Total(items)
  {
    SumBoundsElements(Amounts(items));
  }
}
