/**
 * The cart summary that show_cart_handler and remove_item_handler render
 * (handlers.py:242-258, repeated at 299-315): one line per item that still
 * has a product, and the total of `price * quantity` over those items. A
 * missing price or quantity counts as 0. Prices and quantities are exact
 * reals here; the source's float arithmetic and number formatting are not
 * modelled.
 */
module CartSummary {
  import opened Wrappers
  import opened Backend

  const UnknownTitle := "Неизвестный товар"

  /** One rendered item: `title`, then `quantity kg x price = itemTotal`. */
  datatype CartLine = CartLine(title: string, quantity: real, price: real, itemTotal: real)

  function PriceOf(item: ItemView): real
    requires item.product.Some?
  {
    item.product.value.price.GetOr(0.0)
  }

  function QuantityOf(item: ItemView): real {
    item.quantity.GetOr(0.0)
  }

  function LineOf(item: ItemView): (line: CartLine)
    requires item.product.Some?
    ensures line.itemTotal == line.price * line.quantity
  {
    CartLine(item.product.value.title.GetOr(UnknownTitle), QuantityOf(item), PriceOf(item), PriceOf(item) * QuantityOf(item))
  }

  /** What one item adds to the total. */
  function Contribution(item: ItemView): real {
    if item.product.Some? then PriceOf(item) * QuantityOf(item) else 0.0
  }

  /** The footer total, accumulated over the items in order. */
  function Total(items: seq<ItemView>): real
    decreases |items|
  {
    if |items| == 0 then 0.0 else Total(items[..|items| - 1]) + Contribution(items[|items| - 1])
  }

  /** The item lines, in order. */
  function Lines(items: seq<ItemView>): seq<CartLine>
    decreases |items|
  {
    if |items| == 0 then []
    else
      var last := items[|items| - 1];
      Lines(items[..|items| - 1]) + (if last.product.Some? then [LineOf(last)] else [])
  }

  /** The sum of the totals printed on the lines. */
  function SumOfLines(lines: seq<CartLine>): real
    decreases |lines|
  {
    if |lines| == 0 then 0.0 else SumOfLines(lines[..|lines| - 1]) + lines[|lines| - 1].itemTotal
  }

  /** Builds the summary the way the handlers do: one pass, appending lines and accumulating the total. */
  method Summarize(items: seq<ItemView>) returns (lines: seq<CartLine>, total: real)
    ensures lines == Lines(items)
    ensures total == Total(items)
  {
    lines, total := [], 0.0;
    var i := 0;
    while i < |items|
      invariant 0 <= i <= |items|
      invariant lines == Lines(items[..i])
      invariant total == Total(items[..i])
    {
      var item := items[i];
      assert items[..i + 1][..i] == items[..i];
      if item.product.Some? {
        var itemTotal := PriceOf(item) * QuantityOf(item);
        total := total + itemTotal;
        lines := lines + [LineOf(item)];
      }
      i := i + 1;
    }
    assert items[..i] == items;
  }

  /** The footer equals the sum of the line totals shown above it. */
  lemma {:induction false} TotalIsSumOfLines(items: seq<ItemView>)
    ensures Total(items) == SumOfLines(Lines(items))
    decreases |items|
  {
    if |items| > 0 {
      var init := items[..|items| - 1];
      var last := items[|items| - 1];
      TotalIsSumOfLines(init);
      if last.product.Some? {
        var ls := Lines(init) + [LineOf(last)];
        assert ls[..|ls| - 1] == Lines(init);
      } else {
        assert Lines(items) == Lines(init);
      }
    }
  }

  /** There is exactly one line per item that has a product, in the items' order. */
  lemma {:induction false} LinesFollowItemsWithProduct(items: seq<ItemView>)
    ensures |Lines(items)| == |WithProduct(items)|
    ensures forall j :: 0 <= j < |Lines(items)| ==> Lines(items)[j] == LineOf(WithProduct(items)[j])
    decreases |items|
  {
    if |items| > 0 {
      LinesFollowItemsWithProduct(items[..|items| - 1]);
    }
  }

  lemma {:induction false} TotalAppend(a: seq<ItemView>, b: seq<ItemView>)
    ensures Total(a + b) == Total(a) + Total(b)
    decreases |b|
  {
    if |b| == 0 {
      assert a + b == a;
    } else {
      assert (a + b)[..|a + b| - 1] == a + b[..|b| - 1];
      TotalAppend(a, b[..|b| - 1]);
    }
  }

  /** Items without a product contribute nothing: the total is that of the items with one. */
  lemma {:induction false} TotalIgnoresItemsWithoutProduct(items: seq<ItemView>)
    ensures Total(items) == Total(WithProduct(items))
    decreases |items|
  {
    if |items| > 0 {
      var init := items[..|items| - 1];
      var last := items[|items| - 1];
      TotalIgnoresItemsWithoutProduct(init);
      if last.product.Some? {
        TotalAppend(WithProduct(init), [last]);
        assert [last][..0] == [];
        assert Total([last]) == Contribution(last);
      } else {
        assert WithProduct(items) == WithProduct(init) + [] == WithProduct(init);
        assert Total(items) == Total(init) + Contribution(last);
      }
    }
  }

  /** With non-negative prices and quantities the total is non-negative. */
  lemma {:induction false} TotalNonNegative(items: seq<ItemView>)
    requires forall j :: 0 <= j < |items| ==> QuantityOf(items[j]) >= 0.0
    requires forall j :: 0 <= j < |items| && items[j].product.Some? ==> PriceOf(items[j]) >= 0.0
    ensures Total(items) >= 0.0
    decreases |items|
  {
    if |items| > 0 {
      TotalNonNegative(items[..|items| - 1]);
    }
  }

  /** Two items, 2 kg at 150 and 0.5 kg at 400, total 500. */
  lemma TwoItemExample(tomato: Product, basil: Product)
    requires tomato.price == Some(150.0) && basil.price == Some(400.0)
    ensures Total([ItemView("a", Some(tomato), Some(2.0)), ItemView("b", Some(basil), Some(0.5))]) == 500.0
  {
    var items := [ItemView("a", Some(tomato), Some(2.0)), ItemView("b", Some(basil), Some(0.5))];
    assert items[..1] == [items[0]];
    assert items[..1][..0] == [];
    assert Total(items[..1]) == 300.0;
  }
}
