/**
 * The inline keyboards of handlers.py and the callback tokens their buttons
 * carry: `get_keyboard`, `get_back_keyboard`, `get_cart_keyboard`,
 * `get_empty_cart_keyboard`, and the two places where a handler reads a
 * token back (`split('_')[1]` for a product index, `split('_')[2]` for a
 * cart item id).
 */
module Keyboards {
  import opened Wrappers
  import opened PyStr
  import opened Backend

  datatype Button = Button(text: string, callbackData: string)

  /** Rows of buttons; every keyboard of the bot has one button per row. */
  type Keyboard = seq<seq<Button>>

  const ShowCart := Button("Моя корзина", "show_cart")
  const AddToCart := Button("Добавить в корзину", "add_to_cart")
  const Back := Button("Назад", "back_to_menu")
  const Pay := Button("Оплатить", "pay")
  const ToMenu := Button("В меню", "back_to_menu")
  const DefaultItemTitle := "Товар"
  /** `"remove_item_"`, spelled as its three underscore-separated parts. */
  const RemovePrefix := "remove" + ['_'] + "item" + ['_']

  /** `f"{prefix}_{idx}"`: the prefix, an underscore, then a numeral that reads back as `idx`. */
  function Token(prefix: string, idx: nat): (t: string)
    ensures |t| > |prefix| + 1 && t[..|prefix|] == prefix && t[|prefix|] == '_'
    ensures ParseNat(t[|prefix| + 1..]) == Some(idx)
  {
    ParseNatOfNatToString(idx);
    var t := prefix + "_" + NatToString(idx);
    assert t[|prefix| + 1..] == NatToString(idx);
    t
  }

  /** One row per label, the label's position encoded in its token. */
  function OptionRows(labels: seq<string>, prefix: string): Keyboard
    decreases |labels|
  {
    if |labels| == 0 then []
    else OptionRows(labels[..|labels| - 1], prefix) + [[Button(labels[|labels| - 1], Token(prefix, |labels| - 1))]]
  }

  /** The layout `get_keyboard(labels, prefix)` builds. */
  function CatalogRows(labels: seq<string>, prefix: string): Keyboard {
    OptionRows(labels, prefix) + [[ShowCart]]
  }

  /** `get_keyboard`: appends one row per label, then the cart row. */
  method GetKeyboard(labels: seq<string>, prefix: string) returns (keyboard: Keyboard)
    ensures keyboard == CatalogRows(labels, prefix)
  {
    keyboard := [];
    var idx := 0;
    while idx < |labels|
      invariant 0 <= idx <= |labels|
      invariant keyboard == OptionRows(labels[..idx], prefix)
    {
      assert labels[..idx + 1][..idx] == labels[..idx];
      keyboard := keyboard + [[Button(labels[idx], Token(prefix, idx))]];
      idx := idx + 1;
    }
    assert labels[..idx] == labels;
    keyboard := keyboard + [[ShowCart]];
  }

  lemma {:induction false} OptionRowsAt(labels: seq<string>, prefix: string)
    ensures |OptionRows(labels, prefix)| == |labels|
    ensures forall i :: 0 <= i < |labels| ==> OptionRows(labels, prefix)[i] == [Button(labels[i], Token(prefix, i))]
    decreases |labels|
  {
    if |labels| > 0 {
      OptionRowsAt(labels[..|labels| - 1], prefix);
    }
  }

  /**
   * `len(labels) + 1` rows: row i is the i-th label with token
   * `"{prefix}_{i}"`, and the last row is always the cart button.
   */
  lemma CatalogRowsShape(labels: seq<string>, prefix: string)
    ensures |CatalogRows(labels, prefix)| == |labels| + 1
    ensures forall i :: 0 <= i < |labels| ==> CatalogRows(labels, prefix)[i] == [Button(labels[i], Token(prefix, i))]
    ensures CatalogRows(labels, prefix)[|labels|] == [ShowCart]
  {
    OptionRowsAt(labels, prefix);
  }

  /** `get_back_keyboard`: the product detail buttons. */
  function BackRows(): Keyboard {
    [[AddToCart], [ShowCart], [Back]]
  }

  /** `get_empty_cart_keyboard`. */
  function EmptyCartRows(): Keyboard {
    [[Back]]
  }

  /** The button removing one cart item; the title defaults when the product has none. */
  function RemoveButton(item: ItemView): Button
    requires item.product.Some?
  {
    Button("Удалить " + item.product.value.title.GetOr(DefaultItemTitle), RemovePrefix + item.documentId)
  }

  /** One remove button per item that has a product, in order. */
  function RemoveRows(items: seq<ItemView>): Keyboard
    decreases |items|
  {
    if |items| == 0 then []
    else
      var last := items[|items| - 1];
      RemoveRows(items[..|items| - 1]) + (if last.product.Some? then [[RemoveButton(last)]] else [])
  }

  /** The layout `get_cart_keyboard(items)` builds. */
  function CartRows(items: seq<ItemView>): Keyboard {
    RemoveRows(items) + [[Pay], [ToMenu]]
  }

  /** `get_cart_keyboard`: a remove row for each item with a product, then pay and menu. */
  method GetCartKeyboard(items: seq<ItemView>) returns (keyboard: Keyboard)
    ensures keyboard == CartRows(items)
  {
    keyboard := [];
    var i := 0;
    while i < |items|
      invariant 0 <= i <= |items|
      invariant keyboard == RemoveRows(items[..i])
    {
      assert items[..i + 1][..i] == items[..i];
      var item := items[i];
      if item.product.Some? {
        keyboard := keyboard + [[RemoveButton(item)]];
      }
      i := i + 1;
    }
    assert items[..i] == items;
    keyboard := keyboard + [[Pay], [ToMenu]];
  }

  lemma {:induction false} RemoveRowsAt(items: seq<ItemView>)
    ensures |RemoveRows(items)| == |WithProduct(items)|
    ensures forall j :: 0 <= j < |WithProduct(items)| ==> RemoveRows(items)[j] == [RemoveButton(WithProduct(items)[j])]
    decreases |items|
  {
    if |items| > 0 {
      RemoveRowsAt(items[..|items| - 1]);
    }
  }

  /**
   * One `"remove_item_{documentId}"` row per item that has a product, in
   * order, items without a product skipped; then exactly pay and menu.
   */
  lemma CartRowsShape(items: seq<ItemView>)
    ensures |CartRows(items)| == |WithProduct(items)| + 2
    ensures forall j :: 0 <= j < |WithProduct(items)| ==>
      CartRows(items)[j] == [Button("Удалить " + WithProduct(items)[j].product.value.title.GetOr(DefaultItemTitle),
                                    RemovePrefix + WithProduct(items)[j].documentId)]
    ensures CartRows(items)[|WithProduct(items)|] == [Pay]
    ensures CartRows(items)[|WithProduct(items)| + 1] == [ToMenu]
  {
    RemoveRowsAt(items);
  }

  /**
   * `int(data.split('_')[1])`: IndexError without a second field, ValueError
   * when that field is not an integer, otherwise its value.
   */
  function ParseProductIndex(data: string): (r: Result<int>)
    ensures |Split(data, '_')| < 2 ==> r == Raise(IndexError)
    ensures |Split(data, '_')| >= 2 ==>
      (r.Ok? <==> ParseInt(Split(data, '_')[1]).Some?) &&
      (r.Ok? ==> r.value == ParseInt(Split(data, '_')[1]).value) &&
      (r.Raise? ==> r.error == ValueError)
  {
    match Field(Split(data, '_'), 1)
    case Raise(e) => Raise(e)
    case Ok(field) =>
      match ParseInt(field)
      case None => Raise(ValueError)
      case Some(n) => Ok(n)
  }

  /**
   * `data.split('_')[2]`: the third field, which never contains an
   * underscore, or IndexError when there is none.
   */
  function ParseRemoveTarget(data: string): (r: Result<string>)
    ensures r.Ok? <==> |Split(data, '_')| >= 3
    ensures r.Raise? ==> r.error == IndexError
    ensures r.Ok? ==> '_' !in r.value && r.value == Split(data, '_')[2]
  {
    Field(Split(data, '_'), 2)
  }

  /**
   * The product detail keyboard: add to cart, then the same cart button the
   * catalogue ends with, then back to the catalogue.
   */
  lemma DetailKeyboardShape(labels: seq<string>, prefix: string)
    ensures |BackRows()| == 3 && forall row :: row in BackRows() ==> |row| == 1
    ensures BackRows()[0][0].callbackData == "add_to_cart"
    ensures |CatalogRows(labels, prefix)| == |labels| + 1 && BackRows()[1] == CatalogRows(labels, prefix)[|labels|]
    ensures BackRows()[2][0].callbackData == "back_to_menu"
  {
    CatalogRowsShape(labels, prefix);
  }

  /**
   * The empty-cart keyboard is a single button leading back to the
   * catalogue, with the same callback as the cart keyboard's last row and
   * the detail keyboard's back button.
   */
  lemma EmptyCartKeyboardShape(items: seq<ItemView>)
    ensures |EmptyCartRows()| == 1 && |EmptyCartRows()[0]| == 1
    ensures EmptyCartRows()[0][0].callbackData == "back_to_menu"
    ensures EmptyCartRows()[0][0].callbackData == CartRows(items)[|CartRows(items)| - 1][0].callbackData
    ensures EmptyCartRows()[0][0].callbackData == BackRows()[2][0].callbackData
  {
    CartRowsShape(items);
  }

  /** A token built with an underscore-free prefix parses back to its index. */
  lemma ProductTokenRoundTrip(prefix: string, idx: nat)
    requires '_' !in prefix
    ensures ParseProductIndex(Token(prefix, idx)) == Ok(idx)
  {
    var digits := NatToString(idx);
    assert '_' !in digits;
    assert Token(prefix, idx) == Join([prefix, digits], '_');
    SplitOfJoin([prefix, digits], '_');
    ParseIntOfNatToString(idx);
  }

  /** Every product button of the catalogue keyboard leads back to its own index. */
  lemma CatalogTokensParseBack(labels: seq<string>, i: nat)
    requires i < |labels|
    ensures var rows := CatalogRows(labels, "product");
      |rows| == |labels| + 1 && |rows[i]| == 1 && ParseProductIndex(rows[i][0].callbackData) == Ok(i)
  {
    CatalogRowsShape(labels, "product");
    ProductTokenRoundTrip("product", i);
  }

  /** A token with two underscore-free leading fields splits into them, then the rest. */
  lemma SplitAfterTwoFields(a: string, b: string, rest: string)
    requires '_' !in a && '_' !in b
    ensures Split(a + ['_'] + b + ['_'] + rest, '_') == [a, b] + Split(rest, '_')
  {
    assert a + ['_'] + b + ['_'] + rest == a + ['_'] + (b + ['_'] + rest);
    SplitAfterSep(a, b + ['_'] + rest, '_');
    SplitAfterSep(b, rest, '_');
  }

  /** The third field of such a token is the first field of the rest. */
  lemma ThirdFieldAfterTwoFields(a: string, b: string, rest: string)
    requires '_' !in a && '_' !in b
    ensures ParseRemoveTarget(a + ['_'] + b + ['_'] + rest) == Ok(Split(rest, '_')[0])
  {
    SplitAfterTwoFields(a, b, rest);
  }

  /**
   * A remove token yields the item id up to its first underscore; for an
   * underscore-free id (the backend's ids are) that is the id itself.
   */
  lemma RemoveTokenRoundTrip(id: string)
    ensures ParseRemoveTarget(RemovePrefix + id) == Ok(Split(id, '_')[0])
    ensures '_' !in id ==> ParseRemoveTarget(RemovePrefix + id) == Ok(id)
  {
    ThirdFieldAfterTwoFields("remove", "item", id);
    if '_' !in id {
      SplitWithoutSep(id, '_');
    }
  }

}
