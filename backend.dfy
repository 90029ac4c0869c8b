/**
 * The cart operations of strapi_helpers.py, run against an in-memory model
 * of the backend's collections instead of its REST API. Every request can
 * fail (transport error, timeout, non-2xx status); the outcome of each
 * request is chosen nondeterministically, and a failed request changes
 * nothing.
 */
module Backend {
  import opened Wrappers
  import opened PyStr
  import opened Images

  const Active := "active"
  const Completed := "completed"

  /** A catalogue product; a `None` field is a key the backend did not send. */
  datatype Product = Product(
    documentId: Option<string>,
    title: Option<string>,
    price: Option<real>,
    description: Option<string>,
    image: Option<Json>)

  /** A cart; `telegramId` is the user's id (sent to the backend as its decimal string). */
  datatype Cart = Cart(documentId: string, telegramId: int, orderStatus: string, customer: Option<string>)

  /** A cart item, referring to its cart and its product by document id. */
  datatype CartItem = CartItem(documentId: string, cart: string, product: string, quantity: Option<real>)

  datatype Customer = Customer(documentId: string, telegramId: int, email: string, username: Option<string>)

  /** A cart item with its product populated; `product` is `None` when that product is gone. */
  datatype ItemView = ItemView(documentId: string, product: Option<Product>, quantity: Option<real>)

  /** A cart as `get_cart_with_items` returns it: the cart and its populated items. */
  datatype CartView = CartView(cart: Cart, items: seq<ItemView>)

  /** The items that still have a product (`if product:` in the cart views), in order. */
  function WithProduct(items: seq<ItemView>): (r: seq<ItemView>)
    ensures |r| <= |items|
    ensures forall j :: 0 <= j < |r| ==> r[j].product.Some?
    decreases |items|
  {
    if |items| == 0 then []
    else
      var last := items[|items| - 1];
      WithProduct(items[..|items| - 1]) + (if last.product.Some? then [last] else [])
  }

  predicate IsActiveFor(c: Cart, telegramId: int) {
    c.telegramId == telegramId && c.orderStatus == Active
  }

  /** The first cart the query `telegram_id == id && order_status == "active"` returns. */
  function FirstActiveIndex(carts: seq<Cart>, telegramId: int): (r: Option<nat>)
    ensures r.Some? ==> r.value < |carts| && IsActiveFor(carts[r.value], telegramId)
    ensures r.Some? ==> forall j :: 0 <= j < r.value ==> !IsActiveFor(carts[j], telegramId)
    ensures r.None? ==> forall j :: 0 <= j < |carts| ==> !IsActiveFor(carts[j], telegramId)
    decreases |carts|
  {
    if |carts| == 0 then None
    else if IsActiveFor(carts[0], telegramId) then Some(0)
    else
      match FirstActiveIndex(carts[1..], telegramId)
      case None => None
      case Some(k) => Some(k + 1)
  }

  /** The position of the cart with a given document id, if any. */
  function CartIndex(carts: seq<Cart>, id: string): (r: Option<nat>)
    ensures r.Some? ==> r.value < |carts| && carts[r.value].documentId == id
    ensures r.None? ==> forall j :: 0 <= j < |carts| ==> carts[j].documentId != id
    decreases |carts|
  {
    if |carts| == 0 then None
    else if carts[0].documentId == id then Some(0)
    else
      match CartIndex(carts[1..], id)
      case None => None
      case Some(k) => Some(k + 1)
  }

  /** The position of the cart item with a given document id, if any. */
  function ItemIndex(items: seq<CartItem>, id: string): (r: Option<nat>)
    ensures r.Some? ==> r.value < |items| && items[r.value].documentId == id
    ensures r.None? ==> forall j :: 0 <= j < |items| ==> items[j].documentId != id
    decreases |items|
  {
    if |items| == 0 then None
    else if items[0].documentId == id then Some(0)
    else
      match ItemIndex(items[1..], id)
      case None => None
      case Some(k) => Some(k + 1)
  }

  /** Document ids are handed out by the backend from a counter. */
  function MintId(n: nat): string {
    NatToString(n)
  }

  /** `id` was handed out before the counter reached `bound`. */
  predicate Minted(id: string, bound: nat) {
    match ParseNat(id)
    case Some(k) => k < bound
    case None => false
  }

  lemma MintIsFresh(id: string, bound: nat)
    requires Minted(id, bound)
    ensures id != MintId(bound)
  {
    ParseNatOfNatToString(bound);
  }

  predicate DistinctCarts(carts: seq<Cart>) {
    forall i, j :: 0 <= i < j < |carts| ==> carts[i].documentId != carts[j].documentId
  }

  predicate DistinctItems(items: seq<CartItem>) {
    forall i, j :: 0 <= i < j < |items| ==> items[i].documentId != items[j].documentId
  }

  predicate DistinctCustomers(customers: seq<Customer>) {
    forall i, j :: 0 <= i < j < |customers| ==> customers[i].documentId != customers[j].documentId
  }

  /** No user has two active carts. */
  predicate AtMostOneActive(carts: seq<Cart>) {
    forall i, j :: 0 <= i < j < |carts| && carts[i].orderStatus == Active && carts[j].orderStatus == Active ==>
      carts[i].telegramId != carts[j].telegramId
  }

  /** The item as the backend populates it with its product. */
  function Populate(item: CartItem, products: map<string, Product>): ItemView {
    ItemView(item.documentId, if item.product in products then Some(products[item.product]) else None, item.quantity)
  }

  /** The items of cart `cartId`, in storage order, populated. */
  function ItemsOf(items: seq<CartItem>, cartId: string, products: map<string, Product>): (r: seq<ItemView>)
    ensures |r| <= |items|
    decreases |items|
  {
    if |items| == 0 then []
    else (if items[0].cart == cartId then [Populate(items[0], products)] else []) + ItemsOf(items[1..], cartId, products)
  }

  lemma {:induction false} ItemsOfAppend(a: seq<CartItem>, b: seq<CartItem>, cartId: string, products: map<string, Product>)
    ensures ItemsOf(a + b, cartId, products) == ItemsOf(a, cartId, products) + ItemsOf(b, cartId, products)
    decreases |a|
  {
    if |a| > 0 {
      assert (a + b)[1..] == a[1..] + b;
      ItemsOfAppend(a[1..], b, cartId, products);
    } else {
      assert a + b == b;
    }
  }

  lemma {:induction false} ItemsOfOtherCarts(items: seq<CartItem>, cartId: string, products: map<string, Product>)
    requires forall j :: 0 <= j < |items| ==> items[j].cart != cartId
    ensures ItemsOf(items, cartId, products) == []
    decreases |items|
  {
    if |items| > 0 {
      ItemsOfOtherCarts(items[1..], cartId, products);
    }
  }

  /** Removing the only item of a cart leaves that cart's view empty. */
  lemma RemovingOnlyItemEmptiesCart(items: seq<CartItem>, k: nat, cartId: string, products: map<string, Product>)
    requires k < |items|
    requires forall j :: 0 <= j < |items| && j != k ==> items[j].cart != cartId
    ensures ItemsOf(items[..k] + items[k + 1..], cartId, products) == []
  {
    ItemsOfAppend(items[..k], items[k + 1..], cartId, products);
    ItemsOfOtherCarts(items[..k], cartId, products);
    ItemsOfOtherCarts(items[k + 1..], cartId, products);
  }

  /** Completing a user's active cart leaves that user with no active cart. */
  lemma CompletingLeavesNoActiveCart(carts: seq<Cart>, telegramId: int, customerId: string)
    requires AtMostOneActive(carts)
    requires FirstActiveIndex(carts, telegramId).Some?
    ensures var i := FirstActiveIndex(carts, telegramId).value;
      FirstActiveIndex(carts[i := carts[i].(orderStatus := Completed, customer := Some(customerId))], telegramId).None?
  {
  }

  /** The backend's carts, cart items and customers, with its product catalogue. */
  class Store {
    var carts: seq<Cart>
    var items: seq<CartItem>
    var customers: seq<Customer>
    var nextId: nat
    const products: map<string, Product>

    ghost predicate Valid()
      reads this
    {
      && (forall c :: c in carts ==> Minted(c.documentId, nextId))
      && (forall it :: it in items ==> Minted(it.documentId, nextId))
      && (forall cu :: cu in customers ==> Minted(cu.documentId, nextId))
      && DistinctCarts(carts)
      && DistinctItems(items)
      && DistinctCustomers(customers)
      && AtMostOneActive(carts)
    }

    constructor (catalogue: map<string, Product>)
      ensures Valid()
      ensures carts == [] && items == [] && customers == [] && products == catalogue
    {
      carts, items, customers, nextId := [], [], [], 0;
      products := catalogue;
    }

    /**
     * The user's active cart with its items, as a successful query returns
     * it: present exactly when the user has an active cart, and then holding
     * that stored cart and only items that belong to it.
     */
    function ActiveView(telegramId: int): (r: Option<CartView>)
      reads this
      ensures r.Some? <==> FirstActiveIndex(carts, telegramId).Some?
      ensures r.Some? ==> r.value.cart == carts[FirstActiveIndex(carts, telegramId).value]
      ensures r.Some? ==> IsActiveFor(r.value.cart, telegramId) && |r.value.items| <= |items|
    {
      match FirstActiveIndex(carts, telegramId)
      case None => None
      case Some(i) => Some(CartView(carts[i], ItemsOf(items, carts[i].documentId, products)))
    }

    /** Hands out a document id no stored entity uses. */
    method Mint() returns (id: string)
      requires Valid()
      modifies this
      ensures Valid() && nextId == old(nextId) + 1 && id == MintId(old(nextId))
      ensures carts == old(carts) && items == old(items) && customers == old(customers)
      ensures forall c :: c in carts ==> c.documentId != id
      ensures forall it :: it in items ==> it.documentId != id
      ensures forall cu :: cu in customers ==> cu.documentId != id
      ensures Minted(id, nextId)
    {
      id := MintId(nextId);
      forall c | c in carts ensures c.documentId != id {
        MintIsFresh(c.documentId, nextId);
      }
      forall it | it in items ensures it.documentId != id {
        MintIsFresh(it.documentId, nextId);
      }
      forall cu | cu in customers ensures cu.documentId != id {
        MintIsFresh(cu.documentId, nextId);
      }
      ParseNatOfNatToString(nextId);
      nextId := nextId + 1;
    }

    /**
     * `get_or_create_cart`: the user's first active cart if there is one,
     * otherwise a newly created active cart; `None` when a request fails.
     */
    method GetOrCreateCart(telegramId: int) returns (r: Option<Cart>)
      requires Valid()
      modifies this
      ensures Valid() && items == old(items) && customers == old(customers)
      ensures old(FirstActiveIndex(carts, telegramId)).Some? ==>
        carts == old(carts) && (r.None? || r.value == old(carts[FirstActiveIndex(carts, telegramId).value]))
      ensures old(FirstActiveIndex(carts, telegramId)).None? && r.None? ==> carts == old(carts)
      ensures old(FirstActiveIndex(carts, telegramId)).None? && r.Some? ==>
        carts == old(carts) + [r.value] && r.value == Cart(r.value.documentId, telegramId, Active, None)
      ensures r.Some? ==> FirstActiveIndex(carts, telegramId) == Some(|carts| - 1) || carts == old(carts)
      ensures r.Some? ==> FirstActiveIndex(carts, telegramId).Some? && carts[FirstActiveIndex(carts, telegramId).value] == r.value
    {
      var queried: bool := *;
      if !queried {
        return None;
      }
      var found := FirstActiveIndex(carts, telegramId);
      if found.Some? {
        return Some(carts[found.value]);
      }
      var created: bool := *;
      if !created {
        return None;
      }
      var id := Mint();
      var cart := Cart(id, telegramId, Active, None);
      carts := carts + [cart];
      assert IsActiveFor(carts[|carts| - 1], telegramId);
      assert FirstActiveIndex(carts, telegramId).Some?;
      r := Some(cart);
    }

    /** `add_product_to_cart`: a new item in the cart; `None` when the request fails. */
    method AddProductToCart(cartId: string, productId: string, quantity: real) returns (r: Option<CartItem>)
      requires Valid()
      modifies this
      ensures Valid() && carts == old(carts) && customers == old(customers)
      ensures r.None? ==> items == old(items)
      ensures r.Some? ==> items == old(items) + [r.value] && r.value == CartItem(r.value.documentId, cartId, productId, Some(quantity))
    {
      var posted: bool := *;
      if !posted {
        return None;
      }
      var id := Mint();
      var item := CartItem(id, cartId, productId, Some(quantity));
      items := items + [item];
      r := Some(item);
    }

    /**
     * `get_cart_with_items`: the user's active cart with its items. `None`
     * both when the user has no active cart and when the request fails.
     */
    method GetCartWithItems(telegramId: int) returns (r: Option<CartView>)
      ensures r.None? || r == ActiveView(telegramId)
      ensures ActiveView(telegramId).None? ==> r.None?
    {
      var queried: bool := *;
      if !queried {
        return None;
      }
      r := ActiveView(telegramId);
    }

    /**
     * `remove_cart_item`: true exactly when the DELETE succeeded, which needs
     * the item to exist; then that one item is gone and nothing else is.
     */
    method RemoveCartItem(itemId: string) returns (ok: bool)
      requires Valid()
      modifies this
      ensures Valid() && carts == old(carts) && customers == old(customers)
      ensures !ok ==> items == old(items)
      ensures ok ==> (old(ItemIndex(items, itemId)).Some? &&
        items == old(items[..ItemIndex(items, itemId).value] + items[ItemIndex(items, itemId).value + 1..]))
      ensures ok ==> forall it :: it in items ==> it.documentId != itemId
    {
      var reached: bool := *;
      if !reached {
        return false;
      }
      var found := ItemIndex(items, itemId);
      if found.None? {
        return false;
      }
      var k := found.value;
      var rest := items[..k] + items[k + 1..];
      forall i, j | 0 <= i < j < |rest| ensures rest[i].documentId != rest[j].documentId {
        var i' := if i < k then i else i + 1;
        var j' := if j < k then j else j + 1;
        assert rest[i] == items[i'] && rest[j] == items[j'];
      }
      forall it | it in rest ensures it in items && it.documentId != itemId {
        var m :| 0 <= m < |rest| && rest[m] == it;
        var m' := if m < k then m else m + 1;
        assert rest[m] == items[m'];
      }
      items := rest;
      ok := true;
    }

    /** `create_customer`: a new customer record; `None` when the request fails. */
    method CreateCustomer(telegramId: int, email: string, username: Option<string>) returns (r: Option<Customer>)
      requires Valid()
      modifies this
      ensures Valid() && carts == old(carts) && items == old(items)
      ensures r.None? ==> customers == old(customers)
      ensures r.Some? ==> (customers == old(customers) + [r.value] &&
        r.value == Customer(r.value.documentId, telegramId, email, username))
    {
      var posted: bool := *;
      if !posted {
        return None;
      }
      var id := Mint();
      var customer := Customer(id, telegramId, email, username);
      customers := customers + [customer];
      r := Some(customer);
    }

    /**
     * `link_cart_to_customer_and_complete`: the cart with that id becomes
     * completed and linked to the customer; no other cart changes. A failed
     * request, or an id no cart has, changes nothing.
     */
    method LinkCartToCustomerAndComplete(cartId: string, customerId: string) returns (r: Option<Cart>)
      requires Valid()
      modifies this
      ensures Valid() && items == old(items) && customers == old(customers)
      ensures r.None? ==> carts == old(carts)
      ensures r.Some? ==> (old(CartIndex(carts, cartId)).Some? &&
        r.value == old(carts[CartIndex(carts, cartId).value]).(orderStatus := Completed, customer := Some(customerId)) &&
        carts == old(carts[CartIndex(carts, cartId).value := r.value]))
      ensures |carts| == |old(carts)|
      ensures forall j :: 0 <= j < |carts| && old(carts[j]).documentId != cartId ==> carts[j] == old(carts[j])
    {
      var reached: bool := *;
      if !reached {
        return None;
      }
      var found := CartIndex(carts, cartId);
      if found.None? {
        return None;
      }
      var i := found.value;
      var updated := carts[i].(orderStatus := Completed, customer := Some(customerId));
      forall c | c in carts[i := updated] ensures Minted(c.documentId, nextId) {
        var m :| 0 <= m < |carts| && carts[i := updated][m] == c;
        assert c.documentId == carts[m].documentId;
      }
      carts := carts[i := updated];
      r := Some(updated);
    }
  }

  /** Two get-or-create calls in a row yield the same cart (sequential use). */
  method RepeatedGetOrCreate(store: Store, telegramId: int) returns (first: Option<Cart>, second: Option<Cart>)
    requires store.Valid()
    modifies store
    ensures store.Valid()
    ensures first.Some? && second.Some? ==> first == second
    ensures |store.carts| <= |old(store.carts)| + 1
  {
    first := store.GetOrCreateCart(telegramId);
    second := store.GetOrCreateCart(telegramId);
  }
}
