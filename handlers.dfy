/**
 * The shop conversation handlers of handlers.py. Each handler reads the
 * per-chat FSM session (its state and the selected product's document id),
 * may call the backend, emits its transport effects in order (answer the
 * callback, delete the old message, send the new one) and may set the next
 * state. Which handler runs for which callback or state is decided by
 * registration code that is not part of this model, so each handler is
 * modelled on its own, for any session.
 */
module Handlers {
  import opened Wrappers
  import opened Images
  import opened Backend
  import opened Keyboards
  import opened CartSummary

  /** `BotStates`. */
  datatype BotState = Start | HandleMenu | HandleDescription | HandleCart | WaitingEmail

  /** A message body; numbers are kept as values, their printing is not modelled. */
  datatype Content =
    | Text(text: string)
    | ProductCaption(title: Option<string>, price: Option<real>, description: Option<string>)
    | CartText(lines: seq<CartLine>, total: real)

  /** What a handler asks the chat transport to do. */
  datatype Effect =
    | Answer(text: Option<string>, showAlert: bool)     // `callback.answer(...)`
    | DeleteMessage                                      // delete the message whose button was pressed
    | SendMessage(content: Content, markup: Keyboard)    // `bot.send_message(...)`
    | SendPhoto(caption: Content, markup: Keyboard)      // `bot.send_photo(...)`
    | Reply(replyText: string, replyMarkup: Option<Keyboard>) // `message.answer(...)`

  /** A handler either finishes or lets an exception escape to the dispatcher. */
  datatype Outcome = Done | Raised(error: Exception)

  const UnavailableText := "Извините, товары временно недоступны."
  const GreetingText := "Привет! Выберите товар:"
  const ChooseText := "Выберите товар:"
  const NotFoundText := "Ошибка: товар не найден"
  const EmptyCartText := "Ваша корзина пуста"
  const EmailPromptText := "Для оформления заказа, пожалуйста, отправьте вашу электронную почту:"
  const ThanksText := "Спасибо! Ваш заказ оформлен.\nМы свяжемся с вами по адресу: "

  const Ack := Answer(None, false)
  const CartFailed := Answer(Some("Ошибка при создании корзины"), true)
  const NothingSelected := Answer(Some("Ошибка: товар не выбран"), true)
  const Added := Answer(Some("Товар добавлен в корзину!"), false)
  const AddFailed := Answer(Some("Ошибка при добавлении товара в корзину"), true)
  const Removed := Answer(Some("Товар удален из корзины"), false)
  const RemoveFailed := Answer(Some("Ошибка при удалении товара"), true)

  /** The aiogram FSM context of one chat. */
  class Session {
    var state: Option<BotState>
    /** `current_product_document_id`; `None` when never stored or stored as `None`. */
    var currentProduct: Option<string>

    constructor ()
      ensures state == None && currentProduct == None
    {
      state, currentProduct := None, None;
    }
  }

  /** The chat transport, as the log of effects the handlers asked for. */
  class Transport {
    var effects: seq<Effect>

    constructor ()
      ensures effects == []
    {
      effects := [];
    }
  }

  /** Every product has a title, so the catalogue buttons can be built. */
  predicate Titled(products: seq<Product>) {
    forall i :: 0 <= i < |products| ==> products[i].title.Some?
  }

  function Titles(products: seq<Product>): (labels: seq<string>)
    requires Titled(products)
    ensures |labels| == |products|
    ensures forall i :: 0 <= i < |products| ==> labels[i] == products[i].title.value
  {
    seq(|products|, i requires 0 <= i < |products| => products[i].title.value)
  }

  /**
   * The button `cmd_start` and `back_to_menu_handler` show for product i
   * carries its title and a token that `main_menu_handler` parses back to
   * i, so pressing it selects that same product.
   */
  lemma CatalogButtonSelectsProduct(products: seq<Product>, i: nat)
    requires Titled(products) && i < |products|
    ensures |CatalogMarkup(products)| == |products| + 1
    ensures CatalogMarkup(products)[i] == [Button(products[i].title.value, Token("product", i))]
    ensures ParseProductIndex(CatalogMarkup(products)[i][0].callbackData) == Ok(i)
  {
    CatalogRowsShape(Titles(products), "product");
    ProductTokenRoundTrip("product", i);
  }

  /** The catalogue keyboard, `get_keyboard(product_names, prefix='product')`. */
  function CatalogMarkup(products: seq<Product>): Keyboard
    requires Titled(products)
  {
    CatalogRows(Titles(products), "product")
  }

  function Caption(product: Product): Content {
    ProductCaption(product.title, product.price, product.description)
  }

  /** The selection is usable: present and not the empty string (`if not product_document_id`). */
  predicate Selected(current: Option<string>) {
    current.Some? && current.value != ""
  }

  /** A resolved image URL that the handler will try to download (a non-empty string). */
  predicate HasImageUrl(url: Result<Option<string>>) {
    url.Ok? && url.value.Some? && url.value.value != ""
  }

  predicate EmptyCart(view: Option<CartView>) {
    view.None? || |view.value.items| == 0
  }

  /** The summary message for a cart's items, with its remove, pay and menu buttons. */
  function CartMessage(items: seq<ItemView>): Effect {
    SendMessage(CartText(Lines(items), Total(items)), CartRows(items))
  }

  /**
   * The message a cart screen sends: the empty-cart view when there is no
   * cart or it has no items; otherwise the summary with the cart's total,
   * one line per item with a product and, below the lines, one remove button
   * per line followed by pay and menu.
   */
  function CartScreen(view: Option<CartView>): (effect: Effect)
    ensures effect.SendMessage? && (EmptyCart(view) <==> effect.content.Text?)
    ensures EmptyCart(view) ==> effect.content == Text(EmptyCartText) && effect.markup == EmptyCartRows()
    ensures !EmptyCart(view) ==>
      && effect.content.CartText?
      && effect.content.total == Total(view.value.items)
      && |effect.content.lines| == |WithProduct(view.value.items)|
      && |effect.markup| == |effect.content.lines| + 2
  {
    if EmptyCart(view) then SendMessage(Text(EmptyCartText), EmptyCartRows())
    else
      LinesFollowItemsWithProduct(view.value.items);
      CartRowsShape(view.value.items);
      CartMessage(view.value.items)
  }

  /** `items` is `before` plus one new item of `productId` with quantity 1.0 in cart `cartId`. */
  predicate AddedOne(items: seq<CartItem>, before: seq<CartItem>, cartId: string, productId: string) {
    |items| == |before| + 1 && items[..|before|] == before &&
    items[|before|] == CartItem(items[|before|].documentId, cartId, productId, Some(1.0))
  }

  /** `items` is `before` without the (first) item whose document id is `id`. */
  predicate RemovedItem(items: seq<CartItem>, before: seq<CartItem>, id: string) {
    ItemIndex(before, id).Some? &&
    items == before[..ItemIndex(before, id).value] + before[ItemIndex(before, id).value + 1..]
  }

  /**
   * After a removal the screen is replaced by the cart as re-read (`view`),
   * or by the empty-cart view when the re-read failed; only the empty-cart
   * view sets the cart state.
   */
  predicate Rerendered(effects: seq<Effect>, before: seq<Effect>, state: Option<BotState>, oldState: Option<BotState>,
                       view: Option<CartView>) {
    || (effects == before + [Removed, DeleteMessage, CartScreen(None)] && state == Some(HandleCart))
    || (effects == before + [Removed, DeleteMessage, CartScreen(view)] &&
        state == (if EmptyCart(view) then Some(HandleCart) else oldState))
  }

  /** The cart text and keyboard shared by the two cart screens. */
  method RenderCart(items: seq<ItemView>) returns (effect: Effect)
    ensures effect == CartMessage(items)
  {
    var lines, total := Summarize(items);
    var keyboard := GetCartKeyboard(items);
    effect := SendMessage(CartText(lines, total), keyboard);
  }

  /** `cmd_start`: the catalogue keyboard and the menu state, or an apology for an empty catalogue. */
  method CmdStart(session: Session, transport: Transport, products: seq<Product>) returns (outcome: Outcome)
    modifies session, transport
    ensures session.currentProduct == old(session.currentProduct)
    ensures |products| == 0 ==>
      outcome == Done && session.state == old(session.state) &&
      transport.effects == old(transport.effects) + [Reply(UnavailableText, None)]
    ensures |products| > 0 && !Titled(products) ==>
      outcome == Raised(ValidationError) && session.state == old(session.state) &&
      transport.effects == old(transport.effects)
    ensures |products| > 0 && Titled(products) ==>
      outcome == Done && session.state == Some(HandleMenu) &&
      transport.effects == old(transport.effects) + [Reply(GreetingText, Some(CatalogMarkup(products)))]
  {
    if |products| == 0 {
      transport.effects := transport.effects + [Reply(UnavailableText, None)];
      return Done;
    }
    if !Titled(products) {
      return Raised(ValidationError);
    }
    var markup := GetKeyboard(Titles(products), "product");
    transport.effects := transport.effects + [Reply(GreetingText, Some(markup))];
    session.state := Some(HandleMenu);
    outcome := Done;
  }

  /**
   * `main_menu_handler`: a product index in range selects that product and
   * shows its detail screen; any other index only answers with an error.
   */
  method MainMenuHandler(session: Session, transport: Transport, products: seq<Product>, data: string, baseUrl: string)
    returns (outcome: Outcome)
    modifies session, transport
    ensures ParseProductIndex(data).Raise? ==>
      outcome == Raised(ParseProductIndex(data).error) && transport.effects == old(transport.effects) &&
      session.state == old(session.state) && session.currentProduct == old(session.currentProduct)
    ensures ParseProductIndex(data).Ok? && !(0 <= ParseProductIndex(data).value < |products|) ==>
      outcome == Done && transport.effects == old(transport.effects) + [Answer(Some(NotFoundText), false)] &&
      session.state == old(session.state) && session.currentProduct == old(session.currentProduct)
    ensures ParseProductIndex(data).Ok? && 0 <= ParseProductIndex(data).value < |products| ==>
      var product := products[ParseProductIndex(data).value];
      var url := GetImageUrl(product.image, baseUrl);
      && session.currentProduct == product.documentId
      && (url.Raise? ==>
            outcome == Raised(AttributeError) && transport.effects == old(transport.effects) &&
            session.state == old(session.state))
      && (url.Ok? ==>
            outcome == Done && session.state == Some(HandleDescription) &&
            (transport.effects == old(transport.effects) + [Ack, DeleteMessage, SendMessage(Caption(product), BackRows())] ||
             (HasImageUrl(url) &&
              transport.effects == old(transport.effects) + [Ack, DeleteMessage, SendPhoto(Caption(product), BackRows())])))
  {
    var parsed := ParseProductIndex(data);
    if parsed.Raise? {
      return Raised(parsed.error);
    }
    var idx := parsed.value;
    if !(0 <= idx < |products|) {
      transport.effects := transport.effects + [Answer(Some(NotFoundText), false)];
      return Done;
    }
    var product := products[idx];
    session.currentProduct := product.documentId;
    var caption := Caption(product);
    var url := GetImageUrl(product.image, baseUrl);
    if url.Raise? {
      return Raised(url.error);
    }
    transport.effects := transport.effects + [Ack];
    transport.effects := transport.effects + [DeleteMessage];
    var message := SendMessage(caption, BackRows());
    if HasImageUrl(url) {
      // download_image: whether non-empty bytes came back is up to the network
      var downloaded: bool := *;
      if downloaded {
        message := SendPhoto(caption, BackRows());
      }
    }
    transport.effects := transport.effects + [message];
    session.state := Some(HandleDescription);
    outcome := Done;
  }

  /** `back_to_menu_handler`: replaces the screen with the catalogue and returns to the menu. */
  method BackToMenuHandler(session: Session, transport: Transport, products: seq<Product>) returns (outcome: Outcome)
    modifies session, transport
    ensures session.currentProduct == old(session.currentProduct)
    ensures !Titled(products) ==>
      outcome == Raised(ValidationError) && session.state == old(session.state) &&
      transport.effects == old(transport.effects)
    ensures Titled(products) ==>
      outcome == Done && session.state == Some(HandleMenu) &&
      transport.effects == old(transport.effects) + [Ack, DeleteMessage, SendMessage(Text(ChooseText), CatalogMarkup(products))]
  {
    if !Titled(products) {
      return Raised(ValidationError);
    }
    var markup := GetKeyboard(Titles(products), "product");
    transport.effects := transport.effects + [Ack];
    transport.effects := transport.effects + [DeleteMessage];
    transport.effects := transport.effects + [SendMessage(Text(ChooseText), markup)];
    session.state := Some(HandleMenu);
    outcome := Done;
  }

  /**
   * `add_to_cart_handler`: resolves (or creates) the user's active cart,
   * then adds the selected product with quantity 1.0. It answers once and
   * never touches the session.
   */
  method AddToCartHandler(session: Session, transport: Transport, store: Store, telegramId: int)
    requires store.Valid()
    modifies transport, store
    ensures store.Valid() && store.customers == old(store.customers)
    ensures store.carts == old(store.carts) ||
      (old(FirstActiveIndex(store.carts, telegramId)).None? &&
       |store.carts| == |old(store.carts)| + 1 && store.carts[..|old(store.carts)|] == old(store.carts) &&
       store.carts[|old(store.carts)|] == Cart(store.carts[|old(store.carts)|].documentId, telegramId, Active, None))
    ensures !Selected(session.currentProduct) ==> store.items == old(store.items)
    ensures
      || (transport.effects == old(transport.effects) + [CartFailed] &&
          store.carts == old(store.carts) && store.items == old(store.items))
      || (transport.effects == old(transport.effects) + [NothingSelected] &&
          FirstActiveIndex(store.carts, telegramId).Some? &&
          !Selected(session.currentProduct) && store.items == old(store.items))
      || (transport.effects == old(transport.effects) + [AddFailed] &&
          FirstActiveIndex(store.carts, telegramId).Some? &&
          Selected(session.currentProduct) && store.items == old(store.items))
      || (transport.effects == old(transport.effects) + [Added] &&
          Selected(session.currentProduct) && FirstActiveIndex(store.carts, telegramId).Some? &&
          AddedOne(store.items, old(store.items),
                   store.carts[FirstActiveIndex(store.carts, telegramId).value].documentId,
                   session.currentProduct.value))
  {
    var cart := store.GetOrCreateCart(telegramId);
    if cart.None? {
      transport.effects := transport.effects + [CartFailed];
      return;
    }
    var productId := session.currentProduct;
    if !Selected(productId) {
      transport.effects := transport.effects + [NothingSelected];
      return;
    }
    var item := store.AddProductToCart(cart.value.documentId, productId.value, 1.0);
    if item.Some? {
      transport.effects := transport.effects + [Added];
    } else {
      transport.effects := transport.effects + [AddFailed];
    }
  }

  /**
   * `show_cart_handler`: replaces the screen with the user's cart (or the
   * empty-cart view when there is no cart, no items, or the query failed)
   * and always ends in the cart state.
   */
  method ShowCartHandler(session: Session, transport: Transport, store: Store, telegramId: int)
    modifies session, transport
    ensures session.state == Some(HandleCart) && session.currentProduct == old(session.currentProduct)
    ensures transport.effects == old(transport.effects) + [Ack, DeleteMessage, CartScreen(None)] ||
            transport.effects == old(transport.effects) + [Ack, DeleteMessage, CartScreen(store.ActiveView(telegramId))]
  {
    var cart := store.GetCartWithItems(telegramId);
    transport.effects := transport.effects + [Ack];
    transport.effects := transport.effects + [DeleteMessage];
    if cart.None? || |cart.value.items| == 0 {
      transport.effects := transport.effects + [SendMessage(Text(EmptyCartText), EmptyCartRows())];
      session.state := Some(HandleCart);
      return;
    }
    var message := RenderCart(cart.value.items);
    transport.effects := transport.effects + [message];
    session.state := Some(HandleCart);
  }

  /**
   * `remove_item_handler`: deletes the item named by the token's third
   * field. On success it re-renders the cart (the state is set only on the
   * empty-cart path); on failure it only answers with an alert.
   */
  method RemoveItemHandler(session: Session, transport: Transport, store: Store, telegramId: int, data: string)
    returns (outcome: Outcome)
    requires store.Valid()
    modifies session, transport, store
    ensures store.Valid() && store.carts == old(store.carts) && store.customers == old(store.customers)
    ensures session.currentProduct == old(session.currentProduct)
    ensures ParseRemoveTarget(data).Raise? ==>
      outcome == Raised(IndexError) && store.items == old(store.items) &&
      transport.effects == old(transport.effects) && session.state == old(session.state)
    ensures ParseRemoveTarget(data).Ok? ==> outcome == Done
    ensures ParseRemoveTarget(data).Ok? && store.items == old(store.items) ==>
      transport.effects == old(transport.effects) + [RemoveFailed] && session.state == old(session.state)
    ensures store.items != old(store.items) ==>
      && ParseRemoveTarget(data).Ok?
      && RemovedItem(store.items, old(store.items), ParseRemoveTarget(data).value)
      && Rerendered(transport.effects, old(transport.effects), session.state, old(session.state), store.ActiveView(telegramId))
  {
    var target := ParseRemoveTarget(data);
    if target.Raise? {
      return Raised(target.error);
    }
    var success := store.RemoveCartItem(target.value);
    outcome := Done;
    if !success {
      transport.effects := transport.effects + [RemoveFailed];
      return;
    }
    var cart := store.GetCartWithItems(telegramId);
    transport.effects := transport.effects + [Removed];
    transport.effects := transport.effects + [DeleteMessage];
    if cart.None? || |cart.value.items| == 0 {
      transport.effects := transport.effects + [SendMessage(Text(EmptyCartText), EmptyCartRows())];
      session.state := Some(HandleCart);
      return;
    }
    var message := RenderCart(cart.value.items);
    transport.effects := transport.effects + [message];
  }

  /** `pay_handler`: asks for the e-mail address and waits for it. */
  method PayHandler(session: Session, transport: Transport)
    modifies session, transport
    ensures session.state == Some(WaitingEmail) && session.currentProduct == old(session.currentProduct)
    ensures transport.effects == old(transport.effects) + [Ack, Reply(EmailPromptText, None)]
  {
    transport.effects := transport.effects + [Ack];
    transport.effects := transport.effects + [Reply(EmailPromptText, None)];
    session.state := Some(WaitingEmail);
  }

  /**
   * `email_handler`: records the customer and, when that worked and the
   * user has an active cart, completes the cart; it always confirms and
   * returns to the menu.
   */
  method EmailHandler(session: Session, transport: Transport, store: Store, telegramId: int,
                      username: Option<string>, email: string)
    requires store.Valid()
    modifies session, transport, store
    ensures store.Valid() && store.items == old(store.items)
    ensures session.state == Some(HandleMenu) && session.currentProduct == old(session.currentProduct)
    ensures transport.effects == old(transport.effects) + [Reply(ThanksText + email, None)]
    ensures store.customers == old(store.customers) ||
      (|store.customers| == |old(store.customers)| + 1 && store.customers[..|old(store.customers)|] == old(store.customers) &&
       store.customers[|old(store.customers)|] ==
         Customer(store.customers[|old(store.customers)|].documentId, telegramId, email, username))
    ensures store.carts == old(store.carts) ||
      (|store.customers| == |old(store.customers)| + 1 &&
       old(FirstActiveIndex(store.carts, telegramId)).Some? &&
       var i := old(FirstActiveIndex(store.carts, telegramId)).value;
       store.carts == old(store.carts)[i := old(store.carts)[i].(orderStatus := Completed,
                                                                 customer := Some(store.customers[|old(store.customers)|].documentId))] &&
       FirstActiveIndex(store.carts, telegramId).None?)
  {
    var customer := store.CreateCustomer(telegramId, email, username);
    if customer.Some? {
      var cart := store.GetCartWithItems(telegramId);
      if cart.Some? {
        ghost var before := store.carts;
        var i := FirstActiveIndex(store.carts, telegramId).value;
        assert CartIndex(store.carts, cart.value.cart.documentId) == Some(i);
        var completed := store.LinkCartToCustomerAndComplete(cart.value.cart.documentId, customer.value.documentId);
        if completed.Some? {
          CompletingLeavesNoActiveCart(before, telegramId, customer.value.documentId);
        }
      }
    }
    transport.effects := transport.effects + [Reply(ThanksText + email, None)];
    session.state := Some(HandleMenu);
  }
}
