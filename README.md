# fish-shop conversation core, modelled in Dafny

This project models the conversation core of the fish-shop Telegram bot. The
bot sells products from a Strapi backend. A user browses the catalogue, opens
a product, adds it to a cart, views and edits the cart, and checks out by
sending an e-mail address.

The model has three parts:

- **The shop handlers** (`handlers.py`), in `handlers.dfy`. Each handler is a
  method over the chat's FSM session (`Session`: the state and the selected
  product's document id) and a `Transport` that records, in order, what the
  handler asked Telegram to do: answer the callback, delete the old message,
  send a message or photo, reply. The keyboards are built by loops
  (`keyboards.dfy`), and so is the cart summary the two cart screens share
  (`summary.dfy`). The callback tokens are read back with Python's
  `str.split` and `int()` semantics (`pystr.dfy`).
- **The backend client** (`strapi_helpers.py`), in `backend.dfy` and
  `images.dfy`. `get_image_url` is a pure function over a JSON value. The
  cart operations are methods of a `Store` class that holds the backend's
  carts, cart items and customers. Every HTTP request can fail. Its outcome
  is chosen nondeterministically, and a failed request changes nothing.
  `Store.Valid()` keeps the document ids of carts, cart items and customers
  distinct within each collection and gives each user at most one active
  cart; every operation preserves it.
- **The echo bot** (`bot.py`), in `echo_bot.dfy`. It is a two-state
  START/ECHO machine. Each chat's state name is stored in Redis under
  `str(chat_id)`. The model is a `Bot` class whose `redis` field is a map.

The model follows the code, including these behaviours a reader may not
expect:

- `remove_item_handler` sets the cart state only when it shows the
  empty-cart view. After re-rendering a non-empty cart it leaves the state
  as it was (handlers.py:317-321).
- Exceptions do escape the handlers:
  - `IndexError` or `ValueError` from a malformed callback token;
  - `AttributeError` from an image url that is not a string;
  - a pydantic `ValidationError` from a product without a title.
  Handlers return these as `Outcome.Raised`.
- A transition can be partial. `main_menu_handler` stores the selection
  before `get_image_url` can raise.
- `email_handler` confirms the order and returns to the menu even when
  creating the customer or completing the cart failed.
- The cart footer sums only the items whose product is still present.

## Model

| member | source | states |
|---|---|---|
| PyStr.NatToString | handlers.py:28 | `str(n)` of a natural is a non-empty numeral without a leading zero |
| PyStr.NatToStringInjective | handlers.py:28 | distinct indices get distinct token suffixes |
| PyStr.ParseInt | handlers.py:106 | `int(s)`: a negative result only comes from a string starting with `-`; `None` is the ValueError |
| PyStr.ParseNatOfNatToString | handlers.py:106 | reading a printed natural gives the natural back |
| PyStr.ParseIntOfNatToString | handlers.py:106 | `int(str(n)) == n` for naturals |
| PyStr.IntToString | bot.py:29 | `str(i)` of any integer, never empty |
| PyStr.ParseIntOfIntToString | bot.py:29 | `int(str(i)) == i` for every integer, negatives included |
| PyStr.IntToStringInjective | bot.py:29 | distinct chat ids give distinct `str(chat_id)` keys |
| PyStr.Split | handlers.py:106 | `str.split(sep)` yields at least one field and no field contains the separator |
| PyStr.JoinOfSplit | handlers.py:106 | joining the split fields with the separator rebuilds the string |
| PyStr.SplitWithoutSep | handlers.py:276 | a separator-free string splits into itself alone |
| PyStr.SplitAfterSep | handlers.py:276 | the text before the first separator is the first field; the rest splits on its own |
| PyStr.SplitOfJoin | handlers.py:106 | splitting a join of separator-free fields gives those fields back |
| Images.LocatedUrl | strapi_helpers.py:36-41 | a url value is found only in a dict with a `data` or `url` key; with `data` the nested lookup decides (a failed subscript is the caught KeyError/TypeError), otherwise the flat `url` |
| Images.Absolutize | strapi_helpers.py:43-45 | the url always survives as the suffix of the result; anything added is the base URL in front of a url that starts with `/` |
| Images.GetImageUrl | strapi_helpers.py:29-48 | no `image` key gives `None`; a URL comes only from a dict; the only escaping exception is AttributeError |
| Images.NestedShapeWins | strapi_helpers.py:36-37 | the `data.attributes.url` shape is used even when a flat `url` key is also present |
| Images.BrokenNestedShapeGivesNone | strapi_helpers.py:36-48 | a `data` key whose nesting is broken gives `None`, a flat `url` notwithstanding |
| Images.FlatShape | strapi_helpers.py:38-39 | without `data`, a string `url` key is resolved |
| Images.OtherShapeGivesNone | strapi_helpers.py:40-41 | a non-dict, or a dict with neither key, gives `None` |
| Images.RelativePathIsJoined | strapi_helpers.py:43-45 | whichever shape a string url came from, `get_image_url` returns it joined onto the base URL when it starts with `/`, and unchanged otherwise |
| Images.RaisesOnlyOnNonStringUrl | strapi_helpers.py:43 | it raises exactly when a url was located and it is not a string |
| Backend.WithProduct | handlers.py:249 | the items whose product is present, in order, never more than the input |
| Backend.FirstActiveIndex | strapi_helpers.py:73-88 | the first cart that is active and belongs to the user, or none when no cart matches |
| Backend.CartIndex | strapi_helpers.py:267 | the cart addressed by a document id, or none when no cart has it |
| Backend.ItemIndex | strapi_helpers.py:184 | the cart item addressed by a document id, or none when no item has it |
| Backend.Store.ActiveView | strapi_helpers.py:153-171 | what a successful cart query returns: present exactly when the user has an active cart, and then that first active cart with its items |
| Backend.ItemsOf | strapi_helpers.py:154-158 | a cart's populated items, in storage order |
| Backend.RemovingOnlyItemEmptiesCart | handlers.py:280-297 | removing a cart's only item leaves that cart's view empty |
| Backend.CompletingLeavesNoActiveCart | strapi_helpers.py:270-274 | completing the user's active cart leaves the user with no active cart |
| Backend.Store.GetOrCreateCart | strapi_helpers.py:61-107 | the first active cart if one exists, with nothing created; otherwise exactly one new active cart; `None` on failure, with nothing created |
| Backend.Store.AddProductToCart | strapi_helpers.py:110-142 | success appends exactly one item with that cart, product and quantity; failure changes nothing |
| Backend.Store.GetCartWithItems | strapi_helpers.py:145-175 | the active cart with its items, or `None`; always `None` when the user has no active cart |
| Backend.Store.RemoveCartItem | strapi_helpers.py:178-193 | true only when the item existed; then exactly that item is gone and nothing else changed; false changes nothing |
| Backend.Store.CreateCustomer | strapi_helpers.py:196-229 | success appends one customer with the given telegram id, email and username; failure changes nothing |
| Backend.Store.LinkCartToCustomerAndComplete | strapi_helpers.py:257-288 | only the addressed cart changes, to completed and linked to the customer; failure or an unknown id changes nothing |
| Backend.RepeatedGetOrCreate | strapi_helpers.py:87-103 | two get-or-create calls in a row agree on the cart and create at most one |
| Keyboards.GetKeyboard | handlers.py:23-34 | builds exactly the catalogue layout: one row per label, then the cart row |
| Keyboards.OptionRowsAt | handlers.py:25-29 | row i holds label i with token `"{prefix}_{i}"` |
| Keyboards.CatalogRowsShape | handlers.py:23-34 | `len(labels) + 1` rows; row i is label i with token `"{prefix}_{i}"`; the last row is `show_cart` |
| Keyboards.GetCartKeyboard | handlers.py:55-76 | builds exactly the cart layout |
| Keyboards.RemoveRowsAt | handlers.py:57-65 | one remove row per item with a product, in order |
| Keyboards.CartRowsShape | handlers.py:55-76 | one `remove_item_{id}` row per item with a product, titled with the default when there is no title; then `pay`; then `back_to_menu` |
| Keyboards.Token | handlers.py:28 | `"{prefix}_{idx}"`: the prefix, an underscore, then a numeral that reads back as the index |
| Keyboards.ParseProductIndex | handlers.py:106 | IndexError without a second `_` field, ValueError when that field is not an integer, otherwise its value |
| Keyboards.ParseRemoveTarget | handlers.py:276 | the third `_` field, which never contains an underscore, or IndexError when there is none |
| Keyboards.DetailKeyboardShape | handlers.py:37-52 | the detail keyboard is add to cart, then the very cart button the catalogue ends with, then back to the catalogue, one button per row |
| Keyboards.EmptyCartKeyboardShape | handlers.py:79-84 | the empty-cart keyboard is one button back to the catalogue, with the same callback as the cart keyboard's last row and the detail keyboard's back button |
| Keyboards.ProductTokenRoundTrip | handlers.py:106 | a product token parses back to its index |
| Keyboards.CatalogTokensParseBack | handlers.py:93 | every product button of the catalogue keyboard leads back to its own product index |
| Keyboards.SplitAfterTwoFields | handlers.py:276 | a token with two underscore-free leading fields splits into them, then the rest |
| Keyboards.ThirdFieldAfterTwoFields | handlers.py:276 | `split('_')[2]` of such a token is the first field of the rest |
| Keyboards.RemoveTokenRoundTrip | handlers.py:276 | a remove token yields the item id, cut at its first underscore |
| CartSummary.LineOf | handlers.py:249-256 | a line's total is its price times its quantity, with missing values read as 0 |
| CartSummary.Summarize | handlers.py:242-258 | the loop yields the lines and the total of the specification functions |
| CartSummary.TotalIsSumOfLines | handlers.py:245-258 | the footer equals the sum of the line totals printed above it |
| CartSummary.LinesFollowItemsWithProduct | handlers.py:245-256 | exactly one line per item with a product, in order |
| CartSummary.TotalAppend | handlers.py:245-253 | the total of two item lists is the sum of their totals |
| CartSummary.TotalIgnoresItemsWithoutProduct | handlers.py:249-253 | items without a product add nothing to the total |
| CartSummary.TotalNonNegative | handlers.py:243-253 | non-negative prices and quantities give a non-negative total |
| CartSummary.TwoItemExample | handlers.py:252-253 | 2 kg at 150 plus 0.5 kg at 400 totals 500 |
| Handlers.CatalogButtonSelectsProduct | handlers.py:92-93 | the catalogue button for product i shows its title and carries a token that `main_menu_handler` parses back to i, so it selects that same product |
| Handlers.CartScreen | handlers.py:233-258 | the empty-cart view exactly when there is no cart or no items; otherwise the cart's total, one line per item with a product, and one remove button per line followed by pay and menu |
| Handlers.RenderCart | handlers.py:299-321 | the summary message: the cart's lines and total with its cart keyboard |
| Handlers.CmdStart | handlers.py:87-96 | empty catalogue: apology and no state change; an untitled product: ValidationError with no effect; otherwise greeting with the catalogue and the menu state |
| Handlers.MainMenuHandler | handlers.py:99-154 | malformed token: raises, nothing changes; index out of range: only an error answer, state and selection unchanged; in range: stores the product's id, then answer, delete, send (photo only when an image URL exists), description state |
| Handlers.BackToMenuHandler | handlers.py:157-177 | answer, delete, send the catalogue, menu state; an untitled product raises before any effect |
| Handlers.AddToCartHandler | handlers.py:180-213 | the cart is resolved first; nothing is added without a selection; exactly one answer; an item is added only on success, to the user's active cart; the session never changes |
| Handlers.ShowCartHandler | handlers.py:216-266 | answer, delete, then the cart screen of the active cart, or the empty view when the query failed; always the cart state |
| Handlers.RemoveItemHandler | handlers.py:269-323 | a failed removal gives only an alert, with no other change; a successful one removes that item and re-renders; the state is set only on the empty view |
| Handlers.PayHandler | handlers.py:326-331 | answer, e-mail prompt, waiting-email state |
| Handlers.EmailHandler | handlers.py:334-360 | always confirms with the e-mail and ends in the menu state; the cart is completed only after a customer was created and an active cart found, and then the user has no active cart |
| EchoBot.Name | bot.py:13 | every state has a non-empty stored name |
| EchoBot.Lookup | bot.py:32-37 | a name resolves only to the state it names; any other name is the KeyError |
| EchoBot.LookupOfName | bot.py:32-37 | every stored state name resolves back to its state |
| EchoBot.Route | bot.py:26-37 | `/start` always goes to START; an absent or empty stored value goes to START; otherwise the stored name picks the handler, and an unknown name is a KeyError |
| EchoBot.Key | bot.py:29 | `str(chat_id)` is non-empty and reads back as the chat id |
| EchoBot.KeysAreDistinct | bot.py:29 | two chats never share a Redis key |
| EchoBot.EchoesAfterFirstReply | bot.py:26-41 | after a handled message, the chat's next message that is not `/start` is echoed |
| EchoBot.Bot.StartHandler | bot.py:11-13 | sends the greeting and returns `ECHO`; a failed send sends nothing |
| EchoBot.Bot.EchoHandler | bot.py:16-19 | sends exactly the user's text and returns `ECHO`; a message without text raises |
| EchoBot.Bot.HandleUsersReply | bot.py:22-43 | routes on the value stored under the chat's own key (none when the key is absent); only that key is written, and only with `ECHO` after a handled message; a raising handler writes nothing; an unknown stored name escapes as KeyError with no effect |
| EchoBot.OtherChatsUntouched | bot.py:41 | writing one chat's state leaves every other chat's stored value as it was |

## Left out

- Loading the catalogue is not part of this model: `get_products` (strapi_helpers.py:11-26) and get_products.py. The handlers take the product list as a parameter.
- `get_customer` (strapi_helpers.py:232-254) is not modelled, because none of the modelled handlers calls it.
- `download_image` is reduced to one nondeterministic choice: whether non-empty bytes came back. The bytes and the photo upload are not modelled.
- HTTP details are not modelled: URLs, headers, the bearer token, the timeout value, query parameters, and logging.
- A request that fails after the backend already committed it is not modelled. In the model a failed request changes nothing.
- Concurrency is not modelled. Handlers run one at a time, so the at-most-one-active-cart invariant holds only for sequential use. Two overlapping get-or-create calls could create two active carts.
- Failures of Telegram calls inside the shop handlers are not modelled. Every answer, delete and send is assumed to succeed. In the echo bot, send failures are modelled, because its `try` makes them observable.
- Message texts are not rendered. The caption and the cart summary carry the values they print, not the f-string output, and float formatting is not modelled.
- Prices and quantities are exact reals, not floats.
- JSON `null` is not distinguished from an absent key. The source's `get(key, default)` would give `None` for a `null` and then fail in the arithmetic.
- An empty product dict `{}` is falsy in Python and is skipped in the cart views. The model treats every populated product as present.
- `PyStr.ParseInt`: accepts only an optional sign followed by ASCII digits. Python's `int()` also accepts surrounding whitespace, underscores between digits and non-ASCII digits.
- Which handler runs for which callback, command or state is not modelled. That is aiogram registration code, and each handler is modelled on its own for any session.
- The aiogram FSM storage backend is not modelled, nor bot.py's `main()` (environment, connection, polling).
- The echo bot's Redis connection errors, and the UTF-8 decoding of stored bytes, are not modelled. Stored values are strings. The `print` of a caught error is not modelled.
- `Handlers.EmailHandler`: takes the e-mail as a string. The source's `message.text` can be `None`, which it would print as `None`.
- Backend document ids are modelled as decimal strings from a counter, so that freshness can be stated. The user's Telegram id is kept as an integer, although the source sends it as a string when creating records.
