# chapchat in Dafny

chapchat is a WhatsApp storefront. A seller registers, sets up a shop profile and
lists products on a web dashboard. Customers then shop by chatting with the
seller's WhatsApp number. This project models the core of that system and proves
properties about it:

- **The conversation engine.** A per-(customer, seller) state machine with ten
  states and a JSON "context" memory. The webhook router sends each incoming message
  to a global command or to the handler of the conversation's current state. The
  conversation is saved only when the handler returns.
- **The cart.** The customer's `IN_PROGRESS` order. Each line snapshots the unit
  price. The order total is the sum of quantity × snapshot price over its lines.
- **Payment.** The STK push request built for M-Pesa ("Lipa na M-Pesa Online"), and
  the callback that settles or fails a `PENDING_PAYMENT` order. Settling decrements
  stock and notifies the customer and the seller, all inside one transaction.
- **The smaller rules around them:**
  - the data model and its integrity;
  - the profile signal and the superuser bootstrap migration;
  - registration and SKU validation;
  - the product soft delete;
  - the seller's order list and partial update;
  - the analytics overview;
  - the logic of the two dashboard forms.

Layout: one module per file.

| file | contents |
|---|---|
| `wrappers.dfy`, `collections.dfy`, `strings.dfy` | generic helpers |
| `base64.dfy` | RFC 4648 section 4 |
| `sellers.dfy`, `catalog.dfy`, `chat.dfy`, `orders.dfy`, `messages.dfy` | the entities |
| `database.dfy` | the tables, the cascades and the `Store` class that handlers change in place |
| `cart.dfy` | the cart aggregate |
| `handlers.dfy` | the state handlers, as methods on `Chat.Conversation` and `Database.Store` |
| `commands.dfy`, `router.dfy` | routing and the webhook |
| `mpesa.dfy`, `callback.dfy` | payment |
| `accounts.dfy`, `product_api.dfy`, `order_api.dfy`, `analytics.dfy`, `dashboard.dfy` | the remaining rules |

Modelling conventions:

- **Money** is integer cents.
- **Time** is an integer number of seconds.
- **Auto-increment ids** come from `next…Id` counters. "Newest first" is descending id.
- **Request fields** are checked as the serializer's fields hand them on: text trimmed at both ends, and a blank required text refused before any other check.
- **Replies** are modelled by kind, ids, titles and the data they show. The wording of a free-text message is a `Notice` constructor naming that message.
- **Anything the code calls but this model cannot see is a parameter:**
  - the access token, the POST's answer and the clock;
  - the email format check, the username character pattern and the password hasher;
  - the Unicode NFKC normal form that `normalize_username` gives every stored username;
  - the calendar month of a time.

Where the prose description of the system and the code differ, the model follows the code:

- **Stock.** A line whose product has too little stock leaves that stock unchanged; it is not clamped at zero.
- **Location messages** never reach the engine, because the webhook only forwards `text` and `interactive` messages. So a location pin never answers the address prompt.
- **Global commands** match the whole lower-cased, stripped text, not a substring.
- **The seller's alert number** comes from the column added by sellers migration 0004. The profile model file does not declare it.

## Model

| member | source | states |
|---|---|---|
| Sellers.NamedProfile | accounts/migrations/0002_create_initial_superuser.py:32 | a profile created with only a company name has that name and every other setting NULL |
| Sellers.ShopName | whatsapp_comms/handlers.py:73-77 | the greeting uses the company name when it is set and non-empty, the username otherwise |
| Products.FromFields | products/models.py:10-25 | a created row takes the sent fields; an omitted or null SKU is NULL, and omitted sizes, stock and flag take the column defaults (empty list, 0, active) |
| Products.CreateDefaults | products/models.py:17-25 | a product created with no optional field is active, has no sizes and no stock |
| Products.AddKeepsSkusUnique | products/models.py:30-33 | adding a product whose SKU its seller does not hold keeps the (seller, sku) constraint, under which NULLs never clash |
| Products.UpdateKeepsSkusUnique | products/models.py:30-33 | replacing a product by one whose SKU no other product of the seller holds keeps the constraint |
| Chat.ParseStateName | whatsapp_comms/models.py:13-23 | every state's stored name parses back to that state, and a text parses to a state exactly when it is that state's name |
| Chat.TenStates | whatsapp_comms/models.py:13-23 | there are ten states with ten distinct stored names |
| Chat.NewConversationStarts | whatsapp_comms/models.py:27-32 | a new conversation is STARTED with an empty context |
| Chat.ParseSenderName | whatsapp_comms/models.py:46-49 | the three sender names parse back, and nothing else parses |
| Chat.InTimestampOrder | whatsapp_comms/models.py:53-54 | messages listed by the default ordering are oldest first and a permutation of the stored ones |
| Chat.Conversation.constructor | whatsapp_comms/models.py:25-32 | the loaded conversation object carries its row's customer, seller, state and context |
| Orders.ParseStatusName | orders/models.py:8-18 | every order status name parses back to its status, and only those names parse |
| Orders.NewCart | orders/models.py:25-42 | an order made from customer, seller and status is IN_PROGRESS with total 0, no lines, no delivery choice and no payment ids |
| Orders.LinesTotalAppend | orders/models.py:48-58 | one more line adds its quantity × snapshot price to the total |
| Orders.LinesTotalUpdate | orders/models.py:48-58 | replacing one line changes the total by the difference of the two lines' amounts |
| Orders.LinesTotalNonNegative | orders/models.py:48-58 | with non-negative prices the total is non-negative, and 0 for no lines |
| Orders.LineIndices | whatsapp_comms/handlers.py:295-304 | the lines `get_or_create(order, product, selected_size)` matches: exactly the positions with that product and size |
| Orders.UniqueKeysAtMostOneLine | whatsapp_comms/handlers.py:295-304 | with distinct line keys, the line lookup finds at most one line |
| Orders.NoMatchNoIndices | whatsapp_comms/handlers.py:295-304 | with no line of that product and size, the lookup finds none |
| Orders.AddLineTotal | whatsapp_comms/handlers.py:295-310 | adding q to the cart raises the lines' total by exactly q × the charged price: the existing line's snapshot, or the current price for a new line |
| Orders.IncrementTotal | whatsapp_comms/handlers.py:305-310 | raising one line's quantity by q raises the total by q × its snapshot price |
| Orders.AddLineShape | whatsapp_comms/handlers.py:295-310 | an add never creates a second line for a key, keeps every other line, and changes only the quantity of an existing line |
| Orders.DetachProducts | orders/models.py:61-67 | deleting products nulls exactly their lines' product and keeps quantity, price and size (SET_NULL) |
| Orders.DetachProductsTotal | orders/models.py:61-67 | deleting products leaves every order total equal to its lines' sum |
| Orders.DetachProductsKeepsUnique | orders/models.py:61-67 | detached lines keep the surviving line keys distinct |
| Orders.ItemLabel | orders/models.py:72-73 | a line without a product prints as `quantity x Deleted Product` |
| Messages.ProductRow | whatsapp_comms/handlers.py:16-21 | a product row's id is `select_product_<id>`, its title at most 24 and its description at most 72 characters |
| Messages.IdRoundTrip | whatsapp_comms/handlers.py:191 | an id written after a prefix ending in '_' reads back through `int(id.split('_')[-1])` |
| Messages.ProductRowNamesProduct | whatsapp_comms/handlers.py:131-140 | every row's id parses back to the product it shows |
| Messages.SizeButton | whatsapp_comms/handlers.py:198 | a size button's id is `select_size_<s>` and its title at most 20 characters |
| Messages.SizeRow | whatsapp_comms/handlers.py:201 | a size row's id is `select_size_<s>` and its title at most 24 characters |
| Messages.SizeButtons | whatsapp_comms/handlers.py:198 | one button per size, in order |
| Messages.SizeRows | whatsapp_comms/handlers.py:201 | one row per size, the first ten only |
| Messages.SizeReplyRoundTrip | whatsapp_comms/handlers.py:231-236 | choosing an offered size, as button or row, stores exactly that size |
| Database.CartIds | whatsapp_comms/handlers.py:349-350 | the cart lookup finds exactly the customer's IN_PROGRESS orders with the seller, each once |
| Database.SingleCartLookup | whatsapp_comms/handlers.py:349-350 | with at most one cart per pair, the lookup finds at most one order |
| Database.ActiveProducts | whatsapp_comms/handlers.py:93-95 | the catalogue is exactly the seller's active products, newest first |
| Database.MatchingProducts | whatsapp_comms/handlers.py:147-149 | a search finds exactly the seller's active products whose name contains the text ignoring case, newest first |
| Database.SetOrderConsistent | orders/models.py:25-39 | replacing an order by one whose keys resolve, whose lines are distinct, whose total is its lines' sum and whose checkout id is free keeps the tables consistent |
| Database.AddOrderConsistent | orders/models.py:25-39 | storing such an order under the next id keeps the tables consistent |
| Database.SetProductConsistent | products/models.py:9-33 | changing a product's stock or flags, keeping seller and SKU, keeps the tables consistent |
| Database.SetConversationConsistent | whatsapp_comms/models.py:25-37 | writing a conversation row of an existing customer and seller keeps the tables consistent |
| Database.AddCustomerConsistent | whatsapp_comms/models.py:4-7 | adding a customer keeps the tables consistent |
| Database.DeleteProductConsistent | orders/models.py:63 | deleting a product keeps every order and its total, and the tables consistent |
| Database.DeleteCustomerConsistent | orders/models.py:25 | deleting a customer removes its conversations, keeps every order and keeps the tables consistent |
| Database.DeleteSellerConsistent | orders/models.py:26 | deleting a seller removes exactly its orders and keeps the tables consistent |
| Database.Store.constructor | orders/models.py:7-73 | a store holds the given tables and has sent nothing |
| Database.Store.SaveConversation | whatsapp_comms/views.py:141 | `save()` writes the conversation's state and context under its key and changes nothing else |
| Database.Store.UpdateTotal | orders/models.py:48-58 | the stored total becomes Σ quantity × snapshot price over the order's lines, and nothing else changes |
| Database.Store.Post | whatsapp_comms/views.py:146-192 | handing a request to WhatsApp appends it to what was sent and leaves the tables alone |
| Database.Store.Restore | payments/views.py:31 | a rolled-back transaction returns the tables to their earlier state while messages already sent stay sent |
| Database.UpdateTotalIdempotent | orders/models.py:48-58 | recomputing a consistent order's total changes nothing |
| Cart.GetOrCreateCart | whatsapp_comms/handlers.py:276-279 | the existing single cart is reused, none creates an IN_PROGRESS cart of total 0 under the next id, and several raise |
| Cart.AddToCartTotal | whatsapp_comms/handlers.py:276-311 | after an add the stored total is the lines' sum and grew by exactly q × the charged unit price |
| Cart.AddToCartFrame | whatsapp_comms/handlers.py:276-311 | an add changes only the one cart (and the id counter when it is new) |
| Cart.AddedCartConsistent | whatsapp_comms/handlers.py:295-311 | the cart after an add keeps resolving keys, distinct line keys and total = lines' sum |
| Cart.FoundCartConsistent | whatsapp_comms/handlers.py:276-279 | the cart found or created is a consistent order of consistent tables |
| Cart.AddedLineConsistent | whatsapp_comms/handlers.py:295-311 | writing the added line keeps the tables consistent |
| Cart.AddToCartConsistent | whatsapp_comms/handlers.py:268-332 | an add to an existing customer's cart with a seller keeps the tables consistent |
| Cart.GetOrCreateSingleCart | whatsapp_comms/handlers.py:276-279 | with at most one cart per pair, the lookup never raises and at most one cart per pair remains |
| Cart.SameHeaderKeepsSingleCart | whatsapp_comms/handlers.py:305-311 | rewriting a cart without touching status, customer or seller keeps one cart per pair |
| Cart.AddToCartSingleCart | whatsapp_comms/handlers.py:268-332 | with one cart per pair an add always replies, and one cart per pair remains |
| Handlers.ListRows | whatsapp_comms/handlers.py:14-21 | the list holds one row per product, at most the first ten, in the catalogue's order |
| Handlers.ListRowsBounds | whatsapp_comms/handlers.py:14-21 | every list fits WhatsApp's limits, and each row's id parses back to the product it shows |
| Handlers.BuildRows | whatsapp_comms/handlers.py:14-21 | the row-building loop produces exactly `ListRows` |
| Handlers.SendProductList | whatsapp_comms/handlers.py:7-38 | no products: menu state and the "none" text; otherwise the list under the header, in product-selection state |
| Handlers.ShowDetails | whatsapp_comms/handlers.py:42-70 | the product's id is remembered, the add and menu buttons are offered, and the state is product-action |
| Handlers.HandleStarted | whatsapp_comms/handlers.py:73-77 | the shop is greeted by its name and the conversation waits for a command |
| Handlers.HandleAwaitingCommand | whatsapp_comms/handlers.py:79-121 | the search button asks for a keyword, the browse button lists the catalogue, and anything else shows the menu |
| Handlers.IdLookup | whatsapp_comms/handlers.py:131-140 | an id whose last '_' segment `int()` refuses is a ValueError; a found product is the seller's, is active when required, and has the parsed id |
| Handlers.HandleProductSelection | whatsapp_comms/handlers.py:124-177 | a list choice shows the product or reports it missing, an empty text asks again, and a text search shows one match, lists several or reports none |
| Handlers.CatalogRowSelects | whatsapp_comms/handlers.py:131-140 | choosing a row of the catalogue finds exactly the product that row shows |
| Handlers.SizePromptOffers | whatsapp_comms/handlers.py:195-202 | up to three sizes come as buttons, more as a list of ten; each offered size is stored exactly when chosen |
| Handlers.AskSize | whatsapp_comms/handlers.py:193-205 | the product is remembered; a product with sizes asks for one, otherwise for the quantity |
| Handlers.HandleProductAction | whatsapp_comms/handlers.py:179-216 | an add button finds the seller's product (active or not) and asks for size or quantity, a missing one returns to the menu state, a bad id raises ValueError; "show_menu" shows the menu; anything else asks for a button |
| Handlers.DetailButtonAdds | whatsapp_comms/handlers.py:60 | the add button under a product's details finds that product |
| Handlers.HandleSizeSelection | whatsapp_comms/handlers.py:218-243 | a size reply stores the size with the prefix removed once and asks for the quantity; anything else asks again and changes nothing |
| Handlers.LookupProduct | whatsapp_comms/handlers.py:274 | `Product.objects.get(id=value)` on a context value: None finds nothing, a text `int()` refuses is a ValueError, and a found product exists |
| Handlers.AddOutcomeConsistent | whatsapp_comms/handlers.py:268-332 | adding by a context value keeps the tables consistent |
| Handlers.GetOrCreateCartIn | whatsapp_comms/handlers.py:276-279 | the in-place cart lookup does what `Cart.GetOrCreateCart` says, and only the orders table changes |
| Handlers.AddToLine | whatsapp_comms/handlers.py:295-310 | the line get-or-create succeeds exactly when at most one line matches, and then writes `AddLine`'s lines |
| Handlers.AddItemToCart | whatsapp_comms/handlers.py:268-332 | the in-place add leaves exactly the tables and reply of `AddOutcome`, and only orders change |
| Handlers.HandleQuantity | whatsapp_comms/handlers.py:246-266 | a refused number asks again; a non-positive one asks again; a positive one adds to the cart, clears product and size, and returns to the menu state on any reply |
| Handlers.CartLinesPrefixFails | whatsapp_comms/handlers.py:361-365 | one deleted product in the lines makes the whole cart view raise |
| Handlers.CartLinesDefined | whatsapp_comms/handlers.py:361-365 | the cart view can be built exactly when every line still has its product |
| Handlers.CartLinesAddUp | whatsapp_comms/handlers.py:355-370 | the view shows one line per order line, and its line totals add up to Σ quantity × snapshot price |
| Handlers.BuildCartLines | whatsapp_comms/handlers.py:355-370 | the line-building loop produces exactly `CartLinesOf` |
| Handlers.CartShownAddsUp | whatsapp_comms/handlers.py:349-383 | in consistent tables the lines of the cart view add up to the total it shows |
| Handlers.HandleViewingCart | whatsapp_comms/handlers.py:334-387 | "checkout" offers delivery or pickup for the one cart; otherwise the cart is shown, an empty or missing cart is reported, and several carts raise; no table changes |
| Handlers.ShowCart | whatsapp_comms/handlers.py:348-387 | the cart display: an empty or missing cart returns to awaiting a command with the empty-cart text, a cart with lines lists each line and the stored total under the checkout and keep-shopping buttons and moves to viewing the cart, a line whose product is gone raises AttributeError, several carts raise; the reply is always sendable |
| Handlers.SetCartConsistent | whatsapp_comms/handlers.py:398-425 | rewriting a cart's delivery, address or status with a free checkout id keeps the tables consistent |
| Handlers.PaymentStepConsistent | whatsapp_comms/handlers.py:462-500 | the payment step keeps the tables consistent |
| Handlers.PaymentStepShape | whatsapp_comms/handlers.py:462-500 | the payment step writes only orders and replies with something the sender accepts |
| Handlers.PaymentAsWrittenRaises | whatsapp_comms/handlers.py:479-484 | as written, with a cart the step raises TypeError and writes nothing |
| Handlers.PaymentCorrectedPends | whatsapp_comms/handlers.py:486-497 | with the call corrected, an accepted push moves the cart to PENDING_PAYMENT under the returned checkout id and touches no other order; any other answer changes nothing |
| Handlers.HandlePaymentConfirmation | whatsapp_comms/handlers.py:462-500 | the in-place handler leaves exactly the tables and reply of `PaymentStep` |
| Handlers.HandleDeliveryChoice | whatsapp_comms/handlers.py:389-425 | delivery marks the cart DELIVERY and asks for the address; pickup marks it PICKUP and runs the payment step; anything else asks again |
| Handlers.Addressed | whatsapp_comms/handlers.py:436-453 | a location pin sets the coordinates (and a non-empty address text), a text sets the address text, and nothing else is an address; no other field changes |
| Handlers.HandleDeliveryAddress | whatsapp_comms/handlers.py:427-460 | an address is saved and payment begins; any other message asks for the address again |
| Commands.EveryStateRouted | whatsapp_comms/views.py:30-42 | a message that is no global command goes to its state's handler, and the fallback fires exactly for an unknown state text |
| Commands.ShoutedMenuIsMenu | whatsapp_comms/views.py:110 | commands ignore case and surrounding blanks |
| Commands.ShowMenuIsNoCommand | whatsapp_comms/views.py:124-127 | commands match the whole text: "show menu" is none |
| Commands.NoTextNoCommandText | whatsapp_comms/views.py:110 | a message without text has the empty command text |
| Commands.InteractiveMenuCommand | whatsapp_comms/views.py:124 | an interactive menu command carries `show_menu` or `keep_shopping` |
| Commands.MenuCommandShowsMenu | whatsapp_comms/views.py:124-125 | a menu command is never one of the menu's own action buttons, so the menu handler shows the menu |
| Commands.CartCommandShowsCart | whatsapp_comms/views.py:126-127 | a cart command is never the checkout button, so the cart handler shows the cart |
| Router.Dispatch | whatsapp_comms/views.py:30-42 | the handler of the conversation's state runs; it writes only orders and its reply leaves a known state |
| Router.RunHandler | whatsapp_comms/views.py:123-139 | menu commands show the menu, cart commands show the cart, a known state runs its handler, and an unknown one answers "confused" in the menu state |
| Router.RunMenu | whatsapp_comms/views.py:124-125 | a menu command shows the menu |
| Router.RunCart | whatsapp_comms/views.py:126-127 | a cart command shows the cart |
| Router.CartRouteKnownState | whatsapp_comms/handlers.py:334-387 | a cart view that replies leaves the conversation in a known state |
| Router.ProcessMessage | whatsapp_comms/views.py:105-144 | the conversation row is saved exactly when the handler returns; cart writes made before a raise stay; nothing else changes |
| Router.BuildRequest | whatsapp_comms/views.py:164-183 | a text becomes a text message and an interactive message gets the footer, each to the sender; anything else is dropped |
| Router.LocationNeverHandled | whatsapp_comms/views.py:70 | only text and interactive messages reach the engine |
| Router.SellersFor | whatsapp_comms/views.py:73 | the seller lookup finds only profiles with that WhatsApp number id |
| Router.SellersForComplete | whatsapp_comms/views.py:73 | in consistent tables it finds every such profile |
| Router.OpenConversation | whatsapp_comms/views.py:74-75 | the customer and the conversation exist afterwards, and existing rows are kept |
| Router.SendOutcome | whatsapp_comms/views.py:83-90 | a reply is sent as built; a raise sends the system-error text; no table changes |
| Router.ReceiveMessage | whatsapp_comms/views.py:56-103 | always 200; unhandled types or no seller change nothing; several sellers change nothing; one seller opens the conversation, processes the message and sends one answer |
| Router.VerifyWebhook | whatsapp_comms/views.py:49-53 | 200 with the challenge exactly for mode "subscribe" and the configured token; 403 otherwise |
| Router.UnsetTokenAccepts | whatsapp_comms/views.py:50-52 | with no token configured, a subscribe request without a token passes and one with a token fails |
| Mpesa.Timestamp | payments/services.py:39 | the timestamp is all digits |
| Mpesa.TimestampLength | payments/services.py:39 | a valid reading gives 14 digits |
| Mpesa.FormatPhone | payments/services.py:47-52 | a leading '+' is dropped, a leading '0' becomes 254, anything else is kept |
| Mpesa.PhoneFormsAgree | payments/services.py:47-52 | `+254…`, `0…` and `254…` give the same MSISDN |
| Mpesa.CallbackUrl | payments/services.py:57-67 | no URL without a domain; https is prefixed unless the domain starts with "http"; the route is appended |
| Mpesa.CallbackUrlShape | payments/services.py:57-67 | every callback URL starts with "http" and ends in the callback route |
| Mpesa.Password | payments/services.py:43-44 | the password is the base64 of the UTF-8 text, of length 4⌈n/3⌉ |
| Mpesa.PasswordDecodes | payments/services.py:43-44 | the password decodes to exactly shortcode ++ passkey ++ timestamp |
| Mpesa.TruncUnits | payments/services.py:75 | `int(amount)` truncates cents to whole units toward zero |
| Mpesa.TruncUnitsOdd | payments/services.py:75 | truncation is symmetric in the sign |
| Mpesa.BuildStkRequest | payments/services.py:26-82 | a request is built exactly with a non-empty token and a domain, and carries the callback URL |
| Mpesa.StkRequestFields | payments/services.py:70-82 | payer and phone are the same normalised number, the payee is the shortcode, the amount is the whole-unit total, and the reference reads back as the order id |
| Mpesa.InitiateStkPush | payments/services.py:26-91 | no request gives None; otherwise the POST's answer |
| Base64.Encode | payments/services.py:44 | the encoding has length 4⌈n/3⌉ and uses only the alphabet and padding |
| Base64.DecodeEncode | payments/services.py:44 | decoding an encoding gives the bytes back |
| Base64.Utf8Ascii | payments/services.py:44 | ASCII text encodes to one byte per character |
| Payments.OrdersWithCheckout | payments/views.py:33 | the lookup finds only orders with that checkout id, ascending |
| Payments.CheckoutLookup | payments/views.py:33 | in consistent tables an order with that id is the only one found |
| Payments.CheckoutLookupAtMostOne | orders/models.py:39 | the unique column makes the lookup find at most one order |
| Payments.Receipt | payments/views.py:48-51 | the receipt is the value of some `MpesaReceiptNumber` item, and none exists exactly when no item has that name |
| Payments.LastReceipt | payments/views.py:48-51 | the metadata loop keeps the last matching item's value |
| Payments.StockStep | payments/views.py:54-61 | one line lowers only its product's stock, by the quantity when there is enough, never raising it |
| Payments.Restocked | payments/views.py:54-61 | the stock loop keeps the set of products |
| Payments.RestockedFrame | payments/views.py:54-61 | the stock loop changes only stock, never raises it, and leaves products no line names alone |
| Payments.RestockedSingleLine | payments/views.py:54-61 | a product named by one line loses its quantity when it had enough, and is unchanged otherwise |
| Payments.DecrementStock | payments/views.py:54-61 | the in-place loop leaves exactly `Restocked` stock and changes nothing else |
| Payments.DecrementLine | payments/views.py:55-61 | one pass of the stock loop: a line whose product exists and has enough stock lowers it by the quantity; otherwise nothing changes |
| Payments.Summary | payments/views.py:79-81 | the seller's summary has one line per order line, and exists exactly when every line still has its product |
| Payments.SummaryLines | payments/views.py:79-81 | the comprehension computes exactly `Summary` |
| Payments.SummaryNonePropagates | payments/views.py:79-81 | one missing product makes the whole summary raise |
| Payments.Target | payments/views.py:26-38 | the target is a PENDING_PAYMENT order with the callback's checkout id |
| Payments.ReconcileByTarget | payments/views.py:26-112 | without a target nothing changes and nothing is sent; with one, one branch runs and commits or rolls back |
| Payments.OnlyPendingTouched | payments/views.py:26-38 | no id, an unknown id or an order already settled changes nothing and sends nothing |
| Payments.ReconcileFrame | payments/views.py:31-107 | only the target order and stock change, stock never rises, and every other row stays |
| Payments.SuccessOutcome | payments/views.py:41-90 | success: PENDING_APPROVAL, stock decremented, the customer told first, the seller alerted exactly when a number is set and every product exists; a deleted product rolls everything back |
| Payments.SummaryKeys | payments/views.py:79-81 | the summary depends only on which products exist |
| Payments.FailureOutcome | payments/views.py:92-107 | failure: the order is FAILED and the customer gets the reason, or the default one |
| Payments.NoCustomerRollsBack | payments/views.py:67-100 | an order without its customer rolls back and sends nothing |
| Payments.ReconcileConsistent | payments/views.py:31-107 | the callback keeps the tables consistent |
| Payments.CommittedConsistent | payments/views.py:41-90 | committing the success branch keeps the tables consistent |
| Payments.FailingConsistent | payments/views.py:92-107 | marking the order FAILED keeps the tables consistent |
| Payments.CheckoutFree | orders/models.py:39 | no other order shares an order's checkout id |
| Payments.RestockedConsistent | payments/views.py:54-61 | changing only stock keeps the tables consistent |
| Payments.ReconcileIdempotent | payments/views.py:36-38 | a repeated callback changes no table and, after a committed first run, sends nothing |
| Payments.ReceiptNotPersisted | payments/views.py:51 | as written, a successful callback never records the receipt: the transaction id stays what it was |
| Payments.ReceiptRecorded | orders/models.py:38 | writing the declared field records the last receipt number and sets PENDING_APPROVAL |
| Payments.Settle | payments/views.py:41-90 | the in-place success branch leaves the tables and messages of `Settled` |
| Payments.Decline | payments/views.py:92-107 | the in-place failure branch leaves the tables and messages of `Declined` |
| Payments.MpesaCallback | payments/views.py:13-114 | always acknowledged; the tables and the messages sent are exactly `Reconcile`'s |
| Accounts.UsersNamed | accounts/migrations/0002_create_initial_superuser.py:23 | the lookup finds exactly the users of that name |
| Accounts.OnUserSaved | sellers/models.py:34-42 | a new user gets an empty profile; re-saving succeeds exactly when the user has one, and changes nothing |
| Accounts.WithUserConsistent | sellers/models.py:34-38 | inserting a user with a profile keeps the tables consistent |
| Accounts.CreatedUserGetsOneProfile | sellers/models.py:36-37 | creating a user gives it exactly one, empty, profile and leaves other profiles alone |
| Accounts.ValidateEmail | accounts/serializers.py:35-48 | accepted exactly when present, non-empty, well formed and unused ignoring case; the result is lower-cased; a missing or empty email is "required" |
| Accounts.AcceptedEmailFresh | accounts/serializers.py:46-48 | an accepted email is lower-case and differs from every stored one ignoring case |
| Accounts.CleanedIdempotent | accounts/serializers.py:11-23 | the fields hand on trimmed text, so cleaning twice equals cleaning once |
| Accounts.UsernameErrors | accounts/serializers.py:28 | a blank username is refused alone; otherwise one error each for a bad character, a taken name and more than 150 characters, and none exactly when all pass |
| Accounts.PasswordErrors | accounts/serializers.py:11-16 | the trimmed password is refused when blank, else when shorter than 8 characters, and accepted exactly from 8 |
| Accounts.FieldErrors | accounts/serializers.py:11-48 | no field error exactly when the trimmed username is non-blank, well formed, at most 150 characters and free, the trimmed email acceptable, the trimmed password at least 8 characters and the trimmed confirmation non-blank |
| Accounts.ValidatePasswords | accounts/serializers.py:59-67 | the check passes exactly when both entries match, else it reports on `password2` |
| Accounts.RegisterOutcome | accounts/serializers.py:9-85 | registration succeeds exactly when every check passes on the trimmed fields, the trimmed entries match and the username's normal form is free; when the checks pass but the normal form is taken the insert raises an IntegrityError; the account stores the normal form of the trimmed username, the trimmed names (empty by default), the lower-cased trimmed email, the hash of the trimmed password, no superuser, and never the confirmation |
| Accounts.RegisterSeesCleaned | accounts/serializers.py:11-23 | sending the trimmed request instead gives the same outcome |
| Accounts.PaddedNameTaken | accounts/serializers.py:28 | a name that equals a stored one once trimmed is refused as taken |
| Accounts.RegisterKeepsInvariants | accounts/serializers.py:69-85 | a registration keeps the tables consistent and usernames distinct |
| Accounts.Create | accounts/serializers.py:69-85 | the in-place create drops `password2` and, exactly when the username's normal form is free, inserts the account under the next id with the profile the signal gives it; otherwise nothing is written; the tables stay consistent |
| Accounts.SaveUser | sellers/models.py:34-38 | saving a new user puts it under the next id with the empty profile the signal creates, keeping the tables consistent |
| Accounts.NormalizeEmail | accounts/serializers.py:78-84 | `create_user` stores the email through `normalize_email`: an address with no '@' once stripped is kept exactly as sent |
| Accounts.NormalizeEmailCaseOnly | accounts/serializers.py:78-84 | normalising an address changes only the case of its domain: the length and the part before the last '@' are those of the stripped address, which it equals ignoring case |
| Accounts.NormalizedEmailKept | accounts/serializers.py:46-48 | an email already trimmed and lower-cased, as `validate_email` returns it, is stored unchanged |
| Accounts.NormalizeEmailExample | accounts/serializers.py:78-84 | `" A@X"` is stored as `"A@x"`: stripped, with the domain alone lower-cased |
| Accounts.CreateIgnoresConfirmation | accounts/serializers.py:75-84 | the confirmation plays no part in the account; names default to '' |
| Accounts.NewAccountIsUserFrom | accounts/serializers.py:75-84 | `create` on the validated dictionary builds exactly the account registration describes |
| Accounts.RegisterIsCreate | accounts/serializers.py:69-85 | a successful registration stores the account `create` builds from the validated data, with its empty profile |
| Accounts.CreateSuperuser | accounts/migrations/0002_create_initial_superuser.py:7-47 | the in-place migration fails exactly when `Bootstrap` does, writing nothing; otherwise it leaves exactly `Bootstrap`'s tables; the tables stay consistent |
| Accounts.InsertWithProfile | accounts/migrations/0002_create_initial_superuser.py:26-32 | inserting a user and then its profile leaves exactly `WithUser`'s tables and keeps them consistent |
| Accounts.BootstrapNeedsCredentials | accounts/migrations/0002_create_initial_superuser.py:21-47 | without all three credentials nothing changes |
| Accounts.NewNameFound | accounts/migrations/0002_create_initial_superuser.py:23-32 | after creating a user of a fresh name, the lookup finds just that user |
| Accounts.NamesIgnoreProfiles | accounts/migrations/0002_create_initial_superuser.py:38-40 | adding a profile does not change the name lookup |
| Accounts.BootstrapCreates | accounts/migrations/0002_create_initial_superuser.py:23-33 | with no user of the name and none of its normal form, a superuser stored under the normal form and a "Platform Admin" profile are created under the next id, and the normal form then finds just that user |
| Accounts.BootstrapClashFails | accounts/migrations/0002_create_initial_superuser.py:23-30 | with no user of the raw name but one of its normal form, `create_superuser` hits the unique column and the migration fails |
| Accounts.OtherNameStillFree | accounts/migrations/0002_create_initial_superuser.py:23-30 | inserting a user of another name leaves a free name free |
| Accounts.BootstrapAddsProfile | accounts/migrations/0002_create_initial_superuser.py:34-41 | with the user but no profile, only the profile is added |
| Accounts.BootstrapKeepsExisting | accounts/migrations/0002_create_initial_superuser.py:42-43 | with user and profile, nothing changes |
| Accounts.BootstrapLeavesProfile | accounts/migrations/0002_create_initial_superuser.py:21-43 | a name already in normal form never makes the migration fail; after a run that did not fail, the account exists with a profile, found by the name when a user had it and by its normal form otherwise; a name not in normal form that nobody had is still found by nobody |
| Accounts.BootstrapIdempotent | accounts/migrations/0002_create_initial_superuser.py:7-47 | running the migration twice equals running it once when the credentials are incomplete, the name is in normal form or a user had it; a name not in normal form that nobody had makes the second run fail, since the lookup by raw name misses the stored normal form |
| Accounts.BootstrapConsistent | accounts/migrations/0002_create_initial_superuser.py:7-47 | a run that does not fail keeps the tables consistent |
| Accounts.BootstrapUsernamesUnique | accounts/migrations/0002_create_initial_superuser.py:23 | a run that does not fail never creates a second user of a name |
| Accounts.NewNameKeepsUnique | accounts/migrations/0002_create_initial_superuser.py:23-30 | adding a user of a fresh name keeps usernames distinct |
| Accounts.ProfileAddedConsistent | accounts/migrations/0002_create_initial_superuser.py:39-40 | giving a user a profile keeps the tables consistent |
| ProductApi.ValidateSku | products/serializers.py:30-47 | refused exactly when another product of the seller (inactive ones too) has the value, the edited one excluded; accepted values come back unchanged |
| ProductApi.OwnSkuPasses | products/serializers.py:42-44 | on update, keeping the product's own SKU passes |
| ProductApi.OtherSellersIgnored | products/serializers.py:36-44 | other sellers' products never decide the check |
| ProductApi.InactiveStillBlocks | products/serializers.py:40 | a soft-deleted product still blocks its SKU |
| ProductApi.NullSkuStricterThanConstraint | products/serializers.py:40 | a NULL SKU blocks another NULL though the constraint admits both |
| ProductApi.AcceptedSkuKeepsUnique | products/serializers.py:30-47 | storing an accepted SKU, on create or update, keeps the constraint |
| ProductApi.QuerysetIsVisible | products/views.py:13-21 | the seller sees exactly its active products |
| ProductApi.CreatedOutcome | products/views.py:23-27 | create succeeds exactly with a profile and, when a SKU was sent (null included), one the check accepts; the product is the signed-in seller's, listed unless sent inactive, and the tables stay consistent |
| ProductApi.CreateProduct | products/views.py:23-27 | the in-place create stores `Created`'s row under the next id, or nothing with its error |
| ProductApi.SoftDeleteOutcome | products/views.py:37-42 | a delete only clears the flag of one of the seller's live products, which drops out of exactly its list |
| ProductApi.NullSkuCreateRefused | products/serializers.py:30-41 | a SKU sent as null is refused when the seller has a product without a SKU, while the same create with the SKU omitted is stored, as the same row |
| ProductApi.SoftDeleteTwiceNotFound | products/views.py:13-42 | a second delete finds nothing |
| ProductApi.DestroyProduct | products/views.py:37-42 | the in-place destroy leaves exactly `SoftDeleted`'s tables |
| OrderApi.OrderQueryset | orders/views.py:13-21 | exactly the seller's non-cart orders, newest `created_at` first |
| OrderApi.QuerysetNewestFirst | orders/views.py:21 | the list runs from the newest to the oldest |
| OrderApi.QuerysetExact | orders/views.py:19-20 | in consistent tables the list is exactly those orders |
| OrderApi.OnlyReadAndPatch | orders/views.py:11 | GET and PATCH are served; POST, PUT and DELETE are not |
| OrderApi.BadFields | orders/models.py:29-33 | a patch is valid exactly when the sent status is one of its choices and a sent delivery option is one of its choices or blank |
| OrderApi.ParseDeliveryName | orders/models.py:33 | every storable delivery value, the blank one included, is accepted back |
| OrderApi.BlankDeliveryAccepted | orders/models.py:33-34 | a blank delivery option is stored as blank and a sent address is stored trimmed |
| OrderApi.PatchFrame | orders/serializers.py:25-30 | a patch writes only the writable status, delivery option and address of the one order; id, customer, total and lines stay as they were, and the tables stay consistent |
| OrderApi.AnyTransition | orders/views.py:23-26 | any listed order can be moved to any status |
| OrderApi.CartsNotPatchable | orders/views.py:19-20 | a cart or another seller's order cannot be patched |
| Analytics.AnalysedIds | analytics/views.py:17-20 | the analysed orders are the seller's non-cart orders |
| Analytics.RevenueIds | analytics/views.py:23-25 | the revenue orders exclude CANCELLED and FAILED |
| Analytics.RevenueExact | analytics/views.py:17-25 | in consistent tables both sets are exactly as filtered |
| Analytics.AverageOrderValue | analytics/views.py:29 | sales over orders, and 0 without orders |
| Analytics.RevenueAtMostOrders | analytics/views.py:27-28 | never more revenue orders than orders; no orders means no sales |
| Analytics.FailedCountedNotSold | analytics/views.py:23-28 | a failed or cancelled order counts as an order but not as revenue |
| Analytics.SalesNonNegative | analytics/views.py:27 | non-negative totals give non-negative sales |
| Analytics.AnalysedStatuses | analytics/views.py:46 | one status per analysed order |
| Analytics.StatusDistribution | analytics/views.py:46-47 | each occurring status maps to its number of orders |
| Analytics.StatusCountsSum | analytics/views.py:28-47 | the status counts add up to total orders |
| Analytics.Groups | analytics/views.py:50-53 | one group per product name with its summed quantity |
| Analytics.Names | analytics/views.py:50-53 | the distinct product names (None for a deleted product) that occur among the lines |
| Analytics.Ranked | analytics/views.py:53-59 | at most five groups are kept |
| Analytics.RankedSpec | analytics/views.py:50-59 | at most five groups, descending, each real and no name twice; any group left out sold no more than each kept |
| Analytics.RankedDistinct | analytics/views.py:50-54 | one entry per product name: no name is ranked twice |
| Analytics.UnsoldNotRanked | analytics/views.py:50-59 | a product with no revenue line is not ranked |
| Analytics.Recent | analytics/views.py:32-34 | revenue orders of the last 180 days |
| Analytics.MonthsOf | analytics/views.py:36-43 | a month is listed exactly when some recent revenue order falls in it |
| Analytics.MonthlySales | analytics/views.py:32-43 | one entry per month with recent revenue, ascending, each that month's total |
| Analytics.OldOrdersNotInMonths | analytics/views.py:32-34 | orders older than 180 days are in no month |
| Dashboard.NextStatus | chapchat_dash/src/components/OrderDetailModal.jsx:51-80 | the four offered moves, and none from any other status |
| Dashboard.OfferedMoves | chapchat_dash/src/components/OrderDetailModal.jsx:51-80 | no move leads to pickup-ready, cancelled, failed, cart or payment, and none starts from a finished order |
| Dashboard.DeliveryPath | chapchat_dash/src/components/OrderDetailModal.jsx:53-76 | approval leads to DELIVERED in three moves |
| Dashboard.SubtotalIsLineTotal | chapchat_dash/src/components/OrderDetailModal.jsx:121 | the shown subtotal is the amount the line adds to the total |
| Dashboard.SizesSplit | chapchat_dash/src/components/ProductFormModal.jsx:84-87 | the sent sizes are non-empty, trimmed and comma-free |
| Dashboard.SizesRoundTrip | chapchat_dash/src/components/ProductFormModal.jsx:53-87 | clean sizes pre-filled and submitted unchanged are sent back the same |
| Dashboard.EmptyFieldNoSizes | chapchat_dash/src/components/ProductFormModal.jsx:84-87 | an empty field sends no sizes |
| Dashboard.EditForm | chapchat_dash/src/components/ProductFormModal.jsx:47-54 | the edit form shows the product's fields, blanks for missing ones, and the sizes joined |
| Dashboard.NoSizesBlankField | chapchat_dash/src/components/ProductFormModal.jsx:53-63 | a product without sizes pre-fills the blank field |
| Dashboard.SubmitRequest | chapchat_dash/src/components/ProductFormModal.jsx:91-97 | PATCH to the product exactly when editing, else POST |
| Dashboard.ErrorLines | chapchat_dash/src/components/ProductFormModal.jsx:103-111 | one `key: value` piece per field |
| Dashboard.ErrorMessageCases | chapchat_dash/src/components/ProductFormModal.jsx:103-113 | the fallback is shown exactly for a body without fields |
| Dashboard.OneFieldTwoMessages | chapchat_dash/src/components/ProductFormModal.jsx:103-113 | one field with two messages shows as `field: first, second` |
| Strings.ParsePyIntOfNatToString | whatsapp_comms/handlers.py:191 | `int(str(n)) == n` |
| Strings.ParsePyIntEmpty | whatsapp_comms/handlers.py:249 | `int('')` raises |

## Left out

- HTTP, OAuth and the network: the access token, the STK POST and the Graph API call are parameters or the store's outbox.
- Parsing the webhook envelope (the `entry`/`changes` path, and the `KeyError` it catches) is not modelled; an already parsed message is taken.
- Status webhooks and logging (`print`) have no effect on state and are left out.
- Locking and concurrency: `select_for_update` and two callbacks racing are not modelled; the transaction is modelled only as rollback.
- Floating point: `average_order_value` is kept as a fraction, and the dashboard's `parseFloat`/`toFixed` and the price field are not carried.
- Message wording and emoji are represented by `Notice` constructors, not by text.
- `%Y-%m` month formatting: months are numbered by a `monthOf` parameter.
- Dashboard state, loading flags and rendering are not modelled; only the forms' logic is.
- Django's email format check and password hashing are parameters.
- Product images are never read by the modelled code and are not carried.
- `datetime.now()` and `timezone.now()` are clock parameters.
- "Newest first" (`-created_at`) on products is modelled as descending id, since ids grow with creation time.
- Handlers.HandleAwaitingCommand: the keyword-search prompt's state change is stated, its wording is not.
- The access-token helper (`get_mpesa_access_token`) is a parameter: it is only a network call.
- Handlers.HandleQuantity: any positive `int(text)` is accepted; the `PositiveIntegerField` quantity column's upper bound (2147483647) is not modelled, because quantities are unbounded `nat`.
- Cart.AddToCartTotal: the total may grow past 99,999,999.99, which a `DecimalField(max_digits=10, decimal_places=2)` column cannot store; money is unbounded integer cents, so a save the database would refuse is not modelled.
- Database.Store.UpdateTotal: the recomputed total is not bounded by the column's ten digits, for the same reason; product prices and the stock count are likewise unbounded.
- Payments.DecrementStock: the lines are visited in their stored order. `order.items.all()` declares no ordering, so when two lines share a product the database may visit them in another order and skip a different one for lack of stock.
- Handlers.CartLinesOf: the cart's lines are shown in stored order, for the same reason.
- Strings.ParsePyInt: only ASCII digits are read; Python's `int()` also accepts other Unicode decimal digits (`int("٣") == 3`).
- Strings.Lower: only ASCII letters are folded; Python's `str.lower` also folds other letters.
- Accounts.FieldErrors: the username's character pattern is a parameter. Three checks are not modelled: the 150-character limit on first and last names, the 254-character limit on the email, and the null-character check every text field runs.
- Dashboard.ErrorMessage: the error body is modelled as a list of fields with their messages. Two cases are not captured: a body that is a string (an HTML error page, which `Object.keys` splits into one `i: c` piece per character) and a field whose value is a nested object (shown as `[object Object]`).
- Django's `normalize_username` (Unicode NFKC) is the parameter `normalize`: no property of NFKC itself, such as idempotence, is taken for granted, so the lemmas about names in normal form state it as a condition.
- Accounts.NormalizeEmail: the domain is lower-cased with the ASCII-only `Strings.Lower`, for the reason given above.
- Products.FromFields: the product serializer's trimming of name, description and SKU, and its refusal of a blank name, are not modelled; the sent values are taken as already cleaned.

## Findings

| source | as written | input that shows it | evidently intended | confidence | as-written member | corrected member |
|---|---|---|---|---|---|---|
| whatsapp_comms/handlers.py:479-484 | `initiate_stk_push` is called with a `callback_url` keyword that payments/services.py:26 does not accept, so the call raises TypeError | any customer with one cart who reaches the payment step | call it with phone, amount and order id; the service builds the callback URL itself | high (not executed) | Handlers.PaymentAsWrittenRaises | Handlers.PaymentCorrectedPends |
| payments/views.py:51 | the receipt is assigned to `payment_transaction_id`, an attribute the model does not declare (orders/models.py:38 has `payments_transaction_id`), so it is never saved | a successful callback whose metadata carries `MpesaReceiptNumber` | record the receipt number in `payments_transaction_id` | high (not executed) | Payments.ReceiptNotPersisted | Payments.ReceiptRecorded |
