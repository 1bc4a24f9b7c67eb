/**
 * What the chat engine receives and what it answers. Replies are modelled by
 * kind, ids, titles and the data they show; the wording of free text is
 * represented by a `Notice` naming which message it is.
 */
module Messages {
  import opened Wrappers
  import opened Strings
  import opened Products

  /** The reply carried by an interactive message. */
  datatype Reply = ButtonReply(id: string) | ListReply(id: string) | OtherReply

  /** A shared location pin; `address` is the optional text Meta may attach. */
  datatype Location = Location(latitude: string, longitude: string, address: Option<string>)

  /**
   * An incoming message, by its `type`: text, interactive, location, or any
   * other type (image, sticker, ...). `Empty` is the `{}` the handlers pass
   * each other when one hands over to another.
   */
  datatype Incoming =
    | TextMessage(body: string)
    | InteractiveMessage(reply: Reply)
    | LocationMessage(location: Location)
    | OtherMessage(kind: string)
    | Empty

  /** `message_details['type']` */
  function Kind(m: Incoming): Option<string> {
    match m
    case TextMessage(_) => Some("text")
    case InteractiveMessage(_) => Some("interactive")
    case LocationMessage(_) => Some("location")
    case OtherMessage(k) => Some(k)
    case Empty => None
  }

  /** `message_details.get('text', {}).get('body', '')` */
  function TextOf(m: Incoming): string {
    if m.TextMessage? then m.body else ""
  }

  /** `message_details.get('interactive', {}).get('button_reply', {}).get('id')` */
  function ButtonIdOf(m: Incoming): Option<string> {
    if m.InteractiveMessage? && m.reply.ButtonReply? then Some(m.reply.id) else None
  }

  /** The id of a button or a list reply, None for anything else. */
  function ReplyIdOf(m: Incoming): Option<string> {
    if m.InteractiveMessage? && (m.reply.ButtonReply? || m.reply.ListReply?) then Some(m.reply.id) else None
  }

  datatype Button = Button(id: string, title: string)

  datatype Row = Row(id: string, title: string, description: Option<string>)

  /** One line of the cart view: quantity, product name, chosen size and quantity × snapshot price. */
  datatype CartLine = CartLine(quantity: nat, productName: string, size: Option<string>, lineTotal: int)

  /** The data an interactive message's body shows. */
  datatype Body =
    | MenuBody(shopName: string)
    | CatalogBody
    | MatchesBody
    | ProductBody(name: string, description: Option<string>, price: int)
    | SizeBody(productName: string)
    | AddedBody(quantity: nat, productName: string, size: Option<string>, cartTotal: int)
    | CartBody(lines: seq<CartLine>, total: int)
    | DeliveryBody

  datatype Interactive =
    | Buttons(body: Body, buttons: seq<Button>)
    | List(header: string, body: Body, rows: seq<Row>)

  /** Which text message is sent. */
  datatype Notice =
    | Welcome(shopName: string)
    | SearchPrompt
    | NoProducts
    | SelectionError
    | AskWhichProduct
    | NoMatch
    | UseButtons
    | ProductUnavailable
    | ChooseSize
    | AskQuantity
    | QuantityTooSmall
    | NotANumber
    | ProductNotFound
    | CartEmpty
    | AddressPrompt
    | AskAddress
    | PaymentPromptSent
    | PaymentNotStarted
    | CartMissing
    | Confused
    | SystemError
    | PaymentReceived(orderId: nat, total: int)
    | NewPaidOrder(orderId: nat, total: int, lines: seq<string>)
    | PaymentFailed(orderId: nat, reason: string)

  /**
   * A value handed to the sender: a string, an interactive dict, or any other
   * object (which the sender refuses). The handlers only produce the first two.
   */
  datatype Payload = Text(notice: Notice) | Interactive(message: Interactive) | Opaque

  /** A request posted to the WhatsApp Cloud API: a text body, or an interactive message with its footer. */
  datatype Request =
    | TextRequest(to: string, notice: Notice)
    | InteractiveRequest(to: string, message: Interactive, footer: string)

  /** The exceptions that escape a handler. */
  datatype Failure =
    | DoesNotExist
    | MultipleObjectsReturned
    | ValueError
    | TypeError
    | AttributeError
    | IntegrityError

  /** A handler either returns a reply or raises. */
  datatype Outcome = Replied(payload: Payload) | Raised(failure: Failure)

  const ProductIdPrefix := "select_product_"
  const AddToCartPrefix := "add_to_cart_"
  const SizePrefix := "select_size_"

  /** The list row for a product: its id, name cut to 24 characters and price text cut to 72. */
  function ProductRow(id: nat, p: Product): (r: Row)
    ensures |r.title| <= 24 && r.description.Some? && |r.description.value| <= 72
    ensures r.id == ProductIdPrefix + NatToString(id)
  {
    Row(ProductIdPrefix + NatToString(id), Take(p.name, 24), Some(Take("$" + CentsText(p.price), 72)))
  }

  /** A product id written after a prefix that ends in '_' is what `int(id.split('_')[-1])` reads back. */
  lemma IdRoundTrip(prefix: string, id: nat)
    requires |prefix| > 0 && prefix[|prefix| - 1] == '_'
    ensures StartsWith(prefix + NatToString(id), prefix)
    ensures ParsePyInt(LastSegment(prefix + NatToString(id), '_')) == Some(id)
  {
    var digits := NatToString(id);
    StartsWithConcat(prefix, digits);
    var front := prefix[..|prefix| - 1];
    assert front + ['_'] + digits == prefix + digits;
    assert '_' !in digits by {
      forall i | 0 <= i < |digits| ensures digits[i] != '_' {
        assert IsDigit(digits[i]);
      }
    }
    LastSegmentAfterSeparator(front, '_', digits);
    ParsePyIntOfNatToString(id);
  }

  /** Every row of a product list names, in its id, the product it stands for. */
  lemma ProductRowNamesProduct(id: nat, p: Product)
    ensures StartsWith(ProductRow(id, p).id, ProductIdPrefix)
    ensures ParsePyInt(LastSegment(ProductRow(id, p).id, '_')) == Some(id)
  {
    IdRoundTrip(ProductIdPrefix, id);
  }

  /** The button offering sizes: id `select_size_<s>`, title cut to 20 characters. */
  function SizeButton(s: string): (b: Button)
    ensures |b.title| <= 20 && b.id == SizePrefix + s
  {
    Button(SizePrefix + s, Take(s, 20))
  }

  /** The list row offering a size: title cut to 24 characters. */
  function SizeRow(s: string): (r: Row)
    ensures |r.title| <= 24 && r.id == SizePrefix + s && r.description.None?
  {
    Row(SizePrefix + s, Take(s, 24), None)
  }

  /** `[button(s) for s in sizes]` */
  function SizeButtons(sizes: seq<string>): (r: seq<Button>)
    ensures |r| == |sizes| && forall i :: 0 <= i < |r| ==> r[i] == SizeButton(sizes[i])
  {
    seq(|sizes|, i requires 0 <= i < |sizes| => SizeButton(sizes[i]))
  }

  /** `[row(s) for s in sizes[:10]]` */
  function SizeRows(sizes: seq<string>): (r: seq<Row>)
    ensures |r| == if |sizes| < 10 then |sizes| else 10
    ensures forall i :: 0 <= i < |r| ==> r[i] == SizeRow(sizes[i])
  {
    var n := if |sizes| < 10 then |sizes| else 10;
    seq(n, i requires 0 <= i < n => SizeRow(sizes[i]))
  }

  /** The size the size handler stores for a reply id: the id with its prefix removed once. */
  function SizeOfReply(id: string): string
    requires StartsWith(id, SizePrefix)
  {
    id[|SizePrefix|..]
  }

  /** Choosing an offered size stores exactly that size. */
  lemma SizeReplyRoundTrip(s: string)
    ensures StartsWith(SizeButton(s).id, SizePrefix) && SizeOfReply(SizeButton(s).id) == s
    ensures StartsWith(SizeRow(s).id, SizePrefix) && SizeOfReply(SizeRow(s).id) == s
  {
    StartsWithConcat(SizePrefix, s);
  }
}
