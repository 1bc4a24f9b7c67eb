/**
 * Customers, the per-(customer, seller) conversation with its state and
 * context memory, and stored chat messages.
 */
module Chat {
  import opened Wrappers
  import Seqs

  /** The ten conversation states. */
  datatype ConvState =
    | Started
    | AwaitingCommand
    | AwaitingProductSelection
    | AwaitingProductAction
    | AwaitingSizeSelection
    | AwaitingQuantity
    | ViewingCart
    | AwaitingDeliveryChoice
    | AwaitingDeliveryAddress
    | AwaitingPaymentConfirmation

  const AllStates: seq<ConvState> := [
    Started, AwaitingCommand, AwaitingProductSelection, AwaitingProductAction,
    AwaitingSizeSelection, AwaitingQuantity, ViewingCart, AwaitingDeliveryChoice,
    AwaitingDeliveryAddress, AwaitingPaymentConfirmation]

  /** The value stored in the `state` column. */
  function StateName(s: ConvState): string {
    match s
    case Started => "STARTED"
    case AwaitingCommand => "AWAITING_COMMAND"
    case AwaitingProductSelection => "AWAITING_PRODUCT_SELECTION"
    case AwaitingProductAction => "AWAITING_PRODUCT_ACTION"
    case AwaitingSizeSelection => "AWAITING_SIZE_SELECTION"
    case AwaitingQuantity => "AWAITING_QUANTITY"
    case ViewingCart => "VIEWING_CART"
    case AwaitingDeliveryChoice => "AWAITING_DELIVERY_CHOICE"
    case AwaitingDeliveryAddress => "AWAITING_DELIVERY_ADDRESS"
    case AwaitingPaymentConfirmation => "AWAITING_PAYMENT_CONFIRMATION"
  }

  /** The state a stored column value names, or None for any other text. */
  function ParseState(name: string): Option<ConvState> {
    if name == "STARTED" then Some(Started)
    else if name == "AWAITING_COMMAND" then Some(AwaitingCommand)
    else if name == "AWAITING_PRODUCT_SELECTION" then Some(AwaitingProductSelection)
    else if name == "AWAITING_PRODUCT_ACTION" then Some(AwaitingProductAction)
    else if name == "AWAITING_SIZE_SELECTION" then Some(AwaitingSizeSelection)
    else if name == "AWAITING_QUANTITY" then Some(AwaitingQuantity)
    else if name == "VIEWING_CART" then Some(ViewingCart)
    else if name == "AWAITING_DELIVERY_CHOICE" then Some(AwaitingDeliveryChoice)
    else if name == "AWAITING_DELIVERY_ADDRESS" then Some(AwaitingDeliveryAddress)
    else if name == "AWAITING_PAYMENT_CONFIRMATION" then Some(AwaitingPaymentConfirmation)
    else None
  }

  /** Stored names parse back to their state, and a name parses only when it is some state's name. */
  lemma ParseStateName(s: ConvState, name: string)
    ensures ParseState(StateName(s)) == Some(s)
    ensures ParseState(name) == Some(s) <==> name == StateName(s)
  {
  }

  /** There are exactly ten states, with ten distinct names. */
  lemma TenStates(s: ConvState)
    ensures |AllStates| == 10 && s in AllStates
    ensures forall i, j :: 0 <= i < j < |AllStates| ==> StateName(AllStates[i]) != StateName(AllStates[j])
  {
  }

  /** A JSON value kept in a conversation's context: the engine stores integers and strings. */
  datatype CtxValue = CInt(i: int) | CStr(s: string)

  type Context = map<string, CtxValue>

  const ViewedProductKey := "viewed_product_id"
  const SelectedSizeKey := "selected_size"

  /** A stored conversation: `state` is the raw column text, `context` the JSON object. */
  datatype ConversationRow = ConversationRow(state: string, context: Context)

  /** A conversation as first created: STARTED with an empty context. */
  const NewConversation := ConversationRow(StateName(Started), map[])

  lemma NewConversationStarts()
    ensures ParseState(NewConversation.state) == Some(Started) && NewConversation.context == map[]
  {
  }

  /** A customer, identified by phone number (the table key); the name is optional. */
  datatype Customer = Customer(name: Option<string>)

  /** The three message senders. */
  datatype Sender = FromCustomer | FromSeller | FromBot

  function SenderName(s: Sender): string {
    match s
    case FromCustomer => "customer"
    case FromSeller => "seller"
    case FromBot => "bot"
  }

  function ParseSender(name: string): Option<Sender> {
    if name == "customer" then Some(FromCustomer)
    else if name == "seller" then Some(FromSeller)
    else if name == "bot" then Some(FromBot)
    else None
  }

  lemma ParseSenderName(s: Sender, name: string)
    ensures ParseSender(SenderName(s)) == Some(s)
    ensures ParseSender(name) == Some(s) <==> name == SenderName(s)
  {
  }

  /** A stored chat message; `timestamp` is its creation time. */
  datatype Message = Message(sender: Sender, content: string, timestamp: int)

  function Lateness(m: Message): int {
    -m.timestamp
  }

  /** The default ordering of messages: by timestamp, oldest first. */
  function InTimestampOrder(ms: seq<Message>): (r: seq<Message>)
    ensures forall i, j :: 0 <= i < j < |r| ==> r[i].timestamp <= r[j].timestamp
    ensures multiset(r) == multiset(ms)
  {
    var r := Seqs.SortDesc(ms, Lateness);
    assert forall i, j :: 0 <= i < j < |r| ==> Lateness(r[i]) >= Lateness(r[j]);
    r
  }

  /**
   * The conversation object a request works on: loaded from its row, changed
   * by the handlers, and written back only when the router saves it.
   */
  class Conversation {
    const customer: string
    const seller: nat
    var state: string
    var context: Context

    constructor (customer: string, seller: nat, row: ConversationRow)
      ensures this.customer == customer && this.seller == seller
      ensures state == row.state && context == row.context
    {
      this.customer := customer;
      this.seller := seller;
      state := row.state;
      context := row.context;
    }

    /** The row `save()` writes. */
    function Row(): ConversationRow
      reads this
    {
      ConversationRow(state, context)
    }

    function Key(): (string, nat) {
      (customer, seller)
    }
  }
}
