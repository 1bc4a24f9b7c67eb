/**
 * The webhook side of the chat engine: routing an incoming message to a
 * handler (global commands first, then the conversation's state), saving the
 * conversation after a handled message, turning replies into WhatsApp Cloud
 * API requests, and the webhook's verification handshake.
 */
module Router {
  import opened Wrappers
  import opened Strings
  import opened Seqs
  import opened Sellers
  import opened Chat
  import opened Messages
  import opened Database
  import opened Handlers
  import opened Commands

  /** Calls the handler of state `s`: the `STATE_HANDLERS` table. */
  method Dispatch(c: Conversation, db: Store, s: ConvState, m: Incoming, now: int, call: StkCall) returns (out: Outcome)
    requires Attached(c, db) && ParseState(c.state) == Some(s)
    modifies c, db
    ensures Attached(c, db) && db.outbox == old(db.outbox) && OnlyOrders(old(db.Rows()), db.Rows())
    ensures Sendable(out)
    ensures out.Replied? ==> ParseState(c.state).Some?
  {
    if s in {ViewingCart, AwaitingDeliveryChoice, AwaitingDeliveryAddress, AwaitingPaymentConfirmation} {
      out := DispatchCheckout(c, db, s, m, call);
    } else {
      out := DispatchBrowsing(c, db, s, m, now);
    }
  }

  /** The handlers of the browsing states, up to the quantity prompt. */
  method DispatchBrowsing(c: Conversation, db: Store, s: ConvState, m: Incoming, now: int) returns (out: Outcome)
    requires Attached(c, db) && ParseState(c.state) == Some(s)
    requires s !in {ViewingCart, AwaitingDeliveryChoice, AwaitingDeliveryAddress, AwaitingPaymentConfirmation}
    modifies c, db
    ensures Attached(c, db) && db.outbox == old(db.outbox) && OnlyOrders(old(db.Rows()), db.Rows())
    ensures Sendable(out)
    ensures out.Replied? ==> ParseState(c.state).Some?
  {
    assert c.seller in db.users;
    forall x: ConvState ensures ParseState(StateName(x)) == Some(x) {
      ParseStateName(x, StateName(x));
    }
    match s {
      case Started => out := HandleStarted(c, db);
      case AwaitingCommand => out := HandleAwaitingCommand(c, db, m);
      case AwaitingProductSelection => out := HandleProductSelection(c, db, m);
      case AwaitingProductAction => out := HandleProductAction(c, db, m);
      case AwaitingSizeSelection => out := HandleSizeSelection(c, m);
      case AwaitingQuantity => out := HandleQuantity(c, db, m, now);
    }
  }

  /** The handlers of the cart and checkout states. */
  method DispatchCheckout(c: Conversation, db: Store, s: ConvState, m: Incoming, call: StkCall) returns (out: Outcome)
    requires Attached(c, db) && ParseState(c.state) == Some(s)
    requires s in {ViewingCart, AwaitingDeliveryChoice, AwaitingDeliveryAddress, AwaitingPaymentConfirmation}
    modifies c, db
    ensures Attached(c, db) && db.outbox == old(db.outbox) && OnlyOrders(old(db.Rows()), db.Rows())
    ensures Sendable(out)
    ensures out.Replied? ==> ParseState(c.state).Some?
  {
    forall x: ConvState ensures ParseState(StateName(x)) == Some(x) {
      ParseStateName(x, StateName(x));
    }
    match s {
      case ViewingCart => out := HandleViewingCart(c, db, m, call);
      case AwaitingDeliveryChoice => out := HandleDeliveryChoice(c, db, m, call);
      case AwaitingDeliveryAddress => out := HandleDeliveryAddress(c, db, m, call);
      case AwaitingPaymentConfirmation => out := HandlePaymentConfirmation(c, db, call);
    }
  }

  /** Steps 1-3 of `process_message`: run the handler of the route chosen for the message, or fall back. */
  method RunHandler(c: Conversation, db: Store, m: Incoming, route: Route, now: int, call: StkCall) returns (out: Outcome)
    requires Attached(c, db) && route == RouteOf(m, c.state)
    modifies c, db
    ensures Attached(c, db) && db.outbox == old(db.outbox) && OnlyOrders(old(db.Rows()), db.Rows()) && Sendable(out)
    ensures out.Replied? ==> ParseState(c.state).Some?
    ensures route == MenuRoute ==> c.seller in db.users && MenuShown(c, out, old(c.context), db.Rows())
    ensures route == CartRoute ==> CartShown(c, out, old(c.state), old(c.context), old(db.Rows()))
    ensures route == Fallback ==>
              At(c, AwaitingCommand, old(c.context)) && out == Replied(Text(Confused)) && db.orders == old(db.orders)
  {
    match route {
      case MenuRoute =>
        out := RunMenu(c, db, m);
      case CartRoute =>
        out := RunCart(c, db, m, call);
      case StateRoute(s) =>
        out := Dispatch(c, db, s, m, now, call);
      case Fallback =>
        out := Replied(Text(Confused));
        c.state := StateName(AwaitingCommand);
        ParseStateName(AwaitingCommand, c.state);
    }
  }

  /** A menu command: the menu handler shows the menu. */
  method RunMenu(c: Conversation, db: Store, m: Incoming) returns (out: Outcome)
    requires Attached(c, db) && MenuCommand(m)
    modifies c, db
    ensures Attached(c, db) && db.outbox == old(db.outbox) && OnlyOrders(old(db.Rows()), db.Rows()) && Sendable(out)
    ensures out.Replied? ==> ParseState(c.state).Some?
    ensures c.seller in db.users && MenuShown(c, out, old(c.context), db.Rows())
  {
    assert c.seller in db.users;
    MenuCommandShowsMenu(m);
    out := HandleAwaitingCommand(c, db, m);
    ParseStateName(AwaitingCommand, c.state);
  }

  /** A cart command: the cart handler shows the cart. */
  method RunCart(c: Conversation, db: Store, m: Incoming, call: StkCall) returns (out: Outcome)
    requires Attached(c, db) && CartCommand(m)
    modifies c, db
    ensures Attached(c, db) && db.outbox == old(db.outbox) && OnlyOrders(old(db.Rows()), db.Rows()) && Sendable(out)
    ensures out.Replied? ==> ParseState(c.state).Some?
    ensures CartShown(c, out, old(c.state), old(c.context), old(db.Rows()))
  {
    CartCommandShowsCart(m);
    out := HandleViewingCart(c, db, m, call);
    CartRouteKnownState(c, out, old(c.state), old(c.context), db.Rows());
  }

  /** A cart view that replies leaves the conversation in a known state. */
  lemma CartRouteKnownState(c: Conversation, out: Outcome, state: string, ctx: Context, d: Db)
    requires CartShown(c, out, state, ctx, d)
    ensures out.Replied? ==> ParseState(c.state).Some?
  {
    ParseStateName(AwaitingCommand, c.state);
    ParseStateName(ViewingCart, c.state);
  }

  /**
   * `process_message`: route, run the handler, and save the conversation. A
   * handler that raises skips the save, so the stored row keeps its old state
   * and context while the handler's earlier cart writes stay.
   */
  method ProcessMessage(c: Conversation, db: Store, m: Incoming, now: int, call: StkCall) returns (out: Outcome)
    requires Attached(c, db)
    modifies c, db
    ensures Attached(c, db) && db.outbox == old(db.outbox) && Sendable(out)
    ensures db.Rows() == old(db.Rows()).(orders := db.orders, nextOrderId := db.nextOrderId, conversations := db.conversations)
    ensures out.Replied? ==> db.conversations == old(db.conversations)[c.Key() := c.Row()] && ParseState(c.state).Some?
    ensures out.Raised? ==> db.conversations == old(db.conversations)
    ensures RouteOf(m, old(c.state)) == MenuRoute ==> c.seller in db.users && MenuShown(c, out, old(c.context), db.Rows())
    ensures RouteOf(m, old(c.state)) == CartRoute ==> CartShown(c, out, old(c.state), old(c.context), old(db.Rows()))
    ensures RouteOf(m, old(c.state)) == Fallback ==>
              At(c, AwaitingCommand, old(c.context)) && out == Replied(Text(Confused)) && db.orders == old(db.orders)
  {
    out := RunHandler(c, db, m, RouteOf(m, c.state), now, call);
    if out.Replied? {
      SetConversationConsistent(db.Rows(), c.Key(), c.Row());
      db.SaveConversation(c);
    }
  }

  const Footer := "Reply 'menu' for options or 'view cart' to view your cart."

  /**
   * The payload-building part of `send_whatsapp_message`: a string becomes a
   * text message, an interactive message gets the fixed footer, anything else
   * is dropped.
   */
  function BuildRequest(to: string, p: Payload): (r: Option<Request>)
    ensures r.None? <==> p.Opaque?
    ensures r.Some? ==> r.value.to == to
    ensures p.Text? ==> r == Some(TextRequest(to, p.notice))
    ensures p.Interactive? ==> r.Some? && r.value.InteractiveRequest? && r.value.message == p.message && r.value.footer == Footer
  {
    match p
    case Text(n) => Some(TextRequest(to, n))
    case Interactive(x) => Some(InteractiveRequest(to, x, Footer))
    case Opaque => None
  }

  /** Only text and interactive messages are handed to the engine. */
  predicate Handled(m: Incoming) {
    Kind(m) == Some("text") || Kind(m) == Some("interactive")
  }

  /** Location pins, images and every other type never reach the router. */
  lemma LocationNeverHandled(loc: Location, kind: string)
    ensures !Handled(LocationMessage(loc)) && !Handled(Empty)
    ensures kind != "text" && kind != "interactive" ==> !Handled(OtherMessage(kind))
  {
  }

  /** The profile filter for a WhatsApp business number id. */
  function HasNumber(phoneId: string): (nat, SellerProfile) -> bool {
    (k: nat, p: SellerProfile) => p.whatsappPhoneNumberId == Some(phoneId)
  }

  /** `SellerProfile.objects.filter(whatsapp_phone_number_id=phoneId)`: the profiles found. */
  function SellersFor(d: Db, phoneId: string): (r: seq<nat>)
    ensures forall i :: 0 <= i < |r| ==> r[i] in d.profiles && d.profiles[r[i]].whatsappPhoneNumberId == Some(phoneId)
    ensures forall i, j :: 0 <= i < j < |r| ==> r[i] < r[j]
  {
    KeysAsc(d.profiles, d.nextUserId, HasNumber(phoneId))
  }

  /** In a consistent store the lookup finds every profile with that number. */
  lemma SellersForComplete(d: Db, phoneId: string, k: nat)
    requires Consistent(d) && k in d.profiles && d.profiles[k].whatsappPhoneNumberId == Some(phoneId)
    ensures k in SellersFor(d, phoneId)
  {
    assert k in d.users;
    assert HasNumber(phoneId)(k, d.profiles[k]);
  }

  /**
   * `get_or_create` of the sender's customer row and of the conversation row
   * with this seller; existing rows are kept as they are.
   */
  method OpenConversation(db: Store, from: string, seller: nat) returns (c: Conversation)
    requires db.Valid() && seller in db.profiles
    modifies db
    ensures fresh(c) && Attached(c, db) && c.customer == from && c.seller == seller
    ensures from in db.customers && (from, seller) in db.conversations
    ensures db.outbox == old(db.outbox)
  {
    if from !in db.customers {
      AddCustomerConsistent(db.Rows(), from, Customer(None));
      db.customers := db.customers[from := Customer(None)];
    }
    if (from, seller) !in db.conversations {
      SetConversationConsistent(db.Rows(), (from, seller), NewConversation);
      db.conversations := db.conversations[(from, seller) := NewConversation];
    }
    c := new Conversation(from, seller, db.conversations[(from, seller)]);
  }

  /** Sends the handler's reply to the sender, or the system-error text when it raised. */
  method SendOutcome(db: Store, from: string, out: Outcome)
    requires Sendable(out)
    modifies db
    ensures db.Rows() == old(db.Rows())
    ensures db.outbox == old(db.outbox) + [if out.Raised? then TextRequest(from, SystemErrorReply) else BuildRequest(from, out.payload).value]
  {
    if out.Raised? {
      db.Post(TextRequest(from, SystemErrorReply));
    } else {
      var request := BuildRequest(from, out.payload);
      db.Post(request.value);
    }
  }

  const SystemErrorReply := SystemError

  /**
   * The POST branch of the webhook for one parsed message: find the seller by
   * its WhatsApp number id, get or create the customer and the conversation
   * (both stay even if handling fails), process the message and send the
   * reply to the sender, or a system-error text when handling raises. The
   * answer is always HTTP 200.
   */
  method ReceiveMessage(db: Store, phoneId: string, from: string, m: Incoming, now: int, call: StkCall) returns (status: nat)
    requires db.Valid()
    modifies db
    ensures status == 200 && db.Valid()
    ensures !Handled(m) ==> db.Rows() == old(db.Rows()) && db.outbox == old(db.outbox)
    ensures Handled(m) && |SellersFor(old(db.Rows()), phoneId)| == 0 ==> db.Rows() == old(db.Rows()) && db.outbox == old(db.outbox)
    ensures Handled(m) && |SellersFor(old(db.Rows()), phoneId)| > 1 ==>
              db.Rows() == old(db.Rows()) && db.outbox == old(db.outbox) + [TextRequest(from, SystemErrorReply)]
    ensures Handled(m) && |SellersFor(old(db.Rows()), phoneId)| == 1 ==>
              && from in db.customers && (from, SellersFor(old(db.Rows()), phoneId)[0]) in db.conversations
              && |db.outbox| == |old(db.outbox)| + 1 && db.outbox[..|old(db.outbox)|] == old(db.outbox)
              && db.outbox[|old(db.outbox)|].to == from
  {
    if !Handled(m) {
      return 200;
    }
    var sellers := SellersFor(db.Rows(), phoneId);
    if |sellers| == 0 {
      return 200;
    } else if |sellers| > 1 {
      db.Post(TextRequest(from, SystemErrorReply));
      return 200;
    }
    var c := OpenConversation(db, from, sellers[0]);
    var out := ProcessMessage(c, db, m, now, call);
    SendOutcome(db, from, out);
    status := 200;
  }

  /**
   * The GET branch of the webhook: the challenge is echoed with 200 only when
   * the mode is "subscribe" and the token equals the configured one (an absent
   * challenge formats as "None"); otherwise 403.
   */
  function VerifyWebhook(mode: Option<string>, token: Option<string>, challenge: Option<string>, verifyToken: Option<string>): (r: (nat, string))
    ensures r.0 == 200 <==> mode == Some("subscribe") && token == verifyToken
    ensures r.0 == 200 ==> r.1 == (if challenge.Some? then challenge.value else "None")
    ensures r.0 != 200 ==> r == (403, "Verification failed")
  {
    if mode == Some("subscribe") && token == verifyToken then (200, if challenge.Some? then challenge.value else "None")
    else (403, "Verification failed")
  }

  /** With no token configured, a subscribe request that carries no token is accepted too. */
  lemma UnsetTokenAccepts(challenge: string)
    ensures VerifyWebhook(Some("subscribe"), None, Some(challenge), None) == (200, challenge)
    ensures VerifyWebhook(Some("subscribe"), Some(challenge), Some(challenge), None).0 == 403
  {
  }
}
