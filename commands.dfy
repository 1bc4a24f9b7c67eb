/**
 * The global commands of the chat engine and the choice of handler for an
 * incoming message: global commands first, then the conversation's state.
 */
module Commands {
  import opened Wrappers
  import opened Strings
  import opened Chat
  import opened Messages

  /** Which handler a message goes to. */
  datatype Route = MenuRoute | CartRoute | StateRoute(state: ConvState) | Fallback

  const MenuWords := ["hi", "hello", "hey", "menu"]

  /** The text the global commands are matched against: lower-cased and stripped. */
  function CommandText(m: Incoming): string {
    Strip(Lower(TextOf(m)), Python)
  }

  /** The message is one of the menu commands, as text or as a reply id. */
  predicate MenuCommand(m: Incoming) {
    CommandText(m) in MenuWords || ReplyIdOf(m) == Some("show_menu") || ReplyIdOf(m) == Some("keep_shopping")
  }

  /** The message asks for the cart, as text or as a reply id. */
  predicate CartCommand(m: Incoming) {
    CommandText(m) == "view cart" || ReplyIdOf(m) == Some("view_cart")
  }

  /** `process_message`'s choice of handler. */
  function RouteOf(m: Incoming, state: string): Route
  {
    if MenuCommand(m) then MenuRoute
    else if CartCommand(m) then CartRoute
    else match ParseState(state)
      case Some(s) => StateRoute(s)
      case None => Fallback
  }

  /**
   * Every one of the ten states has its handler: a message that is no global
   * command goes to the handler of the state it is in, and the fallback fires
   * only for a state name that is none of the ten.
   */
  lemma EveryStateRouted(m: Incoming, s: ConvState, state: string)
    requires !MenuCommand(m) && !CartCommand(m)
    ensures RouteOf(m, StateName(s)) == StateRoute(s)
    ensures RouteOf(m, state) == Fallback <==> ParseState(state).None?
  {
    ParseStateName(s, StateName(s));
  }

  /** Commands ignore case and surrounding blanks: " MENU" is the menu command. */
  lemma ShoutedMenuIsMenu(state: string)
    ensures RouteOf(TextMessage(" MENU"), state) == MenuRoute
  {
    var l := Lower(" MENU");
    assert l == " " + "menu" by {
      forall i | 0 <= i < 5 ensures l[i] == (" " + "menu")[i] {
      }
    }
    StripSpacePrefixed("menu", Python);
    assert "menu" in MenuWords;
  }

  /** "show menu" has no capital letter. */
  lemma LowerShowMenu()
    ensures Lower("show menu") == "show menu"
  {
    var t := Lower("show menu");
    forall i | 0 <= i < 9 ensures t[i] == "show menu"[i] {
    }
  }

  /** "show menu" is its own command text. */
  lemma ShowMenuCommandText()
    ensures CommandText(TextMessage("show menu")) == "show menu"
  {
    LowerShowMenu();
    StripTrimmed("show menu", Python);
  }

  /** Commands match the whole text: "show menu" is no command. */
  lemma ShowMenuIsNoCommand()
    ensures !MenuCommand(TextMessage("show menu")) && !CartCommand(TextMessage("show menu"))
  {
    ShowMenuCommandText();
    assert ReplyIdOf(TextMessage("show menu")) == None;
    assert "show menu"[0] != "view cart"[0];
  }

  /** A message that is no text has no command text. */
  lemma NoTextNoCommandText(m: Incoming)
    requires !m.TextMessage?
    ensures CommandText(m) == "" && CommandText(m) !in MenuWords
  {
    assert TextOf(m) == "";
    assert |Lower("")| == 0;
  }

  /** An interactive menu command carries one of the two menu reply ids. */
  lemma InteractiveMenuCommand(m: Incoming)
    requires m.InteractiveMessage? && MenuCommand(m)
    ensures ReplyIdOf(m) == Some("show_menu") || ReplyIdOf(m) == Some("keep_shopping")
  {
    NoTextNoCommandText(m);
  }

  /** The two menu reply ids differ from the menu's action ids. */
  lemma MenuIdsAreNoActions(id: string)
    requires id == "show_menu" || id == "keep_shopping"
    ensures id != "search_by_keyword" && id != "view_all_products"
  {
    assert |id| < |"search_by_keyword"| == |"view_all_products"|;
  }

  /** A menu command that arrives as text or a reply is never one of the menu's own action buttons. */
  lemma MenuCommandShowsMenu(m: Incoming)
    requires MenuCommand(m)
    ensures ButtonIdOf(m) != Some("search_by_keyword") && ButtonIdOf(m) != Some("view_all_products")
  {
    if m.InteractiveMessage? && m.reply.ButtonReply? {
      InteractiveMenuCommand(m);
      MenuIdsAreNoActions(m.reply.id);
      assert ButtonIdOf(m) == Some(m.reply.id);
    } else {
      assert ButtonIdOf(m) == None;
    }
  }

  /** A cart command is never the cart view's checkout button. */
  lemma CartCommandShowsCart(m: Incoming)
    requires CartCommand(m)
    ensures ButtonIdOf(m) != Some("checkout")
  {
    if CommandText(m) == "view cart" {
      assert TextOf(m) != "";
    }
  }
}
