/**
 * The two dashboard forms that carry logic: the order detail dialog (the
 * status action it offers and the line subtotal it shows) and the product
 * form (pre-filling, the sizes field, the request it sends and the error text
 * it shows).
 */
module Dashboard {
  import opened Wrappers
  import opened Strings
  import opened Orders
  import opened Products

  // ---------------------------------------------------------------------
  // Order detail dialog
  // ---------------------------------------------------------------------

  /** `renderActionButtons`: the one status the dialog offers to move an order to, if any. */
  function NextStatus(s: OrderStatus): (r: Option<OrderStatus>)
    ensures s == PendingApproval <==> r == Some(Processing)
    ensures s == Processing <==> r == Some(OutForDelivery)
    ensures s == ReadyForPickup <==> r == Some(PickedUp)
    ensures s == OutForDelivery <==> r == Some(Delivered)
    ensures r.None? <==> s !in {PendingApproval, Processing, ReadyForPickup, OutForDelivery}
  {
    match s
    case PendingApproval => Some(Processing)
    case Processing => Some(OutForDelivery)
    case ReadyForPickup => Some(PickedUp)
    case OutForDelivery => Some(Delivered)
    case _ => None
  }

  /**
   * No offered move leads to READY_FOR_PICKUP, CANCELLED or FAILED, back
   * to a cart or to payment; and no offered move starts from an order
   * that is completed, failed or cancelled.
   */
  lemma OfferedMoves(s: OrderStatus)
    ensures NextStatus(s).Some? ==> NextStatus(s).value !in {ReadyForPickup, Cancelled, Failed, InProgress, PendingPayment, PendingApproval}
    ensures s in {Delivered, PickedUp, Cancelled, Failed} ==> NextStatus(s).None?
  {
  }

  /** Following the offered moves from approval ends at DELIVERED after three steps and offers nothing more. */
  lemma DeliveryPath()
    ensures NextStatus(PendingApproval) == Some(Processing)
    ensures NextStatus(Processing) == Some(OutForDelivery)
    ensures NextStatus(OutForDelivery) == Some(Delivered)
    ensures NextStatus(Delivered).None?
  {
  }

  /** The subtotal shown for a line: quantity times the snapshot price, the amount the line adds to the order total. */
  lemma SubtotalIsLineTotal(items: seq<OrderItem>, it: OrderItem)
    ensures LinesTotal(items + [it]) == LinesTotal(items) + it.quantity * it.price
  {
    LinesTotalAppend(items, it);
  }

  // ---------------------------------------------------------------------
  // Product form: the sizes field
  // ---------------------------------------------------------------------

  /** The sizes field as pre-filled when editing: the sizes joined with ", ". */
  function SizesJoin(sizes: seq<string>): string {
    Join(sizes, ", ")
  }

  /** Trims every piece (`map(s => s.trim())`). */
  function TrimAll(xs: seq<string>): (r: seq<string>)
    ensures |r| == |xs| && forall i :: 0 <= i < |xs| ==> r[i] == Strip(xs[i], JavaScript)
  {
    seq(|xs|, i requires 0 <= i < |xs| => Strip(xs[i], JavaScript))
  }

  /** Drops the empty pieces (`filter(s => s)`). */
  function NonEmpty(xs: seq<string>): (r: seq<string>)
    ensures forall s :: s in r <==> s in xs && s != ""
    ensures |r| <= |xs|
    decreases |xs|
  {
    if |xs| == 0 then []
    else (if xs[0] != "" then [xs[0]] else []) + NonEmpty(xs[1..])
  }

  /** The sizes sent on submit: the field split at ',', each piece trimmed, the empty ones dropped. */
  function SizesSplit(field: string): (r: seq<string>)
    ensures forall i :: 0 <= i < |r| ==> r[i] != "" && Trimmed(r[i], JavaScript) && ',' !in r[i]
  {
    var pieces := Split(field, ',');
    SplitPiecesHaveNoComma(field);
    var r := NonEmpty(TrimAll(pieces));
    forall i | 0 <= i < |r| ensures r[i] != "" && Trimmed(r[i], JavaScript) && ',' !in r[i] {
      assert r[i] in r;
      var j :| 0 <= j < |pieces| && Strip(pieces[j], JavaScript) == r[i];
      StripKeepsAbsent(pieces[j], ',');
    }
    r
  }

  /** No piece of a split holds the separator. */
  lemma {:induction false} SplitPiecesHaveNoComma(s: string)
    ensures forall i :: 0 <= i < |Split(s, ',')| ==> ',' !in Split(s, ',')[i]
    decreases |s|
  {
    if |s| > 0 {
      SplitPiecesHaveNoComma(s[1..]);
    }
  }

  /** Trimming only removes characters. */
  lemma StripKeepsAbsent(s: string, c: char)
    requires c !in s
    ensures c !in Strip(s, JavaScript)
  {
    var l := StripLeft(s, JavaScript);
    var r := StripRight(l, JavaScript);
    StripLeftSuffix(s, JavaScript);
    StripRightPrefix(l, JavaScript);
    forall i | 0 <= i < |r| ensures r[i] != c {
      assert r[i] == l[i] == s[|s| - |l| + i];
    }
  }

  /** A size the round trip keeps: non-empty, comma-free and already trimmed. */
  predicate CleanSize(s: string) {
    s != "" && ',' !in s && Trimmed(s, JavaScript)
  }

  /** The pieces of a ", "-joined list split at ',': the first item, then each further item behind one space. */
  function Spaced(xs: seq<string>): (r: seq<string>)
    requires |xs| > 0
  {
    [xs[0]] + seq(|xs| - 1, i requires 0 <= i < |xs| - 1 => " " + xs[i + 1])
  }

  lemma {:induction false} SplitJoin(xs: seq<string>)
    requires |xs| > 0 && forall i :: 0 <= i < |xs| ==> ',' !in xs[i]
    ensures Split(Join(xs, ", "), ',') == Spaced(xs)
    decreases |xs|
  {
    if |xs| == 1 {
      SplitNoSeparator(xs[0], ',');
    } else {
      var rest := xs[1..];
      var t := Join(rest, ", ");
      SplitJoin(rest);
      assert Join(xs, ", ") == xs[0] + [','] + ([' '] + t);
      SplitAtSeparator(xs[0], ',', [' '] + t);
      SplitNoSeparator(xs[0], ',');
      assert ([' '] + t)[1..] == t;
      var sp := Split([' '] + t, ',');
      assert sp == [[' '] + Spaced(rest)[0]] + Spaced(rest)[1..];
      assert Spaced(xs) == [xs[0]] + sp;
    }
  }

  /** Trimming the pieces of a ", "-joined list of clean sizes gives the sizes back. */
  lemma TrimSpaced(sizes: seq<string>)
    requires |sizes| > 0 && forall i :: 0 <= i < |sizes| ==> CleanSize(sizes[i])
    ensures TrimAll(Spaced(sizes)) == sizes
  {
    var sp := Spaced(sizes);
    var trimmed := TrimAll(sp);
    forall i | 0 <= i < |sizes| ensures trimmed[i] == sizes[i] {
      if i == 0 {
        StripTrimmed(sizes[0], JavaScript);
      } else {
        assert sp[i] == " " + sizes[i];
        StripSpacePrefixed(sizes[i], JavaScript);
      }
    }
  }

  /**
   * Round trip: pre-filling the field from sizes that are non-empty,
   * comma-free and trimmed, and submitting it unchanged, sends the same sizes;
   * no sizes give the empty field and back.
   */
  lemma SizesRoundTrip(sizes: seq<string>)
    requires forall i :: 0 <= i < |sizes| ==> CleanSize(sizes[i])
    ensures SizesSplit(SizesJoin(sizes)) == sizes
  {
    if |sizes| == 0 {
      EmptyFieldNoSizes();
    } else {
      SplitJoin(sizes);
      TrimSpaced(sizes);
      NonEmptyKeepsNonEmpty(sizes);
    }
  }

  /** An empty sizes field sends no sizes. */
  lemma EmptyFieldNoSizes()
    ensures SizesSplit("") == []
  {
    assert Split("", ',') == [""];
    assert Strip("", JavaScript) == "";
    assert TrimAll([""]) == [""];
    assert NonEmpty([""]) == [];
  }

  lemma {:induction false} NonEmptyKeepsNonEmpty(xs: seq<string>)
    requires forall i :: 0 <= i < |xs| ==> xs[i] != ""
    ensures NonEmpty(xs) == xs
    decreases |xs|
  {
    if |xs| > 0 {
      NonEmptyKeepsNonEmpty(xs[1..]);
    }
  }

  // ---------------------------------------------------------------------
  // Product form: fields, request and errors
  // ---------------------------------------------------------------------

  /** The form's text fields and stock count; the price field is a float and is not carried. */
  datatype Form = Form(name: string, sku: string, description: string, sizes: string, inventory: int)

  /** The form when adding: everything blank, no stock. */
  const AddForm := Form("", "", "", "", 0)

  /** The form when editing: the product's fields, a missing SKU or description as blank, the sizes joined. */
  function EditForm(p: Product): (f: Form)
    ensures f.name == p.name && f.inventory == p.inventory
    ensures f.sku == (if p.sku.Some? then p.sku.value else "")
    ensures f.description == (if p.description.Some? then p.description.value else "")
    ensures f.sizes == SizesJoin(p.sizes)
  {
    Form(p.name, p.sku.GetOr(""), p.description.GetOr(""), SizesJoin(p.sizes), p.inventory)
  }

  /** A product without sizes pre-fills the blank sizes field, as the add form has. */
  lemma NoSizesBlankField(p: Product)
    requires p.sizes == []
    ensures EditForm(p).sizes == AddForm.sizes
  {
  }

  /** The request the form sends on submit. */
  datatype Request = Post | Patch(id: nat)

  /** Editing exactly when a product is given: PATCH to that product, otherwise POST. */
  function SubmitRequest(product: Option<nat>): (r: Request)
    ensures r.Patch? <==> product.Some?
    ensures r.Patch? ==> r.id == product.value
  {
    if product.Some? then Patch(product.value) else Post
  }

  /** A field's entry in the error body: a list of messages or a single value. */
  datatype ErrorValue = Messages(items: seq<string>) | Single(text: string)

  const FallbackError := "An error occurred."
  const NetworkError := "An unknown network error occurred."

  function ErrorText(v: ErrorValue): string {
    match v
    case Messages(items) => Join(items, ", ")
    case Single(t) => t
  }

  /** One "key: value" piece per field, in the body's key order. */
  function ErrorLines(body: seq<(string, ErrorValue)>): (r: seq<string>)
    ensures |r| == |body|
    ensures forall i :: 0 <= i < |body| ==> r[i] == body[i].0 + ": " + ErrorText(body[i].1)
  {
    seq(|body|, i requires 0 <= i < |body| => body[i].0 + ": " + ErrorText(body[i].1))
  }

  /**
   * The error shown after a failed save: the body's fields as "key: v1, v2"
   * joined by " | ", the fallback when the body has no field, and the network
   * message when there was no response body.
   */
  function ErrorMessage(body: Option<seq<(string, ErrorValue)>>): string {
    if body.None? then NetworkError
    else
      var messages := Join(ErrorLines(body.value), " | ");
      if messages == "" then FallbackError else messages
  }

  lemma {:induction false} JoinLength(xs: seq<string>, sep: string)
    requires |xs| > 0 && |xs[0]| > 0
    ensures |Join(xs, sep)| > 0
  {
  }

  /** The fallback appears exactly for a body without fields; otherwise the pieces are shown joined. */
  lemma ErrorMessageCases(body: seq<(string, ErrorValue)>)
    ensures body == [] ==> ErrorMessage(Some(body)) == FallbackError
    ensures body != [] ==> ErrorMessage(Some(body)) == Join(ErrorLines(body), " | ")
  {
    if body != [] {
      var lines := ErrorLines(body);
      assert |lines[0]| >= 2;
      JoinLength(lines, " | ");
    }
  }

  /** One field with two messages shows as "field: first, second". */
  lemma OneFieldTwoMessages(key: string, a: string, b: string)
    ensures ErrorMessage(Some([(key, Messages([a, b]))])) == key + ": " + a + ", " + b
  {
    var body := [(key, Messages([a, b]))];
    ErrorMessageCases(body);
    assert Join([b], ", ") == b;
    assert ErrorText(body[0].1) == a + ", " + b;
    assert ErrorLines(body)[0] == key + ": " + a + ", " + b;
    assert Join(ErrorLines(body), " | ") == ErrorLines(body)[0];
  }
}
