/** The checkout page: validation of the delivery form, the three dependent
    backend writes, the merchant message and clearing the cart on success. */
module Checkout {
  import opened Wrappers
  import opened Text

  // ---------------------------------------------------------------------------
  // The cart, as the checkout page sees it

  /** A cart line: product fields copied when it was added, plus a quantity. */
  datatype CartItem = CartItem(id: string, name: string, price: int, image_url: Option<string>, quantity: int)

  function LineTotal(item: CartItem): int
  {
    item.price * item.quantity
  }

  /** The sum of price times quantity over the cart lines. */
  function CartTotal(items: seq<CartItem>): (total: int)
    ensures (forall k :: 0 <= k < |items| ==> items[k].price >= 0 && items[k].quantity >= 0) ==> total >= 0
  {
    if items == [] then 0 else LineTotal(items[0]) + CartTotal(items[1..])
  }

  /** The cart context: its lines, the derived total and `clearCart`. */
  class Cart {
    var items: seq<CartItem>

    function Total(): int
      reads this
    {
      CartTotal(items)
    }

    constructor (items: seq<CartItem>)
      ensures this.items == items
    {
      this.items := items;
    }

    /** `clearCart()`. */
    method Clear()
      modifies this
      ensures items == [] && Total() == 0
    {
      items := [];
    }
  }

  // ---------------------------------------------------------------------------
  // Form, rows and events

  /** The delivery form; `notes` is optional. */
  datatype Form = Form(name: string, phone: string, address: string, notes: string)

  /** The guard of the submit handler: name, phone and address are all non-empty. */
  predicate FormComplete(form: Form)
  {
    form.name != "" && form.phone != "" && form.address != ""
  }

  datatype CustomerRow = CustomerRow(name: string, phone: string, address: string, notes: string)

  datatype OrderRow = OrderRow(
    customer_id: string,
    customer_name: string,
    customer_phone: string,
    customer_address: string,
    total: int,
    notes: string,
    status: string)

  datatype OrderItemRow = OrderItemRow(
    order_id: string,
    product_id: string,
    product_name: string,
    quantity: int,
    price: int)

  /** An insert request sent to the backend. */
  datatype Write =
    | InsertCustomer(customer: CustomerRow)
    | InsertOrder(order: OrderRow)
    | InsertItems(rows: seq<OrderItemRow>)

  /** What the backend answers to the three inserts: the id of the new customer
      row or a failure, the id of the new order row or a failure, and whether the
      item insert succeeded; and whether `encodeURIComponent` accepts the
      merchant message (it throws a URIError on a lone surrogate anywhere in the
      message, in a form field or a product name). */
  datatype Replies = Replies(customerId: Option<string>, orderId: Option<string>, itemsOk: bool, messageEncodes: bool)

  /** The observable effects of the submit handler, in the order they happen. */
  datatype Event =
    | ToastError(notice: Notice)
    | ToastSuccess(notice: Notice)
    | SetLoading(on: bool)
    | Send(write: Write)
    | OpenWhatsApp(text: string)
    | ClearCart
    | Navigate(path: string)

  /** The toasts the handler shows. */
  datatype Notice = MissingFields | OrderFailed | OrderPlaced

  /** The text each toast shows. */
  function NoticeText(n: Notice): string
  {
    match n
    case MissingFields => "Por favor completa todos los campos obligatorios"
    case OrderFailed => "Error al procesar el pedido"
    case OrderPlaced => "¡Pedido realizado con éxito!"
  }

  const PendingStatus := "pending"

  function CustomerRowOf(form: Form): CustomerRow
  {
    CustomerRow(form.name, form.phone, form.address, form.notes)
  }

  function OrderRowOf(form: Form, customerId: string, total: int): OrderRow
  {
    OrderRow(customerId, form.name, form.phone, form.address, total, form.notes, PendingStatus)
  }

  /** `orderItems`: one row per cart line, in cart order, each tied to the order. */
  function OrderItems(orderId: string, items: seq<CartItem>): (rows: seq<OrderItemRow>)
    ensures |rows| == |items|
    ensures forall k :: 0 <= k < |items| ==>
      rows[k] == OrderItemRow(orderId, items[k].id, items[k].name, items[k].quantity, items[k].price)
  {
    if items == [] then []
    else [OrderItemRow(orderId, items[0].id, items[0].name, items[0].quantity, items[0].price)] + OrderItems(orderId, items[1..])
  }

  /** The sum of price times quantity over item rows. */
  function RowsTotal(rows: seq<OrderItemRow>): int
  {
    if rows == [] then 0 else rows[0].price * rows[0].quantity + RowsTotal(rows[1..])
  }

  /** The item rows add up to the cart total that the order row records. */
  lemma {:induction false} OrderItemsAddUpToTotal(orderId: string, items: seq<CartItem>)
    ensures RowsTotal(OrderItems(orderId, items)) == CartTotal(items)
  {
    if items != [] {
      OrderItemsAddUpToTotal(orderId, items[1..]);
      assert OrderItems(orderId, items)[1..] == OrderItems(orderId, items[1..]);
    }
  }

  // ---------------------------------------------------------------------------
  // The merchant message

  /** One bullet line of the message; `fmt` is the locale formatting of an amount. */
  function ItemLine(item: CartItem, fmt: int -> string): string
  {
    "• " + IntToString(item.quantity) + "x " + item.name + " - $" + fmt(LineTotal(item))
  }

  /** A bullet starts with "• " followed by the quantity (whose digits read back
      to it when it is not negative), and ends with the formatted line total. */
  lemma ItemLineShape(item: CartItem, fmt: int -> string)
    ensures "• " + IntToString(item.quantity) <= ItemLine(item, fmt)
    ensures item.quantity >= 0 ==> ParseDigits(IntToString(item.quantity)) == item.quantity
    ensures EndsWith(ItemLine(item, fmt), " - $" + fmt(LineTotal(item)))
  {
    IntToStringRoundTrip(item.quantity);
    FivePieces("• ", IntToString(item.quantity), "x " + item.name, " - $", fmt(LineTotal(item)));
    assert "• " + IntToString(item.quantity) + ("x " + item.name) == "• " + IntToString(item.quantity) + "x " + item.name;
  }

  /** A concatenation of five pieces starts with the first two and ends with the last two. */
  lemma FivePieces(a: string, b: string, c: string, d: string, e: string)
    ensures a + b <= a + b + c + d + e
    ensures EndsWith(a + b + c + d + e, d + e)
  {
    var s := a + b + c + d + e;
    assert s == (a + b + c) + (d + e);
    assert s[|s| - |d + e|..] == d + e;
  }

  /** `items.map(...)`: the bullet lines, in cart order. */
  function ItemLines(items: seq<CartItem>, fmt: int -> string): seq<string>
  {
    seq(|items|, k requires 0 <= k < |items| => ItemLine(items[k], fmt))
  }

  function MessageHead(form: Form): string
  {
    "\U{1F525} *Nuevo Pedido - Los Nonos*\n\n" +
    "*Cliente:* " + form.name + "\n" +
    "*Teléfono:* " + form.phone + "\n" +
    "*Dirección:* " + form.address + "\n\n" +
    "*Pedido:*\n"
  }

  function TotalLine(total: int, fmt: int -> string): string
  {
    "\n\n*Total: $" + fmt(total) + "*"
  }

  const NotesHeading := "\n\n*Notas:* "

  /** The text of the message sent to the merchant. */
  function Message(form: Form, items: seq<CartItem>, total: int, fmt: int -> string): (m: string)
  {
    MessageHead(form) + Join(ItemLines(items, fmt), "\n") + TotalLine(total, fmt) +
    (if form.notes != "" then NotesHeading + form.notes else "")
  }

  /** The message carries one bullet line per cart line, each found in the text. */
  lemma MessageShape(form: Form, items: seq<CartItem>, total: int, fmt: int -> string, k: nat)
    requires k < |items|
    ensures |ItemLines(items, fmt)| == |items|
    ensures IsSubstring(ItemLine(items[k], fmt), Message(form, items, total, fmt))
  {
    var lines := ItemLines(items, fmt);
    var tail := TotalLine(total, fmt) + (if form.notes != "" then NotesHeading + form.notes else "");
    JoinContains(lines, "\n", k);
    var i: nat :| OccursAt(Join(lines, "\n"), lines[k], i);
    OccursInside(MessageHead(form), Join(lines, "\n"), tail, lines[k], i);
    assert MessageHead(form) + Join(lines, "\n") + tail == Message(form, items, total, fmt);
  }

  /** The bullets appear in cart order: the bullet of an earlier cart line ends
      before the bullet of a later one begins. */
  lemma MessageOrder(form: Form, items: seq<CartItem>, total: int, fmt: int -> string, j: nat, k: nat)
    requires j < k < |items|
    ensures exists p: nat, q: nat ::
      (OccursAt(Message(form, items, total, fmt), ItemLine(items[j], fmt), p) &&
       OccursAt(Message(form, items, total, fmt), ItemLine(items[k], fmt), q) &&
       p + |ItemLine(items[j], fmt)| <= q)
  {
    var lines := ItemLines(items, fmt);
    var tail := TotalLine(total, fmt) + (if form.notes != "" then NotesHeading + form.notes else "");
    JoinOrder(lines, "\n", j, k);
    var p: nat, q: nat :| OccursAt(Join(lines, "\n"), lines[j], p) && OccursAt(Join(lines, "\n"), lines[k], q) &&
      p + |lines[j]| <= q;
    OccursInside(MessageHead(form), Join(lines, "\n"), tail, lines[j], p);
    OccursInside(MessageHead(form), Join(lines, "\n"), tail, lines[k], q);
    assert MessageHead(form) + Join(lines, "\n") + tail == Message(form, items, total, fmt);
  }

  /** Whatever the cart holds, an empty one included, the message opens with the
      customer header; it ends with the notes section exactly when notes were
      given, and with the total line otherwise. */
  lemma MessageEnds(form: Form, items: seq<CartItem>, total: int, fmt: int -> string)
    ensures MessageHead(form) <= Message(form, items, total, fmt)
    ensures form.notes != "" ==> EndsWith(Message(form, items, total, fmt), NotesHeading + form.notes)
    ensures form.notes == "" ==> EndsWith(Message(form, items, total, fmt), TotalLine(total, fmt))
  {
    var m := Message(form, items, total, fmt);
    var body := MessageHead(form) + Join(ItemLines(items, fmt), "\n");
    assert m[..|MessageHead(form)|] == MessageHead(form);
    if form.notes != "" {
      assert m == body + TotalLine(total, fmt) + (NotesHeading + form.notes);
    } else {
      assert m == body + TotalLine(total, fmt);
    }
  }

  /** `s` ends with `suffix`. */
  predicate EndsWith(s: string, suffix: string)
  {
    |suffix| <= |s| && s[|s| - |suffix|..] == suffix
  }

  // ---------------------------------------------------------------------------
  // The submit handler, as a trace of events

  /** Every success condition of the handler: a complete form, three successful
      writes and a message that `encodeURIComponent` accepts. */
  predicate Succeeds(form: Form, replies: Replies)
  {
    FormComplete(form) && replies.customerId.Some? && replies.orderId.Some? && replies.itemsOk &&
    replies.messageEncodes
  }

  /** The `catch` block: the error toast. */
  function FailureTail(): seq<Event>
  {
    [ToastError(OrderFailed)]
  }

  /** The end of the `try` block once all three writes succeeded and the message was encoded. */
  function SuccessTail(form: Form, items: seq<CartItem>, total: int, fmt: int -> string): seq<Event>
  {
    [OpenWhatsApp(Message(form, items, total, fmt)), ToastSuccess(OrderPlaced), ClearCart, Navigate("/")]
  }

  /** The item insert, sent once the order id is known, and what follows it. */
  function ItemsStage(form: Form, items: seq<CartItem>, total: int, fmt: int -> string, orderId: string, itemsOk: bool, encodes: bool): seq<Event>
  {
    [Send(InsertItems(OrderItems(orderId, items)))] +
    (if itemsOk && encodes then SuccessTail(form, items, total, fmt) else FailureTail())
  }

  /** The order insert, sent once the customer id is known, and what follows it. */
  function OrderStage(form: Form, items: seq<CartItem>, total: int, fmt: int -> string, customerId: string, replies: Replies): seq<Event>
  {
    [Send(InsertOrder(OrderRowOf(form, customerId, total)))] +
    (if replies.orderId.None? then FailureTail()
     else ItemsStage(form, items, total, fmt, replies.orderId.value, replies.itemsOk, replies.messageEncodes))
  }

  /** The events of the `try` block: each write is sent only once the previous one
      has returned an id; the first failure ends in the error toast. */
  function AttemptTrace(form: Form, items: seq<CartItem>, total: int, fmt: int -> string, replies: Replies): seq<Event>
  {
    [Send(InsertCustomer(CustomerRowOf(form)))] +
    (if replies.customerId.None? then FailureTail()
     else OrderStage(form, items, total, fmt, replies.customerId.value, replies))
  }

  /** All events of one submission. */
  function SubmitTrace(form: Form, items: seq<CartItem>, total: int, fmt: int -> string, replies: Replies): (t: seq<Event>)
    ensures |t| > 0
    ensures FormComplete(form) ==> t[0] == SetLoading(true) && t[|t| - 1] == SetLoading(false)
  {
    if !FormComplete(form) then [ToastError(MissingFields)]
    else [SetLoading(true)] + AttemptTrace(form, items, total, fmt, replies) + [SetLoading(false)]
  }

  /** The writes sent, in order. */
  function Writes(trace: seq<Event>): seq<Write>
  {
    if trace == [] then [] else (if trace[0].Send? then [trace[0].write] else []) + Writes(trace[1..])
  }

  /** The values given to `setLoading`, in order. */
  function LoadingChanges(trace: seq<Event>): seq<bool>
  {
    if trace == [] then [] else (if trace[0].SetLoading? then [trace[0].on] else []) + LoadingChanges(trace[1..])
  }

  /** The toasts shown, in order. */
  function Toasts(trace: seq<Event>): seq<Notice>
  {
    if trace == [] then []
    else (if trace[0].ToastError? || trace[0].ToastSuccess? then [trace[0].notice] else []) + Toasts(trace[1..])
  }

  lemma {:induction false} WritesAppend(a: seq<Event>, b: seq<Event>)
    ensures Writes(a + b) == Writes(a) + Writes(b)
  {
    if a != [] {
      WritesAppend(a[1..], b);
      assert (a + b)[1..] == a[1..] + b;
    } else {
      assert a + b == b;
    }
  }

  lemma {:induction false} LoadingChangesAppend(a: seq<Event>, b: seq<Event>)
    ensures LoadingChanges(a + b) == LoadingChanges(a) + LoadingChanges(b)
  {
    if a != [] {
      LoadingChangesAppend(a[1..], b);
      assert (a + b)[1..] == a[1..] + b;
    } else {
      assert a + b == b;
    }
  }

  /** A trace without sends has no writes. */
  lemma {:induction false} NoSendsNoWrites(t: seq<Event>)
    requires forall k :: 0 <= k < |t| ==> !t[k].Send?
    ensures Writes(t) == []
  {
    if t != [] {
      assert forall k :: 0 <= k < |t[1..]| ==> !t[1..][k].Send? by {
        forall k | 0 <= k < |t[1..]| ensures !t[1..][k].Send? { assert t[1..][k] == t[k + 1]; }
      }
      NoSendsNoWrites(t[1..]);
    }
  }

  /** A trace that never sets the loading flag has no loading changes. */
  lemma {:induction false} NoLoadingEvents(t: seq<Event>)
    requires forall k :: 0 <= k < |t| ==> !t[k].SetLoading?
    ensures LoadingChanges(t) == []
  {
    if t != [] {
      assert forall k :: 0 <= k < |t[1..]| ==> !t[1..][k].SetLoading? by {
        forall k | 0 <= k < |t[1..]| ensures !t[1..][k].SetLoading? { assert t[1..][k] == t[k + 1]; }
      }
      NoLoadingEvents(t[1..]);
    }
  }

  /** The single write at the head of a stage, followed by a tail without writes. */
  lemma WritesOfStage(w: Write, tail: seq<Event>)
    ensures Writes([Send(w)] + tail) == [w] + Writes(tail)
  {
  }

  lemma {:induction false} ToastsAppend(a: seq<Event>, b: seq<Event>)
    ensures Toasts(a + b) == Toasts(a) + Toasts(b)
  {
    if a != [] {
      ToastsAppend(a[1..], b);
      assert (a + b)[1..] == a[1..] + b;
    } else {
      assert a + b == b;
    }
  }

  /** A write at the head of a stage shows no toast. */
  lemma ToastsOfStage(w: Write, tail: seq<Event>)
    ensures Toasts([Send(w)] + tail) == Toasts(tail)
  {
    assert ([Send(w)] + tail)[1..] == tail;
  }

  /** The `try` block ends in exactly one toast: success when all three writes
      succeeded and the message was encoded, the error toast otherwise. */
  lemma AttemptToasts(form: Form, items: seq<CartItem>, total: int, fmt: int -> string, replies: Replies)
    ensures Toasts(AttemptTrace(form, items, total, fmt, replies)) ==
      [if replies.customerId.Some? && replies.orderId.Some? && replies.itemsOk && replies.messageEncodes
       then OrderPlaced else OrderFailed]
  {
    var failed := FailureTail();
    assert Toasts(failed) == [OrderFailed];
    if replies.customerId.Some? {
      var cid := replies.customerId.value;
      if replies.orderId.Some? {
        var oid := replies.orderId.value;
        var tail := if replies.itemsOk && replies.messageEncodes then SuccessTail(form, items, total, fmt) else failed;
        var st := SuccessTail(form, items, total, fmt);
        assert st[1..][1..][1..] == [Navigate("/")] && Toasts([Navigate("/")]) == [];
        assert Toasts(st[1..][1..]) == [];
        assert Toasts(st) == [OrderPlaced];
        ToastsOfStage(InsertItems(OrderItems(oid, items)), tail);
      }
      var rest := if replies.orderId.None? then failed
                  else ItemsStage(form, items, total, fmt, replies.orderId.value, replies.itemsOk, replies.messageEncodes);
      ToastsOfStage(InsertOrder(OrderRowOf(form, cid, total)), rest);
    }
    var rest := if replies.customerId.None? then failed
                else OrderStage(form, items, total, fmt, replies.customerId.value, replies);
    ToastsOfStage(InsertCustomer(CustomerRowOf(form)), rest);
  }

  /** Every submission shows exactly one toast, with the source's text: the
      missing-fields warning for an incomplete form, the success toast when all
      three writes succeeded and the message was encoded, and the error toast
      otherwise. */
  lemma SubmitToasts(form: Form, items: seq<CartItem>, total: int, fmt: int -> string, replies: Replies)
    ensures |Toasts(SubmitTrace(form, items, total, fmt, replies))| == 1
    ensures NoticeText(Toasts(SubmitTrace(form, items, total, fmt, replies))[0]) ==
      if !FormComplete(form) then "Por favor completa todos los campos obligatorios"
      else if Succeeds(form, replies) then "¡Pedido realizado con éxito!"
      else "Error al procesar el pedido"
  {
    if FormComplete(form) {
      var a := AttemptTrace(form, items, total, fmt, replies);
      AttemptToasts(form, items, total, fmt, replies);
      ToastsAppend([SetLoading(true)] + a, [SetLoading(false)]);
      ToastsAppend([SetLoading(true)], a);
      assert Toasts([SetLoading(true)]) == [] && Toasts([SetLoading(false)]) == [];
    }
  }

  /** An incomplete form shows the error toast and does nothing else: no write, no
      loading state, no message, the cart kept. */
  lemma IncompleteFormHasNoEffect(form: Form, items: seq<CartItem>, total: int, fmt: int -> string, replies: Replies)
    requires !FormComplete(form)
    ensures Writes(SubmitTrace(form, items, total, fmt, replies)) == []
    ensures LoadingChanges(SubmitTrace(form, items, total, fmt, replies)) == []
    ensures ClearCart !in SubmitTrace(form, items, total, fmt, replies)
    ensures !Succeeds(form, replies)
  {
  }

  /** Notes are not part of the guard: a form may be submitted with empty notes. */
  lemma NotesAreOptional(form: Form, notes: string)
    ensures FormComplete(form.(notes := notes)) == FormComplete(form)
  {
  }

  /** The writes of a valid submission: first the customer row copied from the form;
      then, once the customer id is known, the order row referencing it, with status
      "pending" and the cart total; then, once the order id is known, one item row per
      cart line referencing the order. A write is sent only if every earlier one
      succeeded. */
  lemma WritesInOrder(form: Form, items: seq<CartItem>, total: int, fmt: int -> string, replies: Replies)
    requires FormComplete(form)
    ensures var w := Writes(SubmitTrace(form, items, total, fmt, replies));
      && |w| == (if replies.customerId.None? then 1 else if replies.orderId.None? then 2 else 3)
      && w[0] == InsertCustomer(CustomerRow(form.name, form.phone, form.address, form.notes))
      && (|w| >= 2 ==>
            w[1].InsertOrder? && w[1].order.customer_id == replies.customerId.value &&
            w[1].order.status == PendingStatus && w[1].order.total == total &&
            w[1].order.customer_name == form.name && w[1].order.customer_phone == form.phone &&
            w[1].order.customer_address == form.address && w[1].order.notes == form.notes)
      && (|w| == 3 ==>
            w[2].InsertItems? && |w[2].rows| == |items| &&
            (forall k :: 0 <= k < |items| ==> w[2].rows[k].order_id == replies.orderId.value))
  {
    TraceWrites(form, items, total, fmt, replies);
    AttemptWrites(form, items, total, fmt, replies);
  }

  /** The writes of the item stage: the item insert alone. */
  lemma ItemsStageWrites(form: Form, items: seq<CartItem>, total: int, fmt: int -> string, orderId: string, itemsOk: bool, encodes: bool)
    ensures Writes(ItemsStage(form, items, total, fmt, orderId, itemsOk, encodes)) == [InsertItems(OrderItems(orderId, items))]
  {
    var tail := if itemsOk && encodes then SuccessTail(form, items, total, fmt) else FailureTail();
    NoSendsNoWrites(tail);
    WritesOfStage(InsertItems(OrderItems(orderId, items)), tail);
  }

  /** The writes of the order stage: the order insert, then the item insert if an order id came back. */
  lemma OrderStageWrites(form: Form, items: seq<CartItem>, total: int, fmt: int -> string, customerId: string, replies: Replies)
    ensures Writes(OrderStage(form, items, total, fmt, customerId, replies)) ==
      [InsertOrder(OrderRowOf(form, customerId, total))] +
      (if replies.orderId.None? then [] else [InsertItems(OrderItems(replies.orderId.value, items))])
  {
    var tail := if replies.orderId.None? then FailureTail()
                else ItemsStage(form, items, total, fmt, replies.orderId.value, replies.itemsOk, replies.messageEncodes);
    if replies.orderId.None? {
      NoSendsNoWrites(tail);
    } else {
      ItemsStageWrites(form, items, total, fmt, replies.orderId.value, replies.itemsOk, replies.messageEncodes);
    }
    WritesOfStage(InsertOrder(OrderRowOf(form, customerId, total)), tail);
  }

  /** The writes of the `try` block. */
  lemma AttemptWrites(form: Form, items: seq<CartItem>, total: int, fmt: int -> string, replies: Replies)
    ensures Writes(AttemptTrace(form, items, total, fmt, replies)) ==
      [InsertCustomer(CustomerRowOf(form))] +
      (if replies.customerId.None? then []
       else [InsertOrder(OrderRowOf(form, replies.customerId.value, total))] +
            (if replies.orderId.None? then [] else [InsertItems(OrderItems(replies.orderId.value, items))]))
  {
    var tail := if replies.customerId.None? then FailureTail()
                else OrderStage(form, items, total, fmt, replies.customerId.value, replies);
    if replies.customerId.None? {
      NoSendsNoWrites(tail);
    } else {
      OrderStageWrites(form, items, total, fmt, replies.customerId.value, replies);
    }
    WritesOfStage(InsertCustomer(CustomerRowOf(form)), tail);
  }

  /** The loading events around the `try` block send nothing. */
  lemma BracketWrites(a: seq<Event>)
    ensures Writes([SetLoading(true)] + a + [SetLoading(false)]) == Writes(a)
  {
    WritesAppend([SetLoading(true)] + a, [SetLoading(false)]);
    WritesAppend([SetLoading(true)], a);
    assert Writes([SetLoading(true)]) == [] && Writes([SetLoading(false)]) == [];
  }

  /** A valid submission sends exactly the writes of its `try` block. */
  lemma TraceWrites(form: Form, items: seq<CartItem>, total: int, fmt: int -> string, replies: Replies)
    requires FormComplete(form)
    ensures Writes(SubmitTrace(form, items, total, fmt, replies)) ==
      Writes(AttemptTrace(form, items, total, fmt, replies))
  {
    BracketWrites(AttemptTrace(form, items, total, fmt, replies));
  }

  /** The cart is cleared, and the merchant message opened, exactly when the form is
      complete, all three writes succeeded and the message was encoded; the
      clearing comes after all three writes were sent. */
  lemma ClearOnlyAfterAllWrites(form: Form, items: seq<CartItem>, total: int, fmt: int -> string, replies: Replies)
    ensures ClearCart in SubmitTrace(form, items, total, fmt, replies) <==> Succeeds(form, replies)
    ensures OpenWhatsApp(Message(form, items, total, fmt)) in SubmitTrace(form, items, total, fmt, replies)
            <==> Succeeds(form, replies)
    ensures forall i :: 0 <= i < |SubmitTrace(form, items, total, fmt, replies)| ==>
      (SubmitTrace(form, items, total, fmt, replies)[i] == ClearCart ==>
         |Writes(SubmitTrace(form, items, total, fmt, replies)[..i])| == 3)
  {
    if Succeeds(form, replies) {
      var cid, oid := replies.customerId.value, replies.orderId.value;
      SuccessfulTrace(form, items, total, fmt, replies);
      ClearComesSeventh(SubmitTrace(form, items, total, fmt, replies),
        InsertCustomer(CustomerRowOf(form)), InsertOrder(OrderRowOf(form, cid, total)),
        InsertItems(OrderItems(oid, items)),
        OpenWhatsApp(Message(form, items, total, fmt)), ToastSuccess(OrderPlaced),
        [Navigate("/"), SetLoading(false)]);
    } else if FormComplete(form) {
      NotClearedUnlessSucceeded(form, items, total, fmt, replies);
    }
  }

  /** The complete trace of a successful submission. */
  lemma SuccessfulTrace(form: Form, items: seq<CartItem>, total: int, fmt: int -> string, replies: Replies)
    requires Succeeds(form, replies)
    ensures SubmitTrace(form, items, total, fmt, replies) ==
      [SetLoading(true),
       Send(InsertCustomer(CustomerRowOf(form))),
       Send(InsertOrder(OrderRowOf(form, replies.customerId.value, total))),
       Send(InsertItems(OrderItems(replies.orderId.value, items))),
       OpenWhatsApp(Message(form, items, total, fmt)), ToastSuccess(OrderPlaced),
       ClearCart, Navigate("/"), SetLoading(false)]
  {
    var c := Send(InsertCustomer(CustomerRowOf(form)));
    var o := Send(InsertOrder(OrderRowOf(form, replies.customerId.value, total)));
    var i := Send(InsertItems(OrderItems(replies.orderId.value, items)));
    var tail := SuccessTail(form, items, total, fmt);
    var itemsStage := ItemsStage(form, items, total, fmt, replies.orderId.value, replies.itemsOk, replies.messageEncodes);
    assert itemsStage == [i] + tail;
    var orderStage := OrderStage(form, items, total, fmt, replies.customerId.value, replies);
    assert orderStage == [o] + itemsStage;
    var attempt := AttemptTrace(form, items, total, fmt, replies);
    assert attempt == [c] + orderStage;
    assert [c] + ([o] + ([i] + tail)) == [c, o, i] + tail;
  }

  /** When all three writes succeed but `encodeURIComponent` rejects the message,
      the rows stay written, the error toast is shown instead of opening the
      message, and the cart is neither cleared nor left by navigation. */
  lemma UnencodableMessageFails(form: Form, items: seq<CartItem>, total: int, fmt: int -> string, replies: Replies)
    requires FormComplete(form) && replies.customerId.Some? && replies.orderId.Some? && replies.itemsOk
    requires !replies.messageEncodes
    ensures SubmitTrace(form, items, total, fmt, replies) ==
      [SetLoading(true),
       Send(InsertCustomer(CustomerRowOf(form))),
       Send(InsertOrder(OrderRowOf(form, replies.customerId.value, total))),
       Send(InsertItems(OrderItems(replies.orderId.value, items))),
       ToastError(OrderFailed), SetLoading(false)]
  {
    var c := Send(InsertCustomer(CustomerRowOf(form)));
    var o := Send(InsertOrder(OrderRowOf(form, replies.customerId.value, total)));
    var i := Send(InsertItems(OrderItems(replies.orderId.value, items)));
    var itemsStage := ItemsStage(form, items, total, fmt, replies.orderId.value, replies.itemsOk, replies.messageEncodes);
    assert itemsStage == [i] + FailureTail();
    var orderStage := OrderStage(form, items, total, fmt, replies.customerId.value, replies);
    assert orderStage == [o] + itemsStage;
    var attempt := AttemptTrace(form, items, total, fmt, replies);
    assert attempt == [c] + orderStage;
    assert [c] + ([o] + ([i] + FailureTail())) == [c, o, i, ToastError(OrderFailed)];
  }

  /** In a trace whose seventh event is the only `ClearCart`, preceded by exactly
      three sends, the clearing comes after three writes. */
  lemma ClearComesSeventh(t: seq<Event>, w1: Write, w2: Write, w3: Write, e4: Event, e5: Event, tail: seq<Event>)
    requires t == [SetLoading(true), Send(w1), Send(w2), Send(w3), e4, e5, ClearCart] + tail
    requires !e4.Send? && !e5.Send? && !e4.ClearCart? && !e5.ClearCart?
    requires ClearCart !in tail
    ensures forall i :: 0 <= i < |t| ==> (t[i] == ClearCart ==> |Writes(t[..i])| == 3)
  {
    var p := t[..6];
    assert p == [SetLoading(true), Send(w1), Send(w2), Send(w3), e4, e5];
    NoSendsNoWrites([e4, e5]);
    WritesOfStage(w3, [e4, e5]);
    WritesOfStage(w2, [Send(w3), e4, e5]);
    WritesOfStage(w1, [Send(w2), Send(w3), e4, e5]);
    assert p[1..] == [Send(w1), Send(w2), Send(w3), e4, e5];
    assert Writes(p) == [w1, w2, w3];
    assert forall i :: 7 <= i < |t| ==> t[i] == tail[i - 7];
  }

  /** A failed attempt neither clears the cart nor opens the message. */
  lemma NotClearedUnlessSucceeded(form: Form, items: seq<CartItem>, total: int, fmt: int -> string, replies: Replies)
    requires FormComplete(form) && !Succeeds(form, replies)
    ensures forall e :: e in SubmitTrace(form, items, total, fmt, replies) ==> !e.ClearCart? && !e.OpenWhatsApp?
  {
  }

  /** A valid submission sets the loading flag first and resets it last, on success
      and on failure alike, and touches it nowhere else. */
  lemma LoadingBracketsSubmission(form: Form, items: seq<CartItem>, total: int, fmt: int -> string, replies: Replies)
    requires FormComplete(form)
    ensures var t := SubmitTrace(form, items, total, fmt, replies);
      |t| >= 2 && t[0] == SetLoading(true) && t[|t| - 1] == SetLoading(false) &&
      LoadingChanges(t) == [true, false]
  {
    AttemptLeavesLoading(form, items, total, fmt, replies);
    LoadingBracket(AttemptTrace(form, items, total, fmt, replies));
  }

  /** The `try` block never changes the loading flag. */
  lemma AttemptLeavesLoading(form: Form, items: seq<CartItem>, total: int, fmt: int -> string, replies: Replies)
    ensures forall k :: 0 <= k < |AttemptTrace(form, items, total, fmt, replies)| ==>
      !AttemptTrace(form, items, total, fmt, replies)[k].SetLoading?
  {
  }

  /** Bracketing a trace that never changes the loading flag between setting and
      resetting it gives exactly those two changes. */
  lemma LoadingBracket(a: seq<Event>)
    requires forall k :: 0 <= k < |a| ==> !a[k].SetLoading?
    ensures var t := [SetLoading(true)] + a + [SetLoading(false)];
      |t| >= 2 && t[0] == SetLoading(true) && t[|t| - 1] == SetLoading(false) &&
      LoadingChanges(t) == [true, false]
  {
    LoadingChangesAppend([SetLoading(true)] + a, [SetLoading(false)]);
    LoadingChangesAppend([SetLoading(true)], a);
    assert LoadingChanges([SetLoading(true)]) == [true];
    assert LoadingChanges([SetLoading(false)]) == [false];
    NoLoadingEvents(a);
  }

  /** Appending two pieces one after the other is appending their concatenation. */
  lemma AppendTwo(s: seq<Event>, a: seq<Event>, b: seq<Event>)
    ensures s + a + b == s + (a + b)
  {
  }

  /** Appending three pieces one after the other is appending their concatenation. */
  lemma AppendThree(s: seq<Event>, a: seq<Event>, b: seq<Event>, c: seq<Event>)
    ensures s + a + b + c == s + (a + b + c)
  {
  }

  // ---------------------------------------------------------------------------
  // The page

  /** The checkout page: the cart it reads and clears, its loading flag, and the
      effects it has produced so far. */
  class CheckoutPage {
    const cart: Cart
    var loading: bool
    var events: seq<Event>

    constructor (cart: Cart)
      ensures this.cart == cart && !loading && events == []
    {
      this.cart := cart;
      loading := false;
      events := [];
    }

    /** `handleSubmit`. */
    method HandleSubmit(form: Form, replies: Replies, fmt: int -> string)
      modifies this, cart
      ensures events == old(events) + SubmitTrace(form, old(cart.items), old(cart.Total()), fmt, replies)
      ensures cart.items == if Succeeds(form, replies) then [] else old(cart.items)
      ensures loading == if FormComplete(form) then false else old(loading)
    {
      if form.name == "" || form.phone == "" || form.address == "" {
        events := events + [ToastError(MissingFields)];
        return;
      }
      var items, total := cart.items, cart.Total();
      ghost var start := events;
      loading := true;
      events := events + [SetLoading(true)];
      PlaceOrder(form, items, total, replies, fmt);
      loading := false;
      events := events + [SetLoading(false)];
      ghost var attempt := AttemptTrace(form, items, total, fmt, replies);
      AppendThree(start, [SetLoading(true)], attempt, [SetLoading(false)]);
    }

    /** The `try` block of `handleSubmit`: the three dependent inserts, then the
        merchant message and `clearCart`; the first failure goes to the `catch`. */
    method PlaceOrder(form: Form, items: seq<CartItem>, total: int, replies: Replies, fmt: int -> string)
      modifies this`events, cart
      ensures events == old(events) + AttemptTrace(form, items, total, fmt, replies)
      ensures cart.items ==
        if replies.customerId.Some? && replies.orderId.Some? && replies.itemsOk && replies.messageEncodes
        then [] else old(cart.items)
    {
      ghost var start := events;
      events := events + [Send(InsertCustomer(CustomerRowOf(form)))];
      ghost var afterCustomer := events;
      if replies.customerId.None? {
        events := events + [ToastError(OrderFailed)];
      } else {
        var customerId := replies.customerId.value;
        events := events + [Send(InsertOrder(OrderRowOf(form, customerId, total)))];
        ghost var afterOrder := events;
        if replies.orderId.None? {
          events := events + [ToastError(OrderFailed)];
        } else {
          var orderId := replies.orderId.value;
          var orderItems := OrderItems(orderId, items);
          events := events + [Send(InsertItems(orderItems))];
          if !replies.itemsOk {
            events := events + [ToastError(OrderFailed)];
            AppendTwo(afterOrder, [Send(InsertItems(orderItems))], FailureTail());
          } else if !replies.messageEncodes {
            // `encodeURIComponent(message)` throws: straight to the `catch`.
            events := events + [ToastError(OrderFailed)];
            AppendTwo(afterOrder, [Send(InsertItems(orderItems))], FailureTail());
          } else {
            var message := Message(form, items, total, fmt);
            events := events + [OpenWhatsApp(message), ToastSuccess(OrderPlaced)];
            cart.Clear();
            events := events + [ClearCart, Navigate("/")];
            AppendThree(afterOrder, [Send(InsertItems(orderItems))], [OpenWhatsApp(message), ToastSuccess(OrderPlaced)], [ClearCart, Navigate("/")]);
            assert [OpenWhatsApp(message), ToastSuccess(OrderPlaced)] + [ClearCart, Navigate("/")] == SuccessTail(form, items, total, fmt);
          }
        }
        ghost var rest := if replies.orderId.None? then FailureTail()
                          else ItemsStage(form, items, total, fmt, replies.orderId.value, replies.itemsOk, replies.messageEncodes);
        AppendTwo(afterCustomer, [Send(InsertOrder(OrderRowOf(form, customerId, total)))], rest);
      }
      ghost var rest := if replies.customerId.None? then FailureTail()
                        else OrderStage(form, items, total, fmt, replies.customerId.value, replies);
      AppendTwo(start, [Send(InsertCustomer(CustomerRowOf(form)))], rest);
    }
  }
}
