/** The checkout endpoint (api/checkout/route.ts): price the cart, insert the
    order and its item rows, then either hand off to WhatsApp or open a
    hosted-payment transaction. The session lookup, both database inserts and
    the payment gateway are external; their answers are parameters and the
    requests sent to them are recorded in a trace. */
module Checkout {
  import opened Common

  /** The signed-in user: id, email and the optional `full_name` metadata. */
  datatype User = User(id: string, email: string, fullName: Option<string>)

  /** One cart line as the client posts it. */
  datatype LineItem = LineItem(id: string, price: int, quantity: int)

  /** The JSON body `{ storeId, cartItems, domain, paymentMethod }`. */
  datatype Request = Request(storeId: string, cartItems: seq<LineItem>, domain: string, paymentMethod: string)

  /** The row sent to the `orders` table. */
  datatype OrderRow = OrderRow(storeId: string, userId: string, customerName: string,
                               customerEmail: string, totalAmount: int, status: string)

  /** The row the database hands back after the insert: the sent row plus its new id. */
  datatype SavedOrder = SavedOrder(id: string, row: OrderRow)

  /** The `orders` insert either yields the new id or an error message. */
  datatype OrderInsert = OrderInserted(id: string) | OrderInsertFailed(message: string)

  /** A row sent to the `order_items` table. */
  datatype OrderItemRow = OrderItemRow(orderId: string, productId: string, quantity: int, price: int)

  /** The body posted to the gateway's transaction-initialisation endpoint. */
  datatype GatewayRequest = GatewayRequest(email: string, amount: int, callbackUrl: string, orderId: string)

  /** The part of the gateway's answer the handler reads. */
  datatype GatewayReply = GatewayReply(status: bool, authorizationUrl: string)

  datatype Body =
    | ErrorBody(error: string)
    | WhatsAppBody(order: SavedOrder)
    | PaymentBody(order: SavedOrder, paymentUrl: string)

  datatype Response = Response(status: int, body: Body)

  /** Every request the handler sent out, in order. */
  datatype Trace = Trace(orderInserts: seq<OrderRow>, itemInserts: seq<seq<OrderItemRow>>,
                         gatewayCalls: seq<GatewayRequest>)

  datatype Outcome = Outcome(response: Response, trace: Trace)

  /** `cartItems.reduce((sum, item) => sum + item.price * item.quantity, 0)` */
  function OrderTotal(items: seq<LineItem>): (t: int)
    ensures NonNegativeLines(items) ==> t >= 0
  {
    if items == [] then 0 else items[0].price * items[0].quantity + OrderTotal(items[1..])
  }

  /** No line has a negative price or quantity. */
  predicate NonNegativeLines(items: seq<LineItem>)
  {
    forall i :: 0 <= i < |items| ==> items[i].price >= 0 && items[i].quantity >= 0
  }

  /** `user.user_metadata?.full_name || 'Valued Customer'`: absent or empty falls back. */
  function CustomerName(user: User): (name: string)
    ensures name != ""
    ensures user.fullName.Some? && user.fullName.value != "" ==> name == user.fullName.value
    ensures !(user.fullName.Some? && user.fullName.value != "") ==> name == "Valued Customer"
  {
    if user.fullName.Some? && user.fullName.value != "" then user.fullName.value else "Valued Customer"
  }

  /** The order row: the computed total and status `pending`. */
  function OrderRowFor(user: User, req: Request): (row: OrderRow)
    ensures row.storeId == req.storeId && row.userId == user.id && row.customerEmail == user.email
    ensures row.customerName != ""
    ensures row.customerName == CustomerName(user)
    ensures row.totalAmount == OrderTotal(req.cartItems) && row.status == "pending"
  {
    OrderRow(req.storeId, user.id, CustomerName(user), user.email, OrderTotal(req.cartItems), "pending")
  }

  /** `cartItems.map(item => ({ order_id, product_id: item.id, quantity, price }))` */
  function OrderItemRows(orderId: string, items: seq<LineItem>): (rows: seq<OrderItemRow>)
    ensures |rows| == |items|
    ensures forall i :: 0 <= i < |items| ==>
      rows[i] == OrderItemRow(orderId, items[i].id, items[i].quantity, items[i].price)
  {
    if items == [] then []
    else [OrderItemRow(orderId, items[0].id, items[0].quantity, items[0].price)] + OrderItemRows(orderId, items[1..])
  }

  /** Sum of price times quantity over item rows. */
  function RowsTotal(rows: seq<OrderItemRow>): int
  {
    if rows == [] then 0 else rows[0].price * rows[0].quantity + RowsTotal(rows[1..])
  }

  /** The order's total equals what its item rows add up to. */
  lemma {:induction false} RowsMatchTotal(orderId: string, items: seq<LineItem>)
    ensures RowsTotal(OrderItemRows(orderId, items)) == OrderTotal(items)
    ensures forall i :: 0 <= i < |items| ==> OrderItemRows(orderId, items)[i].orderId == orderId
  {
    if items != [] {
      RowsMatchTotal(orderId, items[1..]);
      assert OrderItemRows(orderId, items)[1..] == OrderItemRows(orderId, items[1..]);
    }
  }

  /** The total of a concatenation of carts is the sum of their totals. */
  lemma {:induction false} OrderTotalAppend(a: seq<LineItem>, b: seq<LineItem>)
    ensures OrderTotal(a + b) == OrderTotal(a) + OrderTotal(b)
  {
    if a == [] {
      assert a + b == b;
    } else {
      assert (a + b)[1..] == a[1..] + b;
      OrderTotalAppend(a[1..], b);
    }
  }

  /** `${origin}/${domain}/order-confirmation` */
  function CallbackUrl(origin: string, domain: string): string
  {
    origin + "/" + domain + "/order-confirmation"
  }

  /** The handler. `user` is the session lookup, `orderInsert` and
      `itemsInsertError` are what the two inserts answer, `reply` is what the
      gateway answers if it is called, and `origin` is the request's Origin
      header. */
  method Post(user: Option<User>, req: Request, origin: string, orderInsert: OrderInsert,
              itemsInsertError: Option<string>, reply: GatewayReply) returns (out: Outcome)
    // No session: 401 before anything is written or called.
    ensures user.None? ==> out == Outcome(Response(401, ErrorBody("Unauthorized")), Trace([], [], []))
    // With a session exactly one order row is inserted, priced at the cart total, pending.
    ensures user.Some? ==> out.trace.orderInserts == [OrderRowFor(user.value, req)]
    // A failed order insert: 500 with the database message, nothing else sent.
    ensures user.Some? && orderInsert.OrderInsertFailed? ==>
      out.response == Response(500, ErrorBody(orderInsert.message))
      && out.trace.itemInserts == [] && out.trace.gatewayCalls == []
    // Otherwise one batch of item rows, one per cart line, carrying the new order id.
    ensures user.Some? && orderInsert.OrderInserted? ==>
      out.trace.itemInserts == [OrderItemRows(orderInsert.id, req.cartItems)]
    // A failed item insert: 500, no gateway call, and the order row stays.
    ensures user.Some? && orderInsert.OrderInserted? && itemsInsertError.Some? ==>
      out.response == Response(500, ErrorBody("Failed to save order items")) && out.trace.gatewayCalls == []
    // WhatsApp checkout skips the gateway.
    ensures user.Some? && orderInsert.OrderInserted? && itemsInsertError.None? && req.paymentMethod == "whatsapp" ==>
      out.response == Response(200, WhatsAppBody(SavedOrder(orderInsert.id, OrderRowFor(user.value, req))))
      && out.trace.gatewayCalls == []
    // Any other method calls the gateway once with the amount in minor units.
    ensures user.Some? && orderInsert.OrderInserted? && itemsInsertError.None? && req.paymentMethod != "whatsapp" ==>
      && out.trace.gatewayCalls == [GatewayRequest(user.value.email, OrderTotal(req.cartItems) * 100,
                                                   CallbackUrl(origin, req.domain), orderInsert.id)]
      && out.response == if reply.status
                         then Response(200, PaymentBody(SavedOrder(orderInsert.id, OrderRowFor(user.value, req)), reply.authorizationUrl))
                         else Response(500, ErrorBody("Payment initialization failed"))
    // A 200 only ever follows a saved order and saved items.
    ensures out.response.status == 200 ==> user.Some? && orderInsert.OrderInserted? && itemsInsertError.None?
  {
    var trace := Trace([], [], []);

    // 1. The user
    if user.None? {
      return Outcome(Response(401, ErrorBody("Unauthorized")), trace);
    }
    var u := user.value;

    // 2. The total
    var totalAmount := OrderTotal(req.cartItems);

    // 3. The order
    var row := OrderRow(req.storeId, u.id, CustomerName(u), u.email, totalAmount, "pending");
    trace := trace.(orderInserts := trace.orderInserts + [row]);
    if orderInsert.OrderInsertFailed? {
      return Outcome(Response(500, ErrorBody(orderInsert.message)), trace);
    }
    var order := SavedOrder(orderInsert.id, row);

    // 4. The order items
    var orderItemsData := OrderItemRows(order.id, req.cartItems);
    trace := trace.(itemInserts := trace.itemInserts + [orderItemsData]);
    if itemsInsertError.Some? {
      return Outcome(Response(500, ErrorBody("Failed to save order items")), trace);
    }

    // 5. WhatsApp hand-off
    if req.paymentMethod == "whatsapp" {
      return Outcome(Response(200, WhatsAppBody(order)), trace);
    }

    // 6. The payment gateway
    var call := GatewayRequest(u.email, totalAmount * 100, CallbackUrl(origin, req.domain), order.id);
    trace := trace.(gatewayCalls := trace.gatewayCalls + [call]);
    if !reply.status {
      return Outcome(Response(500, ErrorBody("Payment initialization failed")), trace);
    }
    return Outcome(Response(200, PaymentBody(order, reply.authorizationUrl)), trace);
  }
}
