// The Order record (backend/models/Order.js) and the order routes
// (backend/routes/orderRoutes.js). The database collection is an in-memory
// sequence held by OrderStore; identifiers come from a counter and the
// creation time is a parameter (the clock is outside the model).

module Orders {
  import opened Wrappers
  import Sorting

  // ----- The schema -----

  /** The `paymentStatus` enum. */
  datatype PaymentStatus = Pending | Paid | Failed

  function StatusName(s: PaymentStatus): (r: string) {
    match s
    case Pending => "Pending"
    case Paid => "Paid"
    case Failed => "Failed"
  }

  /** The enum validator: only the three listed names are accepted. */
  function ParseStatus(name: string): (r: Option<PaymentStatus>)
    ensures r.Some? <==> name == "Pending" || name == "Paid" || name == "Failed"
    ensures r.Some? ==> StatusName(r.value) == name
  {
    if name == "Pending" then Some(Pending)
    else if name == "Paid" then Some(Paid)
    else if name == "Failed" then Some(Failed)
    else None
  }

  /** Every status survives the enum validator under its own name. */
  lemma StatusRoundTrip(s: PaymentStatus)
    ensures ParseStatus(StatusName(s)) == Some(s)
  {
  }

  const DefaultPaymentMethod: string := "M-Pesa"
  const DefaultPaymentStatus: PaymentStatus := Pending
  const DefaultAmount: int := 0

  /** One purchased product: name, quantity, unit price (whole KSH) and product reference. */
  datatype LineItem = LineItem(name: string, qty: int, price: int, product: string)

  datatype Order = Order(
    id: nat,
    customerName: string,
    email: string,
    phone: string,
    deliveryLocation: string,
    items: seq<LineItem>,
    totalAmount: int,
    deliveryFee: int,
    paymentMethod: string,
    paymentStatus: PaymentStatus,
    transactionId: Option<string>,
    createdAt: int,
    updatedAt: int)

  /** A line item as handed to the model: any field may be absent. */
  datatype LineItemDoc = LineItemDoc(name: Option<string>, qty: Option<int>, price: Option<int>, product: Option<string>)

  /** The fields handed to `new Order({...})`; absent ones take the schema default. */
  datatype OrderDoc = OrderDoc(
    customerName: Option<string>,
    email: Option<string>,
    phone: Option<string>,
    deliveryLocation: Option<string>,
    items: seq<LineItemDoc>,
    totalAmount: Option<int>,
    deliveryFee: Option<int>,
    paymentMethod: Option<string>,
    paymentStatus: Option<string>,
    transactionId: Option<string>)

  predicate ValidItem(d: LineItemDoc) {
    PresentText(d.name) && d.qty.Some? && d.price.Some? && PresentText(d.product)
  }

  /** What `order.save()` validates: the required fields, every line item, and the enum. */
  predicate ValidDoc(d: OrderDoc) {
    && PresentText(d.customerName) && PresentText(d.email)
    && PresentText(d.phone) && PresentText(d.deliveryLocation)
    && (forall k :: 0 <= k < |d.items| ==> ValidItem(d.items[k]))
    && (d.paymentStatus.None? || ParseStatus(d.paymentStatus.value).Some?)
  }

  function ToLineItem(d: LineItemDoc): (r: LineItem)
    requires ValidItem(d)
  {
    LineItem(d.name.value, d.qty.value, d.price.value, d.product.value)
  }

  /** Validating and saving a document: the stored record, with the schema defaults
      applied to the fields the document leaves out. */
  function Instantiate(d: OrderDoc, id: nat, now: int): (r: Result<Order, string>)
    ensures r.Ok? <==> ValidDoc(d)
    ensures r.Err? ==> r.error == "ValidationError"
    ensures r.Ok? ==>
      var o := r.value;
      && o.id == id && o.createdAt == now && o.updatedAt == now
      && o.customerName == d.customerName.value && o.email == d.email.value
      && o.phone == d.phone.value && o.deliveryLocation == d.deliveryLocation.value
      && |o.items| == |d.items|
      && (forall k :: 0 <= k < |o.items| ==>
            o.items[k] == LineItem(d.items[k].name.value, d.items[k].qty.value,
                                   d.items[k].price.value, d.items[k].product.value))
      && o.totalAmount == d.totalAmount.GetOr(DefaultAmount)
      && o.deliveryFee == d.deliveryFee.GetOr(DefaultAmount)
      && o.paymentMethod == d.paymentMethod.GetOr(DefaultPaymentMethod)
      && o.paymentStatus == (if d.paymentStatus.None? then DefaultPaymentStatus
                             else ParseStatus(d.paymentStatus.value).value)
      && o.transactionId == d.transactionId
  {
    if !ValidDoc(d) then Err("ValidationError")
    else
      var status := if d.paymentStatus.None? then DefaultPaymentStatus
                    else ParseStatus(d.paymentStatus.value).value;
      Ok(Order(id, d.customerName.value, d.email.value, d.phone.value, d.deliveryLocation.value,
               seq(|d.items|, k requires 0 <= k < |d.items| => ToLineItem(d.items[k])),
               d.totalAmount.GetOr(DefaultAmount), d.deliveryFee.GetOr(DefaultAmount),
               d.paymentMethod.GetOr(DefaultPaymentMethod), status, d.transactionId, now, now))
  }

  /** A document that names no status is stored as Pending. */
  lemma DefaultStatusIsPending(d: OrderDoc, id: nat, now: int)
    requires ValidDoc(d) && d.paymentStatus.None?
    ensures Instantiate(d, id, now).Ok? && Instantiate(d, id, now).value.paymentStatus == Pending
  {
  }

  // ----- The intended payment lifecycle -----

  /** The transitions the enum and its default are meant for: Pending -> Paid and Pending -> Failed. */
  predicate CanTransition(from: PaymentStatus, to: PaymentStatus) {
    from == Pending && (to == Paid || to == Failed)
  }

  /** Paid and Failed are terminal, and a status settles at most once. */
  lemma TransitionsSettleOnce(a: PaymentStatus, b: PaymentStatus, c: PaymentStatus)
    ensures CanTransition(a, b) ==> !CanTransition(b, c)
    ensures !CanTransition(Paid, c) && !CanTransition(Failed, c)
    ensures CanTransition(a, b) <==> a == Pending && b != Pending
  {
  }

  // ----- POST / -----

  /** The request body of POST /api/orders; every field may be missing. */
  datatype OrderRequest = OrderRequest(
    customerName: Option<string>,
    email: Option<string>,
    phone: Option<string>,
    deliveryLocation: Option<string>,
    items: Option<seq<LineItemDoc>>,
    totalAmount: Option<int>,
    deliveryFee: Option<int>,
    transactionId: Option<string>,
    paymentMethod: Option<string>,
    paymentStatus: Option<string>)

  datatype Body = OrderBody(order: Order) | OrdersBody(orders: seq<Order>) | Message(text: string)

  datatype Response = Response(status: int, body: Body)

  /** The two e-mails sent once a paid order is stored. */
  datatype Notification = AdminNotification(order: Order) | ClientThankYou(order: Order)

  /** The handler destructures only eight fields and forces the status to Paid. */
  function OrderDocFor(req: OrderRequest): (d: OrderDoc)
    requires req.items.Some?
    ensures d.customerName == req.customerName && d.email == req.email && d.phone == req.phone
    ensures d.deliveryLocation == req.deliveryLocation && d.items == req.items.value
    ensures d.totalAmount == req.totalAmount && d.deliveryFee == req.deliveryFee
    ensures d.transactionId == req.transactionId
    ensures d.paymentMethod == None && d.paymentStatus == Some("Paid")
  {
    OrderDoc(req.customerName, req.email, req.phone, req.deliveryLocation, req.items.value,
             req.totalAmount, req.deliveryFee, None, Some("Paid"), req.transactionId)
  }

  predicate HasItems(req: OrderRequest) {
    req.items.Some? && |req.items.value| > 0
  }

  /** A created order copies the eight destructured fields, is Paid whatever the
      request says, and carries the default payment method. */
  lemma CreatedOrderCopiesRequest(req: OrderRequest, id: nat, now: int)
    requires HasItems(req)
    ensures var r := Instantiate(OrderDocFor(req), id, now);
      && (r.Ok? <==>
            && PresentText(req.customerName) && PresentText(req.email)
            && PresentText(req.phone) && PresentText(req.deliveryLocation)
            && forall k :: 0 <= k < |req.items.value| ==> ValidItem(req.items.value[k]))
      && (r.Ok? ==>
            && r.value.customerName == req.customerName.value
            && r.value.email == req.email.value
            && r.value.phone == req.phone.value
            && r.value.deliveryLocation == req.deliveryLocation.value
            && |r.value.items| == |req.items.value|
            && (forall k :: 0 <= k < |req.items.value| ==> r.value.items[k] == ToLineItem(req.items.value[k]))
            && r.value.totalAmount == req.totalAmount.GetOr(0)
            && r.value.deliveryFee == req.deliveryFee.GetOr(0)
            && r.value.transactionId == req.transactionId
            && r.value.paymentStatus == Paid
            && r.value.paymentMethod == "M-Pesa")
  {
    assert ParseStatus("Paid") == Some(Paid);
  }

  /** An order created by POST / is already settled: no lifecycle transition is left for it. */
  lemma CreatedOrderIsSettled(req: OrderRequest, id: nat, now: int, to: PaymentStatus)
    requires HasItems(req)
    requires Instantiate(OrderDocFor(req), id, now).Ok?
    ensures !CanTransition(Instantiate(OrderDocFor(req), id, now).value.paymentStatus, to)
  {
    CreatedOrderCopiesRequest(req, id, now);
  }

  // ----- GET / ordering -----

  /** Newest first: `.sort({ createdAt: -1 })`. */
  predicate NewerOrSame(a: Order, b: Order) {
    a.createdAt >= b.createdAt
  }

  lemma NewerOrSameIsTotalPreorder()
    ensures Sorting.TotalPreorder(NewerOrSame)
  {
  }

  /** First order with the given id. */
  function FindById(s: seq<Order>, id: nat): (r: Option<Order>)
    ensures r.Some? ==> r.value in s && r.value.id == id
    ensures r.None? <==> forall k :: 0 <= k < |s| ==> s[k].id != id
  {
    if s == [] then None
    else if s[0].id == id then Some(s[0])
    else FindById(s[1..], id)
  }

  /** The orders collection. */
  class OrderStore {
    var orders: seq<Order>
    var nextId: nat

    /** Identifiers are unique: strictly increasing in store order and below the counter. */
    ghost predicate Valid()
      reads this
    {
      && (forall i, j :: 0 <= i < j < |orders| ==> orders[i].id < orders[j].id)
      && (forall i :: 0 <= i < |orders| ==> orders[i].id < nextId)
    }

    constructor ()
      ensures Valid() && orders == [] && nextId == 0
    {
      orders := [];
      nextId := 0;
    }

    /** POST /api/orders. */
    method CreateOrder(req: OrderRequest, now: int) returns (resp: Response, sent: seq<Notification>)
      requires Valid()
      modifies this
      ensures Valid()
      ensures !HasItems(req) ==>
        && resp == Response(400, Message("No items in cart"))
        && orders == old(orders) && nextId == old(nextId) && sent == []
      ensures HasItems(req) ==>
        match Instantiate(OrderDocFor(req), old(nextId), now)
        case Ok(o) =>
          && orders == old(orders) + [o] && nextId == old(nextId) + 1
          && resp == Response(201, OrderBody(o))
          && o.paymentStatus == Paid
          && sent == [AdminNotification(o), ClientThankYou(o)]
        case Err(_) =>
          && orders == old(orders) && nextId == old(nextId)
          && resp == Response(500, Message("Server Error: Could not create order"))
          && sent == []
    {
      if req.items.None? || |req.items.value| == 0 {
        return Response(400, Message("No items in cart")), [];
      }
      var saved := Instantiate(OrderDocFor(req), nextId, now);
      if saved.Err? {
        return Response(500, Message("Server Error: Could not create order")), [];
      }
      var createdOrder := saved.value;
      CreatedOrderCopiesRequest(req, nextId, now);
      orders := orders + [createdOrder];
      nextId := nextId + 1;
      sent := [];
      if createdOrder.paymentStatus == Paid {
        // Both senders catch their own errors, so the second is always attempted.
        sent := sent + [AdminNotification(createdOrder)];
        sent := sent + [ClientThankYou(createdOrder)];
      }
      resp := Response(201, OrderBody(createdOrder));
    }

    /** GET /api/orders: every stored order, newest first. */
    function ListOrders(): (r: seq<Order>)
      reads this
      ensures Sorting.SortedBy(r, NewerOrSame)
      ensures multiset(r) == multiset(orders)
    {
      NewerOrSameIsTotalPreorder();
      Sorting.SortBySorted(orders, NewerOrSame);
      Sorting.SortBy(orders, NewerOrSame)
    }

    /** GET /api/orders/:id. */
    function GetOrderById(id: nat): (r: Response)
      reads this
      ensures r.status == 200 || r.status == 404
      ensures r.status == 200 <==> exists k :: 0 <= k < |orders| && orders[k].id == id
      ensures r.status == 200 ==> r.body.OrderBody? && r.body.order in orders && r.body.order.id == id
      ensures r.status == 404 ==> r.body == Message("Order not found")
    {
      match FindById(orders, id)
      case Some(o) => Response(200, OrderBody(o))
      case None => Response(404, Message("Order not found"))
    }

    /** With unique identifiers, the order GET /:id returns is the only one with that id. */
    lemma GetOrderByIdUnique(id: nat, k: nat)
      requires Valid()
      requires k < |orders| && orders[k].id == id
      ensures GetOrderById(id) == Response(200, OrderBody(orders[k]))
    {
      var r := GetOrderById(id);
      var j :| 0 <= j < |orders| && orders[j] == r.body.order;
      assert !(j < k) && !(k < j);
    }
  }
}
