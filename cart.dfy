// The storefront's client script (public/script.js): the cart kept in the
// browser, the checkout totals, the M-Pesa payment flow as the client drives
// it, the order it sends, the featured-products filter and the shop title.
// The browser's localStorage entry is the field of CartStorage; page elements
// and form inputs are parameters; prices are whole KSH amounts.

module Cart {
  import opened Wrappers
  import opened Text
  import Orders
  import Mpesa
  import Catalog

  // ----- Messages -----

  /** The `type` argument of showMessage. */
  datatype MessageKind = Success | Failure | Info

  /** A notification box: its text and kind. */
  datatype Toast = Toast(text: string, kind: MessageKind)

  const ProductDetailsError: string := "Error retrieving product details."
  const EmptyCartMessage: string := "Your cart is empty. Please add items before checking out."
  const RequiredFieldsMessage: string := "Please fill in all required fields."
  const OrderConfirmedMessage: string := "Order created and payment confirmed! Check your email for details."
  const PaymentServerError: string := "A server error occurred during M-Pesa processing."
  const PaymentFailedPrefix: string := "Payment failed or cancelled. "
  const UnknownPaymentError: string := "An unknown error occurred."

  // ----- The cart -----

  /** One cart entry: `{ _id, name, price, image, qty }`; `image` is absent when the
      button carried no image attribute. */
  datatype CartItem = CartItem(id: string, name: string, price: int, image: Option<string>, qty: int)

  /** What add-to-cart ever stores: an id and a name, and quantity one. */
  predicate WellFormedCart(cart: seq<CartItem>) {
    forall k :: 0 <= k < |cart| ==> cart[k].id != "" && cart[k].name != "" && cart[k].qty == 1
  }

  /** `cart.reduce((sum, item) => sum + item.price, 0)`: prices summed from the left. */
  function CartTotal(cart: seq<CartItem>): (r: int)
    ensures (forall k :: 0 <= k < |cart| ==> cart[k].price >= 0) ==> r >= 0
  {
    if cart == [] then 0
    else
      var init := cart[..|cart| - 1];
      assert forall k :: 0 <= k < |init| ==> init[k] == cart[k];
      CartTotal(init) + cart[|cart| - 1].price
  }

  lemma CartTotalAppend(cart: seq<CartItem>, x: CartItem)
    ensures CartTotal(cart + [x]) == CartTotal(cart) + x.price
  {
    assert (cart + [x])[..|cart|] == cart;
  }

  lemma {:induction false} CartTotalConcat(a: seq<CartItem>, b: seq<CartItem>)
    ensures CartTotal(a + b) == CartTotal(a) + CartTotal(b)
    decreases |b|
  {
    if b == [] {
      assert a + b == a;
    } else {
      var b' := b[..|b| - 1];
      CartTotalConcat(a, b');
      assert (a + b)[..|a + b| - 1] == a + b';
    }
  }

  /** The total reads prices only: quantities, names and images do not matter. */
  lemma {:induction false} CartTotalIgnoresQuantity(a: seq<CartItem>, b: seq<CartItem>)
    requires |a| == |b|
    requires forall k :: 0 <= k < |a| ==> a[k].price == b[k].price
    ensures CartTotal(a) == CartTotal(b)
  {
    if a != [] {
      CartTotalIgnoresQuantity(a[..|a| - 1], b[..|b| - 1]);
    }
  }

  /** The relative start of `splice(start, 1)`: a negative start counts from the end,
      and the start is clamped to the array. */
  function SpliceStart(len: nat, start: int): (k: nat)
    ensures k <= len
    ensures 0 <= start <= len ==> k == start
    ensures -(len as int) <= start < 0 ==> k == len + start
    ensures start < -(len as int) ==> k == 0
    ensures start > len ==> k == len
  {
    if start < 0 then (if len + start < 0 then 0 else len + start)
    else if start > len then len
    else start
  }

  /** `a.splice(start, 1)` on a copy: the element at the relative start goes, nothing
      else moves out of order; a start at or past the end removes nothing. */
  function RemoveAt(s: seq<CartItem>, start: int): (r: seq<CartItem>)
    ensures SpliceStart(|s|, start) == |s| ==> r == s
    ensures SpliceStart(|s|, start) < |s| ==>
      && |r| == |s| - 1
      && (forall j :: 0 <= j < SpliceStart(|s|, start) ==> r[j] == s[j])
      && (forall j :: SpliceStart(|s|, start) <= j < |r| ==> r[j] == s[j + 1])
  {
    var k := SpliceStart(|s|, start);
    if k < |s| then s[..k] + s[k + 1..] else s
  }

  /** Removing the entry at a displayed index takes exactly its price off the total and
      exactly that entry out of the cart. */
  lemma RemoveAtIndex(s: seq<CartItem>, i: int)
    requires 0 <= i < |s|
    ensures |RemoveAt(s, i)| == |s| - 1
    ensures multiset(RemoveAt(s, i)) + multiset{s[i]} == multiset(s)
    ensures CartTotal(RemoveAt(s, i)) == CartTotal(s) - s[i].price
  {
    assert s == s[..i] + [s[i]] + s[i + 1..];
    assert RemoveAt(s, i) == s[..i] + s[i + 1..];
    CartTotalConcat(s[..i], s[i + 1..]);
    CartTotalConcat(s[..i] + [s[i]], s[i + 1..]);
    CartTotalAppend(s[..i], s[i]);
  }

  /** The `olmarithiCart` entry of localStorage; getCart reads it ([] when absent) and
      updateCart writes it. */
  class CartStorage {
    var items: seq<CartItem>

    ghost predicate Valid()
      reads this
    {
      WellFormedCart(items)
    }

    constructor ()
      ensures Valid() && items == []
    {
      items := [];
    }

    /** The add-to-cart click handler. The price is `parseFloat` of the button's
        attribute: None stands for NaN; a missing id or name is None or "". */
    method AddToCart(productId: Option<string>, productName: Option<string>,
                     productPrice: Option<int>, productImage: Option<string>) returns (toast: Toast)
      requires Valid()
      modifies this
      ensures Valid()
      ensures Addable(productId, productName, productPrice) ==>
        && items == old(items) + [CartItem(productId.value, productName.value, productPrice.value, productImage, 1)]
        && toast == Toast(productName.value + " added to cart!", Success)
      ensures !Addable(productId, productName, productPrice) ==>
        items == old(items) && toast == Toast(ProductDetailsError, Failure)
    {
      if productId.None? || productId.value == "" || productName.None? || productName.value == ""
         || productPrice.None? {
        return Toast(ProductDetailsError, Failure);
      }
      items := items + [CartItem(productId.value, productName.value, productPrice.value, productImage, 1)];
      toast := Toast(productName.value + " added to cart!", Success);
    }

    /** The remove button of the entry at `index` (its `data-index`, parsed). */
    method RemoveFromCart(index: int) returns (toast: Toast)
      requires Valid()
      modifies this
      ensures Valid()
      ensures items == RemoveAt(old(items), index)
      ensures toast == Toast("Item removed from cart.", Info)
    {
      items := RemoveAt(items, index);
      toast := Toast("Item removed from cart.", Info);
    }

    /** handleSuccessfulCheckout removes the stored cart; getCart then answers []. */
    method ClearCart()
      modifies this
      ensures Valid() && items == []
    {
      items := [];
    }
  }

  /** The add-to-cart guard: an id, a name and a price that is a number. */
  predicate Addable(productId: Option<string>, productName: Option<string>, productPrice: Option<int>) {
    productId.Some? && productId.value != "" && productName.Some? && productName.value != ""
    && productPrice.Some?
  }

  /** Adding raises the total by the product's price. */
  lemma AddRaisesTotal(cart: seq<CartItem>, id: string, name: string, price: int, image: Option<string>)
    ensures CartTotal(cart + [CartItem(id, name, price, image, 1)]) == CartTotal(cart) + price
  {
    CartTotalAppend(cart, CartItem(id, name, price, image, 1));
  }

  /** renderCart's subtotal: None when the cart is empty (the page says so instead),
      otherwise the `subtotal += item.price` loop's result. */
  method RenderSubtotal(cart: seq<CartItem>) returns (subtotal: Option<int>)
    ensures cart == [] ==> subtotal == None
    ensures cart != [] ==> subtotal == Some(CartTotal(cart))
  {
    if |cart| == 0 {
      return None;
    }
    var sum := 0;
    var i := 0;
    while i < |cart|
      invariant 0 <= i <= |cart|
      invariant sum == CartTotal(cart[..i])
    {
      assert cart[..i + 1][..i] == cart[..i];
      sum := sum + cart[i].price;
      i := i + 1;
    }
    assert cart[..i] == cart;
    subtotal := Some(sum);
  }

  /** proceedToCheckout: an error message for an empty cart, otherwise None and the
      browser goes to the checkout page. */
  function ProceedToCheckout(cart: seq<CartItem>): (r: Option<Toast>)
    ensures r.None? <==> |cart| > 0
    ensures r.Some? ==> r.value == Toast(EmptyCartMessage, Failure)
  {
    if |cart| == 0 then Some(Toast(EmptyCartMessage, Failure)) else None
  }

  // ----- Checkout totals -----

  const OutsideNairobiDeliveryFee: int := 500

  /** The delivery fee for the selected location: 500 for "outside", nothing otherwise. */
  function DeliveryFee(location: string): (r: int)
    ensures r == OutsideNairobiDeliveryFee <==> location == "outside"
    ensures r == 0 <==> location != "outside"
  {
    if location == "outside" then OutsideNairobiDeliveryFee else 0
  }

  /** The location read by updateOrderSummary: the select's value, "nairobi" when the
      page has no select. */
  function SelectedLocation(select: Option<string>): (r: string)
    ensures select.Some? ==> r == select.value
    ensures select.None? ==> r == "nairobi"
  {
    select.GetOr("nairobi")
  }

  /** What updateOrderSummary returns. */
  datatype Summary = Summary(baseCartTotal: int, currentDeliveryFee: int, grandTotal: int)

  /** The checkout form's data handed to the payment handler. */
  datatype OrderData = OrderData(customerName: string, email: string, phone: string,
                                 deliveryAddress: string, totalAmount: int, deliveryFee: int)

  /** The customer name: the trimmed text before the first comma of the address, or
      "Customer" when that is empty. */
  function CustomerName(address: string): (r: string)
    ensures r != ""
    ensures ',' !in r
  {
    var first := Split(address, ',')[0];
    var t := Trim(first);
    if t == "" then "Customer"
    else
      var a := |first| - |TrimStart(first)|;
      assert forall j :: 0 <= j < |t| ==> t[j] == first[a + j];
      t
  }

  /** The name is the text before the first comma, trimmed, when that is not blank. */
  lemma CustomerNameIsFirstPart(address: string)
    ensures var first := if ',' in address then address[..IndexOf(address, ',')] else address;
            CustomerName(address) == if Trim(first) == "" then "Customer" else Trim(first)
  {
    FirstPiece(address, ',');
  }

  /** The submit handler's outcome for a cart, the location select and the three
      inputs: the required-field error, or the order data with the summary's totals. */
  function CheckoutData(cart: seq<CartItem>, select: Option<string>, email: string,
                        phoneNumber: string, deliveryAddress: string): (r: Result<OrderData, Toast>)
    ensures r.Err? <==> email == "" || phoneNumber == "" || deliveryAddress == ""
    ensures r.Err? ==> r.error == Toast(RequiredFieldsMessage, Failure)
    ensures r.Ok? ==>
      && r.value.totalAmount == CartTotal(cart) + DeliveryFee(SelectedLocation(select))
      && r.value.deliveryFee == DeliveryFee(SelectedLocation(select))
      && r.value.email == email && r.value.phone == phoneNumber
      && r.value.deliveryAddress == deliveryAddress
      && r.value.customerName == CustomerName(deliveryAddress)
  {
    if email == "" || phoneNumber == "" || deliveryAddress == "" then
      Err(Toast(RequiredFieldsMessage, Failure))
    else
      var fee := DeliveryFee(SelectedLocation(select));
      Ok(OrderData(CustomerName(deliveryAddress), email, phoneNumber, deliveryAddress,
                   CartTotal(cart) + fee, fee))
  }

  lemma CheckoutDataOfFilledForm(cart: seq<CartItem>, select: Option<string>, email: string,
                                 phoneNumber: string, deliveryAddress: string)
    requires email != "" && phoneNumber != "" && deliveryAddress != ""
    ensures var fee := DeliveryFee(SelectedLocation(select));
      CheckoutData(cart, select, email, phoneNumber, deliveryAddress)
        == Ok(OrderData(CustomerName(deliveryAddress), email, phoneNumber, deliveryAddress,
                        CartTotal(cart) + fee, fee))
  {
  }

  /** A 1000 KSH cart delivered outside Nairobi is charged 1500, of which 500 is delivery. */
  lemma OutsideNairobiCheckout(cart: seq<CartItem>, email: string, phone: string, address: string)
    requires CartTotal(cart) == 1000
    requires email != "" && phone != "" && address != ""
    ensures CheckoutData(cart, Some("outside"), email, phone, address).Ok?
    ensures CheckoutData(cart, Some("outside"), email, phone, address).value.totalAmount == 1500
    ensures CheckoutData(cart, Some("outside"), email, phone, address).value.deliveryFee == 500
  {
  }

  /** The checkout page: the cart read on load, its total, and the fee last computed. */
  class CheckoutPage {
    const cart: seq<CartItem>
    const baseCartTotal: int
    var currentDeliveryFee: int

    constructor (cart: seq<CartItem>)
      ensures this.cart == cart && baseCartTotal == CartTotal(cart) && currentDeliveryFee == 0
    {
      this.cart := cart;
      baseCartTotal := CartTotal(cart);
      currentDeliveryFee := 0;
    }

    /** The redirect test on load as written: a zero subtotal while no confirmation is
        showing, which also holds for a cart of items priced 0. */
    function ShouldRedirectAsWritten(confirmationHidden: bool): (r: bool)
      reads this
      requires baseCartTotal == CartTotal(cart)
      ensures r ==> CartTotal(cart) == 0 && confirmationHidden
      ensures cart == [] && confirmationHidden ==> r
      ensures CartTotal(cart) == 0 && confirmationHidden ==> r
      ensures ((forall k :: 0 <= k < |cart| ==> cart[k].price >= 0)
               && (exists k :: 0 <= k < |cart| && cart[k].price > 0)) ==> !r
    {
      PricedCartHasPositiveTotal(cart);
      baseCartTotal == 0 && confirmationHidden
    }

    /** The redirect the page's comment and message describe: an empty cart while no
        confirmation is showing. */
    function ShouldRedirect(confirmationHidden: bool): (r: bool)
      reads this
      requires baseCartTotal == CartTotal(cart)
      ensures r ==> cart == [] && confirmationHidden
      ensures r ==> ShouldRedirectAsWritten(confirmationHidden)
      ensures (forall k :: 0 <= k < |cart| ==> cart[k].price > 0) ==> r == ShouldRedirectAsWritten(confirmationHidden)
    {
      RedirectsAgreeOnPricedCarts(cart);
      cart == [] && confirmationHidden
    }

    /** updateOrderSummary: recomputes the fee from the select and returns the totals. */
    method UpdateOrderSummary(select: Option<string>) returns (s: Summary)
      modifies this`currentDeliveryFee
      ensures currentDeliveryFee == DeliveryFee(SelectedLocation(select))
      ensures s == Summary(baseCartTotal, currentDeliveryFee, baseCartTotal + currentDeliveryFee)
    {
      var location := SelectedLocation(select);
      if location == "outside" {
        currentDeliveryFee := OutsideNairobiDeliveryFee;
      } else {
        currentDeliveryFee := 0;
      }
      var grandTotal := baseCartTotal + currentDeliveryFee;
      s := Summary(baseCartTotal, currentDeliveryFee, grandTotal);
    }

    /** The submit handler up to the payment call: the summary first, then the
        required-field check. */
    method Submit(select: Option<string>, email: string, phoneNumber: string, deliveryAddress: string)
      returns (r: Result<OrderData, Toast>)
      requires baseCartTotal == CartTotal(cart)
      modifies this`currentDeliveryFee
      ensures currentDeliveryFee == DeliveryFee(SelectedLocation(select))
      ensures r == CheckoutData(cart, select, email, phoneNumber, deliveryAddress)
    {
      var summary := UpdateOrderSummary(select);
      var customerName := CustomerName(deliveryAddress);
      if email == "" || phoneNumber == "" || deliveryAddress == "" {
        return Err(Toast(RequiredFieldsMessage, Failure));
      }
      CheckoutDataOfFilledForm(cart, select, email, phoneNumber, deliveryAddress);
      r := Ok(OrderData(customerName, email, phoneNumber, deliveryAddress,
                        summary.grandTotal, summary.currentDeliveryFee));
    }
  }

  /** Every cart whose prices are all positive is empty exactly when its subtotal is 0. */
  lemma RedirectsAgreeOnPricedCarts(cart: seq<CartItem>)
    ensures (forall k :: 0 <= k < |cart| ==> cart[k].price > 0) ==> (cart == [] <==> CartTotal(cart) == 0)
  {
    if cart != [] && forall k :: 0 <= k < |cart| ==> cart[k].price > 0 {
      PositivePriceMakesTotalPositive(cart, 0);
    }
  }

  /** A cart holding one item priced 0 (the schema's default price) redirects as written,
      though it is not empty. */
  lemma FreeItemCartRedirects(page: CheckoutPage)
    requires page.baseCartTotal == CartTotal(page.cart)
    requires page.cart == [CartItem("p1", "Gift", 0, None, 1)]
    ensures WellFormedCart(page.cart)
    ensures page.ShouldRedirectAsWritten(true) && !page.ShouldRedirect(true)
  {
    assert page.cart[..0] == [];
  }

  lemma PricedCartHasPositiveTotal(cart: seq<CartItem>)
    ensures ((forall k :: 0 <= k < |cart| ==> cart[k].price >= 0)
             && (exists k :: 0 <= k < |cart| && cart[k].price > 0)) ==> CartTotal(cart) > 0
  {
    if (forall k :: 0 <= k < |cart| ==> cart[k].price >= 0)
       && (exists k :: 0 <= k < |cart| && cart[k].price > 0) {
      var k :| 0 <= k < |cart| && cart[k].price > 0;
      PositivePriceMakesTotalPositive(cart, k);
    }
  }

  /** With no negative price, one positive price makes the total positive. */
  lemma {:induction false} PositivePriceMakesTotalPositive(cart: seq<CartItem>, k: int)
    requires forall j :: 0 <= j < |cart| ==> cart[j].price >= 0
    requires 0 <= k < |cart| && cart[k].price > 0
    ensures CartTotal(cart) > 0
  {
    var init := cart[..|cart| - 1];
    if k == |cart| - 1 {
      assert forall j :: 0 <= j < |init| ==> init[j] == cart[j];
    } else {
      PositivePriceMakesTotalPositive(init, k);
    }
  }

  // ----- Payment -----

  /** The amount sent to the STK push: a fixed 1 KSH, whatever the order's total. */
  const TestPaymentAmount: int := 1

  /** A number starting with 0 gets the country code 254 in place of the 0. */
  function NormalizePhone(phone: string): (r: string)
    ensures StartsWith(phone, "0") ==> r == "254" + phone[1..] && |r| == |phone| + 2
    ensures !StartsWith(phone, "0") ==> r == phone
    ensures !StartsWith(r, "0")
  {
    if StartsWith(phone, "0") then
      var r := "254" + phone[1..];
      assert r[0] == '2';
      r
    else phone
  }

  /** Normalising a normalised number changes nothing. */
  lemma NormalizePhoneIdempotent(phone: string)
    ensures NormalizePhone(NormalizePhone(phone)) == NormalizePhone(phone)
  {
  }

  lemma NormalizeLocalNumber()
    ensures NormalizePhone("0712345678") == "254712345678"
  {
    assert StartsWith("0712345678", "0");
    assert "0712345678"[1..] == "712345678";
  }

  /** The items of the order: one entry per cart entry, in order, with quantity one. */
  function OrderItems(cart: seq<CartItem>): (r: seq<Orders.LineItemDoc>)
    ensures |r| == |cart|
    ensures forall k :: 0 <= k < |cart| ==>
      r[k] == Orders.LineItemDoc(Some(cart[k].name), Some(1), Some(cart[k].price), Some(cart[k].id))
  {
    seq(|cart|, k requires 0 <= k < |cart| =>
      Orders.LineItemDoc(Some(cart[k].name), Some(1), Some(cart[k].price), Some(cart[k].id)))
  }

  /** createFinalOrder's request body: the checkout data, the stored cart and the
      transaction id; the raw phone, not the normalised one, goes into the order. */
  function FinalOrderRequest(d: OrderData, cart: seq<CartItem>, transactionId: string): (r: Orders.OrderRequest)
    ensures r.customerName == Some(d.customerName) && r.email == Some(d.email) && r.phone == Some(d.phone)
    ensures r.deliveryLocation == Some(d.deliveryAddress)
    ensures r.items == Some(OrderItems(cart)) && (Orders.HasItems(r) <==> cart != [])
    ensures r.totalAmount == Some(d.totalAmount) && r.deliveryFee == Some(d.deliveryFee)
    ensures r.transactionId == Some(transactionId)
    ensures r.paymentMethod.None? && r.paymentStatus.None?
  {
    Orders.OrderRequest(Some(d.customerName), Some(d.email), Some(d.phone), Some(d.deliveryAddress),
                        Some(OrderItems(cart)), Some(d.totalAmount), Some(d.deliveryFee),
                        Some(transactionId), None, None)
  }

  /** `sum of qty * price` over the stored line items. */
  function ItemsTotal(items: seq<Orders.LineItem>): (r: int) {
    if items == [] then 0 else ItemsTotal(items[..|items| - 1]) + items[|items| - 1].qty * items[|items| - 1].price
  }

  lemma {:induction false} ItemsTotalMatchesCart(items: seq<Orders.LineItem>, cart: seq<CartItem>)
    requires |items| == |cart|
    requires forall k :: 0 <= k < |cart| ==>
      items[k] == Orders.LineItem(cart[k].name, 1, cart[k].price, cart[k].id)
    ensures ItemsTotal(items) == CartTotal(cart)
  {
    if cart != [] {
      ItemsTotalMatchesCart(items[..|items| - 1], cart[..|cart| - 1]);
    }
  }

  /** The order a checkout produces is accepted by the server whenever the cart holds
      what add-to-cart stores; it carries the checkout's grand total and fee, and its
      line items add up to the cart total. */
  lemma CheckoutOrderAccepted(cart: seq<CartItem>, select: Option<string>, email: string, phone: string,
                              address: string, transactionId: string, id: nat, now: int)
    requires WellFormedCart(cart) && cart != []
    requires CheckoutData(cart, select, email, phone, address).Ok?
    ensures var d := CheckoutData(cart, select, email, phone, address).value;
      var o := Orders.Instantiate(Orders.OrderDocFor(FinalOrderRequest(d, cart, transactionId)), id, now);
      && o.Ok?
      && o.value.totalAmount == CartTotal(cart) + DeliveryFee(SelectedLocation(select))
      && o.value.deliveryFee == DeliveryFee(SelectedLocation(select))
      && o.value.paymentStatus == Orders.Paid
      && ItemsTotal(o.value.items) == CartTotal(cart)
  {
    var d := CheckoutData(cart, select, email, phone, address).value;
    var req := FinalOrderRequest(d, cart, transactionId);
    Orders.CreatedOrderCopiesRequest(req, id, now);
    var o := Orders.Instantiate(Orders.OrderDocFor(req), id, now);
    assert o.Ok?;
    ItemsTotalMatchesCart(o.value.items, cart);
  }

  /** The gateway's acknowledgement says the PIN prompt went out. */
  predicate PromptSent(stk: Mpesa.StkResponse)
    ensures PromptSent(stk) ==> stk.Forwarded? && stk.ack.responseCode == "0"
    ensures stk.ServerError? ==> !PromptSent(stk)
  {
    stk.Forwarded? && stk.ack.responseCode == "0"
  }

  /** The reason shown when no prompt went out: the gateway's description, else its
      error message, else the generic text (the server's own 500 body carries neither
      field). */
  function FailureReason(stk: Mpesa.StkResponse): (r: string)
    ensures r != ""
    ensures stk.Forwarded? && stk.ack.responseDescription != "" ==> r == stk.ack.responseDescription
    ensures stk.Forwarded? && stk.ack.responseDescription == "" && stk.ack.errorMessage != "" ==>
              r == stk.ack.errorMessage
    ensures !(stk.Forwarded? && (stk.ack.responseDescription != "" || stk.ack.errorMessage != "")) ==>
              r == UnknownPaymentError
    ensures stk.ServerError? ==> r == UnknownPaymentError
  {
    if stk.Forwarded? && stk.ack.responseDescription != "" then stk.ack.responseDescription
    else if stk.Forwarded? && stk.ack.errorMessage != "" then stk.ack.errorMessage
    else UnknownPaymentError
  }

  /** handleMpesaPayment. `stk` is the parsed answer of the STK push route, None when
      the request failed; `orderId` and `clock` are the millisecond clock readings as
      decimal text; `serverNow` is the server's clock when it stores the order. On a
      sent prompt the order is created from the cart as stored, and on success the cart
      is cleared. Returns the final message, the STK push body and the order request
      sent, if any. */
  method HandleMpesaPayment(orderData: OrderData, storage: CartStorage, server: Orders.OrderStore,
                            stk: Option<Mpesa.StkResponse>, orderId: string, clock: string, serverNow: int)
    returns (toast: Toast, push: Mpesa.StkPushRequest, sent: Option<Orders.OrderRequest>)
    requires server.Valid()
    modifies storage, server
    ensures server.Valid()
    ensures push == Mpesa.StkPushRequest(TestPaymentAmount, NormalizePhone(orderData.phone), orderId)
    ensures stk.None? ==>
      && toast == Toast(PaymentServerError, Failure) && sent == None
      && storage.items == old(storage.items)
      && server.orders == old(server.orders) && server.nextId == old(server.nextId)
    ensures stk.Some? && !PromptSent(stk.value) ==>
      && toast == Toast(PaymentFailedPrefix + FailureReason(stk.value), Failure) && sent == None
      && storage.items == old(storage.items)
      && server.orders == old(server.orders) && server.nextId == old(server.nextId)
    ensures stk.Some? && PromptSent(stk.value) ==>
      var req := FinalOrderRequest(orderData, old(storage.items), "MOCK_MPESA_ID_" + clock);
      var o := Orders.Instantiate(Orders.OrderDocFor(req), old(server.nextId), serverNow);
      && sent == Some(req)
      && (if Orders.HasItems(req) && o.Ok? then
            && server.orders == old(server.orders) + [o.value] && server.nextId == old(server.nextId) + 1
            && storage.items == [] && toast == Toast(OrderConfirmedMessage, Success)
          else
            && server.orders == old(server.orders) && server.nextId == old(server.nextId)
            && storage.items == old(storage.items) && toast == Toast(PaymentServerError, Failure))
  {
    var phone := NormalizePhone(orderData.phone);
    push := Mpesa.StkPushRequest(TestPaymentAmount, phone, orderId);
    sent := None;
    if stk.None? {
      return Toast(PaymentServerError, Failure), push, None;
    }
    var data := stk.value;
    if !(data.Forwarded? && data.ack.responseCode == "0") {
      return Toast(PaymentFailedPrefix + FailureReason(data), Failure), push, None;
    }
    var req := FinalOrderRequest(orderData, storage.items, "MOCK_MPESA_ID_" + clock);
    sent := Some(req);
    var resp, _ := server.CreateOrder(req, serverNow);
    if resp.status != 201 {
      // A failed order makes createFinalOrder throw.
      return Toast(PaymentServerError, Failure), push, sent;
    }
    storage.ClearCart();
    toast := Toast(OrderConfirmedMessage, Success);
  }

  // ----- The index page's featured products -----

  const FeaturedCategory: string := "featured"
  const FeaturedLimit: nat := 6

  /** `s.slice(0, 6)`. */
  function TakeFeaturedLimit(s: seq<Catalog.Product>): (r: seq<Catalog.Product>)
    ensures |r| <= FeaturedLimit && |r| <= |s|
    ensures r == s[..|r|]
    ensures |r| == if |s| < FeaturedLimit then |s| else FeaturedLimit
  {
    if |s| <= FeaturedLimit then s else s[..FeaturedLimit]
  }

  /** `products.filter(p => p.category === 'featured')`: the catalog's category filter
      for "featured", which keeps the catalog order (Catalog.InCategoryConcat). */
  function FilterFeatured(products: seq<Catalog.Product>): (r: seq<Catalog.Product>)
    ensures |r| <= |products|
    ensures forall k :: 0 <= k < |r| ==> r[k].category == FeaturedCategory
    ensures forall p :: multiset(r)[p] == if p.category == FeaturedCategory then multiset(products)[p] else 0
    ensures forall p :: p in r <==> p in products && p.category == FeaturedCategory
  {
    var r := Catalog.InCategory(products, FeaturedCategory);
    assert forall p :: p in r <==> multiset(r)[p] > 0;
    assert forall p :: p in products <==> multiset(products)[p] > 0;
    r
  }

  /** The filter finds something exactly when some product is featured. */
  lemma FeaturedExists(products: seq<Catalog.Product>)
    ensures FilterFeatured(products) != [] <==>
            exists k :: 0 <= k < |products| && products[k].category == FeaturedCategory
  {
    if FilterFeatured(products) != [] {
      var p := FilterFeatured(products)[0];
      assert p in products;
      var k :| 0 <= k < |products| && products[k] == p;
    }
    if exists k :: 0 <= k < |products| && products[k].category == FeaturedCategory {
      var k :| 0 <= k < |products| && products[k].category == FeaturedCategory;
      assert products[k] in FilterFeatured(products);
    }
  }

  /** The index-page selection as written: the fallback slices the filtered list. */
  function FeaturedAsWritten(products: seq<Catalog.Product>): (r: seq<Catalog.Product>)
    ensures r == TakeFeaturedLimit(FilterFeatured(products))
    ensures |r| <= FeaturedLimit
    ensures forall k :: 0 <= k < |r| ==> r[k].category == FeaturedCategory
  {
    var featured := TakeFeaturedLimit(FilterFeatured(products));
    if |featured| == 0 then TakeFeaturedLimit(featured) else featured
  }

  /** The fallback never adds anything: with no featured product the page shows none. */
  lemma FallbackShowsNothing(products: seq<Catalog.Product>)
    requires forall k :: 0 <= k < |products| ==> products[k].category != FeaturedCategory
    ensures FeaturedAsWritten(products) == []
  {
    FeaturedExists(products);
  }

  /** One ordinary product: the page shows nothing, though a product exists. */
  lemma FallbackCounterexample(p: Catalog.Product)
    requires p.category == "curtain"
    ensures FeaturedAsWritten([p]) == [] && FeaturedProducts([p]) == [p]
  {
    FallbackShowsNothing([p]);
  }

  /** The selection the fallback's comment describes: up to six featured products, or,
      when there is none, the first six products. */
  function FeaturedProducts(products: seq<Catalog.Product>): (r: seq<Catalog.Product>)
    ensures |r| <= FeaturedLimit
    ensures FilterFeatured(products) != [] ==> r == TakeFeaturedLimit(FilterFeatured(products))
    ensures (exists k :: 0 <= k < |products| && products[k].category == FeaturedCategory) ==>
              r != [] && forall k :: 0 <= k < |r| ==> r[k].category == FeaturedCategory
    ensures (forall k :: 0 <= k < |products| ==> products[k].category != FeaturedCategory) ==>
              r == TakeFeaturedLimit(products)
    ensures products != [] ==> r != []
  {
    var featured := TakeFeaturedLimit(FilterFeatured(products));
    FeaturedExists(products);
    if |featured| == 0 then TakeFeaturedLimit(products) else featured
  }

  // ----- The shop page's title -----

  /** `w.charAt(0).toUpperCase() + w.slice(1)`. */
  function Capitalize(w: string): (r: string)
    ensures |r| == |w|
    ensures |w| > 0 ==> r[0] == UpperChar(w[0]) && r[1..] == w[1..]
  {
    if w == "" then "" else [UpperChar(w[0])] + w[1..]
  }

  function CapitalizeAll(words: seq<string>): (r: seq<string>)
    ensures |r| == |words|
  {
    if words == [] then [] else [Capitalize(words[0])] + CapitalizeAll(words[1..])
  }

  /** Each word of the list is capitalised in its own place. */
  lemma {:induction false} CapitalizeAllAt(words: seq<string>)
    ensures forall k :: 0 <= k < |words| ==> CapitalizeAll(words)[k] == Capitalize(words[k])
  {
    if words != [] {
      CapitalizeAllAt(words[1..]);
      assert forall k :: 1 <= k < |words| ==> words[1..][k - 1] == words[k];
    }
  }

  /** The title for a category slug: "All Products" without one; otherwise underscores
      become spaces and each space-separated word gets an upper-case first letter. */
  function SlugToTitle(slug: string): (r: string)
    ensures slug == "" ==> r == "All Products"
  {
    if slug == "" then "All Products"
    else Join(CapitalizeAll(Split(ReplaceChar(slug, '_', ' '), ' ')), ' ')
  }

  /** The title character at position `i` of the space-separated text `t`: upper-cased
      when it starts the text or follows a space, unchanged otherwise. */
  function TitleCharAt(t: string, i: nat): (c: char)
    requires i < |t|
  {
    if i == 0 || t[i - 1] == ' ' then UpperChar(t[i]) else t[i]
  }

  /** A single word: only its first character changes. */
  lemma CapitalizeWordAt(w: string)
    requires ' ' !in w
    ensures forall i :: 0 <= i < |w| ==> Capitalize(w)[i] == TitleCharAt(w, i)
  {
    forall i | 0 < i < |w| ensures Capitalize(w)[i] == TitleCharAt(w, i) {
      assert w[i - 1] in w;
      assert Capitalize(w)[i] == Capitalize(w)[1..][i - 1];
    }
  }

  lemma CapitalizeAllCons(w: string, ws: seq<string>)
    ensures CapitalizeAll([w] + ws) == [Capitalize(w)] + CapitalizeAll(ws)
  {
    assert ([w] + ws)[1..] == ws;
  }

  /** `x` is the title text of `t`, position by position. */
  ghost predicate TitleOf(t: string, x: string) {
    |x| == |t| && forall i :: 0 <= i < |t| ==> x[i] == TitleCharAt(t, i)
  }

  /** Title characters of a word, a space and a text are those of the word, the space
      and the title characters of the text. */
  lemma TitleCharsConcat(t: string, x: string, head: string, rest: string, r1: string, r2: string)
    requires ' ' !in head && TitleOf(head, r1) && TitleOf(rest, r2)
    requires t == head + [' '] + rest && x == r1 + [' '] + r2
    ensures TitleOf(t, x)
  {
    forall i | 0 <= i < |t| ensures x[i] == TitleCharAt(t, i) {
      var k := |head|;
      if i < k {
        assert x[i] == r1[i] && t[i] == head[i];
        if 0 < i {
          assert t[i - 1] == head[i - 1];
        }
      } else if i > k {
        assert x[i] == r2[i - k - 1] && t[i] == rest[i - k - 1];
        if i > k + 1 {
          assert t[i - 1] == rest[i - k - 2];
        }
      }
    }
  }

  /** The title text of a single word is the capitalised word. */
  lemma TitleOfWord(t: string)
    requires ' ' !in t
    ensures TitleOf(t, Join(CapitalizeAll(Split(t, ' ')), ' '))
  {
    assert Split(t, ' ') == [t];
    assert CapitalizeAll([t]) == [Capitalize(t)];
    CapitalizeWordAt(t);
  }

  /** The title text of a text with a space: the capitalised first word, a space, and
      the title text of the rest. */
  lemma TitleAtFirstSpace(t: string)
    requires ' ' in t
    ensures var k := IndexOf(t, ' ');
      Join(CapitalizeAll(Split(t, ' ')), ' ')
        == Capitalize(t[..k]) + [' '] + Join(CapitalizeAll(Split(t[k + 1..], ' ')), ' ')
  {
    var k := IndexOf(t, ' ');
    SplitAtFirst(t, ' ');
    CapitalizeAllCons(t[..k], Split(t[k + 1..], ' '));
    JoinCons(Capitalize(t[..k]), CapitalizeAll(Split(t[k + 1..], ' ')), ' ');
  }

  /** The step at the first space, on plain strings: a word, a space and a text whose
      title text is `xr` have the capitalised word, a space and `xr` as title text. */
  lemma TitleStep(t: string, head: string, rest: string, x: string, xr: string)
    requires ' ' !in head && t == head + [' '] + rest
    requires x == Capitalize(head) + [' '] + xr && TitleOf(rest, xr)
    ensures TitleOf(t, x)
  {
    CapitalizeWordAt(head);
    TitleCharsConcat(t, x, head, rest, Capitalize(head), xr);
  }

  /** The step at the first space: from the title text of the rest to that of the whole. */
  lemma TitleOfSpacedText(t: string)
    requires ' ' in t
    requires var k := IndexOf(t, ' ');
      TitleOf(t[k + 1..], Join(CapitalizeAll(Split(t[k + 1..], ' ')), ' '))
    ensures TitleOf(t, Join(CapitalizeAll(Split(t, ' ')), ' '))
  {
    var k := IndexOf(t, ' ');
    var head, rest := t[..k], t[k + 1..];
    AroundPosition(t, k);
    TitleAtFirstSpace(t);
    TitleStep(t, head, rest, Join(CapitalizeAll(Split(t, ' ')), ' '), Join(CapitalizeAll(Split(rest, ' ')), ' '));
  }

  /** Position by position: a character keeps its place, and is upper-cased exactly
      when it starts the text or follows a space. */
  lemma {:induction false} CapitalizeWordsAt(t: string)
    ensures TitleOf(t, Join(CapitalizeAll(Split(t, ' ')), ' '))
    decreases |t|
  {
    if ' ' !in t {
      TitleOfWord(t);
    } else {
      CapitalizeWordsAt(t[IndexOf(t, ' ') + 1..]);
      TitleOfSpacedText(t);
    }
  }

  /** The shop title of a non-empty slug, character by character. */
  lemma SlugToTitleAt(slug: string)
    requires slug != ""
    ensures |SlugToTitle(slug)| == |slug|
    ensures forall i :: 0 <= i < |slug| ==> SlugToTitle(slug)[i] == TitleCharAt(ReplaceChar(slug, '_', ' '), i)
  {
    CapitalizeWordsAt(ReplaceChar(slug, '_', ' '));
  }
}
