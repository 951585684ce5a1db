/** The `submit-order` edge function: validation, the `orders` row, the `order_items`
    rows, the clean-up when the items cannot be saved, and the two notification emails. */
module SubmitOrder {
  import opened Wrappers
  import opened Text
  import opened Http
  import opened Shop

  const Cors: Headers := [
    ("Access-Control-Allow-Origin", "*"),
    ("Access-Control-Allow-Headers", "authorization, x-client-info, apikey, content-type"),
    ("Access-Control-Allow-Methods", "POST, OPTIONS")]

  /** The customer block of the request; a member is None when it is missing or null. */
  datatype CustomerInfo = CustomerInfo(
    email: Option<string>,
    firstName: Option<string>,
    lastName: Option<string>,
    phone: Option<string>,
    address: Option<string>,
    city: Option<string>,
    postalCode: Option<string>,
    country: Option<string>)

  /** The request body. */
  datatype OrderData = OrderData(
    customerInfo: Option<CustomerInfo>,
    items: Option<seq<CartItem>>,
    shippingMethod: Option<string>,
    paymentMethod: Option<string>,
    subtotal: Option<int>,
    shippingCost: Option<int>,
    totalAmount: Option<int>)

  /** The row inserted into `orders`. */
  datatype OrderRow = OrderRow(
    customerName: string,
    customerEmail: string,
    customerPhone: Option<string>,
    shippingAddress: string,
    shippingCity: string,
    shippingPostalCode: string,
    shippingCountry: string,
    shippingMethod: string,
    paymentMethod: string,
    subtotal: Option<int>,
    shippingCost: Option<int>,
    totalAmount: Option<int>,
    status: string)

  /** A row inserted into `order_items`. */
  datatype OrderItemRow = OrderItemRow(
    orderId: nat,
    productType: string,
    productName: string,
    size: string,
    color: string,
    quantity: int,
    unitPrice: int,
    totalPrice: int,
    artworkUrl: Option<string>)

  /** The success object: `{ success: true, message, orderId, orderDatabaseId, emailStatus }`. */
  datatype OrderSaved = OrderSaved(
    message: string,
    orderId: string,
    orderDatabaseId: nat,
    customerEmailSent: bool,
    businessEmailSent: bool)

  const MissingOrderData := "Missing required order data"
  const MissingCustomerInfo := "Missing required customer information"
  const FailedToSaveOrder := "Failed to save order"
  const FailedToSaveItems := "Failed to save order items"
  const OrderProcessed := "Order processed successfully"
  const EmailNotConfigured := "Email service not configured"
  const SenderAddress := "onboarding@resend.dev"
  const BusinessAddress := "nyhavnprintondemand@gmail.com"

  // ---------------------------------------------------------------------------
  // Validation

  /** Customer block and a non-empty item list are present. */
  predicate HasOrderData(d: OrderData) {
    d.customerInfo.Some? && d.items.Some? && |d.items.value| > 0
  }

  /** The six required customer fields are present and non-empty; phone and country are optional. */
  predicate HasCustomerInfo(c: CustomerInfo) {
    Truthy(c.email) && Truthy(c.firstName) && Truthy(c.lastName)
    && Truthy(c.address) && Truthy(c.city) && Truthy(c.postalCode)
  }

  /** The request passes every check before the database is touched. */
  predicate Accepted(d: OrderData) {
    HasOrderData(d) && HasCustomerInfo(d.customerInfo.value)
  }

  /** The guards in front of the inserts, in order. None means "go on to the database". */
  function Precheck(req: Request<OrderData>, env: Env): (r: Option<Response<OrderSaved>>)
    ensures r.Some? ==> CarriesCors(r.value, Cors)
    ensures r.Some? && r.value.body != NoBody ==> r.value.status in {400, 405, 500}
    ensures req.httpMethod == "OPTIONS" ==> r == Some(Response(200, Cors, NoBody))
    ensures req.httpMethod != "OPTIONS" && req.httpMethod != "POST" ==>
              r.Some? && r.value.status == 405 && r.value.body == ErrorBody(MethodNotAllowed, None)
    ensures req.httpMethod == "POST" && req.body.Failure? ==>
              r == Some(JsonError(Cors, 500, InternalServerError, Some(req.body.error)))
    ensures req.httpMethod == "POST" && req.body.Success? && !HasOrderData(req.body.value) ==>
              r.Some? && r.value.status == 400 && r.value.body == ErrorBody(MissingOrderData, None)
    ensures req.httpMethod == "POST" && req.body.Success? && HasOrderData(req.body.value)
              && !HasCustomerInfo(req.body.value.customerInfo.value) ==>
              r.Some? && r.value.status == 400 && r.value.body == ErrorBody(MissingCustomerInfo, None)
    ensures req.httpMethod == "POST" && req.body.Success? && Accepted(req.body.value) && !Configured(env) ==>
              r.Some? && r.value.status == 500 && r.value.body == ErrorBody(ServerConfigurationError, None)
    ensures r.None? <==> req.httpMethod == "POST" && req.body.Success? && Accepted(req.body.value) && Configured(env)
  {
    if req.httpMethod == "OPTIONS" then Some(Preflight(Cors))
    else if req.httpMethod != "POST" then Some(JsonError(Cors, 405, MethodNotAllowed, None))
    else
      match req.body
      case Failure(msg) => Some(JsonError(Cors, 500, InternalServerError, Some(msg)))
      case Success(d) =>
        if !HasOrderData(d) then Some(JsonError(Cors, 400, MissingOrderData, None))
        else if !HasCustomerInfo(d.customerInfo.value) then Some(JsonError(Cors, 400, MissingCustomerInfo, None))
        else if !Configured(env) then Some(JsonError(Cors, 500, ServerConfigurationError, None))
        else None
  }

  // ---------------------------------------------------------------------------
  // The rows

  /** The `orders` row built from an accepted request. */
  function OrderRowOf(d: OrderData): (row: OrderRow)
    requires Accepted(d)
    ensures var c := d.customerInfo.value;
      && row.customerName == c.firstName.value + " " + c.lastName.value
      && row.customerEmail == ToLower(Trim(c.email.value)) && IsTrimmed(row.customerEmail)
      && (row.customerPhone.None? <==> !Truthy(c.phone))
      && (row.customerPhone.Some? ==> row.customerPhone.value == c.phone.value)
      && row.shippingAddress == Trim(c.address.value)
      && row.shippingCity == Trim(c.city.value)
      && row.shippingPostalCode == Trim(c.postalCode.value)
      && (Truthy(c.country) ==> row.shippingCountry == c.country.value)
      && (!Truthy(c.country) ==> row.shippingCountry == "Danmark")
      && (Truthy(d.shippingMethod) ==> row.shippingMethod == d.shippingMethod.value)
      && (!Truthy(d.shippingMethod) ==> row.shippingMethod == "standard")
      && (Truthy(d.paymentMethod) ==> row.paymentMethod == d.paymentMethod.value)
      && (!Truthy(d.paymentMethod) ==> row.paymentMethod == "dankort")
    ensures row.subtotal == d.subtotal && row.shippingCost == d.shippingCost && row.totalAmount == d.totalAmount
    ensures row.status == "pending"
  {
    var c := d.customerInfo.value;
    TrimToLowerCommute(c.email.value);
    OrderRow(
      c.firstName.value + " " + c.lastName.value,
      Trim(ToLower(c.email.value)),
      if Truthy(c.phone) then c.phone else None,
      Trim(c.address.value),
      Trim(c.city.value),
      Trim(c.postalCode.value),
      OrElse(c.country, "Danmark"),
      OrElse(d.shippingMethod, "standard"),
      OrElse(d.paymentMethod, "dankort"),
      d.subtotal,
      d.shippingCost,
      d.totalAmount,
      "pending")
  }

  /** The `order_items` row of one request item. */
  function ItemRowOf(item: CartItem, orderId: nat): OrderItemRow {
    OrderItemRow(orderId, item.id, item.name, item.size, item.color, item.quantity, item.price,
                 item.price * item.quantity, if Truthy(item.artwork) then item.artwork else None)
  }

  /** One `order_items` row per request item, in the same order, each pointing at the order. */
  function ItemRowsOf(items: seq<CartItem>, orderId: nat): (rows: seq<OrderItemRow>)
    ensures |rows| == |items|
    ensures forall i :: 0 <= i < |items| ==> rows[i].orderId == orderId
    ensures forall i :: 0 <= i < |items| ==>
              && rows[i].productType == items[i].id
              && rows[i].productName == items[i].name
              && rows[i].size == items[i].size
              && rows[i].color == items[i].color
              && rows[i].quantity == items[i].quantity
              && rows[i].unitPrice == items[i].price
              && rows[i].totalPrice == items[i].price * items[i].quantity
              && (rows[i].artworkUrl.None? <==> !Truthy(items[i].artwork))
              && (rows[i].artworkUrl.Some? ==> rows[i].artworkUrl.value == items[i].artwork.value)
  {
    seq(|items|, i requires 0 <= i < |items| => ItemRowOf(items[i], orderId))
  }

  // ---------------------------------------------------------------------------
  // Email

  /** `formatCurrency`: the amount followed by " kr". */
  function FormatCurrency(amount: int): string {
    IntToString(amount) + " kr"
  }

  /** A formatted amount ends in " kr" and what precedes that reads back as the amount. */
  lemma FormatCurrencyRoundTrip(amount: int)
    ensures var s := FormatCurrency(amount);
      |s| >= 4 && s[|s| - 3..] == " kr" && ParseInt(s[..|s| - 3]) == amount
  {
    var digits := IntToString(amount);
    assert FormatCurrency(amount)[..|digits|] == digits;
    IntToStringRoundTrip(amount);
  }

  /** Different amounts are never formatted alike. */
  lemma FormatCurrencyInjective(a: int, b: int)
    requires FormatCurrency(a) == FormatCurrency(b)
    ensures a == b
  {
    FormatCurrencyRoundTrip(a);
    FormatCurrencyRoundTrip(b);
  }

  /** What the Resend API did with a request. */
  datatype ResendOutcome =
    | Delivered
    | Rejected(message: Option<string>, statusText: string)
    | Threw(reason: string)

  /** `{ success, error? }` */
  datatype EmailResult = EmailResult(success: bool, error: Option<string>)

  /** A call of `sendEmailViaResend`: its result and whether it issued a request. */
  datatype EmailAttempt = EmailAttempt(result: EmailResult, requestSent: bool)

  /** The email the handler asks Resend to send (its HTML body is not modelled). */
  datatype EmailPayload = EmailPayload(from: string, to: string, subject: string)

  /** `sendEmailViaResend`: without an API key nothing is sent and the result says so. */
  function SendEmailViaResend(apiKey: Option<string>, outcome: ResendOutcome): (a: EmailAttempt)
    ensures !Truthy(apiKey) ==> a == EmailAttempt(EmailResult(false, Some(EmailNotConfigured)), false)
    ensures Truthy(apiKey) ==> a.requestSent && (a.result.success <==> outcome.Delivered?)
    ensures a.result.success <==> a.result.error.None?
  {
    if !Truthy(apiKey) then EmailAttempt(EmailResult(false, Some(EmailNotConfigured)), false)
    else
      match outcome
      case Delivered => EmailAttempt(EmailResult(true, None), true)
      case Rejected(message, statusText) =>
        EmailAttempt(EmailResult(false, Some("Email sending failed: " + OrElse(message, statusText))), true)
      case Threw(reason) =>
        EmailAttempt(EmailResult(false, Some("Email sending error: " + reason)), true)
  }

  /** `generateOrderId`: "NYH" followed by nine random upper-case base-36 characters,
      which are an input here. */
  function OrderReference(randomPart: string): (id: string)
    ensures |id| == 3 + |randomPart| && id[..3] == "NYH" && id[3..] == randomPart
  {
    "NYH" + randomPart
  }

  function CustomerEmail(c: CustomerInfo, orderRef: string): EmailPayload
    requires HasCustomerInfo(c)
  {
    EmailPayload(SenderAddress, c.email.value, "Ordrebekræftelse - " + orderRef)
  }

  function BusinessEmail(orderRef: string): EmailPayload {
    EmailPayload(SenderAddress, BusinessAddress, "Ny ordre modtaget - " + orderRef)
  }

  /** The answer once both inserts succeeded: always 200, whatever the emails did. */
  function OrderSuccess(orderRef: string, dbId: nat, customer: EmailResult, business: EmailResult): (r: Response<OrderSaved>)
    ensures r.status == 200 && CarriesCors(r, Cors)
    ensures r.body.SuccessBody? && r.body.value.orderId == orderRef && r.body.value.orderDatabaseId == dbId
    ensures r.body.value.customerEmailSent == customer.success && r.body.value.businessEmailSent == business.success
  {
    JsonOk(Cors, OrderSaved(OrderProcessed, orderRef, dbId, customer.success, business.success))
  }

  // ---------------------------------------------------------------------------
  // The two tables and the handler

  /** The `orders` and `order_items` tables. Ids are handed out by the database. */
  class OrdersDatabase {
    var orders: map<nat, OrderRow>
    var orderItems: seq<OrderItemRow>
    var nextId: nat

    /** Ids already handed out are below nextId, and every item row belongs to a stored order. */
    ghost predicate Valid()
      reads this
    {
      && (forall id :: id in orders ==> id < nextId)
      && (forall i :: 0 <= i < |orderItems| ==> orderItems[i].orderId in orders)
    }

    constructor ()
      ensures Valid() && orders == map[] && orderItems == [] && nextId == 0
    {
      orders, orderItems, nextId := map[], [], 0;
    }

    /** `insert([row]).select().single()` on `orders`; failure is the database's error message. */
    method InsertOrder(row: OrderRow, failure: Option<string>) returns (r: Result<nat, string>)
      requires Valid()
      modifies this
      ensures Valid() && orderItems == old(orderItems)
      ensures failure.Some? ==> r == Failure(failure.value) && orders == old(orders) && nextId == old(nextId)
      ensures failure.None? ==>
                && r == Success(old(nextId)) && old(nextId) !in old(orders)
                && orders == old(orders)[old(nextId) := row] && nextId == old(nextId) + 1
    {
      if failure.Some? {
        return Failure(failure.value);
      }
      r := Success(nextId);
      orders := orders[nextId := row];
      nextId := nextId + 1;
    }

    /** `insert(rows)` on `order_items`: the whole batch or nothing. */
    method InsertItems(rows: seq<OrderItemRow>, failure: Option<string>) returns (err: Option<string>)
      requires Valid()
      requires forall i :: 0 <= i < |rows| ==> rows[i].orderId in orders
      modifies this
      ensures Valid() && orders == old(orders) && nextId == old(nextId)
      ensures err == failure
      ensures failure.Some? ==> orderItems == old(orderItems)
      ensures failure.None? ==> orderItems == old(orderItems) + rows
    {
      err := failure;
      if failure.None? {
        orderItems := orderItems + rows;
      }
    }

    /** `delete().eq('id', id)` on `orders`, for an order no item row refers to. */
    method DeleteOrder(id: nat, fails: bool)
      requires Valid()
      requires forall i :: 0 <= i < |orderItems| ==> orderItems[i].orderId != id
      modifies this
      ensures Valid() && orderItems == old(orderItems) && nextId == old(nextId)
      ensures fails ==> orders == old(orders)
      ensures !fails ==> orders == old(orders) - {id}
    {
      if !fails {
        orders := orders - {id};
      }
    }
  }

  /** The database part of the handler: insert the order, insert its items, and delete
      the order again when the items cannot be saved (the delete's own result is ignored).
      Success carries the new order's id; failure carries the 500 answer. */
  method SaveOrder(db: OrdersDatabase, row: OrderRow, items: seq<CartItem>, orderFailure: Option<string>,
                   itemsFailure: Option<string>, deleteFails: bool)
    returns (r: Result<nat, Response<OrderSaved>>)
    requires db.Valid()
    modifies db
    ensures db.Valid()
    ensures orderFailure.Some? ==>
              r == Failure(JsonError(Cors, 500, FailedToSaveOrder, orderFailure))
              && db.orders == old(db.orders) && db.orderItems == old(db.orderItems)
    ensures orderFailure.None? && itemsFailure.Some? ==>
              r == Failure(JsonError(Cors, 500, FailedToSaveItems, itemsFailure))
              && db.orderItems == old(db.orderItems)
              && (!deleteFails ==> db.orders == old(db.orders))
              && (deleteFails ==> db.orders == old(db.orders)[old(db.nextId) := row])
    ensures orderFailure.None? && itemsFailure.None? ==>
              r == Success(old(db.nextId))
              && db.orders == old(db.orders)[old(db.nextId) := row]
              && db.orderItems == old(db.orderItems) + ItemRowsOf(items, old(db.nextId))
  {
    var inserted := db.InsertOrder(row, orderFailure);
    if inserted.Failure? {
      return Failure(JsonError(Cors, 500, FailedToSaveOrder, orderFailure));
    }
    var id := inserted.value;
    var rows := ItemRowsOf(items, id);
    var itemsError := db.InsertItems(rows, itemsFailure);
    if itemsError.Some? {
      assert forall i :: 0 <= i < |db.orderItems| ==> db.orderItems[i].orderId in old(db.orders);
      db.DeleteOrder(id, deleteFails);
      return Failure(JsonError(Cors, 500, FailedToSaveItems, itemsFailure));
    }
    r := Success(id);
  }

  /** The two emails of a saved order: the customer's confirmation, then the notice to the
      business, each sent only when there is an API key. Returns both results and the
      requests actually issued, in order. */
  method SendNotifications(c: CustomerInfo, orderRef: string, resendKey: Option<string>,
                           customerMail: ResendOutcome, businessMail: ResendOutcome)
    returns (customer: EmailResult, business: EmailResult, sent: seq<EmailPayload>)
    requires HasCustomerInfo(c)
    ensures customer == SendEmailViaResend(resendKey, customerMail).result
    ensures business == SendEmailViaResend(resendKey, businessMail).result
    ensures sent == if Truthy(resendKey) then [CustomerEmail(c, orderRef), BusinessEmail(orderRef)] else []
  {
    sent := [];
    var toCustomer := SendEmailViaResend(resendKey, customerMail);
    if toCustomer.requestSent {
      sent := sent + [CustomerEmail(c, orderRef)];
    }
    var toBusiness := SendEmailViaResend(resendKey, businessMail);
    if toBusiness.requestSent {
      sent := sent + [BusinessEmail(orderRef)];
    }
    customer, business := toCustomer.result, toBusiness.result;
  }

  /** The handler. The database outcomes, the Resend key and outcomes, and the random
      part of the order reference are inputs. Returns the answer and the email requests
      actually issued. */
  method Serve(db: OrdersDatabase, req: Request<OrderData>, env: Env, resendKey: Option<string>,
               randomPart: string, orderFailure: Option<string>, itemsFailure: Option<string>,
               deleteFails: bool, customerMail: ResendOutcome, businessMail: ResendOutcome)
    returns (resp: Response<OrderSaved>, sent: seq<EmailPayload>)
    requires db.Valid()
    modifies db
    ensures db.Valid() && CarriesCors(resp, Cors)
    ensures Precheck(req, env).Some? ==>
              resp == Precheck(req, env).value && sent == []
              && db.orders == old(db.orders) && db.orderItems == old(db.orderItems)
    ensures Precheck(req, env).None? && orderFailure.Some? ==>
              resp == JsonError(Cors, 500, FailedToSaveOrder, orderFailure) && sent == []
              && db.orders == old(db.orders) && db.orderItems == old(db.orderItems)
    ensures Precheck(req, env).None? && orderFailure.None? && itemsFailure.Some? ==>
              resp == JsonError(Cors, 500, FailedToSaveItems, itemsFailure) && sent == []
              && db.orderItems == old(db.orderItems)
              && (!deleteFails ==> db.orders == old(db.orders))
              && (deleteFails ==> db.orders == old(db.orders)[old(db.nextId) := OrderRowOf(req.body.value)])
    ensures Precheck(req, env).None? && orderFailure.None? && itemsFailure.None? ==>
              var d := req.body.value;
              var id := old(db.nextId);
              var orderRef := OrderReference(randomPart);
              && db.orders == old(db.orders)[id := OrderRowOf(d)]
              && db.orderItems == old(db.orderItems) + ItemRowsOf(d.items.value, id)
              && resp == OrderSuccess(orderRef, id, SendEmailViaResend(resendKey, customerMail).result,
                                      SendEmailViaResend(resendKey, businessMail).result)
              && sent == (if Truthy(resendKey)
                          then [CustomerEmail(d.customerInfo.value, orderRef), BusinessEmail(orderRef)]
                          else [])
  {
    var pre := Precheck(req, env);
    sent := [];
    if pre.Some? {
      resp := pre.value;
    } else {
      var d := req.body.value;
      var saved := SaveOrder(db, OrderRowOf(d), d.items.value, orderFailure, itemsFailure, deleteFails);
      if saved.Failure? {
        resp := saved.error;
      } else {
        var orderRef := OrderReference(randomPart);
        var customer, business;
        customer, business, sent := SendNotifications(d.customerInfo.value, orderRef, resendKey,
                                                      customerMail, businessMail);
        resp := OrderSuccess(orderRef, saved.value, customer, business);
      }
    }
  }
}
