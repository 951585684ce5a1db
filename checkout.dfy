/** The checkout page: a three-step wizard over the cart, the shipping and total
    arithmetic, the order payload it posts to `submit-order`, and what the page shows
    after the answer. */
module Checkout {
  import opened Wrappers
  import opened Text
  import opened Shop
  import SubmitOrder

  // ---------------------------------------------------------------------------
  // Shipping and totals

  const ExpressShipping := 79
  const StandardShipping := 39

  /** `shippingMethod === 'express' ? 79 : 39`: any other method, including an unknown
      one, costs the standard price. */
  function ShippingCost(shippingMethod: string): (cost: int)
    ensures cost == ExpressShipping <==> shippingMethod == "express"
    ensures cost == StandardShipping <==> shippingMethod != "express"
  {
    if shippingMethod == "express" then ExpressShipping else StandardShipping
  }

  /** `total = subtotal + shipping`. */
  function OrderTotal(subtotal: int, shippingMethod: string): (total: int)
    ensures total - subtotal == ShippingCost(shippingMethod)
    ensures total - subtotal in {StandardShipping, ExpressShipping}
  {
    subtotal + ShippingCost(shippingMethod)
  }

  // ---------------------------------------------------------------------------
  // The payload

  /** The customer form, as typed; country starts as "Danmark". */
  datatype CustomerForm = CustomerForm(
    email: string,
    firstName: string,
    lastName: string,
    phone: string,
    address: string,
    city: string,
    postalCode: string,
    country: string)

  const InitialCustomer := CustomerForm("", "", "", "", "", "", "", "Danmark")

  /** The form as `processOrder` sends it: every string but the country trimmed
      (`phone?.trim() || ''` is just the trimmed phone, an empty trim being replaced by the
      same empty string). */
  function TrimmedCustomer(c: CustomerForm): CustomerForm {
    CustomerForm(Trim(c.email), Trim(c.firstName), Trim(c.lastName), Trim(c.phone),
                 Trim(c.address), Trim(c.city), Trim(c.postalCode), c.country)
  }

  /** The `orderData` object built from an already trimmed form t; the items are copied
      field by field, and those fields are the whole cart line, so each copy is the line
      itself. */
  function PayloadOf(t: CustomerForm, items: seq<CartItem>, shippingMethod: string,
                     paymentMethod: string, subtotal: int): SubmitOrder.OrderData
  {
    SubmitOrder.OrderData(
      Some(SubmitOrder.CustomerInfo(
        Some(t.email), Some(t.firstName), Some(t.lastName), Some(t.phone),
        Some(t.address), Some(t.city), Some(t.postalCode), Some(t.country))),
      Some(items),
      Some(shippingMethod), Some(paymentMethod),
      Some(subtotal), Some(ShippingCost(shippingMethod)), Some(OrderTotal(subtotal, shippingMethod)))
  }

  /** The `orderData` object `processOrder` posts. */
  function BuildOrderPayload(c: CustomerForm, items: seq<CartItem>, shippingMethod: string,
                             paymentMethod: string, subtotal: int): SubmitOrder.OrderData
  {
    PayloadOf(TrimmedCustomer(c), items, shippingMethod, paymentMethod, subtotal)
  }

  /** The payload of a form is accepted exactly when the cart is not empty and none of the
      six required fields is empty. */
  lemma PayloadOfAcceptedIff(t: CustomerForm, items: seq<CartItem>, shippingMethod: string,
                             paymentMethod: string, subtotal: int)
    ensures SubmitOrder.Accepted(PayloadOf(t, items, shippingMethod, paymentMethod, subtotal))
       <==> |items| > 0 && t.email != "" && t.firstName != "" && t.lastName != ""
            && t.address != "" && t.city != "" && t.postalCode != ""
  {
  }

  /** The order handler accepts what the page sends exactly when the cart is not empty and
      none of the six required fields is empty once trimmed: a field of spaces typed into
      the form is refused by the server. Phone and country play no part. */
  lemma PayloadAcceptedIff(c: CustomerForm, items: seq<CartItem>, shippingMethod: string,
                           paymentMethod: string, subtotal: int)
    ensures SubmitOrder.Accepted(BuildOrderPayload(c, items, shippingMethod, paymentMethod, subtotal))
       <==> |items| > 0 && Trim(c.email) != "" && Trim(c.firstName) != "" && Trim(c.lastName) != ""
            && Trim(c.address) != "" && Trim(c.city) != "" && Trim(c.postalCode) != ""
  {
    PayloadOfAcceptedIff(TrimmedCustomer(c), items, shippingMethod, paymentMethod, subtotal);
  }

  /** The cart reaches the server line for line: the payload carries the cart lines
      themselves and the three amounts of the page, and the item rows stored for the order
      are one per cart line, in order, with that line's fields. */
  lemma CheckoutOrderItems(c: CustomerForm, items: seq<CartItem>, shippingMethod: string,
                           paymentMethod: string, subtotal: int, orderId: nat)
    ensures var d := BuildOrderPayload(c, items, shippingMethod, paymentMethod, subtotal);
      && d.items == Some(items)
      && d.subtotal == Some(subtotal) && d.shippingCost == Some(ShippingCost(shippingMethod))
      && d.totalAmount == Some(OrderTotal(subtotal, shippingMethod))
    ensures var rows := SubmitOrder.ItemRowsOf(BuildOrderPayload(c, items, shippingMethod, paymentMethod, subtotal).items.value, orderId);
      && |rows| == |items|
      && forall i :: 0 <= i < |items| ==>
           && rows[i].orderId == orderId
           && rows[i].productType == items[i].id && rows[i].productName == items[i].name
           && rows[i].size == items[i].size && rows[i].color == items[i].color
           && rows[i].quantity == items[i].quantity && rows[i].unitPrice == items[i].price
           && rows[i].totalPrice == items[i].price * items[i].quantity
           && (rows[i].artworkUrl.None? <==> !Truthy(items[i].artwork))
  {
  }

  /** The totals stored for a checkout are the page's own: the subtotal, the shipping
      price of the chosen method, and their sum. */
  lemma CheckoutOrderTotals(c: CustomerForm, items: seq<CartItem>, shippingMethod: string,
                            paymentMethod: string, subtotal: int)
    requires SubmitOrder.Accepted(BuildOrderPayload(c, items, shippingMethod, paymentMethod, subtotal))
    ensures var row := SubmitOrder.OrderRowOf(BuildOrderPayload(c, items, shippingMethod, paymentMethod, subtotal));
      && row.subtotal == Some(subtotal)
      && row.shippingCost == Some(ShippingCost(shippingMethod))
      && row.totalAmount == Some(subtotal + ShippingCost(shippingMethod))
  {
    var d := BuildOrderPayload(c, items, shippingMethod, paymentMethod, subtotal);
    assert d.subtotal == Some(subtotal) && d.shippingCost == Some(ShippingCost(shippingMethod));
    assert d.totalAmount == Some(subtotal + ShippingCost(shippingMethod));
  }

  /** The customer's name and phone as stored for a checkout: the name joins the trimmed
      first and last names, a phone that trims to nothing is stored as null, and any other
      phone is stored trimmed. */
  lemma CheckoutOrderNameAndPhone(c: CustomerForm, items: seq<CartItem>, shippingMethod: string,
                                  paymentMethod: string, subtotal: int)
    requires SubmitOrder.Accepted(BuildOrderPayload(c, items, shippingMethod, paymentMethod, subtotal))
    ensures var row := SubmitOrder.OrderRowOf(BuildOrderPayload(c, items, shippingMethod, paymentMethod, subtotal));
      && row.customerName == Trim(c.firstName) + " " + Trim(c.lastName)
      && (row.customerPhone.None? <==> Trim(c.phone) == "")
      && (Trim(c.phone) != "" ==> row.customerPhone == Some(Trim(c.phone)))
  {
  }

  /** The email as stored for a checkout: trimmed and lower-cased, the server's second trim
      changing nothing. */
  lemma CheckoutOrderEmail(c: CustomerForm, items: seq<CartItem>, shippingMethod: string,
                           paymentMethod: string, subtotal: int)
    requires SubmitOrder.Accepted(BuildOrderPayload(c, items, shippingMethod, paymentMethod, subtotal))
    ensures SubmitOrder.OrderRowOf(BuildOrderPayload(c, items, shippingMethod, paymentMethod, subtotal)).customerEmail
            == ToLower(Trim(c.email))
  {
    TrimIdempotent(c.email);
  }

  /** The shipping address as stored for a checkout: each part trimmed once by the page,
      and the server's second trim changes nothing. */
  lemma CheckoutOrderAddress(c: CustomerForm, items: seq<CartItem>, shippingMethod: string,
                             paymentMethod: string, subtotal: int)
    requires SubmitOrder.Accepted(BuildOrderPayload(c, items, shippingMethod, paymentMethod, subtotal))
    ensures var row := SubmitOrder.OrderRowOf(BuildOrderPayload(c, items, shippingMethod, paymentMethod, subtotal));
      && row.shippingAddress == Trim(c.address) && row.shippingCity == Trim(c.city)
      && row.shippingPostalCode == Trim(c.postalCode)
  {
    TrimIdempotent(c.address);
    TrimIdempotent(c.city);
    TrimIdempotent(c.postalCode);
  }

  /** An emptied country or an empty method name falls back to the server's default. */
  lemma CheckoutOrderDefaults(c: CustomerForm, items: seq<CartItem>, shippingMethod: string,
                              paymentMethod: string, subtotal: int)
    requires SubmitOrder.Accepted(BuildOrderPayload(c, items, shippingMethod, paymentMethod, subtotal))
    ensures var row := SubmitOrder.OrderRowOf(BuildOrderPayload(c, items, shippingMethod, paymentMethod, subtotal));
      && row.shippingCountry == (if c.country == "" then "Danmark" else c.country)
      && row.shippingMethod == (if shippingMethod == "" then "standard" else shippingMethod)
      && row.paymentMethod == (if paymentMethod == "" then "dankort" else paymentMethod)
  {
  }

  // ---------------------------------------------------------------------------
  // The page

  /** What `fetch` and `response.json()` end in: an answer with its `ok` flag and the
      `orderId`/`error` members of its JSON, or a thrown value (an `Error` with its
      message, or anything else). */
  datatype OrderAnswer =
    | Answered(ok: bool, orderId: Option<string>, error: Option<string>)
    | ThrewError(message: string)
    | ThrewOther

  const ConfigurationNotFound := "Supabase configuration not found. Please connect to Supabase first."
  const FailedToProcess := "Failed to process order"
  const FailedToProcessRetry := "Failed to process order. Please try again."
  const UnknownOrderId := "Unknown"

  /** What the page renders. */
  datatype View = EmptyCart | Confirmation(orderId: string) | Wizard(step: int)

  /** The page state. `items` is the cart the page reads; `clearCart` empties it. */
  class CheckoutPage {
    var currentStep: int
    var orderComplete: bool
    var isProcessing: bool
    var orderError: Option<string>
    var orderId: string
    var customer: CustomerForm
    var paymentMethod: string
    var shippingMethod: string
    var items: seq<CartItem>

    /** The step stays within 1..3, and an order is only ever in flight from step 3. */
    predicate Valid()
      reads this
    {
      1 <= currentStep <= 3 && (isProcessing ==> currentStep == 3 && !orderComplete)
    }

    /** An empty cart without a finished order shows the empty-cart view; a finished order
        shows the confirmation; otherwise the wizard at its step. */
    function CurrentView(): (v: View)
      reads this
      ensures v.EmptyCart? <==> |items| == 0 && !orderComplete
      ensures v.Confirmation? <==> orderComplete
      ensures v.Wizard? ==> |items| > 0 && v.step == currentStep
    {
      if |items| == 0 && !orderComplete then EmptyCart
      else if orderComplete then Confirmation(orderId)
      else Wizard(currentStep)
    }

    /** The order the page would post now, for a cart whose `getTotalPrice()` is subtotal. */
    function OrderPayload(subtotal: int): SubmitOrder.OrderData
      reads this
    {
      BuildOrderPayload(customer, items, shippingMethod, paymentMethod, subtotal)
    }

    /** The shipping price shown for the chosen method. */
    function Shipping(): int
      reads this
    {
      ShippingCost(shippingMethod)
    }

    constructor (cart: seq<CartItem>)
      ensures Valid()
      ensures currentStep == 1 && !orderComplete && !isProcessing && orderError.None? && orderId == ""
      ensures customer == InitialCustomer && paymentMethod == "dankort" && shippingMethod == "standard"
      ensures items == cart
    {
      currentStep := 1;
      orderComplete := false;
      isProcessing := false;
      orderError := None;
      orderId := "";
      customer := InitialCustomer;
      paymentMethod := "dankort";
      shippingMethod := "standard";
      items := cart;
    }

    method SetCustomer(c: CustomerForm)
      modifies this
      ensures customer == c
      ensures currentStep == old(currentStep) && orderComplete == old(orderComplete)
      ensures isProcessing == old(isProcessing) && orderError == old(orderError) && orderId == old(orderId)
      ensures paymentMethod == old(paymentMethod) && shippingMethod == old(shippingMethod) && items == old(items)
    {
      customer := c;
    }

    method SetShippingMethod(m: string)
      modifies this
      ensures shippingMethod == m
      ensures currentStep == old(currentStep) && orderComplete == old(orderComplete)
      ensures isProcessing == old(isProcessing) && orderError == old(orderError) && orderId == old(orderId)
      ensures customer == old(customer) && paymentMethod == old(paymentMethod) && items == old(items)
    {
      shippingMethod := m;
    }

    method SetPaymentMethod(m: string)
      modifies this
      ensures paymentMethod == m
      ensures currentStep == old(currentStep) && orderComplete == old(orderComplete)
      ensures isProcessing == old(isProcessing) && orderError == old(orderError) && orderId == old(orderId)
      ensures customer == old(customer) && shippingMethod == old(shippingMethod) && items == old(items)
    {
      paymentMethod := m;
    }

    /** The form's submit (the button is disabled while an order is in flight). Steps 1
        and 2 move on one step with no request. Step 3 starts `processOrder`: without a
        Supabase URL the configuration error is shown at once and processing ends; with
        one, `posting` says that `OrderPayload(getTotalPrice())` of the unchanged form and
        cart is posted, and the page waits, processing, for the answer (`FinishOrder`). */
    method Submit(supabaseUrl: Option<string>) returns (posting: bool)
      requires Valid() && !isProcessing && CurrentView().Wizard?
      modifies this
      ensures Valid() && CurrentView().Wizard?
      ensures orderComplete == old(orderComplete) && orderId == old(orderId) && items == old(items)
      ensures customer == old(customer) && paymentMethod == old(paymentMethod) && shippingMethod == old(shippingMethod)
      ensures old(currentStep) < 3 ==>
                currentStep == old(currentStep) + 1 && !posting && orderError.None? && !isProcessing
      ensures old(currentStep) == 3 ==> currentStep == 3
      ensures old(currentStep) == 3 && !Truthy(supabaseUrl) ==>
                !posting && orderError == Some(ConfigurationNotFound) && !isProcessing
      ensures old(currentStep) == 3 && Truthy(supabaseUrl) ==>
                posting && orderError.None? && isProcessing
    {
      orderError := None;
      if currentStep < 3 {
        currentStep := currentStep + 1;
        return false;
      }
      isProcessing := true;
      orderError := None;
      if !Truthy(supabaseUrl) {
        orderError := Some(ConfigurationNotFound);
        isProcessing := false;
        return false;
      }
      posting := true;
    }

    /** The rest of `processOrder` once the answer is in. On an ok answer the cart is
        cleared, the order id (or "Unknown") kept and the order complete. Otherwise the
        error is shown and the cart and step are left as they were. Processing ends on
        every path. */
    method FinishOrder(answer: OrderAnswer)
      requires Valid() && isProcessing
      modifies this
      ensures Valid() && !isProcessing && currentStep == 3
      ensures customer == old(customer) && paymentMethod == old(paymentMethod) && shippingMethod == old(shippingMethod)
      ensures answer.Answered? && answer.ok ==>
                items == [] && orderComplete && orderId == OrElse(answer.orderId, UnknownOrderId)
                && orderError == old(orderError)
      ensures !(answer.Answered? && answer.ok) ==>
                items == old(items) && !orderComplete && orderId == old(orderId)
      ensures answer.Answered? && !answer.ok ==> orderError == Some(OrElse(answer.error, FailedToProcess))
      ensures answer.ThrewError? ==> orderError == Some(answer.message)
      ensures answer.ThrewOther? ==> orderError == Some(FailedToProcessRetry)
    {
      match answer {
        case Answered(ok, id, error) =>
          if ok {
            items := [];
            orderId := OrElse(id, UnknownOrderId);
            orderComplete := true;
          } else {
            orderError := Some(OrElse(error, FailedToProcess));
          }
        case ThrewError(message) =>
          orderError := Some(message);
        case ThrewOther =>
          orderError := Some(FailedToProcessRetry);
      }
      isProcessing := false;
    }

    /** The "back" button: shown from step 2 on, disabled while processing. */
    method Back()
      requires Valid() && !isProcessing && CurrentView().Wizard? && currentStep > 1
      modifies this
      ensures Valid() && currentStep == old(currentStep) - 1
      ensures orderComplete == old(orderComplete) && isProcessing == old(isProcessing)
      ensures orderError == old(orderError) && orderId == old(orderId)
      ensures customer == old(customer) && paymentMethod == old(paymentMethod)
      ensures shippingMethod == old(shippingMethod) && items == old(items)
    {
      currentStep := currentStep - 1;
    }
  }
}
