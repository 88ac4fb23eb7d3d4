/**
 * Orders as the portal shows them: the summary of the order list, the
 * detail of one order with its addresses, and the check that an order
 * belongs to the customer asking for it.
 */
module Orders {
  import opened JsValues
  import opened JsStrings
  import Decimal
  import opened Fulfillment
  import Profiles

  datatype LineItem = LineItem(
    id: nat,
    title: Option<string>,
    quantity: int,
    sku: Option<string>,
    variantTitle: Option<string>,
    price: Option<string>)

  datatype Money = Money(amount: Option<string>)

  /** `total_shipping_price_set`, whose `shop_money` carries the amount. */
  datatype PriceSet = PriceSet(shopMoney: Option<Money>)

  datatype DiscountCode = DiscountCode(code: Option<string>)

  datatype UpstreamAddress = UpstreamAddress(
    firstName: Option<string>,
    lastName: Option<string>,
    address1: Option<string>,
    address2: Option<string>,
    zip: Option<string>,
    city: Option<string>,
    country: Option<string>,
    countryCode: Option<string>,
    phone: Option<string>)

  /** The `customer` object of an order; upstream ids are numbers. */
  datatype OrderCustomer = OrderCustomer(id: nat)

  /** The fields of an upstream order the proxy reads. */
  datatype Order = Order(
    id: nat,
    orderNumber: nat,
    createdAt: string,
    fulfillmentStatus: Option<string>,
    financialStatus: Option<string>,
    currency: Option<string>,
    subtotalPrice: Option<string>,
    totalPrice: string,
    totalShippingPriceSet: Option<PriceSet>,
    discountCodes: Option<seq<DiscountCode>>,
    lineItems: seq<LineItem>,
    shippingAddress: Option<UpstreamAddress>,
    billingAddress: Option<UpstreamAddress>,
    orderStatusUrl: Option<string>,
    customer: Option<OrderCustomer>)

  // ---------------------------------------------------------------------
  // Ownership
  // ---------------------------------------------------------------------

  /**
   * The ownership check of the order detail route passes: the order has no
   * customer, or `String(o.customer.id) === String(customerId)`.
   */
  predicate OwnedBy(o: Order, customerId: string) {
    o.customer.None? || Decimal.ToDecimal(o.customer.value.id) == customerId
  }

  /**
   * The check compares strings, so a requested id passes exactly when it is
   * the canonical decimal rendering of the owner's id: "0555" is refused for
   * customer 555.
   */
  lemma OwnedByMeansSameNumber(o: Order, customerId: string)
    ensures OwnedBy(o, customerId)
      <==> o.customer.None? || Decimal.Parse(customerId) == Some(o.customer.value.id)
  {
    if o.customer.Some? {
      Decimal.ParseIsInverse(customerId, o.customer.value.id);
    }
  }

  /** At most one canonical id passes the check for an order that has a customer. */
  lemma OneOwner(o: Order, a: string, b: string)
    requires o.customer.Some? && OwnedBy(o, a) && OwnedBy(o, b)
    ensures a == b
  {
  }

  // ---------------------------------------------------------------------
  // Order list
  // ---------------------------------------------------------------------

  /** `` `#CMD-${o.order_number}` ``, the id the portal displays. */
  function DisplayId(orderNumber: nat): (id: string)
    ensures |id| > 5 && id[..5] == "#CMD-"
    ensures Decimal.IsCanonical(id[5..]) && Decimal.Value(id[5..]) == orderNumber
  {
    "#CMD-" + Decimal.ToDecimal(orderNumber)
  }

  /** Reads a display id back to its order number. */
  function ParseDisplayId(id: string): Option<nat> {
    if |id| >= 5 && id[..5] == "#CMD-" then Decimal.Parse(id[5..]) else None
  }

  /** The display id is readable back to the order number, so display ids are distinct. */
  lemma DisplayIdRoundTrip(orderNumber: nat)
    ensures ParseDisplayId(DisplayId(orderNumber)) == Some(orderNumber)
  {
    var id := DisplayId(orderNumber);
    assert id[5..] == Decimal.ToDecimal(orderNumber);
    Decimal.ParseIsInverse(id[5..], orderNumber);
  }

  lemma DisplayIdInjective(a: nat, b: nat)
    ensures DisplayId(a) == DisplayId(b) <==> a == b
  {
    DisplayIdRoundTrip(a);
    DisplayIdRoundTrip(b);
  }

  const DefaultCurrency: string := "EUR"
  const DefaultDescription: string := "Commande Cardaris"

  /** `` `${o.total_price} ${o.currency || "EUR"}` ``. */
  function TotalFormatted(o: Order): (t: string)
    ensures |t| > |o.totalPrice| + 1
    ensures t[..|o.totalPrice|] == o.totalPrice && t[|o.totalPrice|] == ' '
    ensures t[|o.totalPrice| + 1..] == Or(o.currency, DefaultCurrency)
  {
    o.totalPrice + " " + Or(o.currency, DefaultCurrency)
  }

  /** `o.line_items[0]?.title || "Commande Cardaris"`. */
  function Description(items: seq<LineItem>): (d: string)
    ensures d != ""
    ensures |items| > 0 && Truthy(items[0].title) ==> d == items[0].title.value
    ensures !(|items| > 0 && Truthy(items[0].title)) ==> d == DefaultDescription
  {
    if |items| > 0 then Or(items[0].title, DefaultDescription) else DefaultDescription
  }

  /** One entry of the order list (the localized date is not part of this model). */
  datatype OrderSummary = OrderSummary(
    id: string,
    orderId: nat,
    totalFormatted: string,
    description: string,
    status: string,
    statusVariant: string,
    orderStatusUrl: Option<string>)

  function SummarizeOrder(o: Order): (s: OrderSummary)
    ensures ParseDisplayId(s.id) == Some(o.orderNumber)
    ensures s.orderId == o.id
    ensures Badge(s.status, s.statusVariant) == MapFulfillmentStatus(o.fulfillmentStatus)
    ensures s.totalFormatted == TotalFormatted(o)
    ensures s.description == Description(o.lineItems)
    ensures Truthy(o.orderStatusUrl) ==> s.orderStatusUrl == o.orderStatusUrl
    ensures !Truthy(o.orderStatusUrl) ==> s.orderStatusUrl == None
  {
    DisplayIdRoundTrip(o.orderNumber);
    var b := MapFulfillmentStatus(o.fulfillmentStatus);
    OrderSummary(
      DisplayId(o.orderNumber),
      o.id,
      TotalFormatted(o),
      Description(o.lineItems),
      b.text,
      b.variant,
      OrNull(o.orderStatusUrl))
  }

  /**
   * A total without spaces and a currency without spaces can be read back
   * from the formatted total; a missing or empty currency reads back as EUR.
   */
  lemma TotalFormattedReadsBack(o: Order)
    requires ' ' !in o.totalPrice && ' ' !in Or(o.currency, DefaultCurrency)
    ensures Split(TotalFormatted(o), ' ') == [o.totalPrice, Or(o.currency, DefaultCurrency)]
    ensures !Truthy(o.currency) ==> Split(TotalFormatted(o), ' ')[1] == "EUR"
  {
    var parts := [o.totalPrice, Or(o.currency, DefaultCurrency)];
    assert Join(parts, ' ') == TotalFormatted(o);
    SplitJoin(parts, ' ');
  }

  /** `orders.map(...)`: one summary per upstream order, in upstream order. */
  function SummarizeOrders(orders: seq<Order>): (r: seq<OrderSummary>)
    ensures |r| == |orders|
    ensures forall i :: 0 <= i < |r| ==> r[i] == SummarizeOrder(orders[i])
  {
    seq(|orders|, i requires 0 <= i < |orders| => SummarizeOrder(orders[i]))
  }

  /**
   * The example order 1042 of a "T-shirt" at 49.90 EUR, shipped. The order
   * is a parameter fixed by `requires`, so that the verifier unfolds the
   * decimal rendering only as far as the asserts below guide it.
   */
  lemma SummaryExample(o: Order)
    requires o.orderNumber == 1042 && o.totalPrice == "49.90" && o.currency == Some("EUR")
    requires |o.lineItems| == 1 && o.lineItems[0].title == Some("T-shirt")
    requires o.fulfillmentStatus == Some("fulfilled")
    ensures var s := SummarizeOrder(o);
      && s.id == "#CMD-1042" && s.totalFormatted == "49.90 EUR" && s.description == "T-shirt"
      && s.status == "Expédiée" && s.statusVariant == "success"
  {
    var n: nat := o.orderNumber;
    assert Decimal.ToDecimal(n) == Decimal.ToDecimal(n / 10) + [Decimal.DigitChar(2)];
    assert Decimal.ToDecimal(104) == Decimal.ToDecimal(10) + [Decimal.DigitChar(4)];
    assert Decimal.ToDecimal(10) == Decimal.ToDecimal(1) + [Decimal.DigitChar(0)];
    assert Decimal.ToDecimal(n) == "1042";
  }

  // ---------------------------------------------------------------------
  // Order detail
  // ---------------------------------------------------------------------

  /** The flat address block of the order detail. */
  datatype AddressView = AddressView(
    name: string,
    line1: string,
    line2: string,
    zip: string,
    city: string,
    country: string,
    phone: string)

  /** `a.country || a.country_code || ""`. */
  function CountryOf(a: UpstreamAddress): (c: string)
    ensures Truthy(a.country) ==> c == a.country.value
    ensures !Truthy(a.country) && Truthy(a.countryCode) ==> c == a.countryCode.value
    ensures c == "" <==> !Truthy(a.country) && !Truthy(a.countryCode)
  {
    Or(a.country, Or(a.countryCode, ""))
  }

  /** A flat field holds the upstream value when it is truthy, and "" exactly otherwise. */
  predicate FieldOf(upstream: Option<string>, shown: string) {
    && (shown == "" <==> !Truthy(upstream))
    && (Truthy(upstream) ==> shown == upstream.value)
  }

  /**
   * An address block exists exactly when upstream sent an address; its name
   * is the display name of the address's first and last names.
   */
  function NormalizeAddress(a: Option<UpstreamAddress>): (v: Option<AddressView>)
    ensures v.None? <==> a.None?
    ensures a.Some? ==> v.value.name == Profiles.DisplayName(a.value.firstName, a.value.lastName)
    ensures a.Some? ==> v.value.country == CountryOf(a.value)
    ensures a.Some? ==> FieldOf(a.value.address1, v.value.line1)
    ensures a.Some? ==> FieldOf(a.value.address2, v.value.line2)
    ensures a.Some? ==> FieldOf(a.value.zip, v.value.zip)
    ensures a.Some? ==> FieldOf(a.value.city, v.value.city)
    ensures a.Some? ==> FieldOf(a.value.phone, v.value.phone)
  {
    match a
    case None => None
    case Some(u) =>
      Some(AddressView(
        Profiles.DisplayName(u.firstName, u.lastName),
        Or(u.address1, ""),
        Or(u.address2, ""),
        Or(u.zip, ""),
        Or(u.city, ""),
        CountryOf(u),
        Or(u.phone, "")))
  }

  /** `o.total_shipping_price_set?.shop_money?.amount ?? null`: `??` keeps an empty amount. */
  function ShippingPrice(priceSet: Option<PriceSet>): (p: Option<string>)
    ensures p.Some? <==> priceSet.Some? && priceSet.value.shopMoney.Some? && priceSet.value.shopMoney.value.amount.Some?
    ensures p.Some? ==> p.value == priceSet.value.shopMoney.value.amount.value
  {
    match priceSet
    case None => None
    case Some(ps) =>
      match ps.shopMoney
      case None => None
      case Some(m) => m.amount
  }

  /** `(o.discount_codes && o.discount_codes[0]?.code) || null`. */
  function FirstDiscountCode(codes: Option<seq<DiscountCode>>): (c: Option<string>)
    ensures c != Some("")
    ensures c.Some? <==> codes.Some? && |codes.value| > 0 && Truthy(codes.value[0].code)
    ensures c.Some? ==> c.value == codes.value[0].code.value
  {
    if codes.Some? && |codes.value| > 0 then OrNull(codes.value[0].code) else None
  }

  /** A line item of the detail (its computed total is not part of this model). */
  /**
   * The line of the detail: the upstream line's fields as sent. It stands
   * apart from `LineItem` because the detail line also carries a computed
   * `total`, which is not part of this model.
   */
  datatype LineItemView = LineItemView(
    id: nat,
    title: Option<string>,
    quantity: int,
    sku: Option<string>,
    variantTitle: Option<string>,
    price: Option<string>)

  /** A line of the detail shows every upstream field as sent, absent ones as `null`. */
  function ViewLineItem(li: LineItem): (v: LineItemView)
    ensures v.id == li.id && v.title == li.title && v.quantity == li.quantity
    ensures v.sku == li.sku && v.variantTitle == li.variantTitle && v.price == li.price
  {
    LineItemView(li.id, li.title, li.quantity, li.sku, li.variantTitle, li.price)
  }

  /** The detail of one order (the localized date and time are not part of this model). */
  datatype OrderDetail = OrderDetail(
    id: string,
    orderId: nat,
    createdAt: string,
    status: string,
    statusVariant: string,
    financialStatus: string,
    currency: Option<string>,
    subtotalPrice: Option<string>,
    totalPrice: string,
    shippingPrice: Option<string>,
    discountCode: Option<string>,
    lineItems: seq<LineItemView>,
    shippingAddress: Option<AddressView>,
    billingAddress: Option<AddressView>,
    orderStatusUrl: Option<string>)

  function MapOrderDetail(o: Order): (d: OrderDetail)
    ensures ParseDisplayId(d.id) == Some(o.orderNumber) && d.orderId == o.id
    ensures Badge(d.status, d.statusVariant) == MapFulfillmentStatus(o.fulfillmentStatus)
    ensures d.createdAt == o.createdAt
    ensures FieldOf(o.financialStatus, d.financialStatus)
    ensures d.currency == o.currency && d.subtotalPrice == o.subtotalPrice && d.totalPrice == o.totalPrice
    ensures d.shippingPrice == ShippingPrice(o.totalShippingPriceSet)
    ensures d.discountCode == FirstDiscountCode(o.discountCodes)
    ensures |d.lineItems| == |o.lineItems|
    ensures forall i :: 0 <= i < |d.lineItems| ==>
              && d.lineItems[i].id == o.lineItems[i].id
              && d.lineItems[i].title == o.lineItems[i].title
              && d.lineItems[i].quantity == o.lineItems[i].quantity
              && d.lineItems[i].sku == o.lineItems[i].sku
              && d.lineItems[i].variantTitle == o.lineItems[i].variantTitle
              && d.lineItems[i].price == o.lineItems[i].price
    ensures d.shippingAddress == NormalizeAddress(o.shippingAddress)
    ensures d.billingAddress == NormalizeAddress(o.billingAddress)
    ensures Truthy(o.orderStatusUrl) ==> d.orderStatusUrl == o.orderStatusUrl
    ensures !Truthy(o.orderStatusUrl) ==> d.orderStatusUrl == None
  {
    DisplayIdRoundTrip(o.orderNumber);
    var b := MapFulfillmentStatus(o.fulfillmentStatus);
    OrderDetail(
      DisplayId(o.orderNumber),
      o.id,
      o.createdAt,
      b.text,
      b.variant,
      Or(o.financialStatus, ""),
      o.currency,
      o.subtotalPrice,
      o.totalPrice,
      ShippingPrice(o.totalShippingPriceSet),
      FirstDiscountCode(o.discountCodes),
      seq(|o.lineItems|, i requires 0 <= i < |o.lineItems| => ViewLineItem(o.lineItems[i])),
      NormalizeAddress(o.shippingAddress),
      NormalizeAddress(o.billingAddress),
      OrNull(o.orderStatusUrl))
  }

  /** The list entry and the detail of one order show the same id and the same status. */
  lemma SummaryAgreesWithDetail(o: Order)
    ensures SummarizeOrder(o).id == MapOrderDetail(o).id
    ensures SummarizeOrder(o).status == MapOrderDetail(o).status
    ensures SummarizeOrder(o).statusVariant == MapOrderDetail(o).statusVariant
    ensures SummarizeOrder(o).orderStatusUrl == MapOrderDetail(o).orderStatusUrl
  {
    DisplayIdRoundTrip(o.orderNumber);
  }
}
