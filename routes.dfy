/**
 * The routes of the proxy as decisions: which guard answers first, which
 * upstream call is made, and what the response carries.
 *
 * A route takes the upstream reply as a parameter; it is read only when the
 * route makes its call, and `Handled.call` says whether it does.
 */
module Routes {
  import opened JsValues
  import opened JsStrings
  import opened Profiles
  import opened Orders

  /** The process configuration: store domain, access token and an optional test customer id. */
  datatype Config = Config(
    storeDomain: Option<string>,
    accessToken: Option<string>,
    testCustomerId: Option<string>)

  /** `SHOPIFY_STORE_DOMAIN && SHOPIFY_ACCESS_TOKEN`: the upstream client exists. */
  predicate ShopifyConfigured(cfg: Config) {
    Truthy(cfg.storeDomain) && Truthy(cfg.accessToken)
  }

  /**
   * `getCustomerIdFromRequest`: `req.query.customerId || SHOPIFY_TEST_CUSTOMER_ID || null`.
   * An empty query value falls through to the test id; an empty id is never returned.
   */
  function ResolveCustomerId(queryCustomerId: Option<string>, testCustomerId: Option<string>): (id: Option<string>)
    ensures id != Some("")
    ensures id.Some? <==> Truthy(queryCustomerId) || Truthy(testCustomerId)
    ensures Truthy(queryCustomerId) ==> id == queryCustomerId
    ensures !Truthy(queryCustomerId) && Truthy(testCustomerId) ==> id == testCustomerId
  {
    if Truthy(queryCustomerId) then queryCustomerId else OrNull(testCustomerId)
  }

  /** The error responses of the routes. */
  datatype Failure = NotConfigured | MissingCustomerId | Forbidden {
    /** An error code: 500, 400 or 403. */
    function StatusCode(): (code: int)
      ensures code in [500, 400, 403]
    {
      match this
      case NotConfigured => 500
      case MissingCustomerId => 400
      case Forbidden => 403
    }

    /** The `error` text of the response body; a 403 body carries nothing else. */
    function Message(): string {
      match this
      case NotConfigured => "Shopify non configuré (domaine ou token manquant)."
      case MissingCustomerId =>
        "Aucun customerId fourni. Utilise ?customerId=ID dans l'URL ou configure SHOPIFY_TEST_CUSTOMER_ID."
      case Forbidden => "Cette commande n'appartient pas à ce client."
    }
  }

  /** A client that is not configured answers 500 with its `error` text. */
  lemma NotConfiguredResponse()
    ensures NotConfigured.StatusCode() == 500
    ensures NotConfigured.Message() == "Shopify non configuré (domaine ou token manquant)."
  {
  }

  /** A request without a customer id answers 400 with its `error` text. */
  lemma MissingCustomerIdResponse()
    ensures MissingCustomerId.StatusCode() == 400
    ensures MissingCustomerId.Message()
         == "Aucun customerId fourni. Utilise ?customerId=ID dans l'URL ou configure SHOPIFY_TEST_CUSTOMER_ID."
  {
  }

  /** A foreign order answers 403 with its `error` text. */
  lemma ForbiddenResponse()
    ensures Forbidden.StatusCode() == 403
    ensures Forbidden.Message() == "Cette commande n'appartient pas à ce client."
  {
  }

  datatype Outcome<T> = Ok(body: T) | Err(failure: Failure) {
    /** 200 for a body, the failure's code otherwise, and never 200 for a failure. */
    function StatusCode(): (code: int)
      ensures code == 200 <==> Ok?
      ensures Err? ==> code == failure.StatusCode()
    {
      if Ok? then 200 else failure.StatusCode()
    }
  }

  /** The upstream request a route makes, with the values it sends. */
  datatype UpstreamCall =
    | GetCustomer(customerId: string)
    | PutCustomer(customerId: string, payload: UpdatePayload)
    | ListOrders(customerId: string, status: string, sortOrder: string)
    | GetOrder(orderId: string)
    | ListAddresses(customerId: string)

  datatype Handled<T> = Handled(call: Option<UpstreamCall>, outcome: Outcome<T>)

  datatype Guarded = Pass(customerId: string) | Reject(failure: Failure)

  /**
   * The guards every id-requiring route runs first, in this order: no client
   * gives 500 whatever the request, then no customer id gives 400.
   */
  function Guard(cfg: Config, queryCustomerId: Option<string>): (g: Guarded)
    ensures !ShopifyConfigured(cfg) ==> g == Reject(NotConfigured)
    ensures ShopifyConfigured(cfg) ==>
              (g == Reject(MissingCustomerId) <==> ResolveCustomerId(queryCustomerId, cfg.testCustomerId).None?)
    ensures g.Pass? <==> ShopifyConfigured(cfg) && ResolveCustomerId(queryCustomerId, cfg.testCustomerId).Some?
    ensures g.Pass? ==> Some(g.customerId) == ResolveCustomerId(queryCustomerId, cfg.testCustomerId)
    ensures g.Reject? ==> g.failure != Forbidden
  {
    if !ShopifyConfigured(cfg) then
      Reject(NotConfigured)
    else
      match ResolveCustomerId(queryCustomerId, cfg.testCustomerId)
      case None => Reject(MissingCustomerId)
      case Some(id) => Pass(id)
  }

  /** GET /profile. */
  function ProfileRoute(cfg: Config, queryCustomerId: Option<string>, reply: Customer): (h: Handled<Profile>)
    ensures Guard(cfg, queryCustomerId).Pass? ==>
              h == Handled(Some(GetCustomer(Guard(cfg, queryCustomerId).customerId)), Ok(MapCustomerToProfile(reply)))
  {
    match Guard(cfg, queryCustomerId)
    case Reject(f) => Handled(None, Err(f))
    case Pass(id) => Handled(Some(GetCustomer(id)), Ok(MapCustomerToProfile(reply)))
  }

  /** The `{ ok: true, profile }` envelope of a profile update. */
  datatype UpdateAck = UpdateAck(ok: bool, profile: Profile)

  /** POST /profile/update: the payload goes to the resolved id, the reply is mapped back. */
  function UpdateProfileRoute(cfg: Config, queryCustomerId: Option<string>, edit: ProfileEdit, reply: Customer)
    : (h: Handled<UpdateAck>)
    ensures Guard(cfg, queryCustomerId).Pass? ==>
              var id := Guard(cfg, queryCustomerId).customerId;
              && h.call == Some(PutCustomer(id, BuildUpdatePayload(id, edit)))
              && h.call.value.payload.id == id
              && h.outcome == Ok(UpdateAck(true, MapCustomerToProfile(reply)))
  {
    match Guard(cfg, queryCustomerId)
    case Reject(f) => Handled(None, Err(f))
    case Pass(id) =>
      Handled(Some(PutCustomer(id, BuildUpdatePayload(id, edit))), Ok(UpdateAck(true, MapCustomerToProfile(reply))))
  }

  /** GET /orders: every order of the customer, newest first as requested, summarized. */
  function OrdersRoute(cfg: Config, queryCustomerId: Option<string>, reply: Option<seq<Order>>)
    : (h: Handled<seq<OrderSummary>>)
    ensures Guard(cfg, queryCustomerId).Pass? ==>
              && h.call == Some(ListOrders(Guard(cfg, queryCustomerId).customerId, "any", "created_at desc"))
              && h.outcome.Ok?
              && |h.outcome.body| == (if reply.Some? then |reply.value| else 0)
              && forall i :: 0 <= i < |h.outcome.body| ==> h.outcome.body[i] == SummarizeOrder(reply.value[i])
  {
    match Guard(cfg, queryCustomerId)
    case Reject(f) => Handled(None, Err(f))
    case Pass(id) =>
      var orders := if reply.Some? then reply.value else [];
      Handled(Some(ListOrders(id, "any", "created_at desc")), Ok(SummarizeOrders(orders)))
  }

  /**
   * GET /orders/:orderId: the order is fetched, then refused with 403 when it
   * has a customer other than the requesting one; an order without a customer
   * is shown.
   */
  function OrderDetailRoute(cfg: Config, queryCustomerId: Option<string>, orderId: string, reply: Order)
    : (h: Handled<OrderDetail>)
    ensures var g := Guard(cfg, queryCustomerId);
      && (g.Pass? ==> h.call == Some(GetOrder(orderId)))
      && (h.outcome.Ok? <==> g.Pass? && OwnedBy(reply, g.customerId))
      && (h.outcome.Ok? ==> h.outcome.body == MapOrderDetail(reply))
      && (g.Pass? && !OwnedBy(reply, g.customerId) ==> h.outcome == Err(Forbidden))
  {
    match Guard(cfg, queryCustomerId)
    case Reject(f) => Handled(None, Err(f))
    case Pass(id) =>
      if OwnedBy(reply, id) then Handled(Some(GetOrder(orderId)), Ok(MapOrderDetail(reply)))
      else Handled(Some(GetOrder(orderId)), Err(Forbidden))
  }

  /** GET /addresses: the upstream list is passed through, a missing one as []. */
  function AddressesRoute<A>(cfg: Config, queryCustomerId: Option<string>, reply: Option<seq<A>>)
    : (h: Handled<seq<A>>)
    ensures Guard(cfg, queryCustomerId).Pass? ==>
              && h.call == Some(ListAddresses(Guard(cfg, queryCustomerId).customerId))
              && h.outcome == Ok(if reply.Some? then reply.value else [])
  {
    match Guard(cfg, queryCustomerId)
    case Reject(f) => Handled(None, Err(f))
    case Pass(id) => Handled(Some(ListAddresses(id)), Ok(if reply.Some? then reply.value else []))
  }

  /**
   * A failed guard answers every id-requiring route alike, before any upstream
   * call and whatever upstream would have replied: 500 when the client is not
   * configured, else 400 when no customer id resolves.
   */
  lemma GuardsAnswerFirst<A>(
    cfg: Config, queryCustomerId: Option<string>, edit: ProfileEdit, orderId: string,
    customer: Customer, orders: Option<seq<Order>>, order: Order, addresses: Option<seq<A>>)
    requires Guard(cfg, queryCustomerId).Reject?
    ensures var f := Guard(cfg, queryCustomerId).failure;
      && f.StatusCode() == (if ShopifyConfigured(cfg) then 400 else 500)
      && ProfileRoute(cfg, queryCustomerId, customer) == Handled(None, Err(f))
      && UpdateProfileRoute(cfg, queryCustomerId, edit, customer) == Handled(None, Err(f))
      && OrdersRoute(cfg, queryCustomerId, orders) == Handled(None, Err(f))
      && OrderDetailRoute(cfg, queryCustomerId, orderId, order) == Handled(None, Err(f))
      && AddressesRoute(cfg, queryCustomerId, addresses) == Handled(None, Err(f))
  {
  }

  /** A 403 depends on nothing in the order: two refused orders give the same response. */
  lemma ForbiddenRevealsNothing(
    cfg: Config, queryCustomerId: Option<string>, id1: string, id2: string, o1: Order, o2: Order)
    requires Guard(cfg, queryCustomerId).Pass?
    requires !OwnedBy(o1, Guard(cfg, queryCustomerId).customerId)
    requires !OwnedBy(o2, Guard(cfg, queryCustomerId).customerId)
    ensures OrderDetailRoute(cfg, queryCustomerId, id1, o1).outcome
         == OrderDetailRoute(cfg, queryCustomerId, id2, o2).outcome
         == Err(Forbidden)
  {
  }

  /**
   * With the example customer 555 asked for by customer 777 the answer is 403;
   * asked for by "555" it is 200. The requested ids are parameters fixed by
   * `requires`, so that the verifier does not unfold the decimal rendering
   * over literal strings.
   */
  lemma OwnershipExample(cfg: Config, orderId: string, o: Order, other: string, owner: string)
    requires ShopifyConfigured(cfg)
    requires o.customer == Some(OrderCustomer(555)) && other == "777" && owner == "555"
    ensures OrderDetailRoute(cfg, Some(other), orderId, o).outcome.StatusCode() == 403
    ensures OrderDetailRoute(cfg, Some(owner), orderId, o).outcome.StatusCode() == 200
  {
    var n: nat := 555;
    assert Decimal.ToDecimal(n) == Decimal.ToDecimal(55) + [Decimal.DigitChar(5)];
    assert Decimal.ToDecimal(55) == Decimal.ToDecimal(5) + [Decimal.DigitChar(5)];
    assert Decimal.ToDecimal(n) == owner;
  }

  /**
   * Profile update followed by the reply upstream sends when it applied the
   * payload verbatim: the acknowledged profile is the edit, name trimmed.
   */
  lemma UpdateRouteRoundTrip(cfg: Config, queryCustomerId: Option<string>, edit: ProfileEdit)
    requires Guard(cfg, queryCustomerId).Pass?
    ensures var id := Guard(cfg, queryCustomerId).customerId;
      var h := UpdateProfileRoute(cfg, queryCustomerId, edit, AppliedUpdate(BuildUpdatePayload(id, edit)));
      h.outcome == Ok(UpdateAck(true, Profile(Trim(Or(edit.fullName, "")), Or(edit.email, ""),
                                              Or(edit.nickname, ""), Notifications(true, true), "shopify")))
  {
    UpdateThenRead(Guard(cfg, queryCustomerId).customerId, edit);
  }

  /** The body of GET /. */
  datatype ServiceDescriptor = ServiceDescriptor(
    name: string,
    status: string,
    shopifyConfigured: bool,
    testCustomerConfigured: bool)

  /** GET /: the service name, "ok", and whether the client and a test customer are configured. */
  function Describe(cfg: Config): (d: ServiceDescriptor)
    ensures d.name == "Cardaris Portal API" && d.status == "ok"
    ensures d.shopifyConfigured <==> Truthy(cfg.storeDomain) && Truthy(cfg.accessToken)
    ensures d.testCustomerConfigured <==> Truthy(cfg.testCustomerId)
  {
    ServiceDescriptor("Cardaris Portal API", "ok", ShopifyConfigured(cfg), Truthy(cfg.testCustomerId))
  }

  /**
   * The descriptor tells the truth about the guards: `shopifyConfigured` is
   * false exactly when routes answer 500, and with a test customer configured
   * a request without `customerId` is never answered 400.
   */
  lemma DescriptorAgreesWithGuard(cfg: Config, queryCustomerId: Option<string>)
    ensures !Describe(cfg).shopifyConfigured <==> Guard(cfg, queryCustomerId) == Reject(NotConfigured)
    ensures Describe(cfg).shopifyConfigured && Describe(cfg).testCustomerConfigured
      ==> Guard(cfg, queryCustomerId).Pass?
  {
  }
}
