/**
 * The payment router: checkout creation, `/my-plan` and `/downgrade` run
 * behind `authMiddleware`; the webhook does not.
 */
module PaymentRoutes {
  import opened Wrappers
  import opened UserModel
  import opened AuthController
  import opened AuthMiddleware
  import opened PaymentController

  datatype PlanReply =
    | Unauthorized(message: string)
    | PlanInfo(email: string, plan: string)

  /** `GET /my-plan`: the authenticated user's address and plan. The
      collection is only read. */
  function MyPlan(store: Store, header: Option<string>, verify: string -> Option<Claims>): (r: PlanReply)
    ensures r.Unauthorized? <==> Authenticate(store, header, verify).Rejected?
    ensures r.Unauthorized? ==> r.message == Authenticate(store, header, verify).message
    ensures r.PlanInfo? ==>
      var u := Authenticate(store, header, verify).user;
      r.email == u.email && r.plan == u.plan
  {
    match Authenticate(store, header, verify)
    case Rejected(m) => Unauthorized(m)
    case Authenticated(u) => PlanInfo(u.email, u.plan)
  }

  const DowngradedMessage: string := "Your account has been downgraded to Free plan."

  datatype DowngradeResult = DowngradeResult(reply: DowngradeReply, store: Store)

  datatype DowngradeReply = Denied(message: string) | Done(message: string)

  /** The record with its plan set to free; nothing else changes. */
  function Downgraded(u: User): (v: User)
    ensures ParsePlan(v.plan) == Some(Free)
    ensures v.(plan := u.plan) == u
    ensures Valid(u) ==> Valid(v)
  {
    u.(plan := PlanName(Free))
  }

  /** `POST /downgrade`: the authenticated user's plan becomes free whatever
      it was, and the record is saved. */
  function Downgrade(store: Store, header: Option<string>, verify: string -> Option<Claims>): (r: DowngradeResult)
    ensures r.reply.Denied? <==> Authenticate(store, header, verify).Rejected?
    ensures r.reply.Denied? ==> r.store == store && r.reply.message == Authenticate(store, header, verify).message
    ensures r.reply.Done? ==>
      var u := Authenticate(store, header, verify).user;
      && r.reply.message == DowngradedMessage
      && FindById(r.store, u.id) == Some(Downgraded(u))
      && |r.store| == |store|
      && forall id :: id != u.id ==> FindById(r.store, id) == FindById(store, id)
  {
    match Authenticate(store, header, verify)
    case Rejected(m) => DowngradeResult(Denied(m), store)
    case Authenticated(u) => DowngradeResult(Done(DowngradedMessage), Save(store, Downgraded(u)))
  }

  /** Downgrading twice is downgrading once. */
  lemma DowngradeIdempotent(store: Store, header: Option<string>, verify: string -> Option<Claims>)
    ensures var once := Downgrade(store, header, verify).store;
      Downgrade(once, header, verify).store == once
  {
    var a := Authenticate(store, header, verify);
    if a.Authenticated? {
      var u := a.user;
      var once := Save(store, Downgraded(u));
      assert FindById(once, u.id) == Some(Downgraded(u));
      var b := Authenticate(once, header, verify);
      assert b == Authenticated(Downgraded(u));
      assert Downgraded(Downgraded(u)) == Downgraded(u);
      SaveUnchanged(once, Downgraded(u));
    }
  }

  /** Downgrading keeps the collection valid. */
  lemma DowngradeKeepsStoreValid(store: Store, header: Option<string>, verify: string -> Option<Claims>)
    requires StoreValid(store)
    ensures StoreValid(Downgrade(store, header, verify).store)
  {
    var a := Authenticate(store, header, verify);
    if a.Authenticated? {
      var u := a.user;
      var i :| 0 <= i < |store| && store[i] == u;
      assert Valid(u);
      SaveKeepsStoreValid(store, Downgraded(u));
    }
  }

  /** After a downgrade, `/my-plan` reports the free plan to the same caller. */
  lemma MyPlanAfterDowngrade(store: Store, header: Option<string>, verify: string -> Option<Claims>)
    requires Authenticate(store, header, verify).Authenticated?
    ensures var u := Authenticate(store, header, verify).user;
      MyPlan(Downgrade(store, header, verify).store, header, verify) == PlanInfo(u.email, "free")
  {
    var u := Authenticate(store, header, verify).user;
    var once := Save(store, Downgraded(u));
    assert FindById(once, u.id) == Some(Downgraded(u));
  }

  datatype CheckoutRouteReply = NotAuthenticated(message: string) | Checkout(result: CheckoutResult)

  /** `POST /create-checkout-session` behind the middleware: the controller
      always sees a user, so its own 401 never occurs on this route. */
  function CheckoutRoute(store: Store, header: Option<string>, verify: string -> Option<Claims>,
                         plan: Option<string>, frontendUrl: string,
                         stripe: SessionParams -> Option<string>): (r: CheckoutRouteReply)
    ensures r.NotAuthenticated? <==> Authenticate(store, header, verify).Rejected?
    ensures r.Checkout? ==>
      && r.result == CreateCheckoutSession(Some(Authenticate(store, header, verify).user), plan, frontendUrl, stripe)
      && r.result.reply != CheckoutRefused(401, "Unauthorized: no user info")
  {
    match Authenticate(store, header, verify)
    case Rejected(m) => NotAuthenticated(m)
    case Authenticated(u) => Checkout(CreateCheckoutSession(Some(u), plan, frontendUrl, stripe))
  }

  /** A user of the collection checking out through the route never fails
      the controller's completeness check. */
  lemma RouteUserComplete(store: Store, header: Option<string>, verify: string -> Option<Claims>,
                          plan: Option<string>, frontendUrl: string, stripe: SessionParams -> Option<string>)
    requires StoreValid(store)
    ensures var r := CheckoutRoute(store, header, verify, plan, frontendUrl, stripe);
      r.Checkout? ==> r.result.reply != CheckoutRefused(400, "User info incomplete")
  {
    var a := Authenticate(store, header, verify);
    if a.Authenticated? {
      var i :| 0 <= i < |store| && store[i] == a.user;
      assert Valid(a.user);
    }
  }

  /** Corrected: with the webhook verifying the delivered body, a checkout
      through the route followed by Stripe's signed completion of that
      session makes `/my-plan` report the plan that was bought. */
  lemma MyPlanAfterCheckout(store: Store, header: Option<string>, verify: string -> Option<Claims>,
                            plan: Option<string>, frontendUrl: string, stripe: SessionParams -> Option<string>,
                            payload: string, signature: Option<string>,
                            check: (string, Option<string>) -> Verification)
    requires var c := CheckoutRoute(store, header, verify, plan, frontendUrl, stripe);
      c.Checkout? && c.result.sent.Some?
      && check(payload, signature) == Verified(Event(CheckoutCompleted, c.result.sent.value.metadata))
    ensures var u := Authenticate(store, header, verify).user;
      var after := HandleWebhook(store, true, Delivery(payload, signature), check).store;
      MyPlan(after, header, verify) == PlanInfo(u.email, plan.value)
  {
    var u := Authenticate(store, header, verify).user;
    assert FindById(store, u.id) == Some(u);
    CheckoutThenWebhook(store, u, plan, frontendUrl, stripe, payload, signature, check);
  }
}
