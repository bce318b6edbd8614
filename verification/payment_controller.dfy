/**
 * The plan state machine on the server: `createCheckoutSession` validates
 * the request and describes the Stripe checkout session (Stripe itself is
 * the function `stripe`, which answers the session's URL or fails), and
 * `handleWebhook` maps a verified `checkout.session.completed` event to the
 * user's new plan. Checking a present payload against its signature is the
 * function `check`; a missing payload never verifies.
 */
module PaymentController {
  import opened Wrappers
  import opened UserModel

  datatype LineItem = LineItem(currency: string, productName: string, unitAmount: nat, quantity: nat)

  /** The session metadata; values a webhook event may lack are options. */
  datatype Metadata = Metadata(userId: Option<string>, plan: Option<string>)

  datatype SessionParams = SessionParams(
    paymentMethodTypes: seq<string>,
    mode: string,
    customerEmail: string,
    lineItems: seq<LineItem>,
    metadata: Metadata,
    successUrl: string,
    cancelUrl: string)

  datatype CheckoutReply =
    | CheckoutRefused(status: nat, message: string)
    | SessionUrl(url: string)
    | StripeFailed

  /** The reply and the session description sent to Stripe, if any. */
  datatype CheckoutResult = CheckoutResult(reply: CheckoutReply, sent: Option<SessionParams>)

  /** The plans that can be bought. */
  predicate Purchasable(plan: string) {
    plan == "premium" || plan == "premiumPlus"
  }

  /** Unit price in paise (INR minor units). */
  function UnitAmount(plan: string): nat {
    if plan == "premium" then 99900 else 199900
  }

  function ProductName(plan: string): string {
    if plan == "premium" then "DocQueryAI Premium Plan" else "DocQueryAI Premium Plus Plan"
  }

  /** `createCheckoutSession`. `user` is `req.user`, `frontendUrl` the
      configured front-end origin. */
  function CreateCheckoutSession(user: Option<User>, plan: Option<string>, frontendUrl: string,
                                 stripe: SessionParams -> Option<string>): (r: CheckoutResult)
    ensures r.reply == CheckoutRefused(401, "Unauthorized: no user info") <==> user.None?
    ensures r.reply == CheckoutRefused(400, "User info incomplete") <==>
      user.Some? && (user.value.email == "" || user.value.id == "")
    ensures r.reply == CheckoutRefused(400, "Invalid plan selected") <==>
      user.Some? && user.value.email != "" && user.value.id != ""
      && !(plan.Some? && Purchasable(plan.value))
    ensures r.reply.CheckoutRefused? <==> r.sent.None?
    ensures r.sent.Some? ==>
      var p := r.sent.value;
      && user.Some? && plan.Some? && Purchasable(plan.value)
      && p.paymentMethodTypes == ["card", "upi"] && p.mode == "payment"
      && p.customerEmail == user.value.email
      && |p.lineItems| == 1
      && p.lineItems[0].currency == "inr" && p.lineItems[0].quantity == 1
      && p.lineItems[0].unitAmount == (if plan.value == "premium" then 99900 else 199900)
      && p.lineItems[0].productName ==
           (if plan.value == "premium" then "DocQueryAI Premium Plan" else "DocQueryAI Premium Plus Plan")
      && p.metadata == Metadata(Some(user.value.id), plan)
      && p.successUrl == frontendUrl + "/payment-success"
      && p.cancelUrl == frontendUrl + "/payment-cancel"
    ensures r.sent.Some? ==>
      (r.reply.SessionUrl? <==> stripe(r.sent.value).Some?)
      && (r.reply.SessionUrl? ==> r.reply.url == stripe(r.sent.value).value)
  {
    if user.None? then CheckoutResult(CheckoutRefused(401, "Unauthorized: no user info"), None)
    else
      var u := user.value;
      if u.email == "" || u.id == "" then CheckoutResult(CheckoutRefused(400, "User info incomplete"), None)
      else if !(plan.Some? && Purchasable(plan.value)) then
        CheckoutResult(CheckoutRefused(400, "Invalid plan selected"), None)
      else
        var item := LineItem("inr", ProductName(plan.value), UnitAmount(plan.value), 1);
        var params := SessionParams(["card", "upi"], "payment", u.email, [item],
                                    Metadata(Some(u.id), plan),
                                    frontendUrl + "/payment-success", frontendUrl + "/payment-cancel");
        match stripe(params)
        case Some(url) => CheckoutResult(SessionUrl(url), Some(params))
        case None => CheckoutResult(StripeFailed, Some(params))
  }

  /** The event `constructEvent` returns for a valid signature. */
  datatype Event = Event(kind: string, metadata: Metadata)

  /** The outcome of `constructEvent`: the error it throws, or the event. */
  datatype Verification = SignatureInvalid(error: string) | Verified(event: Event)

  /** What reaches `handleWebhook` on the webhook route: `express.raw` puts
      the unparsed payload in `body`; no middleware sets `rawBody`. */
  datatype WebhookRequest = WebhookRequest(body: Option<string>, rawBody: Option<string>, signature: Option<string>)

  /** A delivery of `payload` with the `stripe-signature` header `signature`,
      as the route hands it on. */
  function Delivery(payload: string, signature: Option<string>): (q: WebhookRequest)
    ensures q.body == Some(payload) && q.rawBody.None? && q.signature == signature
  {
    WebhookRequest(Some(payload), None, signature)
  }

  /** The error message standing for the library's refusal of a missing
      payload. */
  const NoPayloadError: string := "No webhook payload was provided."

  /** `stripe.webhooks.constructEvent`: a missing payload can never be
      verified; a present one is checked against the signature by `check`. */
  function ConstructEvent(payload: Option<string>, signature: Option<string>,
                          check: (string, Option<string>) -> Verification): (v: Verification)
    ensures payload.None? ==> v == SignatureInvalid(NoPayloadError)
    ensures payload.Some? ==> v == check(payload.value, signature)
  {
    if payload.None? then SignatureInvalid(NoPayloadError) else check(payload.value, signature)
  }

  datatype WebhookReply =
    | Misconfigured
    | BadSignature(message: string)
    | Received
  {
    function Status(): nat {
      match this
      case Misconfigured => 500
      case BadSignature(_) => 400
      case Received => 200
    }
  }

  datatype WebhookResult = WebhookResult(reply: WebhookReply, store: Store)

  const CheckoutCompleted: string := "checkout.session.completed"

  /** The plan a completed checkout grants: premiumPlus when the metadata
      says so, premium for any other value or none. */
  function GrantedPlan(plan: Option<string>): (s: string)
    ensures s == "premiumPlus" <==> plan == Some("premiumPlus")
    ensures ParsePlan(s).Some? && Purchasable(s)
  {
    if plan == Some("premiumPlus") then "premiumPlus" else "premium"
  }

  /** The body of `handleWebhook` after the call to `constructEvent`, given
      whether the webhook secret is configured and what verification gave. */
  function Respond(store: Store, secretConfigured: bool, verification: Verification): (r: WebhookResult)
    ensures r.reply == Misconfigured <==> !secretConfigured
    ensures r.reply.BadSignature? <==> secretConfigured && verification.SignatureInvalid?
    ensures r.reply.BadSignature? ==> r.reply.message == "Webhook Error: " + verification.error
    ensures r.reply == Received <==> secretConfigured && verification.Verified?
    // Only a completed checkout naming a stored user changes the collection.
    ensures (!(r.reply == Received && verification.event.kind == CheckoutCompleted
               && verification.event.metadata.userId.Some?
               && FindById(store, verification.event.metadata.userId.value).Some?))
      ==> r.store == store
    ensures (&& r.reply == Received && verification.event.kind == CheckoutCompleted
             && verification.event.metadata.userId.Some?
             && FindById(store, verification.event.metadata.userId.value).Some?)
      ==>
      var id := verification.event.metadata.userId.value;
      var u := FindById(store, id).value;
      && FindById(r.store, id) == Some(u.(plan := GrantedPlan(verification.event.metadata.plan)))
      && |r.store| == |store|
      && forall other :: other != id ==> FindById(r.store, other) == FindById(store, other)
  {
    if !secretConfigured then WebhookResult(Misconfigured, store)
    else match verification
      case SignatureInvalid(error) => WebhookResult(BadSignature("Webhook Error: " + error), store)
      case Verified(event) =>
        WebhookResult(Received, ApplyEvent(store, event))
  }

  /** `handleWebhook` as written: it verifies `req.rawBody`, which is never
      set, so once the secret is configured every delivery is refused and the
      collection never changes. */
  function HandleWebhookAsWritten(store: Store, secretConfigured: bool, req: WebhookRequest,
                                  check: (string, Option<string>) -> Verification): (r: WebhookResult)
    ensures !secretConfigured ==> r == WebhookResult(Misconfigured, store)
    ensures secretConfigured && req.rawBody.None? ==>
      r == WebhookResult(BadSignature("Webhook Error: " + NoPayloadError), store)
  {
    Respond(store, secretConfigured, ConstructEvent(req.rawBody, req.signature, check))
  }

  /** Every delivery the route can hand on is answered 400 by the handler as
      written, whatever its payload and signature, and no plan is granted. */
  lemma EveryDeliveryRejected(store: Store, payload: string, signature: Option<string>,
                              check: (string, Option<string>) -> Verification)
    ensures var r := HandleWebhookAsWritten(store, true, Delivery(payload, signature), check);
      && r.reply.Status() == 400
      && r.reply == BadSignature("Webhook Error: " + NoPayloadError)
      && forall id :: FindById(r.store, id) == FindById(store, id)
  {
  }

  /** `handleWebhook` verifying the payload `express.raw` delivered,
      `req.body`. */
  function HandleWebhook(store: Store, secretConfigured: bool, req: WebhookRequest,
                         check: (string, Option<string>) -> Verification): (r: WebhookResult)
    ensures !secretConfigured ==> r == WebhookResult(Misconfigured, store)
    ensures secretConfigured && req.body.None? ==>
      r == WebhookResult(BadSignature("Webhook Error: " + NoPayloadError), store)
    ensures secretConfigured && req.body.Some? ==>
      (r.reply == Received <==> check(req.body.value, req.signature).Verified?)
      && (r.reply.BadSignature? ==>
            r.reply.message == "Webhook Error: " + check(req.body.value, req.signature).error
            && r.store == store)
      && (r.reply == Received ==> r.store == ApplyEvent(store, check(req.body.value, req.signature).event))
  {
    Respond(store, secretConfigured, ConstructEvent(req.body, req.signature, check))
  }

  /** The collection after a verified event. */
  function ApplyEvent(store: Store, event: Event): Store {
    if event.kind == CheckoutCompleted && event.metadata.userId.Some? then
      match FindById(store, event.metadata.userId.value)
      case None => store
      case Some(u) => Save(store, u.(plan := GrantedPlan(event.metadata.plan)))
    else store
  }

  /** Delivering the same event twice has the effect of delivering it once. */
  lemma WebhookIdempotent(store: Store, req: WebhookRequest, check: (string, Option<string>) -> Verification)
    ensures var once := HandleWebhook(store, true, req, check).store;
      HandleWebhook(once, true, req, check).store == once
  {
    var v := ConstructEvent(req.body, req.signature, check);
    if v.Verified? {
      var event := v.event;
      var once := ApplyEvent(store, event);
      if event.kind == CheckoutCompleted && event.metadata.userId.Some? {
        var id := event.metadata.userId.value;
        if FindById(store, id).Some? {
          var u := FindById(store, id).value;
          var w := u.(plan := GrantedPlan(event.metadata.plan));
          assert FindById(once, id) == Some(w);
          assert w.(plan := GrantedPlan(event.metadata.plan)) == w;
          SaveUnchanged(once, w);
        }
      }
    }
  }

  /** Webhook deliveries keep the collection valid. */
  lemma WebhookKeepsStoreValid(store: Store, secretConfigured: bool, req: WebhookRequest,
                               check: (string, Option<string>) -> Verification)
    requires StoreValid(store)
    ensures StoreValid(HandleWebhook(store, secretConfigured, req, check).store)
  {
    var v := ConstructEvent(req.body, req.signature, check);
    if secretConfigured && v.Verified? {
      var event := v.event;
      if event.kind == CheckoutCompleted && event.metadata.userId.Some? {
        var id := event.metadata.userId.value;
        if FindById(store, id).Some? {
          var u := FindById(store, id).value;
          var i := FindIndex(store, HasId(id)).value;
          assert Valid(store[i]);
          SaveKeepsStoreValid(store, u.(plan := GrantedPlan(event.metadata.plan)));
        }
      }
    }
  }

  /** Corrected: with the webhook verifying the delivered body, checkout and
      webhook agree: when Stripe delivers a signed completion of the session
      that checkout described, the stored user gets exactly the plan that was
      requested. */
  lemma CheckoutThenWebhook(store: Store, u: User, plan: Option<string>, frontendUrl: string,
                            stripe: SessionParams -> Option<string>, payload: string,
                            signature: Option<string>, check: (string, Option<string>) -> Verification)
    requires FindById(store, u.id) == Some(u)
    requires CreateCheckoutSession(Some(u), plan, frontendUrl, stripe).sent.Some?
    requires check(payload, signature) ==
      Verified(Event(CheckoutCompleted, CreateCheckoutSession(Some(u), plan, frontendUrl, stripe).sent.value.metadata))
    ensures var r := HandleWebhook(store, true, Delivery(payload, signature), check);
      r.reply == Received && FindById(r.store, u.id) == Some(u.(plan := plan.value))
  {
  }
}
