/**
 * The p99 -> p199 upgrade: the preconditions on the caller's active
 * entitlement, the prorated credit for its unused queries, the single-use
 * coupon carrying that credit, the get-or-create of the caller's Stripe
 * customer, and the discounted Checkout Session.
 *
 * Every Stripe reply is a parameter. `get_active_entitlement` is not part of
 * this model: its answer is the parameter `ent`.
 */
module UpgradeCheckout {
  import opened Wrappers
  import opened Strings
  import opened AuthRepo
  import BillingWebhook
  import BillingRoutes
  import UsageRepo

  const UPGRADE_FROM := "p99"
  const UPGRADE_TO := "p199"
  const COUPON_LIFETIME_SECONDS := 60 * 30

  /** An exception raised by the Stripe library: its class name and message. */
  datatype StripeFailure = StripeFailure(typeName: string, message: string)

  /** `s[:n]` */
  function Prefix(s: string, n: nat): (r: string)
    ensures r <= s
    ensures |r| == if |s| <= n then |s| else n
  {
    if |s| <= n then s else s[..n]
  }

  /** `_mxn_to_cents`: whole pesos to cents, negative amounts counting as zero. */
  function MxnToCents(mxn: int): (c: int)
    ensures c >= 0 && c % 100 == 0
    ensures c > 0 <==> mxn > 0
    ensures mxn >= 0 ==> c / 100 == mxn
  {
    (if mxn > 0 then mxn else 0) * 100
  }

  /**
   * `int(max(0, int(remaining * (from_price / quota_total))))` in exact
   * arithmetic: the largest whole number of pesos not exceeding the value of
   * the unused queries, and 0 when that value is not positive.
   */
  function ProratedCredit(remaining: int, fromPriceMxn: int, quotaTotal: int): (c: int)
    requires quotaTotal > 0
    ensures c >= 0
    ensures c * quotaTotal <= (if remaining * fromPriceMxn > 0 then remaining * fromPriceMxn else 0)
    ensures remaining * fromPriceMxn > 0 ==> remaining * fromPriceMxn < (c + 1) * quotaTotal
  {
    var value := remaining * fromPriceMxn;
    if value <= 0 then 0 else value / quotaTotal
  }

  /** `a * q < b * q` with a positive `q` gives `a < b`. */
  lemma CancelPositiveFactor(a: int, b: int, q: int)
    requires q > 0 && a * q < b * q
    ensures a < b
  {
  }

  /** Unused queries are worth at most what was paid for them: the credit never exceeds the price. */
  lemma CreditAtMostPricePaid(remaining: int, fromPriceMxn: int, quotaTotal: int)
    requires quotaTotal > 0 && 0 <= remaining <= quotaTotal && fromPriceMxn >= 0
    ensures ProratedCredit(remaining, fromPriceMxn, quotaTotal) <= fromPriceMxn
  {
    var c := ProratedCredit(remaining, fromPriceMxn, quotaTotal);
    assert (quotaTotal - remaining) * fromPriceMxn >= 0;
    assert c * quotaTotal < (fromPriceMxn + 1) * quotaTotal;
    CancelPositiveFactor(c, fromPriceMxn + 1, quotaTotal);
  }

  /** The credit grows with the number of unused queries. */
  lemma CreditMonotone(r1: int, r2: int, fromPriceMxn: int, quotaTotal: int)
    requires quotaTotal > 0 && r1 <= r2 && fromPriceMxn >= 0
    ensures ProratedCredit(r1, fromPriceMxn, quotaTotal) <= ProratedCredit(r2, fromPriceMxn, quotaTotal)
  {
    var c1 := ProratedCredit(r1, fromPriceMxn, quotaTotal);
    var c2 := ProratedCredit(r2, fromPriceMxn, quotaTotal);
    assert (r2 - r1) * fromPriceMxn >= 0;
    if r1 * fromPriceMxn > 0 {
      assert c1 * quotaTotal < (c2 + 1) * quotaTotal;
      CancelPositiveFactor(c1, c2 + 1, quotaTotal);
    }
  }

  /** What the checks of the upgrade handler settle before any Stripe call. */
  datatype Quote = Quote(
    userId: string,
    fromPlan: string,
    toPlan: string,
    fromEntitlementId: string,
    remaining: int,
    quotaTotal: int,
    toPriceMxn: int,
    toStripePriceId: string,
    creditMxn: int)

  /** The caller is signed in, asks for p199, and holds an active p99 entitlement. */
  predicate Eligible(userId: Option<string>, bodyToPlan: string, ent: Option<BillingWebhook.Entitlement>) {
    Present(userId) && Normalize(bodyToPlan) == UPGRADE_TO && ent.Some? && Normalize(ent.value.planCode) == UPGRADE_FROM
  }

  /** Both plan rows exist and carry a price. */
  predicate PlansPriced(plans: map<string, UsageRepo.Plan>) {
    UPGRADE_FROM in plans && UPGRADE_TO in plans
    && plans[UPGRADE_FROM].priceMxn.Some? && plans[UPGRADE_TO].priceMxn.Some?
  }

  /**
   * Steps 1 to 4 of `create_upgrade_checkout_session`, in the handler's order:
   * the session user (401), the target plan and the active p99 entitlement
   * (400), the plan rows, their prices and the destination price id (500),
   * the entitlement's quota (500), and a credit that would cover the whole
   * destination price (400).
   */
  function UpgradeQuote(userId: Option<string>, bodyToPlan: string, ent: Option<BillingWebhook.Entitlement>,
                        plans: map<string, UsageRepo.Plan>, envPriceP199: Option<string>)
    : (r: Result<Quote, HttpError>)
    ensures r.Err? && r.error.status == 401 <==> !Present(userId)
    ensures !Present(userId) ==> r == Err(HttpError(401, "No autenticado"))
    ensures Present(userId) && Normalize(bodyToPlan) != UPGRADE_TO ==> r.Err? && r.error.status == 400
    ensures Present(userId) && ent.None? ==> r.Err? && r.error.status == 400
    ensures Present(userId) && ent.Some? && Normalize(ent.value.planCode) != UPGRADE_FROM ==> r.Err? && r.error.status == 400
    ensures r.Err? ==> r.error.status in {400, 401, 500}
    ensures Eligible(userId, bodyToPlan, ent) && (UPGRADE_FROM !in plans || UPGRADE_TO !in plans) ==>
      r == Err(HttpError(500, "No pude leer plans desde DB"))
    ensures Eligible(userId, bodyToPlan, ent) && UPGRADE_FROM in plans && UPGRADE_TO in plans
            && (plans[UPGRADE_FROM].priceMxn.None? || plans[UPGRADE_TO].priceMxn.None?) ==>
      r == Err(HttpError(500, "Plan sin price_mxn en DB"))
    ensures Eligible(userId, bodyToPlan, ent) && PlansPriced(plans)
            && !Present(plans[UPGRADE_TO].stripePriceId) && !Present(envPriceP199) ==>
      r == Err(HttpError(500, "Plan destino sin stripe_price_id"))
    ensures Eligible(userId, bodyToPlan, ent) && PlansPriced(plans)
            && (Present(plans[UPGRADE_TO].stripePriceId) || Present(envPriceP199)) && ent.value.quotaTotal <= 0 ==>
      r == Err(HttpError(500, "Entitlement quota_total inválido"))
    ensures Eligible(userId, bodyToPlan, ent) && PlansPriced(plans)
            && (Present(plans[UPGRADE_TO].stripePriceId) || Present(envPriceP199)) && ent.value.quotaTotal > 0
            && ProratedCredit(ent.value.remaining, plans[UPGRADE_FROM].priceMxn.value, ent.value.quotaTotal)
               >= plans[UPGRADE_TO].priceMxn.value ==>
      r == Err(HttpError(400, "Tu crédito cubre el total; contacto soporte para migración manual"))
    ensures r.Ok? ==>
      var q := r.value;
      && Present(userId) && q.userId == userId.value
      && Normalize(bodyToPlan) == UPGRADE_TO && q.toPlan == UPGRADE_TO
      && ent.Some? && Normalize(ent.value.planCode) == UPGRADE_FROM && q.fromPlan == UPGRADE_FROM
      && q.fromEntitlementId == ent.value.entitlementId
      && q.remaining == ent.value.remaining && q.quotaTotal == ent.value.quotaTotal
      && q.quotaTotal > 0
      && UPGRADE_FROM in plans && UPGRADE_TO in plans
      && plans[UPGRADE_FROM].priceMxn.Some? && plans[UPGRADE_TO].priceMxn.Some?
      && q.toPriceMxn == plans[UPGRADE_TO].priceMxn.value
      && 0 <= q.creditMxn < q.toPriceMxn
      && q.creditMxn == ProratedCredit(q.remaining, plans[UPGRADE_FROM].priceMxn.value, q.quotaTotal)
      && q.toStripePriceId != ""
      && (Present(plans[UPGRADE_TO].stripePriceId) ==> q.toStripePriceId == plans[UPGRADE_TO].stripePriceId.value)
      && (!Present(plans[UPGRADE_TO].stripePriceId) ==> envPriceP199 == Some(q.toStripePriceId))
  {
    if !Present(userId) then Err(HttpError(401, "No autenticado"))
    else
      var toPlan := Normalize(bodyToPlan);
      if toPlan != UPGRADE_TO then Err(HttpError(400, "upgrade solo soporta to_plan_code='p199' por ahora"))
      else if ent.None? then Err(HttpError(400, "No tienes un plan activo para hacer upgrade"))
      else
        var e := ent.value;
        var fromPlan := Normalize(e.planCode);
        if fromPlan != UPGRADE_FROM then Err(HttpError(400, "Upgrade solo soporta desde p99. Actual: " + fromPlan))
        else if fromPlan !in plans || toPlan !in plans then Err(HttpError(500, "No pude leer plans desde DB"))
        else if plans[fromPlan].priceMxn.None? || plans[toPlan].priceMxn.None? then
          Err(HttpError(500, "Plan sin price_mxn en DB"))
        else
          var toPriceId := if Present(plans[toPlan].stripePriceId) then plans[toPlan].stripePriceId else envPriceP199;
          if !Present(toPriceId) then Err(HttpError(500, "Plan destino sin stripe_price_id"))
          else if e.quotaTotal <= 0 then Err(HttpError(500, "Entitlement quota_total inválido"))
          else
            var toPrice := plans[toPlan].priceMxn.value;
            var prorated := ProratedCredit(e.remaining, plans[fromPlan].priceMxn.value, e.quotaTotal);
            var credit := if prorated < toPrice then prorated else toPrice;
            if credit >= toPrice then
              Err(HttpError(400, "Tu crédito cubre el total; contacto soporte para migración manual"))
            else
              Ok(Quote(userId.value, fromPlan, toPlan, e.entitlementId, e.remaining, e.quotaTotal,
                       toPrice, toPriceId.value, credit))
  }

  /**
   * A credit that reaches the destination price is refused with 400: whenever
   * the earlier checks pass, the quote exists exactly when the prorated
   * credit is below the destination price.
   */
  lemma FullyCoveredUpgradeRefused(userId: string, bodyToPlan: string, ent: BillingWebhook.Entitlement,
                                   plans: map<string, UsageRepo.Plan>, envPriceP199: Option<string>)
    requires userId != "" && Normalize(bodyToPlan) == UPGRADE_TO && Normalize(ent.planCode) == UPGRADE_FROM
    requires UPGRADE_FROM in plans && UPGRADE_TO in plans
    requires plans[UPGRADE_FROM].priceMxn.Some? && plans[UPGRADE_TO].priceMxn.Some?
    requires Present(plans[UPGRADE_TO].stripePriceId) || Present(envPriceP199)
    requires ent.quotaTotal > 0
    ensures var r := UpgradeQuote(Some(userId), bodyToPlan, Some(ent), plans, envPriceP199);
      var credit := ProratedCredit(ent.remaining, plans[UPGRADE_FROM].priceMxn.value, ent.quotaTotal);
      && (r.Ok? <==> credit < plans[UPGRADE_TO].priceMxn.value)
      && (r.Err? ==> r.error.status == 400)
  {
  }

  /** The arguments of `stripe.Coupon.create`. */
  datatype CouponParams = CouponParams(
    amountOff: int,
    currency: string,
    duration: string,
    maxRedemptions: int,
    redeemBy: int,
    name: string,
    metadata: map<string, string>)

  /**
   * The guard and request of `_create_one_time_coupon`: 400 when the credit is
   * no positive number of cents, otherwise a once-only MXN discount of the
   * credit that can be redeemed once, within 30 minutes of `now`. Here `now`
   * is the Unix time in whole seconds (`int(time.time())`), the clock Stripe's
   * `redeem_by` is read against.
   */
  function CouponParamsFor(amountOffMxn: int, userId: string, fromEntitlementId: string, now: int)
    : (r: Result<CouponParams, HttpError>)
    ensures r.Err? <==> amountOffMxn <= 0
    ensures r.Err? ==> r.error.status == 400
    ensures r.Ok? ==>
      && r.value.amountOff == amountOffMxn * 100 > 0
      && r.value.currency == "mxn" && r.value.duration == "once" && r.value.maxRedemptions == 1
      && r.value.redeemBy == now + COUPON_LIFETIME_SECONDS
      && r.value.metadata == map["app" := BillingRoutes.APP_NAME, "user_id" := userId,
                                 "from_entitlement_id" := fromEntitlementId, "kind" := "upgrade_credit"]
  {
    var cents := MxnToCents(amountOffMxn);
    if cents <= 0 then Err(HttpError(400, "No hay crédito para aplicar"))
    else
      Ok(CouponParams(cents, "mxn", "once", 1, now + COUPON_LIFETIME_SECONDS, "Crédito por upgrade",
                      map["app" := BillingRoutes.APP_NAME, "user_id" := userId,
                          "from_entitlement_id" := fromEntitlementId, "kind" := "upgrade_credit"]))
  }

  /**
   * `_create_one_time_coupon`: `reply` is Stripe's answer, the coupon's `id`
   * field (absent or empty: 502) or the exception raised (502).
   */
  function CreateOneTimeCoupon(amountOffMxn: int, userId: string, fromEntitlementId: string, now: int,
                               reply: Result<Option<string>, StripeFailure>)
    : (r: Result<string, HttpError>)
    ensures amountOffMxn <= 0 ==> r.Err? && r.error.status == 400
    ensures amountOffMxn > 0 && !(reply.Ok? && Present(reply.value)) ==> r.Err? && r.error.status == 502
    ensures r.Ok? <==> amountOffMxn > 0 && reply.Ok? && Present(reply.value)
    ensures r.Ok? ==> r.value == reply.value.value
  {
    match CouponParamsFor(amountOffMxn, userId, fromEntitlementId, now)
    case Err(e) => Err(e)
    case Ok(_) =>
      match reply
      case Err(f) => Err(HttpError(502, "Stripe coupon error: " + f.typeName + ": " + Prefix(f.message, 180)))
      case Ok(id) =>
        if Present(id) then Ok(id.value) else Err(HttpError(502, "Stripe coupon create failed (no id)"))
  }

  /** `str(existing).strip().strip("'").strip('"')`: the stored id without blanks and quotes around it. */
  function CleanCustomerId(s: string): (r: string)
    ensures |r| <= |s|
    ensures TrimmedFrom(r, s, IsBlankOrQuote)
    ensures |r| > 0 ==> r[0] != '"' && r[|r| - 1] != '"'
  {
    var blank := Strip(s);
    var single := StripChar(blank, '\'');
    var r := StripChar(single, '"');
    StripByTrimmed(s, IsSpace);
    StripByTrimmed(blank, x => x == '\'');
    StripByTrimmed(single, x => x == '"');
    TrimmedCompose(single, blank, s, IsSpace, x => x == '\'', IsBlankOrQuote);
    TrimmedCompose(r, single, s, IsBlankOrQuote, x => x == '"', IsBlankOrQuote);
    r
  }

  /** The characters the stored customer id is cleaned of: blanks and both quote marks. */
  predicate IsBlankOrQuote(c: char) {
    IsSpace(c) || c == '\'' || c == '"'
  }

  /** A well-formed stored id, with no blank or quote at either end, is used as stored. */
  lemma CleanKeepsPlainId(s: string)
    requires |s| > 0 ==> !IsSpace(s[0]) && !IsSpace(s[|s| - 1])
    requires |s| > 0 ==> s[0] != '\'' && s[|s| - 1] != '\'' && s[0] != '"' && s[|s| - 1] != '"'
    ensures CleanCustomerId(s) == s
  {
    StripUnchanged(s);
    StripByUnchanged(s, x => x == '\'');
    StripByUnchanged(s, x => x == '"');
  }

  /** `_get_user_stripe_customer_id`: the first row of the user, when its customer id is non-empty. */
  function StoredCustomerId(users: seq<UserRow>, userId: string): (r: Option<string>)
    ensures r.Some? ==> r.value != "" && exists i :: 0 <= i < |users| && users[i].userId == userId && users[i].stripeCustomerId == r
    ensures (forall i :: 0 <= i < |users| ==> users[i].userId != userId) ==> r.None?
    ensures forall i :: 0 <= i < |users| && users[i].userId == userId
                        && (forall j :: 0 <= j < i ==> users[j].userId != userId) ==>
      r == if Present(users[i].stripeCustomerId) then users[i].stripeCustomerId else None
  {
    if |users| == 0 then None
    else if users[0].userId == userId then
      (if Present(users[0].stripeCustomerId) then users[0].stripeCustomerId else None)
    else
      var r := StoredCustomerId(users[1..], userId);
      assert forall i :: 1 <= i < |users| ==> users[1..][i - 1] == users[i];
      r
  }

  /** `UPDATE users SET stripe_customer_id = cid WHERE user_id = userId` */
  function SetCustomerId(users: seq<UserRow>, userId: string, cid: string): (r: seq<UserRow>)
    ensures |r| == |users|
    ensures forall i :: 0 <= i < |users| && users[i].userId != userId ==> r[i] == users[i]
    ensures forall i :: 0 <= i < |users| && users[i].userId == userId ==>
      r[i] == users[i].(stripeCustomerId := Some(cid))
  {
    seq(|users|, i requires 0 <= i < |users| =>
      if users[i].userId == userId then users[i].(stripeCustomerId := Some(cid)) else users[i])
  }

  /** A saved customer id is what the next get-or-create reads back, when the user has a row. */
  lemma {:induction false} SavedCustomerIdReadBack(users: seq<UserRow>, userId: string, cid: string)
    requires cid != ""
    requires exists i :: 0 <= i < |users| && users[i].userId == userId
    ensures StoredCustomerId(SetCustomerId(users, userId, cid), userId) == Some(cid)
  {
    var r := SetCustomerId(users, userId, cid);
    if users[0].userId != userId {
      var i :| 0 <= i < |users| && users[i].userId == userId;
      assert users[1..][i - 1].userId == userId;
      SavedCustomerIdReadBack(users[1..], userId, cid);
      assert r[1..] == SetCustomerId(users[1..], userId, cid);
    }
  }

  /** The user's stored customer id, cleaned, is accepted by the provider and reused. */
  predicate ReusesStored(users: seq<UserRow>, userId: string, customerExists: string -> bool) {
    var stored := StoredCustomerId(users, userId);
    stored.Some? && customerExists(CleanCustomerId(stored.value))
  }

  /** No stored id is reused and the provider returns the id of a new customer. */
  predicate CreatesCustomer(users: seq<UserRow>, userId: string, customerExists: string -> bool,
                            created: Call<Option<string>>) {
    !ReusesStored(users, userId, customerExists) && created.Returned? && Present(created.value)
  }

  /**
   * The answer of `_get_or_create_stripe_customer`: the reused stored id, else
   * the new customer's id; a raising create escapes as a 500 and a reply
   * without an id is a 502.
   */
  function CustomerOutcome(users: seq<UserRow>, userId: string, customerExists: string -> bool,
                           created: Call<Option<string>>): (r: Result<string, HttpError>)
    ensures r.Err? ==> r.error.status in {500, 502}
    ensures ReusesStored(users, userId, customerExists) ==>
      r == Ok(CleanCustomerId(StoredCustomerId(users, userId).value))
    ensures CreatesCustomer(users, userId, customerExists, created) ==> r == Ok(created.value.value)
    ensures r.Ok? <==> ReusesStored(users, userId, customerExists) || CreatesCustomer(users, userId, customerExists, created)
    ensures !ReusesStored(users, userId, customerExists) && created.Raised? ==> r == Err(UNHANDLED_EXCEPTION)
  {
    if ReusesStored(users, userId, customerExists) then Ok(CleanCustomerId(StoredCustomerId(users, userId).value))
    else if created.Raised? then Err(UNHANDLED_EXCEPTION)
    else if !Present(created.value) then Err(HttpError(502, "Stripe customer creation failed (no id)"))
    else Ok(created.value.value)
  }

  /**
   * `_get_or_create_stripe_customer`: a non-empty stored id, cleaned of blanks
   * and quotes, is returned when the provider accepts it (`customerExists`);
   * otherwise, whatever the retrieve error was, a new customer is created
   * (`created`: the `id` of Stripe's reply, or Raised, which escapes as a 500),
   * saved on the user's rows and returned; an empty id is answered with 502.
   */
  method GetOrCreateStripeCustomer(users: UserTable, userId: string, customerExists: string -> bool,
                                   created: Call<Option<string>>)
    returns (r: Result<string, HttpError>)
    requires users.Valid()
    modifies users
    ensures users.Valid()
    ensures |users.rows| == |old(users.rows)|
    ensures forall i :: 0 <= i < |users.rows| ==>
      users.rows[i] == old(users.rows)[i].(stripeCustomerId := users.rows[i].stripeCustomerId)
    ensures r == CustomerOutcome(old(users.rows), userId, customerExists, created)
    ensures users.rows == if CreatesCustomer(old(users.rows), userId, customerExists, created)
                          then SetCustomerId(old(users.rows), userId, created.value.value)
                          else old(users.rows)
  {
    var stored := StoredCustomerId(users.rows, userId);
    if stored.Some? {
      var existing := CleanCustomerId(stored.value);
      if customerExists(existing) {
        return Ok(existing);
      }
    }
    if created.Raised? {
      return Err(UNHANDLED_EXCEPTION);
    }
    if !Present(created.value) {
      return Err(HttpError(502, "Stripe customer creation failed (no id)"));
    }
    var cid := created.value.value;
    users.rows := SetCustomerId(users.rows, userId, cid);
    r := Ok(cid);
  }

  /** The metadata of the upgrade Checkout Session. */
  function UpgradeMetadata(q: Quote, couponId: Option<string>): (md: map<string, string>)
    ensures md.Keys == {"app", "billing_type", "user_id", "from_plan_code", "to_plan_code", "from_entitlement_id",
                        "credit_mxn", "from_remaining", "from_quota_total", "coupon_id"}
    ensures "plan_code" !in md
    ensures md["billing_type"] == "upgrade" && md["user_id"] == q.userId
    ensures md["from_plan_code"] == q.fromPlan && md["to_plan_code"] == q.toPlan
    ensures md["coupon_id"] == if couponId.Some? then couponId.value else ""
  {
    map[
      "app" := BillingRoutes.APP_NAME,
      "billing_type" := "upgrade",
      "user_id" := q.userId,
      "from_plan_code" := q.fromPlan,
      "to_plan_code" := q.toPlan,
      "from_entitlement_id" := q.fromEntitlementId,
      "credit_mxn" := ShowInt(q.creditMxn),
      "from_remaining" := ShowInt(q.remaining),
      "from_quota_total" := ShowInt(q.quotaTotal),
      "coupon_id" := if couponId.Some? then couponId.value else ""]
  }

  /** The numbers written into the upgrade metadata read back as the numbers of the quote. */
  lemma UpgradeMetadataNumbersRoundTrip(q: Quote, couponId: Option<string>)
    ensures var md := UpgradeMetadata(q, couponId);
      && ParseInt(md["credit_mxn"]) == Some(q.creditMxn)
      && ParseInt(md["from_remaining"]) == Some(q.remaining)
      && ParseInt(md["from_quota_total"]) == Some(q.quotaTotal)
  {
    var md := UpgradeMetadata(q, couponId);
    assert md["credit_mxn"] == ShowInt(q.creditMxn);
    assert md["from_remaining"] == ShowInt(q.remaining);
    assert md["from_quota_total"] == ShowInt(q.quotaTotal);
    ParseShowRoundTrip(q.creditMxn);
    ParseShowRoundTrip(q.remaining);
    ParseShowRoundTrip(q.quotaTotal);
  }

  /**
   * The upgrade session carries no `plan_code`, so the webhook takes the plan
   * from the price metadata alone; a destination price without one grants nothing.
   */
  lemma UpgradePlanComesFromPrice(q: Quote, couponId: Option<string>, priceMd: BillingWebhook.Metadata)
    ensures BillingWebhook.ResolvePlanCode(priceMd, UpgradeMetadata(q, couponId))
         == Normalize(BillingWebhook.Field(priceMd, "plan_code"))
    ensures BillingWebhook.Field(priceMd, "plan_code") == "" ==>
      BillingWebhook.ResolvePlanCode(priceMd, UpgradeMetadata(q, couponId)) !in BillingWebhook.PLAN_CODES
  {
  }

  /** The arguments of the upgrade `stripe.checkout.Session.create`. */
  datatype UpgradeSessionParams = UpgradeSessionParams(
    mode: string,
    customer: string,
    price: string,
    quantity: int,
    coupon: Option<string>,
    successUrl: string,
    cancelUrl: string,
    clientReferenceId: string,
    metadata: map<string, string>)

  /** The JSON answer of a successful upgrade request. */
  datatype UpgradeResponse = UpgradeResponse(
    url: string,
    creditMxn: int,
    toPlanPriceMxn: int,
    payEstimatedMxn: int,
    couponId: Option<string>)

  /**
   * `create_upgrade_checkout_session`. The Stripe replies are `customerExists`
   * and `created` (customer), `couponReply` and `sessionReply` (the session URL
   * or the exception raised); `sent` is the Checkout Session request, None when
   * the handler failed before making it.
   */
  method CreateUpgradeCheckoutSession(
    users: UserTable, cookies: map<string, string>, cookieName: string, sha: string -> string, pepper: string,
    sessions: seq<SessionRow>, now: int, bodyToPlan: string, ent: Option<BillingWebhook.Entitlement>,
    plans: map<string, UsageRepo.Plan>, envPriceP199: Option<string>, frontendBaseUrl: string,
    customerExists: string -> bool, created: Call<Option<string>>,
    couponReply: Result<Option<string>, StripeFailure>, sessionReply: Result<string, StripeFailure>)
    returns (r: Result<UpgradeResponse, HttpError>, sent: Option<UpgradeSessionParams>)
    requires users.Valid()
    modifies users
    ensures users.Valid()
    ensures var userId := BillingRoutes.GetSessionUserId(cookies, cookieName, sha, pepper, sessions, now);
      var quote := UpgradeQuote(userId, bodyToPlan, ent, plans, envPriceP199);
      && (quote.Err? ==> r == Err(quote.error) && sent.None? && users.rows == old(users.rows))
      && (sent.Some? ==>
            && quote.Ok?
            && sent.value.price == quote.value.toStripePriceId && sent.value.quantity == 1
            && sent.value.clientReferenceId == quote.value.userId
            && (sent.value.coupon.Some? <==> quote.value.creditMxn > 0)
            && sent.value.metadata == UpgradeMetadata(quote.value, sent.value.coupon))
      && (r.Ok? ==>
            && quote.Ok? && sent.Some? && sessionReply.Ok?
            && r.value.url == sessionReply.value
            && r.value.creditMxn == quote.value.creditMxn
            && r.value.toPlanPriceMxn == quote.value.toPriceMxn
            && r.value.payEstimatedMxn == quote.value.toPriceMxn - quote.value.creditMxn > 0
            && r.value.couponId == sent.value.coupon)
    ensures var userId := BillingRoutes.GetSessionUserId(cookies, cookieName, sha, pepper, sessions, now);
      var quote := UpgradeQuote(userId, bodyToPlan, ent, plans, envPriceP199);
      quote.Ok? ==>
        var q := quote.value;
        var customer := CustomerOutcome(old(users.rows), q.userId, customerExists, created);
        var coupon := CreateOneTimeCoupon(q.creditMxn, q.userId, q.fromEntitlementId, now, couponReply);
        && (customer.Err? ==> r == Err(customer.error) && sent.None?)
        && (customer.Ok? && q.creditMxn > 0 && coupon.Err? ==> r == Err(coupon.error) && sent.None?)
        && (customer.Ok? && (q.creditMxn > 0 ==> coupon.Ok?) ==>
              && sent.Some? && sent.value.mode == "payment"
              && sent.value.customer == customer.value
              && sent.value.coupon == (if q.creditMxn > 0 then Some(coupon.value) else None)
              && sent.value.successUrl == frontendBaseUrl + "/?billing=ok"
              && sent.value.cancelUrl == frontendBaseUrl + "/?billing=cancel")
        && users.rows == if CreatesCustomer(old(users.rows), q.userId, customerExists, created)
                         then SetCustomerId(old(users.rows), q.userId, created.value.value)
                         else old(users.rows)
    ensures sent.Some? && sessionReply.Err? ==>
      r == Err(HttpError(502, "Stripe error: " + sessionReply.error.typeName + ": " + Prefix(sessionReply.error.message, 220)))
    ensures sent.Some? && sessionReply.Ok? ==> r.Ok?
    ensures |users.rows| == |old(users.rows)|
    ensures forall i :: 0 <= i < |users.rows| ==>
      users.rows[i] == old(users.rows)[i].(stripeCustomerId := users.rows[i].stripeCustomerId)
  {
    sent := None;
    var userId := BillingRoutes.GetSessionUserId(cookies, cookieName, sha, pepper, sessions, now);
    var quote := UpgradeQuote(userId, bodyToPlan, ent, plans, envPriceP199);
    if quote.Err? {
      return Err(quote.error), None;
    }
    var q := quote.value;
    var customer := GetOrCreateStripeCustomer(users, q.userId, customerExists, created);
    if customer.Err? {
      return Err(customer.error), None;
    }
    var couponId: Option<string> := None;
    if q.creditMxn > 0 {
      var coupon := CreateOneTimeCoupon(q.creditMxn, q.userId, q.fromEntitlementId, now, couponReply);
      if coupon.Err? {
        return Err(coupon.error), None;
      }
      couponId := Some(coupon.value);
    }
    sent := Some(UpgradeSessionParams(
      "payment", customer.value, q.toStripePriceId, 1, couponId,
      frontendBaseUrl + "/?billing=ok", frontendBaseUrl + "/?billing=cancel",
      q.userId, UpgradeMetadata(q, couponId)));
    match sessionReply
    case Err(f) =>
      r := Err(HttpError(502, "Stripe error: " + f.typeName + ": " + Prefix(f.message, 220)));
    case Ok(url) =>
      r := Ok(UpgradeResponse(url, q.creditMxn, q.toPriceMxn, q.toPriceMxn - q.creditMxn, couponId));
  }
}
