/**
 * One-time checkout: authenticate the caller from the session cookie, validate
 * the plan, and ask Stripe for a payment-mode Checkout Session whose metadata
 * the webhook later reads back.
 *
 * Stripe's reply is a parameter: the session URL, or the class name of the
 * exception it raised. The cookie, users and sessions are values.
 */
module BillingRoutes {
  import opened Wrappers
  import opened Strings
  import opened AuthRepo
  import BillingWebhook

  const DEFAULT_SESSION_COOKIE := "session_id"
  const APP_NAME := "leyenmano"

  /** `_get_cookie`: the stripped cookie value, None when it is missing or blank. */
  function GetCookie(cookies: map<string, string>, key: string): (r: Option<string>)
    ensures r.Some? ==> key in cookies && r.value == Strip(cookies[key]) && r.value != ""
    ensures r.None? <==> key !in cookies || Strip(cookies[key]) == ""
  {
    if key !in cookies || cookies[key] == "" then None
    else
      var v := Strip(cookies[key]);
      if v == "" then None else Some(v)
  }

  /** The `WHERE` clause of the session lookup: hash matches, not revoked, not expired. */
  predicate SessionLive(row: SessionRow, hash: string, now: int) {
    row.sessionIdHash == hash && row.revokedAt.None? && row.expiresAt > now
  }

  /** The first live session row under `hash`, as `fetchone()` returns it. */
  function SessionUserId(rows: seq<SessionRow>, hash: string, now: int): (r: Option<string>)
    ensures r.None? <==> forall i :: 0 <= i < |rows| ==> !SessionLive(rows[i], hash, now)
    ensures r.Some? ==> exists i :: 0 <= i < |rows| && SessionLive(rows[i], hash, now) && rows[i].userId == r.value
  {
    if |rows| == 0 then None
    else if SessionLive(rows[0], hash, now) then Some(rows[0].userId)
    else
      var r := SessionUserId(rows[1..], hash, now);
      assert forall i :: 1 <= i < |rows| ==> rows[1..][i - 1] == rows[i];
      r
  }

  /** A lookup in a table grown by one row finds the old answer, or else the new row. */
  lemma {:induction false} SessionUserIdAppend(rows: seq<SessionRow>, row: SessionRow, hash: string, now: int)
    ensures SessionUserId(rows + [row], hash, now)
         == if SessionUserId(rows, hash, now).Some? then SessionUserId(rows, hash, now)
            else if SessionLive(row, hash, now) then Some(row.userId)
            else None
  {
    if |rows| > 0 {
      assert (rows + [row])[1..] == rows[1..] + [row];
      SessionUserIdAppend(rows[1..], row, hash, now);
    }
  }

  /** `_get_session_user_id`: the user of the live session named by the cookie. */
  function GetSessionUserId(cookies: map<string, string>, cookieName: string, sha: string -> string,
                            pepper: string, sessions: seq<SessionRow>, now: int): (r: Option<string>)
    ensures GetCookie(cookies, cookieName).None? ==> r.None?
    ensures GetCookie(cookies, cookieName).Some? ==>
      r == SessionUserId(sessions, SessionHash(sha, pepper, GetCookie(cookies, cookieName).value), now)
  {
    match GetCookie(cookies, cookieName)
    case None => None
    case Some(sid) => SessionUserId(sessions, SessionHash(sha, pepper, sid), now)
  }

  /**
   * A session created by `create_session` authenticates its user until it
   * expires, provided no live session already sits under the same hash.
   */
  lemma CreatedSessionAuthenticates(sessions: seq<SessionRow>, userId: string, days: int,
                                    ip: Option<string>, userAgent: Option<string>, sid: string,
                                    sha: string -> string, pepper: string, createdAt: int,
                                    cookieName: string, cookies: map<string, string>, now: int)
    requires sid != "" && Strip(sid) == sid
    requires cookieName in cookies && cookies[cookieName] == sid
    requires SessionUserId(sessions, SessionHash(sha, pepper, sid), now).None?
    requires createdAt <= now < createdAt + days * 86400
    ensures GetSessionUserId(cookies, cookieName, sha, pepper,
              sessions + [SessionRow(SessionHash(sha, pepper, sid), userId, createdAt, createdAt,
                                     createdAt + days * 86400, ip, userAgent, None)], now) == Some(userId)
  {
    var row := SessionRow(SessionHash(sha, pepper, sid), userId, createdAt, createdAt,
                          createdAt + days * 86400, ip, userAgent, None);
    SessionUserIdAppend(sessions, row, SessionHash(sha, pepper, sid), now);
  }

  /** `_get_user_email`: the e-mail of the first row of the user, None when absent or empty. */
  function UserEmail(users: seq<UserRow>, userId: string): (r: Option<string>)
    ensures r.Some? ==> r.value != "" && exists i :: 0 <= i < |users| && users[i].userId == userId && users[i].email == r
    ensures (forall i :: 0 <= i < |users| ==> users[i].userId != userId) ==> r.None?
    ensures forall i :: 0 <= i < |users| && users[i].userId == userId
                        && (forall j :: 0 <= j < i ==> users[j].userId != userId) ==>
      r == if Present(users[i].email) then users[i].email else None
  {
    if |users| == 0 then None
    else if users[0].userId == userId then (if Present(users[0].email) then users[0].email else None)
    else
      var r := UserEmail(users[1..], userId);
      assert forall i :: 1 <= i < |users| ==> users[1..][i - 1] == users[i];
      r
  }

  /** `PLAN_TO_PRICE`, built from the two configured Stripe price ids. */
  function PlanToPrice(priceP99: string, priceP199: string): (m: map<string, string>)
    ensures m.Keys == BillingWebhook.PLAN_CODES
  {
    map["p99" := priceP99, "p199" := priceP199]
  }

  /** The arguments of `stripe.checkout.Session.create`. */
  datatype CheckoutParams = CheckoutParams(
    mode: string,
    price: string,
    quantity: int,
    successUrl: string,
    cancelUrl: string,
    customerEmail: Option<string>,
    clientReferenceId: string,
    metadata: map<string, string>)

  /**
   * The checks of `create_checkout_session` and the request it sends: 401
   * without a live session, 400 for a plan outside `PLAN_TO_PRICE` after
   * normalisation, otherwise a payment for the plan's price tagged with the
   * user and the plan.
   */
  function CheckoutParamsFor(userId: Option<string>, bodyPlanCode: string, users: seq<UserRow>,
                             priceP99: string, priceP199: string, frontendBaseUrl: string)
    : (r: Result<CheckoutParams, HttpError>)
    ensures r.Err? && r.error.status == 401 <==> !Present(userId)
    ensures r.Err? && r.error.status == 400 <==> Present(userId) && Normalize(bodyPlanCode) !in BillingWebhook.PLAN_CODES
    ensures r.Err? ==> r.error.status in {400, 401}
    ensures !Present(userId) ==> r == Err(HttpError(401, "No autenticado"))
    ensures Present(userId) && Normalize(bodyPlanCode) !in BillingWebhook.PLAN_CODES ==>
      r == Err(HttpError(400, "plan_code inválido"))
    ensures r.Ok? ==>
      var p := r.value;
      && Present(userId)
      && p.successUrl == frontendBaseUrl + "/?billing=ok" && p.cancelUrl == frontendBaseUrl + "/?billing=cancel"
      && Normalize(bodyPlanCode) in BillingWebhook.PLAN_CODES
      && p.mode == "payment" && p.quantity == 1
      && p.price == PlanToPrice(priceP99, priceP199)[Normalize(bodyPlanCode)]
      && p.clientReferenceId == userId.value
      && p.customerEmail == UserEmail(users, userId.value)
      && p.metadata == map["user_id" := userId.value, "plan_code" := Normalize(bodyPlanCode),
                           "app" := APP_NAME, "billing_type" := "one_time"]
  {
    if !Present(userId) then Err(HttpError(401, "No autenticado"))
    else
      var planCode := Normalize(bodyPlanCode);
      var prices := PlanToPrice(priceP99, priceP199);
      if planCode !in prices then Err(HttpError(400, "plan_code inválido"))
      else
        Ok(CheckoutParams(
          "payment", prices[planCode], 1,
          frontendBaseUrl + "/?billing=ok", frontendBaseUrl + "/?billing=cancel",
          UserEmail(users, userId.value), userId.value,
          map["user_id" := userId.value, "plan_code" := planCode,
              "app" := APP_NAME, "billing_type" := "one_time"]))
  }

  /**
   * `create_checkout_session`: `stripe` is Stripe's reply to the request, the
   * session URL or the class name of the exception raised (answered with 502).
   */
  function CreateCheckoutSession(cookies: map<string, string>, cookieName: string, sha: string -> string,
                                 pepper: string, sessions: seq<SessionRow>, users: seq<UserRow>, now: int,
                                 bodyPlanCode: string, priceP99: string, priceP199: string,
                                 frontendBaseUrl: string, stripe: Result<string, string>)
    : (r: Result<string, HttpError>)
    ensures var userId := GetSessionUserId(cookies, cookieName, sha, pepper, sessions, now);
      var params := CheckoutParamsFor(userId, bodyPlanCode, users, priceP99, priceP199, frontendBaseUrl);
      && (params.Err? ==> r == Err(params.error))
      && (params.Ok? && stripe.Err? ==> r == Err(HttpError(502, "Stripe error: " + stripe.error)))
      && (r.Ok? <==> params.Ok? && stripe.Ok?)
      && (r.Ok? ==> r.value == stripe.value)
  {
    var userId := GetSessionUserId(cookies, cookieName, sha, pepper, sessions, now);
    match CheckoutParamsFor(userId, bodyPlanCode, users, priceP99, priceP199, frontendBaseUrl)
    case Err(e) => Err(e)
    case Ok(_) =>
      match stripe
      case Err(kind) => Err(HttpError(502, "Stripe error: " + kind))
      case Ok(url) => Ok(url)
  }

  /**
   * What the checkout sends is what the webhook needs: for a price without a
   * plan-level `plan_code`, the webhook resolves the plan the buyer chose and
   * attributes the purchase to the buyer.
   */
  lemma CheckoutMetadataFeedsWebhook(userId: Option<string>, bodyPlanCode: string, users: seq<UserRow>,
                                     priceP99: string, priceP199: string, frontendBaseUrl: string,
                                     priceMd: BillingWebhook.Metadata)
    requires CheckoutParamsFor(userId, bodyPlanCode, users, priceP99, priceP199, frontendBaseUrl).Ok?
    requires BillingWebhook.Field(priceMd, "plan_code") == ""
    ensures var md := CheckoutParamsFor(userId, bodyPlanCode, users, priceP99, priceP199, frontendBaseUrl).value.metadata;
      && BillingWebhook.ResolvePlanCode(priceMd, md) == Normalize(bodyPlanCode)
      && BillingWebhook.ResolvePlanCode(priceMd, md) in BillingWebhook.PLAN_CODES
      && BillingWebhook.Field(md, "user_id") == userId.value
  {
    var code := Normalize(bodyPlanCode);
    var md := CheckoutParamsFor(userId, bodyPlanCode, users, priceP99, priceP199, frontendBaseUrl).value.metadata;
    assert md == map["user_id" := userId.value, "plan_code" := code, "app" := APP_NAME, "billing_type" := "one_time"];
    assert md["plan_code"] == code;
    assert md["user_id"] == userId.value;
    NormalizeIdempotent(bodyPlanCode);
  }
}
