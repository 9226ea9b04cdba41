/**
 * The billing webhook: the guard chain that decides whether a delivered
 * `checkout.session.completed` event grants an entitlement, and the
 * insert-if-absent into the entitlement ledger keyed by checkout-session id.
 *
 * Signature verification, `Session.retrieve` and the database are outside the
 * model: their outcomes are inputs (`Delivery.event`, `lineItems`, `dbAvailable`).
 */
module BillingWebhook {
  import opened Wrappers
  import opened Strings

  const CHECKOUT_COMPLETED := "checkout.session.completed"
  const SAFE_MAXLEN: nat := 180
  const DEFAULT_VALIDITY_MONTHS := 12

  /** The plan codes an entitlement may carry. */
  const PLAN_CODES: set<string> := {"p99", "p199"}

  /** Stripe metadata: string keys to string values. */
  type Metadata = map<string, string>

  /** `md.get(key) or ""`: a missing key and an empty value read the same. */
  function Field(md: Metadata, key: string): string {
    if key in md then md[key] else ""
  }

  /** `_safe`: a log-friendly rendering, cut to `maxlen` characters plus an ellipsis. */
  function Safe(s: string, maxlen: nat): (r: string)
    ensures |r| <= maxlen + 3
    ensures |s| <= maxlen ==> r == s
    ensures |s| > maxlen ==> |r| == maxlen + 3 && r[..maxlen] == s[..maxlen] && r[maxlen..] == "..."
  {
    if |s| <= maxlen then s else s[..maxlen] + "..."
  }

  /** The checkout-session object carried by an event. */
  datatype CheckoutSession = CheckoutSession(
    id: string,
    metadata: Metadata,
    paymentIntent: Option<string>,
    customer: Option<string>)

  datatype StripeEvent = StripeEvent(eventType: string, session: CheckoutSession)

  /**
   * One HTTP delivery: the `stripe-signature` header and what signature
   * verification (`construct_event`) produced from it (None when it raised).
   */
  datatype Delivery = Delivery(signature: Option<string>, event: Option<StripeEvent>)

  datatype Price = Price(id: Option<string>, metadata: Metadata)

  datatype LineItem = LineItem(price: Option<Price>)

  /**
   * A row of the entitlements table. `valid_until` is `created_at` plus
   * `validity_months` calendar months, computed by the database.
   */
  datatype Entitlement = Entitlement(
    entitlementId: string,
    userId: string,
    planCode: string,
    quotaTotal: int,
    remaining: int,
    createdAt: int,
    validityMonths: int,
    stripeCustomerId: Option<string>,
    stripePriceId: Option<string>,
    checkoutSessionId: string,
    paymentIntentId: Option<string>,
    status: string)

  /** `{"ok": True}`, an `HTTPException(400)`, or an uncaught `ValueError` from `int(...)`. */
  datatype Reply = Acknowledged | BadRequest(detail: string) | ServerError

  /** What one delivery does: its reply, the user it ensures, the row it tries to insert. */
  datatype Effect = Effect(reply: Reply, ensuredUser: Option<string>, insert: Option<Entitlement>)

  /**
   * The plan code: the price's `plan_code` when non-empty, else the session's,
   * stripped and lower-cased.
   */
  function ResolvePlanCode(priceMd: Metadata, sessionMd: Metadata): (code: string)
    ensures Normalize(code) == code
  {
    var raw := if Field(priceMd, "plan_code") != "" then Field(priceMd, "plan_code") else Field(sessionMd, "plan_code");
    NormalizeIdempotent(raw);
    Normalize(raw)
  }

  /** `int(md.get(key) or default)`: None where `int` raises. */
  function IntField(md: Metadata, key: string, default: int): Option<int> {
    if Field(md, key) == "" then Some(default) else ParseInt(Field(md, key))
  }

  /** The price of the first line item, `{}` when it has none. */
  function FirstPrice(items: seq<LineItem>): Price
    requires |items| > 0
  {
    items[0].price.GetOr(Price(None, map[]))
  }

  /**
   * The part of `stripe_webhook` after the `user_id` check: read the first line
   * item's price, resolve plan, quota and validity, and build the row to insert.
   */
  function Grant(session: CheckoutSession, userId: string, lineItems: Call<seq<LineItem>>, dbAvailable: bool,
                 entitlementId: string, now: int): (e: Effect)
    ensures !e.reply.BadRequest?
    ensures e.ensuredUser == Some(userId)
    ensures e.insert.Some? ==>
      var ent := e.insert.value;
      && e.reply == Acknowledged
      && ent.userId == userId && ent.checkoutSessionId == session.id
      && ent.quotaTotal > 0 && ent.remaining == ent.quotaTotal
      && ent.status == "active" && ent.planCode in PLAN_CODES
      && ent.entitlementId == entitlementId && ent.createdAt == now
  {
    if lineItems.Raised? || |lineItems.value| == 0 then Effect(Acknowledged, Some(userId), None)
    else
      var price := FirstPrice(lineItems.value);
      var planCode := ResolvePlanCode(price.metadata, session.metadata);
      var quota := IntField(price.metadata, "quota_total", 0);
      var months := IntField(price.metadata, "validity_months", DEFAULT_VALIDITY_MONTHS);
      if quota.None? || months.None? then Effect(ServerError, Some(userId), None)
      else if planCode !in PLAN_CODES || quota.value <= 0 || !dbAvailable then
        Effect(Acknowledged, Some(userId), None)
      else
        Effect(Acknowledged, Some(userId), Some(Entitlement(
          entitlementId, userId, planCode, quota.value, quota.value, now, months.value,
          session.customer, price.id, session.id, session.paymentIntent, "active")))
  }

  /**
   * The guard chain of `stripe_webhook`. `lineItems` is the reply of
   * `Session.retrieve` (Raised when it failed), `dbAvailable` whether the insert
   * could reach the database, `entitlementId` the fresh uuid and `now` the
   * database clock.
   */
  function ProcessDelivery(d: Delivery, lineItems: Call<seq<LineItem>>, dbAvailable: bool,
                           entitlementId: string, now: int): (e: Effect)
    ensures e.reply.BadRequest? <==> !Present(d.signature) || d.event.None?
    ensures e.reply.BadRequest? ==> e.ensuredUser.None? && e.insert.None?
    ensures e.insert.Some? ==> e.reply == Acknowledged && d.event.Some?
    ensures e.insert.Some? ==>
      var ent := e.insert.value;
      && ent.checkoutSessionId == d.event.value.session.id
      && ent.quotaTotal > 0 && ent.remaining == ent.quotaTotal
      && ent.status == "active"
      && ent.planCode in PLAN_CODES
      && ent.userId != "" && e.ensuredUser == Some(ent.userId)
      && ent.entitlementId == entitlementId && ent.createdAt == now
  {
    if !Present(d.signature) then Effect(BadRequest("Missing Stripe-Signature"), None, None)
    else if d.event.None? then Effect(BadRequest("Invalid webhook signature"), None, None)
    else
      var ev := d.event.value;
      if ev.eventType != CHECKOUT_COMPLETED then Effect(Acknowledged, None, None)
      else
        var userId := Strip(Field(ev.session.metadata, "user_id"));
        if userId == "" then Effect(Acknowledged, None, None)
        else Grant(ev.session, userId, lineItems, dbAvailable, entitlementId, now)
  }

  /** Any verified event whose type is not `checkout.session.completed` is acknowledged and does nothing. */
  lemma OtherEventsIgnored(d: Delivery, lineItems: Call<seq<LineItem>>, dbAvailable: bool, id: string, now: int)
    requires Present(d.signature) && d.event.Some? && d.event.value.eventType != CHECKOUT_COMPLETED
    ensures ProcessDelivery(d, lineItems, dbAvailable, id, now) == Effect(Acknowledged, None, None)
  {
  }

  /**
   * After verification every path is acknowledged, except an `int(...)` that
   * raises on malformed `quota_total` / `validity_months` price metadata.
   */
  lemma VerifiedDeliveriesAcknowledged(d: Delivery, lineItems: Call<seq<LineItem>>, dbAvailable: bool, id: string, now: int)
    requires Present(d.signature) && d.event.Some?
    ensures var e := ProcessDelivery(d, lineItems, dbAvailable, id, now);
      e.reply == Acknowledged || e.reply == ServerError
    ensures ProcessDelivery(d, lineItems, dbAvailable, id, now).reply == ServerError ==>
      lineItems.Returned? && |lineItems.value| > 0 &&
      var md := FirstPrice(lineItems.value).metadata;
      IntField(md, "quota_total", 0).None? || IntField(md, "validity_months", DEFAULT_VALIDITY_MONTHS).None?
  {
  }

  /**
   * A blank `user_id`, a plan code outside {p99, p199} or a non-positive
   * `quota_total` each prevent the insert.
   */
  lemma GuardsPreventInsert(d: Delivery, items: seq<LineItem>, dbAvailable: bool, id: string, now: int)
    requires Present(d.signature) && d.event.Some? && |items| > 0
    requires var md := d.event.value.session.metadata;
      var price := FirstPrice(items);
      || Strip(Field(md, "user_id")) == ""
      || ResolvePlanCode(price.metadata, md) !in PLAN_CODES
      || (IntField(price.metadata, "quota_total", 0).Some? && IntField(price.metadata, "quota_total", 0).value <= 0)
    ensures ProcessDelivery(d, Returned(items), dbAvailable, id, now).insert.None?
  {
  }

  /**
   * A granted entitlement carries the resolved plan code, the price's quota as
   * both total and remaining, the price's `validity_months` (12 when absent),
   * and the session's and price's Stripe identifiers.
   */
  lemma GrantedEntitlement(d: Delivery, items: seq<LineItem>, id: string, now: int)
    requires Present(d.signature) && d.event.Some? && d.event.value.eventType == CHECKOUT_COMPLETED
    requires |items| > 0
    requires var md := d.event.value.session.metadata;
      var price := FirstPrice(items);
      && Strip(Field(md, "user_id")) != ""
      && ResolvePlanCode(price.metadata, md) in PLAN_CODES
      && IntField(price.metadata, "quota_total", 0).Some? && IntField(price.metadata, "quota_total", 0).value > 0
      && IntField(price.metadata, "validity_months", DEFAULT_VALIDITY_MONTHS).Some?
    ensures var e := ProcessDelivery(d, Returned(items), true, id, now);
      var md := d.event.value.session.metadata;
      var price := FirstPrice(items);
      && e.insert.Some?
      && e.insert.value.userId == Strip(Field(md, "user_id"))
      && e.insert.value.planCode == ResolvePlanCode(price.metadata, md)
      && e.insert.value.quotaTotal == e.insert.value.remaining == IntField(price.metadata, "quota_total", 0).value
      && (Field(price.metadata, "validity_months") == "" ==> e.insert.value.validityMonths == 12)
      && (Field(price.metadata, "validity_months") != "" ==>
            e.insert.value.validityMonths == IntField(price.metadata, "validity_months", DEFAULT_VALIDITY_MONTHS).value)
      && e.insert.value.checkoutSessionId == d.event.value.session.id
      && e.insert.value.stripePriceId == price.id
      && e.insert.value.stripeCustomerId == d.event.value.session.customer
      && e.insert.value.paymentIntentId == d.event.value.session.paymentIntent
      && e.insert.value.status == "active" && e.insert.value.entitlementId == id && e.insert.value.createdAt == now
  {
    var session := d.event.value.session;
    var userId := Strip(Field(session.metadata, "user_id"));
    GrantInserts(session, userId, items, id, now);
    assert ProcessDelivery(d, Returned(items), true, id, now) == Grant(session, userId, Returned(items), true, id, now);
  }

  /** The row `Grant` inserts once plan, quota and validity are readable and valid. */
  lemma GrantInserts(session: CheckoutSession, userId: string, items: seq<LineItem>, id: string, now: int)
    requires |items| > 0
    requires var price := FirstPrice(items);
      && ResolvePlanCode(price.metadata, session.metadata) in PLAN_CODES
      && IntField(price.metadata, "quota_total", 0).Some? && IntField(price.metadata, "quota_total", 0).value > 0
      && IntField(price.metadata, "validity_months", DEFAULT_VALIDITY_MONTHS).Some?
    ensures var price := FirstPrice(items);
      var quota := IntField(price.metadata, "quota_total", 0).value;
      Grant(session, userId, Returned(items), true, id, now).insert == Some(Entitlement(
        id, userId, ResolvePlanCode(price.metadata, session.metadata), quota, quota, now,
        IntField(price.metadata, "validity_months", DEFAULT_VALIDITY_MONTHS).value,
        session.customer, price.id, session.id, session.paymentIntent, "active"))
  {
    var price := FirstPrice(items);
    var planCode := ResolvePlanCode(price.metadata, session.metadata);
    var quota := IntField(price.metadata, "quota_total", 0);
    var months := IntField(price.metadata, "validity_months", DEFAULT_VALIDITY_MONTHS);
    assert !(quota.None? || months.None?);
    assert !(planCode !in PLAN_CODES || quota.value <= 0);
  }

  /** A non-empty price-level `plan_code` decides the plan whatever the session metadata says. */
  lemma PricePlanCodeTakesPrecedence(priceMd: Metadata, md1: Metadata, md2: Metadata)
    requires Field(priceMd, "plan_code") != ""
    ensures ResolvePlanCode(priceMd, md1) == ResolvePlanCode(priceMd, md2) == Normalize(priceMd["plan_code"])
  {
  }

  /** `INSERT ... ON CONFLICT (stripe_checkout_session_id) DO NOTHING` on the ledger. */
  function InsertIfAbsent(m: map<string, Entitlement>, e: Entitlement): (m': map<string, Entitlement>)
    ensures m'.Keys == m.Keys + {e.checkoutSessionId}
    ensures forall k :: k in m ==> m'[k] == m[k]
    ensures e.checkoutSessionId !in m ==> m'[e.checkoutSessionId] == e
  {
    if e.checkoutSessionId in m then m else m[e.checkoutSessionId := e]
  }

  /** The ledger invariant: every entitlement is filed under its own checkout-session id. */
  ghost predicate KeyedBySession(m: map<string, Entitlement>) {
    forall k :: k in m ==> m[k].checkoutSessionId == k
  }

  /** The ledger after one delivery's effect. */
  function Deliver(m: map<string, Entitlement>, e: Effect): map<string, Entitlement> {
    if e.insert.Some? then InsertIfAbsent(m, e.insert.value) else m
  }

  /** The ledger after a sequence of deliveries, in order. */
  function DeliverAll(m: map<string, Entitlement>, effects: seq<Effect>): map<string, Entitlement>
    decreases |effects|
  {
    if |effects| == 0 then m else DeliverAll(Deliver(m, effects[0]), effects[1..])
  }

  /** The effect inserts nothing, or only a row for checkout session `sid`. */
  predicate InsertsOnlyFor(e: Effect, sid: string) {
    e.insert.Some? ==> e.insert.value.checkoutSessionId == sid
  }

  lemma {:induction false} DeliverKeepsKeying(m: map<string, Entitlement>, effects: seq<Effect>)
    requires KeyedBySession(m)
    ensures KeyedBySession(DeliverAll(m, effects))
    decreases |effects|
  {
    if |effects| > 0 {
      var m1 := Deliver(m, effects[0]);
      assert KeyedBySession(m1);
      DeliverKeepsKeying(m1, effects[1..]);
    }
  }

  /** Every redelivery of the same verified event concerns the same checkout session. */
  lemma RedeliverySameSession(ds: seq<Delivery>, items: seq<Call<seq<LineItem>>>, db: seq<bool>,
                              ids: seq<string>, nows: seq<int>, ev: StripeEvent) returns (effects: seq<Effect>)
    requires |items| == |db| == |ids| == |nows| == |ds|
    requires forall i :: 0 <= i < |ds| ==> ds[i].event == Some(ev)
    ensures |effects| == |ds|
    ensures forall i :: 0 <= i < |ds| ==> effects[i] == ProcessDelivery(ds[i], items[i], db[i], ids[i], nows[i])
    ensures forall i :: 0 <= i < |ds| ==> InsertsOnlyFor(effects[i], ev.session.id)
  {
    effects := seq(|ds|, i requires 0 <= i < |ds| => ProcessDelivery(ds[i], items[i], db[i], ids[i], nows[i]));
  }

  /**
   * Idempotence of entitlement creation. Processing any number of deliveries
   * that may only insert for session `sid`: no other ledger entry changes; once
   * `sid` has an entitlement nothing changes at all; `sid` ends with an
   * entitlement exactly when it had one or some delivery inserted; and when
   * the first delivery inserts into a ledger without `sid`, its row is the one kept.
   */
  lemma {:induction false} AtMostOneEntitlementPerSession(m: map<string, Entitlement>, effects: seq<Effect>, sid: string)
    requires forall i :: 0 <= i < |effects| ==> InsertsOnlyFor(effects[i], sid)
    ensures DeliverAll(m, effects) - {sid} == m - {sid}
    ensures sid in m ==> DeliverAll(m, effects) == m
    ensures sid in DeliverAll(m, effects) <==> sid in m || exists i :: 0 <= i < |effects| && effects[i].insert.Some?
    ensures forall i :: 0 <= i < |effects| && sid !in m && effects[i].insert.Some? &&
                        (forall j :: 0 <= j < i ==> effects[j].insert.None?) ==>
      sid in DeliverAll(m, effects) && DeliverAll(m, effects)[sid] == effects[i].insert.value
    decreases |effects|
  {
    if |effects| > 0 {
      var m1 := Deliver(m, effects[0]);
      assert m1 - {sid} == m - {sid};
      assert sid in m ==> m1 == m;
      assert sid in m1 <==> sid in m || effects[0].insert.Some?;
      AtMostOneEntitlementPerSession(m1, effects[1..], sid);
      if sid in m1 && !(sid in m || effects[0].insert.Some?) {
        assert false;
      }
      if (exists i :: 0 <= i < |effects| && effects[i].insert.Some?) && !effects[0].insert.Some? {
        var i :| 0 <= i < |effects| && effects[i].insert.Some?;
        assert effects[1..][i - 1] == effects[i];
      }
      assert forall i :: 1 <= i < |effects| ==> effects[1..][i - 1] == effects[i];
      forall i | 0 <= i < |effects| && sid !in m && effects[i].insert.Some? &&
                 (forall j :: 0 <= j < i ==> effects[j].insert.None?)
        ensures sid in DeliverAll(m, effects) && DeliverAll(m, effects)[sid] == effects[i].insert.value
      {
        if i == 0 {
          assert m1[sid] == effects[0].insert.value;
        } else {
          assert effects[0].insert.None?;
          assert forall j :: 0 <= j < i - 1 ==> effects[1..][j] == effects[j + 1];
        }
      }
    }
  }

  /** The entitlements table and the users that `ensure_user` has created. */
  class WebhookStore {
    var entitlements: map<string, Entitlement>
    var users: set<string>

    ghost predicate Valid()
      reads this
    {
      KeyedBySession(entitlements)
    }

    constructor ()
      ensures Valid() && entitlements == map[] && users == {}
    {
      entitlements := map[];
      users := {};
    }

    /** `ensure_user` (not shown in the repository): the user exists afterwards. */
    method EnsureUser(userId: string)
      modifies this
      ensures entitlements == old(entitlements)
      ensures users == old(users) + {userId}
    {
      users := users + {userId};
    }

    /** The idempotent insert; `rowcount` is 1 when a row was added and 0 on conflict. */
    method InsertEntitlement(e: Entitlement) returns (rowcount: nat)
      requires Valid()
      modifies this
      ensures Valid()
      ensures users == old(users)
      ensures entitlements == InsertIfAbsent(old(entitlements), e)
      ensures rowcount == if e.checkoutSessionId in old(entitlements) then 0 else 1
    {
      if e.checkoutSessionId in entitlements {
        rowcount := 0;
      } else {
        entitlements := entitlements[e.checkoutSessionId := e];
        rowcount := 1;
      }
    }

    /** `stripe_webhook`: run the guard chain, then ensure the user and insert. */
    method StripeWebhook(d: Delivery, lineItems: Call<seq<LineItem>>, dbAvailable: bool,
                         entitlementId: string, now: int) returns (reply: Reply)
      requires Valid()
      modifies this
      ensures Valid()
      ensures var e := ProcessDelivery(d, lineItems, dbAvailable, entitlementId, now);
        && reply == e.reply
        && entitlements == Deliver(old(entitlements), e)
        && users == old(users) + (if e.ensuredUser.Some? then {e.ensuredUser.value} else {})
    {
      var e := ProcessDelivery(d, lineItems, dbAvailable, entitlementId, now);
      if e.ensuredUser.Some? {
        EnsureUser(e.ensuredUser.value);
      }
      if e.insert.Some? {
        var _ := InsertEntitlement(e.insert.value);
      }
      reply := e.reply;
    }
  }
}
