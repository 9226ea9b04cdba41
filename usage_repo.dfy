/**
 * The usage repository: the visitors table (an upsert that never forgets a
 * known user), the append-only usage-event log with its windowed counts, and
 * the read-only lookups of the active subscription and a plan's quota.
 *
 * Timestamps are integer seconds on the America/Mexico_City clock, so a local
 * day is a multiple of 86400 seconds.
 */
module UsageRepo {
  import opened Wrappers

  const SECONDS_PER_DAY := 86400

  datatype Visitor = Visitor(userId: Option<string>, createdAt: int, lastSeenAt: int)

  datatype UsageEvent = UsageEvent(
    eventId: string,
    visitorId: string,
    userId: Option<string>,
    profile: string,
    planCode: Option<string>,
    modelUsed: string,
    endpoint: string,
    allowed: bool,
    reason: Option<string>,
    createdAt: int)

  datatype Subscription = Subscription(
    userId: string,
    planCode: string,
    status: string,
    periodStart: int,
    periodEnd: int)

  /** A row of the plans table (`monthly_quota` is read by the policy, the rest by the upgrade). */
  datatype Plan = Plan(
    monthlyQuota: int,
    annualQuota: Option<int>,
    priceMxn: Option<int>,
    stripePriceId: Option<string>)

  /**
   * The visitor row written by `upsert_visitor`: a new row for an unseen
   * visitor; otherwise `user_id = COALESCE(new, stored)` and a fresh `last_seen_at`.
   */
  function MergeVisitor(existing: Option<Visitor>, userId: Option<string>, now: int): (v: Visitor)
    ensures v.lastSeenAt == now
    ensures existing.None? ==> v.userId == userId && v.createdAt == now
    ensures existing.Some? ==> v.createdAt == existing.value.createdAt
    ensures userId.Some? ==> v.userId == userId
    ensures existing.Some? && userId.None? ==> v.userId == existing.value.userId
  {
    match existing
    case None => Visitor(userId, now, now)
    case Some(stored) => Visitor(if userId.Some? then userId else stored.userId, stored.createdAt, now)
  }

  /** A known user is never forgotten: whatever the new request says, a linked visitor stays linked. */
  lemma UpsertNeverUnlinks(existing: Visitor, userId: Option<string>, now: int)
    requires existing.userId.Some?
    ensures MergeVisitor(Some(existing), userId, now).userId.Some?
  {
  }

  /** The `WHERE` clause of `get_active_subscription`. */
  predicate IsActive(s: Subscription, userId: string, now: int) {
    s.userId == userId && s.status == "active" && s.periodEnd > now
  }

  /**
   * `get_active_subscription`: an active, unexpired subscription of the user
   * with the latest period end (`ORDER BY current_period_end DESC LIMIT 1`),
   * or None when there is none.
   */
  function ActiveSubscription(subs: seq<Subscription>, userId: string, now: int): (r: Option<Subscription>)
    ensures r.Some? ==> r.value in subs && IsActive(r.value, userId, now)
    ensures r.Some? ==> forall s :: s in subs && IsActive(s, userId, now) ==> s.periodEnd <= r.value.periodEnd
    ensures r.None? <==> forall s :: s in subs ==> !IsActive(s, userId, now)
  {
    if |subs| == 0 then None
    else
      var rest := ActiveSubscription(subs[1..], userId, now);
      if !IsActive(subs[0], userId, now) then rest
      else if rest.Some? && rest.value.periodEnd > subs[0].periodEnd then rest
      else Some(subs[0])
  }

  /** `get_plan_quota`: the plan's monthly quota, and 0 for an unknown plan. */
  function PlanQuota(plans: map<string, Plan>, planCode: string): (q: int)
    ensures planCode !in plans ==> q == 0
    ensures planCode in plans ==> q == plans[planCode].monthlyQuota
  {
    if planCode in plans then plans[planCode].monthlyQuota else 0
  }

  /** `_day_window_mx`: the half-open local day [midnight, next midnight) containing `now`. */
  function DayWindow(now: int): (w: (int, int))
    ensures w.0 <= now < w.1
    ensures w.1 == w.0 + SECONDS_PER_DAY
    ensures w.0 % SECONDS_PER_DAY == 0
  {
    var start := now - now % SECONDS_PER_DAY;
    (start, start + SECONDS_PER_DAY)
  }

  /** A local day window is the only midnight-aligned day that contains `now`. */
  lemma DayWindowUnique(now: int, start: int)
    requires start % SECONDS_PER_DAY == 0 && start <= now < start + SECONDS_PER_DAY
    ensures DayWindow(now) == (start, start + SECONDS_PER_DAY)
  {
    var w := DayWindow(now);
    var q := start / SECONDS_PER_DAY;
    var p := w.0 / SECONDS_PER_DAY;
    assert start == q * SECONDS_PER_DAY;
    assert w.0 == p * SECONDS_PER_DAY;
    assert (p - q) * SECONDS_PER_DAY == w.0 - start;
    assert -SECONDS_PER_DAY < w.0 - start < SECONDS_PER_DAY;
    assert p == q;
  }

  /** Whose usage a count is about: a user, or an anonymous visitor. */
  datatype Owner = ByUser(userId: string) | ByVisitor(visitorId: string)

  /** The `WHERE` clause of the usage counts: allowed, owned, and with `start <= created_at < end`. */
  predicate Counted(e: UsageEvent, owner: Owner, start: int, end: int) {
    && e.allowed
    && start <= e.createdAt < end
    && match owner
       case ByUser(u) => e.userId == Some(u)
       case ByVisitor(v) => e.visitorId == v
  }

  /** `SELECT COUNT(*)` over the usage-event log. */
  function CountAllowed(events: seq<UsageEvent>, owner: Owner, start: int, end: int): (n: nat)
    ensures n <= |events|
  {
    if |events| == 0 then 0
    else (if Counted(events[0], owner, start, end) then 1 else 0) + CountAllowed(events[1..], owner, start, end)
  }

  /** Appending one event raises a count by one when the event is counted, and by nothing otherwise. */
  lemma {:induction false} CountAppend(events: seq<UsageEvent>, e: UsageEvent, owner: Owner, start: int, end: int)
    ensures CountAllowed(events + [e], owner, start, end)
         == CountAllowed(events, owner, start, end) + (if Counted(e, owner, start, end) then 1 else 0)
  {
    if |events| > 0 {
      assert (events + [e])[1..] == events[1..] + [e];
      CountAppend(events[1..], e, owner, start, end);
    }
  }

  /** A count is zero exactly when no event of the log is counted. */
  lemma {:induction false} CountZero(events: seq<UsageEvent>, owner: Owner, start: int, end: int)
    ensures CountAllowed(events, owner, start, end) == 0 <==>
      forall i :: 0 <= i < |events| ==> !Counted(events[i], owner, start, end)
  {
    if |events| > 0 {
      CountZero(events[1..], owner, start, end);
      assert forall i :: 1 <= i < |events| ==> events[1..][i - 1] == events[i];
    }
  }

  /** `if user_id:` in `count_day_usage`: a non-empty user id counts by user, else by visitor. */
  function DayOwner(visitorId: string, userId: Option<string>): Owner {
    if Present(userId) then ByUser(userId.value) else ByVisitor(visitorId)
  }

  /** `count_day_usage`: allowed events of the owner in today's local window. */
  function CountDayUsage(events: seq<UsageEvent>, visitorId: string, userId: Option<string>, now: int): (n: nat)
    ensures n <= |events|
    ensures n == 0 <==> forall i :: 0 <= i < |events| ==>
      !Counted(events[i], DayOwner(visitorId, userId), DayWindow(now).0, DayWindow(now).1)
  {
    var w := DayWindow(now);
    CountZero(events, DayOwner(visitorId, userId), w.0, w.1);
    CountAllowed(events, DayOwner(visitorId, userId), w.0, w.1)
  }

  /** `count_period_usage`: allowed events of the user with `start <= created_at < end`. */
  function CountPeriodUsage(events: seq<UsageEvent>, userId: string, start: int, end: int): (n: nat)
    ensures n <= |events|
    ensures n == 0 <==> forall i :: 0 <= i < |events| ==>
      !(events[i].allowed && events[i].userId == Some(userId) && start <= events[i].createdAt < end)
  {
    CountZero(events, ByUser(userId), start, end);
    CountAllowed(events, ByUser(userId), start, end)
  }

  /**
   * An event inserted now raises today's count by exactly one when it is
   * allowed and belongs to the counted owner, and leaves it unchanged otherwise.
   */
  lemma InsertRaisesDayCount(events: seq<UsageEvent>, e: UsageEvent, visitorId: string, userId: Option<string>, now: int)
    requires e.createdAt == now
    ensures CountDayUsage(events + [e], visitorId, userId, now)
         == CountDayUsage(events, visitorId, userId, now)
            + (if e.allowed && (if Present(userId) then e.userId == userId else e.visitorId == visitorId) then 1 else 0)
  {
    var w := DayWindow(now);
    CountAppend(events, e, DayOwner(visitorId, userId), w.0, w.1);
  }

  /** The visitors table and the usage-event log. */
  class UsageStore {
    var visitors: map<string, Visitor>
    var events: seq<UsageEvent>

    constructor ()
      ensures visitors == map[] && events == []
    {
      visitors := map[];
      events := [];
    }

    /** `upsert_visitor`: insert the visitor, or merge into its row with COALESCE. */
    method UpsertVisitor(visitorId: string, userId: Option<string>, now: int)
      modifies this
      ensures events == old(events)
      ensures visitors.Keys == old(visitors).Keys + {visitorId}
      ensures forall v :: v in old(visitors) && v != visitorId ==> visitors[v] == old(visitors)[v]
      ensures visitors[visitorId]
           == MergeVisitor(if visitorId in old(visitors) then Some(old(visitors)[visitorId]) else None, userId, now)
    {
      var existing := if visitorId in visitors then Some(visitors[visitorId]) else None;
      visitors := visitors[visitorId := MergeVisitor(existing, userId, now)];
    }

    /** `insert_usage_event`: append exactly one event stamped `now`. */
    method InsertUsageEvent(eventId: string, visitorId: string, userId: Option<string>, profile: string,
                            planCode: Option<string>, modelUsed: string, endpoint: string,
                            allowed: bool, reason: Option<string>, now: int)
      modifies this
      ensures visitors == old(visitors)
      ensures events == old(events)
        + [UsageEvent(eventId, visitorId, userId, profile, planCode, modelUsed, endpoint, allowed, reason, now)]
    {
      events := events + [UsageEvent(eventId, visitorId, userId, profile, planCode, modelUsed, endpoint, allowed, reason, now)];
    }
  }
}
