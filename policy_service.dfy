/**
 * Tier resolution: which profile (guest, free or premium) a request gets,
 * with its model, response shape, limits, remaining count and reset time.
 * The repository reads it makes are passed in as values.
 */
module PolicyService {
  import opened Wrappers
  import opened UsageRepo

  const GUEST_DAILY_LIMIT := 2
  const FREE_DAILY_LIMIT := 3

  datatype Policy = Policy(
    profile: string,
    modelKind: string,
    responseMode: string,
    cardsPerStep: string,
    dailyLimit: Option<int>,
    monthlyLimit: Option<int>,
    remaining: int,
    resetAt: int,
    planCode: Option<string>)

  /**
   * `_reset_at_daily_iso`: today's local midnight, plus one day because `now`
   * is never before it. The result is the first local midnight strictly after `now`.
   */
  function ResetAtDaily(now: int): (r: int)
    ensures now < r <= now + SECONDS_PER_DAY
    ensures r % SECONDS_PER_DAY == 0
  {
    var tomorrow := now - now % SECONDS_PER_DAY;
    if now >= tomorrow then tomorrow + SECONDS_PER_DAY else tomorrow
  }

  /** No local midnight lies strictly between `now` and the daily reset. */
  lemma ResetIsNextMidnight(now: int, midnight: int)
    requires midnight % SECONDS_PER_DAY == 0 && midnight > now
    ensures ResetAtDaily(now) <= midnight
  {
    var r := ResetAtDaily(now);
    var a := r / SECONDS_PER_DAY;
    var b := midnight / SECONDS_PER_DAY;
    assert r == a * SECONDS_PER_DAY && midnight == b * SECONDS_PER_DAY;
    assert (a - 1) * SECONDS_PER_DAY <= now;
    assert a <= b;
  }

  /** The daily reset is the end of the window in which today's usage is counted. */
  lemma ResetEndsCountingWindow(now: int)
    ensures ResetAtDaily(now) == DayWindow(now).1
  {
  }

  /** `max(0, limit - used)` */
  function Remaining(limit: int, used: int): (r: int)
    ensures r >= 0
    ensures r > 0 <==> used < limit
    ensures r > 0 ==> r == limit - used
    ensures used >= 0 ==> r <= (if limit > 0 then limit else 0)
  {
    if limit - used > 0 then limit - used else 0
  }

  /**
   * `build_policy`: premium when a non-empty user id has an active
   * subscription, free for any other non-empty user id, guest otherwise.
   */
  function BuildPolicy(visitorId: string, userId: Option<string>, subs: seq<Subscription>,
                       plans: map<string, Plan>, events: seq<UsageEvent>, now: int): (p: Policy)
    ensures p.remaining >= 0
    ensures p.planCode.Some? <==> p.profile == "premium"
    ensures p.profile in {"guest", "free", "premium"}
    ensures p.profile == "guest" <==> !Present(userId)
  {
    if Present(userId) then
      match ActiveSubscription(subs, userId.value, now)
      case Some(sub) =>
        var quota := PlanQuota(plans, sub.planCode);
        var used := CountPeriodUsage(events, userId.value, sub.periodStart, sub.periodEnd);
        Policy("premium", "flash", "full", "full", None, Some(quota), Remaining(quota, used), sub.periodEnd, Some(sub.planCode))
      case None =>
        var used := CountDayUsage(events, visitorId, userId, now);
        Policy("free", "lite", "diagnostico_y_blindaje", "2", Some(FREE_DAILY_LIMIT), None,
               Remaining(FREE_DAILY_LIMIT, used), ResetAtDaily(now), None)
    else
      var used := CountDayUsage(events, visitorId, None, now);
      Policy("guest", "lite", "blindaje_only", "1", Some(GUEST_DAILY_LIMIT), None,
             Remaining(GUEST_DAILY_LIMIT, used), ResetAtDaily(now), None)
  }

  /**
   * A user with an active subscription is premium: flash model, full answers,
   * no daily limit, the plan's monthly quota as limit, the allowed events of
   * the current billing period as usage, and the period end as reset time.
   */
  lemma PremiumTier(visitorId: string, userId: string, subs: seq<Subscription>,
                    plans: map<string, Plan>, events: seq<UsageEvent>, now: int)
    requires userId != "" && ActiveSubscription(subs, userId, now).Some?
    ensures var sub := ActiveSubscription(subs, userId, now).value;
      var p := BuildPolicy(visitorId, Some(userId), subs, plans, events, now);
      var quota := PlanQuota(plans, sub.planCode);
      && p.profile == "premium" && p.modelKind == "flash" && p.responseMode == "full"
      && p.cardsPerStep == "full" && p.dailyLimit.None? && p.monthlyLimit == Some(quota)
      && p.remaining == Remaining(quota, CountPeriodUsage(events, userId, sub.periodStart, sub.periodEnd))
      && p.resetAt == sub.periodEnd && p.planCode == Some(sub.planCode)
  {
  }

  /** A user without an active subscription is free: lite model, 3 a day, two cards per step. */
  lemma FreeTier(visitorId: string, userId: string, subs: seq<Subscription>,
                 plans: map<string, Plan>, events: seq<UsageEvent>, now: int)
    requires userId != "" && ActiveSubscription(subs, userId, now).None?
    ensures var p := BuildPolicy(visitorId, Some(userId), subs, plans, events, now);
      && p.profile == "free" && p.modelKind == "lite" && p.responseMode == "diagnostico_y_blindaje"
      && p.cardsPerStep == "2" && p.dailyLimit == Some(3) && p.monthlyLimit.None?
      && p.remaining == Remaining(3, CountPeriodUsage(events, userId, DayWindow(now).0, DayWindow(now).1))
      && p.resetAt == ResetAtDaily(now) && p.planCode.None?
  {
  }

  /**
   * A request without a user is a guest: lite model, 2 a day counted by
   * visitor, one card per step, and subscriptions never change the outcome.
   */
  lemma GuestTier(visitorId: string, userId: Option<string>, subs1: seq<Subscription>, subs2: seq<Subscription>,
                  plans: map<string, Plan>, events: seq<UsageEvent>, now: int)
    requires !Present(userId)
    ensures var p := BuildPolicy(visitorId, userId, subs1, plans, events, now);
      && p == BuildPolicy(visitorId, userId, subs2, plans, events, now)
      && p.profile == "guest" && p.modelKind == "lite" && p.responseMode == "blindaje_only"
      && p.cardsPerStep == "1" && p.dailyLimit == Some(2) && p.monthlyLimit.None?
      && p.remaining == Remaining(2, CountAllowed(events, ByVisitor(visitorId), DayWindow(now).0, DayWindow(now).1))
      && p.resetAt == ResetAtDaily(now) && p.planCode.None?
  {
  }

  /** Every tier's remaining count lies between 0 and its (non-negative) limit. */
  lemma RemainingWithinLimit(visitorId: string, userId: Option<string>, subs: seq<Subscription>,
                             plans: map<string, Plan>, events: seq<UsageEvent>, now: int)
    ensures var p := BuildPolicy(visitorId, userId, subs, plans, events, now);
      var limit := if p.dailyLimit.Some? then p.dailyLimit.value else p.monthlyLimit.GetOr(0);
      0 <= p.remaining <= (if limit > 0 then limit else 0)
  {
  }
}
