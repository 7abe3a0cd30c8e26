/** The account route (`GET /api/account`): resolve the caller's plan from the
    `profiles` row, else from the newest active or trialing subscription, else
    'Free'; count the caller's `invoices` rows since the start of the current UTC
    day and UTC month; attach the plan's limits. */
module AccountRoute {
  import opened Common

  const DayMs: int := 86_400_000

  // ---------------------------------------------------------------------------
  // The proleptic Gregorian calendar, as `Date.UTC` and `getUTC*` use it

  datatype Date = Date(year: int, month: int, day: int)

  predicate IsLeap(y: int) {
    (y % 4 == 0 && y % 100 != 0) || y % 400 == 0
  }

  function DaysInMonth(y: int, m: int): (n: int)
    ensures 28 <= n <= 31
  {
    if m == 2 then (if IsLeap(y) then 29 else 28)
    else if m == 4 || m == 6 || m == 9 || m == 11 then 30
    else 31
  }

  predicate ValidDate(d: Date) {
    1 <= d.month <= 12 && 1 <= d.day <= DaysInMonth(d.year, d.month)
  }

  /** The following calendar day. */
  function Next(d: Date): Date {
    if d.day < DaysInMonth(d.year, d.month) then Date(d.year, d.month, d.day + 1)
    else if d.month < 12 then Date(d.year, d.month + 1, 1)
    else Date(d.year + 1, 1, 1)
  }

  /** The preceding calendar day. */
  function Prev(d: Date): Date {
    if d.day > 1 then Date(d.year, d.month, d.day - 1)
    else if d.month > 1 then Date(d.year, d.month - 1, DaysInMonth(d.year, d.month - 1))
    else Date(d.year - 1, 12, 31)
  }

  lemma StepsStayValid(d: Date)
    requires ValidDate(d)
    ensures ValidDate(Next(d)) && ValidDate(Prev(d))
    ensures Prev(Next(d)) == d && Next(Prev(d)) == d
  {
  }

  /** The UTC calendar date of day number `n`, day 0 being 1970-01-01. */
  function Civil(n: int): Date
    decreases if n < 0 then -n else n
  {
    if n == 0 then Date(1970, 1, 1)
    else if n > 0 then Next(Civil(n - 1))
    else Prev(Civil(n + 1))
  }

  lemma {:induction false} CivilValid(n: int)
    ensures ValidDate(Civil(n))
    decreases if n < 0 then -n else n
  {
    if n > 0 {
      CivilValid(n - 1);
      StepsStayValid(Civil(n - 1));
    } else if n < 0 {
      CivilValid(n + 1);
      StepsStayValid(Civil(n + 1));
    }
  }

  /** Going back one day number goes back one calendar day. */
  lemma CivilBack(n: int)
    ensures Civil(n - 1) == Prev(Civil(n))
  {
    if n > 0 {
      CivilValid(n - 1);
      StepsStayValid(Civil(n - 1));
    }
  }

  /** Within a month, going back `k` days only lowers the day of the month. */
  lemma {:induction false} CivilBackInMonth(n: int, k: nat)
    requires k < Civil(n).day
    ensures Civil(n - k) == Date(Civil(n).year, Civil(n).month, Civil(n).day - k)
  {
    if k > 0 {
      CivilBackInMonth(n, k - 1);
      CivilBack(n - k + 1);
    }
  }

  // ---------------------------------------------------------------------------
  // Window starts

  /** Day number of instant `t` (milliseconds): `floor(t / 86400000)`. */
  function DayNumber(t: int): int {
    t / DayMs
  }

  /** `startOfUTCDay`: midnight UTC of the day of `t`. */
  function StartOfUtcDay(t: int): (r: int)
    ensures r <= t < r + DayMs
    ensures r % DayMs == 0
    ensures r == DayNumber(t) * DayMs
  {
    DayNumber(t) * DayMs
  }

  lemma DayMultiples(a: int, b: int)
    requires a <= b
    ensures (a * DayMs) / DayMs == a && (a * DayMs) % DayMs == 0
    ensures b * DayMs - a * DayMs == (b - a) * DayMs
    ensures a * DayMs <= b * DayMs
  {
    assert a * 86_400_000 <= b * 86_400_000;
  }

  /** `startOfUTCMonth`: midnight UTC of the first day of the month of `t`. */
  function StartOfUtcMonth(t: int): (r: int)
    ensures r % DayMs == 0
    ensures r <= StartOfUtcDay(t) <= t
    ensures StartOfUtcDay(t) - r <= 30 * DayMs
    ensures var c := Civil(DayNumber(t));
            Civil(DayNumber(r)) == Date(c.year, c.month, 1)
  {
    var n := DayNumber(t);
    var c := Civil(n);
    CivilValid(n);
    CivilBackInMonth(n, c.day - 1);
    var first := n - (c.day - 1);
    DayMultiples(first, n);
    first * DayMs
  }

  // ---------------------------------------------------------------------------
  // Plans

  /** `mapPriceToTier`: a price lookup key or id to a plan name. "pro" is looked
      for before "free", case-insensitively; 'Standard' is never produced. */
  function MapPriceToTier(input: Option<string>): (r: Option<string>)
    ensures !Truthy(input) ==> r.None?
    ensures r == Some("Pro") <==> Truthy(input) && Contains(ToLower(input.value), "pro")
    ensures r == Some("Free") <==>
              Truthy(input) && !Contains(ToLower(input.value), "pro") && Contains(ToLower(input.value), "free")
    ensures r.Some? ==> r.value == "Pro" || r.value == "Free"
  {
    if !Truthy(input) then None
    else
      var key := ToLower(input.value);
      if Contains(key, "pro") then Some("Pro")
      else if Contains(key, "free") then Some("Free")
      else None
  }

  /** The `profiles` columns read: `tier`, `renews_at`. */
  datatype ProfileRow = ProfileRow(tier: Option<string>, renewsAt: Option<int>)

  /** A `subscriptions` row. */
  datatype SubRow = SubRow(userId: string, status: string, currentPeriodEnd: Option<int>,
                           priceId: Option<string>, priceLookupKey: Option<string>)

  predicate Eligible(s: SubRow, user: string) {
    s.userId == user && (s.status == "active" || s.status == "trialing")
  }

  /** Order of `.order('current_period_end', { ascending: false })`: descending,
      with a null end first, as PostgreSQL sorts nulls in a descending order. */
  predicate RanksFirst(a: SubRow, b: SubRow) {
    a.currentPeriodEnd.None?
    || (b.currentPeriodEnd.Some? && a.currentPeriodEnd.value >= b.currentPeriodEnd.value)
  }

  /** The row `.in('status', ['active','trialing']).order(...).limit(1)` returns:
      an eligible row that ranks first among the eligible rows, or none. */
  function LatestActive(subs: seq<SubRow>, user: string): (r: Option<SubRow>)
    ensures r.None? <==> forall s :: s in subs ==> !Eligible(s, user)
    ensures r.Some? ==> r.value in subs && Eligible(r.value, user)
    ensures r.Some? ==> forall s :: s in subs && Eligible(s, user) ==> RanksFirst(r.value, s)
  {
    if subs == [] then None
    else
      var rest := LatestActive(subs[1..], user);
      assert forall s :: s in subs ==> s == subs[0] || s in subs[1..];
      if !Eligible(subs[0], user) then rest
      else if rest.None? || RanksFirst(subs[0], rest.value) then Some(subs[0])
      else rest
  }

  datatype Plan = Plan(tier: string, renewsAt: Option<int>)

  /** Plan resolution: a truthy `profile.tier` first, then the subscription's
      mapped tier (an active subscription whose price maps to nothing counts as
      'Pro'), then 'Free'. */
  function ResolveTier(profile: Option<ProfileRow>, sub: Option<SubRow>): (p: Plan)
    ensures p.tier != ""
    ensures profile.Some? && Truthy(profile.value.tier) ==>
              p == Plan(profile.value.tier.value, profile.value.renewsAt)
    ensures !(profile.Some? && Truthy(profile.value.tier)) && sub.Some? ==>
              && p.renewsAt == sub.value.currentPeriodEnd
              && (p.tier == "Pro" || p.tier == "Free")
              && (p.tier == "Free" <==>
                    MapPriceToTier(OrElse(sub.value.priceLookupKey, sub.value.priceId)) == Some("Free"))
    ensures !(profile.Some? && Truthy(profile.value.tier)) && sub.None? ==> p == Plan("Free", None)
  {
    if profile.Some? && Truthy(profile.value.tier) then Plan(profile.value.tier.value, profile.value.renewsAt)
    else if sub.Some? then
      var mapped := MapPriceToTier(OrElse(sub.value.priceLookupKey, sub.value.priceId));
      Plan(if mapped.Some? then mapped.value else "Pro", sub.value.currentPeriodEnd)
    else Plan("Free", None)
  }

  /** A limit; `None` is an unlimited one (`null`). */
  datatype PlanLimits = PlanLimits(daily: Option<nat>, monthly: Option<nat>)

  const FreePlanLimits := PlanLimits(Some(3), Some(10))
  const ProPlanLimits := PlanLimits(Some(50), Some(1000))

  /** `PLAN_LIMITS[tier] ?? PLAN_LIMITS.Free`: only the exact names 'Free' and
      'Pro' are in the table; every other name gets the Free limits. */
  function LimitsOf(tier: string): (l: PlanLimits)
    ensures tier == "Pro" <==> l == ProPlanLimits
    ensures tier != "Pro" <==> l == FreePlanLimits
    ensures l.daily.Some? && l.monthly.Some? && l.daily.value < l.monthly.value
  {
    if tier == "Pro" then ProPlanLimits else FreePlanLimits
  }

  /** The tier names written by the billing webhook are not in this table. */
  lemma WebhookTiersGetFreeLimits()
    ensures LimitsOf("standard") == FreePlanLimits && LimitsOf("pro") == FreePlanLimits
  {
  }

  // ---------------------------------------------------------------------------
  // The handler

  datatype Meter = Meter(count: nat, limit: Option<nat>)

  datatype AccountResponse =
    | Failure(status: int, error: string)
    | Account(plan: Plan, today: Meter, month: Meter, todayStart: int, monthStart: int)

  /** `GET /api/account` at instant `now`. It only reads the store: the profile
      lookup (`None` when absent or failed), the subscription rows, whether that
      query failed, the `invoices` rows (`user_id`, `created_at`) and the replies
      of the two counting queries. */
  method Get(session: Session, profile: Option<ProfileRow>, subs: seq<SubRow>, subsQueryFails: bool,
             invoices: seq<OwnedRow>, now: int, todayReply: CountReply, monthReply: CountReply)
    returns (r: AccountResponse)
    ensures session.SessionError? ==> r == Failure(500, session.message)
    ensures session.NoSession? ==> r == Failure(401, "Unauthorized")
    ensures session.User? && todayReply.CountFailed? ==> r == Failure(500, todayReply.message)
    ensures session.User? && !todayReply.CountFailed? && monthReply.CountFailed? ==>
              r == Failure(500, monthReply.message)
    ensures r.Account? <==> session.User? && !todayReply.CountFailed? && !monthReply.CountFailed?
    ensures r.Account? ==>
              var sub := if (profile.Some? && Truthy(profile.value.tier)) || subsQueryFails then None
                         else LatestActive(subs, session.id);
              && r.plan == ResolveTier(profile, sub)
              && r.todayStart == StartOfUtcDay(now) && r.monthStart == StartOfUtcMonth(now)
              && r.today == Meter(CountValue(todayReply, invoices, session.id, r.todayStart),
                                  LimitsOf(r.plan.tier).daily)
              && r.month == Meter(CountValue(monthReply, invoices, session.id, r.monthStart),
                                  LimitsOf(r.plan.tier).monthly)
    ensures r.Account? ==> r.today.count <= r.month.count || todayReply.CountMissing? || monthReply.CountMissing?
  {
    if session.SessionError? {
      return Failure(500, session.message);
    }
    if session.NoSession? {
      return Failure(401, "Unauthorized");
    }
    var user := session.id;

    // tier and renewal date
    var tier: Option<string> := None;
    var renewsAt: Option<int> := None;
    if profile.Some? && Truthy(profile.value.tier) {
      tier := profile.value.tier;
      renewsAt := profile.value.renewsAt;
    } else {
      var sub := if subsQueryFails then None else LatestActive(subs, user);
      if sub.Some? {
        var mapped := MapPriceToTier(OrElse(sub.value.priceLookupKey, sub.value.priceId));
        tier := if mapped.Some? then mapped else Some("Pro");
        renewsAt := sub.value.currentPeriodEnd;
      }
    }
    if tier.None? {
      tier := Some("Free");
    }

    // usage from the invoices table
    var todayStart := StartOfUtcDay(now);
    var monthStart := StartOfUtcMonth(now);
    if todayReply.CountFailed? {
      return Failure(500, todayReply.message);
    }
    if monthReply.CountFailed? {
      return Failure(500, monthReply.message);
    }
    var countToday := CountValue(todayReply, invoices, user, todayStart);
    var countMonth := CountValue(monthReply, invoices, user, monthStart);
    CountSinceAntitone(invoices, user, monthStart, todayStart);
    var limits := LimitsOf(tier.value);
    r := Account(Plan(tier.value, renewsAt), Meter(countToday, limits.daily), Meter(countMonth, limits.monthly),
                 todayStart, monthStart);
  }
}
