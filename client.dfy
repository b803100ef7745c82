/**
 * The browser's subscription context: the plan table, the `subscription`, `generationCount`,
 * `billingHistory` and `apiSubscription` state, the decisions `canGenerate`,
 * `getRemainingGenerations` and `getCurrentPlan`, the mutators `subscribe` and
 * `incrementGeneration`, and the mapping of a server record into local state.
 *
 * A React state update is an immediate field assignment. The clock is the parameter `now`
 * (milliseconds); a timestamp is an integer. A JavaScript property that is `undefined` or
 * `null` is `None`.
 */
module Client {
  import opened Wrappers
  import Ledger

  // ---------------------------------------------------------------------------------------
  // The plan table

  /** A plan's `limit`: a number of generations, the text `'unlimited'`, or `undefined`. */
  datatype Limit = Finite(n: int) | UnlimitedText | Undefined

  /** One entry of `SUBSCRIPTION_PLANS` (its feature list is display text and is not kept). */
  datatype Plan = Plan(planType: string, name: string, price: int, duration: string,
                       limit: Limit, tier: nat)

  const FREE_PLAN := Plan("free", "Free Plan", 0, "forever", Finite(10), 0)
  const STARTER_PLAN := Plan("starter", "Starter Plan", 99, "monthly", Finite(50), 1)
  const PRO_PLAN := Plan("pro", "Pro Plan", 199, "monthly", Finite(200), 2)
  const UNLIMITED_PLAN := Plan("unlimited", "Unlimited Plan", 399, "monthly", UnlimitedText, 3)

  /** `SUBSCRIPTION_PLANS`, its keys in declaration order. */
  const SUBSCRIPTION_PLANS: seq<(string, Plan)> :=
    [("FREE", FREE_PLAN), ("STARTER", STARTER_PLAN), ("PRO", PRO_PLAN), ("UNLIMITED", UNLIMITED_PLAN)]

  /** `Object.values(SUBSCRIPTION_PLANS)`. */
  const PLANS: seq<Plan> := [FREE_PLAN, STARTER_PLAN, PRO_PLAN, UNLIMITED_PLAN]

  /** The generations the free plan allows, `SUBSCRIPTION_PLANS.FREE.limit`. */
  const FREE_LIMIT: int := 10

  /** The length of a monthly plan, `30 * 24 * 60 * 60 * 1000` milliseconds. */
  const THIRTY_DAYS_MS: int := 30 * 24 * 60 * 60 * 1000

  /** The plan stored under `key`, `SUBSCRIPTION_PLANS[key]`. */
  function PlanByKey(table: seq<(string, Plan)>, key: string): (r: Option<Plan>)
    ensures r.Some? ==> exists i :: 0 <= i < |table| && table[i] == (key, r.value)
    ensures r.None? <==> forall i :: 0 <= i < |table| ==> table[i].0 != key
  {
    if table == [] then None
    else if table[0].0 == key then Some(table[0].1)
    else
      var r := PlanByKey(table[1..], key);
      assert forall i :: 1 <= i < |table| ==> table[i] == table[1..][i - 1];
      r
  }

  /** The first plan whose `type` equals `t`, as `Array.prototype.find` returns it. */
  function FindByType(plans: seq<Plan>, t: Option<string>): (r: Option<Plan>)
    ensures r.Some? ==> r.value in plans && t == Some(r.value.planType)
    ensures r.None? <==> forall p :: p in plans ==> t != Some(p.planType)
  {
    if plans == [] then None
    else if t == Some(plans[0].planType) then Some(plans[0])
    else FindByType(plans[1..], t)
  }

  /** ASCII upper-casing of one character. */
  function UpperChar(c: char): (u: char)
    ensures 'a' <= c <= 'z' ==> 'A' <= u <= 'Z' && u as int == c as int - 32
    ensures !('a' <= c <= 'z') ==> u == c
  {
    if 'a' <= c <= 'z' then (c as int - 32) as char else c
  }

  /** `toUpperCase()` on ASCII text. */
  function Upper(s: string): (u: string)
    ensures |u| == |s|
    ensures forall i :: 0 <= i < |s| ==> u[i] == UpperChar(s[i])
  {
    seq(|s|, i requires 0 <= i < |s| => UpperChar(s[i]))
  }

  /** `planType ? planType.toUpperCase() : 'FREE'`. */
  function PlanKey(planType: Option<string>): (key: string)
    ensures !Truthy(planType) ==> key == "FREE"
    ensures Truthy(planType) ==> |key| == |planType.value|
    ensures Truthy(planType) ==> forall i :: 0 <= i < |key| ==> key[i] == UpperChar(planType.value[i])
  {
    if Truthy(planType) then Upper(planType.value) else "FREE"
  }

  /** Every table plan is found again from its own type's key. */
  lemma PlanKeyFindsTablePlan(i: nat)
    requires i < |SUBSCRIPTION_PLANS|
    ensures PlanKey(Some(SUBSCRIPTION_PLANS[i].1.planType)) == SUBSCRIPTION_PLANS[i].0
    ensures PlanByKey(SUBSCRIPTION_PLANS, PlanKey(Some(SUBSCRIPTION_PLANS[i].1.planType)))
            == Some(SUBSCRIPTION_PLANS[i].1)
  {
    if i == 0 {
      assert Upper("free") == "FREE";
    } else if i == 1 {
      assert Upper("starter") == "STARTER";
    } else if i == 2 {
      assert Upper("pro") == "PRO";
    } else {
      assert Upper("unlimited") == "UNLIMITED";
    }
  }

  // ---------------------------------------------------------------------------------------
  // Subscriptions

  /** The `subscription` state object. Fields a branch does not set are `None` (or `false`). */
  datatype Subscription = Subscription(
    plan: Option<string>,
    name: string,
    limit: Limit,
    generationsLeft: Option<int>,
    price: int,
    duration: string,
    subscribedAt: Option<int>,
    expiresAt: Option<int>,
    status: string,
    isApiSubscription: bool,
    paymentMethod: Option<string>,
    transactionId: Option<string>)

  /** An entry of the billing history. */
  datatype BillingRecord = BillingRecord(id: Option<string>, plan: string, amount: int,
                                         date: Option<int>, status: string,
                                         paymentMethod: Option<string>)

  /**
   * The snake_case properties the client reads from a server subscription record:
   * `plan_type`, `total_generations`, `generations_left`, `activated_at` and `status`.
   */
  datatype ApiFields = ApiFields(planType: Option<string>, totalGenerations: Option<int>,
                                 generationsLeft: Option<int>, activatedAt: Option<int>,
                                 status: Option<string>)

  /**
   * What those properties hold on a record the server sends. The server writes camelCase
   * names (`planType`, `totalGenerations`, `generationsLeft`, `activatedAt`), so only
   * `status`, spelled the same in both conventions, is present.
   */
  function SnakeView(rec: Ledger.SubRecord): (f: ApiFields)
    ensures f.planType.None? && f.totalGenerations.None? && f.generationsLeft.None?
    ensures f.activatedAt.None? && f.status == Some(rec.status)
  {
    ApiFields(None, None, None, None, Some(rec.status))
  }

  /** `n || d` on a number: `n` when present and non-zero, otherwise `d`. */
  function NumberOr(n: Option<int>, d: int): int {
    if n.Some? && n.value != 0 then n.value else d
  }

  /** The subscription `loadData` and `refreshSubscriptionData` build from a server record's fields. */
  function MapApiRecord(f: ApiFields): (s: Subscription)
    ensures s.isApiSubscription && s.plan == f.planType && s.expiresAt.None?
    ensures s.limit.Finite? && s.limit.n != 0 && s.generationsLeft.Some? && s.generationsLeft.value != 0
    ensures s.subscribedAt == f.activatedAt && s.status != ""
  {
    var entry := PlanByKey(SUBSCRIPTION_PLANS, PlanKey(f.planType));
    Subscription(
      f.planType,
      if entry.Some? && entry.value.name != "" then entry.value.name else "Free Plan",
      Finite(NumberOr(f.totalGenerations, 10)),
      Some(NumberOr(f.generationsLeft, 8)),
      if entry.Some? then entry.value.price else 0,
      "monthly",
      f.activatedAt,
      None,
      if Truthy(f.status) then f.status.value else "active",
      true,
      None,
      None)
  }

  /** The mapping's defaults: a missing or zero counter becomes 10 and 8, a missing status `'active'`. */
  lemma MappingDefaults(f: ApiFields)
    ensures MapApiRecord(f).plan == f.planType && MapApiRecord(f).isApiSubscription
    ensures MapApiRecord(f).limit ==
            (if f.totalGenerations in {None, Some(0)} then Finite(10) else Finite(f.totalGenerations.value))
    ensures MapApiRecord(f).generationsLeft ==
            (if f.generationsLeft in {None, Some(0)} then Some(8) else f.generationsLeft)
    ensures MapApiRecord(f).status == (if Truthy(f.status) then f.status.value else "active")
    ensures MapApiRecord(f).expiresAt.None? && MapApiRecord(f).duration == "monthly"
  {
  }

  /** A table plan's type maps to that plan's name and price. */
  lemma MappingNamesTablePlan(f: ApiFields, i: nat)
    requires i < |SUBSCRIPTION_PLANS| && f.planType == Some(SUBSCRIPTION_PLANS[i].1.planType)
    ensures MapApiRecord(f).name == SUBSCRIPTION_PLANS[i].1.name
    ensures MapApiRecord(f).price == SUBSCRIPTION_PLANS[i].1.price
  {
    PlanKeyFindsTablePlan(i);
  }

  /**
   * A record from the server always maps to the free plan's name, a limit of 10 and 8
   * generations left, whatever the record's own counters are.
   */
  lemma MappedServerRecord(rec: Ledger.SubRecord)
    ensures MapApiRecord(SnakeView(rec)).plan.None?
    ensures MapApiRecord(SnakeView(rec)).name == "Free Plan"
    ensures MapApiRecord(SnakeView(rec)).limit == Finite(10)
    ensures MapApiRecord(SnakeView(rec)).generationsLeft == Some(8)
    ensures MapApiRecord(SnakeView(rec)).price == 0
    ensures MapApiRecord(SnakeView(rec)).subscribedAt.None?
  {
    assert PlanKey(None) == "FREE";
  }

  /**
   * The subscription the local branch of `subscribe` stores for `plan`; `txnSuffix` stands for
   * the clock-and-random part of a generated `txn_...` transaction id.
   */
  function LocalSubscription(plan: Plan, paymentMethod: Option<string>,
                             transactionId: Option<string>, now: int,
                             txnSuffix: string): (s: Subscription)
    ensures !s.isApiSubscription && s.generationsLeft.None? && s.subscribedAt == Some(now)
    ensures plan.planType == "free" ==> s.plan == Some("free") && s.limit == Finite(FREE_LIMIT)
                                        && s.expiresAt.None? && s.transactionId.None?
    ensures plan.planType != "free" ==> s.plan == Some(plan.planType) && s.limit == plan.limit
                                        && s.transactionId.Some? && s.transactionId.value != ""
    ensures plan.planType != "free" && Truthy(transactionId) ==> s.transactionId == transactionId
    ensures plan.planType != "free" && plan.duration == "monthly"
            ==> s.expiresAt == Some(now + THIRTY_DAYS_MS)
    ensures plan.planType != "free" && plan.duration != "monthly" ==> s.expiresAt.None?
  {
    if plan.planType == "free" then
      Subscription(Some("free"), "Free Plan", FREE_PLAN.limit, None, 0, "forever", Some(now), None,
                   "active", false, None, None)
    else
      Subscription(Some(plan.planType), plan.name, plan.limit, None, plan.price, plan.duration,
                   Some(now),
                   if plan.duration == "monthly" then Some(now + THIRTY_DAYS_MS) else None,
                   "active", false, paymentMethod,
                   Some(if Truthy(transactionId) then transactionId.value else "txn_" + txnSuffix))
  }

  /** The billing record a paid `subscribe` prepends. */
  function PaidBilling(plan: Plan, id: Option<string>, date: Option<int>,
                       paymentMethod: Option<string>): (b: BillingRecord)
    ensures b.id == id && b.plan == plan.name && b.amount == plan.price && b.date == date
    ensures b.status == "completed" && b.paymentMethod == paymentMethod
  {
    BillingRecord(id, plan.name, plan.price, date, "completed", paymentMethod)
  }

  /** The subscription the API branch of `subscribe` stores after activating the free plan. */
  function ApiFreeSubscription(plan: Plan, f: ApiFields): (s: Subscription)
    ensures s.isApiSubscription && s.plan == Some(plan.planType) && s.limit == plan.limit
    ensures s.generationsLeft == f.generationsLeft && s.subscribedAt == f.activatedAt
    ensures s.expiresAt.None? && s.price == 0 && s.status == "active"
  {
    Subscription(Some(plan.planType), plan.name, plan.limit, f.generationsLeft, 0, "forever",
                 f.activatedAt, None, "active", true, None, None)
  }

  /** The subscription the API branch of `subscribe` stores after activating a paid plan. */
  function ApiPaidSubscription(plan: Plan, f: ApiFields): (s: Subscription)
    ensures s.isApiSubscription && s.plan == f.planType && s.name == plan.name
    ensures s.limit.Undefined? <==> f.totalGenerations.None?
    ensures s.generationsLeft == f.generationsLeft && s.subscribedAt == f.activatedAt
    ensures s.expiresAt.None? && s.price == 0 && s.status == "active"
  {
    Subscription(f.planType, plan.name,
                 if f.totalGenerations.Some? then Finite(f.totalGenerations.value) else Undefined,
                 f.generationsLeft, 0, "forever", f.activatedAt, None, "active", true, None, None)
  }

  // ---------------------------------------------------------------------------------------
  // Decisions

  /** A local subscription whose expiry lies before `now`. */
  predicate LocalExpired(s: Subscription, now: int) {
    !s.isApiSubscription && s.expiresAt.Some? && s.expiresAt.value < now
  }

  /** Expiry is final: a local subscription expired at `now` is expired at every later time, and `canGenerate` then clears it. */
  lemma ExpiredStaysExpired(s: Subscription, now: int, later: int)
    requires now <= later
    ensures LocalExpired(s, now) ==> LocalExpired(s, later) && AfterCheck(Some(s), later).None?
  {
  }

  /** The subscription state after `canGenerate`: an expired local subscription is cleared. */
  function AfterCheck(sub: Option<Subscription>, now: int): (r: Option<Subscription>)
    ensures r.Some? ==> r == sub && !LocalExpired(r.value, now)
    ensures r.None? <==> sub.None? || LocalExpired(sub.value, now)
  {
    if sub.Some? && LocalExpired(sub.value, now) then None else sub
  }

  /** `canGenerate()`'s answer for the state `sub`, `count` at time `now`. */
  function CanGenerateNow(sub: Option<Subscription>, count: nat, now: int): (ok: bool)
    ensures ok ==> sub.Some? && !LocalExpired(sub.value, now)
    ensures sub.Some? && !LocalExpired(sub.value, now) && sub.value.plan == Some("unlimited") ==> ok
    ensures (sub.Some? && sub.value.plan != Some("unlimited") && !sub.value.limit.Finite?
             && !(sub.value.isApiSubscription && sub.value.generationsLeft.Some?)
             && sub.value.plan != Some("free")) ==> !ok
    ensures (sub.Some? && !LocalExpired(sub.value, now) && sub.value.plan != Some("unlimited")
             && sub.value.isApiSubscription && sub.value.generationsLeft.Some?)
            ==> (ok <==> sub.value.generationsLeft.value > 0)
    ensures (sub.Some? && !LocalExpired(sub.value, now) && sub.value.plan == Some("free")
             && !(sub.value.isApiSubscription && sub.value.generationsLeft.Some?))
            ==> (ok <==> count < FREE_LIMIT)
    ensures (sub.Some? && !LocalExpired(sub.value, now) && sub.value.plan != Some("unlimited")
             && sub.value.plan != Some("free") && sub.value.limit.Finite?
             && !(sub.value.isApiSubscription && sub.value.generationsLeft.Some?))
            ==> (ok <==> count < sub.value.limit.n)
  {
    if sub.None? then false
    else
      var s := sub.value;
      if LocalExpired(s, now) then false
      else if s.plan == Some("unlimited") then true
      else if s.isApiSubscription && s.generationsLeft.Some? then s.generationsLeft.value > 0
      else if s.plan == Some("free") then count < FREE_LIMIT
      else s.limit.Finite? && count < s.limit.n
  }

  /** What `getRemainingGenerations()` answers: a number, the text `'Unlimited'`, or `NaN`. */
  datatype Remaining = Count(n: int) | UnlimitedGenerations | NotANumber

  /** `Math.max(0, x)`. */
  function Max0(x: int): (m: int)
    ensures m >= 0 && m >= x && (m == 0 || m == x)
  {
    if x < 0 then 0 else x
  }

  /** `getRemainingGenerations()` for the state `sub`, `count`. */
  function RemainingGenerations(sub: Option<Subscription>, count: nat): (r: Remaining)
    ensures sub.None? ==> r == Count(0)
    ensures r.UnlimitedGenerations? ==> sub.Some? && sub.value.plan == Some("unlimited")
    ensures r.NotANumber? ==> sub.Some? && !sub.value.limit.Finite?
    ensures sub.Some? && !sub.value.isApiSubscription ==> (r.Count? ==> r.n >= 0)
    ensures sub.Some? && sub.value.isApiSubscription && sub.value.generationsLeft.Some?
            ==> r == Count(sub.value.generationsLeft.value)
    ensures sub.Some? && !(sub.value.isApiSubscription && sub.value.generationsLeft.Some?)
            && sub.value.plan == Some("free")
            ==> r == Count(Max0(FREE_LIMIT - count))
    ensures sub.Some? && !(sub.value.isApiSubscription && sub.value.generationsLeft.Some?)
            && sub.value.plan != Some("unlimited") && sub.value.plan != Some("free")
            && sub.value.limit.Finite?
            ==> r == Count(Max0(sub.value.limit.n - count))
    ensures sub.Some? && !(sub.value.isApiSubscription && sub.value.generationsLeft.Some?)
            && sub.value.plan == Some("unlimited")
            ==> r == UnlimitedGenerations
    ensures sub.Some? && !(sub.value.isApiSubscription && sub.value.generationsLeft.Some?)
            && sub.value.plan != Some("unlimited") && sub.value.plan != Some("free")
            && !sub.value.limit.Finite?
            ==> r == NotANumber
  {
    if sub.None? then Count(0)
    else
      var s := sub.value;
      if s.isApiSubscription && s.generationsLeft.Some? then Count(s.generationsLeft.value)
      else if s.plan == Some("unlimited") then UnlimitedGenerations
      else if s.plan == Some("free") then Count(Max0(FREE_LIMIT - count))
      else if s.limit.Finite? then Count(Max0(s.limit.n - count))
      else NotANumber
  }

  /** A remaining-generations answer that leaves generations to use. */
  predicate Permits(r: Remaining) {
    r.UnlimitedGenerations? || (r.Count? && r.n > 0)
  }

  /** `getCurrentPlan()`: the table plan whose type is the subscription's `plan`, else `null`. */
  function CurrentPlan(sub: Option<Subscription>): (r: Option<Plan>)
    ensures r.Some? ==> sub.Some? && r.value in PLANS && sub.value.plan == Some(r.value.planType)
    ensures r.None? <==> sub.None? || forall p :: p in PLANS ==> sub.value.plan != Some(p.planType)
  {
    if sub.None? then None else FindByType(PLANS, sub.value.plan)
  }

  /** The API counter is never negative, as every record the server sends keeps it. */
  predicate CounterOk(sub: Option<Subscription>) {
    sub.Some? && sub.value.generationsLeft.Some? ==> sub.value.generationsLeft.value >= 0
  }

  /** An API subscription on the `unlimited` plan that still carries a counter. */
  predicate UnlimitedWithCounter(sub: Option<Subscription>) {
    sub.Some? && sub.value.isApiSubscription && sub.value.plan == Some("unlimited")
    && sub.value.generationsLeft.Some?
  }

  /**
   * `canGenerate` agrees with `getRemainingGenerations`: generation is allowed exactly when the
   * subscription has not expired and the remaining count is positive or unlimited. The single
   * exception is an API `unlimited` subscription with a counter, which `canGenerate` lets
   * through before it reads the counter.
   */
  lemma CanGenerateAgreesWithRemaining(sub: Option<Subscription>, count: nat, now: int)
    requires !UnlimitedWithCounter(sub)
    ensures CanGenerateNow(sub, count, now)
            <==> (sub.Some? && !LocalExpired(sub.value, now) && Permits(RemainingGenerations(sub, count)))
  {
  }

  /** The exception: an API `unlimited` subscription with nothing left may still generate. */
  lemma UnlimitedCounterDisagrees(s: Subscription, count: nat, now: int)
    requires s.isApiSubscription && s.plan == Some("unlimited") && s.generationsLeft == Some(0)
    ensures CanGenerateNow(Some(s), count, now)
    ensures RemainingGenerations(Some(s), count) == Count(0)
  {
  }

  /** A numeric answer of `getRemainingGenerations` is never negative. */
  lemma RemainingNeverNegative(sub: Option<Subscription>, count: nat)
    requires CounterOk(sub)
    ensures RemainingGenerations(sub, count).Count? ==> RemainingGenerations(sub, count).n >= 0
  {
  }

  /** Once `canGenerate` has run the state agrees with its answer: a cleared subscription has nothing left. */
  lemma CheckedStateAgrees(sub: Option<Subscription>, count: nat, now: int)
    requires !UnlimitedWithCounter(sub)
    ensures CanGenerateNow(sub, count, now) <==> Permits(RemainingGenerations(AfterCheck(sub, now), count))
  {
    CanGenerateAgreesWithRemaining(sub, count, now);
  }

  /** `getCurrentPlan` answers exactly the table plan of the subscription's type. */
  lemma CurrentPlanIsTablePlan(sub: Option<Subscription>, p: Plan)
    ensures CurrentPlan(sub) == Some(p) <==> sub.Some? && p in PLANS && sub.value.plan == Some(p.planType)
  {
    if sub.Some? && p in PLANS && sub.value.plan == Some(p.planType) {
      var r := CurrentPlan(sub);
      assert r.Some?;
      assert r.value.planType == p.planType;
    }
  }

  // ---------------------------------------------------------------------------------------
  // What subscribing gives

  /** A local free subscription allows exactly the first ten generations, at any time. */
  lemma LocalFreePlanAllowsTen(paymentMethod: Option<string>, transactionId: Option<string>,
                               at: int, txnSuffix: string, count: nat, now: int)
    ensures var s := LocalSubscription(FREE_PLAN, paymentMethod, transactionId, at, txnSuffix);
            (CanGenerateNow(Some(s), count, now) <==> count < FREE_LIMIT)
            && RemainingGenerations(Some(s), count) == Count(Max0(FREE_LIMIT - count))
            && CurrentPlan(Some(s)) == Some(FREE_PLAN)
  {
    var s := LocalSubscription(FREE_PLAN, paymentMethod, transactionId, at, txnSuffix);
    CurrentPlanIsTablePlan(Some(s), FREE_PLAN);
  }

  /**
   * A local subscription to a limited monthly plan allows `count < limit` until its thirty
   * days are over, and nothing afterwards.
   */
  lemma LocalMonthlyPlan(plan: Plan, paymentMethod: Option<string>, transactionId: Option<string>,
                         at: int, txnSuffix: string, count: nat, now: int)
    requires plan.planType != "free" && plan.planType != "unlimited" && plan.duration == "monthly"
    requires plan.limit.Finite?
    ensures var s := LocalSubscription(plan, paymentMethod, transactionId, at, txnSuffix);
            CanGenerateNow(Some(s), count, now)
            <==> now <= at + THIRTY_DAYS_MS && count < plan.limit.n
    ensures var s := LocalSubscription(plan, paymentMethod, transactionId, at, txnSuffix);
            AfterCheck(Some(s), now).None? <==> now > at + THIRTY_DAYS_MS
    ensures var s := LocalSubscription(plan, paymentMethod, transactionId, at, txnSuffix);
            RemainingGenerations(Some(s), count) == Count(Max0(plan.limit.n - count))
  {
  }

  /** A local `unlimited` subscription allows every generation until its thirty days are over. */
  lemma LocalUnlimitedPlan(paymentMethod: Option<string>, transactionId: Option<string>,
                           at: int, txnSuffix: string, count: nat, now: int)
    ensures var s := LocalSubscription(UNLIMITED_PLAN, paymentMethod, transactionId, at, txnSuffix);
            (CanGenerateNow(Some(s), count, now) <==> now <= at + THIRTY_DAYS_MS)
            && RemainingGenerations(Some(s), count) == UnlimitedGenerations
  {
  }

  /** Right after a local subscription to any table plan, with the counter reset, generation is allowed. */
  lemma SubscribedPlanAllowsGeneration(i: nat, paymentMethod: Option<string>,
                                       transactionId: Option<string>, now: int, txnSuffix: string)
    requires i < |PLANS|
    ensures CanGenerateNow(Some(LocalSubscription(PLANS[i], paymentMethod, transactionId, now, txnSuffix)), 0, now)
    ensures CurrentPlan(Some(LocalSubscription(PLANS[i], paymentMethod, transactionId, now, txnSuffix)))
            == Some(PLANS[i])
  {
    var s := LocalSubscription(PLANS[i], paymentMethod, transactionId, now, txnSuffix);
    CurrentPlanIsTablePlan(Some(s), PLANS[i]);
  }

  /**
   * A free plan activated through the server is counted locally against the free limit,
   * because the record's `generations_left` is absent.
   */
  lemma ApiFreePlanCountsLocally(rec: Ledger.SubRecord, count: nat, now: int)
    ensures var s := ApiFreeSubscription(FREE_PLAN, SnakeView(rec));
            (CanGenerateNow(Some(s), count, now) <==> count < FREE_LIMIT)
            && RemainingGenerations(Some(s), count) == Count(Max0(FREE_LIMIT - count))
            && CurrentPlan(Some(s)) == Some(FREE_PLAN)
  {
    var s := ApiFreeSubscription(FREE_PLAN, SnakeView(rec));
    CurrentPlanIsTablePlan(Some(s), FREE_PLAN);
  }

  /**
   * A paid plan activated through the server leaves `plan`, `limit` and `generationsLeft`
   * undefined, so generation is refused, the remaining count is `NaN` and there is no current
   * plan, whatever the plan and the server's record.
   */
  lemma ApiPaidPlanBlocks(plan: Plan, rec: Ledger.SubRecord, count: nat, now: int)
    ensures var s := ApiPaidSubscription(plan, SnakeView(rec));
            !CanGenerateNow(Some(s), count, now)
            && RemainingGenerations(Some(s), count) == NotANumber
            && CurrentPlan(Some(s)).None?
  {
  }

  /**
   * A subscription refreshed from any server record allows generation and reports 8 left,
   * even when the server's record has none left.
   */
  lemma RefreshedRecordAllows(rec: Ledger.SubRecord, count: nat, now: int)
    ensures CanGenerateNow(Some(MapApiRecord(SnakeView(rec))), count, now)
    ensures RemainingGenerations(Some(MapApiRecord(SnakeView(rec))), count) == Count(8)
    ensures CurrentPlan(Some(MapApiRecord(SnakeView(rec)))).None?
  {
    MappedServerRecord(rec);
  }

  // ---------------------------------------------------------------------------------------
  // Using a generation

  /** The subscription after `incrementGeneration`: an API counter above zero loses one. */
  function AfterGeneration(sub: Option<Subscription>): (r: Option<Subscription>)
    ensures sub.None? <==> r.None?
    ensures sub.Some? ==> r.value == sub.value.(generationsLeft := r.value.generationsLeft)
    ensures sub.Some? && sub.value.isApiSubscription && sub.value.generationsLeft.Some?
            && sub.value.generationsLeft.value > 0
            ==> r.value.generationsLeft == Some(sub.value.generationsLeft.value - 1)
    ensures (sub.None? || !sub.value.isApiSubscription || sub.value.generationsLeft.None?
             || sub.value.generationsLeft.value <= 0) ==> r == sub
    ensures CounterOk(sub) ==> CounterOk(r)
  {
    if sub.Some? && sub.value.isApiSubscription && sub.value.generationsLeft.Some?
       && sub.value.generationsLeft.value > 0
    then Some(sub.value.(generationsLeft := Some(sub.value.generationsLeft.value - 1)))
    else sub
  }

  /** The remaining count after using one generation: one fewer, never below zero. */
  function Spend(r: Remaining): Remaining {
    if r.Count? then Count(Max0(r.n - 1)) else r
  }

  /** One generation moves `getRemainingGenerations` down by exactly one, stopping at zero. */
  lemma GenerationSpendsOne(sub: Option<Subscription>, count: nat)
    requires CounterOk(sub)
    ensures RemainingGenerations(AfterGeneration(sub), count + 1) == Spend(RemainingGenerations(sub, count))
  {
  }

  // ---------------------------------------------------------------------------------------
  // The provider's state

  /** The outcome of the activation request the API branch of `subscribe` sends. */
  datatype ActivationResponse =
    | HttpFailure(status: int)
    | Rejected(error: Option<string>)
    | Activated(record: Ledger.SubRecord)

  /** Why `subscribe` threw. */
  datatype SubscribeError = HttpError(status: int) | Refused(message: string)

  const FREE_ACTIVATION_FAILED := "Failed to activate free plan"
  const ACTIVATION_FAILED := "Failed to activate subscription"

  /** The state `SubscriptionProvider` keeps. */
  class SubscriptionState {
    var subscription: Option<Subscription>
    var generationCount: nat
    var billingHistory: seq<BillingRecord>
    var apiSubscription: Option<Ledger.SubRecord>

    /** The API counter the state holds is never negative. */
    ghost predicate Valid()
      reads this
    {
      CounterOk(subscription)
    }

    /** The initial state: no plan, nothing generated, no billing. */
    constructor ()
      ensures Valid()
      ensures subscription.None? && generationCount == 0 && billingHistory == []
      ensures apiSubscription.None?
    {
      subscription := None;
      generationCount := 0;
      billingHistory := [];
      apiSubscription := None;
    }

    /**
     * `subscribe` when no user is logged in: store the local subscription, reset the
     * counter, and for a paid plan prepend one billing record.
     */
    method SubscribeLocal(plan: Plan, paymentMethod: Option<string>, transactionId: Option<string>,
                          now: int, txnSuffix: string) returns (sub: Subscription)
      requires Valid()
      modifies this
      ensures Valid()
      ensures sub == LocalSubscription(plan, paymentMethod, transactionId, now, txnSuffix)
      ensures subscription == Some(sub) && generationCount == 0
      ensures plan.planType == "free" ==> billingHistory == old(billingHistory)
      ensures plan.planType != "free" ==>
                billingHistory == [PaidBilling(plan, sub.transactionId, Some(now), paymentMethod)]
                                  + old(billingHistory)
      ensures apiSubscription == old(apiSubscription)
    {
      if plan.planType == "free" {
        sub := LocalSubscription(plan, paymentMethod, transactionId, now, txnSuffix);
        subscription := Some(sub);
        generationCount := 0;
        return;
      }
      sub := LocalSubscription(plan, paymentMethod, transactionId, now, txnSuffix);
      subscription := Some(sub);
      generationCount := 0;
      var billingRecord := PaidBilling(plan, sub.transactionId, sub.subscribedAt, paymentMethod);
      billingHistory := [billingRecord] + billingHistory;
    }

    /**
     * `subscribe` when a user is logged in, given the server's answer to the activation
     * request. A failed request throws and changes nothing; an activation stores the
     * server's record and the subscription built from it, resets the counter, and for a paid
     * plan prepends one billing record.
     */
    method SubscribeApi(plan: Plan, paymentMethod: Option<string>, transactionId: Option<string>,
                        response: ActivationResponse) returns (r: Result<Subscription, SubscribeError>)
      requires Valid()
      modifies this
      ensures Valid()
      ensures response.HttpFailure? ==> r == Err(HttpError(response.status))
      ensures response.Rejected? ==>
                r == Err(Refused(if Truthy(response.error) then response.error.value
                                 else if plan.planType == "free" then FREE_ACTIVATION_FAILED
                                 else ACTIVATION_FAILED))
      ensures !response.Activated? ==>
                subscription == old(subscription) && generationCount == old(generationCount)
                && billingHistory == old(billingHistory) && apiSubscription == old(apiSubscription)
      ensures response.Activated? ==>
                apiSubscription == Some(response.record) && generationCount == 0
                && r.Ok? && subscription == Some(r.value)
      ensures response.Activated? && plan.planType == "free" ==>
                r.value == ApiFreeSubscription(plan, SnakeView(response.record))
                && billingHistory == old(billingHistory)
      ensures response.Activated? && plan.planType != "free" ==>
                r.value == ApiPaidSubscription(plan, SnakeView(response.record))
                && billingHistory == [PaidBilling(plan, transactionId, r.value.subscribedAt, paymentMethod)]
                                     + old(billingHistory)
    {
      match response
      case HttpFailure(status) =>
        r := Err(HttpError(status));
      case Rejected(error) =>
        var fallback := if plan.planType == "free" then FREE_ACTIVATION_FAILED else ACTIVATION_FAILED;
        r := Err(Refused(if Truthy(error) then error.value else fallback));
      case Activated(record) =>
        apiSubscription := Some(record);
        var fields := SnakeView(record);
        if plan.planType == "free" {
          var newSubscription := ApiFreeSubscription(plan, fields);
          subscription := Some(newSubscription);
          generationCount := 0;
          r := Ok(newSubscription);
        } else {
          var newSubscription := ApiPaidSubscription(plan, fields);
          subscription := Some(newSubscription);
          generationCount := 0;
          var billingRecord := PaidBilling(plan, transactionId, newSubscription.subscribedAt, paymentMethod);
          billingHistory := [billingRecord] + billingHistory;
          r := Ok(newSubscription);
        }
    }

    /** `incrementGeneration`: count one more generation and spend one from an API counter above zero. */
    method IncrementGeneration() returns (newCount: nat)
      requires Valid()
      modifies this
      ensures Valid()
      ensures newCount == old(generationCount) + 1 && generationCount == newCount
      ensures subscription == AfterGeneration(old(subscription))
      ensures billingHistory == old(billingHistory) && apiSubscription == old(apiSubscription)
    {
      newCount := generationCount + 1;
      generationCount := newCount;
      if subscription.Some? && subscription.value.isApiSubscription
         && subscription.value.generationsLeft.Some? && subscription.value.generationsLeft.value > 0 {
        var newGenerationsLeft := subscription.value.generationsLeft.value - 1;
        subscription := Some(subscription.value.(generationsLeft := Some(newGenerationsLeft)));
      }
    }

    /** `canGenerate` at time `now`, which also clears an expired local subscription. */
    method CanGenerate(now: int) returns (ok: bool)
      requires Valid()
      modifies this
      ensures Valid()
      ensures ok == CanGenerateNow(old(subscription), generationCount, now)
      ensures subscription == AfterCheck(old(subscription), now)
      ensures generationCount == old(generationCount) && billingHistory == old(billingHistory)
      ensures apiSubscription == old(apiSubscription)
    {
      if subscription.None? {
        return false;
      }
      var s := subscription.value;
      if !s.isApiSubscription && s.expiresAt.Some? && s.expiresAt.value < now {
        subscription := None;
        return false;
      }
      if s.plan == Some("unlimited") {
        return true;
      }
      if s.isApiSubscription && s.generationsLeft.Some? {
        return s.generationsLeft.value > 0;
      }
      if s.plan == Some("free") {
        return generationCount < FREE_LIMIT;
      }
      ok := s.limit.Finite? && generationCount < s.limit.n;
    }

    /** The success branch of `refreshSubscriptionData`: adopt the server's record. */
    method RefreshFromApi(record: Ledger.SubRecord)
      requires Valid()
      modifies this
      ensures Valid()
      ensures apiSubscription == Some(record)
      ensures subscription == Some(MapApiRecord(SnakeView(record)))
      ensures generationCount == old(generationCount) && billingHistory == old(billingHistory)
    {
      apiSubscription := Some(record);
      subscription := Some(MapApiRecord(SnakeView(record)));
    }
  }
}
