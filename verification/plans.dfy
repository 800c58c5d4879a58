/** Subscription plans and the checks of `lib/subscription.ts`: the plan table, the choice of a
    user's current subscription, feature access, the team-member limit and the usage total.
    Subscriptions and usage records are sequences in storage order; the price ids come from the
    environment and may be missing. */
module Plans {
  import opened Base
  import opened Text

  /** A member cap: a number, or JavaScript's `Infinity`. */
  datatype Cap = Finite(n: nat) | Unbounded

  /** Is a count below the cap (`count < maxTeamMembers`)? */
  predicate Below(count: nat, cap: Cap) {
    cap.Unbounded? || count < cap.n
  }

  /** The three `NEXT_PUBLIC_STRIPE_*_PRICE_ID` variables. */
  datatype PriceIds = PriceIds(starter: Option<string>, pro: Option<string>, enterprise: Option<string>)

  datatype Plan = Plan(name: string, maxTeamMembers: Cap, features: seq<string>, priceId: Option<string>)

  /** `SUBSCRIPTION_PLANS`, in declaration order (the order `Object.values` visits them). */
  function AllPlans(env: PriceIds): (r: seq<Plan>)
    ensures |r| == 3
    ensures r[0].maxTeamMembers == Finite(5) && r[1].maxTeamMembers == Finite(20) && r[2].maxTeamMembers == Unbounded
    ensures r[0].priceId == env.starter && r[1].priceId == env.pro && r[2].priceId == env.enterprise
  {
    [ Plan("Starter", Finite(5), ["Basic features", "Email support", "Team collaboration"], env.starter),
      Plan("Pro", Finite(20), ["All Starter features", "Priority support", "Advanced analytics", "Custom branding", "API access"], env.pro),
      Plan("Enterprise", Unbounded, ["All Pro features", "Unlimited team members", "Enterprise SSO", "Custom integrations", "Dedicated support", "SLA guarantees"], env.enterprise) ]
  }

  datatype Status = Active | Inactive | Canceled | PastDue

  datatype Subscription = Subscription(id: string, userId: string, status: Status, priceId: string, createdAt: int)

  predicate Current(s: Subscription, userId: string) {
    s.userId == userId && s.status == Active
  }

  /** `getUserSubscription`: the newest active subscription of the user; among equally new ones
      the first in storage order. */
  function UserSubscription(subs: seq<Subscription>, userId: string): (r: Option<Subscription>)
    ensures r.None? <==> forall i :: 0 <= i < |subs| ==> !Current(subs[i], userId)
    ensures r.Some? ==> r.value in subs && Current(r.value, userId)
    ensures r.Some? ==> forall i :: 0 <= i < |subs| && Current(subs[i], userId) ==> subs[i].createdAt <= r.value.createdAt
    decreases |subs|
  {
    if subs == [] then None
    else
      var rest := UserSubscription(subs[1..], userId);
      assert forall i :: 1 <= i < |subs| ==> subs[i] == subs[1..][i - 1];
      if !Current(subs[0], userId) then rest
      else if rest.Some? && rest.value.createdAt > subs[0].createdAt then rest
      else Some(subs[0])
  }

  /** `Object.values(SUBSCRIPTION_PLANS).find(p => p.priceId === priceId)`. */
  function FindPlan(plans: seq<Plan>, priceId: string): (r: Option<Plan>)
    ensures r.None? <==> forall i :: 0 <= i < |plans| ==> plans[i].priceId != Some(priceId)
    ensures r.Some? ==> exists i :: 0 <= i < |plans| && plans[i] == r.value && r.value.priceId == Some(priceId)
                                    && forall j :: 0 <= j < i ==> plans[j].priceId != Some(priceId)
  {
    if plans == [] then None
    else if plans[0].priceId == Some(priceId) then Some(plans[0])
    else
      var rest := FindPlan(plans[1..], priceId);
      assert forall i :: 1 <= i < |plans| ==> plans[i] == plans[1..][i - 1];
      rest
  }

  /** Some feature text mentions the requested feature, ignoring the case of ASCII letters. */
  function MentionsFeature(features: seq<string>, feature: string): (r: bool)
    ensures r <==> exists i :: 0 <= i < |features| && Contains(Lower(features[i]), Lower(feature))
  {
    if features == [] then false
    else if Contains(Lower(features[0]), Lower(feature)) then true
    else
      var rest := MentionsFeature(features[1..], feature);
      assert forall i :: 1 <= i < |features| ==> features[i] == features[1..][i - 1];
      rest
  }

  /** The plan of the user's subscription, if it has one and its price is a known plan's. */
  function SubscribedPlan(subs: seq<Subscription>, env: PriceIds, userId: string): Option<Plan> {
    match UserSubscription(subs, userId)
    case None => None
    case Some(s) => FindPlan(AllPlans(env), s.priceId)
  }

  /** `checkSubscriptionAccess`. */
  function CheckAccess(subs: seq<Subscription>, env: PriceIds, userId: string, feature: string): (r: bool)
    ensures UserSubscription(subs, userId).None? ==> !r
    ensures UserSubscription(subs, userId).Some? && FindPlan(AllPlans(env), UserSubscription(subs, userId).value.priceId).None? ==> !r
    ensures r <==> && SubscribedPlan(subs, env, userId).Some?
                   && exists i :: 0 <= i < |SubscribedPlan(subs, env, userId).value.features|
                        && Contains(Lower(SubscribedPlan(subs, env, userId).value.features[i]), Lower(feature))
  {
    var plan := SubscribedPlan(subs, env, userId);
    plan.Some? && MentionsFeature(plan.value.features, feature)
  }

  datatype LimitCheck = LimitCheck(allowed: bool, limit: Cap, current: nat)

  /** `checkTeamMemberLimit`, with the count of members in the user's teams given. */
  function CheckTeamMemberLimit(subs: seq<Subscription>, env: PriceIds, userId: string, count: nat): (r: LimitCheck)
    ensures UserSubscription(subs, userId).None? ==> r == LimitCheck(false, Finite(0), 0)
    ensures UserSubscription(subs, userId).Some? ==>
              match FindPlan(AllPlans(env), UserSubscription(subs, userId).value.priceId)
              case None => r == LimitCheck(false, Finite(0), 0)
              case Some(plan) => r.limit == plan.maxTeamMembers && r.current == count && (r.allowed <==> Below(count, plan.maxTeamMembers))
  {
    match UserSubscription(subs, userId)
    case None => LimitCheck(false, Finite(0), 0)
    case Some(s) =>
      match FindPlan(AllPlans(env), s.priceId)
      case None => LimitCheck(false, Finite(0), 0)
      case Some(plan) => LimitCheck(Below(count, plan.maxTeamMembers), plan.maxTeamMembers, count)
  }

  /** With distinct price ids, an enterprise subscriber is never refused, however many members. */
  lemma EnterpriseNeverLimited(subs: seq<Subscription>, env: PriceIds, userId: string, count: nat)
    requires UserSubscription(subs, userId).Some?
    requires Some(UserSubscription(subs, userId).value.priceId) == env.enterprise
    requires env.enterprise != env.starter && env.enterprise != env.pro
    ensures CheckTeamMemberLimit(subs, env, userId, count).allowed
    ensures CheckTeamMemberLimit(subs, env, userId, count).limit == Unbounded
  {
    var plans := AllPlans(env);
    assert FindPlan(plans, UserSubscription(subs, userId).value.priceId) == Some(plans[2]);
  }

  // -----------------------------------------------------------------------------------------------
  // Usage

  /** A stored usage row; `description` is optional, and the time is the row's creation time. */
  datatype UsageRecord = UsageRecord(subscriptionId: string, quantity: int, description: Option<string>, timestamp: int)

  /** `{ start, end }`, both bounds inclusive. */
  datatype Period = Period(start: int, end: int)

  predicate InPeriod(r: UsageRecord, subscriptionId: string, period: Option<Period>) {
    r.subscriptionId == subscriptionId && (period.None? || period.value.start <= r.timestamp <= period.value.end)
  }

  /** The records the query selects, in storage order. */
  function Selected(records: seq<UsageRecord>, subscriptionId: string, period: Option<Period>): (r: seq<UsageRecord>)
    ensures forall k :: 0 <= k < |r| ==> r[k] in records && InPeriod(r[k], subscriptionId, period)
    ensures forall k :: 0 <= k < |records| && InPeriod(records[k], subscriptionId, period) ==> records[k] in r
    // records carry no id, so equal ones are possible: each is kept as often as it is stored
    ensures forall u :: multiset(r)[u] == if InPeriod(u, subscriptionId, period) then multiset(records)[u] else 0
    decreases |records|
  {
    if records == [] then []
    else
      var last := records[|records| - 1];
      var init := Selected(records[..|records| - 1], subscriptionId, period);
      assert forall k :: 0 <= k < |records| - 1 ==> records[k] == records[..|records| - 1][k];
      assert records == records[..|records| - 1] + [last];
      assert multiset(records) == multiset(records[..|records| - 1]) + multiset{last};
      if InPeriod(last, subscriptionId, period) then init + [last] else init
  }

  /** The sum of the quantities. */
  function Sum(records: seq<UsageRecord>): int
    decreases |records|
  {
    if records == [] then 0 else Sum(records[..|records| - 1]) + records[|records| - 1].quantity
  }

  /** The `reduce` of `getSubscriptionUsage`. */
  method Total(records: seq<UsageRecord>) returns (total: int)
    ensures total == Sum(records)
    ensures (forall k :: 0 <= k < |records| ==> records[k].quantity >= 0) ==> total >= 0
  {
    total := 0;
    var i := 0;
    while i < |records|
      invariant 0 <= i <= |records|
      invariant total == Sum(records[..i])
      invariant (forall k :: 0 <= k < |records| ==> records[k].quantity >= 0) ==> total >= 0
    {
      assert records[..i + 1][..i] == records[..i];
      total := total + records[i].quantity;
      i := i + 1;
    }
    assert records[..|records|] == records;
  }

  /** `recordUsage` appends one record with the caller's fields, stamped with the current time. */
  function RecordUsage(records: seq<UsageRecord>, subscriptionId: string, quantity: int, description: Option<string>,
                       now: int): (r: seq<UsageRecord>)
    ensures |r| == |records| + 1 && r[..|records|] == records
    ensures r[|records|] == UsageRecord(subscriptionId, quantity, description, now)
  {
    records + [UsageRecord(subscriptionId, quantity, description, now)]
  }

  /** Recording usage raises the subscription's total by exactly the recorded quantity, and leaves
      every other subscription's total as it was. */
  lemma RecordingAddsToTotal(records: seq<UsageRecord>, subscriptionId: string, other: string, quantity: int, description: Option<string>, now: int)
    requires other != subscriptionId
    ensures Sum(Selected(RecordUsage(records, subscriptionId, quantity, description, now), subscriptionId, None))
            == Sum(Selected(records, subscriptionId, None)) + quantity
    ensures Sum(Selected(RecordUsage(records, subscriptionId, quantity, description, now), other, None))
            == Sum(Selected(records, other, None))
  {
    var r := RecordUsage(records, subscriptionId, quantity, description, now);
    assert r[..|r| - 1] == records;
  }
}
