/** The subscription gate of `middleware/subscription.ts`: exact public paths, the sign-in and
    billing redirects, and the team-member limit on `/api/teams`. The token and the user table are
    inputs; the member count of the user's teams is given. */
module SubscriptionGuard {
  import opened Base
  import opened Text
  import opened Plans

  const PUBLIC_PATHS: seq<string> := ["/", "/auth/signin", "/auth/signup", "/api/auth/signin", "/api/auth/signup", "/api/stripe/webhook"]

  const LIMIT_REACHED := "Team member limit reached. Please upgrade your subscription."

  /** The stored user with its subscription, if any. */
  datatype User = User(id: string, subscription: Option<StoredSubscription>)
  datatype StoredSubscription = StoredSubscription(priceId: string)

  datatype Decision = Next | Redirect(target: string) | Forbidden(status: int, error: string)

  /** `getMaxTeamMembers`: the `switch` compares with `===` in case order; an unset environment
      variable is `undefined`. The parameter is optional, as declared, but the gate only passes the
      price id of a stored subscription, which is always a string. */
  function MaxTeamMembers(priceId: Option<string>, env: PriceIds): (r: Cap)
    ensures priceId != env.starter && priceId != env.pro && priceId != env.enterprise ==> r == Finite(0)
    ensures priceId == env.starter ==> r == Finite(5)
    ensures priceId != env.starter && priceId == env.pro ==> r == Finite(20)
    ensures priceId != env.starter && priceId != env.pro && priceId == env.enterprise ==> r == Unbounded
  {
    if priceId == env.starter then Finite(5)
    else if priceId == env.pro then Finite(20)
    else if priceId == env.enterprise then Unbounded
    else Finite(0)
  }

  /** `middleware`. `token` is the session's subject, `count` the number of members of the teams
      the user created. */
  function Guard(path: string, token: Option<string>, users: map<string, User>, env: PriceIds, count: nat): (r: Decision)
    // only the six listed paths, exactly, bypass the checks
    ensures path in PUBLIC_PATHS ==> r == Next
    ensures path !in PUBLIC_PATHS && (token.None? || token.value !in users) ==> r == Redirect("/auth/signin")
    ensures path !in PUBLIC_PATHS && token.Some? && token.value in users && users[token.value].subscription.None? ==>
              r == (if StartsWith(path, "/settings/billing") then Next else Redirect("/settings/billing"))
    // the member limit applies to /api/teams only, and refuses iff the count has reached the cap
    ensures r.Forbidden? <==> && path !in PUBLIC_PATHS && token.Some? && token.value in users
                              && users[token.value].subscription.Some? && StartsWith(path, "/api/teams")
                              && !Below(count, MaxTeamMembers(Some(users[token.value].subscription.value.priceId), env))
    ensures r.Forbidden? ==> r == Forbidden(403, LIMIT_REACHED)
  {
    if path in PUBLIC_PATHS then Next
    else if token.None? || token.value !in users then Redirect("/auth/signin")
    else
      var user := users[token.value];
      if user.subscription.None? && !StartsWith(path, "/settings/billing") then Redirect("/settings/billing")
      else if StartsWith(path, "/api/teams") && user.subscription.Some?
              && !Below(count, MaxTeamMembers(Some(user.subscription.value.priceId), env)) then
        Forbidden(403, LIMIT_REACHED)
      else Next
  }

  /** There is no prefix matching: a path below a public path (other than the root) is not
      public, so without a session it is sent to sign-in like any other. */
  lemma NoPrefixMatching(i: nat, rest: string, users: map<string, User>, env: PriceIds, count: nat)
    requires 0 < i < |PUBLIC_PATHS|
    ensures PUBLIC_PATHS[i] + "/" + rest !in PUBLIC_PATHS
    ensures Guard(PUBLIC_PATHS[i] + "/" + rest, None, users, env, count) == Redirect("/auth/signin")
  {
    var e := PUBLIC_PATHS[i];
    var path := e + "/" + rest;
    assert path[..|e|] == e && path[|e|] == '/';
    forall j | 0 <= j < |PUBLIC_PATHS| ensures PUBLIC_PATHS[j] != path {
      // no public path continues another one, the root aside, with a `/`
      assert |PUBLIC_PATHS[j]| <= |e| || PUBLIC_PATHS[j][..|e|] != e || PUBLIC_PATHS[j][|e|] != '/';
    }
  }

  /** The gate and the plan table agree: when the price ids are set and distinct, the cap the gate
      enforces for a plan's price id is that plan's own member cap, and the gate forbids exactly
      when `checkTeamMemberLimit` would not allow. */
  lemma GateAgreesWithPlans(env: PriceIds, k: nat, count: nat)
    requires k < 3
    requires env.starter.Some? && env.pro.Some? && env.enterprise.Some?
    requires env.starter != env.pro && env.starter != env.enterprise && env.pro != env.enterprise
    ensures MaxTeamMembers(AllPlans(env)[k].priceId, env) == AllPlans(env)[k].maxTeamMembers
    ensures var s := Subscription("s", "u", Active, AllPlans(env)[k].priceId.value, 0);
            var users := map["u" := User("u", Some(StoredSubscription(AllPlans(env)[k].priceId.value)))];
            (Guard("/api/teams", Some("u"), users, env, count).Forbidden? <==> !CheckTeamMemberLimit([s], env, "u", count).allowed)
  {
    var plans := AllPlans(env);
    var s := Subscription("s", "u", Active, plans[k].priceId.value, 0);
    assert UserSubscription([s], "u") == Some(s);
    assert FindPlan(plans, s.priceId) == Some(plans[k]);
    assert "/api/teams" !in PUBLIC_PATHS;
    assert StartsWith("/api/teams", "/api/teams");
  }

  /** Without a subscription every other path leads to billing, and the billing pages stay reachable. */
  lemma NoSubscriptionGoesToBilling(path: string, uid: string, users: map<string, User>, env: PriceIds, count: nat)
    requires path !in PUBLIC_PATHS && uid in users && users[uid].subscription.None?
    ensures Guard(path, Some(uid), users, env, count) == (if StartsWith(path, "/settings/billing") then Next else Redirect("/settings/billing"))
    ensures Guard("/settings/billing", Some(uid), users, env, count) == Next
  {
    assert "/settings/billing" !in PUBLIC_PATHS;
  }
}
