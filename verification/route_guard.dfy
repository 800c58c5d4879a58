/** The edge guard of `middleware.ts`: public-path classification, the static-asset bypass, the
    session-token gate and the membership-tier gate. The token lookup is an oracle. */
module RouteGuard {
  import opened Base
  import opened Text

  const PUBLIC_PATHS: seq<string> := [
    "/", "/auth/signin", "/auth/signup", "/auth/error", "/auth/verify",
    "/api/auth/session", "/api/auth/session-debug", "/api/auth/callback",
    "/api/auth/signin", "/api/auth/signout",
    "/bpc-adults", "/bpc-schooling", "/bpcas", "/white-noise-academy", "/about", "/contact"]

  /** Does a listed entry cover the path: the entry itself or one of its sub-paths? */
  predicate Covers(entry: string, path: string) {
    path == entry || StartsWith(path, entry + "/")
  }

  function CoveredBy(entries: seq<string>, path: string): (r: bool)
    ensures r <==> exists i :: 0 <= i < |entries| && Covers(entries[i], path)
  {
    if entries == [] then false
    else if Covers(entries[0], path) then true
    else
      var rest := CoveredBy(entries[1..], path);
      assert forall i :: 1 <= i < |entries| ==> entries[i] == entries[1..][i - 1];
      rest
  }

  function IsPublic(path: string): (r: bool)
    ensures r <==> exists i :: 0 <= i < |PUBLIC_PATHS| && Covers(PUBLIC_PATHS[i], path)
  {
    CoveredBy(PUBLIC_PATHS, path)
  }

  /** Next.js internals, static assets and anything that looks like a file name. */
  predicate IsStatic(path: string) {
    StartsWith(path, "/_next") || StartsWith(path, "/static") || StartsWith(path, "/images") || '.' in path
  }

  /** What the session-token lookup produced: it threw, there is no token, or a token with the
      `membershipTier` claim when there is one. */
  datatype TokenLookup = TokenFailure | NoToken | Token(tier: Option<string>)

  datatype Decision = Next | Redirect(target: string, callbackUrl: Option<string>)

  /** A protected route prefix and the tiers allowed under it. */
  datatype Route = Route(prefix: string, allowed: seq<string>)

  /** The table as written. */
  const PROTECTED_AS_WRITTEN: seq<Route> := [
    Route("/dashboard", ["FREE", "PREMIUM", "ENTERPRISE"]),
    Route("/social", ["FREE", "PREMIUM", "ENTERPRISE"]),
    Route("/settings", ["FREE", "PREMIUM", "ENTERPRISE"])]

  /** The table with the tier names the membership model uses. */
  const PROTECTED: seq<Route> := [
    Route("/dashboard", ["FREE", "PRO", "ENTERPRISE"]),
    Route("/social", ["FREE", "PRO", "ENTERPRISE"]),
    Route("/settings", ["FREE", "PRO", "ENTERPRISE"])]

  /** `token.membershipTier || 'FREE'`. */
  function TierOf(claim: Option<string>): (r: string)
    ensures r != ""
    ensures claim.Some? && claim.value != "" ==> r == claim.value
  {
    if claim.Some? && claim.value != "" then claim.value else "FREE"
  }

  /** Is some route in the table both a prefix of the path and closed to the tier? */
  function Barred(routes: seq<Route>, path: string, tier: string): (r: bool)
    ensures r <==> exists i :: 0 <= i < |routes| && StartsWith(path, routes[i].prefix) && tier !in routes[i].allowed
  {
    if routes == [] then false
    else if StartsWith(path, routes[0].prefix) && tier !in routes[0].allowed then true
    else
      var rest := Barred(routes[1..], path, tier);
      assert forall i :: 1 <= i < |routes| ==> routes[i] == routes[1..][i - 1];
      rest
  }

  /** `middleware` over a given protected-route table. */
  function Guard(routes: seq<Route>, path: string, token: TokenLookup): (r: Decision)
    ensures IsPublic(path) || IsStatic(path) ==> r == Next
    ensures !IsPublic(path) && !IsStatic(path) ==>
              match token
              case TokenFailure => r == Redirect("/auth/error", None)
              case NoToken => r == Redirect("/auth/signin", Some(path))
              case Token(claim) => r == (if Barred(routes, path, TierOf(claim)) then Redirect("/dashboard", None) else Next)
    // the only redirects are to sign-in (carrying the original path), to the error page and to the dashboard
    ensures r.Redirect? ==> r.target in {"/auth/error", "/auth/signin", "/dashboard"}
    ensures r.Redirect? && r.callbackUrl.Some? ==> r.target == "/auth/signin" && r.callbackUrl.value == path
  {
    if IsPublic(path) || IsStatic(path) then Next
    else
      match token
      case TokenFailure => Redirect("/auth/error", None)
      case NoToken => Redirect("/auth/signin", Some(path))
      case Token(claim) => if Barred(routes, path, TierOf(claim)) then Redirect("/dashboard", None) else Next
  }

  /** An entry covers only whole path segments: every path below it, and no longer name that
      merely starts with it (`/about` covers `/about/x` but not `/aboutus`). */
  lemma SegmentsOnly(entry: string, rest: string)
    ensures Covers(entry, entry + "/" + rest)
    ensures rest != [] && rest[0] != '/' ==> !Covers(entry, entry + rest)
  {
    assert (entry + "/" + rest)[..|entry + "/"|] == entry + "/";
    if rest != [] && rest[0] != '/' {
      assert (entry + rest)[|entry|] == rest[0];
      NotCoveredAt(entry, entry + rest, |entry|);
    }
  }

  /** The root entry covers the root itself and otherwise only paths starting with `//`. */
  lemma RootCoversOnlyRoot(path: string)
    ensures Covers("/", path) <==> path == "/" || StartsWith(path, "//")
  {
    assert "/" + "/" == "//";
  }

  /** With the table as written, the tiers it lists, and a missing tier, pass everywhere. */
  lemma ListedTiersPass(path: string, claim: Option<string>)
    requires claim.None? || claim.value in {"", "FREE", "PREMIUM", "ENTERPRISE"}
    ensures Guard(PROTECTED_AS_WRITTEN, path, Token(claim)) == Next
  {
    var tier := TierOf(claim);
    assert tier in {"FREE", "PREMIUM", "ENTERPRISE"};
    forall i | 0 <= i < |PROTECTED_AS_WRITTEN| ensures tier in PROTECTED_AS_WRITTEN[i].allowed {
    }
  }

  /** The defect: the membership tiers are FREE, PRO and ENTERPRISE, and the table as written lists
      PREMIUM instead of PRO. A token whose tier claim is PRO, asking for `/dashboard`, is sent to
      `/dashboard`, which sends it there again. The defect is latent: the sign-in callback does not
      yet copy the tier into the token, so today every token reads FREE. */
  lemma ProMemberLoops()
    ensures Guard(PROTECTED_AS_WRITTEN, "/dashboard", Token(Some("PRO"))) == Redirect("/dashboard", None)
  {
    DashboardIsGuarded();
    assert StartsWith("/dashboard", PROTECTED_AS_WRITTEN[0].prefix);
    assert "PRO" !in PROTECTED_AS_WRITTEN[0].allowed;
  }

  /** `/dashboard` is neither public nor a static asset, so the guard looks at its token. */
  lemma DashboardIsGuarded()
    ensures !IsPublic("/dashboard") && !IsStatic("/dashboard")
  {
    var p := "/dashboard";
    assert !IsStatic(p) by {
      assert p[1] == 'd';
      forall j | 0 <= j < |p| ensures p[j] != '.' {
      }
    }
    forall i | 0 <= i < |PUBLIC_PATHS| ensures !Covers(PUBLIC_PATHS[i], p) {
      NotCoveredAt(PUBLIC_PATHS[i], p, 1);
    }
  }

  /** An entry does not cover a path that differs from it, and from the entry followed by `/`,
      at some position. */
  lemma NotCoveredAt(entry: string, path: string, k: nat)
    requires k < |path| && k < |entry + "/"| && (entry + "/")[k] != path[k]
    ensures !Covers(entry, path)
  {
    assert forall j :: 0 <= j < |entry| ==> (entry + "/")[j] == entry[j];
  }

  /** With the membership model's tier names, every member passes every protected route: the
      tier gate no longer redirects any real tier, so no redirect loop remains. */
  lemma MembershipTiersPass(path: string, tier: string)
    requires tier in {"FREE", "PRO", "ENTERPRISE"}
    ensures Guard(PROTECTED, path, Token(Some(tier))) == Next
  {
    forall i | 0 <= i < |PROTECTED| ensures tier in PROTECTED[i].allowed {
    }
  }
}
