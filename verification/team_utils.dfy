/** The team helpers of `lib/boxyhq/utils.ts`: the team slug a host name names, the role check,
    and the display and validation of a single-sign-on (SAML) configuration. Membership storage is
    a map keyed by team and user. The unique-slug search lives with the slug generators. */
module TeamUtils {
  import opened Base
  import opened Text

  // -----------------------------------------------------------------------------------------------
  // Custom domains

  /** `getTeamSlugFromDomain`: the host without its port, unless it is a development or preview
      host. */
  function TeamSlugFromDomain(hostname: string): (r: Option<string>)
    ensures r.Some? ==> ':' !in r.value && StartsWith(hostname, r.value)
    ensures r.Some? && |r.value| < |hostname| ==> hostname[|r.value|] == ':'
    ensures r.Some? ==> !Contains(r.value, "localhost") && !Contains(r.value, ".vercel.app")
    ensures r.None? <==> Contains(Before(hostname, ':'), "localhost") || Contains(Before(hostname, ':'), ".vercel.app")
  {
    var domain := Before(hostname, ':');
    if !Contains(domain, "localhost") && !Contains(domain, ".vercel.app") then Some(domain) else None
  }

  /** A custom host without a port is its own team slug. */
  lemma CustomHostKept(host: string)
    requires ':' !in host
    requires !Contains(host, "localhost") && !Contains(host, ".vercel.app")
    ensures TeamSlugFromDomain(host) == Some(host)
  {
    BeforeAbsent(host, ':');
  }

  /** Everything from the first `:` on is ignored, so a port never changes the answer. */
  lemma PortIgnored(host: string, port: string)
    requires ':' !in host
    ensures TeamSlugFromDomain(host + ":" + port) == TeamSlugFromDomain(host)
  {
    assert host + ":" + port == host + [':'] + port;
    BeforeFirst(host, ':', port);
    BeforeAbsent(host, ':');
  }

  /** A development host is never a team, whatever else the name holds. */
  lemma LocalhostIsNoTeam(a: string, b: string)
    requires ':' !in a + "localhost" + b
    ensures TeamSlugFromDomain(a + "localhost" + b).None?
  {
    BeforeAbsent(a + "localhost" + b, ':');
    ContainsSuffix(a, "localhost");
    ContainsGrow(a + "localhost", "localhost", b);
  }

  // -----------------------------------------------------------------------------------------------
  // Roles

  /** Team memberships: the role of each (team id, user id) pair. */
  type Memberships = map<(string, string), string>

  /** `hasTeamRole`. */
  function HasTeamRole(members: Memberships, userId: string, teamId: string, roles: seq<string>): (r: bool)
    ensures (teamId, userId) !in members ==> !r
    ensures (teamId, userId) in members ==> (r <==> exists i :: 0 <= i < |roles| && roles[i] == members[(teamId, userId)])
  {
    if (teamId, userId) in members then members[(teamId, userId)] in roles else false
  }

  /** Asking for more roles never turns a yes into a no. */
  lemma MoreRolesNeverHurt(members: Memberships, userId: string, teamId: string, roles: seq<string>, extra: seq<string>)
    ensures HasTeamRole(members, userId, teamId, roles) ==> HasTeamRole(members, userId, teamId, roles + extra)
    ensures HasTeamRole(members, userId, teamId, extra) ==> HasTeamRole(members, userId, teamId, roles + extra)
  {
    if (teamId, userId) in members {
      var role := members[(teamId, userId)];
      if role in roles {
        var i :| 0 <= i < |roles| && roles[i] == role;
        assert (roles + extra)[i] == role;
      }
      if role in extra {
        var i :| 0 <= i < |extra| && extra[i] == role;
        assert (roles + extra)[|roles| + i] == role;
      }
    }
  }

  // -----------------------------------------------------------------------------------------------
  // SAML configuration

  /** The configuration as received: each field may be missing, and the empty string counts as
      missing. */
  datatype SamlConfig = SamlConfig(entityId: Option<string>, acsUrl: Option<string>, idpUrl: Option<string>, certificate: Option<string>)

  /** The four required fields, in the order they are checked and reported. */
  datatype Field = EntityId | AcsUrl | IdpUrl | Certificate

  const REQUIRED: seq<Field> := [EntityId, AcsUrl, IdpUrl, Certificate]

  function Name(f: Field): string {
    match f
    case EntityId => "entityId"
    case AcsUrl => "acsUrl"
    case IdpUrl => "idpUrl"
    case Certificate => "certificate"
  }

  function Get(c: SamlConfig, f: Field): Option<string> {
    match f
    case EntityId => c.entityId
    case AcsUrl => c.acsUrl
    case IdpUrl => c.idpUrl
    case Certificate => c.certificate
  }

  /** The configuration as displayed: every field present, blank where it was missing. */
  datatype Formatted = Formatted(entityId: string, acsUrl: string, idpUrl: string, certificate: string)

  /** `formatSAMLConfig`. */
  function FormatSamlConfig(c: SamlConfig): (r: Formatted)
    ensures Filled(c.entityId) ==> r.entityId == c.entityId.value
    ensures Filled(c.acsUrl) ==> r.acsUrl == c.acsUrl.value
    ensures Filled(c.idpUrl) ==> r.idpUrl == c.idpUrl.value
    ensures Filled(c.certificate) ==> r.certificate == c.certificate.value
    ensures !Filled(c.entityId) ==> r.entityId == ""
    ensures !Filled(c.acsUrl) ==> r.acsUrl == ""
    ensures !Filled(c.idpUrl) ==> r.idpUrl == ""
    ensures !Filled(c.certificate) ==> r.certificate == ""
  {
    Formatted(OrElse(c.entityId, ""), OrElse(c.acsUrl, ""), OrElse(c.idpUrl, ""), OrElse(c.certificate, ""))
  }

  /** The fields of `fields` that the configuration lacks, in the same order. */
  function Missing(c: SamlConfig, fields: seq<Field>): (r: seq<Field>)
    ensures |r| <= |fields|
    ensures forall f :: f in r <==> f in fields && !Filled(Get(c, f))
    decreases |fields|
  {
    if fields == [] then []
    else if !Filled(Get(c, fields[0])) then [fields[0]] + Missing(c, fields[1..])
    else Missing(c, fields[1..])
  }

  const MISSING_PREFIX := "Missing required fields: "

  /** `validateSAMLConfig`: no message when every required field is filled, else the missing names
      joined by commas. */
  function ValidateSamlConfig(c: SamlConfig): (r: Option<string>)
    ensures r.None? <==> forall f: Field :: Filled(Get(c, f))
    ensures r.Some? ==> r.value == MISSING_PREFIX + Join(Names(Missing(c, REQUIRED)), ", ")
  {
    var missing := Missing(c, REQUIRED);
    assert forall f: Field :: REQUIRED[Position(f)] == f;
    if |missing| > 0 then Some(MISSING_PREFIX + Join(Names(missing), ", ")) else None
  }

  function Names(fields: seq<Field>): (r: seq<string>)
    ensures |r| == |fields|
    ensures forall i :: 0 <= i < |fields| ==> r[i] == Name(fields[i])
  {
    if fields == [] then [] else [Name(fields[0])] + Names(fields[1..])
  }

  /** Strictly increasing positions in `REQUIRED`. */
  predicate Increasing(fields: seq<Field>) {
    forall a, b :: 0 <= a < b < |fields| ==> Position(fields[a]) < Position(fields[b])
  }

  /** The fields are reported in the fixed order entityId, acsUrl, idpUrl, certificate: `Missing`
      keeps the order of the list it filters. */
  lemma {:induction false} MissingKeepsOrder(c: SamlConfig, fields: seq<Field>)
    requires Increasing(fields)
    ensures Increasing(Missing(c, fields))
    decreases |fields|
  {
    if fields != [] {
      var rest := fields[1..];
      IncreasingTail(fields);
      MissingKeepsOrder(c, rest);
      if !Filled(Get(c, fields[0])) {
        AfterFirst(fields);
        IncreasingCons(fields[0], Missing(c, rest));
      }
    }
  }

  lemma IncreasingTail(fields: seq<Field>)
    requires fields != [] && Increasing(fields)
    ensures Increasing(fields[1..])
  {
    forall a, b | 0 <= a < b < |fields| - 1 ensures Position(fields[1..][a]) < Position(fields[1..][b]) {
      assert fields[1..][a] == fields[a + 1] && fields[1..][b] == fields[b + 1];
    }
  }

  lemma AfterFirst(fields: seq<Field>)
    requires fields != [] && Increasing(fields)
    ensures forall x :: x in fields[1..] ==> Position(fields[0]) < Position(x)
  {
    forall x | x in fields[1..] ensures Position(fields[0]) < Position(x) {
      var k :| 0 <= k < |fields[1..]| && fields[1..][k] == x;
      assert fields[k + 1] == x;
    }
  }

  lemma IncreasingCons(x: Field, m: seq<Field>)
    requires Increasing(m) && forall y :: y in m ==> Position(x) < Position(y)
    ensures Increasing([x] + m)
  {
    var xm := [x] + m;
    forall a, b | 0 <= a < b < |xm| ensures Position(xm[a]) < Position(xm[b]) {
      assert xm[b] == m[b - 1];
      if a > 0 {
        assert xm[a] == m[a - 1];
      } else {
        assert m[b - 1] in m;
      }
    }
  }

  /** The position of a field in `REQUIRED`. */
  function Position(f: Field): nat {
    match f
    case EntityId => 0
    case AcsUrl => 1
    case IdpUrl => 2
    case Certificate => 3
  }

  /** The missing names come out in the order of `REQUIRED`. */
  lemma ReportedInOrder(c: SamlConfig, i: nat, j: nat)
    requires i < j < |Missing(c, REQUIRED)|
    ensures Position(Missing(c, REQUIRED)[i]) < Position(Missing(c, REQUIRED)[j])
  {
    MissingKeepsOrder(c, REQUIRED);
  }

  /** With exactly one field missing, the message names just that field. */
  lemma OneFieldMissing(c: SamlConfig, f: Field)
    requires !Filled(Get(c, f))
    requires forall g: Field :: g != f ==> Filled(Get(c, g))
    ensures ValidateSamlConfig(c) == Some(MISSING_PREFIX + Name(f))
  {
    var m := Missing(c, REQUIRED);
    assert f in m;
    assert forall g :: g in m ==> g == f;
    assert m == [f];
  }

  /** Displaying a configuration and validating what is displayed gives the original verdict:
      blank fields are exactly the missing ones. */
  function Redisplayed(f: Formatted): SamlConfig {
    SamlConfig(Some(f.entityId), Some(f.acsUrl), Some(f.idpUrl), Some(f.certificate))
  }

  lemma FormattingKeepsVerdict(c: SamlConfig)
    ensures ValidateSamlConfig(Redisplayed(FormatSamlConfig(c))) == ValidateSamlConfig(c)
  {
    var d := Redisplayed(FormatSamlConfig(c));
    assert forall f: Field :: Filled(Get(d, f)) <==> Filled(Get(c, f));
    SameMissing(c, d, REQUIRED);
  }

  lemma {:induction false} SameMissing(c: SamlConfig, d: SamlConfig, fields: seq<Field>)
    requires forall f: Field :: Filled(Get(d, f)) <==> Filled(Get(c, f))
    ensures Missing(d, fields) == Missing(c, fields)
    decreases |fields|
  {
    if fields != [] {
      SameMissing(c, d, fields[1..]);
    }
  }
}
