/** The membership tiers: the `MEMBERSHIP_FEATURES` table of `types/membership.ts` and the lookups
    of the `useMembership` hook (`hooks/useMembership.ts`). The session's tier claim is an input. */
module Membership {
  import opened Base

  datatype Tier = Free | Pro | Enterprise

  /** The tier's name as the session carries it. */
  function Name(t: Tier): string {
    match t
    case Free => "FREE"
    case Pro => "PRO"
    case Enterprise => "ENTERPRISE"
  }

  /** The tier a name denotes, if any. */
  function Parse(name: string): (r: Option<Tier>)
    ensures r.Some? ==> Name(r.value) == name
    ensures forall t: Tier :: Name(t) == name ==> r == Some(t)
  {
    if name == "FREE" then Some(Free) else if name == "PRO" then Some(Pro)
    else if name == "ENTERPRISE" then Some(Enterprise) else None
  }

  /** The tiers in ascending order. */
  function Rank(t: Tier): nat {
    match t
    case Free => 0
    case Pro => 1
    case Enterprise => 2
  }

  datatype Features = Features(
    socialAccess: bool,
    projectCreation: bool,
    teamSize: nat,
    storageLimit: nat,
    analyticsAccess: bool,
    apiAccess: bool,
    customBranding: bool,
    ssoSupport: bool,
    priority: bool)

  /** `MEMBERSHIP_FEATURES`. */
  function Table(t: Tier): Features {
    match t
    case Free => Features(true, true, 5, 1, false, false, false, false, false)
    case Pro => Features(true, true, 20, 10, true, true, false, false, true)
    case Enterprise => Features(true, true, 100, 100, true, true, true, true, true)
  }

  /** The keys of `MembershipFeatures`. */
  datatype Key = SocialAccess | ProjectCreation | TeamSize | StorageLimit | AnalyticsAccess
               | ApiAccess | CustomBranding | SsoSupport | Priority

  predicate IsLimit(k: Key) {
    k == TeamSize || k == StorageLimit
  }

  /** A table entry: a capability or a number. */
  datatype Value = Flag(on: bool) | Amount(n: nat)

  predicate Truthy(v: Value) {
    match v
    case Flag(b) => b
    case Amount(n) => n != 0
  }

  function Entry(f: Features, k: Key): (r: Value)
    ensures r.Amount? <==> IsLimit(k)
  {
    match k
    case SocialAccess => Flag(f.socialAccess)
    case ProjectCreation => Flag(f.projectCreation)
    case TeamSize => Amount(f.teamSize)
    case StorageLimit => Amount(f.storageLimit)
    case AnalyticsAccess => Flag(f.analyticsAccess)
    case ApiAccess => Flag(f.apiAccess)
    case CustomBranding => Flag(f.customBranding)
    case SsoSupport => Flag(f.ssoSupport)
    case Priority => Flag(f.priority)
  }

  // -----------------------------------------------------------------------------------------------
  // The table's promises

  /** Every capability a tier has, every higher tier has too, and no limit shrinks going up. */
  lemma CapabilitiesGrowWithTier(lo: Tier, hi: Tier, k: Key)
    requires Rank(lo) <= Rank(hi)
    ensures Entry(Table(lo), k).Flag? && Entry(Table(lo), k).on ==> Entry(Table(hi), k).on
    ensures Entry(Table(lo), k).Amount? ==> Entry(Table(lo), k).n <= Entry(Table(hi), k).n
  {
  }

  /** Branding and single sign-on are for ENTERPRISE only; the social area and project creation
      are for everyone. */
  lemma TierExclusives(t: Tier)
    ensures Table(t).customBranding <==> t == Enterprise
    ensures Table(t).ssoSupport <==> t == Enterprise
    ensures Table(t).socialAccess && Table(t).projectCreation
    ensures Table(t).teamSize == (match t case Free => 5 case Pro => 20 case Enterprise => 100)
    ensures Table(t).storageLimit == (match t case Free => 1 case Pro => 10 case Enterprise => 100)
  {
  }

  // -----------------------------------------------------------------------------------------------
  // The hook

  const TYPE_ERROR := "TypeError"

  /** `session?.user?.membershipTier || 'FREE'`. */
  function TierName(claim: Option<string>): (r: string)
    ensures claim.None? || claim.value == "" ==> r == "FREE"
    ensures claim.Some? && claim.value != "" ==> r == claim.value
  {
    if claim.Some? && claim.value != "" then claim.value else "FREE"
  }

  /** `MEMBERSHIP_FEATURES[membershipTier]`: `undefined` for a name outside the table. */
  function Row(claim: Option<string>): (r: Option<Features>)
    ensures claim.None? ==> r == Some(Table(Free))
    ensures r.Some? <==> Parse(TierName(claim)).Some?
    ensures r.Some? ==> r.value == Table(Parse(TierName(claim)).value)
  {
    match Parse(TierName(claim))
    case Some(t) => Some(Table(t))
    case None => None
  }

  /** `hasFeature`: the entry when it is truthy, `false` otherwise. Reading a key of an undefined row
      throws. */
  function HasFeature(claim: Option<string>, k: Key): (r: Result<Value>)
    ensures r.Err? <==> Row(claim).None?
    ensures r.Ok? ==> (Truthy(r.value) <==> Truthy(Entry(Row(claim).value, k)))
    ensures r.Ok? && Truthy(r.value) ==> r.value == Entry(Row(claim).value, k)
    ensures r.Ok? && !Truthy(r.value) ==> r.value == Flag(false)
  {
    match Row(claim)
    case None => Err(TYPE_ERROR)
    case Some(f) => if Truthy(Entry(f, k)) then Ok(Entry(f, k)) else Ok(Flag(false))
  }

  /** `getLimit`. */
  function GetLimit(claim: Option<string>, k: Key): (r: Result<nat>)
    requires IsLimit(k)
    ensures r.Err? <==> Row(claim).None?
    ensures r.Ok? ==> Entry(Row(claim).value, k) == Amount(r.value)
  {
    match Row(claim)
    case None => Err(TYPE_ERROR)
    case Some(f) => Ok(Entry(f, k).n)
  }

  /** `isUpgradeRequired`: exactly the negation of `hasFeature`'s truthiness. */
  function IsUpgradeRequired(claim: Option<string>, k: Key): (r: Result<bool>)
    ensures r.Err? <==> HasFeature(claim, k).Err?
    ensures r.Ok? ==> (r.value <==> !Truthy(HasFeature(claim, k).value))
  {
    match HasFeature(claim, k)
    case Err(e) => Err(e)
    case Ok(v) => Ok(!Truthy(v))
  }

  /** For a known tier, an upgrade is required exactly for what the table row withholds, and a
      higher tier never requires an upgrade the lower one does not. */
  lemma UpgradeMatchesTable(lo: Tier, hi: Tier, k: Key)
    requires Rank(lo) <= Rank(hi)
    ensures IsUpgradeRequired(Some(Name(lo)), k) == Ok(!Truthy(Entry(Table(lo), k)))
    ensures IsUpgradeRequired(Some(Name(hi)), k).value ==> IsUpgradeRequired(Some(Name(lo)), k).value
  {
    assert Parse(Name(lo)) == Some(lo);
    assert Parse(Name(hi)) == Some(hi);
    CapabilitiesGrowWithTier(lo, hi, k);
  }

  /** A name outside the table, such as a tier the guard lists but the table lacks, makes every
      lookup throw. */
  lemma UnknownTierThrows(name: string, k: Key)
    requires name != "" && Parse(name).None?
    ensures HasFeature(Some(name), k).Err? && IsUpgradeRequired(Some(name), k).Err?
  {
  }
}
