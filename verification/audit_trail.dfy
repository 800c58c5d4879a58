/** The audit trail of `lib/audit/audit-service.ts`: `log` and the two paged queries. Entries are
    stored in creation order; the clock and the storage outcome are inputs. */
module AuditTrail {
  import opened Base
  import Json
  import Paging

  datatype Entry = Entry(
    action: string,
    actorId: string,
    actorEmail: Option<string>,
    targetType: string,
    targetId: string,
    teamId: Option<string>,
    metadata: Option<Json.Json>,
    timestamp: int)

  datatype EntryData = EntryData(
    action: string,
    actorId: string,
    actorEmail: Option<string>,
    targetType: string,
    targetId: string,
    teamId: Option<string>,
    metadata: Option<Json.Json>)

  /** `log`: the entry is stamped with the current time; a storage error is passed on and nothing
      is stored. */
  function Log(entries: seq<Entry>, data: EntryData, now: int, storageError: Option<string>): (r: Result<seq<Entry>>)
    ensures storageError.Some? ==> r == Err(storageError.value)
    ensures storageError.None? ==> r.Ok? && |r.value| == |entries| + 1 && r.value[..|entries|] == entries
    ensures r.Ok? ==> var e := r.value[|entries|];
                      && e.timestamp == now && e.action == data.action && e.actorId == data.actorId
                      && e.actorEmail == data.actorEmail && e.targetType == data.targetType
                      && e.targetId == data.targetId && e.teamId == data.teamId && e.metadata == data.metadata
  {
    if storageError.Some? then Err(storageError.value)
    else Ok(entries + [Entry(data.action, data.actorId, data.actorEmail, data.targetType, data.targetId,
                             data.teamId, data.metadata, now)])
  }

  /** The query options; the user query has no target-type option and ignores one. */
  datatype Options = Options(
    startDate: Option<int>,
    endDate: Option<int>,
    page: Option<int>,
    limit: Option<int>,
    actions: Option<seq<string>>,
    targetTypes: Option<seq<string>>)

  const NO_OPTIONS := Options(None, None, None, None, None, None)
  const DEFAULT_LIMIT := 50

  /** Whose entries: a team's, or one actor's. */
  datatype Scope = TeamScope(teamId: string) | ActorScope(actorId: string)

  /** A query's `where`. */
  datatype Where = Where(scope: Scope, between: Option<(int, int)>, actions: Option<seq<string>>, targetTypes: Option<seq<string>>)

  predicate Matches(w: Where, e: Entry) {
    && (match w.scope
        case TeamScope(t) => e.teamId == Some(t)
        case ActorScope(a) => e.actorId == a)
    && (w.between.None? || w.between.value.0 <= e.timestamp <= w.between.value.1)
    && (w.actions.None? || e.action in w.actions.value)
    && (w.targetTypes.None? || e.targetType in w.targetTypes.value)
  }

  /** `xs?.length && { in: xs }`: only a non-empty list filters. */
  function NonEmpty(xs: Option<seq<string>>): (r: Option<seq<string>>)
    ensures r.Some? <==> xs.Some? && xs.value != []
    ensures r.Some? ==> r == xs
  {
    if xs.Some? && xs.value != [] then xs else None
  }

  /** The `where` of both queries: the time range only when both dates are given. */
  function WhereOf(scope: Scope, o: Options, withTargetTypes: bool): (r: Where)
    ensures r.scope == scope
    ensures r.between.Some? <==> o.startDate.Some? && o.endDate.Some?
    ensures r.between.Some? ==> r.between.value == (o.startDate.value, o.endDate.value)
    ensures r.actions == NonEmpty(o.actions)
    ensures r.targetTypes == if withTargetTypes then NonEmpty(o.targetTypes) else None
  {
    Where(scope,
          if o.startDate.Some? && o.endDate.Some? then Some((o.startDate.value, o.endDate.value)) else None,
          NonEmpty(o.actions),
          if withTargetTypes then NonEmpty(o.targetTypes) else None)
  }

  datatype Report = Report(logs: seq<Entry>, total: nat, pages: Paging.PageCount, page: int, limit: int)

  /** A page of the matching entries, newest first, with the paging summary. */
  function Query(entries: seq<Entry>, w: Where, o: Options): (r: Result<Report>)
    ensures var p, n := o.page.GetOr(1), o.limit.GetOr(DEFAULT_LIMIT);
            var all := Paging.NewestFirst(entries, (e: Entry) => Matches(w, e));
            && (r.Err? <==> Paging.Skip(p, n) < 0)
            && (r.Ok? ==> r.value.total == |all| && r.value.page == p && r.value.limit == n)
            && (r.Ok? ==> r.value.pages == Paging.CeilDiv(|all|, n))
            && (r.Ok? ==> |r.value.logs| == Paging.Length(|all|, Paging.Skip(p, n), n))
            && (r.Ok? ==> forall k :: 0 <= k < |r.value.logs| ==>
                  var at := Paging.Start(|all|, Paging.Skip(p, n), n) + k;
                  at < |all| && r.value.logs[k] == all[at] && Matches(w, r.value.logs[k]))
  {
    var p, n := o.page.GetOr(1), o.limit.GetOr(DEFAULT_LIMIT);
    var all := Paging.NewestFirst(entries, (e: Entry) => Matches(w, e));
    Paging.NewestFirstSelects(entries, (e: Entry) => Matches(w, e));
    match Paging.Window(all, Paging.Skip(p, n), n)
    case Err(e) => Err(e)
    case Ok(rows) => Ok(Report(rows, |all|, Paging.CeilDiv(|all|, n), p, n))
  }

  /** `getTeamAuditLogs`. */
  function TeamAuditLogs(entries: seq<Entry>, teamId: string, o: Options): (r: Result<Report>)
    ensures r.Ok? ==> forall k :: 0 <= k < |r.value.logs| ==> r.value.logs[k].teamId == Some(teamId)
    ensures r.Ok? && NonEmpty(o.targetTypes).Some? ==> forall k :: 0 <= k < |r.value.logs| ==> r.value.logs[k].targetType in o.targetTypes.value
  {
    Query(entries, WhereOf(TeamScope(teamId), o, true), o)
  }

  /** `getUserAuditLogs`: the same query over the entries the user made. */
  function UserAuditLogs(entries: seq<Entry>, userId: string, o: Options): (r: Result<Report>)
    ensures r.Ok? ==> forall k :: 0 <= k < |r.value.logs| ==> r.value.logs[k].actorId == userId
  {
    Query(entries, WhereOf(ActorScope(userId), o, false), o)
  }

  /** The user query has no target-type option: one passed along changes nothing. */
  lemma TargetTypesIgnoredForUsers(entries: seq<Entry>, userId: string, o: Options)
    ensures UserAuditLogs(entries, userId, o) == UserAuditLogs(entries, userId, o.(targetTypes := None))
  {
    assert WhereOf(ActorScope(userId), o, false) == WhereOf(ActorScope(userId), o.(targetTypes := None), false);
  }

  // -----------------------------------------------------------------------------------------------
  // Properties

  /** Without options: page 1 of 50, every entry of the team. */
  lemma Defaults(entries: seq<Entry>, teamId: string)
    ensures TeamAuditLogs(entries, teamId, NO_OPTIONS).Ok?
    ensures TeamAuditLogs(entries, teamId, NO_OPTIONS).value.page == 1
    ensures TeamAuditLogs(entries, teamId, NO_OPTIONS).value.limit == 50
    ensures TeamAuditLogs(entries, teamId, NO_OPTIONS).value.total
            == |Paging.NewestFirst(entries, (e: Entry) => Matches(Where(TeamScope(teamId), None, None, None), e))|
  {
    assert WhereOf(TeamScope(teamId), NO_OPTIONS, true) == Where(TeamScope(teamId), None, None, None);
  }

  /** One date alone, or empty action and target-type lists, do not narrow the query. */
  lemma HalfFiltersIgnored(entries: seq<Entry>, teamId: string, o: Options)
    requires o.startDate.None? || o.endDate.None?
    ensures TeamAuditLogs(entries, teamId, o.(actions := Some([]), targetTypes := Some([])))
            == TeamAuditLogs(entries, teamId, o.(startDate := None, endDate := None, actions := None, targetTypes := None))
  {
    var a := o.(actions := Some([]), targetTypes := Some([]));
    var b := o.(startDate := None, endDate := None, actions := None, targetTypes := None);
    assert WhereOf(TeamScope(teamId), a, true) == WhereOf(TeamScope(teamId), b, true);
  }

  /** With both dates, every entry returned lies between them. */
  lemma DatesBoundTheEntries(entries: seq<Entry>, teamId: string, o: Options, k: nat)
    requires o.startDate.Some? && o.endDate.Some?
    requires TeamAuditLogs(entries, teamId, o).Ok? && k < |TeamAuditLogs(entries, teamId, o).value.logs|
    ensures o.startDate.value <= TeamAuditLogs(entries, teamId, o).value.logs[k].timestamp <= o.endDate.value
  {
  }

  /** An entry just logged is the first one its actor sees on the first page. */
  lemma LoggedEntryComesFirst(entries: seq<Entry>, data: EntryData, now: int)
    requires Log(entries, data, now, None).Ok?
    ensures var after := Log(entries, data, now, None).value;
            && UserAuditLogs(after, data.actorId, NO_OPTIONS).Ok?
            && |UserAuditLogs(after, data.actorId, NO_OPTIONS).value.logs| > 0
            && UserAuditLogs(after, data.actorId, NO_OPTIONS).value.logs[0] == after[|entries|]
            && after[|entries|].timestamp == now
  {
    var after := Log(entries, data, now, None).value;
    assert Matches(WhereOf(ActorScope(data.actorId), NO_OPTIONS, false), after[|after| - 1]);
  }
}
