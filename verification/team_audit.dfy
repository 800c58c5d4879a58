/** The team audit log of `lib/boxyhq/audit-service.ts`: recording an entry and the three queries.
    Logs are stored in creation order; dates are already converted to milliseconds, an absent or
    empty date string being `None`. */
module TeamAudit {
  import opened Base
  import Json
  import Paging

  datatype Log = Log(
    id: string,
    teamId: string,
    action: string,
    actorId: string,
    actorEmail: string,
    actorName: Option<string>,
    entityId: Option<string>,
    entityType: string,
    entityName: Option<string>,
    metadata: Json.Json,
    createdAt: int)

  datatype Actor = Actor(id: string, email: string, name: Option<string>)
  datatype Target = Target(id: Option<string>, kind: string, name: Option<string>)
  datatype LogData = LogData(action: string, actor: Actor, target: Target, metadata: Option<Json.Json>)

  /** `x || null`. */
  function OrNull(s: Option<string>): (r: Option<string>)
    ensures r.Some? <==> Filled(s)
    ensures r.Some? ==> r == s
  {
    if Filled(s) then s else None
  }

  /** `create`: an empty or missing actor or target name is stored as `null`, missing metadata as
      JSON `null`. The id and the time come from the database. */
  function Create(logs: seq<Log>, id: string, now: int, teamId: string, data: LogData): (r: seq<Log>)
    ensures |r| == |logs| + 1 && r[..|logs|] == logs
    ensures var l := r[|logs|];
            && l.teamId == teamId && l.action == data.action && l.createdAt == now
            && l.actorId == data.actor.id && l.actorEmail == data.actor.email
            && l.entityId == data.target.id && l.entityType == data.target.kind
            && (l.actorName.Some? <==> Filled(data.actor.name))
            && (l.entityName.Some? <==> Filled(data.target.name))
            && (l.actorName.Some? ==> l.actorName == data.actor.name)
            && (l.entityName.Some? ==> l.entityName == data.target.name)
            && (Json.Present(data.metadata) ==> l.metadata == data.metadata.value)
            && (!Json.Present(data.metadata) ==> l.metadata == Json.JNull)
  {
    logs + [Log(id, teamId, data.action, data.actor.id, data.actor.email, OrNull(data.actor.name),
                data.target.id, data.target.kind, OrNull(data.target.name),
                if Json.Present(data.metadata) then data.metadata.value else Json.JNull, now)]
  }

  // -----------------------------------------------------------------------------------------------
  // Filters

  /** A query's `where`: the team, an optional action, and optional bounds on `createdAt`. */
  datatype Where = Where(teamId: string, action: Option<string>, from: Option<int>, to: Option<int>)

  predicate Matches(w: Where, l: Log) {
    && l.teamId == w.teamId
    && (w.action.None? || l.action == w.action.value)
    && (w.from.None? || w.from.value <= l.createdAt)
    && (w.to.None? || l.createdAt <= w.to.value)
  }

  /** The `where` as written: the spread of the end-date filter replaces the whole `createdAt`
      entry, so with both dates only the end date survives. */
  function WhereAsWritten(teamId: string, action: Option<string>, startDate: Option<int>, endDate: Option<int>): (r: Where)
    ensures r.teamId == teamId
    ensures r.action.Some? <==> Filled(action)
    ensures r.action.Some? ==> r.action == action
    ensures endDate.Some? ==> r.from.None? && r.to == endDate
    ensures endDate.None? ==> r.from == startDate && r.to.None?
  {
    var a := if Filled(action) then action else None;
    if endDate.Some? then Where(teamId, a, None, endDate) else Where(teamId, a, startDate, None)
  }

  /** The `where` as evidently intended: both bounds. */
  function WhereIntended(teamId: string, action: Option<string>, startDate: Option<int>, endDate: Option<int>): (r: Where)
    ensures r.teamId == teamId && r.from == startDate && r.to == endDate
    ensures r.action.Some? <==> Filled(action)
    ensures r.action.Some? ==> r.action == action
  {
    Where(teamId, if Filled(action) then action else None, startDate, endDate)
  }

  /** As written, a log from before the start date is still returned when an end date is given. */
  lemma StartDateIgnored(l: Log, start: int, end: int)
    requires l.createdAt < start && l.createdAt <= end
    ensures Matches(WhereAsWritten(l.teamId, None, Some(start), Some(end)), l)
    ensures !Matches(WhereIntended(l.teamId, None, Some(start), Some(end)), l)
  {
  }

  /** The intended filter keeps exactly the team's logs inside both bounds. */
  lemma IntendedKeepsRange(l: Log, teamId: string, start: int, end: int)
    ensures Matches(WhereIntended(teamId, None, Some(start), Some(end)), l)
            <==> l.teamId == teamId && start <= l.createdAt <= end
  {
  }

  /** The logs a `where` selects, newest first. */
  function Selected(logs: seq<Log>, w: Where): (r: seq<Log>)
    ensures forall l :: l in r <==> l in logs && Matches(w, l)
  {
    Paging.NewestFirstSelects(logs, (l: Log) => Matches(w, l));
    Paging.NewestFirst(logs, (l: Log) => Matches(w, l))
  }

  // -----------------------------------------------------------------------------------------------
  // Queries

  /** A serialized log: both time stamps are the creation time (the log has no update time). */
  datatype Serialized = Serialized(log: Log, createdAt: int, updatedAt: int)

  function Serialize(l: Log): (r: Serialized)
    ensures r.log == l && r.createdAt == l.createdAt && r.updatedAt == r.createdAt
  {
    Serialized(l, l.createdAt, l.createdAt)
  }

  function SerializeAll(logs: seq<Log>): (r: seq<Serialized>)
    ensures |r| == |logs|
    ensures forall k :: 0 <= k < |logs| ==> r[k] == Serialize(logs[k])
  {
    if logs == [] then [] else [Serialize(logs[0])] + SerializeAll(logs[1..])
  }

  datatype Found = Found(logs: seq<Serialized>, totalPages: Paging.PageCount, currentPage: int)

  const DEFAULT_LIMIT := 10

  /** Page `p` of `n` logs out of the matching ones, serialized, with the page count. */
  function PageOf(all: seq<Log>, p: int, n: int): (r: Result<Found>)
    ensures r.Err? <==> Paging.Skip(p, n) < 0
    ensures r.Ok? ==> r.value.currentPage == p && r.value.totalPages == Paging.CeilDiv(|all|, n)
    ensures r.Ok? ==> |r.value.logs| == Paging.Length(|all|, Paging.Skip(p, n), n)
    ensures r.Ok? ==> forall k :: 0 <= k < |r.value.logs| ==>
              var at := Paging.Start(|all|, Paging.Skip(p, n), n) + k;
              at < |all| && r.value.logs[k] == Serialize(all[at])
    ensures r.Ok? ==> forall k :: 0 <= k < |r.value.logs| ==> r.value.logs[k].log in all
  {
    match Paging.Window(all, Paging.Skip(p, n), n)
    case Err(e) => Err(e)
    case Ok(rows) => Ok(Found(SerializeAll(rows), Paging.CeilDiv(|all|, n), p))
  }

  /** `findByTeam`, as written: page 1 and ten per page unless given. The team's logs within the
      end date when one is given, and otherwise from the start date on: with both dates the start
      date is lost. */
  function FindByTeam(logs: seq<Log>, teamId: string, page: Option<int>, limit: Option<int>,
                      startDate: Option<int>, endDate: Option<int>): (r: Result<Found>)
    ensures var p, n := page.GetOr(1), limit.GetOr(DEFAULT_LIMIT);
            var all := Selected(logs, WhereAsWritten(teamId, None, startDate, endDate));
            && (r.Err? <==> Paging.Skip(p, n) < 0)
            && (r.Ok? ==> r.value.currentPage == p && r.value.totalPages == Paging.CeilDiv(|all|, n))
            && (r.Ok? ==> |r.value.logs| == Paging.Length(|all|, Paging.Skip(p, n), n))
            && (r.Ok? ==> forall k :: 0 <= k < |r.value.logs| ==>
                  var at := Paging.Start(|all|, Paging.Skip(p, n), n) + k;
                  at < |all| && r.value.logs[k] == Serialize(all[at]))
    ensures r.Ok? ==> forall k :: 0 <= k < |r.value.logs| ==>
              var l := r.value.logs[k].log;
              && l in logs && l.teamId == teamId
              && (endDate.Some? ==> l.createdAt <= endDate.value)
              && (endDate.None? && startDate.Some? ==> startDate.value <= l.createdAt)
  {
    PageOf(Selected(logs, WhereAsWritten(teamId, None, startDate, endDate)), page.GetOr(1), limit.GetOr(DEFAULT_LIMIT))
  }

  /** `findByTeam` as evidently intended: both date bounds apply. */
  function FindByTeamIntended(logs: seq<Log>, teamId: string, page: Option<int>, limit: Option<int>,
                              startDate: Option<int>, endDate: Option<int>): (r: Result<Found>)
    ensures var p, n := page.GetOr(1), limit.GetOr(DEFAULT_LIMIT);
            var all := Selected(logs, WhereIntended(teamId, None, startDate, endDate));
            && (r.Err? <==> Paging.Skip(p, n) < 0)
            && (r.Ok? ==> r.value.currentPage == p && r.value.totalPages == Paging.CeilDiv(|all|, n))
            && (r.Ok? ==> |r.value.logs| == Paging.Length(|all|, Paging.Skip(p, n), n))
            && (r.Ok? ==> forall k :: 0 <= k < |r.value.logs| ==>
                  var at := Paging.Start(|all|, Paging.Skip(p, n), n) + k;
                  at < |all| && r.value.logs[k] == Serialize(all[at]))
    ensures r.Ok? ==> forall k :: 0 <= k < |r.value.logs| ==>
              var l := r.value.logs[k].log;
              && l in logs && l.teamId == teamId
              && (startDate.None? || startDate.value <= l.createdAt)
              && (endDate.None? || l.createdAt <= endDate.value)
  {
    PageOf(Selected(logs, WhereIntended(teamId, None, startDate, endDate)), page.GetOr(1), limit.GetOr(DEFAULT_LIMIT))
  }

  /** `findByTeamAndAction`, as written: every match, newest first; the action narrows only when
      non-empty. The dates bound the logs as in `findByTeam`: the end date when given, else the
      start date. */
  function FindByTeamAndAction(logs: seq<Log>, teamId: string, action: Option<string>,
                               startDate: Option<int>, endDate: Option<int>): (r: seq<Log>)
    ensures forall l :: l in r <==>
              && l in logs && l.teamId == teamId && (!Filled(action) || l.action == action.value)
              && (endDate.Some? ==> l.createdAt <= endDate.value)
              && (endDate.None? && startDate.Some? ==> startDate.value <= l.createdAt)
  {
    Selected(logs, WhereAsWritten(teamId, action, startDate, endDate))
  }

  /** `findByTeamAndAction` as evidently intended: both date bounds apply. */
  function FindByTeamAndActionIntended(logs: seq<Log>, teamId: string, action: Option<string>,
                                       startDate: Option<int>, endDate: Option<int>): (r: seq<Log>)
    ensures forall l :: l in r ==> l.teamId == teamId && l in logs
    ensures Filled(action) ==> forall l :: l in r ==> l.action == action.value
    ensures forall l :: l in r ==> (startDate.None? || startDate.value <= l.createdAt)
                                   && (endDate.None? || l.createdAt <= endDate.value)
    ensures forall l ::
              (&& l in logs && l.teamId == teamId && (!Filled(action) || l.action == action.value)
               && (startDate.None? || startDate.value <= l.createdAt)
               && (endDate.None? || l.createdAt <= endDate.value)) ==> l in r
  {
    Selected(logs, WhereIntended(teamId, action, startDate, endDate))
  }

  /** The two readings differ only when both dates are given: with at most one date, the queries
      as written return what the intended ones do. */
  lemma AgreeWithOneDate(logs: seq<Log>, teamId: string, action: Option<string>, page: Option<int>, limit: Option<int>,
                         startDate: Option<int>, endDate: Option<int>)
    requires startDate.None? || endDate.None?
    ensures FindByTeamAndAction(logs, teamId, action, startDate, endDate)
            == FindByTeamAndActionIntended(logs, teamId, action, startDate, endDate)
    ensures FindByTeam(logs, teamId, page, limit, startDate, endDate)
            == FindByTeamIntended(logs, teamId, page, limit, startDate, endDate)
  {
    assert WhereAsWritten(teamId, action, startDate, endDate) == WhereIntended(teamId, action, startDate, endDate);
    assert WhereAsWritten(teamId, None, startDate, endDate) == WhereIntended(teamId, None, startDate, endDate);
  }

  /** As written, a log of the team from before the start date is among the matches when an end
      date after it is given; the intended query leaves it out. */
  lemma EarlyLogReturned(logs: seq<Log>, l: Log, start: int, end: int)
    requires l in logs && l.createdAt < start && l.createdAt <= end
    ensures l in FindByTeamAndAction(logs, l.teamId, None, Some(start), Some(end))
    ensures l !in FindByTeamAndActionIntended(logs, l.teamId, None, Some(start), Some(end))
  {
  }

  /** An empty action is no filter at all. */
  lemma EmptyActionIgnored(logs: seq<Log>, teamId: string, action: Option<string>, startDate: Option<int>, endDate: Option<int>)
    requires !Filled(action)
    ensures FindByTeamAndAction(logs, teamId, action, startDate, endDate) == FindByTeamAndAction(logs, teamId, None, startDate, endDate)
    ensures FindByTeamAndActionIntended(logs, teamId, action, startDate, endDate)
            == FindByTeamAndActionIntended(logs, teamId, None, startDate, endDate)
  {
    assert WhereAsWritten(teamId, action, startDate, endDate) == WhereAsWritten(teamId, None, startDate, endDate);
    assert WhereIntended(teamId, action, startDate, endDate) == WhereIntended(teamId, None, startDate, endDate);
  }

  datatype Listing = Listing(logs: seq<Log>, total: nat, page: int, perPage: int, totalPages: Paging.PageCount)

  /** `list`: a page of the team's logs, ten per page unless given, with the page count. */
  function List(logs: seq<Log>, teamId: string, page: Option<int>, perPage: Option<int>): (r: Result<Listing>)
    ensures var p, n := page.GetOr(1), perPage.GetOr(DEFAULT_LIMIT);
            var all := Selected(logs, Where(teamId, None, None, None));
            && (r.Err? <==> Paging.Skip(p, n) < 0)
            && (r.Ok? ==> r.value.total == |all| && r.value.page == p && r.value.perPage == n)
            && (r.Ok? ==> r.value.totalPages == Paging.CeilDiv(|all|, n))
            && (r.Ok? ==> |r.value.logs| == Paging.Length(|all|, Paging.Skip(p, n), n))
            && (r.Ok? ==> forall k :: 0 <= k < |r.value.logs| ==>
                  var at := Paging.Start(|all|, Paging.Skip(p, n), n) + k;
                  at < |all| && r.value.logs[k] == all[at])
  {
    var p, n := page.GetOr(1), perPage.GetOr(DEFAULT_LIMIT);
    var all := Selected(logs, Where(teamId, None, None, None));
    match Paging.Window(all, Paging.Skip(p, n), n)
    case Err(e) => Err(e)
    case Ok(rows) => Ok(Listing(rows, |all|, p, n, Paging.CeilDiv(|all|, n)))
  }

  /** Paging through `list` with the default size reaches every log of the team, each on a page
      within the reported count. */
  lemma EveryLogListed(logs: seq<Log>, teamId: string, k: nat)
    requires k < |Selected(logs, Where(teamId, None, None, None))|
    ensures var all := Selected(logs, Where(teamId, None, None, None));
            var page := k / DEFAULT_LIMIT + 1;
            && List(logs, teamId, Some(page), None).Ok?
            && k % DEFAULT_LIMIT < |List(logs, teamId, Some(page), None).value.logs|
            && List(logs, teamId, Some(page), None).value.logs[k % DEFAULT_LIMIT] == all[k]
            && page <= List(logs, teamId, Some(page), None).value.totalPages.n
  {
    var all := Selected(logs, Where(teamId, None, None, None));
    Paging.RowOnItsPage(all, DEFAULT_LIMIT, k);
  }

  /** A log just created is the first of its team's first page. */
  lemma CreatedLogListedFirst(logs: seq<Log>, id: string, now: int, teamId: string, data: LogData)
    ensures var after := Create(logs, id, now, teamId, data);
            && List(after, teamId, None, None).Ok?
            && |List(after, teamId, None, None).value.logs| > 0
            && List(after, teamId, None, None).value.logs[0] == after[|logs|]
  {
    var after := Create(logs, id, now, teamId, data);
    assert Matches(Where(teamId, None, None, None), after[|after| - 1]);
  }
}
