/** The webhook service of `lib/webhook/webhook-service.ts`: registration, delivery of one event
    with its delivery record, and the listings. Webhooks are a map by id and deliveries a sequence
    in creation order. The HTTP POST is an oracle: its outcome is an input. The HMAC is a function
    parameter, since the hash itself is not modelled. */
module Webhooks {
  import opened Base
  import Paging
  import Text

  datatype Webhook = Webhook(
    id: string,
    teamId: string,
    url: string,
    name: string,
    description: Option<string>,
    events: seq<string>,
    secret: Option<string>,
    isActive: bool)

  /** `createWebhook`: the name is the description, or the url when there is none; a webhook is
      active unless told otherwise. The id is chosen by the database. */
  function CreateWebhook(id: string, teamId: string, url: string, description: Option<string>,
                         events: seq<string>, secret: Option<string>, isActive: Option<bool>): (r: Webhook)
    ensures r.id == id && r.teamId == teamId && r.url == url && r.events == events
    ensures r.description == description && r.secret == secret
    ensures Filled(description) ==> r.name == description.value
    ensures !Filled(description) ==> r.name == url
    ensures isActive.None? ==> r.isActive
    ensures isActive.Some? ==> r.isActive == isActive.value
  {
    Webhook(id, teamId, url, OrElse(description, url), description, events, secret, isActive.GetOr(true))
  }

  /** `findByTeam`: the team's webhooks with their display name recomputed the same way. */
  function FindByTeam(hooks: seq<Webhook>, teamId: string): (r: seq<Webhook>)
    ensures forall i :: 0 <= i < |r| ==> r[i].teamId == teamId
    ensures forall i :: 0 <= i < |r| ==> r[i].name == OrElse(r[i].description, r[i].url)
    ensures forall i :: 0 <= i < |r| ==> exists j :: 0 <= j < |hooks| && r[i] == hooks[j].(name := OrElse(hooks[j].description, hooks[j].url))
    ensures forall j :: 0 <= j < |hooks| && hooks[j].teamId == teamId ==> hooks[j].(name := OrElse(hooks[j].description, hooks[j].url)) in r
    decreases |hooks|
  {
    if hooks == [] then []
    else
      var rest := FindByTeam(hooks[1..], teamId);
      assert forall j :: 1 <= j < |hooks| ==> hooks[j] == hooks[1..][j - 1];
      if hooks[0].teamId == teamId then [hooks[0].(name := OrElse(hooks[0].description, hooks[0].url))] + rest
      else rest
  }

  /** A webhook registered through `createWebhook` is listed under the name it was given. */
  lemma ListedUnderItsName(id: string, teamId: string, url: string, description: Option<string>,
                           events: seq<string>, secret: Option<string>, isActive: Option<bool>)
    ensures var w := CreateWebhook(id, teamId, url, description, events, secret, isActive);
            FindByTeam([w], teamId) == [w]
  {
    var w := CreateWebhook(id, teamId, url, description, events, secret, isActive);
    assert FindByTeam([w][1..], teamId) == [];
    assert w.(name := OrElse(w.description, w.url)) == w;
  }

  // -----------------------------------------------------------------------------------------------
  // Deliveries

  /** A request header: name and value. */
  datatype Header = Header(name: string, value: string)

  datatype Delivery = Delivery(
    webhookId: string,
    eventType: string,
    url: string,
    success: bool,
    statusCode: int,
    error: Option<string>,
    headers: seq<Header>)

  const NOT_FOUND := "Webhook not found"
  const NOT_ACTIVE := "Webhook is not active"
  const NOT_REGISTERED := "Event not registered for this webhook"
  const FAILED_STATUS := 500

  /** The headers `createDelivery` records. */
  function RecordedHeaders(webhookId: string, eventType: string): seq<Header> {
    [Header("Content-Type", "application/json"), Header("X-Webhook-ID", webhookId), Header("X-Event-Type", eventType)]
  }

  /** `createDelivery`: the status of the response, or 500 without one; the error message when
      there is an error. */
  function CreateDelivery(hooks: map<string, Webhook>, deliveries: seq<Delivery>, webhookId: string, eventType: string,
                          responseStatus: Option<int>, error: Option<string>, success: bool): (r: Result<seq<Delivery>>)
    ensures webhookId !in hooks <==> r == Err(NOT_FOUND)
    ensures r.Ok? ==> |r.value| == |deliveries| + 1 && r.value[..|deliveries|] == deliveries
    ensures r.Ok? ==> var d := r.value[|deliveries|];
                      && d.webhookId == webhookId && d.eventType == eventType && d.url == hooks[webhookId].url
                      && d.success == success && d.error == error
                      && d.statusCode == responseStatus.GetOr(FAILED_STATUS)
  {
    if webhookId !in hooks then Err(NOT_FOUND)
    else
      var d := Delivery(webhookId, eventType, hooks[webhookId].url, success, responseStatus.GetOr(FAILED_STATUS),
                        error, RecordedHeaders(webhookId, eventType));
      Ok(deliveries + [d])
  }

  /** What the POST did: answered with an HTTP status, or failed with a message (no answer, a
      timeout, a refused connection). */
  datatype PostOutcome = Answered(status: nat) | Threw(message: string)

  /** axios's default `validateStatus`: only a 2xx answer resolves the request. */
  predicate Accepted(post: PostOutcome) {
    post.Answered? && 200 <= post.status < 300
  }

  /** The message of the error `axios.post` rejects with: the failure's own, or axios's text for an
      answer outside 2xx. */
  function Thrown(post: PostOutcome): (m: string)
    requires !Accepted(post)
    ensures post.Threw? ==> m == post.message
    ensures post.Answered? ==> Text.StartsWith(m, "Request failed with status code ")
  {
    match post
    case Threw(message) => message
    case Answered(status) => "Request failed with status code " + Text.NatToString(status)
  }

  /** The headers `sendWebhook` sends: the signature only when the webhook has a secret (an
      `undefined` header is not sent). */
  function RequestHeaders(w: Webhook, eventType: string, payload: string, hmac: (string, string) -> string): (r: seq<Header>)
    ensures |r| == 3 || |r| == 4
    ensures r[..3] == RecordedHeaders(w.id, eventType)
    ensures |r| == 4 <==> Filled(w.secret)
    ensures |r| == 4 ==> r[3] == Header("X-Webhook-Signature", hmac(w.secret.value, payload))
  {
    RecordedHeaders(w.id, eventType)
      + if Filled(w.secret) then [Header("X-Webhook-Signature", hmac(w.secret.value, payload))] else []
  }

  /** The outcome of `sendWebhook`: the returned status or the thrown message, and the deliveries
      afterwards. */
  datatype Sent = Sent(result: Result<int>, deliveries: seq<Delivery>)

  /** `sendWebhook`. The checks run in order; a POST that is reached is recorded exactly once,
      and its error, if any, is thrown after the record is written. */
  function SendWebhook(hooks: map<string, Webhook>, deliveries: seq<Delivery>, webhookId: string, eventType: string,
                       post: PostOutcome): (r: Sent)
    // the failure precedence, with nothing recorded
    ensures webhookId !in hooks ==> r == Sent(Err(NOT_FOUND), deliveries)
    ensures webhookId in hooks && !hooks[webhookId].isActive ==> r == Sent(Err(NOT_ACTIVE), deliveries)
    ensures webhookId in hooks && hooks[webhookId].isActive && eventType !in hooks[webhookId].events
            ==> r == Sent(Err(NOT_REGISTERED), deliveries)
    // past the checks: one record, successful iff the POST got a 2xx answer
    ensures Reached(hooks, webhookId, eventType) ==>
              && |r.deliveries| == |deliveries| + 1 && r.deliveries[..|deliveries|] == deliveries
              && r.deliveries[|deliveries|].success == Accepted(post)
              && r.deliveries[|deliveries|].statusCode == (if Accepted(post) then post.status else FAILED_STATUS)
              && r.deliveries[|deliveries|].error == (if Accepted(post) then None else Some(Thrown(post)))
    ensures Reached(hooks, webhookId, eventType) && Accepted(post) ==> r.result == Ok(post.status)
    ensures Reached(hooks, webhookId, eventType) && !Accepted(post) ==> r.result == Err(Thrown(post))
  {
    if webhookId !in hooks then Sent(Err(NOT_FOUND), deliveries)
    else if !hooks[webhookId].isActive then Sent(Err(NOT_ACTIVE), deliveries)
    else if eventType !in hooks[webhookId].events then Sent(Err(NOT_REGISTERED), deliveries)
    else
      var status := if Accepted(post) then post.status else FAILED_STATUS;
      var error := if Accepted(post) then None else Some(Thrown(post));
      var recorded := CreateDelivery(hooks, deliveries, webhookId, eventType, Some(status), error, Accepted(post));
      Sent(if Accepted(post) then Ok(post.status) else Err(Thrown(post)), recorded.value)
  }

  /** The webhook exists, is active and subscribes to the event: the POST is made. */
  predicate Reached(hooks: map<string, Webhook>, webhookId: string, eventType: string) {
    webhookId in hooks && hooks[webhookId].isActive && eventType in hooks[webhookId].events
  }

  // -----------------------------------------------------------------------------------------------
  // Listing deliveries

  const PER_PAGE := 10

  /** The deliveries of one webhook, newest first. */
  function NewestFirst(deliveries: seq<Delivery>, webhookId: string): (r: seq<Delivery>)
    ensures forall d :: d in r <==> d in deliveries && d.webhookId == webhookId
    ensures deliveries != [] && deliveries[|deliveries| - 1].webhookId == webhookId ==> r != [] && r[0] == deliveries[|deliveries| - 1]
  {
    Paging.NewestFirstSelects(deliveries, (d: Delivery) => d.webhookId == webhookId);
    Paging.NewestFirst(deliveries, (d: Delivery) => d.webhookId == webhookId)
  }

  /** `listDeliveries`: page `page` (1 unless given) of ten, newest first. A page below 1 makes
      the skip negative, which the database refuses. */
  function ListDeliveries(deliveries: seq<Delivery>, webhookId: string, page: Option<int>): (r: Result<seq<Delivery>>)
    ensures var p := page.GetOr(1);
            && (r.Err? <==> p < 1)
            && (r.Ok? ==> |r.value| <= PER_PAGE)
            && (r.Ok? && p * PER_PAGE <= |NewestFirst(deliveries, webhookId)| ==> |r.value| == PER_PAGE)
            && (r.Ok? ==> forall k :: 0 <= k < |r.value| ==>
                  (p - 1) * PER_PAGE + k < |NewestFirst(deliveries, webhookId)|
                  && r.value[k] == NewestFirst(deliveries, webhookId)[(p - 1) * PER_PAGE + k])
  {
    var p := page.GetOr(1);
    var all := NewestFirst(deliveries, webhookId);
    var skip := Paging.Skip(p, PER_PAGE);
    assert skip == (p - 1) * PER_PAGE && p * PER_PAGE == skip + PER_PAGE;
    var r := Paging.Window(all, skip, PER_PAGE);
    assert r.Ok? ==> Paging.Start(|all|, skip, PER_PAGE) == skip;
    r
  }

  const DEFAULT_LIMIT := 10

  /** `getWebhookDeliveries`: page `page` (1 unless given) of `limit` deliveries (10 unless
      given), newest first, and the total. A negative limit takes the page from the other end, as
      the database does with a negative `take`. */
  function GetWebhookDeliveries(deliveries: seq<Delivery>, webhookId: string, page: Option<int>, limit: Option<int>)
    : (r: Result<(seq<Delivery>, nat)>)
    ensures var p, n := page.GetOr(1), limit.GetOr(DEFAULT_LIMIT);
            var all := NewestFirst(deliveries, webhookId);
            && (r.Err? <==> Paging.Skip(p, n) < 0)
            && (r.Ok? ==> r.value.1 == |all| && |r.value.0| == Paging.Length(|all|, Paging.Skip(p, n), n))
            && (r.Ok? ==> forall k :: 0 <= k < |r.value.0| ==>
                  var at := Paging.Start(|all|, Paging.Skip(p, n), n) + k;
                  at < |all| && r.value.0[k] == all[at])
  {
    var p, n := page.GetOr(1), limit.GetOr(DEFAULT_LIMIT);
    var all := NewestFirst(deliveries, webhookId);
    match Paging.Window(all, Paging.Skip(p, n), n)
    case Err(e) => Err(e)
    case Ok(rows) => Ok((rows, |all|))
  }

  /** A send that reaches the POST puts its record at the top of the first page. */
  lemma SentDeliveryListedFirst(hooks: map<string, Webhook>, deliveries: seq<Delivery>, webhookId: string,
                                eventType: string, post: PostOutcome)
    requires Reached(hooks, webhookId, eventType)
    ensures var after := SendWebhook(hooks, deliveries, webhookId, eventType, post).deliveries;
            && ListDeliveries(after, webhookId, None).Ok?
            && |ListDeliveries(after, webhookId, None).value| > 0
            && ListDeliveries(after, webhookId, None).value[0] == after[|after| - 1]
            && after[|after| - 1].success == Accepted(post)
  {
    var after := SendWebhook(hooks, deliveries, webhookId, eventType, post).deliveries;
    assert after[|after| - 1].webhookId == webhookId;
  }

  /** An answer outside 2xx is a failed send: it is recorded as status 500 and unsuccessful, and
      axios's error is passed on, exactly as for a POST that got no answer. */
  lemma RejectedAnswerIsFailure(hooks: map<string, Webhook>, deliveries: seq<Delivery>, webhookId: string,
                                eventType: string, status: nat)
    requires Reached(hooks, webhookId, eventType) && !(200 <= status < 300)
    ensures var r := SendWebhook(hooks, deliveries, webhookId, eventType, Answered(status));
            && r.result.Err?
            && r.deliveries[|deliveries|].success == false
            && r.deliveries[|deliveries|].statusCode == FAILED_STATUS
            && r.deliveries[|deliveries|].error == Some("Request failed with status code " + Text.NatToString(status))
  {
  }

  /** A send stopped by a check leaves every listing as it was. */
  lemma RefusedSendLeavesNoTrace(hooks: map<string, Webhook>, deliveries: seq<Delivery>, webhookId: string,
                                 eventType: string, post: PostOutcome, page: Option<int>)
    requires !Reached(hooks, webhookId, eventType)
    ensures SendWebhook(hooks, deliveries, webhookId, eventType, post).result.Err?
    ensures ListDeliveries(SendWebhook(hooks, deliveries, webhookId, eventType, post).deliveries, webhookId, page)
            == ListDeliveries(deliveries, webhookId, page)
  {
  }
}
