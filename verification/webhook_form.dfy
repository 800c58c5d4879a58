/** The webhook editor of `components/webhook/webhook-form.tsx`: the form's initial state, the
    event checkboxes and the submitted object. */
module WebhookForm {
  import opened Base

  /** The webhook being edited, as the form receives it. */
  datatype Webhook = Webhook(id: Option<string>, url: string, secret: string, active: bool, events: seq<string>)

  datatype Form = Form(url: string, secret: string, active: bool, events: seq<string>)

  /** The form's initial state: empty and active for a new webhook, the webhook's own values when
      editing one. */
  function Init(webhook: Option<Webhook>): (r: Form)
    ensures webhook.None? ==> r == Form("", "", true, [])
    ensures webhook.Some? ==> r == Form(webhook.value.url, webhook.value.secret, webhook.value.active, webhook.value.events)
  {
    match webhook
    case None => Form("", "", true, [])
    case Some(w) => Form(if w.url != "" then w.url else "", if w.secret != "" then w.secret else "", w.active, w.events)
  }

  /** The number of times `x` occurs in `s`. */
  function Count(s: seq<string>, x: string): nat
    decreases |s|
  {
    if s == [] then 0 else Count(s[..|s| - 1], x) + if s[|s| - 1] == x then 1 else 0
  }

  lemma {:induction false} CountZero(s: seq<string>, x: string)
    ensures Count(s, x) == 0 <==> x !in s
    decreases |s|
  {
    if s != [] {
      CountZero(s[..|s| - 1], x);
      assert s == s[..|s| - 1] + [s[|s| - 1]];
    }
  }

  /** `prev.filter(e => e !== event)`. */
  function Without(s: seq<string>, x: string): (r: seq<string>)
    ensures x !in r
    ensures forall y :: y in r ==> y in s
    decreases |s|
  {
    if s == [] then [] else
      var init := Without(s[..|s| - 1], x);
      if s[|s| - 1] == x then init else init + [s[|s| - 1]]
  }

  /** Filtering keeps every other event as often as it occurred. */
  lemma {:induction false} WithoutKeepsOthers(s: seq<string>, x: string, y: string)
    requires y != x
    ensures Count(Without(s, x), y) == Count(s, y)
    decreases |s|
  {
    if s != [] {
      WithoutKeepsOthers(s[..|s| - 1], x, y);
      var init := Without(s[..|s| - 1], x);
      if s[|s| - 1] != x {
        assert (init + [s[|s| - 1]])[..|init|] == init;
      }
    }
  }

  /** Filtering out an absent event leaves the list as it is. */
  lemma {:induction false} WithoutAbsent(s: seq<string>, x: string)
    requires x !in s
    ensures Without(s, x) == s
    decreases |s|
  {
    if s != [] {
      WithoutAbsent(s[..|s| - 1], x);
      assert s == s[..|s| - 1] + [s[|s| - 1]];
    }
  }

  /** `toggleEvent`: a present event is removed everywhere it occurs, an absent one is added at the
      end. */
  function Toggle(events: seq<string>, event: string): (r: seq<string>)
    ensures event in events ==> r == Without(events, event)
    ensures event !in events ==> r == events + [event]
  {
    if event in events then Without(events, event) else events + [event]
  }

  /** What a toggle does to each event: the toggled one ends up present iff it was absent, once
      when added, and every other event keeps its count. */
  lemma ToggleEffect(events: seq<string>, event: string, other: string)
    requires other != event
    ensures event in Toggle(events, event) <==> event !in events
    ensures event !in events ==> Count(Toggle(events, event), event) == 1
    ensures Count(Toggle(events, event), other) == Count(events, other)
  {
    var r := Toggle(events, event);
    if event in events {
      WithoutKeepsOthers(events, event, other);
    } else {
      assert r[..|events|] == events;
      CountZero(events, event);
    }
  }

  /** Toggling an absent event twice gives back the very same list. */
  lemma ToggleTwiceRestores(events: seq<string>, event: string)
    requires event !in events
    ensures Toggle(Toggle(events, event), event) == events
  {
    var added := events + [event];
    assert added[..|added| - 1] == events;
    WithoutAbsent(events, event);
  }

  /** The object handed to `onSubmit`. */
  datatype Submitted = Submitted(id: Option<string>, url: string, secret: string, active: bool, events: seq<string>)

  /** `handleSubmit`: the form's values, with the id only when an existing webhook with a
      non-empty id is being edited. */
  function Submit(webhook: Option<Webhook>, f: Form): (r: Submitted)
    ensures r.id.Some? <==> webhook.Some? && webhook.value.id.Some? && webhook.value.id.value != ""
    ensures r.id.Some? ==> r.id == webhook.value.id
    ensures r.url == f.url && r.secret == f.secret && r.active == f.active && r.events == f.events
  {
    var id := if webhook.Some? && webhook.value.id.Some? && webhook.value.id.value != "" then webhook.value.id else None;
    Submitted(id, f.url, f.secret, f.active, f.events)
  }

  /** Submitting an untouched edit form hands back the webhook as it was. */
  lemma UntouchedEditRoundTrip(w: Webhook)
    requires w.id.Some? && w.id.value != ""
    ensures var s := Submit(Some(w), Init(Some(w)));
            s == Submitted(w.id, w.url, w.secret, w.active, w.events)
  {
  }
}
