/** The n8n webhook dispatcher: configuration gates, the payloads of the three
    notifications, their flattening into GET query parameters, and the
    bounded retry loop with a pause between attempts.  The HTTP transport is
    an oracle giving the reply to each attempt, the pause is a logged event
    and the timestamp is a parameter. */
module Webhook {
  import opened Wrappers
  import opened Strings

  const UserAgent := "SpeakInsights-Webhook/1.0"
  /** Seconds slept between two attempts. */
  const PauseSeconds := 2

  /** A value of the caller's meeting dictionary. */
  datatype Value = Str(s: string) | Num(n: real) | Null

  type MeetingData = map<string, Value>

  /** `d.get(key, default)`. */
  function Get(d: MeetingData, key: string, default: Value): Value {
    if key in d then d[key] else default
  }

  /** An optional dictionary is truthy when it is present and not empty. */
  predicate Truthy(d: Option<MeetingData>) {
    d.Some? && |d.value| > 0
  }

  /** The `webhook_settings` entries; `None` is a missing key. */
  datatype Settings = Settings(
    enabled: Option<bool>,
    n8nWebhookUrl: Option<string>,
    timeout: Option<int>,
    retryAttempts: Option<int>,
    sendActionItems: Option<bool>,
    sendSummaries: Option<bool>,
    includeMeetingMetadata: Option<bool>)

  const NoSettings := Settings(None, None, None, None, None, None, None)

  datatype Config = Config(webhookSettings: Option<Settings>)

  /** The `meeting_metadata` object; `summary` is `None` when the key is
      absent and `Some(Null)` when it is present and null. */
  datatype Metadata = Metadata(filename: Value, duration: Value, processedAt: Value, summary: Option<Value>)

  /** A notification; each optional field is a key the payload may lack. */
  datatype Payload = Payload(
    kind: Option<string>,
    meetingId: Option<string>,
    timestamp: Option<string>,
    count: Option<int>,
    actionItems: Option<seq<string>>,
    summary: Option<string>,
    message: Option<string>,
    metadata: Option<Metadata>)

  /** The query string of the GET request; the metadata object travels as
      its JSON text, whose spelling is not modelled. */
  datatype QueryParams = QueryParams(
    kind: string,
    meetingId: string,
    timestamp: string,
    count: int,
    actionItems: Option<string>,
    summary: Option<string>,
    metadata: Option<Metadata>)

  datatype Request = Request(url: string, params: QueryParams, timeout: int, userAgent: string)

  /** What one attempt ends in: a response, or one of the two caught errors. */
  datatype Reply = Status(code: int, body: string) | Timeout | RequestError

  /** The transport's reply to a request at a given attempt number. */
  type Transport = (Request, nat) -> Reply

  predicate Accepted(r: Reply) {
    r.Status? && r.code == 200
  }

  /** What the dispatcher did, in order. */
  datatype Event = Attempt(request: Request) | Pause(seconds: nat)

  /** The parameters `_send_webhook` builds from a payload. */
  function QueryParamsOf(p: Payload): QueryParams {
    QueryParams(
      p.kind.GetOr(""), p.meetingId.GetOr(""), p.timestamp.GetOr(""), p.count.GetOr(0),
      if p.actionItems.Some? then Some(Join(p.actionItems.value, "|")) else None,
      p.summary, p.metadata)
  }

  function ActionItemsPayload(meetingId: string, items: seq<string>, timestamp: string, metadata: Option<Metadata>): Payload {
    Payload(Some("action_items"), Some(meetingId), Some(timestamp), Some(|items|), Some(items), None, None, metadata)
  }

  function SummaryPayload(meetingId: string, summary: string, timestamp: string, metadata: Option<Metadata>): Payload {
    Payload(Some("summary"), Some(meetingId), Some(timestamp), None, None, Some(summary), None, metadata)
  }

  function TestPayload(timestamp: string): Payload {
    Payload(Some("test"), None, Some(timestamp), None, None, None, Some("SpeakInsights webhook test"), None)
  }

  /** The attempts made when up to `n` are allowed and attempts before `k`
      failed: up to and including the first accepted one, or all `n`. */
  function AttemptsMade(transport: Transport, req: Request, n: nat, k: nat): nat
    requires k <= n
    decreases n - k
  {
    if k == n then n
    else if Accepted(transport(req, k)) then k + 1
    else AttemptsMade(transport, req, n, k + 1)
  }

  /** Whether the last of `m` attempts was accepted. */
  predicate Delivered(transport: Transport, req: Request, m: nat) {
    m > 0 && Accepted(transport(req, m - 1))
  }

  /** `m` attempts that were each followed by a pause. */
  function FailedRounds(req: Request, m: nat): (r: seq<Event>)
    ensures |r| == 2 * m
  {
    if m == 0 then [] else FailedRounds(req, m - 1) + [Attempt(req), Pause(PauseSeconds)]
  }

  /** The events of `m` attempts: a pause between two attempts, none after
      the last. */
  function Schedule(req: Request, m: nat): seq<Event> {
    if m == 0 then [] else FailedRounds(req, m - 1) + [Attempt(req)]
  }

  function Attempts(events: seq<Event>): nat {
    if |events| == 0 then 0
    else Attempts(events[..|events| - 1]) + (if events[|events| - 1].Attempt? then 1 else 0)
  }

  function Pauses(events: seq<Event>): nat {
    if |events| == 0 then 0
    else Pauses(events[..|events| - 1]) + (if events[|events| - 1].Pause? then 1 else 0)
  }

  /** Stop at the first accepted attempt; otherwise use up all `n`, which
      delivers nothing. */
  lemma {:induction false} AttemptsMadeSpec(transport: Transport, req: Request, n: nat, k: nat)
    requires k <= n
    requires forall j :: 0 <= j < k ==> !Accepted(transport(req, j))
    ensures var m := AttemptsMade(transport, req, n, k);
      && k <= m <= n
      && (forall j :: k <= j < m - 1 ==> !Accepted(transport(req, j)))
      && (Delivered(transport, req, m) <==> exists j :: k <= j < n && Accepted(transport(req, j)))
      && (!Delivered(transport, req, m) ==> m == n)
    decreases n - k
  {
    if k < n && !Accepted(transport(req, k)) {
      AttemptsMadeSpec(transport, req, n, k + 1);
      var m := AttemptsMade(transport, req, n, k);
      if exists j :: k <= j < n && Accepted(transport(req, j)) {
        var j :| k <= j < n && Accepted(transport(req, j));
        assert j != k;
      }
    }
  }

  lemma {:induction false} FailedRoundsCounts(req: Request, m: nat)
    ensures Attempts(FailedRounds(req, m)) == m && Pauses(FailedRounds(req, m)) == m
    ensures forall e :: e in FailedRounds(req, m) ==> e == Attempt(req) || e == Pause(PauseSeconds)
  {
    if m > 0 {
      var prev := FailedRounds(req, m - 1);
      FailedRoundsCounts(req, m - 1);
      var r := FailedRounds(req, m);
      assert r[..|r| - 1] == prev + [Attempt(req)];
      assert (prev + [Attempt(req)])[..|prev|] == prev;
    }
  }

  /** A schedule of `m` attempts makes `m` requests, all the same, with
      `m - 1` pauses and never ends on a pause. */
  lemma ScheduleShape(req: Request, m: nat)
    ensures Attempts(Schedule(req, m)) == m
    ensures Pauses(Schedule(req, m)) == if m == 0 then 0 else m - 1
    ensures forall e :: e in Schedule(req, m) ==> e == Attempt(req) || e == Pause(PauseSeconds)
    ensures |Schedule(req, m)| > 0 ==> Schedule(req, m)[|Schedule(req, m)| - 1] == Attempt(req)
  {
    if m > 0 {
      FailedRoundsCounts(req, m - 1);
      var s := Schedule(req, m);
      assert s[..|s| - 1] == FailedRounds(req, m - 1);
    }
  }

  /** Action items travel as one `|`-joined parameter, which splits back into
      the list when there is at least one item and no item contains `|`. */
  lemma ActionItemsRoundTrip(meetingId: string, items: seq<string>, timestamp: string, metadata: Option<Metadata>)
    requires |items| > 0 && forall k :: 0 <= k < |items| ==> '|' !in items[k]
    ensures var q := QueryParamsOf(ActionItemsPayload(meetingId, items, timestamp, metadata));
      && q.actionItems.Some?
      && Split(q.actionItems.value, '|') == items
      && q.count == |items|
  {
    SplitJoin(items, '|');
  }

  /** Summary and test notifications have no count and send 0; the test has
      no meeting id and sends ''. */
  lemma CountDefaults(meetingId: string, summary: string, timestamp: string, metadata: Option<Metadata>)
    ensures var q := QueryParamsOf(SummaryPayload(meetingId, summary, timestamp, metadata));
      q.count == 0 && q.actionItems.None? && q.summary == Some(summary) && q.meetingId == meetingId
    ensures var q := QueryParamsOf(TestPayload(timestamp));
      q.count == 0 && q.meetingId == "" && q.kind == "test" && q.actionItems.None? && q.summary.None? && q.metadata.None?
  {
  }

  /** Two items and no metadata: the parameters of the notification. */
  lemma TwoItemsExample(timestamp: string)
    ensures QueryParamsOf(ActionItemsPayload("42", ["Call client", "Send invoice"], timestamp, None))
      == QueryParams("action_items", "42", timestamp, 2, Some("Call client|Send invoice"), None, None)
  {
    var items := ["Call client", "Send invoice"];
    assert items[..1] == ["Call client"];
    assert Join(items, "|") == "Call client" + "|" + "Send invoice";
    assert "Call client" + "|" + "Send invoice" == "Call client|Send invoice";
    assert QueryParamsOf(ActionItemsPayload("42", items, timestamp, None)).actionItems == Some("Call client|Send invoice");
  }

  /** Python looks an attribute up on the instance before the class. */
  datatype Attribute = InstanceValue | BoundMethod | Missing

  /** The attributes `__init__` sets on every instance. */
  const InstanceAttributes: set<string> :=
    {"config", "enabled", "webhook_url", "timeout", "retry_attempts", "send_action_items", "send_summaries", "include_metadata"}

  const ClassMethods: set<string> := {"send_action_items", "send_summary", "_send_webhook", "test_webhook"}

  function LookupAttribute(name: string): Attribute {
    if name in InstanceAttributes then InstanceValue
    else if name in ClassMethods then BoundMethod
    else Missing
  }

  /** As written, the `send_action_items` flag set in `__init__` hides the
      method of the same name, so calling it on an instance calls a boolean;
      the other notifications stay callable. */
  lemma SendActionItemsShadowed()
    ensures LookupAttribute("send_action_items") == InstanceValue
    ensures "send_action_items" in ClassMethods
    ensures LookupAttribute("send_summary") == BoundMethod && LookupAttribute("test_webhook") == BoundMethod
  {
  }

  class WebhookManager {
    const enabled: bool
    const webhookUrl: string
    const timeout: int
    const retryAttempts: int
    /** The `send_action_items` flag, under a name that does not hide the
        method. */
    const sendActionItemsEnabled: bool
    const sendSummaries: bool
    const includeMetadata: bool

    /** Each setting from `webhook_settings`, or its default. */
    constructor(config: Config)
      ensures var s := config.webhookSettings.GetOr(NoSettings);
        && enabled == s.enabled.GetOr(false)
        && webhookUrl == s.n8nWebhookUrl.GetOr("")
        && timeout == s.timeout.GetOr(30)
        && retryAttempts == s.retryAttempts.GetOr(3)
        && sendActionItemsEnabled == s.sendActionItems.GetOr(true)
        && sendSummaries == s.sendSummaries.GetOr(false)
        && includeMetadata == s.includeMeetingMetadata.GetOr(true)
    {
      var s := config.webhookSettings.GetOr(NoSettings);
      enabled := s.enabled.GetOr(false);
      webhookUrl := s.n8nWebhookUrl.GetOr("");
      timeout := s.timeout.GetOr(30);
      retryAttempts := s.retryAttempts.GetOr(3);
      sendActionItemsEnabled := s.sendActionItems.GetOr(true);
      sendSummaries := s.sendSummaries.GetOr(false);
      includeMetadata := s.includeMeetingMetadata.GetOr(true);
    }

    /** `range(retry_attempts)` has this many elements. */
    function AttemptLimit(): nat {
      if retryAttempts < 0 then 0 else retryAttempts
    }

    function RequestFor(p: Payload): Request {
      Request(webhookUrl, QueryParamsOf(p), timeout, UserAgent)
    }

    /** `ok` and `events` are what sending `p` through `transport` gives. */
    predicate Sends(p: Payload, transport: Transport, ok: bool, events: seq<Event>) {
      var req := RequestFor(p);
      var m := AttemptsMade(transport, req, AttemptLimit(), 0);
      events == Schedule(req, m) && (ok <==> Delivered(transport, req, m))
    }

    /** The metadata of an action-item notification; its summary is null
        unless summaries are sent too. */
    function ActionItemsMetadata(data: Option<MeetingData>): Option<Metadata> {
      if includeMetadata && Truthy(data) then
        var d := data.value;
        Some(Metadata(Get(d, "filename", Str("")), Get(d, "duration", Num(0.0)), Get(d, "processed_at", Str("")),
          Some(if sendSummaries then Get(d, "summary", Str("")) else Null)))
      else None
    }

    function SummaryMetadata(data: Option<MeetingData>): Option<Metadata> {
      if includeMetadata && Truthy(data) then
        var d := data.value;
        Some(Metadata(Get(d, "filename", Str("")), Get(d, "duration", Num(0.0)), Get(d, "processed_at", Str("")), None))
      else None
    }

    /** `_send_webhook`: the same request at every attempt, stopping at the
        first 200 reply, pausing between attempts. */
    method SendWebhook(payload: Payload, transport: Transport) returns (ok: bool, events: seq<Event>)
      ensures Sends(payload, transport, ok, events)
    {
      var n := AttemptLimit();
      var req := RequestFor(payload);
      events := [];
      var attempt := 0;
      while attempt < retryAttempts
        invariant 0 <= attempt <= n
        invariant AttemptsMade(transport, req, n, 0) == AttemptsMade(transport, req, n, attempt)
        invariant forall k :: 0 <= k < attempt ==> !Accepted(transport(req, k))
        invariant attempt < n ==> events == FailedRounds(req, attempt)
        invariant attempt == n ==> events == Schedule(req, n)
      {
        var params := QueryParamsOf(payload);
        var reply := transport(Request(webhookUrl, params, timeout, UserAgent), attempt);
        events := events + [Attempt(req)];
        if reply.Status? && reply.code == 200 {
          ok := true;
          return;
        }
        if attempt < retryAttempts - 1 {
          events := events + [Pause(PauseSeconds)];
        }
        attempt := attempt + 1;
      }
      ok := false;
    }

    /** `send_action_items`: nothing is sent unless the webhook is enabled,
        has a URL and sends action items. */
    method SendActionItems(meetingId: string, items: seq<string>, data: Option<MeetingData>, timestamp: string, transport: Transport)
      returns (ok: bool, events: seq<Event>)
      ensures !enabled || webhookUrl == [] || !sendActionItemsEnabled ==> !ok && events == []
      ensures enabled && webhookUrl != [] && sendActionItemsEnabled ==>
        Sends(ActionItemsPayload(meetingId, items, timestamp, ActionItemsMetadata(data)), transport, ok, events)
    {
      if !enabled || webhookUrl == [] || !sendActionItemsEnabled {
        return false, [];
      }
      var payload := ActionItemsPayload(meetingId, items, timestamp, ActionItemsMetadata(data));
      ok, events := SendWebhook(payload, transport);
    }

    /** `send_summary`: nothing is sent unless the webhook is enabled, has a
        URL and sends summaries. */
    method SendSummary(meetingId: string, summary: string, data: Option<MeetingData>, timestamp: string, transport: Transport)
      returns (ok: bool, events: seq<Event>)
      ensures !enabled || webhookUrl == [] || !sendSummaries ==> !ok && events == []
      ensures enabled && webhookUrl != [] && sendSummaries ==>
        Sends(SummaryPayload(meetingId, summary, timestamp, SummaryMetadata(data)), transport, ok, events)
    {
      if !enabled || webhookUrl == [] || !sendSummaries {
        return false, [];
      }
      var payload := SummaryPayload(meetingId, summary, timestamp, SummaryMetadata(data));
      ok, events := SendWebhook(payload, transport);
    }

    /** `test_webhook`: skipped only without a URL; `enabled` is not
        consulted. */
    method TestWebhook(timestamp: string, transport: Transport) returns (ok: bool, events: seq<Event>)
      ensures webhookUrl == [] ==> !ok && events == []
      ensures webhookUrl != [] ==> Sends(TestPayload(timestamp), transport, ok, events)
    {
      if webhookUrl == [] {
        return false, [];
      }
      ok, events := SendWebhook(TestPayload(timestamp), transport);
    }

    /** What a send promises: at most `retry_attempts` identical requests, at
        most one pause fewer, success exactly when some allowed attempt gets
        a 200, and then only the last attempt got it. */
    lemma SendsBounds(p: Payload, transport: Transport, ok: bool, events: seq<Event>)
      requires Sends(p, transport, ok, events)
      ensures Attempts(events) <= AttemptLimit()
      ensures Pauses(events) == if Attempts(events) == 0 then 0 else Attempts(events) - 1
      ensures forall e :: e in events ==> e == Attempt(RequestFor(p)) || e == Pause(PauseSeconds)
      ensures ok <==> exists j :: 0 <= j < AttemptLimit() && Accepted(transport(RequestFor(p), j))
      ensures ok ==> Accepted(transport(RequestFor(p), Attempts(events) - 1))
      ensures forall j :: 0 <= j < Attempts(events) - 1 ==> !Accepted(transport(RequestFor(p), j))
      ensures !ok ==> Attempts(events) == AttemptLimit()
    {
      var req := RequestFor(p);
      AttemptsMadeSpec(transport, req, AttemptLimit(), 0);
      ScheduleShape(req, AttemptsMade(transport, req, AttemptLimit(), 0));
    }
  }
}
