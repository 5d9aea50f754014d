/** The legacy PagerDuty client: builds a generic-events (v1) trigger event from a
    stream and an alert check result, and judges the API's response. */
module LegacyClient {
  import opened Jvm
  import opened LegacyExceptions

  /** The fixed query that every stream link ends with. */
  const StreamLinkQuery := "/messages?q=*&rangetype=relative&relative=3600"

  /** The one event type the client sends. */
  const EventTypeTrigger := "trigger"

  /** The response status that counts as success. */
  const SuccessStatus := "success"

  const ErrorPrefix := "Error while creating event at PagerDuty: "

  /** A message of the host; the client only copies it. */
  type Message

  /** The host's stream, as read through getId and getTitle. */
  datatype Stream = Stream(id: string, title: string)

  /** The host's alert condition, as read through getId, getDescription and
      getBacklog (the number of messages to attach, never negative). */
  datatype AlertCondition = AlertCondition(id: string, description: string, backlog: nat)

  /** The host's message summary; getRawMessage gives the message behind it. */
  datatype MessageSummary = MessageSummary(rawMessage: Message)

  /** The host's result of an alert check. */
  datatype CheckResult = CheckResult(
    triggeredCondition: AlertCondition,
    resultDescription: string,
    matchingMessages: seq<MessageSummary>)

  /** The client's final fields; every String may be null. */
  datatype PagerDutyClient = PagerDutyClient(
    serviceKey: Option<string>,
    customIncidentKey: bool,
    incidentKeyPrefix: Option<string>,
    clientName: Option<string>,
    clientUrl: Option<string>)

  /** The five entries of the event's `details` map. */
  datatype Details = Details(
    streamId: string,
    streamTitle: string,
    backlog: nat,
    searchHits: nat,
    alertDescription: string)

  /** One entry of the event's `contexts` list: a map with keys "type" and "href". */
  datatype Context = Context(kind: string, href: string)

  datatype PagerDutyEvent = PagerDutyEvent(
    serviceKey: Option<string>,
    eventType: string,
    description: string,
    incidentKey: string,
    client: Option<string>,
    clientUrl: string,
    details: Details,
    contexts: seq<Context>)

  datatype PagerDutyResponse = PagerDutyResponse(
    status: Option<string>,
    message: Option<string>,
    incidentKey: Option<string>,
    errors: Option<seq<string>>)

  predicate EndsWithSlash(s: string)
  {
    |s| > 0 && s[|s| - 1] == '/'
  }

  /** The part of a stream link after the base URL and its slash. */
  function StreamPath(streamId: string): string
  {
    "streams/" + streamId + StreamLinkQuery
  }

  /** buildStreamLink: the base URL, a slash only if it does not already end in one,
      then the stream's message search. */
  function BuildStreamLink(baseUrl: string, streamId: string): (link: string)
    ensures |link| == |baseUrl| + (if EndsWithSlash(baseUrl) then 0 else 1) + |StreamPath(streamId)|
    ensures link[..|baseUrl|] == baseUrl
    ensures link[|link| - |StreamPath(streamId)|..] == StreamPath(streamId)
    ensures link[|link| - |StreamPath(streamId)| - 1] == '/'
  {
    var base := if EndsWithSlash(baseUrl) then baseUrl else baseUrl + "/";
    base + StreamPath(streamId)
  }

  /** A base URL without its trailing slash and the same URL with it give the same link. */
  lemma StreamLinkIdempotent(baseUrl: string, streamId: string)
    requires !EndsWithSlash(baseUrl)
    ensures BuildStreamLink(baseUrl, streamId) == BuildStreamLink(baseUrl + "/", streamId)
  {
  }

  /** The incident key: with custom keys, prefix (null read as empty), stream id,
      a slash and the condition id; otherwise the empty string. */
  function IncidentKey(client: PagerDutyClient, streamId: string, conditionId: string): (key: string)
    ensures !client.customIncidentKey ==> key == ""
    ensures client.customIncidentKey ==>
      var prefix := NullToEmpty(client.incidentKeyPrefix);
      && |key| == |prefix| + |streamId| + 1 + |conditionId|
      && key[..|prefix|] == prefix
      && key[|prefix|..|prefix| + |streamId|] == streamId
      && key[|prefix| + |streamId|] == '/'
      && key[|prefix| + |streamId| + 1..] == conditionId
  {
    if client.customIncidentKey then
      NullToEmpty(client.incidentKeyPrefix) + streamId + "/" + conditionId
    else
      ""
  }

  /** A null prefix behaves exactly like the empty prefix. */
  lemma IncidentKeyNullPrefix(client: PagerDutyClient, streamId: string, conditionId: string)
    ensures IncidentKey(client.(incidentKeyPrefix := None), streamId, conditionId)
         == IncidentKey(client.(incidentKeyPrefix := Some("")), streamId, conditionId)
  {
  }

  /** Index of the first slash in `s`, or |s| when there is none. */
  function IndexOfSlash(s: string): (i: nat)
    ensures i <= |s|
    ensures i < |s| ==> s[i] == '/'
    ensures forall j :: 0 <= j < i ==> s[j] != '/'
  {
    if s == [] then 0
    else if s[0] == '/' then 0
    else 1 + IndexOfSlash(s[1..])
  }

  /** Reads the stream id and condition id back out of a custom incident key: the inverse
      of IncidentKey. What it returns always rebuilds the key, with a slash-free stream id. */
  function ParseIncidentKey(prefix: string, key: string): (r: Option<(string, string)>)
    ensures r.Some? ==> key == prefix + r.value.0 + "/" + r.value.1 && '/' !in r.value.0
  {
    if |key| < |prefix| || key[..|prefix|] != prefix then None
    else
      var rest := key[|prefix|..];
      var i := IndexOfSlash(rest);
      if i == |rest| then None
      else
        assert rest == rest[..i] + "/" + rest[i + 1..];
        assert key == prefix + rest;
        Some((rest[..i], rest[i + 1..]))
  }

  /** The first slash after a slash-free text is the one that follows it. */
  lemma {:induction false} IndexOfSlashAfter(head: string, tail: string)
    requires '/' !in head
    ensures IndexOfSlash(head + "/" + tail) == |head|
  {
    if head != [] {
      assert (head + "/" + tail)[1..] == head[1..] + "/" + tail;
      IndexOfSlashAfter(head[1..], tail);
    }
  }

  /** A custom incident key gives back its stream id and condition id, as long as the
      stream id holds no slash (the host's ids are hexadecimal). */
  lemma IncidentKeyRoundTrip(client: PagerDutyClient, streamId: string, conditionId: string)
    requires client.customIncidentKey
    requires '/' !in streamId
    ensures ParseIncidentKey(NullToEmpty(client.incidentKeyPrefix), IncidentKey(client, streamId, conditionId))
         == Some((streamId, conditionId))
  {
    var prefix := NullToEmpty(client.incidentKeyPrefix);
    var rest := streamId + "/" + conditionId;
    assert IncidentKey(client, streamId, conditionId) == prefix + rest;
    IndexOfSlashAfter(streamId, conditionId);
    assert rest[..|streamId|] == streamId;
    assert rest[|streamId| + 1..] == conditionId;
  }

  /** Under one prefix, custom incident keys tell stream/condition pairs apart. */
  lemma IncidentKeyInjective(client: PagerDutyClient, s1: string, c1: string, s2: string, c2: string)
    requires client.customIncidentKey
    requires '/' !in s1 && '/' !in s2
    ensures IncidentKey(client, s1, c1) == IncidentKey(client, s2, c2) <==> s1 == s2 && c1 == c2
  {
    IncidentKeyRoundTrip(client, s1, c1);
    IncidentKeyRoundTrip(client, s2, c2);
  }

  /** The event description: stream title in brackets, the check's description and the
      link, each in its own place between the fixed separators. */
  function Description(streamTitle: string, resultDescription: string, link: string): (d: string)
    ensures |d| == |streamTitle| + |resultDescription| + |link| + 8
    ensures d[..2] == "[ " && d[2..|streamTitle| + 2] == streamTitle
    ensures d[|streamTitle| + 2..|streamTitle| + 5] == " ] "
    ensures d[|streamTitle| + 5..|streamTitle| + |resultDescription| + 5] == resultDescription
    ensures d[|streamTitle| + |resultDescription| + 5..|streamTitle| + |resultDescription| + 8] == " - "
    ensures d[|streamTitle| + |resultDescription| + 8..] == link
  {
    "[ " + streamTitle + " ] " + resultDescription + " - " + link
  }

  function Min(a: int, b: int): int
  {
    if a <= b then a else b
  }

  /** The raw messages behind a list of summaries, in order. */
  function RawMessages(summaries: seq<MessageSummary>): (raw: seq<Message>)
    ensures |raw| == |summaries|
    ensures forall k :: 0 <= k < |summaries| ==> raw[k] == summaries[k].rawMessage
  {
    if summaries == [] then []
    else RawMessages(summaries[..|summaries| - 1]) + [summaries[|summaries| - 1].rawMessage]
  }

  /** getAlarmBacklog: the raw messages of the first min(backlog, |matching|) matching
      summaries, in order. */
  function AlarmBacklog(result: CheckResult): (backlog: seq<Message>)
    ensures |backlog| == Min(result.triggeredCondition.backlog, |result.matchingMessages|)
    ensures forall k :: 0 <= k < |backlog| ==> backlog[k] == result.matchingMessages[k].rawMessage
  {
    var n := Min(result.triggeredCondition.backlog, |result.matchingMessages|);
    if n == 0 then [] else RawMessages(result.matchingMessages[..n])
  }

  /** The backlog loop of getAlarmBacklog. */
  method GetAlarmBacklog(result: CheckResult) returns (backlog: seq<Message>)
    ensures backlog == AlarmBacklog(result)
  {
    var effectiveBacklogSize := Min(result.triggeredCondition.backlog, |result.matchingMessages|);
    if effectiveBacklogSize == 0 {
      return [];
    }
    var backlogSummaries := result.matchingMessages[..effectiveBacklogSize];
    backlog := [];
    var i := 0;
    while i < |backlogSummaries|
      invariant 0 <= i <= |backlogSummaries|
      invariant backlog == RawMessages(backlogSummaries[..i])
    {
      assert backlogSummaries[..i + 1][..i] == backlogSummaries[..i];
      backlog := backlog + [backlogSummaries[i].rawMessage];
      i := i + 1;
    }
    assert backlogSummaries[..i] == backlogSummaries;
  }

  /** buildPagerDutyEvent. A null client URL makes buildStreamLink throw. */
  function BuildPagerDutyEvent(client: PagerDutyClient, stream: Stream, result: CheckResult)
    : (r: Result<PagerDutyEvent, Exception>)
    ensures r.Failure? <==> client.clientUrl.None?
    ensures r.Failure? ==> r.error == NullPointerException
    ensures r.Success? ==>
      var event := r.value;
      && event.eventType == EventTypeTrigger
      && event.serviceKey == client.serviceKey
      && event.client == client.clientName
      && event.clientUrl == BuildStreamLink(client.clientUrl.value, stream.id)
      && event.description == Description(stream.title, result.resultDescription, event.clientUrl)
      && event.contexts == [Context("link", event.clientUrl)]
      && event.incidentKey == IncidentKey(client, stream.id, result.triggeredCondition.id)
      && event.details.streamId == stream.id
      && event.details.streamTitle == stream.title
      && event.details.backlog == result.triggeredCondition.backlog
      && event.details.searchHits == Min(result.triggeredCondition.backlog, |result.matchingMessages|)
      && event.details.alertDescription == result.triggeredCondition.description
  {
    if client.clientUrl.None? then
      Failure(NullPointerException)
    else
      var condition := result.triggeredCondition;
      var link := BuildStreamLink(client.clientUrl.value, stream.id);
      Success(PagerDutyEvent(
        client.serviceKey,
        EventTypeTrigger,
        Description(stream.title, result.resultDescription, link),
        IncidentKey(client, stream.id, condition.id),
        client.clientName,
        link,
        Details(stream.id, stream.title, condition.backlog, |AlarmBacklog(result)|, condition.description),
        [Context("link", link)]))
  }

  /** The status verdict of trigger: success exactly when status is "success". */
  function ResponseVerdict(response: PagerDutyResponse): (verdict: Outcome<Exception>)
    ensures verdict.Pass? <==> response.status == Some(SuccessStatus)
    ensures verdict.Fail? ==> verdict.error == AlarmCallbackException(ErrorPrefix + ConcatForm(response.message))
  {
    if response.status == Some(SuccessStatus) then Pass
    else Fail(AlarmCallbackException(ErrorPrefix + ConcatForm(response.message)))
  }

  /** The verdict reads only status and message: errors and incident key do not matter. */
  lemma VerdictReadsStatusAndMessage(r1: PagerDutyResponse, r2: PagerDutyResponse)
    requires r1.status == r2.status && r1.message == r2.message
    ensures ResponseVerdict(r1) == ResponseVerdict(r2)
  {
  }

  /** The comparison is exact: any other status, including a missing one, fails and
      the failure carries the response's message. */
  lemma VerdictFailureEmbedsMessage(response: PagerDutyResponse)
    requires response.status != Some(SuccessStatus)
    requires response.message.Some?
    ensures ResponseVerdict(response).Fail?
    ensures OccursAt(response.message.value, ResponseVerdict(response).error.message, |ErrorPrefix|)
  {
  }

  /** trigger without its transport: the event it posts, judged by the response that the
      endpoint sent back. */
  function Trigger(client: PagerDutyClient, stream: Stream, result: CheckResult, response: PagerDutyResponse)
    : (r: Result<PagerDutyEvent, Exception>)
    ensures r.Success? <==> client.clientUrl.Some? && response.status == Some(SuccessStatus)
    ensures r.Success? ==> BuildPagerDutyEvent(client, stream, result) == Success(r.value)
    ensures client.clientUrl.Some? && response.status != Some(SuccessStatus) ==>
      r == Failure(AlarmCallbackException(ErrorPrefix + ConcatForm(response.message)))
    ensures client.clientUrl.None? ==> r == Failure(NullPointerException)
  {
    var built := BuildPagerDutyEvent(client, stream, result);
    if built.Failure? then built
    else
      match ResponseVerdict(response)
      case Pass => built
      case Fail(e) => Failure(e)
  }
}
