# PagerDuty notification plugin for Graylog — Dafny model

This project models the logic of the Graylog PagerDuty plugin. The plugin turns a Graylog alert into a
PagerDuty event and checks the configuration the user enters for it. It has three parts:

- **Legacy client** (`legacy_client.dfy`, module `LegacyClient`). It builds the generic-events (v1)
  trigger event from a stream and an alert check result. That covers the stream link, the incident
  key, the description, the `details` map and the single link context. `details` holds the stream's id
  and title, the condition's `backlog` setting, `search_hits` (the number of messages in the alarm
  backlog, not the messages themselves) and the condition's description. It also decides whether PagerDuty's response counts as success.
- **Legacy alarm callback** (`alarm_callback.dfy`, module `AlarmCallback`). The callback stores the
  host's configuration and declares the five fields it requests. It validates the fields fail-fast:
  service key present, key exactly 32 characters, then the client URL's scheme. It masks the service
  key when it lists its attributes, and it hands each alert to a legacy client built from the
  configuration.
- **Event notification** (`notification.dfy`, module `Notification`). Its `execute` acquires a
  v2 client, triggers it once, fails when the response reports errors, and releases the client on
  every path. Exceptions follow try-with-resources (section 14.20.3 of the Java Language
  Specification) and then a `catch (IOException)`. The client is an object that keeps a `closed` flag and the log of calls
  made on it, in order. What its `trigger` and `close` do is fixed when it is built, the same way the
  plugin's tests stub a mock. `Execute` is proved to equal the pure `ExecuteOutcome`, and the
  lemmas about `ExecuteOutcome` state the exception rules.

`jvm.dfy` (module `Jvm`) restates the small pieces of Java and Guava behaviour that the plugin
relies on:

- null references, as `Option`;
- `Strings.nullToEmpty`;
- string concatenation with a null, which writes `"null"`;
- `List.toString`, which writes `[a, b]`.

The two plugin generations throw in different ways, so they have two exception models. The legacy
callback and client (`legacy_exceptions.dfy`, module `LegacyExceptions`) throw
`NullPointerException` or one of the host's `ConfigurationException` and `AlarmCallbackException`.
These are told apart by class and message only. The v2 `execute` needs each exception's cause and
suppressed list, because try-with-resources and the `IOException` handler build on them. It uses
`Notification.Throwable`.

The validator has one consequence worth knowing. A configuration with a valid key and no
`client_url` entry passes `checkConfiguration`. A client built from it then throws
`NullPointerException` when `buildStreamLink` reads the null URL. The lemma
`AlarmCallback.MissingUrlPassesCheckButFailsTrigger` states this. The UI's default for the field is
`""`, which does not take this path.

## Model

| member | source | states |
|---|---|---|
| `LegacyClient.BuildStreamLink` | src/main/java/org/graylog2/alarmcallbacks/pagerduty/PagerDutyClient.java:123-129 | The link starts with the base URL and ends with `streams/<id>/messages?q=*&rangetype=relative&relative=3600`. The character before `streams/` is `/`. Exactly one slash is inserted when the base does not end in one, and none when it does. |
| `LegacyClient.StreamLinkIdempotent` | src/main/java/org/graylog2/alarmcallbacks/pagerduty/PagerDutyClient.java:124-126 | A base URL without a trailing slash and the same URL with one give the same link. |
| `LegacyClient.IncidentKey` | src/main/java/org/graylog2/alarmcallbacks/pagerduty/PagerDutyClient.java:132-137 | With custom incident keys off, the key is `""`. With them on, it is the prefix (null read as empty), then the stream id, a `/`, and the condition id, each at its own position, and its length is the sum of theirs plus one. |
| `LegacyClient.IncidentKeyNullPrefix` | src/main/java/org/graylog2/alarmcallbacks/pagerduty/PagerDutyClient.java:133-134 | A null prefix gives the same key as the empty prefix. |
| `LegacyClient.IndexOfSlash` | src/main/java/org/graylog2/alarmcallbacks/pagerduty/PagerDutyClient.java:134 | Helper of `ParseIncidentKey`, the inverse of the key built here (nothing in the source searches for a slash). It returns the index of the first `/`, or the length when there is none. |
| `LegacyClient.ParseIncidentKey` | src/main/java/org/graylog2/alarmcallbacks/pagerduty/PagerDutyClient.java:134 | The inverse of the custom key built here. Whatever it reads out of a key rebuilds that key as `prefix + streamId + "/" + conditionId`, with a slash-free stream id. |
| `LegacyClient.IncidentKeyRoundTrip` | src/main/java/org/graylog2/alarmcallbacks/pagerduty/PagerDutyClient.java:133-134 | A custom key is `nullToEmpty(prefix) + streamId + "/" + conditionId`. Parsing the key after the prefix gives back the stream id and the condition id, when the stream id holds no slash. |
| `LegacyClient.IncidentKeyInjective` | src/main/java/org/graylog2/alarmcallbacks/pagerduty/PagerDutyClient.java:133-134 | Under one prefix, two custom keys are equal exactly when their stream ids and condition ids are equal, for slash-free stream ids. |
| `LegacyClient.Description` | src/main/java/org/graylog2/alarmcallbacks/pagerduty/PagerDutyClient.java:139-140 | The description is `[ `, the stream title, ` ] `, the result description, ` - ` and the link, each at its own position. Its length is the parts plus the 8 characters of the separators. |
| `LegacyClient.RawMessages` | src/main/java/org/graylog2/alarmcallbacks/pagerduty/PagerDutyClient.java:175-177 | Returns one raw message per summary, in the same order. |
| `LegacyClient.AlarmBacklog` | src/main/java/org/graylog2/alarmcallbacks/pagerduty/PagerDutyClient.java:161-180 | The backlog has exactly `min(backlog, |matching|)` elements: the raw messages of the first that many matching summaries, in order. It is empty when that minimum is 0. |
| `LegacyClient.GetAlarmBacklog` | src/main/java/org/graylog2/alarmcallbacks/pagerduty/PagerDutyClient.java:161-180 | The loop that appends raw messages one by one returns exactly `AlarmBacklog(result)`. |
| `LegacyClient.BuildPagerDutyEvent` | src/main/java/org/graylog2/alarmcallbacks/pagerduty/PagerDutyClient.java:131-159 | With a null client URL the call throws `NullPointerException`. Otherwise the event type is `"trigger"`, the description is `[ title ] resultDescription - link`, and `client_url` and the single `link` context carry that same link. `search_hits` is `min(backlog, |matching|)`, and the key, client, stream and condition fields are copied as stated. |
| `LegacyClient.ResponseVerdict` | src/main/java/org/graylog2/alarmcallbacks/pagerduty/PagerDutyClient.java:113-118 | Success holds exactly when `status` equals `"success"`. Otherwise the failure message is `"Error while creating event at PagerDuty: "` followed by the message, or `null` when there is none. |
| `LegacyClient.VerdictReadsStatusAndMessage` | src/main/java/org/graylog2/alarmcallbacks/pagerduty/PagerDutyClient.java:113-118 | The verdict depends only on `status` and `message`: `errors` and `incident_key` do not change it. |
| `LegacyClient.VerdictFailureEmbedsMessage` | src/main/java/org/graylog2/alarmcallbacks/pagerduty/PagerDutyClient.java:115-117 | Any other status fails, and the response's message appears right after the fixed prefix. |
| `LegacyClient.Trigger` | src/main/java/org/graylog2/alarmcallbacks/pagerduty/PagerDutyClient.java:100-118 | Trigger succeeds exactly when the client URL is set and the status is `"success"`, and it then posts the built event. A wrong status gives the verdict's error, and a null URL gives `NullPointerException`. |
| `AlarmCallback.ValidateConfiguration` | src/main/java/org/graylog2/alarmcallbacks/pagerduty/PagerDutyAlarmCallback.java:110-130 | Each of the four error messages is returned exactly when its check is the first to fail. Success holds exactly when the key is set, is 32 characters, and the client URL is unset or parses with scheme `http`/`https`. The scheme error and the parse error exclude each other. |
| `AlarmCallback.KeyCheckedBeforeUrl` | src/main/java/org/graylog2/alarmcallbacks/pagerduty/PagerDutyAlarmCallback.java:115-129 | A key of the wrong length is reported whatever the client URL and the URI parser give. |
| `AlarmCallback.UnsetUrlSkipsParsing` | src/main/java/org/graylog2/alarmcallbacks/pagerduty/PagerDutyAlarmCallback.java:119 | Without a client URL the outcome does not depend on the URI parser. |
| `AlarmCallback.ValidationExamples` | src/test/java/org/graylog2/alarmcallbacks/pagerduty/PagerDutyAlarmCallbackTest.java:75-110 | The test configurations give the stated outcomes. The valid one passes. An empty map fails on the missing key. `"too short"` fails on the length, and so does `"too short"` with an `ftp://` URL. |
| `AlarmCallback.ClientFromConfiguration` | src/main/java/org/graylog2/alarmcallbacks/pagerduty/PagerDutyAlarmCallback.java:56-61 | Each of service key, incident key prefix, client and client URL is the configuration's entry under its own name. It is null exactly when that entry is absent or not a string. Custom incident keys are on exactly when their entry is the flag `true`. |
| `AlarmCallback.ValidatedClient` | src/main/java/org/graylog2/alarmcallbacks/pagerduty/PagerDutyAlarmCallback.java:55-61 | A configuration that passes gives the client a 32-character service key. A client URL it receives, when set, has an `http`/`https` scheme. |
| `AlarmCallback.MissingUrlPassesCheckButFailsTrigger` | src/main/java/org/graylog2/alarmcallbacks/pagerduty/PagerDutyAlarmCallback.java:119 | A valid key with no `client_url` entry passes the check. The client built from that configuration throws `NullPointerException` on trigger. |
| `AlarmCallback.MaskAttributes` | src/main/java/org/graylog2/alarmcallbacks/pagerduty/PagerDutyAlarmCallback.java:97-106 | The attributes have exactly the configuration's keys. `service_key` becomes `"****"` and every other value is unchanged. |
| `AlarmCallback.MaskingHidesServiceKey` | src/main/java/org/graylog2/alarmcallbacks/pagerduty/PagerDutyAlarmCallback.java:101-103 | Two configurations that differ only in the service key's value show identical attributes. |
| `AlarmCallback.MaskingIdempotent` | src/main/java/org/graylog2/alarmcallbacks/pagerduty/PagerDutyAlarmCallback.java:97-106 | Masking the masked attributes changes nothing. |
| `AlarmCallback.PagerDutyAlarmCallback.Initialize` | src/main/java/org/graylog2/alarmcallbacks/pagerduty/PagerDutyAlarmCallback.java:49-52 | Stores the given configuration. |
| `AlarmCallback.PagerDutyAlarmCallback.CheckConfiguration` | src/main/java/org/graylog2/alarmcallbacks/pagerduty/PagerDutyAlarmCallback.java:109-130 | Before `initialize` it throws `NullPointerException`. After it, the outcome is `ValidateConfiguration` of the stored configuration. |
| `AlarmCallback.PagerDutyAlarmCallback.GetAttributes` | src/main/java/org/graylog2/alarmcallbacks/pagerduty/PagerDutyAlarmCallback.java:96-107 | Before `initialize` it throws `NullPointerException`. After it, the result is the masked configuration. |
| `AlarmCallback.PagerDutyAlarmCallback.GetRequestedConfiguration` | src/main/java/org/graylog2/alarmcallbacks/pagerduty/PagerDutyAlarmCallback.java:70-94 | A fresh request declares exactly the five fields under their own names. `service_key` is the only non-optional one. The defaults are `""`, `true`, `"Graylog/"`, `"Graylog"` and `""`. |
| `AlarmCallback.PagerDutyAlarmCallback.Call` | src/main/java/org/graylog2/alarmcallbacks/pagerduty/PagerDutyAlarmCallback.java:54-68 | Builds the client from the stored configuration's five entries and triggers it once. Before `initialize` it throws `NullPointerException`. |
| `AlarmCallback.PagerDutyAlarmCallback.GetName` | src/main/java/org/graylog2/alarmcallbacks/pagerduty/PagerDutyAlarmCallback.java:132-135 | The name is `"PagerDuty alarm callback"`. |
| `Notification.BodyThrown` | src/main/java/org/graylog/plugins/pagerduty/PagerDutyNotification.java:64-69 | The try block throws nothing exactly when trigger returns and the error list is null or empty. An exception from trigger is thrown as it is. Reported errors give an `IllegalStateException` with no cause and no suppressed exceptions, whose message is the fixed prefix followed by the list's `toString`. |
| `Notification.TryWithResources` | src/main/java/org/graylog/plugins/pagerduty/PagerDutyNotification.java:63 | Nothing is thrown exactly when neither the body nor close throws. Without a body exception, close's exception is thrown. With one, the body's class, message and cause are kept and close's exception is appended to its suppressed list. This follows section 14.20.3.1 of the Java Language Specification. |
| `Notification.CatchIOException` | src/main/java/org/graylog/plugins/pagerduty/PagerDutyNotification.java:71-73 | Something is thrown exactly when something was thrown in, and never an `IOException`. An `IOException` becomes an `IllegalStateException` with the fixed message and that exception as its cause. Anything else passes unchanged. |
| `Notification.ExecuteOutcome` | src/main/java/org/graylog/plugins/pagerduty/PagerDutyNotification.java:63-74 | No `IOException` ever escapes `execute`. |
| `Notification.ExecuteCompletesIff` | src/main/java/org/graylog/plugins/pagerduty/PagerDutyNotification.java:63-74 | `execute` completes normally exactly when trigger returns, the error list is null or empty, and close succeeds. |
| `Notification.ReportedErrorsFail` | src/main/java/org/graylog/plugins/pagerduty/PagerDutyNotification.java:66-69 | A non-empty error list throws `IllegalStateException("There was an error triggering the PagerDuty event, details: " + errors)`. Every reported error can be read in that message, and an exception from close is suppressed behind it. |
| `Notification.ReportedErrorsMessageExample` | src/test/java/org/graylog/plugins/pagerduty/PagerDutyNotificationTest.java:97-117 | Two errors give the message `"There was an error triggering the PagerDuty event, details: "` followed by `[first error, second error]`. |
| `Notification.ExampleErrorsToString` | src/test/java/org/graylog/plugins/pagerduty/PagerDutyNotificationTest.java:97-117 | The test's two errors print as `[first error, second error]`. |
| `Notification.CloseFailureAfterSuccess` | src/main/java/org/graylog/plugins/pagerduty/PagerDutyNotification.java:71-73 | After a successful trigger, an `IOException` from close becomes `IllegalStateException("There was an exception triggering the PagerDuty event.")` with that exception as its cause. |
| `Notification.OtherCloseFailurePropagates` | src/main/java/org/graylog/plugins/pagerduty/PagerDutyNotification.java:71 | Only `IOException` is caught: another exception from close propagates unchanged. |
| `Notification.BodyExceptionTakesPrecedence` | src/main/java/org/graylog/plugins/pagerduty/PagerDutyNotification.java:63-74 | When the body throws, that exception propagates with its own class, message and cause. An exception from close is appended to its suppressed list and never replaces it. |
| `Notification.PagerDuty.Trigger` | src/main/java/org/graylog/plugins/pagerduty/client/PagerDuty.java:82-102 | A stub of the client's trigger. It may only be called on an open client, because it posts through the client's HTTP pool. It returns the behaviour fixed when the client was built, appends `Triggered(ctx)` to the call log, and leaves the client open. |
| `Notification.PagerDuty.Close` | src/main/java/org/graylog/plugins/pagerduty/client/PagerDuty.java:104-107 | Close marks the client closed even when it then throws, and appends `Closed` to the call log. |
| `Notification.ClientFactory.Create` | src/main/java/org/graylog/plugins/pagerduty/client/ClientFactory.java:31-33 | Each call returns a fresh, open client with an empty call log for the given configuration. |
| `Jvm.NullToEmpty` | src/main/java/org/graylog2/alarmcallbacks/pagerduty/PagerDutyClient.java:134 | Guava's `Strings.nullToEmpty`: a string is kept, and the result is empty exactly when the input is null or empty. |
| `Jvm.ConcatForm` | src/main/java/org/graylog2/alarmcallbacks/pagerduty/PagerDutyClient.java:117 | Java string concatenation with a possibly null `String` (section 5.1.11 of the Java Language Specification): the string itself, or `"null"` for null. |
| `Jvm.ListToString` | src/main/java/org/graylog/plugins/pagerduty/PagerDutyNotification.java:68 | `AbstractCollection.toString` of a list of strings: `"[]"` for the empty list, `"[a]"` for one element, and otherwise the first element, `", "` and the rest joined the same way, between brackets. |
| `Jvm.ListToStringPair` | src/main/java/org/graylog/plugins/pagerduty/PagerDutyNotification.java:68 | A two-element list prints as `"[a, b]"`. |
| `Jvm.JoinContains` | src/main/java/org/graylog/plugins/pagerduty/PagerDutyNotification.java:68 | Every element appears in the `", "`-joined text that `AbstractCollection.toString` writes between the brackets. |
| `Jvm.ListToStringContains` | src/main/java/org/graylog/plugins/pagerduty/PagerDutyNotification.java:68 | Every element of the list appears in its `AbstractCollection.toString`. |
| `Notification.PagerDutyNotification.Execute` | src/main/java/org/graylog/plugins/pagerduty/PagerDutyNotification.java:59-75 | Exactly one fresh client is built from the context's notification config. Its call log is exactly `[Triggered(ctx), Closed]` on every path: triggered once with the context, and only then closed. What `execute` throws equals `ExecuteOutcome`. |

## Left out

- Network I/O in both clients is not modelled: the URL, the connection and its streams in the
  legacy `trigger`, and the Apache HTTP client in the v2 `PagerDuty`. The legacy model takes
  PagerDuty's parsed response as a parameter. The v2 client's trigger and close behaviour are
  fixed values of the client object. So "Error while opening connection to PagerDuty API." and
  "Could not POST event trigger to PagerDuty API." are not modelled.
- JSON serialisation and parsing (Jackson) are not modelled, including the omission of an empty
  incident key from the JSON. The event is a record, and `details` is a record with one field per
  map key.
- `java.net.URI` parsing is not modelled. It is a function parameter that returns a syntax error or
  a scheme, which is null for a relative reference.
- Host objects (`Stream`, `AlertCondition`, `CheckResult`, `MessageSummary`, `Message`, the event
  context and the v2 notification config) are plain records or opaque types, and their strings
  are taken as non-null, so the model excludes null by its types and does not model what a null
  would do. In the source a null stream title or condition description makes `ImmutableMap.of`
  throw (`PagerDutyClient.java` lines 146 and 149). A null result description (line 139) or a null
  condition id (line 134) raises no exception: it is written as `"null"` in the description or key.
- A negative backlog is not modelled. `getBacklog` is taken as non-negative: a negative value
  would make `subList` throw, and the type `nat` rules it out.
- The host's `Configuration` and `ConfigurationRequest` classes are not part of this model. Their
  behaviour is assumed as follows:
  - `getString` returns null for an absent or non-string value;
  - `stringIsSet` means non-null and non-empty;
  - `getBoolean` is false when absent;
  - a request keeps fields by name;
  - a boolean field counts as optional.
- String lengths are counted in characters; Java counts UTF-16 code units. They differ only for
  characters outside the Basic Multilingual Plane.
- `Maps.transformEntries` returns a live view, which is not modelled; the model returns the
  transformed map, and the configuration never changes after `initialize`.
- The v2 message factory and the v2 configuration validator are not part of this model. Their
  implementations are not among the modelled sources. This leaves out dedup keys, severity
  mapping, deep links, time-zone formatting and URL encoding.
- The older plugin generation (`PagerdutyAlarmCallback`, `PagerdutyTrigger`, `PagerDutyTrigger`) is
  not modelled: it is a key-present check in front of a blocking HTTP POST. Dependency-injection
  wiring, plugin metadata, the web UI registration and logging are not modelled either.
- Exceptions thrown by `ClientFactory.create` are not modelled; the factory always returns a
  client.
- A null response from the v2 `trigger` is not representable. In the source it would make
  `response.getErrors()` throw `NullPointerException` (`PagerDutyNotification.java` line 65); a
  trigger in the model returns a response or throws.
- Null entries in the v2 error list are not representable: the list holds strings.
  `AbstractCollection.toString` would write such an entry as `null`.
