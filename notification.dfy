/** The event notification entry point: acquire a PagerDuty client, trigger the event,
    judge the response's error list and release the client, with Java's
    try-with-resources rules for the exceptions of the body and of close. */
module Notification {
  import opened Jvm

  const ErrorDetailsPrefix := "There was an error triggering the PagerDuty event, details: "
  const CloseFailureMessage := "There was an exception triggering the PagerDuty event."

  /** The exception classes that matter to execute: IOException is the only checked one. */
  datatype Kind = IllegalState | IO | OtherRuntime

  /** A Java exception with its message, cause and suppressed exceptions. */
  datatype Throwable = Throwable(kind: Kind, message: string, cause: Option<Throwable>, suppressed: seq<Throwable>)

  /** Throwable.addSuppressed. */
  function AddSuppressed(primary: Throwable, other: Throwable): Throwable
  {
    primary.(suppressed := primary.suppressed + [other])
  }

  /** The notification's configuration; the client is built from it. */
  type NotificationConfig

  /** The event being notified; only passed on to the client. */
  type Event

  datatype EventNotificationContext = EventNotificationContext(notificationConfig: NotificationConfig, event: Event)

  /** The parsed v2 response; only its error list is read. */
  datatype PagerDutyResponse = PagerDutyResponse(errors: Option<seq<string>>)

  /** What a client's trigger does: return a response or throw. */
  datatype TriggerBehaviour = Returns(response: PagerDutyResponse) | Throws(exception: Throwable)

  /** What a client's close does. */
  datatype CloseBehaviour = Closes | CloseThrows(exception: Throwable)

  /** trigger declares no checked exception, so it cannot throw an IOException. */
  predicate TriggerUnchecked(behaviour: TriggerBehaviour)
  {
    behaviour.Throws? ==> behaviour.exception.kind != IO
  }

  /** The response reports errors: the list is neither null nor empty. */
  predicate ErrorsReported(errors: Option<seq<string>>)
  {
    errors.Some? && |errors.value| > 0
  }

  /** What the body of the try block throws, if anything: trigger's own exception, or an
      IllegalStateException naming the reported errors; nothing for a null or empty list. */
  function BodyThrown(behaviour: TriggerBehaviour): (r: Option<Throwable>)
    ensures r.None? <==> behaviour.Returns? && !ErrorsReported(behaviour.response.errors)
    ensures behaviour.Throws? ==> r == Some(behaviour.exception)
    ensures behaviour.Returns? && r.Some? ==>
      && r.value.kind == IllegalState
      && |r.value.message| > |ErrorDetailsPrefix|
      && r.value.message[..|ErrorDetailsPrefix|] == ErrorDetailsPrefix
      && r.value.message[|ErrorDetailsPrefix|..] == ListToString(behaviour.response.errors.value)
      && r.value.cause.None? && r.value.suppressed == []
  {
    match behaviour
    case Throws(e) => Some(e)
    case Returns(response) =>
      if ErrorsReported(response.errors) then
        Some(Throwable(IllegalState, ErrorDetailsPrefix + ListToString(response.errors.value), None, []))
      else
        None
  }

  function CloseThrown(behaviour: CloseBehaviour): Option<Throwable>
  {
    match behaviour
    case Closes => None
    case CloseThrows(e) => Some(e)
  }

  /** A try-with-resources statement (section 14.20.3.1 of the Java Language Specification):
      the body's exception wins and the one from close is added to its suppressed list;
      with a body that completed, the exception from close is thrown. */
  function TryWithResources(body: Option<Throwable>, close: Option<Throwable>): (r: Option<Throwable>)
    ensures r.None? <==> body.None? && close.None?
    ensures body.None? ==> r == close
    ensures body.Some? ==>
      && r.Some?
      && r.value.kind == body.value.kind && r.value.message == body.value.message
      && r.value.cause == body.value.cause
      && r.value.suppressed == body.value.suppressed + (if close.Some? then [close.value] else [])
  {
    match body
    case Some(t) => if close.Some? then Some(AddSuppressed(t, close.value)) else body
    case None => close
  }

  /** The catch clause for IOException: wraps it as the cause of an IllegalStateException. */
  function CatchIOException(thrown: Option<Throwable>): (r: Option<Throwable>)
    ensures r.None? <==> thrown.None?
    ensures r.Some? ==> r.value.kind != IO
    ensures thrown.Some? && thrown.value.kind != IO ==> r == thrown
    ensures thrown.Some? && thrown.value.kind == IO ==>
      && r.value.kind == IllegalState && r.value.message == CloseFailureMessage
      && r.value.cause == thrown && r.value.suppressed == []
  {
    if thrown.Some? && thrown.value.kind == IO then
      Some(Throwable(IllegalState, CloseFailureMessage, thrown, []))
    else
      thrown
  }

  /** What execute throws (None: it completes normally) for a client that triggers and
      closes as given. No IOException ever escapes execute. */
  function ExecuteOutcome(onTrigger: TriggerBehaviour, onClose: CloseBehaviour): (r: Option<Throwable>)
    ensures r.Some? ==> r.value.kind != IO
  {
    CatchIOException(TryWithResources(BodyThrown(onTrigger), CloseThrown(onClose)))
  }

  /** execute completes normally exactly when trigger returns a response whose error
      list is null or empty and close succeeds. */
  lemma ExecuteCompletesIff(onTrigger: TriggerBehaviour, onClose: CloseBehaviour)
    ensures ExecuteOutcome(onTrigger, onClose).None?
        <==> onTrigger.Returns? && !ErrorsReported(onTrigger.response.errors) && onClose.Closes?
  {
  }

  /** A non-empty error list fails with the list in the message: each reported error can be
      read in it, and an exception from close is suppressed behind it. */
  lemma ReportedErrorsFail(errors: seq<string>, onClose: CloseBehaviour)
    requires |errors| > 0
    ensures var thrown := ExecuteOutcome(Returns(PagerDutyResponse(Some(errors))), onClose);
      && thrown.Some?
      && thrown.value.kind == IllegalState
      && thrown.value.message == ErrorDetailsPrefix + ListToString(errors)
      && thrown.value.suppressed == (if onClose.CloseThrows? then [onClose.exception] else [])
      && forall i :: 0 <= i < |errors| ==> OccursIn(errors[i], thrown.value.message)
  {
    var message := ErrorDetailsPrefix + ListToString(errors);
    forall i | 0 <= i < |errors|
      ensures OccursIn(errors[i], message)
    {
      ListToStringContains(errors, i);
      var k :| OccursAt(errors[i], ListToString(errors), k);
      OccursShift(errors[i], ListToString(errors), k, ErrorDetailsPrefix, "");
      assert ErrorDetailsPrefix + ListToString(errors) + "" == message;
    }
  }

  /** The two errors of the notification's tests print as the test expects. */
  lemma ExampleErrorsToString()
    ensures ListToString(["first error", "second error"]) == "[first error, second error]"
  {
    ListToStringPair("first error", "second error");
  }

  /** The message the notification's tests expect for two reported errors. */
  lemma ReportedErrorsMessageExample()
    ensures ExecuteOutcome(Returns(PagerDutyResponse(Some(["first error", "second error"]))), Closes).value.message
         == ErrorDetailsPrefix + "[first error, second error]"
  {
    var errors := ["first error", "second error"];
    ReportedErrorsFail(errors, Closes);
    ExampleErrorsToString();
  }

  /** After a successful trigger an IOException from close becomes an IllegalStateException
      with the fixed message and the IOException as its cause. */
  lemma CloseFailureAfterSuccess(response: PagerDutyResponse, closeException: Throwable)
    requires !ErrorsReported(response.errors)
    requires closeException.kind == IO
    ensures ExecuteOutcome(Returns(response), CloseThrows(closeException))
         == Some(Throwable(IllegalState, CloseFailureMessage, Some(closeException), []))
  {
  }

  /** Only IOException is caught: any other exception from close propagates unchanged. */
  lemma OtherCloseFailurePropagates(response: PagerDutyResponse, closeException: Throwable)
    requires !ErrorsReported(response.errors)
    requires closeException.kind != IO
    ensures ExecuteOutcome(Returns(response), CloseThrows(closeException)) == Some(closeException)
  {
  }

  /** When the body throws (reported errors, or trigger itself), that exception propagates
      as it is, with an exception from close suppressed behind it, never replacing it. */
  lemma BodyExceptionTakesPrecedence(onTrigger: TriggerBehaviour, onClose: CloseBehaviour)
    requires TriggerUnchecked(onTrigger)
    requires BodyThrown(onTrigger).Some?
    ensures var body := BodyThrown(onTrigger).value;
      var thrown := ExecuteOutcome(onTrigger, onClose);
      && thrown.Some?
      && thrown.value.kind == body.kind && thrown.value.message == body.message
      && thrown.value.cause == body.cause
      && thrown.value.suppressed == body.suppressed + (if onClose.CloseThrows? then [onClose.exception] else [])
  {
  }

  /** One call made on a client, in the order the calls were made. */
  datatype ClientCall = Triggered(ctx: EventNotificationContext) | Closed

  /** A PagerDuty v2 client. What its trigger and close do is fixed when it is built, as the
      notification's tests fix it on a mock. */
  class PagerDuty {
    const config: NotificationConfig
    const onTrigger: TriggerBehaviour
    const onClose: CloseBehaviour
    /** The contexts trigger was called with, in order. */
    var calls: seq<ClientCall>
    /** Whether close has run; after it the client's HTTP connection pool is shut. */
    var closed: bool

    constructor (config: NotificationConfig, onTrigger: TriggerBehaviour, onClose: CloseBehaviour)
      ensures this.config == config && this.onTrigger == onTrigger && this.onClose == onClose
      ensures calls == [] && !closed
    {
      this.config := config;
      this.onTrigger := onTrigger;
      this.onClose := onClose;
      calls := [];
      closed := false;
    }

    /** trigger posts through the client's HTTP pool, so the client must not be closed yet. */
    method Trigger(ctx: EventNotificationContext) returns (outcome: TriggerBehaviour)
      requires !closed
      modifies this
      ensures outcome == onTrigger
      ensures calls == old(calls) + [Triggered(ctx)] && !closed
    {
      calls := calls + [Triggered(ctx)];
      outcome := onTrigger;
    }

    /** close releases the client whether or not it then throws. */
    method Close() returns (thrown: Option<Throwable>)
      modifies this
      ensures thrown == CloseThrown(onClose)
      ensures closed && calls == old(calls) + [Closed]
    {
      closed := true;
      calls := calls + [Closed];
      thrown := CloseThrown(onClose);
    }
  }

  /** Builds one client per notification from the notification's configuration. */
  class ClientFactory {
    const onTrigger: TriggerBehaviour
    const onClose: CloseBehaviour
    /** The clients built so far, in order. */
    var created: seq<PagerDuty>

    constructor (onTrigger: TriggerBehaviour, onClose: CloseBehaviour)
      ensures this.onTrigger == onTrigger && this.onClose == onClose && created == []
    {
      this.onTrigger := onTrigger;
      this.onClose := onClose;
      created := [];
    }

    method Create(config: NotificationConfig) returns (client: PagerDuty)
      modifies this
      ensures fresh(client)
      ensures client.config == config && client.onTrigger == onTrigger && client.onClose == onClose
      ensures client.calls == [] && !client.closed
      ensures created == old(created) + [client]
    {
      client := new PagerDuty(config, onTrigger, onClose);
      created := created + [client];
    }
  }

  class PagerDutyNotification {
    const clientFactory: ClientFactory

    constructor (clientFactory: ClientFactory)
      ensures this.clientFactory == clientFactory
    {
      this.clientFactory := clientFactory;
    }

    /** execute: one fresh client per call, triggered once with the context and only then
        closed, on every path; what it throws is given by ExecuteOutcome. */
    method Execute(ctx: EventNotificationContext) returns (thrown: Option<Throwable>)
      modifies clientFactory
      ensures thrown == ExecuteOutcome(clientFactory.onTrigger, clientFactory.onClose)
      ensures |clientFactory.created| == |old(clientFactory.created)| + 1
      ensures clientFactory.created[..|old(clientFactory.created)|] == old(clientFactory.created)
      ensures var client := clientFactory.created[|old(clientFactory.created)|];
        && fresh(client)
        && client.config == ctx.notificationConfig
        && client.calls == [Triggered(ctx), Closed]
        && client.closed
    {
      var client := clientFactory.Create(ctx.notificationConfig);

      // try block
      var bodyThrown: Option<Throwable> := None;
      var outcome := client.Trigger(ctx);
      if outcome.Throws? {
        bodyThrown := Some(outcome.exception);
      } else {
        var errors := outcome.response.errors;
        if errors.Some? && |errors.value| > 0 {
          bodyThrown := Some(Throwable(IllegalState, ErrorDetailsPrefix + ListToString(errors.value), None, []));
        }
      }

      // resource release
      var closeThrown := client.Close();
      var propagated: Option<Throwable>;
      if bodyThrown.Some? {
        propagated := if closeThrown.Some? then Some(AddSuppressed(bodyThrown.value, closeThrown.value)) else bodyThrown;
      } else {
        propagated := closeThrown;
      }

      // catch (IOException e)
      if propagated.Some? && propagated.value.kind == IO {
        thrown := Some(Throwable(IllegalState, CloseFailureMessage, propagated, []));
      } else {
        thrown := propagated;
      }
    }
  }
}
