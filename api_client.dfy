/**
 * `TxApiClient`: runs an async action between `loading(true)` and `loading(false)` and turns
 * a thrown `TxResponseError` into an alert, while any other error is rethrown.
 *
 * The closures are identified by `Handler` values and every call the client makes is an
 * `Event` of the returned trace. The action is given by its outcome, and the button the
 * user presses in an alert by `choice`. Only an installed alert handler calls the callback
 * that forwards it to `onAlertNetworkAction`: the default `{ _, _ in }` ignores it.
 */
module ApiClient {
  import opened Wrappers
  import opened NetworkModels

  /** A handler closure. The defaults, `{ _ in }` and `{ _, _ in }`, are `NoOp`. */
  datatype Handler = NoOp | Installed(name: string)

  /** The handlers one `performRequest` call uses. */
  datatype Handlers = Handlers(loading: Handler, connection: Handler, common: Handler, onAction: Handler)

  /** One call made during `performRequest`. */
  datatype Event =
    | Loading(handler: Handler, isLoading: bool)
    | RunAction
    | ConnectionAlert(handler: Handler, kind: NetworkErrorType)
    | CommonAlert(handler: Handler, error: ResponseError)
    | AlertAction(handler: Handler, action: AlertActionNetworkError, error: ResponseError)

  /** How `performRequest` ends: it returns an optional result or rethrows. */
  datatype Outcome<R, E> = Returned(value: Option<R>) | Rethrown(error: E)

  /** The alert handler a `TxResponseError` goes to: the connection one for `.network`, else the common one. */
  function AlertHandler(h: Handlers, e: ResponseError): Handler {
    if e.errorType.Network? then h.connection else h.common
  }

  /** The calls `performRequest` makes, in order. */
  function RequestTrace<R, E>(h: Handlers, action: Result<R, Thrown<E>>, choice: Option<AlertActionNetworkError>)
    : seq<Event>
  {
    [Loading(h.loading, true), RunAction, Loading(h.loading, false)]
    + match action
      case Success(_) => []
      case Failure(OtherFailure(_)) => []
      case Failure(ResponseFailure(e)) =>
        (if e.errorType.Network? then [ConnectionAlert(h.connection, e.errorType.sub)] else [CommonAlert(h.common, e)])
        + (if choice.Some? && AlertHandler(h, e).Installed? then [AlertAction(h.onAction, choice.value, e)] else [])
  }

  /** What `performRequest` returns or throws. */
  function RequestOutcome<R, E>(action: Result<R, Thrown<E>>): Outcome<R, E> {
    match action
    case Success(v) => Returned(Some(v))
    case Failure(ResponseFailure(_)) => Returned(None)
    case Failure(OtherFailure(other)) => Rethrown(other)
  }

  class TxApiClient {
    var onLoading: Handler
    var alertErrorNetworkConnection: Handler
    var alertErrorNetworkCommon: Handler
    var onAlertNetworkAction: Handler

    constructor ()
      ensures onLoading == NoOp && alertErrorNetworkConnection == NoOp
      ensures alertErrorNetworkCommon == NoOp && onAlertNetworkAction == NoOp
    {
      onLoading := NoOp;
      alertErrorNetworkConnection := NoOp;
      alertErrorNetworkCommon := NoOp;
      onAlertNetworkAction := NoOp;
    }

    /** The handlers a call uses: each argument given overrides the stored one. */
    function Effective(loading: Option<Handler>, connection: Option<Handler>,
                       common: Option<Handler>, onAction: Option<Handler>): (h: Handlers)
      reads this
      ensures h.loading == (if loading.Some? then loading.value else onLoading)
      ensures h.connection == (if connection.Some? then connection.value else alertErrorNetworkConnection)
      ensures h.common == (if common.Some? then common.value else alertErrorNetworkCommon)
      ensures h.onAction == (if onAction.Some? then onAction.value else onAlertNetworkAction)
    {
      Handlers(loading.GetOr(onLoading), connection.GetOr(alertErrorNetworkConnection),
               common.GetOr(alertErrorNetworkCommon), onAction.GetOr(onAlertNetworkAction))
    }

    /** `performRequest(action:loading:alertErrorNetworkConnection:alertErrorNetworkCommon:onAlertNetworkAction:)`. */
    method PerformRequest<R, E>(action: Result<R, Thrown<E>>, loading: Option<Handler>,
                                connection: Option<Handler>, common: Option<Handler>,
                                onAction: Option<Handler>, choice: Option<AlertActionNetworkError>)
      returns (trace: seq<Event>, outcome: Outcome<R, E>)
      ensures trace == RequestTrace(Effective(loading, connection, common, onAction), action, choice)
      ensures outcome == RequestOutcome(action)
    {
      var h := Effective(loading, connection, common, onAction);
      trace := [Loading(h.loading, true), RunAction];
      match action {
        case Success(v) =>
          trace := trace + [Loading(h.loading, false)];
          outcome := Returned(Some(v));
        case Failure(ResponseFailure(e)) =>
          trace := trace + [Loading(h.loading, false)];
          if e.errorType.Network? {
            trace := trace + [ConnectionAlert(h.connection, e.errorType.sub)];
          } else {
            trace := trace + [CommonAlert(h.common, e)];
          }
          var alert := if e.errorType.Network? then h.connection else h.common;
          if choice.Some? && alert.Installed? {
            trace := trace + [AlertAction(h.onAction, choice.value, e)];
          }
          outcome := Returned(None);
        case Failure(OtherFailure(other)) =>
          trace := trace + [Loading(h.loading, false)];
          outcome := Rethrown(other);
      }
    }
  }

  /** The loading states reported along a trace, in order. */
  function LoadingStates(trace: seq<Event>): seq<bool> {
    if |trace| == 0 then []
    else (if trace[0].Loading? then [trace[0].isLoading] else []) + LoadingStates(trace[1..])
  }

  lemma {:induction false} LoadingStatesAppend(a: seq<Event>, b: seq<Event>)
    ensures LoadingStates(a + b) == LoadingStates(a) + LoadingStates(b)
  {
    if |a| == 0 {
      assert a + b == b;
    } else {
      assert (a + b)[0] == a[0] && (a + b)[1..] == a[1..] + b;
      LoadingStatesAppend(a[1..], b);
      var first := if a[0].Loading? then [a[0].isLoading] else [];
      assert LoadingStates(a + b) == first + LoadingStates(a[1..] + b);
      assert LoadingStates(a) == first + LoadingStates(a[1..]);
    }
  }

  /** Whether no event of the trace is an alert. */
  predicate NoAlert(trace: seq<Event>) {
    forall i :: 0 <= i < |trace| ==> !trace[i].ConnectionAlert? && !trace[i].CommonAlert?
  }

  lemma {:induction false} NoLoadingStates(trace: seq<Event>)
    requires forall i :: 0 <= i < |trace| ==> !trace[i].Loading?
    ensures LoadingStates(trace) == []
  {
    if |trace| > 0 {
      NoLoadingStates(trace[1..]);
    }
  }

  /**
   * Every call reports loading `true` and then `false`, exactly once each, with the same
   * handler, whatever the action's outcome.
   */
  lemma LoadingBracketed<R, E>(h: Handlers, action: Result<R, Thrown<E>>, choice: Option<AlertActionNetworkError>)
    ensures var t := RequestTrace(h, action, choice);
            LoadingStates(t) == [true, false]
            && t[0] == Loading(h.loading, true) && t[1] == RunAction && t[2] == Loading(h.loading, false)
  {
    var t := RequestTrace(h, action, choice);
    var head: seq<Event> := [Loading(h.loading, true), RunAction, Loading(h.loading, false)];
    var tail := t[3..];
    assert t == head + tail;
    LoadingStatesAppend(head, tail);
    assert head[1..][1..][1..] == [];
    assert LoadingStates(head[1..][1..]) == [false];
    assert LoadingStates(head[1..]) == [false];
    NoLoadingStates(tail);
  }

  /** A successful action: loading brackets it and its value is returned; nothing else happens. */
  lemma SuccessTrace<R, E>(h: Handlers, v: R, choice: Option<AlertActionNetworkError>)
    ensures RequestTrace<R, E>(h, Success(v), choice) == [Loading(h.loading, true), RunAction, Loading(h.loading, false)]
    ensures RequestOutcome<R, E>(Success(v)) == Returned(Some(v))
  {
  }

  /** A network `TxResponseError` raises the connection alert with its kind, never the common one. */
  lemma NetworkErrorAlertsConnection<R, E>(h: Handlers, e: ResponseError, choice: Option<AlertActionNetworkError>)
    requires e.errorType.Network?
    ensures var t := RequestTrace<R, E>(h, Failure(ResponseFailure(e)), choice);
            t[3] == ConnectionAlert(h.connection, e.errorType.sub)
            && forall i :: 0 <= i < |t| ==> !t[i].CommonAlert?
    ensures RequestOutcome<R, E>(Failure(ResponseFailure(e))) == Returned(None)
  {
  }

  /** Any other `TxResponseError` raises the common alert with the error, never the connection one. */
  lemma OtherResponseErrorAlertsCommon<R, E>(h: Handlers, e: ResponseError, choice: Option<AlertActionNetworkError>)
    requires !e.errorType.Network?
    ensures var t := RequestTrace<R, E>(h, Failure(ResponseFailure(e)), choice);
            t[3] == CommonAlert(h.common, e)
            && forall i :: 0 <= i < |t| ==> !t[i].ConnectionAlert?
    ensures RequestOutcome<R, E>(Failure(ResponseFailure(e))) == Returned(None)
  {
  }

  /**
   * The user's choice in an alert shown by an installed handler goes to
   * `onAlertNetworkAction` with the same error, last.
   */
  lemma ChoiceForwarded<R, E>(h: Handlers, e: ResponseError, a: AlertActionNetworkError)
    requires AlertHandler(h, e).Installed?
    ensures var t := RequestTrace<R, E>(h, Failure(ResponseFailure(e)), Some(a));
            |t| == 5 && t[4] == AlertAction(h.onAction, a, e)
  {
  }

  /** A default alert handler never calls back, so no choice reaches `onAlertNetworkAction`. */
  lemma NoOpAlertNeverForwards<R, E>(h: Handlers, e: ResponseError, choice: Option<AlertActionNetworkError>)
    requires AlertHandler(h, e) == NoOp
    ensures var t := RequestTrace<R, E>(h, Failure(ResponseFailure(e)), choice);
            |t| == 4 && forall i :: 0 <= i < |t| ==> !t[i].AlertAction?
  {
  }

  /** Any other error raises no alert and is rethrown unchanged. */
  lemma OtherErrorRethrown<R, E>(h: Handlers, err: E, choice: Option<AlertActionNetworkError>)
    ensures NoAlert(RequestTrace<R, E>(h, Failure(OtherFailure(err)), choice))
    ensures RequestOutcome<R, E>(Failure(OtherFailure(err))) == Rethrown(err)
  {
  }

  /**
   * A client left at its defaults, called without handler arguments, shows alerts through
   * the no-op handlers and so never forwards an action, whatever the user would choose.
   */
  method DefaultClientNeverForwards<R, E>(action: Result<R, Thrown<E>>, choice: Option<AlertActionNetworkError>)
    returns (trace: seq<Event>)
    ensures |trace| <= 4
    ensures forall i :: 0 <= i < |trace| ==> !trace[i].AlertAction?
  {
    var client := new TxApiClient();
    var outcome;
    trace, outcome := client.PerformRequest(action, None, None, None, None, choice);
  }
}
