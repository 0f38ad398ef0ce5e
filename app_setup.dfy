/**
 * The application's network setup: the message shown for an error (`getErrorDetails` on
 * both error types) and the action each button of the error alerts sends back.
 *
 * `getErrorDetails` returns a localized string; here it returns the localization key it
 * looks up, or the error's own message, which is shown verbatim.
 */
module AppSetup {
  import opened Wrappers
  import opened NetworkModels
  import Moya
  import MoyaProviderExt
  import ApiClient

  const AlertTitleKey: string := "main.alert.common.title"
  const NoConnectionKey: string := "main.alert.common.network.no.connection"
  const TimeOutKey: string := "main.alert.common.network.time.out"
  const ErrorMessageKey: string := "main.alert.common.error.message"

  /** The text of an alert's message: a localization key to look up, or a literal text. */
  datatype AlertMessage = Localized(key: string) | Verbatim(text: string)

  /** `NetworkErrorType.getErrorDetails()`. */
  function NetworkErrorDetails(t: NetworkErrorType): (m: AlertMessage)
    ensures m.Localized?
    ensures t == NoNetworkConnection ==> m == Localized(NoConnectionKey)
    ensures t == RequestTimeout ==> m == Localized(TimeOutKey)
    ensures t == NetworkErrorType.Unknown ==> m == Localized(ErrorMessageKey)
  {
    match t
    case NoNetworkConnection => Localized(NoConnectionKey)
    case RequestTimeout => Localized(TimeOutKey)
    case Unknown => Localized(ErrorMessageKey)
  }

  /** `TxResponseError.getErrorDetails()`. */
  function ErrorDetails(e: ResponseError): (m: AlertMessage)
    ensures e.errorType.Network? ==> m == NetworkErrorDetails(e.errorType.sub)
    ensures !e.errorType.Network? && e.message.Some? ==> m == Verbatim(e.message.value)
    ensures !e.errorType.Network? && e.message.None? ==> m == Localized(ErrorMessageKey)
  {
    match e.errorType
    case Network(t) => NetworkErrorDetails(t)
    case _ =>
      match e.message
      case None => Localized(ErrorMessageKey)
      case Some(message) => Verbatim(message)
  }

  /** The two buttons of an error alert. */
  datatype AlertButton = RetryButton | CloseButton

  /** The action each button sends, in both installed alert handlers. */
  function ButtonAction(b: AlertButton): (a: AlertActionNetworkError)
    ensures a == Retry <==> b == RetryButton
  {
    match b
    case RetryButton => Retry
    case CloseButton => Cancel
  }

  /** An alert as shown: a title key and a message. */
  datatype Alert = Alert(titleKey: string, message: AlertMessage)

  /** The alert the installed `alertErrorNetworkConnection` shows. */
  function ConnectionAlert(t: NetworkErrorType): Alert {
    Alert(AlertTitleKey, NetworkErrorDetails(t))
  }

  /** The alert the installed `alertErrorNetworkCommon` shows. */
  function CommonAlert(e: ResponseError): Alert {
    Alert(AlertTitleKey, ErrorDetails(e))
  }

  /** The three network kinds have three different messages. */
  lemma NetworkMessagesDistinct(t1: NetworkErrorType, t2: NetworkErrorType)
    ensures NetworkErrorDetails(t1) == NetworkErrorDetails(t2) ==> t1 == t2
  {
  }

  /**
   * The message of a network error does not depend on its message field: the connection
   * alert and the common alert would say the same for it.
   */
  lemma NetworkErrorIgnoresMessage(e: ResponseError)
    requires e.errorType.Network?
    ensures CommonAlert(e) == ConnectionAlert(e.errorType.sub)
  {
  }

  /**
   * A transport failure that is neither a status code nor an underlying error becomes a
   * server error with the empty message, so its alert shows an empty text rather than the
   * generic message.
   */
  lemma OtherTransportFailureShowsEmptyText(description: string)
    ensures ErrorDetails(MoyaProviderExt.ClassifyFailure(Moya.OtherMoyaError(description))) == Verbatim("")
  {
  }

  /** An error response without a string `message` field shows the generic message. */
  lemma ServerErrorWithoutMessage(response: Moya.Response)
    requires Moya.StringField(response.json, "message").None?
    ensures ErrorDetails(MoyaProviderExt.MakeResponseError(response)) == Localized(ErrorMessageKey)
  {
  }

  /**
   * End to end through the API client: a failed action with a timeout shows the time-out
   * message, and with the connection alert handler installed, the button pressed reaches
   * `onAlertNetworkAction` as its action.
   */
  lemma TimeoutAlertRoundTrip<R, E>(h: ApiClient.Handlers, e: ResponseError, b: AlertButton)
    requires e.errorType == Network(RequestTimeout) && h.connection.Installed?
    ensures var t := ApiClient.RequestTrace<R, E>(h, Failure(ResponseFailure(e)), Some(ButtonAction(b)));
            t[3].ConnectionAlert? && ConnectionAlert(t[3].kind).message == Localized(TimeOutKey)
            && t[4] == ApiClient.AlertAction(h.onAction, ButtonAction(b), e)
  {
    ApiClient.ChoiceForwarded<R, E>(h, e, ButtonAction(b));
  }
}
