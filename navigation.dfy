/**
 * `TxGithubProfileNavigation`, the navigation capability the feature calls. The app's
 * coordinator implements it with screen transitions; here an implementation records the
 * calls it receives, in order.
 */
module Navigation {

  /** One call received through the navigation protocol. */
  datatype NavigationCall =
    | ToUserList
    | ToUserDetail(loginUsername: string)
    | Back

  class NavigationRecorder {
    var calls: seq<NavigationCall>

    constructor ()
      ensures calls == []
    {
      calls := [];
    }

    /** `routeToUserlist()`. */
    method RouteToUserlist()
      modifies this
      ensures calls == old(calls) + [ToUserList]
    {
      calls := calls + [ToUserList];
    }

    /** `routeToUserDetail(loginUsername:)`. */
    method RouteToUserDetail(loginUsername: string)
      modifies this
      ensures calls == old(calls) + [ToUserDetail(loginUsername)]
    {
      calls := calls + [ToUserDetail(loginUsername)];
    }

    /** `goBack()`. */
    method GoBack()
      modifies this
      ensures calls == old(calls) + [Back]
    {
      calls := calls + [Back];
    }
  }
}
