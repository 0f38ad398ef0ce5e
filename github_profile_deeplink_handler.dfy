/**
 * `TxGithubProfileDeeplinkHandler`: accepts a URL by a loose substring test on its absolute
 * string, but navigates only on an exact route path, and for the detail route only when a
 * `loginUsername` query parameter is present.
 */
module GithubProfileDeeplinkHandler {
  import opened Wrappers
  import opened Foundation
  import opened DeeplinkPath
  import opened Navigation
  import UrlExtensions
  import DeeplinkHelper
  import DeeplinkCoordinator

  const LoginUsernameKey: string := "loginUsername"

  /** `canOpenURL`: some route's raw value occurs somewhere in the absolute string. */
  function CanOpenUrl(url: Url): (r: bool)
    ensures r <==> HasSubstring(url.absoluteString, ListPath) || HasSubstring(url.absoluteString, DetailPath)
  {
    assert List in AllCases && RawValue(List) == ListPath;
    assert Detail in AllCases && RawValue(Detail) == DetailPath;
    exists c :: c in AllCases && HasSubstring(url.absoluteString, RawValue(c))
  }

  /** The navigation calls `openURL` makes once a navigation target is registered. */
  function OpenUrlCalls(url: Url): seq<NavigationCall> {
    match FromUrl(url)
    case None => []
    case Some(List) => [ToUserList]
    case Some(Detail) =>
      var params := UrlExtensions.QueryParameters(url);
      if LoginUsernameKey in params then [ToUserDetail(params[LoginUsernameKey])] else []
  }

  /**
   * `openURL`. `navigation` is what `Resolver.optional` finds: null when no navigation
   * target is registered, in which case nothing happens.
   */
  method OpenUrl(navigation: NavigationRecorder?, url: Url)
    modifies navigation
    ensures navigation != null ==> navigation.calls == old(navigation.calls) + OpenUrlCalls(url)
  {
    var validPath := FromUrl(url);
    if navigation == null || validPath.None? {
      return;
    }
    match validPath.value {
      case List =>
        navigation.RouteToUserlist();
      case Detail =>
        var params := UrlExtensions.ParseQueryParameters(url);
        if LoginUsernameKey !in params {
          return;
        }
        navigation.RouteToUserDetail(params[LoginUsernameKey]);
    }
  }

  /** Each `openURL` makes at most one navigation call. */
  lemma AtMostOneCall(url: Url)
    ensures |OpenUrlCalls(url)| <= 1
  {
  }

  /** The list route makes exactly one `routeToUserlist` call, whatever the query. */
  lemma ListRouteCalls(url: Url)
    requires url.Path() == ListPath
    ensures OpenUrlCalls(url) == [ToUserList]
  {
  }

  /** The detail route with `loginUsername=v` (its last occurrence) routes to user `v`. */
  lemma DetailRouteWithLogin(url: Url, i: int, v: string)
    requires url.Path() == DetailPath && url.queryItems.Some?
    requires UrlExtensions.IsLastNamed(url.queryItems.value, i, LoginUsernameKey)
    requires url.queryItems.value[i].value == Some(v)
    ensures OpenUrlCalls(url) == [ToUserDetail(v)]
  {
    UrlExtensions.LastItemWins(url.queryItems.value, LoginUsernameKey, i);
  }

  /** The detail route without any `loginUsername` item makes no navigation call. */
  lemma DetailRouteWithoutLogin(url: Url)
    requires url.Path() == DetailPath
    requires url.queryItems.Some? ==>
      forall i :: 0 <= i < |url.queryItems.value| ==> url.queryItems.value[i].name != LoginUsernameKey
    ensures OpenUrlCalls(url) == []
  {
    if url.queryItems.Some? {
      UrlExtensions.AbsentNameNotKey(url.queryItems.value, LoginUsernameKey);
    }
  }

  /**
   * A URL that `openURL` acts on is also accepted by `canOpenURL`. An incoming URL's string is
   * an input here, not rendered from its parts, so the first requires says what the rendering
   * guarantees for the URLs the app builds (`DeeplinkHelper.DeeplinkContainsRoute`): the path
   * appears in the string. Percent-encoding, which could break that, is not modelled.
   */
  lemma RoutedImpliesAccepted(url: Url)
    requires HasSubstring(url.absoluteString, url.Path())
    requires FromUrl(url).Some?
    ensures CanOpenUrl(url)
  {
  }

  /** `canOpenURL` accepts URLs that `openURL` then ignores: here a longer path. */
  lemma AcceptedButIgnored()
    ensures var url := Url(Some("gitadmin-app"), Some("com.tx"), ListPath + "ing", None,
                           "gitadmin-app://com.tx" + ListPath + "ing");
            CanOpenUrl(url) && OpenUrlCalls(url) == []
  {
    var url := Url(Some("gitadmin-app"), Some("com.tx"), ListPath + "ing", None,
                   "gitadmin-app://com.tx" + ListPath + "ing");
    SubstringAfterPrefix("gitadmin-app://com.tx", ListPath, "ing");
    assert url.Path() == ListPath + "ing";
    assert |url.Path()| != |ListPath| && |url.Path()| != |DetailPath|;
    assert FromUrl(url) == None;
  }

  /** The deep link that the helper builds for the detail route with `loginUsername=v` is accepted and routes to `v`. */
  lemma DetailDeeplinkNavigates(v: string)
    ensures var url := DeeplinkHelper.MakeDeeplink(Detail, [(LoginUsernameKey, Some(v))]).value;
            CanOpenUrl(url) && OpenUrlCalls(url) == [ToUserDetail(v)]
  {
    var params: DeeplinkHelper.Params := [(LoginUsernameKey, Some(v))];
    var url := DeeplinkHelper.MakeDeeplink(Detail, params).value;
    assert params[1..] == [];
    var items := DeeplinkHelper.QueryItemsOf(params);
    assert items == [QueryItem(LoginUsernameKey, Some(v))];
    DeeplinkHelper.DeeplinkContainsRoute(Detail, params);
    assert UrlExtensions.IsLastNamed(items, 0, LoginUsernameKey);
    DetailRouteWithLogin(url, 0, v);
  }

  /** A handler registered with the coordinator: this one, or one of another feature. */
  datatype RegisteredHandler = ProfileHandler | OtherHandler(acceptsAll: bool)

  /** `canOpenURL` of a registered handler; another feature's handler is given by its answer. */
  function Accepts(h: RegisteredHandler, u: Url): bool {
    match h
    case ProfileHandler => CanOpenUrl(u)
    case OtherHandler(acceptsAll) => acceptsAll
  }

  /**
   * End to end: that deep link is dispatched to this handler by a coordinator holding it
   * first, and navigates to the detail screen of `v`.
   */
  lemma DetailDeeplinkEndToEnd(v: string, others: seq<RegisteredHandler>)
    ensures var url := DeeplinkHelper.MakeDeeplink(Detail, [(LoginUsernameKey, Some(v))]).value;
            DeeplinkCoordinator.HandleUrl(
              DeeplinkCoordinator.Coordinator([ProfileHandler] + others), Accepts, url)
              == DeeplinkCoordinator.Dispatch(true, Some(0))
            && OpenUrlCalls(url) == [ToUserDetail(v)]
  {
    var url := DeeplinkHelper.MakeDeeplink(Detail, [(LoginUsernameKey, Some(v))]).value;
    DetailDeeplinkNavigates(v);
    var c := DeeplinkCoordinator.Coordinator([ProfileHandler] + others);
    assert c.handlers[0] == ProfileHandler;
    DeeplinkCoordinator.FirstAcceptingIsOpened(c, Accepts, url, 0);
  }

  /** A detail link without query is accepted but dropped: no navigation call. */
  lemma DetailDeeplinkWithoutQueryDropped()
    ensures var url := DeeplinkHelper.MakeDeeplink(Detail, []).value;
            CanOpenUrl(url) && OpenUrlCalls(url) == []
  {
    var url := DeeplinkHelper.MakeDeeplink(Detail, []).value;
    DeeplinkHelper.DeeplinkContainsRoute(Detail, []);
    DetailRouteWithoutLogin(url);
  }
}
