/**
 * `TxDeeplinkHelper`: builds the application's deep-link URLs, `gitadmin-app://com.tx/<path>`,
 * with their query items.
 */
module DeeplinkHelper {
  import opened Wrappers
  import opened Foundation
  import DeeplinkPath
  import Decimal

  const AppSchema: string := "gitadmin-app"
  const AppHost: string := "com.tx"

  /**
   * The `[String: Any?]` parameters, in the dictionary's iteration order, each value already
   * rendered by string interpolation (or nil).
   */
  type Params = seq<(string, Option<string>)>

  /** The `compactMap`: nil values are dropped, every other pair becomes one query item. */
  function QueryItemsOf(params: Params): (items: seq<QueryItem>)
    ensures |items| <= |params|
    ensures forall it :: it in items ==> it.value.Some? && (it.name, it.value) in params
    ensures forall p :: p in params && p.1.Some? ==> QueryItem(p.0, p.1) in items
  {
    if |params| == 0 then []
    else
      var rest := QueryItemsOf(params[1..]);
      assert forall p :: p in params[1..] ==> p in params;
      match params[0].1
      case None => rest
      case Some(v) => [QueryItem(params[0].0, Some(v))] + rest
  }

  /** `path.starts(with: "/") ? path : "/\(path)"`. */
  function LeadingSlashPath(path: string): (p: string)
    ensures |p| > 0 && p[0] == '/'
    ensures p == path <==> |path| > 0 && path[0] == '/'
    ensures p != path ==> p == "/" + path
  {
    if |path| > 0 && path[0] == '/' then path else "/" + path
  }

  /** `makeUrl(path:params:)`. */
  function MakeUrl(path: string, params: Params): (r: Option<Url>)
    ensures r.Some?
    ensures r.value.scheme == Some(AppSchema) && r.value.host == Some(AppHost)
    ensures |path| > 0 && path[0] == '/' ==> r.value.rawPath == path
    ensures !(|path| > 0 && path[0] == '/') ==> r.value.rawPath == "/" + path
    ensures r.value.queryItems == Some(QueryItemsOf(params))
    ensures r.value.absoluteString
      == AppSchema + "://" + AppHost + r.value.rawPath + "?" + QueryString(QueryItemsOf(params))
  {
    var items := QueryItemsOf(params);
    ComponentsStringOfAll(AppSchema, AppHost, LeadingSlashPath(path), items);
    ComponentsUrl(Components(Some(AppSchema), Some(AppHost), LeadingSlashPath(path), Some(items)))
  }

  /**
   * `makeUrl(from:)`. Parsing the string (`URLComponents(string:)`, Foundation's URL parser)
   * is not modelled: its outcome is the input `parsed`, nil when the string is not a URL.
   */
  function MakeUrlFrom(parsed: Option<Components>): (r: Option<Url>)
    ensures r.Some? <==> parsed.Some? && (parsed.value.path == "" || parsed.value.path[0] == '/')
    ensures r.Some? ==>
      r.value.scheme == Some(AppSchema) && r.value.host == Some(AppHost)
      && r.value.rawPath == parsed.value.path && r.value.queryItems == parsed.value.queryItems
    ensures r.Some? ==>
      r.value.absoluteString == ComponentsString(parsed.value.(scheme := Some(AppSchema), host := Some(AppHost)))
  {
    match parsed
    case None => None
    case Some(c) => ComponentsUrl(c.(host := Some(AppHost), scheme := Some(AppSchema)))
  }

  /** `makeDeeplink(type:params:)` for a route of the GitHub-profile feature. */
  function MakeDeeplink(route: DeeplinkPath.GithubProfile, params: Params): (r: Option<Url>)
    ensures r.Some? && DeeplinkPath.FromUrl(r.value) == Some(route)
    ensures r.value.queryItems == Some(QueryItemsOf(params))
  {
    MakeUrl(DeeplinkPath.RawValue(route), params)
  }

  /** A deep link's absolute string contains its route's raw value. */
  lemma DeeplinkContainsRoute(route: DeeplinkPath.GithubProfile, params: Params)
    ensures HasSubstring(MakeDeeplink(route, params).value.absoluteString, DeeplinkPath.RawValue(route))
  {
    var path := DeeplinkPath.RawValue(route);
    assert path[0] == '/';
    SubstringBeforeTwo(AppSchema + "://" + AppHost, path, "?", QueryString(QueryItemsOf(params)));
  }

  /** `makeDeeplink` is `makeUrl` applied to the route's raw value. */
  lemma MakeDeeplinkIsMakeUrl(route: DeeplinkPath.GithubProfile, params: Params)
    ensures MakeDeeplink(route, params) == MakeUrl(DeeplinkPath.RawValue(route), params)
  {
  }

  /** Distinct parameter names give distinct query-item names: one item per non-nil parameter. */
  lemma {:induction false} QueryItemNamesDistinct(params: Params)
    requires forall i, j :: 0 <= i < j < |params| ==> params[i].0 != params[j].0
    ensures forall i, j :: 0 <= i < j < |QueryItemsOf(params)| ==>
      QueryItemsOf(params)[i].name != QueryItemsOf(params)[j].name
  {
    if |params| > 0 {
      var tail := params[1..];
      QueryItemNamesDistinct(tail);
      var rest := QueryItemsOf(tail);
      forall it | it in rest ensures it.name != params[0].0 {
        var k :| 0 <= k < |tail| && tail[k] == (it.name, it.value);
        assert params[k + 1] == tail[k];
      }
    }
  }

  /** The helper's own example: a nil parameter is dropped from the query. */
  lemma MakeUrlExample()
    ensures MakeUrl("/test", [("key1", Some("value1")), ("key2", None)]).value.rawPath == "/test"
    ensures MakeUrl("/test", [("key1", Some("value1")), ("key2", None)]).value.queryItems
      == Some([QueryItem("key1", Some("value1"))])
  {
    var ps: Params := [("key1", Some("value1")), ("key2", None)];
    assert ps[1..] == [("key2", None)];
    assert ps[1..][1..] == [];
    assert QueryItemsOf(ps[1..]) == [];
    assert QueryItemsOf(ps) == [QueryItem("key1", Some("value1"))];
    assert MakeUrl("/test", ps).value.queryItems == Some([QueryItem("key1", Some("value1"))]);
  }

  /** A path without its slash gets one, and no parameters leave an empty query. */
  lemma MakeUrlSlashExample()
    ensures MakeUrl("test", []).value.absoluteString == "gitadmin-app://com.tx/test?"
  {
    assert QueryItemsOf([]) == [];
  }

  /** `makeUrl(from:)` keeps the path and query and replaces scheme and host. */
  lemma MakeUrlFromExample()
    ensures MakeUrlFrom(Some(Components(Some("https"), Some("example.com"), "/test", None))).value.absoluteString
      == "gitadmin-app://com.tx/test"
    ensures MakeUrlFrom(Some(Components(Some("mailto"), None, "someone", None))) == None
  {
  }

  /**
   * Port and fragment are kept too: components with a port `p`, a fragment `f` and no query
   * become `gitadmin-app://com.tx:<p><path>#<f>`, whatever their scheme and host.
   */
  lemma MakeUrlFromKeepsPortAndFragment(parsed: Components, p: nat, f: string)
    requires parsed.path == "" || parsed.path[0] == '/'
    requires parsed.queryItems.None? && parsed.user.None? && parsed.password.None?
    requires parsed.port == Some(p) && parsed.fragment == Some(f)
    ensures MakeUrlFrom(Some(parsed)).value.absoluteString
      == AppSchema + "://" + AppHost + ":" + Decimal.NatToDecimal(p) + parsed.path + "#" + f
  {
    var c := parsed.(scheme := Some(AppSchema), host := Some(AppHost));
    var n := Decimal.NatToDecimal(p);
    var host := AppHost + (":" + n);
    assert UserInfoString(c) == "";
    assert AuthorityString(c) == "//" + host;
    assert ComponentsString(c) == (AppSchema + ":") + ("//" + host) + c.path + "" + ("#" + f);
    SchemeAndAuthority(AppSchema, host);
  }
}
