/**
 * The parts of Apple's Foundation framework that the modelled code relies on:
 * `NSError` as a (domain, code) pair, `URLComponents`, `URLQueryItem` and `URL`
 * as records, and the substring test behind `String.contains`.
 *
 * Percent-encoding is not modelled: components are kept and rendered verbatim.
 */
module Foundation {
  import opened Wrappers
  import Decimal

  /** Any Swift `Error` seen through its `NSError` bridging. */
  datatype NSError = NSError(domain: string, code: int)

  /** `NSURLErrorDomain` and the two of its codes the networking layer tells apart. */
  const NSURLErrorDomain: string := "NSURLErrorDomain"
  const NSURLErrorTimedOut: int := -1001
  const NSURLErrorNotConnectedToInternet: int := -1009

  /** `Data`: a byte string. */
  type Data = seq<bv8>

  /** `URLQueryItem`: a name and an optional value (`?a` has no value, `?a=` has ""). */
  datatype QueryItem = QueryItem(name: string, value: Option<string>)

  /** `URLComponents`; nil components are `None`. */
  datatype Components = Components(
    scheme: Option<string>,
    host: Option<string>,
    path: string,
    queryItems: Option<seq<QueryItem>>,
    user: Option<string> := None,
    password: Option<string> := None,
    port: Option<nat> := None,
    fragment: Option<string> := None)
  {
    /** Foundation's authority: any of user, password, host and port. */
    predicate HasAuthority() {
      user.Some? || password.Some? || host.Some? || port.Some?
    }
  }

  /**
   * `URL`, as far as the modelled code reads it. `rawPath` is the path as stored in the
   * components; the `path` property is `Path()` below.
   */
  datatype Url = Url(
    scheme: Option<string>,
    host: Option<string>,
    rawPath: string,
    queryItems: Option<seq<QueryItem>>,
    absoluteString: string)
  {
    /**
     * `URL.path`: Foundation documents that a trailing slash is stripped from it
     * (the root path "/" excepted).
     */
    function Path(): (p: string)
      ensures |rawPath| > 1 && rawPath[|rawPath| - 1] == '/' ==> rawPath == p + "/"
      ensures !(|rawPath| > 1 && rawPath[|rawPath| - 1] == '/') ==> p == rawPath
    {
      if |rawPath| > 1 && rawPath[|rawPath| - 1] == '/' then rawPath[..|rawPath| - 1] else rawPath
    }
  }

  /** `name=value`, or just `name` for an item without a value. */
  function QueryItemString(item: QueryItem): string {
    match item.value
    case Some(v) => item.name + "=" + v
    case None => item.name
  }

  /** The query items joined with `&`. */
  function QueryString(items: seq<QueryItem>): string {
    if |items| == 0 then ""
    else if |items| == 1 then QueryItemString(items[0])
    else QueryItemString(items[0]) + "&" + QueryString(items[1..])
  }

  /** The `user:password@` part of the authority, each part only when present. */
  function UserInfoString(c: Components): string {
    if c.user.None? && c.password.None? then ""
    else c.user.GetOr("") + (if c.password.Some? then ":" + c.password.value else "") + "@"
  }

  /** The authority: `//`, the user information, the host and `:port`, when there is one. */
  function AuthorityString(c: Components): string {
    if !c.HasAuthority() then ""
    else "//" + UserInfoString(c) + c.host.GetOr("")
         + (if c.port.Some? then ":" + Decimal.NatToDecimal(c.port.value) else "")
  }

  /**
   * `URLComponents.string`: `scheme:`, the authority, the path, `?query` and `#fragment`,
   * each part only when present.
   */
  function ComponentsString(c: Components): string {
    (if c.scheme.Some? then c.scheme.value + ":" else "")
    + AuthorityString(c)
    + c.path
    + (if c.queryItems.Some? then "?" + QueryString(c.queryItems.value) else "")
    + (if c.fragment.Some? then "#" + c.fragment.value else "")
  }

  /** Without user information and port, the authority is `//` and the host. */
  lemma HostOnlyAuthority(c: Components, host: string)
    requires c.host == Some(host) && c.user.None? && c.password.None? && c.port.None?
    ensures AuthorityString(c) == "//" + host
  {
    assert UserInfoString(c) == "";
    assert AuthorityString(c) == "//" + "" + host + "";
  }

  /** The string of components with a scheme, a host and a query, in one concatenation. */
  lemma ComponentsStringOfAll(scheme: string, host: string, path: string, items: seq<QueryItem>)
    ensures ComponentsString(Components(Some(scheme), Some(host), path, Some(items)))
      == scheme + "://" + host + path + "?" + QueryString(items)
  {
    var c := Components(Some(scheme), Some(host), path, Some(items));
    var q := QueryString(items);
    HostOnlyAuthority(c, host);
    var a := (scheme + ":") + ("//" + host);
    assert ComponentsString(c) == a + path + ("?" + q) + "";
    SchemeAndAuthority(scheme, host);
    AppendGrouped(a + path, "?", q);
  }

  /** `scheme:` followed by `//host` is `scheme://host`. */
  lemma SchemeAndAuthority(scheme: string, host: string)
    ensures (scheme + ":") + ("//" + host) == scheme + "://" + host
  {
    assert scheme + ":" + "//" == scheme + "://";
  }

  /** Appending a concatenation appends its parts one after the other. */
  lemma AppendGrouped(s: string, t: string, u: string)
    ensures s + (t + u) + "" == s + t + u
  {
  }

  /** True iff `s` begins with the two characters "//". */
  predicate StartsWithDoubleSlash(s: string) {
    |s| >= 2 && s[0] == '/' && s[1] == '/'
  }

  /**
   * `URLComponents.url`. Foundation documents two cases in which it is nil: the components
   * have an authority and a non-empty path that does not begin with "/", or they have no
   * authority and a path beginning with "//".
   */
  function ComponentsUrl(c: Components): (u: Option<Url>)
    ensures u.None? <==>
      (c.HasAuthority() && c.path != "" && c.path[0] != '/') || (!c.HasAuthority() && StartsWithDoubleSlash(c.path))
    ensures u.Some? ==>
      u.value.scheme == c.scheme && u.value.host == c.host && u.value.rawPath == c.path
      && u.value.queryItems == c.queryItems && u.value.absoluteString == ComponentsString(c)
  {
    if c.HasAuthority() && c.path != "" && c.path[0] != '/' then None
    else if !c.HasAuthority() && StartsWithDoubleSlash(c.path) then None
    else Some(Url(c.scheme, c.host, c.path, c.queryItems, ComponentsString(c)))
  }

  /** `String.contains(_:)` for a non-empty needle: `t` occurs in `s` at some offset. */
  predicate HasSubstring(s: string, t: string) {
    exists i :: 0 <= i <= |s| && OccursAt(s, t, i)
  }

  /** `t` occurs in `s` starting at offset `i`. */
  predicate OccursAt(s: string, t: string, i: nat) {
    i + |t| <= |s| && s[i..i + |t|] == t
  }

  /** An occurrence right after a prefix witnesses `HasSubstring`. */
  lemma SubstringAfterPrefix(pre: string, t: string, post: string)
    ensures HasSubstring(pre + t + post, t)
  {
    var s := pre + t + post;
    assert s[|pre|..|pre| + |t|] == t;
    assert OccursAt(s, t, |pre|);
  }

  /** An occurrence right after a prefix and before two more parts, as a URL string is built. */
  lemma SubstringBeforeTwo(pre: string, t: string, a: string, b: string)
    ensures HasSubstring(pre + t + a + b, t)
  {
    var s := pre + t + a + b;
    assert s[|pre|..|pre| + |t|] == t;
    assert OccursAt(s, t, |pre|);
  }
}
