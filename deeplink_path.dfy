/** `TxDeeplinkPath.GithubProfile`: the two deep-link routes of the GitHub-profile feature. */
module DeeplinkPath {
  import opened Wrappers
  import opened Foundation

  datatype GithubProfile = List | Detail

  const ListPath: string := "/githubProfile/list"
  const DetailPath: string := "/githubProfile/detail"

  /** The enum's `String` raw values. */
  function RawValue(c: GithubProfile): string {
    match c
    case List => ListPath
    case Detail => DetailPath
  }

  /** `allCases`, declared explicitly in the source. */
  const AllCases: seq<GithubProfile> := [List, Detail]

  /** The synthesised `init?(rawValue:)` of a `String`-backed enum. */
  function FromRawValue(s: string): (r: Option<GithubProfile>)
    ensures r.Some? <==> exists c :: c in AllCases && RawValue(c) == s
    ensures r.Some? ==> RawValue(r.value) == s
  {
    if s == ListPath then assert List in AllCases && RawValue(List) == s; Some(List)
    else if s == DetailPath then assert Detail in AllCases && RawValue(Detail) == s; Some(Detail)
    else None
  }

  /**
   * `init?(url:)`: compares `url.path` with the list path, then with the detail path, by
   * plain string equality.
   */
  function FromUrl(url: Url): (r: Option<GithubProfile>)
    ensures r == Some(List) <==> url.Path() == ListPath
    ensures r == Some(Detail) <==> url.Path() == DetailPath
    ensures r == None <==> url.Path() != ListPath && url.Path() != DetailPath
  {
    var path := url.Path();
    if path == ListPath then Some(List)
    else if path == DetailPath then Some(Detail)
    else None
  }

  /** Parsing a URL is parsing its path as a raw value. */
  lemma FromUrlIsFromRawValue(url: Url)
    ensures FromUrl(url) == FromRawValue(url.Path())
  {
  }

  /** Round trip: a URL whose path is a case's raw value parses back to that case. */
  lemma FromUrlRoundTrip(c: GithubProfile, url: Url)
    requires url.Path() == RawValue(c)
    ensures FromUrl(url) == Some(c)
  {
  }

  /** Scheme, host, query and absolute string play no part: only the path is read. */
  lemma FromUrlReadsOnlyPath(u1: Url, u2: Url)
    requires u1.Path() == u2.Path()
    ensures FromUrl(u1) == FromUrl(u2)
  {
  }

  /** `allCases` lists each case exactly once, and the raw values are distinct. */
  lemma AllCasesExact(a: GithubProfile, b: GithubProfile)
    ensures a in AllCases
    ensures |AllCases| == 2 && AllCases[0] != AllCases[1]
    ensures RawValue(a) == RawValue(b) ==> a == b
  {
    if a != b {
      assert RawValue(a)[15] != RawValue(b)[15];
    }
  }

  /**
   * Matching is exact: no case folding and no prefix match. A single trailing slash is
   * absorbed, not by the matching, but by `URL.path`, which strips it.
   */
  lemma ExactMatchExamples(scheme: Option<string>, host: Option<string>, q: Option<seq<QueryItem>>, abs: string)
    ensures FromUrl(Url(scheme, host, "/githubProfile/List", q, abs)) == None
    ensures FromUrl(Url(scheme, host, "/githubProfile/list/extra", q, abs)) == None
    ensures FromUrl(Url(scheme, host, "/invalid/path", q, abs)) == None
    ensures FromUrl(Url(scheme, host, "/githubProfile/list/", q, abs)) == Some(List)
  {
    assert "/githubProfile/List"[15] != ListPath[15];
    assert |"/githubProfile/list/extra"| != |ListPath| && |"/githubProfile/list/extra"| != |DetailPath|;
    assert "/invalid/path"[1] != ListPath[1] && |"/invalid/path"| != |DetailPath|;
    assert "/githubProfile/list/"[..|"/githubProfile/list/"| - 1] == ListPath;
  }
}
