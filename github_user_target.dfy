/**
 * `TxGithubUserTargetBuilder`: the Moya target of each GitHub-user operation, described by
 * its computed properties.
 */
module GithubUserTarget {
  import opened Wrappers
  import opened Foundation

  datatype OperationType = GetUsers(since: int, pageSize: int) | GetUserDetail(loginUsername: string)

  /** `Moya.Method`, the HTTP verbs. */
  datatype HttpMethod = Get | Post | Put | Patch | Delete

  /** `URLEncoding(destination: .queryString, arrayEncoding: .noBrackets)` and the others. */
  datatype ParameterEncoding = QueryStringNoBrackets | OtherEncoding

  /** `Moya.Task`, as far as the builder uses it. */
  datatype HttpTask =
    | RequestPlain
    | RequestParameters(parameters: map<string, int>, encoding: ParameterEncoding)

  /** `AuthorizationType`. */
  datatype AuthorizationType = Basic | Bearer | CustomAuthorization(scheme: string)

  /** `ValidationType`. */
  datatype ValidationType = NoValidation | SuccessCodes | SuccessAndRedirectCodes | CustomCodes(codes: seq<int>)

  datatype TargetBuilder = TargetBuilder(operation: OperationType, baseUrl: Url)
  {
    function Path(): (p: string)
      ensures operation.GetUsers? ==> p == "/users"
      ensures operation.GetUserDetail? ==> p == "/users/" + operation.loginUsername
    {
      match operation
      case GetUsers(_, _) => "/users"
      case GetUserDetail(login) => "/users/" + login
    }

    function Method(): (m: HttpMethod)
      ensures m == Get
    {
      match operation
      case GetUsers(_, _) => Get
      case GetUserDetail(_) => Get
    }

    function Task(): (t: HttpTask)
      ensures operation.GetUsers? ==>
        t == RequestParameters(map["per_page" := operation.pageSize, "since" := operation.since], QueryStringNoBrackets)
      ensures operation.GetUserDetail? ==> t == RequestPlain
    {
      match operation
      case GetUsers(since, pageSize) =>
        RequestParameters(map["per_page" := pageSize, "since" := since], QueryStringNoBrackets)
      case GetUserDetail(_) => RequestPlain
    }

    function Validation(): (v: ValidationType)
      ensures v == NoValidation
    {
      NoValidation
    }

    function Headers(): (h: Option<map<string, string>>)
      ensures h == Some(map["Content-Type" := "application/json"])
    {
      Some(map["Content-Type" := "application/json"])
    }

    function Authorization(): (a: Option<AuthorizationType>)
      ensures a == Some(Bearer)
    {
      Some(Bearer)
    }
  }

  /** The list request sends exactly `per_page` and `since`, with the given values. */
  lemma GetUsersParameters(since: int, pageSize: int, baseUrl: Url)
    ensures var t := TargetBuilder(GetUsers(since, pageSize), baseUrl).Task();
            t.RequestParameters? && t.parameters.Keys == {"per_page", "since"}
            && t.parameters["per_page"] == pageSize && t.parameters["since"] == since
  {
  }

  /** Distinct operations have distinct paths, except list requests, which share theirs. */
  lemma PathsDistinguishUsers(a: TargetBuilder, b: TargetBuilder)
    requires a.Path() == b.Path()
    ensures a.operation.GetUsers? <==> b.operation.GetUsers?
    ensures a.operation.GetUserDetail? ==> a.operation.loginUsername == b.operation.loginUsername
  {
    if a.operation.GetUserDetail? && b.operation.GetUserDetail? {
      var p := "/users/";
      assert a.Path()[|p|..] == a.operation.loginUsername;
      assert b.Path()[|p|..] == b.operation.loginUsername;
    }
  }

  /** The path for a user example: `getUserDetail("mojombo")` asks for `/users/mojombo`. */
  lemma DetailPathExample(baseUrl: Url)
    ensures TargetBuilder(GetUserDetail("mojombo"), baseUrl).Path() == "/users/mojombo"
    ensures TargetBuilder(GetUserDetail("mojombo"), baseUrl).baseUrl == baseUrl
  {
  }
}
