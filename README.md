# TxGitAdmin core, modelled in Dafny

The model covers the parts of the TxGitAdmin iOS application that make decisions:

- **Deep links.** The coordinator dispatches a URL to the first handler that accepts it.
  The GitHub-profile routes are `/githubProfile/list` and `/githubProfile/detail`. The
  profile handler accepts a URL by a substring test and then navigates. The helper builds
  `gitadmin-app://com.tx/...` links, and `URL.parseQueryParameters` folds query items into
  a dictionary.
- **Networking.** The model covers the `TxResponseError` record, and how
  `MoyaProvider.performRequest` classifies a response, a status-code failure or an
  underlying `NSError` (`NSURLErrorDomain`, `sessionTaskFailed` unwrapping).
  `makeResponseError` reads `key`/`message` from an error body.
- **API client.** `TxApiClient.performRequest` appears as the trace of handler calls it
  makes: loading on/off, the connection or common alert, and the alert action, which reaches
  `onAlertNetworkAction` only from an installed alert handler (the defaults never call back).
  It also gives what the call returns or rethrows.
- **The GitHub target.** Path, method, task, headers, authorization and validation.
- **The GitHub-profile feature.** The DTO parser and the UI mappers, with the "100+" and
  "10+" count caps and Swift's decimal rendering of `Int`. Also the in-memory repository,
  and the list and detail view models.
- **Application setup.** The message shown for each error, as a localization key or a
  verbatim text, and the retry/close buttons of the alerts.
- **`Color(hex:)`.** Trimming, `Scanner.scanHexInt64`, and the integer ARGB components for
  3, 6 and 8 digits.
- **`L10n`.** The persisted language, its restoration at start-up, and `locale()`.

One Dafny module models each Swift source file, and the file names follow the Swift
ones. `wrappers.dfy` (Option, Result) and `foundation.dfy` (`NSError`, `URLComponents`,
`URLQueryItem`, `URL`, `String.contains`) are shared.

Classes that the app mutates are Dafny classes:

- the navigation target, as a recorder of the calls it receives;
- `TxApiClient`;
- the two view models;
- `UserDefaults` and `L10n`.

Each view model's transitions are also pure functions on a `Snapshot` of all its fields.
Its methods are proved to move the fields exactly as those functions say. The invariants
and multi-step properties are lemmas about the functions.

A view-model load is two steps:

- The call runs the guard, sets `isLoading`, and schedules the task. The method returns the
  request the task will send.
- The completion of the scheduled task takes the fetch's outcome.

Closures are values: handlers are named `Handler`s. A handler's `canOpenURL` is a function
parameter. The action of `performRequest` is given by its outcome, and the user's answer
to an alert is an input.

Where the shown code and its surrounding description differ, the model follows the code:

- The view models are modelled as written: the list asks for page numbers, and the detail
  model holds the `userId` given at construction. The tests describe a later variant, with
  `lastestUserId`, `loginUsername` and alert routing, which is not modelled.
- `gotoDetail(userId:)` calls `routeToUserDetail(userId:)`, which the navigation protocol
  does not declare. The protocol declares `routeToUserDetail(loginUsername:)`, and the
  model sends the user id through that one call.
- The parser produces `Int` identifiers, while the repository and the view models use
  `String` identifiers. The domain and UI models are generic in the identifier type.
- `TxResponseError.otherError` is any `Error`. The networking layer only ever stores the
  `MoyaError` that caused the error, and that is its type here.

## Model

| member | source | states |
|---|---|---|
| DeeplinkCoordinator.FirstAccepting | Packages/TxDeeplink/Sources/TxDeeplink/TxDeeplinkCoordinator.swift:52 | `first(where:)`: the index found accepts the URL and every earlier handler rejects it; none found means every handler rejects it |
| DeeplinkCoordinator.HandleUrl | Packages/TxDeeplink/Sources/TxDeeplink/TxDeeplinkCoordinator.swift:51-58 | returns true iff a handler is opened; the opened one is the first accepting handler; when none accepts, false and nothing is opened |
| DeeplinkCoordinator.CanOpenUrl | Packages/TxDeeplink/Sources/TxDeeplink/TxDeeplinkCoordinator.swift:64-66 | true iff some handler accepts the URL |
| DeeplinkCoordinator.HandleAgreesWithCanOpen | Packages/TxDeeplink/Sources/TxDeeplink/TxDeeplinkCoordinator.swift:51-66 | `handleURL`'s result always equals `canOpenURL`'s |
| DeeplinkCoordinator.FirstAcceptingIsOpened | Packages/TxDeeplink/Sources/TxDeeplink/TxDeeplinkCoordinator.swift:52-57 | if handler i accepts and all before it reject, handler i is the one opened, whatever later handlers say |
| DeeplinkCoordinator.AlwaysAcceptingHandlerOpened | Packages/TxDeeplink/Sources/TxDeeplink/TxDeeplinkCoordinator.swift:42-57 | a coordinator holding one always-accepting handler handles every URL with that handler |
| DeeplinkPath.FromRawValue | Packages/TxDeeplink/Sources/TxDeeplink/TxDeeplinkPath+GithubProfile.swift:15-20 | `init?(rawValue:)` succeeds iff the string is some case's raw value, and then returns that case |
| DeeplinkPath.FromUrl | Packages/TxDeeplink/Sources/TxDeeplink/TxDeeplinkPath+GithubProfile.swift:31-42 | `.list` iff `url.path` equals "/githubProfile/list", `.detail` iff it equals "/githubProfile/detail", nil iff neither |
| DeeplinkPath.FromUrlIsFromRawValue | Packages/TxDeeplink/Sources/TxDeeplink/TxDeeplinkPath+GithubProfile.swift:32-41 | parsing a URL is parsing its path as a raw value |
| DeeplinkPath.FromUrlRoundTrip | Packages/TxDeeplink/Sources/TxDeeplink/TxDeeplinkPath+GithubProfile.swift:31-42 | a URL whose path is a case's raw value parses back to that case |
| DeeplinkPath.FromUrlReadsOnlyPath | Packages/TxDeeplink/Sources/TxDeeplink/TxDeeplinkPath+GithubProfile.swift:32 | two URLs with the same path parse alike, whatever their scheme, host, query or string |
| DeeplinkPath.AllCasesExact | Packages/TxDeeplink/Sources/TxDeeplink/TxDeeplinkPath+GithubProfile.swift:15-25 | `allCases` holds every case, has two distinct entries, and the raw values are distinct |
| DeeplinkPath.ExactMatchExamples | Packages/TxDeeplink/Sources/TxDeeplink/TxDeeplinkPath+GithubProfile.swift:33-41 | no case folding and no prefix match; a trailing slash is absorbed by `URL.path` only |
| GithubProfileDeeplinkHandler.CanOpenUrl | Features/TxGithubProfiles/Sources/TxGithubProfiles/Configuration/TxGithubProfileDeeplinkHandler.swift:25-31 | true iff the absolute string contains "/githubProfile/list" or "/githubProfile/detail" |
| GithubProfileDeeplinkHandler.OpenUrl | Features/TxGithubProfiles/Sources/TxGithubProfiles/Configuration/TxGithubProfileDeeplinkHandler.swift:42-59 | with no registered navigation nothing happens; otherwise the navigation receives exactly the calls `OpenUrlCalls` lists, appended to its earlier calls |
| GithubProfileDeeplinkHandler.AtMostOneCall | Features/TxGithubProfiles/Sources/TxGithubProfiles/Configuration/TxGithubProfileDeeplinkHandler.swift:49-58 | each `openURL` makes at most one navigation call |
| GithubProfileDeeplinkHandler.ListRouteCalls | Features/TxGithubProfiles/Sources/TxGithubProfiles/Configuration/TxGithubProfileDeeplinkHandler.swift:50-51 | the list path makes exactly one `routeToUserlist` call, whatever the query |
| GithubProfileDeeplinkHandler.DetailRouteWithLogin | Features/TxGithubProfiles/Sources/TxGithubProfiles/Configuration/TxGithubProfileDeeplinkHandler.swift:52-57 | the detail path whose last `loginUsername` item has value v makes exactly one `routeToUserDetail(v)` call |
| GithubProfileDeeplinkHandler.DetailRouteWithoutLogin | Features/TxGithubProfiles/Sources/TxGithubProfiles/Configuration/TxGithubProfileDeeplinkHandler.swift:53-56 | the detail path without any `loginUsername` item makes no call |
| GithubProfileDeeplinkHandler.RoutedImpliesAccepted | Features/TxGithubProfiles/Sources/TxGithubProfiles/Configuration/TxGithubProfileDeeplinkHandler.swift:25-45 | a URL whose string contains its path and that `openURL` routes is accepted by `canOpenURL`; the string condition is what rendering guarantees for the app's own links (`DeeplinkContainsRoute`) |
| GithubProfileDeeplinkHandler.AcceptedButIgnored | Features/TxGithubProfiles/Sources/TxGithubProfiles/Configuration/TxGithubProfileDeeplinkHandler.swift:26-30 | the converse fails: `gitadmin-app://com.tx/githubProfile/listing` is accepted and yet makes no navigation call |
| GithubProfileDeeplinkHandler.DetailDeeplinkNavigates | Features/TxGithubProfiles/Sources/TxGithubProfiles/Configuration/TxGithubProfileDeeplinkHandler.swift:25-57 | the helper's detail link with `loginUsername=v` is accepted by `canOpenURL` and routes to user v |
| GithubProfileDeeplinkHandler.DetailDeeplinkEndToEnd | Features/TxGithubProfiles/Sources/TxGithubProfiles/Configuration/TxGithubProfileDeeplinkHandler.swift:25-57 | a coordinator holding this handler first, before any handlers of other features, dispatches that link to it, and it routes to user v |
| GithubProfileDeeplinkHandler.DetailDeeplinkWithoutQueryDropped | Features/TxGithubProfiles/Sources/TxGithubProfiles/Configuration/TxGithubProfileDeeplinkHandler.swift:53-56 | the helper's detail link without parameters is accepted but makes no navigation call |
| GithubProfileDeeplinkHandler.OpenUrlCalls | Features/TxGithubProfiles/Sources/TxGithubProfiles/Configuration/TxGithubProfileDeeplinkHandler.swift:49-58 | the calls of `openURL`; `AtMostOneCall`, `ListRouteCalls`, `DetailRouteWithLogin` and `DetailRouteWithoutLogin` state them |
| Navigation.NavigationRecorder.RouteToUserlist | Features/TxGithubProfiles/Sources/TxGithubProfiles/Configuration/TxGithubProfileNavigation.swift:18 | records exactly one user-list call |
| Navigation.NavigationRecorder.RouteToUserDetail | Features/TxGithubProfiles/Sources/TxGithubProfiles/Configuration/TxGithubProfileNavigation.swift:23 | records exactly one detail call with the given login |
| Navigation.NavigationRecorder.GoBack | Features/TxGithubProfiles/Sources/TxGithubProfiles/Configuration/TxGithubProfileNavigation.swift:26 | records exactly one back call |
| DeeplinkHelper.QueryItemsOf | Packages/TxDeeplink/Sources/TxDeeplink/TxDeeplinkHelper.swift:30-33 | nil parameters are dropped: every item comes from a non-nil parameter with the same name and value, and every non-nil parameter gives an item |
| DeeplinkHelper.QueryItemNamesDistinct | Packages/TxDeeplink/Sources/TxDeeplink/TxDeeplinkHelper.swift:30-33 | distinct parameter names give distinct item names: one item per non-nil parameter |
| DeeplinkHelper.MakeUrl | Packages/TxDeeplink/Sources/TxDeeplink/TxDeeplinkHelper.swift:29-40 | always a URL with scheme "gitadmin-app" and host "com.tx"; the path gets a leading "/" only when it lacks one; the query items are the non-nil parameters |
| DeeplinkHelper.MakeUrlFrom | Packages/TxDeeplink/Sources/TxDeeplink/TxDeeplinkHelper.swift:46-51 | nil iff the string does not parse or its path cannot follow an authority; otherwise only scheme and host are replaced, and user, password, port, path, query and fragment are kept in the URL and its string |
| DeeplinkHelper.MakeDeeplink | Packages/TxDeeplink/Sources/TxDeeplink/TxDeeplinkHelper.swift:59-61 | the link always exists and parses back to its route |
| DeeplinkHelper.MakeDeeplinkIsMakeUrl | Packages/TxDeeplink/Sources/TxDeeplink/TxDeeplinkHelper.swift:59-61 | `makeDeeplink` equals `makeUrl` of the route's raw value |
| DeeplinkHelper.MakeUrlExample | Packages/TxDeeplink/Sources/TxDeeplink/TxDeeplinkHelper.swift:29-40 | `("/test", [key1: value1, key2: nil])` gives path "/test" with the single item key1=value1 |
| DeeplinkHelper.MakeUrlSlashExample | Packages/TxDeeplink/Sources/TxDeeplink/TxDeeplinkHelper.swift:29-40 | "test" without parameters gives `gitadmin-app://com.tx/test?` |
| DeeplinkHelper.DeeplinkContainsRoute | Packages/TxDeeplink/Sources/TxDeeplink/TxDeeplinkHelper.swift:59-61 | the string of a route's deep link contains the route's path |
| DeeplinkHelper.MakeUrlFromExample | Packages/TxDeeplink/Sources/TxDeeplink/TxDeeplinkHelper.swift:46-51 | an https URL becomes `gitadmin-app://com.tx/test`; a host-less relative path gives nil |
| DeeplinkHelper.MakeUrlFromKeepsPortAndFragment | Packages/TxDeeplink/Sources/TxDeeplink/TxDeeplinkHelper.swift:46-51 | without user information or query, port p and fragment f survive: `gitadmin-app://com.tx:<p><path>#<f>` |
| DeeplinkHelper.LeadingSlashPath | Packages/TxDeeplink/Sources/TxDeeplink/TxDeeplinkHelper.swift:37 | always begins with "/"; the path is unchanged iff it already did, and otherwise gets "/" in front |
| Foundation.Url.Path | Packages/TxDeeplink/Sources/TxDeeplink/TxDeeplinkPath+GithubProfile.swift:32 | `URL.path`: the raw path with a trailing slash dropped, the root "/" excepted |
| Foundation.ComponentsString | Packages/TxDeeplink/Sources/TxDeeplink/TxDeeplinkHelper.swift:34-39 | `URLComponents.string`; `ComponentsStringOfAll`, `MakeUrl` and `MakeUrlFromKeepsPortAndFragment` state its result |
| Foundation.ComponentsUrl | Packages/TxDeeplink/Sources/TxDeeplink/TxDeeplinkHelper.swift:39 | `URLComponents.url`: nil exactly in the two cases Foundation documents, and otherwise a URL carrying the components and their string |
| Foundation.HasSubstring | Features/TxGithubProfiles/Sources/TxGithubProfiles/Configuration/TxGithubProfileDeeplinkHandler.swift:29 | `String.contains`; `SubstringBeforeTwo` and `DeeplinkContainsRoute` produce it for the app's own links |
| UrlExtensions.ParseQueryParameters | Packages/TxFoundation/Sources/TxFoundation/Extensions/URL+Extensions.swift:11-23 | the loop's result is the in-order fold of the query items, empty without query items |
| UrlExtensions.NoQueryItemsGiveEmpty | Packages/TxFoundation/Sources/TxFoundation/Extensions/URL+Extensions.swift:12-17 | no query items, or an empty query, give an empty dictionary |
| UrlExtensions.AbsentNameNotKey | Packages/TxFoundation/Sources/TxFoundation/Extensions/URL+Extensions.swift:18-21 | a name no item carries is not a key |
| UrlExtensions.LastItemWins | Packages/TxFoundation/Sources/TxFoundation/Extensions/URL+Extensions.swift:19-21 | the last item with a name decides: its value if it has one, otherwise the name is absent |
| UrlExtensions.KeysAreItemNames | Packages/TxFoundation/Sources/TxFoundation/Extensions/URL+Extensions.swift:18-23 | every key of the result is some item's name |
| UrlExtensions.DistinctNamesMapToValues | Packages/TxFoundation/Sources/TxFoundation/Extensions/URL+Extensions.swift:19-21 | with distinct names, each item with a value maps its name to that value |
| UrlExtensions.ValuelessItemRemoves | Packages/TxFoundation/Sources/TxFoundation/Extensions/URL+Extensions.swift:20 | a trailing item without value removes its name, whatever came before |
| UrlExtensions.ApplyItem | Packages/TxFoundation/Sources/TxFoundation/Extensions/URL+Extensions.swift:20 | one `parameters[name] = value` step; `LastItemWins` and `ValuelessItemRemoves` state its effect |
| UrlExtensions.QueryMap | Packages/TxFoundation/Sources/TxFoundation/Extensions/URL+Extensions.swift:18-21 | the in-order fold; `LastItemWins`, `KeysAreItemNames` and `DistinctNamesMapToValues` state its meaning |
| UrlExtensions.QueryParameters | Packages/TxFoundation/Sources/TxFoundation/Extensions/URL+Extensions.swift:11-23 | the result of `parseQueryParameters()`; `ParseQueryParameters` is proved equal to it and `NoQueryItemsGiveEmpty` covers the missing query |
| NetworkModels.InitDefaults | Packages/TxNetworking/Sources/TxNetworkModels/TxResponseError.swift:54-72 | the initialiser's defaults: it stores the error type and leaves every field not given nil |
| NetworkModels.EnumerationsExact | Packages/TxNetworking/Sources/TxNetworkModels/TxResponseError.swift:77-110 | the shape of the enumerations: `ErrorType` has exactly four kinds, `NetworkErrorType` three, `AlertActionNetworkError` two |
| Moya.StringField | Packages/TxNetworking/Sources/TxMoyaExt/TxMoyaProvider+Ext.swift:150-151 | `json[field].string` is present iff the body is an object whose field is a string, and then it is that string |
| MoyaProviderExt.MakeResponseError | Packages/TxNetworking/Sources/TxMoyaExt/TxMoyaProvider+Ext.swift:146-186 | always a server error with the status code and body; key and message are the body's string fields (both nil when it is not JSON); nothing else is set |
| MoyaProviderExt.MakeResponseErrorCases | Packages/TxNetworking/Sources/TxMoyaExt/TxMoyaProvider+Ext.swift:150-185 | a string key brings the possibly nil message; a message alone leaves the key nil; an unparsable body gives neither |
| MoyaProviderExt.InspectedError | Packages/TxNetworking/Sources/TxMoyaExt/TxMoyaProvider+Ext.swift:58-66 | a `sessionTaskFailed` is unwrapped to the error it wraps; any other error is inspected as bridged |
| MoyaProviderExt.NetworkKind | Packages/TxNetworking/Sources/TxMoyaExt/TxMoyaProvider+Ext.swift:67-105 | no connection iff `NSURLErrorDomain` with code -1009; time-out iff that domain with -1001; unknown otherwise, in particular outside the domain |
| MoyaProviderExt.ClassifyFailure | Packages/TxNetworking/Sources/TxMoyaExt/TxMoyaProvider+Ext.swift:55-116 | a status-code failure is `makeResponseError`; an underlying error is a network error of its kind with empty message and key, the response's status code and the cause; anything else is a server error without status code |
| MoyaProviderExt.PerformRequest | Packages/TxNetworking/Sources/TxMoyaExt/TxMoyaProvider+Ext.swift:40-116 | succeeds iff a response arrives with a 200–299 status, and then with its data unchanged; any other response gives `makeResponseError`; a failure gives its classification |
| MoyaProviderExt.StatusCodeFailureAgrees | Packages/TxNetworking/Sources/TxMoyaExt/TxMoyaProvider+Ext.swift:44-57 | a `statusCode` failure and a delivered non-2xx response are reported alike |
| MoyaProviderExt.NeverDecodingOrUnknown | Packages/TxNetworking/Sources/TxMoyaExt/TxMoyaProvider+Ext.swift:55-116 | the classification never yields `.decoding` or `.unknown` |
| MoyaProviderExt.SessionTaskFailedUnwrapped | Packages/TxNetworking/Sources/TxMoyaExt/TxMoyaProvider+Ext.swift:58-66 | a failed session task is classified by the error it wraps |
| MoyaProviderExt.UnderlyingExamples | Packages/TxNetworking/Sources/TxMoyaExt/TxMoyaProvider+Ext.swift:67-105 | -1009 and -1001 in `NSURLErrorDomain` are recognised; -1005 there, and -1009 elsewhere, are unknown |
| MoyaProviderExt.PerformDecodedRequest | Packages/TxNetworking/Sources/TxMoyaExt/TxMoyaProvider+Ext.swift:131-135 | a request failure is thrown as the `TxResponseError`; otherwise the decoder's result, its error thrown as is |
| MoyaProviderExt.DecodeFailureNotWrapped | Packages/TxNetworking/Sources/TxMoyaExt/TxMoyaProvider+Ext.swift:131-135 | a decoder failure reaches the caller as that error, not as `.decoding` |
| ApiClient.TxApiClient.constructor | Packages/TxNetworking/Sources/TxApiClient/TxApiClient.swift:96-110 | the four stored handlers start as the no-op defaults |
| ApiClient.TxApiClient.Effective | Packages/TxNetworking/Sources/TxApiClient/TxApiClient.swift:136-139 | each handler given as an argument overrides the stored one; a nil argument falls back to it |
| ApiClient.TxApiClient.PerformRequest | Packages/TxNetworking/Sources/TxApiClient/TxApiClient.swift:129-172 | the calls made are `RequestTrace` of the effective handlers, and the call returns or rethrows as `RequestOutcome` says |
| ApiClient.LoadingStatesAppend | Packages/TxNetworking/Sources/TxApiClient/TxApiClient.swift:142-169 | the loading reports of two traces in a row are the reports of each, in order |
| ApiClient.LoadingBracketed | Packages/TxNetworking/Sources/TxApiClient/TxApiClient.swift:142-169 | every outcome reports loading exactly twice, true before the action and false after it, with the same handler |
| ApiClient.SuccessTrace | Packages/TxNetworking/Sources/TxApiClient/TxApiClient.swift:141-146 | on success the trace is loading(true), action, loading(false), and the result is returned |
| ApiClient.NetworkErrorAlertsConnection | Packages/TxNetworking/Sources/TxApiClient/TxApiClient.swift:153-157 | a network `TxResponseError` raises the connection alert with its kind, never the common alert, and returns nil |
| ApiClient.OtherResponseErrorAlertsCommon | Packages/TxNetworking/Sources/TxApiClient/TxApiClient.swift:158-163 | any other `TxResponseError` raises the common alert with the error, never the connection alert, and returns nil |
| ApiClient.ChoiceForwarded | Packages/TxNetworking/Sources/TxApiClient/TxApiClient.swift:155-161 | when the selected alert handler is installed, the action chosen in its alert reaches `onAlertNetworkAction`, last, with the same error |
| ApiClient.NoOpAlertNeverForwards | Packages/TxNetworking/Sources/TxApiClient/TxApiClient.swift:153-161 | when the selected alert handler is the no-op default, no action is forwarded and the trace has only its four other calls |
| ApiClient.DefaultClientNeverForwards | Packages/TxNetworking/Sources/TxApiClient/TxApiClient.swift:96-161 | a client left at its defaults never calls `onAlertNetworkAction`, whatever the outcome and the button |
| ApiClient.OtherErrorRethrown | Packages/TxNetworking/Sources/TxApiClient/TxApiClient.swift:164-171 | any other error raises no alert and is rethrown unchanged |
| ApiClient.AlertHandler | Packages/TxNetworking/Sources/TxApiClient/TxApiClient.swift:153-161 | the handler a `TxResponseError` goes to; `NetworkErrorAlertsConnection`, `OtherResponseErrorAlertsCommon`, `ChoiceForwarded` and `NoOpAlertNeverForwards` state its role |
| ApiClient.RequestTrace | Packages/TxNetworking/Sources/TxApiClient/TxApiClient.swift:141-171 | the calls `performRequest` makes; `LoadingBracketed`, `SuccessTrace`, the alert lemmas and `OtherErrorRethrown` state its meaning |
| ApiClient.RequestOutcome | Packages/TxNetworking/Sources/TxApiClient/TxApiClient.swift:141-171 | what `performRequest` returns or rethrows; `SuccessTrace`, the alert lemmas and `OtherErrorRethrown` state it |
| GithubUserTarget.TargetBuilder.Path | Packages/TxNetworking/Sources/TxGithubUserManagerService/TxGithubUserTargetBuilder.swift:26-33 | "/users" for the list, "/users/" followed by the login for a user |
| GithubUserTarget.TargetBuilder.Method | Packages/TxNetworking/Sources/TxGithubUserManagerService/TxGithubUserTargetBuilder.swift:36-41 | GET for every operation |
| GithubUserTarget.TargetBuilder.Task | Packages/TxNetworking/Sources/TxGithubUserManagerService/TxGithubUserTargetBuilder.swift:46-59 | the list sends `per_page` and `since` as a query string; a user request is plain |
| GithubUserTarget.TargetBuilder.Validation | Packages/TxNetworking/Sources/TxGithubUserManagerService/TxGithubUserTargetBuilder.swift:62-64 | no validation |
| GithubUserTarget.TargetBuilder.Headers | Packages/TxNetworking/Sources/TxGithubUserManagerService/TxGithubUserTargetBuilder.swift:67-69 | exactly `Content-Type: application/json` |
| GithubUserTarget.TargetBuilder.Authorization | Packages/TxNetworking/Sources/TxGithubUserManagerService/TxGithubUserTargetBuilder.swift:72-74 | bearer authorization |
| GithubUserTarget.GetUsersParameters | Packages/TxNetworking/Sources/TxGithubUserManagerService/TxGithubUserTargetBuilder.swift:48-55 | the list request's parameters are exactly `per_page` = page size and `since` = since |
| GithubUserTarget.PathsDistinguishUsers | Packages/TxNetworking/Sources/TxGithubUserManagerService/TxGithubUserTargetBuilder.swift:26-33 | equal paths mean both are list requests or both ask for the same login |
| GithubUserTarget.DetailPathExample | Packages/TxNetworking/Sources/TxGithubUserManagerService/TxGithubUserTargetBuilder.swift:23-31 | `getUserDetail("mojombo")` asks for "/users/mojombo" and keeps its base URL |
| GithubUserParser.ToDomainUser | Features/TxGithubProfiles/Sources/TxGithubProfiles/Data/TxParsers/TxGithubUserParser.swift:21-33 | each domain field is its DTO field, renamed where the names differ, or 0 / "" when missing |
| GithubUserParser.CompleteDtoRoundTrip | Features/TxGithubProfiles/Sources/TxGithubProfiles/Data/TxParsers/TxGithubUserParser.swift:21-33 | a DTO with every field present parses back to the user it was made from: present fields are copied unchanged |
| GithubUserParser.RenamedFields | Features/TxGithubProfiles/Sources/TxGithubProfiles/Data/TxParsers/TxGithubUserParser.swift:25-31 | `login`, `html_url` and `blog` become `username`, `landingPageUrl` and `blogUrl` |
| GithubUserParser.EmptyDtoDefaults | Features/TxGithubProfiles/Sources/TxGithubProfiles/Data/TxParsers/TxGithubUserParser.swift:23-31 | an empty DTO gives zero counts and id and empty strings |
| UserUIMapper.ToMapListUI | Features/TxGithubProfiles/Sources/TxGithubProfiles/Presentation/Models/Mappers/TxUserIUIMapper.swift:21-30 | id, avatar, landing page and location are copied; both name and login are the username |
| UserUIMapper.MapListUI | Features/TxGithubProfiles/Sources/TxGithubProfiles/Presentation/UserList/TxUserListViewModel.swift:39 | the mapped list has the users' length and maps each user in place |
| UserUIMapper.MapListAppend | Features/TxGithubProfiles/Sources/TxGithubProfiles/Presentation/UserList/TxUserListViewModel.swift:63 | mapping a concatenation maps each part, in order |
| UserUIMapper.ToMapDetailUI | Features/TxGithubProfiles/Sources/TxGithubProfiles/Presentation/Models/Mappers/TxUserIUIMapper.swift:41-52 | `baseInfo` is the list model of the same user, the blog is copied, and the counts are capped at 100 and 10 |
| UserUIMapper.CountLabelMeaning | Features/TxGithubProfiles/Sources/TxGithubProfiles/Presentation/Models/Mappers/TxUserIUIMapper.swift:44-45 | a label ends in "+" iff the count exceeds the cap, and the number it shows parses back to the count capped at the cap |
| UserUIMapper.CapExamples | Features/TxGithubProfiles/Sources/TxGithubProfiles/Configuration/TxGithubConstants.swift:18-21 | 100 followers show "100" and 101 show "100+"; 10 following show "10" and 20 show "10+" |
| UserUIMapper.MappingIgnoresName | Features/TxGithubProfiles/Sources/TxGithubProfiles/Presentation/Models/Mappers/TxUserIUIMapper.swift:21-52 | both mappings depend only on the user's shown fields; the domain name is never shown |
| UserUIMapper.CountLabel | Features/TxGithubProfiles/Sources/TxGithubProfiles/Presentation/Models/Mappers/TxUserIUIMapper.swift:44-45 | the count label; `CountLabelMeaning` and `CapExamples` state its meaning |
| Decimal.DecimalRoundTrip | Features/TxGithubProfiles/Sources/TxGithubProfiles/Presentation/Models/Mappers/TxUserIUIMapper.swift:44-45 | `Int("\(n)")` gives n back for every integer |
| Decimal.DecimalInjective | Features/TxGithubProfiles/Sources/TxGithubProfiles/Presentation/Models/Mappers/TxUserIUIMapper.swift:44-45 | different counts render differently |
| Decimal.DecimalExamples | Features/TxGithubProfiles/Sources/TxGithubProfiles/Presentation/Models/Mappers/TxUserIUIMapper.swift:44-45 | 0, 7, 100 and -42 render as "0", "7", "100" and "-42" |
| Decimal.IntToDecimal | Features/TxGithubProfiles/Sources/TxGithubProfiles/Presentation/Models/Mappers/TxUserIUIMapper.swift:44-45 | `"\(n)"`: never empty, a leading "-" iff negative, digits otherwise; `DecimalRoundTrip` and `DecimalInjective` state that it renders n exactly |
| UserRepository.GetUsers | Features/TxGithubProfiles/Sources/TxGithubProfiles/Data/Repositories/TxUserRepositoryImpl.swift:87-89 | the fixed list, in its declared order, whatever page and size are asked for |
| UserRepository.FirstWithId | Features/TxGithubProfiles/Sources/TxGithubProfiles/Data/Repositories/TxUserRepositoryImpl.swift:92 | the index found carries the id and no earlier user does; none found means no user does |
| UserRepository.GetUserDetail | Features/TxGithubProfiles/Sources/TxGithubProfiles/Data/Repositories/TxUserRepositoryImpl.swift:91-96 | succeeds iff some listed user has the id, with the first such user, whose id is the one asked for; otherwise the error is ("TxUserRepository", 404) |
| UserRepository.IdsDistinct | Features/TxGithubProfiles/Sources/TxGithubProfiles/Data/Repositories/TxUserRepositoryImpl.swift:5-83 | the listed ids are pairwise distinct |
| UserRepository.ListedUsersFound | Features/TxGithubProfiles/Sources/TxGithubProfiles/Data/Repositories/TxUserRepositoryImpl.swift:91-96 | every listed user is found by its id |
| UserRepository.LookupExamples | Features/TxGithubProfiles/Sources/TxGithubProfiles/Data/Repositories/TxUserRepositoryImpl.swift:91-96 | "12" is Sandy with 101 followers and 20 following; "7" fails with 404 |
| UserListViewModel.TxUserListViewModel.constructor | Features/TxGithubProfiles/Sources/TxGithubProfiles/Presentation/UserList/TxUserListViewModel.swift:7-12 | starts loading, with no users, page 1, not loading and no more data |
| UserListViewModel.TxUserListViewModel.HasData | Features/TxGithubProfiles/Sources/TxGithubProfiles/Presentation/UserList/TxUserListViewModel.swift:14-16 | true iff there are users |
| UserListViewModel.TxUserListViewModel.LoadInitialUsers | Features/TxGithubProfiles/Sources/TxGithubProfiles/Presentation/UserList/TxUserListViewModel.swift:29-38 | moves the fields as `BeginInitial`; asks for page 1 of 20 unless a load is in flight, in which case nothing happens |
| UserListViewModel.TxUserListViewModel.LoadMoreData | Features/TxGithubProfiles/Sources/TxGithubProfiles/Presentation/UserList/TxUserListViewModel.swift:53-62 | moves the fields as `BeginMore`; asks for the current page only when idle with more data expected |
| UserListViewModel.TxUserListViewModel.CompleteFetch | Features/TxGithubProfiles/Sources/TxGithubProfiles/Presentation/UserList/TxUserListViewModel.swift:39-48 | moves the fields as `Complete` with the fetch's outcome |
| UserListViewModel.TxUserListViewModel.GotoDetail | Features/TxGithubProfiles/Sources/TxGithubProfiles/Presentation/UserList/TxUserListViewModel.swift:77-79 | makes exactly one detail navigation call, with the user id |
| UserListViewModel.StepsPreserveValid | Features/TxGithubProfiles/Sources/TxGithubProfiles/Presentation/UserList/TxUserListViewModel.swift:29-74 | the initial state is valid and each step keeps it valid: loading iff a task is pending, the shown data is the user list, never an error state |
| UserListViewModel.LoadingGuards | Features/TxGithubProfiles/Sources/TxGithubProfiles/Presentation/UserList/TxUserListViewModel.swift:30-54 | while loading, neither load changes anything |
| UserListViewModel.LoadMoreGuard | Features/TxGithubProfiles/Sources/TxGithubProfiles/Presentation/UserList/TxUserListViewModel.swift:54-55 | `loadMoreData` acts iff idle with more data expected, and then keeps the page |
| UserListViewModel.SuccessEffect | Features/TxGithubProfiles/Sources/TxGithubProfiles/Presentation/UserList/TxUserListViewModel.swift:39-43 | after a success: idle, page advanced by one, more data iff a full page of 20 came, state shows the users; initial load replaces, further load appends in fetch order |
| UserListViewModel.FailureEffect | Features/TxGithubProfiles/Sources/TxGithubProfiles/Presentation/UserList/TxUserListViewModel.swift:44-48 | after a failure: idle, no more data, error message set; users, state and page unchanged; `loadMoreData` then does nothing |
| UserListViewModel.InitialLoadResets | Features/TxGithubProfiles/Sources/TxGithubProfiles/Presentation/UserList/TxUserListViewModel.swift:32-42 | an initial load starts from page 1 whatever page was reached; its success leaves page 2 and the fetched users only |
| UserListViewModel.RunPreservesValid | Features/TxGithubProfiles/Sources/TxGithubProfiles/Presentation/UserList/TxUserListViewModel.swift:29-74 | every state reachable by any sequence of loads and completions is valid |
| UserListViewModel.FailureBlocksLoadMore | Features/TxGithubProfiles/Sources/TxGithubProfiles/Presentation/UserList/TxUserListViewModel.swift:54 | once idle with no more data, any number of `loadMoreData` calls changes nothing |
| UserListViewModel.StateEqualsMeaning | Features/TxGithubProfiles/Sources/TxGithubProfiles/Presentation/UserList/TxUserListViewModel.swift:88-99 | `==` is structural equality, except that any two errors are equal |
| UserListViewModel.StateEqualsEquivalence | Features/TxGithubProfiles/Sources/TxGithubProfiles/Presentation/UserList/TxUserListViewModel.swift:88-99 | `==` is reflexive, symmetric and transitive |
| UserListViewModel.StateEquals | Features/TxGithubProfiles/Sources/TxGithubProfiles/Presentation/UserList/TxUserListViewModel.swift:88-99 | `UserListState.==`; `StateEqualsMeaning` and `StateEqualsEquivalence` state its meaning |
| UserListViewModel.BeginInitial | Features/TxGithubProfiles/Sources/TxGithubProfiles/Presentation/UserList/TxUserListViewModel.swift:29-32 | the synchronous part of `loadInitialUsers()`; `LoadingGuards`, `InitialLoadResets` and `StepsPreserveValid` state what it does |
| UserListViewModel.BeginMore | Features/TxGithubProfiles/Sources/TxGithubProfiles/Presentation/UserList/TxUserListViewModel.swift:53-55 | the synchronous part of `loadMoreData()`; `LoadMoreGuard`, `LoadingGuards` and `StepsPreserveValid` state what it does |
| UserListViewModel.Complete | Features/TxGithubProfiles/Sources/TxGithubProfiles/Presentation/UserList/TxUserListViewModel.swift:39-48 | the scheduled task's effect; `SuccessEffect`, `FailureEffect` and `StepsPreserveValid` state it |
| UserDetailViewModel.Initial | Features/TxGithubProfiles/Sources/TxGithubProfiles/Presentation/UserDetail/TxUserDetailViewModel.swift:7-24 | not loading, no user, no error, not loaded, holding the given id |
| UserDetailViewModel.TxUserDetailViewModel.constructor | Features/TxGithubProfiles/Sources/TxGithubProfiles/Presentation/UserDetail/TxUserDetailViewModel.swift:22-24 | starts in the initial state for its id |
| UserDetailViewModel.TxUserDetailViewModel.FetchUserDetail | Features/TxGithubProfiles/Sources/TxGithubProfiles/Presentation/UserDetail/TxUserDetailViewModel.swift:27-32 | moves the fields as `BeginFetch`; asks for the construction id unless a fetch is in flight |
| UserDetailViewModel.TxUserDetailViewModel.CompleteFetch | Features/TxGithubProfiles/Sources/TxGithubProfiles/Presentation/UserDetail/TxUserDetailViewModel.swift:33-39 | moves the fields as `Complete` with the fetch's outcome |
| UserDetailViewModel.TxUserDetailViewModel.GoBack | Features/TxGithubProfiles/Sources/TxGithubProfiles/Presentation/UserDetail/TxUserDetailViewModel.swift:44-46 | makes exactly one back call and changes no field of the model |
| UserDetailViewModel.StepsPreserveValid | Features/TxGithubProfiles/Sources/TxGithubProfiles/Presentation/UserDetail/TxUserDetailViewModel.swift:27-40 | valid initially and after each step: loading iff a task is pending, loaded only with a user |
| UserDetailViewModel.FetchGuard | Features/TxGithubProfiles/Sources/TxGithubProfiles/Presentation/UserDetail/TxUserDetailViewModel.swift:28-29 | a fetch while loading changes nothing; otherwise it starts loading |
| UserDetailViewModel.CompletionEffect | Features/TxGithubProfiles/Sources/TxGithubProfiles/Presentation/UserDetail/TxUserDetailViewModel.swift:33-39 | success shows the mapped user, idle and loaded; failure records the error, idle, user and loaded flag unchanged |
| UserDetailViewModel.RunKeepsUserIdAndLatch | Features/TxGithubProfiles/Sources/TxGithubProfiles/Presentation/UserDetail/TxUserDetailViewModel.swift:10-35 | along any steps the id stays the one given at construction, and `dataLoaded` never returns to false |
| UserDetailViewModel.BeginFetch | Features/TxGithubProfiles/Sources/TxGithubProfiles/Presentation/UserDetail/TxUserDetailViewModel.swift:27-29 | the synchronous part of `fetchUserDetail()`; `FetchGuard` and `StepsPreserveValid` state what it does |
| UserDetailViewModel.Complete | Features/TxGithubProfiles/Sources/TxGithubProfiles/Presentation/UserDetail/TxUserDetailViewModel.swift:31-39 | the scheduled task's effect; `CompletionEffect` and `StepsPreserveValid` state it |
| AppSetup.NetworkErrorDetails | TxGitAdmin/Sources/TxGitAdminApp+setup.swift:146-165 | no connection gives the key "main.alert.common.network.no.connection", a time-out "main.alert.common.network.time.out", an unknown kind the generic "main.alert.common.error.message" |
| AppSetup.NetworkMessagesDistinct | TxGitAdmin/Sources/TxGitAdminApp+setup.swift:148-164 | different network kinds get different messages |
| AppSetup.ErrorDetails | TxGitAdmin/Sources/TxGitAdminApp+setup.swift:177-191 | a network error shows its kind's message; any other shows its message verbatim, or the generic key when it has none |
| AppSetup.NetworkErrorIgnoresMessage | TxGitAdmin/Sources/TxGitAdminApp+setup.swift:180-181 | for a network error the common and the connection alert say the same |
| AppSetup.ServerErrorWithoutMessage | TxGitAdmin/Sources/TxGitAdminApp+setup.swift:183-188 | an error response without a string message shows the generic key |
| AppSetup.OtherTransportFailureShowsEmptyText | TxGitAdmin/Sources/TxGitAdminApp+setup.swift:182-189 | a transport failure that is not a status code or an underlying error shows an empty text, since its message is "" |
| AppSetup.ButtonAction | TxGitAdmin/Sources/TxGitAdminApp+setup.swift:83-87 | retry sends `.retry` and close `.cancel`, the same in both installed alert handlers |
| AppSetup.TimeoutAlertRoundTrip | TxGitAdmin/Sources/TxGitAdminApp+setup.swift:90-100 | a time-out failing a request shows the time-out message, and the button pressed reaches `onAlertNetworkAction` as its action, through the connection handler the app installs |
| AppSetup.ConnectionAlert | TxGitAdmin/Sources/TxGitAdminApp+setup.swift:90-95 | the connection alert shown; `NetworkErrorIgnoresMessage` and `TimeoutAlertRoundTrip` state its content |
| AppSetup.CommonAlert | TxGitAdmin/Sources/TxGitAdminApp+setup.swift:73-82 | the common alert shown; `NetworkErrorIgnoresMessage` and `ServerErrorWithoutMessage` state its content |
| ColorHex.ScanHexInt64 | Packages/TxDesignSystem/Sources/TxTheme/Extensions/Color+Extensions.swift:28-29 | the scanned value never exceeds the largest `UInt64` |
| ColorHex.ScanBound | Packages/TxDesignSystem/Sources/TxTheme/Extensions/Color+Extensions.swift:29 | the value has no more hexadecimal digits than the string has characters |
| ColorHex.ScanAllHex | Packages/TxDesignSystem/Sources/TxTheme/Extensions/Color+Extensions.swift:29 | up to 8 hexadecimal digits are scanned whole, to the number they denote |
| ColorHex.TrimStart | Packages/TxDesignSystem/Sources/TxTheme/Extensions/Color+Extensions.swift:27 | the result is a suffix of the input that is empty or starts with an alphanumeric |
| ColorHex.TrimEnd | Packages/TxDesignSystem/Sources/TxTheme/Extensions/Color+Extensions.swift:27 | the result is a prefix of the input that is empty or ends with an alphanumeric |
| ColorHex.TrimStartDropsNonAlphanumerics | Packages/TxDesignSystem/Sources/TxTheme/Extensions/Color+Extensions.swift:27 | every character dropped at the start is a non-alphanumeric |
| ColorHex.TrimEndDropsNonAlphanumerics | Packages/TxDesignSystem/Sources/TxTheme/Extensions/Color+Extensions.swift:27 | every character dropped at the end is a non-alphanumeric |
| ColorHex.Trim | Packages/TxDesignSystem/Sources/TxTheme/Extensions/Color+Extensions.swift:27 | trimming both ends; `TrimStart`, `TrimEnd` and the two `Drops` lemmas state that exactly the non-alphanumerics at either end go, and `HashDigits` that "#" is dropped from hex digits |
| ColorHex.ArgbOfHex | Packages/TxDesignSystem/Sources/TxTheme/Extensions/Color+Extensions.swift:26-40 | `Color(hex:)`'s components: all four always lie in 0..255, whatever the string; the length cases are `ComponentsOfInRange`, `OtherLengthsOpaqueBlack` and the round-trip lemmas |
| ColorHex.ComponentsOf | Packages/TxDesignSystem/Sources/TxTheme/Extensions/Color+Extensions.swift:31-40 | the `switch` on the length; its meaning is stated by `ComponentsOfInRange`, `ShortComponents`, `RgbComponents`, `ArgbComponents` and `OtherLengthsOpaqueBlack` |
| ColorHex.ComponentsOfInRange | Packages/TxDesignSystem/Sources/TxTheme/Extensions/Color+Extensions.swift:31-40 | a value with no more hexadecimal digits than the length splits into components in 0..255, whatever the length |
| ColorHex.OtherLengthsOpaqueBlack | Packages/TxDesignSystem/Sources/TxTheme/Extensions/Color+Extensions.swift:38-39 | any trimmed length other than 3, 6 or 8 gives (255, 0, 0, 0) |
| ColorHex.HashDigits | Packages/TxDesignSystem/Sources/TxTheme/Extensions/Color+Extensions.swift:27-29 | "#" followed by one to eight hexadecimal digits is trimmed to the digits, which are scanned whole |
| ColorHex.ShortComponents | Packages/TxDesignSystem/Sources/TxTheme/Extensions/Color+Extensions.swift:32-33 | the 12-bit case turns the value of digits r, g, b into (255, 17r, 17g, 17b) |
| ColorHex.RgbComponents | Packages/TxDesignSystem/Sources/TxTheme/Extensions/Color+Extensions.swift:34-35 | the 24-bit case splits r·2^16 + g·2^8 + b into (255, r, g, b) |
| ColorHex.ArgbComponents | Packages/TxDesignSystem/Sources/TxTheme/Extensions/Color+Extensions.swift:36-37 | the 32-bit case splits a·2^24 + r·2^16 + g·2^8 + b into (a, r, g, b) |
| ColorHex.RgbRoundTrip | Packages/TxDesignSystem/Sources/TxTheme/Extensions/Color+Extensions.swift:27-35 | "#" and any six hexadecimal digits, of either case, denoting r·2^16 + g·2^8 + b give back (255, r, g, b) |
| ColorHex.ArgbRoundTrip | Packages/TxDesignSystem/Sources/TxTheme/Extensions/Color+Extensions.swift:27-37 | "#" and eight digits denoting a·2^24 + r·2^16 + g·2^8 + b give back (a, r, g, b): alpha comes from the top byte |
| ColorHex.ShortRoundTrip | Packages/TxDesignSystem/Sources/TxTheme/Extensions/Color+Extensions.swift:27-33 | "#" and three digits r, g, b give (255, 17r, 17g, 17b): each digit stands for itself repeated |
| ColorHex.WhiteExample | Packages/TxDesignSystem/Sources/TxTheme/Extensions/Color+Extensions.swift:27-35 | "#FFFFFF" is opaque white: the "#" is trimmed |
| ColorHex.ShortWhiteExample | Packages/TxDesignSystem/Sources/TxTheme/Extensions/Color+Extensions.swift:32-33 | "FFF" is opaque white too |
| ColorHex.FiveDigitExample | Packages/TxDesignSystem/Sources/TxTheme/Extensions/Color+Extensions.swift:38-39 | "#12345" has no recognised length and gives opaque black |
| Localization.FromRawValue | Packages/TxLocalization/Sources/TxLocalization/TxLocalization.swift:16-22 | succeeds iff the string is "vi" or "en", with the case of that raw value |
| Localization.RawValueRoundTrip | Packages/TxLocalization/Sources/TxLocalization/TxLocalization.swift:16-22 | each language's raw value parses back to it |
| Localization.Restore | Packages/TxLocalization/Sources/TxLocalization/TxLocalization.swift:38-39 | a stored known raw value gives its language; nothing stored, or anything else, gives English |
| Localization.RestoreAfterSave | Packages/TxLocalization/Sources/TxLocalization/TxLocalization.swift:31-39 | storing a language's raw value under "Tx_AppLanguage" and restoring gives that language back |
| Localization.EmptyStoreRestoresEnglish | Packages/TxLocalization/Sources/TxLocalization/TxLocalization.swift:38-39 | no value, "" and "VI" all restore English |
| Localization.UserDefaults.StringFor | Packages/TxLocalization/Sources/TxLocalization/TxLocalization.swift:38 | present iff the key is stored, with the stored string |
| Localization.UserDefaults.Set | Packages/TxLocalization/Sources/TxLocalization/TxLocalization.swift:31 | stores the value under the key and changes no other entry |
| Localization.L10n.constructor | Packages/TxLocalization/Sources/TxLocalization/TxLocalization.swift:37-40 | the language restored from the store under "Tx_AppLanguage"; the store is not written |
| Localization.L10n.SetCurrentLanguage | Packages/TxLocalization/Sources/TxLocalization/TxLocalization.swift:29-33 | assigning the language persists its raw value under "Tx_AppLanguage", and no other entry changes |
| Localization.L10n.UpdateTo | Packages/TxLocalization/Sources/TxLocalization/TxLocalization.swift:88-90 | sets the language and persists it |
| Localization.RestartKeepsLanguage | Packages/TxLocalization/Sources/TxLocalization/TxLocalization.swift:29-40 | after `update(to: l)` a fresh instance over the same store starts in l |
| Localization.LocaleIdentifier | Packages/TxLocalization/Sources/TxLocalization/TxLocalization.swift:95-102 | the identifier is the language's raw value, "_" and a region: "en_US" for English, "vi_VN" for Vietnamese |
| Localization.LocaleIdentifiersDistinct | Packages/TxLocalization/Sources/TxLocalization/TxLocalization.swift:95-102 | different languages have different locales |
| Localization.L10n.Locale | Packages/TxLocalization/Sources/TxLocalization/TxLocalization.swift:95-102 | the locale identifier of the current language: "en_US" in English, "vi_VN" in Vietnamese |

## Left out

- Percent-encoding: URL components are kept and rendered verbatim. An incoming URL's string is an input, so `RoutedImpliesAccepted` requires that it contains the path.
- `URLComponents(string:)`: parsing a URL string is not modelled. `MakeUrlFrom` takes the parsed components, or nil, as input.
- The ordering of a Swift dictionary's iteration: `makeUrl`'s parameters are a sequence in iteration order.
- The JSON parsers, `mapJSON` and SwiftyJSON: a response carries the outcome of parsing its body.
- `JSONDecoder`: the decoder is a function parameter.
- The Moya and Alamofire transport: sessions, continuations and request encoding. `performRequest` takes the transport's outcome as input.
- Logging (`TxLogger`, `logJSONResponse`, the `#if DEBUG` paths): output only.
- `Task` and `async`/`await` concurrency: each load is a call step and a completion step. Interleavings with other main-actor work are not modelled.
- `localized(key:...)`, and `localizedString` with its bundle lookup and `String(format:)`: messages are the localization keys they would look up.
- `showAlert`, `UIAlertController`, the loading HUD and every SwiftUI view: presentation only.
- `Double(x) / 255`: `Color(hex:)` is modelled up to its integer components.
- Unicode: alphanumerics are the ASCII letters and digits, and `count` is counted in characters.
- `UserDefaults` values other than strings.
- Resolver dependency injection: the navigation target and the fetch outcomes are parameters.
- Use cases.
- The account view models.
- DTO fields the parser does not read.
- GithubProfileDeeplinkHandler.OpenUrl: the navigation is either null or a recorder. Other implementations of the navigation protocol are not modelled.
- ColorHex.ScanAllHex: stated for at most 8 digits, all that `Color(hex:)` ever needs whole. Longer runs saturate, and `ScanHexInt64` covers them.
