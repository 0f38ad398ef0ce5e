/**
 * The user records of the GitHub-profile feature: the API's DTO, the domain user and the two
 * UI models. The domain and UI models are generic in the identifier type: the parser
 * produces integer identifiers, while the in-memory repository and the view models use
 * string identifiers.
 */
module GithubModels {
  import opened Wrappers

  /**
   * `TxGithubUserDTO`, restricted to the fields `toDomainUser` reads; every field of the
   * API's JSON is optional.
   */
  datatype GithubUserDto = GithubUserDto(
    login: Option<string>,
    id: Option<int>,
    avatar_url: Option<string>,
    html_url: Option<string>,
    name: Option<string>,
    blog: Option<string>,
    location: Option<string>,
    followers: Option<int>,
    following: Option<int>)

  /** `TxGithubUser`. */
  datatype GithubUser<Id> = GithubUser(
    id: Id,
    name: string,
    username: string,
    avatarUrl: string,
    landingPageUrl: string,
    location: string,
    followers: int,
    following: int,
    blogUrl: string)

  /** `TxUserItemUIModel`: one row of the user list. */
  datatype UserItemUI<Id> = UserItemUI(
    id: Id,
    name: string,
    loginUsername: string,
    avatarUrl: string,
    landingPageUrl: string,
    location: string)

  /** `TxUserDetailUIModel`: the list row plus the rendered counts and the blog link. */
  datatype UserDetailUI<Id> = UserDetailUI(
    baseInfo: UserItemUI<Id>,
    followers: string,
    following: string,
    blogUrl: string)
}
